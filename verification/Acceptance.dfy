/** Exactly which lists of parts a slice-free type accepts. */
module Acceptance {
  import opened Basics
  import opened Schema

  /** The leaf types of a slice-free type, left to right. */
  function Flatten(ty: Ty): seq<Ty>
    decreases ty, 0
  {
    match ty
    case TStruct(ts) => FlattenAll(ts)
    case TPtr(t) => Flatten(t)
    case TSlice(_) => []
    case _ => [ty]
  }

  function FlattenAll(ts: seq<Ty>): seq<Ty>
    decreases ts, 0
  {
    if ts == [] then [] else Flatten(ts[0]) + FlattenAll(ts[1..])
  }

  /** The leaves of a value, left to right. */
  function LeavesOf(v: Value): seq<Value>
    decreases v, 0
  {
    match v
    case VStruct(fs) => LeavesOfAll(fs)
    case VSlice(es) => LeavesOfAll(es)
    case VPtr(x) => LeavesOf(x)
    case _ => [v]
  }

  function LeavesOfAll(vs: seq<Value>): seq<Value>
    decreases vs, 0
  {
    if vs == [] then [] else LeavesOf(vs[0]) + LeavesOfAll(vs[1..])
  }

  ghost predicate AllLeaves(ls: seq<Ty>) { forall i :: 0 <= i < |ls| ==> IsLeaf(ls[i]) }

  lemma {:induction false} FlattenIsLeaves(ty: Ty)
    ensures AllLeaves(Flatten(ty))
    decreases ty, 0
  {
    match ty
    case TStruct(ts) => FlattenAllIsLeaves(ts);
    case TPtr(t) => FlattenIsLeaves(t);
    case _ =>
  }

  lemma {:induction false} FlattenAllIsLeaves(ts: seq<Ty>)
    ensures AllLeaves(FlattenAll(ts))
    decreases ts, 0
  {
    if ts != [] {
      FlattenIsLeaves(ts[0]);
      FlattenAllIsLeaves(ts[1..]);
    }
  }

  /** The flat reference reader: one part for one leaf, in order. */
  function ReadFlat(ls: seq<Ty>, parts: seq<Bytes>): (r: Outcome<seq<Value>>)
    requires AllLeaves(ls)
    ensures r.Got? ==> r.consumed == |ls| <= |parts|
  {
    if ls == [] then Got([], 0)
    else if parts == [] then Fail(IndexPanic)
    else match ParseLeaf(ls[0], parts[0])
      case Err(why) => Fail(why)
      case Ok(v) => match ReadFlat(ls[1..], parts[1..])
        case Fail(why) => Fail(why)
        case Got(vs, c) => Got([v] + vs, c + 1)
  }

  function Then(r: Outcome<seq<Value>>, s: Outcome<seq<Value>>): Outcome<seq<Value>> {
    match r
    case Fail(why) => Fail(why)
    case Got(vs, c) => match s
      case Fail(why) => Fail(why)
      case Got(ws, c') => Got(vs + ws, c + c')
  }

  lemma {:induction false} ReadFlatAppend(a: seq<Ty>, b: seq<Ty>, parts: seq<Bytes>)
    requires AllLeaves(a) && AllLeaves(b)
    ensures AllLeaves(a + b)
    ensures ReadFlat(a + b, parts) ==
            if |a| <= |parts| then Then(ReadFlat(a, parts), ReadFlat(b, parts[|a|..])) else ReadFlat(a, parts)
  {
    if a == [] {
      assert a + b == b && parts[0..] == parts;
      assert ReadFlat(b, parts).Got? ==> [] + ReadFlat(b, parts).val == ReadFlat(b, parts).val;
    } else {
      assert (a + b)[0] == a[0] && (a + b)[1..] == a[1..] + b;
      if parts != [] {
        ReadFlatAppend(a[1..], b, parts[1..]);
        if |a| <= |parts| {
          assert parts[1..][|a| - 1..] == parts[|a|..];
          var l, r, s := ParseLeaf(a[0], parts[0]), ReadFlat(a[1..], parts[1..]), ReadFlat(b, parts[|a|..]);
          if l.Ok? && r.Got? && s.Got? {
            assert [l.value] + (r.val + s.val) == [l.value] + r.val + s.val;
          }
        }
      }
    }
  }

  /** The recursive parser and the flat reader agree: same leaves, same number of
      parts, same failure. */
  ghost predicate SameOutcome(nested: Outcome<Value>, flat: Outcome<seq<Value>>) {
    match nested
    case Fail(why) => flat == Fail(why)
    case Got(v, c) => flat == Got(LeavesOf(v), c)
  }

  lemma {:induction false} ParseIsFlatRead(ty: Ty, parts: seq<Bytes>)
    requires Fixed(ty)
    ensures AllLeaves(Flatten(ty)) && SameOutcome(ParseAny(ty, parts), ReadFlat(Flatten(ty), parts))
    decreases ty, 0
  {
    FlattenIsLeaves(ty);
    match ty
    case TStruct(ts) => ParseFieldsIsFlatRead(ts, parts);
    case TPtr(t) => ParseIsFlatRead(t, parts);
    case TSlice(_) =>
    case _ => LeafIsFlatRead(ty, parts);
  }

  lemma LeafIsFlatRead(ty: Ty, parts: seq<Bytes>)
    requires IsLeaf(ty)
    ensures AllLeaves(Flatten(ty)) && SameOutcome(ParseAny(ty, parts), ReadFlat(Flatten(ty), parts))
  {
    if parts != [] {
      assert ReadFlat([ty][1..], parts[1..]) == Got([], 0);
      var leaf := ParseLeaf(ty, parts[0]);
      if leaf.Ok? {
        assert LeavesOf(leaf.value) == [leaf.value] + [];
      }
    }
  }

  lemma {:induction false} ParseFieldsIsFlatRead(ts: seq<Ty>, parts: seq<Bytes>)
    requires forall i | 0 <= i < |ts| :: Fixed(ts[i])
    ensures AllLeaves(FlattenAll(ts))
    ensures match ParseFields(ts, parts)
            case Fail(why) => ReadFlat(FlattenAll(ts), parts) == Fail(why)
            case Got(vs, c) => ReadFlat(FlattenAll(ts), parts) == Got(LeavesOfAll(vs), c)
    decreases ts, 0
  {
    FlattenAllIsLeaves(ts);
    if ts != [] {
      var a, b := Flatten(ts[0]), FlattenAll(ts[1..]);
      FlattenIsLeaves(ts[0]);
      FlattenAllIsLeaves(ts[1..]);
      ReadFlatAppend(a, b, parts);
      ParseIsFlatRead(ts[0], parts);
      match ParseAny(ts[0], parts)
      case Fail(_) =>
      case Got(v, c) =>
        ParseFieldsIsFlatRead(ts[1..], parts[c..]);
        match ParseFields(ts[1..], parts[c..])
        case Fail(_) =>
        case Got(vs, _) => assert ([v] + vs)[1..] == vs;
    }
  }

  ghost predicate LeafParses(ls: seq<Ty>, parts: seq<Bytes>, i: int)
    requires AllLeaves(ls)
  {
    0 <= i < |ls| && i < |parts| && ParseLeaf(ls[i], parts[i]).Ok?
  }

  /** All the parts that have a leaf to fill parse as that leaf. */
  ghost predicate PrefixParses(ls: seq<Ty>, parts: seq<Bytes>)
    requires AllLeaves(ls)
  {
    forall i :: 0 <= i < |ls| && i < |parts| ==> LeafParses(ls, parts, i)
  }

  lemma {:induction false} FlatReadCases(ls: seq<Ty>, parts: seq<Bytes>)
    requires AllLeaves(ls)
    ensures ReadFlat(ls, parts).Got? <==> PrefixParses(ls, parts) && |ls| <= |parts|
    ensures ReadFlat(ls, parts) == Fail(IndexPanic) <==> PrefixParses(ls, parts) && |parts| < |ls|
    ensures ReadFlat(ls, parts).Got? ==>
      |ReadFlat(ls, parts).val| == |ls| &&
      forall i :: 0 <= i < |ls| ==> ParseLeaf(ls[i], parts[i]) == Ok(ReadFlat(ls, parts).val[i])
  {
    if ls != [] && parts != [] {
      FlatReadCases(ls[1..], parts[1..]);
      assert forall i :: 0 < i < |ls| && i < |parts| ==> ls[1..][i - 1] == ls[i] && parts[1..][i - 1] == parts[i];
      assert PrefixParses(ls, parts) <==> LeafParses(ls, parts, 0) && PrefixParses(ls[1..], parts[1..]) by {
        if PrefixParses(ls, parts) {
          forall i | 0 <= i < |ls| - 1 && i < |parts| - 1 ensures LeafParses(ls[1..], parts[1..], i) {
            assert LeafParses(ls, parts, i + 1);
          }
        }
        if LeafParses(ls, parts, 0) && PrefixParses(ls[1..], parts[1..]) {
          forall i | 0 <= i < |ls| && i < |parts| ensures LeafParses(ls, parts, i) {
            if i > 0 { assert LeafParses(ls[1..], parts[1..], i - 1); }
          }
        }
      }
    }
  }

  // ---------- Termination of slice parsing ----------

  /** A parse of at least one part consumes at least one: what a slice needs of
      its element type. */
  ghost predicate Consumes(ty: Ty) {
    match ty
    case TStruct(ts) => exists i | 0 <= i < |ts| :: Consumes(ts[i])
    case TPtr(t) => Consumes(t)
    case _ => true
  }

  ghost predicate SlicesConsume(ty: Ty) {
    match ty
    case TStruct(ts) => forall i | 0 <= i < |ts| :: SlicesConsume(ts[i])
    case TSlice(t) => Consumes(t) && SlicesConsume(t)
    case TPtr(t) => SlicesConsume(t)
    case _ => true
  }

  lemma {:induction false} ConsumesProgress(ty: Ty, parts: seq<Bytes>)
    requires parts != [] && ParseAny(ty, parts).Got?
    ensures Consumes(ty) <==> ParseAny(ty, parts).consumed > 0
    decreases ty, 0
  {
    match ty
    case TStruct(ts) => ConsumesProgressFields(ts, parts);
    case TPtr(t) => ConsumesProgress(t, parts);
    case _ =>
  }

  lemma {:induction false} ConsumesProgressFields(ts: seq<Ty>, parts: seq<Bytes>)
    requires parts != [] && ParseFields(ts, parts).Got?
    ensures (exists i | 0 <= i < |ts| :: Consumes(ts[i])) <==> ParseFields(ts, parts).consumed > 0
    decreases ts, 0
  {
    if ts != [] {
      ConsumesProgress(ts[0], parts);
      var c := ParseAny(ts[0], parts).consumed;
      if c == 0 {
        assert parts[0..] == parts;
        ConsumesProgressFields(ts[1..], parts);
        if i :| 0 <= i < |ts| && Consumes(ts[i]) {
          assert i > 0 && ts[1..][i - 1] == ts[i];
        }
      }
    }
  }

  /** Slice parsing always ends when every element type consumes something. */
  lemma {:induction false} NeverHangs(ty: Ty, parts: seq<Bytes>)
    requires SlicesConsume(ty)
    ensures ParseAny(ty, parts) != Fail(Hang)
    decreases ty, 0, 0
  {
    match ty
    case TStruct(ts) => FieldsNeverHang(ts, parts);
    case TSlice(t) => ElemsNeverHang(t, parts);
    case TPtr(t) => NeverHangs(t, parts);
    case _ =>
  }

  lemma {:induction false} FieldsNeverHang(ts: seq<Ty>, parts: seq<Bytes>)
    requires forall i | 0 <= i < |ts| :: SlicesConsume(ts[i])
    ensures ParseFields(ts, parts) != Fail(Hang)
    decreases ts, 0, 0
  {
    if ts != [] {
      NeverHangs(ts[0], parts);
      var r := ParseAny(ts[0], parts);
      if r.Got? { FieldsNeverHang(ts[1..], parts[r.consumed..]); }
    }
  }

  lemma {:induction false} ElemsNeverHang(t: Ty, parts: seq<Bytes>)
    requires Consumes(t) && SlicesConsume(t)
    ensures ParseElems(t, parts) != Fail(Hang)
    decreases t, 1, |parts|
  {
    if parts != [] {
      NeverHangs(t, parts);
      var r := ParseAny(t, parts);
      if r.Got? {
        ConsumesProgress(t, parts);
        ElemsNeverHang(t, parts[r.consumed..]);
      }
    }
  }

  /** A slice of a type that consumes nothing hangs on every part list it can start on. */
  lemma EmptyElementHangs(t: Ty, parts: seq<Bytes>)
    requires !Consumes(t) && parts != [] && ParseAny(t, parts).Got?
    ensures ParseAny(TSlice(t), parts) == Fail(Hang)
  {
    ConsumesProgress(t, parts);
  }
}
