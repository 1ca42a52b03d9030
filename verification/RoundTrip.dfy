/** Parsing what was printed, at the level of parts. */
module RoundTrip {
  import opened Basics
  import opened Delimiters
  import opened Leaves
  import opened Schema

  lemma LeafRoundTrip(v: Value, ty: Ty)
    requires IsLeaf(ty) && HasType(v, ty)
    ensures PrintParts(v) == [LeafText(v)] && ParseLeaf(ty, LeafText(v)) == Ok(v)
  {
    match v
    case VInt(i) => ParseFormatInt(i, ty.width);
    case VUint(n) => ParseFormatUint(n, ty.width);
    case VUuid(u) => ParseFormatUuid(u);
    case _ =>
  }

  /** A value of a slice-free type is read back whatever follows it. */
  lemma {:induction false} FixedRoundTrip(v: Value, ty: Ty, rest: seq<Bytes>)
    requires HasType(v, ty) && Fixed(ty) && NoEmptyStructs(ty)
    ensures ParseAny(ty, PrintParts(v) + rest) == Got(v, |PrintParts(v)|)
    decreases v, 0
  {
    match v
    case VStruct(fs) => FixedFieldsRoundTrip(fs, ty.fields, rest);
    case VSlice(_) =>
    case VPtr(x) => FixedRoundTrip(x, ty.target, rest);
    case _ => LeafRoundTrip(v, ty);
  }

  lemma {:induction false} FixedFieldsRoundTrip(vs: seq<Value>, ts: seq<Ty>, rest: seq<Bytes>)
    requires |vs| == |ts|
    requires forall i | 0 <= i < |ts| :: HasType(vs[i], ts[i]) && Fixed(ts[i]) && NoEmptyStructs(ts[i])
    ensures ParseFields(ts, PrintAll(vs) + rest) == Got(vs, |PrintAll(vs)|)
    decreases vs, 0
  {
    if vs == [] {
    } else {
      var p, q := PrintParts(vs[0]), PrintAll(vs[1..]);
      assert p + q + rest == p + (q + rest);
      FixedRoundTrip(vs[0], ts[0], q + rest);
      assert (p + q + rest)[|p|..] == q + rest;
      FixedFieldsRoundTrip(vs[1..], ts[1..], rest);
      assert [vs[0]] + vs[1..] == vs;
    }
  }

  lemma {:induction false} ElemsRoundTrip(es: seq<Value>, t: Ty)
    requires Fixed(t) && NoEmptyStructs(t) && forall i | 0 <= i < |es| :: HasType(es[i], t)
    ensures ParseElems(t, PrintAll(es)) == Got(es, |PrintAll(es)|)
    decreases es, 0
  {
    if es == [] {
    } else {
      var p, q := PrintParts(es[0]), PrintAll(es[1..]);
      FixedRoundTrip(es[0], t, q);
      assert (p + q)[|p|..] == q;
      ElemsRoundTrip(es[1..], t);
      assert [es[0]] + es[1..] == es;
    }
  }

  lemma {:induction false} FixedHasNoSlices(v: Value, ty: Ty)
    requires HasType(v, ty) && Fixed(ty)
    ensures NoEmptySlices(v)
    decreases v
  {
    match v
    case VStruct(fs) =>
      forall i | 0 <= i < |fs| ensures NoEmptySlices(fs[i]) { FixedHasNoSlices(fs[i], ty.fields[i]); }
    case VSlice(_) =>
    case VPtr(x) => FixedHasNoSlices(x, ty.target);
    case _ =>
  }

  /** With slices only in tail position, a value is read back exactly when it
      holds no empty slice: an empty one prints as one empty part. */
  lemma {:induction false} TailRoundTrip(v: Value, ty: Ty)
    requires HasType(v, ty) && TailSlices(ty) && NoEmptyStructs(ty)
    ensures NoEmptySlices(v) ==> ParseAny(ty, PrintParts(v)) == Got(v, |PrintParts(v)|)
    ensures !NoEmptySlices(v) ==> forall c :: ParseAny(ty, PrintParts(v)) != Got(v, c)
    decreases v, 0
  {
    match v
    case VStruct(fs) => TailFieldsRoundTrip(fs, ty.fields);
    case VSlice(es) =>
      if es != [] {
        ElemsRoundTrip(es, ty.elem);
        forall i | 0 <= i < |es| ensures NoEmptySlices(es[i]) { FixedHasNoSlices(es[i], ty.elem); }
      }
    case VPtr(x) => TailRoundTrip(x, ty.target);
    case _ => LeafRoundTrip(v, ty);
  }

  ghost predicate NoneEmpty(vs: seq<Value>) { forall i | 0 <= i < |vs| :: NoEmptySlices(vs[i]) }

  /** The outcome is this value, with all parts consumed, if ok, and not this value
      otherwise. */
  ghost predicate Reads<T(!new)>(r: Outcome<T>, v: T, n: nat, ok: bool) {
    if ok then r == Got(v, n) else r.Got? ==> r.val != v
  }

  lemma LastField(v: Value, t: Ty, p: seq<Bytes>, ok: bool)
    requires Reads(ParseAny(t, p), v, |p|, ok)
    ensures Reads(ParseFields([t], p), [v], |p|, ok)
  {
    var r := ParseAny(t, p);
    assert [t][1..] == [];
    if r.Got? {
      assert ParseFields([], p[r.consumed..]) == Got([], 0);
      assert [r.val] + [] == [r.val] && [r.val][0] == r.val;
    }
  }

  lemma MoreFields(v: Value, vs: seq<Value>, ts: seq<Ty>, p: seq<Bytes>, q: seq<Bytes>, ok: bool)
    requires ts != [] && ParseAny(ts[0], p + q) == Got(v, |p|) && Reads(ParseFields(ts[1..], q), vs, |q|, ok)
    ensures Reads(ParseFields(ts, p + q), [v] + vs, |p + q|, ok)
  {
    assert (p + q)[|p|..] == q;
    var r := ParseFields(ts[1..], q);
    if r.Got? {
      assert ([v] + r.val)[1..] == r.val && ([v] + vs)[1..] == vs;
    }
  }

  lemma NoneEmptyTail(vs: seq<Value>)
    requires |vs| > 0 && NoEmptySlices(vs[0])
    ensures NoneEmpty(vs) <==> NoneEmpty(vs[1..])
  {
    if NoneEmpty(vs[1..]) {
      forall i | 0 <= i < |vs| ensures NoEmptySlices(vs[i]) {
        if i > 0 { assert vs[1..][i - 1] == vs[i]; }
      }
    }
  }

  lemma {:induction false} TailFieldsRoundTrip(vs: seq<Value>, ts: seq<Ty>)
    requires |vs| == |ts| > 0
    requires forall i | 0 <= i < |ts| :: HasType(vs[i], ts[i]) && NoEmptyStructs(ts[i])
    requires forall i | 0 <= i < |ts| :: if i < |ts| - 1 then Fixed(ts[i]) else TailSlices(ts[i])
    ensures Reads(ParseFields(ts, PrintAll(vs)), vs, |PrintAll(vs)|, NoneEmpty(vs))
    decreases vs, 0
  {
    var p := PrintParts(vs[0]);
    if |vs| == 1 {
      assert vs == [vs[0]] && ts == [ts[0]] && PrintAll(vs) == p;
      TailRoundTrip(vs[0], ts[0]);
      LastField(vs[0], ts[0], p, NoEmptySlices(vs[0]));
    } else {
      assert vs == [vs[0]] + vs[1..];
      var q := PrintAll(vs[1..]);
      FixedRoundTrip(vs[0], ts[0], q);
      FixedHasNoSlices(vs[0], ts[0]);
      TailFieldsRoundTrip(vs[1..], ts[1..]);
      MoreFields(vs[0], vs[1..], ts, p, q, NoneEmpty(vs[1..]));
      NoneEmptyTail(vs);
    }
  }

  /** Printing puts no delimiter into the parts of a clean value. */
  lemma {:induction false} CleanPrint(v: Value)
    requires CleanValue(v)
    ensures forall p :: p in PrintParts(v) ==> Clean(p)
    decreases v, 0
  {
    match v
    case VStruct(fs) => if fs == [] { AsciiIsClean([]); } else { CleanPrintAll(fs); }
    case VSlice(es) => if es == [] { AsciiIsClean([]); } else { CleanPrintAll(es); }
    case VPtr(x) => CleanPrint(x);
    case VString(_) =>
    case VUuid(u) => UuidIsAscii(u); AsciiIsClean(FormatUuid(u));
    case _ => AsciiIsClean(LeafText(v));
  }

  lemma UuidIsAscii(u: Uuid)
    ensures forall i :: 0 <= i < |FormatUuid(u)| ==> FormatUuid(u)[i] < 0x80
  {
  }

  lemma {:induction false} CleanPrintAll(vs: seq<Value>)
    requires forall i | 0 <= i < |vs| :: CleanValue(vs[i])
    ensures forall p :: p in PrintAll(vs) ==> Clean(p)
    decreases vs, 0
  {
    if vs != [] {
      CleanPrint(vs[0]);
      CleanPrintAll(vs[1..]);
    }
  }
}
