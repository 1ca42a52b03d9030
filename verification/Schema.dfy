/** Type descriptors and values of the message fields, what a value prints to,
    and what a parser driven by a descriptor accepts. The reflected Go types are
    `Ty`; a Go value of such a type is a `Value`. */
module Schema {
  import opened Basics
  import opened Delimiters
  import opened Leaves

  datatype Ty =
    | TString
    | TInt(width: Width)   // int32, int64 and the enumeration over int32
    | TUint(width: Width)
    | TBool
    | TUuid
    | TStruct(fields: seq<Ty>)
    | TSlice(elem: Ty)
    | TPtr(target: Ty)
    | TUnsupported         // int, uint, uintptr and kinds without a case

  datatype Value =
    | VString(s: Bytes)
    | VInt(i: int)
    | VUint(n: nat)
    | VBool(b: bool)
    | VUuid(u: Uuid)
    | VStruct(fields: seq<Value>)
    | VSlice(elems: seq<Value>)
    | VPtr(target: Value)

  /** The value inhabits the type, integers within their width. */
  ghost predicate HasType(v: Value, ty: Ty)
    decreases v
  {
    match (v, ty)
    case (VString(_), TString) => true
    case (VInt(i), TInt(w)) => FitsInt(i, w)
    case (VUint(n), TUint(w)) => FitsUint(n, w)
    case (VBool(_), TBool) => true
    case (VUuid(_), TUuid) => true
    case (VStruct(fs), TStruct(ts)) => |fs| == |ts| && forall i | 0 <= i < |fs| :: HasType(fs[i], ts[i])
    case (VSlice(es), TSlice(t)) => forall i | 0 <= i < |es| :: HasType(es[i], t)
    case (VPtr(x), TPtr(t)) => HasType(x, t)
    case _ => false
  }

  /** Every string anywhere in the value is free of both delimiters. */
  ghost predicate CleanValue(v: Value) {
    match v
    case VString(s) => Clean(s)
    case VStruct(fs) => forall i | 0 <= i < |fs| :: CleanValue(fs[i])
    case VSlice(es) => forall i | 0 <= i < |es| :: CleanValue(es[i])
    case VPtr(x) => CleanValue(x)
    case _ => true
  }

  ghost predicate NoEmptySlices(v: Value) {
    match v
    case VStruct(fs) => forall i | 0 <= i < |fs| :: NoEmptySlices(fs[i])
    case VSlice(es) => |es| > 0 && forall i | 0 <= i < |es| :: NoEmptySlices(es[i])
    case VPtr(x) => NoEmptySlices(x)
    case _ => true
  }

  /** No slice anywhere inside: such a type always occupies the same number of parts. */
  ghost predicate Fixed(ty: Ty) {
    match ty
    case TStruct(ts) => forall i | 0 <= i < |ts| :: Fixed(ts[i])
    case TSlice(_) => false
    case TPtr(t) => Fixed(t)
    case _ => true
  }

  ghost predicate NoEmptyStructs(ty: Ty) {
    match ty
    case TStruct(ts) => |ts| > 0 && forall i | 0 <= i < |ts| :: NoEmptyStructs(ts[i])
    case TSlice(t) => NoEmptyStructs(t)
    case TPtr(t) => NoEmptyStructs(t)
    case _ => true
  }

  /** Slices only where they take the whole remainder of a message. */
  ghost predicate TailSlices(ty: Ty) {
    match ty
    case TStruct(ts) => forall i | 0 <= i < |ts| :: if i < |ts| - 1 then Fixed(ts[i]) else TailSlices(ts[i])
    case TSlice(t) => Fixed(t)
    case TPtr(t) => TailSlices(t)
    case _ => true
  }

  /** Only the types that the (de)serialiser has a case for. */
  ghost predicate Supported(ty: Ty) {
    match ty
    case TStruct(ts) => forall i | 0 <= i < |ts| :: Supported(ts[i])
    case TSlice(t) => Supported(t)
    case TPtr(t) => Supported(t)
    case TUnsupported => false
    case _ => true
  }

  // ---------- Printing ----------

  function LeafText(v: Value): Bytes
    requires !v.VStruct? && !v.VSlice? && !v.VPtr?
  {
    match v
    case VString(s) => s
    case VInt(i) => FormatInt(i)
    case VUint(n) => FormatNat(n)
    case VBool(b) => FormatBool(b)
    case VUuid(u) => FormatUuid(u)
  }

  /** The parts that a value prints to. An empty struct or slice prints no bytes,
      which a reader cannot tell from one empty part. */
  function PrintParts(v: Value): (parts: seq<Bytes>)
    ensures |parts| >= 1
    decreases v, 0
  {
    match v
    case VStruct(fs) => if fs == [] then [[]] else PrintAll(fs)
    case VSlice(es) => if es == [] then [[]] else PrintAll(es)
    case VPtr(x) => PrintParts(x)
    case _ => [LeafText(v)]
  }

  function PrintAll(vs: seq<Value>): (parts: seq<Bytes>)
    ensures |parts| >= |vs|
    decreases vs, 0
  {
    if vs == [] then [] else PrintParts(vs[0]) + PrintAll(vs[1..])
  }

  // ---------- Parsing ----------

  datatype FieldError = BadInteger | BadBoolean | BadUuid

  /** Why a parse does not return: an error value, a run-time panic (an index past
      the last part, or a type without a case), or a loop that consumes nothing. */
  datatype Failure =
    | FieldFailure(error: FieldError)
    | UnknownName
    | TooManyFields
    | IndexPanic
    | TypePanic
    | Hang

  datatype Outcome<+T> = Got(val: T, consumed: nat) | Fail(why: Failure)

  predicate IsLeaf(ty: Ty) { !ty.TStruct? && !ty.TSlice? && !ty.TPtr? }

  function ParseLeaf(ty: Ty, part: Bytes): (r: Result<Value, Failure>)
    requires IsLeaf(ty)
    ensures r.Ok? ==> HasType(r.value, ty)
  {
    match ty
    case TString => Ok(VString(part))
    case TInt(w) => (match ParseInt(part, w) case Some(i) => Ok(VInt(i)) case None => Err(FieldFailure(BadInteger)))
    case TUint(w) => (match ParseUint(part, w) case Some(n) => Ok(VUint(n)) case None => Err(FieldFailure(BadInteger)))
    case TBool => (match ParseBool(part) case Some(b) => Ok(VBool(b)) case None => Err(FieldFailure(BadBoolean)))
    case TUuid => (match ParseUuid(part) case Some(u) => Ok(VUuid(u)) case None => Err(FieldFailure(BadUuid)))
    case TUnsupported => Err(TypePanic)
  }

  /** A struct reads its fields in order, a slice reads elements until the parts
      run out, a pointer reads its target and a leaf reads one part. */
  function ParseAny(ty: Ty, parts: seq<Bytes>): (r: Outcome<Value>)
    ensures r.Got? ==> r.consumed <= |parts|
    decreases ty, 0, 0
  {
    match ty
    case TStruct(ts) => (match ParseFields(ts, parts)
      case Got(vs, c) => Got(VStruct(vs), c)
      case Fail(why) => Fail(why))
    case TSlice(t) => (match ParseElems(t, parts)
      case Got(vs, c) => Got(VSlice(vs), c)
      case Fail(why) => Fail(why))
    case TPtr(t) => (match ParseAny(t, parts)
      case Got(v, c) => Got(VPtr(v), c)
      case Fail(why) => Fail(why))
    case _ =>
      if parts == [] then Fail(IndexPanic)
      else match ParseLeaf(ty, parts[0])
        case Ok(v) => Got(v, 1)
        case Err(why) => Fail(why)
  }

  function ParseFields(ts: seq<Ty>, parts: seq<Bytes>): (r: Outcome<seq<Value>>)
    ensures r.Got? ==> r.consumed <= |parts|
    decreases ts, 0, 0
  {
    if ts == [] then Got([], 0)
    else match ParseAny(ts[0], parts)
      case Fail(why) => Fail(why)
      case Got(v, c) => match ParseFields(ts[1..], parts[c..])
        case Fail(why) => Fail(why)
        case Got(vs, c') => Got([v] + vs, c + c')
  }

  function ParseElems(t: Ty, parts: seq<Bytes>): (r: Outcome<seq<Value>>)
    ensures r.Got? ==> r.consumed == |parts|
    decreases t, 1, |parts|
  {
    if parts == [] then Got([], 0)
    else match ParseAny(t, parts)
      case Fail(why) => Fail(why)
      case Got(v, c) =>
        // An element that consumes nothing leaves the loop in the state it started from
        if c == 0 then Fail(Hang)
        else match ParseElems(t, parts[c..])
          case Fail(why) => Fail(why)
          case Got(vs, c') => Got([v] + vs, c + c')
  }

  // ---------- What a successful parse returns ----------

  /** The value inhabits the type, and it holds no string that was not a part. */
  ghost predicate StringsFrom(v: Value, parts: seq<Bytes>) {
    match v
    case VString(s) => s in parts
    case VStruct(fs) => forall i | 0 <= i < |fs| :: StringsFrom(fs[i], parts)
    case VSlice(es) => forall i | 0 <= i < |es| :: StringsFrom(es[i], parts)
    case VPtr(x) => StringsFrom(x, parts)
    case _ => true
  }

  lemma {:induction false} StringsFromMore(v: Value, parts: seq<Bytes>, more: seq<Bytes>)
    requires StringsFrom(v, parts) && forall p :: p in parts ==> p in more
    ensures StringsFrom(v, more)
    decreases v
  {
    match v
    case VStruct(fs) => forall i | 0 <= i < |fs|
      ensures StringsFrom(fs[i], more) { StringsFromMore(fs[i], parts, more); }
    case VSlice(es) => forall i | 0 <= i < |es|
      ensures StringsFrom(es[i], more) { StringsFromMore(es[i], parts, more); }
    case VPtr(x) => StringsFromMore(x, parts, more);
    case _ =>
  }

  ghost predicate AllTyped(es: seq<Value>, t: Ty, parts: seq<Bytes>) {
    forall i | 0 <= i < |es| :: HasType(es[i], t) && StringsFrom(es[i], parts)
  }

  lemma SliceIsTyped(es: seq<Value>, t: Ty, parts: seq<Bytes>)
    requires AllTyped(es, t, parts)
    ensures HasType(VSlice(es), TSlice(t)) && StringsFrom(VSlice(es), parts)
  {
    forall i | 0 <= i < |es| ensures HasType(es[i], t) {
    }
  }

  lemma {:induction false} ParsedIsTyped(ty: Ty, parts: seq<Bytes>)
    ensures var r := ParseAny(ty, parts); r.Got? ==> HasType(r.val, ty) && StringsFrom(r.val, parts)
    decreases ty, 0, 0
  {
    match ty
    case TStruct(ts) =>
      ParsedFieldsAreTyped(ts, parts);
      var r := ParseFields(ts, parts);
      if r.Got? {
        assert HasType(VStruct(r.val), ty) && StringsFrom(VStruct(r.val), parts);
      }
    case TSlice(t) =>
      ParsedElemsAreTyped(t, parts);
      var r := ParseElems(t, parts);
      if r.Got? {
        SliceIsTyped(r.val, t, parts);
      }
    case TPtr(t) => ParsedIsTyped(t, parts);
    case _ =>
  }

  lemma {:induction false} ParsedFieldsAreTyped(ts: seq<Ty>, parts: seq<Bytes>)
    ensures var r := ParseFields(ts, parts); r.Got? ==>
      |r.val| == |ts| && forall i | 0 <= i < |ts| :: HasType(r.val[i], ts[i]) && StringsFrom(r.val[i], parts)
    decreases ts, 0, 0
  {
    if ts != [] {
      ParsedIsTyped(ts[0], parts);
      match ParseAny(ts[0], parts)
      case Fail(_) =>
      case Got(v, c) =>
        ParsedFieldsAreTyped(ts[1..], parts[c..]);
        match ParseFields(ts[1..], parts[c..])
        case Fail(_) =>
        case Got(vs, _) =>
          forall i | 0 <= i < |ts| ensures HasType(([v] + vs)[i], ts[i]) && StringsFrom(([v] + vs)[i], parts) {
            if i > 0 { StringsFromMore(vs[i - 1], parts[c..], parts); }
          }
    }
  }

  lemma {:induction false} ParsedElemsAreTyped(t: Ty, parts: seq<Bytes>)
    ensures var r := ParseElems(t, parts); r.Got? ==> AllTyped(r.val, t, parts)
    decreases t, 1, |parts|
  {
    if parts != [] {
      ParsedIsTyped(t, parts);
      match ParseAny(t, parts)
      case Fail(_) =>
      case Got(v, c) =>
        if c > 0 {
          var tail := parts[c..];
          ParsedElemsAreTyped(t, tail);
          var rest := ParseElems(t, tail);
          if rest.Got? {
            var vs := [v] + rest.val;
            forall j | 0 <= j < |rest.val| ensures StringsFrom(rest.val[j], parts) {
              StringsFromMore(rest.val[j], tail, parts);
            }
            assert forall i | 0 <= i < |vs| :: vs[i] == if i == 0 then v else rest.val[i - 1];
          }
        }
    }
  }

  lemma {:induction false} FromCleanParts(v: Value, parts: seq<Bytes>)
    requires StringsFrom(v, parts) && forall p :: p in parts ==> Clean(p)
    ensures CleanValue(v)
    decreases v
  {
    match v
    case VStruct(fs) => forall i | 0 <= i < |fs| ensures CleanValue(fs[i]) { FromCleanParts(fs[i], parts); }
    case VSlice(es) => forall i | 0 <= i < |es| ensures CleanValue(es[i]) { FromCleanParts(es[i], parts); }
    case VPtr(x) => FromCleanParts(x, parts);
    case _ =>
  }
}
