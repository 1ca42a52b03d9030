/** Whole packets: the two delimiter layers, the (de)serialiser's loops, and what
    survives a trip over the wire. */
module Codec {
  import opened Basics
  import opened Delimiters
  import opened Leaves
  import opened Schema
  import opened RoundTrip
  import opened Acceptance

  /** A message; its Go type is identified by the name it is registered under. */
  datatype Msg = Msg(name: Bytes, val: Value)

  /** Looks up the type registered under a name. */
  type Registry = Bytes -> Option<Ty>

  function MessageParts(m: Msg): (parts: seq<Bytes>)
    ensures |parts| >= 2
  {
    [m.name] + PrintParts(m.val)
  }

  function PrintMessage(m: Msg): Bytes { Join(MessageParts(m), PARAM_DELIM) }

  function PrintEach(msgs: seq<Msg>): (strs: seq<Bytes>)
    ensures |strs| == |msgs| && forall i :: 0 <= i < |msgs| ==> strs[i] == PrintMessage(msgs[i])
  {
    seq(|msgs|, i requires 0 <= i < |msgs| => PrintMessage(msgs[i]))
  }

  function PrintMessages(msgs: seq<Msg>): Bytes { Join(PrintEach(msgs), MESSAGE_DELIM) }

  function ReadMessage(reg: Registry, text: Bytes): Result<Msg, Failure> {
    var parts := Split(text, PARAM_DELIM);
    if reg(parts[0]).None? then Err(UnknownName)
    else match ParseAny(reg(parts[0]).value, parts[1..])
      case Fail(why) => Err(why)
      case Got(v, c) => if c != |parts| - 1 then Err(TooManyFields) else Ok(Msg(parts[0], v))
  }

  function ReadEach(reg: Registry, texts: seq<Bytes>): (r: Result<seq<Msg>, Failure>)
    ensures r.Ok? ==> |r.value| == |texts|
  {
    if texts == [] then Ok([])
    else match ReadMessage(reg, texts[0])
      case Err(why) => Err(why)
      case Ok(m) => match ReadEach(reg, texts[1..])
        case Err(why) => Err(why)
        case Ok(ms) => Ok([m] + ms)
  }

  function ReadMessages(reg: Registry, packet: Bytes): Result<seq<Msg>, Failure> {
    ReadEach(reg, Split(packet, MESSAGE_DELIM))
  }

  // ---------- The serialiser ----------

  lemma {:induction false} PrintAllAppend(vs: seq<Value>, v: Value)
    ensures PrintAll(vs + [v]) == PrintAll(vs) + PrintParts(v)
  {
    if vs == [] {
      assert PrintAll([v][1..]) == [];
    } else {
      assert (vs + [v])[1..] == vs[1..] + [v];
      PrintAllAppend(vs[1..], v);
    }
  }

  lemma PrintedPrefix(vs: seq<Value>, i: nat)
    requires i < |vs|
    ensures Join(PrintAll(vs[..i + 1]), PARAM_DELIM) ==
            Join(PrintAll(vs[..i]), PARAM_DELIM) +
              (if i > 0 then PARAM_DELIM else []) + Join(PrintParts(vs[i]), PARAM_DELIM)
  {
    assert vs[..i + 1] == vs[..i] + [vs[i]];
    PrintAllAppend(vs[..i], vs[i]);
    if i > 0 {
      JoinAppend(PrintAll(vs[..i]), PrintParts(vs[i]), PARAM_DELIM);
    } else {
      assert [] + PrintParts(vs[0]) == PrintParts(vs[0]);
    }
  }

  /** What a value without parts of its own looks like on the wire. */
  ghost predicate IsTextOf(s: Bytes, val: Value) {
    match val
    case VString(t) => s == t
    case VInt(i) => IsSignedDecimal(s, i)
    case VUint(n) => IsDecimal(s, n)
    case VBool(b) => s == [if b then 0x31 else 0x30]
    case VUuid(u) => IsUuidOf(s, u)
    case _ => true
  }

  lemma LeafTextIs(val: Value)
    requires !val.VStruct? && !val.VSlice? && !val.VPtr?
    ensures IsTextOf(LeafText(val), val)
  {
    match val
    case VInt(i) => IntText(i, FormatInt(i));
    case VUint(n) => UintText(n, FormatNat(n));
    case VBool(b) => BoolText(b, FormatBool(b));
    case VUuid(u) => UuidText(u, FormatUuid(u));
    case _ =>
  }

  method SerializeSlice(val: Value) returns (msgBytes: Bytes)
    requires val.VSlice?
    ensures msgBytes == Join(PrintParts(val), PARAM_DELIM)
    decreases val, 0
  {
    msgBytes := [];
    var n := |val.elems|;
    for i := 0 to n
      invariant msgBytes == Join(PrintAll(val.elems[..i]), PARAM_DELIM) + if 0 < i < n then PARAM_DELIM else []
    {
      var eBytes := SerializeAny(val.elems[i]);
      PrintedPrefix(val.elems, i);
      msgBytes := msgBytes + eBytes;
      if i + 1 != n {
        msgBytes := msgBytes + PARAM_DELIM;
      }
    }
    assert val.elems[..n] == val.elems;
  }

  method SerializeStruct(val: Value) returns (msgBytes: Bytes)
    requires val.VStruct?
    ensures msgBytes == Join(PrintParts(val), PARAM_DELIM)
    decreases val, 0
  {
    msgBytes := [];
    var n := |val.fields|;
    for i := 0 to n
      invariant msgBytes == Join(PrintAll(val.fields[..i]), PARAM_DELIM) + if 0 < i < n then PARAM_DELIM else []
    {
      var fBytes := SerializeAny(val.fields[i]);
      PrintedPrefix(val.fields, i);
      msgBytes := msgBytes + fBytes;
      if i + 1 != n {
        msgBytes := msgBytes + PARAM_DELIM;
      }
    }
    assert val.fields[..n] == val.fields;
  }

  method SerializeAny(val: Value) returns (msgBytes: Bytes)
    ensures msgBytes == Join(PrintParts(val), PARAM_DELIM) && IsTextOf(msgBytes, val)
    decreases val, 1
  {
    if val.VStruct? {
      msgBytes := SerializeStruct(val);
    } else if val.VSlice? {
      msgBytes := SerializeSlice(val);
    } else if val.VPtr? {
      msgBytes := SerializeAny(val.target);
    } else {
      msgBytes := LeafText(val);
      LeafTextIs(val);
    }
  }

  /** Panics on an unregistered type, so callers must not pass one. */
  method SerializeOne(reg: Registry, msg: Msg) returns (msgBytes: Bytes)
    requires reg(msg.name).Some?
    ensures msgBytes == PrintMessage(msg)
  {
    var body := SerializeAny(msg.val);
    msgBytes := msg.name + PARAM_DELIM + body;
    JoinAppend([msg.name], PrintParts(msg.val), PARAM_DELIM);
  }

  lemma JoinedPrefix(strs: seq<Bytes>, i: nat, d: Bytes)
    requires i < |strs|
    ensures Join(strs[..i + 1], d) == Join(strs[..i], d) + (if i > 0 then d else []) + strs[i]
  {
    assert strs[..i + 1] == strs[..i] + [strs[i]];
    if i > 0 {
      JoinAppend(strs[..i], [strs[i]], d);
    }
  }

  method Serialize(reg: Registry, msgs: seq<Msg>) returns (msgsBytes: Bytes)
    requires forall m :: m in msgs ==> reg(m.name).Some?
    ensures msgsBytes == PrintMessages(msgs)
  {
    msgsBytes := [];
    var msgsLen := |msgs|;
    for i := 0 to msgsLen
      invariant msgsBytes == Join(PrintEach(msgs)[..i], MESSAGE_DELIM) + if 0 < i < msgsLen then MESSAGE_DELIM else []
    {
      var msgBytes := SerializeOne(reg, msgs[i]);
      JoinedPrefix(PrintEach(msgs), i, MESSAGE_DELIM);
      msgsBytes := msgsBytes + msgBytes;
      if i + 1 != msgsLen {
        msgsBytes := msgsBytes + MESSAGE_DELIM;
      }
    }
    assert PrintEach(msgs)[..msgsLen] == PrintEach(msgs);
  }

  // ---------- The deserialiser ----------

  /** The outcome of a loop that already read vals from consumed parts and still
      has to read rest. */
  function Continue(vals: seq<Value>, consumed: nat, rest: Outcome<seq<Value>>): Outcome<seq<Value>> {
    match rest
    case Fail(why) => Fail(why)
    case Got(vs, c) => Got(vals + vs, consumed + c)
  }

  lemma ContinueFromStart(rest: Outcome<seq<Value>>)
    ensures Continue([], 0, rest) == rest
  {
    if rest.Got? {
      assert [] + rest.val == rest.val;
    }
  }

  lemma ContinueStep(vals: seq<Value>, consumed: nat, v: Value, c: nat, rest: Outcome<seq<Value>>)
    ensures Continue(vals + [v], consumed + c, rest) ==
            Continue(vals, consumed, match rest case Fail(why) => Fail(why) case Got(vs, k) => Got([v] + vs, c + k))
  {
    if rest.Got? {
      assert vals + [v] + rest.val == vals + ([v] + rest.val);
    }
  }

  /** One field read, or failed on. */
  lemma FieldsStep(ts: seq<Ty>, i: nat, parts: seq<Bytes>, vals: seq<Value>, consumed: nat)
    requires i < |ts| && consumed <= |parts|
    ensures Continue(vals, consumed, ParseFields(ts[i..], parts[consumed..])) ==
      match ParseAny(ts[i], parts[consumed..])
      case Fail(why) => Fail(why)
      case Got(v, c) => Continue(vals + [v], consumed + c, ParseFields(ts[i + 1..], parts[consumed + c..]))
  {
    assert ts[i..][0] == ts[i] && ts[i..][1..] == ts[i + 1..];
    var f := ParseAny(ts[i], parts[consumed..]);
    if f.Got? {
      assert parts[consumed..][f.consumed..] == parts[consumed + f.consumed..];
      ContinueStep(vals, consumed, f.val, f.consumed, ParseFields(ts[i + 1..], parts[consumed + f.consumed..]));
    }
  }

  method DeserializeSlice(typ: Ty, parts: seq<Bytes>) returns (r: Outcome<Value>)
    requires typ.TSlice?
    ensures r == ParseAny(typ, parts)
    decreases typ, 0
  {
    var vals, consumed := [], 0;
    ContinueFromStart(ParseElems(typ.elem, parts));
    assert parts[0..] == parts;
    while consumed != |parts|
      invariant 0 <= consumed <= |parts|
      invariant ParseElems(typ.elem, parts) == Continue(vals, consumed, ParseElems(typ.elem, parts[consumed..]))
      decreases |parts| - consumed
    {
      var e := DeserializeAny(typ.elem, parts[consumed..]);
      match e
      case Fail(why) => return Fail(why);
      case Got(v, c) =>
        if c == 0 {
          return Fail(Hang);
        }
        assert parts[consumed..][c..] == parts[consumed + c..];
        ContinueStep(vals, consumed, v, c, ParseElems(typ.elem, parts[consumed + c..]));
        vals, consumed := vals + [v], consumed + c;
    }
    assert vals + [] == vals;
    r := Got(VSlice(vals), consumed);
  }

  method DeserializeStruct(typ: Ty, parts: seq<Bytes>) returns (r: Outcome<Value>)
    requires typ.TStruct?
    ensures r == ParseAny(typ, parts)
    decreases typ, 0
  {
    var ts := typ.fields;
    var vals, consumed := [], 0;
    ContinueFromStart(ParseFields(ts, parts));
    assert parts[0..] == parts && ts[0..] == ts;
    for i := 0 to |ts|
      invariant 0 <= consumed <= |parts|
      invariant ParseFields(ts, parts) == Continue(vals, consumed, ParseFields(ts[i..], parts[consumed..]))
    {
      var f := DeserializeAny(ts[i], parts[consumed..]);
      FieldsStep(ts, i, parts, vals, consumed);
      match f
      case Fail(why) => return Fail(why);
      case Got(v, c) => vals, consumed := vals + [v], consumed + c;
    }
    assert vals + [] == vals;
    r := Got(VStruct(vals), consumed);
  }

  method DeserializeAny(typ: Ty, parts: seq<Bytes>) returns (r: Outcome<Value>)
    ensures r == ParseAny(typ, parts)
    decreases typ, 1
  {
    if typ.TStruct? {
      r := DeserializeStruct(typ, parts);
    } else if typ.TSlice? {
      r := DeserializeSlice(typ, parts);
    } else if typ.TPtr? {
      var p := DeserializeAny(typ.target, parts);
      match p {
        case Fail(why) => r := Fail(why);
        case Got(v, c) => r := Got(VPtr(v), c);
      }
    } else if parts == [] {
      r := Fail(IndexPanic);
    } else {
      match ParseLeaf(typ, parts[0]) {
        case Ok(v) => r := Got(v, 1);
        case Err(why) => r := Fail(why);
      }
    }
  }

  method DeserializeOne(reg: Registry, msgBytes: Bytes) returns (r: Result<Msg, Failure>)
    ensures r == ReadMessage(reg, msgBytes)
  {
    var parts := Split(msgBytes, PARAM_DELIM);
    var name := parts[0];
    if reg(name).None? {
      return Err(UnknownName);
    }
    var partsNameless := parts[1..];
    var p := DeserializeAny(reg(name).value, partsNameless);
    match p
    case Fail(why) => r := Err(why);
    case Got(v, consumed) =>
      if consumed != |partsNameless| {
        return Err(TooManyFields);
      }
      r := Ok(Msg(name, v));
  }

  method Deserialize(reg: Registry, msgsBytes: Bytes) returns (r: Result<seq<Msg>, Failure>)
    ensures r == ReadMessages(reg, msgsBytes)
  {
    var texts := Split(msgsBytes, MESSAGE_DELIM);
    var msgs := [];
    ghost var all := ReadEach(reg, texts);
    assert texts[0..] == texts && (all.Ok? ==> [] + all.value == all.value);
    for i := 0 to |texts|
      invariant ReadEach(reg, texts) ==
                match ReadEach(reg, texts[i..]) case Err(why) => Err(why) case Ok(ms) => Ok(msgs + ms)
    {
      var one := DeserializeOne(reg, texts[i]);
      assert texts[i..][0] == texts[i] && texts[i..][1..] == texts[i + 1..];
      match one
      case Err(why) => return Err(why);
      case Ok(m) =>
        ghost var rest := ReadEach(reg, texts[i + 1..]);
        if rest.Ok? {
          assert msgs + ([m] + rest.value) == msgs + [m] + rest.value;
        }
        msgs := msgs + [m];
    }
    assert msgs + [] == msgs;
    r := Ok(msgs);
  }

  // ---------- Round trip over bytes ----------

  /** A registered message of the shape the format can carry. */
  ghost predicate Wellformed(reg: Registry, m: Msg) {
    && reg(m.name).Some? && Clean(m.name)
    && HasType(m.val, reg(m.name).value) && TailSlices(reg(m.name).value) && NoEmptyStructs(reg(m.name).value)
  }

  ghost predicate Carries(m: Msg) { CleanValue(m.val) && NoEmptySlices(m.val) }

  lemma CleanMessageParts(m: Msg)
    requires Clean(m.name) && CleanValue(m.val)
    ensures forall p :: p in MessageParts(m) ==> Clean(p)
    ensures Split(PrintMessage(m), PARAM_DELIM) == MessageParts(m)
    ensures !Contains(PrintMessage(m), MESSAGE_DELIM)
  {
    CleanPrint(m.val);
    DelimitersAreSeparable();
    SplitOfJoin(MessageParts(m), PARAM_DELIM);
    JoinKeepsAbsence(MessageParts(m), PARAM_DELIM, MESSAGE_DELIM);
  }

  lemma MessageRoundTrip(reg: Registry, m: Msg)
    requires Wellformed(reg, m) && CleanValue(m.val)
    ensures ReadMessage(reg, PrintMessage(m)) == Ok(m) <==> NoEmptySlices(m.val)
  {
    CleanMessageParts(m);
    assert MessageParts(m)[1..] == PrintParts(m.val);
    TailRoundTrip(m.val, reg(m.name).value);
  }

  lemma {:induction false} ReadEachCases(reg: Registry, texts: seq<Bytes>, msgs: seq<Msg>)
    requires |texts| == |msgs|
    ensures ReadEach(reg, texts) == Ok(msgs) <==>
      forall i :: 0 <= i < |msgs| ==> ReadMessage(reg, texts[i]) == Ok(msgs[i])
  {
    if texts == [] {
    } else {
      ReadEachCases(reg, texts[1..], msgs[1..]);
      assert msgs == [msgs[0]] + msgs[1..];
      assert forall i :: 0 < i < |msgs| ==> texts[i] == texts[1..][i - 1] && msgs[i] == msgs[1..][i - 1];
      if ReadEach(reg, texts[1..]) == Ok(msgs[1..]) {
        forall i | 0 < i < |msgs| ensures ReadMessage(reg, texts[i]) == Ok(msgs[i]) {
          assert ReadMessage(reg, texts[1..][i - 1]) == Ok(msgs[1..][i - 1]);
        }
      }
      if forall i :: 0 <= i < |msgs| ==> ReadMessage(reg, texts[i]) == Ok(msgs[i]) {
        assert ReadMessage(reg, texts[0]) == Ok(msgs[0]);
        forall i | 0 <= i < |msgs| - 1 ensures ReadMessage(reg, texts[1..][i]) == Ok(msgs[1..][i]) {
          assert ReadMessage(reg, texts[i + 1]) == Ok(msgs[i + 1]);
        }
      }
    }
  }

  /** Every string that comes out of the deserialiser is free of both delimiters,
      and every value is of its registered type. */
  lemma RelayClosure(reg: Registry, packet: Bytes)
    ensures var r := ReadMessages(reg, packet); r.Ok? ==>
      forall m :: m in r.value ==>
        reg(m.name).Some? && Clean(m.name) && HasType(m.val, reg(m.name).value) && CleanValue(m.val)
  {
    var texts := Split(packet, MESSAGE_DELIM);
    var r := ReadEach(reg, texts);
    if r.Ok? {
      JoinOfSplit(packet, MESSAGE_DELIM);
      ReadEachCases(reg, texts, r.value);
      forall i | 0 <= i < |r.value|
        ensures var m := r.value[i];
          reg(m.name).Some? && Clean(m.name) && HasType(m.val, reg(m.name).value) && CleanValue(m.val)
      {
        assert texts[i] in texts;
        ReadMessageIsClean(reg, texts[i]);
      }
    }
  }

  lemma ReadMessageIsClean(reg: Registry, text: Bytes)
    requires !Contains(text, MESSAGE_DELIM)
    ensures var r := ReadMessage(reg, text); r.Ok? ==>
      reg(r.value.name).Some? && Clean(r.value.name) && HasType(r.value.val, reg(r.value.name).value)
        && CleanValue(r.value.val)
  {
    var parts := Split(text, PARAM_DELIM);
    var r := ReadMessage(reg, text);
    if r.Ok? {
      JoinOfSplit(text, PARAM_DELIM);
      SplitKeepsAbsence(text, PARAM_DELIM, MESSAGE_DELIM);
      assert parts[0] in parts;
      ParsedIsTyped(reg(parts[0]).value, parts[1..]);
      FromCleanParts(r.value.val, parts[1..]);
    }
  }

  /** A non-empty list of well-formed messages survives printing and reading
      exactly when no string holds a delimiter and no slice is empty. */
  lemma ByteRoundTrip(reg: Registry, msgs: seq<Msg>)
    requires |msgs| >= 1 && forall m :: m in msgs ==> Wellformed(reg, m)
    ensures ReadMessages(reg, PrintMessages(msgs)) == Ok(msgs) <==> forall m :: m in msgs ==> Carries(m)
  {
    if ReadMessages(reg, PrintMessages(msgs)) == Ok(msgs) {
      RelayClosure(reg, PrintMessages(msgs));
      CleanPacket(reg, msgs);
    } else if forall m :: m in msgs ==> CleanValue(m.val) {
      CleanPacket(reg, msgs);
    }
  }

  lemma CleanPacket(reg: Registry, msgs: seq<Msg>)
    requires |msgs| >= 1 && forall m :: m in msgs ==> Wellformed(reg, m) && CleanValue(m.val)
    ensures ReadMessages(reg, PrintMessages(msgs)) == Ok(msgs) <==> forall m :: m in msgs ==> NoEmptySlices(m.val)
  {
    var texts := PrintEach(msgs);
    forall i | 0 <= i < |msgs|
      ensures !Contains(texts[i], MESSAGE_DELIM)
      ensures ReadMessage(reg, texts[i]) == Ok(msgs[i]) <==> NoEmptySlices(msgs[i].val)
    {
      assert msgs[i] in msgs;
      CleanMessageParts(msgs[i]);
      MessageRoundTrip(reg, msgs[i]);
    }
    DelimitersAreSeparable();
    SplitOfJoin(texts, MESSAGE_DELIM);
    ReadEachCases(reg, texts, msgs);
  }

  // ---------- Why the shape conditions are there ----------

  /** An empty list of messages reads back as one unnamed message. */
  lemma NoMessagesDoNotRoundTrip(reg: Registry)
    ensures PrintMessages([]) == [] && ReadMessages(reg, []) != Ok([])
  {
  }

  /** The delimiter printed before an empty struct reads as a surplus field. */
  lemma EmptyStructDoesNotRoundTrip(reg: Registry, name: Bytes)
    requires reg(name).Some? && Clean(name) && reg(name).value == TStruct([])
    ensures ReadMessage(reg, PrintMessage(Msg(name, VStruct([])))) == Err(TooManyFields)
    ensures ReadMessage(reg, name) == Ok(Msg(name, VStruct([])))
  {
    DelimitersAreSeparable();
    AsciiIsClean([]);
    SplitOfJoin([name, []], PARAM_DELIM);
    assert MessageParts(Msg(name, VStruct([]))) == [name, []];
    SplitOfJoin([name], PARAM_DELIM);
    assert Join([name], PARAM_DELIM) == name;
  }

  // ---------- Exact acceptance ----------

  /** The three ways a message of a slice-free type can end: accepted exactly when
      the part count is the flattened field count and each leaf parses; an index
      past the last part exactly when too few well-parsed parts were sent; an
      error for everything else. */
  lemma ExactAcceptance(reg: Registry, text: Bytes)
    requires forall name :: reg(name).Some? ==> Fixed(reg(name).value) && Supported(reg(name).value)
    ensures
      var parts := Split(text, PARAM_DELIM);
      if reg(parts[0]).None? then ReadMessage(reg, text) == Err(UnknownName)
      else
        var ls, given := Flatten(reg(parts[0]).value), parts[1..];
        && AllLeaves(ls)
        && (ReadMessage(reg, text).Ok? <==> |given| == |ls| && PrefixParses(ls, given))
        && (ReadMessage(reg, text) == Err(IndexPanic) <==> |given| < |ls| && PrefixParses(ls, given))
        && (ReadMessage(reg, text) == Err(TooManyFields) <==> |given| > |ls| && PrefixParses(ls, given))
        && (!PrefixParses(ls, given) <==> ReadMessage(reg, text).Err? && ReadMessage(reg, text).error.FieldFailure?)
        && (ReadMessage(reg, text).Ok? ==>
              var got := LeavesOf(ReadMessage(reg, text).value.val);
              |got| == |ls| && forall i :: 0 <= i < |ls| ==> ParseLeaf(ls[i], given[i]) == Ok(got[i]))
  {
    var parts := Split(text, PARAM_DELIM);
    if reg(parts[0]).Some? {
      var ty := reg(parts[0]).value;
      ParseIsFlatRead(ty, parts[1..]);
      FlatReadCases(Flatten(ty), parts[1..]);
      FlatFailure(ty, parts[1..]);
    }
  }

  lemma {:induction false} SupportedLeaves(ty: Ty)
    requires Supported(ty)
    ensures TUnsupported !in Flatten(ty)
    decreases ty, 0
  {
    match ty
    case TStruct(ts) => SupportedLeavesAll(ts);
    case TPtr(t) => SupportedLeaves(t);
    case _ =>
  }

  lemma {:induction false} SupportedLeavesAll(ts: seq<Ty>)
    requires forall i | 0 <= i < |ts| :: Supported(ts[i])
    ensures TUnsupported !in FlattenAll(ts)
    decreases ts, 0
  {
    if ts != [] {
      SupportedLeaves(ts[0]);
      SupportedLeavesAll(ts[1..]);
    }
  }

  lemma {:induction false} FlatFailureIsFieldOrIndex(ls: seq<Ty>, parts: seq<Bytes>)
    requires AllLeaves(ls) && TUnsupported !in ls
    ensures var r := ReadFlat(ls, parts); r.Fail? ==> r.why == IndexPanic || r.why.FieldFailure?
  {
    if ls != [] && parts != [] {
      assert ls[0] in ls;
      FlatFailureIsFieldOrIndex(ls[1..], parts[1..]);
    }
  }

  lemma FlatFailure(ty: Ty, parts: seq<Bytes>)
    requires Supported(ty) && Fixed(ty)
    ensures var r := ParseAny(ty, parts); r.Fail? ==> r.why == IndexPanic || r.why.FieldFailure?
  {
    ParseIsFlatRead(ty, parts);
    SupportedLeaves(ty);
    FlatFailureIsFieldOrIndex(Flatten(ty), parts);
  }
}
