/** From the bytes of a frame to a step of the room server: guard data, the codec, and
    messages as the room engine takes them. */
module Gateway {
  import opened Basics
  import opened Delimiters
  import opened Packets
  import opened Validate
  import opened Leaves
  import opened Messages
  import Wire
  import Codec
  import opened World
  import opened Engine
  import opened Runs
  import opened RoomServer

  function BigEndian(b: seq<byte>): uint32
    requires |b| == 4
  {
    (b[0] as int) * 0x100_0000 + (b[1] as int) * 0x1_0000 + (b[2] as int) * 0x100 + b[3]
  }

  /** The counter is read from its bytes, most significant first. */
  lemma CounterBytes(n: uint32)
    ensures BigEndian([n / 0x100_0000, n / 0x1_0000 % 0x100, n / 0x100 % 0x100, n % 0x100]) == n
  {
    var high := n / 0x1_0000;
    assert n == 0x1_0000 * high + n % 0x1_0000 && n % 0x1_0000 == 0x100 * (n / 0x100 % 0x100) + n % 0x100;
    assert high == 0x100 * (n / 0x100_0000) + high % 0x100;
  }

  /** What the bytes after the guard data mean; nothing if they are refused. */
  function Meaning(body: Bytes): Option<seq<C2S>> {
    match Codec.ReadMessages(C2S_REGISTRY, body)
    case Ok(msgs) => Some(seq(|msgs|, i requires 0 <= i < |msgs| => ReadC2S(msgs[i])))
    case Err(_) => None
  }

  /** Whatever bytes come in, what is handed to the room engine can be relayed. */
  lemma MeaningIsClean(body: Bytes)
    ensures Meaning(body).Some? ==> AllClean(Meaning(body).value)
  {
    Wire.AcceptedIsClean(body);
    var r := Codec.ReadMessages(C2S_REGISTRY, body);
    if r.Ok? {
      forall m | m in Meaning(body).value ensures CleanC2S(m) {
        var i :| 0 <= i < |r.value| && m == ReadC2S(r.value[i]);
        assert r.value[i] in r.value;
      }
    }
  }

  /** The messages as a client lays them out. */
  function ClientMsgs(ps: seq<C2S>): (ms: seq<Codec.Msg>)
    ensures |ms| == |ps| && forall i :: 0 <= i < |ps| ==> ms[i] == C2SMsg(ps[i])
  {
    seq(|ps|, i requires 0 <= i < |ps| => C2SMsg(ps[i]))
  }

  /** The typed messages are all that the body says: laid out again they are what the
      deserialiser returned. */
  lemma MeaningIsWhole(body: Bytes)
    ensures Meaning(body).Some? ==> Codec.ReadMessages(C2S_REGISTRY, body) == Ok(ClientMsgs(Meaning(body).value))
  {
    Wire.AcceptedIsWhole(body);
    var r := Codec.ReadMessages(C2S_REGISTRY, body);
    if r.Ok? {
      forall i | 0 <= i < |r.value| ensures ClientMsgs(Meaning(body).value)[i] == r.value[i] {
        assert r.value[i] in r.value;
      }
      assert ClientMsgs(Meaning(body).value) == r.value;
    }
  }

  /** The typed messages of a body. */
  method ParseBody(body: Bytes) returns (parsed: Option<seq<C2S>>)
    ensures parsed == Meaning(body)
  {
    var r := Codec.Deserialize(C2S_REGISTRY, body);
    match r
    case Err(_) => parsed := None;
    case Ok(msgs) =>
      var typed: seq<C2S> := [];
      for i := 0 to |msgs|
        invariant |typed| == i && forall k :: 0 <= k < i ==> typed[k] == ReadC2S(msgs[k])
      {
        typed := typed + [ReadC2S(msgs[i])];
      }
      assert typed == seq(|msgs|, i requires 0 <= i < |msgs| => ReadC2S(msgs[i]));
      parsed := Some(typed);
  }

  /** The step that a frame makes: four bytes of hash, four of counter, then the body. */
  function StepOf<U>(u: U, frame: Bytes, verified: bool): Step<U>
    requires |frame| >= 8
  {
    Receiving(u, verified, BigEndian(frame[4..8]), Meaning(frame[8..]))
  }

  /** The frame has guard data that is right and a counter that was not seen before. */
  ghost predicate Counts<U>(w: World<U>, u: U, frame: Bytes, verified: bool) {
    |frame| >= 8 && verified && BigEndian(frame[4..8]) > At(w, u).guardCount
  }

  /** The body is a list of messages that a legitimate client can send. */
  ghost predicate Accepted<U>(f: Filters, w: World<U>, body: Bytes) {
    Meaning(body).Some? && AllLegitimate(f, w.rooms.Keys, Meaning(body).value)
  }

  /** A frame that does not count changes nothing. One that counts moves the counter, and
      then all its messages are processed or nothing else changes. */
  ghost predicate FrameApplied<U>(f: Filters, w: World<U>, w': World<U>, u: U, frame: Bytes, verified: bool) {
    if !Counts(w, u, frame, verified) then w' == w
    else
      var counted := Put(w, u, At(w, u).(guardCount := BigEndian(frame[4..8])));
      w' == if Accepted(f, w, frame[8..]) then ProcessAll(f, counted, u, Meaning(frame[8..]).value) else counted
  }

  lemma FrameMeans<U>(f: Filters, w: World<U>, u: U, frame: Bytes, verified: bool)
    requires |frame| >= 8
    ensures var w' := Packet(f, w, u, verified, BigEndian(frame[4..8]), Meaning(frame[8..]));
      FrameApplied(f, w, w', u, frame, verified)
  {
    if Meaning(frame[8..]).Some? {
      AllAcceptableIs(f, w.rooms.Keys, Meaning(frame[8..]).value);
    }
  }

  /** A frame without guard data is ignored; any other is one step, and every frame
      leaves the server valid, for any bytes. `verified` stands for the comparison of
      the hash. */
  method OnMessage(h: Handler, u: User, frame: Bytes, verified: bool)
    requires h.Valid() && InGame(h.Abs(), u)
    modifies h`history, h`trace, h.rooms.Values, u.data, h.conns`view
    ensures h.Valid() && (old(h.WasGuarded()) ==> h.WasGuarded())
    ensures h.history == if |frame| < 8 then old(h.history) else old(h.history) + [StepOf(u, frame, verified)]
    ensures FrameApplied(h.filters, old(h.Abs()), h.Abs(), u, frame, verified)
  {
    if |frame| < 8 {
      return;
    }
    var parsed := ParseBody(frame[8..]);
    MeaningIsClean(frame[8..]);
    FrameMeans(h.filters, h.Abs(), u, frame, verified);
    h.OnPacket(u, verified, BigEndian(frame[4..8]), parsed);
  }

  // ---------- Frames of a legitimate client ----------

  function ClientTexts(ps: seq<C2S>): (texts: seq<Bytes>)
    ensures |texts| == |ps| && forall i :: 0 <= i < |ps| ==> texts[i] == Wire.ClientText(ps[i])
  {
    seq(|ps|, i requires 0 <= i < |ps| => Wire.ClientText(ps[i]))
  }

  function ClientBody(ps: seq<C2S>): Bytes { Join(ClientTexts(ps), MESSAGE_DELIM) }

  lemma ClientTextIsWhole(p: C2S)
    requires CleanC2S(p)
    ensures !Contains(Wire.ClientText(p), MESSAGE_DELIM)
  {
    Wire.C2SRegistered(p);
    Wire.C2SFits(p);
    AsciiIsClean(C2SMsg(p).name);
    Codec.CleanMessageParts(C2SMsg(p));
  }

  /** Any non-empty list of clean messages is understood as itself. */
  lemma BodyIsUnderstood(ps: seq<C2S>)
    requires ps != [] && AllClean(ps)
    ensures Meaning(ClientBody(ps)) == Some(ps)
  {
    var texts, ms := ClientTexts(ps), ClientMsgs(ps);
    forall i | 0 <= i < |ps|
      ensures !Contains(texts[i], MESSAGE_DELIM) && Codec.ReadMessage(C2S_REGISTRY, texts[i]) == Ok(ms[i])
    {
      assert ps[i] in ps;
      ClientTextIsWhole(ps[i]);
      Wire.ClientIsUnderstood(ps[i]);
    }
    DelimitersAreSeparable();
    SplitOfJoin(texts, MESSAGE_DELIM);
    Codec.ReadEachCases(C2S_REGISTRY, texts, ms);
    forall i | 0 <= i < |ps| ensures ReadC2S(ms[i]) == ps[i] {
      Wire.ReadsBack(ps[i]);
    }
    assert Meaning(ClientBody(ps)).value == ps;
  }
}
