/** Joint runs in which something changes between look-up and opening. */
module StaleRuns {
  import opened Basics
  import opened Copies
  import opened DataStore
  import opened Validate
  import opened World
  import opened Agreement
  import opened RoomChange
  import opened Runs
  import opened Failures
  import opened MapChat
  import opened JointRuns
  import Chat

  ghost predicate JointReaches<U, C>(f: Filters, steps: seq<JointStep<U, C>>, j: Joint<U, C>) {
    PossibleJoint(f, JointStart(f), steps) && JointRun(f, JointStart(f), steps) == j
  }

  lemma {:induction false} JointSnoc<U, C>(f: Filters, j: Joint<U, C>, steps: seq<JointStep<U, C>>, s: JointStep<U, C>)
    requires PossibleJoint(f, j, steps) && JointPossible(JointRun(f, j, steps), s)
    ensures PossibleJoint(f, j, steps + [s])
    ensures JointRun(f, j, steps + [s]) == JointNext(f, JointRun(f, j, steps), s)
    decreases steps
  {
    if steps == [] {
      assert steps + [s] == [s] && [s][1..] == [];
    } else {
      assert (steps + [s])[1..] == steps[1..] + [s] && (steps + [s])[0] == steps[0];
      JointSnoc(f, JointNext(f, j, steps[0]), steps[1..], s);
    }
  }

  lemma JointExtend<U, C>(f: Filters, steps: seq<JointStep<U, C>>, j: Joint<U, C>, s: JointStep<U, C>, j': Joint<U, C>)
    requires JointReaches(f, steps, j) && JointPossible(j, s) && j' == JointNext(f, j, s)
    ensures JointReaches(f, steps + [s], j')
  {
    JointSnoc(f, JointStart(f), steps, s);
  }

  function TwoUsers(a: Uuid, b: Uuid): Tables { Tables({a} + {b}, map[], [], []) }

  function BothRegistered<U, C>(a: Uuid, b: Uuid): seq<JointStep<U, C>> {
    [InTables(Registering(a), true), InTables(Registering(b), true)]
  }

  ghost function NoChat<U, C>(w: World<U>, t: Tables): Joint<U, C> { Joint(w, t, map[], map[]) }

  lemma BothRegister<U, C>(f: Filters, a: Uuid, b: Uuid)
    requires a != b
    ensures JointReaches(f, BothRegistered<U, C>(a, b), NoChat(Start(f), TwoUsers(a, b)))
  {
    var j := JointStart<U, C>(f);
    var j1 := NoChat<U, C>(Start<U>(f), Tables({a}, map[], [], []));
    assert {} + {a} == {a};
    var first: seq<JointStep<U, C>> := [InTables(Registering(a), true)];
    JointExtend(f, [], j, InTables(Registering(a), true), j1);
    assert [] + first == first && first + [InTables(Registering(b), true)] == BothRegistered(a, b);
    JointExtend(f, first, j1, InTables(Registering(b), true), NoChat(j1.w, TwoUsers(a, b)));
  }

  // ---------- A block list ----------

  function OneBlock(a: Uuid, b: Uuid): Tables { Tables({a} + {b}, map[], [], [Relation(a, b)]) }

  lemma BlockCommits<U, C>(f: Filters, w: World<U>, a: Uuid, b: Uuid)
    requires a !in w.users
    ensures JointNext(f, NoChat<U, C>(w, TwoUsers(a, b)), InTables(Change.Blocking(a, b), true)) ==
            NoChat<U, C>(w, OneBlock(a, b))
    ensures BlockList(OneBlock(a, b), a) == {b}
    ensures BlockList(TwoUsers(a, b), a) == {} && BlockList(TwoUsers(a, b), b) == {}
  {
    assert TwoUsers(a, b).relations + [Relation(a, b)] == [Relation(a, b)];
    assert BlockedIn([Relation(a, b)], a) == [b];
  }

  /** One account is in the game. The list of another is looked up, then it blocks the
      first, and then it opens. */
  function StaleList<U, C>(r: int32, u: U, v: U, a: Uuid, b: Uuid): seq<JointStep<U, C>> {
    BothRegistered(a, b) + [InRoom(Authorizing(v, Newcomer(1, b, r)))] + [InRoom(Opening(v))]
    + [InRoom(Authorizing(u, Newcomer(2, a, r)))] + [InTables(Change.Blocking(a, b), true)] + [InRoom(Opening(u))]
  }

  lemma FourSteps<U>(f: Filters, w: World<U>, w': World<U>, s0: Step<U>, s1: Step<U>, s2: Step<U>, s3: Step<U>)
      returns (w1: World<U>, w2: World<U>, w3: World<U>)
    requires PossibleRun(f, w, [s0, s1, s2, s3]) && Run(f, w, [s0, s1, s2, s3]) == w'
    ensures IsStep(f, w, s0, w1) && IsStep(f, w1, s1, w2) && IsStep(f, w2, s2, w3) && IsStep(f, w3, s3, w')
  {
    var steps := [s0, s1, s2, s3];
    w1 := Next(f, w, s0);
    w2 := Next(f, w1, s1);
    w3 := Next(f, w2, s2);
    assert steps[1..] == [s1, s2, s3] && [s1, s2, s3][1..] == [s2, s3] && [s2, s3][1..] == [s3] && [s3][1..] == [];
    assert PossibleRun(f, w1, [s1, s2, s3]) && PossibleRun(f, w2, [s2, s3]) && PossibleRun(f, w3, [s3]);
    assert w' == Run(f, w1, [s1, s2, s3]);
    assert w' == Run(f, w2, [s2, s3]);
    assert w' == Run(f, w3, [s3]);
    assert w' == Run(f, Next(f, w3, s3), []);
  }

  /** One step of the room server, while chat is empty. */
  lemma RoomExtend<U, C>(f: Filters, steps: seq<JointStep<U, C>>, w: World<U>, t: Tables, s: Step<U>, w': World<U>)
    requires JointReaches(f, steps, NoChat(w, t)) && IsStep(f, w, s, w') && !s.Blocking?
    requires s.Authorizing? ==> s.d.blocklist == {}
    ensures JointReaches(f, steps + [InRoom(s)], NoChat(w', t))
  {
    JointExtend(f, steps, NoChat(w, t), InRoom(s), NoChat(w', t));
  }

  lemma StaleListIs<U, C>(f: Filters, r: int32, u: U, v: U, a: Uuid, b: Uuid) returns (w: World<U>)
    requires r in f.maps && u != v && a != b
    ensures Reaches(f, Meeting(r, v, u, b, a), w) && Together(w, r, v, u, b, a, {}, {})
    ensures JointReaches(f, StaleList<U, C>(r, u, v, a, b), NoChat(w, OneBlock(a, b)))
  {
    w := MeetingIs(f, r, v, u, b, a);
    var t, dv, du := TwoUsers(a, b), Newcomer(1, b, r), Newcomer(2, a, r);
    assert Meeting(r, v, u, b, a) == [Authorizing(v, dv), Opening(v), Authorizing(u, du), Opening(u)];
    var w1, w2, w3 := FourSteps(f, Start(f), w, Authorizing(v, dv), Opening(v), Authorizing(u, du), Opening(u));
    BothRegister<U, C>(f, a, b);
    var before := BothRegistered<U, C>(a, b);
    RoomExtend(f, before, Start(f), t, Authorizing(v, dv), w1);
    RoomExtend(f, before + [InRoom(Authorizing(v, dv))], w1, t, Opening(v), w2);
    var inGame := before + [InRoom(Authorizing(v, dv))] + [InRoom(Opening(v))];
    RoomExtend(f, inGame, w2, t, Authorizing(u, du), w3);
    var looked := inGame + [InRoom(Authorizing(u, du))];
    BlockCommits<U, C>(f, w3, a, b);
    JointExtend(f, looked, NoChat(w3, t), InTables(Change.Blocking(a, b), true), NoChat(w3, OneBlock(a, b)));
    RoomExtend(f, looked + [InTables(Change.Blocking(a, b), true)], w3, OneBlock(a, b), Opening(u), w);
  }

  /** A block change between looking up and opening is lost: both players see each other,
      but chat keeps them apart. */
  lemma StaleListShows<U, C>(f: Filters, r: int32, u: U, v: U, a: Uuid, b: Uuid)
    requires Assets(f) && r in f.maps && r !in f.singleplayer && u != v && a != b
    ensures PossibleJoint(f, JointStart(f), StaleList<U, C>(r, u, v, a, b))
    ensures var j := JointRun(f, JointStart(f), StaleList<U, C>(r, u, v, a, b));
      !RoomCopiesOK(j.w, j.t) && !MapChatIsView(f, j.w, j.t, a, b)
  {
    var w := StaleListIs<U, C>(f, r, u, v, a, b);
    BlockCommits<U, C>(f, Start<U>(f), a, b);
    assert !RoomCopyOK(w, OneBlock(a, b), a);
    StartIsGood<U>(f);
    RunAgrees(f, Start(f), Meeting(r, v, u, b, a));
    assert Enrolled(w, u) && Enrolled(w, v);
    assert ViewOK(f, w, v) && PairOK(f, w, v, u);
    assert Chat.Blocked(OneBlock(a, b), a, b);
  }

  // ---------- A party ----------

  function OneParty(a: Uuid, b: Uuid, id: Uuid, name: string): Tables {
    Tables({a} + {b}, map[id := name], [Membership(id, b)], [])
  }

  function BothIn(a: Uuid, b: Uuid, id: Uuid, name: string): Tables {
    Tables({a} + {b}, map[id := name], [Membership(id, b)] + [Membership(id, a)], [])
  }

  lemma PartyRows(a: Uuid, b: Uuid, id: Uuid, name: string)
    requires a != b && IsValidPartyName(name)
    ensures Create(TwoUsers(a, b), b, name, id) == Ok(OneParty(a, b, id, name))
    ensures InsertMember(OneParty(a, b, id, name), id, a) == Ok(BothIn(a, b, id, name))
    ensures LookUp(OneParty(a, b, id, name), a) == Copy(a, {}, None)
    ensures LookUp(BothIn(a, b, id, name), b) == Copy(b, {}, Some(id))
  {
    assert TwoUsers(a, b).members + [Membership(id, b)] == [Membership(id, b)];
    assert FindParty([Membership(id, b)][1..], a) == None;
    assert !HasParty(OneParty(a, b, id, name), a);
  }

  lemma NewMember(a: Uuid, b: Uuid, id: Uuid, name: string)
    requires a != b
    ensures MembersOf(BothIn(a, b, id, name), id) == [b, a] && PartyOf(BothIn(a, b, id, name), a) == Some(id)
    ensures PartyOf(BothIn(a, b, id, name), b) == Some(id) && !Chat.Blocked(BothIn(a, b, id, name), b, a)
  {
    UsersInAppend([Membership(id, b)], Membership(id, a), id);
    FindPartyAppend([Membership(id, b)], Membership(id, a), a);
    assert UsersIn([Membership(id, b)], id) == [b] by {
      assert [Membership(id, b)][1..] == [];
    }
    assert FindParty([Membership(id, b)], a) == None by {
      assert [Membership(id, b)][1..] == [];
    }
  }

  /** One account has a party. Another is looked up, then it joins, and then it opens. */
  function StaleParty<U, C>(c: C, d: C, a: Uuid, b: Uuid, id: Uuid, name: string): seq<JointStep<U, C>> {
    BothRegistered(a, b) + [InTables(Creating(b, name, id), true)] + [LookingUp(c, a)]
    + [InTables(Joining(a, id), true)] + [ChatOpening(c)] + [LookingUp(d, b)] + [ChatOpening(d)]
  }

  /** The copies at the end of that run. */
  function StaleCopies<C>(c: C, d: C, a: Uuid, b: Uuid, id: Uuid): map<C, Copy> {
    map[c := Copy(a, {}, None), d := Copy(b, {}, Some(id))]
  }

  lemma StalePartyIs<U, C>(f: Filters, c: C, d: C, a: Uuid, b: Uuid, id: Uuid, name: string)
    requires a != b && c != d && IsValidPartyName(name)
    ensures JointReaches(f, StaleParty<U, C>(c, d, a, b, id, name),
                         Joint(Start(f), BothIn(a, b, id, name), map[], StaleCopies(c, d, a, b, id)))
  {
    var w, t1, t2 := Start<U>(f), OneParty(a, b, id, name), BothIn(a, b, id, name);
    var ca, cb := Copy(a, {}, None), Copy(b, {}, Some(id));
    PartyRows(a, b, id, name);
    BothRegister<U, C>(f, a, b);
    var s0 := BothRegistered<U, C>(a, b);
    var j1, j2: Joint<U, C> := NoChat(w, t1), Joint(w, t1, map[c := ca], map[]);
    JointExtend(f, s0, NoChat(w, TwoUsers(a, b)), InTables(Creating(b, name, id), true), j1);
    var s1 := s0 + [InTables(Creating(b, name, id), true)];
    JointExtend(f, s1, j1, LookingUp(c, a), j2);
    var s2 := s1 + [LookingUp(c, a)];
    var j3, j4: Joint<U, C> := Joint(w, t2, map[c := ca], map[]), Joint(w, t2, map[], map[c := ca]);
    JointExtend(f, s2, j2, InTables(Joining(a, id), true), j3);
    var s3 := s2 + [InTables(Joining(a, id), true)];
    assert map[c := ca] - {c} == map[];
    JointExtend(f, s3, j3, ChatOpening(c), j4);
    var s4 := s3 + [ChatOpening(c)];
    var j5: Joint<U, C> := Joint(w, t2, map[d := cb], map[c := ca]);
    JointExtend(f, s4, j4, LookingUp(d, b), j5);
    assert map[d := cb] - {d} == map[];
    JointExtend(f, s4 + [LookingUp(d, b)], j5, ChatOpening(d), Joint(w, t2, map[], StaleCopies(c, d, a, b, id)));
  }

  /** A party joined between looking up and opening is unknown to the connection: it gets
      no message of the party that the tables list it in. */
  lemma StalePartyShows<U, C>(f: Filters, c: C, d: C, a: Uuid, b: Uuid, id: Uuid, name: string, content: Bytes)
    requires a != b && c != d && IsValidPartyName(name)
    ensures PossibleJoint(f, JointStart(f), StaleParty<U, C>(c, d, a, b, id, name))
    ensures var j := JointRun(f, JointStart(f), StaleParty<U, C>(c, d, a, b, id, name));
      && !CopiesOK(j.t, j.live) && c in j.live && d in j.live && j.live[c].account == a && j.live[d].account == b
      && PartyOf(j.t, b) == Some(id) && a in MembersOf(j.t, id) && !Chat.Blocked(j.t, b, a)
      && Chat.Delivered(RoommatesOf(f, j.w, b), Chat.Party, j.live[d], j.live[c], false, content) == []
  {
    StalePartyIs<U, C>(f, c, d, a, b, id, name);
    NewMember(a, b, id, name);
    assert !CopyOK(BothIn(a, b, id, name), StaleCopies(c, d, a, b, id)[c]);
  }
}
