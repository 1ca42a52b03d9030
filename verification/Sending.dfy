/** What the loops and sends of the room server need to know about the steps that they
    make up: whom they reach, and that nothing is sent to a closed outbox. */
module Sending {
  import opened Basics
  import opened Delimiters
  import opened Packets
  import opened Validate
  import opened Views
  import opened World
  import opened Agreement
  import opened RoomChange
  import opened Engine
  import opened Lifecycle
  import opened BlockLists

  // ---------- What sending needs ----------

  /** Members are listed once and can be sent to, and what is stored can be sent. */
  ghost predicate Steady<U>(w: World<U>) {
    && Placed(w)
    && (forall r, u :: r in w.rooms && u in w.rooms[r] ==> w.data[u].open)
    && (forall u :: u in w.data ==> Introducible(w.data[u]))
  }

  ghost predicate Introducible(d: Player) { PlayerClean(d) && PicturesKeyed(d) }

  lemma ServerIsSteady<U>(f: Filters, w: World<U>)
    requires ServerOK(f, w)
    ensures Steady(w)
  {
    forall r, u | r in w.rooms && u in w.rooms[r] ensures w.data[u].open {
      assert At(w, u).roomID == r && Enrolled(w, u);
    }
    forall u | u in w.data ensures Introducible(w.data[u]) {
      assert StateOK(f, w.data[u]);
    }
  }

  /** Handing a list of packets to some clients. */
  ghost function TellAll<U>(w: World<U>, to: set<U>, ps: seq<S2C>): World<U> {
    w.(views := map x | x in w.views :: if x in to then ApplyAll(w.views[x], ps) else w.views[x])
  }

  lemma TellAllOne<U>(w: World<U>, to: set<U>, p: S2C)
    ensures TellAll(w, to, [p]) == Tell(w, to, p)
  {
    forall x | x in w.views ensures ApplyAll(w.views[x], [p]) == Apply(w.views[x], p) {
      ApplyOne(w.views[x], p);
    }
  }

  lemma TellAllIntro<U>(w: World<U>, to: set<U>, d: Player, ps: seq<S2C>)
    requires PicturesKeyed(d) && IsIntro(ps, d)
    ensures TellAll(w, to, ps) == TellIntro(w, to, d)
  {
    forall x | x in w.views ensures ApplyAll(w.views[x], ps) == Introduce(w.views[x], d) {
      IntroFold(w.views[x], d, ps);
    }
  }

  /** The members of u's room are listed once and can be sent to. */
  ghost predicate Reachable<U>(w: World<U>, u: U) {
    var r := At(w, u).roomID;
    r in w.rooms && NoDuplicates(w.rooms[r]) && forall m :: m in w.rooms[r] ==> m in w.data && w.data[m].open
  }

  lemma SteadyReaches<U>(w: World<U>, u: U)
    requires Steady(w) && u in w.data
    ensures Reachable(w, u) && Introducible(w.data[u])
  {
    assert w.data[u].roomID in w.rooms;
  }

  lemma SamePlacesSteady<U>(w: World<U>, w': World<U>)
    requires Steady(w) && SamePlacesAndKeys(w, w')
    ensures Steady(w')
  {
    SamePlacesPlaced(w, w');
  }

  lemma LeftSteady<U>(f: Filters, w: World<U>, u: U, newID: int32)
    requires Steady(w)
    ensures Steady(Left(f, w, u, newID)) && Left(f, w, u, newID).data == w.data
  {
    LeftIs(f, w, u, newID);
    SamePlacesSteady(w, Left(f, w, u, newID));
  }

  lemma RelocatedOpen<U>(w: World<U>, w': World<U>, u: U, newID: int32, r: int32, x: U)
    requires Steady(w) && u in w.data && w.data[u].open && Relocated(w, w', u, newID) && r in w'.rooms
    requires x in w'.rooms[r]
    ensures x in w'.data && w'.data[x].open
  {
    assert RoomAfter(w, w', u, newID, r);
  }

  lemma RelocatedIntroducible<U>(w: World<U>, w': World<U>, u: U, newID: int32)
    requires Steady(w) && u in w.data && Relocated(w, w', u, newID)
    ensures forall x :: x in w'.data ==> Introducible(w'.data[x])
  {
    var d := w.data[u];
    assert Introducible(d) && Introducible(d.(roomID := newID));
  }

  lemma ArrivedSteady<U>(w: World<U>, u: U, newID: int32)
    requires Steady(w) && u in w.data && w.data[u].open && newID in w.rooms
    ensures Steady(Arrived(w, u, newID)) && At(Arrived(w, u, newID), u).open
  {
    var w' := Arrived(w, u, newID);
    ArrivedIs(w, u, newID);
    RelocatedIsPlaced(w, w', u, newID);
    RelocatedIntroducible(w, w', u, newID);
    forall r, x | r in w'.rooms && x in w'.rooms[r] ensures w'.data[x].open {
      RelocatedOpen(w, w', u, newID, r, x);
    }
  }

  lemma MetRoomSteady<U>(f: Filters, w: World<U>, u: U)
    requires Steady(w) && u in w.data
    ensures Steady(MetRoom(f, w, u))
  {
    SamePlacesSteady(w, MetRoom(f, w, u));
  }

  lemma PutReaches<U>(w: World<U>, u: U, d: Player)
    requires Reachable(w, u) && SameIdentity(At(w, u), d)
    ensures Reachable(Put(w, u, d), u)
  {
  }

  /** Erasing a picture leaves its owner where it was. */
  lemma RemovedReaches<U>(f: Filters, w: World<U>, u: U, picID: int32)
    requires Reachable(w, u) && u in w.data
    ensures var w' := RemovePicture(f, w, u, picID); Reachable(w', u) && u in w'.data && w'.data.Keys == w.data.Keys
  {
    PutReaches(w, u, Erased(At(w, u), picID));
  }

  lemma RelayIsSendable(d: Player, m: C2S)
    requires IsRelay(m) && CleanC2S(m)
    ensures SameIdentity(d, RelayData(d, m)) && CleanS2C(RelayPacket(d.cid, m))
  {
  }

  // ---------- Telling a member list ----------

  /** One more member of the room is shown to the newcomer, or skipped. */
  lemma MeetNext<U>(v: View, us: Player, members: seq<U>, i: nat, w: World<U>)
    requires i < |members|
    ensures Meet(v, us, members[..i + 1], w) ==
      if Skipped(us, At(w, members[i])) then Meet(v, us, members[..i], w)
      else Introduce(Meet(v, us, members[..i], w), At(w, members[i]))
  {
    var more := members[..i + 1];
    assert more[..|more| - 1] == members[..i] && more[|more| - 1] == members[i];
  }

  lemma MetMember(v: View, msgs: seq<S2C>, d: Player, intro: seq<S2C>)
    requires Sendable(msgs) && Introducible(d) && IsIntro(intro, d)
    ensures Sendable(msgs + intro) && ApplyAll(v, msgs + intro) == Introduce(ApplyAll(v, msgs), d)
  {
    IntroIsSendable(d, intro);
    SendableAppend(msgs, intro);
    ApplyAppend(v, msgs, intro);
    IntroFold(ApplyAll(v, msgs), d, intro);
  }

  /** The members that hear about u. */
  ghost function Unskipped<U>(w: World<U>, u: U, members: seq<U>): set<U> {
    set x | x in members && !Skipped(At(w, u), At(w, x))
  }

  lemma AudienceIs<U>(f: Filters, w: World<U>, u: U)
    ensures Audience(f, w, u) ==
      if At(w, u).roomID in f.singleplayer then {} else Unskipped(w, u, Members(w, At(w, u).roomID))
  {
  }

  lemma TellNobody<U>(w: World<U>, to: set<U>, msgs: seq<S2C>)
    requires to == {}
    ensures TellAll(w, to, msgs) == w
  {
    assert TellAll(w, to, msgs).views == w.views;
  }

  /** One more member of the list is told, or skipped. */
  lemma TellOneMore<U>(w: World<U>, w1: World<U>, w2: World<U>, u: U, members: seq<U>, i: nat, skip: bool,
      msgs: seq<S2C>)
    requires i < |members| && NoDuplicates(members) && members[i] in w.views
    requires w1 == TellAll(w, Unskipped(w, u, members[..i]), msgs)
    requires skip <==> Skipped(At(w1, u), At(w1, members[i]))
    requires w2 == if skip then w1 else Show(w1, members[i], ApplyAll(ViewOf(w1, members[i]), msgs))
    ensures w2 == TellAll(w, Unskipped(w, u, members[..i + 1]), msgs)
  {
    var m := members[i];
    assert members[..i + 1] == members[..i] + [m] && m !in members[..i];
    var to, more := Unskipped(w, u, members[..i]), Unskipped(w, u, members[..i + 1]);
    assert more == if Skipped(At(w, u), At(w, m)) then to else to + {m};
    assert w2.views == TellAll(w, more, msgs).views;
  }

  // ---------- Packets ----------

  lemma {:induction false} ProcessSnoc<U>(f: Filters, w: World<U>, u: U, ms: seq<C2S>, m: C2S)
    ensures ProcessAll(f, w, u, ms + [m]) == Process(f, ProcessAll(f, w, u, ms), u, m)
    decreases ms
  {
    if ms == [] {
      assert ms + [m] == [m] && [m][1..] == [];
    } else {
      assert (ms + [m])[1..] == ms[1..] + [m] && (ms + [m])[0] == ms[0];
      ProcessSnoc(f, Process(f, w, u, ms[0]), u, ms[1..], m);
    }
  }

  /** In an accepted packet each message can be processed when its turn comes. */
  lemma ReadyForNext<U>(f: Filters, w: World<U>, u: U, ms: seq<C2S>, k: nat)
    requires ServerOK(f, w) && InGame(w, u) && AllAcceptable(f, w.rooms.Keys, ms) && AllClean(ms) && k < |ms|
    ensures var w' := ProcessAll(f, w, u, ms[..k]);
      Steady(w') && u in w'.data && At(w', u).open && Processable(w', ms[k]) && CleanC2S(ms[k])
  {
    AcceptedStaysAcceptable(f, w, u, ms, k);
    assert forall m :: m in ms[..k] ==> m in ms;
    ProcessAllKeeps(f, w, u, ms[..k]);
    ServedIsSteady(f, ProcessAll(f, w, u, ms[..k]), u);
    assert ms[k] in ms;
  }

  lemma ServedIsSteady<U>(f: Filters, w: World<U>, u: U)
    requires ServerOK(f, w) && InGame(w, u)
    ensures Steady(w) && At(w, u).open
  {
    ServerIsSteady(f, w);
    assert Enrolled(w, u);
  }

  lemma ProcessOneMore<U>(f: Filters, w: World<U>, u: U, ms: seq<C2S>, k: nat)
    requires k < |ms|
    ensures ProcessAll(f, w, u, ms[..k + 1]) == Process(f, ProcessAll(f, w, u, ms[..k]), u, ms[k])
  {
    assert ms[..k + 1] == ms[..k] + [ms[k]];
    ProcessSnoc(f, w, u, ms[..k], ms[k]);
  }

  ghost predicate NextReady<U>(f: Filters, w: World<U>, u: U, ms: seq<C2S>, k: nat)
    requires k < |ms|
  {
    var w' := ProcessAll(f, w, u, ms[..k]);
    Steady(w') && u in w'.data && At(w', u).open && Processable(w', ms[k]) && CleanC2S(ms[k])
  }

  ghost predicate CanProcess<U>(f: Filters, w: World<U>, u: U, ms: seq<C2S>) {
    forall k :: 0 <= k < |ms| ==> NextReady(f, w, u, ms, k)
  }

  /** An accepted packet can be processed to its end. */
  ghost predicate Sound<U>(f: Filters, w: World<U>, u: U, ms: seq<C2S>) {
    AllAcceptable(f, w.rooms.Keys, ms) ==> CanProcess(f, w, u, ms)
  }

  lemma CountedIsSound<U>(f: Filters, w: World<U>, u: U, count: uint32, ms: seq<C2S>)
    requires ServerOK(f, w) && InGame(w, u) && AllClean(ms)
    ensures Sound(f, Put(w, u, Counted(At(w, u), count)), u, ms)
  {
    var counted := Put(w, u, Counted(At(w, u), count));
    if AllAcceptable(f, w.rooms.Keys, ms) {
      CountKeeps(f, w, u, count);
      forall k | 0 <= k < |ms| ensures NextReady(f, counted, u, ms, k) {
        ReadyForNext(f, counted, u, ms, k);
      }
    }
  }

  // ---------- Connections ----------

  /** The lists that a client is sent at first can be carried by the wire. */
  ghost predicate CleanAssets(f: Filters) {
    (forall s :: s in f.pictureNames ==> Clean(s)) && (forall s :: s in f.picturePrefixes ==> Clean(s))
  }

  lemma InitialIsSendable(f: Filters, d: Player)
    requires CleanAssets(f) && Clean(d.badge)
    ensures Sendable(InitialPackets(f, d))
  {
  }

  lemma RegisteredIsPlaced<U>(f: Filters, w: World<U>, u: U)
    requires Placed(w) && u in w.data
    ensures Placed(Registered(f, w, u))
  {
    RegisteredIsEnlisted(f, w, u);
    PhaseSame(w, Registered(f, w, u), u, Live, At(w, u).open);
    PhasePlaced(w, Registered(f, w, u));
  }

  lemma RegisteredSteady<U>(f: Filters, w: World<U>, u: U)
    requires ServerOK(f, w) && u in w.data && At(w, u).phase == Authorized
    ensures Steady(Registered(f, w, u)) && At(Registered(f, w, u), u).open
  {
    ServerIsSteady(f, w);
    assert Enrolled(w, u);
    RegisteredIsPlaced(f, w, u);
    RegisteredIntroducible(f, w, u);
  }

  lemma RegisteredIntroducible<U>(f: Filters, w: World<U>, u: U)
    requires Steady(w) && u in w.data
    ensures forall x :: x in Registered(f, w, u).data ==> Introducible(Registered(f, w, u).data[x])
  {
    assert Introducible(w.data[u]);
  }

  lemma DeregisteredReaches<U>(f: Filters, w: World<U>, u: U)
    requires ServerOK(f, w) && u in w.data
    ensures Reachable(Deregistered(w, u), u)
  {
    ServerIsSteady(f, w);
    DeregisteredIsDeparted(w, u);
    assert RoomWithout(w, Deregistered(w, u), u, At(w, u).roomID);
  }

  // ---------- Block lists ----------

  /** u and each of them are hidden from, or shown to, each other. */
  ghost function Exchange<U>(w: World<U>, u: U, them: set<U>, hiding: bool): World<U> {
    if hiding then HideFrom(w, u, them) else ShowTo(w, u, them)
  }

  /** Two players that can be shown to each other. */
  ghost predicate Meetable<U>(w: World<U>, x: U) {
    x in w.data && w.data[x].open && Introducible(w.data[x]) && w.data[x].flash.None?
  }

  lemma RoommatesOneMore<U>(w: World<U>, u: U, accounts: set<Uuid>, a: Uuid)
    ensures Roommates(w, u, accounts + {a}) ==
      Roommates(w, u, accounts) +
        if a in w.users && At(w, w.users[a]).roomID == At(w, u).roomID then {w.users[a]} else {}
  {
  }

  lemma ListProgress(first: set<Uuid>, left: set<Uuid>, second: set<Uuid>, a: Uuid)
    requires left <= first && a in left
    ensures first - (left - {a}) - second == if a in second then first - left - second else first - left - second + {a}
  {
  }

  ghost predicate OnlineMeetable<U>(w: World<U>, u: U) {
    DistinctIDs(w) && Meetable(w, u) && forall a :: a in w.users ==> Meetable(w, w.users[a])
  }

  lemma ExchangeMore<U>(w: World<U>, u: U, them: set<U>, x: U, hiding: bool)
    requires DistinctIDs(w) && Known(w, them) && Meetable(w, u) && Meetable(w, x)
    ensures Exchange(Exchange(w, u, them, hiding), u, {x}, hiding) == Exchange(w, u, them + {x}, hiding)
  {
    if hiding {
      HideMore(w, u, them, x);
    } else {
      ShowMore(w, u, them, x);
    }
  }

  lemma ExchangeNobody<U>(w: World<U>, u: U, them: set<U>, hiding: bool)
    requires them == {}
    ensures Exchange(w, u, them, hiding) == w
  {
    ShowNobody(w, u);
  }

  /** One more account of a list. */
  lemma ExchangeAccount<U>(w: World<U>, w1: World<U>, w2: World<U>, u: U, accounts: set<Uuid>, a: Uuid, hiding: bool)
    requires OnlineMeetable(w, u) && w1 == Exchange(w, u, Roommates(w, u, accounts), hiding)
    requires w2 == Exchange(w1, u, Roommates(w1, u, {a}), hiding)
    ensures w2 == Exchange(w, u, Roommates(w, u, accounts + {a}), hiding)
  {
    RoommatesOneMore(w, u, accounts, a);
    RoommatesOneMore(w1, u, {}, a);
    assert {} + {a} == {a} && Roommates(w1, u, {}) == {};
    if a in w.users && At(w, w.users[a]).roomID == At(w, u).roomID {
      ExchangeMore(w, u, Roommates(w, u, accounts), w.users[a], hiding);
      assert Roommates(w1, u, {a}) == {w.users[a]};
    } else {
      ExchangeNobody(w1, u, Roommates(w1, u, {a}), hiding);
      assert Roommates(w, u, accounts + {a}) == Roommates(w, u, accounts);
    }
  }

  lemma ExchangeKeepsMeetable<U>(w: World<U>, u: U, them: set<U>, hiding: bool)
    requires OnlineMeetable(w, u)
    ensures OnlineMeetable(Exchange(w, u, them, hiding), u)
  {
    var w' := Exchange(w, u, them, hiding);
    forall a | a in w'.users ensures Meetable(w', w'.users[a]) {
      assert Meetable(w, w.users[a]);
    }
  }

  lemma ServerIsMeetable<U>(f: Filters, w: World<U>, account: Uuid)
    requires ServerOK(f, w) && account in w.users
    ensures OnlineMeetable(w, w.users[account])
  {
    ServerIsSteady(f, w);
    forall a | a in w.users ensures Meetable(w, w.users[a]) {
      assert AccountOK(w, a) && Enrolled(w, w.users[a]);
      assert StateOK(f, w.data[w.users[a]]);
    }
  }

  lemma ExchangeKeepsRoommates<U>(w: World<U>, u: U, them: set<U>, accounts: set<Uuid>, hiding: bool)
    ensures var w' := Exchange(w, u, them, hiding);
      Roommates(w', u, accounts) == Roommates(w, u, accounts) && w'.data == w.data && w'.users == w.users
  {
  }
}
