/** Connections come and go: authorisation, opening, closing. */
module Lifecycle {
  import opened Basics
  import opened Delimiters
  import opened Packets
  import opened Validate
  import opened Views
  import opened World
  import opened Agreement
  import opened RoomChange
  import opened Engine

  // ---------- Authorisation ----------

  /** The data made for a connection that may still be refused when it opens. */
  ghost predicate IsNew<U>(w: World<U>, d: Player) {
    && d.cid == w.counter + 1 && d.phase == Authorized && d.open && Clean(d.name)
    && d == NewPlayer(d.cid, d.name, d.account, d.loggedIn, d.guardKey, d.roomID, d.blocklist)
  }

  /** What a new player is: what was looked up for it, and otherwise what clients assume. */
  ghost predicate AsNew(d: Player, cid: int32, name: Bytes, account: Uuid, loggedIn: bool, guardKey: uint32,
      roomID: int32, blocklist: set<Uuid>) {
    && d.cid == cid && d.name == name && d.account == account && d.loggedIn == loggedIn
    && d.guardKey == guardKey && d.roomID == roomID && d.blocklist == blocklist
    && d.rank == 0 && d.badge == [] && d.guardCount == 0 && d.phase == Authorized && d.open
    && d.x == -1 && d.y == -1 && d.facing == 2 && d.speed == 3
    && d.transparency == 0 && !d.hidden && d.sprite == [] && d.spriteIndex == -1 && d.sysName == []
    && d.flash == None && d.pictures == map[]
  }

  /** Nothing that was looked up is lost, and nothing else is set. */
  lemma NewIsAsNew(d: Player, cid: int32, name: Bytes, account: Uuid, loggedIn: bool, guardKey: uint32,
      roomID: int32, blocklist: set<Uuid>)
    ensures d == NewPlayer(cid, name, account, loggedIn, guardKey, roomID, blocklist) <==>
      AsNew(d, cid, name, account, loggedIn, guardKey, roomID, blocklist)
  {
  }

  lemma NewState(f: Filters, d: Player)
    requires Clean(d.name) && d == NewPlayer(d.cid, d.name, d.account, d.loggedIn, d.guardKey, d.roomID, d.blocklist)
    ensures StateOK(f, d)
  {
    EmptyIsClean();
  }

  lemma EmptyIsClean()
    ensures Clean([])
  {
  }

  lemma AuthorizedView<U>(f: Filters, w: World<U>, w': World<U>, u: U, x: U)
    requires Placed(w) && u !in w.data && x in w.data && ViewOK(f, w, x)
    requires w'.rooms == w.rooms && w'.data.Keys == w.data.Keys + {u} && At(w', u).cid == w.counter + 1
    requires forall y :: y in w.data ==> w'.data[y] == w.data[y]
    requires ViewOf(w', x) == ViewOf(w, x)
    ensures ViewOK(f, w', x)
  {
    forall v | v in w'.data ensures PairOK(f, w', x, v) {
      if v == u {
        assert w.counter + 1 in ViewOf(w, x).players ==> KnownID(w, w.counter + 1);
      } else {
        assert PairOK(f, w, x, v);
      }
    }
    forall id | id in ViewOf(w', x).players ensures KnownID(w', id) {
      assert KnownID(w, id);
      var v :| v in w.data && w.data[v].cid == id;
      assert w'.data[v].cid == id;
    }
  }

  ghost predicate Added<U>(w: World<U>, w': World<U>, u: U, d: Player) {
    && w'.rooms == w.rooms && w'.users == w.users && w'.counter == w.counter + 1
    && w'.data == w.data[u := d] && w'.views == w.views[u := NO_VIEW]
  }

  lemma AddedPlaced<U>(w: World<U>, w': World<U>, u: U, d: Player)
    requires Placed(w) && u !in w.data && IsNew(w, d) && d.roomID in w.rooms && Added(w, w', u, d)
    ensures Placed(w')
  {
    forall r, x | r in w'.rooms && x in w'.rooms[r] ensures At(w', x).roomID == r {
      assert x in w.data && At(w, x).roomID == r;
    }
  }

  lemma AddedAgrees<U>(f: Filters, w: World<U>, w': World<U>, u: U, d: Player)
    requires Placed(w) && Agree(f, w) && u !in w.data && IsNew(w, d) && Added(w, w', u, d)
    ensures Agree(f, w')
  {
    forall x | x in w'.data && Present(w', x) ensures ViewOK(f, w', x) {
      assert x in w.data && Present(w, x);
      AuthorizedView(f, w, w', u, x);
    }
  }

  lemma AddedIsRegistered<U>(w: World<U>, w': World<U>, u: U, d: Player)
    requires Structured(w) && Registry(w) && u !in w.data && IsNew(w, d) && Added(w, w', u, d)
    ensures Registry(w')
  {
    forall x | x in w'.data ensures Enrolled(w', x) {
      if x != u {
        assert Enrolled(w, x);
      }
    }
    forall a | a in w'.users ensures AccountOK(w', a) {
      assert AccountOK(w, a);
    }
  }

  lemma AuthorizeServes<U>(f: Filters, w: World<U>, w': World<U>, u: U, d: Player)
    requires ServerOK(f, w) && u !in w.data && IsNew(w, d) && d.roomID in w.rooms && Added(w, w', u, d)
    ensures ServerOK(f, w')
  {
    AddedPlaced(w, w', u, d);
    NewState(f, d);
    OneStateOK(f, w, w', u, d);
    AddedIsRegistered(w, w', u, d);
  }

  lemma AuthorizeShows<U>(f: Filters, w: World<U>, w': World<U>, u: U, d: Player)
    requires Placed(w) && ScreensOK(f, w) && u !in w.data && IsNew(w, d) && Added(w, w', u, d)
    ensures ScreensOK(f, w')
  {
    AddedAgrees(f, w, w', u, d);
  }

  lemma AuthorizeKeeps<U>(f: Filters, w: World<U>, u: U, d: Player)
    requires ServerOK(f, w) && u !in w.data && IsNew(w, d)
    ensures StillOK(f, w, Authorize(w, u, d))
  {
    if d.roomID in w.rooms && d.account !in w.users {
      AuthorizeServes(f, w, Authorize(w, u, d), u, d);
      if ScreensOK(f, w) {
        AuthorizeShows(f, w, Authorize(w, u, d), u, d);
      }
    }
  }

  // ---------- Opening ----------

  /** The initial packets show and hide nobody. */
  lemma InitialView(f: Filters, d: Player, v: View)
    ensures var v' := ApplyAll(v, InitialPackets(f, d));
      v'.room == v.room && v'.players == v.players && v'.stray == v.stray
  {
    var ps := InitialPackets(f, d);
    assert forall p :: p in ps ==> !p.RoomInfoS2C? && !p.ConnectS2C? && !p.DisconnectS2C? && Subject(p).None?;
    SessionPackets(v, ps);
  }

  lemma {:induction false} SessionPackets(v: View, ps: seq<S2C>)
    requires forall p :: p in ps ==> !p.RoomInfoS2C? && !p.ConnectS2C? && !p.DisconnectS2C? && Subject(p).None?
    ensures var v' := ApplyAll(v, ps); v'.room == v.room && v'.players == v.players && v'.stray == v.stray
  {
    if ps != [] {
      assert ps[|ps| - 1] in ps && forall p :: p in ps[..|ps| - 1] ==> p in ps;
      SessionPackets(v, ps[..|ps| - 1]);
    }
  }

  /** u's phase, view and registration changed, but nobody's place. */
  ghost predicate Enlisted<U>(f: Filters, w: World<U>, w': World<U>, u: U) {
    && w'.rooms == w.rooms && w'.counter == w.counter && w'.views.Keys == w.views.Keys
    && w'.data == w.data[u := At(w, u).(phase := Live)] && w'.users == w.users[At(w, u).account := u]
    && ViewOf(w', u).players == ViewOf(w, u).players && ViewOf(w', u).stray == ViewOf(w, u).stray
    && forall x :: x in w.data && x != u ==> ViewOf(w', x) == ViewOf(w, x)
  }

  lemma RegisteredIsEnlisted<U>(f: Filters, w: World<U>, u: U)
    requires Structured(w) && u in w.data
    ensures Enlisted(f, w, Registered(f, w, u), u)
  {
    InitialView(f, At(w, u), ViewOf(w, u));
  }

  lemma PhasePlaced<U>(w: World<U>, w': World<U>)
    requires Placed(w) && SameIdentities(w, w') && w'.rooms == w.rooms && w'.counter == w.counter
    requires w'.views.Keys == w.views.Keys
    requires forall a :: a in w'.users ==> w'.users[a] in w.data
    ensures Placed(w')
  {
    forall r, x | r in w.rooms && x in w.rooms[r] ensures At(w', x).roomID == r {
      assert At(w, x).roomID == r;
    }
  }

  /** Looks and visibility do not depend on phases. */
  lemma PhasePair<U>(f: Filters, w: World<U>, w': World<U>, x: U, v: U)
    requires SameIdentities(w, w') && w'.rooms == w.rooms && x in w.data && v in w.data
    requires LookOf(At(w', v)) == LookOf(At(w, v)) && ViewOf(w', x) == ViewOf(w, x) && PairOK(f, w, x, v)
    ensures PairOK(f, w', x, v)
  {
    SamePlaces(f, w, w', x, v);
  }

  ghost predicate SameLook<U>(w: World<U>, w': World<U>, y: U) { LookOf(At(w', y)) == LookOf(At(w, y)) }

  ghost predicate SameLooks<U>(w: World<U>, w': World<U>) { forall y :: y in w.data ==> SameLook(w, w', y) }

  lemma PhaseSame<U>(w: World<U>, w': World<U>, u: U, phase: Phase, open: bool)
    requires u in w.data && w'.data == w.data[u := At(w, u).(phase := phase, open := open)]
    ensures SameIdentities(w, w') && SameLooks(w, w')
  {
    forall y | y in w.data ensures SameLook(w, w', y) {
    }
  }

  lemma PhaseView<U>(f: Filters, w: World<U>, w': World<U>, x: U)
    requires SameIdentities(w, w') && w'.rooms == w.rooms && x in w.data
    requires SameLooks(w, w')
    requires ViewOf(w', x) == ViewOf(w, x) && ViewOK(f, w, x)
    ensures ViewOK(f, w', x)
  {
    forall v | v in w'.data ensures PairOK(f, w', x, v) {
      assert SameLook(w, w', v);
      PhasePair(f, w, w', x, v);
    }
    StillKnown(w, w', ViewOf(w, x), ViewOf(w', x), At(w, x).cid);
  }

  lemma PhaseAgrees<U>(f: Filters, w: World<U>, w': World<U>, u: U)
    requires SameIdentities(w, w') && w'.rooms == w.rooms && u in w.data && !Present(w, u) && Agree(f, w)
    requires SameLooks(w, w')
    requires forall x :: x in w.data && x != u ==> ViewOf(w', x) == ViewOf(w, x)
    ensures Agree(f, w')
  {
    forall x | x in w'.data && Present(w', x) ensures ViewOK(f, w', x) {
      SamePlaces(f, w, w', x, x);
      PhaseView(f, w, w', x);
    }
  }

  lemma PhaseState(f: Filters, d: Player, phase: Phase, open: bool)
    requires StateOK(f, d)
    ensures StateOK(f, d.(phase := phase, open := open))
  {
  }

  lemma PhaseStates<U>(f: Filters, w: World<U>, w': World<U>, u: U, phase: Phase, open: bool)
    requires StatesOK(f, w) && u in w.data && w'.data == w.data[u := At(w, u).(phase := phase, open := open)]
    ensures StatesOK(f, w')
  {
    PhaseState(f, At(w, u), phase, open);
    OneStateOK(f, w, w', u, At(w, u).(phase := phase, open := open));
  }

  lemma EnlistedShows<U>(f: Filters, w: World<U>, w': World<U>, u: U)
    requires Placed(w) && ScreensOK(f, w) && u in w.data && !Present(w, u) && Enlisted(f, w, w', u)
    ensures ScreensOK(f, w')
  {
    PhaseSame(w, w', u, Live, At(w, u).open);
    PhaseAgrees(f, w, w', u);
    EnlistedNoStrays(f, w, w', u);
  }

  lemma EnlistedNoStrays<U>(f: Filters, w: World<U>, w': World<U>, u: U)
    requires Structured(w) && NoStrays(w) && u in w.data && Enlisted(f, w, w', u)
    ensures NoStrays(w')
  {
    forall x | x in w'.views ensures !w'.views[x].stray {
      assert x in w.data;
    }
  }

  lemma OpenedOther<U>(f: Filters, w: World<U>, w1: World<U>, w2: World<U>, u: U, newID: int32, x: U)
    requires Structured(w) && Registry(w) && u in w.data && At(w, u).account !in w.users
    requires Enlisted(f, w, w1, u) && Placed(w1) && Relocated(w1, w2, u, newID) && x in w.data && x != u
    ensures Enrolled(w2, x)
  {
    assert Enrolled(w, x);
    RelocatedOther(w1, w2, u, newID, x);
  }

  lemma OpenedAccount<U>(f: Filters, w: World<U>, w1: World<U>, w2: World<U>, u: U, newID: int32, a: Uuid)
    requires Structured(w) && Registry(w) && u in w.data && At(w, u).phase == Authorized
    requires Enlisted(f, w, w1, u) && Relocated(w1, w2, u, newID) && a in w2.users
    ensures AccountOK(w2, a)
  {
    if a != At(w, u).account {
      assert AccountOK(w, a);
    }
  }

  /** Entering the room completes the registration. */
  lemma OpenedRegistry<U>(f: Filters, w: World<U>, w1: World<U>, w2: World<U>, u: U, newID: int32)
    requires Structured(w) && Registry(w) && u in w.data && At(w, u).phase == Authorized && At(w, u).account !in w.users
    requires Enlisted(f, w, w1, u) && Placed(w1) && Relocated(w1, w2, u, newID) && Present(w2, u)
    ensures Registry(w2)
  {
    assert Enrolled(w, u);
    forall x | x in w2.data && x != u ensures Enrolled(w2, x) {
      OpenedOther(f, w, w1, w2, u, newID, x);
    }
    assert Enrolled(w2, u);
    forall a | a in w2.users ensures AccountOK(w2, a) {
      OpenedAccount(f, w, w1, w2, u, newID, a);
    }
  }

  lemma RefusedRegistry<U>(w: World<U>, w': World<U>, u: U)
    requires Structured(w) && Registry(w) && u in w.data && At(w, u).phase == Authorized
    requires w'.rooms == w.rooms && w'.users == w.users && w'.data == w.data[u := At(w, u).(phase := Refused)]
    ensures Registry(w')
  {
    assert Enrolled(w, u);
    forall x | x in w'.data ensures Enrolled(w', x) {
      assert Enrolled(w, x);
    }
    forall a | a in w'.users ensures AccountOK(w', a) {
      assert AccountOK(w, a);
    }
  }

  lemma RefusedKeeps<U>(f: Filters, w: World<U>, u: U)
    requires ServerOK(f, w) && u in w.data && At(w, u).phase == Authorized
    ensures StillOK(f, w, Put(w, u, At(w, u).(phase := Refused)))
  {
    var w' := Put(w, u, At(w, u).(phase := Refused));
    assert Enrolled(w, u);
    PhaseStates(f, w, w', u, Refused, At(w, u).open);
    PhaseSame(w, w', u, Refused, At(w, u).open);
    PhasePlaced(w, w');
    RefusedRegistry(w, w', u);
    if ScreensOK(f, w) {
      PhaseAgrees(f, w, w', u);
    }
  }

  lemma EnlistedPlaced<U>(f: Filters, w: World<U>, w1: World<U>, u: U)
    requires Placed(w) && u in w.data && Enlisted(f, w, w1, u)
    ensures Placed(w1)
  {
    PhaseSame(w, w1, u, Live, At(w, u).open);
    PhasePlaced(w, w1);
  }

  lemma EnlistedServes<U>(f: Filters, w: World<U>, w': World<U>, u: U)
    requires ServerOK(f, w) && u in w.data && Enlisted(f, w, w', u)
    ensures Placed(w') && StatesOK(f, w')
  {
    PhaseStates(f, w, w', u, Live, At(w, u).open);
    EnlistedPlaced(f, w, w', u);
  }

  /** A first connection of an account is registered and enters its room. */
  lemma JoinKeeps<U>(f: Filters, w: World<U>, u: U)
    requires ServerOK(f, w) && u in w.data && At(w, u).phase == Authorized && At(w, u).account !in w.users
    ensures StillOK(f, w, ChangeRoom(f, Registered(f, w, u), u, At(w, u).roomID))
  {
    var w1, newID := Registered(f, w, u), At(w, u).roomID;
    assert Enrolled(w, u);
    RegisteredIsEnlisted(f, w, u);
    EnlistedServes(f, w, w1, u);
    if ScreensOK(f, w) {
      EnlistedShows(f, w, w1, u);
    }
    ChangeRoomKeeps(f, w1, u, newID);
    OpenedRegistry(f, w, w1, ChangeRoom(f, w1, u, newID), u, newID);
  }

  /** u is registered and in the game; nobody's data but its phase changed. */
  ghost predicate Opened<U>(w: World<U>, w': World<U>, u: U) {
    && w'.rooms.Keys == w.rooms.Keys && w'.counter == w.counter && w'.users == w.users[At(w, u).account := u]
    && w'.data == w.data[u := At(w, u).(phase := Live)]
  }

  lemma EnlistedAndMoved<U>(f: Filters, w: World<U>, w1: World<U>, w2: World<U>, u: U)
    requires u in w.data && Enlisted(f, w, w1, u) && Relocated(w1, w2, u, At(w, u).roomID)
    ensures Opened(w, w2, u)
  {
    var d := At(w, u).(phase := Live);
    assert At(w1, u) == d && d.(roomID := d.roomID) == d;
  }

  /** Opening the first connection of an account. */
  lemma OpenIs<U>(f: Filters, w: World<U>, u: U)
    requires Placed(w) && u in w.data && At(w, u).account !in w.users
    ensures Opened(w, Open(f, w, u), u)
  {
    var w1, r := Registered(f, w, u), At(w, u).roomID;
    RegisteredIsEnlisted(f, w, u);
    EnlistedPlaced(f, w, w1, u);
    ChangeRoomIs(f, w1, u, r);
    EnlistedAndMoved(f, w, w1, ChangeRoom(f, w1, u, r), u);
  }

  lemma OpenKeeps<U>(f: Filters, w: World<U>, u: U)
    requires ServerOK(f, w) && u in w.data && At(w, u).phase == Authorized
    ensures StillOK(f, w, Open(f, w, u))
  {
    if At(w, u).account in w.users {
      RefusedKeeps(f, w, u);
    } else {
      JoinKeeps(f, w, u);
    }
  }

  /** What a client is sent when it opens: its own data, and each list that is not empty,
      names as kind 0 and prefixes as kind 1; everything once. */
  ghost predicate SentAtFirst(f: Filters, d: Player, sent: seq<S2C>) {
    && sent != [] && sent[0] == SyncPlayerDataS2C(d.cid, d.guardKey, d.account, d.rank, d.loggedIn, d.badge)
    && (forall i, j :: 0 <= i < j < |sent| ==> sent[i] != sent[j])
    && (forall p :: p in sent[1..] <==> IsAssetList(f, p))
  }

  ghost predicate IsAssetList(f: Filters, p: S2C) {
    || (p.PictureSyncListS2C? && p.list != [] && p.kind == 0 && p.list == f.pictureNames)
    || (p.PictureSyncListS2C? && p.list != [] && p.kind == 1 && p.list == f.picturePrefixes)
    || (p.BattleAnimSyncListS2C? && p.ids != [] && p.ids == f.battleAnimIDs)
  }

  /** The lists that are not empty. */
  function AssetLists(f: Filters): seq<S2C> {
    (if |f.pictureNames| != 0 then [PictureSyncListS2C(0, f.pictureNames)] else [])
    + (if |f.picturePrefixes| != 0 then [PictureSyncListS2C(1, f.picturePrefixes)] else [])
    + (if |f.battleAnimIDs| != 0 then [BattleAnimSyncListS2C(f.battleAnimIDs)] else [])
  }

  lemma AssetListsAre(f: Filters, p: S2C)
    ensures p in AssetLists(f) <==> IsAssetList(f, p)
  {
  }

  lemma AssetListsDiffer(f: Filters, i: nat, j: nat)
    requires i < j < |AssetLists(f)|
    ensures AssetLists(f)[i] != AssetLists(f)[j]
  {
  }

  lemma InitialIs(f: Filters, d: Player)
    ensures SentAtFirst(f, d, InitialPackets(f, d))
  {
    var sent, lists := InitialPackets(f, d), AssetLists(f);
    assert sent == [sent[0]] + lists && sent[1..] == lists;
    forall p ensures p in lists <==> IsAssetList(f, p) {
      AssetListsAre(f, p);
    }
    forall i, j | 0 <= i < j < |sent| ensures sent[i] != sent[j] {
      if i > 0 {
        AssetListsDiffer(f, i - 1, j - 1);
      } else {
        assert IsAssetList(f, lists[j - 1]);
      }
    }
  }

  lemma {:induction false} EffectsAdd(v: View, ps: seq<S2C>)
    requires forall p :: p in ps ==> IsEffect(p)
    ensures ApplyAll(v, ps).effects == v.effects + ps
  {
    if ps != [] {
      var front, last := ps[..|ps| - 1], ps[|ps| - 1];
      assert last in ps && forall p :: p in front ==> p in ps;
      EffectsAdd(v, front);
      assert v.effects + front + [last] == v.effects + ps;
    }
  }

  /** Introductions add no effects as long as nobody flashes. */
  lemma {:induction false} MeetQuietly<U>(v: View, us: Player, members: seq<U>, w: World<U>)
    requires forall m :: m in members ==> At(w, m).flash.None?
    ensures Meet(v, us, members, w).effects == v.effects
  {
    if members != [] {
      var front, last := members[..|members| - 1], members[|members| - 1];
      assert last in members && forall m :: m in front ==> m in members;
      MeetQuietly(v, us, front, w);
    }
  }

  ghost predicate NobodyFlashes<U>(w: World<U>) { forall x :: x in w.data ==> w.data[x].flash.None? }

  lemma ArrivedQuietly<U>(w: World<U>, u: U, newID: int32)
    requires NobodyFlashes(w)
    ensures NobodyFlashes(Arrived(w, u, newID))
    ensures ViewOf(Arrived(w, u, newID), u).effects == ViewOf(w, u).effects
  {
  }

  lemma MetRoomQuietly<U>(f: Filters, w: World<U>, u: U)
    requires NobodyFlashes(w)
    ensures ViewOf(MetRoom(f, w, u), u).effects == ViewOf(w, u).effects
  {
    MeetQuietly(ViewOf(w, u), At(w, u), Members(w, At(w, u).roomID), w);
  }

  lemma AnnouncedQuietly<U>(f: Filters, w: World<U>, u: U)
    ensures ViewOf(Announced(f, w, u), u) == ViewOf(w, u)
  {
    NotInOwnAudience(f, w, u);
  }

  lemma StaysQuietly<U>(f: Filters, w: World<U>, u: U, newID: int32)
    requires NobodyFlashes(w) && newID == At(w, u).roomID
    ensures ViewOf(ChangeRoom(f, w, u, newID), u).effects == ViewOf(w, u).effects
  {
    var w2 := Arrived(w, u, newID);
    ArrivedQuietly(w, u, newID);
    MetRoomQuietly(f, w2, u);
    AnnouncedQuietly(f, MetRoom(f, w2, u), u);
  }

  lemma RegisteredSends<U>(f: Filters, w: World<U>, u: U)
    requires StatesOK(f, w) && u in w.data
    ensures var w1 := Registered(f, w, u);
      && NobodyFlashes(w1) && At(w1, u).roomID == At(w, u).roomID
      && ViewOf(w1, u).effects == ViewOf(w, u).effects + InitialPackets(f, At(w, u))
  {
    EffectsAdd(ViewOf(w, u), InitialPackets(f, At(w, u)));
    forall x | x in w.data ensures w.data[x].flash.None? {
      assert StateOK(f, w.data[x]);
    }
  }

  /** Opening the first connection of an account sends its client what it needs at first. */
  lemma OpenSends<U>(f: Filters, w: World<U>, u: U) returns (sent: seq<S2C>)
    requires StatesOK(f, w) && u in w.data && At(w, u).account !in w.users
    ensures SentAtFirst(f, At(w, u), sent)
    ensures ViewOf(Open(f, w, u), u).effects == ViewOf(w, u).effects + sent
  {
    sent := InitialPackets(f, At(w, u));
    InitialIs(f, At(w, u));
    RegisteredSends(f, w, u);
    StaysQuietly(f, Registered(f, w, u), u, At(w, u).roomID);
  }

  /** The second connection of an account is refused; the first is registered and sent what
      it needs. */
  ghost predicate OpenedAs<U>(f: Filters, w: World<U>, w': World<U>, u: U) {
    var d := At(w, u);
    if d.account in w.users then w' == Put(w, u, d.(phase := Refused))
    else
      && w'.users == w.users[d.account := u] && At(w', u) == d.(phase := Live)
      && exists sent :: SentAtFirst(f, d, sent) && ViewOf(w', u).effects == ViewOf(w, u).effects + sent
  }

  lemma OpensAs<U>(f: Filters, w: World<U>, u: U)
    requires ServerOK(f, w) && u in w.data
    ensures OpenedAs(f, w, Open(f, w, u), u)
  {
    if At(w, u).account !in w.users {
      OpenIs(f, w, u);
      var sent := OpenSends(f, w, u);
    }
  }

  // ---------- Closing ----------

  /** u is in no list and no registry any more, and its outbox is closed. */
  ghost predicate Departed<U>(w: World<U>, w': World<U>, u: U) {
    && w'.rooms.Keys == w.rooms.Keys && w'.counter == w.counter && w'.views == w.views
    && w'.data == w.data[u := At(w, u).(phase := Gone, open := false)]
    && w'.users ==
       (if At(w, u).account in w.users && w.users[At(w, u).account] == u then w.users - {At(w, u).account} else w.users)
    && forall r :: r in w.rooms ==> RoomWithout(w, w', u, r)
  }

  ghost predicate RoomWithout<U>(w: World<U>, w': World<U>, u: U, r: int32) {
    && NoDuplicates(Members(w', r))
    && (forall v :: v in Members(w', r) ==> v in Members(w, r) && v != u)
    && (forall v :: v in Members(w, r) && v != u ==> v in Members(w', r))
  }

  lemma DeregisteredRoom<U>(w: World<U>, u: U, r: int32)
    requires Placed(w) && u in w.data && r in w.rooms
    ensures RoomWithout(w, Deregistered(w, u), u, r)
  {
    UnsetMember(w, u, r, u);
    forall v | v in Members(Deregistered(w, u), r) ensures v in Members(w, r) && v != u {
      UnsetMember(w, u, r, v);
    }
    forall v | v in Members(w, r) && v != u ensures v in Members(Deregistered(w, u), r) {
      UnsetMember(w, u, r, v);
    }
  }

  lemma DeregisteredIsDeparted<U>(w: World<U>, u: U)
    requires Placed(w) && u in w.data
    ensures Departed(w, Deregistered(w, u), u)
  {
    UnsetMember(w, u, At(w, u).roomID, u);
    forall r | r in w.rooms ensures RoomWithout(w, Deregistered(w, u), u, r) {
      DeregisteredRoom(w, u, r);
    }
  }

  lemma DepartedMember<U>(w: World<U>, w': World<U>, u: U, r: int32, v: U)
    requires Placed(w) && u in w.data && Departed(w, w', u) && r in w.rooms
    ensures v in Members(w', r) ==> v in w'.data && At(w', v).roomID == r
  {
    assert RoomWithout(w, w', u, r);
    assert v in Members(w, r) ==> v in w.data && At(w, v).roomID == r;
  }

  lemma DepartedPartition<U>(w: World<U>, w': World<U>, u: U)
    requires Placed(w) && u in w.data && Departed(w, w', u)
    ensures Partitioned(w') && forall r, v :: r in w'.rooms && v in w'.rooms[r] ==> v in w'.data
  {
    forall r, v | r in w'.rooms && v in w'.rooms[r] ensures v in w'.data && At(w', v).roomID == r {
      DepartedMember(w, w', u, r, v);
    }
    forall r | r in w'.rooms ensures NoDuplicates(w'.rooms[r]) {
      assert RoomWithout(w, w', u, r);
    }
  }

  lemma DepartedIsPlaced<U>(w: World<U>, w': World<U>, u: U)
    requires Placed(w) && u in w.data && Departed(w, w', u)
    ensures Placed(w') && !Present(w', u)
  {
    assert RoomWithout(w, w', u, At(w, u).roomID);
    DepartedPartition(w, w', u);
    SameIDs(w, w', u, At(w, u).(phase := Gone, open := false));
    StillStructured(w, w', u, At(w, u).(phase := Gone, open := false));
  }

  lemma DepartedOther<U>(w: World<U>, w': World<U>, u: U, x: U)
    requires Structured(w) && u in w.data && Departed(w, w', u) && x != u
    ensures Present(w', x) <==> Present(w, x)
  {
    if x in w.data {
      assert RoomWithout(w, w', u, At(w, x).roomID);
    }
  }

  /** The audience of the farewell is everybody who can still see u. */
  lemma FarewellReaches<U>(f: Filters, w: World<U>, w': World<U>, u: U, x: U)
    requires Placed(w) && u in w.data && Departed(w, w', u) && x in w.data && x != u
    ensures Visible(f, w, x, u) ==> x in Audience(f, w', u)
  {
    if Visible(f, w, x, u) {
      assert RoomWithout(w, w', u, At(w, u).roomID);
    }
  }

  ghost predicate FarewellView<U>(w: World<U>, w': World<U>, u: U, to: set<U>, x: U) {
    var v, v' := ViewOf(w, x), ViewOf(w', x);
    && v'.room == v.room && v'.stray == v.stray
    && v'.players == if x in to then v.players - {At(w, u).cid} else v.players
  }

  lemma DisconnectView<U>(w: World<U>, to: set<U>, id: int32, x: U)
    requires x in w.views
    ensures var v, v' := ViewOf(w, x), ViewOf(Tell(w, to, DisconnectS2C(id)), x);
      && v'.room == v.room && v'.stray == v.stray && v'.players == if x in to then v.players - {id} else v.players
  {
  }

  lemma ClosedPair<U>(f: Filters, w: World<U>, w1: World<U>, w': World<U>, u: U, x: U, v: U)
    requires Placed(w) && u in w.data && Departed(w, w1, u) && x in w.data && v in w.data && x != u
    requires w'.rooms == w1.rooms && w'.data == w1.data && PairOK(f, w, x, v) && !Present(w1, u)
    requires FarewellView(w, w', u, Audience(f, w1, u), x)
    ensures PairOK(f, w', x, v)
  {
    if v == u {
      FarewellReaches(f, w, w1, u, x);
    } else {
      DepartedOther(w, w1, u, x);
      DepartedOther(w, w1, u, v);
      assert At(w, v).cid != At(w, u).cid;
    }
  }

  lemma ClosedView<U>(f: Filters, w: World<U>, w1: World<U>, w': World<U>, u: U, x: U)
    requires Placed(w) && u in w.data && Departed(w, w1, u) && x in w.data && x != u
    requires w'.rooms == w1.rooms && w'.data == w1.data && ViewOK(f, w, x) && !Present(w1, u)
    requires FarewellView(w, w', u, Audience(f, w1, u), x)
    ensures ViewOK(f, w', x)
  {
    forall v | v in w'.data ensures PairOK(f, w', x, v) {
      ClosedPair(f, w, w1, w', u, x, v);
    }
    assert w.data[u].cid == At(w, u).cid;
    StillKnown(w, w', ViewOf(w, x), ViewOf(w', x), At(w, u).cid);
  }

  lemma ClosedAgrees<U>(f: Filters, w: World<U>, w1: World<U>, u: U)
    requires Placed(w) && Agree(f, w) && u in w.data && Departed(w, w1, u) && !Present(w1, u)
    ensures Agree(f, Tell(w1, Audience(f, w1, u), DisconnectS2C(At(w, u).cid)))
  {
    var to := Audience(f, w1, u);
    var w' := Tell(w1, to, DisconnectS2C(At(w, u).cid));
    forall x | x in w'.data && Present(w', x) ensures ViewOK(f, w', x) {
      assert x != u;
      DepartedOther(w, w1, u, x);
      DisconnectView(w1, to, At(w, u).cid, x);
      ClosedView(f, w, w1, w', u, x);
    }
  }

  lemma DepartedEnrolled<U>(f: Filters, w: World<U>, w1: World<U>, w': World<U>, u: U, x: U)
    requires Placed(w) && Registry(w) && u in w.data && Departed(w, w1, u) && !Present(w1, u) && x in w.data
    requires w'.rooms == w1.rooms && w'.data == w1.data && w'.users == w1.users
    ensures Enrolled(w', x)
  {
    assert Enrolled(w, x) && Enrolled(w, u);
    if x != u {
      DepartedOther(w, w1, u, x);
    }
  }

  lemma DepartedAccount<U>(w: World<U>, w': World<U>, u: U, a: Uuid)
    requires Structured(w) && Registry(w) && u in w.data && a in w'.users
    requires w'.data == w.data[u := At(w, u).(phase := Gone, open := false)]
    requires w'.users ==
      if At(w, u).account in w.users && w.users[At(w, u).account] == u then w.users - {At(w, u).account} else w.users
    ensures AccountOK(w', a)
  {
    assert AccountOK(w, a) && Enrolled(w, u);
  }

  lemma DepartedRegistry<U>(f: Filters, w: World<U>, w1: World<U>, w': World<U>, u: U)
    requires Placed(w) && Registry(w) && u in w.data && Departed(w, w1, u) && !Present(w1, u)
    requires w'.rooms == w1.rooms && w'.data == w1.data && w'.users == w1.users
    ensures Registry(w')
  {
    forall x | x in w'.data ensures Enrolled(w', x) {
      DepartedEnrolled(f, w, w1, w', u, x);
    }
    forall a | a in w'.users ensures AccountOK(w', a) {
      DepartedAccount(w, w', u, a);
    }
  }

  lemma ToldNoStrays<U>(w: World<U>, to: set<U>, id: int32)
    requires NoStrays(w)
    ensures NoStrays(Tell(w, to, DisconnectS2C(id)))
  {
  }

  lemma CloseServes<U>(f: Filters, w: World<U>, w1: World<U>, w': World<U>, u: U)
    requires ServerOK(f, w) && u in w.data && Departed(w, w1, u) && SamePlacesAndKeys(w1, w')
    ensures ServerOK(f, w')
  {
    DepartedIsPlaced(w, w1, u);
    DepartedRegistry(f, w, w1, w', u);
    SamePlacesPlaced(w1, w');
    PhaseStates(f, w, w', u, Gone, false);
  }

  lemma CloseShows<U>(f: Filters, w: World<U>, w1: World<U>, u: U)
    requires Placed(w) && ScreensOK(f, w) && u in w.data && Departed(w, w1, u)
    ensures ScreensOK(f, Tell(w1, Audience(f, w1, u), DisconnectS2C(At(w, u).cid)))
  {
    DepartedIsPlaced(w, w1, u);
    ClosedAgrees(f, w, w1, u);
    ToldNoStrays(w1, Audience(f, w1, u), At(w, u).cid);
  }

  /** Closing keeps everything, also for a connection that was refused as a
      duplicate and never was in a room or in the registry. */
  lemma CloseKeeps<U>(f: Filters, w: World<U>, u: U)
    requires ServerOK(f, w) && u in w.data
    ensures StillOK(f, w, Close(f, w, u))
  {
    var w1 := Deregistered(w, u);
    DeregisteredIsDeparted(w, u);
    CloseServes(f, w, w1, Close(f, w, u), u);
    if ScreensOK(f, w) {
      CloseShows(f, w, w1, u);
    }
  }

  /** Afterwards it is in no list, registered only if another connection of its account is,
      and cannot be sent to. */
  ghost predicate ClosedAs<U>(w: World<U>, w': World<U>, u: U) {
    var a := At(w, u).account;
    && At(w', u) == At(w, u).(phase := Gone, open := false)
    && w'.users == (if a in w.users && w.users[a] == u then w.users - {a} else w.users)
    && forall r :: r in w'.rooms ==> u !in w'.rooms[r]
  }

  lemma CloseIs<U>(f: Filters, w: World<U>, u: U)
    requires Placed(w) && u in w.data
    ensures ClosedAs(w, Close(f, w, u), u)
  {
    var w1 := Deregistered(w, u);
    DeregisteredIsDeparted(w, u);
    forall r | r in w.rooms ensures u !in Members(w1, r) {
      assert RoomWithout(w, w1, u, r);
    }
  }
}
