/** Changing rooms keeps the partition and moves exactly the changing player in and
    out of the other clients' views. */
module RoomChange {
  import opened Basics
  import opened Packets
  import opened Validate
  import opened Views
  import opened World
  import opened Agreement

  // ---------- Member lists ----------

  lemma {:induction false} WithoutMembers<U>(members: seq<U>, data: map<U, Player>, cid: int32, v: U)
    ensures v in Without(members, data, cid) <==> v in members && !(v in data && data[v].cid == cid)
  {
    if members != [] {
      WithoutMembers(members[1..], data, cid, v);
      assert v in members <==> v == members[0] || v in members[1..];
    }
  }

  lemma {:induction false} WithoutNoDuplicates<U>(members: seq<U>, data: map<U, Player>, cid: int32)
    requires NoDuplicates(members)
    ensures NoDuplicates(Without(members, data, cid))
  {
    if members != [] {
      WithoutNoDuplicates(members[1..], data, cid);
      WithoutMembers(members[1..], data, cid, members[0]);
    }
  }

  /** Leaving removes u from the one list it can be in. */
  lemma UnsetMember<U>(w: World<U>, u: U, r: int32, v: U)
    requires Placed(w) && u in w.data && r in w.rooms
    ensures Unset(w, u).rooms.Keys == w.rooms.Keys
    ensures v in Members(Unset(w, u), r) <==> v in w.rooms[r] && v != u
    ensures NoDuplicates(Members(Unset(w, u), r))
  {
    var d := At(w, u);
    WithoutMembers(w.rooms[d.roomID], w.data, d.cid, v);
    WithoutNoDuplicates(w.rooms[d.roomID], w.data, d.cid);
    assert v in w.rooms[r] ==> v in w.data && At(w, v).roomID == r;
  }

  lemma EnterMember<U>(w: World<U>, u: U, newID: int32, r: int32, v: U)
    requires Placed(w) && u in w.data && r in w.rooms && newID in w.rooms
    ensures Enter(w, u, newID).rooms.Keys == w.rooms.Keys
    ensures v in Members(Enter(w, u, newID), r) <==> (v in w.rooms[r] && v != u) || (v == u && r == newID)
    ensures NoDuplicates(Members(Enter(w, u, newID), r))
  {
    UnsetMember(w, u, r, v);
    UnsetMember(w, u, r, u);
    UnsetMember(w, u, newID, u);
  }

  /** u is now listed once, in room newID; nobody else moved. */
  ghost predicate Relocated<U>(w: World<U>, w': World<U>, u: U, newID: int32) {
    && w'.rooms.Keys == w.rooms.Keys && w'.users == w.users && w'.counter == w.counter && w'.views.Keys == w.views.Keys
    && w'.data == w.data[u := At(w, u).(roomID := newID)]
    && forall r :: r in w.rooms ==> RoomAfter(w, w', u, newID, r)
  }

  ghost predicate RoomAfter<U>(w: World<U>, w': World<U>, u: U, newID: int32, r: int32) {
    && NoDuplicates(Members(w', r))
    && (forall v :: v in Members(w', r) ==> (v in Members(w, r) && v != u) || (v == u && r == newID))
    && (forall v :: v in Members(w, r) && v != u ==> v in Members(w', r))
    && (r == newID ==> u in Members(w', r))
  }

  lemma EnterRoomAfter<U>(w: World<U>, u: U, newID: int32, r: int32)
    requires Placed(w) && u in w.data && newID in w.rooms && r in w.rooms
    ensures RoomAfter(w, Enter(w, u, newID), u, newID, r)
  {
    var w' := Enter(w, u, newID);
    EnterMember(w, u, newID, r, u);
    forall v | v in Members(w', r) ensures (v in Members(w, r) && v != u) || (v == u && r == newID) {
      EnterMember(w, u, newID, r, v);
    }
    forall v | v in Members(w, r) && v != u ensures v in Members(w', r) {
      EnterMember(w, u, newID, r, v);
    }
  }

  lemma EnterRelocates<U>(w: World<U>, u: U, newID: int32)
    requires Placed(w) && u in w.data && newID in w.rooms
    ensures Relocated(w, Enter(w, u, newID), u, newID)
  {
    EnterMember(w, u, newID, newID, u);
    forall r | r in w.rooms ensures RoomAfter(w, Enter(w, u, newID), u, newID, r) {
      EnterRoomAfter(w, u, newID, r);
    }
  }

  lemma RelocatedMember<U>(w: World<U>, w': World<U>, u: U, newID: int32, r: int32, v: U)
    requires Placed(w) && u in w.data && Relocated(w, w', u, newID) && r in w.rooms
    ensures v in Members(w', r) ==> v in w'.data && At(w', v).roomID == r
  {
    assert RoomAfter(w, w', u, newID, r);
    if v in Members(w, r) {
      assert v in w.data && At(w, v).roomID == r;
    }
  }

  lemma RelocatedIsPartitioned<U>(w: World<U>, w': World<U>, u: U, newID: int32)
    requires Placed(w) && u in w.data && Relocated(w, w', u, newID)
    ensures Partitioned(w') && forall r, v :: r in w'.rooms && v in w'.rooms[r] ==> v in w'.data
  {
    forall r, v | r in w'.rooms && v in w'.rooms[r] ensures v in w'.data && At(w', v).roomID == r {
      RelocatedMember(w, w', u, newID, r, v);
    }
    forall r | r in w'.rooms ensures NoDuplicates(w'.rooms[r]) {
      assert RoomAfter(w, w', u, newID, r);
    }
  }

  lemma SameIDs<U>(w: World<U>, w': World<U>, u: U, d: Player)
    requires DistinctIDs(w) && u in w.data && d.cid == w.data[u].cid
    requires w'.counter == w.counter && w'.data == w.data[u := d]
    ensures DistinctIDs(w')
  {
  }

  lemma StillStructured<U>(w: World<U>, w': World<U>, u: U, d: Player)
    requires Structured(w) && u in w.data && d.roomID in w.rooms && w'.data == w.data[u := d]
    requires w'.rooms.Keys == w.rooms.Keys && w'.views.Keys == w.views.Keys
    requires forall a :: a in w'.users ==> w'.users[a] in w.data
    requires forall r, v :: r in w'.rooms && v in w'.rooms[r] ==> v in w'.data
    ensures Structured(w')
  {
  }

  lemma RelocatedIsPlaced<U>(w: World<U>, w': World<U>, u: U, newID: int32)
    requires Placed(w) && u in w.data && Relocated(w, w', u, newID) && newID in w.rooms
    ensures Placed(w') && Present(w', u)
  {
    RelocatedIsPartitioned(w, w', u, newID);
    SameIDs(w, w', u, At(w, u).(roomID := newID));
    StillStructured(w, w', u, At(w, u).(roomID := newID));
    assert RoomAfter(w, w', u, newID, newID);
  }

  lemma RelocatedOther<U>(w: World<U>, w': World<U>, u: U, newID: int32, x: U)
    requires Placed(w) && u in w.data && Relocated(w, w', u, newID) && x != u
    ensures Present(w', x) <==> Present(w, x)
  {
    if x in w.data {
      assert RoomAfter(w, w', u, newID, At(w, x).roomID);
    }
  }

  /** Everybody else sees each other as before. */
  lemma RelocatedVisible<U>(f: Filters, w: World<U>, w': World<U>, u: U, newID: int32, x: U, v: U)
    requires Placed(w) && u in w.data && Relocated(w, w', u, newID) && x != u && v != u
    ensures Visible(f, w', x, v) <==> Visible(f, w, x, v)
  {
    RelocatedOther(w, w', u, newID, x);
    RelocatedOther(w, w', u, newID, v);
  }

  // ---------- Introductions to the newcomer ----------

  ghost predicate Met<U>(w: World<U>, us: Player, members: seq<U>, players: map<int32, Look>, v: U) {
    var id := At(w, v).cid;
    && (id in players <==> v in members && !Skipped(us, At(w, v)))
    && (id in players ==> players[id] == IntroLook(At(w, v)))
  }

  lemma {:induction false} MeetResult<U>(v: View, us: Player, members: seq<U>, w: World<U>)
    requires v.players == map[] && DistinctIDs(w) && forall m :: m in members ==> m in w.data
    ensures var v' := Meet(v, us, members, w);
      && v'.room == v.room && v'.stray == v.stray && OnlyKnown(w, v')
      && forall x :: x in w.data ==> Met(w, us, members, v'.players, x)
  {
    if members != [] {
      var front, last := members[..|members| - 1], members[|members| - 1];
      assert members == front + [last];
      MeetResult(v, us, front, w);
      var before := Meet(v, us, front, w);
      forall x | x in w.data ensures Met(w, us, members, Meet(v, us, members, w).players, x) {
        assert Met(w, us, front, before.players, x);
        assert w.data[x].cid == w.data[last].cid ==> x == last;
      }
      forall id | id in Meet(v, us, members, w).players ensures KnownID(w, id) {
        assert id in before.players || id == w.data[last].cid;
      }
    }
  }

  // ---------- The whole room change ----------

  /** What a room change does to the view of another client: u goes from the old room
      and comes, as it is, to those who can see it in the new one. */
  ghost predicate OtherView<U>(f: Filters, w: World<U>, w': World<U>, u: U, newID: int32, x: U) {
    var d, v, v' := At(w, u), ViewOf(w, x), ViewOf(w', x);
    var stays := if newID != d.roomID && x in Audience(f, w, u) then v.players - {d.cid} else v.players;
    && v'.room == v.room && v'.stray == v.stray
    && v'.players == if x in Audience(f, w', u) then stays[d.cid := IntroLook(d)] else stays
  }

  /** The view of the newcomer holds the introductions of the members it may see. */
  ghost predicate OwnView<U>(f: Filters, w: World<U>, w': World<U>, u: U, newID: int32) {
    var d, v, v' := At(w', u), ViewOf(w, u), ViewOf(w', u);
    && v'.room == newID && v'.stray == v.stray && OnlyKnown(w', v')
    && if newID in f.singleplayer then v'.players == map[]
       else forall x :: x in w'.data ==> Met(w', d, Members(w', newID), v'.players, x)
  }

  ghost predicate RoomChanged<U>(f: Filters, w: World<U>, w': World<U>, u: U, newID: int32) {
    && Relocated(w, w', u, newID) && OwnView(f, w, w', u, newID)
    && forall x :: x in w.data && x != u ==> OtherView(f, w, w', u, newID, x)
  }

  // The four stages, each as a relation between the worlds around it

  ghost predicate SamePlacesAndKeys<U>(w: World<U>, w': World<U>) {
    w'.rooms == w.rooms && w'.data == w.data && w'.users == w.users
      && w'.counter == w.counter && w'.views.Keys == w.views.Keys
  }

  ghost predicate Hidden<U>(f: Filters, w: World<U>, w': World<U>, u: U, newID: int32, x: U) {
    var v, v' := ViewOf(w, x), ViewOf(w', x);
    && v'.room == v.room && v'.stray == v.stray
    && v'.players ==
       if newID != At(w, u).roomID && x in Audience(f, w, u) then v.players - {At(w, u).cid} else v.players
  }

  ghost predicate AfterLeft<U>(f: Filters, w: World<U>, w': World<U>, u: U, newID: int32) {
    SamePlacesAndKeys(w, w') && forall x :: x in w.data ==> Hidden(f, w, w', u, newID, x)
  }

  ghost predicate AfterArrival<U>(w: World<U>, w': World<U>, u: U, newID: int32) {
    && Relocated(w, w', u, newID)
    && ViewOf(w', u).room == newID && ViewOf(w', u).players == map[] && ViewOf(w', u).stray == ViewOf(w, u).stray
    && forall x :: x in w.data && x != u ==> ViewOf(w', x) == ViewOf(w, x)
  }

  ghost predicate AfterMeeting<U>(f: Filters, w: World<U>, w': World<U>, u: U) {
    var d := At(w, u);
    var v, v' := ViewOf(w, u), ViewOf(w', u);
    && SamePlacesAndKeys(w, w')
    && (forall x :: x in w.data && x != u ==> ViewOf(w', x) == ViewOf(w, x))
    && v'.room == v.room && v'.stray == v.stray && OnlyKnown(w, v')
    && if d.roomID in f.singleplayer then v'.players == map[]
       else forall x :: x in w.data ==> Met(w, d, Members(w, d.roomID), v'.players, x)
  }

  ghost predicate Introduced<U>(f: Filters, w: World<U>, w': World<U>, u: U, x: U) {
    var d, v, v' := At(w, u), ViewOf(w, x), ViewOf(w', x);
    && v'.room == v.room && v'.stray == v.stray
    && v'.players == if x in Audience(f, w, u) then v.players[d.cid := IntroLook(d)] else v.players
  }

  ghost predicate AfterAnnouncement<U>(f: Filters, w: World<U>, w': World<U>, u: U) {
    SamePlacesAndKeys(w, w') && forall x :: x in w.data ==> Introduced(f, w, w', u, x)
  }

  lemma LeftIs<U>(f: Filters, w: World<U>, u: U, newID: int32)
    requires Structured(w)
    ensures AfterLeft(f, w, Left(f, w, u, newID), u, newID)
  {
  }

  lemma AnnouncedIs<U>(f: Filters, w: World<U>, u: U)
    requires Structured(w)
    ensures AfterAnnouncement(f, w, Announced(f, w, u), u)
  {
  }

  lemma SamePlacesPlaced<U>(w: World<U>, w': World<U>)
    requires Placed(w) && SamePlacesAndKeys(w, w')
    ensures Placed(w')
  {
    SameIdentitiesPlaced(w, w');
  }

  lemma AudienceDependsOnPlaces<U>(f: Filters, a: World<U>, b: World<U>, u: U)
    requires a.rooms == b.rooms && a.data == b.data
    ensures Audience(f, a, u) == Audience(f, b, u)
  {
    assert forall x :: Hears(f, a, u, x) <==> Hears(f, b, u, x);
  }

  lemma RelocatedFromSame<U>(w: World<U>, w1: World<U>, w2: World<U>, u: U, newID: int32)
    requires SamePlacesAndKeys(w, w1) && Relocated(w1, w2, u, newID)
    ensures Relocated(w, w2, u, newID)
  {
    forall r | r in w.rooms ensures RoomAfter(w, w2, u, newID, r) {
      assert RoomAfter(w1, w2, u, newID, r);
    }
  }

  lemma ArrivedIs<U>(w: World<U>, u: U, newID: int32)
    requires Placed(w) && u in w.data && newID in w.rooms
    ensures AfterArrival(w, Arrived(w, u, newID), u, newID)
  {
    var greeted := Show(w, u, Apply(ViewOf(w, u), RoomInfoS2C(newID)));
    SamePlacesPlaced(w, greeted);
    EnterRelocates(greeted, u, newID);
    RelocatedFromSame(w, greeted, Arrived(w, u, newID), u, newID);
  }

  lemma MetRoomIs<U>(f: Filters, w: World<U>, u: U)
    requires Placed(w) && u in w.data && ViewOf(w, u).players == map[]
    ensures AfterMeeting(f, w, MetRoom(f, w, u), u)
  {
    var d := At(w, u);
    if d.roomID !in f.singleplayer {
      MeetResult(ViewOf(w, u), d, Members(w, d.roomID), w);
    }
  }

  /** u itself gets no packet about itself. */
  lemma NotInOwnAudience<U>(f: Filters, w: World<U>, u: U)
    ensures u !in Audience(f, w, u)
  {
  }

  lemma StagesRelocate<U>(f: Filters, w: World<U>, w1: World<U>, w2: World<U>, w3: World<U>, w4: World<U>, u: U,
      newID: int32)
    requires AfterLeft(f, w, w1, u, newID) && AfterArrival(w1, w2, u, newID) && AfterMeeting(f, w2, w3, u)
    requires AfterAnnouncement(f, w3, w4, u)
    ensures Relocated(w, w4, u, newID)
  {
    RelocatedFromSame(w, w1, w2, u, newID);
    forall r | r in w.rooms ensures RoomAfter(w, w4, u, newID, r) {
      assert RoomAfter(w, w2, u, newID, r);
    }
  }

  lemma StagesOther<U>(f: Filters, w: World<U>, w1: World<U>, w2: World<U>, w3: World<U>, w4: World<U>, u: U,
      newID: int32, x: U)
    requires AfterLeft(f, w, w1, u, newID) && AfterArrival(w1, w2, u, newID) && AfterMeeting(f, w2, w3, u)
    requires AfterAnnouncement(f, w3, w4, u)
    requires u in w.data && x in w.data && x != u
    ensures OtherView(f, w, w4, u, newID, x)
  {
    assert Hidden(f, w, w1, u, newID, x) && Introduced(f, w3, w4, u, x);
    AudienceDependsOnPlaces(f, w3, w4, u);
  }

  lemma StagesOwn<U>(f: Filters, w: World<U>, w1: World<U>, w2: World<U>, w3: World<U>, w4: World<U>, u: U,
      newID: int32)
    requires AfterLeft(f, w, w1, u, newID) && AfterArrival(w1, w2, u, newID) && AfterMeeting(f, w2, w3, u)
    requires AfterAnnouncement(f, w3, w4, u)
    requires u in w.data
    ensures OwnView(f, w, w4, u, newID)
  {
    assert Hidden(f, w, w1, u, newID, u) && Introduced(f, w3, w4, u, u);
    NotInOwnAudience(f, w3, u);
    forall id | id in ViewOf(w4, u).players ensures KnownID(w4, id) {
      assert KnownID(w2, id);
    }
    if newID !in f.singleplayer {
      forall x | x in w4.data ensures Met(w4, At(w4, u), Members(w4, newID), ViewOf(w4, u).players, x) {
        assert Met(w2, At(w2, u), Members(w2, newID), ViewOf(w3, u).players, x);
      }
    }
  }

  lemma ChangeRoomStages<U>(f: Filters, w: World<U>, u: U, newID: int32) returns (w1: World<U>, w2: World<U>,
      w3: World<U>)
    requires Placed(w) && u in w.data && newID in w.rooms
    ensures AfterLeft(f, w, w1, u, newID) && AfterArrival(w1, w2, u, newID) && AfterMeeting(f, w2, w3, u)
    ensures AfterAnnouncement(f, w3, ChangeRoom(f, w, u, newID), u)
  {
    w1 := Left(f, w, u, newID);
    LeftIs(f, w, u, newID);
    SamePlacesPlaced(w, w1);
    w2 := Arrived(w1, u, newID);
    ArrivedIs(w1, u, newID);
    RelocatedIsPlaced(w1, w2, u, newID);
    w3 := MetRoom(f, w2, u);
    MetRoomIs(f, w2, u);
    SamePlacesPlaced(w2, w3);
    AnnouncedIs(f, w3, u);
  }

  /** The room change in terms of what every client ends up with. */
  lemma ChangeRoomIs<U>(f: Filters, w: World<U>, u: U, newID: int32)
    requires Placed(w) && u in w.data && newID in w.rooms
    ensures RoomChanged(f, w, ChangeRoom(f, w, u, newID), u, newID)
  {
    var w1, w2, w3 := ChangeRoomStages(f, w, u, newID);
    var w4 := ChangeRoom(f, w, u, newID);
    StagesRelocate(f, w, w1, w2, w3, w4, u, newID);
    StagesOwn(f, w, w1, w2, w3, w4, u, newID);
    forall x | x in w.data && x != u ensures OtherView(f, w, w4, u, newID, x) {
      StagesOther(f, w, w1, w2, w3, w4, u, newID, x);
    }
  }

  // ---------- Agreement after a room change ----------

  /** Nothing on the wire names the empty sprite, so an introduction loses none. */
  ghost predicate Assets(f: Filters) { [] !in f.sprites }

  /** In these rooms every introduction that is made shows all there is to show. */
  ghost predicate Faithful(f: Filters, rooms: set<int32>) { Assets(f) || rooms <= f.singleplayer }

  ghost predicate IntroFaithful<U>(w: World<U>, v: U) { IntroLook(At(w, v)) == LookOf(At(w, v)) }

  ghost predicate IntrosFaithful<U>(w: World<U>) { forall v :: v in w.data ==> IntroFaithful(w, v) }

  lemma RelocatedIntros<U>(w: World<U>, w': World<U>, u: U, newID: int32)
    requires IntrosFaithful(w) && u in w.data && Relocated(w, w', u, newID)
    ensures IntrosFaithful(w')
  {
    forall v | v in w'.data ensures IntroFaithful(w', v) {
      assert IntroFaithful(w, v);
    }
  }

  lemma ChangedPair<U>(f: Filters, w: World<U>, w': World<U>, u: U, newID: int32, x: U, v: U)
    requires Placed(w) && u in w.data && Relocated(w, w', u, newID)
    requires x in w.data && v in w.data && x != u && v != u
    requires OtherView(f, w, w', u, newID, x) && PairOK(f, w, x, v)
    ensures PairOK(f, w', x, v)
  {
    RelocatedVisible(f, w, w', u, newID, x, v);
    assert At(w, v).cid != At(w, u).cid;
  }

  /** Nobody keeps u on screen who cannot see it in the new room. */
  lemma ChangedSeen<U>(f: Filters, w: World<U>, w': World<U>, u: U, newID: int32, x: U)
    requires Placed(w) && u in w.data && Relocated(w, w', u, newID) && newID in w.rooms
    requires newID != At(w, u).roomID ==> Present(w, u)
    requires x in w.data && x != u && Present(w, x) && PairOK(f, w, x, u)
    requires OtherView(f, w, w', u, newID, x) && (newID !in f.singleplayer ==> IntroFaithful(w, u))
    ensures PairOK(f, w', x, u)
  {
    RelocatedIsPlaced(w, w', u, newID);
    RelocatedOther(w, w', u, newID, x);
    AudienceSees(f, w, u, x);
    AudienceSees(f, w', u, x);
  }

  lemma ChangedPairs<U>(f: Filters, w: World<U>, w': World<U>, u: U, newID: int32, x: U, v: U)
    requires Placed(w) && u in w.data && Relocated(w, w', u, newID) && OtherView(f, w, w', u, newID, x)
    requires newID in w.rooms && (newID != At(w, u).roomID ==> Present(w, u))
    requires x in w.data && x != u && Present(w, x) && ViewOK(f, w, x) && v in w.data
    requires newID !in f.singleplayer ==> IntroFaithful(w, u)
    ensures PairOK(f, w', x, v)
  {
    assert PairOK(f, w, x, v);
    if v == u {
      ChangedSeen(f, w, w', u, newID, x);
    } else {
      ChangedPair(f, w, w', u, newID, x, v);
    }
  }

  lemma ChangedKnown<U>(f: Filters, w: World<U>, w': World<U>, u: U, newID: int32, x: U)
    requires u in w.data && Relocated(w, w', u, newID) && OtherView(f, w, w', u, newID, x) && x in w.data && x != u
    requires OnlyKnown(w, ViewOf(w, x))
    ensures OnlyKnown(w', ViewOf(w', x))
  {
    assert w.data[u].cid == At(w, u).cid;
    StillKnown(w, w', ViewOf(w, x), ViewOf(w', x), At(w, u).cid);
  }

  lemma ChangedOthers<U>(f: Filters, w: World<U>, w': World<U>, u: U, newID: int32, x: U)
    requires Placed(w) && u in w.data && RoomChanged(f, w, w', u, newID) && newID in w.rooms
    requires newID != At(w, u).roomID ==> Present(w, u)
    requires x in w.data && x != u && Present(w, x) && ViewOK(f, w, x)
    requires newID !in f.singleplayer ==> IntroFaithful(w, u)
    ensures ViewOK(f, w', x)
  {
    assert OtherView(f, w, w', u, newID, x);
    forall v | v in w'.data ensures PairOK(f, w', x, v) {
      ChangedPairs(f, w, w', u, newID, x, v);
    }
    ChangedKnown(f, w, w', u, newID, x);
  }

  lemma ChangedOwnPair<U>(f: Filters, w: World<U>, u: U, v: U)
    requires Placed(w) && Present(w, u) && v in w.data && IntroLook(At(w, v)) == LookOf(At(w, v))
    requires At(w, u).roomID !in f.singleplayer
    requires Met(w, At(w, u), Members(w, At(w, u).roomID), ViewOf(w, u).players, v)
    ensures PairOK(f, w, u, v)
  {
    assert v in Members(w, At(w, u).roomID) ==> At(w, v).roomID == At(w, u).roomID;
    assert At(w, u).cid == At(w, v).cid <==> u == v;
  }

  lemma ChangedOwn<U>(f: Filters, w: World<U>, w': World<U>, u: U, newID: int32)
    requires Placed(w') && Present(w', u) && At(w', u).roomID == newID && OwnView(f, w, w', u, newID)
    requires newID !in f.singleplayer ==> IntrosFaithful(w')
    ensures ViewOK(f, w', u)
  {
    forall v | v in w'.data ensures PairOK(f, w', u, v) {
      if newID !in f.singleplayer {
        assert IntroFaithful(w', v);
        assert Met(w', At(w', u), Members(w', newID), ViewOf(w', u).players, v);
        ChangedOwnPair(f, w', u, v);
      }
    }
  }

  lemma ChangedAgrees<U>(f: Filters, w: World<U>, w': World<U>, u: U, newID: int32)
    requires Placed(w) && Agree(f, w) && u in w.data && newID in w.rooms && RoomChanged(f, w, w', u, newID)
    requires newID != At(w, u).roomID ==> Present(w, u)
    requires newID !in f.singleplayer ==> IntrosFaithful(w)
    ensures Agree(f, w')
  {
    RelocatedIsPlaced(w, w', u, newID);
    if newID !in f.singleplayer {
      RelocatedIntros(w, w', u, newID);
      assert IntroFaithful(w, u);
    }
    forall x | x in w'.data && Present(w', x) ensures ViewOK(f, w', x) {
      if x == u {
        ChangedOwn(f, w, w', u, newID);
      } else {
        RelocatedOther(w, w', u, newID, x);
        ChangedOthers(f, w, w', u, newID, x);
      }
    }
  }

  lemma RoomIDKeepsState<U>(f: Filters, w: World<U>, w': World<U>, u: U, newID: int32)
    requires StatesOK(f, w) && u in w.data && w'.data == w.data[u := At(w, u).(roomID := newID)]
    ensures StatesOK(f, w')
  {
    assert StateOK(f, w.data[u].(roomID := newID));
  }

  lemma FaithfulIntros<U>(f: Filters, w: World<U>)
    requires StatesOK(f, w) && Assets(f)
    ensures IntrosFaithful(w)
  {
    forall v | v in w.data ensures IntroFaithful(w, v) {
      ReachableIntro(f, w.data[v]);
    }
  }

  lemma ChangedShows<U>(f: Filters, w: World<U>, w': World<U>, u: U, newID: int32)
    requires Placed(w) && StatesOK(f, w) && ScreensOK(f, w) && u in w.data && newID in w.rooms
    requires Assets(f) || newID in f.singleplayer
    requires newID != At(w, u).roomID ==> Present(w, u)
    requires RoomChanged(f, w, w', u, newID)
    ensures ScreensOK(f, w')
  {
    if Assets(f) {
      FaithfulIntros(f, w);
    }
    ChangedAgrees(f, w, w', u, newID);
    ChangedNoStrays(f, w, w', u, newID);
  }

  /** Changing rooms keeps places and player state, and the screens right if they were.
      A connection that is not listed anywhere yet may only enter the room that its
      data names. */
  lemma ChangeRoomKeeps<U>(f: Filters, w: World<U>, u: U, newID: int32)
    requires Placed(w) && StatesOK(f, w) && u in w.data && newID in w.rooms
    requires newID != At(w, u).roomID ==> Present(w, u)
    ensures var w' := ChangeRoom(f, w, u, newID);
      && Placed(w') && StatesOK(f, w') && Present(w', u) && Relocated(w, w', u, newID)
      && (ScreensOK(f, w) && (Assets(f) || newID in f.singleplayer) ==> ScreensOK(f, w'))
  {
    var w' := ChangeRoom(f, w, u, newID);
    ChangeRoomIs(f, w, u, newID);
    RelocatedIsPlaced(w, w', u, newID);
    RoomIDKeepsState(f, w, w', u, newID);
    if ScreensOK(f, w) && (Assets(f) || newID in f.singleplayer) {
      ChangedShows(f, w, w', u, newID);
    }
  }

  lemma ChangedNoStrays<U>(f: Filters, w: World<U>, w': World<U>, u: U, newID: int32)
    requires Structured(w) && NoStrays(w) && RoomChanged(f, w, w', u, newID)
    ensures NoStrays(w')
  {
    forall x | x in w'.views ensures !w'.views[x].stray {
      if x != u {
        assert OtherView(f, w, w', u, newID, x);
      }
    }
  }
}
