/** Replacing a user's block list while the user is in the game. */
module BlockLists {
  import opened Basics
  import opened Packets
  import opened Validate
  import opened Views
  import opened World
  import opened Agreement
  import opened RoomChange
  import opened Engine

  /** The connections among some accounts that share a room with u. */
  lemma RoommateIs<U>(w: World<U>, u: U, accounts: set<Uuid>, x: U)
    requires Structured(w) && Registry(w) && u in w.data
    ensures x in Roommates(w, u, accounts) <==>
      x in w.data && Present(w, x) && At(w, x).account in accounts && At(w, x).roomID == At(w, u).roomID
  {
    if x in w.data {
      assert Enrolled(w, x);
    }
    if x in Roommates(w, u, accounts) {
      var a :| a in accounts && a in w.users && w.users[a] == x;
      assert AccountOK(w, a);
    }
  }

  lemma IDMember<U>(w: World<U>, us: set<U>, y: U)
    requires DistinctIDs(w) && y in w.data && forall x :: x in us ==> x in w.data
    ensures At(w, y).cid in IDsOf(w, us) <==> y in us
    ensures y in us ==> ByID(w, us, At(w, y).cid) == y
  {
    if At(w, y).cid in IDsOf(w, us) {
      var x :| x in us && At(w, x).cid == At(w, y).cid;
      assert x == y;
    }
  }

  /** y on x's screen after hiding `hidden` and showing `shown`. */
  ghost predicate Redrawn<U>(w: World<U>, w': World<U>, u: U, hidden: set<U>, shown: set<U>, x: U, y: U) {
    var p, p', id := ViewOf(w, x).players, ViewOf(w', x).players, At(w, y).cid;
    var gone := (x == u && y in hidden) || (y == u && x in hidden);
    var came := (x == u && y in shown) || (y == u && x in shown);
    && (id in p' <==> (id in p && !gone) || came)
    && (came ==> p'[id] == IntroLook(At(w, y)))
    && (id in p' && !came ==> p'[id] == p[id])
  }

  ghost predicate Known<U>(w: World<U>, us: set<U>) { forall y :: y in us ==> y in w.data }

  ghost predicate ScreenKept<U>(w: World<U>, w': World<U>, x: U) {
    var v, v' := ViewOf(w, x), ViewOf(w', x);
    v'.room == v.room && v'.stray == v.stray && (OnlyKnown(w, v) ==> OnlyKnown(w', v'))
  }

  lemma HideRedraws<U>(w: World<U>, u: U, hidden: set<U>, x: U, y: U)
    requires Structured(w) && DistinctIDs(w) && u in w.data && x in w.data && y in w.data
    requires forall z :: z in hidden ==> z in w.data
    ensures Redrawn(w, HideFrom(w, u, hidden), u, hidden, {}, x, y)
  {
    IDMember(w, hidden, y);
    assert At(w, y).cid == At(w, u).cid <==> y == u;
  }

  lemma HideKeepsScreen<U>(w: World<U>, u: U, hidden: set<U>, x: U)
    requires Structured(w) && x in w.data
    ensures ScreenKept(w, HideFrom(w, u, hidden), x)
  {
    var w' := HideFrom(w, u, hidden);
    if OnlyKnown(w, ViewOf(w, x)) {
      forall id | id in ViewOf(w', x).players ensures KnownID(w', id) {
        assert KnownID(w, id);
      }
    }
  }

  lemma ShowRedraws<U>(w: World<U>, u: U, shown: set<U>, x: U, y: U)
    requires Structured(w) && DistinctIDs(w) && u in w.data && x in w.data && y in w.data
    requires forall z :: z in shown ==> z in w.data
    ensures Redrawn(w, ShowTo(w, u, shown), u, {}, shown, x, y)
  {
    IDMember(w, shown, y);
    assert At(w, y).cid == At(w, u).cid <==> y == u;
  }

  lemma ShowKeepsScreen<U>(w: World<U>, u: U, shown: set<U>, x: U)
    requires Structured(w) && x in w.data && u in w.data && forall z :: z in shown ==> z in w.data
    ensures ScreenKept(w, ShowTo(w, u, shown), x)
  {
    var w' := ShowTo(w, u, shown);
    if OnlyKnown(w, ViewOf(w, x)) {
      forall id | id in ViewOf(w', x).players ensures KnownID(w', id) {
        if id in ViewOf(w, x).players {
          assert KnownID(w, id);
        } else if id != At(w, u).cid {
          var z :| z in shown && At(w, z).cid == id;
          assert z in w.data && w.data[z].cid == id;
        } else {
          assert w.data[u].cid == id;
        }
      }
    }
  }

  /** Only u's block list and the screens of the pairs concerned changed. */
  ghost predicate Reblocked<U>(w: World<U>, w': World<U>, u: U, blocked: set<Uuid>, hidden: set<U>, shown: set<U>) {
    && w'.rooms == w.rooms && w'.users == w.users && w'.counter == w.counter && w'.views.Keys == w.views.Keys
    && w'.data == w.data[u := At(w, u).(blocklist := blocked)]
    && (forall x :: x in w.data ==> ScreenKept(w, w', x))
    && (forall x, y :: x in w.data && y in w.data ==> Redrawn(w, w', u, hidden, shown, x, y))
  }

  lemma RedrawnTwice<U>(w: World<U>, w1: World<U>, w2: World<U>, w': World<U>, u: U, hidden: set<U>, shown: set<U>,
      x: U, y: U)
    requires w1.data == w.data && Redrawn(w, w1, u, hidden, {}, x, y) && Redrawn(w1, w2, u, {}, shown, x, y)
    requires w'.views == w2.views
    ensures Redrawn(w, w', u, hidden, shown, x, y)
  {
  }

  lemma KeptTwice<U>(w: World<U>, w1: World<U>, w2: World<U>, w': World<U>, x: U)
    requires ScreenKept(w, w1, x) && ScreenKept(w1, w2, x) && w'.views == w2.views
    requires w2.data.Keys <= w'.data.Keys && forall y :: y in w2.data ==> w'.data[y].cid == w2.data[y].cid
    ensures ScreenKept(w, w', x)
  {
    if OnlyKnown(w2, ViewOf(w2, x)) {
      forall id | id in ViewOf(w', x).players ensures KnownID(w', id) {
        assert KnownID(w2, id);
        var y :| y in w2.data && w2.data[y].cid == id;
        assert w'.data[y].cid == id;
      }
    }
  }

  ghost function NewlyBlocked<U>(w: World<U>, u: U, blocked: set<Uuid>): set<U> {
    Roommates(w, u, blocked - At(w, u).blocklist)
  }

  ghost function NewlyUnblocked<U>(w: World<U>, u: U, blocked: set<Uuid>): set<U> {
    Roommates(w, u, At(w, u).blocklist - blocked)
  }

  lemma RoommatesKnown<U>(w: World<U>, u: U, accounts: set<Uuid>)
    requires Structured(w)
    ensures forall x :: x in Roommates(w, u, accounts) ==> x in w.data
  {
  }

  lemma UpdateStages<U>(w: World<U>, account: Uuid, blocked: set<Uuid>)
    requires account in w.users
    ensures var u := w.users[account];
      UpdateBlockList(w, account, blocked) ==
      Put(ShowTo(HideFrom(w, u, NewlyBlocked(w, u, blocked)), u, NewlyUnblocked(w, u, blocked)),
        u, At(w, u).(blocklist := blocked))
  {
  }

  lemma StageKeepsScreens<U>(w: World<U>, w1: World<U>, w2: World<U>, w': World<U>, u: U, hidden: set<U>,
      shown: set<U>, x: U)
    requires Structured(w) && u in w.data && x in w.data && Known(w, shown)
    requires w1 == HideFrom(w, u, hidden) && w2 == ShowTo(w1, u, shown) && w'.views == w2.views
    requires w2.data.Keys <= w'.data.Keys && forall y :: y in w2.data ==> w'.data[y].cid == w2.data[y].cid
    ensures ScreenKept(w, w', x)
  {
    HideKeepsScreen(w, u, hidden, x);
    ShowKeepsScreen(w1, u, shown, x);
    KeptTwice(w, w1, w2, w', x);
  }

  lemma StageRedraws<U>(w: World<U>, w1: World<U>, w2: World<U>, w': World<U>, u: U, hidden: set<U>, shown: set<U>,
      x: U, y: U)
    requires Structured(w) && DistinctIDs(w) && u in w.data && x in w.data && y in w.data && Known(w, hidden)
    requires Known(w, shown)
    requires w1 == HideFrom(w, u, hidden) && w2 == ShowTo(w1, u, shown) && w'.views == w2.views
    ensures Redrawn(w, w', u, hidden, shown, x, y)
  {
    HideRedraws(w, u, hidden, x, y);
    ShowRedraws(w1, u, shown, x, y);
    RedrawnTwice(w, w1, w2, w', u, hidden, shown, x, y);
  }

  lemma UpdateReblocks<U>(w: World<U>, account: Uuid, blocked: set<Uuid>)
    requires Placed(w) && account in w.users
    ensures var u := w.users[account];
      Reblocked(w, UpdateBlockList(w, account, blocked), u, blocked,
        NewlyBlocked(w, u, blocked), NewlyUnblocked(w, u, blocked))
  {
    var u := w.users[account];
    var hidden, shown := NewlyBlocked(w, u, blocked), NewlyUnblocked(w, u, blocked);
    RoommatesKnown(w, u, blocked - At(w, u).blocklist);
    RoommatesKnown(w, u, At(w, u).blocklist - blocked);
    var w1 := HideFrom(w, u, hidden);
    var w2 := ShowTo(w1, u, shown);
    var w' := UpdateBlockList(w, account, blocked);
    UpdateStages(w, account, blocked);
    forall x | x in w.data ensures ScreenKept(w, w', x) {
      StageKeepsScreens(w, w1, w2, w', u, hidden, shown, x);
    }
    forall x, y | x in w.data && y in w.data ensures Redrawn(w, w', u, hidden, shown, x, y) {
      StageRedraws(w, w1, w2, w', u, hidden, shown, x, y);
    }
  }

  // ---------- Exactly when views still agree ----------

  /** What unblocking does not check: the peer's own block list, the singleplayer
      flag of the room, and that the peer is somebody else. */
  ghost predicate Showable<U>(f: Filters, w: World<U>, u: U, x: U) {
    x != u && At(w, u).roomID !in f.singleplayer && !HasBlocked(At(w, x), At(w, u))
  }

  ghost predicate AllShowable<U>(f: Filters, w: World<U>, u: U, shown: set<U>) {
    forall x :: x in shown ==> Showable(f, w, u, x)
  }

  lemma ReblockedPlaces<U>(f: Filters, w: World<U>, w': World<U>, u: U, blocked: set<Uuid>, x: U, y: U)
    requires w'.rooms == w.rooms && u in w.data && w'.data == w.data[u := At(w, u).(blocklist := blocked)]
    ensures Present(w', x) <==> Present(w, x)
    ensures x != u && y != u ==> (Visible(f, w', x, y) <==> Visible(f, w, x, y))
    ensures Visible(f, w', u, y) <==>
      u != y && Present(w, u) && Present(w, y) && At(w, u).roomID == At(w, y).roomID
        && At(w, u).roomID !in f.singleplayer
      && At(w, y).account !in blocked && !HasBlocked(At(w, y), At(w, u))
    ensures Visible(f, w', y, u) <==> Visible(f, w', u, y)
    ensures LookOf(At(w', y)) == LookOf(At(w, y)) && At(w', y).cid == At(w, y).cid
  {
  }

  /** Whether two clients see each other after the update, by what the update did. */
  lemma VisibleAfter<U>(f: Filters, w: World<U>, w': World<U>, u: U, blocked: set<Uuid>, y: U)
    requires Structured(w) && Registry(w) && u in w.data && y in w.data && Present(w, u)
    requires w'.rooms == w.rooms && w'.data == w.data[u := At(w, u).(blocklist := blocked)]
    ensures y != u ==> (Visible(f, w', u, y) <==>
      (Visible(f, w, u, y) && y !in NewlyBlocked(w, u, blocked))
        || (y in NewlyUnblocked(w, u, blocked) && Showable(f, w, u, y)))
    ensures y in NewlyUnblocked(w, u, blocked) ==> !Visible(f, w, u, y) && y !in NewlyBlocked(w, u, blocked)
    ensures y in NewlyBlocked(w, u, blocked) ==> !Visible(f, w', u, y)
  {
    ReblockedPlaces(f, w, w', u, blocked, u, y);
    RoommateIs(w, u, blocked - At(w, u).blocklist, y);
    RoommateIs(w, u, At(w, u).blocklist - blocked, y);
  }

  lemma ReblockedPair<U>(f: Filters, w: World<U>, w': World<U>, u: U, blocked: set<Uuid>, x: U, y: U)
    requires Structured(w) && Registry(w) && Present(w, u) && x in w.data && y in w.data
    requires w'.rooms == w.rooms && w'.data == w.data[u := At(w, u).(blocklist := blocked)]
    requires Redrawn(w, w', u, NewlyBlocked(w, u, blocked), NewlyUnblocked(w, u, blocked), x, y)
    requires PairOK(f, w, x, y) && AllShowable(f, w, u, NewlyUnblocked(w, u, blocked))
    requires NewlyUnblocked(w, u, blocked) != {} ==> IntroFaithful(w, y)
    ensures PairOK(f, w', x, y)
  {
    ReblockedPlaces(f, w, w', u, blocked, x, y);
    if x == u {
      VisibleAfter(f, w, w', u, blocked, y);
    } else if y == u {
      ReblockedPlaces(f, w, w', u, blocked, u, x);
      VisibleAfter(f, w, w', u, blocked, x);
    }
  }

  lemma ReblockedAgrees<U>(f: Filters, w: World<U>, w': World<U>, u: U, blocked: set<Uuid>)
    requires Structured(w) && Registry(w) && Present(w, u) && Agree(f, w)
    requires NewlyUnblocked(w, u, blocked) != {} ==> IntrosFaithful(w)
    requires Reblocked(w, w', u, blocked, NewlyBlocked(w, u, blocked), NewlyUnblocked(w, u, blocked))
    requires AllShowable(f, w, u, NewlyUnblocked(w, u, blocked))
    ensures Agree(f, w')
  {
    forall x | x in w'.data && Present(w', x) ensures ViewOK(f, w', x) {
      ReblockedPlaces(f, w, w', u, blocked, x, u);
      assert ViewOK(f, w, x) && ScreenKept(w, w', x);
      forall y | y in w'.data ensures PairOK(f, w', x, y) {
        assert PairOK(f, w, x, y) && (NewlyUnblocked(w, u, blocked) != {} ==> IntroFaithful(w, y));
        ReblockedPair(f, w, w', u, blocked, x, y);
      }
    }
  }

  /** Showing somebody who must not be shown breaks agreement. */
  lemma ReblockedDisagrees<U>(f: Filters, w: World<U>, w': World<U>, u: U, blocked: set<Uuid>, x: U)
    requires Structured(w) && Registry(w) && Present(w, u) && x in NewlyUnblocked(w, u, blocked)
    requires !Showable(f, w, u, x)
    requires Reblocked(w, w', u, blocked, NewlyBlocked(w, u, blocked), NewlyUnblocked(w, u, blocked))
    ensures !Agree(f, w')
  {
    RoommateIs(w, u, At(w, u).blocklist - blocked, x);
    assert Redrawn(w, w', u, NewlyBlocked(w, u, blocked), NewlyUnblocked(w, u, blocked), u, x);
    ReblockedPlaces(f, w, w', u, blocked, u, x);
    VisibleAfter(f, w, w', u, blocked, x);
    assert !PairOK(f, w', u, x);
    assert !ViewOK(f, w', u);
  }

  lemma ReblockedRegistry<U>(w: World<U>, w': World<U>, u: U, blocked: set<Uuid>)
    requires Structured(w) && Registry(w) && u in w.data
    requires w'.rooms == w.rooms && w'.users == w.users && w'.data == w.data[u := At(w, u).(blocklist := blocked)]
    ensures Registry(w')
  {
    forall x | x in w.data ensures SameStatus(w, w', x) {
    }
    SameRegistry(w, w');
  }

  lemma ReblockedPlaced<U>(w: World<U>, w': World<U>, u: U, blocked: set<Uuid>)
    requires Placed(w) && u in w.data && w'.rooms == w.rooms && w'.users == w.users && w'.counter == w.counter
    requires w'.views.Keys == w.views.Keys && w'.data == w.data[u := At(w, u).(blocklist := blocked)]
    ensures Placed(w')
  {
    var d := At(w, u).(blocklist := blocked);
    SameIDs(w, w', u, d);
    StillStructured(w, w', u, d);
    forall r, x | r in w.rooms && x in w.rooms[r] ensures At(w', x).roomID == r {
      assert At(w, x).roomID == r;
    }
  }

  lemma ReblockedState(f: Filters, d: Player, blocked: set<Uuid>)
    requires StateOK(f, d)
    ensures StateOK(f, d.(blocklist := blocked))
  {
  }

  lemma ReblockedServes<U>(f: Filters, w: World<U>, w': World<U>, u: U, blocked: set<Uuid>, hidden: set<U>,
      shown: set<U>)
    requires ServerOK(f, w) && u in w.data && Reblocked(w, w', u, blocked, hidden, shown)
    ensures ServerOK(f, w')
  {
    ReblockedPlaced(w, w', u, blocked);
    ReblockedRegistry(w, w', u, blocked);
    ReblockedState(f, At(w, u), blocked);
    OneStateOK(f, w, w', u, At(w, u).(blocklist := blocked));
  }

  lemma ReblockedNoStrays<U>(w: World<U>, w': World<U>, u: U, blocked: set<Uuid>, hidden: set<U>, shown: set<U>)
    requires Structured(w) && NoStrays(w) && Reblocked(w, w', u, blocked, hidden, shown)
    ensures NoStrays(w')
  {
    forall x | x in w'.views ensures !w'.views[x].stray {
      assert ScreenKept(w, w', x);
    }
  }

  /** The update keeps the server in order whatever the lists say, */
  lemma UpdateServes<U>(f: Filters, w: World<U>, account: Uuid, blocked: set<Uuid>)
    requires ServerOK(f, w)
    ensures ServerOK(f, UpdateBlockList(w, account, blocked))
  {
    if account in w.users {
      var u := w.users[account];
      var hidden, shown := NewlyBlocked(w, u, blocked), NewlyUnblocked(w, u, blocked);
      UpdateReblocks(w, account, blocked);
      ReblockedServes(f, w, UpdateBlockList(w, account, blocked), u, blocked, hidden, shown);
    }
  }

  /** and the screens right exactly when every newly unblocked roommate may be shown. */
  lemma UpdateIsExact<U>(f: Filters, w: World<U>, account: Uuid, blocked: set<Uuid>)
    requires ServerOK(f, w) && ScreensOK(f, w) && Faithful(f, w.rooms.Keys) && account in w.users
    ensures var u := w.users[account];
      ScreensOK(f, UpdateBlockList(w, account, blocked)) <==> AllShowable(f, w, u, NewlyUnblocked(w, u, blocked))
  {
    var u := w.users[account];
    var w' := UpdateBlockList(w, account, blocked);
    var hidden, shown := NewlyBlocked(w, u, blocked), NewlyUnblocked(w, u, blocked);
    assert AccountOK(w, account);
    InGameIsPresent(w, u);
    UpdateReblocks(w, account, blocked);
    ReblockedNoStrays(w, w', u, blocked, hidden, shown);
    if AllShowable(f, w, u, shown) {
      if shown != {} {
        var x :| x in shown;
        assert Showable(f, w, u, x) && w.data[u].roomID in w.rooms;
        FaithfulIntros(f, w);
      }
      ReblockedAgrees(f, w, w', u, blocked);
    } else {
      var x :| x in shown && !Showable(f, w, u, x);
      ReblockedDisagrees(f, w, w', u, blocked, x);
    }
  }

  /** Newly blocked roommates are gone from both screens whatever else holds, and the
      screens of other pairs are as they were. */
  lemma UpdateHides<U>(f: Filters, w: World<U>, account: Uuid, blocked: set<Uuid>, x: U, y: U)
    requires ServerOK(f, w) && account in w.users && x in w.data && y in w.data
    ensures var u, w' := w.users[account], UpdateBlockList(w, account, blocked);
      && (y in NewlyBlocked(w, u, blocked) ==>
        At(w, y).cid !in ViewOf(w', u).players && At(w, u).cid !in ViewOf(w', y).players)
      && (x != u && y != u ==>
            && (At(w, y).cid in ViewOf(w', x).players <==> At(w, y).cid in ViewOf(w, x).players)
            && (At(w, y).cid in ViewOf(w', x).players ==>
              ViewOf(w', x).players[At(w, y).cid] == ViewOf(w, x).players[At(w, y).cid]))
  {
    var u, w' := w.users[account], UpdateBlockList(w, account, blocked);
    var hidden, shown := NewlyBlocked(w, u, blocked), NewlyUnblocked(w, u, blocked);
    UpdateReblocks(w, account, blocked);
    assert Redrawn(w, w', u, hidden, shown, x, y) && Redrawn(w, w', u, hidden, shown, u, y)
      && Redrawn(w, w', u, hidden, shown, y, u);
    RoommateIs(w, u, blocked - At(w, u).blocklist, y);
    RoommateIs(w, u, At(w, u).blocklist - blocked, y);
    RoommateIs(w, u, At(w, u).blocklist - blocked, u);
  }

  // ---------- One exchange after another ----------

  lemma RemoveTwice(p: map<int32, Look>, a: set<int32>, b: set<int32>)
    ensures p - a - b == p - (a + b)
  {
  }

  lemma RemoveNone(p: map<int32, Look>)
    ensures p - {} == p
  {
  }

  lemma HiddenOne<U>(w: World<U>, w1: World<U>, w2: World<U>, u: U, x: U, y: U)
    requires u in w.views && x in w.views && y in w.views
    requires w1 == Show(w, u, Apply(ViewOf(w, u), DisconnectS2C(At(w, x).cid)))
    requires w2 == Show(w1, x, Apply(ViewOf(w1, x), DisconnectS2C(At(w, u).cid)))
    ensures w2.views[y] == HideFrom(w, u, {x}).views[y]
  {
    var p, a, b := w.views[y].players, {At(w, x).cid}, {At(w, u).cid};
    assert IDsOf(w, {x}) == a;
    RemoveNone(p);
    RemoveTwice(p, a, b);
    assert TakenOff(w, u, {x}, y) == (if y == u then a else {}) + if y == x then b else {};
    assert a + {} == a && {} + b == b;
  }

  lemma HideOne<U>(w: World<U>, u: U, x: U)
    requires u in w.views && x in w.views
    ensures var w1 := Show(w, u, Apply(ViewOf(w, u), DisconnectS2C(At(w, x).cid)));
      Show(w1, x, Apply(ViewOf(w1, x), DisconnectS2C(At(w, u).cid))) == HideFrom(w, u, {x})
  {
    var w1 := Show(w, u, Apply(ViewOf(w, u), DisconnectS2C(At(w, x).cid)));
    var w2 := Show(w1, x, Apply(ViewOf(w1, x), DisconnectS2C(At(w, u).cid)));
    forall y | y in w.views ensures w2.views[y] == HideFrom(w, u, {x}).views[y] {
      HiddenOne(w, w1, w2, u, x, y);
    }
    assert w2.views == HideFrom(w, u, {x}).views;
  }

  lemma TakenOffMore<U>(w: World<U>, w1: World<U>, u: U, them: set<U>, x: U, y: U)
    requires w1.data == w.data
    ensures TakenOff(w, u, them + {x}, y) == TakenOff(w, u, them, y) + TakenOff(w1, u, {x}, y)
  {
    assert IDsOf(w1, {x}) == {At(w, x).cid} && IDsOf(w, them + {x}) == IDsOf(w, them) + {At(w, x).cid};
  }

  lemma HiddenView<U>(w: World<U>, w1: World<U>, u: U, them: set<U>, x: U, y: U)
    requires y in w.views && w1 == HideFrom(w, u, them)
    ensures HideFrom(w1, u, {x}).views[y] == HideFrom(w, u, them + {x}).views[y]
  {
    TakenOffMore(w, w1, u, them, x, y);
    RemoveTwice(w.views[y].players, TakenOff(w, u, them, y), TakenOff(w1, u, {x}, y));
  }

  lemma HideMore<U>(w: World<U>, u: U, them: set<U>, x: U)
    ensures HideFrom(HideFrom(w, u, them), u, {x}) == HideFrom(w, u, them + {x})
  {
    var w1 := HideFrom(w, u, them);
    forall y | y in w.views ensures HideFrom(w1, u, {x}).views[y] == HideFrom(w, u, them + {x}).views[y] {
      HiddenView(w, w1, u, them, x, y);
    }
    assert HideFrom(w1, u, {x}).views == HideFrom(w, u, them + {x}).views;
  }

  lemma MeetOne<U>(w: World<U>, v: View, x: U)
    requires At(w, x).flash.None?
    ensures MeetSet(w, v, {x}) == Introduce(v, At(w, x))
  {
    assert IDsOf(w, {x}) == {At(w, x).cid};
    assert ByID(w, {x}, At(w, x).cid) == x;
    assert MeetSet(w, v, {x}).players == Introduce(v, At(w, x)).players;
  }

  lemma ShowOne<U>(w: World<U>, u: U, x: U)
    requires u in w.views && x in w.views && At(w, x).flash.None?
    ensures var w1 := Show(w, u, Introduce(ViewOf(w, u), At(w, x)));
      Show(w1, x, Introduce(ViewOf(w1, x), At(w, u))) == ShowTo(w, u, {x})
  {
    var w1 := Show(w, u, Introduce(ViewOf(w, u), At(w, x)));
    var w2 := Show(w1, x, Introduce(ViewOf(w1, x), At(w, u)));
    MeetOne(w, w.views[u], x);
    assert w2.views == ShowTo(w, u, {x}).views;
  }

  lemma ShowNobody<U>(w: World<U>, u: U)
    ensures ShowTo(w, u, {}) == w && HideFrom(w, u, {}) == w
  {
    assert IDsOf(w, {}) == {};
    forall x | x in w.views ensures MeetSet(w, w.views[x], {}) == w.views[x] && TakenOff(w, u, {}, x) == {} {
      assert MeetSet(w, w.views[x], {}).players == w.views[x].players;
    }
    assert forall p: map<int32, Look> :: p - {} == p;
    assert ShowTo(w, u, {}).views == w.views;
    assert HideFrom(w, u, {}).views == w.views;
  }

  lemma PickOneMore<U>(w: World<U>, them: set<U>, x: U, id: int32)
    requires DistinctIDs(w) && Known(w, them) && x in w.data && id in IDsOf(w, them + {x})
    ensures ByID(w, them + {x}, id) == if id in IDsOf(w, them) then ByID(w, them, id) else x
  {
    var y :| y in them + {x} && At(w, y).cid == id;
    IDMember(w, them + {x}, y);
    IDMember(w, them, y);
  }

  lemma MetLook<U>(w: World<U>, v: View, them: set<U>, x: U, i: int32)
    requires DistinctIDs(w) && Known(w, them) && x in w.data && i in MeetSet(w, v, them + {x}).players
    ensures MeetSet(w, v, them + {x}).players[i] == MeetSet(w, v, them).players[At(w, x).cid := IntroLook(At(w, x))][i]
  {
    assert IDsOf(w, them + {x}) == IDsOf(w, them) + {At(w, x).cid};
    if i in IDsOf(w, them + {x}) {
      PickOneMore(w, them, x, i);
      IDMember(w, them, x);
    }
  }

  lemma MetKeys<U>(w: World<U>, v: View, them: set<U>, x: U)
    ensures MeetSet(w, v, them + {x}).players.Keys == MeetSet(w, v, them).players.Keys + {At(w, x).cid}
  {
    assert IDsOf(w, them + {x}) == IDsOf(w, them) + {At(w, x).cid};
  }

  lemma MetPlayers<U>(w: World<U>, v: View, them: set<U>, x: U)
    requires DistinctIDs(w) && Known(w, them) && x in w.data
    ensures MeetSet(w, v, them + {x}).players == MeetSet(w, v, them).players[At(w, x).cid := IntroLook(At(w, x))]
  {
    MetKeys(w, v, them, x);
    forall i | i in MeetSet(w, v, them + {x}).players
      ensures MeetSet(w, v, them + {x}).players[i] ==
        MeetSet(w, v, them).players[At(w, x).cid := IntroLook(At(w, x))][i]
    {
      MetLook(w, v, them, x, i);
    }
  }

  lemma MeetOneMore<U>(w: World<U>, v: View, them: set<U>, x: U)
    requires DistinctIDs(w) && Known(w, them) && x in w.data && At(w, x).flash.None?
    ensures MeetSet(w, v, them + {x}) == Introduce(MeetSet(w, v, them), At(w, x))
  {
    MetPlayers(w, v, them, x);
    assert v.effects + IntroFlash(At(w, x)) == v.effects;
  }

  lemma IntroduceTwice(v: View, d: Player, e: Player)
    requires (d == e || d.cid != e.cid) && d.flash.None? && e.flash.None?
    ensures Introduce(Introduce(v, d), e) == Introduce(Introduce(v, e), d)
    ensures Introduce(Introduce(v, d), d) == Introduce(v, d)
  {
    assert Introduce(Introduce(v, d), e).players == Introduce(Introduce(v, e), d).players;
    assert Introduce(Introduce(v, d), d).players == Introduce(v, d).players;
  }

  lemma ShownView<U>(w: World<U>, u: U, them: set<U>, x: U, y: U)
    requires DistinctIDs(w) && Known(w, them) && u in w.data && x in w.data && y in w.views
    requires At(w, x).flash.None? && At(w, u).flash.None?
    ensures ShowTo(ShowTo(w, u, them), u, {x}).views[y] == ShowTo(w, u, them + {x}).views[y]
  {
    var w1, v := ShowTo(w, u, them), w.views[y];
    MeetOne(w1, w1.views[y], x);
    MeetOneMore(w, v, them, x);
    assert At(w, x).cid == At(w, u).cid ==> x == u;
    IntroduceTwice(if y == u then MeetSet(w, v, them) else v, At(w, u), At(w, x));
  }

  lemma ShowMore<U>(w: World<U>, u: U, them: set<U>, x: U)
    requires DistinctIDs(w) && Known(w, them) && u in w.data && x in w.data
    requires At(w, x).flash.None? && At(w, u).flash.None?
    ensures ShowTo(ShowTo(w, u, them), u, {x}) == ShowTo(w, u, them + {x})
  {
    forall y | y in w.views ensures ShowTo(ShowTo(w, u, them), u, {x}).views[y] == ShowTo(w, u, them + {x}).views[y] {
      ShownView(w, u, them, x, y);
    }
    assert ShowTo(ShowTo(w, u, them), u, {x}).views == ShowTo(w, u, them + {x}).views;
  }
}
