/** The room server as its callers use it: two players meet, or are kept apart. */
module Client {
  import opened Basics
  import opened Delimiters
  import opened Validate
  import opened Views
  import opened World
  import opened Agreement
  import opened RoomChange
  import opened Engine
  import opened Lifecycle
  import opened Runs
  import opened Sending
  import opened Failures
  import RoomServer

  lemma NowIn<U>(f: Filters, w: World<U>, w1: World<U>, w2: World<U>, u: U, d: Player)
    requires w1 == Next(f, w, Authorizing(u, d)) && w2 == Next(f, w1, Opening(u))
    requires d.roomID in w.rooms && d.account !in w.users && Placed(w1)
    ensures Joined(w, w2, u, d)
  {
    OpenIs(f, w1, u);
    AddedAndOpened(w, w1, w2, u, d);
  }

  /** Opens a connection that was just let in. */
  method Seat(h: RoomServer.Handler, u: RoomServer.User, ghost w: World<RoomServer.User>, ghost d: Player)
    requires h.Valid() && h.WasGuarded() && Possible(h.Abs(), Opening(u))
      && d.account !in w.users && d.roomID in w.rooms
    requires h.Abs() == Next(h.filters, w, Authorizing(u, d))
    modifies h`users, h`history, h`trace, h.rooms.Values, u.data, h.conns`view
    ensures h.Valid() && h.WasGuarded() && Joined(w, h.Abs(), u, d)
  {
    ghost var w1 := h.Abs();
    h.Served();
    h.OnOpen(u);
    NowIn(h.filters, w, w1, h.Abs(), u, d);
  }

  /** Lets an account into a room. */
  method Enter(h: RoomServer.Handler, r: int32, name: Bytes, account: Uuid, guardKey: uint32, blocklist: set<Uuid>)
      returns (u: RoomServer.User)
    requires h.Valid() && h.WasGuarded() && 0 <= h.cIDCounter < 0x7fff_ffff && r in h.rooms && account !in h.users
    requires Clean(name)
    modifies h, h.rooms.Values, h.conns`view
    ensures h.Valid() && h.WasGuarded() && fresh(u) && fresh(u.data) && h.conns == old(h.conns) + {u}
    ensures Joined(old(h.Abs()), h.Abs(), u,
                   NewPlayer(old(h.cIDCounter) + 1, name, account, true, guardKey, r, blocklist))
  {
    ghost var w := h.Abs();
    var admitted;
    ghost var d;
    admitted, d := h.Authorize(r, name, account, true, guardKey, blocklist);
    u := admitted.value;
    Seat(h, u, w, d);
  }

  lemma BothVisible<U>(f: Filters, w: World<U>, u: U, v: U)
    requires ServerOK(f, w) && InGame(w, u) && InGame(w, v) && u != v
    requires At(w, u).roomID == At(w, v).roomID && At(w, u).roomID !in f.singleplayer
    requires !BlockedBetween(At(w, u), At(w, v))
    ensures Visible(f, w, v, u)
  {
    InGameIsPresent(w, u);
    InGameIsPresent(w, v);
  }

  /** Two players in a multiplayer map, neither on the other's list. */
  lemma SeenOnScreen(h: RoomServer.Handler, u: RoomServer.User, v: RoomServer.User)
    requires h.Valid() && h.WasGuarded() && Faithful(h.filters, h.filters.maps)
    requires u in h.conns && v in h.conns && u != v && u.data.phase == Live && v.data.phase == Live
    requires u.data.roomID == v.data.roomID && u.data.roomID !in h.filters.singleplayer
    requires v.data.account !in u.data.blocklist && u.data.account !in v.data.blocklist
    ensures v.view.room == u.data.roomID && u.data.cid in v.view.players
    ensures v.view.players[u.data.cid] == LookOf(u.data.State())
  {
    h.Served();
    assert At(h.Abs(), u) == u.data.State() && At(h.Abs(), v) == v.data.State();
    BothVisible(h.filters, h.Abs(), u, v);
    h.ScreensAgree(v, u);
  }

  lemma ApartOnScreen(h: RoomServer.Handler, u: RoomServer.User, v: RoomServer.User)
    requires h.Valid() && h.WasGuarded() && Faithful(h.filters, h.filters.maps)
    requires u in h.conns && v in h.conns && u.data.phase == Live
    requires v.data.account in u.data.blocklist || u.data.account in v.data.blocklist
    ensures v.data.cid !in u.view.players
  {
    h.ScreensAgree(u, v);
    assert At(h.Abs(), u) == u.data.State() && At(h.Abs(), v) == v.data.State();
  }

  /** Whoever enters a multiplayer map has those who are there on its screen. */
  method Follow(h: RoomServer.Handler, u: RoomServer.User, account: Uuid, blocklist: set<Uuid>)
      returns (v: RoomServer.User)
    requires h.Valid() && h.WasGuarded() && Faithful(h.filters, h.filters.maps) && 0 <= h.cIDCounter < 0x7fff_ffff
    requires u in h.conns && u.data.phase == Live && account !in h.users
    requires u.data.roomID in h.rooms && u.data.roomID !in h.filters.singleplayer
    requires account !in u.data.blocklist && u.data.account !in blocklist
    modifies h, h.rooms.Values, h.conns`view
    ensures v.data.account == account && v.view.room == u.data.roomID && u.data.cid in v.view.players
    ensures v.view.players[u.data.cid] == LookOf(u.data.State())
  {
    EmptyIsClean();
    v := Enter(h, u.data.roomID, [], account, 0, blocklist);
    assert h.Abs().data[v] == v.data.State();
    SeenOnScreen(h, u, v);
  }

  /** Two accounts enter a multiplayer map of a new server, one after the other, and neither
      is on the list that was looked up for the other. */
  method Meet(f: Filters, r: int32, a: Uuid, b: Uuid, listOfA: set<Uuid>, listOfB: set<Uuid>)
      returns (u: RoomServer.User, v: RoomServer.User)
    requires CleanAssets(f) && Faithful(f, f.maps) && r in f.maps && r !in f.singleplayer && a != b
    requires b !in listOfA && a !in listOfB
    ensures u.data.account == a && v.data.account == b
    ensures v.view.room == r && u.data.cid in v.view.players
    ensures v.view.players[u.data.cid] == LookOf(u.data.State())
  {
    var h := new RoomServer.Handler(f);
    EmptyIsClean();
    u := Enter(h, r, [], a, 0, listOfA);
    assert h.Abs().data[u] == u.data.State();
    v := Follow(h, u, b, listOfB);
  }

  method Avoid(h: RoomServer.Handler, r: int32, u: RoomServer.User, b: Uuid, blocklist: set<Uuid>)
      returns (v: RoomServer.User)
    requires h.Valid() && h.WasGuarded() && Faithful(h.filters, h.filters.maps)
    requires 0 <= h.cIDCounter < 0x7fff_ffff && r in h.rooms && b !in h.users
    requires u in h.conns && u.data.phase == Live
    requires b in u.data.blocklist || u.data.account in blocklist
    modifies h, h.rooms.Values, h.conns`view
    ensures v.data.account == b && v.data.cid !in u.view.players && u.data.cid !in v.view.players
  {
    EmptyIsClean();
    v := Enter(h, r, [], b, 0, blocklist);
    assert h.Abs().data[v] == v.data.State();
    ApartOnScreen(h, u, v);
    ApartOnScreen(h, v, u);
  }

  /** Two accounts enter the same map of a new server, and one is on the list that was looked
      up for the other: neither is shown to the other. */
  method KeepApart(f: Filters, r: int32, a: Uuid, b: Uuid, listOfA: set<Uuid>, listOfB: set<Uuid>)
      returns (u: RoomServer.User, v: RoomServer.User)
    requires CleanAssets(f) && Faithful(f, f.maps) && r in f.maps && a != b
    requires b in listOfA || a in listOfB
    ensures u.data.account == a && v.data.account == b
    ensures v.data.cid !in u.view.players && u.data.cid !in v.view.players
  {
    var h := new RoomServer.Handler(f);
    EmptyIsClean();
    u := Enter(h, r, [], a, 0, listOfA);
    assert h.Abs().data[u] == u.data.State();
    v := Avoid(h, r, u, b, listOfB);
  }
}
