/** The room server with its objects updated in place. A handler carries the World
    that its heap stands for, and every method is the step of that name. */
module RoomServer {
  import opened Basics
  import opened Delimiters
  import opened Packets
  import opened Validate
  import opened Views
  import opened World
  import Spec = World
  import opened Agreement
  import opened RoomChange
  import opened Engine
  import opened BlockLists
  import opened Relays
  import opened Runs
  import opened Sending

  /** What the server holds about one connection; State() is its value. */
  class ClientData {
    const cid: int32
    const name: Bytes
    const account: Uuid
    const rank: int32
    const loggedIn: bool
    const badge: Bytes
    const guardKey: uint32
    var blocklist: set<Uuid>
    var guardCount: uint32
    var open: bool   // the outbox channel
    var roomID: int32
    var x: int32
    var y: int32
    var facing: int32
    var speed: int32
    var transparency: int32
    var hidden: bool
    var sprite: Bytes
    var spriteIndex: int32
    var sysName: Bytes
    var flash: Option<Flash>
    var pictures: map<int32, Picture>
    ghost var phase: Phase

    ghost function State(): Player
      reads this
    {
      Player(cid, name, account, rank, loggedIn, badge, guardKey, blocklist, guardCount, phase, open,
             roomID, x, y, facing, speed, transparency, hidden, sprite, spriteIndex, sysName, flash, pictures)
    }

    /** What was looked up for a connection, and otherwise what clients assume. */
    ghost predicate StartsAs(cid: int32, name: Bytes, account: Uuid, loggedIn: bool, guardKey: uint32, roomID: int32,
        blocklist: set<Uuid>)
      reads this
    {
      && this.cid == cid && this.name == name && this.account == account && this.loggedIn == loggedIn
      && this.guardKey == guardKey && this.roomID == roomID && this.blocklist == blocklist
      && rank == 0 && badge == [] && guardCount == 0 && open
      && x == -1 && y == -1 && facing == 2 && speed == 3
      && transparency == 0 && !hidden && sprite == [] && spriteIndex == -1 && sysName == []
      && flash == None && pictures == map[]
    }

    constructor (cid: int32, name: Bytes, account: Uuid, loggedIn: bool, guardKey: uint32, roomID: int32,
        blocklist: set<Uuid>)
      ensures State() == NewPlayer(cid, name, account, loggedIn, guardKey, roomID, blocklist)
      ensures StartsAs(cid, name, account, loggedIn, guardKey, roomID, blocklist)
    {
      this.cid, this.name, this.account, this.loggedIn := cid, name, account, loggedIn;
      this.rank, this.badge, this.guardKey, this.guardCount := 0, [], guardKey, 0;
      this.blocklist, this.open, this.roomID, this.phase := blocklist, true, roomID, Authorized;
      this.x, this.y, this.facing, this.speed := DEFAULT_XY, DEFAULT_XY, DEFAULT_FACING, DEFAULT_SPEED;
      this.transparency, this.hidden := DEFAULT_TRANSPARENCY, false;
      this.sprite, this.spriteIndex, this.sysName := [], DEFAULT_SPRITE_INDEX, [];
      this.flash, this.pictures := None, map[];
    }

    method GetPlacePackets() returns (msgs: seq<S2C>)
      ensures msgs == IntroPlace(State())
    {
      msgs := [];
      if x != DEFAULT_XY || y != DEFAULT_XY {
        msgs := msgs + [MainPlayerPosS2C(cid, x, y)];
      }
      if facing != DEFAULT_FACING {
        msgs := msgs + [FacingS2C(cid, facing)];
      }
      if speed != DEFAULT_SPEED {
        msgs := msgs + [SpeedS2C(cid, speed)];
      }
      msgs := [ConnectS2C(cid, account, rank, loggedIn, badge)] + msgs;
    }

    method GetNamePackets() returns (msgs: seq<S2C>)
      ensures msgs == IntroName(State())
    {
      msgs := [];
      if name != [] {
        msgs := msgs + [NameS2C(cid, name)];
      }
      if spriteIndex != DEFAULT_SPRITE_INDEX && sprite != [] {
        msgs := msgs + [SpriteS2C(cid, sprite, spriteIndex)];
      }
    }

    method GetStylePackets() returns (msgs: seq<S2C>)
      ensures msgs == IntroStyle(State())
    {
      msgs := [];
      if transparency != DEFAULT_TRANSPARENCY {
        msgs := msgs + [TransparencyS2C(cid, transparency)];
      }
      if hidden {
        msgs := msgs + [HiddenS2C(cid, hidden)];
      }
      if sysName != [] {
        msgs := msgs + [SysNameS2C(cid, sysName)];
      }
    }

    /** Packets about everything that differs from what clients assume. */
    method GetIntroMessages() returns (msgs: seq<S2C>)
      ensures IsIntro(msgs, State())
    {
      var place := GetPlacePackets();
      var named := GetNamePackets();
      var style := GetStylePackets();
      msgs := place + named + style;
      if flash.Some? {
        msgs := msgs + [RepeatingFlashS2C(cid, flash.value)];
      }
      assert msgs == IntroHead(State());
      var shows := GetPicturePackets();
      msgs := msgs + shows;
    }

    /** One packet for every active picture, in the order of some traversal of the map. */
    method GetPicturePackets() returns (shows: seq<S2C>)
      ensures exists order :: IsOrder(order, pictures.Keys) && shows == ShowPackets(State(), order)
    {
      shows := [];
      ghost var order: seq<int32> := [];
      var left := pictures.Keys;
      while left != {}
        invariant left <= pictures.Keys && IsOrder(order, pictures.Keys - left) && shows == ShowPackets(State(), order)
        decreases |left|
      {
        var id :| id in left;
        shows := shows + [ShowPictureS2C(cid, pictures[id])];
        order := order + [id];
        left := left - {id};
      }
      assert pictures.Keys - left == pictures.Keys;
    }

    /** Stores what a relayed message says, and makes the packet about it. */
    method Accept(m: C2S) returns (p: S2C)
      requires IsRelay(m)
      modifies this
      ensures State() == RelayData(old(State()), m) && p == RelayPacket(cid, m)
      ensures Stores(old(State()), State(), m)
    {
      RelayStores(State(), m);
      p := Assign(m);
    }

    /** The cases of a relayed message. */
    method Assign(m: C2S) returns (p: S2C)
      requires IsRelay(m)
      modifies this
      ensures State() == RelayData(old(State()), m) && p == RelayPacket(cid, m)
    {
      if m.MainPlayerPosC2S? || m.TeleportC2S? {
        x, y := m.x, m.y;
        p := MainPlayerPosS2C(cid, x, y);
      } else if m.JumpC2S? {
        x, y := m.x, m.y;
        p := JumpS2C(cid, x, y);
      } else if m.SpeedC2S? {
        speed := m.speed;
        p := SpeedS2C(cid, speed);
      } else if m.SpriteC2S? {
        sprite, spriteIndex := m.name, m.index;
        p := SpriteS2C(cid, sprite, spriteIndex);
      } else if m.FacingC2S? {
        facing := m.direction;
        p := FacingS2C(cid, facing);
      } else if m.HiddenC2S? {
        hidden := m.hidden;
        p := HiddenS2C(cid, hidden);
      } else if m.SysNameC2S? {
        sysName := m.name;
        p := SysNameS2C(cid, sysName);
      } else if m.TransparencyC2S? {
        transparency := m.transparency;
        p := TransparencyS2C(cid, transparency);
      } else if m.SoundEffectC2S? {
        p := SoundEffectS2C(cid, m.name, m.volume, m.tempo, m.balance);
      } else if m.FlashC2S? {
        p := FlashS2C(cid, m.flash);
      } else if m.RepeatingFlashC2S? {
        p := RepeatingFlashS2C(cid, m.flash);
      } else if m.RemoveRepeatingFlashC2S? {
        flash := None;
        p := RemoveRepeatingFlashS2C(cid);
      } else {
        p := ShowPlayerBattleAnimS2C(cid, m.animID);
      }
    }

    /** Keeps track of a picture unless it is a one-shot effect. */
    method UpdatePicture(pic: Picture)
      modifies this`pictures
      ensures State() == Stored(old(State()), pic)
    {
      if !pic.playOnce {
        pictures := pictures[pic.base.picID := pic];
      }
    }

    /** Drawn with all that the server has about it. */
    ghost predicate DrawnAs(l: Look)
      reads this
    {
      && l.account == account && l.name == name && l.rank == rank && l.loggedIn == loggedIn && l.badge == badge
      && l.x == x && l.y == y && l.facing == facing && l.speed == speed
      && l.transparency == transparency && l.hidden == hidden
      && l.sprite == sprite && l.spriteIndex == spriteIndex && l.sysName == sysName && l.pictures == pictures
    }

    method OnClose()
      modifies this`open
      ensures !open
    {
      open := false;
    }
  }

  /** A connection. Its view is the fold of all packets handed to it. */
  class User {
    const data: ClientData
    ghost var view: View

    constructor (data: ClientData)
      ensures this.data == data && view == NO_VIEW
    {
      this.data := data;
      view := NO_VIEW;
    }

    /** Queues packets; a send on a closed outbox would panic. */
    method Send(msgs: seq<S2C>)
      requires data.open && Sendable(msgs)
      modifies this`view
      ensures view == ApplyAll(old(view), msgs)
    {
      view := ApplyAll(view, msgs);
    }

    method SendImmediate(msgs: seq<S2C>)
      requires Sendable(msgs)
      modifies this`view
      ensures view == ApplyAll(old(view), msgs)
    {
      view := ApplyAll(view, msgs);
    }
  }

  /** The member list of one map. */
  class Room {
    var members: seq<User>

    constructor ()
      ensures members == []
    {
      members := [];
    }
  }

  /** What is left of a member list without a connection ID. */
  function Kept(members: seq<User>, cid: int32): seq<User> {
    if members == [] then []
    else if members[0].data.cid == cid then Kept(members[1..], cid)
    else [members[0]] + Kept(members[1..], cid)
  }

  lemma {:induction false} KeptIs(members: seq<User>, data: map<User, Player>, cid: int32)
    requires forall m :: m in members ==> m in data && data[m].cid == m.data.cid
    ensures Kept(members, cid) == Without(members, data, cid)
  {
    if members != [] {
      assert members[0] in members && forall m :: m in members[1..] ==> m in members;
      KeptIs(members[1..], data, cid);
    }
  }

  // ---------- Objects and the values they stand for ----------

  ghost function RoomsOf(rooms: map<int32, Room>): map<int32, seq<User>>
    reads rooms.Values`members
  {
    map r | r in rooms :: rooms[r].members
  }

  ghost function DatasOf(conns: set<User>): set<ClientData> { set u | u in conns :: u.data }

  ghost function DataOf(conns: set<User>): map<User, Player>
    reads DatasOf(conns)
  {
    map u | u in conns :: u.data.State()
  }

  ghost function ViewsOf(conns: set<User>): map<User, View>
    reads conns`view
  {
    map u | u in conns :: u.view
  }

  /** No two rooms or connections share their mutable part. */
  ghost predicate Apart(rooms: map<int32, Room>, conns: set<User>) {
    && (forall r, s :: r in rooms && s in rooms && r != s ==> rooms[r] != rooms[s])
    && (forall u, v :: u in conns && v in conns && u != v ==> u.data != v.data)
  }

  class Handler {
    const filters: Filters
    const rooms: map<int32, Room>
    var users: map<Uuid, User>
    var cIDCounter: int
    ghost var conns: set<User>   // every connection ever authorised
    ghost var history: seq<Step<User>>
    ghost var trace: seq<World<User>>

    /** The value that the objects stand for. */
    ghost function Abs(): World<User>
      reads this`users, this`cIDCounter, this`conns, rooms.Values`members, conns`view, DatasOf(conns)
    {
      World(RoomsOf(rooms), users, DataOf(conns), ViewsOf(conns), cIDCounter)
    }

    /** What happened so far is a run of the state machine, and led here. */
    ghost predicate Valid()
      reads this, rooms.Values`members, conns`view, DatasOf(conns)
    {
      && Apart(rooms, conns) && CleanAssets(filters)
      && IsTrace(filters, history, trace) && Abs() == trace[|history|]
    }

    /** Every block-list change so far was guarded. */
    ghost predicate WasGuarded()
      reads this`history
    {
      GuardedRun(filters, Start<User>(filters), history)
    }

    predicate HasRoom(roomID: int32) { roomID in rooms }

    predicate ArePacketsSkippedMap(us: ClientData)
      reads us
    {
      us.roomID in filters.singleplayer
    }

    predicate ArePacketsSkippedPlayer(us: ClientData, them: ClientData)
      reads us, them
      ensures ArePacketsSkippedPlayer(us, them) <==> Skipped(us.State(), them.State())
    {
      us.cid == them.cid || them.account in us.blocklist || us.account in them.blocklist
    }

    // ---------- The value after one object changed ----------

    twostate lemma OneState(u: User)
      requires Apart(rooms, conns) && u in conns
      requires unchanged(this) && unchanged(conns`view) && unchanged(rooms.Values`members)
      requires unchanged(DatasOf(conns) - {u.data})
      ensures Abs() == Put(old(Abs()), u, u.data.State())
    {
      assert ViewsOf(conns) == old(ViewsOf(conns));
      assert RoomsOf(rooms) == old(RoomsOf(rooms));
      assert DataOf(conns) == old(DataOf(conns))[u := u.data.State()];
    }

    twostate lemma OneView(u: User)
      requires u in conns
      requires unchanged(this) && unchanged((conns - {u})`view) && unchanged(rooms.Values`members)
      requires unchanged(DatasOf(conns))
      ensures Abs() == Show(old(Abs()), u, u.view)
    {
      assert DataOf(conns) == old(DataOf(conns));
      assert RoomsOf(rooms) == old(RoomsOf(rooms));
      assert ViewsOf(conns) == old(ViewsOf(conns))[u := u.view];
    }

    twostate lemma OneRoom(r: int32)
      requires Apart(rooms, conns) && r in rooms
      requires unchanged(this) && unchanged(conns`view) && unchanged((rooms.Values - {rooms[r]})`members)
      requires unchanged(DatasOf(conns))
      ensures Abs() == old(Abs()).(rooms := old(Abs()).rooms[r := rooms[r].members])
    {
      assert DataOf(conns) == old(DataOf(conns));
      assert ViewsOf(conns) == old(ViewsOf(conns));
      assert RoomsOf(rooms) == old(RoomsOf(rooms))[r := rooms[r].members];
    }

    twostate lemma OneMore(was: set<User>, new u: User)
      requires old(conns) == was && conns == was + {u} && u !in was && old(users) == users
      requires unchanged(was`view) && unchanged(rooms.Values`members) && unchanged(DatasOf(was))
      ensures var w := old(Abs());
        Abs() == World(w.rooms, w.users, w.data[u := u.data.State()], w.views[u := u.view], cIDCounter)
    {
      assert RoomsOf(rooms) == old(RoomsOf(rooms));
      assert DataOf(conns) == old(DataOf(conns))[u := u.data.State()];
      assert ViewsOf(conns) == old(ViewsOf(conns))[u := u.view];
    }

    twostate lemma OneRegistry()
      requires unchanged(this`conns) && unchanged(this`cIDCounter)
      requires unchanged(conns`view) && unchanged(rooms.Values`members) && unchanged(DatasOf(conns))
      ensures Abs() == old(Abs()).(users := users)
    {
      assert RoomsOf(rooms) == old(RoomsOf(rooms));
      assert DataOf(conns) == old(DataOf(conns));
      assert ViewsOf(conns) == old(ViewsOf(conns));
    }

    twostate lemma OnlyHistory()
      requires unchanged(this`users) && unchanged(this`conns) && unchanged(this`cIDCounter)
      requires unchanged(conns`view) && unchanged(rooms.Values`members) && unchanged(DatasOf(conns))
      ensures Abs() == old(Abs())
    {
      assert RoomsOf(rooms) == old(RoomsOf(rooms));
      assert DataOf(conns) == old(DataOf(conns));
      assert ViewsOf(conns) == old(ViewsOf(conns));
    }

    /** Nothing that the server reads changed. */
    twostate lemma Untouched()
      requires unchanged(this) && unchanged(conns`view) && unchanged(rooms.Values`members) && unchanged(DatasOf(conns))
      ensures Abs() == old(Abs()) && Valid() == old(Valid()) && WasGuarded() == old(WasGuarded())
    {
      OnlyHistory();
    }

    /** One more step of a guarded history. */
    lemma GuardedStep(w: World<User>, s: Step<User>)
      requires IsTrace(filters, history, trace) && w == trace[|history|]
      ensures WasGuarded() && Guarded(filters, w, s) ==> GuardedRun(filters, Start<User>(filters), history + [s])
    {
      if WasGuarded() && Guarded(filters, w, s) {
        TraceIsRun(filters, history, trace);
        GuardedSnoc(filters, Start<User>(filters), history, s);
      }
    }

    /** Adds the step that was just made to the history. */
    ghost method Record(s: Step<User>)
      requires Apart(rooms, conns) && CleanAssets(filters)
      requires IsTrace(filters, history + [s], trace + [Abs()])
      modifies this`history, this`trace
      ensures Valid() && history == old(history) + [s] && Abs() == old(Abs())
    {
      history, trace := history + [s], trace + [Abs()];
      OnlyHistory();
    }

    /** What every run keeps holds here. */
    lemma Served()
      requires Valid()
      ensures ServerOK(filters, Abs())
    {
      TraceIsRun(filters, history, trace);
      StartIsGood<User>(filters);
      RunServer(filters, Start(filters), history);
    }

    /** And if the block-list changes so far were guarded, all screens are right. */
    lemma Shown()
      requires Valid() && WasGuarded() && Faithful(filters, filters.maps)
      ensures ScreensOK(filters, Abs())
    {
      TraceIsRun(filters, history, trace);
      StartIsGood<User>(filters);
      RunAgrees(filters, Start(filters), history);
    }

    /** If the block-list changes so far were guarded, the screen of a player in the game
        shows exactly the players it should see, each as the server has it. */
    lemma ScreensAgree(u: User, v: User)
      requires Valid() && Faithful(filters, filters.maps) && WasGuarded()
      requires u in conns && v in conns && u.data.phase == Live
      ensures u.view.room == u.data.roomID && !u.view.stray
      ensures v.data.cid in u.view.players <==> Visible(filters, Abs(), u, v)
      ensures v.data.cid in u.view.players ==>
        u.view.players[v.data.cid] == LookOf(v.data.State()) && v.data.DrawnAs(u.view.players[v.data.cid])
    {
      var w := Abs();
      TraceIsRun(filters, history, trace);
      ReplicaAgreement(filters, history, u);
      assert At(w, u) == u.data.State() && At(w, v) == v.data.State() && ViewOf(w, u) == u.view;
      StartIsGood<User>(filters);
      RunServer(filters, Start(filters), history);
    }

    // ---------- Sending ----------

    /** Hands packets to one client. */
    method SendTo(m: User, msgs: seq<S2C>)
      requires m in conns && m.data.open && Sendable(msgs)
      modifies m`view
      ensures Abs() == Show(old(Abs()), m, ApplyAll(ViewOf(old(Abs()), m), msgs))
    {
      m.Send(msgs);
      OneView(m);
    }

    /** The loop over a member list. */
    method Deliver(u: User, members: seq<User>, msgs: seq<S2C>)
      requires u in conns && Sendable(msgs) && NoDuplicates(members)
      requires forall m :: m in members ==> m in conns && m.data.open
      modifies conns`view
      ensures Abs() == TellAll(old(Abs()), Unskipped(old(Abs()), u, members), msgs)
    {
      ghost var w := Abs();
      TellNobody(w, Unskipped(w, u, members[..0]), msgs);
      for i := 0 to |members|
        invariant Abs() == TellAll(w, Unskipped(w, u, members[..i]), msgs)
      {
        var m := members[i];
        var skip := ArePacketsSkippedPlayer(u.data, m.data);
        ghost var told := Abs();
        assert At(told, u) == u.data.State() && At(told, m) == m.data.State();
        if !skip {
          SendTo(m, msgs);
        }
        TellOneMore(w, told, Abs(), u, members, i, skip, msgs);
      }
      assert members[..|members|] == members;
    }

    lemma MembersOpen(u: User)
      requires Reachable(Abs(), u) && u in conns
      ensures u.data.roomID in rooms
      ensures var ms := rooms[u.data.roomID].members; NoDuplicates(ms) && forall m :: m in ms ==>
        m in conns && m.data.open
    {
      assert At(Abs(), u) == u.data.State();
      assert Abs().rooms[u.data.roomID] == rooms[u.data.roomID].members;
      forall m | m in rooms[u.data.roomID].members ensures m in conns && m.data.open {
        assert m in Abs().data && Abs().data[m].open;
      }
    }

    /** Sends packets to everyone else in the room. */
    method ShareToRoom(u: User, msgs: seq<S2C>)
      requires Reachable(Abs(), u) && u in conns && Sendable(msgs)
      modifies conns`view
      ensures Abs() == TellAll(old(Abs()), Audience(filters, old(Abs()), u), msgs)
    {
      ghost var w := Abs();
      AudienceIs(filters, w, u);
      assert At(w, u) == u.data.State();
      if ArePacketsSkippedMap(u.data) {
        TellNobody(w, Audience(filters, w, u), msgs);
        return;
      }
      MembersOpen(u);
      Deliver(u, rooms[u.data.roomID].members, msgs);
    }

    method ShareOne(u: User, p: S2C)
      requires Reachable(Abs(), u) && u in conns && CleanS2C(p)
      modifies conns`view
      ensures Abs() == Spec.Share(filters, old(Abs()), u, p)
    {
      TellAllOne(Abs(), Audience(filters, Abs(), u), p);
      ShareToRoom(u, [p]);
    }

    // ---------- Rooms ----------

    /** Takes a user off the list of the room that its data names. */
    method UnsetRoom(m: User)
      requires Apart(rooms, conns) && Structured(Abs()) && m in conns && m.data.roomID in rooms
      modifies rooms[m.data.roomID]
      ensures Abs() == Unset(old(Abs()), m)
    {
      ghost var w := Abs();
      var d := m.data;
      var room := rooms[d.roomID];
      assert At(w, m) == d.State() && w.rooms[d.roomID] == room.members;
      KeptIs(room.members, w.data, d.cid);
      room.members := Kept(room.members, d.cid);
      OneRoom(d.roomID);
    }

    method AddMember(roomID: int32, m: User)
      requires Apart(rooms, conns) && roomID in rooms
      modifies rooms[roomID]
      ensures var w := old(Abs()); Abs() == w.(rooms := w.rooms[roomID := Members(w, roomID) + [m]])
    {
      ghost var w := Abs();
      var room := rooms[roomID];
      assert w.rooms[roomID] == room.members;
      room.members := room.members + [m];
      OneRoom(roomID);
    }

    method SetRoomID(m: User, roomID: int32)
      requires Apart(rooms, conns) && m in conns
      modifies m.data`roomID
      ensures Abs() == Put(old(Abs()), m, At(old(Abs()), m).(roomID := roomID))
    {
      assert At(Abs(), m) == m.data.State();
      m.data.roomID := roomID;
      OneState(m);
    }

    /** Lists a user in a room and nowhere else; this sends no packets. */
    method SetRoom(m: User, roomID: int32)
      requires Apart(rooms, conns) && Structured(Abs()) && m in conns && m.data.roomID in rooms && roomID in rooms
      modifies rooms.Values, m.data`roomID
      ensures Abs() == Enter(old(Abs()), m, roomID)
    {
      UnsetRoom(m);
      AddMember(roomID, m);
      SetRoomID(m, roomID);
    }

    /** The first half of a room change: those who stay behind are told. */
    method Leave(u: User, newID: int32)
      requires Steady(Abs()) && u in conns
      modifies conns`view
      ensures Abs() == Left(filters, old(Abs()), u, newID) && Steady(Abs())
    {
      ghost var w := Abs();
      LeftSteady(filters, w, u, newID);
      SteadyReaches(w, u);
      assert At(w, u) == u.data.State();
      if newID != u.data.roomID {
        ShareOne(u, DisconnectS2C(u.data.cid));
      }
    }

    /** The client clears its screen, then the server moves it. */
    method Arrive(u: User, newID: int32)
      requires Apart(rooms, conns) && Structured(Abs()) && u in conns && newID in rooms
      modifies rooms.Values, u.data`roomID, u`view
      ensures Abs() == Arrived(old(Abs()), u, newID)
    {
      ghost var w := Abs();
      assert At(w, u) == u.data.State() && w.data[u].roomID in w.rooms;
      u.SendImmediate([RoomInfoS2C(newID)]);
      OneView(u);
      ApplyOne(ViewOf(w, u), RoomInfoS2C(newID));
      SetRoom(u, newID);
    }

    /** The same, and what the next packets need. */
    method Settle(u: User, newID: int32)
      requires Apart(rooms, conns) && Steady(Abs()) && u in conns && u.data.open && newID in rooms
      modifies rooms.Values, u.data`roomID, u`view
      ensures Abs() == Arrived(old(Abs()), u, newID) && Steady(Abs()) && At(Abs(), u).open
    {
      ghost var w := Abs();
      assert At(w, u) == u.data.State();
      ArrivedSteady(w, u, newID);
      Arrive(u, newID);
    }

    /** The packets that show the members of a list to u. */
    method Introductions(u: User, members: seq<User>, ghost w: World<User>) returns (msgs: seq<S2C>)
      requires w == Abs() && u in conns && forall m :: m in members ==> m in conns && Introducible(w.data[m])
      ensures Sendable(msgs) && ApplyAll(ViewOf(w, u), msgs) == Meet(ViewOf(w, u), At(w, u), members, w)
    {
      msgs := [];
      ghost var v, d := ViewOf(w, u), At(w, u);
      for i := 0 to |members|
        invariant Sendable(msgs) && ApplyAll(v, msgs) == Meet(v, d, members[..i], w)
        modifies {}
      {
        var m := members[i];
        assert d == u.data.State() && At(w, m) == m.data.State();
        MeetNext(v, d, members, i, w);
        if !ArePacketsSkippedPlayer(u.data, m.data) {
          var intro := m.data.GetIntroMessages();
          MetMember(v, msgs, At(w, m), intro);
          msgs := msgs + intro;
        }
      }
      assert members[..|members|] == members;
    }

    /** The newcomer is shown everyone in its room, unless it is a singleplayer map. */
    method MeetMembers(u: User)
      requires Steady(Abs()) && u in conns && At(Abs(), u).open
      modifies u`view
      ensures Abs() == MetRoom(filters, old(Abs()), u)
    {
      ghost var w := Abs();
      assert At(w, u) == u.data.State() && w.data[u].roomID in w.rooms;
      if !ArePacketsSkippedMap(u.data) {
        var members := rooms[u.data.roomID].members;
        assert members == w.rooms[At(w, u).roomID];
        forall m | m in members ensures m in conns && Introducible(w.data[m]) {
          assert m in w.data;
        }
        var introMsgs := Introductions(u, members, w);
        u.Send(introMsgs);
        OneView(u);
      }
    }

    /** Everyone else in the room is shown the newcomer. */
    method Announce(u: User)
      requires Reachable(Abs(), u) && Introducible(At(Abs(), u)) && u in conns
      modifies conns`view
      ensures Abs() == Announced(filters, old(Abs()), u)
    {
      ghost var w := Abs();
      assert At(w, u) == u.data.State();
      var intro := u.data.GetIntroMessages();
      IntroIsSendable(At(w, u), intro);
      TellAllIntro(w, Audience(filters, w, u), At(w, u), intro);
      assert Abs() == w;
      ShareToRoom(u, intro);
    }

    /** Takes a player out of its room and into another, as far as others and the
        server are concerned. */
    method Move(u: User, newID: int32)
      requires Apart(rooms, conns) && Steady(Abs()) && u in conns && At(Abs(), u).open && newID in rooms
      modifies rooms.Values, u.data`roomID, conns`view
      ensures Abs() == Arrived(Left(filters, old(Abs()), u, newID), u, newID)
      ensures Steady(Abs()) && At(Abs(), u).open
    {
      assert At(Abs(), u) == u.data.State();
      Leave(u, newID);
      Settle(u, newID);
    }

    /** The newcomer and those in the room are shown to each other. */
    method Greet(u: User)
      requires Steady(Abs()) && u in conns && At(Abs(), u).open
      modifies conns`view
      ensures Abs() == Announced(filters, MetRoom(filters, old(Abs()), u), u)
    {
      MetRoomSteady(filters, Abs(), u);
      SteadyReaches(MetRoom(filters, Abs(), u), u);
      MeetMembers(u);
      Announce(u);
    }

    /** The whole transition: leave, arrive, meet those who are there. */
    method ChangeRoom(u: User, newID: int32)
      requires Apart(rooms, conns) && Steady(Abs()) && u in conns && At(Abs(), u).open && newID in rooms
      modifies rooms.Values, u.data`roomID, conns`view
      ensures Abs() == Spec.ChangeRoom(filters, old(Abs()), u, newID)
    {
      Move(u, newID);
      Greet(u);
    }

    // ---------- Messages ----------

    /** Tells the audience about a change that was just made to u. */
    method Share(u: User, ghost w: World<User>, ghost d: Player, p: S2C)
      requires u in conns && Abs() == Put(w, u, d) && Reachable(w, u) && SameIdentity(At(w, u), d) && CleanS2C(p)
      modifies conns`view
      ensures Abs() == Publish(filters, w, u, d, p)
    {
      PutReaches(w, u, d);
      ShareOne(u, p);
    }

    method Accept(u: User, m: C2S) returns (p: S2C)
      requires Apart(rooms, conns) && u in conns && IsRelay(m)
      modifies u.data
      ensures var d := At(old(Abs()), u); Abs() == Put(old(Abs()), u, RelayData(d, m)) && p == RelayPacket(d.cid, m)
    {
      ghost var w, d := Abs(), u.data.State();
      assert At(w, u) == d;
      p := u.data.Accept(m);
      OneState(u);
      assert Abs() == Put(w, u, RelayData(d, m));
    }

    method UpdatePicture(u: User, pic: Picture)
      requires Apart(rooms, conns) && u in conns
      modifies u.data`pictures
      ensures Abs() == Put(old(Abs()), u, Stored(At(old(Abs()), u), pic))
    {
      assert At(Abs(), u) == u.data.State();
      u.data.UpdatePicture(pic);
      OneState(u);
    }

    method DeletePicture(u: User, picID: int32)
      requires Apart(rooms, conns) && u in conns
      modifies u.data`pictures
      ensures Abs() == Put(old(Abs()), u, Erased(At(old(Abs()), u), picID))
    {
      assert At(Abs(), u) == u.data.State();
      u.data.pictures := u.data.pictures - {picID};
      OneState(u);
    }

    method Relay(u: User, m: C2S)
      requires Apart(rooms, conns) && Reachable(Abs(), u) && u in conns && IsRelay(m) && CleanC2S(m)
      modifies u.data, conns`view
      ensures var w := old(Abs()); Abs() == Publish(filters, w, u, RelayData(At(w, u), m), RelayPacket(At(w, u).cid, m))
    {
      ghost var w := Abs();
      RelayIsSendable(At(w, u), m);
      var p := Accept(u, m);
      Share(u, w, RelayData(At(w, u), m), p);
    }

    method RemovePicture(u: User, picID: int32)
      requires Apart(rooms, conns) && Reachable(Abs(), u) && u in conns
      modifies u.data`pictures, conns`view
      ensures Abs() == Spec.RemovePicture(filters, old(Abs()), u, picID)
    {
      ghost var w, d := Abs(), Erased(u.data.State(), picID);
      assert At(w, u) == u.data.State();
      DeletePicture(u, picID);
      assert Abs() == Put(w, u, d);
      Share(u, w, d, ErasePictureS2C(u.data.cid, picID));
    }

    method StorePicture(u: User, pic: Picture)
      requires Apart(rooms, conns) && Reachable(Abs(), u) && u in conns && Clean(pic.picName)
      modifies u.data`pictures, conns`view
      ensures var w := old(Abs());
        Abs() == Publish(filters, w, u, Stored(At(w, u), pic), ShowPictureS2C(At(w, u).cid, pic))
    {
      ghost var w, d := Abs(), Stored(u.data.State(), pic);
      var p := ShowPictureS2C(u.data.cid, pic);
      assert At(w, u) == u.data.State();
      UpdatePicture(u, pic);
      assert Abs() == Put(w, u, d);
      Share(u, w, d, p);
    }

    /** A picture takes the place of the one with its ID. */
    method ShowPicture(u: User, pic: Picture)
      requires Apart(rooms, conns) && Reachable(Abs(), u) && u in conns && Clean(pic.picName)
      modifies u.data`pictures, conns`view
      ensures Abs() == Spec.ShowPicture(filters, old(Abs()), u, pic)
    {
      assert At(Abs(), u) == u.data.State();
      if pic.base.picID in u.data.pictures {
        RemovedReaches(filters, Abs(), u, pic.base.picID);
        RemovePicture(u, pic.base.picID);
      }
      StorePicture(u, pic);
    }

    /** Overwrites the base of a stored picture; one that is not stored is ignored. */
    method MovePicture(u: User, base: BasePicture, duration: int32)
      requires Apart(rooms, conns) && Reachable(Abs(), u) && u in conns
      modifies u.data`pictures, conns`view
      ensures Abs() == Spec.MovePicture(filters, old(Abs()), u, base, duration)
    {
      ghost var w := Abs();
      assert At(w, u) == u.data.State();
      if base.picID !in u.data.pictures {
        return;
      }
      ghost var d := Moved(At(w, u), base);
      OverwriteBase(u, base);
      Share(u, w, d, MovePictureS2C(u.data.cid, base, duration));
    }

    method OverwriteBase(u: User, base: BasePicture)
      requires Apart(rooms, conns) && u in conns && base.picID in u.data.pictures
      modifies u.data`pictures
      ensures var w := old(Abs()); base.picID in At(w, u).pictures && Abs() == Put(w, u, Moved(At(w, u), base))
    {
      assert At(Abs(), u) == u.data.State();
      ghost var before := u.data.pictures;
      var pic := u.data.pictures[base.picID].(base := base);
      u.data.pictures := u.data.pictures[base.picID := pic];
      u.data.UpdatePicture(pic);
      assert u.data.pictures == before[base.picID := pic];
      OneState(u);
    }

    method ErasePicture(u: User, picID: int32)
      requires Apart(rooms, conns) && Reachable(Abs(), u) && u in conns
      modifies u.data`pictures, conns`view
      ensures Abs() == Spec.ErasePicture(filters, old(Abs()), u, picID)
    {
      assert At(Abs(), u) == u.data.State();
      if picID in u.data.pictures {
        RemovePicture(u, picID);
      }
    }

    /** The picture messages. */
    method ProcessPicture(u: User, m: C2S)
      requires Apart(rooms, conns) && Reachable(Abs(), u) && u in conns
      requires !IsRelay(m) && !m.SwitchRoomC2S? && CleanC2S(m)
      modifies u.data`pictures, conns`view
      ensures Abs() == Spec.ProcessPicture(filters, old(Abs()), u, m)
    {
      if m.ShowPictureC2S? {
        ShowPicture(u, m.picture);
      } else if m.MovePictureC2S? {
        MovePicture(u, m.base, m.duration);
      } else {
        ErasePicture(u, m.picID);
      }
    }

    /** The cases of a message. */
    method Dispatch(u: User, m: C2S)
      requires Apart(rooms, conns) && Steady(Abs()) && u in conns && At(Abs(), u).open
      requires Processable(Abs(), m) && CleanC2S(m)
      modifies rooms.Values, u.data, conns`view
      ensures Abs() == Process(filters, old(Abs()), u, m)
    {
      if m.SwitchRoomC2S? {
        assert m.roomID in rooms;
        ChangeRoom(u, m.roomID);
        return;
      }
      SteadyReaches(Abs(), u);
      if IsRelay(m) {
        Relay(u, m);
      } else {
        ProcessPicture(u, m);
      }
    }

    /** Applies one message of a player in a room: it moves the player to the room that it
        names, or is stored and relayed as it says. */
    method ProcessMessage(u: User, m: C2S)
      requires Apart(rooms, conns) && Steady(Abs()) && u in conns && At(Abs(), u).open
      requires Processable(Abs(), m) && CleanC2S(m)
      modifies rooms.Values, u.data, conns`view
      ensures Abs() == Process(filters, old(Abs()), u, m)
      ensures Present(old(Abs()), u) ==> m.SwitchRoomC2S? || Relayed(filters, old(Abs()), Abs(), u, m)
      ensures !m.SwitchRoomC2S? || RoomChanged(filters, old(Abs()), Abs(), u, m.roomID)
    {
      ghost var w := Abs();
      Dispatch(u, m);
      SwitchMoves(filters, w, Abs(), u, m);
      ProcessRelays(filters, w, Abs(), u, m);
    }

    // ---------- Packets ----------

    method ValidateAll(msgs: seq<C2S>) returns (ok: bool)
      ensures Abs() == old(Abs()) && (ok <==> AllAcceptable(filters, rooms.Keys, msgs))
      ensures ok <==> AllLegitimate(filters, rooms.Keys, msgs)
    {
      AllAcceptableIs(filters, rooms.Keys, msgs);
      for i := 0 to |msgs|
        invariant forall m :: m in msgs[..i] ==> Acceptable(filters, rooms.Keys, m)
        modifies {}
      {
        assert msgs[..i + 1] == msgs[..i] + [msgs[i]];
        if ValidateMessage(filters, rooms.Keys, msgs[i]).Some? {
          assert msgs[i] in msgs;
          return false;
        }
      }
      assert msgs[..|msgs|] == msgs;
      ok := true;
    }

    method ProcessMessages(u: User, msgs: seq<C2S>, ghost w: World<User>)
      requires Apart(rooms, conns) && Abs() == w && CanProcess(filters, w, u, msgs) && u in conns
      modifies rooms.Values, u.data, conns`view
      ensures Abs() == ProcessAll(filters, w, u, msgs)
    {
      assert msgs[..0] == [];
      for i := 0 to |msgs|
        invariant Abs() == ProcessAll(filters, w, u, msgs[..i])
      {
        assert NextReady(filters, w, u, msgs, i);
        ProcessOneMore(filters, w, u, msgs, i);
        ProcessMessage(u, msgs[i]);
      }
      assert msgs[..|msgs|] == msgs;
    }

    method SetGuardCount(u: User, count: uint32)
      requires Apart(rooms, conns) && u in conns
      modifies u.data`guardCount
      ensures Abs() == Put(old(Abs()), u, Counted(At(old(Abs()), u), count))
    {
      assert At(Abs(), u) == u.data.State();
      u.data.guardCount := count;
      OneState(u);
    }

    /** Validates everything first, so that a packet is applied entirely or not at all. */
    method ApplyPacket(u: User, msgs: seq<C2S>, ghost w: World<User>)
      requires Apart(rooms, conns) && Abs() == w && u in conns
      requires Sound(filters, w, u, msgs)
      modifies rooms.Values, u.data, conns`view
      ensures Abs() == if AllAcceptable(filters, w.rooms.Keys, msgs) then ProcessAll(filters, w, u, msgs) else w
    {
      assert w.rooms.Keys == rooms.Keys;
      var ok := ValidateAll(msgs);
      if ok {
        ProcessMessages(u, msgs, w);
      }
    }

    /** A packet whose counter moved on. */
    method HandleCounted(u: User, count: uint32, parsed: Option<seq<C2S>>)
      requires Apart(rooms, conns) && u in conns
      requires parsed.Some? ==> Sound(filters, Put(Abs(), u, Counted(At(Abs(), u), count)), u, parsed.value)
      modifies rooms.Values, u.data, conns`view
      ensures Abs() == CountedPacket(filters, old(Abs()), u, count, parsed)
    {
      ghost var counted := Put(Abs(), u, Counted(At(Abs(), u), count));
      SetGuardCount(u, count);
      if parsed.Some? {
        ApplyPacket(u, parsed.value, counted);
      }
    }

    /** A packet whose hash was verified or not, with what its bytes parse to. */
    method HandlePacket(u: User, verified: bool, count: uint32, parsed: Option<seq<C2S>>)
      requires Apart(rooms, conns) && ServerOK(filters, Abs()) && InGame(Abs(), u)
      requires parsed.Some? ==> AllClean(parsed.value)
      modifies rooms.Values, u.data, conns`view
      ensures Abs() == Packet(filters, old(Abs()), u, verified, count, parsed)
    {
      assert At(Abs(), u) == u.data.State();
      if verified && count > u.data.guardCount {
        if parsed.Some? {
          CountedIsSound(filters, Abs(), u, count, parsed.value);
        }
        HandleCounted(u, count, parsed);
      }
    }

    // ---------- Connections ----------

    /** Lets a connection in, unless its room is unknown or its account connected. */
    method Admit(roomID: int32, name: Bytes, account: Uuid, loggedIn: bool, guardKey: uint32, blocklist: set<Uuid>)
        returns (r: Option<User>)
      requires Apart(rooms, conns) && 0 <= cIDCounter < 0x7fff_ffff
      modifies this`cIDCounter, this`conns
      ensures r.None? <==> roomID !in rooms || account in users
      ensures r.None? ==> Abs() == old(Abs()) && conns == old(conns)
      ensures Apart(rooms, conns)
      ensures r.Some? ==> fresh(r.value) && fresh(r.value.data) && conns == old(conns) + {r.value}
      ensures r.Some? ==>
        Abs() == Spec.Authorize(old(Abs()), r.value,
                                NewPlayer(old(cIDCounter) + 1, name, account, loggedIn, guardKey, roomID, blocklist))
      ensures r.None? ||
        r.value.data.StartsAs(old(cIDCounter) + 1, name, account, loggedIn, guardKey, roomID, blocklist)
    {
      if !HasRoom(roomID) || account in users {
        return None;
      }
      ghost var was := conns;
      cIDCounter := cIDCounter + 1;
      var d := new ClientData(cIDCounter, name, account, loggedIn, guardKey, roomID, blocklist);
      var u := new User(d);
      conns := conns + {u};
      OneMore(was, u);
      r := Some(u);
    }

    /** A connection that was let in twice for one account is closed early. */
    method Refuse(u: User)
      requires Apart(rooms, conns) && u in conns
      modifies u.data`phase
      ensures Abs() == Put(old(Abs()), u, At(old(Abs()), u).(phase := Refused))
    {
      assert At(Abs(), u) == u.data.State();
      u.data.phase := Refused;
      OneState(u);
    }

    method Register(u: User)
      requires u in conns
      modifies this`users
      ensures Abs() == old(Abs()).(users := old(users)[u.data.account := u])
    {
      users := users[u.data.account := u];
      OneRegistry();
    }

    method Enlist(u: User)
      requires Apart(rooms, conns) && u in conns
      modifies this`users, u.data`phase
      ensures var w := old(Abs()); var d := At(w, u);
        Abs() == w.(users := w.users[d.account := u], data := w.data[u := d.(phase := Live)])
    {
      assert At(Abs(), u) == u.data.State();
      u.data.phase := Live;
      OneState(u);
      Register(u);
    }

    method GetInitialPackets(d: ClientData) returns (initial: seq<S2C>)
      ensures Abs() == old(Abs()) && initial == InitialPackets(filters, d.State())
    {
      initial := [SyncPlayerDataS2C(d.cid, d.guardKey, d.account, d.rank, d.loggedIn, d.badge)];
      if |filters.pictureNames| != 0 {
        initial := initial + [PictureSyncListS2C(0, filters.pictureNames)];
      }
      if |filters.picturePrefixes| != 0 {
        initial := initial + [PictureSyncListS2C(1, filters.picturePrefixes)];
      }
      if |filters.battleAnimIDs| != 0 {
        initial := initial + [BattleAnimSyncListS2C(filters.battleAnimIDs)];
      }
    }

    method SendInitial(u: User, ghost d: Player)
      requires u in conns && u.data.State() == d && CleanAssets(filters) && Clean(d.badge)
      modifies u`view
      ensures Abs() == Show(old(Abs()), u, ApplyAll(ViewOf(old(Abs()), u), InitialPackets(filters, d)))
    {
      InitialIsSendable(filters, d);
      ghost var w := Abs();
      var initial := GetInitialPackets(u.data);
      label packed:
      u.SendImmediate(initial);
      OneView@packed(u);
    }

    /** Puts a connection in the registry and sends it what it needs at first. */
    method Enroll(u: User)
      requires Apart(rooms, conns) && u in conns && CleanAssets(filters) && Clean(At(Abs(), u).badge)
      modifies this`users, u.data`phase, u`view
      ensures Abs() == Registered(filters, old(Abs()), u)
    {
      ghost var d := At(Abs(), u);
      Enlist(u);
      assert At(Abs(), u) == u.data.State();
      SendInitial(u, d.(phase := Live));
    }

    method OpenNew(u: User)
      requires Apart(rooms, conns) && u in conns && CleanAssets(filters) && Clean(At(Abs(), u).badge)
      requires At(Abs(), u).account !in users && At(Abs(), u).roomID in rooms
      requires Steady(Registered(filters, Abs(), u)) && At(Registered(filters, Abs(), u), u).open
      modifies this`users, rooms.Values, u.data, conns`view
      ensures Abs() == Open(filters, old(Abs()), u)
    {
      assert At(Abs(), u) == u.data.State();
      Enroll(u);
      ChangeRoom(u, u.data.roomID);
    }

    method Join(u: User)
      requires Apart(rooms, conns) && CleanAssets(filters) && ServerOK(filters, Abs())
      requires u in conns && At(Abs(), u).phase == Authorized
      modifies this`users, rooms.Values, u.data, conns`view
      ensures Abs() == Open(filters, old(Abs()), u)
    {
      ghost var w := Abs();
      assert At(w, u) == u.data.State() && w.data[u].roomID in w.rooms;
      if u.data.account in users {
        Refuse(u);
      } else {
        RegisteredSteady(filters, w, u);
        OpenNew(u);
      }
    }

    /** Only if it is this connection: one that was closed early was never added. */
    method Unregister(u: User)
      requires u in conns
      modifies this`users
      ensures var w, a := old(Abs()), u.data.account;
        Abs() == w.(users := if a in w.users && w.users[a] == u then w.users - {a} else w.users)
    {
      if u.data.account in users && users[u.data.account] == u {
        users := users - {u.data.account};
      }
      OneRegistry();
    }

    method CloseOutbox(u: User)
      requires Apart(rooms, conns) && u in conns
      modifies u.data`open, u.data`phase
      ensures Abs() == Put(old(Abs()), u, At(old(Abs()), u).(phase := Gone, open := false)) && !u.data.open
    {
      ghost var d := u.data.State();
      assert At(Abs(), u) == d;
      u.data.OnClose();
      u.data.phase := Gone;
      assert u.data.State() == d.(phase := Gone, open := false);
      OneState(u);
    }

    /** Takes a connection out of its room and out of the registry; its outbox is
        closed only then, so that nothing sends to a closed channel. */
    method Deregister(u: User)
      requires Apart(rooms, conns) && Structured(Abs()) && u in conns && u.data.roomID in rooms
      modifies this`users, rooms.Values, u.data`open, u.data`phase
      ensures Abs() == Deregistered(old(Abs()), u) && !u.data.open
    {
      ghost var w := Abs();
      assert At(w, u) == u.data.State();
      UnsetRoom(u);
      ghost var w1 := Abs();
      Unregister(u);
      ghost var w2 := Abs();
      assert w1 == Unset(w, u) && w2.data == w1.data && w2.rooms == w1.rooms && w2.views == w1.views;
      CloseOutbox(u);
    }

    method Farewell(u: User)
      requires Apart(rooms, conns) && Structured(Abs()) && u in conns && Reachable(Deregistered(Abs(), u), u)
      modifies this`users, rooms.Values, u.data, conns`view
      ensures Abs() == Close(filters, old(Abs()), u) && !u.data.open
    {
      assert At(Abs(), u) == u.data.State() && Abs().data[u].roomID in Abs().rooms;
      Deregister(u);
      ShareOne(u, DisconnectS2C(u.data.cid));
    }

    // ---------- Block lists ----------

    method IntroduceTo(to: User, about: User)
      requires to in conns && about in conns && to.data.open && Introducible(At(Abs(), about))
      modifies to`view
      ensures var w := old(Abs()); Abs() == Show(w, to, Introduce(ViewOf(w, to), At(w, about)))
    {
      ghost var w := Abs();
      assert At(w, about) == about.data.State();
      var intro := about.data.GetIntroMessages();
      IntroIsSendable(At(w, about), intro);
      IntroFold(ViewOf(w, to), At(w, about), intro);
      assert Abs() == w;
      SendTo(to, intro);
    }

    method DisconnectFor(to: User, about: User)
      requires to in conns && about in conns && to.data.open
      modifies to`view
      ensures var w := old(Abs()); Abs() == Show(w, to, Apply(ViewOf(w, to), DisconnectS2C(At(w, about).cid)))
    {
      ApplyOne(ViewOf(Abs(), to), DisconnectS2C(about.data.cid));
      SendTo(to, [DisconnectS2C(about.data.cid)]);
    }

    /** Sends packets to the two players, each about the other. */
    method SendBoth(us: User, them: User, hiding: bool)
      requires Meetable(Abs(), us) && Meetable(Abs(), them)
      modifies us`view, them`view
      ensures Abs() == Exchange(old(Abs()), us, {them}, hiding)
    {
      ghost var w := Abs();
      assert At(w, us) == us.data.State() && At(w, them) == them.data.State();
      if hiding {
        DisconnectFor(us, them);
        DisconnectFor(them, us);
        HideOne(w, us, them);
      } else {
        IntroduceTo(us, them);
        IntroduceTo(them, us);
        ShowOne(w, us, them);
      }
    }

    /** Sends packets to the two players if the account is online and in the same room. */
    method SendToAccount(us: User, themID: Uuid, hiding: bool)
      requires OnlineMeetable(Abs(), us)
      modifies conns`view
      ensures Abs() == Exchange(old(Abs()), us, Roommates(old(Abs()), us, {themID}), hiding)
    {
      ghost var w := Abs();
      RoommatesOneMore(w, us, {}, themID);
      assert {} + {themID} == {themID} && Roommates(w, us, {}) == {};
      if themID !in users {
        ExchangeNobody(w, us, Roommates(w, us, {themID}), hiding);
        return;
      }
      var them := users[themID];
      assert Meetable(w, them) && At(w, them) == them.data.State() && At(w, us) == us.data.State();
      if us.data.roomID == them.data.roomID {
        assert Roommates(w, us, {themID}) == {them};
        SendBoth(us, them, hiding);
      } else {
        ExchangeNobody(w, us, Roommates(w, us, {themID}), hiding);
      }
    }

    /** Sends packets to us and to everyone online and in the same room who is in the
        first list but not in the second. */
    method SendToListDifferences(us: User, first: set<Uuid>, second: set<Uuid>, hiding: bool)
      requires OnlineMeetable(Abs(), us)
      modifies conns`view
      ensures Abs() == Exchange(old(Abs()), us, Roommates(old(Abs()), us, first - second), hiding)
    {
      ghost var w := Abs();
      var left := first;
      assert Roommates(w, us, first - left - second) == {};
      ExchangeNobody(w, us, Roommates(w, us, first - left - second), hiding);
      while left != {}
        invariant left <= first && Abs() == Exchange(w, us, Roommates(w, us, first - left - second), hiding)
      {
        var themID :| themID in left;
        ghost var done := first - left - second;
        ListProgress(first, left, second, themID);
        left := left - {themID};
        if themID !in second {
          ghost var w1 := Abs();
          ExchangeKeepsMeetable(w, us, Roommates(w, us, done), hiding);
          SendToAccount(us, themID, hiding);
          ExchangeAccount(w, w1, Abs(), us, done, themID, hiding);
        }
      }
      assert first - left - second == first - second;
    }

    method SetBlocklist(u: User, blocked: set<Uuid>)
      requires Apart(rooms, conns) && u in conns
      modifies u.data`blocklist
      ensures Abs() == Put(old(Abs()), u, At(old(Abs()), u).(blocklist := blocked))
    {
      assert At(Abs(), u) == u.data.State();
      u.data.blocklist := blocked;
      OneState(u);
    }

    /** Disconnections and then connections, still under the old list. */
    method Redraw(us: User, blocklistNew: set<Uuid>)
      requires OnlineMeetable(Abs(), us)
      modifies conns`view
      ensures var w := old(Abs()); var before := At(w, us).blocklist;
        Abs() == ShowTo(HideFrom(w, us, Roommates(w, us, blocklistNew - before)),
          us, Roommates(w, us, before - blocklistNew))
    {
      ghost var w := Abs();
      assert At(w, us) == us.data.State();
      ghost var hidden := Roommates(w, us, blocklistNew - us.data.blocklist);
      ExchangeKeepsMeetable(w, us, hidden, true);
      ExchangeKeepsRoommates(w, us, hidden, us.data.blocklist - blocklistNew, true);
      SendToListDifferences(us, blocklistNew, us.data.blocklist, true);
      SendToListDifferences(us, us.data.blocklist, blocklistNew, false);
    }

    /** Replaces a user's block list, showing and hiding players as needed. */
    method ReplaceBlockList(account: Uuid, blocklistNew: set<Uuid>)
      requires Apart(rooms, conns) && ServerOK(filters, Abs())
      modifies conns`view, DatasOf(conns)
      ensures Abs() == Spec.UpdateBlockList(old(Abs()), account, blocklistNew)
    {
      if account !in users {
        return;
      }
      var us := users[account];
      ServerIsMeetable(filters, Abs(), account);
      Redraw(us, blocklistNew);
      SetBlocklist(us, blocklistNew);
    }

    // ---------- Event handlers ----------

    // Each is a step as a value, then its record

    method OpenStep(u: User)
      requires Valid() && Possible(Abs(), Opening(u))
      modifies this`users, rooms.Values, u.data, conns`view
      ensures Abs() == Next(filters, old(Abs()), Opening(u))
    {
      Served();
      Join(u);
    }

    method OnOpen(u: User)
      requires Valid() && Possible(Abs(), Opening(u))
      modifies this`users, this`history, this`trace, rooms.Values, u.data, conns`view
      ensures Valid() && (old(WasGuarded()) ==> WasGuarded())
      ensures history == old(history) + [Opening(u)] && Abs() == Next(filters, old(Abs()), Opening(u))
    {
      OpenStep(u);
      TraceSnoc(filters, history, trace, Opening(u), Abs());
      GuardedStep(trace[|history|], Opening(u));
      Record(Opening(u));
    }

    method PacketStep(u: User, verified: bool, count: uint32, parsed: Option<seq<C2S>>)
      requires Valid() && Possible(Abs(), Receiving(u, verified, count, parsed))
      modifies rooms.Values, u.data, conns`view
      ensures Abs() == Next(filters, old(Abs()), Receiving(u, verified, count, parsed))
    {
      Served();
      HandlePacket(u, verified, count, parsed);
    }

    method OnPacket(u: User, verified: bool, count: uint32, parsed: Option<seq<C2S>>)
      requires Valid() && Possible(Abs(), Receiving(u, verified, count, parsed))
      modifies this`history, this`trace, rooms.Values, u.data, conns`view
      ensures Valid() && (old(WasGuarded()) ==> WasGuarded())
      ensures history == old(history) + [Receiving(u, verified, count, parsed)]
      ensures Abs() == Packet(filters, old(Abs()), u, verified, count, parsed)
    {
      PacketStep(u, verified, count, parsed);
      TraceSnoc(filters, history, trace, Receiving(u, verified, count, parsed), Abs());
      GuardedStep(trace[|history|], Receiving(u, verified, count, parsed));
      Record(Receiving(u, verified, count, parsed));
    }

    method CloseStep(u: User)
      requires Valid() && Possible(Abs(), Closing(u))
      modifies this`users, rooms.Values, u.data, conns`view
      ensures Abs() == Next(filters, old(Abs()), Closing(u)) && !u.data.open
    {
      Served();
      DeregisteredReaches(filters, Abs(), u);
      Farewell(u);
    }

    method OnClose(u: User)
      requires Valid() && Possible(Abs(), Closing(u))
      modifies this`users, this`history, this`trace, rooms.Values, u.data, conns`view
      ensures Valid() && (old(WasGuarded()) ==> WasGuarded())
      ensures history == old(history) + [Closing(u)] && Abs() == Next(filters, old(Abs()), Closing(u))
      ensures !u.data.open
    {
      CloseStep(u);
      TraceSnoc(filters, history, trace, Closing(u), Abs());
      GuardedStep(trace[|history|], Closing(u));
      Record(Closing(u));
    }

    method BlockStep(account: Uuid, blocklistNew: set<Uuid>)
      requires Valid()
      modifies conns`view, DatasOf(conns)
      ensures Abs() == Next(filters, old(Abs()), Blocking(account, blocklistNew))
    {
      Served();
      ReplaceBlockList(account, blocklistNew);
    }

    method UpdateBlockList(account: Uuid, blocked: seq<Uuid>)
      requires Valid()
      modifies this`history, this`trace, conns`view, DatasOf(conns)
      ensures Valid() && history == old(history) + [Blocking(account, set a | a in blocked)]
      ensures old(WasGuarded()) && Guarded(filters, old(Abs()), Blocking(account, set a | a in blocked)) ==>
        WasGuarded()
      ensures Abs() == Spec.UpdateBlockList(old(Abs()), account, set a | a in blocked)
    {
      var blocklistNew := set a | a in blocked;
      BlockStep(account, blocklistNew);
      TraceSnoc(filters, history, trace, Blocking(account, blocklistNew), Abs());
      GuardedStep(trace[|history|], Blocking(account, blocklistNew));
      Record(Blocking(account, blocklistNew));
    }

    method AuthorizeStep(roomID: int32, name: Bytes, account: Uuid, loggedIn: bool, guardKey: uint32,
        blocklist: set<Uuid>)
        returns (r: Option<User>, ghost d: Player)
      requires Valid() && Clean(name) && cIDCounter < 0x7fff_ffff
      modifies this`cIDCounter, this`conns
      ensures r.None? <==> roomID !in rooms || account in users
      ensures r.None? ==> Abs() == old(Abs()) && conns == old(conns)
      ensures Apart(rooms, conns)
      ensures r.Some? ==> fresh(r.value) && fresh(r.value.data) && conns == old(conns) + {r.value}
      ensures r.Some? ==>
        IsStep(filters, old(Abs()), Authorizing(r.value, d), Abs()) && Possible(Abs(), Opening(r.value))
      ensures 0 <= old(cIDCounter)
      ensures d == NewPlayer(old(cIDCounter) + 1, name, account, loggedIn, guardKey, roomID, blocklist)
      ensures r.None? || r.value.data.StartsAs(d.cid, name, account, loggedIn, guardKey, roomID, blocklist)
    {
      Served();
      d := NewPlayer(cIDCounter + 1, name, account, loggedIn, guardKey, roomID, blocklist);
      r := Admit(roomID, name, account, loggedIn, guardKey, blocklist);
    }

    /** Refuses an unknown room and a connected account; otherwise makes the data d of a
        connection, which can be opened next. */
    method Authorize(roomID: int32, name: Bytes, account: Uuid, loggedIn: bool, guardKey: uint32, blocklist: set<Uuid>)
        returns (r: Option<User>, ghost d: Player)
      requires Valid() && Clean(name) && cIDCounter < 0x7fff_ffff
      modifies this`cIDCounter, this`conns, this`history, this`trace
      ensures Valid() && 0 <= old(cIDCounter) && (old(WasGuarded()) ==> WasGuarded())
      ensures r.None? <==> roomID !in rooms || account in old(users)
      ensures d == NewPlayer(old(cIDCounter) + 1, name, account, loggedIn, guardKey, roomID, blocklist)
      ensures r.None? ==> Abs() == old(Abs()) && conns == old(conns) && history == old(history)
      ensures r.Some? ==> fresh(r.value) && fresh(r.value.data) && conns == old(conns) + {r.value}
      ensures r.Some? ==> history == old(history) + [Authorizing(r.value, d)]
      ensures r.None? ||
        r.value.data.StartsAs(old(cIDCounter) + 1, name, account, loggedIn, guardKey, roomID, blocklist)
      ensures r.Some? ==>
        Abs() == Next(filters, old(Abs()), Authorizing(r.value, d)) && Possible(Abs(), Opening(r.value))
    {
      r, d := AuthorizeStep(roomID, name, account, loggedIn, guardKey, blocklist);
      if r.Some? {
        TraceSnoc(filters, history, trace, Authorizing(r.value, d), Abs());
        GuardedStep(trace[|history|], Authorizing(r.value, d));
        Record(Authorizing(r.value, d));
      }
    }

    /** The accounts of everyone in the same room as an account, including itself. */
    method GetRoommates(account: Uuid) returns (roommates: Option<set<Uuid>>)
      requires Structured(Abs())
      ensures roommates == RoommatesOf(filters, old(Abs()), account)
    {
      if account !in users {
        return None;
      }
      var us := users[account];
      ghost var w := Abs();
      assert us in w.data && At(w, us) == us.data.State() && w.data[us].roomID in w.rooms;
      var mates := {us.data.account};
      if ArePacketsSkippedMap(us.data) {
        return Some(mates);
      }
      var members := rooms[us.data.roomID].members;
      assert members == w.rooms[us.data.roomID];
      for i := 0 to |members|
        invariant mates == {At(w, us).account} + AccountsOf(w, members[..i])
        modifies {}
      {
        assert members[i] in members && At(w, members[i]) == members[i].data.State();
        assert members[..i + 1] == members[..i] + [members[i]];
        mates := mates + {members[i].data.account};
      }
      assert members[..|members|] == members;
      roommates := Some(mates);
    }

    /** Every map of the game becomes an empty room. */
    constructor (filters: Filters)
      requires CleanAssets(filters)
      ensures this.filters == filters && Valid() && history == [] && conns == {} && Abs() == Start(filters)
      ensures WasGuarded() && rooms.Keys == filters.maps && forall r :: r in rooms ==> fresh(rooms[r])
    {
      var made: map<int32, Room> := map[];
      var left := filters.maps;
      while left != {}
        invariant left <= filters.maps && made.Keys == filters.maps - left
        invariant forall r :: r in made ==> fresh(made[r]) && made[r].members == []
        invariant Apart(made, {})
      {
        var roomID :| roomID in left;
        left := left - {roomID};
        var room := new Room();
        made := made[roomID := room];
      }
      this.filters, this.rooms, this.users, this.cIDCounter := filters, made, map[], 0;
      this.conns, this.history, this.trace := {}, [], [Start(filters)];
      new;
      assert Abs() == Start<User>(filters);
    }
  }
}
