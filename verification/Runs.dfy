/** Whole runs of the room engine. */
module Runs {
  import opened Basics
  import opened Packets
  import opened Validate
  import opened Views
  import opened World
  import opened Agreement
  import opened RoomChange
  import opened Engine
  import opened Lifecycle
  import opened BlockLists

  datatype Step<U> =
    | Authorizing(u: U, d: Player)
    | Opening(u: U)
    | Receiving(u: U, verified: bool, count: uint32, parsed: Option<seq<C2S>>)
    | Closing(u: U)
    | Blocking(account: Uuid, blocked: set<Uuid>)

  ghost function Next<U>(f: Filters, w: World<U>, s: Step<U>): World<U> {
    match s
    case Authorizing(u, d) => Authorize(w, u, d)
    case Opening(u) => Open(f, w, u)
    case Receiving(u, verified, count, parsed) => Packet(f, w, u, verified, count, parsed)
    case Closing(u) => Close(f, w, u)
    case Blocking(account, blocked) => UpdateBlockList(w, account, blocked)
  }

  /** A connection is authorised, opened and closed once and in that order, and only
      a connection that was not refused sends packets. */
  ghost predicate Possible<U>(w: World<U>, s: Step<U>) {
    match s
    case Authorizing(u, d) => u !in w.data && IsNew(w, d)
    case Opening(u) => u in w.data && At(w, u).phase == Authorized
    case Receiving(u, _, _, parsed) => InGame(w, u) && (parsed.Some? ==> AllClean(parsed.value))
    case Closing(u) => u in w.data && (At(w, u).phase == Live || At(w, u).phase == Refused)
    case Blocking(_, _) => true
  }

  /** What a caller that changes a block list would have to check first. */
  ghost predicate Guarded<U>(f: Filters, w: World<U>, s: Step<U>) {
    s.Blocking? && s.account in w.users ==>
      AllShowable(f, w, w.users[s.account], NewlyUnblocked(w, w.users[s.account], s.blocked))
  }

  ghost predicate PossibleRun<U>(f: Filters, w: World<U>, steps: seq<Step<U>>)
    decreases steps
  {
    steps == [] || (Possible(w, steps[0]) && PossibleRun(f, Next(f, w, steps[0]), steps[1..]))
  }

  ghost predicate GuardedRun<U>(f: Filters, w: World<U>, steps: seq<Step<U>>)
    decreases steps
  {
    steps == [] || (Guarded(f, w, steps[0]) && GuardedRun(f, Next(f, w, steps[0]), steps[1..]))
  }

  ghost function Run<U>(f: Filters, w: World<U>, steps: seq<Step<U>>): World<U>
    decreases steps
  {
    if steps == [] then w else Run(f, Next(f, w, steps[0]), steps[1..])
  }

  /** A server that just started: every map of the game is an empty room. */
  ghost function Start<U>(f: Filters): World<U> { World(map r | r in f.maps :: [], map[], map[], map[], 0) }

  // ---------- Replica agreement ----------

  /** The server stays in order whatever happens, and with guarded block-list changes
      the screens stay right. */
  lemma NextKeeps<U>(f: Filters, w: World<U>, s: Step<U>)
    requires ServerOK(f, w) && Possible(w, s)
    ensures ServerOK(f, Next(f, w, s)) && Next(f, w, s).rooms.Keys == w.rooms.Keys
    ensures Faithful(f, w.rooms.Keys) && ScreensOK(f, w) && Guarded(f, w, s) ==> ScreensOK(f, Next(f, w, s))
  {
    match s
    case Authorizing(u, d) => AuthorizeKeeps(f, w, u, d);
    case Opening(u) => OpenKeeps(f, w, u);
    case Receiving(u, verified, count, parsed) => PacketKeeps(f, w, u, verified, count, parsed);
    case Closing(u) => CloseKeeps(f, w, u);
    case Blocking(account, blocked) =>
      UpdateServes(f, w, account, blocked);
      if account in w.users && Faithful(f, w.rooms.Keys) && ScreensOK(f, w) {
        UpdateIsExact(f, w, account, blocked);
      }
  }

  lemma {:induction false} RunServer<U>(f: Filters, w: World<U>, steps: seq<Step<U>>)
    requires ServerOK(f, w) && PossibleRun(f, w, steps)
    ensures ServerOK(f, Run(f, w, steps)) && Run(f, w, steps).rooms.Keys == w.rooms.Keys
    decreases steps
  {
    if steps != [] {
      NextKeeps(f, w, steps[0]);
      RunServer(f, Next(f, w, steps[0]), steps[1..]);
    }
  }

  lemma {:induction false} RunAgrees<U>(f: Filters, w: World<U>, steps: seq<Step<U>>)
    requires ServerOK(f, w) && ScreensOK(f, w) && Faithful(f, w.rooms.Keys)
    requires PossibleRun(f, w, steps) && GuardedRun(f, w, steps)
    ensures ServerOK(f, Run(f, w, steps)) && ScreensOK(f, Run(f, w, steps))
    ensures Run(f, w, steps).rooms.Keys == w.rooms.Keys
    decreases steps
  {
    if steps != [] {
      NextKeeps(f, w, steps[0]);
      RunAgrees(f, Next(f, w, steps[0]), steps[1..]);
    }
  }

  lemma StartIsGood<U>(f: Filters)
    ensures ServerOK<U>(f, Start(f)) && ScreensOK<U>(f, Start(f)) && Start<U>(f).rooms.Keys == f.maps
  {
  }

  /** After any run whose block-list changes are guarded, every client in the game
      shows exactly the players it should see, each as the server knows it. */
  lemma ReplicaAgreement<U>(f: Filters, steps: seq<Step<U>>, u: U)
    requires Faithful(f, f.maps) && PossibleRun(f, Start(f), steps) && GuardedRun(f, Start(f), steps)
    ensures var w := Run(f, Start(f), steps);
      InGame(w, u) ==>
        && ViewOf(w, u).room == At(w, u).roomID && !ViewOf(w, u).stray
        && forall id :: id in ViewOf(w, u).players <==>
          exists v :: v in w.data && At(w, v).cid == id && Visible(f, w, u, v)
    ensures var w := Run(f, Start(f), steps);
      InGame(w, u) ==> forall v :: v in w.data && Visible(f, w, u, v) ==>
        ViewOf(w, u).players[At(w, v).cid] == LookOf(At(w, v))
  {
    var w := Run(f, Start(f), steps);
    StartIsGood<U>(f);
    RunAgrees(f, Start(f), steps);
    if InGame(w, u) {
      InGameIsPresent(w, u);
      assert ViewOK(f, w, u);
      forall id | id in ViewOf(w, u).players
        ensures exists v :: v in w.data && At(w, v).cid == id && Visible(f, w, u, v)
      {
        assert KnownID(w, id);
        var v :| v in w.data && w.data[v].cid == id;
        assert PairOK(f, w, u, v);
      }
      forall v | v in w.data && Visible(f, w, u, v)
        ensures At(w, v).cid in ViewOf(w, u).players && ViewOf(w, u).players[At(w, v).cid] == LookOf(At(w, v))
      {
        assert PairOK(f, w, u, v);
      }
    }
  }

  // ---------- Runs as sequences of worlds ----------

  ghost predicate IsStep<U>(f: Filters, w: World<U>, s: Step<U>, w': World<U>) { Possible(w, s) && w' == Next(f, w, s) }

  ghost predicate IsTrace<U>(f: Filters, steps: seq<Step<U>>, worlds: seq<World<U>>) {
    && |worlds| == |steps| + 1 && worlds[0] == Start(f)
    && forall i :: 0 <= i < |steps| ==> IsStep(f, worlds[i], steps[i], worlds[i + 1])
  }

  lemma {:induction false} RunSnoc<U>(f: Filters, w: World<U>, steps: seq<Step<U>>, s: Step<U>)
    requires PossibleRun(f, w, steps) && Possible(Run(f, w, steps), s)
    ensures PossibleRun(f, w, steps + [s]) && Run(f, w, steps + [s]) == Next(f, Run(f, w, steps), s)
    decreases steps
  {
    if steps == [] {
      assert steps + [s] == [s] && [s][1..] == [];
    } else {
      assert (steps + [s])[1..] == steps[1..] + [s] && (steps + [s])[0] == steps[0];
      RunSnoc(f, Next(f, w, steps[0]), steps[1..], s);
    }
  }

  lemma {:induction false} GuardedSnoc<U>(f: Filters, w: World<U>, steps: seq<Step<U>>, s: Step<U>)
    requires GuardedRun(f, w, steps) && Guarded(f, Run(f, w, steps), s)
    ensures GuardedRun(f, w, steps + [s])
    decreases steps
  {
    if steps == [] {
      assert steps + [s] == [s] && [s][1..] == [];
    } else {
      assert (steps + [s])[1..] == steps[1..] + [s] && (steps + [s])[0] == steps[0];
      GuardedSnoc(f, Next(f, w, steps[0]), steps[1..], s);
    }
  }

  lemma TraceSnoc<U>(f: Filters, steps: seq<Step<U>>, worlds: seq<World<U>>, s: Step<U>, w: World<U>)
    requires IsTrace(f, steps, worlds) && IsStep(f, worlds[|steps|], s, w)
    ensures IsTrace(f, steps + [s], worlds + [w])
  {
    var n := |steps|;
    forall i | 0 <= i <= n ensures IsStep(f, (worlds + [w])[i], (steps + [s])[i], (worlds + [w])[i + 1]) {
      assert (worlds + [w])[i] == worlds[i];
      if i < n {
        assert IsStep(f, worlds[i], steps[i], worlds[i + 1]);
      }
    }
  }

  lemma {:induction false} TraceIsRun<U>(f: Filters, steps: seq<Step<U>>, worlds: seq<World<U>>)
    requires IsTrace(f, steps, worlds)
    ensures PossibleRun(f, Start(f), steps) && Run(f, Start(f), steps) == worlds[|steps|]
  {
    if steps != [] {
      var n := |steps| - 1;
      TraceIsRun(f, steps[..n], worlds[..n + 1]);
      assert IsStep(f, worlds[n], steps[n], worlds[n + 1]);
      RunSnoc(f, Start(f), steps[..n], steps[n]);
      assert steps == steps[..n] + [steps[n]];
    }
  }

  // ---------- What the server invariant means ----------

  /** In every run: a registered account's connection is in the one room its data
      names, once, and every member is registered under its own account and can be
      sent to. */
  lemma RoomPartition<U>(f: Filters, steps: seq<Step<U>>, r: int32, u: U)
    requires PossibleRun(f, Start(f), steps) && r in Run(f, Start(f), steps).rooms
    ensures var w := Run(f, Start(f), steps);
      && NoDuplicates(w.rooms[r])
      && (u in w.rooms[r] <==> InGame(w, u) && At(w, u).roomID == r)
      && (InGame(w, u) <==> exists a :: a in w.users && w.users[a] == u)
      && (InGame(w, u) ==> At(w, u).account in w.users && w.users[At(w, u).account] == u && At(w, u).open)
  {
    var w := Run(f, Start(f), steps);
    StartIsGood<U>(f);
    RunServer(f, Start(f), steps);
    if u in w.rooms[r] {
      assert u in w.data && At(w, u).roomID == r;
    }
    if u in w.data {
      assert Enrolled(w, u);
    }
    forall a | a in w.users && w.users[a] == u ensures InGame(w, u) {
      assert AccountOK(w, a);
    }
  }

  /** What a stored picture can be. */
  ghost predicate PictureInRange(f: Filters, id: int32, pic: Picture) {
    pic.base.picID == id && !pic.playOnce && LegitimateBase(pic.base) && KnownPicture(f, pic.picName)
  }

  lemma StateInRange(f: Filters, d: Player)
    requires StateOK(f, d)
    ensures (d.x == -1 && d.y == -1) || (0 <= d.x <= 500 && 0 <= d.y <= 500)
    ensures 0 <= d.facing <= 3 && 0 <= d.speed <= 10 && 0 <= d.transparency <= 7 && d.flash.None?
    ensures (d.sprite == [] && d.spriteIndex == -1) || (d.sprite in f.sprites && 0 <= d.spriteIndex)
    ensures d.sysName == [] || d.sysName in f.systems
    ensures |d.pictures| <= 1001 && forall id :: id in d.pictures ==> PictureInRange(f, id, d.pictures[id])
  {
    PictureCount(f, d);
    forall id | id in d.pictures ensures PictureInRange(f, id, d.pictures[id]) {
      assert PictureOK(f, id, d.pictures[id]);
      LegitimateBaseIs(d.pictures[id].base);
      KnownPictureIs(f, d.pictures[id].picName);
    }
  }

  /** In every run each player's state stays in its ranges and holds at most 1001
      pictures, persistent ones under their own IDs. */
  lemma BoundedState<U>(f: Filters, steps: seq<Step<U>>, u: U)
    requires PossibleRun(f, Start(f), steps) && u in Run(f, Start(f), steps).data
    ensures var d := Run(f, Start(f), steps).data[u];
      && ((d.x == -1 && d.y == -1) || (0 <= d.x <= 500 && 0 <= d.y <= 500))
      && 0 <= d.facing <= 3 && 0 <= d.speed <= 10 && 0 <= d.transparency <= 7
      && ((d.sprite == [] && d.spriteIndex == -1) || (d.sprite in f.sprites && 0 <= d.spriteIndex))
      && (d.sysName == [] || d.sysName in f.systems)
      && |d.pictures| <= 1001 && forall id :: id in d.pictures ==> PictureInRange(f, id, d.pictures[id])
  {
    StartIsGood<U>(f);
    RunServer(f, Start(f), steps);
    StateInRange(f, Run(f, Start(f), steps).data[u]);
  }

  /** Members over some rooms. */
  ghost function Population<U>(rooms: map<int32, seq<U>>, ids: set<int32>): nat
    requires ids <= rooms.Keys
  {
    if ids == {} then 0
    else
      var r :| r in ids;
      |rooms[r]| + Population(rooms, ids - {r})
  }

  ghost function PlayersIn<U>(w: World<U>, ids: set<int32>): set<U> {
    set u | u in w.data && Present(w, u) && w.data[u].roomID in ids
  }

  ghost function SetOf<U>(s: seq<U>): set<U> { set x | x in s }

  lemma {:induction false} NoDuplicatesSize<U>(s: seq<U>)
    requires NoDuplicates(s)
    ensures |SetOf(s)| == |s|
  {
    if s != [] {
      var front, last := s[..|s| - 1], s[|s| - 1];
      NoDuplicatesSize(front);
      assert last !in front;
      assert SetOf(s) == SetOf(front) + {last};
    }
  }

  lemma {:induction false} PopulationIsPlayers<U>(w: World<U>, ids: set<int32>)
    requires Placed(w) && ids <= w.rooms.Keys
    ensures Population(w.rooms, ids) == |PlayersIn(w, ids)|
    decreases |ids|
  {
    if ids == {} {
      assert PlayersIn(w, ids) == {};
    } else {
      // the room that Population picks
      var r :| r in ids && Population(w.rooms, ids) == |w.rooms[r]| + Population(w.rooms, ids - {r});
      PopulationIsPlayers(w, ids - {r});
      NoDuplicatesSize(w.rooms[r]);
      RoomPlayers(w, ids, r);
    }
  }

  lemma RoomPlayers<U>(w: World<U>, ids: set<int32>, r: int32)
    requires Placed(w) && ids <= w.rooms.Keys && r in ids
    ensures |PlayersIn(w, ids)| == |PlayersIn(w, ids - {r})| + |SetOf(w.rooms[r])|
  {
    forall u ensures u in PlayersIn(w, ids) <==> u in PlayersIn(w, ids - {r}) || u in SetOf(w.rooms[r]) {
      PlayerSplit(w, ids, r, u);
    }
    forall u | u in SetOf(w.rooms[r]) ensures u !in PlayersIn(w, ids - {r}) {
      PlayerSplit(w, ids, r, u);
    }
    assert PlayersIn(w, ids) == PlayersIn(w, ids - {r}) + SetOf(w.rooms[r]);
  }

  lemma PlayerSplit<U>(w: World<U>, ids: set<int32>, r: int32, u: U)
    requires Placed(w) && ids <= w.rooms.Keys && r in ids
    ensures u in PlayersIn(w, ids) <==> u in PlayersIn(w, ids - {r}) || u in w.rooms[r]
    ensures u in w.rooms[r] ==> u !in PlayersIn(w, ids - {r})
  {
    assert u in w.rooms[r] ==> u in w.data && At(w, u).roomID == r;
  }

  lemma {:induction false} InjectiveSize<U>(m: map<Uuid, U>)
    requires forall a, b :: a in m && b in m && m[a] == m[b] ==> a == b
    ensures |m.Values| == |m|
    decreases |m|
  {
    if m == map[] {
      assert m.Values == {};
    } else {
      var a :| a in m;
      var rest := m - {a};
      InjectiveSize(rest);
      forall x | x in m.Values ensures x in rest.Values || x == m[a] {
        var k :| k in m && m[k] == x;
        assert k == a || (k in rest && rest[k] == x);
      }
      forall x | x in rest.Values ensures x in m.Values && x != m[a] {
        var k :| k in rest && rest[k] == x;
        assert k in m && m[k] == x;
      }
      assert m.Values == rest.Values + {m[a]};
    }
  }

  /** In every run the room sizes sum to the size of the registry. */
  lemma RoomSizes<U>(f: Filters, steps: seq<Step<U>>)
    requires PossibleRun(f, Start(f), steps)
    ensures var w := Run(f, Start(f), steps); Population(w.rooms, w.rooms.Keys) == |w.users|
  {
    var w := Run(f, Start(f), steps);
    StartIsGood<U>(f);
    RunServer(f, Start(f), steps);
    PopulationIsPlayers(w, w.rooms.Keys);
    RegistryIsInjective(w);
    InjectiveSize(w.users);
    RegisteredPlayers(w);
  }

  lemma RegistryIsInjective<U>(w: World<U>)
    requires Registry(w)
    ensures forall a, b :: a in w.users && b in w.users && w.users[a] == w.users[b] ==> a == b
  {
    forall a | a in w.users ensures AccountOK(w, a) {
    }
  }

  lemma RegisteredPlayers<U>(w: World<U>)
    requires Placed(w) && Registry(w)
    ensures w.users.Values == PlayersIn(w, w.rooms.Keys)
  {
    forall u | u in w.users.Values ensures u in PlayersIn(w, w.rooms.Keys) {
      var a :| a in w.users && w.users[a] == u;
      assert AccountOK(w, a) && Enrolled(w, u);
    }
    forall u | u in PlayersIn(w, w.rooms.Keys) ensures u in w.users.Values {
      assert Enrolled(w, u);
      assert w.data[u].account in w.users && w.users[w.data[u].account] == u;
    }
  }
}
