/** Runs in which a screen goes wrong, and what they show to be needed. */
module Failures {
  import opened Basics
  import opened Packets
  import opened Validate
  import opened Views
  import opened World
  import opened Agreement
  import opened RoomChange
  import opened Engine
  import opened Lifecycle
  import opened BlockLists
  import opened Runs

  // ---------- Runs, one step at a time ----------

  /** A possible and guarded run that ends in w. */
  ghost predicate Reaches<U>(f: Filters, steps: seq<Step<U>>, w: World<U>) {
    PossibleRun(f, Start(f), steps) && GuardedRun(f, Start(f), steps) && Run(f, Start(f), steps) == w
  }

  lemma Extend<U>(f: Filters, steps: seq<Step<U>>, w: World<U>, s: Step<U>)
    requires Reaches(f, steps, w) && Possible(w, s) && Guarded(f, w, s)
    ensures Reaches(f, steps + [s], Next(f, w, s))
  {
    RunSnoc(f, Start(f), steps, s);
    GuardedSnoc(f, Start(f), steps, s);
  }

  lemma ReachesServer<U>(f: Filters, steps: seq<Step<U>>, w: World<U>)
    requires Reaches(f, steps, w)
    ensures ServerOK(f, w)
  {
    StartIsGood<U>(f);
    RunServer(f, Start(f), steps);
  }

  /** A logged-in account without a name or a block list. */
  function Newcomer(cid: int32, account: Uuid, r: int32): Player { NewPlayer(cid, [], account, true, 0, r, {}) }

  ghost predicate Joined<U>(w: World<U>, w': World<U>, u: U, d: Player) {
    && w'.rooms.Keys == w.rooms.Keys && w'.counter == w.counter + 1 && w'.users == w.users[d.account := u]
    && w'.data == w.data[u := d.(phase := Live)]
  }

  lemma AddedAndOpened<U>(w: World<U>, w1: World<U>, w2: World<U>, u: U, d: Player)
    requires Added(w, w1, u, d) && Opened(w1, w2, u)
    ensures Joined(w, w2, u, d)
  {
    assert w.data[u := d][u := d.(phase := Live)] == w.data[u := d.(phase := Live)];
  }

  /** w1 is after authorisation, w2 after opening. */
  lemma Join<U>(f: Filters, steps: seq<Step<U>>, w: World<U>, u: U, d: Player) returns (w1: World<U>, w2: World<U>)
    requires Reaches(f, steps, w) && u !in w.data && IsNew(w, d) && d.account !in w.users && d.roomID in w.rooms
    ensures Reaches(f, steps + [Authorizing(u, d)] + [Opening(u)], w2) && Joined(w, w2, u, d)
    ensures ServerOK(f, w1) && Added(w, w1, u, d) && w2 == Open(f, w1, u)
  {
    Extend(f, steps, w, Authorizing(u, d));
    w1 := Authorize(w, u, d);
    ReachesServer(f, steps + [Authorizing(u, d)], w1);
    w2 := Open(f, w1, u);
    Extend(f, steps + [Authorizing(u, d)], w1, Opening(u));
    OpenIs(f, w1, u);
    AddedAndOpened(w, w1, w2, u, d);
  }

  function Entering<U>(u: U, cid: int32, account: Uuid, r: int32): seq<Step<U>> {
    [Authorizing(u, Newcomer(cid, account, r)), Opening(u)]
  }

  lemma NewcomerIsNew<U>(w: World<U>, cid: int32, account: Uuid, r: int32)
    requires cid == w.counter + 1
    ensures IsNew(w, Newcomer(cid, account, r))
  {
    EmptyIsClean();
  }

  lemma EnteringIs<U>(steps: seq<Step<U>>, u: U, cid: int32, account: Uuid, r: int32)
    ensures steps + [Authorizing(u, Newcomer(cid, account, r))] + [Opening(u)] == steps + Entering(u, cid, account, r)
  {
  }

  lemma GoIn<U>(f: Filters, steps: seq<Step<U>>, w: World<U>, u: U, cid: int32, account: Uuid, r: int32)
      returns (w1: World<U>, w2: World<U>)
    requires Reaches(f, steps, w) && u !in w.data && account !in w.users && r in w.rooms && cid == w.counter + 1
    ensures Reaches(f, steps + Entering(u, cid, account, r), w2) && Joined(w, w2, u, Newcomer(cid, account, r))
    ensures ServerOK(f, w1) && Added(w, w1, u, Newcomer(cid, account, r)) && w2 == Open(f, w1, u)
  {
    var d := Newcomer(cid, account, r);
    NewcomerIsNew(w, cid, account, r);
    w1, w2 := Join(f, steps, w, u, d);
    EnteringIs(steps, u, cid, account, r);
  }

  // ---------- The empty sprite ----------

  /** Whoever is connected after the run would be introduced as it is. */
  ghost predicate IntroducedWhole<U>(f: Filters, steps: seq<Step<U>>) {
    var w := Run(f, Start<U>(f), steps);
    forall v :: v in w.data ==> IntroLook(w.data[v]) == LookOf(w.data[v])
  }

  lemma AssetsSuffice<U>(f: Filters, steps: seq<Step<U>>)
    requires Assets(f) && PossibleRun(f, Start<U>(f), steps)
    ensures IntroducedWhole(f, steps)
  {
    var w := Run(f, Start<U>(f), steps);
    StartIsGood<U>(f);
    RunServer(f, Start(f), steps);
    forall v | v in w.data ensures IntroLook(w.data[v]) == LookOf(w.data[v]) {
      ReachableIntro(f, w.data[v]);
    }
  }

  ghost predicate Deserted<U>(w: World<U>) { w.rooms == map[] && w.users == map[] && w.data == map[] }

  /** Without maps nobody gets in. */
  lemma {:induction false} NoMaps<U>(f: Filters, w: World<U>, steps: seq<Step<U>>)
    requires Deserted(w) && PossibleRun(f, w, steps)
    ensures Deserted(Run(f, w, steps))
    decreases steps
  {
    if steps != [] {
      assert Next(f, w, steps[0]) == w;
      NoMaps(f, w, steps[1..]);
    }
  }

  /** A player that joins and takes on the empty sprite. */
  function EmptySprite<U>(u: U, a: Uuid, r: int32): seq<Step<U>> {
    Entering(u, 1, a, r) + [Receiving(u, true, 1, Some([SpriteC2S([], 0)]))]
  }

  ghost predicate OnlySprite<U>(w: World<U>, w': World<U>, u: U) {
    && w'.rooms == w.rooms && w'.users == w.users && w'.counter == w.counter
    && w'.data == w.data[u := At(w, u).(guardCount := 1, sprite := [], spriteIndex := 0)]
  }

  lemma TakesOnEmptySprite<U>(f: Filters, w: World<U>, u: U)
    requires InGame(w, u) && At(w, u).guardCount == 0 && [] in f.sprites
    ensures OnlySprite(w, Packet(f, w, u, true, 1, Some([SpriteC2S([], 0)])), u)
  {
    var m := SpriteC2S([], 0);
    var w1 := Put(w, u, At(w, u).(guardCount := 1));
    assert Acceptable(f, w.rooms.Keys, m) && IsRelay(m);
    assert [m][1..] == [];
    assert ProcessAll(f, w1, u, [m]) == Process(f, w1, u, m);
  }

  /** Alone in the game, with the empty sprite. */
  ghost predicate AloneWithSprite<U>(f: Filters, w: World<U>, u: U, a: Uuid, r: int32) {
    && w.rooms.Keys == f.maps && w.counter == 1 && w.users == map[a := u]
    && w.data == map[u := Newcomer(1, a, r).(phase := Live, guardCount := 1, sprite := [], spriteIndex := 0)]
  }

  lemma AloneIs<U>(f: Filters, w: World<U>, w': World<U>, u: U, a: Uuid, r: int32)
    requires Joined(Start(f), w, u, Newcomer(1, a, r)) && OnlySprite(w, w', u)
    ensures AloneWithSprite(f, w', u, a, r)
  {
    assert w.data == map[u := Newcomer(1, a, r).(phase := Live)];
  }

  lemma EmptySpriteIs<U>(f: Filters, u: U, a: Uuid, r: int32) returns (w: World<U>)
    requires [] in f.sprites && r in f.maps
    ensures Reaches(f, EmptySprite(u, a, r), w) && AloneWithSprite(f, w, u, a, r)
  {
    var _, w1 := GoIn(f, [], Start(f), u, 1, a, r);
    assert [] + Entering(u, 1, a, r) == Entering(u, 1, a, r);
    EmptyIsClean();
    Extend(f, Entering(u, 1, a, r), w1, Receiving(u, true, 1, Some([SpriteC2S([], 0)])));
    TakesOnEmptySprite(f, w1, u);
    w := Packet(f, w1, u, true, 1, Some([SpriteC2S([], 0)]));
    AloneIs(f, w1, w, u, a, r);
  }

  lemma EmptySpriteIsLost<U>(f: Filters, u: U, a: Uuid, r: int32)
    requires [] in f.sprites && r in f.maps
    ensures PossibleRun(f, Start(f), EmptySprite(u, a, r)) && !IntroducedWhole(f, EmptySprite(u, a, r))
  {
    var w := EmptySpriteIs(f, u, a, r);
    assert u in w.data && IntroLook(w.data[u]) != LookOf(w.data[u]);
  }

  /** For a game with maps, introductions are faithful in every reachable state exactly
      if the empty string is not a known sprite: with it, a player can take it on, and
      nobody who comes later is told its index. */
  lemma AssetsNeeded<U(!new)>(f: Filters, u: U)
    ensures f.maps == {} || Assets(f) <==>
      forall steps: seq<Step<U>> :: PossibleRun(f, Start(f), steps) ==> IntroducedWhole(f, steps)
  {
    if f.maps == {} {
      forall steps: seq<Step<U>> | PossibleRun(f, Start(f), steps) ensures IntroducedWhole(f, steps) {
        NoMaps(f, Start(f), steps);
      }
    } else if Assets(f) {
      forall steps: seq<Step<U>> | PossibleRun(f, Start(f), steps) ensures IntroducedWhole(f, steps) {
        AssetsSuffice(f, steps);
      }
    } else {
      var r :| r in f.maps;
      EmptySpriteIsLost(f, u, NO_UUID, r);
    }
  }

  /** What a player that just joined a multiplayer room shows. */
  lemma NewScreen<U>(f: Filters, w: World<U>, u: U, x: U)
    requires Placed(w) && u in w.data && At(w, u).account !in w.users && At(w, u).roomID !in f.singleplayer
    requires x in w.data
    ensures var w' := Open(f, w, u);
      Met(w', At(w', u), Members(w', At(w, u).roomID), ViewOf(w', u).players, x)
  {
    var w1, r := Registered(f, w, u), At(w, u).roomID;
    RegisteredIsEnlisted(f, w, u);
    EnlistedPlaced(f, w, w1, u);
    ChangeRoomIs(f, w1, u, r);
    assert OwnView(f, w1, ChangeRoom(f, w1, u, r), u, r);
  }

  /** It is not right if somebody there is not introduced whole. */
  lemma LaterScreen<U>(f: Filters, w: World<U>, u: U, v: U)
    requires ServerOK(f, w) && u != v && InGame(w, u) && InGame(w, v) && !BlockedBetween(At(w, v), At(w, u))
    requires At(w, u).roomID == At(w, v).roomID && At(w, v).roomID !in f.singleplayer
    requires IntroLook(At(w, u)) != LookOf(At(w, u))
    requires Met(w, At(w, v), Members(w, At(w, v).roomID), ViewOf(w, v).players, u)
    ensures !Agree(f, w)
  {
    InGameIsPresent(w, u);
    InGameIsPresent(w, v);
    assert Visible(f, w, v, u);
    assert !PairOK(f, w, v, u);
    assert !ViewOK(f, w, v);
  }

  /** A second player enters after the first took on the empty sprite. */
  function EmptySpriteSeen<U>(u: U, v: U, a: Uuid, b: Uuid, r: int32): seq<Step<U>> {
    EmptySprite(u, a, r) + Entering(v, 2, b, r)
  }

  lemma EntrantScreen<U>(f: Filters, w: World<U>, w1: World<U>, w2: World<U>, u: U, v: U, d: Player)
    requires ServerOK(f, w1) && Added(w, w1, v, d) && w2 == Open(f, w1, v) && Joined(w, w2, v, d)
    requires u in w.data && d.account !in w.users && d.roomID !in f.singleplayer
    ensures Met(w2, At(w2, v), Members(w2, d.roomID), ViewOf(w2, v).players, u)
  {
    NewScreen(f, w1, v, u);
  }

  lemma SpriteMissed<U>(f: Filters, w: World<U>, w2: World<U>, u: U, v: U, a: Uuid, b: Uuid, r: int32)
    requires ServerOK(f, w2) && AloneWithSprite(f, w, u, a, r) && Joined(w, w2, v, Newcomer(2, b, r))
    requires u != v && a != b && r !in f.singleplayer
    requires Met(w2, At(w2, v), Members(w2, r), ViewOf(w2, v).players, u)
    ensures !Agree(f, w2)
  {
    LaterScreen(f, w2, u, v);
  }

  lemma EmptySpriteShows<U>(f: Filters, u: U, v: U, a: Uuid, b: Uuid, r: int32)
    requires [] in f.sprites && r in f.maps && r !in f.singleplayer && u != v && a != b
    ensures var steps := EmptySpriteSeen(u, v, a, b, r);
      PossibleRun(f, Start(f), steps) && GuardedRun(f, Start(f), steps) && !Agree(f, Run(f, Start(f), steps))
  {
    var w := EmptySpriteIs(f, u, a, r);
    var w1, w2 := GoIn(f, EmptySprite(u, a, r), w, v, 2, b, r);
    EntrantScreen(f, w, w1, w2, u, v, Newcomer(2, b, r));
    ReachesServer(f, EmptySpriteSeen(u, v, a, b, r), w2);
    SpriteMissed(f, w, w2, u, v, a, b, r);
  }

  /** All screens are right after every guarded run exactly if the empty string is not a
      known sprite, or no map shows players at all. */
  lemma ScreensNeedAssets<U(!new)>(f: Filters, u: U, v: U, a: Uuid, b: Uuid)
    requires u != v && a != b
    ensures Faithful(f, f.maps) <==>
      forall steps: seq<Step<U>> :: PossibleRun(f, Start(f), steps) && GuardedRun(f, Start(f), steps) ==>
        Agree(f, Run(f, Start(f), steps))
  {
    if Faithful(f, f.maps) {
      forall steps: seq<Step<U>> | PossibleRun(f, Start(f), steps) && GuardedRun(f, Start(f), steps)
        ensures Agree(f, Run(f, Start(f), steps))
      {
        StartIsGood<U>(f);
        RunAgrees(f, Start(f), steps);
      }
    } else {
      var r :| r in f.maps && r !in f.singleplayer;
      EmptySpriteShows(f, u, v, a, b, r);
    }
  }

  // ---------- Unblocking ----------

  /** Two accounts in one room, and their block lists. */
  ghost predicate Together<U>(w: World<U>, r: int32, u: U, v: U, a: Uuid, b: Uuid, ofU: set<Uuid>, ofV: set<Uuid>) {
    && u in w.data && v in w.data && a in w.users && b in w.users && w.users[a] == u && w.users[b] == v
    && At(w, u).roomID == r && At(w, u).account == a && At(w, u).blocklist == ofU
    && At(w, v).roomID == r && At(w, v).account == b && At(w, v).blocklist == ofV
  }

  function Meeting<U>(r: int32, u: U, v: U, a: Uuid, b: Uuid): seq<Step<U>> {
    Entering(u, 1, a, r) + Entering(v, 2, b, r)
  }

  lemma MeetingIs<U>(f: Filters, r: int32, u: U, v: U, a: Uuid, b: Uuid) returns (w: World<U>)
    requires r in f.maps && u != v && a != b
    ensures Reaches(f, Meeting(r, u, v, a, b), w) && Together(w, r, u, v, a, b, {}, {})
  {
    var _, w1 := GoIn(f, [], Start(f), u, 1, a, r);
    assert [] + Entering(u, 1, a, r) == Entering(u, 1, a, r);
    var _, w2 := GoIn(f, Entering(u, 1, a, r), w1, v, 2, b, r);
    w := w2;
  }

  lemma ListReplaced<U>(w: World<U>, account: Uuid, blocked: set<Uuid>)
    requires account in w.users
    ensures var w' := UpdateBlockList(w, account, blocked); var u := w.users[account];
      w'.rooms == w.rooms && w'.users == w.users && w'.data == w.data[u := At(w, u).(blocklist := blocked)]
  {
  }

  /** Blocking one more account is guarded. */
  lemma BlockOne<U>(f: Filters, steps: seq<Step<U>>, w: World<U>, account: Uuid, other: Uuid)
    requires Reaches(f, steps, w) && account in w.users && At(w, w.users[account]).blocklist == {}
    ensures Reaches(f, steps + [Blocking(account, {other})], UpdateBlockList(w, account, {other}))
  {
    assert NewlyUnblocked(w, w.users[account], {other}) == {};
    Extend(f, steps, w, Blocking(account, {other}));
  }

  /** Unblocking somebody who blocks the user too, or in a singleplayer map, shows
      players who must not be shown. */
  lemma UnblockingShows<U>(f: Filters, w: World<U>, r: int32, u: U, v: U, a: Uuid, b: Uuid, ofV: set<Uuid>)
    requires ServerOK(f, w) && Together(w, r, u, v, a, b, {b}, ofV) && (r in f.singleplayer || a in ofV)
    ensures !Agree(f, UpdateBlockList(w, a, {}))
  {
    assert {b} - {} == {b} && v in Roommates(w, u, {b});
    assert Enrolled(w, u);
    UpdateReblocks(w, a, {});
    ReblockedDisagrees(f, w, UpdateBlockList(w, a, {}), u, {}, v);
  }

  /** Two players in a multiplayer map block each other, and then one of them unblocks. */
  function MutualBlock<U>(r: int32, u: U, v: U, a: Uuid, b: Uuid): seq<Step<U>> {
    Meeting(r, u, v, a, b) + [Blocking(a, {b})] + [Blocking(b, {a})]
  }

  lemma UnblockedTooEarly<U>(f: Filters, r: int32, u: U, v: U, a: Uuid, b: Uuid)
    requires r in f.maps && u != v && a != b
    ensures var steps := MutualBlock(r, u, v, a, b);
      && GuardedRun(f, Start(f), steps)
      && PossibleRun(f, Start(f), steps + [Blocking(a, {})]) && !Agree(f, Run(f, Start(f), steps + [Blocking(a, {})]))
  {
    var steps := MutualBlock(r, u, v, a, b);
    var w := MeetingIs(f, r, u, v, a, b);
    BlockOne(f, Meeting(r, u, v, a, b), w, a, b);
    ListReplaced(w, a, {b});
    var w1 := UpdateBlockList(w, a, {b});
    BlockOne(f, Meeting(r, u, v, a, b) + [Blocking(a, {b})], w1, b, a);
    ListReplaced(w1, b, {a});
    var w2 := UpdateBlockList(w1, b, {a});
    ReachesServer(f, steps, w2);
    RunSnoc(f, Start(f), steps, Blocking(a, {}));
    UnblockingShows(f, w2, r, u, v, a, b, {a});
  }

  /** Two players in a singleplayer map, where nobody is shown; one blocks and unblocks. */
  lemma UnblockedAlone<U>(f: Filters, r: int32, u: U, v: U, a: Uuid, b: Uuid)
    requires r in f.maps && r in f.singleplayer && u != v && a != b
    ensures var steps := Meeting(r, u, v, a, b) + [Blocking(a, {b})];
      && GuardedRun(f, Start(f), steps)
      && PossibleRun(f, Start(f), steps + [Blocking(a, {})]) && !Agree(f, Run(f, Start(f), steps + [Blocking(a, {})]))
  {
    var steps := Meeting(r, u, v, a, b) + [Blocking(a, {b})];
    var w := MeetingIs(f, r, u, v, a, b);
    BlockOne(f, Meeting(r, u, v, a, b), w, a, b);
    ListReplaced(w, a, {b});
    var w1 := UpdateBlockList(w, a, {b});
    ReachesServer(f, steps, w1);
    RunSnoc(f, Start(f), steps, Blocking(a, {}));
    UnblockingShows(f, w1, r, u, v, a, b, {});
  }
}
