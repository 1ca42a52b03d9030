/** The room engine as a state machine over values. U stands for connections; the
    classes of module RoomServer refine it with U as their user objects. Each
    client's view is the fold of what was handed to it. */
module World {
  import opened Basics
  import opened Packets
  import opened Validate
  import opened Views

  datatype World<U> = World(
    rooms: map<int32, seq<U>>,
    users: map<Uuid, U>,
    data: map<U, Player>,
    views: map<U, View>,
    counter: int)

  /** Everything mentioned exists. */
  ghost predicate Structured<U>(w: World<U>) {
    && w.views.Keys == w.data.Keys
    && (forall r, u :: r in w.rooms && u in w.rooms[r] ==> u in w.data)
    && (forall a :: a in w.users ==> w.users[a] in w.data)
    && (forall u :: u in w.data ==> w.data[u].roomID in w.rooms)
  }

  // Lookups with a default, so that the functions below are total. A structured
  // world never needs the default.
  const NO_UUID: Uuid := [0, 0, 0, 0, 0, 0, 0, 0, 0, 0, 0, 0, 0, 0, 0, 0]
  const NO_PLAYER := NewPlayer(0, [], NO_UUID, false, 0, 0, {})
  const NO_VIEW := View(0, map[], [], false)

  ghost function At<U>(w: World<U>, u: U): Player { if u in w.data then w.data[u] else NO_PLAYER }

  ghost function ViewOf<U>(w: World<U>, u: U): View { if u in w.views then w.views[u] else NO_VIEW }

  ghost function Members<U>(w: World<U>, r: int32): seq<U> { if r in w.rooms then w.rooms[r] else [] }

  // ---------- Who gets packets ----------

  predicate HasBlocked(source: Player, subject: Player) { subject.account in source.blocklist }

  predicate BlockedBetween(a: Player, b: Player) { HasBlocked(a, b) || HasBlocked(b, a) }

  predicate Skipped(us: Player, them: Player) { us.cid == them.cid || BlockedBetween(us, them) }

  ghost predicate Hears<U>(f: Filters, w: World<U>, u: U, x: U) {
    && At(w, u).roomID !in f.singleplayer
    && x in Members(w, At(w, u).roomID) && !Skipped(At(w, u), At(w, x))
  }

  ghost function Audience<U>(f: Filters, w: World<U>, u: U): set<U> {
    set x | x in Members(w, At(w, u).roomID) && Hears(f, w, u, x)
  }

  ghost function Tell<U>(w: World<U>, to: set<U>, p: S2C): World<U> {
    w.(views := map x | x in w.views :: if x in to then Apply(w.views[x], p) else w.views[x])
  }

  ghost function TellIntro<U>(w: World<U>, to: set<U>, d: Player): World<U> {
    w.(views := map x | x in w.views :: if x in to then Introduce(w.views[x], d) else w.views[x])
  }

  ghost function Share<U>(f: Filters, w: World<U>, u: U, p: S2C): World<U> { Tell(w, Audience(f, w, u), p) }

  ghost function Put<U>(w: World<U>, u: U, d: Player): World<U> { w.(data := w.data[u := d]) }

  ghost function Show<U>(w: World<U>, u: U, v: View): World<U> { w.(views := w.views[u := v]) }

  /** Stores new data for u and tells its audience about it. */
  ghost function Publish<U>(f: Filters, w: World<U>, u: U, d: Player, p: S2C): World<U> {
    Share(f, Put(w, u, d), u, p)
  }

  // ---------- Rooms ----------

  ghost function Without<U>(members: seq<U>, data: map<U, Player>, cid: int32): seq<U> {
    if members == [] then []
    else
      var rest := Without(members[1..], data, cid);
      if members[0] in data && data[members[0]].cid == cid then rest else [members[0]] + rest
  }

  ghost function Unset<U>(w: World<U>, u: U): World<U> {
    var d := At(w, u);
    w.(rooms := w.rooms[d.roomID := Without(Members(w, d.roomID), w.data, d.cid)])
  }

  ghost function Enter<U>(w: World<U>, u: U, roomID: int32): World<U> {
    var left := Unset(w, u);
    Put(left.(rooms := left.rooms[roomID := Members(left, roomID) + [u]]), u, At(w, u).(roomID := roomID))
  }

  /** The view after introductions of those members that are not skipped, in order. */
  ghost function Meet<U>(v: View, us: Player, members: seq<U>, w: World<U>): View {
    if members == [] then v
    else
      var front, last := members[..|members| - 1], members[|members| - 1];
      var before := Meet(v, us, front, w);
      if Skipped(us, At(w, last)) then before else Introduce(before, At(w, last))
  }

  ghost function Left<U>(f: Filters, w: World<U>, u: U, newID: int32): World<U> {
    if newID != At(w, u).roomID then Share(f, w, u, DisconnectS2C(At(w, u).cid)) else w
  }

  /** The client clears its screen for the new room, and the server moves it there. */
  ghost function Arrived<U>(w: World<U>, u: U, newID: int32): World<U> {
    Enter(Show(w, u, Apply(ViewOf(w, u), RoomInfoS2C(newID))), u, newID)
  }

  ghost function MetRoom<U>(f: Filters, w: World<U>, u: U): World<U> {
    var d := At(w, u);
    if d.roomID in f.singleplayer then w else Show(w, u, Meet(ViewOf(w, u), d, Members(w, d.roomID), w))
  }

  ghost function Announced<U>(f: Filters, w: World<U>, u: U): World<U> {
    TellIntro(w, Audience(f, w, u), At(w, u))
  }

  ghost function ChangeRoom<U>(f: Filters, w: World<U>, u: U, newID: int32): World<U> {
    Announced(f, MetRoom(f, Arrived(Left(f, w, u, newID), u, newID), u), u)
  }

  // ---------- Messages ----------

  function Erased(d: Player, picID: int32): Player { d.(pictures := d.pictures - {picID}) }

  ghost function RemovePicture<U>(f: Filters, w: World<U>, u: U, picID: int32): World<U> {
    Publish(f, w, u, Erased(At(w, u), picID), ErasePictureS2C(At(w, u).cid, picID))
  }

  function Stored(d: Player, pic: Picture): Player {
    if pic.playOnce then d else d.(pictures := d.pictures[pic.base.picID := pic])
  }

  ghost function ShowPicture<U>(f: Filters, w: World<U>, u: U, pic: Picture): World<U> {
    var id := pic.base.picID;
    var w1 := if id in At(w, u).pictures then RemovePicture(f, w, u, id) else w;
    Publish(f, w1, u, Stored(At(w1, u), pic), ShowPictureS2C(At(w1, u).cid, pic))
  }

  function Moved(d: Player, base: BasePicture): Player
    requires base.picID in d.pictures
  {
    d.(pictures := d.pictures[base.picID := d.pictures[base.picID].(base := base)])
  }

  ghost function MovePicture<U>(f: Filters, w: World<U>, u: U, base: BasePicture, duration: int32): World<U> {
    var d := At(w, u);
    if base.picID !in d.pictures then w
    else Publish(f, w, u, Moved(d, base), MovePictureS2C(d.cid, base, duration))
  }

  ghost function ErasePicture<U>(f: Filters, w: World<U>, u: U, picID: int32): World<U> {
    if picID !in At(w, u).pictures then w else RemovePicture(f, w, u, picID)
  }

  /** The messages that change one thing and are relayed as one packet. */
  predicate IsRelay(m: C2S) {
    !m.SwitchRoomC2S? && !m.ShowPictureC2S? && !m.MovePictureC2S? && !m.ErasePictureC2S?
  }

  function RelayData(d: Player, m: C2S): Player {
    match m
    case MainPlayerPosC2S(x, y) => d.(x := x, y := y)
    case TeleportC2S(x, y) => d.(x := x, y := y)
    case JumpC2S(x, y) => d.(x := x, y := y)
    case SpeedC2S(speed) => d.(speed := speed)
    case SpriteC2S(name, index) => d.(sprite := name, spriteIndex := index)
    case FacingC2S(direction) => d.(facing := direction)
    case HiddenC2S(hidden) => d.(hidden := hidden)
    case SysNameC2S(name) => d.(sysName := name)
    case TransparencyC2S(transparency) => d.(transparency := transparency)
    case RemoveRepeatingFlashC2S => d.(flash := None)
    case _ => d
  }

  function RelayPacket(id: int32, m: C2S): S2C
    requires IsRelay(m)
  {
    match m
    case MainPlayerPosC2S(x, y) => MainPlayerPosS2C(id, x, y)
    case TeleportC2S(x, y) => MainPlayerPosS2C(id, x, y)
    case JumpC2S(x, y) => JumpS2C(id, x, y)
    case SpeedC2S(speed) => SpeedS2C(id, speed)
    case SpriteC2S(name, index) => SpriteS2C(id, name, index)
    case FacingC2S(direction) => FacingS2C(id, direction)
    case HiddenC2S(hidden) => HiddenS2C(id, hidden)
    case SysNameC2S(name) => SysNameS2C(id, name)
    case TransparencyC2S(transparency) => TransparencyS2C(id, transparency)
    case SoundEffectC2S(name, volume, tempo, balance) => SoundEffectS2C(id, name, volume, tempo, balance)
    case FlashC2S(flash) => FlashS2C(id, flash)
    case RepeatingFlashC2S(flash) => RepeatingFlashS2C(id, flash)
    case RemoveRepeatingFlashC2S => RemoveRepeatingFlashS2C(id)
    case ShowPlayerBattleAnimC2S(animID) => ShowPlayerBattleAnimS2C(id, animID)
  }

  /** Processing needs the room of a room switch to exist, and nothing else. */
  ghost predicate Processable<U>(w: World<U>, m: C2S) { m.SwitchRoomC2S? ==> m.roomID in w.rooms }

  ghost function ProcessPicture<U>(f: Filters, w: World<U>, u: U, m: C2S): World<U> {
    if m.ShowPictureC2S? then ShowPicture(f, w, u, m.picture)
    else if m.MovePictureC2S? then MovePicture(f, w, u, m.base, m.duration)
    else if m.ErasePictureC2S? then ErasePicture(f, w, u, m.picID)
    else w
  }

  ghost function Process<U>(f: Filters, w: World<U>, u: U, m: C2S): World<U> {
    if m.SwitchRoomC2S? then ChangeRoom(f, w, u, m.roomID)
    else if IsRelay(m) then Publish(f, w, u, RelayData(At(w, u), m), RelayPacket(At(w, u).cid, m))
    else ProcessPicture(f, w, u, m)
  }

  ghost function ProcessAll<U>(f: Filters, w: World<U>, u: U, ms: seq<C2S>): World<U>
    decreases ms
  {
    if ms == [] then w else ProcessAll(f, Process(f, w, u, ms[0]), u, ms[1..])
  }

  predicate AllAcceptable(f: Filters, rooms: set<int32>, ms: seq<C2S>) {
    forall m :: m in ms ==> Acceptable(f, rooms, m)
  }

  lemma AllAcceptableIs(f: Filters, rooms: set<int32>, ms: seq<C2S>)
    ensures AllAcceptable(f, rooms, ms) <==> AllLegitimate(f, rooms, ms)
  {
    forall m | m in ms ensures Acceptable(f, rooms, m) <==> Legitimate(f, rooms, m) {
      AcceptableIsLegitimate(f, rooms, m);
    }
  }

  ghost function CountedPacket<U>(f: Filters, w: World<U>, u: U, count: uint32, parsed: Option<seq<C2S>>): World<U> {
    var counted := Put(w, u, At(w, u).(guardCount := count));
    if parsed.None? || !AllAcceptable(f, w.rooms.Keys, parsed.value) then counted
    else ProcessAll(f, counted, u, parsed.value)
  }

  /** A packet is refused whole or applied whole; only the counter moves either way. */
  ghost function Packet<U>(f: Filters, w: World<U>, u: U, verified: bool, count: uint32,
      parsed: Option<seq<C2S>>): World<U> {
    if !verified || count <= At(w, u).guardCount then w else CountedPacket(f, w, u, count, parsed)
  }

  // ---------- Connections ----------

  function NewPlayer(cid: int32, name: Bytes, account: Uuid, loggedIn: bool, guardKey: uint32, roomID: int32,
      blocklist: set<Uuid>): Player {
    Player(cid, name, account, 0, loggedIn, [], guardKey, blocklist, 0, Authorized, true,
           roomID, DEFAULT_XY, DEFAULT_XY, DEFAULT_FACING, DEFAULT_SPEED,
           DEFAULT_TRANSPARENCY, false, [], DEFAULT_SPRITE_INDEX, [], None, map[])
  }

  /** The room must exist and the account must not be connected. */
  ghost function Authorize<U>(w: World<U>, u: U, d: Player): World<U> {
    if d.roomID !in w.rooms || d.account in w.users then w
    else World(w.rooms, w.users, w.data[u := d], w.views[u := NO_VIEW], w.counter + 1)
  }

  function InitialPackets(f: Filters, d: Player): seq<S2C> {
    [SyncPlayerDataS2C(d.cid, d.guardKey, d.account, d.rank, d.loggedIn, d.badge)]
    + (if |f.pictureNames| != 0 then [PictureSyncListS2C(0, f.pictureNames)] else [])
    + (if |f.picturePrefixes| != 0 then [PictureSyncListS2C(1, f.picturePrefixes)] else [])
    + (if |f.battleAnimIDs| != 0 then [BattleAnimSyncListS2C(f.battleAnimIDs)] else [])
  }

  ghost function Registered<U>(f: Filters, w: World<U>, u: U): World<U> {
    var d := At(w, u);
    w.(users := w.users[d.account := u],
       data := w.data[u := d.(phase := Live)],
       views := w.views[u := ApplyAll(ViewOf(w, u), InitialPackets(f, d))])
  }

  ghost function Open<U>(f: Filters, w: World<U>, u: U): World<U> {
    var d := At(w, u);
    if d.account in w.users then Put(w, u, d.(phase := Refused))
    else ChangeRoom(f, Registered(f, w, u), u, d.roomID)
  }

  ghost function Deregistered<U>(w: World<U>, u: U): World<U> {
    var d := At(w, u);
    var left := Unset(w, u);
    var users := if d.account in w.users && w.users[d.account] == u then w.users - {d.account} else w.users;
    Put(left.(users := users), u, d.(phase := Gone, open := false))
  }

  ghost function Close<U>(f: Filters, w: World<U>, u: U): World<U> {
    Share(f, Deregistered(w, u), u, DisconnectS2C(At(w, u).cid))
  }

  // ---------- Block lists ----------

  /** The connected users of some accounts that are in the same room as u. */
  ghost function Roommates<U>(w: World<U>, u: U, accounts: set<Uuid>): set<U> {
    set a | a in accounts && a in w.users && At(w, w.users[a]).roomID == At(w, u).roomID :: w.users[a]
  }

  ghost function IDsOf<U>(w: World<U>, us: set<U>): set<int32> { set x | x in us :: At(w, x).cid }

  /** What disconnect packets between u and each of them take off the screen of x. */
  ghost function TakenOff<U>(w: World<U>, u: U, them: set<U>, x: U): set<int32> {
    (if x == u then IDsOf(w, them) else {}) + (if x in them then {At(w, u).cid} else {})
  }

  /** u and each of them get a disconnect packet about the other. */
  ghost function HideFrom<U>(w: World<U>, u: U, them: set<U>): World<U> {
    w.(views := map x | x in w.views :: w.views[x].(players := w.views[x].players - TakenOff(w, u, them, x)))
  }

  ghost function ByID<U>(w: World<U>, us: set<U>, id: int32): U
    requires id in IDsOf(w, us)
  {
    var x :| x in us && At(w, x).cid == id;
    x
  }

  /** The view after introductions of a set of players, in any order. */
  ghost function MeetSet<U>(w: World<U>, v: View, us: set<U>): View {
    var ids := IDsOf(w, us);
    v.(players := map id | id in v.players.Keys + ids ::
         if id in ids then IntroLook(At(w, ByID(w, us, id))) else v.players[id])
  }

  /** u and each of them get an introduction of the other. */
  ghost function ShowTo<U>(w: World<U>, u: U, them: set<U>): World<U> {
    w.(views := map x | x in w.views ::
      var own := if x == u then MeetSet(w, w.views[x], them) else w.views[x];
      if x in them then Introduce(own, At(w, u)) else own)
  }

  /** Newly blocked roommates are hidden, newly unblocked ones shown, in both directions. */
  ghost function UpdateBlockList<U>(w: World<U>, account: Uuid, blocked: set<Uuid>): World<U> {
    if account !in w.users then w
    else
      var u := w.users[account];
      var before := At(w, u).blocklist;
      var hidden := HideFrom(w, u, Roommates(w, u, blocked - before));
      var shown := ShowTo(hidden, u, Roommates(w, u, before - blocked));
      Put(shown, u, At(w, u).(blocklist := blocked))
  }

  // ---------- Map chat ----------

  ghost function AccountsOf<U>(w: World<U>, us: seq<U>): set<Uuid> { set x | x in us :: At(w, x).account }

  /** An account and those in its room; alone in a singleplayer map. */
  ghost function RoommatesOf<U>(f: Filters, w: World<U>, account: Uuid): Option<set<Uuid>> {
    if account !in w.users then None
    else
      var d := At(w, w.users[account]);
      if d.roomID in f.singleplayer then Some({d.account})
      else Some({d.account} + AccountsOf(w, Members(w, d.roomID)))
  }
}
