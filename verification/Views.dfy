/** A player as the server knows it, and the screen that a client builds by folding
    the packets it is handed, in the order in which they are handed over. */
module Views {
  import opened Basics
  import opened Delimiters
  import opened Packets

  // The values that clients assume when nothing is sent
  const DEFAULT_XY: int32 := -1
  const DEFAULT_FACING: int32 := 2
  const DEFAULT_SPEED: int32 := 3
  const DEFAULT_TRANSPARENCY: int32 := 0
  const DEFAULT_SPRITE_INDEX: int32 := -1

  /** Authorized but not opened, in the game, refused as a duplicate, or closed. */
  datatype Phase = Authorized | Live | Refused | Gone

  datatype Player = Player(
    cid: int32, name: Bytes, account: Uuid, rank: int32, loggedIn: bool, badge: Bytes,
    guardKey: uint32, blocklist: set<Uuid>, guardCount: uint32, phase: Phase, open: bool,
    roomID: int32, x: int32, y: int32, facing: int32, speed: int32,
    transparency: int32, hidden: bool, sprite: Bytes, spriteIndex: int32, sysName: Bytes,
    flash: Option<Flash>, pictures: map<int32, Picture>)

  /** A player on somebody's screen. */
  datatype Look = Look(
    account: Uuid, rank: int32, loggedIn: bool, badge: Bytes, name: Bytes,
    x: int32, y: int32, facing: int32, speed: int32,
    transparency: int32, hidden: bool, sprite: Bytes, spriteIndex: int32, sysName: Bytes,
    pictures: map<int32, Picture>)

  /** What one client shows. `effects` is the history of packets that are not (only)
      part of somebody's look, `stray` records an update about somebody not shown. */
  datatype View = View(room: int32, players: map<int32, Look>, effects: seq<S2C>, stray: bool)

  function DefaultLook(account: Uuid, rank: int32, loggedIn: bool, badge: Bytes): Look {
    Look(account, rank, loggedIn, badge, [], DEFAULT_XY, DEFAULT_XY, DEFAULT_FACING, DEFAULT_SPEED,
         DEFAULT_TRANSPARENCY, false, [], DEFAULT_SPRITE_INDEX, [], map[])
  }

  function LookOf(d: Player): Look {
    Look(d.account, d.rank, d.loggedIn, d.badge, d.name, d.x, d.y, d.facing, d.speed,
         d.transparency, d.hidden, d.sprite, d.spriteIndex, d.sysName, d.pictures)
  }

  /** The player a packet updates, if it is an update. */
  function Subject(p: S2C): Option<int32> {
    match p
    case NameS2C(id, _) => Some(id)
    case MainPlayerPosS2C(id, _, _) => Some(id)
    case JumpS2C(id, _, _) => Some(id)
    case SpriteS2C(id, _, _) => Some(id)
    case FacingS2C(id, _) => Some(id)
    case SpeedS2C(id, _) => Some(id)
    case HiddenS2C(id, _) => Some(id)
    case TransparencyS2C(id, _) => Some(id)
    case SysNameS2C(id, _) => Some(id)
    case SoundEffectS2C(id, _, _, _, _) => Some(id)
    case FlashS2C(id, _) => Some(id)
    case RepeatingFlashS2C(id, _) => Some(id)
    case RemoveRepeatingFlashS2C(id) => Some(id)
    case ShowPlayerBattleAnimS2C(id, _) => Some(id)
    case ShowPictureS2C(id, _) => Some(id)
    case MovePictureS2C(id, _, _) => Some(id)
    case ErasePictureS2C(id, _) => Some(id)
    case _ => None
  }

  /** How an update changes the look of its subject. Only persistent pictures are
      kept; a one-shot picture takes the place of the one it covers. */
  function Update(l: Look, p: S2C): Look {
    match p
    case NameS2C(_, name) => l.(name := name)
    case MainPlayerPosS2C(_, x, y) => l.(x := x, y := y)
    case JumpS2C(_, x, y) => l.(x := x, y := y)
    case SpriteS2C(_, name, index) => l.(sprite := name, spriteIndex := index)
    case FacingS2C(_, direction) => l.(facing := direction)
    case SpeedS2C(_, speed) => l.(speed := speed)
    case HiddenS2C(_, hidden) => l.(hidden := hidden)
    case TransparencyS2C(_, transparency) => l.(transparency := transparency)
    case SysNameS2C(_, name) => l.(sysName := name)
    case ShowPictureS2C(_, pic) =>
      l.(pictures := if pic.playOnce then l.pictures - {pic.base.picID} else l.pictures[pic.base.picID := pic])
    case MovePictureS2C(_, base, _) =>
      if base.picID !in l.pictures then l
      else l.(pictures := l.pictures[base.picID := l.pictures[base.picID].(base := base)])
    case ErasePictureS2C(_, picID) => l.(pictures := l.pictures - {picID})
    case _ => l
  }

  /** Packets that do more than set a field of a look. */
  predicate IsEffect(p: S2C) {
    match p
    case JumpS2C(_, _, _) => true
    case ShowPictureS2C(_, pic) => pic.playOnce
    case MovePictureS2C(_, _, _) => true
    case SoundEffectS2C(_, _, _, _, _) => true
    case FlashS2C(_, _) => true
    case RepeatingFlashS2C(_, _) => true
    case RemoveRepeatingFlashS2C(_) => true
    case ShowPlayerBattleAnimS2C(_, _) => true
    case SyncPlayerDataS2C(_, _, _, _, _, _) => true
    case BattleAnimSyncListS2C(_) => true
    case PictureSyncListS2C(_, _) => true
    case SyncServerVariableS2C(_, _) => true
    case CUTimeS2C(_, _) => true
    case CUWeatherS2C(_, _) => true
    case _ => false
  }

  function Apply(v: View, p: S2C): View {
    var effects := if IsEffect(p) then v.effects + [p] else v.effects;
    match p
    case RoomInfoS2C(roomID) => View(roomID, map[], effects, v.stray)
    case ConnectS2C(id, account, rank, loggedIn, badge) =>
      View(v.room, v.players[id := DefaultLook(account, rank, loggedIn, badge)], effects, v.stray)
    case DisconnectS2C(id) => View(v.room, v.players - {id}, effects, v.stray)
    case _ =>
      if Subject(p).None? then v.(effects := effects)
      else
        var id := Subject(p).value;
        if id in v.players then View(v.room, v.players[id := Update(v.players[id], p)], effects, v.stray)
        else View(v.room, v.players, effects, true)
  }

  function ApplyAll(v: View, ps: seq<S2C>): View {
    if ps == [] then v else Apply(ApplyAll(v, ps[..|ps| - 1]), ps[|ps| - 1])
  }

  lemma {:induction false} ApplyAppend(v: View, a: seq<S2C>, b: seq<S2C>)
    ensures ApplyAll(v, a + b) == ApplyAll(ApplyAll(v, a), b)
  {
    if b == [] {
      assert a + b == a;
    } else {
      assert (a + b)[..|a + b| - 1] == a + b[..|b| - 1];
      ApplyAppend(v, a, b[..|b| - 1]);
    }
  }

  lemma ApplySnoc(v: View, ps: seq<S2C>, p: S2C)
    ensures ApplyAll(v, ps + [p]) == Apply(ApplyAll(v, ps), p)
  {
    assert (ps + [p])[..|ps|] == ps;
  }

  lemma ApplyOne(v: View, p: S2C)
    ensures ApplyAll(v, [p]) == Apply(v, p)
  {
    assert [p][..0] == [];
    assert ApplyAll(v, []) == v;
  }

  // ---------- Introductions ----------

  function Optional(sent: bool, p: S2C): seq<S2C> { if sent then [p] else [] }

  function IntroMoves(d: Player): seq<S2C> {
    Optional(d.x != DEFAULT_XY || d.y != DEFAULT_XY, MainPlayerPosS2C(d.cid, d.x, d.y))
    + Optional(d.facing != DEFAULT_FACING, FacingS2C(d.cid, d.facing))
    + Optional(d.speed != DEFAULT_SPEED, SpeedS2C(d.cid, d.speed))
  }

  function IntroPlace(d: Player): seq<S2C> {
    [ConnectS2C(d.cid, d.account, d.rank, d.loggedIn, d.badge)] + IntroMoves(d)
  }

  predicate HasSprite(d: Player) { d.spriteIndex != DEFAULT_SPRITE_INDEX && d.sprite != [] }

  function IntroName(d: Player): seq<S2C> {
    Optional(d.name != [], NameS2C(d.cid, d.name)) + Optional(HasSprite(d), SpriteS2C(d.cid, d.sprite, d.spriteIndex))
  }

  function IntroStyle(d: Player): seq<S2C> {
    Optional(d.transparency != DEFAULT_TRANSPARENCY, TransparencyS2C(d.cid, d.transparency))
    + Optional(d.hidden, HiddenS2C(d.cid, d.hidden))
    + Optional(d.sysName != [], SysNameS2C(d.cid, d.sysName))
  }

  function IntroFlash(d: Player): seq<S2C> {
    if d.flash.Some? then [RepeatingFlashS2C(d.cid, d.flash.value)] else []
  }

  /** The part of an introduction that does not depend on pictures. */
  function IntroHead(d: Player): seq<S2C> {
    IntroPlace(d) + IntroName(d) + IntroStyle(d) + IntroFlash(d)
  }

  /** The keys in some order, each once: one way of ranging over a map. */
  ghost predicate IsOrder(order: seq<int32>, keys: set<int32>) {
    && (forall id :: id in order <==> id in keys)
    && (forall i, j :: 0 <= i < j < |order| ==> order[i] != order[j])
  }

  function ShowPackets(d: Player, order: seq<int32>): seq<S2C>
    requires forall id :: id in order ==> id in d.pictures
  {
    seq(|order|, i requires 0 <= i < |order| => assert order[i] in order; ShowPictureS2C(d.cid, d.pictures[order[i]]))
  }

  /** The introductions of a player, one for every order of the stored pictures. */
  ghost predicate IsIntro(msgs: seq<S2C>, d: Player) {
    exists order :: IsOrder(order, d.pictures.Keys) && msgs == IntroHead(d) + ShowPackets(d, order)
  }

  /** Every stored picture is persistent and stored under its own ID. */
  ghost predicate PicturesKeyed(d: Player) {
    forall id :: id in d.pictures ==> d.pictures[id].base.picID == id && !d.pictures[id].playOnce
  }

  /** The look that an introduction conveys: a sprite goes only as a pair of
      non-default values. */
  function IntroLook(d: Player): Look {
    if HasSprite(d) then LookOf(d)
    else LookOf(d).(sprite := [], spriteIndex := DEFAULT_SPRITE_INDEX)
  }

  /** What an introduction does to a view, in one step. */
  function Introduce(v: View, d: Player): View {
    View(v.room, v.players[d.cid := IntroLook(d)], v.effects + IntroFlash(d), v.stray)
  }

  function WithEntry(v: View, id: int32, l: Look): View {
    View(v.room, v.players[id := l], v.effects, v.stray)
  }

  /** One optional update of an entry that is there. */
  lemma OneOptional(v: View, id: int32, l: Look, sent: bool, p: S2C)
    requires v == WithEntry(v, id, l) && Subject(p) == Some(id) && !IsEffect(p)
    ensures var l' := if sent then Update(l, p) else l;
      ApplyAll(v, Optional(sent, p)) == WithEntry(v, id, l')
  {
    if sent {
      ApplyOne(v, p);
    }
  }

  lemma EntryOverEntry(v: View, id: int32, a: Look, b: Look)
    ensures WithEntry(WithEntry(v, id, a), id, b) == WithEntry(v, id, b)
  {
    assert v.players[id := a][id := b] == v.players[id := b];
  }

  /** Two optional updates one after the other. */
  lemma TwoOptional(v: View, id: int32, l0: Look, l1: Look, l2: Look, s1: bool, p1: S2C, s2: bool, p2: S2C)
    requires v == WithEntry(v, id, l0) && Subject(p1) == Some(id) && !IsEffect(p1) && Subject(p2) == Some(id)
    requires !IsEffect(p2)
    requires l1 == (if s1 then Update(l0, p1) else l0) && l2 == if s2 then Update(l1, p2) else l1
    ensures ApplyAll(v, Optional(s1, p1) + Optional(s2, p2)) == WithEntry(v, id, l2)
  {
    ApplyAppend(v, Optional(s1, p1), Optional(s2, p2));
    OneOptional(v, id, l0, s1, p1);
    EntryOverEntry(v, id, l1, l1);
    OneOptional(WithEntry(v, id, l1), id, l1, s2, p2);
    EntryOverEntry(v, id, l1, l2);
  }

  lemma ThreeOptional(v: View, id: int32, l0: Look, l1: Look, l2: Look, l3: Look,
                      s1: bool, p1: S2C, s2: bool, p2: S2C, s3: bool, p3: S2C)
    requires v == WithEntry(v, id, l0) && Subject(p1) == Some(id) && !IsEffect(p1)
    requires Subject(p2) == Some(id) && !IsEffect(p2) && Subject(p3) == Some(id) && !IsEffect(p3)
    requires l1 == (if s1 then Update(l0, p1) else l0) && l2 == (if s2 then Update(l1, p2) else l1)
    requires l3 == if s3 then Update(l2, p3) else l2
    ensures ApplyAll(v, Optional(s1, p1) + Optional(s2, p2) + Optional(s3, p3)) == WithEntry(v, id, l3)
  {
    TwoOptional(v, id, l0, l1, l2, s1, p1, s2, p2);
    ApplyAppend(v, Optional(s1, p1) + Optional(s2, p2), Optional(s3, p3));
    EntryOverEntry(v, id, l2, l2);
    OneOptional(WithEntry(v, id, l2), id, l2, s3, p3);
    EntryOverEntry(v, id, l2, l3);
  }

  function PlacedLook(d: Player): Look {
    DefaultLook(d.account, d.rank, d.loggedIn, d.badge).(x := d.x, y := d.y, facing := d.facing, speed := d.speed)
  }

  lemma IntroMovesFold(v: View, d: Player, l0: Look)
    requires v == WithEntry(v, d.cid, l0) && l0 == DefaultLook(d.account, d.rank, d.loggedIn, d.badge)
    ensures ApplyAll(v, IntroMoves(d)) == WithEntry(v, d.cid, PlacedLook(d))
  {
    var p1, p2, p3 := MainPlayerPosS2C(d.cid, d.x, d.y), FacingS2C(d.cid, d.facing), SpeedS2C(d.cid, d.speed);
    var s1, s2, s3 := d.x != DEFAULT_XY || d.y != DEFAULT_XY, d.facing != DEFAULT_FACING, d.speed != DEFAULT_SPEED;
    var l1 := l0.(x := d.x, y := d.y);
    var l2 := l1.(facing := d.facing);
    ThreeOptional(v, d.cid, l0, l1, l2, PlacedLook(d), s1, p1, s2, p2, s3, p3);
  }

  lemma IntroPlaceFold(v: View, d: Player)
    ensures ApplyAll(v, IntroPlace(d)) == WithEntry(v, d.cid, PlacedLook(d))
  {
    var l0 := DefaultLook(d.account, d.rank, d.loggedIn, d.badge);
    var connect := ConnectS2C(d.cid, d.account, d.rank, d.loggedIn, d.badge);
    ApplyAppend(v, [connect], IntroMoves(d));
    ApplyOne(v, connect);
    EntryOverEntry(v, d.cid, l0, l0);
    IntroMovesFold(WithEntry(v, d.cid, l0), d, l0);
    EntryOverEntry(v, d.cid, l0, PlacedLook(d));
  }

  function NamedLook(d: Player, l: Look): Look {
    var named := l.(name := d.name);
    if HasSprite(d) then named.(sprite := d.sprite, spriteIndex := d.spriteIndex) else named
  }

  lemma IntroNameFold(v: View, d: Player, l: Look)
    requires v == WithEntry(v, d.cid, l) && l.name == []
    ensures ApplyAll(v, IntroName(d)) == WithEntry(v, d.cid, NamedLook(d, l))
  {
    var p1, p2 := NameS2C(d.cid, d.name), SpriteS2C(d.cid, d.sprite, d.spriteIndex);
    TwoOptional(v, d.cid, l, l.(name := d.name), NamedLook(d, l), d.name != [], p1, HasSprite(d), p2);
  }

  function StyledLook(d: Player, l: Look): Look {
    l.(transparency := d.transparency, hidden := d.hidden, sysName := d.sysName)
  }

  lemma IntroStyleFold(v: View, d: Player, l: Look)
    requires v == WithEntry(v, d.cid, l) && l.transparency == DEFAULT_TRANSPARENCY && !l.hidden && l.sysName == []
    ensures ApplyAll(v, IntroStyle(d)) == WithEntry(v, d.cid, StyledLook(d, l))
  {
    var p1, p2, p3 := TransparencyS2C(d.cid, d.transparency), HiddenS2C(d.cid, d.hidden), SysNameS2C(d.cid, d.sysName);
    var s1, s2, s3 := d.transparency != DEFAULT_TRANSPARENCY, d.hidden, d.sysName != [];
    var l1 := l.(transparency := d.transparency);
    var l2 := l1.(hidden := d.hidden);
    ThreeOptional(v, d.cid, l, l1, l2, StyledLook(d, l), s1, p1, s2, p2, s3, p3);
  }

  lemma IntroFlashFold(v: View, d: Player)
    requires d.cid in v.players
    ensures ApplyAll(v, IntroFlash(d)) == v.(effects := v.effects + IntroFlash(d))
  {
    if d.flash.Some? {
      ApplyOne(v, IntroFlash(d)[0]);
      assert v.players[d.cid := v.players[d.cid]] == v.players;
    }
  }

  lemma IntroNamedFold(v: View, d: Player)
    ensures ApplyAll(v, IntroPlace(d) + IntroName(d)) == WithEntry(v, d.cid, NamedLook(d, PlacedLook(d)))
  {
    var placed := PlacedLook(d);
    ApplyAppend(v, IntroPlace(d), IntroName(d));
    IntroPlaceFold(v, d);
    EntryOverEntry(v, d.cid, placed, placed);
    IntroNameFold(WithEntry(v, d.cid, placed), d, placed);
    EntryOverEntry(v, d.cid, placed, NamedLook(d, placed));
  }

  lemma NamedAndStyled(d: Player)
    ensures StyledLook(d, NamedLook(d, PlacedLook(d))) == IntroLook(d).(pictures := map[])
  {
  }

  lemma IntroLooksFold(v: View, d: Player)
    ensures ApplyAll(v, IntroPlace(d) + IntroName(d) + IntroStyle(d)) ==
      WithEntry(v, d.cid, IntroLook(d).(pictures := map[]))
  {
    var l := NamedLook(d, PlacedLook(d));
    ApplyAppend(v, IntroPlace(d) + IntroName(d), IntroStyle(d));
    IntroNamedFold(v, d);
    EntryOverEntry(v, d.cid, l, l);
    IntroStyleFold(WithEntry(v, d.cid, l), d, l);
    EntryOverEntry(v, d.cid, l, StyledLook(d, l));
    NamedAndStyled(d);
  }

  lemma IntroHeadFold(v: View, d: Player)
    ensures ApplyAll(v, IntroHead(d)) ==
            View(v.room, v.players[d.cid := IntroLook(d).(pictures := map[])], v.effects + IntroFlash(d), v.stray)
  {
    var looks := IntroPlace(d) + IntroName(d) + IntroStyle(d);
    ApplyAppend(v, looks, IntroFlash(d));
    IntroLooksFold(v, d);
    IntroFlashFold(ApplyAll(v, looks), d);
  }

  /** The view with the player's look given these pictures. */
  function WithPictures(v: View, id: int32, l: Look, pics: map<int32, Picture>): View {
    WithEntry(v, id, l.(pictures := pics))
  }

  lemma OneShow(v: View, id: int32, l: Look, pics: map<int32, Picture>, pic: Picture)
    requires !pic.playOnce
    ensures Apply(WithPictures(v, id, l, pics), ShowPictureS2C(id, pic)) ==
      WithPictures(v, id, l, pics[pic.base.picID := pic])
  {
    var w := WithPictures(v, id, l, pics);
    var l' := l.(pictures := pics[pic.base.picID := pic]);
    assert Update(w.players[id], ShowPictureS2C(id, pic)) == l';
    assert w.players[id := l'] == v.players[id := l'];
  }

  /** The stored pictures named by the order, later ones over earlier ones. */
  function Picked(d: Player, order: seq<int32>): map<int32, Picture>
    requires forall id :: id in order ==> id in d.pictures
  {
    if order == [] then map[]
    else
      var last := order[|order| - 1];
      Picked(d, order[..|order| - 1])[last := d.pictures[last]]
  }

  lemma {:induction false} PickedIsRestriction(d: Player, order: seq<int32>)
    requires forall id :: id in order ==> id in d.pictures
    ensures forall id :: id in Picked(d, order) <==> id in order
    ensures forall id :: id in order ==> Picked(d, order)[id] == d.pictures[id]
  {
    if order != [] {
      PickedIsRestriction(d, order[..|order| - 1]);
      assert order == order[..|order| - 1] + [order[|order| - 1]];
    }
  }

  lemma ShowPacketsSnoc(d: Player, order: seq<int32>)
    requires order != [] && forall id :: id in order ==> id in d.pictures
    ensures var n := |order| - 1;
      ShowPackets(d, order) == ShowPackets(d, order[..n]) + [ShowPictureS2C(d.cid, d.pictures[order[n]])]
  {
  }

  lemma {:induction false} ShowsFold(v: View, d: Player, l: Look, order: seq<int32>)
    requires PicturesKeyed(d) && forall id :: id in order ==> id in d.pictures
    ensures ApplyAll(WithPictures(v, d.cid, l, map[]), ShowPackets(d, order)) ==
      WithPictures(v, d.cid, l, Picked(d, order))
  {
    if order == [] {
      assert ShowPackets(d, order) == [];
    } else {
      var front, last := order[..|order| - 1], order[|order| - 1];
      ShowsFold(v, d, l, front);
      ShowPacketsSnoc(d, order);
      ApplySnoc(WithPictures(v, d.cid, l, map[]), ShowPackets(d, front), ShowPictureS2C(d.cid, d.pictures[last]));
      OneShow(v, d.cid, l, Picked(d, front), d.pictures[last]);
    }
  }

  lemma ShowsComplete(v: View, d: Player, order: seq<int32>)
    requires PicturesKeyed(d) && IsOrder(order, d.pictures.Keys)
    ensures ApplyAll(WithPictures(v, d.cid, IntroLook(d), map[]), ShowPackets(d, order)) ==
      WithEntry(v, d.cid, IntroLook(d))
  {
    ShowsFold(v, d, IntroLook(d), order);
    PickedIsRestriction(d, order);
    assert Picked(d, order) == d.pictures;
    assert IntroLook(d).(pictures := d.pictures) == IntroLook(d);
  }

  lemma IntroFoldInOrder(v: View, d: Player, order: seq<int32>)
    requires PicturesKeyed(d) && IsOrder(order, d.pictures.Keys)
    ensures ApplyAll(v, IntroHead(d) + ShowPackets(d, order)) == Introduce(v, d)
  {
    ApplyAppend(v, IntroHead(d), ShowPackets(d, order));
    IntroHeadFold(v, d);
    ShowsComplete(v.(effects := v.effects + IntroFlash(d)), d, order);
  }

  /** Folding an introduction, in whatever order the pictures come, adds the
      player's introduced look and nothing else. */
  lemma IntroFold(v: View, d: Player, msgs: seq<S2C>)
    requires PicturesKeyed(d) && IsIntro(msgs, d)
    ensures ApplyAll(v, msgs) == Introduce(v, d)
  {
    var order :| IsOrder(order, d.pictures.Keys) && msgs == IntroHead(d) + ShowPackets(d, order);
    IntroFoldInOrder(v, d, order);
  }

  /** An introduction conveys the whole look exactly when sprite name and index are
      both default or both set. */
  lemma IntroIsFaithful(d: Player)
    ensures IntroLook(d) == LookOf(d) <==> (d.sprite == [] <==> d.spriteIndex == DEFAULT_SPRITE_INDEX)
  {
  }

  /** Every packet of an introduction can be carried by the wire. */
  ghost predicate PlayerClean(d: Player) {
    && Clean(d.name) && Clean(d.badge) && Clean(d.sprite) && Clean(d.sysName)
    && forall id :: id in d.pictures ==> Clean(d.pictures[id].picName)
  }

  ghost predicate Sendable(msgs: seq<S2C>) { forall p :: p in msgs ==> CleanS2C(p) }

  lemma SendableAppend(a: seq<S2C>, b: seq<S2C>)
    requires Sendable(a) && Sendable(b)
    ensures Sendable(a + b)
  {
  }

  lemma OptionalIsSendable(sent: bool, p: S2C)
    requires CleanS2C(p)
    ensures Sendable(Optional(sent, p))
  {
  }

  lemma PlaceIsSendable(d: Player)
    requires PlayerClean(d)
    ensures Sendable(IntroPlace(d))
  {
    assert CleanS2C(ConnectS2C(d.cid, d.account, d.rank, d.loggedIn, d.badge));
  }

  lemma NameIsSendable(d: Player)
    requires PlayerClean(d)
    ensures Sendable(IntroName(d))
  {
    OptionalIsSendable(d.name != [], NameS2C(d.cid, d.name));
    OptionalIsSendable(HasSprite(d), SpriteS2C(d.cid, d.sprite, d.spriteIndex));
  }

  lemma StyleIsSendable(d: Player)
    requires PlayerClean(d)
    ensures Sendable(IntroStyle(d))
  {
    OptionalIsSendable(d.sysName != [], SysNameS2C(d.cid, d.sysName));
  }

  lemma ShowsAreSendable(d: Player, order: seq<int32>)
    requires PlayerClean(d) && forall id :: id in order ==> id in d.pictures
    ensures Sendable(ShowPackets(d, order))
  {
    forall i | 0 <= i < |order| ensures CleanS2C(ShowPackets(d, order)[i]) {
      assert order[i] in order;
    }
  }

  lemma IntroIsSendable(d: Player, msgs: seq<S2C>)
    requires PlayerClean(d) && IsIntro(msgs, d)
    ensures Sendable(msgs)
  {
    var order :| IsOrder(order, d.pictures.Keys) && msgs == IntroHead(d) + ShowPackets(d, order);
    PlaceIsSendable(d);
    NameIsSendable(d);
    StyleIsSendable(d);
    SendableAppend(IntroPlace(d), IntroName(d));
    SendableAppend(IntroPlace(d) + IntroName(d), IntroStyle(d));
    SendableAppend(IntroPlace(d) + IntroName(d) + IntroStyle(d), IntroFlash(d));
    ShowsAreSendable(d, order);
    SendableAppend(IntroHead(d), ShowPackets(d, order));
  }
}
