/** Which messages a legitimate client can send: value ranges and the assets that
    the game ships. */
module Validate {
  import opened Basics
  import opened Packets

  datatype Filters = Filters(
    sprites: set<Bytes>,
    systems: set<Bytes>,
    maps: set<int32>,
    singleplayer: set<int32>,
    pictureNames: seq<Bytes>,
    picturePrefixes: seq<Bytes>,
    battleAnimIDs: seq<int32>)
  {
    predicate HasPicture(name: Bytes) {
      name in pictureNames || exists i :: 0 <= i < |picturePrefixes| && picturePrefixes[i] <= name
    }
  }

  const MIN_SPRITE_INDEX := 0
  const MIN_XY := 0
  const MAX_XY := 500
  const MIN_FACING := 0
  const MAX_FACING := 3
  const MIN_SPEED := 0
  const MAX_SPEED := 10
  const MIN_TRANSPARENCY := 0
  const MAX_TRANSPARENCY := 7
  const MIN_SOUND_VOLUME := 0
  const MAX_SOUND_VOLUME := 100
  const MIN_SOUND_TEMPO := 10
  const MAX_SOUND_TEMPO := 400
  const MIN_SOUND_BALANCE := 0
  const MAX_SOUND_BALANCE := 100
  const MIN_RGB := 0
  const MAX_RGB := 255
  const MIN_FLASH_POWER := 0
  const MIN_FLASH_FRAMES := 0
  const MIN_PIC_ID := 0
  const MAX_PIC_ID := 1000
  const MIN_PIC_MAGNIFY := 0
  const MIN_PIC_RGBS := 0
  const MAX_PIC_RGBS := 200
  const MIN_PIC_EFFECT_MODE := 0
  const MIN_PIC_DURATION := 0

  predicate IsValidXY(p: int32) { MIN_XY <= p <= MAX_XY }

  predicate IsValidFacing(facing: int32) { MIN_FACING <= facing <= MAX_FACING }

  predicate IsValidSpeed(speed: int32) { MIN_SPEED <= speed <= MAX_SPEED }

  predicate IsValidTransparency(t: int32) { MIN_TRANSPARENCY <= t <= MAX_TRANSPARENCY }

  predicate IsValidRGB(x: int32) { MIN_RGB <= x <= MAX_RGB }

  predicate IsValidPicID(id: int32) { MIN_PIC_ID <= id <= MAX_PIC_ID }

  predicate IsValidPicRGBS(c: int32) { MIN_PIC_RGBS <= c <= MAX_PIC_RGBS }

  datatype Rejection =
    | UnknownRoom(roomID: int32)
    | UnknownAsset(name: Bytes)
    | UnknownBattleAnim(animID: int32)
    | OutOfRange(value: int32)

  function ValidateBasePicture(bp: BasePicture): Option<Rejection> {
    if !IsValidPicID(bp.picID) then Some(OutOfRange(bp.picID))
    else if bp.magnify < MIN_PIC_MAGNIFY then Some(OutOfRange(bp.magnify))
    else if !IsValidPicRGBS(bp.r) then Some(OutOfRange(bp.r))
    else if !IsValidPicRGBS(bp.g) then Some(OutOfRange(bp.g))
    else if !IsValidPicRGBS(bp.b) then Some(OutOfRange(bp.b))
    else if !IsValidPicRGBS(bp.saturation) then Some(OutOfRange(bp.saturation))
    else if bp.effectMode < MIN_PIC_EFFECT_MODE then Some(OutOfRange(bp.effectMode))
    else None
  }

  function ValidateFlash(f: Flash): Option<Rejection> {
    if !IsValidRGB(f.r) then Some(OutOfRange(f.r))
    else if !IsValidRGB(f.g) then Some(OutOfRange(f.g))
    else if !IsValidRGB(f.b) then Some(OutOfRange(f.b))
    else if f.power < MIN_FLASH_POWER then Some(OutOfRange(f.power))
    else if f.frames < MIN_FLASH_FRAMES then Some(OutOfRange(f.frames))
    else None
  }

  function ValidateXY(x: int32, y: int32): Option<Rejection> {
    if !IsValidXY(x) then Some(OutOfRange(x))
    else if !IsValidXY(y) then Some(OutOfRange(y))
    else None
  }

  /** None if the message is acceptable in a server with these rooms and assets. */
  function ValidateMessage(f: Filters, rooms: set<int32>, m: C2S): Option<Rejection> {
    match m
    case SwitchRoomC2S(roomID) => if roomID !in rooms then Some(UnknownRoom(roomID)) else None
    case FacingC2S(direction) => if !IsValidFacing(direction) then Some(OutOfRange(direction)) else None
    case SpeedC2S(speed) => if !IsValidSpeed(speed) then Some(OutOfRange(speed)) else None
    case SysNameC2S(name) => if name !in f.systems then Some(UnknownAsset(name)) else None
    case SpriteC2S(name, index) =>
      if name !in f.sprites then Some(UnknownAsset(name))
      else if index < MIN_SPRITE_INDEX then Some(OutOfRange(index))
      else None
    case HiddenC2S(_) => None
    case MainPlayerPosC2S(x, y) => ValidateXY(x, y)
    case TeleportC2S(x, y) => ValidateXY(x, y)
    case JumpC2S(x, y) => ValidateXY(x, y)
    case TransparencyC2S(t) => if !IsValidTransparency(t) then Some(OutOfRange(t)) else None
    case SoundEffectC2S(_, volume, tempo, balance) =>
      if !(MIN_SOUND_VOLUME <= volume <= MAX_SOUND_VOLUME) then Some(OutOfRange(volume))
      else if !(MIN_SOUND_TEMPO <= tempo <= MAX_SOUND_TEMPO) then Some(OutOfRange(tempo))
      else if !(MIN_SOUND_BALANCE <= balance <= MAX_SOUND_BALANCE) then Some(OutOfRange(balance))
      else None
    case FlashC2S(flash) => ValidateFlash(flash)
    case RepeatingFlashC2S(flash) => ValidateFlash(flash)
    case RemoveRepeatingFlashC2S => None
    case ShowPlayerBattleAnimC2S(animID) => if animID !in f.battleAnimIDs then Some(UnknownBattleAnim(animID)) else None
    case ShowPictureC2S(picture) =>
      var base := ValidateBasePicture(picture.base);
      if base.Some? then base
      else if !f.HasPicture(picture.picName) then Some(UnknownAsset(picture.picName))
      else None
    case MovePictureC2S(base, duration) =>
      var r := ValidateBasePicture(base);
      if r.Some? then r
      else if duration < MIN_PIC_DURATION then Some(OutOfRange(duration))
      else None
    case ErasePictureC2S(picID) => if !IsValidPicID(picID) then Some(OutOfRange(picID)) else None
  }

  predicate Acceptable(f: Filters, rooms: set<int32>, m: C2S) { ValidateMessage(f, rooms, m).None? }

  // ---------- What that means ----------

  /** Listed by name, or starting with a listed prefix. */
  ghost predicate KnownPicture(f: Filters, name: Bytes) {
    name in f.pictureNames || exists prefix :: prefix in f.picturePrefixes && prefix <= name
  }

  ghost predicate LegitimateBase(b: BasePicture) {
    && 0 <= b.picID <= 1000 && 0 <= b.magnify && 0 <= b.effectMode
    && 0 <= b.r <= 200 && 0 <= b.g <= 200 && 0 <= b.b <= 200 && 0 <= b.saturation <= 200
  }

  ghost predicate LegitimateFlash(f: Flash) {
    0 <= f.r <= 255 && 0 <= f.g <= 255 && 0 <= f.b <= 255 && 0 <= f.power && 0 <= f.frames
  }

  /** Everything that a legitimate client can send, by the fields of the message. */
  ghost predicate Legitimate(f: Filters, rooms: set<int32>, m: C2S) {
    && (m.SwitchRoomC2S? ==> m.roomID in rooms)
    && (m.MainPlayerPosC2S? || m.TeleportC2S? || m.JumpC2S? ==> 0 <= m.x <= 500 && 0 <= m.y <= 500)
    && (m.SpeedC2S? ==> 0 <= m.speed <= 10)
    && (m.FacingC2S? ==> 0 <= m.direction <= 3)
    && (m.TransparencyC2S? ==> 0 <= m.transparency <= 7)
    && (m.SpriteC2S? ==> m.name in f.sprites && 0 <= m.index)
    && (m.SysNameC2S? ==> m.name in f.systems)
    && (m.SoundEffectC2S? ==> 0 <= m.volume <= 100 && 10 <= m.tempo <= 400 && 0 <= m.balance <= 100)
    && (m.FlashC2S? || m.RepeatingFlashC2S? ==> LegitimateFlash(m.flash))
    && (m.ShowPlayerBattleAnimC2S? ==> m.animID in f.battleAnimIDs)
    && (m.ShowPictureC2S? ==> LegitimateBase(m.picture.base) && KnownPicture(f, m.picture.picName))
    && (m.MovePictureC2S? ==> LegitimateBase(m.base) && 0 <= m.duration)
    && (m.ErasePictureC2S? ==> 0 <= m.picID <= 1000)
  }

  lemma KnownPictureIs(f: Filters, name: Bytes)
    ensures f.HasPicture(name) <==> KnownPicture(f, name)
  {
    if exists prefix :: prefix in f.picturePrefixes && prefix <= name {
      var prefix :| prefix in f.picturePrefixes && prefix <= name;
      var i :| 0 <= i < |f.picturePrefixes| && f.picturePrefixes[i] == prefix;
      assert f.picturePrefixes[i] <= name;
    }
    if i :| 0 <= i < |f.picturePrefixes| && f.picturePrefixes[i] <= name {
      assert f.picturePrefixes[i] in f.picturePrefixes;
    }
  }

  lemma LegitimateBaseIs(b: BasePicture)
    ensures ValidateBasePicture(b).None? <==> LegitimateBase(b)
  {
  }

  /** A message is accepted exactly if a legitimate client can send it. */
  lemma AcceptableIsLegitimate(f: Filters, rooms: set<int32>, m: C2S)
    ensures Acceptable(f, rooms, m) <==> Legitimate(f, rooms, m)
  {
    if m.ShowPictureC2S? {
      LegitimateBaseIs(m.picture.base);
      KnownPictureIs(f, m.picture.picName);
    } else if m.MovePictureC2S? {
      LegitimateBaseIs(m.base);
    }
  }

  ghost predicate AllLegitimate(f: Filters, rooms: set<int32>, ms: seq<C2S>) {
    forall m :: m in ms ==> Legitimate(f, rooms, m)
  }
}
