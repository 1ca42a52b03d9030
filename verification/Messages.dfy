/** The two registries, and the way a typed message is laid out as a value of its
    registered type. */
module Messages {
  import opened Basics
  import opened Leaves
  import opened Packets
  import opened Schema
  import opened Codec

  // Registered names, as ASCII
  const NAME_AP: Bytes := [0x61, 0x70]
  const NAME_BA: Bytes := [0x62, 0x61]
  const NAME_BAS: Bytes := [0x62, 0x61, 0x73]
  const NAME_C: Bytes := [0x63]
  const NAME_CUT: Bytes := [0x63, 0x75, 0x74]
  const NAME_CUW: Bytes := [0x63, 0x75, 0x77]
  const NAME_D: Bytes := [0x64]
  const NAME_F: Bytes := [0x66]
  const NAME_FL: Bytes := [0x66, 0x6c]
  const NAME_H: Bytes := [0x68]
  const NAME_JMP: Bytes := [0x6a, 0x6d, 0x70]
  const NAME_M: Bytes := [0x6d]
  const NAME_MP: Bytes := [0x6d, 0x70]
  const NAME_NAME: Bytes := [0x6e, 0x61, 0x6d, 0x65]
  const NAME_PNS: Bytes := [0x70, 0x6e, 0x73]
  const NAME_RFL: Bytes := [0x72, 0x66, 0x6c]
  const NAME_RI: Bytes := [0x72, 0x69]
  const NAME_RP: Bytes := [0x72, 0x70]
  const NAME_RRFL: Bytes := [0x72, 0x72, 0x66, 0x6c]
  const NAME_S: Bytes := [0x73]
  const NAME_SE: Bytes := [0x73, 0x65]
  const NAME_SPD: Bytes := [0x73, 0x70, 0x64]
  const NAME_SPR: Bytes := [0x73, 0x70, 0x72]
  const NAME_SR: Bytes := [0x73, 0x72]
  const NAME_SSV: Bytes := [0x73, 0x73, 0x76]
  const NAME_SYS: Bytes := [0x73, 0x79, 0x73]
  const NAME_TP: Bytes := [0x74, 0x70]
  const NAME_TR: Bytes := [0x74, 0x72]

  const INT32: Ty := TInt(W32)

  function IntFields(n: nat): (ts: seq<Ty>)
    ensures |ts| == n && forall i :: 0 <= i < n ==> ts[i] == INT32
  {
    seq(n, i => INT32)
  }

  const BASE_PICTURE: Ty := TStruct(IntFields(16))

  /** The embedded base picture, the name, then flags and numbers by position. */
  function PictureField(i: nat): Ty {
    if i == 0 then TPtr(BASE_PICTURE)
    else if i == 1 then TString
    else if i == 2 || i == 3 || i == 8 || i == 13 || i == 14 then TBool
    else INT32
  }

  function PictureFields(): (ts: seq<Ty>)
    ensures |ts| == 16 && forall i :: 0 <= i < 16 ==> ts[i] == PictureField(i)
  {
    seq(16, i requires 0 <= i < 16 => PictureField(i))
  }

  const PICTURE: Ty := TStruct(PictureFields())
  const FLASH: Ty := TStruct([INT32, INT32, INT32, INT32, INT32])

  const SYNC_PLAYER_DATA_S2C: Ty := TStruct([INT32, TUint(W32), TUuid, INT32, TBool, TString])
  const ROOM_INFO_S2C: Ty := TStruct([INT32])
  const CONNECT_S2C: Ty := TStruct([INT32, TUuid, INT32, TBool, TString])
  const DISCONNECT_S2C: Ty := TStruct([INT32])
  const NAME_S2C: Ty := TStruct([INT32, TString])
  const MAIN_PLAYER_POS_S2C: Ty := TStruct([INT32, INT32, INT32])
  const JUMP_S2C: Ty := TStruct([INT32, INT32, INT32])
  const SPRITE_S2C: Ty := TStruct([INT32, TString, INT32])
  const FACING_S2C: Ty := TStruct([INT32, INT32])
  const SPEED_S2C: Ty := TStruct([INT32, INT32])
  const HIDDEN_S2C: Ty := TStruct([INT32, TBool])
  const TRANSPARENCY_S2C: Ty := TStruct([INT32, INT32])
  const SYS_NAME_S2C: Ty := TStruct([INT32, TString])
  const SOUND_EFFECT_S2C: Ty := TStruct([INT32, TString, INT32, INT32, INT32])
  const FLASH_S2C: Ty := TStruct([INT32, TPtr(FLASH)])
  const REPEATING_FLASH_S2C: Ty := TStruct([INT32, TPtr(FLASH)])
  const REMOVE_REPEATING_FLASH_S2C: Ty := TStruct([INT32])
  const SHOW_PLAYER_BATTLE_ANIM_S2C: Ty := TStruct([INT32, INT32])
  const BATTLE_ANIM_SYNC_LIST_S2C: Ty := TStruct([TSlice(INT32)])
  const PICTURE_SYNC_LIST_S2C: Ty := TStruct([INT32, TSlice(TString)])
  const SHOW_PICTURE_S2C: Ty := TStruct([INT32, TPtr(PICTURE)])
  const MOVE_PICTURE_S2C: Ty := TStruct([INT32, TPtr(BASE_PICTURE), INT32])
  const ERASE_PICTURE_S2C: Ty := TStruct([INT32, INT32])
  const SYNC_SERVER_VARIABLE_S2C: Ty := TStruct([INT32, INT32])
  const CUTIME_S2C: Ty := TStruct([INT32, INT32])
  const CUWEATHER_S2C: Ty := TStruct([INT32, INT32])

  /** The declared struct of a message. */
  function S2CStruct(p: S2C): Ty {
    match p
    case SyncPlayerDataS2C(_, _, _, _, _, _) => SYNC_PLAYER_DATA_S2C
    case RoomInfoS2C(_) => ROOM_INFO_S2C
    case ConnectS2C(_, _, _, _, _) => CONNECT_S2C
    case DisconnectS2C(_) => DISCONNECT_S2C
    case NameS2C(_, _) => NAME_S2C
    case MainPlayerPosS2C(_, _, _) => MAIN_PLAYER_POS_S2C
    case JumpS2C(_, _, _) => JUMP_S2C
    case SpriteS2C(_, _, _) => SPRITE_S2C
    case FacingS2C(_, _) => FACING_S2C
    case SpeedS2C(_, _) => SPEED_S2C
    case HiddenS2C(_, _) => HIDDEN_S2C
    case TransparencyS2C(_, _) => TRANSPARENCY_S2C
    case SysNameS2C(_, _) => SYS_NAME_S2C
    case SoundEffectS2C(_, _, _, _, _) => SOUND_EFFECT_S2C
    case FlashS2C(_, _) => FLASH_S2C
    case RepeatingFlashS2C(_, _) => REPEATING_FLASH_S2C
    case RemoveRepeatingFlashS2C(_) => REMOVE_REPEATING_FLASH_S2C
    case ShowPlayerBattleAnimS2C(_, _) => SHOW_PLAYER_BATTLE_ANIM_S2C
    case BattleAnimSyncListS2C(_) => BATTLE_ANIM_SYNC_LIST_S2C
    case PictureSyncListS2C(_, _) => PICTURE_SYNC_LIST_S2C
    case ShowPictureS2C(_, _) => SHOW_PICTURE_S2C
    case MovePictureS2C(_, _, _) => MOVE_PICTURE_S2C
    case ErasePictureS2C(_, _) => ERASE_PICTURE_S2C
    case SyncServerVariableS2C(_, _) => SYNC_SERVER_VARIABLE_S2C
    case CUTimeS2C(_, _) => CUTIME_S2C
    case CUWeatherS2C(_, _) => CUWEATHER_S2C
  }

  /** What the server registers for the messages it sends. */
  function S2CType(name: Bytes): Option<Ty> {
    if name == NAME_S then Some(SYNC_PLAYER_DATA_S2C)
    else if name == NAME_RI then Some(ROOM_INFO_S2C)
    else if name == NAME_C then Some(CONNECT_S2C)
    else if name == NAME_D then Some(DISCONNECT_S2C)
    else if name == NAME_NAME then Some(NAME_S2C)
    else if name == NAME_M then Some(MAIN_PLAYER_POS_S2C)
    else if name == NAME_JMP then Some(JUMP_S2C)
    else if name == NAME_SPR then Some(SPRITE_S2C)
    else if name == NAME_F then Some(FACING_S2C)
    else if name == NAME_SPD then Some(SPEED_S2C)
    else if name == NAME_H then Some(HIDDEN_S2C)
    else if name == NAME_TR then Some(TRANSPARENCY_S2C)
    else if name == NAME_SYS then Some(SYS_NAME_S2C)
    else if name == NAME_SE then Some(SOUND_EFFECT_S2C)
    else if name == NAME_FL then Some(FLASH_S2C)
    else if name == NAME_RFL then Some(REPEATING_FLASH_S2C)
    else if name == NAME_RRFL then Some(REMOVE_REPEATING_FLASH_S2C)
    else if name == NAME_BA then Some(SHOW_PLAYER_BATTLE_ANIM_S2C)
    else if name == NAME_BAS then Some(BATTLE_ANIM_SYNC_LIST_S2C)
    else if name == NAME_PNS then Some(PICTURE_SYNC_LIST_S2C)
    else if name == NAME_AP then Some(SHOW_PICTURE_S2C)
    else if name == NAME_MP then Some(MOVE_PICTURE_S2C)
    else if name == NAME_RP then Some(ERASE_PICTURE_S2C)
    else if name == NAME_SSV then Some(SYNC_SERVER_VARIABLE_S2C)
    else if name == NAME_CUT then Some(CUTIME_S2C)
    else if name == NAME_CUW then Some(CUWEATHER_S2C)
    else None
  }

  const SWITCH_ROOM_C2S: Ty := TStruct([INT32])
  const MAIN_PLAYER_POS_C2S: Ty := TStruct([INT32, INT32])
  const TELEPORT_C2S: Ty := TStruct([INT32, INT32])
  const JUMP_C2S: Ty := TStruct([INT32, INT32])
  const SPEED_C2S: Ty := TStruct([INT32])
  const SPRITE_C2S: Ty := TStruct([TString, INT32])
  const FACING_C2S: Ty := TStruct([INT32])
  const HIDDEN_C2S: Ty := TStruct([TBool])
  const SYS_NAME_C2S: Ty := TStruct([TString])
  const TRANSPARENCY_C2S: Ty := TStruct([INT32])
  const SOUND_EFFECT_C2S: Ty := TStruct([TString, INT32, INT32, INT32])
  const FLASH_C2S: Ty := TStruct([TPtr(FLASH)])
  const REPEATING_FLASH_C2S: Ty := TStruct([TPtr(FLASH)])
  const REMOVE_REPEATING_FLASH_C2S: Ty := TStruct([])
  const SHOW_PLAYER_BATTLE_ANIM_C2S: Ty := TStruct([INT32])
  const SHOW_PICTURE_C2S: Ty := TStruct([TPtr(PICTURE)])
  const MOVE_PICTURE_C2S: Ty := TStruct([TPtr(BASE_PICTURE), INT32])
  const ERASE_PICTURE_C2S: Ty := TStruct([INT32])

  /** The declared struct of a message. */
  function C2SStruct(p: C2S): Ty {
    match p
    case SwitchRoomC2S(_) => SWITCH_ROOM_C2S
    case MainPlayerPosC2S(_, _) => MAIN_PLAYER_POS_C2S
    case TeleportC2S(_, _) => TELEPORT_C2S
    case JumpC2S(_, _) => JUMP_C2S
    case SpeedC2S(_) => SPEED_C2S
    case SpriteC2S(_, _) => SPRITE_C2S
    case FacingC2S(_) => FACING_C2S
    case HiddenC2S(_) => HIDDEN_C2S
    case SysNameC2S(_) => SYS_NAME_C2S
    case TransparencyC2S(_) => TRANSPARENCY_C2S
    case SoundEffectC2S(_, _, _, _) => SOUND_EFFECT_C2S
    case FlashC2S(_) => FLASH_C2S
    case RepeatingFlashC2S(_) => REPEATING_FLASH_C2S
    case RemoveRepeatingFlashC2S => REMOVE_REPEATING_FLASH_C2S
    case ShowPlayerBattleAnimC2S(_) => SHOW_PLAYER_BATTLE_ANIM_C2S
    case ShowPictureC2S(_) => SHOW_PICTURE_C2S
    case MovePictureC2S(_, _) => MOVE_PICTURE_C2S
    case ErasePictureC2S(_) => ERASE_PICTURE_C2S
  }

  /** What the server registers for the messages it accepts. */
  function C2SType(name: Bytes): Option<Ty> {
    if name == NAME_SR then Some(SWITCH_ROOM_C2S)
    else if name == NAME_M then Some(MAIN_PLAYER_POS_C2S)
    else if name == NAME_TP then Some(TELEPORT_C2S)
    else if name == NAME_JMP then Some(JUMP_C2S)
    else if name == NAME_SPD then Some(SPEED_C2S)
    else if name == NAME_SPR then Some(SPRITE_C2S)
    else if name == NAME_F then Some(FACING_C2S)
    else if name == NAME_H then Some(HIDDEN_C2S)
    else if name == NAME_SYS then Some(SYS_NAME_C2S)
    else if name == NAME_TR then Some(TRANSPARENCY_C2S)
    else if name == NAME_SE then Some(SOUND_EFFECT_C2S)
    else if name == NAME_FL then Some(FLASH_C2S)
    else if name == NAME_RFL then Some(REPEATING_FLASH_C2S)
    else if name == NAME_RRFL then Some(REMOVE_REPEATING_FLASH_C2S)
    else if name == NAME_BA then Some(SHOW_PLAYER_BATTLE_ANIM_C2S)
    else if name == NAME_AP then Some(SHOW_PICTURE_C2S)
    else if name == NAME_MP then Some(MOVE_PICTURE_C2S)
    else if name == NAME_RP then Some(ERASE_PICTURE_C2S)
    else None
  }

  const S2C_REGISTRY: Registry := name => S2CType(name)
  const C2S_REGISTRY: Registry := name => C2SType(name)

  function BasePicturePart(p: BasePicture, i: nat): Value {
    match i
    case 0 => VInt(p.picID)
    case 1 => VInt(p.posX)
    case 2 => VInt(p.posY)
    case 3 => VInt(p.mapX)
    case 4 => VInt(p.mapY)
    case 5 => VInt(p.panX)
    case 6 => VInt(p.panY)
    case 7 => VInt(p.magnify)
    case 8 => VInt(p.topTransp)
    case 9 => VInt(p.bottomTransp)
    case 10 => VInt(p.r)
    case 11 => VInt(p.g)
    case 12 => VInt(p.b)
    case 13 => VInt(p.saturation)
    case 14 => VInt(p.effectMode)
    case _ => VInt(p.effectPower)
  }

  function BasePictureValue(p: BasePicture): (v: Value)
    ensures v.VStruct? && |v.fields| == 16 && forall i :: 0 <= i < 16 ==> v.fields[i] == BasePicturePart(p, i)
  {
    VStruct(seq(16, i requires 0 <= i < 16 => BasePicturePart(p, i)))
  }

  function PicturePart(p: Picture, i: nat): Value {
    match i
    case 0 => VPtr(BasePictureValue(p.base))
    case 1 => VString(p.picName)
    case 2 => VBool(p.useTranspColor)
    case 3 => VBool(p.fixedToMap)
    case 4 => VInt(p.sheetCols)
    case 5 => VInt(p.sheetRows)
    case 6 => VInt(p.sheetFrame)
    case 7 => VInt(p.sheetSpeed)
    case 8 => VBool(p.playOnce)
    case 9 => VInt(p.mapLayer)
    case 10 => VInt(p.battleLayer)
    case 11 => VInt(p.flags)
    case 12 => VInt(p.blendMode)
    case 13 => VBool(p.flipX)
    case 14 => VBool(p.flipY)
    case _ => VInt(p.origin)
  }

  function PictureValue(p: Picture): (v: Value)
    ensures v.VStruct? && |v.fields| == 16 && forall i :: 0 <= i < 16 ==> v.fields[i] == PicturePart(p, i)
  {
    VStruct(seq(16, i requires 0 <= i < 16 => PicturePart(p, i)))
  }

  function FlashValue(f: Flash): Value {
    VStruct([VInt(f.r), VInt(f.g), VInt(f.b), VInt(f.power), VInt(f.frames)])
  }

  function IntList(ids: seq<int32>): Value { VSlice(seq(|ids|, i requires 0 <= i < |ids| => VInt(ids[i]))) }

  function StringList(list: seq<Bytes>): Value { VSlice(seq(|list|, i requires 0 <= i < |list| => VString(list[i]))) }

  function S2CMsg(p: S2C): Msg {
    match p
    case SyncPlayerDataS2C(hostID, key, uuid, rank, isLoggedIn, badge) =>
      Msg(NAME_S, VStruct([VInt(hostID), VUint(key), VUuid(uuid), VInt(rank), VBool(isLoggedIn), VString(badge)]))
    case RoomInfoS2C(roomID) => Msg(NAME_RI, VStruct([VInt(roomID)]))
    case ConnectS2C(id, uuid, rank, isLoggedIn, badge) =>
      Msg(NAME_C, VStruct([VInt(id), VUuid(uuid), VInt(rank), VBool(isLoggedIn), VString(badge)]))
    case DisconnectS2C(id) => Msg(NAME_D, VStruct([VInt(id)]))
    case NameS2C(id, name) => Msg(NAME_NAME, VStruct([VInt(id), VString(name)]))
    case MainPlayerPosS2C(id, x, y) => Msg(NAME_M, VStruct([VInt(id), VInt(x), VInt(y)]))
    case JumpS2C(id, x, y) => Msg(NAME_JMP, VStruct([VInt(id), VInt(x), VInt(y)]))
    case SpriteS2C(id, name, index) => Msg(NAME_SPR, VStruct([VInt(id), VString(name), VInt(index)]))
    case FacingS2C(id, direction) => Msg(NAME_F, VStruct([VInt(id), VInt(direction)]))
    case SpeedS2C(id, speed) => Msg(NAME_SPD, VStruct([VInt(id), VInt(speed)]))
    case HiddenS2C(id, hidden) => Msg(NAME_H, VStruct([VInt(id), VBool(hidden)]))
    case TransparencyS2C(id, transparency) => Msg(NAME_TR, VStruct([VInt(id), VInt(transparency)]))
    case SysNameS2C(id, name) => Msg(NAME_SYS, VStruct([VInt(id), VString(name)]))
    case SoundEffectS2C(id, name, volume, tempo, balance) =>
      Msg(NAME_SE, VStruct([VInt(id), VString(name), VInt(volume), VInt(tempo), VInt(balance)]))
    case FlashS2C(id, flash) => Msg(NAME_FL, VStruct([VInt(id), VPtr(FlashValue(flash))]))
    case RepeatingFlashS2C(id, flash) => Msg(NAME_RFL, VStruct([VInt(id), VPtr(FlashValue(flash))]))
    case RemoveRepeatingFlashS2C(id) => Msg(NAME_RRFL, VStruct([VInt(id)]))
    case ShowPlayerBattleAnimS2C(id, animID) => Msg(NAME_BA, VStruct([VInt(id), VInt(animID)]))
    case BattleAnimSyncListS2C(ids) => Msg(NAME_BAS, VStruct([IntList(ids)]))
    case PictureSyncListS2C(kind, list) => Msg(NAME_PNS, VStruct([VInt(kind), StringList(list)]))
    case ShowPictureS2C(id, picture) => Msg(NAME_AP, VStruct([VInt(id), VPtr(PictureValue(picture))]))
    case MovePictureS2C(id, base, duration) =>
      Msg(NAME_MP, VStruct([VInt(id), VPtr(BasePictureValue(base)), VInt(duration)]))
    case ErasePictureS2C(id, picID) => Msg(NAME_RP, VStruct([VInt(id), VInt(picID)]))
    case SyncServerVariableS2C(varID, value) => Msg(NAME_SSV, VStruct([VInt(varID), VInt(value)]))
    case CUTimeS2C(time, randInt) => Msg(NAME_CUT, VStruct([VInt(time), VInt(randInt)]))
    case CUWeatherS2C(temperature, precipitation) => Msg(NAME_CUW, VStruct([VInt(temperature), VInt(precipitation)]))
  }

  /** How a client lays out the messages it sends. */
  function C2SMsg(p: C2S): Msg {
    match p
    case SwitchRoomC2S(roomID) => Msg(NAME_SR, VStruct([VInt(roomID)]))
    case MainPlayerPosC2S(x, y) => Msg(NAME_M, VStruct([VInt(x), VInt(y)]))
    case TeleportC2S(x, y) => Msg(NAME_TP, VStruct([VInt(x), VInt(y)]))
    case JumpC2S(x, y) => Msg(NAME_JMP, VStruct([VInt(x), VInt(y)]))
    case SpeedC2S(speed) => Msg(NAME_SPD, VStruct([VInt(speed)]))
    case SpriteC2S(name, index) => Msg(NAME_SPR, VStruct([VString(name), VInt(index)]))
    case FacingC2S(direction) => Msg(NAME_F, VStruct([VInt(direction)]))
    case HiddenC2S(hidden) => Msg(NAME_H, VStruct([VBool(hidden)]))
    case SysNameC2S(name) => Msg(NAME_SYS, VStruct([VString(name)]))
    case TransparencyC2S(transparency) => Msg(NAME_TR, VStruct([VInt(transparency)]))
    case SoundEffectC2S(name, volume, tempo, balance) =>
      Msg(NAME_SE, VStruct([VString(name), VInt(volume), VInt(tempo), VInt(balance)]))
    case FlashC2S(flash) => Msg(NAME_FL, VStruct([VPtr(FlashValue(flash))]))
    case RepeatingFlashC2S(flash) => Msg(NAME_RFL, VStruct([VPtr(FlashValue(flash))]))
    case RemoveRepeatingFlashC2S => Msg(NAME_RRFL, VStruct([]))
    case ShowPlayerBattleAnimC2S(animID) => Msg(NAME_BA, VStruct([VInt(animID)]))
    case ShowPictureC2S(picture) => Msg(NAME_AP, VStruct([VPtr(PictureValue(picture))]))
    case MovePictureC2S(base, duration) => Msg(NAME_MP, VStruct([VPtr(BasePictureValue(base)), VInt(duration)]))
    case ErasePictureC2S(picID) => Msg(NAME_RP, VStruct([VInt(picID)]))
  }

  // Field accessors. A field of another kind reads as a default;
  // Wire.ReadingIsWhole shows that this never happens on a value of the registered type.
  function IntAt(v: Value, i: nat): int32 {
    if v.VStruct? && i < |v.fields| && v.fields[i].VInt? && FitsInt(v.fields[i].i, W32) then v.fields[i].i else 0
  }

  function TextAt(v: Value, i: nat): Bytes {
    if v.VStruct? && i < |v.fields| && v.fields[i].VString? then v.fields[i].s else []
  }

  function BoolAt(v: Value, i: nat): bool {
    v.VStruct? && i < |v.fields| && v.fields[i].VBool? && v.fields[i].b
  }

  function TargetAt(v: Value, i: nat): Value {
    if v.VStruct? && i < |v.fields| && v.fields[i].VPtr? then v.fields[i].target else VStruct([])
  }

  function ReadBasePicture(v: Value): BasePicture {
    BasePicture(IntAt(v, 0), IntAt(v, 1), IntAt(v, 2), IntAt(v, 3), IntAt(v, 4), IntAt(v, 5), IntAt(v, 6),
      IntAt(v, 7), IntAt(v, 8), IntAt(v, 9), IntAt(v, 10), IntAt(v, 11), IntAt(v, 12), IntAt(v, 13),
      IntAt(v, 14), IntAt(v, 15))
  }

  function ReadPicture(v: Value): Picture {
    Picture(ReadBasePicture(TargetAt(v, 0)), TextAt(v, 1), BoolAt(v, 2), BoolAt(v, 3), IntAt(v, 4),
      IntAt(v, 5), IntAt(v, 6), IntAt(v, 7), BoolAt(v, 8), IntAt(v, 9), IntAt(v, 10), IntAt(v, 11), IntAt(v, 12),
      BoolAt(v, 13), BoolAt(v, 14), IntAt(v, 15))
  }

  function ReadFlash(v: Value): Flash {
    Flash(IntAt(v, 0), IntAt(v, 1), IntAt(v, 2), IntAt(v, 3), IntAt(v, 4))
  }

  /** The typed message that a deserialised one stands for. */
  function ReadC2S(m: Msg): C2S {
    var v := m.val;
    if m.name == NAME_SR then SwitchRoomC2S(IntAt(v, 0))
    else if m.name == NAME_M then MainPlayerPosC2S(IntAt(v, 0), IntAt(v, 1))
    else if m.name == NAME_TP then TeleportC2S(IntAt(v, 0), IntAt(v, 1))
    else if m.name == NAME_JMP then JumpC2S(IntAt(v, 0), IntAt(v, 1))
    else if m.name == NAME_SPD then SpeedC2S(IntAt(v, 0))
    else if m.name == NAME_SPR then SpriteC2S(TextAt(v, 0), IntAt(v, 1))
    else if m.name == NAME_F then FacingC2S(IntAt(v, 0))
    else if m.name == NAME_H then HiddenC2S(BoolAt(v, 0))
    else if m.name == NAME_SYS then SysNameC2S(TextAt(v, 0))
    else if m.name == NAME_TR then TransparencyC2S(IntAt(v, 0))
    else if m.name == NAME_SE then SoundEffectC2S(TextAt(v, 0), IntAt(v, 1), IntAt(v, 2), IntAt(v, 3))
    else if m.name == NAME_FL then FlashC2S(ReadFlash(TargetAt(v, 0)))
    else if m.name == NAME_RFL then RepeatingFlashC2S(ReadFlash(TargetAt(v, 0)))
    else if m.name == NAME_RRFL then RemoveRepeatingFlashC2S
    else if m.name == NAME_BA then ShowPlayerBattleAnimC2S(IntAt(v, 0))
    else if m.name == NAME_AP then ShowPictureC2S(ReadPicture(TargetAt(v, 0)))
    else if m.name == NAME_MP then MovePictureC2S(ReadBasePicture(TargetAt(v, 0)), IntAt(v, 1))
    else ErasePictureC2S(IntAt(v, 0))
  }
}
