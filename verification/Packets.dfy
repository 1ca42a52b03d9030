/** The messages of both directions. */
module Packets {
  import opened Basics
  import opened Delimiters

  datatype BasePicture = BasePicture(
    picID: int32, posX: int32, posY: int32, mapX: int32, mapY: int32, panX: int32, panY: int32, magnify: int32,
    topTransp: int32, bottomTransp: int32, r: int32, g: int32, b: int32, saturation: int32,
    effectMode: int32, effectPower: int32)

  datatype Picture = Picture(
    base: BasePicture, picName: Bytes, useTranspColor: bool, fixedToMap: bool, sheetCols: int32,
    sheetRows: int32, sheetFrame: int32, sheetSpeed: int32, playOnce: bool, mapLayer: int32,
    battleLayer: int32, flags: int32, blendMode: int32, flipX: bool, flipY: bool, origin: int32)

  datatype Flash = Flash(r: int32, g: int32, b: int32, power: int32, frames: int32)

  /** Server to client. */
  datatype S2C =
    | SyncPlayerDataS2C(hostID: int32, key: uint32, uuid: Uuid, rank: int32, isLoggedIn: bool, badge: Bytes)
    | RoomInfoS2C(roomID: int32)
    | ConnectS2C(id: int32, uuid: Uuid, rank: int32, isLoggedIn: bool, badge: Bytes)
    | DisconnectS2C(id: int32)
    | NameS2C(id: int32, name: Bytes)
    | MainPlayerPosS2C(id: int32, x: int32, y: int32)
    | JumpS2C(id: int32, x: int32, y: int32)
    | SpriteS2C(id: int32, name: Bytes, index: int32)
    | FacingS2C(id: int32, direction: int32)
    | SpeedS2C(id: int32, speed: int32)
    | HiddenS2C(id: int32, hidden: bool)
    | TransparencyS2C(id: int32, transparency: int32)
    | SysNameS2C(id: int32, name: Bytes)
    | SoundEffectS2C(id: int32, name: Bytes, volume: int32, tempo: int32, balance: int32)
    | FlashS2C(id: int32, flash: Flash)
    | RepeatingFlashS2C(id: int32, flash: Flash)
    | RemoveRepeatingFlashS2C(id: int32)
    | ShowPlayerBattleAnimS2C(id: int32, animID: int32)
    | BattleAnimSyncListS2C(ids: seq<int32>)
    | PictureSyncListS2C(kind: int32, list: seq<Bytes>)
    | ShowPictureS2C(id: int32, picture: Picture)
    | MovePictureS2C(id: int32, base: BasePicture, duration: int32)
    | ErasePictureS2C(id: int32, picID: int32)
    | SyncServerVariableS2C(varID: int32, value: int32)
    | CUTimeS2C(time: int32, randInt: int32)
    | CUWeatherS2C(temperature: int32, precipitation: int32)

  /** Client to server. */
  datatype C2S =
    | SwitchRoomC2S(roomID: int32)
    | MainPlayerPosC2S(x: int32, y: int32)
    | TeleportC2S(x: int32, y: int32)
    | JumpC2S(x: int32, y: int32)
    | SpeedC2S(speed: int32)
    | SpriteC2S(name: Bytes, index: int32)
    | FacingC2S(direction: int32)
    | HiddenC2S(hidden: bool)
    | SysNameC2S(name: Bytes)
    | TransparencyC2S(transparency: int32)
    | SoundEffectC2S(name: Bytes, volume: int32, tempo: int32, balance: int32)
    | FlashC2S(flash: Flash)
    | RepeatingFlashC2S(flash: Flash)
    | RemoveRepeatingFlashC2S
    | ShowPlayerBattleAnimC2S(animID: int32)
    | ShowPictureC2S(picture: Picture)
    | MovePictureC2S(base: BasePicture, duration: int32)
    | ErasePictureC2S(picID: int32)

  /** No string of the message holds a delimiter, and it holds no empty list. */
  ghost predicate CleanS2C(p: S2C) {
    match p
    case SyncPlayerDataS2C(_, _, _, _, _, badge) => Clean(badge)
    case ConnectS2C(_, _, _, _, badge) => Clean(badge)
    case NameS2C(_, name) => Clean(name)
    case SpriteS2C(_, name, _) => Clean(name)
    case SysNameS2C(_, name) => Clean(name)
    case SoundEffectS2C(_, name, _, _, _) => Clean(name)
    case BattleAnimSyncListS2C(ids) => ids != []
    case PictureSyncListS2C(_, list) => list != [] && forall s :: s in list ==> Clean(s)
    case ShowPictureS2C(_, picture) => Clean(picture.picName)
    case _ => true
  }

  ghost predicate CleanC2S(p: C2S) {
    match p
    case SpriteC2S(name, _) => Clean(name)
    case SysNameC2S(name) => Clean(name)
    case SoundEffectC2S(name, _, _, _) => Clean(name)
    case ShowPictureC2S(picture) => Clean(picture.picName)
    case _ => true
  }
}
