/** The text of each message, name and fields in the order in which they are written. */
module Layout {
  import opened Basics
  import opened Delimiters
  import opened Leaves
  import opened Schema
  import opened Codec
  import opened Packets
  import opened Messages
  import Wire

  function Ascii(s: string): Bytes
    requires forall i :: 0 <= i < |s| ==> s[i] < 128 as char
  {
    seq(|s|, i requires 0 <= i < |s| => s[i] as int)
  }

  function Dec(n: int): Bytes { FormatInt(n) }

  function Bit(b: bool): Bytes { if b then [0x31] else [0x30] }

  // ---------- What is written ----------

  function BaseTexts(b: BasePicture): seq<Bytes> {
    [Dec(b.picID), Dec(b.posX), Dec(b.posY), Dec(b.mapX), Dec(b.mapY), Dec(b.panX), Dec(b.panY), Dec(b.magnify),
     Dec(b.topTransp), Dec(b.bottomTransp), Dec(b.r), Dec(b.g), Dec(b.b), Dec(b.saturation),
     Dec(b.effectMode), Dec(b.effectPower)]
  }

  function PictureTexts(p: Picture): seq<Bytes> { BaseTexts(p.base) + StyleTexts(p) }

  function StyleTexts(p: Picture): seq<Bytes> {
    [p.picName, Bit(p.useTranspColor), Bit(p.fixedToMap), Dec(p.sheetCols), Dec(p.sheetRows), Dec(p.sheetFrame),
     Dec(p.sheetSpeed), Bit(p.playOnce), Dec(p.mapLayer), Dec(p.battleLayer), Dec(p.flags), Dec(p.blendMode),
     Bit(p.flipX), Bit(p.flipY), Dec(p.origin)]
  }

  function FlashTexts(f: Flash): seq<Bytes> { [Dec(f.r), Dec(f.g), Dec(f.b), Dec(f.power), Dec(f.frames)] }

  function ListTexts(texts: seq<Bytes>): seq<Bytes> { if texts == [] then [[]] else texts }

  /** The parts of a message that the server sends. */
  function Sent(p: S2C): seq<Bytes> {
    match p
    case SyncPlayerDataS2C(hostID, key, uuid, rank, isLoggedIn, badge) =>
      [Ascii("s"), Dec(hostID), Dec(key), FormatUuid(uuid), Dec(rank), Bit(isLoggedIn), badge]
    case RoomInfoS2C(roomID) => [Ascii("ri"), Dec(roomID)]
    case ConnectS2C(id, uuid, rank, isLoggedIn, badge) =>
      [Ascii("c"), Dec(id), FormatUuid(uuid), Dec(rank), Bit(isLoggedIn), badge]
    case DisconnectS2C(id) => [Ascii("d"), Dec(id)]
    case NameS2C(id, name) => [Ascii("name"), Dec(id), name]
    case MainPlayerPosS2C(id, x, y) => [Ascii("m"), Dec(id), Dec(x), Dec(y)]
    case JumpS2C(id, x, y) => [Ascii("jmp"), Dec(id), Dec(x), Dec(y)]
    case SpriteS2C(id, name, index) => [Ascii("spr"), Dec(id), name, Dec(index)]
    case FacingS2C(id, direction) => [Ascii("f"), Dec(id), Dec(direction)]
    case SpeedS2C(id, speed) => [Ascii("spd"), Dec(id), Dec(speed)]
    case HiddenS2C(id, hidden) => [Ascii("h"), Dec(id), Bit(hidden)]
    case TransparencyS2C(id, transparency) => [Ascii("tr"), Dec(id), Dec(transparency)]
    case SysNameS2C(id, name) => [Ascii("sys"), Dec(id), name]
    case SoundEffectS2C(id, name, volume, tempo, balance) =>
      [Ascii("se"), Dec(id), name, Dec(volume), Dec(tempo), Dec(balance)]
    case FlashS2C(id, flash) => [Ascii("fl"), Dec(id)] + FlashTexts(flash)
    case RepeatingFlashS2C(id, flash) => [Ascii("rfl"), Dec(id)] + FlashTexts(flash)
    case RemoveRepeatingFlashS2C(id) => [Ascii("rrfl"), Dec(id)]
    case ShowPlayerBattleAnimS2C(id, animID) => [Ascii("ba"), Dec(id), Dec(animID)]
    case BattleAnimSyncListS2C(ids) =>
      [Ascii("bas")] + ListTexts(seq(|ids|, i requires 0 <= i < |ids| => Dec(ids[i])))
    case PictureSyncListS2C(kind, list) => [Ascii("pns"), Dec(kind)] + ListTexts(list)
    case ShowPictureS2C(id, picture) => [Ascii("ap"), Dec(id)] + PictureTexts(picture)
    case MovePictureS2C(id, base, duration) => [Ascii("mp"), Dec(id)] + BaseTexts(base) + [Dec(duration)]
    case ErasePictureS2C(id, picID) => [Ascii("rp"), Dec(id), Dec(picID)]
    case SyncServerVariableS2C(varID, value) => [Ascii("ssv"), Dec(varID), Dec(value)]
    case CUTimeS2C(time, randInt) => [Ascii("cut"), Dec(time), Dec(randInt)]
    case CUWeatherS2C(temperature, precipitation) => [Ascii("cuw"), Dec(temperature), Dec(precipitation)]
  }

  /** The parts of a message that a client sends. */
  function Received(p: C2S): seq<Bytes> {
    match p
    case SwitchRoomC2S(roomID) => [Ascii("sr"), Dec(roomID)]
    case MainPlayerPosC2S(x, y) => [Ascii("m"), Dec(x), Dec(y)]
    case TeleportC2S(x, y) => [Ascii("tp"), Dec(x), Dec(y)]
    case JumpC2S(x, y) => [Ascii("jmp"), Dec(x), Dec(y)]
    case SpeedC2S(speed) => [Ascii("spd"), Dec(speed)]
    case SpriteC2S(name, index) => [Ascii("spr"), name, Dec(index)]
    case FacingC2S(direction) => [Ascii("f"), Dec(direction)]
    case HiddenC2S(hidden) => [Ascii("h"), Bit(hidden)]
    case SysNameC2S(name) => [Ascii("sys"), name]
    case TransparencyC2S(transparency) => [Ascii("tr"), Dec(transparency)]
    case SoundEffectC2S(name, volume, tempo, balance) => [Ascii("se"), name, Dec(volume), Dec(tempo), Dec(balance)]
    case FlashC2S(flash) => [Ascii("fl")] + FlashTexts(flash)
    case RepeatingFlashC2S(flash) => [Ascii("rfl")] + FlashTexts(flash)
    case RemoveRepeatingFlashC2S => [Ascii("rrfl")]
    case ShowPlayerBattleAnimC2S(animID) => [Ascii("ba"), Dec(animID)]
    case ShowPictureC2S(picture) => [Ascii("ap")] + PictureTexts(picture)
    case MovePictureC2S(base, duration) => [Ascii("mp")] + BaseTexts(base) + [Dec(duration)]
    case ErasePictureC2S(picID) => [Ascii("rp"), Dec(picID)]
  }

  // ---------- Printed structs ----------

  predicate IsText(v: Value) { !v.VStruct? && !v.VSlice? && !v.VPtr? }

  predicate AllTexts(vs: seq<Value>) { forall i :: 0 <= i < |vs| ==> IsText(vs[i]) }

  /** The texts of values that are one part each. */
  function Texts(vs: seq<Value>): (texts: seq<Bytes>)
    requires AllTexts(vs)
    ensures |texts| == |vs|
  {
    seq(|vs|, i requires 0 <= i < |vs| => LeafText(vs[i]))
  }

  lemma {:induction false} TextsPrint(vs: seq<Value>)
    requires AllTexts(vs)
    ensures PrintAll(vs) == Texts(vs)
  {
    if vs != [] {
      TextsPrint(vs[1..]);
      assert Texts(vs) == [LeafText(vs[0])] + Texts(vs[1..]);
    }
  }

  lemma FlashPrints(f: Flash)
    ensures PrintParts(FlashValue(f)) == FlashTexts(f)
  {
    TextsPrint(FlashValue(f).fields);
  }

  lemma PlaceField(b: BasePicture, i: nat)
    requires i < 8
    ensures IsText(BasePicturePart(b, i)) && LeafText(BasePicturePart(b, i)) == BaseTexts(b)[i]
  {
  }

  lemma EffectField(b: BasePicture, i: nat)
    requires 8 <= i < 16
    ensures IsText(BasePicturePart(b, i)) && LeafText(BasePicturePart(b, i)) == BaseTexts(b)[i]
  {
  }

  lemma BasePrints(b: BasePicture)
    ensures PrintParts(BasePictureValue(b)) == BaseTexts(b)
  {
    var fs := BasePictureValue(b).fields;
    forall i | 0 <= i < 16 ensures IsText(fs[i]) && LeafText(fs[i]) == BaseTexts(b)[i] {
      if i < 8 {
        PlaceField(b, i);
      } else {
        EffectField(b, i);
      }
    }
    TextsPrint(fs);
    assert Texts(fs) == BaseTexts(b);
  }

  /** The fifteen fields after the embedded base picture. */
  lemma SheetField(p: Picture, i: nat)
    requires i < 5
    ensures IsText(PicturePart(p, i + 1)) && LeafText(PicturePart(p, i + 1)) == StyleTexts(p)[i]
  {
  }

  lemma LayerField(p: Picture, i: nat)
    requires 5 <= i < 10
    ensures IsText(PicturePart(p, i + 1)) && LeafText(PicturePart(p, i + 1)) == StyleTexts(p)[i]
  {
  }

  lemma BlendField(p: Picture, i: nat)
    requires 10 <= i < 15
    ensures IsText(PicturePart(p, i + 1)) && LeafText(PicturePart(p, i + 1)) == StyleTexts(p)[i]
  {
  }

  lemma StyleField(p: Picture, i: nat)
    requires i < 15
    ensures IsText(PicturePart(p, i + 1)) && LeafText(PicturePart(p, i + 1)) == StyleTexts(p)[i]
  {
    if i < 5 {
      SheetField(p, i);
    } else if i < 10 {
      LayerField(p, i);
    } else {
      BlendField(p, i);
    }
  }

  lemma StylePrints(p: Picture)
    ensures PrintAll(PictureValue(p).fields[1..]) == StyleTexts(p)
  {
    var fs := PictureValue(p).fields[1..];
    forall i | 0 <= i < 15
      ensures fs[i] == PicturePart(p, i + 1) && IsText(fs[i]) && LeafText(fs[i]) == StyleTexts(p)[i]
    {
      StyleField(p, i);
    }
    TextsPrint(fs);
    assert Texts(fs) == StyleTexts(p);
  }

  lemma {:induction false} HeadPrints(vs: seq<Value>)
    requires vs != []
    ensures PrintAll(vs) == PrintParts(vs[0]) + PrintAll(vs[1..])
  {
  }

  lemma PicturePrints(p: Picture)
    ensures PrintParts(PictureValue(p)) == PictureTexts(p)
  {
    var fs := PictureValue(p).fields;
    assert fs[0] == PicturePart(p, 0) == VPtr(BasePictureValue(p.base));
    BasePrints(p.base);
    StylePrints(p);
    HeadPrints(fs);
  }

  /** A field that points to a struct, before fields that are texts. */
  lemma PointerPrints(target: Value, rest: seq<Value>)
    requires AllTexts(rest)
    ensures PrintAll([VPtr(target)] + rest) == PrintParts(target) + Texts(rest)
  {
    var all := [VPtr(target)] + rest;
    assert all[1..] == rest;
    HeadPrints(all);
    TextsPrint(rest);
  }

  lemma Names()
    ensures NAME_AP == Ascii("ap") && NAME_BA == Ascii("ba") && NAME_BAS == Ascii("bas") && NAME_C == Ascii("c")
    ensures NAME_CUT == Ascii("cut") && NAME_CUW == Ascii("cuw") && NAME_D == Ascii("d") && NAME_F == Ascii("f")
    ensures NAME_FL == Ascii("fl") && NAME_H == Ascii("h") && NAME_JMP == Ascii("jmp") && NAME_M == Ascii("m")
    ensures NAME_MP == Ascii("mp") && NAME_NAME == Ascii("name") && NAME_PNS == Ascii("pns")
    ensures NAME_RFL == Ascii("rfl") && NAME_RI == Ascii("ri") && NAME_RP == Ascii("rp") && NAME_RRFL == Ascii("rrfl")
    ensures NAME_S == Ascii("s") && NAME_SE == Ascii("se") && NAME_SPD == Ascii("spd") && NAME_SPR == Ascii("spr")
    ensures NAME_SR == Ascii("sr") && NAME_SSV == Ascii("ssv") && NAME_SYS == Ascii("sys") && NAME_TP == Ascii("tp")
    ensures NAME_TR == Ascii("tr")
  {
  }

  // ---------- From the server ----------

  lemma RoomIsSent(p: S2C)
    requires p.RoomInfoS2C? || p.DisconnectS2C? || p.MainPlayerPosS2C? || p.JumpS2C?
    ensures MessageParts(S2CMsg(p)) == Sent(p)
  {
    Names();
    TextsPrint(S2CMsg(p).val.fields);
    assert [S2CMsg(p).name] + Texts(S2CMsg(p).val.fields) == Sent(p);
  }

  lemma MotionIsSent(p: S2C)
    requires p.FacingS2C? || p.SpeedS2C? || p.HiddenS2C? || p.TransparencyS2C?
    ensures MessageParts(S2CMsg(p)) == Sent(p)
  {
    Names();
    TextsPrint(S2CMsg(p).val.fields);
    assert [S2CMsg(p).name] + Texts(S2CMsg(p).val.fields) == Sent(p);
  }

  lemma TextIsSent(p: S2C)
    requires p.NameS2C? || p.SpriteS2C? || p.SysNameS2C?
    ensures MessageParts(S2CMsg(p)) == Sent(p)
  {
    Names();
    TextsPrint(S2CMsg(p).val.fields);
    assert [S2CMsg(p).name] + Texts(S2CMsg(p).val.fields) == Sent(p);
  }

  lemma SoundIsSent(p: S2C)
    requires p.SoundEffectS2C?
    ensures MessageParts(S2CMsg(p)) == Sent(p)
  {
    Names();
    TextsPrint(S2CMsg(p).val.fields);
    assert [S2CMsg(p).name] + Texts(S2CMsg(p).val.fields) == Sent(p);
  }

  lemma SessionIsSent(p: S2C)
    requires p.SyncPlayerDataS2C?
    ensures MessageParts(S2CMsg(p)) == Sent(p)
  {
    Names();
    TextsPrint(S2CMsg(p).val.fields);
    assert [S2CMsg(p).name] + Texts(S2CMsg(p).val.fields) == Sent(p);
  }

  lemma ConnectIsSent(p: S2C)
    requires p.ConnectS2C?
    ensures MessageParts(S2CMsg(p)) == Sent(p)
  {
    Names();
    TextsPrint(S2CMsg(p).val.fields);
    assert [S2CMsg(p).name] + Texts(S2CMsg(p).val.fields) == Sent(p);
  }

  lemma EffectIsSent(p: S2C)
    requires p.RemoveRepeatingFlashS2C? || p.ShowPlayerBattleAnimS2C? || p.ErasePictureS2C?
    ensures MessageParts(S2CMsg(p)) == Sent(p)
  {
    Names();
    TextsPrint(S2CMsg(p).val.fields);
    assert [S2CMsg(p).name] + Texts(S2CMsg(p).val.fields) == Sent(p);
  }

  lemma GameIsSent(p: S2C)
    requires p.SyncServerVariableS2C? || p.CUTimeS2C? || p.CUWeatherS2C?
    ensures MessageParts(S2CMsg(p)) == Sent(p)
  {
    Names();
    TextsPrint(S2CMsg(p).val.fields);
    assert [S2CMsg(p).name] + Texts(S2CMsg(p).val.fields) == Sent(p);
  }

  /** A message about a struct: who, what, and texts. */
  lemma StructPrints(name: Bytes, who: Value, target: Value, rest: seq<Value>)
    requires IsText(who) && AllTexts(rest)
    ensures MessageParts(Msg(name, VStruct([who, VPtr(target)] + rest))) ==
      [name, LeafText(who)] + PrintParts(target) + Texts(rest)
  {
    var fs := [who, VPtr(target)] + rest;
    assert fs[1..] == [VPtr(target)] + rest;
    HeadPrints(fs);
    PointerPrints(target, rest);
  }

  lemma FlashIsSent(p: S2C)
    requires p.FlashS2C? || p.RepeatingFlashS2C?
    ensures MessageParts(S2CMsg(p)) == Sent(p)
  {
    Names();
    FlashPrints(p.flash);
    StructPrints(S2CMsg(p).name, VInt(p.id), FlashValue(p.flash), []);
    assert [VInt(p.id), VPtr(FlashValue(p.flash))] + [] == S2CMsg(p).val.fields;
  }

  lemma ShowIsSent(p: S2C)
    requires p.ShowPictureS2C?
    ensures MessageParts(S2CMsg(p)) == Sent(p)
  {
    Names();
    PicturePrints(p.picture);
    StructPrints(NAME_AP, VInt(p.id), PictureValue(p.picture), []);
    assert [VInt(p.id), VPtr(PictureValue(p.picture))] + [] == S2CMsg(p).val.fields;
  }

  lemma MoveIsSent(p: S2C)
    requires p.MovePictureS2C?
    ensures MessageParts(S2CMsg(p)) == Sent(p)
  {
    Names();
    BasePrints(p.base);
    StructPrints(NAME_MP, VInt(p.id), BasePictureValue(p.base), [VInt(p.duration)]);
    assert [VInt(p.id), VPtr(BasePictureValue(p.base))] + [VInt(p.duration)] == S2CMsg(p).val.fields;
    assert Texts([VInt(p.duration)]) == [Dec(p.duration)];
  }

  lemma ListPrints(list: Value, texts: seq<Bytes>)
    requires list.VSlice? && AllTexts(list.elems) && Texts(list.elems) == texts
    ensures PrintParts(list) == ListTexts(texts)
  {
    TextsPrint(list.elems);
  }

  lemma AnimsAreSent(p: S2C)
    requires p.BattleAnimSyncListS2C?
    ensures MessageParts(S2CMsg(p)) == Sent(p)
  {
    Names();
    ListPrints(IntList(p.ids), seq(|p.ids|, i requires 0 <= i < |p.ids| => Dec(p.ids[i])));
    HeadPrints([IntList(p.ids)]);
  }

  lemma PictureListIsSent(p: S2C)
    requires p.PictureSyncListS2C?
    ensures MessageParts(S2CMsg(p)) == Sent(p)
  {
    var list := StringList(p.list);
    var fs := [VInt(p.kind), list];
    Names();
    ListPrints(list, p.list);
    HeadPrints(fs);
    assert fs[1..] == [list] && [list][1..] == [];
    HeadPrints([list]);
    assert PrintParts(list) + [] == ListTexts(p.list);
  }

  /** What the serialiser makes of each message that the server sends: its registered name,
      then its fields in declared order, between parameter delimiters. */
  lemma SentText(p: S2C)
    ensures PrintMessage(S2CMsg(p)) == Join(Sent(p), [0xef, 0xbf, 0xbf])
  {
    if p.FlashS2C? || p.RepeatingFlashS2C? {
      FlashIsSent(p);
    } else if p.ShowPictureS2C? {
      ShowIsSent(p);
    } else if p.MovePictureS2C? {
      MoveIsSent(p);
    } else if p.BattleAnimSyncListS2C? {
      AnimsAreSent(p);
    } else if p.PictureSyncListS2C? {
      PictureListIsSent(p);
    } else {
      FlatIsSent(p);
    }
  }

  /** And of all messages of a batch, between message delimiters. */
  lemma BatchText(ps: seq<S2C>, texts: seq<Bytes>)
    requires |texts| == |ps| && forall i :: 0 <= i < |ps| ==> texts[i] == Join(Sent(ps[i]), [0xef, 0xbf, 0xbf])
    ensures PrintMessages(Wire.S2CMsgs(ps)) == Join(texts, [0xef, 0xbf, 0xbe])
  {
    forall i | 0 <= i < |ps| ensures PrintEach(Wire.S2CMsgs(ps))[i] == texts[i] {
      SentText(ps[i]);
    }
    assert PrintEach(Wire.S2CMsgs(ps)) == texts;
  }

  lemma FlatIsSent(p: S2C)
    requires !p.FlashS2C? && !p.RepeatingFlashS2C? && !p.ShowPictureS2C? && !p.MovePictureS2C?
    requires !p.BattleAnimSyncListS2C? && !p.PictureSyncListS2C?
    ensures MessageParts(S2CMsg(p)) == Sent(p)
  {
    if p.RoomInfoS2C? || p.DisconnectS2C? || p.MainPlayerPosS2C? || p.JumpS2C? {
      RoomIsSent(p);
    } else if p.FacingS2C? || p.SpeedS2C? || p.HiddenS2C? || p.TransparencyS2C? {
      MotionIsSent(p);
    } else if p.NameS2C? || p.SpriteS2C? || p.SysNameS2C? {
      TextIsSent(p);
    } else if p.SoundEffectS2C? {
      SoundIsSent(p);
    } else if p.SyncPlayerDataS2C? {
      SessionIsSent(p);
    } else if p.ConnectS2C? {
      ConnectIsSent(p);
    } else if p.RemoveRepeatingFlashS2C? || p.ShowPlayerBattleAnimS2C? || p.ErasePictureS2C? {
      EffectIsSent(p);
    } else {
      GameIsSent(p);
    }
  }

  // ---------- From the client ----------

  lemma MotionIsReceived(p: C2S)
    requires p.SwitchRoomC2S? || p.MainPlayerPosC2S? || p.TeleportC2S? || p.JumpC2S?
    ensures MessageParts(C2SMsg(p)) == Received(p)
  {
    Names();
    TextsPrint(C2SMsg(p).val.fields);
    assert [C2SMsg(p).name] + Texts(C2SMsg(p).val.fields) == Received(p);
  }

  lemma StyleIsReceived(p: C2S)
    requires p.SpeedC2S? || p.FacingC2S? || p.HiddenC2S? || p.TransparencyC2S?
    ensures MessageParts(C2SMsg(p)) == Received(p)
  {
    Names();
    TextsPrint(C2SMsg(p).val.fields);
    assert [C2SMsg(p).name] + Texts(C2SMsg(p).val.fields) == Received(p);
  }

  lemma TextIsReceived(p: C2S)
    requires p.SpriteC2S? || p.SysNameC2S? || p.SoundEffectC2S?
    ensures MessageParts(C2SMsg(p)) == Received(p)
  {
    Names();
    TextsPrint(C2SMsg(p).val.fields);
    assert [C2SMsg(p).name] + Texts(C2SMsg(p).val.fields) == Received(p);
  }

  lemma NumberIsReceived(p: C2S)
    requires p.ShowPlayerBattleAnimC2S? || p.ErasePictureC2S?
    ensures MessageParts(C2SMsg(p)) == Received(p)
  {
    Names();
    TextsPrint(C2SMsg(p).val.fields);
    assert [C2SMsg(p).name] + Texts(C2SMsg(p).val.fields) == Received(p);
  }

  lemma PointerIsReceived(p: C2S)
    requires p.FlashC2S? || p.RepeatingFlashC2S? || p.ShowPictureC2S?
    ensures MessageParts(C2SMsg(p)) == Received(p)
  {
    var target := C2SMsg(p).val.fields[0].target;
    Names();
    if p.ShowPictureC2S? {
      PicturePrints(p.picture);
    } else {
      FlashPrints(p.flash);
    }
    PointerPrints(target, []);
    assert [VPtr(target)] + [] == C2SMsg(p).val.fields;
  }

  lemma MoveIsReceived(p: C2S)
    requires p.MovePictureC2S?
    ensures MessageParts(C2SMsg(p)) == Received(p)
  {
    Names();
    BasePrints(p.base);
    PointerPrints(BasePictureValue(p.base), [VInt(p.duration)]);
    assert [VPtr(BasePictureValue(p.base))] + [VInt(p.duration)] == C2SMsg(p).val.fields;
    assert Texts([VInt(p.duration)]) == [Dec(p.duration)];
  }

  /** The text of each message that a client sends. */
  lemma ClientTextIs(p: C2S)
    ensures Wire.ClientText(p) == Join(Received(p), [0xef, 0xbf, 0xbf])
  {
    Names();
    if p.SwitchRoomC2S? || p.MainPlayerPosC2S? || p.TeleportC2S? || p.JumpC2S? {
      MotionIsReceived(p);
    } else if p.SpeedC2S? || p.FacingC2S? || p.HiddenC2S? || p.TransparencyC2S? {
      StyleIsReceived(p);
    } else if p.SpriteC2S? || p.SysNameC2S? || p.SoundEffectC2S? {
      TextIsReceived(p);
    } else if p.ShowPlayerBattleAnimC2S? || p.ErasePictureC2S? {
      NumberIsReceived(p);
    } else if p.MovePictureC2S? {
      MoveIsReceived(p);
    } else if !p.RemoveRepeatingFlashC2S? {
      PointerIsReceived(p);
    }
  }

  /** A client's text with these parts is read as the message, for all clean messages. */
  lemma ReceivedAs(p: C2S)
    requires CleanC2S(p)
    ensures ReadMessage(C2S_REGISTRY, Join(Received(p), [0xef, 0xbf, 0xbf])) == Ok(C2SMsg(p)) && ReadC2S(C2SMsg(p)) == p
  {
    ClientTextIs(p);
    Wire.ClientIsUnderstood(p);
  }
}
