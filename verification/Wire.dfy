/** The typed messages on the wire: what the server sends can be read back, and
    what it accepts can be relayed. */
module Wire {
  import opened Basics
  import opened Delimiters
  import opened Leaves
  import opened Schema
  import opened Acceptance
  import opened Codec
  import opened Packets
  import opened Messages

  /** The value has the type and no empty slice; its strings are clean iff `clean`. */
  ghost predicate Fits(v: Value, ty: Ty, clean: bool) {
    HasType(v, ty) && NoEmptySlices(v) && (CleanValue(v) <==> clean)
  }

  /** A struct whose fields are all clean but for the k-th, which is clean iff ok. */
  lemma StructFits(fs: seq<Value>, ts: seq<Ty>, k: nat, ok: bool)
    requires |fs| == |ts| && (k < |fs| || ok)
    requires forall i | 0 <= i < |fs| :: Fits(fs[i], ts[i], i == k ==> ok)
    ensures Fits(VStruct(fs), TStruct(ts), ok)
  {
    if CleanValue(VStruct(fs)) && k < |fs| {
      assert CleanValue(fs[k]);
    }
  }

  lemma BasePictureFits(p: BasePicture)
    ensures Fits(BasePictureValue(p), BASE_PICTURE, true)
  {
  }

  lemma PictureFieldFits(p: Picture, i: nat)
    requires i < 16
    ensures |PictureValue(p).fields| == |PICTURE.fields| == 16
    ensures Fits(PictureValue(p).fields[i], PICTURE.fields[i], i == 1 ==> Clean(p.picName))
  {
    BasePictureFits(p.base);
  }

  lemma PictureFits(p: Picture)
    ensures Fits(PictureValue(p), PICTURE, Clean(p.picName))
  {
    var fs := PictureValue(p).fields;
    PictureFieldFits(p, 1);
    forall i | 0 <= i < 16 ensures Fits(fs[i], PICTURE.fields[i], i == 1 ==> Clean(p.picName)) {
      PictureFieldFits(p, i);
    }
    StructFits(fs, PICTURE.fields, 1, Clean(p.picName));
  }

  lemma FlashFits(f: Flash)
    ensures Fits(FlashValue(f), FLASH, true)
  {
  }

  lemma StringListIsClean(list: seq<Bytes>)
    ensures CleanValue(StringList(list)) <==> forall s :: s in list ==> Clean(s)
  {
    var es := StringList(list).elems;
    assert forall i :: 0 <= i < |list| ==> es[i] == VString(list[i]);
    if CleanValue(StringList(list)) {
      forall i | 0 <= i < |list| ensures Clean(list[i]) {
        assert CleanValue(es[i]);
      }
    }
  }

  // ---------- Server to client ----------

  lemma S2CRegistered(p: S2C)
    ensures S2C_REGISTRY(S2CMsg(p).name) == Some(S2CStruct(p))
  {
    if p.SyncPlayerDataS2C? || p.RoomInfoS2C? || p.ConnectS2C? || p.DisconnectS2C?
      || p.NameS2C? || p.MainPlayerPosS2C? || p.JumpS2C? {
      FirstRegistered(p);
    } else if p.SpriteS2C? || p.FacingS2C? || p.SpeedS2C? || p.HiddenS2C? || p.TransparencyS2C? || p.SysNameS2C? {
      StyleRegistered(p);
    } else {
      RestRegistered(p);
    }
  }

  lemma FirstRegistered(p: S2C)
    requires p.SyncPlayerDataS2C? || p.RoomInfoS2C? || p.ConnectS2C? || p.DisconnectS2C?
      || p.NameS2C? || p.MainPlayerPosS2C? || p.JumpS2C?
    ensures S2C_REGISTRY(S2CMsg(p).name) == Some(S2CStruct(p))
  {
  }

  lemma StyleRegistered(p: S2C)
    requires p.SpriteS2C? || p.FacingS2C? || p.SpeedS2C? || p.HiddenS2C? || p.TransparencyS2C? || p.SysNameS2C?
    ensures S2C_REGISTRY(S2CMsg(p).name) == Some(S2CStruct(p))
  {
  }

  lemma RestRegistered(p: S2C)
    requires !(p.SyncPlayerDataS2C? || p.RoomInfoS2C? || p.ConnectS2C?
      || p.DisconnectS2C? || p.NameS2C? || p.MainPlayerPosS2C? || p.JumpS2C?)
    requires !(p.SpriteS2C? || p.FacingS2C? || p.SpeedS2C? || p.HiddenS2C? || p.TransparencyS2C? || p.SysNameS2C?)
    ensures S2C_REGISTRY(S2CMsg(p).name) == Some(S2CStruct(p))
  {
  }

  lemma TextFieldFits(p: S2C)
    requires p.SyncPlayerDataS2C? || p.ConnectS2C? || p.NameS2C? || p.SpriteS2C? || p.SysNameS2C? || p.SoundEffectS2C?
    ensures Fits(S2CMsg(p).val, S2CStruct(p), CleanS2C(p))
  {
    var fs, ts := S2CMsg(p).val.fields, S2CStruct(p).fields;
    var k := if p.SyncPlayerDataS2C? then 5 else if p.ConnectS2C? then 4 else 1;
    StructFits(fs, ts, k, CleanS2C(p));
  }

  lemma ListFits(p: S2C)
    requires p.BattleAnimSyncListS2C? || p.PictureSyncListS2C?
    ensures HasType(S2CMsg(p).val, S2CStruct(p))
    ensures CleanValue(S2CMsg(p).val) && NoEmptySlices(S2CMsg(p).val) <==> CleanS2C(p)
  {
    var v := S2CMsg(p).val;
    var list := v.fields[|v.fields| - 1];
    if p.PictureSyncListS2C? {
      StringListIsClean(p.list);
    }
    assert HasType(list, S2CStruct(p).fields[|v.fields| - 1]);
    assert CleanValue(list) <==> CleanValue(v);
    assert NoEmptySlices(list) <==> NoEmptySlices(v);
  }

  lemma PointerFits(p: S2C)
    requires p.FlashS2C? || p.RepeatingFlashS2C? || p.ShowPictureS2C? || p.MovePictureS2C?
    ensures Fits(S2CMsg(p).val, S2CStruct(p), CleanS2C(p))
  {
    var fs, ts := S2CMsg(p).val.fields, S2CStruct(p).fields;
    var target := fs[1].target;
    assert Fits(target, ts[1].target, CleanS2C(p)) by {
      if p.ShowPictureS2C? {
        PictureFits(p.picture);
      } else if p.MovePictureS2C? {
        BasePictureFits(p.base);
      } else {
        FlashFits(p.flash);
      }
    }
    assert fs[1] == VPtr(target);
    StructFits(fs, ts, 1, CleanS2C(p));
  }

  lemma NumbersFit(p: S2C)
    requires !p.FlashS2C? && !p.RepeatingFlashS2C? && !p.ShowPictureS2C? && !p.MovePictureS2C?
    requires !p.SyncPlayerDataS2C? && !p.ConnectS2C? && !p.NameS2C? && !p.SpriteS2C? && !p.SysNameS2C?
    requires !p.SoundEffectS2C?
    requires !p.BattleAnimSyncListS2C? && !p.PictureSyncListS2C?
    ensures Fits(S2CMsg(p).val, S2CStruct(p), CleanS2C(p))
  {
    StructFits(S2CMsg(p).val.fields, S2CStruct(p).fields, 0, true);
  }

  /** Every message has its declared type, and the wire can carry it exactly when
      its strings are clean and its lists are not empty. */
  lemma S2CFits(p: S2C)
    ensures HasType(S2CMsg(p).val, S2CStruct(p))
    ensures CleanValue(S2CMsg(p).val) && NoEmptySlices(S2CMsg(p).val) <==> CleanS2C(p)
  {
    if p.BattleAnimSyncListS2C? || p.PictureSyncListS2C? {
      ListFits(p);
    } else if p.SyncPlayerDataS2C? || p.ConnectS2C? || p.NameS2C? || p.SpriteS2C?
      || p.SysNameS2C? || p.SoundEffectS2C? {
      TextFieldFits(p);
    } else if p.FlashS2C? || p.RepeatingFlashS2C? || p.ShowPictureS2C? || p.MovePictureS2C? {
      PointerFits(p);
    } else {
      NumbersFit(p);
    }
  }

  lemma PictureShape()
    ensures Fixed(PICTURE) && NoEmptyStructs(PICTURE) && Fixed(BASE_PICTURE) && NoEmptyStructs(BASE_PICTURE)
    ensures Fixed(FLASH) && NoEmptyStructs(FLASH)
    ensures Supported(PICTURE) && Supported(BASE_PICTURE) && Supported(FLASH)
  {
    forall i | 0 <= i < 16
      ensures Fixed(PictureField(i)) && NoEmptyStructs(PictureField(i)) && Supported(PictureField(i))
    {
      assert Fixed(BASE_PICTURE) && NoEmptyStructs(BASE_PICTURE) && Supported(BASE_PICTURE);
    }
  }

  lemma S2CShape(p: S2C)
    ensures TailSlices(S2CStruct(p)) && NoEmptyStructs(S2CStruct(p))
  {
    PictureShape();
    if !p.BattleAnimSyncListS2C? && !p.PictureSyncListS2C? {
      FixedIsTail(S2CStruct(p));
    }
  }

  lemma {:induction false} FixedIsTail(ty: Ty)
    requires Fixed(ty)
    ensures TailSlices(ty)
    decreases ty
  {
    match ty
    case TStruct(ts) =>
      forall i | 0 <= i < |ts| ensures TailSlices(ts[i]) {
        FixedIsTail(ts[i]);
      }
    case TPtr(t) => FixedIsTail(t);
    case _ =>
  }

  lemma NameIsClean(p: S2C)
    ensures Clean(S2CMsg(p).name)
  {
    AsciiIsClean(S2CMsg(p).name);
  }

  function S2CMsgs(ps: seq<S2C>): (ms: seq<Msg>)
    ensures |ms| == |ps| && forall i :: 0 <= i < |ps| ==> ms[i] == S2CMsg(ps[i])
  {
    seq(|ps|, i requires 0 <= i < |ps| => S2CMsg(ps[i]))
  }

  /** Any non-empty batch of outgoing messages is read back under the server's own
      registry exactly when every message in it is clean. */
  lemma BatchRoundTrip(ps: seq<S2C>)
    requires |ps| >= 1
    ensures ReadMessages(S2C_REGISTRY, PrintMessages(S2CMsgs(ps))) == Ok(S2CMsgs(ps)) <==>
      forall p :: p in ps ==> CleanS2C(p)
  {
    var ms := S2CMsgs(ps);
    forall i | 0 <= i < |ps|
      ensures Wellformed(S2C_REGISTRY, ms[i]) && (Carries(ms[i]) <==> CleanS2C(ps[i]))
    {
      S2CRegistered(ps[i]);
      S2CFits(ps[i]);
      S2CShape(ps[i]);
      NameIsClean(ps[i]);
    }
    ByteRoundTrip(S2C_REGISTRY, ms);
    assert (forall m :: m in ms ==> Carries(m)) <==> (forall p :: p in ps ==> CleanS2C(p)) by {
      if forall m :: m in ms ==> Carries(m) {
        forall i | 0 <= i < |ps| ensures CleanS2C(ps[i]) { assert ms[i] in ms; }
      }
      if forall p :: p in ps ==> CleanS2C(p) {
        forall i | 0 <= i < |ps| ensures Carries(ms[i]) { assert ps[i] in ps; }
      }
    }
  }

  // ---------- Client to server ----------

  lemma C2SRegistered(p: C2S)
    ensures C2S_REGISTRY(C2SMsg(p).name) == Some(C2SStruct(p))
  {
  }

  /** All accepted types are slice-free and have a case in the deserialiser. */
  lemma C2SShape(name: Bytes)
    requires C2S_REGISTRY(name).Some?
    ensures Fixed(C2S_REGISTRY(name).value) && Supported(C2S_REGISTRY(name).value)
  {
    PictureShape();
  }

  lemma C2SPointerFits(p: C2S)
    requires p.FlashC2S? || p.RepeatingFlashC2S? || p.ShowPictureC2S? || p.MovePictureC2S?
    ensures Fits(C2SMsg(p).val, C2SStruct(p), CleanC2S(p))
  {
    var fs, ts := C2SMsg(p).val.fields, C2SStruct(p).fields;
    var target := fs[0].target;
    assert Fits(target, ts[0].target, CleanC2S(p)) by {
      if p.ShowPictureC2S? {
        PictureFits(p.picture);
      } else if p.MovePictureC2S? {
        BasePictureFits(p.base);
      } else {
        FlashFits(p.flash);
      }
    }
    assert fs[0] == VPtr(target);
    StructFits(fs, ts, 0, CleanC2S(p));
  }

  lemma C2SFits(p: C2S)
    ensures Fits(C2SMsg(p).val, C2SStruct(p), CleanC2S(p))
  {
    if p.FlashC2S? || p.RepeatingFlashC2S? || p.ShowPictureC2S? || p.MovePictureC2S? {
      C2SPointerFits(p);
    } else {
      StructFits(C2SMsg(p).val.fields, C2SStruct(p).fields, 0, CleanC2S(p));
    }
  }

  lemma PictureTextsReadBack(p: Picture)
    ensures var q := ReadPicture(PictureValue(p));
      && q.base == p.base && q.picName == p.picName
      && q.useTranspColor == p.useTranspColor && q.fixedToMap == p.fixedToMap
  {
    assert ReadBasePicture(BasePictureValue(p.base)) == p.base;
  }

  lemma PictureSheetReadsBack(p: Picture)
    ensures var q := ReadPicture(PictureValue(p));
      && q.sheetCols == p.sheetCols && q.sheetRows == p.sheetRows && q.sheetFrame == p.sheetFrame
      && q.sheetSpeed == p.sheetSpeed && q.playOnce == p.playOnce
  {
  }

  lemma PictureLayersReadBack(p: Picture)
    ensures var q := ReadPicture(PictureValue(p));
      && q.mapLayer == p.mapLayer && q.battleLayer == p.battleLayer && q.flags == p.flags
      && q.blendMode == p.blendMode && q.flipX == p.flipX && q.flipY == p.flipY && q.origin == p.origin
  {
  }

  lemma PictureReadsBack(p: Picture)
    ensures ReadPicture(PictureValue(p)) == p
  {
    PictureTextsReadBack(p);
    PictureSheetReadsBack(p);
    PictureLayersReadBack(p);
  }

  lemma ShowPictureReadsBack(p: Picture)
    ensures ReadC2S(C2SMsg(ShowPictureC2S(p))) == ShowPictureC2S(p)
  {
    PictureReadsBack(p);
  }

  lemma MovePictureReadsBack(p: BasePicture, duration: int32)
    ensures ReadC2S(C2SMsg(MovePictureC2S(p, duration))) == MovePictureC2S(p, duration)
  {
    assert ReadBasePicture(BasePictureValue(p)) == p;
  }

  lemma MotionReadsBack(p: C2S)
    requires p.SwitchRoomC2S? || p.MainPlayerPosC2S? || p.TeleportC2S? || p.JumpC2S? || p.SpeedC2S? || p.SpriteC2S?
    ensures ReadC2S(C2SMsg(p)) == p
  {
  }

  lemma StyleReadsBack(p: C2S)
    requires p.FacingC2S? || p.HiddenC2S? || p.SysNameC2S? || p.TransparencyC2S? || p.SoundEffectC2S?
    ensures ReadC2S(C2SMsg(p)) == p
  {
  }

  lemma EffectReadsBack(p: C2S)
    requires p.FlashC2S? || p.RepeatingFlashC2S? || p.RemoveRepeatingFlashC2S?
      || p.ShowPlayerBattleAnimC2S? || p.ErasePictureC2S?
    ensures ReadC2S(C2SMsg(p)) == p
  {
    if p.FlashC2S? || p.RepeatingFlashC2S? {
      FlashReadsBack(p.flash);
    }
  }

  lemma FlashReadsBack(f: Flash)
    ensures ReadFlash(FlashValue(f)) == f
  {
  }

  /** The typed reading of a laid-out message is the message. */
  lemma ReadsBack(p: C2S)
    ensures ReadC2S(C2SMsg(p)) == p
  {
    if p.ShowPictureC2S? {
      ShowPictureReadsBack(p.picture);
    } else if p.MovePictureC2S? {
      MovePictureReadsBack(p.base, p.duration);
    } else if p.SwitchRoomC2S? || p.MainPlayerPosC2S? || p.TeleportC2S? || p.JumpC2S? || p.SpeedC2S? || p.SpriteC2S? {
      MotionReadsBack(p);
    } else if p.FacingC2S? || p.HiddenC2S? || p.SysNameC2S? || p.TransparencyC2S? || p.SoundEffectC2S? {
      StyleReadsBack(p);
    } else {
      EffectReadsBack(p);
    }
  }

  /** On a value of its struct type each accessor reads the field itself. */
  lemma FieldReads(v: Value, ts: seq<Ty>, i: nat)
    requires HasType(v, TStruct(ts)) && i < |ts|
    ensures ts[i] == INT32 ==> v.fields[i] == VInt(IntAt(v, i))
    ensures ts[i] == TString ==> v.fields[i] == VString(TextAt(v, i))
    ensures ts[i] == TBool ==> v.fields[i] == VBool(BoolAt(v, i))
    ensures ts[i].TPtr? ==> v.fields[i] == VPtr(TargetAt(v, i)) && HasType(TargetAt(v, i), ts[i].target)
  {
    assert HasType(v.fields[i], ts[i]);
  }

  lemma FlashIsWhole(v: Value)
    requires HasType(v, FLASH)
    ensures FlashValue(ReadFlash(v)) == v
  {
    forall i | 0 <= i < 5 ensures v.fields[i] == VInt(IntAt(v, i)) {
      FieldReads(v, FLASH.fields, i);
    }
    assert FlashValue(ReadFlash(v)).fields == v.fields;
  }

  lemma BasePictureIsWhole(v: Value)
    requires HasType(v, BASE_PICTURE)
    ensures BasePictureValue(ReadBasePicture(v)) == v
  {
    forall i | 0 <= i < 16 ensures v.fields[i] == VInt(IntAt(v, i)) {
      FieldReads(v, BASE_PICTURE.fields, i);
    }
    assert BasePictureValue(ReadBasePicture(v)).fields == v.fields;
  }

  lemma PictureHead(v: Value, i: nat)
    requires HasType(v, PICTURE) && i < 8
    ensures v.fields[i] == PicturePart(ReadPicture(v), i)
  {
    FieldReads(v, PICTURE.fields, i);
    if i == 0 {
      BasePictureIsWhole(TargetAt(v, 0));
    }
  }

  lemma PictureRest(v: Value, i: nat)
    requires HasType(v, PICTURE) && 8 <= i < 16
    ensures v.fields[i] == PicturePart(ReadPicture(v), i)
  {
    FieldReads(v, PICTURE.fields, i);
  }

  lemma PictureIsWhole(v: Value)
    requires HasType(v, PICTURE)
    ensures PictureValue(ReadPicture(v)) == v
  {
    forall i | 0 <= i < 16 ensures v.fields[i] == PicturePart(ReadPicture(v), i) {
      if i < 8 {
        PictureHead(v, i);
      } else {
        PictureRest(v, i);
      }
    }
    assert PictureValue(ReadPicture(v)).fields == v.fields;
  }

  lemma MotionIsWhole(m: Msg)
    requires m.name in [NAME_SR, NAME_M, NAME_TP, NAME_JMP, NAME_SPD, NAME_SPR]
    requires HasType(m.val, C2S_REGISTRY(m.name).value)
    ensures C2SMsg(ReadC2S(m)) == m
  {
    var ts := C2S_REGISTRY(m.name).value.fields;
    forall i | 0 <= i < |ts| ensures C2SMsg(ReadC2S(m)).val.fields[i] == m.val.fields[i] {
      FieldReads(m.val, ts, i);
    }
    assert C2SMsg(ReadC2S(m)).val.fields == m.val.fields;
  }

  lemma StyleIsWhole(m: Msg)
    requires m.name in [NAME_F, NAME_H, NAME_SYS, NAME_TR, NAME_SE]
    requires HasType(m.val, C2S_REGISTRY(m.name).value)
    ensures C2SMsg(ReadC2S(m)) == m
  {
    var ts := C2S_REGISTRY(m.name).value.fields;
    forall i | 0 <= i < |ts| ensures C2SMsg(ReadC2S(m)).val.fields[i] == m.val.fields[i] {
      FieldReads(m.val, ts, i);
    }
    assert C2SMsg(ReadC2S(m)).val.fields == m.val.fields;
  }

  lemma NumberIsWhole(m: Msg)
    requires m.name == NAME_RRFL || m.name == NAME_BA || m.name == NAME_RP
    requires HasType(m.val, C2S_REGISTRY(m.name).value)
    ensures C2SMsg(ReadC2S(m)) == m
  {
    if m.name != NAME_RRFL {
      FieldReads(m.val, C2S_REGISTRY(m.name).value.fields, 0);
    }
    assert C2SMsg(ReadC2S(m)).val.fields == m.val.fields;
  }

  lemma OnlyPointer(v: Value, t: Ty)
    requires HasType(v, TStruct([TPtr(t)]))
    ensures v == VStruct([VPtr(TargetAt(v, 0))]) && HasType(TargetAt(v, 0), t)
  {
    FieldReads(v, [TPtr(t)], 0);
    assert v.fields == [VPtr(TargetAt(v, 0))];
  }

  lemma FlashMessageIsWhole(m: Msg)
    requires m.name == NAME_FL || m.name == NAME_RFL
    requires HasType(m.val, TStruct([TPtr(FLASH)]))
    ensures C2SMsg(ReadC2S(m)) == m
  {
    OnlyPointer(m.val, FLASH);
    FlashIsWhole(TargetAt(m.val, 0));
  }

  lemma ShowIs(m: Msg, p: Picture)
    requires m.name == NAME_AP && p == ReadPicture(TargetAt(m.val, 0))
    ensures ReadC2S(m) == ShowPictureC2S(p)
    ensures C2SMsg(ReadC2S(m)) == Msg(NAME_AP, VStruct([VPtr(PictureValue(p))]))
  {
  }

  lemma ShowIsWhole(m: Msg)
    requires m.name == NAME_AP && HasType(m.val, SHOW_PICTURE_C2S)
    ensures C2SMsg(ReadC2S(m)) == m
  {
    OnlyPointer(m.val, PICTURE);
    PictureIsWhole(TargetAt(m.val, 0));
    ShowIs(m, ReadPicture(TargetAt(m.val, 0)));
  }

  lemma MoveIs(m: Msg, p: BasePicture)
    requires m.name == NAME_MP && p == ReadBasePicture(TargetAt(m.val, 0))
    ensures C2SMsg(ReadC2S(m)) == Msg(NAME_MP, VStruct([VPtr(BasePictureValue(p)), VInt(IntAt(m.val, 1))]))
  {
  }

  lemma MoveIsWhole(m: Msg)
    requires m.name == NAME_MP && HasType(m.val, MOVE_PICTURE_C2S)
    ensures C2SMsg(ReadC2S(m)) == m
  {
    FieldReads(m.val, MOVE_PICTURE_C2S.fields, 0);
    FieldReads(m.val, MOVE_PICTURE_C2S.fields, 1);
    BasePictureIsWhole(TargetAt(m.val, 0));
    MoveIs(m, ReadBasePicture(TargetAt(m.val, 0)));
    assert m.val.fields == [VPtr(TargetAt(m.val, 0)), VInt(IntAt(m.val, 1))];
  }

  /** The typed reading of any message of its registered type loses nothing: laying it
      out again gives the same message. */
  lemma ReadingIsWhole(m: Msg)
    requires C2S_REGISTRY(m.name).Some? && HasType(m.val, C2S_REGISTRY(m.name).value)
    ensures C2SMsg(ReadC2S(m)) == m
  {
    if m.name in [NAME_SR, NAME_M, NAME_TP, NAME_JMP, NAME_SPD, NAME_SPR] {
      MotionIsWhole(m);
    } else if m.name in [NAME_F, NAME_H, NAME_SYS, NAME_TR, NAME_SE] {
      StyleIsWhole(m);
    } else if m.name == NAME_FL || m.name == NAME_RFL {
      FlashMessageIsWhole(m);
    } else if m.name == NAME_RRFL || m.name == NAME_BA || m.name == NAME_RP {
      NumberIsWhole(m);
    } else if m.name == NAME_AP {
      ShowIsWhole(m);
    } else {
      MoveIsWhole(m);
    }
  }

  /** Whatever the server accepts from any bytes, it hands on in full. */
  lemma AcceptedIsWhole(packet: Bytes)
    ensures var r := ReadMessages(C2S_REGISTRY, packet); r.Ok? ==> forall m :: m in r.value ==> C2SMsg(ReadC2S(m)) == m
  {
    RelayClosure(C2S_REGISTRY, packet);
    var r := ReadMessages(C2S_REGISTRY, packet);
    if r.Ok? {
      forall m | m in r.value ensures C2SMsg(ReadC2S(m)) == m {
        ReadingIsWhole(m);
      }
    }
  }

  lemma CleanFields(v: Value, i: nat)
    requires CleanValue(v)
    ensures Clean(TextAt(v, i)) && CleanValue(TargetAt(v, i))
  {
    AsciiIsClean([]);
    if v.VStruct? && i < |v.fields| {
      assert CleanValue(v.fields[i]);
    }
  }

  lemma CleanReading(m: Msg)
    requires CleanValue(m.val)
    ensures CleanC2S(ReadC2S(m))
  {
    CleanFields(m.val, 0);
    CleanFields(TargetAt(m.val, 0), 1);
  }

  /** What the server accepts from any bytes is clean, so it can be relayed. */
  lemma AcceptedIsClean(packet: Bytes)
    ensures var r := ReadMessages(C2S_REGISTRY, packet); r.Ok? ==> forall m :: m in r.value ==> CleanC2S(ReadC2S(m))
  {
    RelayClosure(C2S_REGISTRY, packet);
    var r := ReadMessages(C2S_REGISTRY, packet);
    if r.Ok? {
      forall m | m in r.value ensures CleanC2S(ReadC2S(m)) {
        CleanReading(m);
      }
    }
  }

  /** The text a client sends: the name alone for a message without fields. */
  function ClientText(p: C2S): Bytes {
    if C2SMsg(p).val.fields == [] then C2SMsg(p).name else PrintMessage(C2SMsg(p))
  }

  /** Every clean client message is accepted and read as itself. */
  lemma ClientIsUnderstood(p: C2S)
    requires CleanC2S(p)
    ensures ReadMessage(C2S_REGISTRY, ClientText(p)) == Ok(C2SMsg(p)) && ReadC2S(C2SMsg(p)) == p
  {
    var m := C2SMsg(p);
    ReadsBack(p);
    C2SRegistered(p);
    AsciiIsClean(m.name);
    if p.RemoveRepeatingFlashC2S? {
      EmptyStructDoesNotRoundTrip(C2S_REGISTRY, m.name);
    } else {
      C2SFits(p);
      C2SShape(m.name);
      C2SNotEmpty(p);
      FixedIsTail(C2SStruct(p));
      MessageRoundTrip(C2S_REGISTRY, m);
    }
  }

  lemma C2SNotEmpty(p: C2S)
    requires !p.RemoveRepeatingFlashC2S?
    ensures NoEmptyStructs(C2SStruct(p)) && C2SMsg(p).val.fields != []
  {
    PictureShape();
  }

  /** The exact-acceptance law holds for the registry of accepted messages. */
  lemma AcceptedExactly(text: Bytes)
    ensures
      var parts := Split(text, PARAM_DELIM);
      var ty := C2S_REGISTRY(parts[0]);
      ReadMessage(C2S_REGISTRY, text).Ok? <==>
        && ty.Some? && AllLeaves(Flatten(ty.value))
        && |parts| - 1 == |Flatten(ty.value)|
        && forall i :: 1 <= i < |parts| ==> ParseLeaf(Flatten(ty.value)[i - 1], parts[i]).Ok?
  {
    forall name | C2S_REGISTRY(name).Some?
      ensures Fixed(C2S_REGISTRY(name).value) && Supported(C2S_REGISTRY(name).value)
    {
      C2SShape(name);
    }
    ExactAcceptance(C2S_REGISTRY, text);
    var parts := Split(text, PARAM_DELIM);
    var ty := C2S_REGISTRY(parts[0]);
    if ty.Some? && |parts| - 1 == |Flatten(ty.value)| {
      var ls, given := Flatten(ty.value), parts[1..];
      if PrefixParses(ls, given) {
        forall i | 1 <= i < |parts| ensures ParseLeaf(ls[i - 1], parts[i]).Ok? {
          assert LeafParses(ls, given, i - 1);
        }
      }
    }
  }
}
