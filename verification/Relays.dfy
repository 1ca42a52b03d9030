/** What one message does to the player who sends it and to every screen, by the fields of
    the message. */
module Relays {
  import opened Basics
  import opened Packets
  import opened Validate
  import opened Views
  import opened World
  import opened Agreement
  import opened RoomChange

  // ---------- In terms of the message ----------

  /** What is stored of a message; nothing else of the player changes. */
  ghost predicate Stores(d: Player, e: Player, m: C2S) {
    && (m.MainPlayerPosC2S? || m.TeleportC2S? || m.JumpC2S? ==>
          e.x == m.x && e.y == m.y && e == d.(x := e.x, y := e.y))
    && (m.SpeedC2S? ==> e.speed == m.speed && e == d.(speed := e.speed))
    && (m.SpriteC2S? ==>
          e.sprite == m.name && e.spriteIndex == m.index && e == d.(sprite := e.sprite, spriteIndex := e.spriteIndex))
    && (m.FacingC2S? ==> e.facing == m.direction && e == d.(facing := e.facing))
    && (m.HiddenC2S? ==> e.hidden == m.hidden && e == d.(hidden := e.hidden))
    && (m.SysNameC2S? ==> e.sysName == m.name && e == d.(sysName := e.sysName))
    && (m.TransparencyC2S? ==> e.transparency == m.transparency && e == d.(transparency := e.transparency))
    && (m.RemoveRepeatingFlashC2S? ==> e.flash == None && e == d.(flash := None))
    && (m.SoundEffectC2S? || m.FlashC2S? || m.RepeatingFlashC2S? || m.ShowPlayerBattleAnimC2S? ==> e == d)
  }

  /** The same on the screen of somebody who shows the player. */
  ghost predicate Looks(l: Look, l': Look, m: C2S) {
    && (m.MainPlayerPosC2S? || m.TeleportC2S? || m.JumpC2S? ==>
          l'.x == m.x && l'.y == m.y && l' == l.(x := l'.x, y := l'.y))
    && (m.SpeedC2S? ==> l'.speed == m.speed && l' == l.(speed := l'.speed))
    && (m.SpriteC2S? ==>
          l'.sprite == m.name && l'.spriteIndex == m.index && l' == l.(sprite := m.name, spriteIndex := m.index))
    && (m.FacingC2S? ==> l'.facing == m.direction && l' == l.(facing := l'.facing))
    && (m.HiddenC2S? ==> l'.hidden == m.hidden && l' == l.(hidden := l'.hidden))
    && (m.SysNameC2S? ==> l'.sysName == m.name && l' == l.(sysName := l'.sysName))
    && (m.TransparencyC2S? ==> l'.transparency == m.transparency && l' == l.(transparency := l'.transparency))
    && (m.RemoveRepeatingFlashC2S? || m.SoundEffectC2S? || m.FlashC2S? || m.RepeatingFlashC2S? ==> l' == l)
    && (m.ShowPlayerBattleAnimC2S? ==> l' == l)
  }

  /** What is played or drawn once, after what was before. */
  ghost predicate Plays(before: seq<S2C>, after: seq<S2C>, id: int32, m: C2S) {
    && (m.JumpC2S? ==> after == before + [JumpS2C(id, m.x, m.y)])
    && (m.SoundEffectC2S? ==> after == before + [SoundEffectS2C(id, m.name, m.volume, m.tempo, m.balance)])
    && (m.FlashC2S? ==> after == before + [FlashS2C(id, m.flash)])
    && (m.RepeatingFlashC2S? ==> after == before + [RepeatingFlashS2C(id, m.flash)])
    && (m.RemoveRepeatingFlashC2S? ==> after == before + [RemoveRepeatingFlashS2C(id)])
    && (m.ShowPlayerBattleAnimC2S? ==> after == before + [ShowPlayerBattleAnimS2C(id, m.animID)])
    && (m.MainPlayerPosC2S? || m.TeleportC2S? || m.SpeedC2S? || m.FacingC2S? ==> after == before)
    && (m.SpriteC2S? || m.HiddenC2S? || m.SysNameC2S? || m.TransparencyC2S? ==> after == before)
  }

  /** The stored pictures after a picture message. */
  ghost predicate StoresPictures(was: map<int32, Picture>, now: map<int32, Picture>, m: C2S) {
    && (m.ShowPictureC2S? ==>
          now == if m.picture.playOnce then was - {m.picture.base.picID} else was[m.picture.base.picID := m.picture])
    && (m.MovePictureC2S? ==>
          && now.Keys == was.Keys
          && forall id :: id in was ==> now[id] == if id == m.base.picID then was[id].(base := m.base) else was[id])
    && (m.ErasePictureC2S? ==> now == was - {m.picID})
  }

  ghost predicate PlaysPicture(before: seq<S2C>, after: seq<S2C>, id: int32, m: C2S, stored: bool) {
    && (m.ShowPictureC2S? ==>
          after == if m.picture.playOnce then before + [ShowPictureS2C(id, m.picture)] else before)
    && (m.MovePictureC2S? ==> after == if stored then before + [MovePictureS2C(id, m.base, m.duration)] else before)
    && (m.ErasePictureC2S? ==> after == before)
  }

  predicate IsPictureMessage(m: C2S) { m.ShowPictureC2S? || m.MovePictureC2S? || m.ErasePictureC2S? }

  /** What is stored of any message that leaves the player in its room. */
  ghost predicate StoresAll(d: Player, e: Player, m: C2S) {
    && Stores(d, e, m)
    && (IsPictureMessage(m) ==> e == d.(pictures := e.pictures) && StoresPictures(d.pictures, e.pictures, m))
  }

  /** What it brings to a screen that the player d is to be seen on: its look there follows
      the message, and what happens once is added. */
  ghost predicate Brings(v: View, v': View, d: Player, m: C2S) {
    var id := d.cid;
    && v'.room == v.room
    && Plays(v.effects, v'.effects, id, m)
    && PlaysPicture(v.effects, v'.effects, id, m, m.MovePictureC2S? && m.base.picID in d.pictures)
    && (id in v.players ==>
          && id in v'.players && v'.players == v.players[id := v'.players[id]] && v'.stray == v.stray
          && Looks(v.players[id], v'.players[id], m)
          && (IsPictureMessage(m) && v.players[id].pictures == d.pictures ==>
                && v'.players[id] == v.players[id].(pictures := v'.players[id].pictures)
                && StoresPictures(d.pictures, v'.players[id].pictures, m)))
  }

  /** The message of u was stored, and brought to exactly those who see u. */
  ghost predicate Relayed<U>(f: Filters, w: World<U>, w': World<U>, u: U, m: C2S) {
    && w'.rooms == w.rooms && w'.users == w.users && w'.counter == w.counter
    && w'.data == w.data[u := At(w', u)] && StoresAll(At(w, u), At(w', u), m)
    && w'.views.Keys == w.views.Keys
    && forall x :: x in w.data ==> RelayedTo(f, w, w', u, m, x)
  }

  ghost predicate RelayedTo<U>(f: Filters, w: World<U>, w': World<U>, u: U, m: C2S, x: U) {
    if Visible(f, w, x, u) then Brings(ViewOf(w, x), ViewOf(w', x), At(w, u), m) else ViewOf(w', x) == ViewOf(w, x)
  }

  // ---------- Proofs ----------

  lemma RelayStores(d: Player, m: C2S)
    requires IsRelay(m)
    ensures Stores(d, RelayData(d, m), m) && SameIdentity(d, RelayData(d, m))
  {
  }

  lemma RelayLooks(l: Look, id: int32, m: C2S)
    requires IsRelay(m)
    ensures Subject(RelayPacket(id, m)) == Some(id) && Looks(l, Update(l, RelayPacket(id, m)), m)
  {
  }

  lemma RelayPlays(v: View, id: int32, m: C2S)
    requires IsRelay(m)
    ensures Plays(v.effects, Apply(v, RelayPacket(id, m)).effects, id, m)
  {
  }

  lemma RelayBrings(v: View, d: Player, m: C2S)
    requires IsRelay(m)
    ensures Brings(v, Apply(v, RelayPacket(d.cid, m)), d, m)
  {
    RelayPlays(v, d.cid, m);
    if d.cid in v.players {
      RelayLooks(v.players[d.cid], d.cid, m);
    } else {
      RelayLooks(DefaultLook(d.account, 0, false, []), d.cid, m);
    }
  }

  /** What is published reaches exactly those who see u. */
  lemma PublishReaches<U>(f: Filters, w: World<U>, u: U, d: Player, p: S2C, x: U)
    requires Placed(w) && Present(w, u) && x in w.data && SameIdentity(At(w, u), d)
    ensures ViewOf(Publish(f, w, u, d, p), x) ==
      if Visible(f, w, x, u) then Apply(ViewOf(w, x), p) else ViewOf(w, x)
  {
    PublishAudience(f, w, u, d, x);
    ToldView(Put(w, u, d), Audience(f, Put(w, u, d), u), p, x);
  }

  /** A change of u that is told by one packet, by what that packet brings. */
  lemma PublishedTo<U>(f: Filters, w: World<U>, w': World<U>, u: U, d: Player, p: S2C, m: C2S, x: U)
    requires Placed(w) && Present(w, u) && x in w.data && SameIdentity(At(w, u), d) && w' == Publish(f, w, u, d, p)
    requires Brings(ViewOf(w, x), Apply(ViewOf(w, x), p), At(w, u), m)
    ensures RelayedTo(f, w, w', u, m, x)
  {
    PublishReaches(f, w, u, d, p, x);
  }

  lemma PublishStores<U>(f: Filters, w: World<U>, w': World<U>, u: U, d: Player, p: S2C)
    requires w' == Publish(f, w, u, d, p)
    ensures At(w', u) == d && w'.data == w.data[u := d] && w'.views.Keys == w.views.Keys
    ensures w'.rooms == w.rooms && w'.users == w.users && w'.counter == w.counter
  {
  }

  lemma PublishRelays<U>(f: Filters, w: World<U>, w': World<U>, u: U, d: Player, p: S2C, m: C2S)
    requires Placed(w) && Present(w, u) && SameIdentity(At(w, u), d) && w' == Publish(f, w, u, d, p)
    requires StoresAll(At(w, u), d, m)
    requires forall v :: Brings(v, Apply(v, p), At(w, u), m)
    ensures Relayed(f, w, w', u, m)
  {
    PublishStores(f, w, w', u, d, p);
    forall x | x in w.data ensures RelayedTo(f, w, w', u, m, x) {
      PublishedTo(f, w, w', u, d, p, m, x);
    }
  }

  lemma RelayIsRelayed<U>(f: Filters, w: World<U>, u: U, m: C2S)
    requires Placed(w) && Present(w, u) && IsRelay(m)
    ensures Relayed(f, w, Publish(f, w, u, RelayData(At(w, u), m), RelayPacket(At(w, u).cid, m)), u, m)
  {
    var d, p := RelayData(At(w, u), m), RelayPacket(At(w, u).cid, m);
    RelayStores(At(w, u), m);
    forall v ensures Brings(v, Apply(v, p), At(w, u), m) {
      RelayBrings(v, At(w, u), m);
    }
    PublishRelays(f, w, Publish(f, w, u, d, p), u, d, p, m);
  }

  // ---------- Pictures ----------

  /** Showing takes the old picture off first. */
  function Shown(v: View, d: Player, pic: Picture): View {
    var id := pic.base.picID;
    var v1 := if id in d.pictures then Apply(v, ErasePictureS2C(d.cid, id)) else v;
    Apply(v1, ShowPictureS2C(d.cid, pic))
  }

  lemma ShownLook(v: View, d: Player, pic: Picture)
    requires d.cid in v.players
    ensures var v', l := Shown(v, d, pic), v.players[d.cid];
      && d.cid in v'.players && v'.players == v.players[d.cid := v'.players[d.cid]] && v'.stray == v.stray
      && v'.players[d.cid] == l.(pictures := v'.players[d.cid].pictures)
      && (l.pictures == d.pictures ==>
            v'.players[d.cid].pictures ==
              if pic.playOnce then d.pictures - {pic.base.picID} else d.pictures[pic.base.picID := pic])
  {
  }

  lemma ShowBrings(v: View, d: Player, m: C2S)
    requires m.ShowPictureC2S?
    ensures Brings(v, Shown(v, d, m.picture), d, m)
  {
    if d.cid in v.players {
      ShownLook(v, d, m.picture);
    }
  }

  lemma MoveBrings(v: View, d: Player, m: C2S)
    requires m.MovePictureC2S? && m.base.picID in d.pictures
    ensures Brings(v, Apply(v, MovePictureS2C(d.cid, m.base, m.duration)), d, m)
  {
  }

  lemma EraseBrings(v: View, d: Player, m: C2S)
    requires m.ErasePictureC2S? && m.picID in d.pictures
    ensures Brings(v, Apply(v, ErasePictureS2C(d.cid, m.picID)), d, m)
  {
  }

  /** A message about a picture that is not stored. */
  lemma IgnoredBrings(v: View, d: Player, m: C2S)
    requires (m.MovePictureC2S? && m.base.picID !in d.pictures) || (m.ErasePictureC2S? && m.picID !in d.pictures)
    ensures Brings(v, v, d, m) && StoresAll(d, d, m)
  {
    if m.ErasePictureC2S? {
      assert d.pictures - {m.picID} == d.pictures;
    }
    assert d.cid in v.players ==> v.players == v.players[d.cid := v.players[d.cid]];
  }

  lemma EraseIsRelayed<U>(f: Filters, w: World<U>, u: U, m: C2S)
    requires Placed(w) && Present(w, u) && m.ErasePictureC2S? && m.picID in At(w, u).pictures
    ensures Relayed(f, w, RemovePicture(f, w, u, m.picID), u, m)
  {
    var d, p := Erased(At(w, u), m.picID), ErasePictureS2C(At(w, u).cid, m.picID);
    forall v ensures Brings(v, Apply(v, p), At(w, u), m) {
      EraseBrings(v, At(w, u), m);
    }
    PublishRelays(f, w, RemovePicture(f, w, u, m.picID), u, d, p, m);
  }

  lemma MoveIsRelayed<U>(f: Filters, w: World<U>, u: U, m: C2S)
    requires Placed(w) && Present(w, u) && m.MovePictureC2S? && m.base.picID in At(w, u).pictures
    ensures Relayed(f, w, MovePicture(f, w, u, m.base, m.duration), u, m)
  {
    var d, p := Moved(At(w, u), m.base), MovePictureS2C(At(w, u).cid, m.base, m.duration);
    forall v ensures Brings(v, Apply(v, p), At(w, u), m) {
      MoveBrings(v, At(w, u), m);
    }
    PublishRelays(f, w, MovePicture(f, w, u, m.base, m.duration), u, d, p, m);
  }

  lemma IgnoredIsRelayed<U>(f: Filters, w: World<U>, u: U, m: C2S)
    requires Structured(w) && u in w.data
    requires (m.MovePictureC2S? && m.base.picID !in At(w, u).pictures)
      || (m.ErasePictureC2S? && m.picID !in At(w, u).pictures)
    ensures Relayed(f, w, w, u, m)
  {
    forall x | x in w.data ensures RelayedTo(f, w, w, u, m, x) {
      IgnoredBrings(ViewOf(w, x), At(w, u), m);
    }
    IgnoredBrings(NO_VIEW, At(w, u), m);
  }

  /** The picture with this ID is off, on the server and on every screen. */
  ghost predicate Cleared<U>(f: Filters, w: World<U>, w1: World<U>, u: U, id: int32) {
    && Placed(w1) && Present(w1, u) && w1.data == w.data[u := Erased(At(w, u), id)]
    && w1.rooms == w.rooms && w1.users == w.users && w1.counter == w.counter && w1.views.Keys == w.views.Keys
    && forall x :: x in w.data ==> ClearedFor(f, w, w1, u, id, x)
  }

  ghost predicate ClearedFor<U>(f: Filters, w: World<U>, w1: World<U>, u: U, id: int32, x: U) {
    && (Visible(f, w1, x, u) <==> Visible(f, w, x, u))
    && ViewOf(w1, x) ==
       if Visible(f, w, x, u) && id in At(w, u).pictures then Apply(ViewOf(w, x), ErasePictureS2C(At(w, u).cid, id))
       else ViewOf(w, x)
  }

  lemma NothingToClear<U>(f: Filters, w: World<U>, u: U, id: int32)
    requires Placed(w) && Present(w, u) && id !in At(w, u).pictures
    ensures Cleared(f, w, w, u, id)
  {
    assert At(w, u).pictures - {id} == At(w, u).pictures;
    assert w.data[u := w.data[u]] == w.data;
  }

  lemma ClearedStays<U>(f: Filters, w: World<U>, w1: World<U>, u: U, d: Player, x: U)
    requires Placed(w) && Present(w, u) && SameIdentity(At(w, u), d) && x in w.data
    requires w1.rooms == w.rooms && w1.users == w.users && w1.counter == w.counter && w1.views.Keys == w.views.Keys
    requires w1.data == w.data[u := d]
    ensures Placed(w1) && Present(w1, u) && (Visible(f, w1, x, u) <==> Visible(f, w, x, u))
  {
    SameIdentitiesPlaced(w, w1);
    SamePlaces(f, w, w1, x, u);
    SamePlaces(f, w, w1, u, u);
  }

  lemma RemoveClears<U>(f: Filters, w: World<U>, u: U, id: int32)
    requires Placed(w) && Present(w, u) && id in At(w, u).pictures
    ensures Cleared(f, w, RemovePicture(f, w, u, id), u, id)
  {
    var d, p := Erased(At(w, u), id), ErasePictureS2C(At(w, u).cid, id);
    var w1 := RemovePicture(f, w, u, id);
    PublishStores(f, w, w1, u, d, p);
    ClearedStays(f, w, w1, u, d, u);
    forall x | x in w.data ensures ClearedFor(f, w, w1, u, id, x) {
      ClearedStays(f, w, w1, u, d, x);
      PublishReaches(f, w, u, d, p, x);
    }
  }

  lemma ShownTo<U>(f: Filters, w: World<U>, w1: World<U>, w': World<U>, u: U, m: C2S, x: U)
    requires m.ShowPictureC2S? && Cleared(f, w, w1, u, m.picture.base.picID) && u in w.data && x in w.data
    requires w' == Publish(f, w1, u, Stored(At(w1, u), m.picture), ShowPictureS2C(At(w1, u).cid, m.picture))
    ensures RelayedTo(f, w, w', u, m, x)
  {
    assert ClearedFor(f, w, w1, u, m.picture.base.picID, x);
    PublishReaches(f, w1, u, Stored(At(w1, u), m.picture), ShowPictureS2C(At(w1, u).cid, m.picture), x);
    ShowBrings(ViewOf(w, x), At(w, u), m);
  }

  lemma ShownStores(d: Player, m: C2S)
    requires m.ShowPictureC2S?
    ensures StoresAll(d, Stored(Erased(d, m.picture.base.picID), m.picture), m)
  {
    var id := m.picture.base.picID;
    assert (d.pictures - {id})[id := m.picture] == d.pictures[id := m.picture];
  }

  lemma ShownData<U>(f: Filters, w: World<U>, w1: World<U>, w': World<U>, u: U, m: C2S)
    requires m.ShowPictureC2S? && Cleared(f, w, w1, u, m.picture.base.picID) && u in w.data
    requires w' == Publish(f, w1, u, Stored(At(w1, u), m.picture), ShowPictureS2C(At(w1, u).cid, m.picture))
    ensures w'.rooms == w.rooms && w'.users == w.users && w'.counter == w.counter && w'.views.Keys == w.views.Keys
    ensures w'.data == w.data[u := At(w', u)] && StoresAll(At(w, u), At(w', u), m)
  {
    PublishStores(f, w1, w', u, Stored(At(w1, u), m.picture), ShowPictureS2C(At(w1, u).cid, m.picture));
    ShownStores(At(w, u), m);
  }

  lemma ShowAfter<U>(f: Filters, w: World<U>, w1: World<U>, w': World<U>, u: U, m: C2S)
    requires m.ShowPictureC2S? && Cleared(f, w, w1, u, m.picture.base.picID) && u in w.data
    requires w' == Publish(f, w1, u, Stored(At(w1, u), m.picture), ShowPictureS2C(At(w1, u).cid, m.picture))
    ensures Relayed(f, w, w', u, m)
  {
    ShownData(f, w, w1, w', u, m);
    forall x | x in w.data ensures RelayedTo(f, w, w', u, m, x) {
      ShownTo(f, w, w1, w', u, m, x);
    }
  }

  lemma ShowIsRelayed<U>(f: Filters, w: World<U>, u: U, m: C2S)
    requires Placed(w) && Present(w, u) && m.ShowPictureC2S?
    ensures Relayed(f, w, ShowPicture(f, w, u, m.picture), u, m)
  {
    var id := m.picture.base.picID;
    if id in At(w, u).pictures {
      RemoveClears(f, w, u, id);
      ShowAfter(f, w, RemovePicture(f, w, u, id), ShowPicture(f, w, u, m.picture), u, m);
    } else {
      NothingToClear(f, w, u, id);
      ShowAfter(f, w, w, ShowPicture(f, w, u, m.picture), u, m);
    }
  }

  lemma PictureIsRelayed<U>(f: Filters, w: World<U>, u: U, m: C2S)
    requires Placed(w) && Present(w, u) && IsPictureMessage(m)
    ensures Relayed(f, w, ProcessPicture(f, w, u, m), u, m)
  {
    if m.ShowPictureC2S? {
      ShowIsRelayed(f, w, u, m);
    } else if m.MovePictureC2S? {
      if m.base.picID in At(w, u).pictures {
        MoveIsRelayed(f, w, u, m);
      } else {
        IgnoredIsRelayed(f, w, u, m);
      }
    } else if m.picID in At(w, u).pictures {
      EraseIsRelayed(f, w, u, m);
    } else {
      IgnoredIsRelayed(f, w, u, m);
    }
  }

  /** Whatever a player in a room sends there is stored as its message says, and brought as
      it says to exactly those who see the player. */
  lemma ProcessRelays<U>(f: Filters, w: World<U>, w': World<U>, u: U, m: C2S)
    requires Placed(w) && w' == Process(f, w, u, m)
    ensures Present(w, u) ==> m.SwitchRoomC2S? || Relayed(f, w, w', u, m)
  {
    if Present(w, u) && !m.SwitchRoomC2S? {
      if IsRelay(m) {
        RelayIsRelayed(f, w, u, m);
      } else {
        PictureIsRelayed(f, w, u, m);
      }
    }
  }

  /** A room switch moves the player to the room that the message names, and nowhere else. */
  lemma SwitchMoves<U>(f: Filters, w: World<U>, w': World<U>, u: U, m: C2S)
    requires Placed(w) && u in w.data && Processable(w, m) && w' == Process(f, w, u, m)
    ensures !m.SwitchRoomC2S? || RoomChanged(f, w, w', u, m.roomID)
  {
    if m.SwitchRoomC2S? {
      ChangeRoomIs(f, w, u, m.roomID);
    }
  }
}
