/** Every step of the room engine keeps the invariant and the agreement of views. */
module Engine {
  import opened Basics
  import opened Delimiters
  import opened Packets
  import opened Validate
  import opened Views
  import opened World
  import opened Agreement
  import opened RoomChange

  ghost predicate InGame<U>(w: World<U>, u: U) { u in w.data && At(w, u).phase == Live }

  /** The server's state is in order, and the screens are still right if they were. */
  ghost predicate StillOK<U>(f: Filters, w: World<U>, w': World<U>) {
    && ServerOK(f, w') && w'.rooms.Keys == w.rooms.Keys
    && (Faithful(f, w.rooms.Keys) && ScreensOK(f, w) ==> ScreensOK(f, w'))
  }

  /** The same for a step by u that leaves everybody connected as they were. */
  ghost predicate Keeps<U>(f: Filters, w: World<U>, w': World<U>, u: U) {
    && StillOK(f, w, w') && InGame(w', u)
    && w'.data.Keys == w.data.Keys && w'.users == w.users && w'.counter == w.counter
  }

  lemma InGameIsPresent<U>(w: World<U>, u: U)
    requires Registry(w) && InGame(w, u)
    ensures Present(w, u)
  {
    assert Enrolled(w, u);
  }

  // ---------- Messages ----------

  lemma SameIdentityRegistry<U>(f: Filters, w: World<U>, w': World<U>, u: U, d: Player)
    requires Structured(w) && Registry(w) && u in w.data && SameIdentity(w.data[u], d)
    requires w'.rooms == w.rooms && w'.users == w.users && w'.data == w.data[u := d]
    ensures Registry(w')
  {
    forall x | x in w.data ensures SameStatus(w, w', x) {
      SamePlaces(f, w, w', x, x);
    }
    SameRegistry(w, w');
  }

  lemma SameIdentityServes<U>(f: Filters, w: World<U>, w': World<U>, u: U, d: Player)
    requires ServerOK(f, w) && u in w.data && SameIdentity(w.data[u], d) && StateOK(f, d)
    requires w'.rooms == w.rooms && w'.users == w.users && w'.counter == w.counter && w'.views.Keys == w.views.Keys
    requires w'.data == w.data[u := d]
    ensures ServerOK(f, w')
  {
    SameIdentitiesPlaced(w, w');
    OneStateOK(f, w, w', u, d);
    SameIdentityRegistry(f, w, w', u, d);
  }

  lemma PublishShows<U>(f: Filters, w: World<U>, u: U, d: Player, p: S2C)
    requires Placed(w) && Registry(w) && ScreensOK(f, w) && InGame(w, u)
    requires SameIdentity(w.data[u], d) && Conveys(w.data[u], d, p)
    ensures ScreensOK(f, Publish(f, w, u, d, p))
  {
    InGameIsPresent(w, u);
    PublishIsPublished(f, w, u, d, p);
    PublishedKeeps(f, w, Publish(f, w, u, d, p), u, d);
  }

  lemma PublishKeeps<U>(f: Filters, w: World<U>, u: U, d: Player, p: S2C)
    requires ServerOK(f, w) && InGame(w, u)
    requires SameIdentity(w.data[u], d) && Conveys(w.data[u], d, p) && StateOK(f, d)
    ensures Keeps(f, w, Publish(f, w, u, d, p), u)
  {
    SameIdentityServes(f, w, Publish(f, w, u, d, p), u, d);
    if ScreensOK(f, w) {
      PublishShows(f, w, u, d, p);
    }
  }

  lemma KeepsThenKeeps<U>(f: Filters, w: World<U>, w1: World<U>, w2: World<U>, u: U)
    requires Keeps(f, w, w1, u) && Keeps(f, w1, w2, u)
    ensures Keeps(f, w, w2, u)
  {
  }

  lemma RemoveKeeps<U>(f: Filters, w: World<U>, u: U, id: int32)
    requires ServerOK(f, w) && InGame(w, u)
    ensures Keeps(f, w, RemovePicture(f, w, u, id), u)
    ensures At(RemovePicture(f, w, u, id), u).pictures == At(w, u).pictures - {id}
  {
    EraseConveys(f, w.data[u], id);
    PublishKeeps(f, w, u, Erased(w.data[u], id), ErasePictureS2C(w.data[u].cid, id));
  }

  lemma StoreKeeps<U>(f: Filters, w: World<U>, u: U, pic: Picture)
    requires ServerOK(f, w) && InGame(w, u) && pic.base.picID !in At(w, u).pictures
    requires ValidateBasePicture(pic.base).None? && f.HasPicture(pic.picName) && Clean(pic.picName)
    ensures Keeps(f, w, Publish(f, w, u, Stored(At(w, u), pic), ShowPictureS2C(At(w, u).cid, pic)), u)
  {
    ShowConveys(f, w.data[u], pic);
    PublishKeeps(f, w, u, Stored(At(w, u), pic), ShowPictureS2C(At(w, u).cid, pic));
  }

  lemma ShowKeeps<U>(f: Filters, w: World<U>, u: U, pic: Picture)
    requires ServerOK(f, w) && InGame(w, u)
    requires ValidateBasePicture(pic.base).None? && f.HasPicture(pic.picName) && Clean(pic.picName)
    ensures Keeps(f, w, ShowPicture(f, w, u, pic), u)
  {
    var id := pic.base.picID;
    if id in At(w, u).pictures {
      RemoveKeeps(f, w, u, id);
      var w1 := RemovePicture(f, w, u, id);
      StoreKeeps(f, w1, u, pic);
      KeepsThenKeeps(f, w, w1, ShowPicture(f, w, u, pic), u);
    } else {
      StoreKeeps(f, w, u, pic);
    }
  }

  lemma NothingKeeps<U>(f: Filters, w: World<U>, u: U)
    requires ServerOK(f, w) && InGame(w, u)
    ensures Keeps(f, w, w, u)
  {
  }

  lemma MoveKeeps<U>(f: Filters, w: World<U>, u: U, base: BasePicture, duration: int32)
    requires ServerOK(f, w) && InGame(w, u) && ValidateBasePicture(base).None?
    ensures Keeps(f, w, MovePicture(f, w, u, base, duration), u)
  {
    var d := w.data[u];
    if base.picID in d.pictures {
      MoveConveys(f, d, base, duration);
      PublishKeeps(f, w, u, Moved(d, base), MovePictureS2C(d.cid, base, duration));
    } else {
      NothingKeeps(f, w, u);
    }
  }

  lemma RelayKeeps<U>(f: Filters, w: World<U>, u: U, m: C2S)
    requires ServerOK(f, w) && InGame(w, u)
    requires IsRelay(m) && Acceptable(f, w.rooms.Keys, m) && CleanC2S(m)
    ensures Keeps(f, w, Publish(f, w, u, RelayData(At(w, u), m), RelayPacket(At(w, u).cid, m)), u)
  {
    RelayConveys(f, w.rooms.Keys, w.data[u], m);
    PublishKeeps(f, w, u, RelayData(At(w, u), m), RelayPacket(At(w, u).cid, m));
  }

  lemma RelocatedKeepsRegistry<U>(w: World<U>, w': World<U>, u: U, newID: int32)
    requires Placed(w) && Registry(w) && InGame(w, u) && Relocated(w, w', u, newID) && Present(w', u)
    ensures Registry(w')
  {
    forall x | x in w.data ensures SameStatus(w, w', x) {
      if x == u {
        InGameIsPresent(w, u);
      } else {
        RelocatedOther(w, w', u, newID, x);
      }
    }
    SameRegistry(w, w');
  }

  lemma SwitchKeeps<U>(f: Filters, w: World<U>, u: U, newID: int32)
    requires ServerOK(f, w) && InGame(w, u) && newID in w.rooms
    ensures Keeps(f, w, ChangeRoom(f, w, u, newID), u)
  {
    InGameIsPresent(w, u);
    ChangeRoomKeeps(f, w, u, newID);
    RelocatedKeepsRegistry(w, ChangeRoom(f, w, u, newID), u, newID);
  }

  lemma EraseKeeps<U>(f: Filters, w: World<U>, u: U, id: int32)
    requires ServerOK(f, w) && InGame(w, u)
    ensures Keeps(f, w, ErasePicture(f, w, u, id), u)
  {
    if id in At(w, u).pictures {
      RemoveKeeps(f, w, u, id);
    } else {
      NothingKeeps(f, w, u);
    }
  }

  /** What acceptance says about a picture. */
  ghost predicate PictureSound(f: Filters, m: C2S) {
    && (m.ShowPictureC2S? ==>
          ValidateBasePicture(m.picture.base).None? && f.HasPicture(m.picture.picName) && Clean(m.picture.picName))
    && (m.MovePictureC2S? ==> ValidateBasePicture(m.base).None?)
  }

  lemma AcceptedPicture(f: Filters, rooms: set<int32>, m: C2S)
    requires Acceptable(f, rooms, m) && CleanC2S(m)
    ensures PictureSound(f, m)
  {
  }

  lemma PictureKeeps<U>(f: Filters, w: World<U>, u: U, m: C2S)
    requires ServerOK(f, w) && InGame(w, u) && !IsRelay(m) && !m.SwitchRoomC2S? && PictureSound(f, m)
    ensures Keeps(f, w, ProcessPicture(f, w, u, m), u)
  {
    if m.ShowPictureC2S? {
      ShowKeeps(f, w, u, m.picture);
    } else if m.MovePictureC2S? {
      MoveKeeps(f, w, u, m.base, m.duration);
    } else {
      EraseKeeps(f, w, u, m.picID);
    }
  }

  /** Processing an acceptable message keeps everything. */
  lemma ProcessKeeps<U>(f: Filters, w: World<U>, u: U, m: C2S)
    requires ServerOK(f, w) && InGame(w, u) && Acceptable(f, w.rooms.Keys, m) && CleanC2S(m)
    ensures Keeps(f, w, Process(f, w, u, m), u)
  {
    if m.SwitchRoomC2S? {
      SwitchKeeps(f, w, u, m.roomID);
    } else if IsRelay(m) {
      RelayKeeps(f, w, u, m);
    } else {
      AcceptedPicture(f, w.rooms.Keys, m);
      PictureKeeps(f, w, u, m);
    }
  }

  ghost predicate AllClean(ms: seq<C2S>) { forall m :: m in ms ==> CleanC2S(m) }

  lemma {:induction false} ProcessAllKeeps<U>(f: Filters, w: World<U>, u: U, ms: seq<C2S>)
    requires ServerOK(f, w) && InGame(w, u) && AllAcceptable(f, w.rooms.Keys, ms) && AllClean(ms)
    ensures Keeps(f, w, ProcessAll(f, w, u, ms), u)
    decreases ms
  {
    if ms == [] {
      NothingKeeps(f, w, u);
    } else {
      assert ms[0] in ms && forall m :: m in ms[1..] ==> m in ms;
      var w1 := Process(f, w, u, ms[0]);
      ProcessKeeps(f, w, u, ms[0]);
      ProcessAllKeeps(f, w1, u, ms[1..]);
      KeepsThenKeeps(f, w, w1, ProcessAll(f, w, u, ms), u);
    }
  }

  /** Acceptability depends only on assets and the set of rooms, which no message
      changes: once a whole packet was accepted, each message is still acceptable
      when its turn comes, and its room exists. */
  lemma AcceptedStaysAcceptable<U>(f: Filters, w: World<U>, u: U, ms: seq<C2S>, k: nat)
    requires ServerOK(f, w) && InGame(w, u) && AllAcceptable(f, w.rooms.Keys, ms) && AllClean(ms) && k < |ms|
    ensures var w' := ProcessAll(f, w, u, ms[..k]);
      Acceptable(f, w'.rooms.Keys, ms[k]) && Processable(w', ms[k])
  {
    assert forall m :: m in ms[..k] ==> m in ms;
    ProcessAllKeeps(f, w, u, ms[..k]);
    assert ms[k] in ms;
  }

  function Counted(d: Player, count: uint32): Player { d.(guardCount := count) }

  lemma CountView<U>(f: Filters, w: World<U>, u: U, count: uint32, x: U)
    requires Agree(f, w) && u in w.data && x in w.data
    ensures PublishedTo(f, w, Put(w, u, Counted(At(w, u), count)), u, Counted(At(w, u), count), x)
  {
    if Visible(f, w, x, u) {
      assert PairOK(f, w, x, u);
    }
  }

  lemma CountIsPublished<U>(f: Filters, w: World<U>, u: U, count: uint32)
    requires Agree(f, w) && Structured(w) && u in w.data
    ensures Published(f, w, Put(w, u, Counted(At(w, u), count)), u, Counted(At(w, u), count))
  {
    var d := Counted(At(w, u), count);
    forall x | x in w.data ensures PublishedTo(f, w, Put(w, u, d), u, d, x) {
      CountView(f, w, u, count, x);
    }
  }

  lemma CountState(f: Filters, d: Player, count: uint32)
    requires StateOK(f, d)
    ensures StateOK(f, Counted(d, count)) && SameIdentity(d, Counted(d, count))
  {
  }

  /** The guard counter is no part of anybody's look. */
  lemma CountKeeps<U>(f: Filters, w: World<U>, u: U, count: uint32)
    requires ServerOK(f, w) && InGame(w, u)
    ensures Keeps(f, w, Put(w, u, Counted(At(w, u), count)), u)
  {
    var d := Counted(At(w, u), count);
    CountState(f, w.data[u], count);
    SameIdentityServes(f, w, Put(w, u, d), u, d);
    if ScreensOK(f, w) {
      CountIsPublished(f, w, u, count);
      PublishedKeeps(f, w, Put(w, u, d), u, d);
    }
  }

  lemma AppliedKeeps<U>(f: Filters, w: World<U>, u: U, count: uint32, ms: seq<C2S>)
    requires ServerOK(f, w) && InGame(w, u) && AllAcceptable(f, w.rooms.Keys, ms) && AllClean(ms)
    ensures Keeps(f, w, ProcessAll(f, Put(w, u, Counted(At(w, u), count)), u, ms), u)
  {
    var counted := Put(w, u, Counted(At(w, u), count));
    CountKeeps(f, w, u, count);
    ProcessAllKeeps(f, counted, u, ms);
    KeepsThenKeeps(f, w, counted, ProcessAll(f, counted, u, ms), u);
  }

  lemma CountedPacketKeeps<U>(f: Filters, w: World<U>, u: U, count: uint32, parsed: Option<seq<C2S>>)
    requires ServerOK(f, w) && InGame(w, u) && (parsed.Some? ==> AllClean(parsed.value))
    ensures Keeps(f, w, CountedPacket(f, w, u, count, parsed), u)
  {
    if parsed.None? || !AllAcceptable(f, w.rooms.Keys, parsed.value) {
      CountKeeps(f, w, u, count);
    } else {
      AppliedKeeps(f, w, u, count, parsed.value);
    }
  }

  /** Any packet keeps everything. */
  lemma PacketKeeps<U>(f: Filters, w: World<U>, u: U, verified: bool, count: uint32, parsed: Option<seq<C2S>>)
    requires ServerOK(f, w) && InGame(w, u) && (parsed.Some? ==> AllClean(parsed.value))
    ensures Keeps(f, w, Packet(f, w, u, verified, count, parsed), u)
  {
    if !verified || count <= At(w, u).guardCount {
      NothingKeeps(f, w, u);
    } else {
      CountedPacketKeeps(f, w, u, count, parsed);
    }
  }
}
