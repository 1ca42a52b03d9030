/** Whose block list each step of the room server leaves alone, and when a new one is right. */
module RoomLists {
  import opened Basics
  import opened Copies
  import opened DataStore
  import opened Packets
  import opened Validate
  import opened Views
  import opened World
  import opened Agreement
  import opened RoomChange
  import opened Engine
  import opened Lifecycle

  /** Everybody keeps their block list, and the registry is the same. */
  ghost predicate SameLists<U>(w: World<U>, w': World<U>) {
    && w'.users == w.users && w'.data.Keys == w.data.Keys
    && forall x :: x in w.data ==> w'.data[x].blocklist == w.data[x].blocklist
  }

  lemma SameListsSameCopies<U>(w: World<U>, w': World<U>, t: Tables)
    requires Structured(w) && SameLists(w, w') && RoomCopiesOK(w, t)
    ensures RoomCopiesOK(w', t)
  {
    forall a | a in w'.users ensures At(w', w'.users[a]).blocklist == BlockList(t, a) {
      assert w.users[a] in w.data;
    }
  }

  lemma RelocatedLists<U>(w: World<U>, w': World<U>, u: U, newID: int32)
    requires u in w.data && Relocated(w, w', u, newID)
    ensures SameLists(w, w')
  {
  }

  lemma MovedLists<U>(f: Filters, w: World<U>, u: U, newID: int32)
    requires Placed(w) && u in w.data && newID in w.rooms
    ensures SameLists(w, ChangeRoom(f, w, u, newID))
  {
    ChangeRoomIs(f, w, u, newID);
    RelocatedLists(w, ChangeRoom(f, w, u, newID), u, newID);
  }

  lemma ProcessLists<U>(f: Filters, w: World<U>, u: U, m: C2S)
    requires Placed(w) && u in w.data && Processable(w, m)
    ensures SameLists(w, Process(f, w, u, m))
  {
    if m.SwitchRoomC2S? {
      MovedLists(f, w, u, m.roomID);
    } else if IsRelay(m) {
      RelayKeepsList(At(w, u), m);
      PublishLists(f, w, u, RelayData(At(w, u), m), RelayPacket(At(w, u).cid, m));
    } else {
      PictureLists(f, w, u, m);
    }
  }

  lemma RelayKeepsList(d: Player, m: C2S)
    ensures RelayData(d, m).blocklist == d.blocklist
  {
  }

  lemma PublishLists<U>(f: Filters, w: World<U>, u: U, d: Player, p: S2C)
    requires u in w.data && d.blocklist == w.data[u].blocklist
    ensures SameLists(w, Publish(f, w, u, d, p))
  {
  }

  lemma ErasedLists<U>(f: Filters, w: World<U>, u: U, id: int32)
    requires u in w.data
    ensures SameLists(w, RemovePicture(f, w, u, id))
  {
    PublishLists(f, w, u, Erased(At(w, u), id), ErasePictureS2C(At(w, u).cid, id));
  }

  lemma ShownLists<U>(f: Filters, w: World<U>, u: U, pic: Picture)
    requires u in w.data
    ensures SameLists(w, ShowPicture(f, w, u, pic))
  {
    var w1 := if pic.base.picID in At(w, u).pictures then RemovePicture(f, w, u, pic.base.picID) else w;
    ErasedLists(f, w, u, pic.base.picID);
    PublishLists(f, w1, u, Stored(At(w1, u), pic), ShowPictureS2C(At(w1, u).cid, pic));
  }

  lemma MoveLists<U>(f: Filters, w: World<U>, u: U, base: BasePicture, duration: int32)
    requires u in w.data
    ensures SameLists(w, MovePicture(f, w, u, base, duration))
  {
    if base.picID in At(w, u).pictures {
      PublishLists(f, w, u, Moved(At(w, u), base), MovePictureS2C(At(w, u).cid, base, duration));
    }
  }

  lemma PictureLists<U>(f: Filters, w: World<U>, u: U, m: C2S)
    requires u in w.data && !IsRelay(m) && !m.SwitchRoomC2S?
    ensures SameLists(w, ProcessPicture(f, w, u, m))
  {
    if m.ShowPictureC2S? {
      ShownLists(f, w, u, m.picture);
    } else if m.MovePictureC2S? {
      MoveLists(f, w, u, m.base, m.duration);
    } else {
      ErasedLists(f, w, u, m.picID);
    }
  }

  lemma {:induction false} ProcessAllLists<U>(f: Filters, w: World<U>, u: U, ms: seq<C2S>)
    requires ServerOK(f, w) && InGame(w, u) && AllAcceptable(f, w.rooms.Keys, ms) && AllClean(ms)
    ensures SameLists(w, ProcessAll(f, w, u, ms))
    decreases ms
  {
    if ms != [] {
      assert ms[0] in ms && forall m :: m in ms[1..] ==> m in ms;
      ProcessLists(f, w, u, ms[0]);
      ProcessKeeps(f, w, u, ms[0]);
      ProcessAllLists(f, Process(f, w, u, ms[0]), u, ms[1..]);
    }
  }

  lemma AppliedLists<U>(f: Filters, w: World<U>, u: U, count: uint32, ms: seq<C2S>)
    requires ServerOK(f, w) && InGame(w, u) && AllAcceptable(f, w.rooms.Keys, ms) && AllClean(ms)
    ensures SameLists(w, ProcessAll(f, Put(w, u, Counted(At(w, u), count)), u, ms))
  {
    CountKeeps(f, w, u, count);
    ProcessAllLists(f, Put(w, u, Counted(At(w, u), count)), u, ms);
  }

  lemma OwnLists<U>(w: World<U>)
    ensures SameLists(w, w)
  {
  }

  lemma CountedLists<U>(w: World<U>, u: U, count: uint32)
    requires u in w.data
    ensures SameLists(w, Put(w, u, Counted(At(w, u), count)))
  {
  }

  lemma PacketLists<U>(f: Filters, w: World<U>, u: U, verified: bool, count: uint32, parsed: Option<seq<C2S>>)
    requires ServerOK(f, w) && InGame(w, u) && (parsed.Some? ==> AllClean(parsed.value))
    ensures SameLists(w, Packet(f, w, u, verified, count, parsed))
  {
    if !verified || count <= At(w, u).guardCount {
      OwnLists(w);
    } else if parsed.None? || !AllAcceptable(f, w.rooms.Keys, parsed.value) {
      CountedLists(w, u, count);
    } else {
      AppliedLists(f, w, u, count, parsed.value);
    }
  }

  lemma CloseCopies<U>(f: Filters, w: World<U>, t: Tables, u: U)
    requires ServerOK(f, w) && u in w.data && RoomCopiesOK(w, t)
    ensures RoomCopiesOK(Close(f, w, u), t)
  {
    var w' := Close(f, w, u);
    forall a | a in w'.users ensures At(w', w'.users[a]).blocklist == BlockList(t, a) {
      assert a in w.users && w'.users[a] == w.users[a] && w.users[a] in w.data;
    }
  }

  lemma AuthorizeCopies<U>(w: World<U>, t: Tables, u: U, d: Player)
    requires Structured(w) && u !in w.data && RoomCopiesOK(w, t)
    ensures RoomCopiesOK(Authorize(w, u, d), t)
  {
    var w' := Authorize(w, u, d);
    forall a | a in w'.users ensures At(w', w'.users[a]).blocklist == BlockList(t, a) {
      assert w.users[a] in w.data;
    }
  }

  lemma OpenedCopies<U>(w: World<U>, w': World<U>, t: Tables, u: U)
    requires Structured(w) && u in w.data && Opened(w, w', u) && At(w, u).account !in w.users && RoomCopiesOK(w, t)
    ensures RoomCopiesOK(w', t) <==> At(w, u).blocklist == BlockList(t, At(w, u).account)
  {
    var account := At(w, u).account;
    assert w'.users[account] == u && At(w', u).blocklist == At(w, u).blocklist;
    if At(w, u).blocklist == BlockList(t, account) {
      forall a | a in w'.users ensures At(w', w'.users[a]).blocklist == BlockList(t, a) {
        if a != account {
          assert w'.users[a] == w.users[a] && w.users[a] in w.data;
        }
      }
    }
  }

  /** Opening keeps the lists right exactly if the account is refused, or the list that
      was looked up for it is still what the tables say. */
  lemma OpenCopies<U>(f: Filters, w: World<U>, t: Tables, u: U)
    requires Placed(w) && u in w.data && RoomCopiesOK(w, t)
    ensures RoomCopiesOK(Open(f, w, u), t) <==>
      At(w, u).account in w.users || At(w, u).blocklist == BlockList(t, At(w, u).account)
  {
    if At(w, u).account in w.users {
      SameListsSameCopies(w, Open(f, w, u), t);
    } else {
      OpenIs(f, w, u);
      OpenedCopies(w, Open(f, w, u), t, u);
    }
  }

  /** A connection that was let in with the list that the tables have for its account, and
      opens before they change, keeps the lists right, whatever is on its own. */
  lemma AdmittedCopies<U>(f: Filters, w: World<U>, t: Tables, u: U, d: Player)
    requires ServerOK(f, w) && u !in w.data && IsNew(w, d) && RoomCopiesOK(w, t)
    requires d.roomID in w.rooms && d.account !in w.users && d.blocklist == BlockList(t, d.account)
    ensures var w' := Open(f, Authorize(w, u, d), u);
      RoomCopiesOK(w', t) && d.account in w'.users && At(w', w'.users[d.account]).blocklist == BlockList(t, d.account)
  {
    var w1 := Authorize(w, u, d);
    AuthorizeKeeps(f, w, u, d);
    AuthorizeCopies(w, t, u, d);
    OpenCopies(f, w1, t, u);
    OpenIs(f, w1, u);
  }
}
