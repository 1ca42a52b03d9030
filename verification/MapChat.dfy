/** Map chat against what players see: the chat server decides by room and block list
    who gets a map message, the screens are built by the room server's packets. */
module MapChat {
  import opened Basics
  import opened DataStore
  import opened Validate
  import opened World
  import opened Agreement
  import opened Copies
  import opened RoomChange
  import Chat
  import RoomServer

  /** A registered account is listed in its room through its own connection. */
  lemma ListedAccount<U>(w: World<U>, r: int32, account: Uuid)
    requires Placed(w) && Registry(w) && account in w.users
    ensures account in AccountsOf(w, Members(w, r)) <==> At(w, w.users[account]).roomID == r
  {
    var b := w.users[account];
    assert AccountOK(w, account) && Enrolled(w, b);
    if account in AccountsOf(w, Members(w, r)) {
      var m :| m in Members(w, r) && At(w, m).account == account;
      assert At(w, m).roomID == r && Enrolled(w, m);
      assert m == b;
    }
  }

  /** Nobody is listed who is not registered. */
  lemma UnlistedAccount<U>(w: World<U>, r: int32, account: Uuid)
    requires Placed(w) && Registry(w) && account !in w.users
    ensures account !in AccountsOf(w, Members(w, r))
  {
    forall m | m in Members(w, r) ensures At(w, m).account != account {
      assert m in w.data && At(w, m).roomID == r && Enrolled(w, m);
    }
  }

  lemma SameBlocks<U>(w: World<U>, t: Tables, a: Uuid, b: Uuid)
    requires Registry(w) && RoomCopiesOK(w, t) && a in w.users && b in w.users
    ensures BlockedBetween(At(w, w.users[a]), At(w, w.users[b])) <==> Chat.Blocked(t, a, b)
  {
    assert AccountOK(w, a) && AccountOK(w, b);
  }

  /** Another account in the game gets a map message exactly when it sees the sender. */
  lemma MapIsVisibility<U>(f: Filters, w: World<U>, t: Tables, from: Uuid, to: Uuid)
    requires ServerOK(f, w) && ScreensOK(f, w) && RoomCopiesOK(w, t)
    requires from in w.users && to in w.users && from != to
    ensures Chat.Gets(t, RoommatesOf(f, w, from), Chat.Map, from, to) <==>
      At(w, w.users[from]).cid in ViewOf(w, w.users[to]).players
  {
    var a, b := w.users[from], w.users[to];
    assert AccountOK(w, from) && AccountOK(w, to) && Enrolled(w, a) && Enrolled(w, b);
    ListedAccount(w, At(w, a).roomID, to);
    SameBlocks(w, t, from, to);
    assert ViewOK(f, w, b) && PairOK(f, w, b, a);
  }

  /** An account that is not in the game gets no map message of another. */
  lemma MapNeedsTheGame<U>(f: Filters, w: World<U>, t: Tables, from: Uuid, to: Uuid)
    requires ServerOK(f, w) && to !in w.users && from != to
    ensures !Chat.Gets(t, RoommatesOf(f, w, from), Chat.Map, from, to)
  {
    if from in w.users {
      assert AccountOK(w, from);
      UnlistedAccount(w, At(w, w.users[from]).roomID, to);
    }
  }

  /** In a singleplayer map nobody else gets it. */
  lemma MapAlone<U>(f: Filters, w: World<U>, t: Tables, from: Uuid, to: Uuid)
    requires Registry(w) && from in w.users && At(w, w.users[from]).roomID in f.singleplayer
    ensures Chat.Gets(t, RoommatesOf(f, w, from), Chat.Map, from, to) <==> to == from && !Chat.Blocked(t, from, from)
  {
    assert AccountOK(w, from);
  }

  /** A sender in the game gets its own message, unless it blocks itself. */
  lemma MapToOneself<U>(f: Filters, w: World<U>, t: Tables, from: Uuid)
    requires Registry(w) && from in w.users
    ensures Chat.Gets(t, RoommatesOf(f, w, from), Chat.Map, from, from) <==> !Chat.Blocked(t, from, from)
  {
    assert AccountOK(w, from);
  }

  /** Who is refused, and who gets the message. */
  ghost predicate MapChatIsView<U>(f: Filters, w: World<U>, t: Tables, from: Uuid, to: Uuid) {
    var mates := RoommatesOf(f, w, from);
    && (Chat.Refusal(t, mates, Chat.Map, from) == Some(Chat.NotInMap) <==> from !in w.users)
    && (Chat.Gets(t, mates, Chat.Map, from, to) <==>
          from in w.users && to in w.users && At(w, w.users[from]).cid in ViewOf(w, w.users[to]).players)
  }

  lemma MapChatCases<U>(f: Filters, w: World<U>, t: Tables, from: Uuid, to: Uuid)
    requires from in w.users && to in w.users ==>
      (Chat.Gets(t, RoommatesOf(f, w, from), Chat.Map, from, to) <==>
        At(w, w.users[from]).cid in ViewOf(w, w.users[to]).players)
    requires to !in w.users ==> !Chat.Gets(t, RoommatesOf(f, w, from), Chat.Map, from, to)
    ensures MapChatIsView(f, w, t, from, to)
  {
  }

  lemma MapChatHolds<U>(f: Filters, w: World<U>, t: Tables, from: Uuid, to: Uuid)
    requires ServerOK(f, w) && ScreensOK(f, w) && RoomCopiesOK(w, t) && from != to
    ensures MapChatIsView(f, w, t, from, to)
  {
    if to !in w.users {
      MapNeedsTheGame(f, w, t, from, to);
    } else if from in w.users {
      MapIsVisibility(f, w, t, from, to);
    }
    MapChatCases(f, w, t, from, to);
  }

  // ---------- On the objects ----------

  /** The accounts in the game whose players have this account's on their screens. */
  ghost function SeenBy(rh: RoomServer.Handler, from: Uuid): set<Uuid>
    reads rh, rh.conns`view
  {
    set a | a in rh.users && from in rh.users && rh.users[a] in rh.conns &&
            rh.users[from].data.cid in rh.users[a].view.players
  }

  lemma SeenIs(rh: RoomServer.Handler, to: Uuid, from: Uuid)
    requires Structured(rh.Abs())
    ensures var w := rh.Abs();
      to in SeenBy(rh, from) <==>
        from in w.users && to in w.users && At(w, w.users[from]).cid in ViewOf(w, w.users[to]).players
  {
    var w := rh.Abs();
    if from in rh.users {
      assert w.users[from] in w.data && At(w, rh.users[from]) == rh.users[from].data.State();
    }
    if to in rh.users {
      assert w.users[to] in w.data && ViewOf(w, rh.users[to]) == rh.users[to].view;
    }
  }

  /** What is due to another account, and to a sender that is not in the game. */
  ghost predicate DueToSeers(t: Tables, mates: Option<set<Uuid>>, seers: set<Uuid>, from: Uuid, to: Uuid,
      content: Bytes) {
    && (to != from ==>
          Chat.Due(t, mates, Chat.Map, from, to, false, content) ==
          if to in seers then [Chat.Message(Chat.Map, from, content)] else [])
    && (mates.None? ==> Chat.Due(t, mates, Chat.Map, from, from, true, content) == [Chat.Error(Chat.NotInMap)])
  }

  lemma ViewIsSight<U>(f: Filters, w: World<U>, t: Tables, seers: set<Uuid>, from: Uuid, to: Uuid, content: Bytes)
    requires from != to ==> MapChatIsView(f, w, t, from, to)
    requires to in seers <==>
      from in w.users && to in w.users && At(w, w.users[from]).cid in ViewOf(w, w.users[to]).players
    ensures DueToSeers(t, RoommatesOf(f, w, from), seers, from, to, content)
  {
  }

  lemma MapDueIsSight(rh: RoomServer.Handler, t: Tables, from: Uuid, to: Uuid, content: Bytes)
    requires rh.Valid() && rh.WasGuarded() && Faithful(rh.filters, rh.filters.maps) && RoomCopiesOK(rh.Abs(), t)
    ensures DueToSeers(t, RoommatesOf(rh.filters, rh.Abs(), from), SeenBy(rh, from), from, to, content)
  {
    rh.Served();
    rh.Shown();
    if from != to {
      MapChatHolds(rh.filters, rh.Abs(), t, from, to);
    }
    SeenIs(rh, to, from);
    ViewIsSight(rh.filters, rh.Abs(), t, SeenBy(rh, from), from, to, content);
  }

  method WriteToSeers(ch: Chat.Handler, u: Chat.User, content: Bytes, ghost t: Tables, ghost mates: Option<set<Uuid>>,
                      ghost seers: set<Uuid>)
    requires u in ch.users && ch.CacheOK(t) && Structured(ch.rh.Abs())
    requires mates == RoommatesOf(ch.rh.filters, ch.rh.Abs(), u.data.account)
    requires forall v :: v in ch.users ==> DueToSeers(t, mates, seers, u.data.account, v.data.account, content)
    modifies ch.users`received
    ensures forall v :: v in ch.users && v.data.account != u.data.account ==>
      v.received == old(v.received) +
        if v.data.account in seers then [Chat.Message(Chat.Map, u.data.account, content)] else []
    ensures mates.None? ==> u.received == old(u.received) + [Chat.Error(Chat.NotInMap)]
  {
    ch.ProcessMessage(u, Chat.Map, content, t);
  }

  /** While all copies are right and block-list changes were guarded: a map message reaches
      exactly those connections of other accounts whose player has the sender's on its
      screen, and a sender that is not in the game is told so. */
  method WriteOnMap(ch: Chat.Handler, u: Chat.User, content: Bytes, ghost t: Tables)
    requires u in ch.users && ch.CacheOK(t) && ch.rh.Valid() && ch.rh.WasGuarded()
    requires Faithful(ch.rh.filters, ch.rh.filters.maps) && RoomCopiesOK(ch.rh.Abs(), t)
    modifies ch.users`received
    ensures forall v :: v in ch.users && v.data.account != u.data.account ==>
      v.received == old(v.received) +
        if v.data.account in old(SeenBy(ch.rh, u.data.account))
        then [Chat.Message(Chat.Map, u.data.account, content)] else []
    ensures u.data.account !in old(ch.rh.users) ==> u.received == old(u.received) + [Chat.Error(Chat.NotInMap)]
  {
    ghost var from, mates := u.data.account, RoommatesOf(ch.rh.filters, ch.rh.Abs(), u.data.account);
    ghost var seers := SeenBy(ch.rh, from);
    forall v | v in ch.users ensures DueToSeers(t, mates, seers, from, v.data.account, content) {
      MapDueIsSight(ch.rh, t, from, v.data.account, content);
    }
    ch.rh.Served();
    WriteToSeers(ch, u, content, t, mates, seers);
  }
}
