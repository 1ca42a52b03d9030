/** The copies of the tables that the two servers keep for their connections, as values:
    the room server a block list, the chat server a block list and a party. */
module Copies {
  import opened Basics
  import opened DataStore
  import opened World
  import Agreement

  // ---------- The room server's ----------

  /** The block list of an account that is connected is what the tables say. */
  ghost predicate RoomCopyOK<U>(w: World<U>, t: Tables, a: Uuid) {
    a in w.users ==> At(w, w.users[a]).blocklist == BlockList(t, a)
  }

  ghost predicate RoomCopiesOK<U>(w: World<U>, t: Tables) { forall a :: a in w.users ==> RoomCopyOK(w, t, a) }

  ghost predicate OwnAccounts<U>(w: World<U>) { forall a :: a in w.users ==> At(w, w.users[a]).account == a }

  /** After the update that follows a change of the tables the account's list is right,
      whatever it was before, and every other list is as right as it was. */
  lemma RoomFollows<U>(w: World<U>, t: Tables, t': Tables, account: Uuid)
    requires OwnAccounts(w) && forall o: Uuid :: o != account ==> BlockList(t', o) == BlockList(t, o)
    ensures var w' := UpdateBlockList(w, account, BlockList(t', account));
      && w'.users == w.users && RoomCopyOK(w', t', account)
      && forall a :: a in w.users && a != account ==> (RoomCopyOK(w', t', a) <==> RoomCopyOK(w, t, a))
  {
    var w' := UpdateBlockList(w, account, BlockList(t', account));
    forall a | a in w.users && a != account ensures At(w', w'.users[a]).blocklist == At(w, w.users[a]).blocklist {
      if account in w.users {
        assert w.users[a] != w.users[account];
      }
    }
  }

  lemma ServerHasOwnAccounts<U>(w: World<U>)
    requires Agreement.Registry(w)
    ensures OwnAccounts(w)
  {
    forall a | a in w.users ensures At(w, w.users[a]).account == a {
      assert Agreement.AccountOK(w, a);
    }
  }

  lemma OnlyOneList(t: Tables, t': Tables, origin: Uuid, blocked: Uuid, now: bool)
    requires OnlyRelated(t, t', origin, blocked, now)
    ensures forall o: Uuid :: o != origin ==> BlockList(t', o) == BlockList(t, o)
    ensures BlockList(t', origin) == if now then BlockList(t, origin) + {blocked} else BlockList(t, origin) - {blocked}
  {
    forall o: Uuid, b: Uuid
      ensures b in BlockList(t', o) <==> if o == origin && b == blocked then now else b in BlockList(t, o)
    {
      BlockListIs(t, o, b);
      BlockListIs(t', o, b);
    }
  }

  /** The users that a query returned, as a block list. */
  lemma ListOfUsers(t: Tables, account: Uuid, users: seq<Uuid>)
    requires forall b: Uuid :: b in users <==> DataStore.HasBlocked(t, account, b)
    ensures (set b | b in users) == BlockList(t, account)
  {
    forall b: Uuid ensures b in (set a | a in users) <==> b in BlockList(t, account) {
      BlockListIs(t, account, b);
    }
  }

  // ---------- The chat server's ----------

  datatype Copy = Copy(account: Uuid, blocklist: set<Uuid>, partyID: Option<Uuid>)

  /** What the HTTP API can change while a connection is open. */
  datatype Update = NewBlockList(blocklist: set<Uuid>) | NewParty(partyID: Option<Uuid>)

  function Changed(d: Copy, update: Update): Copy {
    match update
    case NewBlockList(blocked) => d.(blocklist := blocked)
    case NewParty(party) => d.(partyID := party)
  }

  function Renewed(d: Copy, account: Uuid, update: Update): Copy {
    if d.account == account then Changed(d, update) else d
  }

  /** The copies of one account changed, and no other. */
  function ChangedFor<C>(copies: map<C, Copy>, account: Uuid, update: Update): map<C, Copy> {
    map c | c in copies :: Renewed(copies[c], account, update)
  }

  ghost predicate PartyOK(t: Tables, d: Copy) { d.partyID == PartyOf(t, d.account) }

  ghost predicate ListOK(t: Tables, d: Copy) { d.blocklist == BlockList(t, d.account) }

  ghost predicate CopyOK(t: Tables, d: Copy) { PartyOK(t, d) && ListOK(t, d) }

  ghost predicate CopiesOK<C>(t: Tables, copies: map<C, Copy>) { forall c :: c in copies ==> CopyOK(t, copies[c]) }

  /** What a connection learns when its account is looked up. */
  function LookUp(t: Tables, account: Uuid): Copy { Copy(account, BlockList(t, account), PartyOf(t, account)) }

  /** What is looked up is right until the tables change. */
  lemma LookedUpIsRight(t: Tables, account: Uuid)
    ensures LookUp(t, account).account == account && CopyOK(t, LookUp(t, account))
  {
  }

  /** The account that a change of the tables is about. */
  function AccountOf(c: Change): Uuid {
    match c
    case Registering(user) => user
    case Creating(user, _, _) => user
    case Joining(user, _) => user
    case Leaving(user) => user
    case Blocking(origin, _) => origin
    case Unblocking(origin, _) => origin
  }

  /** What chat is told about that account once the change is committed. */
  function News(t: Tables, c: Change): Option<Update> {
    match c
    case Registering(_) => None
    case Creating(_, _, id) => Some(NewParty(Some(id)))
    case Joining(_, party) => Some(NewParty(Some(party)))
    case Leaving(_) => Some(NewParty(None))
    case Blocking(origin, _) => Some(NewBlockList(BlockList(t, origin)))
    case Unblocking(origin, _) => Some(NewBlockList(BlockList(t, origin)))
  }

  function CopiesAfter<C>(copies: map<C, Copy>, t: Tables, c: Change, committed: bool): map<C, Copy> {
    if !committed || Outcome(t, c).Err? then copies
    else
      var news := News(After(t, c, committed), c);
      if news.Some? then ChangedFor(copies, AccountOf(c), news.value) else copies
  }

  ghost predicate SameParty(t: Tables, t': Tables, o: Uuid) { PartyOf(t', o) == PartyOf(t, o) }

  ghost predicate SameList(t: Tables, t': Tables, o: Uuid) { BlockList(t', o) == BlockList(t, o) }

  /** A change moves nobody but its own account and changes nobody else's list, and chat is
      told what it did to that account. */
  ghost predicate OnlyAbout(t: Tables, t': Tables, c: Change) {
    var a := AccountOf(c);
    && (forall o: Uuid :: o != a ==> PartyOf(t', o) == PartyOf(t, o) && BlockList(t', o) == BlockList(t, o))
    && match News(t', c)
       case None => SameParty(t, t', a) && SameList(t, t', a)
       case Some(NewParty(party)) => PartyOf(t', a) == party && SameList(t, t', a)
       case Some(NewBlockList(blocked)) => BlockList(t', a) == blocked && SameParty(t, t', a)
  }

  lemma SameRelationsSameLists(t: Tables, t': Tables)
    requires t'.relations == t.relations
    ensures forall o: Uuid :: BlockList(t', o) == BlockList(t, o)
  {
  }

  lemma MoveIsAbout(t: Tables, t': Tables, c: Change, party: Option<Uuid>)
    requires OnlyMoved(t, t', AccountOf(c), party) && News(t', c) == Some(NewParty(party))
    ensures OnlyAbout(t, t', c)
  {
    SameRelationsSameLists(t, t');
  }

  lemma PartyChangeIsAbout(t: Tables, c: Change)
    requires TablesOK(t) && Outcome(t, c).Ok? && (c.Creating? || c.Joining? || c.Leaving?)
    ensures OnlyAbout(t, Outcome(t, c).value, c)
  {
    if c.Creating? {
      CreateMeans(t, c.user, c.name, c.id);
      MoveIsAbout(t, Outcome(t, c).value, c, Some(c.id));
    } else if c.Joining? {
      JoinMeans(t, c.party, c.user);
      MoveIsAbout(t, Outcome(t, c).value, c, Some(c.party));
    } else {
      LeaveMeans(t, c.user);
      MoveIsAbout(t, Outcome(t, c).value, c, None);
    }
  }

  lemma ListChangeIsAbout(t: Tables, c: Change)
    requires TablesOK(t) && Outcome(t, c).Ok? && (c.Blocking? || c.Unblocking?)
    ensures OnlyAbout(t, Outcome(t, c).value, c)
  {
    if c.Blocking? {
      BlockMeans(t, c.origin, c.blocked);
      OnlyOneList(t, Outcome(t, c).value, c.origin, c.blocked, true);
    } else {
      UnblockMeans(t, c.origin, c.blocked);
      OnlyOneList(t, Outcome(t, c).value, c.origin, c.blocked, false);
    }
  }

  lemma ChangeIsAbout(t: Tables, c: Change)
    requires TablesOK(t) && Outcome(t, c).Ok?
    ensures OnlyAbout(t, Outcome(t, c).value, c)
  {
    if c.Registering? {
      SameRelationsSameLists(t, Outcome(t, c).value);
    } else if c.Blocking? || c.Unblocking? {
      ListChangeIsAbout(t, c);
    } else {
      PartyChangeIsAbout(t, c);
    }
  }

  /** The copies that were right stay right, and what the change was about is right in
      the account's copies whatever it was before. */
  lemma CopiesFollow<C>(copies: map<C, Copy>, t: Tables, c: Change, committed: bool)
    requires TablesOK(t)
    ensures var t', after := After(t, c, committed), CopiesAfter(copies, t, c, committed);
      && after.Keys == copies.Keys
      && (forall x :: x in copies && CopyOK(t, copies[x]) ==> CopyOK(t', after[x]))
      && (forall x :: x in copies && copies[x].account == AccountOf(c) && committed && Outcome(t, c).Ok? ==>
            && (c.Creating? || c.Joining? || c.Leaving? ==> PartyOK(t', after[x]))
            && (c.Blocking? || c.Unblocking? ==> ListOK(t', after[x])))
  {
    if committed && Outcome(t, c).Ok? {
      ChangeIsAbout(t, c);
    }
  }
}
