/** The chat server: every connection keeps a copy of its account's block list and
    party, and messages go to connections by those copies. */
module Chat {
  import opened Basics
  import opened Copies
  import opened DataStore
  import opened World
  import RoomServer

  datatype Channel = Global | Map | Party

  datatype ChatError = NotInMap | NotInParty

  /** What is written to a chat connection. */
  datatype Sent = Message(channel: Channel, author: Uuid, content: Bytes) | Error(error: ChatError)

  /** Who should get a message, before blocks are looked at. */
  datatype Audience = Everyone | Accounts(accounts: set<Uuid>) | PartyMembers(partyID: Uuid)

  predicate ShouldGet(to: Audience, them: Copy) {
    match to
    case Everyone => true
    case Accounts(accounts) => them.account in accounts
    case PartyMembers(partyID) => them.partyID == Some(partyID)
  }

  predicate HasBlocked(us: Copy, them: Uuid) { them in us.blocklist }

  predicate IsBlockedBetween(a: Copy, b: Copy) { HasBlocked(a, b.account) || HasBlocked(b, a.account) }

  /** The copy that a connection keeps. */
  class ClientData {
    const account: Uuid
    var blocklist: set<Uuid>
    var partyID: Option<Uuid>

    function State(): Copy
      reads this
    {
      Copy(account, blocklist, partyID)
    }

    constructor (account: Uuid, blocklist: set<Uuid>, partyID: Option<Uuid>)
      ensures State() == Copy(account, blocklist, partyID)
    {
      this.account, this.blocklist, this.partyID := account, blocklist, partyID;
    }

    method Change(update: Update)
      modifies this
      ensures State() == Changed(old(State()), update)
    {
      match update
      case NewBlockList(blocked) => blocklist := blocked;
      case NewParty(party) => partyID := party;
    }
  }

  class User {
    const data: ClientData
    var received: seq<Sent>

    constructor (data: ClientData)
      ensures this.data == data && received == []
    {
      this.data, received := data, [];
    }

    method Send(msg: Sent)
      modifies this`received
      ensures received == old(received) + [msg]
    {
      received := received + [msg];
    }
  }

  ghost function DatasOf(us: set<User>): set<ClientData> { set u | u in us :: u.data }

  /** The copies of some connections, as values. */
  ghost function CopiesOf(us: set<User>): map<User, Copy>
    reads DatasOf(us)
  {
    map u | u in us :: u.data.State()
  }

  class Handler {
    const rh: RoomServer.Handler
    var users: set<User>
    ghost var waiting: set<User>   // authorised and not opened yet

    constructor (rh: RoomServer.Handler)
      ensures this.rh == rh && users == {} && waiting == {} && Separate()
    {
      this.rh, users, waiting := rh, {}, {};
    }

    ghost function Datas(): set<ClientData>
      reads this
    {
      DatasOf(users)
    }

    /** No two connections share their data. */
    ghost predicate Separate()
      reads this
    {
      && users !! waiting
      && forall u, v :: u in users + waiting && v in users + waiting && u != v ==> u.data != v.data
    }

    /** The copies that messages go by, and those looked up for connections that wait. */
    ghost function Live(): map<User, Copy>
      reads this, Datas()
    {
      CopiesOf(users)
    }

    ghost function Looked(): map<User, Copy>
      reads this, DatasOf(waiting)
    {
      CopiesOf(waiting)
    }

    /** Every copy is what the tables say. */
    ghost predicate CacheOK(t: Tables)
      reads this, Datas()
    {
      CopiesOK(t, Live())
    }

    /** Nothing that the copies depend on changed. */
    twostate lemma Untouched()
      requires unchanged(this) && unchanged(Datas()) && unchanged(DatasOf(waiting))
      ensures Live() == old(Live()) && Looked() == old(Looked()) && Separate() == old(Separate())
    {
    }

    /** The two lookups; each can fail. */
    method Find(store: Store, account: Uuid, failAt: nat) returns (r: Option<Copy>)
      requires TablesOK(store.tables)
      ensures r == if failAt <= 1 then None else Some(LookUp(store.tables, account))
    {
      if failAt == 0 {
        return None;
      }
      var blocked := store.GetBlockedUsers(account);
      var blocklist := set b | b in blocked;
      ListOfUsers(store.tables, account, blocked);
      if failAt == 1 {
        return None;
      }
      var found := store.GetUserParty(account);
      var party := if found.None? then None else Some(found.value.id);
      FoundParty(store.tables, account, party);
      r := Some(Copy(account, blocklist, party));
    }

    /** Makes a connection that knows what was looked up; it is refused if a lookup fails. */
    method Authorize(store: Store, account: Uuid, failAt: nat) returns (r: Option<User>)
      requires Separate() && TablesOK(store.tables)
      modifies this`waiting
      ensures Separate() && (r.None? <==> failAt <= 1)
      ensures r.None? ==> waiting == old(waiting)
      ensures r.Some? ==> fresh(r.value) && fresh(r.value.data) && r.value.received == []
      ensures r.Some? ==> waiting == old(waiting) + {r.value}
      ensures Live() == old(Live())
      ensures r.Some? ==> Looked() == old(Looked())[r.value := LookUp(store.tables, account)]
      ensures r.Some? ==> r.value.data.account == account && CopyOK(store.tables, r.value.data.State())
    {
      var found := Find(store, account, failAt);
      if found.None? {
        return None;
      }
      var d := new ClientData(account, found.value.blocklist, found.value.partyID);
      var u := new User(d);
      waiting := waiting + {u};
      r := Some(u);
    }

    /** Registers a connection, with what was looked up for it. All copies are right from
        now on exactly if the others were and its own still is. */
    method OnOpen(u: User, ghost t: Tables)
      requires Separate() && u in waiting
      modifies this`users, this`waiting
      ensures Separate() && users == old(users) + {u} && waiting == old(waiting) - {u}
      ensures Live() == old(Live())[u := old(Looked()[u])] && Looked() == old(Looked()) - {u}
      ensures CacheOK(t) <==> old(CacheOK(t)) && CopyOK(t, u.data.State())
    {
      users := users + {u};
      waiting := waiting - {u};
      OneMoreCopy(t, old(Live()), u, u.data.State());
    }

    method OnClose(u: User, ghost t: Tables)
      requires Separate()
      modifies this`users
      ensures Separate() && users == old(users) - {u} && Live() == old(Live()) - {u} && Looked() == old(Looked())
      ensures old(CacheOK(t)) ==> CacheOK(t)
    {
      users := users - {u};
    }

    /** Changes the copies of all of an account's connections, and only those. */
    method ForEachConnOf(account: Uuid, update: Update)
      requires Separate()
      modifies Datas()
      ensures forall u :: u in users ==> u.data.State() == Renewed(old(u.data.State()), account, update)
    {
      var left := users;
      while left != {}
        invariant left <= users
        invariant forall u :: u in left ==> u.data.State() == old(u.data.State())
        invariant forall u :: u in users - left ==> u.data.State() == Renewed(old(u.data.State()), account, update)
        decreases |left|
      {
        var u :| u in left;
        left := left - {u};
        if u.data.account == account {
          u.data.Change(update);
        }
      }
    }

    /** The same as values. */
    method ChangeCopies(account: Uuid, update: Update)
      requires Separate()
      modifies Datas()
      ensures Live() == ChangedFor(old(Live()), account, update) && Looked() == old(Looked())
    {
      assert DatasOf(waiting) !! Datas();
      ForEachConnOf(account, update);
    }

    /** The account's lists become what the tables say; no other copy changes. */
    method UpdateBlockList(account: Uuid, blocked: seq<Uuid>, ghost t: Tables)
      requires Separate() && forall b: Uuid :: b in blocked <==> DataStore.HasBlocked(t, account, b)
      modifies Datas()
      ensures Live() == ChangedFor(old(Live()), account, NewBlockList(BlockList(t, account)))
      ensures Looked() == old(Looked())
    {
      var blocklistNew := set b | b in blocked;
      ListOfUsers(t, account, blocked);
      ChangeCopies(account, NewBlockList(blocklistNew));
    }

    /** The account's connections are told its party; no other copy changes. */
    method UpdateParty(account: Uuid, partyID: Option<Uuid>)
      requires Separate()
      modifies Datas()
      ensures Live() == ChangedFor(old(Live()), account, NewParty(partyID)) && Looked() == old(Looked())
    {
      ChangeCopies(account, NewParty(partyID));
    }

    /** Writes to each connection that is meant, unless one of the two accounts blocks the other. */
    method Broadcast(from: ClientData, to: Audience, msg: Sent)
      modifies users`received
      ensures forall u :: u in users ==>
        u.received == old(u.received) +
          if ShouldGet(to, u.data.State()) && !IsBlockedBetween(from.State(), u.data.State()) then [msg] else []
    {
      var left := users;
      while left != {}
        invariant left <= users
        invariant forall u :: u in left ==> u.received == old(u.received)
        invariant forall u :: u in users - left ==>
          u.received == old(u.received) +
            if ShouldGet(to, u.data.State()) && !IsBlockedBetween(from.State(), u.data.State()) then [msg] else []
        decreases |left|
      {
        var u :| u in left;
        left := left - {u};
        if ShouldGet(to, u.data.State()) && !IsBlockedBetween(from.State(), u.data.State()) {
          u.Send(msg);
        }
      }
    }

    /** Who a message on a channel goes to, or why it goes to nobody. */
    method ChooseAudience(d: ClientData, channel: Channel) returns (to: Result<Audience, ChatError>)
      requires Structured(rh.Abs())
      ensures to == Chosen(channel, RoommatesOf(rh.filters, old(rh.Abs()), d.account), d.partyID)
    {
      match channel
      case Global => to := Ok(Everyone);
      case Map =>
        var roommates := rh.GetRoommates(d.account);
        to := if roommates.None? then Err(NotInMap) else Ok(Accounts(roommates.value));
      case Party =>
        to := if d.partyID.None? then Err(NotInParty) else Ok(PartyMembers(d.partyID.value));
    }

    /** Tells everyone it is for, or tells the sender why not. */
    method Deliver(u: User, to: Result<Audience, ChatError>, channel: Channel, content: Bytes,
                   ghost mates: Option<set<Uuid>>)
      requires u in users && to == Chosen(channel, mates, u.data.partyID)
      modifies users`received
      ensures forall v :: v in users ==>
        v.received == old(v.received) + Delivered(mates, channel, u.data.State(), v.data.State(), v == u, content)
    {
      match to
      case Err(e) => u.Send(Error(e));
      case Ok(audience) => Broadcast(u.data, audience, Message(channel, u.data.account, content));
    }

    /** Every connection is sent what its copy and the sender's say, with the rooms as they
        are. While the copies are right, that is what the tables and the rooms say. */
    method ProcessMessage(u: User, channel: Channel, content: Bytes, ghost t: Tables)
      requires u in users && Structured(rh.Abs())
      modifies users`received
      ensures var mates := RoommatesOf(rh.filters, old(rh.Abs()), u.data.account);
        forall v :: v in users ==>
          v.received == old(v.received) + Delivered(mates, channel, u.data.State(), v.data.State(), v == u, content)
      ensures var mates := RoommatesOf(rh.filters, old(rh.Abs()), u.data.account);
        CacheOK(t) ==> forall v :: v in users ==>
          v.received == old(v.received) + Due(t, mates, channel, u.data.account, v.data.account, v == u, content)
    {
      ghost var mates := RoommatesOf(rh.filters, rh.Abs(), u.data.account);
      var to := ChooseAudience(u.data, channel);
      Deliver(u, to, channel, content, mates);
      if CacheOK(t) {
        forall v | v in users
          ensures Delivered(mates, channel, u.data.State(), v.data.State(), v == u, content) ==
                  Due(t, mates, channel, u.data.account, v.data.account, v == u, content)
        {
          assert CopyOK(t, Live()[u]) && CopyOK(t, Live()[v]);
          DeliveredIsDue(t, mates, channel, u.data.State(), v.data.State(), v == u, content);
        }
      }
    }
  }

  lemma FoundParty(t: Tables, account: Uuid, party: Option<Uuid>)
    requires OnePartyEach(t)
    requires match party case Some(p) => Membership(p, account) in t.members case None => !HasParty(t, account)
    ensures party == PartyOf(t, account)
  {
    FindPartyIs(t.members, account);
    if party.Some? {
      PartyIsRow(t, account, party.value);
    }
  }

  lemma OneMoreCopy<C>(t: Tables, copies: map<C, Copy>, c: C, d: Copy)
    requires c !in copies
    ensures CopiesOK(t, copies[c := d]) <==> CopiesOK(t, copies) && CopyOK(t, d)
  {
    if CopiesOK(t, copies[c := d]) {
      assert CopyOK(t, copies[c := d][c]);
      forall x | x in copies ensures CopyOK(t, copies[x]) {
        assert CopyOK(t, copies[c := d][x]);
      }
    }
  }

  ghost function Chosen(channel: Channel, mates: Option<set<Uuid>>,
      partyID: Option<Uuid>): Result<Audience, ChatError> {
    match channel
    case Global => Ok(Everyone)
    case Map => if mates.None? then Err(NotInMap) else Ok(Accounts(mates.value))
    case Party => if partyID.None? then Err(NotInParty) else Ok(PartyMembers(partyID.value))
  }

  /** What one connection is sent when another writes a message, by their copies. */
  ghost function Delivered(mates: Option<set<Uuid>>, channel: Channel, from: Copy, to: Copy, own: bool,
      content: Bytes): seq<Sent> {
    match Chosen(channel, mates, from.partyID)
    case Err(e) => if own then [Error(e)] else []
    case Ok(audience) =>
      if ShouldGet(audience, to) && !IsBlockedBetween(from, to) then [Message(channel, from.account, content)] else []
  }

  /** What right copies decide is what the tables and rooms say. */
  lemma DeliveredIsDue(t: Tables, mates: Option<set<Uuid>>, channel: Channel, from: Copy, to: Copy, own: bool,
      content: Bytes)
    requires CopyOK(t, from) && CopyOK(t, to)
    ensures Delivered(mates, channel, from, to, own, content) ==
            Due(t, mates, channel, from.account, to.account, own, content)
  {
  }

  /** What one connection should be sent when an account writes a message, by the tables. */
  ghost function Due(t: Tables, mates: Option<set<Uuid>>, channel: Channel, from: Uuid, to: Uuid, own: bool,
      content: Bytes): seq<Sent> {
    match Refusal(t, mates, channel, from)
    case Some(e) => if own then [Error(e)] else []
    case None => if Gets(t, mates, channel, from, to) then [Message(channel, from, content)] else []
  }

  /** Why a message goes to nobody. */
  ghost function Refusal(t: Tables, mates: Option<set<Uuid>>, channel: Channel, from: Uuid): Option<ChatError> {
    if channel == Map && mates.None? then Some(NotInMap)
    else if channel == Party && PartyOf(t, from).None? then Some(NotInParty)
    else None
  }

  ghost predicate Blocked(t: Tables, a: Uuid, b: Uuid) { b in BlockList(t, a) || a in BlockList(t, b) }

  /** Which accounts a message is for. */
  ghost predicate Gets(t: Tables, mates: Option<set<Uuid>>, channel: Channel, from: Uuid, to: Uuid) {
    && !Blocked(t, from, to)
    && match channel
       case Global => true
       case Map => mates.Some? && to in mates.value
       case Party => PartyOf(t, from).Some? && PartyOf(t, to) == PartyOf(t, from)
  }

  /** A party message is for the party's members as the tables list them. */
  lemma PartyReaches(t: Tables, mates: Option<set<Uuid>>, from: Uuid, to: Uuid)
    requires TablesOK(t) && PartyOf(t, from).Some?
    ensures Gets(t, mates, Party, from, to) <==> to in MembersOf(t, PartyOf(t, from).value) && !Blocked(t, from, to)
  {
    PartyListsItsMembers(t, to, PartyOf(t, from).value);
  }

  /** Spelled out for each channel, with nothing for those who block the author or are blocked
      by it: a global message is for everybody, a map message for the accounts around the
      author, and a party message for those whom the tables list in its party. An author that
      is nowhere is told so. */
  lemma DueIs(t: Tables, mates: Option<set<Uuid>>, channel: Channel, from: Uuid, to: Uuid, own: bool, content: Bytes)
    requires TablesOK(t)
    ensures
      var due := Due(t, mates, channel, from, to, own, content);
      var apart := to in BlockList(t, from) || from in BlockList(t, to);
      match channel
      case Global => due == if apart then [] else [Message(Global, from, content)]
      case Map =>
        if mates.None? then due == if own then [Error(NotInMap)] else []
        else due == if !apart && to in mates.value then [Message(Map, from, content)] else []
      case Party =>
        if PartyOf(t, from).None? then due == if own then [Error(NotInParty)] else []
        else due == if !apart && to in MembersOf(t, PartyOf(t, from).value) then [Message(Party, from, content)] else []
  {
    if channel == Party && PartyOf(t, from).Some? {
      PartyReaches(t, mates, from, to);
    }
  }
}
