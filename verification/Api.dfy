/** The HTTP handlers that change the tables and then the copies kept by the chat and
    room servers. Each handler is one step. */
module Api {
  import opened Basics
  import opened Copies
  import opened DataStore
  import opened World
  import opened JointRuns
  import Agreement
  import Chat
  import RoomServer
  import Runs

  datatype WebError =
    | AlreadyInParty | PartyNameInvalid | NoSuchParty | NotInParty
    | AlreadyBlocked | NoSuchUser | NotBlocked | ServerInternal

  /** Tables in order, and no two chat connections share their data. */
  ghost predicate Ready(ds: Store, ch: Chat.Handler)
    reads ds, ch
  {
    TablesOK(ds.tables) && ch.Separate()
  }

  /** What the objects of the three parts stand for together. */
  ghost function JointOf(ds: Store, rh: RoomServer.Handler, ch: Chat.Handler): Joint<RoomServer.User, Chat.User>
    reads ds, ch, ch.Datas(), Chat.DatasOf(ch.waiting)
    reads rh, rh.rooms.Values`members, rh.conns`view, RoomServer.DatasOf(rh.conns)
  {
    Joint(rh.Abs(), ds.tables, ch.Looked(), ch.Live())
  }

  /** The chat connections of an account know its party. */
  ghost predicate KnowsParty(ch: Chat.Handler, t: Tables, account: Uuid)
    reads ch, ch.Datas()
  {
    forall u :: u in ch.users && u.data.account == account ==> PartyOK(t, u.data.State())
  }

  ghost predicate KnowsList(ch: Chat.Handler, t: Tables, account: Uuid)
    reads ch, ch.Datas()
  {
    forall u :: u in ch.users && u.data.account == account ==> ListOK(t, u.data.State())
  }

  /** What is sent back about a party. */
  datatype PartyInfo = PartyInfo(id: Uuid, name: string, members: seq<Uuid>)

  function CreateError(e: DbError): WebError {
    match e
    case NotUnique => AlreadyInParty
    case FailsCheck => PartyNameInvalid
    case _ => ServerInternal
  }

  function JoinError(e: DbError): WebError {
    match e
    case NotUnique => AlreadyInParty
    case UnknownFkey => NoSuchParty
    case _ => ServerInternal
  }

  /** What chat knows after its copies followed a change of the tables. */
  lemma ChatKnows(ch: Chat.Handler, was: map<Chat.User, Copy>, t: Tables, c: Change, committed: bool)
    requires TablesOK(t) && ch.Live() == CopiesAfter(was, t, c, committed)
    ensures CopiesOK(t, was) ==> ch.CacheOK(After(t, c, committed))
    ensures committed && Outcome(t, c).Ok? ==>
      && (c.Creating? || c.Joining? || c.Leaving? ==> KnowsParty(ch, After(t, c, committed), AccountOf(c)))
      && (c.Blocking? || c.Unblocking? ==> KnowsList(ch, After(t, c, committed), AccountOf(c)))
  {
    CopiesFollow(was, t, c, committed);
    forall u | u in ch.users ensures u in was && was[u].account == u.data.account {
      assert u in ch.Live() && ch.Live()[u] == u.data.State();
    }
    forall u | u in ch.users ensures u.data.State() == CopiesAfter(was, t, c, committed)[u] {
      assert u in ch.Live();
    }
  }

  /** Why creating fails, and whom the party lists when it works. */
  lemma CreateAnswers(t: Tables, account: Uuid, name: string, id: Uuid)
    requires TablesOK(t)
    ensures var r := Create(t, account, name, id);
      && (r.Ok? ==> r.value != t && OnlyMoved(t, r.value, account, Some(id)) && MembersOf(r.value, id) == [account])
      && (r == Err(FailsCheck) <==> !IsValidPartyName(name))
      && (r == Err(NotUnique) <==> IsValidPartyName(name) && (id in t.parties || PartyOf(t, account).Some?))
  {
    PartyIsRow(t, account, id);
    if Create(t, account, name, id).Ok? {
      CreateMeans(t, account, name, id);
      assert |Create(t, account, name, id).value.members| == |t.members| + 1;
    }
  }

  /** Why joining fails, and whom the party lists when it works. */
  lemma JoinAnswers(t: Tables, party: Uuid, account: Uuid)
    requires TablesOK(t)
    ensures var r := InsertMember(t, party, account);
      && (r.Ok? ==> r.value != t && OnlyMoved(t, r.value, account, Some(party)))
      && (r.Ok? ==> MembersOf(r.value, party) == MembersOf(t, party) + [account])
      && (r == Err(NotUnique) <==> PartyOf(t, account).Some?)
      && (r == Err(UnknownFkey) <==> PartyOf(t, account).None? && (party !in t.parties || account !in t.users))
  {
    JoinMeans(t, party, account);
    PartyIsRow(t, account, party);
    assert InsertMember(t, party, account).Ok? ==> |InsertMember(t, party, account).value.members| == |t.members| + 1;
  }

  class PartiesHandlers {
    const ds: Store
    const ch: Chat.Handler

    constructor (ds: Store, ch: Chat.Handler)
      ensures this.ds == ds && this.ch == ch
    {
      this.ds, this.ch := ds, ch;
    }

    /** Looks up the members of a party and sends it back, unless the lookup fails. */
    method SendPartyOK(party: PartyRow, failing: bool) returns (r: Result<PartyInfo, WebError>)
      ensures r == if failing then Err(ServerInternal)
                   else Ok(PartyInfo(party.id, party.name, MembersOf(ds.tables, party.id)))
    {
      if failing {
        return Err(ServerInternal);
      }
      var users := ds.GetPartyMembers(party.id);
      r := Ok(PartyInfo(party.id, party.name, users));
    }

    /** Creates in the tables and tells chat. */
    method CreateAndTell(account: Uuid, name: string, id: Uuid, failAt: nat) returns (r: Result<PartyRow, DbError>)
      requires Ready(ds, ch)
      modifies ds, ch.Datas()
      ensures Ready(ds, ch) && ds.tables == After(old(ds.tables), Creating(account, name, id), failAt > 3)
      ensures ch.Live() == CopiesAfter(old(ch.Live()), old(ds.tables), Creating(account, name, id), failAt > 3)
      ensures ch.Looked() == old(ch.Looked())
      ensures r.Ok? <==> failAt > 3 && Create(old(ds.tables), account, name, id).Ok?
      ensures r.Ok? ==> r.value == PartyRow(id, name)
      ensures failAt > 3 && r.Err? ==> Create(old(ds.tables), account, name, id) == Err(r.error)
    {
      r := ds.CreateParty(account, name, id, failAt);
      if r.Ok? {
        ch.UpdateParty(account, Some(id));
      }
    }

    /** A party of the user's own. The transaction makes calls 0 to 3 to the database.
        Call 4 looks up the members for the answer: when it alone fails, the answer is
        an error although the party exists and chat knows it. */
    method HandleCreate(account: Uuid, name: string, id: Uuid, failAt: nat) returns (r: Result<PartyInfo, WebError>)
      requires Ready(ds, ch)
      modifies ds, ch.Datas()
      ensures Ready(ds, ch) && ds.tables == After(old(ds.tables), Creating(account, name, id), failAt > 3)
      ensures ch.Live() == CopiesAfter(old(ch.Live()), old(ds.tables), Creating(account, name, id), failAt > 3)
      ensures ch.Looked() == old(ch.Looked()) && (old(ch.CacheOK(ds.tables)) ==> ch.CacheOK(ds.tables))
      ensures ds.tables != old(ds.tables) ==> KnowsParty(ch, ds.tables, account)
      ensures ds.tables == old(ds.tables) <==> failAt <= 3 || Create(old(ds.tables), account, name, id).Err?
      ensures r.Ok? <==> failAt > 4 && Create(old(ds.tables), account, name, id).Ok?
      ensures failAt == 4 && Create(old(ds.tables), account, name, id).Ok? ==> r == Err(ServerInternal)
      ensures r.Ok? ==>
        r.value == PartyInfo(id, name, [account]) && OnlyMoved(old(ds.tables), ds.tables, account, Some(id))
      ensures failAt > 3 ==> (r == Err(PartyNameInvalid) <==> !(1 <= |name| <= 32))
      ensures failAt > 3 && 1 <= |name| <= 32 && id !in old(ds.tables).parties ==>
        (r == Err(AlreadyInParty) <==> PartyOf(old(ds.tables), account).Some?)
    {
      ghost var before, was := ds.tables, ch.Live();
      CreateAnswers(before, account, name, id);
      var party := CreateAndTell(account, name, id, failAt);
      ChatKnows(ch, was, before, Creating(account, name, id), failAt > 3);
      if party.Err? {
        return Err(CreateError(party.error));
      }
      r := SendPartyOK(party.value, failAt == 4);
    }

    /** Joins in the tables and tells chat. */
    method JoinAndTell(account: Uuid, partyID: Uuid, failAt: nat) returns (r: Result<PartyRow, DbError>)
      requires Ready(ds, ch)
      modifies ds, ch.Datas()
      ensures Ready(ds, ch) && ds.tables == After(old(ds.tables), Joining(account, partyID), failAt > 3)
      ensures ch.Live() == CopiesAfter(old(ch.Live()), old(ds.tables), Joining(account, partyID), failAt > 3)
      ensures ch.Looked() == old(ch.Looked())
      ensures r.Ok? <==> failAt > 3 && InsertMember(old(ds.tables), partyID, account).Ok?
      ensures r.Ok? ==>
        partyID in old(ds.tables).parties && r.value == PartyRow(partyID, old(ds.tables).parties[partyID])
      ensures failAt > 3 && r.Err? ==> InsertMember(old(ds.tables), partyID, account) == Err(r.error)
    {
      r := ds.InsertPartyMember(partyID, account, failAt);
      if r.Ok? {
        ch.UpdateParty(account, Some(r.value.id));
      }
    }

    /** Into the party with this ID, with the calls counted as in HandleCreate. */
    method HandleJoin(account: Uuid, partyID: Uuid, failAt: nat) returns (r: Result<PartyInfo, WebError>)
      requires Ready(ds, ch)
      modifies ds, ch.Datas()
      ensures Ready(ds, ch) && ds.tables == After(old(ds.tables), Joining(account, partyID), failAt > 3)
      ensures ch.Live() == CopiesAfter(old(ch.Live()), old(ds.tables), Joining(account, partyID), failAt > 3)
      ensures ch.Looked() == old(ch.Looked()) && (old(ch.CacheOK(ds.tables)) ==> ch.CacheOK(ds.tables))
      ensures ds.tables != old(ds.tables) ==> KnowsParty(ch, ds.tables, account)
      ensures ds.tables == old(ds.tables) <==> failAt <= 3 || InsertMember(old(ds.tables), partyID, account).Err?
      ensures r.Ok? <==> failAt > 4 && InsertMember(old(ds.tables), partyID, account).Ok?
      ensures failAt == 4 && InsertMember(old(ds.tables), partyID, account).Ok? ==> r == Err(ServerInternal)
      ensures r.Ok? ==>
        && partyID in old(ds.tables).parties
        && r.value ==
           PartyInfo(partyID, old(ds.tables).parties[partyID], MembersOf(old(ds.tables), partyID) + [account])
      ensures r.Ok? ==> OnlyMoved(old(ds.tables), ds.tables, account, Some(partyID))
      ensures failAt > 3 ==> (r == Err(AlreadyInParty) <==> PartyOf(old(ds.tables), account).Some?)
      ensures failAt > 3 && account in old(ds.tables).users ==>
        (r == Err(NoSuchParty) <==> PartyOf(old(ds.tables), account).None? && partyID !in old(ds.tables).parties)
    {
      ghost var before, was := ds.tables, ch.Live();
      JoinAnswers(before, partyID, account);
      var party := JoinAndTell(account, partyID, failAt);
      ChatKnows(ch, was, before, Joining(account, partyID), failAt > 3);
      if party.Err? {
        return Err(JoinError(party.error));
      }
      r := SendPartyOK(party.value, failAt == 4);
    }

    /** Out of the party that the user is in; nothing is looked up for the answer. */
    method HandleLeave(account: Uuid, failAt: nat) returns (r: Option<WebError>)
      requires Ready(ds, ch)
      modifies ds, ch.Datas()
      ensures Ready(ds, ch) && ds.tables == After(old(ds.tables), Leaving(account), failAt > 3)
      ensures ch.Live() == CopiesAfter(old(ch.Live()), old(ds.tables), Leaving(account), failAt > 3)
      ensures ch.Looked() == old(ch.Looked()) && (old(ch.CacheOK(ds.tables)) ==> ch.CacheOK(ds.tables))
      ensures ds.tables != old(ds.tables) ==> KnowsParty(ch, ds.tables, account)
      ensures r.Some? ==> ds.tables == old(ds.tables)
      ensures r.None? <==> failAt > 3 && PartyOf(old(ds.tables), account).Some?
      ensures r.None? ==> OnlyMoved(old(ds.tables), ds.tables, account, None)
      ensures failAt > 3 ==> (r == Some(NotInParty) <==> PartyOf(old(ds.tables), account).None?)
    {
      ghost var before := ds.tables;
      var err := ds.DeletePartyMember(account, failAt);
      ghost var was, c := ch.Live(), Leaving(account);
      if err.Some? {
        ChatKnows(ch, was, before, c, failAt > 3);
        return Some(if err.value == NotFound then NotInParty else ServerInternal);
      }
      ch.UpdateParty(account, None);
      ChatKnows(ch, was, before, c, failAt > 3);
      r := None;
    }
  }

  function BlockAnswer(users: Result<seq<Uuid>, DbError>): Result<seq<Uuid>, WebError> {
    match users
    case Ok(list) => Ok(list)
    case Err(NotUnique) => Err(AlreadyBlocked)
    case Err(UnknownFkey) => Err(NoSuchUser)
    case Err(_) => Err(ServerInternal)
  }

  function UnblockAnswer(users: Result<seq<Uuid>, DbError>): Result<seq<Uuid>, WebError> {
    match users
    case Ok(list) => Ok(list)
    case Err(NotFound) => Err(NotBlocked)
    case Err(_) => Err(ServerInternal)
  }

  /** One account has this list now; no other list, no party and no account changed. */
  ghost predicate OnlyList(t: Tables, t': Tables, account: Uuid, blocked: set<Uuid>) {
    && t'.users == t.users && t'.parties == t.parties && t'.members == t.members
    && BlockList(t', account) == blocked && forall o: Uuid :: o != account ==> BlockList(t', o) == BlockList(t, o)
  }

  /** What the answer to blocking says: when which error, and what was done otherwise. */
  ghost predicate BlockAnswered(t: Tables, t': Tables, account: Uuid, other: Uuid, r: Result<seq<Uuid>, WebError>) {
    && (r == Err(AlreadyBlocked) <==> other in BlockList(t, account))
    && (r == Err(NoSuchUser) <==> other !in BlockList(t, account) && !(account in t.users && other in t.users))
    && (r.Ok? <==> other !in BlockList(t, account) && account in t.users && other in t.users)
    && (r.Ok? ==> OnlyList(t, t', account, BlockList(t, account) + {other}))
  }

  lemma BlockAnswers(t: Tables, account: Uuid, other: Uuid, users: Result<seq<Uuid>, DbError>)
    requires TablesOK(t) && match InsertRelation(t, account, other) case Ok(_) => users.Ok?
      case Err(e) => users == Err(e)
    ensures BlockAnswered(t, After(t, Change.Blocking(account, other), true), account, other, BlockAnswer(users))
  {
    BlockListIs(t, account, other);
    if users.Ok? {
      BlockMeans(t, account, other);
      OnlyOneList(t, InsertRelation(t, account, other).value, account, other, true);
    }
  }

  ghost predicate UnblockAnswered(t: Tables, t': Tables, account: Uuid, other: Uuid, r: Result<seq<Uuid>, WebError>) {
    && (r == Err(NotBlocked) <==> other !in BlockList(t, account))
    && (r.Ok? <==> other in BlockList(t, account))
    && (r.Ok? ==> OnlyList(t, t', account, BlockList(t, account) - {other}))
  }

  lemma UnblockAnswers(t: Tables, account: Uuid, other: Uuid, users: Result<seq<Uuid>, DbError>)
    requires TablesOK(t) && match Unblock(t, account, other) case Ok(_) => users.Ok? case Err(e) => users == Err(e)
    ensures UnblockAnswered(t, After(t, Change.Unblocking(account, other), true), account, other, UnblockAnswer(users))
  {
    BlockListIs(t, account, other);
    if users.Ok? {
      UnblockMeans(t, account, other);
      OnlyOneList(t, Unblock(t, account, other).value, account, other, false);
    }
  }

  class UsersHandlers {
    const ds: Store
    const rh: RoomServer.Handler
    const ch: Chat.Handler

    constructor (ds: Store, rh: RoomServer.Handler, ch: Chat.Handler)
      ensures this.ds == ds && this.rh == rh && this.ch == ch
    {
      this.ds, this.rh, this.ch := ds, rh, ch;
    }

    /** The step of the room server that a changed list brings. */
    method UpdateRooms(account: Uuid, users: seq<Uuid>)
      requires ch.Separate() && rh.Valid() && forall b: Uuid :: b in users <==>
        DataStore.HasBlocked(ds.tables, account, b)
      modifies rh`history, rh`trace, rh.conns`view, RoomServer.DatasOf(rh.conns)
      ensures rh.Valid() && ch.Live() == old(ch.Live()) && ch.Looked() == old(ch.Looked())
      ensures rh.Abs() == UpdateBlockList(old(rh.Abs()), account, BlockList(ds.tables, account))
      ensures rh.history == old(rh.history) + [Runs.Step.Blocking(account, BlockList(ds.tables, account))]
      ensures
        var s := Runs.Step.Blocking(account, BlockList(ds.tables, account));
        old(rh.WasGuarded()) && Runs.Guarded(rh.filters, old(rh.Abs()), s) ==> rh.WasGuarded()
    {
      ListOfUsers(ds.tables, account, users);
      rh.UpdateBlockList(account, users);
    }

    /** The step of the chat server. */
    method UpdateChat(account: Uuid, users: seq<Uuid>)
      requires ch.Separate() && rh.Valid() && forall b: Uuid :: b in users <==>
        DataStore.HasBlocked(ds.tables, account, b)
      modifies ch.Datas()
      ensures ch.Live() == ChangedFor(old(ch.Live()), account, NewBlockList(BlockList(ds.tables, account)))
      ensures ch.Looked() == old(ch.Looked()) && rh.Valid() && rh.Abs() == old(rh.Abs())
    {
      ch.UpdateBlockList(account, users, ds.tables);
      rh.Untouched();
    }

    /** Brings both servers up to date with a changed list. */
    method UpdateBoth(account: Uuid, users: seq<Uuid>)
      requires Ready(ds, ch) && rh.Valid()
      requires forall b: Uuid :: b in users <==> DataStore.HasBlocked(ds.tables, account, b)
      modifies ch.Datas(), rh`history, rh`trace, rh.conns`view, RoomServer.DatasOf(rh.conns)
      ensures Ready(ds, ch) && rh.Valid()
      ensures rh.Abs() == UpdateBlockList(old(rh.Abs()), account, BlockList(ds.tables, account))
      ensures rh.history == old(rh.history) + [Runs.Step.Blocking(account, BlockList(ds.tables, account))]
      ensures
        var s := Runs.Step.Blocking(account, BlockList(ds.tables, account));
        old(rh.WasGuarded()) && Runs.Guarded(rh.filters, old(rh.Abs()), s) ==> rh.WasGuarded()
      ensures ch.Live() == ChangedFor(old(ch.Live()), account, NewBlockList(BlockList(ds.tables, account)))
      ensures ch.Looked() == old(ch.Looked())
    {
      UpdateRooms(account, users);
      UpdateChat(account, users);
    }

    /** What the list step of the room server looks like to its history. */
    ghost function ListStep(account: Uuid): Runs.Step<RoomServer.User>
      reads ds
    {
      Runs.Step.Blocking(account, BlockList(ds.tables, account))
    }

    /** Tells both servers about a change that was just committed. */
    method Tell(account: Uuid, users: seq<Uuid>, ghost before: Tables, ghost c: Change)
      requires Ready(ds, ch) && rh.Valid() && (c.Blocking? || c.Unblocking?) && account == AccountOf(c)
      requires Outcome(before, c).Ok? && ds.tables == After(before, c, true)
      requires forall b: Uuid :: b in users <==> DataStore.HasBlocked(ds.tables, account, b)
      modifies ch.Datas(), rh`history, rh`trace, rh.conns`view, RoomServer.DatasOf(rh.conns)
      ensures Ready(ds, ch) && rh.Valid()
      ensures JointOf(ds, rh, ch) == JointNext(rh.filters, old(JointOf(ds, rh, ch)).(t := before), InTables(c, true))
      ensures rh.history == old(rh.history) + [ListStep(account)]
      ensures old(rh.WasGuarded()) && Runs.Guarded(rh.filters, old(rh.Abs()), ListStep(account)) ==> rh.WasGuarded()
    {
      ghost var j := JointOf(ds, rh, ch).(t := before);
      UpdateBoth(account, users);
      IsTableStep(rh.filters, j, JointOf(ds, rh, ch), c, true);
    }

    /** Only the tables changed. */
    twostate lemma OnlyTables()
      requires unchanged(rh) && unchanged(rh.conns`view) && unchanged(rh.rooms.Values`members)
      requires unchanged(RoomServer.DatasOf(rh.conns))
      requires unchanged(ch) && unchanged(ch.Datas()) && unchanged(Chat.DatasOf(ch.waiting))
      ensures JointOf(ds, rh, ch) == old(JointOf(ds, rh, ch)).(t := ds.tables)
      ensures rh.Valid() == old(rh.Valid()) && rh.WasGuarded() == old(rh.WasGuarded())
      ensures ch.Separate() == old(ch.Separate())
    {
      rh.Untouched();
      ch.Untouched();
    }

    /** Blocks an account in the tables and tells both servers: one joint step. */
    method Block(account: Uuid, other: Uuid, failAt: nat) returns (r: Result<seq<Uuid>, DbError>)
      requires Ready(ds, ch) && rh.Valid()
      modifies ds, ch.Datas(), rh`history, rh`trace, rh.conns`view, RoomServer.DatasOf(rh.conns)
      ensures Ready(ds, ch) && rh.Valid()
      ensures JointOf(ds, rh, ch) ==
        JointNext(rh.filters, old(JointOf(ds, rh, ch)), InTables(Change.Blocking(account, other), failAt > 3))
      ensures rh.history == old(rh.history) + if r.Ok? then [ListStep(account)] else []
      ensures old(rh.WasGuarded()) && (r.Ok? ==> Runs.Guarded(rh.filters, old(rh.Abs()), ListStep(account))) ==>
        rh.WasGuarded()
      ensures r.Ok? <==> failAt > 3 && InsertRelation(old(ds.tables), account, other).Ok?
      ensures r.Ok? ==> (set b | b in r.value) == BlockList(ds.tables, account)
      ensures failAt > 3 && r.Err? ==> InsertRelation(old(ds.tables), account, other) == Err(r.error)
    {
      ghost var j, c := JointOf(ds, rh, ch), Change.Blocking(account, other);
      r := ds.InsertBlockRelation(account, other, failAt);
      OnlyTables();
      if r.Err? {
        IsTableStep(rh.filters, j, j, c, failAt > 3);
        return;
      }
      Tell(account, r.value, j.t, c);
      ListOfUsers(ds.tables, account, r.value);
    }

    /** Unblocks an account in the tables and tells both servers: one joint step. */
    method Unblock(account: Uuid, other: Uuid, failAt: nat) returns (r: Result<seq<Uuid>, DbError>)
      requires Ready(ds, ch) && rh.Valid()
      modifies ds, ch.Datas(), rh`history, rh`trace, rh.conns`view, RoomServer.DatasOf(rh.conns)
      ensures Ready(ds, ch) && rh.Valid()
      ensures JointOf(ds, rh, ch) ==
        JointNext(rh.filters, old(JointOf(ds, rh, ch)), InTables(Change.Unblocking(account, other), failAt > 3))
      ensures rh.history == old(rh.history) + if r.Ok? then [ListStep(account)] else []
      ensures old(rh.WasGuarded()) && (r.Ok? ==> Runs.Guarded(rh.filters, old(rh.Abs()), ListStep(account))) ==>
        rh.WasGuarded()
      ensures r.Ok? <==> failAt > 3 && DataStore.Unblock(old(ds.tables), account, other).Ok?
      ensures r.Ok? ==> (set b | b in r.value) == BlockList(ds.tables, account)
      ensures failAt > 3 && r.Err? ==> DataStore.Unblock(old(ds.tables), account, other) == Err(r.error)
    {
      ghost var j, c := JointOf(ds, rh, ch), Change.Unblocking(account, other);
      r := ds.DeleteBlockRelation(account, other, failAt);
      OnlyTables();
      if r.Err? {
        IsTableStep(rh.filters, j, j, c, failAt > 3);
        return;
      }
      Tell(account, r.value, j.t, c);
      ListOfUsers(ds.tables, account, r.value);
    }

    /** Blocks an account for good, and answers with the whole list. */
    method HandleBlockListAdd(account: Uuid, other: Uuid, failAt: nat) returns (r: Result<seq<Uuid>, WebError>)
      requires Ready(ds, ch) && rh.Valid()
      modifies ds, ch.Datas(), rh`history, rh`trace, rh.conns`view, RoomServer.DatasOf(rh.conns)
      ensures Ready(ds, ch) && rh.Valid()
      ensures JointOf(ds, rh, ch) ==
        JointNext(rh.filters, old(JointOf(ds, rh, ch)), InTables(Change.Blocking(account, other), failAt > 3))
      ensures ListStepped(old(JointOf(ds, rh, ch)), JointOf(ds, rh, ch), account, r.Ok?)
      ensures rh.history == old(rh.history) + if r.Ok? then [ListStep(account)] else []
      ensures old(rh.WasGuarded()) && (r.Ok? ==> Runs.Guarded(rh.filters, old(rh.Abs()), ListStep(account))) ==>
        rh.WasGuarded()
      ensures failAt <= 3 ==> r.Err?
      ensures failAt > 3 ==> BlockAnswered(old(ds.tables), ds.tables, account, other, r)
      ensures r.Ok? ==> (set b | b in r.value) == BlockList(ds.tables, account)
    {
      ghost var j := JointOf(ds, rh, ch);
      rh.Served();
      var users := Block(account, other, failAt);
      if failAt > 3 {
        BlockAnswers(j.t, account, other, users);
      }
      r := BlockAnswer(users);
      ListStepMeans(rh.filters, j, JointOf(ds, rh, ch), account, Change.Blocking(account, other), failAt > 3, r.Ok?);
    }

    /** Unblocks an account, and answers with what is left of the list. */
    method HandleBlockListRemove(account: Uuid, other: Uuid, failAt: nat) returns (r: Result<seq<Uuid>, WebError>)
      requires Ready(ds, ch) && rh.Valid()
      modifies ds, ch.Datas(), rh`history, rh`trace, rh.conns`view, RoomServer.DatasOf(rh.conns)
      ensures Ready(ds, ch) && rh.Valid()
      ensures JointOf(ds, rh, ch) ==
        JointNext(rh.filters, old(JointOf(ds, rh, ch)), InTables(Change.Unblocking(account, other), failAt > 3))
      ensures ListStepped(old(JointOf(ds, rh, ch)), JointOf(ds, rh, ch), account, r.Ok?)
      ensures rh.history == old(rh.history) + if r.Ok? then [ListStep(account)] else []
      ensures old(rh.WasGuarded()) && (r.Ok? ==> Runs.Guarded(rh.filters, old(rh.Abs()), ListStep(account))) ==>
        rh.WasGuarded()
      ensures failAt <= 3 ==> r.Err?
      ensures failAt > 3 ==> UnblockAnswered(old(ds.tables), ds.tables, account, other, r)
      ensures r.Ok? ==> (set b | b in r.value) == BlockList(ds.tables, account)
    {
      ghost var j := JointOf(ds, rh, ch);
      rh.Served();
      var users := Unblock(account, other, failAt);
      if failAt > 3 {
        UnblockAnswers(j.t, account, other, users);
      }
      r := UnblockAnswer(users);
      ListStepMeans(rh.filters, j, JointOf(ds, rh, ch), account, Change.Unblocking(account, other), failAt > 3, r.Ok?);
    }
  }
}
