/** The tables behind the HTTP API: users, parties, party members and block relations,
    and the transactions that change them. */
module DataStore {
  import opened Basics

  datatype DbError = NotUnique | FailsCheck | NotFound | UnknownFkey | Broken

  datatype Membership = Membership(party: Uuid, user: Uuid)

  datatype PartyRow = PartyRow(id: Uuid, name: string)

  datatype Relation = Relation(origin: Uuid, blocked: Uuid)

  /** Rows in the order in which they were inserted. */
  datatype Tables = Tables(
    users: set<Uuid>,
    parties: map<Uuid, string>,
    members: seq<Membership>,
    relations: seq<Relation>)

  const MIN_PARTY_NAME := 1
  const MAX_PARTY_NAME := 32

  predicate IsValidPartyName(name: string) { MIN_PARTY_NAME <= |name| <= MAX_PARTY_NAME }

  // ---------- Statements ----------

  predicate HasParty(t: Tables, user: Uuid) { exists m :: m in t.members && m.user == user }

  function FindParty(members: seq<Membership>, user: Uuid): Option<Uuid> {
    if members == [] then None
    else if members[0].user == user then Some(members[0].party)
    else FindParty(members[1..], user)
  }

  /** The party a user is in. */
  function PartyOf(t: Tables, user: Uuid): Option<Uuid> { FindParty(t.members, user) }

  /** A party's members in the order in which they joined. */
  function UsersIn(members: seq<Membership>, party: Uuid): seq<Uuid> {
    if members == [] then []
    else if members[0].party == party then [members[0].user] + UsersIn(members[1..], party)
    else UsersIn(members[1..], party)
  }

  function MembersOf(t: Tables, party: Uuid): seq<Uuid> { UsersIn(t.members, party) }

  function InsertParty(t: Tables, id: Uuid, name: string): Result<Tables, DbError> {
    if !IsValidPartyName(name) then Err(FailsCheck)
    else if id in t.parties then Err(NotUnique)
    else Ok(t.(parties := t.parties[id := name]))
  }

  function InsertMember(t: Tables, party: Uuid, user: Uuid): Result<Tables, DbError> {
    if HasParty(t, user) then Err(NotUnique)
    else if party !in t.parties || user !in t.users then Err(UnknownFkey)
    else Ok(t.(members := t.members + [Membership(party, user)]))
  }

  function DeleteRows(members: seq<Membership>, user: Uuid): seq<Membership> {
    if members == [] then []
    else if members[0].user == user then DeleteRows(members[1..], user)
    else [members[0]] + DeleteRows(members[1..], user)
  }

  function DeletePartyIfEmpty(t: Tables, party: Uuid): Tables {
    if exists m :: m in t.members && m.party == party then t else t.(parties := t.parties - {party})
  }

  predicate HasBlocked(t: Tables, origin: Uuid, blocked: Uuid) { Relation(origin, blocked) in t.relations }

  function InsertRelation(t: Tables, origin: Uuid, blocked: Uuid): Result<Tables, DbError> {
    if HasBlocked(t, origin, blocked) then Err(NotUnique)
    else if origin !in t.users || blocked !in t.users then Err(UnknownFkey)
    else Ok(t.(relations := t.relations + [Relation(origin, blocked)]))
  }

  function DeleteRelations(relations: seq<Relation>, r: Relation): seq<Relation> {
    if relations == [] then []
    else if relations[0] == r then DeleteRelations(relations[1..], r)
    else [relations[0]] + DeleteRelations(relations[1..], r)
  }

  function BlockedIn(relations: seq<Relation>, origin: Uuid): seq<Uuid> {
    if relations == [] then []
    else if relations[0].origin == origin then [relations[0].blocked] + BlockedIn(relations[1..], origin)
    else BlockedIn(relations[1..], origin)
  }

  function BlockedUsers(t: Tables, origin: Uuid): seq<Uuid> { BlockedIn(t.relations, origin) }

  // ---------- What the tables keep ----------

  ghost predicate DistinctUsers(a: seq<Membership>) { forall i, j :: 0 <= i < j < |a| ==> a[i].user != a[j].user }

  ghost predicate OnePartyEach(t: Tables) { DistinctUsers(t.members) }

  ghost predicate MembersExist(t: Tables) { forall m :: m in t.members ==> m.party in t.parties && m.user in t.users }

  ghost predicate Inhabited(t: Tables, party: Uuid) { exists m :: m in t.members && m.party == party }

  ghost predicate NoEmptyParty(t: Tables) { forall p :: p in t.parties ==> Inhabited(t, p) }

  ghost predicate RelationsExist(t: Tables) {
    && (forall r :: r in t.relations ==> r.origin in t.users && r.blocked in t.users)
    && DistinctRelations(t.relations)
  }

  ghost predicate DistinctRelations(a: seq<Relation>) { forall i, j :: 0 <= i < j < |a| ==> a[i] != a[j] }

  ghost predicate TablesOK(t: Tables) { OnePartyEach(t) && MembersExist(t) && NoEmptyParty(t) && RelationsExist(t) }

  // ---------- Lookups ----------

  lemma {:induction false} FindPartyIs(members: seq<Membership>, user: Uuid)
    ensures FindParty(members, user).Some? ==> Membership(FindParty(members, user).value, user) in members
    ensures FindParty(members, user).None? ==> forall m :: m in members ==> m.user != user
  {
    if members != [] {
      FindPartyIs(members[1..], user);
      assert members == [members[0]] + members[1..];
    }
  }

  /** A user's party, read off the rows in either direction. */
  lemma PartyIsRow(t: Tables, user: Uuid, party: Uuid)
    requires OnePartyEach(t)
    ensures PartyOf(t, user) == Some(party) <==> Membership(party, user) in t.members
    ensures HasParty(t, user) <==> PartyOf(t, user).Some?
  {
    FindPartyIs(t.members, user);
  }

  lemma {:induction false} UsersInIs(members: seq<Membership>, party: Uuid, user: Uuid)
    ensures user in UsersIn(members, party) <==> Membership(party, user) in members
  {
    if members != [] {
      UsersInIs(members[1..], party, user);
      assert members == [members[0]] + members[1..];
    }
  }

  /** The two lookups agree: a party lists exactly the users whose party it is. */
  lemma PartyListsItsMembers(t: Tables, user: Uuid, party: Uuid)
    requires TablesOK(t)
    ensures user in MembersOf(t, party) <==> PartyOf(t, user) == Some(party)
  {
    UsersInIs(t.members, party, user);
    PartyIsRow(t, user, party);
  }

  lemma {:induction false} UsersInAppend(a: seq<Membership>, m: Membership, party: Uuid)
    ensures UsersIn(a + [m], party) == UsersIn(a, party) + if m.party == party then [m.user] else []
  {
    if a == [] {
      assert a + [m] == [m] && [m][1..] == [];
    } else {
      assert (a + [m])[1..] == a[1..] + [m];
      UsersInAppend(a[1..], m, party);
    }
  }

  lemma {:induction false} FindPartyAppend(a: seq<Membership>, m: Membership, user: Uuid)
    ensures FindParty(a + [m], user) ==
      if FindParty(a, user).Some? then FindParty(a, user) else if m.user == user then Some(m.party) else None
  {
    if a == [] {
      assert a + [m] == [m] && [m][1..] == [];
    } else {
      assert (a + [m])[1..] == a[1..] + [m];
      FindPartyAppend(a[1..], m, user);
    }
  }

  lemma {:induction false} FindPartyDelete(a: seq<Membership>, gone: Uuid, user: Uuid)
    ensures FindParty(DeleteRows(a, gone), user) == if user == gone then None else FindParty(a, user)
  {
    if a != [] {
      FindPartyDelete(a[1..], gone, user);
      if a[0].user != gone {
        assert ([a[0]] + DeleteRows(a[1..], gone))[1..] == DeleteRows(a[1..], gone);
      }
    }
  }

  lemma {:induction false} DeletedRows(a: seq<Membership>, user: Uuid, m: Membership)
    ensures m in DeleteRows(a, user) <==> m in a && m.user != user
  {
    if a != [] {
      DeletedRows(a[1..], user, m);
      assert m in a <==> m == a[0] || m in a[1..];
    }
  }

  lemma {:induction false} DeleteKeepsDistinct(a: seq<Membership>, user: Uuid)
    requires DistinctUsers(a)
    ensures DistinctUsers(DeleteRows(a, user))
  {
    if a != [] {
      DeleteKeepsDistinct(a[1..], user);
      if a[0].user != user {
        var rest := DeleteRows(a[1..], user);
        forall j | 0 <= j < |rest| ensures rest[j].user != a[0].user {
          DeletedRows(a[1..], user, rest[j]);
          assert rest[j] in a[1..];
        }
      }
    }
  }

  // ---------- Transactions as values ----------

  function Register(t: Tables, user: Uuid): Result<Tables, DbError> {
    if user in t.users then Err(NotUnique) else Ok(t.(users := t.users + {user}))
  }

  /** A party with the user as its first member, in one transaction. */
  function Create(t: Tables, user: Uuid, name: string, id: Uuid): Result<Tables, DbError> {
    if !IsValidPartyName(name) then Err(FailsCheck)
    else if id in t.parties || HasParty(t, user) then Err(NotUnique)
    else if user !in t.users then Err(UnknownFkey)
    else Ok(t.(parties := t.parties[id := name], members := t.members + [Membership(id, user)]))
  }

  function Leave(t: Tables, user: Uuid): Result<Tables, DbError> {
    var party := PartyOf(t, user);
    if party.None? then Err(NotFound)
    else Ok(DeletePartyIfEmpty(t.(members := DeleteRows(t.members, user)), party.value))
  }

  function Unblock(t: Tables, origin: Uuid, blocked: Uuid): Result<Tables, DbError> {
    if !HasBlocked(t, origin, blocked) then Err(NotFound)
    else Ok(t.(relations := DeleteRelations(t.relations, Relation(origin, blocked))))
  }

  /** user is now in this party, everybody else where they were. */
  ghost predicate OnlyMoved(t: Tables, t': Tables, user: Uuid, party: Option<Uuid>) {
    && t'.users == t.users && t'.relations == t.relations
    && PartyOf(t', user) == party && forall v: Uuid :: v != user ==> PartyOf(t', v) == PartyOf(t, v)
  }

  lemma JoinedRow(t: Tables, t': Tables, party: Uuid, user: Uuid)
    requires t'.members == t.members + [Membership(party, user)] && !HasParty(t, user)
    requires t'.users == t.users && t'.relations == t.relations
    ensures OnlyMoved(t, t', user, Some(party))
    ensures forall p :: MembersOf(t', p) == MembersOf(t, p) + if p == party then [user] else []
  {
    FindPartyIs(t.members, user);
    forall v: Uuid ensures PartyOf(t', v) == if v == user then Some(party) else PartyOf(t, v) {
      FindPartyAppend(t.members, Membership(party, user), v);
    }
    forall p ensures MembersOf(t', p) == MembersOf(t, p) + if p == party then [user] else [] {
      UsersInAppend(t.members, Membership(party, user), p);
    }
  }

  lemma JoinedKeeps(t: Tables, t': Tables, party: Uuid, user: Uuid)
    requires TablesOK(t) && !HasParty(t, user) && user in t.users
    requires t'.members == t.members + [Membership(party, user)] && t'.users == t.users && t'.relations == t.relations
    requires t'.parties.Keys == t.parties.Keys + {party}
    ensures TablesOK(t')
  {
    forall i, j | 0 <= i < j < |t'.members| ensures t'.members[i].user != t'.members[j].user {
      assert t'.members[i] in t.members;
    }
    forall p | p in t'.parties ensures Inhabited(t', p) {
      if p == party {
        assert Membership(party, user) in t'.members;
      } else {
        assert Inhabited(t, p);
        var m :| m in t.members && m.party == p;
        assert m in t'.members;
      }
    }
  }

  /** Creating works exactly with a name of 1 to 32 characters, an unused ID and a known user
      without a party. The party is new, has the user as its only member, and nobody else
      moved. */
  lemma CreateMeans(t: Tables, user: Uuid, name: string, id: Uuid)
    requires TablesOK(t)
    ensures Create(t, user, name, id).Ok? <==>
      1 <= |name| <= 32 && id !in t.parties && PartyOf(t, user).None? && user in t.users
    ensures Create(t, user, name, id).Ok? ==>
      var t' := Create(t, user, name, id).value;
      && TablesOK(t') && OnlyMoved(t, t', user, Some(id)) && PartyOf(t, user).None?
      && t'.parties == t.parties[id := name] && id !in t.parties && MembersOf(t', id) == [user]
  {
    PartyIsRow(t, user, id);
    if Create(t, user, name, id).Ok? {
      var t' := Create(t, user, name, id).value;
      JoinedRow(t, t', id, user);
      JoinedKeeps(t, t', id, user);
      NoUsersIn(t.members, id);
    }
  }

  /** Joining works exactly for known users and parties and users without a party. */
  lemma JoinMeans(t: Tables, party: Uuid, user: Uuid)
    requires TablesOK(t)
    ensures InsertMember(t, party, user).Ok? <==> PartyOf(t, user).None? && party in t.parties && user in t.users
    ensures InsertMember(t, party, user).Ok? ==>
      var t' := InsertMember(t, party, user).value;
      && TablesOK(t') && OnlyMoved(t, t', user, Some(party)) && t'.parties == t.parties
      && forall p :: MembersOf(t', p) == MembersOf(t, p) + if p == party then [user] else []
  {
    PartyIsRow(t, user, party);
    if InsertMember(t, party, user).Ok? {
      var t' := InsertMember(t, party, user).value;
      JoinedRow(t, t', party, user);
      JoinedKeeps(t, t', party, user);
    }
  }

  /** What is left of a list without a user, in order. */
  function Others(users: seq<Uuid>, user: Uuid): seq<Uuid> {
    if users == [] then [] else (if users[0] == user then [] else [users[0]]) + Others(users[1..], user)
  }

  lemma {:induction false} UsersInDelete(a: seq<Membership>, gone: Uuid, party: Uuid)
    ensures UsersIn(DeleteRows(a, gone), party) == Others(UsersIn(a, party), gone)
  {
    if a != [] {
      UsersInDelete(a[1..], gone, party);
      if a[0].user != gone {
        assert ([a[0]] + DeleteRows(a[1..], gone))[1..] == DeleteRows(a[1..], gone);
      }
      if a[0].party == party {
        assert ([a[0].user] + UsersIn(a[1..], party))[1..] == UsersIn(a[1..], party);
      }
    }
  }

  /** Leaving works exactly for a user with a party. It takes the user out, leaves the others
      in their order, and deletes the party with the last of its members. */
  lemma LeaveMeans(t: Tables, user: Uuid)
    requires TablesOK(t)
    ensures Leave(t, user) == Err(NotFound) <==> PartyOf(t, user).None?
    ensures PartyOf(t, user).Some? ==> Leave(t, user).Ok?
    ensures Leave(t, user).Ok? ==>
      var t', party := Leave(t, user).value, PartyOf(t, user).value;
      && TablesOK(t') && OnlyMoved(t, t', user, None)
      && t'.parties == (if MembersOf(t, party) == [user] then t.parties - {party} else t.parties)
      && forall p :: MembersOf(t', p) == Others(MembersOf(t, p), user)
  {
    if PartyOf(t, user).Some? {
      var party := PartyOf(t, user).value;
      var t1 := t.(members := DeleteRows(t.members, user));
      forall v: Uuid ensures PartyOf(t1, v) == if v == user then None else PartyOf(t, v) {
        FindPartyDelete(t.members, user, v);
      }
      forall p ensures MembersOf(t1, p) == Others(MembersOf(t, p), user) {
        UsersInDelete(t.members, user, p);
      }
      FindPartyIs(t.members, user);
      LeaverAlone(t, user, party);
      LeftKeeps(t, user, party);
    }
  }

  lemma NoUsersIn(a: seq<Membership>, party: Uuid)
    requires forall m :: m in a ==> m.party != party
    ensures UsersIn(a, party) == []
  {
    if UsersIn(a, party) != [] {
      UsersInIs(a, party, UsersIn(a, party)[0]);
    }
  }

  lemma {:induction false} OnlyUserIn(a: seq<Membership>, party: Uuid, user: Uuid)
    requires DistinctUsers(a) && Membership(party, user) in a && forall m :: m in a && m.party == party ==>
      m.user == user
    ensures UsersIn(a, party) == [user]
  {
    if a[0].party == party {
      assert a[0] in a && a[0] == Membership(party, user);
      NoUsersIn(a[1..], party);
    } else {
      assert forall m :: m in a[1..] ==> m in a;
      OnlyUserIn(a[1..], party, user);
    }
  }

  /** The party is left empty exactly if the user was its only member. */
  lemma LeaverAlone(t: Tables, user: Uuid, party: Uuid)
    requires TablesOK(t) && Membership(party, user) in t.members
    ensures MembersOf(t, party) == [user] <==> !Inhabited(t.(members := DeleteRows(t.members, user)), party)
  {
    var t1 := t.(members := DeleteRows(t.members, user));
    forall m ensures m in t1.members <==> m in t.members && m.user != user {
      DeletedRows(t.members, user, m);
    }
    if !Inhabited(t1, party) {
      OnlyUserIn(t.members, party, user);
    } else {
      var m :| m in t1.members && m.party == party;
      UsersInIs(t.members, party, m.user);
      assert m == Membership(party, m.user);
    }
  }

  lemma LeftKeeps(t: Tables, user: Uuid, party: Uuid)
    requires TablesOK(t) && Membership(party, user) in t.members
    ensures TablesOK(DeletePartyIfEmpty(t.(members := DeleteRows(t.members, user)), party))
  {
    var t' := DeletePartyIfEmpty(t.(members := DeleteRows(t.members, user)), party);
    forall m ensures m in t'.members <==> m in t.members && m.user != user {
      DeletedRows(t.members, user, m);
    }
    DeleteKeepsDistinct(t.members, user);
    forall p | p in t'.parties ensures Inhabited(t', p) {
      if p != party {
        assert Inhabited(t, p);
        var m :| m in t.members && m.party == p;
        StillListed(t, user, party, m);
      }
    }
  }

  /** Rows of other parties are not the leaver's. */
  lemma StillListed(t: Tables, user: Uuid, party: Uuid, m: Membership)
    requires OnePartyEach(t) && Membership(party, user) in t.members && m in t.members && m.party != party
    ensures m in DeleteRows(t.members, user)
  {
    DeletedRows(t.members, user, m);
  }

  // ---------- Block relations ----------

  lemma {:induction false} BlockedInIs(relations: seq<Relation>, origin: Uuid, blocked: Uuid)
    ensures blocked in BlockedIn(relations, origin) <==> Relation(origin, blocked) in relations
  {
    if relations != [] {
      BlockedInIs(relations[1..], origin, blocked);
      assert relations == [relations[0]] + relations[1..];
    }
  }

  lemma {:induction false} DeletedRelations(a: seq<Relation>, gone: Relation, r: Relation)
    ensures r in DeleteRelations(a, gone) <==> r in a && r != gone
  {
    if a != [] {
      DeletedRelations(a[1..], gone, r);
      assert r in a <==> r == a[0] || r in a[1..];
    }
  }

  lemma {:induction false} DeleteKeepsUnique(a: seq<Relation>, gone: Relation)
    requires DistinctRelations(a)
    ensures DistinctRelations(DeleteRelations(a, gone))
  {
    if a != [] {
      DeleteKeepsUnique(a[1..], gone);
      DeletedRelations(a[1..], gone, a[0]);
    }
  }

  /** The block list of an account. */
  function BlockList(t: Tables, origin: Uuid): set<Uuid> { set b | b in BlockedUsers(t, origin) }

  /** Block lists are what the rows say. */
  lemma BlockListIs(t: Tables, origin: Uuid, blocked: Uuid)
    ensures blocked in BlockList(t, origin) <==> HasBlocked(t, origin, blocked)
  {
    BlockedInIs(t.relations, origin, blocked);
  }

  /** Only this pair's relation changed. */
  ghost predicate OnlyRelated(t: Tables, t': Tables, origin: Uuid, blocked: Uuid, now: bool) {
    && t'.users == t.users && t'.parties == t.parties && t'.members == t.members
    && forall o: Uuid, b: Uuid :: HasBlocked(t', o, b) <==>
      if o == origin && b == blocked then now else HasBlocked(t, o, b)
  }

  lemma BlockMeans(t: Tables, origin: Uuid, blocked: Uuid)
    requires TablesOK(t)
    ensures InsertRelation(t, origin, blocked).Ok? <==>
      blocked !in BlockList(t, origin) && origin in t.users && blocked in t.users
    ensures InsertRelation(t, origin, blocked).Ok? ==>
      var t' := InsertRelation(t, origin, blocked).value;
      TablesOK(t') && OnlyRelated(t, t', origin, blocked, true)
  {
    BlockListIs(t, origin, blocked);
    if InsertRelation(t, origin, blocked).Ok? {
      var t' := InsertRelation(t, origin, blocked).value;
      forall i, j | 0 <= i < j < |t'.relations| ensures t'.relations[i] != t'.relations[j] {
        assert t'.relations[i] in t.relations;
      }
      forall p | p in t'.parties ensures Inhabited(t', p) {
        assert Inhabited(t, p);
      }
    }
  }

  lemma UnblockMeans(t: Tables, origin: Uuid, blocked: Uuid)
    requires TablesOK(t)
    ensures Unblock(t, origin, blocked).Ok? <==> blocked in BlockList(t, origin)
    ensures Unblock(t, origin, blocked).Ok? ==>
      var t' := Unblock(t, origin, blocked).value;
      TablesOK(t') && OnlyRelated(t, t', origin, blocked, false)
  {
    BlockListIs(t, origin, blocked);
    if Unblock(t, origin, blocked).Ok? {
      var t' := Unblock(t, origin, blocked).value;
      forall r ensures r in t'.relations <==> r in t.relations && r != Relation(origin, blocked) {
        DeletedRelations(t.relations, Relation(origin, blocked), r);
      }
      DeleteKeepsUnique(t.relations, Relation(origin, blocked));
      forall p | p in t'.parties ensures Inhabited(t', p) {
        assert Inhabited(t, p);
      }
    }
  }

  // ---------- Runs of serial transactions ----------

  datatype Change =
    | Registering(user: Uuid)
    | Creating(user: Uuid, name: string, id: Uuid)
    | Joining(user: Uuid, party: Uuid)
    | Leaving(user: Uuid)
    | Blocking(origin: Uuid, blocked: Uuid)
    | Unblocking(origin: Uuid, blocked: Uuid)

  /** What a transaction that reaches its commit does. */
  function Outcome(t: Tables, c: Change): Result<Tables, DbError> {
    match c
    case Registering(user) => Register(t, user)
    case Creating(user, name, id) => Create(t, user, name, id)
    case Joining(user, party) => InsertMember(t, party, user)
    case Leaving(user) => Leave(t, user)
    case Blocking(origin, blocked) => InsertRelation(t, origin, blocked)
    case Unblocking(origin, blocked) => Unblock(t, origin, blocked)
  }

  /** A transaction that does not reach its commit, or fails before, changes nothing. */
  function After(t: Tables, c: Change, committed: bool): Tables {
    if committed && Outcome(t, c).Ok? then Outcome(t, c).value else t
  }

  function RunAll(t: Tables, cs: seq<(Change, bool)>): Tables
    decreases cs
  {
    if cs == [] then t else RunAll(After(t, cs[0].0, cs[0].1), cs[1..])
  }

  lemma RegisterKeeps(t: Tables, user: Uuid)
    requires TablesOK(t)
    ensures TablesOK(t.(users := t.users + {user}))
  {
    var t' := t.(users := t.users + {user});
    forall p | p in t'.parties ensures Inhabited(t', p) {
      assert Inhabited(t, p);
    }
  }

  lemma ChangeKeeps(t: Tables, c: Change)
    requires TablesOK(t) && Outcome(t, c).Ok?
    ensures TablesOK(Outcome(t, c).value)
  {
    match c
    case Registering(user) => RegisterKeeps(t, user);
    case Creating(user, name, id) => CreateMeans(t, user, name, id);
    case Joining(user, party) => JoinMeans(t, party, user);
    case Leaving(user) => LeaveMeans(t, user);
    case Blocking(origin, blocked) => BlockMeans(t, origin, blocked);
    case Unblocking(origin, blocked) => UnblockMeans(t, origin, blocked);
  }

  const NO_TABLES := Tables({}, map[], [], [])

  lemma {:induction false} RunKeeps(t: Tables, cs: seq<(Change, bool)>)
    requires TablesOK(t)
    ensures TablesOK(RunAll(t, cs))
    decreases cs
  {
    if cs != [] {
      if cs[0].1 && Outcome(t, cs[0].0).Ok? {
        ChangeKeeps(t, cs[0].0);
      }
      RunKeeps(After(t, cs[0].0, cs[0].1), cs[1..]);
    }
  }

  /** In every run each user is in at most one party, which exists and lists them, and
      every party has a member. */
  lemma PartyTables(cs: seq<(Change, bool)>, user: Uuid, party: Uuid)
    ensures var t := RunAll(NO_TABLES, cs);
      && (Membership(party, user) in t.members ==>
        PartyOf(t, user) == Some(party) && party in t.parties && user in t.users)
      && (user in MembersOf(t, party) <==> PartyOf(t, user) == Some(party))
      && (party in t.parties <==> MembersOf(t, party) != [])
  {
    var t := RunAll(NO_TABLES, cs);
    RunKeeps(NO_TABLES, cs);
    PartyIsRow(t, user, party);
    PartyListsItsMembers(t, user, party);
    if party in t.parties {
      assert Inhabited(t, party);
      var m :| m in t.members && m.party == party;
      UsersInIs(t.members, party, m.user);
      assert m == Membership(party, m.user);
    } else {
      NoUsersIn(t.members, party);
    }
  }

  // ---------- The store ----------

  /** Each transaction is a number of calls to the database; call number failAt, if
      there is one, fails. */
  class Store {
    var tables: Tables

    constructor ()
      ensures tables == NO_TABLES
    {
      tables := NO_TABLES;
    }

    /** A new account, under the ID that the database makes for it. */
    method CreateUser(id: Uuid, failAt: nat) returns (r: Result<Uuid, DbError>)
      requires TablesOK(tables)
      modifies this
      ensures TablesOK(tables) && tables == After(old(tables), Registering(id), failAt > 0)
      ensures r == if failAt == 0 then Err(Broken) else if id in old(tables).users then Err(NotUnique) else Ok(id)
      ensures r.Ok? ==> id in tables.users && forall u :: u in tables.users <==> u in old(tables).users || u == id
    {
      if failAt == 0 || id in tables.users {
        return Err(if failAt == 0 then Broken else NotUnique);
      }
      RegisterKeeps(tables, id);
      tables := tables.(users := tables.users + {id});
      r := Ok(id);
    }

    /** The party that the user's row names, if there is one. */
    method GetUserParty(user: Uuid) returns (party: Option<PartyRow>)
      requires OnePartyEach(tables) && MembersExist(tables)
      ensures match party
        case Some(p) =>
          Membership(p.id, user) in tables.members && p.id in tables.parties && tables.parties[p.id] == p.name
        case None => !HasParty(tables, user)
    {
      var id := PartyOf(tables, user);
      FindPartyIs(tables.members, user);
      party := if id.None? then None else Some(PartyRow(id.value, tables.parties[id.value]));
    }

    /** A party's members in the order in which they joined. */
    method GetPartyMembers(party: Uuid) returns (users: seq<Uuid>)
      ensures users == MembersOf(tables, party)
      ensures forall user: Uuid :: user in users <==> Membership(party, user) in tables.members
    {
      users := MembersOf(tables, party);
      forall user: Uuid ensures user in users <==> Membership(party, user) in tables.members {
        UsersInIs(tables.members, party, user);
      }
    }

    method GetBlockedUsers(origin: Uuid) returns (users: seq<Uuid>)
      ensures forall b: Uuid :: b in users <==> HasBlocked(tables, origin, b)
    {
      users := BlockedUsers(tables, origin);
      forall b: Uuid ensures b in users <==> HasBlocked(tables, origin, b) {
        BlockedInIs(tables.relations, origin, b);
      }
    }

    /** Inserts a party and its creator as its first member, or neither. */
    method CreateParty(forUser: Uuid, name: string, id: Uuid, failAt: nat) returns (r: Result<PartyRow, DbError>)
      requires TablesOK(tables)
      modifies this
      ensures TablesOK(tables) && tables == After(old(tables), Creating(forUser, name, id), failAt > 3)
      ensures r.Err? ==> tables == old(tables)
      ensures r.Ok? ==> failAt > 3 && r.value == PartyRow(id, name) && OnlyMoved(old(tables), tables, forUser, Some(id))
      ensures failAt > 3 ==> match Outcome(old(tables), Creating(forUser, name, id))
        case Ok(_) => r == Ok(PartyRow(id, name)) case Err(e) => r == Err(e)
    {
      if failAt == 0 {
        return Err(Broken);
      }
      var saved := tables;
      var inserted := InsertParty(tables, id, name);
      if failAt == 1 || inserted.Err? {
        return Err(if failAt == 1 then Broken else inserted.error);
      }
      tables := inserted.value;
      var joined := InsertMember(tables, id, forUser);
      if failAt == 2 || joined.Err? {
        tables := saved;
        return Err(if failAt == 2 then Broken else joined.error);
      }
      tables := joined.value;
      if failAt == 3 {
        tables := saved;
        return Err(Broken);
      }
      CreateMeans(saved, forUser, name, id);
      r := Ok(PartyRow(id, name));
    }

    /** Inserts a membership and looks up what it made of the user's party, or neither. */
    method InsertPartyMember(party: Uuid, user: Uuid, failAt: nat) returns (r: Result<PartyRow, DbError>)
      requires TablesOK(tables)
      modifies this
      ensures TablesOK(tables) && tables == After(old(tables), Joining(user, party), failAt > 3)
      ensures r.Err? ==> tables == old(tables)
      ensures r.Ok? ==> failAt > 3 && OnlyMoved(old(tables), tables, user, Some(party))
      ensures r.Ok? ==> party in old(tables).parties && r.value == PartyRow(party, old(tables).parties[party])
      ensures failAt > 3 ==> match Outcome(old(tables), Joining(user, party))
        case Ok(_) => r.Ok? case Err(e) => r == Err(e)
    {
      if failAt == 0 {
        return Err(Broken);
      }
      var saved := tables;
      var inserted := InsertMember(tables, party, user);
      if failAt == 1 || inserted.Err? {
        return Err(if failAt == 1 then Broken else inserted.error);
      }
      tables := inserted.value;
      JoinMeans(saved, party, user);
      var joined := GetUserParty(user);
      PartyIsRow(tables, user, party);
      if failAt == 2 || joined.None? || failAt == 3 {
        tables := saved;
        return Err(Broken);
      }
      PartyIsRow(tables, user, joined.value.id);
      r := Ok(joined.value);
    }

    /** Deletes the user's membership, and the party when nobody is left in it. */
    method DeletePartyMember(user: Uuid, failAt: nat) returns (r: Option<DbError>)
      requires TablesOK(tables)
      modifies this
      ensures TablesOK(tables) && tables == After(old(tables), Leaving(user), failAt > 3)
      ensures r.Some? ==> tables == old(tables)
      ensures r.None? ==> failAt > 3 && OnlyMoved(old(tables), tables, user, None)
      ensures failAt > 3 ==> match Outcome(old(tables), Leaving(user))
        case Ok(_) => r == None case Err(e) => r == Some(e)
    {
      if failAt == 0 {
        return Some(Broken);
      }
      var saved := tables;
      var party := PartyOf(tables, user);
      if failAt == 1 || party.None? {
        return Some(if failAt == 1 then Broken else NotFound);
      }
      tables := tables.(members := DeleteRows(tables.members, user));
      if failAt == 2 {
        tables := saved;
        return Some(Broken);
      }
      tables := DeletePartyIfEmpty(tables, party.value);
      if failAt == 3 {
        tables := saved;
        return Some(Broken);
      }
      LeaveMeans(saved, user);
      r := None;
    }

    /** Adds a block relation, then returns everybody the user blocks. */
    method InsertBlockRelation(origin: Uuid, blocked: Uuid, failAt: nat) returns (r: Result<seq<Uuid>, DbError>)
      requires TablesOK(tables)
      modifies this
      ensures TablesOK(tables) && tables == After(old(tables), Blocking(origin, blocked), failAt > 3)
      ensures r.Err? ==> tables == old(tables)
      ensures r.Ok? ==> failAt > 3 && OnlyRelated(old(tables), tables, origin, blocked, true)
      ensures r.Ok? ==> forall b: Uuid :: b in r.value <==> HasBlocked(tables, origin, b)
      ensures failAt > 3 ==> match Outcome(old(tables), Blocking(origin, blocked))
        case Ok(_) => r.Ok? case Err(e) => r == Err(e)
    {
      if failAt == 0 {
        return Err(Broken);
      }
      var saved := tables;
      var inserted := InsertRelation(tables, origin, blocked);
      if failAt == 1 || inserted.Err? {
        return Err(if failAt == 1 then Broken else inserted.error);
      }
      tables := inserted.value;
      var users := GetBlockedUsers(origin);
      if failAt == 2 || failAt == 3 {
        tables := saved;
        return Err(Broken);
      }
      BlockMeans(saved, origin, blocked);
      r := Ok(users);
    }

    /** Removes a block relation, then returns everybody the user still blocks. */
    method DeleteBlockRelation(origin: Uuid, blocked: Uuid, failAt: nat) returns (r: Result<seq<Uuid>, DbError>)
      requires TablesOK(tables)
      modifies this
      ensures TablesOK(tables) && tables == After(old(tables), Unblocking(origin, blocked), failAt > 3)
      ensures r.Err? ==> tables == old(tables)
      ensures r.Ok? ==> failAt > 3 && OnlyRelated(old(tables), tables, origin, blocked, false)
      ensures r.Ok? ==> forall b: Uuid :: b in r.value <==> HasBlocked(tables, origin, b)
      ensures failAt > 3 ==> match Outcome(old(tables), Unblocking(origin, blocked))
        case Ok(_) => r.Ok? case Err(e) => r == Err(e)
    {
      if failAt == 0 {
        return Err(Broken);
      }
      var saved := tables;
      var deleted := Unblock(tables, origin, blocked);
      if failAt == 1 || deleted.Err? {
        return Err(if failAt == 1 then Broken else deleted.error);
      }
      tables := deleted.value;
      var users := GetBlockedUsers(origin);
      if failAt == 2 || failAt == 3 {
        tables := saved;
        return Err(Broken);
      }
      UnblockMeans(saved, origin, blocked);
      r := Ok(users);
    }
  }
}
