/** Runs of the tables, the room server and the chat server together. Block lists and
    parties are looked up when a connection is authorised, copied when it opens, and
    brought up to date after changes of the tables. */
module JointRuns {
  import opened Basics
  import opened Copies
  import opened DataStore
  import opened Validate
  import opened World
  import opened Agreement
  import opened RoomChange
  import opened Engine
  import opened BlockLists
  import opened Runs
  import opened MapChat
  import opened RoomLists
  import Chat

  /** U stands for connections to the room server, C for those to the chat server; the
      latter have a copy from the look-up on, by which messages go once they are open. */
  datatype Joint<U, C> = Joint(w: World<U>, t: Tables, looked: map<C, Copy>, live: map<C, Copy>)

  /** A call of the room server, a change of the tables, or a call of the chat server. A
      committed change is followed by the updates of the two servers. */
  datatype JointStep<U, C> =
    | InRoom(step: Step<U>)
    | InTables(change: Change, committed: bool)
    | LookingUp(c: C, account: Uuid)
    | ChatOpening(c: C)
    | ChatClosing(c: C)

  function ListOwner(c: Change): Option<Uuid> {
    if c.Blocking? || c.Unblocking? then Some(c.origin) else None
  }

  /** The block-list update that a change of the tables brings about. */
  ghost function Followed<U>(t: Tables, c: Change, committed: bool): Option<Step<U>> {
    if committed && Outcome(t, c).Ok? && ListOwner(c).Some?
    then Some(Step.Blocking(ListOwner(c).value, BlockList(After(t, c, committed), ListOwner(c).value)))
    else None
  }

  ghost function AfterList<U>(f: Filters, w: World<U>, followed: Option<Step<U>>): World<U> {
    if followed.Some? then Next(f, w, followed.value) else w
  }

  ghost predicate GuardedList<U>(f: Filters, w: World<U>, followed: Option<Step<U>>) {
    followed.Some? ==> Guarded(f, w, followed.value)
  }

  ghost function JointNext<U, C>(f: Filters, j: Joint<U, C>, s: JointStep<U, C>): Joint<U, C> {
    match s
    case InRoom(step) => j.(w := Next(f, j.w, step))
    case InTables(c, committed) =>
      Joint(AfterList(f, j.w, Followed(j.t, c, committed)), After(j.t, c, committed), j.looked,
            CopiesAfter(j.live, j.t, c, committed))
    case LookingUp(c, account) => j.(looked := j.looked[c := LookUp(j.t, account)])
    case ChatOpening(c) =>
      if c in j.looked then j.(looked := j.looked - {c}, live := j.live[c := j.looked[c]]) else j
    case ChatClosing(c) => j.(live := j.live - {c})
  }

  /** A connection to the room server brings the block list that the tables had when it was
      authorised, or none if the lookup failed. A connection to the chat server is looked
      up, opened and closed in that order; it is refused if a lookup failed. */
  ghost predicate JointPossible<U, C>(j: Joint<U, C>, s: JointStep<U, C>) {
    match s
    case InRoom(step) =>
      && !step.Blocking? && Possible(j.w, step)
      && (step.Authorizing? ==> step.d.blocklist == BlockList(j.t, step.d.account) || step.d.blocklist == {})
    case InTables(_, _) => true
    case LookingUp(c, _) => c !in j.looked && c !in j.live
    case ChatOpening(c) => c in j.looked && c !in j.live
    case ChatClosing(c) => c in j.live
  }

  /** When a connection opens and is not refused, what was looked up for it is what the
      tables say then; and unblocking shows nobody who must not be shown. */
  ghost predicate JointGuarded<U, C>(f: Filters, j: Joint<U, C>, s: JointStep<U, C>) {
    match s
    case InRoom(step) =>
      step.Opening? && At(j.w, step.u).account !in j.w.users ==>
        At(j.w, step.u).blocklist == BlockList(j.t, At(j.w, step.u).account)
    case InTables(c, committed) => GuardedList(f, j.w, Followed(j.t, c, committed))
    case LookingUp(_, _) => true
    case ChatOpening(c) => c in j.looked ==> CopyOK(j.t, j.looked[c])
    case ChatClosing(_) => true
  }

  ghost predicate PossibleJoint<U, C>(f: Filters, j: Joint<U, C>, steps: seq<JointStep<U, C>>)
    decreases steps
  {
    steps == [] || (JointPossible(j, steps[0]) && PossibleJoint(f, JointNext(f, j, steps[0]), steps[1..]))
  }

  ghost predicate GuardedJoint<U, C>(f: Filters, j: Joint<U, C>, steps: seq<JointStep<U, C>>)
    decreases steps
  {
    steps == [] || (JointGuarded(f, j, steps[0]) && GuardedJoint(f, JointNext(f, j, steps[0]), steps[1..]))
  }

  ghost function JointRun<U, C>(f: Filters, j: Joint<U, C>, steps: seq<JointStep<U, C>>): Joint<U, C>
    decreases steps
  {
    if steps == [] then j else JointRun(f, JointNext(f, j, steps[0]), steps[1..])
  }

  ghost function JointStart<U, C>(f: Filters): Joint<U, C> { Joint(Start(f), NO_TABLES, map[], map[]) }

  // ---------- Steps of the room server ----------

  /** Rooms, screens, tables and the block lists of the room server. */
  ghost predicate GameOK<U>(f: Filters, w: World<U>, t: Tables) {
    ServerOK(f, w) && ScreensOK(f, w) && TablesOK(t) && RoomCopiesOK(w, t)
  }

  ghost predicate JointOK<U, C>(f: Filters, j: Joint<U, C>) { GameOK(f, j.w, j.t) && CopiesOK(j.t, j.live) }

  lemma ServerStepCopies<U, C>(f: Filters, j: Joint<U, C>, step: Step<U>)
    requires ServerOK(f, j.w) && RoomCopiesOK(j.w, j.t) && JointPossible(j, InRoom(step)) && !step.Opening?
    ensures RoomCopiesOK(Next(f, j.w, step), j.t)
  {
    if step.Authorizing? {
      AuthorizeCopies(j.w, j.t, step.u, step.d);
    } else if step.Closing? {
      CloseCopies(f, j.w, j.t, step.u);
    } else {
      PacketLists(f, j.w, step.u, step.verified, step.count, step.parsed);
      SameListsSameCopies(j.w, Next(f, j.w, step), j.t);
    }
  }

  lemma RoomStepIsExact<U, C>(f: Filters, j: Joint<U, C>, step: Step<U>)
    requires GameOK(f, j.w, j.t) && Faithful(f, j.w.rooms.Keys) && JointPossible(j, InRoom(step))
    ensures Next(f, j.w, step).rooms.Keys == j.w.rooms.Keys
    ensures GameOK(f, Next(f, j.w, step), j.t) <==> JointGuarded(f, j, InRoom(step))
  {
    NextKeeps(f, j.w, step);
    if step.Opening? {
      OpenCopies(f, j.w, j.t, step.u);
    } else {
      ServerStepCopies(f, j, step);
    }
  }

  // ---------- Changes of the tables ----------

  lemma TablesKept(t: Tables, c: Change, committed: bool)
    requires TablesOK(t)
    ensures TablesOK(After(t, c, committed))
  {
    if committed && Outcome(t, c).Ok? {
      ChangeKeeps(t, c);
    }
  }

  lemma ListWorld<U>(f: Filters, w: World<U>, w': World<U>, t: Tables, c: Change, committed: bool)
    requires (c.Blocking? || c.Unblocking?) && w' == AfterList(f, w, Followed(t, c, committed))
    ensures w' == if committed && Outcome(t, c).Ok?
                  then UpdateBlockList(w, AccountOf(c), BlockList(After(t, c, committed), AccountOf(c))) else w
  {
  }

  lemma FollowedCopies<U>(w: World<U>, w': World<U>, t: Tables, t': Tables, account: Uuid)
    requires Registry(w) && w' == UpdateBlockList(w, account, BlockList(t', account))
    requires forall o: Uuid :: o != account ==> BlockList(t', o) == BlockList(t, o)
    ensures w'.users == w.users && RoomCopyOK(w', t', account)
    ensures forall a :: a in w.users && RoomCopyOK(w, t, a) ==> RoomCopyOK(w', t', a)
  {
    ServerHasOwnAccounts(w);
    RoomFollows(w, t, t', account);
  }

  lemma KeptCopies<U>(w: World<U>, t: Tables, t': Tables)
    requires forall o: Uuid :: BlockList(t', o) == BlockList(t, o)
    ensures forall a :: a in w.users && RoomCopyOK(w, t, a) ==> RoomCopyOK(w, t', a)
  {
  }

  lemma ListsKept(t: Tables, c: Change, committed: bool)
    requires TablesOK(t) && (committed && Outcome(t, c).Ok? ==> ListOwner(c).None?)
    ensures forall o: Uuid :: BlockList(After(t, c, committed), o) == BlockList(t, o)
  {
    if committed && Outcome(t, c).Ok? {
      ChangeIsAbout(t, c);
    }
  }

  /** The lists that were right stay right, and the owner's is right whatever it was. */
  lemma TableCopies<U>(f: Filters, w: World<U>, t: Tables, c: Change, committed: bool)
    requires TablesOK(t) && Registry(w)
    ensures var w' := AfterList(f, w, Followed(t, c, committed));
      && w'.users == w.users
      && (forall a :: a in w.users && RoomCopyOK(w, t, a) ==> RoomCopyOK(w', After(t, c, committed), a))
      && (Followed<U>(t, c, committed).Some? ==> RoomCopyOK(w', After(t, c, committed), AccountOf(c)))
  {
    var w', t' := AfterList(f, w, Followed(t, c, committed)), After(t, c, committed);
    if Followed<U>(t, c, committed).Some? {
      ListWorld(f, w, w', t, c, committed);
      ChangeIsAbout(t, c);
      FollowedCopies(w, w', t, t', AccountOf(c));
    } else {
      ListsKept(t, c, committed);
      KeptCopies(w, t, t');
    }
  }

  lemma AbsentList<U>(f: Filters, w: World<U>, account: Uuid, blocked: set<Uuid>)
    requires account !in w.users
    ensures Next(f, w, Step.Blocking(account, blocked)) == w && Guarded(f, w, Step.Blocking(account, blocked))
  {
  }

  lemma PresentList<U>(f: Filters, w: World<U>, account: Uuid, blocked: set<Uuid>)
    requires account in w.users
    ensures Next(f, w, Step.Blocking(account, blocked)) == UpdateBlockList(w, account, blocked)
    ensures Guarded(f, w, Step.Blocking(account, blocked)) <==>
      AllShowable(f, w, w.users[account], NewlyUnblocked(w, w.users[account], blocked))
  {
  }

  lemma ListServes<U>(f: Filters, w: World<U>, account: Uuid, blocked: set<Uuid>)
    requires ServerOK(f, w)
    ensures ServerOK(f, Next(f, w, Step.Blocking(account, blocked)))
    ensures Next(f, w, Step.Blocking(account, blocked)).rooms == w.rooms
  {
    if account in w.users {
      PresentList(f, w, account, blocked);
      UpdateServes(f, w, account, blocked);
    } else {
      AbsentList(f, w, account, blocked);
    }
  }

  lemma ListShows<U>(f: Filters, w: World<U>, account: Uuid, blocked: set<Uuid>)
    requires ServerOK(f, w) && ScreensOK(f, w) && Faithful(f, w.rooms.Keys)
    ensures ScreensOK(f, Next(f, w, Step.Blocking(account, blocked))) <==>
      Guarded(f, w, Step.Blocking(account, blocked))
  {
    if account in w.users {
      PresentList(f, w, account, blocked);
      UpdateIsExact(f, w, account, blocked);
    } else {
      AbsentList(f, w, account, blocked);
    }
  }

  lemma ListStepIsExact<U>(f: Filters, w: World<U>, followed: Option<Step<U>>)
    requires ServerOK(f, w) && ScreensOK(f, w) && Faithful(f, w.rooms.Keys)
    requires followed.Some? ==> followed.value.Blocking?
    ensures ServerOK(f, AfterList(f, w, followed)) && AfterList(f, w, followed).rooms == w.rooms
    ensures ScreensOK(f, AfterList(f, w, followed)) <==> GuardedList(f, w, followed)
  {
    if followed.Some? {
      ListServes(f, w, followed.value.account, followed.value.blocked);
      ListShows(f, w, followed.value.account, followed.value.blocked);
    }
  }

  /** A change of a list in the tables and then in both servers is one joint step. */
  lemma IsTableStep<U, C>(f: Filters, j: Joint<U, C>, j': Joint<U, C>, c: Change, committed: bool)
    requires (c.Blocking? || c.Unblocking?) && j'.t == After(j.t, c, committed)
    requires j'.live == CopiesAfter(j.live, j.t, c, committed) && j'.looked == j.looked
    requires if committed && Outcome(j.t, c).Ok?
             then j'.w == UpdateBlockList(j.w, AccountOf(c), BlockList(j'.t, AccountOf(c))) else j'.w == j.w
    ensures j' == JointNext(f, j, InTables(c, committed))
  {
  }

  /** What such a step does to the room server's lists. */
  lemma RoomsFollow<U>(f: Filters, w: World<U>, w': World<U>, t: Tables, c: Change, committed: bool)
    requires ServerOK(f, w) && TablesOK(t) && (c.Blocking? || c.Unblocking?)
    requires w' == AfterList(f, w, Followed(t, c, committed))
    ensures RoomCopiesOK(w, t) ==> RoomCopiesOK(w', After(t, c, committed))
    ensures committed && Outcome(t, c).Ok? ==> RoomCopyOK(w', After(t, c, committed), AccountOf(c))
  {
    TableCopies(f, w, t, c, committed);
  }

  /** What a change of an account's list brings, if it was made: the room server made its
      step, the account's copies are right whatever they were, and all copies stay right if
      they were. Otherwise nothing changed at all. */
  ghost predicate ListStepped<U, C>(j: Joint<U, C>, j': Joint<U, C>, account: Uuid, done: bool) {
    && (CopiesOK(j.t, j.live) ==> CopiesOK(j'.t, j'.live)) && (RoomCopiesOK(j.w, j.t) ==> RoomCopiesOK(j'.w, j'.t))
    && (!done ==> j' == j)
    && (done ==>
          && j'.w == UpdateBlockList(j.w, account, BlockList(j'.t, account)) && RoomCopyOK(j'.w, j'.t, account)
          && forall x :: x in j'.live && j'.live[x].account == account ==> ListOK(j'.t, j'.live[x]))
  }

  lemma ListCopies<C>(copies: map<C, Copy>, t: Tables, c: Change, committed: bool)
    requires TablesOK(t) && (c.Blocking? || c.Unblocking?)
    ensures var t', after := After(t, c, committed), CopiesAfter(copies, t, c, committed);
      && (CopiesOK(t, copies) ==> CopiesOK(t', after))
      && (committed && Outcome(t, c).Ok? ==>
            forall x :: x in after && after[x].account == AccountOf(c) ==> ListOK(t', after[x]))
      && (!committed || Outcome(t, c).Err? ==> after == copies && t' == t)
  {
    CopiesFollow(copies, t, c, committed);
  }

  lemma ListStepMeans<U, C>(f: Filters, j: Joint<U, C>, j': Joint<U, C>, account: Uuid, c: Change, committed: bool,
      done: bool)
    requires (c.Blocking? || c.Unblocking?) && account == AccountOf(c) && TablesOK(j.t) && ServerOK(f, j.w)
    requires j' == JointNext(f, j, InTables(c, committed)) && (done <==> committed && Outcome(j.t, c).Ok?)
    ensures ListStepped(j, j', account, done)
  {
    RoomsFollow(f, j.w, j'.w, j.t, c, committed);
    ListWorld(f, j.w, j'.w, j.t, c, committed);
    ListCopies(j.live, j.t, c, committed);
  }

  lemma TableCopiesOK<U>(f: Filters, w: World<U>, t: Tables, c: Change, committed: bool)
    requires TablesOK(t) && Registry(w) && RoomCopiesOK(w, t)
    ensures RoomCopiesOK(AfterList(f, w, Followed(t, c, committed)), After(t, c, committed))
  {
    TableCopies(f, w, t, c, committed);
  }

  lemma ChatCopiesOK<C>(copies: map<C, Copy>, t: Tables, c: Change, committed: bool)
    requires TablesOK(t) && CopiesOK(t, copies)
    ensures CopiesOK(After(t, c, committed), CopiesAfter(copies, t, c, committed))
  {
    CopiesFollow(copies, t, c, committed);
  }

  lemma GameStepIsExact<U>(f: Filters, w: World<U>, t: Tables, c: Change, committed: bool)
    requires GameOK(f, w, t) && Faithful(f, w.rooms.Keys)
    ensures var followed := Followed<U>(t, c, committed);
      && AfterList(f, w, followed).rooms == w.rooms
      && (GameOK(f, AfterList(f, w, followed), After(t, c, committed)) <==> GuardedList(f, w, followed))
  {
    TablesKept(t, c, committed);
    TableCopiesOK(f, w, t, c, committed);
    ListStepIsExact(f, w, Followed(t, c, committed));
  }

  lemma TableStepIsExact<U, C>(f: Filters, j: Joint<U, C>, c: Change, committed: bool)
    requires JointOK(f, j) && Faithful(f, j.w.rooms.Keys)
    ensures JointNext(f, j, InTables(c, committed)).w.rooms == j.w.rooms
    ensures JointOK(f, JointNext(f, j, InTables(c, committed))) <==> JointGuarded(f, j, InTables(c, committed))
  {
    GameStepIsExact(f, j.w, j.t, c, committed);
    ChatCopiesOK(j.live, j.t, c, committed);
  }

  // ---------- What every guarded run keeps ----------

  lemma ChatStepIsExact<U, C>(f: Filters, j: Joint<U, C>, s: JointStep<U, C>)
    requires JointOK(f, j) && JointPossible(j, s) && !s.InRoom? && !s.InTables?
    ensures JointOK(f, JointNext(f, j, s)) <==> JointGuarded(f, j, s)
  {
    if s.ChatOpening? {
      Chat.OneMoreCopy(j.t, j.live, s.c, j.looked[s.c]);
    }
  }

  /** Whatever step is taken, tables, screens and all copies stay right together exactly
      if the step is guarded. */
  lemma StepIsExact<U, C>(f: Filters, j: Joint<U, C>, s: JointStep<U, C>)
    requires JointOK(f, j) && Faithful(f, j.w.rooms.Keys) && JointPossible(j, s)
    ensures JointNext(f, j, s).w.rooms.Keys == j.w.rooms.Keys
    ensures JointOK(f, JointNext(f, j, s)) <==> JointGuarded(f, j, s)
  {
    if s.InRoom? {
      RoomStepIsExact(f, j, s.step);
    } else if s.InTables? {
      TableStepIsExact(f, j, s.change, s.committed);
    } else {
      ChatStepIsExact(f, j, s);
    }
  }

  lemma {:induction false} JointRunKeeps<U, C>(f: Filters, j: Joint<U, C>, steps: seq<JointStep<U, C>>)
    requires JointOK(f, j) && Faithful(f, j.w.rooms.Keys) && PossibleJoint(f, j, steps) && GuardedJoint(f, j, steps)
    ensures JointOK(f, JointRun(f, j, steps))
    decreases steps
  {
    if steps != [] {
      StepIsExact(f, j, steps[0]);
      JointRunKeeps(f, JointNext(f, j, steps[0]), steps[1..]);
    }
  }

  lemma RunIsOK<U, C>(f: Filters, steps: seq<JointStep<U, C>>)
    requires Faithful(f, f.maps)
    requires PossibleJoint(f, JointStart<U, C>(f), steps) && GuardedJoint(f, JointStart<U, C>(f), steps)
    ensures JointOK(f, JointRun(f, JointStart<U, C>(f), steps))
  {
    StartIsGood<U>(f);
    JointRunKeeps(f, JointStart<U, C>(f), steps);
  }

  // ---------- What chat connections get ----------

  /** What the map message of one connection brings another. */
  ghost predicate MapMessageIsView<U, C>(f: Filters, j: Joint<U, C>, c: C, d: C, content: Bytes)
    requires c in j.live && d in j.live
  {
    var from, to := j.live[c].account, j.live[d].account;
    var mates := RoommatesOf(f, j.w, from);
    && Chat.Delivered(mates, Chat.Map, j.live[c], j.live[d], false, content) ==
       (if from in j.w.users && to in j.w.users && At(j.w, j.w.users[from]).cid in ViewOf(j.w, j.w.users[to]).players
        then [Chat.Message(Chat.Map, from, content)] else [])
    && (from !in j.w.users ==>
          Chat.Delivered(mates, Chat.Map, j.live[c], j.live[c], true, content) == [Chat.Error(Chat.NotInMap)])
  }

  lemma MapMessageHolds<U, C>(f: Filters, j: Joint<U, C>, c: C, d: C, content: Bytes)
    requires JointOK(f, j) && c in j.live && d in j.live && j.live[c].account != j.live[d].account
    ensures MapMessageIsView(f, j, c, d, content)
  {
    var from, to := j.live[c].account, j.live[d].account;
    MapChatHolds(f, j.w, j.t, from, to);
    Chat.DeliveredIsDue(j.t, RoommatesOf(f, j.w, from), Chat.Map, j.live[c], j.live[d], false, content);
  }

  /** After any guarded run: a chat connection gets a map message of another account
      exactly if its account is in the game and shows the sender; and a sender that is not
      in the game is told so. */
  lemma MapChatEqualsView<U, C>(f: Filters, steps: seq<JointStep<U, C>>, c: C, d: C, content: Bytes)
    requires Faithful(f, f.maps)
    requires PossibleJoint(f, JointStart<U, C>(f), steps) && GuardedJoint(f, JointStart<U, C>(f), steps)
    ensures var j := JointRun(f, JointStart<U, C>(f), steps);
      c in j.live && d in j.live && j.live[c].account != j.live[d].account ==> MapMessageIsView(f, j, c, d, content)
  {
    RunIsOK(f, steps);
    var j := JointRun(f, JointStart<U, C>(f), steps);
    if c in j.live && d in j.live && j.live[c].account != j.live[d].account {
      MapMessageHolds(f, j, c, d, content);
    }
  }

  /** And it gets a party message exactly if the tables list its account in the sender's
      party, less blocked pairs; a sender without a party is told so. */
  lemma PartyChatEqualsTables<U, C>(f: Filters, steps: seq<JointStep<U, C>>, c: C, d: C, own: bool, content: Bytes)
    requires Faithful(f, f.maps)
    requires PossibleJoint(f, JointStart<U, C>(f), steps) && GuardedJoint(f, JointStart<U, C>(f), steps)
    ensures var j := JointRun(f, JointStart<U, C>(f), steps);
      c in j.live && d in j.live ==>
        var from, to := j.live[c].account, j.live[d].account;
        Chat.Delivered(RoommatesOf(f, j.w, from), Chat.Party, j.live[c], j.live[d], own, content) ==
          match PartyOf(j.t, from)
          case None => if own then [Chat.Error(Chat.NotInParty)] else []
          case Some(p) => if to in MembersOf(j.t, p) && !Chat.Blocked(j.t, from, to)
                          then [Chat.Message(Chat.Party, from, content)] else []
  {
    RunIsOK(f, steps);
    var j := JointRun(f, JointStart<U, C>(f), steps);
    if c in j.live && d in j.live {
      var from, to := j.live[c].account, j.live[d].account;
      Chat.DeliveredIsDue(j.t, RoommatesOf(f, j.w, from), Chat.Party, j.live[c], j.live[d], own, content);
      if PartyOf(j.t, from).Some? {
        Chat.PartyReaches(j.t, RoommatesOf(f, j.w, from), from, to);
      }
    }
  }

  /** And a global message always, unless one of the two accounts blocks the other. */
  lemma GlobalChatEqualsTables<U, C>(f: Filters, steps: seq<JointStep<U, C>>, c: C, d: C, own: bool, content: Bytes)
    requires Faithful(f, f.maps)
    requires PossibleJoint(f, JointStart<U, C>(f), steps) && GuardedJoint(f, JointStart<U, C>(f), steps)
    ensures var j := JointRun(f, JointStart<U, C>(f), steps);
      c in j.live && d in j.live ==>
        var from, to := j.live[c].account, j.live[d].account;
        Chat.Delivered(RoommatesOf(f, j.w, from), Chat.Global, j.live[c], j.live[d], own, content) ==
          if to in BlockList(j.t, from) || from in BlockList(j.t, to) then []
          else [Chat.Message(Chat.Global, from, content)]
  {
    RunIsOK(f, steps);
    var j := JointRun(f, JointStart<U, C>(f), steps);
    if c in j.live && d in j.live {
      var from, to := j.live[c].account, j.live[d].account;
      Chat.DeliveredIsDue(j.t, RoommatesOf(f, j.w, from), Chat.Global, j.live[c], j.live[d], own, content);
      Chat.DueIs(j.t, RoommatesOf(f, j.w, from), Chat.Global, from, to, own, content);
    }
  }
}
