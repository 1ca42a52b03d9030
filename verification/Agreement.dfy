/** What holds between steps of the room engine: the room partition, bounded player
    state, and agreement of every client's view with the server. */
module Agreement {
  import opened Basics
  import opened Delimiters
  import opened Packets
  import opened Validate
  import opened Views
  import opened World

  // ---------- Player state ----------

  ghost predicate SpriteOK(f: Filters, d: Player) {
    (d.sprite == [] && d.spriteIndex == DEFAULT_SPRITE_INDEX)
      || (d.sprite in f.sprites && d.spriteIndex >= MIN_SPRITE_INDEX)
  }

  ghost predicate PictureOK(f: Filters, id: int32, pic: Picture) {
    pic.base.picID == id && !pic.playOnce && ValidateBasePicture(pic.base).None? && f.HasPicture(pic.picName)
  }

  /** The values that a player can reach. */
  ghost predicate StateOK(f: Filters, d: Player) {
    && ((d.x == DEFAULT_XY && d.y == DEFAULT_XY) || (IsValidXY(d.x) && IsValidXY(d.y)))
    && IsValidFacing(d.facing) && IsValidSpeed(d.speed) && IsValidTransparency(d.transparency)
    && SpriteOK(f, d) && (d.sysName == [] || d.sysName in f.systems) && d.flash.None?
    && (forall id :: id in d.pictures ==> PictureOK(f, id, d.pictures[id]))
    && PlayerClean(d)
  }

  /** Same connection ID, account, block list and room: all that visibility depends on. */
  ghost predicate SamePlace(d: Player, e: Player) {
    d.cid == e.cid && d.account == e.account && d.blocklist == e.blocklist && d.roomID == e.roomID
  }

  /** Everything but appearance and the guard counter is the same. */
  ghost predicate SameIdentity(d: Player, e: Player) { SamePlace(d, e) && d.phase == e.phase && d.open == e.open }

  /** The packet turns the look of d into the look of e. */
  ghost predicate Conveys(d: Player, e: Player, p: S2C) {
    Subject(p) == Some(d.cid) && Update(LookOf(d), p) == LookOf(e)
  }

  lemma RelayKeepsState(f: Filters, rooms: set<int32>, d: Player, m: C2S)
    requires IsRelay(m) && Acceptable(f, rooms, m) && StateOK(f, d) && CleanC2S(m)
    ensures StateOK(f, RelayData(d, m))
  {
  }

  lemma RelayTells(d: Player, m: C2S)
    requires IsRelay(m)
    ensures SameIdentity(d, RelayData(d, m)) && Conveys(d, RelayData(d, m), RelayPacket(d.cid, m))
  {
  }

  lemma RelayConveys(f: Filters, rooms: set<int32>, d: Player, m: C2S)
    requires IsRelay(m) && Acceptable(f, rooms, m) && StateOK(f, d) && CleanC2S(m)
    ensures var e := RelayData(d, m); StateOK(f, e) && SameIdentity(d, e) && Conveys(d, e, RelayPacket(d.cid, m))
    ensures CleanS2C(RelayPacket(d.cid, m))
  {
    RelayKeepsState(f, rooms, d, m);
    RelayTells(d, m);
  }

  lemma EraseConveys(f: Filters, d: Player, id: int32)
    requires StateOK(f, d)
    ensures var e := d.(pictures := d.pictures - {id});
      StateOK(f, e) && SameIdentity(d, e) && Conveys(d, e, ErasePictureS2C(d.cid, id))
  {
  }

  lemma ShowConveys(f: Filters, d: Player, pic: Picture)
    requires StateOK(f, d) && pic.base.picID !in d.pictures
    requires ValidateBasePicture(pic.base).None? && f.HasPicture(pic.picName) && Clean(pic.picName)
    ensures var e := if pic.playOnce then d else d.(pictures := d.pictures[pic.base.picID := pic]);
      StateOK(f, e) && SameIdentity(d, e) && Conveys(d, e, ShowPictureS2C(d.cid, pic))
  {
    assert d.pictures - {pic.base.picID} == d.pictures;
  }

  lemma MoveConveys(f: Filters, d: Player, base: BasePicture, duration: int32)
    requires StateOK(f, d) && base.picID in d.pictures && ValidateBasePicture(base).None?
    ensures var e := d.(pictures := d.pictures[base.picID := d.pictures[base.picID].(base := base)]);
      StateOK(f, e) && SameIdentity(d, e) && Conveys(d, e, MovePictureS2C(d.cid, base, duration))
  {
  }

  /** In a reachable state the introduction conveys the whole look. */
  lemma ReachableIntro(f: Filters, d: Player)
    requires StateOK(f, d) && [] !in f.sprites
    ensures IntroLook(d) == LookOf(d) && PicturesKeyed(d) && IntroFlash(d) == []
  {
  }

  /** At most one stored picture per valid ID. */
  lemma PictureCount(f: Filters, d: Player)
    requires StateOK(f, d)
    ensures |d.pictures| <= MAX_PIC_ID + 1
  {
    IDSize(MAX_PIC_ID + 1);
    forall id | id in d.pictures ensures id in IDs(MAX_PIC_ID + 1) {
      assert PictureOK(f, id, d.pictures[id]);
    }
    SubsetSize(d.pictures.Keys, IDs(MAX_PIC_ID + 1));
  }

  function IDs(n: nat): set<int> { if n == 0 then {} else IDs(n - 1) + {n - 1} }

  lemma {:induction false} IDSize(n: nat)
    ensures |IDs(n)| == n && forall i :: i in IDs(n) <==> 0 <= i < n
  {
    if n > 0 {
      IDSize(n - 1);
    }
  }

  lemma {:induction false} SubsetSize<T>(a: set<T>, b: set<T>)
    requires a <= b
    ensures |a| <= |b|
    decreases |a|
  {
    if a != {} {
      var x :| x in a;
      SubsetSize(a - {x}, b - {x});
    }
  }

  // ---------- Rooms ----------

  ghost predicate NoDuplicates<U>(s: seq<U>) { forall i, j :: 0 <= i < j < |s| ==> s[i] != s[j] }

  /** Listed in the room that its data names. */
  ghost predicate Present<U>(w: World<U>, u: U) { u in w.data && u in Members(w, At(w, u).roomID) }

  ghost predicate DistinctIDs<U>(w: World<U>) {
    && w.counter >= 0
    && (forall u :: u in w.data ==> 0 < w.data[u].cid <= w.counter)
    && (forall u, v :: u in w.data && v in w.data && w.data[u].cid == w.data[v].cid ==> u == v)
  }

  /** Members are listed once and only in the room they are in. */
  ghost predicate Partitioned<U>(w: World<U>) {
    && (forall r :: r in w.rooms ==> NoDuplicates(w.rooms[r]))
    && (forall r, u :: r in w.rooms && u in w.rooms[r] ==> At(w, u).roomID == r)
  }

  ghost predicate Placed<U>(w: World<U>) { Structured(w) && DistinctIDs(w) && Partitioned(w) }

  ghost predicate StatesOK<U>(f: Filters, w: World<U>) { forall u :: u in w.data ==> StateOK(f, w.data[u]) }

  /** No client was ever told to update somebody it did not show. */
  ghost predicate NoStrays<U>(w: World<U>) { forall u :: u in w.views ==> !w.views[u].stray }

  /** In the game means registered under one's account, listed in a room, and able
      to be sent to. */
  ghost predicate Enrolled<U>(w: World<U>, u: U) {
    var d := At(w, u);
    && (d.phase == Live <==> d.account in w.users && w.users[d.account] == u)
    && (d.phase == Live <==> Present(w, u))
    && (d.phase == Live || d.phase == Authorized ==> d.open)
  }

  ghost predicate AccountOK<U>(w: World<U>, a: Uuid)
    requires a in w.users
  {
    At(w, w.users[a]).account == a && At(w, w.users[a]).phase == Live
  }

  /** The registry, the rooms and the open outboxes name the same connections. */
  ghost predicate Registry<U>(w: World<U>) {
    && (forall a :: a in w.users ==> AccountOK(w, a))
    && (forall u :: u in w.data ==> Enrolled(w, u))
  }

  /** Rooms, registry and player state, whatever the clients show. */
  ghost predicate ServerOK<U>(f: Filters, w: World<U>) { Placed(w) && StatesOK(f, w) && Registry(w) }

  // ---------- Agreement ----------

  /** The simple relation that the views replicate: same multiplayer room and no
      block either way. */
  ghost predicate Visible<U>(f: Filters, w: World<U>, u: U, v: U) {
    && u != v && Present(w, u) && Present(w, v)
    && At(w, u).roomID == At(w, v).roomID && At(w, u).roomID !in f.singleplayer
    && !BlockedBetween(At(w, u), At(w, v))
  }

  /** The view shows v exactly if v is visible to u, and then as it is. */
  ghost predicate PairOK<U>(f: Filters, w: World<U>, u: U, v: U) {
    var shown, id := ViewOf(w, u).players, At(w, v).cid;
    && (id in shown <==> Visible(f, w, u, v))
    && (id in shown ==> shown[id] == LookOf(At(w, v)))
  }

  ghost predicate KnownID<U>(w: World<U>, id: int32) { exists v :: v in w.data && w.data[v].cid == id }

  ghost predicate OnlyKnown<U>(w: World<U>, v: View) { forall id :: id in v.players ==> KnownID(w, id) }

  ghost predicate ViewOK<U>(f: Filters, w: World<U>, u: U) {
    && ViewOf(w, u).room == At(w, u).roomID && OnlyKnown(w, ViewOf(w, u))
    && forall v :: v in w.data ==> PairOK(f, w, u, v)
  }

  /** Every client in the game shows exactly the players visible to it, as they are. */
  ghost predicate Agree<U>(f: Filters, w: World<U>) {
    forall u :: u in w.data && Present(w, u) ==> ViewOK(f, w, u)
  }

  ghost predicate ScreensOK<U>(f: Filters, w: World<U>) { NoStrays(w) && Agree(f, w) }

  /** Packets about a present player go exactly to those who can see it. */
  lemma AudienceSees<U>(f: Filters, w: World<U>, u: U, x: U)
    requires Placed(w) && u in w.data
    ensures x in Audience(f, w, u) ==> x in w.data && Present(w, x) && x != u && At(w, x).roomID == At(w, u).roomID
    ensures Present(w, u) ==> (x in Audience(f, w, u) <==> Visible(f, w, x, u))
  {
  }

  // ---------- Publishing a change ----------

  /** Replacing u's data by data of the same identity moves nobody. */
  lemma PutKeepsVisible<U>(f: Filters, w: World<U>, u: U, d: Player, x: U, v: U)
    requires u in w.data && SamePlace(w.data[u], d)
    ensures Present(Put(w, u, d), x) <==> Present(w, x)
    ensures Visible(f, Put(w, u, d), x, v) <==> Visible(f, w, x, v)
  {
  }

  lemma PutKeepsPlaced<U>(w: World<U>, u: U, d: Player)
    requires Placed(w) && u in w.data && SamePlace(w.data[u], d)
    ensures Placed(Put(w, u, d))
  {
    var w' := Put(w, u, d);
    forall r, x | r in w.rooms && x in w.rooms[r] ensures At(w', x).roomID == r {
      assert At(w, x).roomID == r;
    }
  }

  lemma ApplyUpdate(v: View, d: Player, e: Player, p: S2C)
    requires Conveys(d, e, p) && d.cid in v.players && v.players[d.cid] == LookOf(d)
    ensures var v' := Apply(v, p);
      v'.room == v.room && v'.stray == v.stray && v'.players == v.players[d.cid := LookOf(e)]
  {
  }

  lemma ToldView<U>(w: World<U>, to: set<U>, p: S2C, x: U)
    requires x in w.views
    ensures ViewOf(Tell(w, to, p), x) == if x in to then Apply(ViewOf(w, x), p) else ViewOf(w, x)
  {
  }

  /** The packet reaches exactly those who could see u before the change. */
  lemma PublishAudience<U>(f: Filters, w: World<U>, u: U, d: Player, x: U)
    requires Placed(w) && Present(w, u) && SameIdentity(w.data[u], d)
    ensures x in Audience(f, Put(w, u, d), u) <==> Visible(f, w, x, u)
  {
    PutKeepsPlaced(w, u, d);
    PutKeepsVisible(f, w, u, d, x, u);
    AudienceSees(f, Put(w, u, d), u, x);
  }

  /** The view of x after a packet about u. */
  lemma PublishedView<U>(f: Filters, w: World<U>, u: U, d: Player, p: S2C, x: U)
    requires Placed(w) && Agree(f, w) && Present(w, u) && x in w.data
    requires SameIdentity(w.data[u], d) && Conveys(w.data[u], d, p)
    ensures var v, v' := ViewOf(w, x), ViewOf(Publish(f, w, u, d, p), x);
      && v'.room == v.room && v'.stray == v.stray
      && v'.players == if Visible(f, w, x, u) then v.players[d.cid := LookOf(d)] else v.players
  {
    PublishAudience(f, w, u, d, x);
    ToldView(Put(w, u, d), Audience(f, Put(w, u, d), u), p, x);
    if Visible(f, w, x, u) {
      assert PairOK(f, w, x, u);
      ApplyUpdate(ViewOf(w, x), w.data[u], d, p);
    }
  }

  /** Only u's data changed, and exactly those who see u were told so. */
  ghost predicate Published<U>(f: Filters, w: World<U>, w': World<U>, u: U, d: Player) {
    && w'.rooms == w.rooms && w'.users == w.users && w'.counter == w.counter
    && w'.data == w.data[u := d] && w'.views.Keys == w.views.Keys
    && forall x :: x in w.data ==> PublishedTo(f, w, w', u, d, x)
  }

  ghost predicate PublishedTo<U>(f: Filters, w: World<U>, w': World<U>, u: U, d: Player, x: U) {
    var v, v' := ViewOf(w, x), ViewOf(w', x);
    && v'.room == v.room && v'.stray == v.stray
    && v'.players == if Visible(f, w, x, u) then v.players[d.cid := LookOf(d)] else v.players
  }

  lemma PublishIsPublished<U>(f: Filters, w: World<U>, u: U, d: Player, p: S2C)
    requires Placed(w) && Agree(f, w) && Present(w, u)
    requires SameIdentity(w.data[u], d) && Conveys(w.data[u], d, p)
    ensures Published(f, w, Publish(f, w, u, d, p), u, d)
  {
    forall x | x in w.data ensures PublishedTo(f, w, Publish(f, w, u, d, p), u, d, x) {
      PublishedView(f, w, u, d, p, x);
    }
  }

  /** Places and visibility depend on identities and rooms only. */
  lemma SamePlaces<U>(f: Filters, w: World<U>, w': World<U>, x: U, v: U)
    requires w'.rooms == w.rooms && w'.data.Keys == w.data.Keys
    requires forall y :: y in w.data ==> SamePlace(w.data[y], w'.data[y])
    ensures Present(w', x) <==> Present(w, x)
    ensures x in w.data && v in w.data ==> (Visible(f, w', x, v) <==> Visible(f, w, x, v))
  {
  }

  ghost predicate SameIdentities<U>(w: World<U>, w': World<U>) {
    w'.data.Keys == w.data.Keys && forall y :: y in w.data ==> SamePlace(w.data[y], w'.data[y])
  }

  lemma PublishedPair<U>(f: Filters, w: World<U>, w': World<U>, u: U, d: Player, x: U, v: U)
    requires DistinctIDs(w) && u in w.data && SamePlace(w.data[u], d)
    requires w'.rooms == w.rooms && w'.data == w.data[u := d] && PublishedTo(f, w, w', u, d, x)
    requires x in w.data && v in w.data && PairOK(f, w, x, v)
    ensures PairOK(f, w', x, v)
  {
    SamePlaces(f, w, w', x, v);
  }

  /** Connection IDs never change, so what was known stays known. */
  lemma StillKnown<U>(w: World<U>, w': World<U>, v: View, v': View, id: int32)
    requires w.data.Keys <= w'.data.Keys && forall y :: y in w.data ==> w'.data[y].cid == w.data[y].cid
    requires OnlyKnown(w, v) && v'.players.Keys <= v.players.Keys + {id} && KnownID(w, id)
    ensures OnlyKnown(w', v')
  {
    forall i | i in v'.players ensures KnownID(w', i) {
      assert KnownID(w, i);
      var y :| y in w.data && w.data[y].cid == i;
      assert w'.data[y].cid == i;
    }
  }

  lemma PublishedKeepsView<U>(f: Filters, w: World<U>, w': World<U>, u: U, d: Player, x: U)
    requires DistinctIDs(w) && u in w.data && SamePlace(w.data[u], d) && x in w.data
    requires w'.rooms == w.rooms && w'.data == w.data[u := d] && PublishedTo(f, w, w', u, d, x)
    requires ViewOK(f, w, x)
    ensures ViewOK(f, w', x)
  {
    forall v | v in w'.data ensures PairOK(f, w', x, v) {
      PublishedPair(f, w, w', u, d, x, v);
    }
    assert w.data[u].cid == d.cid;
    StillKnown(w, w', ViewOf(w, x), ViewOf(w', x), d.cid);
  }

  lemma SameIdentitiesPlaced<U>(w: World<U>, w': World<U>)
    requires Placed(w) && SameIdentities(w, w')
    requires w'.rooms == w.rooms && w'.users == w.users && w'.counter == w.counter && w'.views.Keys == w.views.Keys
    ensures Placed(w')
  {
    forall r, x | r in w.rooms && x in w.rooms[r] ensures At(w', x).roomID == r {
      assert At(w, x).roomID == r;
    }
  }

  lemma PublishedAgrees<U>(f: Filters, w: World<U>, w': World<U>, u: U, d: Player)
    requires DistinctIDs(w) && Agree(f, w) && u in w.data && SamePlace(w.data[u], d) && Published(f, w, w', u, d)
    ensures Agree(f, w')
  {
    forall x | x in w'.data && Present(w', x) ensures ViewOK(f, w', x) {
      SamePlaces(f, w, w', x, x);
      assert ViewOK(f, w, x) && PublishedTo(f, w, w', u, d, x);
      PublishedKeepsView(f, w, w', u, d, x);
    }
  }

  lemma OneStateOK<U>(f: Filters, w: World<U>, w': World<U>, u: U, d: Player)
    requires StatesOK(f, w) && StateOK(f, d) && w'.data == w.data[u := d]
    ensures StatesOK(f, w')
  {
  }

  /** A change that was published keeps all screens right. */
  lemma PublishedKeeps<U>(f: Filters, w: World<U>, w': World<U>, u: U, d: Player)
    requires Placed(w) && ScreensOK(f, w) && u in w.data && SamePlace(w.data[u], d) && Published(f, w, w', u, d)
    ensures ScreensOK(f, w')
  {
    PublishedAgrees(f, w, w', u, d);
    forall x | x in w'.views ensures !w'.views[x].stray {
      assert PublishedTo(f, w, w', u, d, x);
    }
  }

  /** Registration depends on accounts, phases and places only. */
  lemma SameRegistry<U>(w: World<U>, w': World<U>)
    requires Registry(w) && Structured(w) && w'.users == w.users && w'.data.Keys == w.data.Keys
    requires forall x :: x in w.data ==> SameStatus(w, w', x)
    ensures Registry(w')
  {
    forall x | x in w'.data ensures Enrolled(w', x) {
      assert Enrolled(w, x) && SameStatus(w, w', x);
    }
    forall a | a in w'.users ensures AccountOK(w', a) {
      assert AccountOK(w, a) && SameStatus(w, w', w.users[a]);
    }
  }

  ghost predicate SameStatus<U>(w: World<U>, w': World<U>, x: U) {
    var d, d' := At(w, x), At(w', x);
    d'.account == d.account && d'.phase == d.phase && d'.open == d.open && (Present(w', x) <==> Present(w, x))
  }
}
