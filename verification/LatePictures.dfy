/** Queued picture packets hold a pointer to the picture, which a later move
    overwrites before the packet is serialised. One player, one viewer: the viewer
    ends up with the same screen as if every packet had been serialised when it
    was sent. */
module LatePictures {
  import opened Basics
  import opened Packets

  /** A picture on the heap, shared by the player's table and queued packets. */
  class PictureCell {
    var pic: Picture

    constructor (pic: Picture)
      ensures this.pic == pic
    {
      this.pic := pic;
    }
  }

  /** Queued about the player: a connect or disconnect packet starts from nothing. */
  datatype Queued =
    | Forget
    | Show(cell: PictureCell)
    | Move(base: BasePicture)
    | Erase(picID: int32)

  /** What the viewer has on screen for the player, by picture ID. */
  type Screen = map<int32, Picture>

  /** The pictures as they are when the packets are serialised. */
  type Contents = map<PictureCell, Picture>

  predicate Known(q: seq<Queued>, h: Contents) { forall p :: p in q && p.Show? ==> p.cell in h }

  /** Here a one-shot picture stays on screen, so that what the client draws of it is compared
      too. `Views.Update` takes it off the look: a look holds what the server stores of a
      player, and of a one-shot picture it stores nothing. */
  function ShowOn(s: Screen, pic: Picture): Screen { s[pic.base.picID := pic] }

  function MoveOn(s: Screen, base: BasePicture): Screen {
    if base.picID in s then s[base.picID := s[base.picID].(base := base)] else s
  }

  function Deliver(s: Screen, p: Queued, h: Contents): Screen
    requires p.Show? ==> p.cell in h
  {
    match p
    case Forget => map[]
    case Show(cell) => ShowOn(s, h[cell])
    case Move(base) => MoveOn(s, base)
    case Erase(id) => s - {id}
  }

  function DeliverAll(s: Screen, q: seq<Queued>, h: Contents): Screen
    requires Known(q, h)
  {
    if q == [] then s
    else
      assert q[|q| - 1] in q;
      Deliver(DeliverAll(s, q[..|q| - 1], h), q[|q| - 1], h)
  }

  lemma DeliverOne(s: Screen, q: seq<Queued>, p: Queued, h: Contents)
    requires Known(q + [p], h)
    ensures Known(q, h) && (p.Show? ==> p.cell in h)
    ensures DeliverAll(s, q + [p], h) == Deliver(DeliverAll(s, q, h), p, h)
  {
    assert p in q + [p] && (q + [p])[..|q|] == q;
    assert forall x :: x in q ==> x in q + [p];
  }

  /** New cells do not matter to packets queued before. */
  lemma {:induction false} DeliverMore(s: Screen, q: seq<Queued>, h: Contents, h': Contents)
    requires Known(q, h) && h.Keys <= h'.Keys && forall c :: c in h ==> h'[c] == h[c]
    ensures DeliverAll(s, q, h') == DeliverAll(s, q, h)
  {
    if q != [] {
      assert q[|q| - 1] in q;
      DeliverMore(s, q[..|q| - 1], h, h');
    }
  }

  /** The screens differ at most in the base of picture id. */
  ghost predicate SameButBase(s: Screen, s': Screen, id: int32) {
    && s.Keys == s'.Keys
    && forall k :: k in s ==> s'[k] == if k == id then s[k].(base := s'[k].base) else s[k]
  }

  lemma StepIsLocal(s: Screen, s': Screen, p: Queued, h: Contents, c: PictureCell, base: BasePicture)
    requires (p.Show? ==> p.cell in h) && c in h && h[c].base.picID == base.picID
    requires SameButBase(s, s', base.picID)
    ensures SameButBase(Deliver(s, p, h), Deliver(s', p, h[c := h[c].(base := base)]), base.picID)
  {
    match p
    case Forget =>
    case Show(cell) => assert cell != c ==> h[c := h[c].(base := base)][cell] == h[cell];
    case Move(b) =>
    case Erase(_) =>
  }

  /** Overwriting the base of a queued picture changes nothing else on screen. */
  lemma {:induction false} OverwriteIsLocal(s: Screen, q: seq<Queued>, h: Contents, c: PictureCell, base: BasePicture)
    requires Known(q, h) && c in h && h[c].base.picID == base.picID
    ensures SameButBase(DeliverAll(s, q, h), DeliverAll(s, q, h[c := h[c].(base := base)]), base.picID)
  {
    if q != [] {
      var front, p := q[..|q| - 1], q[|q| - 1];
      assert p in q;
      var h' := h[c := h[c].(base := base)];
      OverwriteIsLocal(s, front, h, c, base);
      StepIsLocal(DeliverAll(s, front, h), DeliverAll(s, front, h'), p, h, c, base);
    }
  }

  /** The move packet that follows the overwrite settles the difference. */
  lemma MoveSettles(s: Screen, s': Screen, base: BasePicture)
    requires SameButBase(s, s', base.picID)
    ensures MoveOn(s, base) == MoveOn(s', base)
  {
  }

  lemma OneMoreShown(all: Screen, left: set<int32>, id: int32)
    requires id in left && id in all
    ensures (all - left)[id := all[id]] == all - (left - {id})
  {
  }

  ghost predicate Holds(s: Screen, pics: Screen) { forall id :: id in pics ==> id in s && s[id] == pics[id] }

  class Sharing {
    var active: map<int32, PictureCell>
    var pending: seq<Queued>
    var visible: bool              // whether the viewer is in the player's audience
    var screen: Screen             // made by the flushed packets
    ghost var eager: Screen        // made by packets serialised when sent
    ghost var cells: set<PictureCell>

    ghost function Heap(): Contents
      reads this`cells, cells
    {
      map c | c in cells :: c.pic
    }

    /** The active pictures as they are now. */
    ghost function Pictures(): Screen
      reads this`active, active.Values
    {
      map id | id in active :: active[id].pic
    }

    /** What the viewer ends up with has all active pictures as they are now. It may have
        one-shot pictures besides. */
    ghost predicate UpToDate()
      reads this, active.Values
    {
      visible ==> Holds(eager, Pictures())
    }

    ghost predicate Valid()
      reads this, cells
    {
      && Known(pending, Heap())
      && (forall id :: id in active ==> active[id] in cells && active[id].pic.base.picID == id)
      && (!visible ==> eager == map[])
      && DeliverAll(screen, pending, Heap()) == eager
    }

    constructor ()
      ensures Valid() && screen == eager == map[] && fresh(cells)
    {
      active, pending, visible, screen := map[], [], false, map[];
      eager, cells := map[], {};
    }

    /** Queues a packet if the viewer is in the audience. */
    method Send(p: Queued)
      requires Known(pending, Heap()) && (p.Show? ==> p.cell in cells)
      modifies this`pending, this`eager
      ensures Heap() == old(Heap()) && Known(pending, Heap())
      ensures pending == if visible then old(pending) + [p] else old(pending)
      ensures eager == if visible then Deliver(old(eager), p, Heap()) else old(eager)
      ensures DeliverAll(screen, pending, Heap()) ==
              if visible then Deliver(DeliverAll(screen, old(pending), Heap()), p, Heap())
                else DeliverAll(screen, old(pending), Heap())
    {
      if visible {
        pending := pending + [p];
        eager := Deliver(eager, p, Heap());
        DeliverOne(screen, old(pending), p, Heap());
      }
    }

    /** Deletes an active picture and tells the viewer. */
    method RemovePicture(id: int32)
      requires Valid()
      modifies this`active, this`pending, this`eager
      ensures Valid() && Heap() == old(Heap())
      ensures active == old(active) - {id} && Pictures() == old(Pictures()) - {id}
      ensures eager == old(eager) - {id}
    {
      active := active - {id};
      Send(Erase(id));
    }

    method NewCell(pic: Picture) returns (cell: PictureCell)
      requires Valid()
      modifies this`cells
      ensures Valid() && fresh(cell) && cell.pic == pic && cells == old(cells) + {cell}
    {
      cell := new PictureCell(pic);
      ghost var before := Heap();
      cells := cells + {cell};
      DeliverMore(screen, pending, before, Heap());
    }

    /** Keeps track of a picture unless it is one-shot. */
    method Keep(cell: PictureCell)
      requires Valid() && cell in cells
      modifies this`active
      ensures Valid() && Heap() == old(Heap())
      ensures Pictures() ==
        if cell.pic.playOnce then old(Pictures()) else old(Pictures())[cell.pic.base.picID := cell.pic]
    {
      if !cell.pic.playOnce {
        active := active[cell.pic.base.picID := cell];
      }
    }

    /** Sends a picture that no active one has the ID of, and keeps it unless it is one-shot. */
    method ShowNew(pic: Picture)
      requires Valid() && pic.base.picID !in active
      modifies this`active, this`pending, this`eager, this`cells
      ensures Valid() && fresh(cells - old(cells)) && visible == old(visible)
      ensures Pictures() == if pic.playOnce then old(Pictures()) else old(Pictures())[pic.base.picID := pic]
      ensures eager == if visible then ShowOn(old(eager), pic) else old(eager)
    {
      var cell := NewCell(pic);
      Keep(cell);
      Send(Show(cell));
    }

    method ShowPicture(pic: Picture)
      requires Valid()
      modifies this`active, this`pending, this`eager, this`cells
      ensures Valid() && fresh(cells - old(cells)) && (old(UpToDate()) ==> UpToDate())
      ensures Pictures() ==
        if pic.playOnce then old(Pictures()) - {pic.base.picID} else old(Pictures())[pic.base.picID := pic]
      ensures eager == if visible then old(eager)[pic.base.picID := pic] else old(eager)
    {
      ghost var before := eager;
      ErasePicture(pic.base.picID);
      assert ShowOn(eager, pic) == ShowOn(before, pic);
      ShowNew(pic);
    }

    /** Overwrites the base of a shared picture behind the queue's back. */
    method Overwrite(cell: PictureCell, base: BasePicture)
      requires Valid() && base.picID in active && cell == active[base.picID]
      modifies cell
      ensures Pictures() == MoveOn(old(Pictures()), base)
      ensures forall id :: id in active ==> active[id].pic.base.picID == id
      ensures Known(pending, Heap()) && SameButBase(eager, DeliverAll(screen, pending, Heap()), base.picID)
    {
      ghost var h := Heap();
      OverwriteIsLocal(screen, pending, h, cell, base);
      cell.pic := cell.pic.(base := base);
      assert Heap() == h[cell := h[cell].(base := base)];
    }

    /** Moves an active picture and tells the viewer. */
    method MoveActive(base: BasePicture)
      requires Valid() && base.picID in active
      modifies this`pending, this`eager, active[base.picID]
      ensures Valid() && Pictures() == MoveOn(old(Pictures()), base)
      ensures eager == if visible then MoveOn(old(eager), base) else old(eager)
    {
      Overwrite(active[base.picID], base);
      MoveSettles(eager, DeliverAll(screen, pending, Heap()), base);
      Send(Move(base));
    }

    method MovePicture(base: BasePicture)
      requires Valid()
      modifies this`pending, this`eager, active.Values
      ensures Valid() && (old(UpToDate()) ==> UpToDate())
      ensures Pictures() == MoveOn(old(Pictures()), base)
      ensures eager == if base.picID in active && visible then MoveOn(old(eager), base) else old(eager)
    {
      if base.picID in active {
        MoveActive(base);
      }
    }

    method ErasePicture(id: int32)
      requires Valid()
      modifies this`active, this`pending, this`eager
      ensures Valid() && (old(UpToDate()) ==> UpToDate())
      ensures active == old(active) - {id} && Pictures() == old(Pictures()) - {id}
      ensures eager == if id in old(active) then old(eager) - {id} else old(eager)
    {
      if id !in active {
        return;
      }
      RemovePicture(id);
    }

    /** The viewer leaves the audience: the last packet it gets is a disconnect. */
    method Hide()
      requires Valid()
      modifies this`visible, this`pending, this`eager
      ensures Valid() && !visible && eager == map[]
    {
      Send(Forget);
      visible := false;
    }

    method ShowActive(id: int32)
      requires Valid() && visible && id in active
      modifies this`pending, this`eager
      ensures Valid() && eager == old(eager)[id := active[id].pic]
    {
      Send(Show(active[id]));
    }

    /** The viewer enters the audience with a connect packet. */
    method StartOver()
      requires Valid()
      modifies this`visible, this`pending, this`eager
      ensures Valid() && visible && eager == map[]
    {
      visible := true;
      Send(Forget);
    }

    /** The viewer is introduced: a connect packet and every active picture, in any order. */
    method Introduce()
      requires Valid()
      modifies this`visible, this`pending, this`eager
      ensures Valid() && visible && UpToDate() && eager == Pictures()
    {
      StartOver();
      ghost var all := map id | id in active :: active[id].pic;
      var left := active.Keys;
      while left != {}
        invariant left <= active.Keys && visible && Valid() && eager == all - left
        modifies this`pending, this`eager
        decreases left
      {
        var id :| id in left;
        OneMoreShown(all, left, id);
        ShowActive(id);
        left := left - {id};
      }
      assert all - left == all;
    }

    /** The batch is serialised with the pictures as they are now. */
    method Flush()
      requires Valid()
      modifies this
      ensures Valid() && cells == old(cells) && active == old(active) && visible == old(visible)
      ensures pending == [] && screen == eager == old(eager) && Pictures() == old(Pictures())
      ensures old(UpToDate()) && visible ==> Holds(screen, Pictures())
    {
      var shown := screen;
      for i := 0 to |pending|
        modifies {}
        invariant Known(pending[..i], Heap()) && shown == DeliverAll(screen, pending[..i], Heap())
      {
        var p := pending[i];
        assert p in pending && pending[..i + 1] == pending[..i] + [p];
        DeliverOne(screen, pending[..i], p, Heap());
        match p {
          case Forget => shown := map[];
          case Show(cell) => shown := ShowOn(shown, cell.pic);
          case Move(base) => shown := MoveOn(shown, base);
          case Erase(id) => shown := shown - {id};
        }
      }
      assert pending[..|pending|] == pending;
      screen, pending := shown, [];
    }
  }
}
