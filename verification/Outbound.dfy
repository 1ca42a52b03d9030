/** What a client can read of what the send loop flushes. */
module Outbound {
  import opened Basics
  import opened Packets
  import opened Messages
  import opened Batcher
  import Codec
  import Wire

  /** Queued since the last flush. */
  ghost predicate Queued(events: seq<Event<S2C>>, p: S2C) {
    exists k :: BatchFrom(events) <= k < |events| && events[k].Receive? && p in events[k].msgs
  }

  /** The buffer holds exactly what was queued since the last flush. */
  lemma {:induction false} PendingIsQueued(events: seq<Event<S2C>>, p: S2C)
    ensures p in Run(events).pending <==> Queued(events, p)
  {
    if events != [] {
      var before, e := events[..|events| - 1], events[|events| - 1];
      PendingIsQueued(before, p);
      if Queued(before, p) && !e.Timer? {
        var k :| BatchFrom(before) <= k < |before| && before[k].Receive? && p in before[k].msgs;
        assert events[k] == before[k];
      }
      if Queued(events, p) {
        var k :| BatchFrom(events) <= k < |events| && events[k].Receive? && p in events[k].msgs;
        assert k < |before| ==> before[k] == events[k];
      }
    }
  }

  ghost predicate ReadsBack(ps: seq<S2C>) {
    Codec.ReadMessages(S2C_REGISTRY, Codec.PrintMessages(Wire.S2CMsgs(ps))) == Ok(Wire.S2CMsgs(ps))
  }

  /** Nothing reads back if nothing was flushed. */
  lemma NothingReadsBack()
    ensures !ReadsBack([])
  {
    Codec.NoMessagesDoNotRoundTrip(S2C_REGISTRY);
    assert Wire.S2CMsgs([]) == [];
  }

  /** Something was queued since the last flush, and all of it can be sent. */
  ghost predicate Readable(events: seq<Event<S2C>>) {
    && (exists k :: BatchFrom(events) <= k < |events| && events[k].Receive? && events[k].msgs != [])
    && (forall k, p :: BatchFrom(events) <= k < |events| && events[k].Receive? && p in events[k].msgs ==> CleanS2C(p))
  }

  lemma ReadableIs(events: seq<Event<S2C>>)
    ensures Readable(events) <==> Run(events).pending != [] && forall p :: p in Run(events).pending ==> CleanS2C(p)
  {
    var pending := Run(events).pending;
    forall p ensures p in pending <==> Queued(events, p) {
      PendingIsQueued(events, p);
    }
    if pending != [] {
      assert Queued(events, pending[0]);
    }
    forall k, p | BatchFrom(events) <= k < |events| && events[k].Receive? && p in events[k].msgs ensures p in pending {
      assert Queued(events, p);
    }
    if k :| BatchFrom(events) <= k < |events| && events[k].Receive? && events[k].msgs != [] {
      assert events[k].msgs[0] in pending;
    }
  }

  /** What a timer flushes reads back exactly if some list queued since the last flush
      was not empty, and every message in them is clean. */
  lemma FlushReadsBack(events: seq<Event<S2C>>, at: int)
    ensures var sent := Run(events + [Timer(at)]).sent;
      |sent| == |Run(events).sent| + 1 && (ReadsBack(sent[|sent| - 1].msgs) <==> Readable(events))
  {
    assert (events + [Timer(at)])[..|events|] == events;
    var pending := Run(events).pending;
    ReadableIs(events);
    if pending == [] {
      NothingReadsBack();
    } else {
      Wire.BatchRoundTrip(pending);
    }
  }

  /** A newcomer who meets nobody queues an empty list; alone in its batch, it is flushed
      as a frame without bytes, which is misread. */
  lemma EmptyFlush()
    ensures var events: seq<Event<S2C>> := [Receive(0, []), Timer(SEND_DELAY)];
      && Admissible(events) && Prompt(events) && Run(events).sent == [Batch(SEND_DELAY, [])]
      && !ReadsBack(Run(events).sent[0].msgs)
  {
    var first: seq<Event<S2C>> := [Receive(0, [])];
    var events := first + [Timer(SEND_DELAY)];
    assert first[..0] == [] && events[..1] == first && events == [Receive(0, []), Timer(SEND_DELAY)];
    assert Run(first).sent == [] && Run(first).pending == [];
    assert Run(events) == Step(Run(first), Timer(SEND_DELAY));
    NothingReadsBack();
  }
}
