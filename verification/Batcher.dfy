/** The send loop of a connection: messages from the outbox are gathered into
    batches that a timer flushes. One iteration handles one event, and each event
    carries the time at which the loop read the clock. */
module Batcher {
  import opened Basics

  // Nanoseconds
  const SECOND := 1_000_000_000
  const SEND_MAX_INTERVAL := SECOND / 10
  const SEND_DELAY := SECOND / 20

  /** What the select statement picked: the outbox, its closing, or the timer. */
  datatype Event<T> = Receive(at: int, msgs: seq<T>) | Closed(at: int) | Timer(at: int)

  datatype Batch<T> = Batch(at: int, msgs: seq<T>)

  datatype State<T> = State(pending: seq<T>, endMax: int, endC: Option<int>, sent: seq<Batch<T>>, done: bool)

  function Step<T>(s: State<T>, e: Event<T>): State<T> {
    match e
    case Closed(_) => s.(done := true)
    case Timer(at) => s.(sent := s.sent + [Batch(at, s.pending)], pending := [], endC := None)
    case Receive(at, msgs) =>
      var endMax := if s.endC.None? then at + SEND_MAX_INTERVAL else s.endMax;
      var endC := if endMax - at >= SEND_DELAY then Some(at + SEND_DELAY) else s.endC;
      s.(pending := s.pending + msgs, endMax := endMax, endC := endC)
  }

  function Run<T>(events: seq<Event<T>>): State<T> {
    if events == [] then State([], 0, None, [], false)
    else Step(Run(events[..|events| - 1]), events[|events| - 1])
  }

  /** The runs that can happen: time does not go back, nothing happens after the
      outbox closed, and a timer is delivered at or after its deadline. */
  predicate Admissible<T>(events: seq<Event<T>>) {
    events == [] ||
    var before, e := events[..|events| - 1], events[|events| - 1];
    && Admissible(before)
    && !Run(before).done
    && (before != [] ==> before[|before| - 1].at <= e.at)
    && (e.Timer? ==> Run(before).endC.Some? && Run(before).endC.value <= e.at)
  }

  /** Timers are delivered before anything that happens after their deadline. */
  predicate Prompt<T>(events: seq<Event<T>>) {
    events == [] ||
    var before, e := events[..|events| - 1], events[|events| - 1];
    Prompt(before) && (Run(before).endC.Some? ==> e.at <= Run(before).endC.value)
  }

  // ---------- What the events say, without the loop's variables ----------

  /** All that came out of the outbox, in order. */
  function Received<T>(events: seq<Event<T>>): seq<T> {
    if events == [] then []
    else
      var e := events[|events| - 1];
      Received(events[..|events| - 1]) + if e.Receive? then e.msgs else []
  }

  function Flushed<T>(sent: seq<Batch<T>>): seq<T> {
    if sent == [] then [] else Flushed(sent[..|sent| - 1]) + sent[|sent| - 1].msgs
  }

  /** Index of the first event after the last flush. */
  function BatchFrom<T>(events: seq<Event<T>>): (k: nat)
    ensures k <= |events|
  {
    if events == [] then 0
    else if events[|events| - 1].Timer? then |events|
    else BatchFrom(events[..|events| - 1])
  }

  /** The time at which the current batch got its first item, if it has one. */
  function BatchStart<T>(events: seq<Event<T>>): Option<int> {
    if events == [] then None
    else
      var before, e := BatchStart(events[..|events| - 1]), events[|events| - 1];
      match e
      case Timer(_) => None
      case Closed(_) => before
      case Receive(at, _) => if before.Some? then before else Some(at)
  }

  // ---------- The loop ----------

  method SendLoop<T>(events: seq<Event<T>>) returns (sent: seq<Batch<T>>, pending: seq<T>)
    requires Admissible(events)
    ensures sent == Run(events).sent && pending == Run(events).pending
  {
    sent, pending := [], [];
    var endMax := 0;
    var endC: Option<int> := None;
    for i := 0 to |events|
      invariant Run(events[..i]) == State(pending, endMax, endC, sent, false)
      invariant Admissible(events[..i])
    {
      var e := events[i];
      AdmissiblePrefix(events, i + 1);
      assert events[..i + 1][..i] == events[..i] && events[..i + 1][i] == e;
      match e {
        case Closed(_) =>
          ClosedIsLast(events, i);
          return;
        case Receive(at, msgs) =>
          if endC.None? {
            endMax := at + SEND_MAX_INTERVAL;
          }
          var timeLeft := endMax - at;
          if timeLeft >= SEND_DELAY {
            endC := Some(at + SEND_DELAY);
          }
          pending := pending + msgs;
        case Timer(at) =>
          sent := sent + [Batch(at, pending)];
          pending := [];
          endC := None;
      }
    }
    assert events[..|events|] == events;
  }

  lemma {:induction false} AdmissiblePrefix<T>(events: seq<Event<T>>, i: nat)
    requires Admissible(events) && i <= |events|
    ensures Admissible(events[..i])
    decreases |events|
  {
    if i < |events| {
      AdmissiblePrefix(events[..|events| - 1], i);
      assert events[..|events| - 1][..i] == events[..i];
    } else {
      assert events[..i] == events;
    }
  }

  lemma {:induction false} ClosedIsLast<T>(events: seq<Event<T>>, i: nat)
    requires Admissible(events) && i < |events| && events[i].Closed?
    ensures i == |events| - 1
    ensures Run(events) == Run(events[..i]).(done := true)
    decreases |events|
  {
    if i < |events| - 1 {
      ClosedIsLast(events[..|events| - 1], i);
      assert false;
    }
  }

  // ---------- Conservation and order ----------

  /** Nothing is lost, duplicated or reordered: the flushed batches followed by the
      pending buffer are what was received, and closing drops exactly the buffer. */
  lemma {:induction false} Conservation<T>(events: seq<Event<T>>)
    ensures Flushed(Run(events).sent) + Run(events).pending == Received(events)
  {
    if events != [] {
      var before, e := events[..|events| - 1], events[|events| - 1];
      Conservation(before);
      var s := Run(before);
      match e
      case Timer(at) =>
        assert (s.sent + [Batch(at, s.pending)])[..|s.sent|] == s.sent;
      case Receive(_, msgs) =>
        assert Flushed(s.sent) + (s.pending + msgs) == Flushed(s.sent) + s.pending + msgs;
      case Closed(_) =>
    }
  }

  // ---------- Deadlines ----------

  /** However many items arrive, the deadline stays between 50 and 100 milliseconds after
      the first item of the batch. */
  lemma {:induction false} DeadlineWindow<T>(events: seq<Event<T>>)
    requires Admissible(events)
    ensures Run(events).endC.Some? <==> BatchStart(events).Some?
    ensures BatchStart(events).Some? ==>
      var start := BatchStart(events).value;
      && Run(events).endMax == start + 100_000_000
      && start + 50_000_000 <= Run(events).endC.value <= start + 100_000_000
    ensures BatchStart(events).None? ==> Run(events).pending == []
    ensures BatchStart(events).Some? ==> events[|events| - 1].at >= BatchStart(events).value
  {
    if events != [] {
      DeadlineWindow(events[..|events| - 1]);
    }
  }

  /** Event k is the last of its batch that came within 50 milliseconds of the first. */
  ghost predicate LastExtension<T>(events: seq<Event<T>>, k: nat)
    requires BatchStart(events).Some?
  {
    var latest := BatchStart(events).value + 50_000_000;
    && BatchFrom(events) <= k < |events|
    && events[k].Receive? && events[k].at <= latest
    && forall j :: k < j < |events| && events[j].Receive? ==> events[j].at > latest
  }

  /** The deadline is 50 milliseconds after the last item that came in time to extend it. */
  lemma {:induction false} DeadlineIsLastExtension<T>(events: seq<Event<T>>) returns (k: nat)
    requires Admissible(events) && BatchStart(events).Some?
    ensures LastExtension(events, k)
    ensures Run(events).endC == Some(events[k].at + 50_000_000)
  {
    var n := |events| - 1;
    var before, e := events[..n], events[n];
    DeadlineWindow(before);
    if e.Receive? && e.at <= BatchStart(events).value + SEND_MAX_INTERVAL - SEND_DELAY {
      k := n;
    } else {
      k := DeadlineIsLastExtension(before);
      assert forall j :: 0 <= j < n ==> events[j] == before[j];
    }
  }

  /** With prompt timers every item waits at most 100 milliseconds, and the flush comes at
      least 50 after the first item. */
  lemma FlushLatency<T>(events: seq<Event<T>>, at: int)
    requires Admissible(events + [Timer(at)]) && Prompt(events + [Timer(at)])
    ensures BatchStart(events).Some?
    ensures BatchStart(events).value + 50_000_000 <= at <= BatchStart(events).value + 100_000_000
    ensures forall k :: BatchFrom(events) <= k < |events| && events[k].Receive? ==>
      at - events[k].at <= 100_000_000
  {
    assert (events + [Timer(at)])[..|events|] == events;
    DeadlineWindow(events);
    BatchItemsFromStart(events);
  }

  lemma {:induction false} BatchItemsFromStart<T>(events: seq<Event<T>>)
    requires Admissible(events)
    ensures forall k :: BatchFrom(events) <= k < |events| && events[k].Receive? ==>
      BatchStart(events).Some? && BatchStart(events).value <= events[k].at
  {
    if events != [] {
      var before := events[..|events| - 1];
      BatchItemsFromStart(before);
      DeadlineWindow(before);
      assert forall k :: 0 <= k < |before| ==> before[k] == events[k];
    }
  }

  // ---------- Spacing ----------

  /** Flushes are SEND_DELAY apart, and nothing the loop still holds was queued before the
      last flush. */
  lemma {:induction false} Spaced<T>(events: seq<Event<T>>)
    requires Admissible(events)
    ensures var sent := Run(events).sent;
      && (forall i :: 0 < i < |sent| ==> sent[i].at - sent[i - 1].at >= SEND_DELAY)
      && (|sent| > 0 ==> sent[|sent| - 1].at <= events[|events| - 1].at)
      && (|sent| > 0 && BatchStart(events).Some? ==> sent[|sent| - 1].at <= BatchStart(events).value)
  {
    if events != [] {
      var before := events[..|events| - 1];
      Spaced(before);
      DeadlineWindow(before);
    }
  }

  /** Flushes are 50 milliseconds apart even when timers are delivered late. */
  lemma Spacing<T>(events: seq<Event<T>>, i: nat)
    requires Admissible(events) && 0 < i < |Run(events).sent|
    ensures Run(events).sent[i].at - Run(events).sent[i - 1].at >= 50_000_000
  {
    Spaced(events);
  }

  /** Flushes with lo <= at <= hi. */
  function CountIn<T>(sent: seq<Batch<T>>, lo: int, hi: int): nat {
    if sent == [] then 0
    else
      var last := sent[|sent| - 1].at;
      CountIn(sent[..|sent| - 1], lo, hi) + if lo <= last <= hi then 1 else 0
  }

  /** At most W / 50 + 1 flushes happen in any window of W milliseconds. */
  lemma RateBound<T>(events: seq<Event<T>>, lo: int, width: nat)
    requires Admissible(events)
    ensures CountIn(Run(events).sent, lo, lo + width) <= width / 50_000_000 + 1
  {
    Spaced(events);
    var sent := Run(events).sent;
    var n := CountIn(sent, lo, lo + width);
    CountSpaced(sent, lo, lo + width);
    Quotient(n, width);
  }

  lemma Quotient(n: nat, width: nat)
    requires n * SEND_DELAY <= width + SEND_DELAY
    ensures n <= width / SEND_DELAY + 1
  {
  }

  lemma OneMoreDelay(n: nat)
    ensures (n + 1) * SEND_DELAY == n * SEND_DELAY + SEND_DELAY && 0 * SEND_DELAY == 0
  {
  }

  lemma {:induction false} CountSpaced<T>(sent: seq<Batch<T>>, lo: int, hi: int)
    requires lo <= hi
    requires forall i :: 0 < i < |sent| ==> sent[i].at - sent[i - 1].at >= SEND_DELAY
    ensures CountIn(sent, lo, hi) * SEND_DELAY <= hi - lo + SEND_DELAY
    ensures |sent| > 0 && lo <= sent[|sent| - 1].at ==>
      CountIn(sent, lo, hi) * SEND_DELAY <= sent[|sent| - 1].at - lo + SEND_DELAY
    ensures |sent| > 0 && sent[|sent| - 1].at < lo ==> CountIn(sent, lo, hi) == 0
  {
    OneMoreDelay(0);
    if |sent| > 0 {
      var front, last := sent[..|sent| - 1], sent[|sent| - 1].at;
      CountSpaced(front, lo, hi);
      var n := CountIn(front, lo, hi);
      OneMoreDelay(n);
      assert CountIn(sent, lo, hi) == if lo <= last <= hi then n + 1 else n;
      if |front| > 0 {
        assert front[|front| - 1] == sent[|sent| - 2];
        assert sent[|sent| - 2].at + SEND_DELAY <= last;
      } else {
        assert n == 0;
      }
    }
  }
}
