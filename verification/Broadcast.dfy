/**
 `EventQueue` and `broadcast_recv_next` (ra2a/src/server/event.rs, ra2a/src/server/handler/default.rs):
 a bounded broadcast channel as a log with one cursor per receiver. A slow receiver loses events,
 but each loss is reported.
 */
module Broadcast {
  import opened Arithmetic
  import opened Wrappers
  import opened Types

  /** One item of a receiver's stream: an event, or the number of events it was too slow for. */
  datatype Observation = Delivered(event: Event) | Missed(count: nat) {
    function Width(): nat { if Missed? then count else 1 }
  }

  /** A receiver subscribed at log position `start`; `seen` is everything its stream has yielded. */
  datatype Receiver = Receiver(start: nat, cursor: nat, seen: seq<Observation>)

  datatype Channel = Channel(capacity: nat, log: seq<Event>, receivers: map<nat, Receiver>)

  datatype Step = Send(event: Event) | Subscribe(id: nat) | Recv(id: nat) | Unsubscribe(id: nat)

  /** The channel rounds its capacity up to a power of two. */
  function PowerOfTwoFrom(p: nat, n: nat): (r: nat)
    requires IsPowerOfTwo(p)
    ensures IsPowerOfTwo(r) && n <= r && (r == p || r < 2 * n)
    decreases n - p
  {
    if n <= p then p
    else
      DoubleIsPowerOfTwo(p);
      PowerOfTwoFrom(2 * p, n)
  }

  /** What the receiver gets next, if its channel holds anything for it. */
  function Pull(capacity: nat, log: seq<Event>, cursor: nat): Option<Observation> {
    if cursor >= |log| then None
    else if |log| - cursor > capacity then Some(Missed(|log| - capacity - cursor))
    else Some(Delivered(log[cursor]))
  }

  function Advance(r: Receiver, o: Observation): Receiver {
    Receiver(r.start, r.cursor + o.Width(), r.seen + [o])
  }

  function Next(c: Channel, step: Step): Channel {
    match step
    case Send(e) => if c.receivers == map[] then c else c.(log := c.log + [e])
    case Subscribe(id) =>
      if id in c.receivers then c
      else c.(receivers := c.receivers[id := Receiver(|c.log|, |c.log|, [])])
    case Recv(id) =>
      if id !in c.receivers then c
      else
        var r := c.receivers[id];
        (match Pull(c.capacity, c.log, r.cursor)
         case None => c
         case Some(o) =>
           c.(receivers := c.receivers[id := Advance(r, o)]))
    case Unsubscribe(id) => c.(receivers := c.receivers - {id})
  }

  function Run(c: Channel, steps: seq<Step>): Channel
    decreases steps
  {
    if steps == [] then c else Run(Next(c, steps[0]), steps[1..])
  }

  // ---- The queue ---------------------------------------------------------------------------

  class EventQueue {
    var channel: Channel

    /** A zero capacity is a panic in the channel constructor. */
    constructor (capacity: nat)
      requires capacity > 0
      ensures channel.log == [] && channel.receivers == map[]
      ensures capacity <= channel.capacity < 2 * capacity && IsPowerOfTwo(channel.capacity)
    {
      channel := Channel(PowerOfTwoFrom(1, capacity), [], map[]);
    }

    /** With a subscriber the event is the log's last one, and no receiver moves; without, nothing changes. */
    method Send(e: Event) returns (ok: bool)
      modifies this
      ensures ok <==> old(channel).receivers != map[]
      ensures ok ==> channel.log == old(channel).log + [e] && channel.receivers == old(channel).receivers
      ensures ok ==> channel.capacity == old(channel).capacity
      ensures !ok ==> channel == old(channel)
      ensures channel == Next(old(channel), Step.Send(e))
    {
      ok := channel.receivers != map[];
      if ok {
        channel := channel.(log := channel.log + [e]);
      }
    }

    method Subscribe(id: nat)
      requires id !in channel.receivers
      modifies this
      ensures channel == Next(old(channel), Step.Subscribe(id))
      ensures channel.receivers[id].start == |channel.log|
    {
      var tail := |channel.log|;
      channel := channel.(receivers := channel.receivers[id := Receiver(tail, tail, [])]);
    }

    /** `broadcast_recv_next`: None means that the receiver waits, or that the stream ends once closed. */
    method RecvNext(id: nat) returns (item: Option<Observation>)
      requires id in channel.receivers
      modifies this
      ensures channel == Next(old(channel), Recv(id))
      ensures item == Pull(old(channel).capacity, old(channel).log, old(channel).receivers[id].cursor)
    {
      var r := channel.receivers[id];
      var backlog := |channel.log| - r.cursor;
      if backlog <= 0 {
        return None;
      }
      var observed: Observation;
      if backlog > channel.capacity {
        observed := Missed(backlog - channel.capacity);
      } else {
        observed := Delivered(channel.log[r.cursor]);
      }
      channel := channel.(receivers := channel.receivers[id := Advance(r, observed)]);
      item := Some(observed);
    }
  }

  // ---- What was sent -----------------------------------------------------------------------

  /** The events sent since receiver `id` subscribed, if it is subscribed; read off the steps alone. */
  function SentTo(steps: seq<Step>, id: nat): Option<seq<Event>> {
    if steps == [] then None
    else
      var before := SentTo(steps[..|steps| - 1], id);
      match steps[|steps| - 1]
      case Send(e) => if before.Some? then Some(before.value + [e]) else None
      case Subscribe(r) => if r == id && before.None? then Some([]) else before
      case Unsubscribe(r) => if r == id then None else before
      case Recv(_) => before
  }

  lemma {:induction false} RunLast(c: Channel, steps: seq<Step>)
    requires steps != []
    ensures Run(c, steps) == Next(Run(c, steps[..|steps| - 1]), steps[|steps| - 1])
    decreases steps
  {
    if |steps| > 1 {
      RunLast(Next(c, steps[0]), steps[1..]);
      assert steps[1..][..|steps| - 2] == steps[..|steps| - 1][1..];
    }
  }

  /** The log from the subscription on is what was sent since: every event, in order, and nothing else. */
  lemma {:induction false} LogIsWhatWasSent(capacity: nat, steps: seq<Step>, id: nat)
    ensures var c := Run(Channel(capacity, [], map[]), steps);
            && c.capacity == capacity
            && (id in c.receivers <==> SentTo(steps, id).Some?)
            && (id in c.receivers ==>
                  c.receivers[id].start <= |c.log| && c.log[c.receivers[id].start..] == SentTo(steps, id).value)
    decreases |steps|
  {
    if steps != [] {
      LogIsWhatWasSent(capacity, steps[..|steps| - 1], id);
      RunLast(Channel(capacity, [], map[]), steps);
    }
  }

  // ---- Conservation ------------------------------------------------------------------------

  /** Log position reached after the given observations. */
  function Position(start: nat, seen: seq<Observation>): nat {
    if seen == [] then start else Position(start, seen[..|seen| - 1]) + seen[|seen| - 1].Width()
  }

  /** Every delivered item is the log's event at the position its predecessors lead to. */
  ghost predicate Faithful(log: seq<Event>, start: nat, seen: seq<Observation>) {
    forall i :: 0 <= i < |seen| ==>
      && seen[i].Width() > 0
      && (seen[i].Delivered? ==>
            Position(start, seen[..i]) < |log| && log[Position(start, seen[..i])] == seen[i].event)
  }

  ghost predicate Sound(c: Channel, r: Receiver) {
    && r.start <= r.cursor <= |c.log|
    && r.cursor == Position(r.start, r.seen)
    && Faithful(c.log, r.start, r.seen)
  }

  ghost predicate Invariant(c: Channel) {
    forall id :: id in c.receivers ==> Sound(c, c.receivers[id])
  }

  lemma SeenMore(log: seq<Event>, r: Receiver, o: Observation)
    requires Faithful(log, r.start, r.seen) && r.cursor == Position(r.start, r.seen)
    requires o.Width() > 0 && (o.Delivered? ==> r.cursor < |log| && log[r.cursor] == o.event)
    ensures Faithful(log, r.start, r.seen + [o])
    ensures Position(r.start, r.seen + [o]) == r.cursor + o.Width()
  {
    var longer := r.seen + [o];
    assert longer[..|longer| - 1] == r.seen;
    forall i | 0 <= i < |longer| ensures longer[..i] == if i < |r.seen| then r.seen[..i] else r.seen {}
  }

  /** What a receiver has seen stays true of a longer log. */
  lemma LongerLogKeeps(c: Channel, d: Channel)
    requires Invariant(c) && c.log <= d.log
    ensures forall id :: id in c.receivers ==> Sound(d, c.receivers[id])
  {}

  lemma PullIsSound(c: Channel, r: Receiver, o: Observation)
    requires Sound(c, r) && Pull(c.capacity, c.log, r.cursor) == Some(o)
    ensures Sound(c, Advance(r, o))
  {
    SeenMore(c.log, r, o);
  }

  lemma UpdateKeeps(c: Channel, id: nat, r: Receiver)
    requires Invariant(c) && Sound(c, r)
    ensures Invariant(c.(receivers := c.receivers[id := r]))
  {
    LongerLogKeeps(c, c.(receivers := c.receivers[id := r]));
    assert Sound(c.(receivers := c.receivers[id := r]), r);
  }

  lemma ReceiveKeeps(c: Channel, id: nat)
    requires Invariant(c) && id in c.receivers
    ensures Invariant(Next(c, Recv(id)))
  {
    var r := c.receivers[id];
    var o := Pull(c.capacity, c.log, r.cursor);
    if o.Some? {
      PullIsSound(c, r, o.value);
      UpdateKeeps(c, id, Advance(r, o.value));
    }
  }

  lemma StepKeeps(c: Channel, step: Step)
    requires Invariant(c)
    ensures Invariant(Next(c, step))
  {
    if step.Recv? {
      if step.id in c.receivers { ReceiveKeeps(c, step.id); }
    } else {
      LongerLogKeeps(c, Next(c, step));
    }
  }

  /** Every receiver of every run, whatever the senders and the other receivers do. */
  lemma {:induction false} EveryReceiverIsSound(c: Channel, steps: seq<Step>)
    requires Invariant(c)
    ensures Invariant(Run(c, steps))
    decreases steps
  {
    if steps != [] {
      StepKeeps(c, steps[0]);
      EveryReceiverIsSound(Next(c, steps[0]), steps[1..]);
    }
  }

  function DeliveredCount(seen: seq<Observation>): nat {
    if seen == [] then 0
    else DeliveredCount(seen[..|seen| - 1]) + if seen[|seen| - 1].Delivered? then 1 else 0
  }

  function MissedTotal(seen: seq<Observation>): nat {
    if seen == [] then 0
    else MissedTotal(seen[..|seen| - 1]) + if seen[|seen| - 1].Missed? then seen[|seen| - 1].count else 0
  }

  lemma {:induction false} PositionCounts(start: nat, seen: seq<Observation>)
    ensures Position(start, seen) == start + DeliveredCount(seen) + MissedTotal(seen)
  {
    if seen != [] { PositionCounts(start, seen[..|seen| - 1]); }
  }

  /**
   No event is lost silently: of the events sent since the subscription, as many are delivered or
   reported as lost as the receiver is past; it waits only when that is all of them.
   */
  lemma NothingLostSilently(capacity: nat, steps: seq<Step>, id: nat)
    requires SentTo(steps, id).Some?
    ensures var c, sent := Run(Channel(capacity, [], map[]), steps), SentTo(steps, id).value;
            && id in c.receivers
            && var r := c.receivers[id];
               && DeliveredCount(r.seen) + MissedTotal(r.seen) == r.cursor - r.start <= |sent|
               && (Next(c, Recv(id)) == c <==> DeliveredCount(r.seen) + MissedTotal(r.seen) == |sent|)
  {
    EveryReceiverIsSound(Channel(capacity, [], map[]), steps);
    LogIsWhatWasSent(capacity, steps, id);
    var c := Run(Channel(capacity, [], map[]), steps);
    var r := c.receivers[id];
    assert Sound(c, r);
    PositionCounts(r.start, r.seen);
    if r.cursor < |c.log| { assert Next(c, Recv(id)).receivers[id].seen != r.seen; }
  }

  lemma {:induction false} PositionsIncrease(start: nat, seen: seq<Observation>, i: nat, j: nat)
    requires i < j <= |seen| && forall k :: 0 <= k < |seen| ==> seen[k].Width() > 0
    ensures Position(start, seen[..i]) < Position(start, seen[..j])
    decreases j
  {
    assert seen[..j][..j - 1] == seen[..j - 1];
    if i < j - 1 { PositionsIncrease(start, seen, i, j - 1); }
  }

  /** How far the first i items of a stream lead: deliveries and losses. */
  function Passed(seen: seq<Observation>, i: nat): nat
    requires i <= |seen|
  {
    DeliveredCount(seen[..i]) + MissedTotal(seen[..i])
  }

  lemma DeliveredAt(c: Channel, r: Receiver, i: nat)
    requires Sound(c, r) && i < |r.seen| && r.seen[i].Delivered?
    ensures Position(r.start, r.seen[..i]) == r.start + Passed(r.seen, i)
    ensures Passed(r.seen, i) < |c.log[r.start..]| && c.log[r.start..][Passed(r.seen, i)] == r.seen[i].event
  {
    PositionCounts(r.start, r.seen[..i]);
  }

  /**
   Delivered items are events sent since the subscription, each at the place the deliveries and losses
   before it lead to, and later items at later places: in order, without duplicates.
   */
  lemma DeliveredInOrder(capacity: nat, steps: seq<Step>, id: nat, i: nat, j: nat)
    requires id in Run(Channel(capacity, [], map[]), steps).receivers
    requires i < j < |Run(Channel(capacity, [], map[]), steps).receivers[id].seen|
    requires Run(Channel(capacity, [], map[]), steps).receivers[id].seen[i].Delivered?
    requires Run(Channel(capacity, [], map[]), steps).receivers[id].seen[j].Delivered?
    ensures var seen, sent := Run(Channel(capacity, [], map[]), steps).receivers[id].seen, SentTo(steps, id);
            && sent.Some? && Passed(seen, i) < Passed(seen, j) < |sent.value|
            && sent.value[Passed(seen, i)] == seen[i].event && sent.value[Passed(seen, j)] == seen[j].event
  {
    EveryReceiverIsSound(Channel(capacity, [], map[]), steps);
    LogIsWhatWasSent(capacity, steps, id);
    var c := Run(Channel(capacity, [], map[]), steps);
    var r := c.receivers[id];
    DeliveredAt(c, r, i);
    DeliveredAt(c, r, j);
    PositionsIncrease(r.start, r.seen, i, j);
  }

  function Events(seen: seq<Observation>): seq<Event> {
    if seen == [] then []
    else
      Events(seen[..|seen| - 1]) + match seen[|seen| - 1] case Delivered(e) => [e] case Missed(_) => []
  }

  lemma FaithfulPrefix(log: seq<Event>, start: nat, seen: seq<Observation>)
    requires Faithful(log, start, seen) && seen != []
    ensures var init, last := seen[..|seen| - 1], seen[|seen| - 1];
            && Faithful(log, start, init)
            && (last.Delivered? ==> Position(start, init) < |log| && log[Position(start, init)] == last.event)
  {
    var init := seen[..|seen| - 1];
    forall i | 0 <= i < |init| ensures init[..i] == seen[..i] {}
  }

  lemma {:induction false} FaithfulWithoutLoss(log: seq<Event>, start: nat, seen: seq<Observation>)
    requires Faithful(log, start, seen) && start <= |log|
    requires forall i :: 0 <= i < |seen| ==> seen[i].Delivered?
    ensures start <= Position(start, seen) <= |log| && Events(seen) == log[start..Position(start, seen)]
  {
    if seen != [] {
      var init, last := seen[..|seen| - 1], seen[|seen| - 1];
      FaithfulPrefix(log, start, seen);
      FaithfulWithoutLoss(log, start, init);
      var p := Position(start, init);
      assert Position(start, seen) == p + 1 && Events(seen) == Events(init) + [last.event];
      assert log[start..p + 1] == log[start..p] + [log[p]];
    }
  }

  /**
   A stream that reported no loss has delivered exactly the first of the events sent since it was
   subscribed, all of them once it waits.
   */
  lemma WithoutLossComplete(capacity: nat, steps: seq<Step>, id: nat)
    requires SentTo(steps, id).Some? && id in Run(Channel(capacity, [], map[]), steps).receivers
    requires var r := Run(Channel(capacity, [], map[]), steps).receivers[id];
             forall i :: 0 <= i < |r.seen| ==> r.seen[i].Delivered?
    ensures var c, sent := Run(Channel(capacity, [], map[]), steps), SentTo(steps, id).value;
            var r := c.receivers[id];
            && r.start <= r.cursor <= r.start + |sent| && Events(r.seen) == sent[..r.cursor - r.start]
            && (Next(c, Recv(id)) == c ==> Events(r.seen) == sent)
  {
    EveryReceiverIsSound(Channel(capacity, [], map[]), steps);
    NothingLostSilently(capacity, steps, id);
    LogIsWhatWasSent(capacity, steps, id);
    var c := Run(Channel(capacity, [], map[]), steps);
    var r, sent := c.receivers[id], SentTo(steps, id).value;
    FaithfulWithoutLoss(c.log, r.start, r.seen);
    assert c.log[r.start..][..r.cursor - r.start] == c.log[r.start..r.cursor];
    assert r.cursor - r.start == |sent| ==> sent[..r.cursor - r.start] == sent;
  }

  /** A loss is reported exactly when the backlog exceeds the capacity, and leaves a full buffer to read. */
  lemma LossIffOverflow(c: Channel, id: nat)
    requires Invariant(c) && id in c.receivers && c.receivers[id].cursor < |c.log|
    ensures var r, after := c.receivers[id], Next(c, Recv(id)).receivers[id];
            && |after.seen| == |r.seen| + 1
            && (after.seen[|r.seen|].Missed? <==> |c.log| - r.cursor > c.capacity)
            && (after.seen[|r.seen|].Missed? ==> |c.log| - after.cursor == c.capacity)
  {}

  /**
   What a receive yields, from the steps alone: nothing once everything sent is passed, the next event
   while at most `capacity` are left, and otherwise the number of those that are out of reach.
   */
  lemma ReceiveYields(capacity: nat, steps: seq<Step>, id: nat)
    requires SentTo(steps, id).Some? && id in Run(Channel(capacity, [], map[]), steps).receivers
    ensures var c, sent := Run(Channel(capacity, [], map[]), steps), SentTo(steps, id).value;
            var seen, after := c.receivers[id].seen, Next(c, Recv(id)).receivers[id].seen;
            var passed := Passed(seen, |seen|);
            && passed <= |sent|
            && after == seen + if passed == |sent| then []
                               else if |sent| - passed <= capacity then [Delivered(sent[passed])]
                               else [Missed(|sent| - passed - capacity)]
  {
    EveryReceiverIsSound(Channel(capacity, [], map[]), steps);
    LogIsWhatWasSent(capacity, steps, id);
    var c := Run(Channel(capacity, [], map[]), steps);
    var r := c.receivers[id];
    assert Sound(c, r) && r.seen[..|r.seen|] == r.seen;
    PositionCounts(r.start, r.seen);
  }
}
