/**
 When a terminal task stays as it is, task by task. What every request may still read decides it: the
 requests and executors of other tasks are free, and so is any overlap of requests.
 */
module TerminalTasks {
  import opened Wrappers
  import opened Types
  import opened Collector
  import opened Lifecycle

  // ---- What a request may still read -------------------------------------------------------

  /** The event makes a collector save task `id`. */
  predicate Names(e: Event, id: string) {
    (e.TaskEvent? && e.task.id == id) || (e.StatusEvent? && e.update.taskId == id)
  }

  /** Collected while `kept` is stored, the event would replace it. */
  predicate Harmful(e: Event, kept: Task) {
    Names(e, kept.id) && e != TaskEvent(kept)
  }

  /** A collector that gets these events replaces the task before it stops. */
  ghost predicate Exposes(nonBlocking: bool, events: seq<Event>, kept: Task) {
    exists k :: 0 <= k < |events| && Harmful(events[k], kept)
      && forall i :: 0 <= i < k ==> !Stops(nonBlocking, events[i])
  }

  /** What a receiver gets of the present log, if `more` events are sent before it reads on. */
  function Pending(s: System, channel: nat, cursor: nat, more: nat): seq<Event>
    requires channel < |s.channels|
  {
    var log := s.channels[channel].log;
    var first := if |log| + more > s.capacity + cursor then |log| + more - s.capacity else cursor;
    if first <= |log| then log[first..] else []
  }

  /** The failed executors that have not reported on the channel yet. */
  ghost function Reporters(s: System, channel: nat): set<nat> {
    set x | x in s.executors && s.executors[x].channel == channel && s.executors[x].failed.Some?
  }

  /** Every executor on the channel has failed. */
  ghost predicate Silent(s: System, channel: nat) {
    forall x :: x in s.executors && s.executors[x].channel == channel ==> s.executors[x].failed.Some?
  }

  /** There is, or can be, a live executor on the channel. */
  ghost predicate Growing(s: System, channel: nat) {
    || !Silent(s, channel)
    || (exists r :: r in s.requests && s.requests[r].phase.Opened? && s.requests[r].phase.channel == channel)
    || (exists t :: t in s.queues && s.queues[t] == channel)
  }

  /** The channel can take `more` events, none of which would replace task `id`. */
  ghost predicate MayGrow(s: System, channel: nat, more: nat, id: string)
    requires channel < |s.channels|
  {
    more <= |Reporters(s, channel)| || (s.channels[channel].owner != id && Growing(s, channel))
  }

  /** Reading on from here never replaces the task, however many events are sent in the meantime. */
  ghost predicate Quiet(s: System, nonBlocking: bool, channel: nat, cursor: nat, kept: Task) {
    && channel < |s.channels|
    && (s.channels[channel].owner == kept.id ==> Silent(s, channel))
    && forall more: nat :: MayGrow(s, channel, more, kept.id) ==>
         !Exposes(nonBlocking, Pending(s, channel, cursor, more), kept)
  }

  /** The request will leave the task alone. */
  ghost predicate Unharmed(s: System, r: Request, kept: Task) {
    match r.phase
    case Answered => true
    case Admitted(_) => r.taskId != kept.id
    case Opened(_, _) => r.taskId != kept.id
    case Collecting(channel, cursor) => Quiet(s, r.nonBlocking, channel, cursor, kept)
    case Received(channel, cursor, e) =>
      !Harmful(e, kept) && (Stops(r.nonBlocking, e) || Quiet(s, r.nonBlocking, channel, cursor, kept))
    case Saving(channel, cursor, e, _, snapshot) =>
      && (snapshot.Some? && snapshot.value.id == kept.id ==> snapshot.value == kept)
      && (Stops(r.nonBlocking, e) || Quiet(s, r.nonBlocking, channel, cursor, kept))
  }

  ghost predicate Safe(s: System, kept: Task) {
    forall r :: r in s.requests ==> Unharmed(s, s.requests[r], kept)
  }

  // ---- Loyal runs --------------------------------------------------------------------------

  /**
   Only executors of task `id` emit events that name it, none of them fails, and its id is not generated
   again once it is stored. Requests on it, and everything else, are free.
   */
  ghost predicate Loyal(s: System, step: Step, id: string) {
    match step
    case Send(_, params, freshTask, freshContext) =>
      var admitted := Admit(s.store, params.message, freshTask, freshContext);
      admitted.Ok? && admitted.value.0 == id ==> params.message.taskId.Some? || id !in s.store
    case Emit(x, event) => x in s.executors && Names(event, id) ==> s.executors[x].taskId == id
    case Fail(x, _, _, _) => x in s.executors ==> s.executors[x].taskId != id
    case _ => true
  }

  ghost predicate AllLoyal(s: System, steps: seq<Step>, id: string)
    decreases steps
  {
    steps != [] ==> Loyal(s, steps[0], id) && AllLoyal(Next(s, steps[0]), steps[1..], id)
  }

  predicate FailedHere(s: System, x: nat, id: string) {
    x in s.executors && s.executors[x].taskId == id && s.executors[x].failed.Some?
  }

  /** What executors of the task have saved on failing, and not reported yet, is what is stored. */
  ghost predicate FailuresStored(s: System, id: string)
    requires id in s.store
  {
    forall x :: FailedHere(s, x, id) ==> s.executors[x].failed.value == s.store[id]
  }

  ghost predicate Guarded(s: System, id: string) {
    Wired(s) && s.Ended(id) && FailuresStored(s, id) && Safe(s, s.store[id])
  }

  // ---- Fewer senders -----------------------------------------------------------------------

  lemma FewerElements<T>(a: set<T>, b: set<T>)
    requires a <= b
    ensures |a| <= |b|
  {
    assert b == a + (b - a);
  }

  /** The channel is as it was, and no more can be sent on it than before. */
  ghost predicate Calmer(s: System, t: System, channel: nat, id: string) {
    && channel < |s.channels| && channel < |t.channels|
    && t.capacity == s.capacity && t.channels[channel] == s.channels[channel]
    && (s.channels[channel].owner == id && Silent(s, channel) ==> Silent(t, channel))
    && forall more: nat :: MayGrow(t, channel, more, id) ==> MayGrow(s, channel, more, id)
  }

  lemma QuietCalmer(s: System, t: System, nonBlocking: bool, channel: nat, cursor: nat, kept: Task)
    requires Calmer(s, t, channel, kept.id) && Quiet(s, nonBlocking, channel, cursor, kept)
    ensures Quiet(t, nonBlocking, channel, cursor, kept)
  {
    forall more: nat | MayGrow(t, channel, more, kept.id)
      ensures !Exposes(nonBlocking, Pending(t, channel, cursor, more), kept)
    {
      assert MayGrow(s, channel, more, kept.id);
      assert Pending(t, channel, cursor, more) == Pending(s, channel, cursor, more);
    }
  }

  predicate Reads(r: Request) {
    r.phase.Collecting? || r.phase.Received? || r.phase.Saving?
  }

  lemma UnharmedCalmer(s: System, t: System, r: Request, kept: Task)
    requires Reads(r) ==> Calmer(s, t, r.phase.channel, kept.id)
    requires Unharmed(s, r, kept)
    ensures Unharmed(t, r, kept)
  {
    if Reads(r) && Quiet(s, r.nonBlocking, r.phase.channel, r.phase.cursor, kept) {
      QuietCalmer(s, t, r.nonBlocking, r.phase.channel, r.phase.cursor, kept);
    }
  }

  /** Executors only left the channel, and nobody new can come. */
  lemma FewerIsCalmer(s: System, t: System, channel: nat, id: string)
    requires channel < |s.channels| && channel < |t.channels|
    requires t.capacity == s.capacity && t.channels[channel] == s.channels[channel]
    requires forall x :: x in t.executors && t.executors[x].channel == channel ==>
               x in s.executors && s.executors[x] == t.executors[x]
    requires Growing(t, channel) ==> Growing(s, channel)
    ensures Calmer(s, t, channel, id)
  {
    FewerElements(Reporters(t, channel), Reporters(s, channel));
  }

  /** On a channel of another task, where more can be sent anyway. */
  lemma GrowingIsCalmer(s: System, t: System, channel: nat, id: string)
    requires channel < |s.channels| && channel < |t.channels|
    requires t.capacity == s.capacity && t.channels[channel] == s.channels[channel]
    requires s.channels[channel].owner != id && Growing(s, channel)
    ensures Calmer(s, t, channel, id)
  {}

  ghost predicate AllCalmer(s: System, t: System, id: string) {
    forall channel :: 0 <= channel < |s.channels| ==> Calmer(s, t, channel, id)
  }

  lemma SafeCalmer(s: System, t: System, kept: Task, r: nat)
    requires Wired(s) && AllCalmer(s, t, kept.id) && r in s.requests && Unharmed(s, s.requests[r], kept)
    ensures Unharmed(t, s.requests[r], kept)
  {
    assert Linked(s, s.requests[r]);
    UnharmedCalmer(s, t, s.requests[r], kept);
  }

  // ---- Steps of requests -------------------------------------------------------------------

  lemma LeaversCalmer(s: System, t: System, id: string)
    requires t.capacity == s.capacity && t.channels == s.channels
    requires forall x :: x in t.executors ==> x in s.executors && s.executors[x] == t.executors[x]
    requires forall r :: r in t.requests && t.requests[r].phase.Opened? ==>
               r in s.requests && s.requests[r] == t.requests[r]
    requires forall q :: q in t.queues ==> q in s.queues && s.queues[q] == t.queues[q]
    ensures AllCalmer(s, t, id)
  {
    forall channel | 0 <= channel < |s.channels| ensures Calmer(s, t, channel, id) {
      FewerIsCalmer(s, t, channel, id);
    }
  }

  lemma OpenCalmer(s: System, rid: nat, id: string)
    requires Wired(s) && rid in s.requests && s.requests[rid].phase.Admitted?
    ensures AllCalmer(s, OpenQueue(s, rid), id)
  {
    var t := OpenQueue(s, rid);
    forall channel | 0 <= channel < |s.channels| ensures Calmer(s, t, channel, id) {
      assert t.channels[channel] == s.channels[channel];
      FewerIsCalmer(s, t, channel, id);
    }
  }

  lemma SubscribeCalmer(s: System, rid: nat, id: string)
    requires Wired(s) && rid in s.requests && s.requests[rid].phase.Opened? && s.requests[rid].taskId != id
    ensures AllCalmer(s, Next(s, Subscribe(rid)), id)
  {
    var t, own := Next(s, Subscribe(rid)), s.requests[rid].phase.channel;
    assert Linked(s, s.requests[rid]);
    forall channel | 0 <= channel < |s.channels| ensures Calmer(s, t, channel, id) {
      if channel == own {
        GrowingIsCalmer(s, t, channel, id);
      } else {
        FewerIsCalmer(s, t, channel, id);
      }
    }
  }

  lemma ExposesHead(nonBlocking: bool, events: seq<Event>, kept: Task)
    requires events != []
    ensures Harmful(events[0], kept) ==> Exposes(nonBlocking, events, kept)
    ensures !Stops(nonBlocking, events[0]) && Exposes(nonBlocking, events[1..], kept) ==>
              Exposes(nonBlocking, events, kept)
  {
    if !Stops(nonBlocking, events[0]) && Exposes(nonBlocking, events[1..], kept) {
      var k :| 0 <= k < |events[1..]| && Harmful(events[1..][k], kept)
        && forall i :: 0 <= i < k ==> !Stops(nonBlocking, events[1..][i]);
      assert events[k + 1] == events[1..][k];
      assert forall i :: 0 < i <= k ==> events[i] == events[1..][i - 1];
    }
  }

  /** After one more event is read, or a lag is noticed, less is pending. */
  lemma PendingAfter(s: System, channel: nat, cursor: nat, more: nat)
    requires channel < |s.channels| && cursor <= |s.channels[channel].log|
    ensures var phase := Receiving(s, channel, cursor);
            match phase
            case Collecting(_, next) => Pending(s, channel, next, more) == Pending(s, channel, cursor, more)
            case Received(_, next, e) =>
              && Pending(s, channel, cursor, 0) == [e] + Pending(s, channel, next, 0)
              && (Pending(s, channel, next, more) == Pending(s, channel, cursor, more)
                  || Pending(s, channel, cursor, more) == [e] + Pending(s, channel, next, more))
            case _ => false
  {
    var log := s.channels[channel].log;
    if Receiving(s, channel, cursor).Received? {
      assert log[cursor..] == [log[cursor]] + log[cursor + 1..];
    }
  }

  lemma QuietAfter(s: System, nonBlocking: bool, channel: nat, cursor: nat, kept: Task)
    requires Quiet(s, nonBlocking, channel, cursor, kept) && cursor <= |s.channels[channel].log|
    ensures match Receiving(s, channel, cursor)
            case Collecting(_, next) => Quiet(s, nonBlocking, channel, next, kept)
            case Received(_, next, e) =>
              !Harmful(e, kept) && (Stops(nonBlocking, e) || Quiet(s, nonBlocking, channel, next, kept))
            case _ => false
  {
    PendingAfter(s, channel, cursor, 0);
    var phase := Receiving(s, channel, cursor);
    if phase.Received? {
      assert MayGrow(s, channel, 0, kept.id);
      ExposesHead(nonBlocking, Pending(s, channel, cursor, 0), kept);
    }
    if phase.Collecting? || !Stops(nonBlocking, phase.event) {
      forall more: nat | MayGrow(s, channel, more, kept.id)
        ensures !Exposes(nonBlocking, Pending(s, channel, phase.cursor, more), kept)
      {
        PendingAfter(s, channel, cursor, more);
        if Pending(s, channel, cursor, more) != [] {
          ExposesHead(nonBlocking, Pending(s, channel, cursor, more), kept);
        }
      }
    }
  }

  /** A request that moves on by itself: it reads, loads or saves. */
  lemma MoveGuarded(s: System, t: System, rid: nat, phase: Phase, id: string)
    requires Guarded(s, id) && Wired(t) && rid in s.requests && !phase.Opened?
    requires t == s.WithPhase(rid, phase).(store := t.store) && Same(s.store, t.store, id)
    requires Unharmed(s, s.requests[rid].(phase := phase), s.store[id]) && Linked(s, s.requests[rid].(phase := phase))
    ensures Guarded(t, id)
  {
    LeaversCalmer(s, t, id);
    UnharmedCalmer(s, t, t.requests[rid], s.store[id]);
    forall r | r in t.requests ensures Unharmed(t, t.requests[r], s.store[id]) {
      if r != rid { SafeCalmer(s, t, s.store[id], r); }
    }
    assert forall x :: FailedHere(t, x, id) <==> FailedHere(s, x, id);
  }

  lemma ReceiveGuarded(s: System, rid: nat, id: string)
    requires Guarded(s, id) && rid in s.requests && s.requests[rid].phase.Collecting?
    ensures Guarded(Next(s, Receive(rid)), id)
  {
    var r := s.requests[rid];
    assert Linked(s, r) && Unharmed(s, r, s.store[id]);
    QuietAfter(s, r.nonBlocking, r.phase.channel, r.phase.cursor, s.store[id]);
    ReceivingStays(s, r);
    StepKeepsWired(s, Receive(rid));
    MoveGuarded(s, Next(s, Receive(rid)), rid, Receiving(s, r.phase.channel, r.phase.cursor), id);
  }

  lemma LoadGuarded(s: System, rid: nat, now: string, id: string)
    requires Guarded(s, id) && rid in s.requests && s.requests[rid].phase.Received?
    ensures Guarded(Next(s, Load(rid, now)), id)
  {
    var t, r := Next(s, Load(rid, now)), s.requests[rid];
    assert Linked(s, r) && Unharmed(s, r, s.store[id]);
    StepKeepsWired(s, Load(rid, now));
    Loads(s, rid, now);
    MoveGuarded(s, t, rid, t.requests[rid].phase, id);
  }

  lemma SaveGuarded(s: System, rid: nat, id: string)
    requires Guarded(s, id) && rid in s.requests && s.requests[rid].phase.Saving?
    ensures Guarded(Next(s, Save(rid)), id) && Same(s.store, Next(s, Save(rid)).store, id)
  {
    var t, r := Next(s, Save(rid)), s.requests[rid];
    assert Linked(s, r) && Unharmed(s, r, s.store[id]);
    StepKeepsWired(s, Save(rid));
    Saves(s, rid);
    MoveGuarded(s, t, rid, AfterSaving(r), id);
  }

  lemma OpenGuarded(s: System, rid: nat, id: string)
    requires Guarded(s, id) && rid in s.requests && s.requests[rid].phase.Admitted?
    ensures Guarded(OpenQueue(s, rid), id)
  {
    var t := OpenQueue(s, rid);
    assert Unharmed(s, s.requests[rid], s.store[id]);
    OpenKeepsWired(s, rid);
    OpenCalmer(s, rid, id);
    forall r | r in t.requests ensures Unharmed(t, t.requests[r], s.store[id]) {
      if r != rid { SafeCalmer(s, t, s.store[id], r); }
    }
    assert forall x :: FailedHere(t, x, id) <==> FailedHere(s, x, id);
  }

  lemma SubscribeGuarded(s: System, rid: nat, id: string)
    requires Guarded(s, id) && rid in s.requests && s.requests[rid].phase.Opened?
    ensures Guarded(Next(s, Subscribe(rid)), id)
  {
    var t, own := Next(s, Subscribe(rid)), s.requests[rid].phase.channel;
    assert Unharmed(s, s.requests[rid], s.store[id]) && Linked(s, s.requests[rid]);
    SubscribeKeepsWired(s, rid);
    SubscribeCalmer(s, rid, id);
    forall r | r in t.requests ensures Unharmed(t, t.requests[r], s.store[id]) {
      if r != rid {
        SafeCalmer(s, t, s.store[id], r);
      } else {
        assert forall more: nat :: Pending(t, own, |s.channels[own].log|, more) == [];
      }
    }
    forall x | FailedHere(t, x, id) ensures FailedHere(s, x, id) {}
  }

  // ---- Steps that send ---------------------------------------------------------------------

  lemma ExposesMore(nonBlocking: bool, events: seq<Event>, e: Event, kept: Task)
    requires !Harmful(e, kept)
    ensures Exposes(nonBlocking, events + [e], kept) <==> Exposes(nonBlocking, events, kept)
  {
    var all := events + [e];
    if Exposes(nonBlocking, events, kept) {
      var k :| 0 <= k < |events| && Harmful(events[k], kept)
        && forall i :: 0 <= i < k ==> !Stops(nonBlocking, events[i]);
      assert all[k] == events[k];
    }
    if Exposes(nonBlocking, all, kept) {
      var k :| 0 <= k < |all| && Harmful(all[k], kept) && forall i :: 0 <= i < k ==> !Stops(nonBlocking, all[i]);
      assert all[k] == events[k];
      assert forall i :: 0 <= i < k ==> all[i] == events[i];
    }
  }

  /** One event has been sent: what is pending is what was pending for one more. */
  lemma PendingSent(s: System, t: System, channel: nat, cursor: nat, e: Event, more: nat)
    requires channel < |s.channels| && channel < |t.channels| && t.capacity == s.capacity
    requires t.channels[channel].log == s.channels[channel].log + [e] && cursor <= |s.channels[channel].log|
    ensures var before, after := Pending(s, channel, cursor, more + 1), Pending(t, channel, cursor, more);
            after == before + [e] || (before == [] && after == [])
  {
    var log := s.channels[channel].log;
    var first := if |log| + more + 1 > s.capacity + cursor then |log| + more + 1 - s.capacity else cursor;
    if first <= |log| {
      assert (log + [e])[first..] == log[first..] + [e];
    }
  }

  lemma QuietSent(s: System, t: System, nonBlocking: bool, channel: nat, cursor: nat, e: Event, kept: Task)
    requires Quiet(s, nonBlocking, channel, cursor, kept) && cursor <= |s.channels[channel].log|
    requires channel < |t.channels| && t.capacity == s.capacity && !Harmful(e, kept)
    requires t.channels[channel].log == s.channels[channel].log + [e]
    requires t.channels[channel].owner == kept.id ==> Silent(t, channel)
    requires forall more: nat :: MayGrow(t, channel, more, kept.id) ==> MayGrow(s, channel, more + 1, kept.id)
    ensures Quiet(t, nonBlocking, channel, cursor, kept)
  {
    forall more: nat | MayGrow(t, channel, more, kept.id)
      ensures !Exposes(nonBlocking, Pending(t, channel, cursor, more), kept)
    {
      assert MayGrow(s, channel, more + 1, kept.id);
      PendingSent(s, t, channel, cursor, e, more);
      ExposesMore(nonBlocking, Pending(s, channel, cursor, more + 1), e, kept);
    }
  }

  /** A live executor sends: on its own task's channel nobody reads on. */
  lemma EmitUnharmed(s: System, x: nat, e: Event, r: Request, kept: Task)
    requires Wired(s) && x in s.executors && s.executors[x].failed.None? && Linked(s, r)
    requires Names(e, kept.id) ==> s.executors[x].taskId == kept.id
    requires Unharmed(s, r, kept)
    ensures Unharmed(SendOn(s, s.executors[x].channel, e), r, kept)
  {
    var sent := s.executors[x].channel;
    var t := SendOn(s, sent, e);
    assert Owned(s, sent, s.executors[x].taskId);
    if Reads(r) && Quiet(s, r.nonBlocking, r.phase.channel, r.phase.cursor, kept) {
      if r.phase.channel == sent {
        assert Growing(s, sent);
        QuietSent(s, t, r.nonBlocking, sent, r.phase.cursor, e, kept);
      } else {
        FewerIsCalmer(s, t, r.phase.channel, kept.id);
        QuietCalmer(s, t, r.nonBlocking, r.phase.channel, r.phase.cursor, kept);
      }
    }
  }

  lemma EmitGuarded(s: System, x: nat, e: Event, id: string)
    requires Guarded(s, id) && x in s.executors && s.executors[x].failed.None?
    requires Names(e, id) ==> s.executors[x].taskId == id
    ensures Guarded(Next(s, Emit(x, e)), id)
  {
    var t := Next(s, Emit(x, e));
    StepKeepsWired(s, Emit(x, e));
    forall r | r in t.requests ensures Unharmed(t, t.requests[r], s.store[id]) {
      assert Linked(s, s.requests[r]);
      EmitUnharmed(s, x, e, s.requests[r], s.store[id]);
    }
    assert forall y :: FailedHere(t, y, id) <==> FailedHere(s, y, id);
  }

  lemma ReportersLeave(s: System, x: nat, channel: nat)
    requires x in s.executors && s.executors[x].channel == channel && s.executors[x].failed.Some?
    ensures |Reporters(Next(s, Report(x)), channel)| + 1 == |Reporters(s, channel)|
  {
    assert Reporters(Next(s, Report(x)), channel) == Reporters(s, channel) - {x};
  }

  lemma ReportUnharmed(s: System, x: nat, r: Request, id: string)
    requires Guarded(s, id) && x in s.executors && s.executors[x].failed.Some? && Linked(s, r)
    requires Unharmed(s, r, s.store[id])
    ensures Unharmed(Next(s, Report(x)), r, s.store[id])
  {
    var sent, e, kept := s.executors[x].channel, TaskEvent(s.executors[x].failed.value), s.store[id];
    var t := Next(s, Report(x));
    assert Owned(s, sent, s.executors[x].taskId);
    assert !Harmful(e, kept) by {
      if s.executors[x].taskId == id { assert FailedHere(s, x, id); }
    }
    if Reads(r) && Quiet(s, r.nonBlocking, r.phase.channel, r.phase.cursor, kept) {
      if r.phase.channel == sent {
        ReportersLeave(s, x, sent);
        QuietSent(s, t, r.nonBlocking, sent, r.phase.cursor, e, kept);
      } else {
        FewerIsCalmer(s, t, r.phase.channel, kept.id);
        QuietCalmer(s, t, r.nonBlocking, r.phase.channel, r.phase.cursor, kept);
      }
    }
  }

  lemma ReportGuarded(s: System, x: nat, id: string)
    requires Guarded(s, id) && x in s.executors && s.executors[x].failed.Some?
    ensures Guarded(Next(s, Report(x)), id)
  {
    var t := Next(s, Report(x));
    StepKeepsWired(s, Report(x));
    forall r | r in t.requests ensures Unharmed(t, t.requests[r], s.store[id]) {
      assert Linked(s, s.requests[r]);
      ReportUnharmed(s, x, s.requests[r], id);
    }
    forall y | FailedHere(t, y, id) ensures FailedHere(s, y, id) {}
  }

  /** An executor of another task fails. */
  lemma FailGuarded(s: System, x: nat, failed: Task, id: string)
    requires Guarded(s, id) && x in s.executors && s.executors[x].failed.None?
    requires s.executors[x].taskId == failed.id != id
    ensures Guarded(SaveFailed(s, x, failed), id)
  {
    var t, own := SaveFailed(s, x, failed), s.executors[x].channel;
    FailKeepsWired(s, x, failed);
    assert Owned(s, own, failed.id);
    forall channel | 0 <= channel < |s.channels| ensures Calmer(s, t, channel, id) {
      if channel == own {
        GrowingIsCalmer(s, t, channel, id);
      } else {
        FewerIsCalmer(s, t, channel, id);
      }
    }
    forall r | r in t.requests ensures Unharmed(t, t.requests[r], s.store[id]) { SafeCalmer(s, t, s.store[id], r); }
    forall y | FailedHere(t, y, id) ensures FailedHere(s, y, id) {}
  }

  // ---- Every loyal step keeps a guarded task -----------------------------------------------

  /** Requests enter that are not on the task, and requests and executors leave. */
  lemma ComeAndGoGuarded(s: System, t: System, id: string)
    requires Guarded(s, id) && Wired(t) && t.capacity == s.capacity && t.channels == s.channels && t.store == s.store
    requires forall x :: x in t.executors ==> x in s.executors && s.executors[x] == t.executors[x]
    requires forall q :: q in t.queues ==> q in s.queues && s.queues[q] == t.queues[q]
    requires forall r :: r in t.requests ==>
               (r in s.requests && s.requests[r] == t.requests[r])
               || (t.requests[r].phase.Admitted? && t.requests[r].taskId != id)
    ensures Guarded(t, id)
  {
    LeaversCalmer(s, t, id);
    forall r | r in t.requests ensures Unharmed(t, t.requests[r], s.store[id]) {
      if r in s.requests && s.requests[r] == t.requests[r] { SafeCalmer(s, t, s.store[id], r); }
    }
    forall y | FailedHere(t, y, id) ensures FailedHere(s, y, id) {}
  }

  lemma RequestGuarded(s: System, step: Step, id: string)
    requires Guarded(s, id) && step.id in s.requests && Next(s, step) != s
    requires step.Open? || step.Subscribe? || step.Receive? || step.Load? || step.Save?
    ensures Guarded(Next(s, step), id) && Same(s.store, Next(s, step).store, id)
  {
    match step
    case Open(rid) => OpenGuarded(s, rid, id);
    case Subscribe(rid) => SubscribeGuarded(s, rid, id);
    case Receive(rid) => ReceiveGuarded(s, rid, id);
    case Load(rid, now) => LoadGuarded(s, rid, now, id);
    case Save(rid) => SaveGuarded(s, rid, id);
    case _ =>
  }

  lemma EntryGuarded(s: System, step: Step, id: string)
    requires Guarded(s, id) && Loyal(s, step, id) && Next(s, step) != s && (step.Send? || step.Cancel?)
    ensures Guarded(Next(s, step), id) && Next(s, step).store == s.store
  {
    var t := Next(s, step);
    StepKeepsWired(s, step);
    assert t == s.(requests := s.requests[step.id := t.requests[step.id]]);
    ComeAndGoGuarded(s, t, id);
  }

  lemma ExitGuarded(s: System, step: Step, id: string)
    requires Guarded(s, id) && Next(s, step) != s && (step.Finish? || step.Leave? || step.Drop?)
    ensures Guarded(Next(s, step), id) && Next(s, step).store == s.store
  {
    StepKeepsWired(s, step);
    ComeAndGoGuarded(s, Next(s, step), id);
  }

  lemma ExecutorGuarded(s: System, step: Step, id: string)
    requires Guarded(s, id) && Loyal(s, step, id) && Next(s, step) != s
    requires step.Emit? || step.Report? || step.Fail?
    ensures Guarded(Next(s, step), id) && Same(s.store, Next(s, step).store, id)
  {
    match step
    case Emit(x, e) => EmitGuarded(s, x, e, id);
    case Report(x) => ReportGuarded(s, x, id);
    case Fail(x, error, messageId, now) => FailGuarded(s, x, FailedTask(s.executors[x], error, messageId, now), id);
    case _ =>
  }

  /** A task that every request leaves alone is kept by every loyal step, and is left alone after it. */
  lemma StepGuarded(s: System, step: Step, id: string)
    requires Guarded(s, id) && Loyal(s, step, id)
    ensures Guarded(Next(s, step), id) && Same(s.store, Next(s, step).store, id)
  {
    if Next(s, step) != s {
      if step.Emit? || step.Report? || step.Fail? {
        ExecutorGuarded(s, step, id);
      } else if step.Open? || step.Subscribe? || step.Receive? || step.Load? || step.Save? {
        RequestGuarded(s, step, id);
      } else if step.Send? || step.Cancel? {
        EntryGuarded(s, step, id);
      } else {
        ExitGuarded(s, step, id);
      }
    }
  }

  lemma {:induction false} RunGuarded(s: System, steps: seq<Step>, id: string)
    requires Guarded(s, id) && AllLoyal(s, steps, id)
    ensures Guarded(Run(s, steps), id) && Same(s.store, Run(s, steps).store, id)
    decreases steps
  {
    if steps != [] {
      StepGuarded(s, steps[0], id);
      RunGuarded(Next(s, steps[0]), steps[1..], id);
    }
  }

  /** A terminal task refuses every further request. */
  lemma TerminalRefusesRequests(s: System, id: string, step: Step)
    requires s.Ended(id)
    requires step.Send? ==> step.params.message.taskId == Some(id)
    requires step.Cancel? ==> step.taskId == id
    requires step.Send? || step.Cancel?
    ensures Next(s, step) == s
  {}
}
