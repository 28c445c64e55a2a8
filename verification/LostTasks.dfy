/**
 When a terminal task is lost: if any request can still read an event that replaces it, there is a loyal
 run in which it does. Together with `TerminalTasks` this says exactly which states keep a task.
 */
module LostTasks {
  import opened Wrappers
  import opened Types
  import opened Collector
  import opened Lifecycle
  import opened TerminalTasks
  import opened CalmRuns
  import opened Scenarios

  // ---- Escaping ----------------------------------------------------------------------------

  predicate Keeps(s: System, kept: Task) {
    kept.id in s.store && s.store[kept.id] == kept
  }

  /** A loyal run after which the task is no longer stored. */
  ghost predicate Escapes(s: System, steps: seq<Step>, kept: Task) {
    AllLoyal(s, steps, kept.id) && !Keeps(Run(s, steps), kept)
  }

  lemma EscapeLater(s: System, step: Step, steps: seq<Step>, kept: Task)
    requires Loyal(s, step, kept.id) && Escapes(Next(s, step), steps, kept)
    ensures Escapes(s, [step] + steps, kept)
  {
    assert ([step] + steps)[1..] == steps;
  }

  lemma EscapeNow(s: System, step: Step, kept: Task)
    requires Loyal(s, step, kept.id) && !Keeps(Next(s, step), kept)
    ensures Escapes(s, [step], kept)
  {
    RunOne(s, step);
    assert [step][1..] == [];
  }

  lemma {:induction false} EscapeAfter(s: System, first: seq<Step>, steps: seq<Step>, kept: Task)
    requires AllLoyal(s, first, kept.id) && Escapes(Run(s, first), steps, kept)
    ensures Escapes(s, first + steps, kept)
    decreases first
  {
    if first == [] {
      assert first + steps == steps;
    } else {
      EscapeAfter(Next(s, first[0]), first[1..], steps, kept);
      EscapeLater(s, first[0], first[1..] + steps, kept);
      assert first + steps == [first[0]] + (first[1..] + steps);
    }
  }

  /** A terminal task that is stored, and a request on any task; the clock does not show the task's time. */
  ghost predicate At(s: System, rid: nat, now: string, kept: Task) {
    && Wired(s) && s.capacity > 0 && Keeps(s, kept) && kept.IsTerminal()
    && kept.status.timestamp != Some(now) && rid in s.requests
  }

  // ---- Reading on --------------------------------------------------------------------------

  lemma SaveEscapes(s: System, rid: nat, now: string, kept: Task)
    requires At(s, rid, now, kept) && s.requests[rid].phase.Saving?
    requires var snapshot := s.requests[rid].phase.snapshot;
             snapshot.Some? && snapshot.value.id == kept.id && snapshot.value != kept
    ensures Escapes(s, [Save(rid)], kept)
  {
    EscapeNow(s, Save(rid), kept);
  }

  lemma ReceivedEscapes(s: System, rid: nat, now: string, kept: Task)
    requires At(s, rid, now, kept) && s.requests[rid].phase.Received?
    requires Harmful(s.requests[rid].phase.event, kept)
    ensures Escapes(s, [Load(rid, now), Save(rid)], kept)
  {
    var t := Next(s, Load(rid, now));
    StepKeepsWired(s, Load(rid, now));
    SaveEscapes(t, rid, now, kept);
    EscapeLater(s, Load(rid, now), [Save(rid)], kept);
  }

  /** A harmless event of a request that goes on: it reads on as if nothing had happened. */
  lemma HarmlessSave(s: System, rid: nat, now: string, kept: Task)
    requires At(s, rid, now, kept) && s.requests[rid].phase.Saving?
    requires var p := s.requests[rid].phase;
             (p.snapshot.Some? && p.snapshot.value.id == kept.id ==> p.snapshot.value == kept)
             && !Stops(s.requests[rid].nonBlocking, p.event)
    ensures var p, t := s.requests[rid].phase, Next(s, Save(rid));
            && At(t, rid, now, kept)
            && t == s.WithPhase(rid, Collecting(p.channel, p.cursor)).(store := t.store)
  {
    StepKeepsWired(s, Save(rid));
    Saves(s, rid);
  }

  lemma HarmlessEvent(s: System, rid: nat, now: string, kept: Task)
    requires At(s, rid, now, kept) && s.requests[rid].phase.Received?
    requires var p := s.requests[rid].phase;
             !Harmful(p.event, kept) && !Stops(s.requests[rid].nonBlocking, p.event)
    ensures var p, t := s.requests[rid].phase, Next(Next(s, Load(rid, now)), Save(rid));
            && At(t, rid, now, kept)
            && t == s.WithPhase(rid, Collecting(p.channel, p.cursor)).(store := t.store)
  {
    var t := Next(s, Load(rid, now));
    StepKeepsWired(s, Load(rid, now));
    Loads(s, rid, now);
    assert Linked(t, t.requests[rid]);
    HarmlessSave(t, rid, now, kept);
  }

  lemma ExposesRest(nonBlocking: bool, events: seq<Event>, kept: Task)
    requires Exposes(nonBlocking, events, kept) && !Harmful(events[0], kept)
    ensures !Stops(nonBlocking, events[0]) && Exposes(nonBlocking, events[1..], kept)
  {
    var k :| 0 <= k < |events| && Harmful(events[k], kept)
      && forall i :: 0 <= i < k ==> !Stops(nonBlocking, events[i]);
    assert events[1..][k - 1] == events[k];
    assert forall i :: 0 <= i < k - 1 ==> events[1..][i] == events[i + 1];
  }

  /** The request reads up to the first harmful event. */
  lemma {:induction false} CollectEscapes(s: System, rid: nat, channel: nat, cursor: nat, now: string, kept: Task)
    returns (steps: seq<Step>)
    requires At(s, rid, now, kept) && s.requests[rid].phase == Collecting(channel, cursor)
    requires channel < |s.channels| && cursor <= |s.channels[channel].log| <= cursor + s.capacity
    requires Exposes(s.requests[rid].nonBlocking, s.channels[channel].log[cursor..], kept)
    ensures Escapes(s, steps, kept)
    decreases |s.channels[channel].log| - cursor
  {
    var log := s.channels[channel].log;
    var events, nonBlocking := log[cursor..], s.requests[rid].nonBlocking;
    var t := Next(s, Receive(rid));
    StepKeepsWired(s, Receive(rid));
    Receives(s, rid, channel, cursor);
    assert events[0] == log[cursor];
    if Harmful(events[0], kept) {
      ReceivedEscapes(t, rid, now, kept);
      steps := [Load(rid, now), Save(rid)];
    } else {
      ExposesRest(nonBlocking, events, kept);
      assert events[1..] == log[cursor + 1..];
      HarmlessEvent(t, rid, now, kept);
      var u := Next(Next(t, Load(rid, now)), Save(rid));
      var later := CollectEscapes(u, rid, channel, cursor + 1, now, kept);
      EscapeLater(Next(t, Load(rid, now)), Save(rid), later, kept);
      EscapeLater(t, Load(rid, now), [Save(rid)] + later, kept);
      steps := [Load(rid, now)] + ([Save(rid)] + later);
    }
    EscapeLater(s, Receive(rid), steps, kept);
    steps := [Receive(rid)] + steps;
  }

  lemma LagEscapes(s: System, rid: nat, channel: nat, cursor: nat, now: string, kept: Task)
    returns (steps: seq<Step>)
    requires At(s, rid, now, kept) && s.requests[rid].phase == Collecting(channel, cursor)
    requires channel < |s.channels| && |s.channels[channel].log| > cursor + s.capacity
    requires var log := s.channels[channel].log;
             Exposes(s.requests[rid].nonBlocking, log[|log| - s.capacity..], kept)
    ensures Escapes(s, steps, kept)
  {
    var first := |s.channels[channel].log| - s.capacity;
    var t := s.WithPhase(rid, Collecting(channel, first));
    StepKeepsWired(s, Receive(rid));
    Lags(s, rid, channel, cursor);
    assert At(t, rid, now, kept);
    steps := CollectEscapes(t, rid, channel, first, now, kept);
    EscapeLater(s, Receive(rid), steps, kept);
    steps := [Receive(rid)] + steps;
  }

  /** As before, after a lag if the request is too far behind. */
  lemma PendingEscapes(s: System, rid: nat, channel: nat, cursor: nat, now: string, kept: Task)
    returns (steps: seq<Step>)
    requires At(s, rid, now, kept) && s.requests[rid].phase == Collecting(channel, cursor)
    requires channel < |s.channels| && cursor <= |s.channels[channel].log|
    requires Exposes(s.requests[rid].nonBlocking, Pending(s, channel, cursor, 0), kept)
    ensures Escapes(s, steps, kept)
  {
    if |s.channels[channel].log| > s.capacity + cursor {
      steps := LagEscapes(s, rid, channel, cursor, now, kept);
    } else {
      steps := CollectEscapes(s, rid, channel, cursor, now, kept);
    }
  }

  // ---- More events first -------------------------------------------------------------------

  lemma ExposesLonger(nonBlocking: bool, events: seq<Event>, more: seq<Event>, kept: Task)
    requires Exposes(nonBlocking, events, kept)
    ensures Exposes(nonBlocking, events + more, kept)
  {
    var k :| 0 <= k < |events| && Harmful(events[k], kept)
      && forall i :: 0 <= i < k ==> !Stops(nonBlocking, events[i]);
    assert (events + more)[k] == events[k];
  }

  /** An event has been sent: one less is needed to push the request to what it exposes. */
  lemma ExposesSent(
    s: System, t: System, nonBlocking: bool, channel: nat, cursor: nat, e: Event, more: nat, kept: Task)
    requires channel < |s.channels| && channel < |t.channels| && t.capacity == s.capacity && more > 0
    requires t.channels[channel].log == s.channels[channel].log + [e] && cursor <= |s.channels[channel].log|
    requires Exposes(nonBlocking, Pending(s, channel, cursor, more), kept)
    ensures Exposes(nonBlocking, Pending(t, channel, cursor, more - 1), kept)
  {
    PendingSent(s, t, channel, cursor, e, more - 1);
    ExposesLonger(nonBlocking, Pending(s, channel, cursor, more), [e], kept);
  }

  /** From t on the task escapes whenever it does from s, by way of `first`. */
  ghost predicate Leads(s: System, first: seq<Step>, t: System, kept: Task) {
    forall steps :: Escapes(t, steps, kept) ==> Escapes(s, first + steps, kept)
  }

  lemma StepLeads(s: System, step: Step, kept: Task)
    requires Loyal(s, step, kept.id)
    ensures Leads(s, [step], Next(s, step), kept)
  {
    forall steps | Escapes(Next(s, step), steps, kept) ensures Escapes(s, [step] + steps, kept) {
      EscapeLater(s, step, steps, kept);
    }
  }

  lemma RunLeads(s: System, first: seq<Step>, kept: Task)
    requires AllLoyal(s, first, kept.id)
    ensures Leads(s, first, Run(s, first), kept)
  {
    forall steps | Escapes(Run(s, first), steps, kept) ensures Escapes(s, first + steps, kept) {
      EscapeAfter(s, first, steps, kept);
    }
  }

  /** The same readers, and one event more on one channel. */
  ghost predicate SentOn(s: System, t: System, channel: nat, e: Event) {
    && t.capacity == s.capacity && t.requests == s.requests
    && channel < |s.channels| && channel < |t.channels|
    && t.channels[channel].log == s.channels[channel].log + [e]
  }

  lemma ReportFirst(s: System, rid: nat, x: nat, channel: nat, now: string, kept: Task) returns (t: System)
    requires At(s, rid, now, kept) && x in Reporters(s, channel) && channel < |s.channels|
    ensures At(t, rid, now, kept) && Leads(s, [Report(x)], t, kept)
    ensures SentOn(s, t, channel, TaskEvent(s.executors[x].failed.value))
    ensures |Reporters(t, channel)| + 1 == |Reporters(s, channel)|
  {
    t := Next(s, Report(x));
    StepKeepsWired(s, Report(x));
    StepLeads(s, Report(x), kept);
    ReportersLeave(s, x, channel);
  }

  /** A failed executor reports: one event less is needed. */
  lemma ReportPushes(s: System, rid: nat, channel: nat, cursor: nat, more: nat, now: string, kept: Task)
    returns (x: nat, t: System)
    requires At(s, rid, now, kept) && s.requests[rid].phase == Collecting(channel, cursor)
    requires channel < |s.channels| && cursor <= |s.channels[channel].log| && 0 < more <= |Reporters(s, channel)|
    requires Exposes(s.requests[rid].nonBlocking, Pending(s, channel, cursor, more), kept)
    ensures At(t, rid, now, kept) && Leads(s, [Report(x)], t, kept) && t.requests == s.requests
    ensures channel < |t.channels| && cursor <= |t.channels[channel].log| && more - 1 <= |Reporters(t, channel)|
    ensures Exposes(s.requests[rid].nonBlocking, Pending(t, channel, cursor, more - 1), kept)
  {
    x :| x in Reporters(s, channel);
    t := ReportFirst(s, rid, x, channel, now, kept);
    var e := TaskEvent(s.executors[x].failed.value);
    ExposesSent(s, t, s.requests[rid].nonBlocking, channel, cursor, e, more, kept);
  }

  /** The reports of failed executors push the request on. */
  lemma {:induction false} ReportsEscape(
    s: System, rid: nat, channel: nat, cursor: nat, more: nat, now: string, kept: Task)
    returns (steps: seq<Step>)
    requires At(s, rid, now, kept) && s.requests[rid].phase == Collecting(channel, cursor)
    requires channel < |s.channels| && cursor <= |s.channels[channel].log| && more <= |Reporters(s, channel)|
    requires Exposes(s.requests[rid].nonBlocking, Pending(s, channel, cursor, more), kept)
    ensures Escapes(s, steps, kept)
    decreases more
  {
    if more == 0 {
      steps := PendingEscapes(s, rid, channel, cursor, now, kept);
    } else {
      var x, t := ReportPushes(s, rid, channel, cursor, more, now, kept);
      steps := ReportsEscape(t, rid, channel, cursor, more - 1, now, kept);
      steps := [Report(x)] + steps;
    }
  }

  lemma EmitFirst(s: System, rid: nat, y: nat, e: Event, channel: nat, now: string, kept: Task)
    returns (t: System)
    requires At(s, rid, now, kept) && channel < |s.channels|
    requires y in s.executors && s.executors[y].channel == channel && s.executors[y].failed.None?
    requires Names(e, kept.id) ==> s.executors[y].taskId == kept.id
    ensures At(t, rid, now, kept) && Leads(s, [Emit(y, e)], t, kept)
    ensures SentOn(s, t, channel, e) && t.executors == s.executors
  {
    t := Next(s, Emit(y, e));
    StepKeepsWired(s, Emit(y, e));
    StepLeads(s, Emit(y, e), kept);
  }

  const FILLER := MessageEvent(Message("", None, None, Agent, [], None, [], []))

  /** A live executor pushes the request on with events that name no task. */
  lemma {:induction false} FillersEscape(
    s: System, rid: nat, channel: nat, cursor: nat, y: nat, more: nat, now: string, kept: Task)
    returns (steps: seq<Step>)
    requires At(s, rid, now, kept) && s.requests[rid].phase == Collecting(channel, cursor)
    requires channel < |s.channels| && cursor <= |s.channels[channel].log|
    requires y in s.executors && s.executors[y].channel == channel && s.executors[y].failed.None?
    requires Exposes(s.requests[rid].nonBlocking, Pending(s, channel, cursor, more), kept)
    ensures Escapes(s, steps, kept)
    decreases more
  {
    if more == 0 {
      steps := PendingEscapes(s, rid, channel, cursor, now, kept);
    } else {
      var t := EmitFirst(s, rid, y, FILLER, channel, now, kept);
      ExposesSent(s, t, s.requests[rid].nonBlocking, channel, cursor, FILLER, more, kept);
      steps := FillersEscape(t, rid, channel, cursor, y, more - 1, now, kept);
      steps := [Emit(y, FILLER)] + steps;
    }
  }

  /** A live executor of the task itself fills the channel with a snapshot that is not terminal. */
  lemma {:induction false} EmitEscapes(
    s: System, rid: nat, channel: nat, cursor: nat, y: nat, w: Task, n: nat, now: string, kept: Task)
    returns (steps: seq<Step>)
    requires At(s, rid, now, kept) && s.requests[rid].phase == Collecting(channel, cursor)
    requires channel < |s.channels| && n <= s.capacity
    requires y in s.executors && s.executors[y].channel == channel && s.executors[y].failed.None?
    requires s.executors[y].taskId == kept.id
    requires w.id == kept.id && w != kept
    requires cursor + (s.capacity - n) <= |s.channels[channel].log|
    requires forall i :: |s.channels[channel].log| - (s.capacity - n) <= i < |s.channels[channel].log| ==>
               s.channels[channel].log[i] == TaskEvent(w)
    ensures Escapes(s, steps, kept)
    decreases n
  {
    var log := s.channels[channel].log;
    if n == 0 {
      var first := |log| - s.capacity;
      assert Pending(s, channel, cursor, 0) == log[first..];
      assert log[first..][0] == TaskEvent(w);
      steps := PendingEscapes(s, rid, channel, cursor, now, kept);
    } else {
      var t := EmitFirst(s, rid, y, TaskEvent(w), channel, now, kept);
      steps := EmitEscapes(t, rid, channel, cursor, y, w, n - 1, now, kept);
      steps := [Emit(y, TaskEvent(w))] + steps;
    }
  }

  // ---- Getting a live executor on another task's channel -----------------------------------

  /** Steps that are loyal in every state. */
  predicate Innocent(step: Step, id: string) {
    match step
    case Send(_, params, _, _) => params.message.taskId.Some?
    case Emit(_, event) => !Names(event, id)
    case Fail(_, _, _, _) => false
    case _ => true
  }

  lemma {:induction false} AllInnocent(s: System, steps: seq<Step>, id: string)
    requires forall i :: 0 <= i < |steps| ==> Innocent(steps[i], id)
    ensures AllLoyal(s, steps, id)
    decreases steps
  {
    if steps != [] { AllInnocent(Next(s, steps[0]), steps[1..], id); }
  }

  function BlockingSend(t: string): SendParams {
    var part := Part(Text(""), None, None, None);
    SendParams(Message("m", Some(""), Some(t), User, [part], None, [], []), Some(false))
  }

  /** The readers and channels of s, as they were, and the task still kept. */
  ghost predicate Undisturbing(s: System, t: System) {
    && t.capacity == s.capacity && |s.channels| <= |t.channels|
    && (forall c :: 0 <= c < |s.channels| ==> t.channels[c] == s.channels[c])
    && (forall r :: r in s.requests ==> r in t.requests && t.requests[r] == s.requests[r])
  }

  /** A new request on a task that is not terminal joins the task's channel with a live executor. */
  lemma Joins(s: System, t: string, id: string) returns (steps: seq<Step>, u: System, n: nat)
    requires Wired(s) && t in s.queues && !s.Ended(t)
    ensures u == Run(s, steps) && AllLoyal(s, steps, id) && Undisturbing(s, u) && Wired(u) && u.store == s.store
    ensures n in u.executors && u.executors[n].channel == s.queues[t] && u.executors[n].failed.None?
  {
    n := Above(s.requests.Keys + s.executors.Keys);
    assert n !in s.requests && n !in s.executors;
    steps := Start(n, BlockingSend(t));
    u := Run(s, steps);
    Starts(s, n, BlockingSend(t), t, "");
    StartedElsewhere(s, n, t);
    EveryRunIsWired(s, steps);
    StartIsInnocent(n, BlockingSend(t), id);
    AllInnocent(s, steps, id);
  }

  lemma StartIsInnocent(n: nat, params: SendParams, id: string)
    requires params.message.taskId.Some?
    ensures forall i :: 0 <= i < |Start(n, params)| ==> Innocent(Start(n, params)[i], id)
  {}

  lemma StartedElsewhere(s: System, n: nat, t: string)
    requires Wired(s) && t in s.queues && n !in s.requests && n !in s.executors
    ensures var u := Started(s, n, t, "");
            && Undisturbing(s, u) && u.store == s.store && n in u.executors
            && u.executors[n].channel == s.queues[t] && u.executors[n].failed.None?
  {
    assert Owned(s, s.queues[t], t);
  }

  lemma JoinEscapes(s: System, rid: nat, channel: nat, cursor: nat, t: string, more: nat, now: string, kept: Task)
    returns (steps: seq<Step>)
    requires At(s, rid, now, kept) && s.requests[rid].phase == Collecting(channel, cursor)
    requires channel < |s.channels| && cursor <= |s.channels[channel].log|
    requires t in s.queues && s.queues[t] == channel && !s.Ended(t)
    requires Exposes(s.requests[rid].nonBlocking, Pending(s, channel, cursor, more), kept)
    ensures Escapes(s, steps, kept)
  {
    var join, u, n := Joins(s, t, kept.id);
    assert Pending(u, channel, cursor, more) == Pending(s, channel, cursor, more);
    steps := FillersEscape(u, rid, channel, cursor, n, more, now, kept);
    EscapeAfter(s, join, steps, kept);
    steps := join + steps;
  }

  /** Another terminal task can be made non-terminal from elsewhere. */
  lemma Revives(s: System, t: string, now: string, id: string) returns (steps: seq<Step>, u: System)
    requires Wired(s) && s.capacity > 0 && s.Ended(t) && t != id
    ensures u == Run(s, steps) && AllLoyal(s, steps, id) && Undisturbing(s, u) && Wired(u)
    ensures !u.Ended(t) && Same(s.store, u.store, id)
    ensures forall q :: q in s.queues ==> q in u.queues && u.queues[q] == s.queues[q]
  {
    var n := Above(s.requests.Keys + s.executors.Keys);
    var other := Unused(s.store.Keys + s.queues.Keys);
    var w := s.store[t].(status := NewStatus(Working, now));
    steps := Complete(n, BlockingSend(other), w, now);
    u := Run(s, steps);
    EveryRunIsWired(s, steps);
    CompleteIsInnocent(n, BlockingSend(other), w, now, id);
    AllInnocent(s, steps, id);
    assert n !in s.requests && n !in s.executors && other !in s.store && other !in s.queues;
    CompletesElsewhere(s, n, BlockingSend(other), w, other, now);
  }

  lemma CompleteIsInnocent(n: nat, params: SendParams, w: Task, now: string, id: string)
    requires params.message.taskId.Some? && w.id != id
    ensures forall i :: 0 <= i < |Complete(n, params, w, now)| ==> Innocent(Complete(n, params, w, now)[i], id)
  {}

  /** A request on an unknown task gets a channel of its own. */
  lemma CompletesElsewhere(s: System, n: nat, params: SendParams, w: Task, other: string, now: string)
    requires SendsTo(params, other, "") && other !in s.store && other !in s.queues
    requires n !in s.requests && n !in s.executors && s.capacity > 0
    ensures var u := Run(s, Complete(n, params, w, now));
            && Undisturbing(s, u) && u.store == s.store[w.id := w] && u.queues == s.queues[other := |s.channels|]
  {
    Completes(s, n, params, w, other, "", now);
  }

  lemma RegisteredEscapes(s: System, rid: nat, channel: nat, cursor: nat, t: string, more: nat, now: string, kept: Task)
    returns (steps: seq<Step>)
    requires At(s, rid, now, kept) && s.requests[rid].phase == Collecting(channel, cursor)
    requires channel < |s.channels| && cursor <= |s.channels[channel].log|
    requires t in s.queues && s.queues[t] == channel && t != kept.id
    requires Exposes(s.requests[rid].nonBlocking, Pending(s, channel, cursor, more), kept)
    ensures Escapes(s, steps, kept)
  {
    if s.Ended(t) {
      var revive, u := Revives(s, t, now, kept.id);
      assert Pending(u, channel, cursor, more) == Pending(s, channel, cursor, more);
      steps := JoinEscapes(u, rid, channel, cursor, t, more, now, kept);
      EscapeAfter(s, revive, steps, kept);
      steps := revive + steps;
    } else {
      steps := JoinEscapes(s, rid, channel, cursor, t, more, now, kept);
    }
  }

  lemma SubscribeFirst(s: System, rid: nat, r: nat, now: string, kept: Task) returns (t: System)
    requires At(s, rid, now, kept) && r in s.requests && s.requests[r].phase.Opened?
    ensures At(t, rid, now, kept) && Leads(s, [Subscribe(r)], t, kept)
    ensures t.channels == s.channels && t.capacity == s.capacity
    ensures r in t.requests && (rid != r ==> t.requests[rid] == s.requests[rid])
    ensures var channel := s.requests[r].phase.channel;
            && channel < |s.channels| && r in t.executors && t.executors[r].channel == channel
            && t.executors[r].failed.None? && t.executors[r].taskId == s.requests[r].taskId
            && t.requests[r] == s.requests[r].(phase := Collecting(channel, |s.channels[channel].log|))
  {
    assert Linked(s, s.requests[r]);
    t := Next(s, Subscribe(r));
    StepKeepsWired(s, Subscribe(r));
    StepLeads(s, Subscribe(r), kept);
  }

  lemma SubscribeEscapes(s: System, rid: nat, channel: nat, cursor: nat, r: nat, more: nat, now: string, kept: Task)
    returns (steps: seq<Step>)
    requires At(s, rid, now, kept) && s.requests[rid].phase == Collecting(channel, cursor)
    requires channel < |s.channels| && cursor <= |s.channels[channel].log|
    requires r in s.requests && s.requests[r].phase.Opened? && s.requests[r].phase.channel == channel
    requires Exposes(s.requests[rid].nonBlocking, Pending(s, channel, cursor, more), kept)
    ensures Escapes(s, steps, kept)
  {
    var t := SubscribeFirst(s, rid, r, now, kept);
    assert Pending(t, channel, cursor, more) == Pending(s, channel, cursor, more);
    steps := FillersEscape(t, rid, channel, cursor, r, more, now, kept);
    steps := [Subscribe(r)] + steps;
  }

  // ---- Every unsafe request ----------------------------------------------------------------

  lemma GrowingEscapes(s: System, rid: nat, channel: nat, cursor: nat, more: nat, now: string, kept: Task)
    returns (steps: seq<Step>)
    requires At(s, rid, now, kept) && s.requests[rid].phase == Collecting(channel, cursor)
    requires channel < |s.channels| && cursor <= |s.channels[channel].log|
    requires s.channels[channel].owner != kept.id && Growing(s, channel)
    requires Exposes(s.requests[rid].nonBlocking, Pending(s, channel, cursor, more), kept)
    ensures Escapes(s, steps, kept)
  {
    if !Silent(s, channel) {
      var y :| y in s.executors && s.executors[y].channel == channel && s.executors[y].failed.None?;
      steps := FillersEscape(s, rid, channel, cursor, y, more, now, kept);
    } else if r :| r in s.requests && s.requests[r].phase.Opened? && s.requests[r].phase.channel == channel {
      steps := SubscribeEscapes(s, rid, channel, cursor, r, more, now, kept);
    } else {
      var t :| t in s.queues && s.queues[t] == channel;
      assert Owned(s, channel, t);
      steps := RegisteredEscapes(s, rid, channel, cursor, t, more, now, kept);
    }
  }

  lemma NotQuietEscapes(s: System, rid: nat, channel: nat, cursor: nat, now: string, kept: Task)
    returns (steps: seq<Step>)
    requires At(s, rid, now, kept) && s.requests[rid].phase == Collecting(channel, cursor)
    requires !Quiet(s, s.requests[rid].nonBlocking, channel, cursor, kept)
    ensures Escapes(s, steps, kept)
  {
    assert Linked(s, s.requests[rid]);
    if s.channels[channel].owner == kept.id && !Silent(s, channel) {
      var y :| y in s.executors && s.executors[y].channel == channel && s.executors[y].failed.None?;
      assert Owned(s, channel, s.executors[y].taskId);
      var w := kept.(status := NewStatus(Working, now));
      steps := EmitEscapes(s, rid, channel, cursor, y, w, s.capacity, now, kept);
    } else {
      var more: nat :| MayGrow(s, channel, more, kept.id)
        && Exposes(s.requests[rid].nonBlocking, Pending(s, channel, cursor, more), kept);
      if more <= |Reporters(s, channel)| {
        steps := ReportsEscape(s, rid, channel, cursor, more, now, kept);
      } else {
        steps := GrowingEscapes(s, rid, channel, cursor, more, now, kept);
      }
    }
  }

  lemma QuietFrame(s: System, t: System, rid: nat, phase: Phase, channel: nat, cursor: nat, kept: Task)
    requires rid in s.requests && !s.requests[rid].phase.Opened? && !phase.Opened?
    requires t == s.WithPhase(rid, phase).(store := t.store)
    ensures Quiet(t, s.requests[rid].nonBlocking, channel, cursor, kept) ==>
              Quiet(s, s.requests[rid].nonBlocking, channel, cursor, kept)
  {
    if channel < |s.channels| && Quiet(t, s.requests[rid].nonBlocking, channel, cursor, kept) {
      LeaversCalmer(t, s, kept.id);
      QuietCalmer(t, s, s.requests[rid].nonBlocking, channel, cursor, kept);
    }
  }

  lemma ReceivedNotQuietEscapes(s: System, rid: nat, channel: nat, cursor: nat, e: Event, now: string, kept: Task)
    returns (steps: seq<Step>)
    requires At(s, rid, now, kept) && s.requests[rid].phase == Received(channel, cursor, e)
    requires !Harmful(e, kept) && !Stops(s.requests[rid].nonBlocking, e)
    requires !Quiet(s, s.requests[rid].nonBlocking, channel, cursor, kept)
    ensures Escapes(s, steps, kept)
  {
    HarmlessEvent(s, rid, now, kept);
    var t := Next(s, Load(rid, now));
    var u := Next(t, Save(rid));
    QuietFrame(s, u, rid, Collecting(channel, cursor), channel, cursor, kept);
    var later := NotQuietEscapes(u, rid, channel, cursor, now, kept);
    EscapeLater(t, Save(rid), later, kept);
    EscapeLater(s, Load(rid, now), [Save(rid)] + later, kept);
    steps := [Load(rid, now)] + ([Save(rid)] + later);
  }

  lemma SavingEscapes(s: System, rid: nat, now: string, kept: Task) returns (steps: seq<Step>)
    requires At(s, rid, now, kept) && !Unharmed(s, s.requests[rid], kept) && s.requests[rid].phase.Saving?
    ensures Escapes(s, steps, kept)
  {
    var p := s.requests[rid].phase;
    if p.snapshot.Some? && p.snapshot.value.id == kept.id && p.snapshot.value != kept {
      SaveEscapes(s, rid, now, kept);
      steps := [Save(rid)];
    } else {
      HarmlessSave(s, rid, now, kept);
      var t := Next(s, Save(rid));
      QuietFrame(s, t, rid, Collecting(p.channel, p.cursor), p.channel, p.cursor, kept);
      steps := NotQuietEscapes(t, rid, p.channel, p.cursor, now, kept);
      EscapeLater(s, Save(rid), steps, kept);
      steps := [Save(rid)] + steps;
    }
  }

  /** A request on the task that is about to subscribe brings an executor that can emit anything. */
  lemma OpenedEscapes(s: System, rid: nat, now: string, kept: Task) returns (steps: seq<Step>)
    requires At(s, rid, now, kept) && s.requests[rid].phase.Opened? && s.requests[rid].taskId == kept.id
    ensures Escapes(s, steps, kept)
  {
    var channel := s.requests[rid].phase.channel;
    assert Linked(s, s.requests[rid]);
    var t := SubscribeFirst(s, rid, rid, now, kept);
    steps := NotQuietEscapes(t, rid, channel, |s.channels[channel].log|, now, kept);
    steps := [Subscribe(rid)] + steps;
  }

  lemma HarmEscapes(s: System, rid: nat, now: string, kept: Task) returns (steps: seq<Step>)
    requires At(s, rid, now, kept) && !Unharmed(s, s.requests[rid], kept)
    ensures Escapes(s, steps, kept)
  {
    match s.requests[rid].phase
    case Admitted(_) =>
      StepKeepsWired(s, Open(rid));
      steps := OpenedEscapes(Next(s, Open(rid)), rid, now, kept);
      EscapeLater(s, Open(rid), steps, kept);
      steps := [Open(rid)] + steps;
    case Opened(_, _) => steps := OpenedEscapes(s, rid, now, kept);
    case Collecting(channel, cursor) => steps := NotQuietEscapes(s, rid, channel, cursor, now, kept);
    case Received(channel, cursor, e) =>
      if Harmful(e, kept) {
        ReceivedEscapes(s, rid, now, kept);
        steps := [Load(rid, now), Save(rid)];
      } else {
        steps := ReceivedNotQuietEscapes(s, rid, channel, cursor, e, now, kept);
      }
    case Saving(_, _, _, _, _) => steps := SavingEscapes(s, rid, now, kept);
  }

  // ---- Exactly the safe states -------------------------------------------------------------

  /** Every loyal continuation keeps the task. */
  ghost predicate AlwaysKept(s: System, kept: Task) {
    forall later :: AllLoyal(s, later, kept.id) ==> Keeps(Run(s, later), kept)
  }

  /**
   In any state a run can reach, with any number of requests on the task and any events on any channel:
   a terminal task is kept by every loyal continuation if and only if no request can still read an event
   that replaces it. Only a report still to come must not be about an earlier task than the stored one.
   */
  lemma TerminalIsKeptIff(s: System, id: string)
    requires Wired(s) && s.capacity > 0 && s.Ended(id) && FailuresStored(s, id)
    ensures AlwaysKept(s, s.store[id]) <==> Safe(s, s.store[id])
  {
    var kept := s.store[id];
    if Safe(s, kept) {
      forall later | AllLoyal(s, later, id) ensures Keeps(Run(s, later), kept) { RunGuarded(s, later, id); }
    } else {
      var rid :| rid in s.requests && !Unharmed(s, s.requests[rid], kept);
      var now := if kept.status.timestamp == Some("") then "later" else "";
      var later := HarmEscapes(s, rid, now, kept);
      assert AllLoyal(s, later, id) && !Keeps(Run(s, later), kept);
    }
  }

  lemma {:induction false} LoyalRunHasNoFailure(s: System, steps: seq<Step>, id: string)
    requires AllLoyal(s, steps, id) && forall x :: !FailedHere(s, x, id)
    ensures forall x :: !FailedHere(Run(s, steps), x, id)
    ensures Run(s, steps).capacity == s.capacity
    decreases steps
  {
    if steps != [] {
      LoyalStepHasNoFailure(s, steps[0], id);
      LoyalRunHasNoFailure(Next(s, steps[0]), steps[1..], id);
    }
  }

  lemma LoyalStepHasNoFailure(s: System, step: Step, id: string)
    requires Loyal(s, step, id) && forall x :: !FailedHere(s, x, id)
    ensures forall x :: !FailedHere(Next(s, step), x, id)
    ensures Next(s, step).capacity == s.capacity
  {
    forall x ensures !FailedHere(Next(s, step), x, id) { assert !FailedHere(s, x, id); }
  }

  /** After any loyal run, however requests on the task overlap in it. */
  lemma OverlapsKeptIff(capacity: nat, steps: seq<Step>, id: string)
    requires capacity > 0 && AllLoyal(Idle(capacity), steps, id) && Run(Idle(capacity), steps).Ended(id)
    ensures var s := Run(Idle(capacity), steps);
            AlwaysKept(s, s.store[id]) <==> Safe(s, s.store[id])
  {
    LoyalRunHasNoFailure(Idle(capacity), steps, id);
    EveryRunIsWired(Idle(capacity), steps);
    TerminalIsKeptIff(Run(Idle(capacity), steps), id);
  }

  /** An executor fails after any loyal run: what it saves is kept if and only if that is undisturbed. */
  lemma FailureIsKeptIff(capacity: nat, steps: seq<Step>, x: nat, error: string, messageId: string, now: string)
    requires capacity > 0 && x in Run(Idle(capacity), steps).executors
    requires AllLoyal(Idle(capacity), steps, Run(Idle(capacity), steps).executors[x].taskId)
    ensures var s := Run(Idle(capacity), steps);
            var failed := FailedTask(s.executors[x], error, messageId, now);
            AlwaysKept(Next(s, Fail(x, error, messageId, now)), failed) <==> Undisturbed(s, x, failed)
  {
    var s := Run(Idle(capacity), steps);
    var failed := FailedTask(s.executors[x], error, messageId, now);
    LoyalRunHasNoFailure(Idle(capacity), steps, failed.id);
    EveryRunIsWired(Idle(capacity), steps);
    assert !FailedHere(s, x, failed.id);
    var t := SaveFailed(s, x, failed);
    FailKeepsWired(s, x, failed);
    forall y | FailedHere(t, y, failed.id) ensures y == x { assert !FailedHere(s, y, failed.id); }
    TerminalIsKeptIff(t, failed.id);
  }

  // ---- What is safe ------------------------------------------------------------------------

  /** The request has its answer, or only harmless events left to read and no live executor to wait for. */
  ghost predicate HarmlessBacklog(s: System, r: Request, kept: Task) {
    r.phase.Answered?
    || (r.phase.Collecting? && r.phase.channel < |s.channels| && r.phase.cursor <= |s.channels[r.phase.channel].log|
        && Silent(s, r.phase.channel)
        && forall i :: r.phase.cursor <= i < |s.channels[r.phase.channel].log| ==>
             !Harmful(s.channels[r.phase.channel].log[i], kept))
  }

  /** In particular, however many requests on the task are still waiting for messages or artifacts only. */
  lemma HarmlessBacklogIsSafe(s: System, kept: Task)
    requires Wired(s) && Pure(s, kept.id)
    requires forall r :: r in s.requests && s.requests[r].taskId == kept.id ==> HarmlessBacklog(s, s.requests[r], kept)
    ensures Safe(s, kept)
  {
    forall r | r in s.requests ensures Unharmed(s, s.requests[r], kept) {
      assert Linked(s, s.requests[r]);
      if s.requests[r].taskId != kept.id {
        PureUnharmed(s, s.requests[r], kept);
      } else if s.requests[r].phase.Collecting? {
        HarmlessQuiet(s, s.requests[r], kept);
      }
    }
  }

  lemma HarmlessQuiet(s: System, r: Request, kept: Task)
    requires r.phase.Collecting? && HarmlessBacklog(s, r, kept)
    ensures Quiet(s, r.nonBlocking, r.phase.channel, r.phase.cursor, kept)
  {
    var channel, cursor := r.phase.channel, r.phase.cursor;
    var log := s.channels[channel].log;
    forall more: nat, k | 0 <= k < |Pending(s, channel, cursor, more)|
      ensures !Harmful(Pending(s, channel, cursor, more)[k], kept)
    {
      var first := if |log| + more > s.capacity + cursor then |log| + more - s.capacity else cursor;
      assert Pending(s, channel, cursor, more)[k] == log[first + k];
    }
  }
}
