/**
 The task lifecycle as a step machine (ra2a/src/server/handler/default.rs): requests that collect,
 executors that emit in the background and may outlive their request, and the channels between them.
 Every access to the store, the queue map or a channel is a step of its own, so anything may happen
 in between.
 */
module Lifecycle {
  import opened Wrappers
  import opened Types
  import opened Collector
  import B = Broadcast

  datatype SendParams = SendParams(message: Message, returnImmediately: Option<bool>) {
    /** Without a configuration a send does not block. */
    predicate NonBlocking() { returnImmediately.UnwrapOr(true) }
  }

  /** `build_request_context`: the task and context id a send works on, or its rejection. */
  function Admit(store: Store, m: Message, freshTask: string, freshContext: string)
    : Result<(string, string), HandlerError>
  {
    if m.id == "" then Err(MessageIdRequired)
    else if m.parts == [] then Err(PartsRequired)
    else
      match (m.taskId, m.contextId)
      case (Some(t), Some(c)) =>
        if t in store && store[t].IsTerminal() then Err(TaskInTerminalState(t)) else Ok((t, c))
      case (Some(t), None) =>
        if t !in store then Err(TaskNotFound(t))
        else if store[t].IsTerminal() then Err(TaskInTerminalState(t))
        else Ok((t, store[t].contextId))
      case (None, Some(c)) => Ok((freshTask, c))
      case (None, None) => Ok((freshTask, freshContext))
  }

  /** Exactly which messages are admitted: a named task may be unknown only if the context is given too. */
  lemma AdmittedIff(store: Store, m: Message, freshTask: string, freshContext: string)
    ensures var r := Admit(store, m, freshTask, freshContext);
            && (r.Ok? <==>
                  && m.id != "" && m.parts != []
                  && (m.taskId.Some? && m.taskId.value in store ==> !store[m.taskId.value].IsTerminal())
                  && (m.taskId.Some? && m.taskId.value !in store ==> m.contextId.Some?))
            && (r.Ok? ==> r.value.0 == m.taskId.UnwrapOr(freshTask))
            && (r.Ok? && m.contextId.Some? ==> r.value.1 == m.contextId.value)
            && (r.Ok? && m.contextId.None? ==>
                  r.value.1 == if m.taskId.Some? then store[m.taskId.value].contextId else freshContext)
  {}

  // ---- The machine -------------------------------------------------------------------------

  /** A broadcast channel: every event ever sent, and the task whose queue it was created as. */
  datatype Channel = Channel(owner: string, log: seq<Event>)

  /**
   Where a request stands: it has passed the terminal check, has its queue, waits for an event at a
   cursor, has taken one, has the snapshot it is about to save, or has its answer.
   */
  datatype Phase =
    | Admitted(contextId: string)
    | Opened(contextId: string, channel: nat)
    | Collecting(channel: nat, cursor: nat)
    | Received(channel: nat, cursor: nat, event: Event)
    | Saving(channel: nat, cursor: nat, event: Event, now: string, snapshot: Option<Task>)
    | Answered

  datatype Request = Request(taskId: string, nonBlocking: bool, phase: Phase)

  /** A spawned execution or cancellation; `failed` is the task a failing one has saved itself. */
  datatype Executor = Executor(taskId: string, contextId: string, channel: nat, failed: Option<Task>)

  /** `capacity` is that of every channel: how many events a receiver may be behind. */
  datatype System = System(
    capacity: nat, store: Store, queues: map<string, nat>, channels: seq<Channel>,
    executors: map<nat, Executor>, requests: map<nat, Request>)
  {
    ghost predicate Active(taskId: string) {
      exists r :: r in requests && requests[r].taskId == taskId
    }

    /** The stored task is terminal. */
    predicate Ended(taskId: string) {
      taskId in store && store[taskId].IsTerminal()
    }

    function WithPhase(id: nat, phase: Phase): System
      requires id in requests
    {
      this.(requests := requests[id := requests[id].(phase := phase)])
    }
  }

  datatype Step =
    | Send(id: nat, params: SendParams, freshTask: string, freshContext: string)
    | Cancel(id: nat, taskId: string)
    | Open(id: nat)
    | Subscribe(id: nat)
    | Receive(id: nat)
    | Load(id: nat, now: string)
    | Save(id: nat)
    | Leave(id: nat)
    | Drop(id: nat)
    | Emit(id: nat, event: Event)
    | Fail(id: nat, error: string, messageId: string, now: string)
    | Report(id: nat)
    | Finish(id: nat)

  function Idle(capacity: nat): System {
    System(capacity, map[], map[], [], map[], map[])
  }

  /** `get_or_create_queue`. */
  function OpenQueue(s: System, id: nat): System
    requires id in s.requests && s.requests[id].phase.Admitted?
  {
    var r := s.requests[id];
    var known := r.taskId in s.queues && s.queues[r.taskId] < |s.channels|;
    var channel := if known then s.queues[r.taskId] else |s.channels|;
    s.WithPhase(id, Opened(r.phase.contextId, channel))
     .(queues := s.queues[r.taskId := channel],
       channels := if known then s.channels else s.channels + [Channel(r.taskId, [])])
  }

  function SendOn(s: System, channel: nat, e: Event): System {
    if channel < |s.channels|
    then s.(channels := s.channels[channel := s.channels[channel].(log := s.channels[channel].log + [e])])
    else s
  }

  function FailedTask(x: Executor, error: string, messageId: string, now: string): Task {
    var text := Part(Text(error), None, None, None);
    var message := Message(messageId, None, None, Agent, [text], None, [], []);
    NewTask(x.taskId, x.contextId, now).(status := TaskStatus(Failed, Some(message), Some(now)))
  }

  /** An executor saves the failed task; it will report it on its channel. */
  function SaveFailed(s: System, id: nat, t: Task): System
    requires id in s.executors
  {
    s.(store := s.store[t.id := t], executors := s.executors[id := s.executors[id].(failed := Some(t))])
  }

  /** What `recv` yields: nothing yet, a lag, after which the collector tries again, or an event. */
  function Receiving(s: System, channel: nat, cursor: nat): Phase
    requires channel < |s.channels|
  {
    match B.Pull(s.capacity, s.channels[channel].log, cursor)
    case None => Collecting(channel, cursor)
    case Some(Missed(n)) => Collecting(channel, cursor + n)
    case Some(Delivered(e)) => Received(channel, cursor + 1, e)
  }

  function AfterSaving(r: Request): Phase
    requires r.phase.Saving?
  {
    if Stops(r.nonBlocking, r.phase.event) then Answered else Collecting(r.phase.channel, r.phase.cursor)
  }

  /** A step of request `id`; a step that its phase does not allow changes nothing. */
  function NextOf(s: System, id: nat, step: Step): System
    requires id in s.requests
  {
    var r := s.requests[id];
    match (step, r.phase)
    case (Open(_), Admitted(_)) => OpenQueue(s, id)
    case (Subscribe(_), Opened(contextId, channel)) =>
      if channel >= |s.channels| then s
      else s.WithPhase(id, Collecting(channel, |s.channels[channel].log|))
            .(executors := s.executors[id := Executor(r.taskId, contextId, channel, None)])
    case (Receive(_), Collecting(channel, cursor)) =>
      if channel >= |s.channels| then s else s.WithPhase(id, Receiving(s, channel, cursor))
    case (Load(_, now), Received(channel, cursor, event)) =>
      s.WithPhase(id, Saving(channel, cursor, event, now, SnapshotOf(s.store, event, now)))
    case (Save(_), Saving(_, _, _, _, snapshot)) =>
      s.WithPhase(id, AfterSaving(r))
       .(store := match snapshot case Some(t) => s.store[t.id := t] case None => s.store)
    case (Leave(_), Answered) => s.(requests := s.requests - {id}, queues := s.queues - {r.taskId})
    case (Drop(_), _) => s.(requests := s.requests - {id})
    case _ => s
  }

  /**
   One step. A send or cancellation enters with the check of the stored task; a request may be
   dropped at any point; an executor may be aborted, which is `Finish`, at any point.
   */
  function Next(s: System, step: Step): System {
    match step
    case Send(id, params, freshTask, freshContext) =>
      if id in s.requests || id in s.executors then s
      else
        (match Admit(s.store, params.message, freshTask, freshContext)
         case Err(_) => s
         case Ok((taskId, contextId)) =>
           s.(requests := s.requests[id := Request(taskId, params.NonBlocking(), Admitted(contextId))]))
    case Cancel(id, taskId) =>
      if id in s.requests || id in s.executors || taskId !in s.store || s.Ended(taskId) then s
      else s.(requests := s.requests[id := Request(taskId, false, Admitted(s.store[taskId].contextId))])
    case Emit(id, event) =>
      if id in s.executors && s.executors[id].failed.None? then SendOn(s, s.executors[id].channel, event) else s
    case Fail(id, error, messageId, now) =>
      if id !in s.executors || s.executors[id].failed.Some? then s
      else SaveFailed(s, id, FailedTask(s.executors[id], error, messageId, now))
    case Report(id) =>
      if id in s.executors && s.executors[id].failed.Some?
      then SendOn(s, s.executors[id].channel, TaskEvent(s.executors[id].failed.value))
             .(executors := s.executors - {id})
      else s
    case Finish(id) => s.(executors := s.executors - {id})
    case _ => if step.id in s.requests then NextOf(s, step.id, step) else s
  }

  function Run(s: System, steps: seq<Step>): System
    decreases steps
  {
    if steps == [] then s else Run(Next(s, steps[0]), steps[1..])
  }

  // ---- What every run keeps ----------------------------------------------------------------

  predicate Owned(s: System, channel: nat, taskId: string) {
    channel < |s.channels| && s.channels[channel].owner == taskId
  }

  /** The snapshot a request has loaded for an event, whatever the store was then. */
  predicate Fits(e: Event, now: string, snapshot: Option<Task>) {
    match e
    case TaskEvent(t) => snapshot == Some(t)
    case StatusEvent(u) =>
      snapshot.Some? ==> snapshot.value.id == u.taskId && snapshot.value.status == NewStatus(u.status.state, now)
    case _ => snapshot == None
  }

  /** A receiver stands inside a channel of its request's task. */
  predicate Stands(s: System, r: Request, channel: nat, cursor: nat) {
    Owned(s, channel, r.taskId) && cursor <= |s.channels[channel].log|
  }

  predicate Linked(s: System, r: Request) {
    match r.phase
    case Opened(_, channel) => Owned(s, channel, r.taskId)
    case Collecting(channel, cursor) => Stands(s, r, channel, cursor)
    case Received(channel, cursor, _) => Stands(s, r, channel, cursor)
    case Saving(channel, cursor, e, now, snapshot) => Stands(s, r, channel, cursor) && Fits(e, now, snapshot)
    case _ => true
  }

  ghost predicate ExecutorsWired(s: System) {
    forall x :: x in s.executors ==>
      && Owned(s, s.executors[x].channel, s.executors[x].taskId)
      && (s.executors[x].failed.Some? ==> s.executors[x].failed.value.id == s.executors[x].taskId)
  }

  ghost predicate RequestsWired(s: System) {
    forall r :: r in s.requests ==>
      Linked(s, s.requests[r])
      && (s.requests[r].phase.Admitted? || s.requests[r].phase.Opened? ==> r !in s.executors)
  }

  /** Everyone works on a channel of its own task; holds without any condition. */
  ghost predicate Wired(s: System) {
    && Keyed(s.store) && ExecutorsWired(s) && RequestsWired(s)
    && (forall t :: t in s.queues ==> Owned(s, s.queues[t], t))
  }

  /** Channels only grow. */
  ghost predicate Extends(s: System, t: System) {
    |s.channels| <= |t.channels|
    && forall c :: 0 <= c < |s.channels| ==>
         t.channels[c].owner == s.channels[c].owner && s.channels[c].log <= t.channels[c].log
  }

  lemma LinkedLater(s: System, t: System, r: Request)
    requires Linked(s, r) && Extends(s, t)
    ensures Linked(t, r)
  {}

  /** Requests leave, executors leave, channels grow, a keyed task is saved. */
  lemma LessKeepsWired(s: System, t: System)
    requires Wired(s) && Extends(s, t) && Keyed(t.store)
    requires forall r :: r in t.requests ==> r in s.requests && t.requests[r] == s.requests[r]
    requires forall x :: x in t.executors ==> x in s.executors && t.executors[x] == s.executors[x]
    requires forall q :: q in t.queues ==> q in s.queues && t.queues[q] == s.queues[q]
    ensures Wired(t)
  {
    forall r | r in t.requests ensures Linked(t, t.requests[r]) { LinkedLater(s, t, s.requests[r]); }
  }

  /** A request moves to another phase. */
  lemma MoveKeepsWired(s: System, id: nat, phase: Phase, store: Store)
    requires Wired(s) && id in s.requests && Keyed(store)
    requires Linked(s, s.requests[id].(phase := phase)) && !phase.Admitted? && !phase.Opened?
    ensures Wired(s.WithPhase(id, phase).(store := store))
  {
    var t := s.WithPhase(id, phase).(store := store);
    forall r | r in t.requests ensures Linked(t, t.requests[r]) {
      if r != id { LinkedLater(s, t, s.requests[r]); }
    }
  }

  lemma EnterKeepsWired(s: System, id: nat, r: Request)
    requires Wired(s) && id !in s.requests && id !in s.executors && r.phase.Admitted?
    ensures Wired(s.(requests := s.requests[id := r]))
  {
    var t := s.(requests := s.requests[id := r]);
    forall x | x in s.requests ensures Linked(t, s.requests[x]) { LinkedLater(s, t, s.requests[x]); }
  }

  lemma OpenKeepsWired(s: System, id: nat)
    requires Wired(s) && id in s.requests && s.requests[id].phase.Admitted?
    ensures Wired(OpenQueue(s, id))
  {
    var t := OpenQueue(s, id);
    forall c | 0 <= c < |s.channels| ensures t.channels[c] == s.channels[c] {}
    forall r | r in t.requests ensures Linked(t, t.requests[r]) {
      if r != id { LinkedLater(s, t, s.requests[r]); }
    }
  }

  lemma SubscribeKeepsWired(s: System, id: nat)
    requires Wired(s) && id in s.requests && s.requests[id].phase.Opened?
    ensures Wired(NextOf(s, id, Subscribe(id)))
  {
    var r := s.requests[id];
    var channel := r.phase.channel;
    assert Linked(s, r);
    var moved := s.WithPhase(id, Collecting(channel, |s.channels[channel].log|));
    MoveKeepsWired(s, id, Collecting(channel, |s.channels[channel].log|), s.store);
    SpawnKeepsWired(moved, id, Executor(r.taskId, r.phase.contextId, channel, None));
  }

  lemma SpawnKeepsWired(s: System, id: nat, x: Executor)
    requires Wired(s) && id in s.requests && s.requests[id].phase.Collecting?
    requires Owned(s, x.channel, x.taskId) && x.failed.None?
    ensures Wired(s.(executors := s.executors[id := x]))
  {
    var t := s.(executors := s.executors[id := x]);
    forall r | r in t.requests ensures Linked(t, t.requests[r]) { LinkedLater(s, t, s.requests[r]); }
  }

  lemma SendOnExtends(s: System, channel: nat, e: Event)
    ensures Extends(s, SendOn(s, channel, e))
  {}

  lemma ReceivingStays(s: System, r: Request)
    requires r.phase.Collecting? && Linked(s, r)
    ensures var phase := Receiving(s, r.phase.channel, r.phase.cursor);
            && Linked(s, r.(phase := phase))
            && (phase.Received? ==> phase.event in s.channels[r.phase.channel].log)
  {}

  lemma ReceiveKeepsWired(s: System, id: nat)
    requires Wired(s) && id in s.requests && s.requests[id].phase.Collecting?
    ensures Wired(NextOf(s, id, Receive(id)))
  {
    var r := s.requests[id];
    assert Linked(s, r);
    ReceivingStays(s, r);
    MoveKeepsWired(s, id, Receiving(s, r.phase.channel, r.phase.cursor), s.store);
  }

  lemma SaveKeepsWired(s: System, id: nat)
    requires Wired(s) && id in s.requests && s.requests[id].phase.Saving?
    ensures Wired(NextOf(s, id, Save(id)))
  {
    var t, r := NextOf(s, id, Save(id)), s.requests[id];
    assert Linked(s, r);
    MoveKeepsWired(s, id, AfterSaving(r), t.store);
  }

  lemma LoadKeepsWired(s: System, id: nat, now: string)
    requires Wired(s) && id in s.requests && s.requests[id].phase.Received?
    ensures Wired(NextOf(s, id, Load(id, now)))
  {
    var t, r := NextOf(s, id, Load(id, now)), s.requests[id];
    assert Linked(s, r);
    MoveKeepsWired(s, id, t.requests[id].phase, s.store);
  }

  lemma RequestKeepsWired(s: System, step: Step)
    requires Wired(s) && step.id in s.requests && NextOf(s, step.id, step) != s
    ensures Wired(NextOf(s, step.id, step))
  {
    match step
    case Open(id) => OpenKeepsWired(s, id);
    case Subscribe(id) => SubscribeKeepsWired(s, id);
    case Receive(id) => ReceiveKeepsWired(s, id);
    case Load(id, now) => LoadKeepsWired(s, id, now);
    case Save(id) => SaveKeepsWired(s, id);
    case Leave(id) => LessKeepsWired(s, NextOf(s, id, step));
    case Drop(id) => LessKeepsWired(s, NextOf(s, id, step));
    case _ =>
  }

  lemma FailKeepsWired(s: System, id: nat, failed: Task)
    requires Wired(s) && id in s.executors && failed.id == s.executors[id].taskId
    ensures Wired(SaveFailed(s, id, failed))
  {
    var t := SaveFailed(s, id, failed);
    forall r | r in t.requests ensures Linked(t, t.requests[r]) { LinkedLater(s, t, s.requests[r]); }
  }

  lemma StepKeepsWired(s: System, step: Step)
    requires Wired(s)
    ensures Wired(Next(s, step))
  {
    var t := Next(s, step);
    if t != s {
      if step.Send? || step.Cancel? {
        EnterKeepsWired(s, step.id, t.requests[step.id]);
      } else if step.Emit? || step.Report? {
        SendOnExtends(s, s.executors[step.id].channel,
                      if step.Emit? then step.event else TaskEvent(s.executors[step.id].failed.value));
        LessKeepsWired(s, t);
      } else if step.Fail? {
        FailKeepsWired(s, step.id, FailedTask(s.executors[step.id], step.error, step.messageId, step.now));
      } else if step.Finish? {
        LessKeepsWired(s, t);
      } else {
        RequestKeepsWired(s, step);
      }
    }
  }

  lemma {:induction false} EveryRunIsWired(s: System, steps: seq<Step>)
    requires Wired(s)
    ensures Wired(Run(s, steps))
    decreases steps
  {
    if steps != [] {
      StepKeepsWired(s, steps[0]);
      EveryRunIsWired(Next(s, steps[0]), steps[1..]);
    }
  }

  // ---- Single steps and runs --------------------------------------------------------------------------------

  lemma {:induction false} RunConcat(s: System, a: seq<Step>, b: seq<Step>)
    ensures Run(s, a + b) == Run(Run(s, a), b)
    decreases a
  {
    if a == [] {
      assert a + b == b;
    } else {
      assert (a + b)[1..] == a[1..] + b;
      RunConcat(Next(s, a[0]), a[1..], b);
    }
  }

  lemma RunOne(s: System, step: Step)
    ensures Run(s, [step]) == Next(s, step)
  {
    assert [step][1..] == [];
  }

  lemma RunThree(s: System, a: Step, b: Step, c: Step)
    ensures Run(s, [a, b, c]) == Next(Next(Next(s, a), b), c)
  {
    RunOne(Next(Next(s, a), b), c);
    assert [a, b, c][1..] == [b, c] && [b, c][1..] == [c];
  }

  lemma Receives(s: System, rid: nat, channel: nat, cursor: nat)
    requires rid in s.requests && s.requests[rid].phase == Collecting(channel, cursor)
    requires channel < |s.channels| && cursor < |s.channels[channel].log| <= cursor + s.capacity
    ensures Next(s, Receive(rid)) == s.WithPhase(rid, Received(channel, cursor + 1, s.channels[channel].log[cursor]))
  {}

  lemma Lags(s: System, rid: nat, channel: nat, cursor: nat)
    requires rid in s.requests && s.requests[rid].phase == Collecting(channel, cursor)
    requires channel < |s.channels| && |s.channels[channel].log| > cursor + s.capacity
    ensures Next(s, Receive(rid)) == s.WithPhase(rid, Collecting(channel, |s.channels[channel].log| - s.capacity))
  {}

  lemma Loads(s: System, rid: nat, now: string)
    requires rid in s.requests && s.requests[rid].phase.Received?
    ensures var p := s.requests[rid].phase;
            Next(s, Load(rid, now)) ==
            s.WithPhase(rid, Saving(p.channel, p.cursor, p.event, now, SnapshotOf(s.store, p.event, now)))
  {}

  lemma Saves(s: System, rid: nat)
    requires rid in s.requests && s.requests[rid].phase.Saving?
    ensures Next(s, Save(rid)) ==
            s.WithPhase(rid, AfterSaving(s.requests[rid]))
             .(store := match s.requests[rid].phase.snapshot case Some(t) => s.store[t.id := t] case None => s.store)
  {}
}
