/**
 "Terminal is absorbing" over whole runs: conditions on a run, from the start, under which a task that
 becomes terminal is left alone by every request from that moment on.
 */
module CalmRuns {
  import opened Wrappers
  import opened Types
  import opened Collector
  import opened Lifecycle
  import opened TerminalTasks

  // ---- The conditions ----------------------------------------------------------------------

  /** A request on the task has no answer yet. */
  ghost predicate Busy(s: System, id: string) {
    exists r :: r in s.requests && s.requests[r].taskId == id && !s.requests[r].phase.Answered?
  }

  /** Executor x can fail now without its task being replaced later. */
  ghost predicate Undisturbed(s: System, x: nat, failed: Task)
    requires x in s.executors
  {
    Safe(SaveFailed(s, x, failed), failed)
  }

  /**
   For task `id`: while it is not terminal, requests on it wait for each other's answer; an id generated
   for it is new; only its own executors emit events that name it, and they fail only undisturbed and
   while the task is not terminal.
   */
  ghost predicate Calm(s: System, step: Step, id: string) {
    match step
    case Send(_, params, freshTask, freshContext) =>
      var admitted := Admit(s.store, params.message, freshTask, freshContext);
      admitted.Ok? && admitted.value.0 == id ==>
        !Busy(s, id) && (params.message.taskId.None? ==> id !in s.store)
    case Cancel(_, taskId) => taskId == id && !s.Ended(id) ==> !Busy(s, id)
    case Emit(x, event) => x in s.executors && Names(event, id) ==> s.executors[x].taskId == id
    case Fail(x, error, messageId, now) =>
      x in s.executors && s.executors[x].taskId == id ==>
        !s.Ended(id) && Undisturbed(s, x, FailedTask(s.executors[x], error, messageId, now))
    case _ => true
  }

  ghost predicate AllCalm(s: System, steps: seq<Step>, id: string)
    decreases steps
  {
    steps != [] ==> Calm(s, steps[0], id) && AllCalm(Next(s, steps[0]), steps[1..], id)
  }

  // ---- The invariant -----------------------------------------------------------------------

  predicate Carries(r: Request, id: string) {
    (r.phase.Received? || r.phase.Saving?) && Names(r.phase.event, id)
  }

  /** Events that name the task are on its own channels and with its own requests only. */
  ghost predicate Pure(s: System, id: string) {
    && (forall c, i :: 0 <= c < |s.channels| && 0 <= i < |s.channels[c].log| && Names(s.channels[c].log[i], id) ==>
          s.channels[c].owner == id)
    && (forall r :: r in s.requests && Carries(s.requests[r], id) ==> s.requests[r].taskId == id)
  }

  predicate Waits(s: System, r: nat, id: string) {
    r in s.requests && s.requests[r].taskId == id && !s.requests[r].phase.Answered?
  }

  /** The loaded snapshot is still what the store would give. */
  predicate Current(s: System, r: Request) {
    r.phase.Saving? && Names(r.phase.event, r.taskId) ==>
      r.phase.snapshot == SnapshotOf(s.store, r.phase.event, r.phase.now)
  }

  /** While the task is not terminal: one request at a time, with a current snapshot, and no failure. */
  ghost predicate Orderly(s: System, id: string) {
    && (forall a, b :: Waits(s, a, id) && Waits(s, b, id) ==> a == b)
    && (forall r :: Waits(s, r, id) ==> Current(s, s.requests[r]))
    && (forall x :: !FailedHere(s, x, id))
  }

  ghost predicate Invariant(s: System, id: string) {
    Wired(s) && Pure(s, id) && if s.Ended(id) then Guarded(s, id) else Orderly(s, id)
  }

  // ---- Events stay where they belong -------------------------------------------------------

  lemma SendOnKeepsPure(s: System, channel: nat, e: Event, id: string)
    requires Pure(s, id) && channel < |s.channels| && (Names(e, id) ==> s.channels[channel].owner == id)
    ensures Pure(SendOn(s, channel, e), id)
  {
    var t := SendOn(s, channel, e);
    forall c, i | 0 <= c < |t.channels| && 0 <= i < |t.channels[c].log| && Names(t.channels[c].log[i], id)
      ensures t.channels[c].owner == id
    {
      if c != channel || i < |s.channels[c].log| {
        assert t.channels[c].log[i] == s.channels[c].log[i];
      }
    }
  }

  lemma RequestKeepsPure(s: System, step: Step, id: string)
    requires Wired(s) && Pure(s, id) && step.id in s.requests && Next(s, step) != s
    requires step.Subscribe? || step.Receive? || step.Load? || step.Save?
    ensures Pure(Next(s, step), id)
  {}

  lemma OpenKeepsPure(s: System, rid: nat, id: string)
    requires Pure(s, id) && rid in s.requests && s.requests[rid].phase.Admitted?
    ensures Pure(OpenQueue(s, rid), id)
  {}

  lemma StepKeepsPure(s: System, step: Step, id: string)
    requires Wired(s) && Pure(s, id) && Calm(s, step, id) && Next(s, step) != s
    ensures Pure(Next(s, step), id)
  {
    if step.Emit? || step.Report? {
      var x := s.executors[step.id];
      assert Owned(s, x.channel, x.taskId);
      SendOnKeepsPure(s, x.channel, if step.Emit? then step.event else TaskEvent(x.failed.value), id);
    } else if step.Open? {
      OpenKeepsPure(s, step.id, id);
    } else if step.Subscribe? || step.Receive? || step.Load? || step.Save? {
      RequestKeepsPure(s, step, id);
    }
  }

  lemma PureQuiet(s: System, nonBlocking: bool, channel: nat, cursor: nat, kept: Task)
    requires Pure(s, kept.id) && channel < |s.channels| && s.channels[channel].owner != kept.id
    ensures Quiet(s, nonBlocking, channel, cursor, kept)
  {
    forall more: nat, k | 0 <= k < |Pending(s, channel, cursor, more)|
      ensures !Names(Pending(s, channel, cursor, more)[k], kept.id)
    {
      assert Pending(s, channel, cursor, more)[k] in s.channels[channel].log;
    }
  }

  /** Requests on other tasks cannot get at the task. */
  lemma PureUnharmed(s: System, r: Request, kept: Task)
    requires Pure(s, kept.id) && Linked(s, r) && r.taskId != kept.id && !Carries(r, kept.id)
    ensures Unharmed(s, r, kept)
  {
    if Reads(r) { PureQuiet(s, r.nonBlocking, r.phase.channel, r.phase.cursor, kept); }
  }

  // ---- Before the task is terminal ---------------------------------------------------------

  /** An event that does not end the request does not make the task terminal. */
  lemma PersistOwn(store: Store, e: Event, id: string, nonBlocking: bool, now: string)
    requires Keyed(store) && (id in store ==> !store[id].IsTerminal())
    ensures var after := Persist(store, e, now);
            && (!Names(e, id) ==> Same(store, after, id))
            && (!Stops(nonBlocking, e) && id in after ==> !after[id].IsTerminal())
  {}

  /** Reading a task and saving it are two steps, yet together they are the collector's atomic one. */
  lemma SaveIsAtomic(s: System, rid: nat, id: string)
    requires Invariant(s, id) && rid in s.requests && s.requests[rid].taskId == id && !s.Ended(id)
    requires s.requests[rid].phase.Saving?
    ensures var p, t := s.requests[rid].phase, Next(s, Save(rid));
            && Same(t.store, Persist(s.store, p.event, p.now), id)
            && (Names(p.event, id) ==> t.store == Persist(s.store, p.event, p.now))
  {
    assert Waits(s, rid, id) && Linked(s, s.requests[rid]);
  }

  /** Nobody waits any more: whatever is stored now is left alone. */
  lemma AnsweredGuarded(s: System, id: string)
    requires Wired(s) && Pure(s, id) && s.Ended(id)
    requires (forall r :: !Waits(s, r, id)) && (forall x :: !FailedHere(s, x, id))
    ensures Guarded(s, id)
  {
    forall r | r in s.requests ensures Unharmed(s, s.requests[r], s.store[id]) {
      if s.requests[r].taskId != id {
        assert Linked(s, s.requests[r]);
        PureUnharmed(s, s.requests[r], s.store[id]);
      } else {
        assert !Waits(s, r, id);
      }
    }
  }

  lemma SaveKeeps(s: System, rid: nat, id: string)
    requires Invariant(s, id) && rid in s.requests && s.requests[rid].taskId == id && !s.Ended(id)
    requires s.requests[rid].phase.Saving?
    requires Wired(Next(s, Save(rid))) && Pure(Next(s, Save(rid)), id)
    ensures Invariant(Next(s, Save(rid)), id)
  {
    var t, r := Next(s, Save(rid)), s.requests[rid];
    SaveIsAtomic(s, rid, id);
    PersistOwn(s.store, r.phase.event, id, r.nonBlocking, r.phase.now);
    Saves(s, rid);
    assert Waits(s, rid, id);
    forall x | Waits(t, x, id) ensures x == rid { assert Waits(s, x, id); }
    forall x ensures !FailedHere(t, x, id) { assert !FailedHere(s, x, id); }
    if t.Ended(id) { AnsweredGuarded(t, id); }
  }

  /** Nothing is saved for the task, and at most its own request has moved. */
  lemma OrderlyKeeps(s: System, t: System, id: string)
    requires Orderly(s, id) && Same(s.store, t.store, id)
    requires forall r :: Waits(t, r, id) ==> Waits(s, r, id) && Current(t, t.requests[r])
    requires forall x :: !FailedHere(t, x, id)
    ensures Orderly(t, id)
  {}

  lemma RequestOrderly(s: System, step: Step, id: string)
    requires Invariant(s, id) && !s.Ended(id) && step.id in s.requests && Next(s, step) != s
    requires step.Open? || step.Subscribe? || step.Receive? || step.Load?
    ensures Orderly(Next(s, step), id) && Next(s, step).store == s.store
  {
    var t := Next(s, step);
    forall r | Waits(t, r, id) ensures Waits(s, r, id) && Current(t, t.requests[r]) {
      assert r in s.requests;
      assert Waits(s, r, id);
    }
    forall x ensures !FailedHere(t, x, id) { assert !FailedHere(s, x, id); }
    OrderlyKeeps(s, t, id);
  }

  lemma OtherSaveOrderly(s: System, rid: nat, id: string)
    requires Invariant(s, id) && !s.Ended(id) && rid in s.requests && s.requests[rid].taskId != id
    requires s.requests[rid].phase.Saving?
    ensures Orderly(Next(s, Save(rid)), id) && Same(s.store, Next(s, Save(rid)).store, id)
  {
    var t := Next(s, Save(rid));
    Saves(s, rid);
    assert Linked(s, s.requests[rid]) && !Carries(s.requests[rid], id);
    forall r | Waits(t, r, id) ensures Waits(s, r, id) && Current(t, t.requests[r]) { assert Waits(s, r, id); }
    forall x ensures !FailedHere(t, x, id) { assert !FailedHere(s, x, id); }
    OrderlyKeeps(s, t, id);
  }

  /** Executors send, fail or leave, on whatever task. */
  lemma ExecutorsMove(s: System, t: System, id: string)
    requires Orderly(s, id) && Same(s.store, t.store, id) && t.requests == s.requests
    requires forall x :: !FailedHere(t, x, id)
    ensures Orderly(t, id)
  {
    forall r | Waits(t, r, id) ensures Waits(s, r, id) && Current(t, t.requests[r]) { assert Waits(s, r, id); }
    OrderlyKeeps(s, t, id);
  }

  lemma SendOrderly(s: System, step: Step, id: string)
    requires Orderly(s, id) && step.id in s.executors && (step.Emit? || step.Report?)
    ensures Orderly(Next(s, step), id) && Next(s, step).store == s.store
  {
    forall x ensures !FailedHere(Next(s, step), x, id) { assert !FailedHere(s, x, id); }
    ExecutorsMove(s, Next(s, step), id);
  }

  lemma OtherFailOrderly(s: System, x: nat, failed: Task, id: string)
    requires Orderly(s, id) && x in s.executors && s.executors[x].taskId == failed.id != id
    ensures Orderly(SaveFailed(s, x, failed), id)
  {
    forall y ensures !FailedHere(SaveFailed(s, x, failed), y, id) { assert !FailedHere(s, y, id); }
    ExecutorsMove(s, SaveFailed(s, x, failed), id);
  }

  lemma FailKeeps(s: System, x: nat, failed: Task, id: string)
    requires Invariant(s, id) && !s.Ended(id) && x in s.executors && s.executors[x].taskId == failed.id == id
    requires failed.IsTerminal() && Undisturbed(s, x, failed)
    ensures Guarded(SaveFailed(s, x, failed), id)
  {
    FailKeepsWired(s, x, failed);
    forall y | FailedHere(SaveFailed(s, x, failed), y, id) ensures y == x { assert !FailedHere(s, y, id); }
  }

  lemma EntryOrderly(s: System, step: Step, id: string)
    requires Orderly(s, id) && !s.Ended(id) && Calm(s, step, id) && (step.Send? || step.Cancel?)
    requires Next(s, step) != s
    ensures Orderly(Next(s, step), id) && Next(s, step).store == s.store
  {
    var t := Next(s, step);
    assert t == s.(requests := s.requests[step.id := t.requests[step.id]]) && t.requests[step.id].phase.Admitted?;
    forall r | Waits(t, r, id) && r != step.id ensures Waits(s, r, id) {}
    forall x ensures !FailedHere(t, x, id) { assert !FailedHere(s, x, id); }
  }

  lemma ExitOrderly(s: System, step: Step, id: string)
    requires Orderly(s, id) && (step.Finish? || step.Leave? || step.Drop?)
    ensures Orderly(Next(s, step), id) && Next(s, step).store == s.store
  {
    var t := Next(s, step);
    forall r | Waits(t, r, id) ensures Waits(s, r, id) && t.requests[r] == s.requests[r] {}
    forall x ensures !FailedHere(t, x, id) { assert !FailedHere(s, x, id); }
    OrderlyKeeps(s, t, id);
  }

  // ---- Every step, every run ---------------------------------------------------------------

  lemma OngoingKeeps(s: System, step: Step, id: string)
    requires Invariant(s, id) && !s.Ended(id) && Calm(s, step, id) && Next(s, step) != s
    requires Wired(Next(s, step)) && Pure(Next(s, step), id)
    ensures Invariant(Next(s, step), id)
  {
    if step.Open? || step.Subscribe? || step.Receive? || step.Load? {
      RequestOrderly(s, step, id);
    } else if step.Save? {
      if s.requests[step.id].taskId == id { SaveKeeps(s, step.id, id); } else { OtherSaveOrderly(s, step.id, id); }
    } else if step.Fail? && s.executors[step.id].taskId == id {
      FailKeeps(s, step.id, FailedTask(s.executors[step.id], step.error, step.messageId, step.now), id);
    } else if step.Fail? {
      OtherFailOrderly(s, step.id, FailedTask(s.executors[step.id], step.error, step.messageId, step.now), id);
    } else if step.Emit? || step.Report? {
      SendOrderly(s, step, id);
    } else if step.Send? || step.Cancel? {
      EntryOrderly(s, step, id);
    } else {
      ExitOrderly(s, step, id);
    }
  }

  lemma StepKeeps(s: System, step: Step, id: string)
    requires Invariant(s, id) && Calm(s, step, id)
    ensures Invariant(Next(s, step), id) && (s.Ended(id) ==> Same(s.store, Next(s, step).store, id))
  {
    if Next(s, step) != s {
      StepKeepsWired(s, step);
      StepKeepsPure(s, step, id);
      if s.Ended(id) {
        StepGuarded(s, step, id);
      } else {
        OngoingKeeps(s, step, id);
      }
    }
  }

  lemma {:induction false} RunKeeps(s: System, steps: seq<Step>, id: string)
    requires Invariant(s, id) && AllCalm(s, steps, id)
    ensures Invariant(Run(s, steps), id) && (s.Ended(id) ==> Same(s.store, Run(s, steps).store, id))
    decreases steps
  {
    if steps != [] {
      StepKeeps(s, steps[0], id);
      RunKeeps(Next(s, steps[0]), steps[1..], id);
    }
  }

  /**
   In every run that is calm for a task, once the task is terminal it is stored unchanged for ever,
   whatever happens to other tasks.
   */
  lemma TerminalIsAbsorbing(capacity: nat, earlier: seq<Step>, later: seq<Step>, id: string)
    requires AllCalm(Idle(capacity), earlier, id) && AllCalm(Run(Idle(capacity), earlier), later, id)
    requires Run(Idle(capacity), earlier).Ended(id)
    ensures var s, t := Run(Idle(capacity), earlier), Run(Run(Idle(capacity), earlier), later);
            id in t.store && t.store[id] == s.store[id]
  {
    RunKeeps(Idle(capacity), earlier, id);
    RunKeeps(Run(Idle(capacity), earlier), later, id);
  }
}
