/** Runs from the idle server, one for each condition of `CalmRuns`, that lose a terminal task. */
module BrokenConditions {
  import opened Wrappers
  import opened Types
  import opened Lifecycle
  import opened Scenarios

  // ---- The runs ----------------------------------------------------------------------------

  /** One blocking send whose executor has emitted one event. */
  lemma SendAndEmit(capacity: nat, params: SendParams, t: string, context: string, e: Event)
    requires SendsTo(params, t, context)
    ensures Run(Idle(capacity), Start(0, params) + [Emit(0, e)]) ==
            SendOn(Started(Idle(capacity), 0, t, context), 0, e)
  {
    RunConcat(Idle(capacity), Start(0, params), [Emit(0, e)]);
    Starts(Idle(capacity), 0, params, t, context);
    RunOne(Started(Idle(capacity), 0, t, context), Emit(0, e));
  }

  lemma FailsAndCollects(s: System, id: nat, w: Task, error: string, messageId: string, now: string)
    requires s.capacity > 0 && id in s.requests && s.requests[id].phase == Collecting(0, 0)
    requires id in s.executors && s.executors[id].failed.None?
    requires |s.channels| > 0 && s.channels[0].log == [TaskEvent(w)]
    ensures var failed := FailedTask(s.executors[id], error, messageId, now);
            var t := Next(s, Fail(id, error, messageId, now));
            && t.store == s.store[failed.id := failed]
            && Run(t, Collect(id, now)).store == t.store[w.id := w]
  {
    Collects(Next(s, Fail(id, error, messageId, now)), id, w, now, 0, 0);
  }

  /**
   A failing executor saves the failed task itself while an earlier event is still queued: the
   collector then overwrites the terminal task with the older, non-terminal one.
   */
  lemma FailureOverwritesTerminal(
    capacity: nat, params: SendParams, w: Task, error: string, messageId: string, now: string)
    requires capacity > 0 && SendsTo(params, w.id, w.contextId) && !w.IsTerminal()
    ensures var failed := FailedTask(Executor(w.id, w.contextId, 0, None), error, messageId, now);
            var s := Next(Run(Idle(capacity), Start(0, params) + [Emit(0, TaskEvent(w))]),
                          Fail(0, error, messageId, now));
            && s.store == map[w.id := failed] && s.Ended(w.id)
            && Run(s, Collect(0, now)).store == map[w.id := w]
  {
    SendAndEmit(capacity, params, w.id, w.contextId, TaskEvent(w));
    var s0 := Started(Idle(capacity), 0, w.id, w.contextId);
    assert s0.executors == map[0 := Executor(w.id, w.contextId, 0, None)] && s0.store == map[];
    FailsAndCollects(SendOn(s0, 0, TaskEvent(w)), 0, w, error, messageId, now);
  }

  /** An executor that fails after its task was completed replaces it by the failed one at once. */
  lemma LateFailureOverwritesTerminal(
    capacity: nat, params: SendParams, done: Task, error: string, messageId: string, now: string)
    requires capacity > 0 && SendsTo(params, done.id, done.contextId)
    ensures var s := Run(Idle(capacity), Complete(0, params, done, now));
            && s.store == map[done.id := done]
            && Next(s, Fail(0, error, messageId, now)).store ==
               map[done.id := FailedTask(Executor(done.id, done.contextId, 0, None), error, messageId, now)]
  {
    Completes(Idle(capacity), 0, params, done, done.id, done.contextId, now);
  }

  /** An executor that emits another task's snapshot overwrites that task, terminal or not. */
  lemma ForeignEventOverwritesTerminal(
    capacity: nat, params: SendParams, done: Task, other: SendParams, t: string, context: string, w: Task, now: string)
    requires capacity > 0 && SendsTo(params, done.id, done.contextId) && done.IsTerminal()
    requires SendsTo(other, t, context) && t != done.id && w.id == done.id
    ensures var s := Run(Idle(capacity), Complete(0, params, done, now));
            && s.store == map[done.id := done]
            && Run(s, Complete(1, other, w, now)).store == map[done.id := w]
  {
    Completes(Idle(capacity), 0, params, done, done.id, done.contextId, now);
    var s := Run(Idle(capacity), Complete(0, params, done, now));
    Completes(s, 1, other, w, t, context, now);
  }

  /** A second send on the same task, admitted before the first one's terminal event is collected. */
  lemma OverlapOverwritesTerminal(capacity: nat, params: SendParams, w: Task, done: Task, now: string)
    requires capacity > 0 && SendsTo(params, w.id, w.contextId) && !w.IsTerminal()
    requires done.id == w.id && done.IsTerminal()
    ensures var s := Run(Run(Run(Idle(capacity), Start(0, params) + [Emit(0, TaskEvent(done))]), Start(1, params)),
                         Collect(0, now));
            && s.store == map[w.id := done]
            && Run(s, EmitAndCollect(1, w, now)).store == map[w.id := w]
  {
    SendAndEmit(capacity, params, w.id, w.contextId, TaskEvent(done));
    var s1 := Run(Idle(capacity), Start(0, params) + [Emit(0, TaskEvent(done))]);
    Starts(s1, 1, params, w.id, w.contextId);
    var s2 := Started(s1, 1, w.id, w.contextId);
    Collects(s2, 0, done, now, 0, 0);
    EmitsAndCollects(Run(s2, Collect(0, now)), 1, w, now, 0);
  }

  /** As `Starts`, for a message that names no task. */
  lemma StartsGenerated(s: System, id: nat, params: SendParams, t: string)
    requires params.message.id != "" && params.message.parts != [] && params.returnImmediately == Some(false)
    requires params.message.taskId == None && params.message.contextId == Some("")
    requires id !in s.requests && id !in s.executors
    ensures Run(s, [Send(id, params, t, ""), Open(id), Subscribe(id)]) == Started(s, id, t, "")
  {
    RunThree(s, Send(id, params, t, ""), Open(id), Subscribe(id));
    Opens(s, id, t, "");
    Subscribes(WithChannel(s, t), id, t, "", ChannelOf(s, t));
  }

  /** A send that generates an id which is already in use is admitted to the terminal task. */
  lemma ReusedIdOverwritesTerminal(
    capacity: nat, params: SendParams, done: Task, other: SendParams, w: Task, now: string)
    requires capacity > 0 && SendsTo(params, done.id, done.contextId) && done.IsTerminal()
    requires other.message.id != "" && other.message.parts != [] && other.returnImmediately == Some(false)
    requires other.message.taskId == None && other.message.contextId == Some("") && w.id == done.id
    ensures var s := Run(Idle(capacity), Complete(0, params, done, now));
            var t := Run(s, [Send(1, other, done.id, ""), Open(1), Subscribe(1)]);
            && s.store == map[done.id := done]
            && Run(t, EmitAndCollect(1, w, now)).store == map[done.id := w]
  {
    Completes(Idle(capacity), 0, params, done, done.id, done.contextId, now);
    var s := Run(Idle(capacity), Complete(0, params, done, now));
    StartsGenerated(s, 1, other, done.id);
    EmitsAndCollects(Started(s, 1, done.id, ""), 1, w, now, ChannelOf(s, done.id));
  }
}
