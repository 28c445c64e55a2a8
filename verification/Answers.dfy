/** When a request of the lifecycle machine has its answer, and which channel it listens on. */
module Answers {
  import opened Wrappers
  import opened Types
  import opened Collector
  import opened Lifecycle

  // ---- What ends a request -----------------------------------------------------------------

  /** A task or status event with this state ends a blocking request; a request for input does not. */
  predicate EndsBlocking(state: TaskState) {
    state in {Completed, Failed, Canceled, Rejected, AuthRequired}
  }

  /** A terminal state ends any request. */
  predicate EndsAny(state: TaskState) {
    state in {Completed, Failed, Canceled, Rejected}
  }

  /** The events that end a request, state by state: any message; otherwise it depends on the mode. */
  predicate Ends(blocking: bool, e: Event) {
    match e
    case MessageEvent(_) => true
    case TaskEvent(t) => if blocking then EndsBlocking(t.status.state) else t.id != "" || EndsAny(t.status.state)
    case StatusEvent(u) =>
      if blocking then EndsBlocking(u.status.state) else u.taskId != "" || EndsAny(u.status.state)
    case ArtifactEvent(c) => !blocking && c.taskId != ""
  }

  lemma StopsIff(nonBlocking: bool, e: Event)
    ensures Stops(nonBlocking, e) <==> Ends(!nonBlocking, e)
  {}

  // ---- Who gets in -------------------------------------------------------------------------

  /** A cancellation gets in exactly if its task is stored and not terminal, and works in the task's context. */
  lemma CancellationEntersIff(s: System, id: nat, taskId: string)
    requires id !in s.requests && id !in s.executors
    ensures Next(s, Cancel(id, taskId)) != s <==>
            taskId in s.store && s.store[taskId].status.state !in {Completed, Failed, Canceled, Rejected}
    ensures Next(s, Cancel(id, taskId)) != s ==>
            Next(s, Cancel(id, taskId)).requests ==
            s.requests[id := Request(taskId, false, Admitted(s.store[taskId].contextId))]
  {
    var t := Next(s, Cancel(id, taskId));
    assert t != s ==> id in t.requests;
  }

  /** Every executor and reader works on one of the channels there are. */
  lemma ChannelsInUse(s: System)
    requires Wired(s)
    ensures forall x :: x in s.executors ==> s.executors[x].channel < |s.channels|
    ensures forall r :: r in s.requests && s.requests[r].phase.Collecting? ==>
              s.requests[r].phase.channel < |s.channels|
    ensures forall t :: t in s.queues ==> s.queues[t] < |s.channels|
  {
    forall x | x in s.executors ensures s.executors[x].channel < |s.channels| {
      assert Owned(s, s.executors[x].channel, s.executors[x].taskId);
    }
    forall r | r in s.requests && s.requests[r].phase.Collecting? ensures s.requests[r].phase.channel < |s.channels| {
      assert Linked(s, s.requests[r]);
    }
  }

  /**
   A failing executor replaces whatever is stored by a failed task without artifacts or history, whose
   message is the error, and reports that very task on its channel as the last thing it does.
   */
  lemma FailureIsSavedAndReported(s: System, id: nat, error: string, messageId: string, now: string)
    requires Wired(s) && id in s.executors && s.executors[id].failed.None?
    ensures var x := s.executors[id];
            var message := Message(messageId, None, None, Agent, [Part(Text(error), None, None, None)], None, [], []);
            var failed := Task(x.taskId, x.contextId, TaskStatus(Failed, Some(message), Some(now)), [], [], None);
            var t := Next(s, Fail(id, error, messageId, now));
            var u := Next(t, Report(id));
            && t.store == s.store[x.taskId := failed] && t.channels == s.channels && t.requests == s.requests
            && x.channel < |u.channels| && id !in u.executors
            && u.channels[x.channel].log == s.channels[x.channel].log + [TaskEvent(failed)]
            && u.store == t.store && u.requests == s.requests
  {
    ChannelsInUse(s);
  }

  // ---- The answer --------------------------------------------------------------------------

  /** The events that request `id` has dealt with in these steps, in order. */
  function HandledIn(s: System, steps: seq<Step>, id: nat): seq<Event>
    decreases steps
  {
    if steps == [] then []
    else
      (if steps[0] == Save(id) && id in s.requests && s.requests[id].phase.Saving?
       then [s.requests[id].phase.event] else [])
      + HandledIn(Next(s, steps[0]), steps[1..], id)
  }

  /** The request is not dropped, and does not leave with its answer. */
  predicate Remains(steps: seq<Step>, id: nat) {
    forall i :: 0 <= i < |steps| ==> steps[i] != Drop(id) && steps[i] != Leave(id)
  }

  /** All events handled so far let the request go on, but for the last one if it has its answer. */
  ghost predicate AnsweredByLast(handled: seq<Event>, blocking: bool, answered: bool) {
    && (forall i :: 0 <= i < |handled| - 1 ==> !Ends(blocking, handled[i]))
    && (answered <==> handled != [] && Ends(blocking, handled[|handled| - 1]))
  }

  lemma StepOfOthers(s: System, step: Step, id: nat)
    requires id in s.requests && step.id != id
    ensures var t := Next(s, step); id in t.requests && t.requests[id] == s.requests[id]
  {}

  lemma StepOfRequest(s: System, step: Step, id: nat)
    requires id in s.requests && step != Drop(id) && step != Leave(id)
    ensures var t, r := Next(s, step), s.requests[id];
            && id in t.requests && t.requests[id].nonBlocking == r.nonBlocking && t.requests[id].taskId == r.taskId
            && (step == Save(id) && r.phase.Saving? ==>
                  (t.requests[id].phase.Answered? <==> Stops(r.nonBlocking, r.phase.event)))
            && (step != Save(id) || !r.phase.Saving? ==>
                  (t.requests[id].phase.Answered? <==> r.phase.Answered?))
            && (r.phase.Answered? ==> t.requests[id].phase.Answered?)
  {
    if step.id != id { StepOfOthers(s, step, id); }
  }

  /** From any state: a request without answer gets it exactly with the first event that ends it. */
  lemma {:induction false} RunOfRequest(s: System, steps: seq<Step>, id: nat)
    requires id in s.requests && Remains(steps, id)
    ensures var t, r := Run(s, steps), s.requests[id];
            && id in t.requests && t.requests[id].taskId == r.taskId
            && if r.phase.Answered? then t.requests[id].phase.Answered? && HandledIn(s, steps, id) == []
               else AnsweredByLast(HandledIn(s, steps, id), !r.nonBlocking, t.requests[id].phase.Answered?)
    decreases steps
  {
    if steps != [] {
      var step, next := steps[0], Next(s, steps[0]);
      StepOfRequest(s, step, id);
      assert Remains(steps[1..], id);
      RunOfRequest(next, steps[1..], id);
      if step == Save(id) && s.requests[id].phase.Saving? {
        StopsIff(s.requests[id].nonBlocking, s.requests[id].phase.event);
        FirstHandled(s.requests[id].phase.event, HandledIn(next, steps[1..], id), !s.requests[id].nonBlocking,
                     Run(s, steps).requests[id].phase.Answered?);
      }
    }
  }

  lemma FirstHandled(e: Event, later: seq<Event>, blocking: bool, answered: bool)
    requires if Ends(blocking, e) then answered && later == [] else AnsweredByLast(later, blocking, answered)
    ensures AnsweredByLast([e] + later, blocking, answered)
  {}

  /** Whether a send or cancellation blocks: a send only if it says so, a cancellation always. */
  predicate Blocks(entry: Step)
    requires entry.Send? || entry.Cancel?
  {
    entry.Cancel? || entry.params.returnImmediately == Some(false)
  }

  /**
   Of all events a send or cancellation handles, whatever else goes on, exactly the first that ends it
   gives the answer: without a configuration any event that names a task, for a blocking send and every
   cancellation only a message, a terminal state or a request for authentication.
   */
  lemma AnsweredByFirstEnding(s: System, entry: Step, steps: seq<Step>)
    requires (entry.Send? || entry.Cancel?) && Next(s, entry) != s && Remains(steps, entry.id)
    ensures var t := Run(Next(s, entry), steps);
            && entry.id in t.requests
            && AnsweredByLast(HandledIn(Next(s, entry), steps, entry.id), Blocks(entry),
                              t.requests[entry.id].phase.Answered?)
  {
    RunOfRequest(Next(s, entry), steps, entry.id);
  }

  // ---- The channel -------------------------------------------------------------------------

  /** A request on a task that has a queue shares its channel. */
  lemma QueueIsShared(s: System, id: nat)
    requires Wired(s) && id in s.requests && s.requests[id].phase.Admitted? && s.requests[id].taskId in s.queues
    ensures var phase := Next(s, Open(id)).requests[id].phase;
            phase.Opened? && phase.channel == s.queues[s.requests[id].taskId]
  {
    ChannelsInUse(s);
  }

  /**
   Once a request with its answer has left, the next one on the task gets a new channel, with an empty
   log: no executor works on it and nobody reads it that was there before.
   */
  lemma LeavingSeparates(s: System, id: nat, other: nat)
    requires Wired(s) && id in s.requests && other in s.requests && id != other
    requires s.requests[id].phase.Answered? && s.requests[other].phase.Admitted?
    requires s.requests[id].taskId == s.requests[other].taskId
    ensures var t := Next(Next(s, Leave(id)), Open(other));
            var phase := t.requests[other].phase;
            && phase.Opened? && phase.channel < |t.channels|
            && t.channels[phase.channel] == Channel(s.requests[id].taskId, [])
            && (forall x :: x in t.executors ==> t.executors[x].channel != phase.channel)
            && forall r :: r in s.requests && s.requests[r].phase.Collecting? ==>
                 s.requests[r].phase.channel != phase.channel
  {
    ChannelsInUse(s);
    var u := Next(s, Leave(id));
    assert u == s.(requests := s.requests - {id}, queues := s.queues - {s.requests[id].taskId});
  }
}
