/** Building blocks for concrete runs: a send, an event that is emitted and collected, fresh ids. */
module Scenarios {
  import opened Wrappers
  import opened Types
  import opened Collector
  import opened Lifecycle

  /** A blocking send on the task `t`. */
  predicate SendsTo(params: SendParams, t: string, context: string) {
    && params.message.id != "" && params.message.parts != []
    && params.message.taskId == Some(t) && params.message.contextId == Some(context)
    && params.returnImmediately == Some(false)
  }

  // ---- A send, step by step ----------------------------------------------------------------

  function WithRequest(s: System, id: nat, r: Request): System {
    s.(requests := s.requests[id := r])
  }

  lemma MoveTwice(s: System, id: nat, r: Request, phase: Phase)
    ensures WithRequest(s, id, r).WithPhase(id, phase) == WithRequest(s, id, r.(phase := phase))
  {
    assert s.requests[id := r][id := r.(phase := phase)] == s.requests[id := r.(phase := phase)];
  }

  lemma Sends(s: System, id: nat, params: SendParams, t: string, context: string)
    requires SendsTo(params, t, context) && !s.Ended(t) && id !in s.requests && id !in s.executors
    ensures Next(s, Send(id, params, "", "")) == WithRequest(s, id, Request(t, false, Admitted(context)))
  {}

  /** The channel a request on `t` will use: the task's own, or the next new one. */
  function ChannelOf(s: System, t: string): nat {
    if t in s.queues && s.queues[t] < |s.channels| then s.queues[t] else |s.channels|
  }

  function WithChannel(s: System, t: string): System {
    s.(queues := s.queues[t := ChannelOf(s, t)],
       channels := if ChannelOf(s, t) < |s.channels| then s.channels else s.channels + [Channel(t, [])])
  }

  lemma Opens(s: System, id: nat, t: string, context: string)
    ensures var channel := ChannelOf(s, t);
            Next(WithRequest(s, id, Request(t, false, Admitted(context))), Open(id)) ==
            WithRequest(WithChannel(s, t), id, Request(t, false, Opened(context, channel)))
  {
    MoveTwice(s, id, Request(t, false, Admitted(context)), Opened(context, ChannelOf(s, t)));
  }

  lemma Subscribes(s: System, id: nat, t: string, context: string, channel: nat)
    requires channel < |s.channels|
    ensures Next(WithRequest(s, id, Request(t, false, Opened(context, channel))), Subscribe(id)) ==
            WithRequest(s.(executors := s.executors[id := Executor(t, context, channel, None)]), id,
                        Request(t, false, Collecting(channel, |s.channels[channel].log|)))
  {
    MoveTwice(s, id, Request(t, false, Opened(context, channel)), Collecting(channel, |s.channels[channel].log|));
  }

  function Start(id: nat, params: SendParams): seq<Step> {
    [Send(id, params, "", ""), Open(id), Subscribe(id)]
  }

  function Started(s: System, id: nat, t: string, context: string): System {
    var c := ChannelOf(s, t);
    var u := WithChannel(s, t);
    WithRequest(u.(executors := u.executors[id := Executor(t, context, c, None)]), id,
                Request(t, false, Collecting(c, |u.channels[c].log|)))
  }

  lemma Starts(s: System, id: nat, params: SendParams, t: string, context: string)
    requires SendsTo(params, t, context) && !s.Ended(t) && id !in s.requests && id !in s.executors
    ensures Run(s, Start(id, params)) == Started(s, id, t, context)
  {
    RunThree(s, Send(id, params, "", ""), Open(id), Subscribe(id));
    Sends(s, id, params, t, context);
    Opens(s, id, t, context);
    Subscribes(WithChannel(s, t), id, t, context, ChannelOf(s, t));
  }

  // ---- One event, emitted and collected ----------------------------------------------------

  function Collect(id: nat, now: string): seq<Step> {
    [Receive(id), Load(id, now), Save(id)]
  }

  /** The same system, but for the store and the phase of one request. */
  ghost predicate Moved(s: System, t: System, id: nat, phase: Phase, store: Store)
    requires id in s.requests
  {
    && t.capacity == s.capacity && t.queues == s.queues && t.channels == s.channels && t.executors == s.executors
    && t.requests == s.requests[id := s.requests[id].(phase := phase)] && t.store == store
  }

  lemma MovedTwice(s: System, t: System, id: nat, phase: Phase, next: Phase, store: Store)
    requires id in s.requests && Moved(s, t, id, phase, s.store)
    ensures Moved(s, t.WithPhase(id, next).(store := store), id, next, store)
  {
    var r := s.requests[id];
    assert s.requests[id := r.(phase := phase)][id := r.(phase := next)] == s.requests[id := r.(phase := next)];
  }

  /** A request takes the task snapshot its cursor points at, and saves it. */
  lemma Collects(s: System, id: nat, w: Task, now: string, channel: nat, cursor: nat)
    requires id in s.requests && s.requests[id].phase == Collecting(channel, cursor)
    requires channel < |s.channels| && cursor < |s.channels[channel].log| <= cursor + s.capacity
    requires s.channels[channel].log[cursor] == TaskEvent(w)
    ensures var phase := if Stops(s.requests[id].nonBlocking, TaskEvent(w)) then Answered
                         else Collecting(channel, cursor + 1);
            Moved(s, Run(s, Collect(id, now)), id, phase, s.store[w.id := w])
  {
    RunThree(s, Receive(id), Load(id, now), Save(id));
    var received := Received(channel, cursor + 1, TaskEvent(w));
    var saving := Saving(channel, cursor + 1, TaskEvent(w), now, Some(w));
    Receives(s, id, channel, cursor);
    var s1 := s.WithPhase(id, received);
    Loads(s1, id, now);
    MovedTwice(s, s1, id, received, saving, s.store);
    var s2 := s1.WithPhase(id, saving);
    Saves(s2, id);
    MovedTwice(s, s2, id, saving, AfterSaving(s2.requests[id]), s.store[w.id := w]);
  }

  function EmitAndCollect(id: nat, w: Task, now: string): seq<Step> {
    [Emit(id, TaskEvent(w))] + Collect(id, now)
  }

  lemma Emits(s: System, id: nat, w: Task, now: string, channel: nat) returns (t: System)
    requires id in s.executors && s.executors[id].failed.None?
    requires channel < |s.channels| && s.executors[id].channel == channel
    ensures t == SendOn(s, channel, TaskEvent(w)) && t.requests == s.requests && t.store == s.store
    ensures t.capacity == s.capacity && |t.channels| == |s.channels|
    ensures |t.channels[channel].log| == |s.channels[channel].log| + 1
    ensures t.channels[channel].log[|s.channels[channel].log|] == TaskEvent(w)
    ensures Run(s, EmitAndCollect(id, w, now)) == Run(t, Collect(id, now))
  {
    RunConcat(s, [Emit(id, TaskEvent(w))], Collect(id, now));
    RunOne(s, Emit(id, TaskEvent(w)));
    t := SendOn(s, channel, TaskEvent(w));
  }

  /** An executor emits a snapshot, and a request that has read everything before collects it. */
  lemma EmitsAndCollects(s: System, id: nat, w: Task, now: string, channel: nat)
    requires s.capacity > 0
    requires id in s.requests && id in s.executors && s.executors[id].failed.None?
    requires channel < |s.channels| && s.executors[id].channel == channel
    requires s.requests[id].phase == Collecting(channel, |s.channels[channel].log|)
    ensures var phase := if Stops(s.requests[id].nonBlocking, TaskEvent(w)) then Answered
                         else Collecting(channel, |s.channels[channel].log| + 1);
            Moved(SendOn(s, channel, TaskEvent(w)), Run(s, EmitAndCollect(id, w, now)), id, phase, s.store[w.id := w])
  {
    var t := Emits(s, id, w, now, channel);
    Collects(t, id, w, now, channel, |s.channels[channel].log|);
  }

  /** One blocking send, completed. */
  function Complete(id: nat, params: SendParams, done: Task, now: string): seq<Step> {
    Start(id, params) + EmitAndCollect(id, done, now)
  }

  lemma Completes(s: System, id: nat, params: SendParams, w: Task, t: string, context: string, now: string)
    requires SendsTo(params, t, context) && !s.Ended(t) && id !in s.requests && id !in s.executors && s.capacity > 0
    ensures var u, v := Started(s, id, t, context), Run(s, Complete(id, params, w, now));
            && v.store == s.store[w.id := w]
            && v.executors == u.executors && v.queues == u.queues && v.capacity == s.capacity
            && |v.channels| == |u.channels| && v.requests.Keys == u.requests.Keys
            && (forall c :: 0 <= c < |u.channels| && c != ChannelOf(s, t) ==> v.channels[c] == u.channels[c])
            && (forall r :: r in s.requests ==> v.requests[r] == s.requests[r])
  {
    var u, c := Started(s, id, t, context), ChannelOf(s, t);
    RunConcat(s, Start(id, params), EmitAndCollect(id, w, now));
    Starts(s, id, params, t, context);
    EmitsAndCollects(u, id, w, now, c);
  }

  // ---- Fresh ids ---------------------------------------------------------------------------

  lemma Above(used: set<nat>) returns (bound: nat)
    ensures forall x :: x in used ==> x < bound
  {
    bound := 0;
    if used != {} {
      var x :| x in used;
      var rest := Above(used - {x});
      bound := if rest > x then rest else x + 1;
      forall y | y in used ensures y < bound { assert y == x || y in used - {x}; }
    }
  }

  lemma Unused(used: set<string>) returns (text: string)
    ensures text !in used
  {
    var lengths := set t | t in used :: |t|;
    var bound := Above(lengths);
    text := seq(bound, _ => 'a');
    assert text in used ==> |text| in lengths;
  }
}
