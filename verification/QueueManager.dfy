/**
 `QueueManager` (ra2a/src/server/event.rs). `get_or_create_queue` looks under the read lock first and
 takes the write lock only on a miss, so two calls can race; each still behaves as one atomic step.
 */
module QueueManager {
  import opened Wrappers
  import B = Broadcast

  class QueueManager {
    var queues: map<string, B.EventQueue>
    const capacity: nat

    constructor WithCapacity(capacity: nat)
      requires capacity > 0
      ensures queues == map[] && this.capacity == capacity
    {
      queues := map[];
      this.capacity := capacity;
    }

    method CreateQueue(id: string) returns (q: Option<B.EventQueue>)
      requires capacity > 0
      modifies this
      ensures id in old(queues) ==> q == None && queues == old(queues)
      ensures id !in old(queues) ==> q.Some? && fresh(q.value) && queues == old(queues)[id := q.value]
    {
      if id in queues {
        return None;
      }
      var queue := new B.EventQueue(capacity);
      queues := queues[id := queue];
      q := Some(queue);
    }

    method GetQueue(id: string) returns (q: Option<B.EventQueue>)
      ensures q == if id in queues then Some(queues[id]) else None
    {
      q := if id in queues then Some(queues[id]) else None;
    }

    /** The write phase of `get_or_create_queue`, which has to look again. */
    method InsertIfAbsent(id: string) returns (q: B.EventQueue)
      requires capacity > 0
      modifies this
      ensures id in old(queues) ==> q == old(queues)[id] && queues == old(queues)
      ensures id !in old(queues) ==> fresh(q) && queues == old(queues)[id := q]
    {
      if id in queues {
        return queues[id];
      }
      q := new B.EventQueue(capacity);
      queues := queues[id := q];
    }

    /** Without interference: the existing queue, or a fresh one that is now the entry. */
    method GetOrCreateQueue(id: string) returns (q: B.EventQueue)
      requires capacity > 0
      modifies this
      ensures id in old(queues) ==> q == old(queues)[id] && queues == old(queues)
      ensures id !in old(queues) ==> fresh(q) && queues == old(queues)[id := q]
    {
      var found := GetQueue(id);
      if found.Some? {
        return found.value;
      }
      q := InsertIfAbsent(id);
    }

    method RemoveQueue(id: string) returns (q: Option<B.EventQueue>)
      modifies this
      ensures q == if id in old(queues) then Some(old(queues)[id]) else None
      ensures queues == old(queues) - {id}
    {
      q := if id in queues then Some(queues[id]) else None;
      queues := queues - {id};
    }

    method QueueCount() returns (n: nat)
      ensures n == |queues|
    {
      n := |queues|;
    }
  }

  // ---- The concurrent machine --------------------------------------------------------------

  /** A finished `get_or_create_queue`; queues are numbered in order of construction. */
  datatype Reply = Reply(call: nat, id: string, queue: nat)

  /** `waiting` holds the calls that missed in their read phase and have not had the write lock yet. */
  datatype State = State(
    queues: map<string, nat>, next: nat, waiting: map<nat, string>, replies: seq<Reply>,
    insertions: nat, removals: nat)

  datatype Step =
    | ReadPhase(call: nat, id: string)
    | WritePhase(call: nat)
    | Create(id: string)
    | Remove(id: string)

  const EMPTY := State(map[], 0, map[], [], 0, 0)

  function Insert(s: State, id: string): State {
    s.(queues := s.queues[id := s.next], next := s.next + 1, insertions := s.insertions + 1)
  }

  function Next(s: State, step: Step): State {
    match step
    case ReadPhase(call, id) =>
      if call in s.waiting then s
      else if id in s.queues then s.(replies := s.replies + [Reply(call, id, s.queues[id])])
      else s.(waiting := s.waiting[call := id])
    case WritePhase(call) =>
      if call !in s.waiting then s
      else
        var id := s.waiting[call];
        var t := s.(waiting := s.waiting - {call});
        if id in s.queues then t.(replies := s.replies + [Reply(call, id, s.queues[id])])
        else Insert(t, id).(replies := s.replies + [Reply(call, id, s.next)])
    case Create(id) => if id in s.queues then s else Insert(s, id)
    case Remove(id) =>
      s.(queues := s.queues - {id}, removals := s.removals + if id in s.queues then 1 else 0)
  }

  function Run(s: State, steps: seq<Step>): State
    decreases steps
  {
    if steps == [] then s else Run(Next(s, steps[0]), steps[1..])
  }

  // ---- The atomic machine ------------------------------------------------------------------

  datatype AtomicState = AtomicState(queues: map<string, nat>, next: nat, replies: seq<Reply>)

  datatype Operation =
    | GetOrCreate(call: nat, id: string)
    | CreateIfAbsent(id: string)
    | RemoveEntry(id: string)

  function Perform(a: AtomicState, op: Operation): AtomicState {
    match op
    case GetOrCreate(call, id) =>
      var q := if id in a.queues then a.queues[id] else a.next;
      AtomicState(a.queues[id := q], if id in a.queues then a.next else a.next + 1,
                  a.replies + [Reply(call, id, q)])
    case CreateIfAbsent(id) =>
      if id in a.queues then a else a.(queues := a.queues[id := a.next], next := a.next + 1)
    case RemoveEntry(id) => a.(queues := a.queues - {id})
  }

  function PerformAll(a: AtomicState, ops: seq<Operation>): AtomicState
    decreases ops
  {
    if ops == [] then a else PerformAll(Perform(a, ops[0]), ops[1..])
  }

  // ---- Linearizability ---------------------------------------------------------------------

  function Abstract(s: State): AtomicState {
    AtomicState(s.queues, s.next, s.replies)
  }

  /**
   The operation that takes effect in a step: for `get_or_create_queue` the step of the call that
   returns. A read phase that misses has no effect.
   */
  function Effect(s: State, step: Step): seq<Operation> {
    match step
    case ReadPhase(call, id) =>
      if call !in s.waiting && id in s.queues then [GetOrCreate(call, id)] else []
    case WritePhase(call) => if call in s.waiting then [GetOrCreate(call, s.waiting[call])] else []
    case Create(id) => [CreateIfAbsent(id)]
    case Remove(id) => [RemoveEntry(id)]
  }

  /** The linearization of a run: the effects in the order in which they happen. */
  function Linearization(s: State, steps: seq<Step>): seq<Operation>
    decreases steps
  {
    if steps == [] then [] else Effect(s, steps[0]) + Linearization(Next(s, steps[0]), steps[1..])
  }

  lemma StepRefines(s: State, step: Step)
    ensures Abstract(Next(s, step)) == PerformAll(Abstract(s), Effect(s, step))
  {
    var ops := Effect(s, step);
    if |ops| == 1 {
      assert PerformAll(Abstract(s), ops) == Perform(Abstract(s), ops[0]);
      if ops[0].GetOrCreate? && ops[0].id in s.queues {
        assert s.queues[ops[0].id := s.queues[ops[0].id]] == s.queues;
      }
    }
  }

  lemma {:induction false} PerformConcat(a: AtomicState, ops: seq<Operation>, more: seq<Operation>)
    ensures PerformAll(a, ops + more) == PerformAll(PerformAll(a, ops), more)
    decreases ops
  {
    if ops == [] {
      assert ops + more == more;
    } else {
      PerformConcat(Perform(a, ops[0]), ops[1..], more);
      assert (ops + more)[1..] == ops[1..] + more;
    }
  }

  /** Every interleaving has the map and the replies of the atomic operations in order of effect. */
  lemma {:induction false} Linearizable(s: State, steps: seq<Step>)
    ensures Abstract(Run(s, steps)) == PerformAll(Abstract(s), Linearization(s, steps))
    decreases steps
  {
    if steps != [] {
      StepRefines(s, steps[0]);
      Linearizable(Next(s, steps[0]), steps[1..]);
      PerformConcat(Abstract(s), Effect(s, steps[0]), Linearization(Next(s, steps[0]), steps[1..]));
    }
  }

  /** A returning step replies with the entry the map holds at that instant. */
  lemma ReplyIsCurrentEntry(s: State, step: Step)
    requires Next(s, step).replies != s.replies
    ensures var t := Next(s, step);
            && t.replies == s.replies + [t.replies[|s.replies|]]
            && var r := t.replies[|s.replies|];
               r.id in t.queues && t.queues[r.id] == r.queue && (r.id in s.queues ==> s.queues[r.id] == r.queue)
  {}

  // ---- What the atomic machine promises ----------------------------------------------------

  predicate Keeps(ops: seq<Operation>, id: string) {
    forall i :: 0 <= i < |ops| ==> ops[i] != RemoveEntry(id)
  }

  /** Between two removals of an id all replies for it name one queue, the one still in the map. */
  lemma {:induction false} OneQueueBetweenRemovals(a: AtomicState, ops: seq<Operation>, id: string)
    requires Keeps(ops, id)
    ensures var b := PerformAll(a, ops);
            && a.replies <= b.replies
            && (id in a.queues ==> id in b.queues && b.queues[id] == a.queues[id])
            && (forall i :: |a.replies| <= i < |b.replies| && b.replies[i].id == id ==>
                  id in b.queues && b.replies[i].queue == b.queues[id])
    decreases ops
  {
    if ops != [] {
      var a' := Perform(a, ops[0]);
      OneQueueBetweenRemovals(a', ops[1..], id);
      assert a.replies <= a'.replies;
    }
  }

  /** Nothing known before was built later. */
  ghost predicate Numbered(a: AtomicState) {
    && (forall id :: id in a.queues ==> a.queues[id] < a.next)
    && (forall i :: 0 <= i < |a.replies| ==> a.replies[i].queue < a.next)
  }

  lemma {:induction false} NewReplies(a: AtomicState, ops: seq<Operation>, id: string, bound: nat)
    requires Numbered(a) && bound <= a.next && (id in a.queues ==> bound <= a.queues[id])
    ensures var b := PerformAll(a, ops);
            && Numbered(b) && a.replies <= b.replies
            && (forall i :: |a.replies| <= i < |b.replies| && b.replies[i].id == id ==> bound <= b.replies[i].queue)
    decreases ops
  {
    if ops != [] {
      var a' := Perform(a, ops[0]);
      NewReplies(a', ops[1..], id, bound);
      assert a.replies <= a'.replies;
    }
  }

  /** Calls before and after a removal of their id never share a queue. */
  lemma RemovalSeparates(before: seq<Operation>, after: seq<Operation>, id: string, i: nat, j: nat)
    requires var a := PerformAll(Abstract(EMPTY), before);
             var b := PerformAll(Perform(a, RemoveEntry(id)), after);
             i < |a.replies| <= j < |b.replies| && b.replies[i].id == b.replies[j].id == id
    ensures var a := PerformAll(Abstract(EMPTY), before);
            var b := PerformAll(Perform(a, RemoveEntry(id)), after);
            b.replies[i].queue != b.replies[j].queue
  {
    NewReplies(Abstract(EMPTY), before, id, 0);
    var a := PerformAll(Abstract(EMPTY), before);
    NewReplies(Perform(a, RemoveEntry(id)), after, id, a.next);
  }

  lemma StepBalances(s: State, step: Step)
    requires s.insertions == s.removals + |s.queues|
    ensures var t := Next(s, step); t.insertions == t.removals + |t.queues|
  {
    if step.Remove? && step.id in s.queues {
      assert Next(s, step).queues.Keys == s.queues.Keys - {step.id};
    }
  }

  /** `queue_count` is always insertions minus successful removals. */
  lemma {:induction false} CountIsBalance(s: State, steps: seq<Step>)
    requires s.insertions == s.removals + |s.queues|
    ensures var t := Run(s, steps); t.insertions == t.removals + |t.queues|
    decreases steps
  {
    if steps != [] {
      StepBalances(s, steps[0]);
      CountIsBalance(Next(s, steps[0]), steps[1..]);
    }
  }
}
