/**
 The non-streaming event collector of `DefaultRequestHandler` (ra2a/src/server/handler/default.rs):
 it folds received events into the task store and decides which one ends the request.
 */
module Collector {
  import opened Wrappers
  import opened Types

  /** The task store as the handler uses it: saves carry no version, so they always succeed. */
  type Store = map<string, Task>

  ghost predicate Keyed(store: Store) {
    forall id :: id in store ==> store[id].id == id
  }

  datatype HandlerError =
    | MessageIdRequired
    | PartsRequired
    | TaskNotFound(id: string)
    | TaskInTerminalState(id: string)
    | QueueClosed
    | EventWithoutTask
    | UnexpectedTerminalEvent

  datatype Action = Return(response: Response) | Continue(event: Event)

  /** What a broadcast receiver yields; `now` is the clock while the item is handled. */
  datatype Received = Item(event: Event, now: string) | Lagged(missed: nat)

  /** `Waiting`: the receiver is open and has nothing more, so the collector is still suspended. */
  datatype Outcome = Done(result: Result<Response, HandlerError>) | Waiting

  // ---- One event ---------------------------------------------------------------------------

  /** The task an event makes the collector save, if any. */
  function SnapshotOf(store: Store, e: Event, now: string): Option<Task> {
    match e
    case TaskEvent(t) => Some(t)
    case StatusEvent(u) =>
      if u.taskId in store then Some(store[u.taskId].(status := NewStatus(u.status.state, now))) else None
    case _ => None
  }

  function Persist(store: Store, e: Event, now: string): Store {
    match SnapshotOf(store, e, now)
    case Some(t) => store[t.id := t]
    case None => store
  }

  function GetOrFallback(store: Store, id: string, now: string): Task {
    if id in store then store[id] else NewTask(id, "", now)
  }

  /** `should_interrupt_non_streaming`. */
  function Interrupts(nonBlocking: bool, e: Event): Option<string> {
    if nonBlocking then
      if e.MessageEvent? || e.TaskId() == "" then None else Some(e.TaskId())
    else
      match e
      case TaskEvent(t) => if t.status.state == AuthRequired then Some(t.id) else None
      case StatusEvent(u) => if u.status.state == AuthRequired then Some(u.taskId) else None
      case _ => None
  }

  /** `process_event`: persist, then interrupt, then finish on a terminal event, else go on. */
  function ProcessEvent(store: Store, e: Event, nonBlocking: bool, now: string)
    : (Store, Result<Action, HandlerError>)
  {
    var after := Persist(store, e, now);
    match Interrupts(nonBlocking, e)
    case Some(id) => (after, Ok(Return(TaskResponse(GetOrFallback(after, id, now)))))
    case None =>
      if e.IsTerminal() then
        match e
        case TaskEvent(t) => (after, Ok(Return(TaskResponse(t))))
        case MessageEvent(m) => (after, Ok(Return(MessageResponse(m))))
        case StatusEvent(u) => (after, Ok(Return(TaskResponse(GetOrFallback(after, u.taskId, now)))))
        case ArtifactEvent(_) => (after, Err(UnexpectedTerminalEvent))
      else (after, Ok(Continue(e)))
  }

  // ---- The specification -------------------------------------------------------------------

  /**
   The events that end a request. Blocking: a message, a terminal state, or a request for
   authentication (but not for input). Non-blocking: additionally anything that names a task.
   */
  predicate Stops(nonBlocking: bool, e: Event) {
    match e
    case MessageEvent(_) => true
    case TaskEvent(t) =>
      t.IsTerminal() || (if nonBlocking then t.id != "" else t.status.state == AuthRequired)
    case StatusEvent(u) =>
      u.status.state.IsTerminal() || (if nonBlocking then u.taskId != "" else u.status.state == AuthRequired)
    case ArtifactEvent(c) => nonBlocking && c.taskId != ""
  }

  /** The reply to a stopping event, given the store that already contains its snapshot. */
  function ReplyTo(after: Store, e: Event, now: string): Response {
    match e
    case TaskEvent(t) => TaskResponse(t)
    case MessageEvent(m) => MessageResponse(m)
    case StatusEvent(u) => TaskResponse(GetOrFallback(after, u.taskId, now))
    case ArtifactEvent(c) => TaskResponse(GetOrFallback(after, c.taskId, now))
  }

  lemma ProcessEventMeetsSpec(store: Store, e: Event, nonBlocking: bool, now: string)
    ensures var (after, r) := ProcessEvent(store, e, nonBlocking, now);
            && after == Persist(store, e, now)
            && r == if Stops(nonBlocking, e) then Ok(Return(ReplyTo(after, e, now))) else Ok(Continue(e))
  {}

  predicate StopsAt(nonBlocking: bool, rx: seq<Received>, i: nat)
    requires i < |rx|
  {
    rx[i].Item? && Stops(nonBlocking, rx[i].event)
  }

  /** The first stopping position, or the length if there is none. */
  function StopIndex(nonBlocking: bool, rx: seq<Received>): (n: nat)
    ensures n <= |rx|
    ensures n < |rx| ==> StopsAt(nonBlocking, rx, n)
    ensures forall i :: 0 <= i < n ==> !StopsAt(nonBlocking, rx, i)
  {
    if rx == [] then 0
    else
      var init := rx[..|rx| - 1];
      var n := StopIndex(nonBlocking, init);
      assert forall i :: 0 <= i < |init| ==> StopsAt(nonBlocking, init, i) == StopsAt(nonBlocking, rx, i);
      if n < |init| || StopsAt(nonBlocking, rx, |init|) then n else |rx|
  }

  function PersistAll(store: Store, rx: seq<Received>): Store {
    if rx == [] then store
    else
      var before, last := PersistAll(store, rx[..|rx| - 1]), rx[|rx| - 1];
      if last.Item? then Persist(before, last.event, last.now) else before
  }

  function LastEvent(rx: seq<Received>): Option<Event> {
    if rx == [] then None
    else if rx[|rx| - 1].Item? then Some(rx[|rx| - 1].event)
    else LastEvent(rx[..|rx| - 1])
  }

  /** `finalize_on_close`. */
  function Finalize(store: Store, last: Option<Event>, now: string): Result<Response, HandlerError> {
    match last
    case None => Err(QueueClosed)
    case Some(TaskEvent(t)) => Ok(TaskResponse(t))
    case Some(MessageEvent(m)) => Ok(MessageResponse(m))
    case Some(e) =>
      if e.TaskId() == "" then Err(EventWithoutTask)
      else Ok(TaskResponse(GetOrFallback(store, e.TaskId(), now)))
  }

  // ---- The handler -------------------------------------------------------------------------

  class DefaultRequestHandler {
    var store: Store

    constructor ()
      ensures store == map[]
    {
      store := map[];
    }

    method GetTaskInternal(id: string) returns (r: Option<Task>)
      ensures r == if id in store then Some(store[id]) else None
    {
      r := if id in store then Some(store[id]) else None;
    }

    method StoreTask(t: Task)
      modifies this
      ensures store == old(store)[t.id := t]
    {
      store := store[t.id := t];
    }

    method PersistEventSnapshot(e: Event, now: string)
      modifies this
      ensures store == Persist(old(store), e, now)
    {
      match e
      case TaskEvent(t) => StoreTask(t);
      case StatusEvent(u) =>
        var stored := GetTaskInternal(u.taskId);
        if stored.Some? {
          StoreTask(stored.value.(status := NewStatus(u.status.state, now)));
        }
      case _ =>
    }

    method HandleEvent(e: Event, nonBlocking: bool, now: string) returns (r: Result<Action, HandlerError>)
      modifies this
      ensures (store, r) == ProcessEvent(old(store), e, nonBlocking, now)
    {
      PersistEventSnapshot(e, now);
      var interrupted := Interrupts(nonBlocking, e);
      if interrupted.Some? {
        var t := GetTaskInternal(interrupted.value);
        return Ok(Return(TaskResponse(t.UnwrapOr(NewTask(interrupted.value, "", now)))));
      }
      if e.IsTerminal() {
        match e {
          case TaskEvent(t) => r := Ok(Return(TaskResponse(t)));
          case MessageEvent(m) => r := Ok(Return(MessageResponse(m)));
          case StatusEvent(u) =>
            var t := GetTaskInternal(u.taskId);
            r := Ok(Return(TaskResponse(t.UnwrapOr(NewTask(u.taskId, "", now)))));
        }
        return;
      }
      r := Ok(Continue(e));
    }

    /**
     The collector on everything a receiver yields. The store becomes the fold of the snapshots up
     to and including the first stopping event, whose reply is the result; nothing later is looked at.
     Without a stopping event it answers only if the channel closes.
     */
    method CollectResult(rx: seq<Received>, closed: bool, nonBlocking: bool, now: string) returns (r: Outcome)
      modifies this
      ensures var n := StopIndex(nonBlocking, rx);
              if n < |rx|
              then && store == PersistAll(old(store), rx[..n + 1])
                   && r == Done(Ok(ReplyTo(store, rx[n].event, rx[n].now)))
              else && store == PersistAll(old(store), rx)
                   && r == if closed then Done(Finalize(store, LastEvent(rx), now)) else Waiting
    {
      var lastEvent: Option<Event> := None;
      var i := 0;
      while i < |rx|
        invariant 0 <= i <= |rx|
        invariant forall j :: 0 <= j < i ==> !StopsAt(nonBlocking, rx, j)
        invariant store == PersistAll(old(store), rx[..i])
        invariant lastEvent == LastEvent(rx[..i])
      {
        assert rx[..i + 1][..i] == rx[..i];
        match rx[i] {
          case Item(event, at) =>
            ProcessEventMeetsSpec(store, event, nonBlocking, at);
            var action := HandleEvent(event, nonBlocking, at);
            match action {
              case Err(e) => return Done(Err(e));
              case Ok(Return(response)) =>
                assert StopsAt(nonBlocking, rx, i);
                assert StopIndex(nonBlocking, rx) == i;
                return Done(Ok(response));
              case Ok(Continue(ev)) => lastEvent := Some(ev);
            }
          case Lagged(_) =>
        }
        i := i + 1;
      }
      assert rx[..i] == rx;
      assert StopIndex(nonBlocking, rx) == |rx|;
      if !closed { return Waiting; }
      match lastEvent {
        case None => r := Done(Err(QueueClosed));
        case Some(TaskEvent(t)) => r := Done(Ok(TaskResponse(t)));
        case Some(MessageEvent(m)) => r := Done(Ok(MessageResponse(m)));
        case Some(ev) =>
          if ev.TaskId() == "" { return Done(Err(EventWithoutTask)); }
          var t := GetTaskInternal(ev.TaskId());
          r := Done(Ok(TaskResponse(t.UnwrapOr(NewTask(ev.TaskId(), "", now)))));
      }
    }
  }

  // ---- What the specification means --------------------------------------------------------

  /** Every task saved while the items are handled, in order. */
  function Writes(store: Store, rx: seq<Received>): seq<Task> {
    if rx == [] then []
    else
      var init, last := rx[..|rx| - 1], rx[|rx| - 1];
      Writes(store, init) +
      (if last.Lagged? then []
       else match SnapshotOf(PersistAll(store, init), last.event, last.now)
            case Some(t) => [t]
            case None => [])
  }

  /** Applies saved tasks to a store, one after the other. */
  function Replay(store: Store, writes: seq<Task>): Store {
    if writes == [] then store
    else Replay(store, writes[..|writes| - 1])[writes[|writes| - 1].id := writes[|writes| - 1]]
  }

  lemma ReplayMore(store: Store, writes: seq<Task>, t: Task)
    ensures Replay(store, writes + [t]) == Replay(store, writes)[t.id := t]
  {
    var longer := writes + [t];
    assert longer[..|longer| - 1] == writes;
  }

  lemma {:induction false} WritesExplainStore(store: Store, rx: seq<Received>)
    ensures Replay(store, Writes(store, rx)) == PersistAll(store, rx)
  {
    if rx != [] {
      var init, last := rx[..|rx| - 1], rx[|rx| - 1];
      WritesExplainStore(store, init);
      if last.Item? && SnapshotOf(PersistAll(store, init), last.event, last.now).Some? {
        ReplayMore(store, Writes(store, init), SnapshotOf(PersistAll(store, init), last.event, last.now).value);
      } else {
        assert Writes(store, rx) == Writes(store, init);
      }
    }
  }

  lemma {:induction false} NoTerminalWriteBefore(store: Store, rx: seq<Received>, nonBlocking: bool)
    requires forall i :: 0 <= i < |rx| ==> !StopsAt(nonBlocking, rx, i)
    ensures forall i :: 0 <= i < |Writes(store, rx)| ==> !Writes(store, rx)[i].IsTerminal()
  {
    if rx != [] {
      var init := rx[..|rx| - 1];
      assert forall i :: 0 <= i < |init| ==> StopsAt(nonBlocking, init, i) == StopsAt(nonBlocking, rx, i);
      NoTerminalWriteBefore(store, init, nonBlocking);
      assert !StopsAt(nonBlocking, rx, |rx| - 1);
    }
  }

  /**
   A request saves at most one terminal snapshot, and nothing after it: among the writes made up to
   the stopping event only the very last can be terminal, and then that event was terminal.
   */
  lemma TerminalWriteIsLast(store: Store, rx: seq<Received>, nonBlocking: bool)
    requires StopIndex(nonBlocking, rx) < |rx|
    ensures var n := StopIndex(nonBlocking, rx);
            var w := Writes(store, rx[..n + 1]);
            forall i :: 0 <= i < |w| && w[i].IsTerminal() ==> i == |w| - 1 && rx[n].event.IsTerminal()
  {
    var n := StopIndex(nonBlocking, rx);
    var handled := rx[..n + 1];
    var init := handled[..n];
    assert forall i :: 0 <= i < n ==> StopsAt(nonBlocking, init, i) == StopsAt(nonBlocking, rx, i);
    assert handled[..|handled| - 1] == init;
    NoTerminalWriteBefore(store, init, nonBlocking);
  }

  lemma {:induction false} PersistAllKeyed(store: Store, rx: seq<Received>)
    requires Keyed(store)
    ensures Keyed(PersistAll(store, rx))
  {
    if rx != [] { PersistAllKeyed(store, rx[..|rx| - 1]); }
  }

  /**
   A stopping status update of a stored task is answered with that task: the event's state, no status
   message (the event's own is dropped), artifacts, history and metadata untouched.
   */
  lemma StatusReply(store: Store, rx: seq<Received>, nonBlocking: bool, n: nat, stored: Task)
    requires Keyed(store)
    requires n == StopIndex(nonBlocking, rx) < |rx| && rx[n].event.StatusEvent?
    requires rx[n].event.update.taskId in PersistAll(store, rx[..n])
    requires stored == PersistAll(store, rx[..n])[rx[n].event.update.taskId]
    ensures ReplyTo(PersistAll(store, rx[..n + 1]), rx[n].event, rx[n].now)
         == TaskResponse(stored.(status := TaskStatus(rx[n].event.update.status.state, None, Some(rx[n].now))))
  {
    assert rx[..n + 1][..n] == rx[..n];
    PersistAllKeyed(store, rx[..n]);
  }

  /**
   An event changes the stored value of its own task only: a task event to that very task, a status
   update nothing but the status of a task that is already stored (the new state, no message, the time
   of handling), any other event not at all.
   */
  lemma PersistTouchesOnly(store: Store, e: Event, now: string, id: string)
    requires Keyed(store)
    ensures var after := Persist(store, e, now);
            match e
            case TaskEvent(t) => if id == t.id then id in after && after[id] == t else Same(store, after, id)
            case StatusEvent(u) =>
              if id == u.taskId && id in store
              then id in after && after[id] == store[id].(status := TaskStatus(u.status.state, None, Some(now)))
              else Same(store, after, id)
            case _ => Same(store, after, id)
  {}

  /** Nothing is answered that is not stored: a message itself, or the event's task as the store has it now. */
  lemma AnswerIsStored(store: Store, e: Event, now: string)
    requires Keyed(store)
    ensures var after := Persist(store, e, now);
            match ReplyTo(after, e, now)
            case MessageResponse(m) => e == MessageEvent(m)
            case TaskResponse(t) =>
              && !e.MessageEvent?
              && (e.TaskId() in after ==> t == after[e.TaskId()])
              && (e.TaskId() !in after ==>
                    t == Task(e.TaskId(), "", TaskStatus(Submitted, None, Some(now)), [], [], None))
  {}

  /** Position i holds the last event of rx. */
  ghost predicate LastItemAt(rx: seq<Received>, i: nat) {
    i < |rx| && rx[i].Item? && forall j :: i < j < |rx| ==> rx[j].Lagged?
  }

  lemma {:induction false} LastEventAt(rx: seq<Received>)
    ensures LastEvent(rx).None? <==> forall i :: 0 <= i < |rx| ==> rx[i].Lagged?
    ensures forall i: nat :: LastItemAt(rx, i) ==> LastEvent(rx) == Some(rx[i].event)
  {
    if rx != [] && rx[|rx| - 1].Lagged? {
      var init := rx[..|rx| - 1];
      LastEventAt(init);
      assert rx == init + [rx[|rx| - 1]];
      forall i: nat | LastItemAt(rx, i) ensures LastEvent(rx) == Some(rx[i].event) { assert LastItemAt(init, i); }
    }
  }

  /**
   When the channel closes before a stopping event, the last event is answered as if it had been one,
   unless it names no task; without any event that is an error.
   */
  lemma FinalAnswer(store: Store, rx: seq<Received>, now: string, i: nat)
    ensures (forall j :: 0 <= j < |rx| ==> rx[j].Lagged?) ==> Finalize(store, LastEvent(rx), now) == Err(QueueClosed)
    ensures LastItemAt(rx, i) ==>
              Finalize(store, LastEvent(rx), now) ==
              if (rx[i].event.StatusEvent? || rx[i].event.ArtifactEvent?) && rx[i].event.TaskId() == ""
              then Err(EventWithoutTask) else Ok(ReplyTo(store, rx[i].event, now))
  {
    LastEventAt(rx);
  }

  predicate Same(before: Store, after: Store, id: string) {
    (id in after <==> id in before) && (id in before ==> after[id] == before[id])
  }

  /** Whatever the mode, artifact chunks never reach the store. */
  lemma {:induction false} ArtifactsAreNotStored(store: Store, rx: seq<Received>)
    requires forall i :: 0 <= i < |rx| && rx[i].Item? ==> rx[i].event.ArtifactEvent?
    ensures PersistAll(store, rx) == store
  {
    if rx != [] { ArtifactsAreNotStored(store, rx[..|rx| - 1]); }
  }
}
