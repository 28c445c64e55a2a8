/**
 `InMemoryTaskStore` (ra2a/src/server/task_store.rs): versioned saves where the version ticket is
 taken before the write lock, and the interleavings that allows.
 */
module TaskStore {
  import opened Wrappers
  import opened Types
  import opened Pages
  import opened Pagination

  const I64_MAX: int := 0x7fff_ffff_ffff_ffff
  const TWO_POW_64: int := 0x1_0000_0000_0000_0000

  /** `TaskVersion::MISSING`: no version tracking. */
  const MISSING := 0

  datatype StoreError = ConcurrentTaskModification

  datatype Entry = Entry(task: Task, version: int)

  type Tasks = map<string, Entry>

  /** `AtomicI64::fetch_add(1)` wraps around. */
  function Increment(v: int): int {
    if v == I64_MAX then -I64_MAX - 1 else v + 1
  }

  /** What a save does once it holds the write lock. */
  function Commit(tasks: Tasks, task: Task, prev: int, version: int): (Tasks, Result<int, StoreError>) {
    if task.id in tasks && prev != MISSING && prev != tasks[task.id].version
    then (tasks, Err(ConcurrentTaskModification))
    else (tasks[task.id := Entry(task, version)], Ok(version))
  }

  /** Every key once. */
  ghost predicate Enumerates(order: seq<string>, tasks: Tasks) {
    && (forall i :: 0 <= i < |order| ==> order[i] in tasks)
    && (forall i, j :: 0 <= i < j < |order| ==> order[i] != order[j])
    && (forall k :: k in tasks ==> k in order)
  }

  function InOrder(tasks: Tasks, order: seq<string>): (r: seq<Task>)
    requires forall i :: 0 <= i < |order| ==> order[i] in tasks
    ensures |r| == |order|
  {
    seq(|order|, i requires 0 <= i < |order| && order[i] in tasks => tasks[order[i]].task)
  }

  class InMemoryTaskStore {
    var tasks: Tasks
    var nextVersion: int

    constructor New()
      ensures tasks == map[] && nextVersion == 1
    {
      tasks, nextVersion := map[], 1;
    }

    /** The derived `Default`, whose counter starts at the value that means "no version". */
    constructor Default()
      ensures tasks == map[] && nextVersion == MISSING
    {
      tasks, nextVersion := map[], 0;
    }

    method FetchAdd() returns (version: int)
      modifies this`nextVersion
      ensures version == old(nextVersion) && nextVersion == Increment(version)
    {
      version := nextVersion;
      nextVersion := if version == I64_MAX then -I64_MAX - 1 else version + 1;
    }

    /**
     Succeeds exactly if the key is new, or no version is asked for, or it is the stored one; then the
     map holds this very task, under its id and with the ticket as version, and is otherwise as it was.
     */
    method Save(task: Task, prev: int) returns (r: Result<int, StoreError>)
      modifies this
      ensures nextVersion == Increment(old(nextVersion))
      ensures r.Ok? <==> task.id !in old(tasks) || prev == MISSING || prev == old(tasks)[task.id].version
      ensures r.Ok? ==> r.value == old(nextVersion) && tasks == old(tasks)[task.id := Entry(task, r.value)]
      ensures r.Err? ==> tasks == old(tasks)
      ensures (tasks, r) == Commit(old(tasks), task, prev, old(nextVersion))
    {
      var key := task.id;
      var version := FetchAdd();
      if key in tasks {
        if prev != MISSING && prev != tasks[key].version {
          return Err(ConcurrentTaskModification);
        }
      }
      tasks := tasks[key := Entry(task, version)];
      r := Ok(version);
    }

    method Get(id: string) returns (r: Option<(Task, int)>)
      ensures r.Some? <==> id in tasks
      ensures r.Some? ==> tasks[id] == Entry(r.value.0, r.value.1)
    {
      r := if id in tasks then Some((tasks[id].task, tasks[id].version)) else None;
    }

    method Delete(id: string)
      modifies this`tasks
      ensures tasks == old(tasks) - {id}
    {
      tasks := tasks - {id};
    }

    /** `order` is the hash map's iteration order, which nothing else fixes. */
    method List(req: ListRequest, order: seq<string>) returns (r: ListResponse)
      requires Enumerates(order, tasks) && |order| <= USIZE_MAX
      ensures |Retain(InOrder(tasks, order), Matches(req))| <= USIZE_MAX
      ensures r == Page(Retain(InOrder(tasks, order), Matches(req)), req.pageSize, req.pageToken)
    {
      var result := InOrder(tasks, order);
      FiltersCompose(result, req);
      if req.contextId.Some? {
        result := Retain(result, InContext(req.contextId));
      } else {
        RetainAll(result, InContext(req.contextId));
      }
      if req.status.Some? {
        result := Retain(result, InState(req.status));
      } else {
        RetainAll(result, InState(req.status));
      }
      r := PageOf(result, req);
    }

    /** The second half of `list`: clamp, skip, take, and print the next offset. */
    static method PageOf(result: seq<Task>, req: ListRequest) returns (r: ListResponse)
      requires |result| <= USIZE_MAX
      ensures r == Page(result, req.pageSize, req.pageToken)
    {
      var totalSize := if |result| <= I32_MAX then |result| else I32_MAX;
      var pageSize := PageSize(req.pageSize);
      var offset := Offset(req.pageToken);
      var paged := Cut(result, offset, pageSize);
      var nextOffset := offset + |paged|;
      var nextPageToken := "";
      if (if nextOffset <= I32_MAX then nextOffset else I32_MAX) < totalSize {
        nextPageToken := Print(nextOffset);
      }
      r := ListResponse(paged, totalSize, pageSize, nextPageToken);
    }
  }

  // ---- Interleavings -----------------------------------------------------------------------

  /** A save between its ticket and its write lock. */
  datatype Pending = Pending(task: Task, prev: int, version: int)

  datatype Observation =
    | Committed(key: string, prev: int, version: int, found: bool, ok: bool)
    | Deleted(key: string)
    | Read(key: string, entry: Entry)
  {
    predicate Writes(k: string) {
      key == k && (Deleted? || (Committed? && ok))
    }
  }

  /** Pending saves are keyed by an operation id; `issued` and `log` record the run. */
  datatype State = State(
    tasks: Tasks, next: int, pending: map<nat, Pending>, issued: seq<int>, log: seq<Observation>)

  datatype Step =
    | Ticket(op: nat, task: Task, prev: int)
    | Write(op: nat)
    | Delete(key: string)
    | Get(key: string)

  function Init(firstVersion: int): State {
    State(map[], firstVersion, map[], [], [])
  }

  /** One atomic step; a step that is not enabled changes nothing. */
  function Next(s: State, step: Step): State {
    match step
    case Ticket(op, task, prev) =>
      if op in s.pending then s
      else s.(next := Increment(s.next), issued := s.issued + [s.next],
              pending := s.pending[op := Pending(task, prev, s.next)])
    case Write(op) =>
      if op !in s.pending then s
      else
        var p := s.pending[op];
        var (tasks, r) := Commit(s.tasks, p.task, p.prev, p.version);
        s.(tasks := tasks, pending := s.pending - {op},
           log := s.log + [Committed(p.task.id, p.prev, p.version, p.task.id in s.tasks, r.Ok?)])
    case Delete(key) =>
      s.(tasks := s.tasks - {key}, log := s.log + [Deleted(key)])
    case Get(key) =>
      if key !in s.tasks then s
      else s.(log := s.log + [Read(key, s.tasks[key])])
  }

  function Run(s: State, steps: seq<Step>): State
    decreases steps
  {
    if steps == [] then s else Run(Next(s, steps[0]), steps[1..])
  }

  // ---- Versions ----------------------------------------------------------------------------

  /** The n-th value of a wrapping i64 counter that starts at 0. */
  function Wrap(n: nat): int {
    var m := n % TWO_POW_64;
    if m <= I64_MAX then m else m - TWO_POW_64
  }

  lemma WrapCounts(n: nat)
    ensures Increment(Wrap(n)) == Wrap(n + 1)
  {}

  ghost predicate Usable(versions: seq<int>) {
    && (forall i :: 0 <= i < |versions| ==> versions[i] != MISSING)
    && (forall i, j :: 0 <= i < j < |versions| ==> versions[i] != versions[j])
  }

  /** The counter never does anything but count, from the first version on. */
  ghost predicate Counting(s: State, first: nat) {
    && s.next == Wrap(first + |s.issued|)
    && forall i :: 0 <= i < |s.issued| ==> s.issued[i] == Wrap(first + i)
  }

  lemma StepCounts(s: State, step: Step, first: nat)
    requires Counting(s, first)
    ensures Counting(Next(s, step), first) && s.issued <= Next(s, step).issued
  {
    WrapCounts(first + |s.issued|);
  }

  lemma {:induction false} RunCounts(s: State, steps: seq<Step>, first: nat)
    requires Counting(s, first)
    ensures Counting(Run(s, steps), first) && |s.issued| <= |Run(s, steps).issued|
    decreases steps
  {
    if steps != [] {
      StepCounts(s, steps[0], first);
      RunCounts(Next(s, steps[0]), steps[1..], first);
    }
  }

  lemma WrapInjective(a: nat, b: nat)
    requires a < b < TWO_POW_64
    ensures Wrap(a) != Wrap(b)
    ensures Wrap(b) != MISSING
  {}

  lemma CountingIsUsable(s: State, first: nat)
    requires Counting(s, first) && 0 < first && first + |s.issued| <= TWO_POW_64
    ensures Usable(s.issued)
  {
    forall i | 0 <= i < |s.issued| ensures s.issued[i] != MISSING { WrapInjective(0, first + i); }
    forall i, j | 0 <= i < j < |s.issued| ensures s.issued[i] != s.issued[j] { WrapInjective(first + i, first + j); }
  }

  /**
   Whatever the first version: tickets are distinct and non-zero exactly as long as the wrapping counter
   has not got to zero.
   */
  lemma VersionsUsableFromIff(first: nat, steps: seq<Step>)
    requires first < TWO_POW_64
    ensures var s := Run(Init(Wrap(first)), steps);
            Usable(s.issued) <==> |s.issued| <= if first == 0 then 0 else TWO_POW_64 - first
  {
    RunCounts(Init(Wrap(first)), steps, first);
    var s := Run(Init(Wrap(first)), steps);
    if first == 0 {
      assert s.issued != [] ==> s.issued[0] == Wrap(0) == MISSING;
    } else if |s.issued| <= TWO_POW_64 - first {
      CountingIsUsable(s, first);
    } else {
      assert s.issued[TWO_POW_64 - first] == Wrap(TWO_POW_64) == MISSING;
    }
  }

  /** On a store built by `new` that is the first 2^64 - 1 saves, on a derived default not even one. */
  lemma VersionsUsableIff(steps: seq<Step>)
    ensures Usable(Run(Init(1), steps).issued) <==> |Run(Init(1), steps).issued| < TWO_POW_64
    ensures Usable(Run(Init(0), steps).issued) <==> Run(Init(0), steps).issued == []
  {
    VersionsUsableFromIff(1, steps);
    VersionsUsableFromIff(0, steps);
  }

  // ---- What every run keeps ----------------------------------------------------------------

  /** v's save has been through the write lock. */
  ghost predicate Spent(log: seq<Observation>, v: int) {
    exists i :: 0 <= i < |log| && log[i].Committed? && log[i].version == v
  }

  /** Observation i is a conditional save that found its key and succeeded. */
  predicate Swapped(log: seq<Observation>, i: nat)
    requires i < |log|
  {
    log[i].Committed? && log[i].found && log[i].ok && log[i].prev != MISSING
  }

  ghost predicate Untouched(log: seq<Observation>, key: string, from: nat) {
    forall m :: from < m < |log| ==> !log[m].Writes(key)
  }

  ghost predicate TicketsFresh(s: State) {
    && (forall op :: op in s.pending ==>
          s.pending[op].version in s.issued && !Spent(s.log, s.pending[op].version))
    && (forall a, b :: a in s.pending && b in s.pending && a != b ==>
          s.pending[a].version != s.pending[b].version)
    && (forall v :: Spent(s.log, v) ==> v in s.issued)
  }

  ghost predicate EntriesUnique(s: State) {
    && (forall k :: k in s.tasks ==> Spent(s.log, s.tasks[k].version))
    && (forall k, l :: k in s.tasks && l in s.tasks && k != l ==> s.tasks[k].version != s.tasks[l].version)
  }

  /** A version that was swapped out never comes back. */
  ghost predicate SwapsFinal(s: State) {
    forall i :: 0 <= i < |s.log| && Swapped(s.log, i) ==>
      Spent(s.log, s.log[i].prev) && forall k :: k in s.tasks ==> s.tasks[k].version != s.log[i].prev
  }

  /** If a key still has the version some read returned, the entry was never touched since. */
  ghost predicate ReadsTrusted(s: State) {
    forall i :: 0 <= i < |s.log| && s.log[i].Read? ==>
      var key, entry := s.log[i].key, s.log[i].entry;
      && Spent(s.log, entry.version)
      && (key in s.tasks && s.tasks[key].version == entry.version ==>
            s.tasks[key] == entry && Untouched(s.log, key, i))
  }

  ghost predicate Invariant(s: State) {
    TicketsFresh(s) && EntriesUnique(s) && SwapsFinal(s) && ReadsTrusted(s)
  }

  /** Every ticket goes through the write lock at most once. */
  ghost predicate CommittedOnce(log: seq<Observation>) {
    forall i, j :: 0 <= i < j < |log| && log[i].Committed? && log[j].Committed? ==>
      log[i].version != log[j].version
  }

  /** Two saves that found their key and carried the same version never both succeed. */
  ghost predicate NoLostUpdate(log: seq<Observation>) {
    forall i, j :: 0 <= i < j < |log| && Swapped(log, i) && Swapped(log, j) ==> log[i].prev != log[j].prev
  }

  /**
   A conditional save that succeeds on a found key with the version some earlier read of that key
   returned had no write or deletion of the key in between: read and save form one atomic update.
   */
  ghost predicate NoABA(log: seq<Observation>) {
    forall i, j :: 0 <= i < j < |log| && log[i].Read? && Swapped(log, j)
      && log[i].key == log[j].key && log[i].entry.version == log[j].prev
      ==> forall m :: i < m < j ==> !log[m].Writes(log[i].key)
  }

  ghost predicate Safe(log: seq<Observation>) {
    CommittedOnce(log) && NoLostUpdate(log) && NoABA(log)
  }

  lemma SpentAfter(log: seq<Observation>, e: Observation)
    ensures forall v :: Spent(log + [e], v) <==> Spent(log, v) || (e.Committed? && e.version == v)
  {
    var longer := log + [e];
    forall v | Spent(log, v) ensures Spent(longer, v) {
      var i :| 0 <= i < |log| && log[i].Committed? && log[i].version == v;
      assert longer[i] == log[i];
    }
    if e.Committed? { assert longer[|log|] == e; }
  }

  lemma TicketKeeps(s: State, step: Step)
    requires Invariant(s) && step.Ticket? && Usable(Next(s, step).issued)
    ensures Invariant(Next(s, step))
  {
    var t := Next(s, step);
    if t != s {
      var last := |s.issued|;
      forall v | v in s.issued ensures v != s.next && v in t.issued {
        var i :| 0 <= i < last && s.issued[i] == v;
        assert t.issued[i] == v && t.issued[last] == s.next;
      }
      assert t.issued[last] == s.next;
    }
  }

  lemma WriteKeepsTicketsAndEntries(s: State, op: nat)
    requires Invariant(s) && op in s.pending
    ensures TicketsFresh(Next(s, Write(op))) && EntriesUnique(Next(s, Write(op)))
  {
    var t := Next(s, Write(op));
    SpentAfter(s.log, t.log[|s.log|]);
  }

  lemma WriteKeepsSwaps(s: State, op: nat)
    requires Invariant(s) && op in s.pending
    ensures SwapsFinal(Next(s, Write(op)))
  {
    var t, p, last := Next(s, Write(op)), s.pending[op], |s.log|;
    SpentAfter(s.log, t.log[last]);
    forall i | 0 <= i < |t.log| && Swapped(t.log, i)
      ensures Spent(t.log, t.log[i].prev) && forall k :: k in t.tasks ==> t.tasks[k].version != t.log[i].prev
    {
      if i < last {
        assert Swapped(s.log, i);
      } else {
        assert s.tasks[p.task.id].version == p.prev;
      }
    }
  }

  lemma WriteKeepsReads(s: State, op: nat)
    requires Invariant(s) && op in s.pending
    ensures ReadsTrusted(Next(s, Write(op)))
  {
    var t, p, last := Next(s, Write(op)), s.pending[op], |s.log|;
    SpentAfter(s.log, t.log[last]);
    forall i | 0 <= i < |t.log| && t.log[i].Read?
      ensures var key, entry := t.log[i].key, t.log[i].entry;
              && Spent(t.log, entry.version)
              && (key in t.tasks && t.tasks[key].version == entry.version ==>
                    t.tasks[key] == entry && Untouched(t.log, key, i))
    {
      var key, entry := s.log[i].key, s.log[i].entry;
      assert s.log[i] == t.log[i];
      if key in t.tasks && t.tasks[key].version == entry.version {
        assert !t.log[last].Writes(key);
      }
    }
  }

  lemma WriteIsSafe(s: State, op: nat)
    requires Invariant(s) && op in s.pending && Safe(s.log)
    ensures Safe(Next(s, Write(op)).log)
  {
    var t, p, last := Next(s, Write(op)), s.pending[op], |s.log|;
    forall i | 0 <= i < last && t.log[i].Committed? ensures t.log[i].version != p.version {
      assert Spent(s.log, s.log[i].version);
    }
    if Swapped(t.log, last) {
      assert s.tasks[p.task.id].version == p.prev;
    }
    forall i, j | 0 <= i < j < |t.log| && Swapped(t.log, i) && Swapped(t.log, j)
      ensures t.log[i].prev != t.log[j].prev
    {
      assert Swapped(s.log, i);
      if j < last { assert Swapped(s.log, j); }
    }
    forall i, j | 0 <= i < j < |t.log| && t.log[i].Read? && Swapped(t.log, j)
      && t.log[i].key == t.log[j].key && t.log[i].entry.version == t.log[j].prev
      ensures forall m :: i < m < j ==> !t.log[m].Writes(t.log[i].key)
    {
      assert s.log[i] == t.log[i];
      if j < last {
        assert Swapped(s.log, j);
      } else {
        assert Untouched(s.log, s.log[i].key, i);
      }
    }
  }

  lemma ReadOrDeleteKeeps(s: State, step: Step)
    requires Invariant(s) && (step.Delete? || step.Get?)
    ensures Invariant(Next(s, step))
  {
    var t := Next(s, step);
    if t != s {
      var last := |s.log|;
      SpentAfter(s.log, t.log[last]);
      assert SwapsFinal(t) by {
        forall i | 0 <= i < |t.log| && Swapped(t.log, i) ensures i < last && Swapped(s.log, i) {}
      }
      forall i | 0 <= i < |t.log| && t.log[i].Read?
        ensures var key, entry := t.log[i].key, t.log[i].entry;
                && Spent(t.log, entry.version)
                && (key in t.tasks && t.tasks[key].version == entry.version ==>
                      t.tasks[key] == entry && Untouched(t.log, key, i))
      {
        if i < last { assert s.log[i] == t.log[i]; }
      }
    }
  }

  lemma ReadOrDeleteIsSafe(s: State, step: Step)
    requires Safe(s.log) && (step.Delete? || step.Get?)
    ensures Safe(Next(s, step).log)
  {
    var t := Next(s, step);
    forall i | 0 <= i < |t.log| && Swapped(t.log, i) ensures i < |s.log| && Swapped(s.log, i) {}
  }

  lemma StepKeeps(s: State, step: Step)
    requires Invariant(s) && Safe(s.log) && Usable(Next(s, step).issued)
    ensures Invariant(Next(s, step)) && Safe(Next(s, step).log)
  {
    match step {
      case Ticket(_, _, _) => TicketKeeps(s, step);
      case Write(op) =>
        if op in s.pending {
          WriteKeepsTicketsAndEntries(s, op);
          WriteKeepsSwaps(s, op);
          WriteKeepsReads(s, op);
          WriteIsSafe(s, op);
        }
      case _ =>
        ReadOrDeleteKeeps(s, step);
        ReadOrDeleteIsSafe(s, step);
    }
  }

  lemma {:induction false} RunKeeps(s: State, steps: seq<Step>)
    requires Counting(s, 1) && Invariant(s) && Safe(s.log)
    requires |Run(s, steps).issued| < TWO_POW_64
    ensures Invariant(Run(s, steps)) && Safe(Run(s, steps).log)
    decreases steps
  {
    if steps != [] {
      var step := steps[0];
      var t := Next(s, step);
      StepCounts(s, step, 1);
      RunCounts(t, steps[1..], 1);
      CountingIsUsable(t, 1);
      StepKeeps(s, step);
      RunKeeps(t, steps[1..]);
    }
  }

  /** Safety of every interleaving: tickets, writes, deletes and reads in any order, below overflow. */
  lemma EveryRunIsSafe(steps: seq<Step>)
    requires |Run(Init(1), steps).issued| < TWO_POW_64
    ensures Safe(Run(Init(1), steps).log)
    ensures Invariant(Run(Init(1), steps))
  {
    RunKeeps(Init(1), steps);
  }

  // ---- What the store holds ----------------------------------------------------------------

  /** How many tickets these steps give out. */
  function TicketCount(first: nat, steps: seq<Step>): nat
    decreases |steps|, 0
  {
    if steps == [] then 0
    else
      var init, last := steps[..|steps| - 1], steps[|steps| - 1];
      TicketCount(first, init) + if last.Ticket? && Held(first, init, last.op).None? then 1 else 0
  }

  /** The ticket an operation holds after these steps: taken while it held none, and not used yet. */
  function Held(first: nat, steps: seq<Step>, op: nat): Option<Pending>
    decreases |steps|, 0
  {
    if steps == [] then None
    else
      var init := steps[..|steps| - 1];
      var before := Held(first, init, op);
      match steps[|steps| - 1]
      case Ticket(o, task, prev) =>
        if o == op && before.None? then Some(Pending(task, prev, Wrap(first + TicketCount(first, init)))) else before
      case Write(o) => if o == op then None else before
      case _ => before
  }

  /** Step i is a save that succeeds: the key is new, or no version is asked for, or it is the stored one. */
  predicate Saves(first: nat, steps: seq<Step>, i: nat, p: Pending)
    requires i < |steps|
  {
    var tasks := Run(Init(Wrap(first)), steps[..i]).tasks;
    && steps[i].Write? && Held(first, steps[..i], steps[i].op) == Some(p)
    && (p.task.id !in tasks || p.prev == MISSING || p.prev == tasks[p.task.id].version)
  }

  /** From step i on, nothing else is saved under the key and it is not deleted. */
  ghost predicate Stands(first: nat, steps: seq<Step>, i: nat, key: string) {
    forall j :: i < j < |steps| ==>
      steps[j] != Delete(key) && forall q :: Saves(first, steps, j, q) ==> q.task.id != key
  }

  lemma {:induction false} RunLast(s: State, steps: seq<Step>)
    requires steps != []
    ensures Run(s, steps) == Next(Run(s, steps[..|steps| - 1]), steps[|steps| - 1])
    decreases steps
  {
    if |steps| > 1 {
      RunLast(Next(s, steps[0]), steps[1..]);
      assert steps[1..][..|steps| - 2] == steps[..|steps| - 1][1..];
    }
  }

  /** The machine holds exactly these tickets. */
  ghost predicate Holding(s: State, first: nat, steps: seq<Step>) {
    && s.next == Wrap(first + TicketCount(first, steps))
    && forall op :: Held(first, steps, op) == if op in s.pending then Some(s.pending[op]) else None
  }

  lemma LastStepHolds(s: State, first: nat, steps: seq<Step>)
    requires steps != [] && Holding(s, first, steps[..|steps| - 1])
    ensures Holding(Next(s, steps[|steps| - 1]), first, steps)
  {
    var last := steps[|steps| - 1];
    var t := Next(s, last);
    WrapCounts(first + TicketCount(first, steps[..|steps| - 1]));
    forall op ensures Held(first, steps, op) == if op in t.pending then Some(t.pending[op]) else None {
      assert Held(first, steps[..|steps| - 1], op) == if op in s.pending then Some(s.pending[op]) else None;
    }
  }

  lemma {:induction false} HeldIsPending(first: nat, steps: seq<Step>)
    ensures Holding(Run(Init(Wrap(first)), steps), first, steps)
    decreases |steps|
  {
    if steps != [] {
      HeldIsPending(first, steps[..|steps| - 1]);
      RunLast(Init(Wrap(first)), steps);
      LastStepHolds(Run(Init(Wrap(first)), steps[..|steps| - 1]), first, steps);
    }
  }

  lemma SavesEarlier(first: nat, steps: seq<Step>, i: nat, p: Pending)
    requires i < |steps| - 1
    ensures Saves(first, steps[..|steps| - 1], i, p) <==> Saves(first, steps, i, p)
  {
    assert steps[..|steps| - 1][..i] == steps[..i];
  }

  lemma StandsEarlier(first: nat, steps: seq<Step>, i: nat, key: string)
    requires i < |steps| - 1
    ensures Stands(first, steps, i, key) <==>
            && Stands(first, steps[..|steps| - 1], i, key)
            && steps[|steps| - 1] != Delete(key)
            && forall q :: Saves(first, steps, |steps| - 1, q) ==> q.task.id != key
  {
    var init := steps[..|steps| - 1];
    forall j, q | i < j < |init| ensures Saves(first, init, j, q) <==> Saves(first, steps, j, q) {
      SavesEarlier(first, steps, j, q);
    }
    assert forall j :: i < j < |init| ==> init[j] == steps[j];
  }

  /** What the last step does to one key. */
  lemma LastStepStores(first: nat, steps: seq<Step>, key: string)
    requires steps != []
    ensures var n := |steps| - 1;
            var before, after := Run(Init(Wrap(first)), steps[..n]).tasks, Run(Init(Wrap(first)), steps).tasks;
            && (steps[n] == Delete(key) ==> key !in after)
            && (forall q :: Saves(first, steps, n, q) && q.task.id == key ==>
                  key in after && after[key] == Entry(q.task, q.version))
            && (steps[n] != Delete(key) && (forall q :: Saves(first, steps, n, q) ==> q.task.id != key) ==>
                  (key in after <==> key in before) && (key in before ==> after[key] == before[key]))
  {
    var n := |steps| - 1;
    HeldIsPending(first, steps[..n]);
    RunLast(Init(Wrap(first)), steps);
    var s := Run(Init(Wrap(first)), steps[..n]);
    if steps[n].Write? && steps[n].op in s.pending {
      var p := s.pending[steps[n].op];
      assert Held(first, steps[..n], steps[n].op) == Some(p);
      assert Saves(first, steps, n, p) <==> Commit(s.tasks, p.task, p.prev, p.version).1.Ok?;
    }
  }

  lemma {:induction false} StoredWasSaved(first: nat, steps: seq<Step>, key: string) returns (i: nat, p: Pending)
    requires key in Run(Init(Wrap(first)), steps).tasks
    ensures i < |steps| && Saves(first, steps, i, p) && p.task.id == key && Stands(first, steps, i, key)
    ensures Run(Init(Wrap(first)), steps).tasks[key] == Entry(p.task, p.version)
    decreases |steps|
  {
    var n := |steps| - 1;
    LastStepStores(first, steps, key);
    if q :| Saves(first, steps, n, q) && q.task.id == key {
      i, p := n, q;
    } else {
      i, p := StoredWasSaved(first, steps[..n], key);
      SavesEarlier(first, steps, i, p);
      StandsEarlier(first, steps, i, key);
    }
  }

  lemma {:induction false} SavedIsStored(first: nat, steps: seq<Step>, i: nat, p: Pending)
    requires i < |steps| && Saves(first, steps, i, p) && Stands(first, steps, i, p.task.id)
    ensures var tasks := Run(Init(Wrap(first)), steps).tasks;
            p.task.id in tasks && tasks[p.task.id] == Entry(p.task, p.version)
    decreases |steps|
  {
    var n := |steps| - 1;
    LastStepStores(first, steps, p.task.id);
    if i < n {
      SavesEarlier(first, steps, i, p);
      StandsEarlier(first, steps, i, p.task.id);
      SavedIsStored(first, steps[..n], i, p);
    }
  }

  /**
   In every interleaving a key shows exactly the task and the version of its last successful save, if it
   has not been deleted since: those of the ticket that save was given, whatever happened in between.
   */
  lemma EntryIsLastSave(first: nat, steps: seq<Step>, key: string, e: Entry)
    ensures var tasks := Run(Init(Wrap(first)), steps).tasks;
            key in tasks && tasks[key] == e <==>
            exists i, p :: 0 <= i < |steps| && Saves(first, steps, i, p) && p.task.id == key
                           && e == Entry(p.task, p.version) && Stands(first, steps, i, key)
  {
    var tasks := Run(Init(Wrap(first)), steps).tasks;
    if key in tasks { var i, p := StoredWasSaved(first, steps, key); }
    forall i, p | 0 <= i < |steps| && Saves(first, steps, i, p) && p.task.id == key && Stands(first, steps, i, key)
      ensures key in tasks && tasks[key] == Entry(p.task, p.version)
    {
      SavedIsStored(first, steps, i, p);
    }
  }

  /** The log of a run tells the truth: which saves came through, with what, and what was read or deleted. */
  lemma LogTellsSteps(first: nat, steps: seq<Step>, i: nat)
    requires i < |steps|
    ensures var s, t := Run(Init(Wrap(first)), steps[..i]), Run(Init(Wrap(first)), steps[..i + 1]);
            var held := if steps[i].Write? then Held(first, steps[..i], steps[i].op) else None;
            match steps[i]
            case Ticket(_, _, _) => t.log == s.log
            case Write(_) =>
              t.log == s.log + (match held
                                case None => []
                                case Some(p) => [Committed(p.task.id, p.prev, p.version, p.task.id in s.tasks,
                                                           Saves(first, steps, i, p))])
            case Delete(key) => t.log == s.log + [Deleted(key)]
            case Get(key) => t.log == s.log + if key in s.tasks then [Read(key, s.tasks[key])] else []
  {
    HeldIsPending(first, steps[..i]);
    RunLast(Init(Wrap(first)), steps[..i + 1]);
    assert steps[..i + 1][..i] == steps[..i];
  }

  // ---- Listing what is stored ---------------------------------------------------------------

  ghost predicate Keyed(tasks: Tasks) {
    forall k :: k in tasks ==> tasks[k].task.id == k
  }

  lemma {:induction false} RunKeyed(s: State, steps: seq<Step>)
    requires Keyed(s.tasks)
    ensures Keyed(Run(s, steps).tasks)
    decreases steps
  {
    if steps != [] { RunKeyed(Next(s, steps[0]), steps[1..]); }
  }

  lemma {:induction false} Occurrences(items: seq<Task>, t: Task)
    requires forall i, j :: 0 <= i < j < |items| ==> items[i].id != items[j].id
    ensures multiset(items)[t] == if t in items then 1 else 0
  {
    if items != [] {
      Occurrences(items[1..], t);
      assert items == [items[0]] + items[1..];
    }
  }

  /**
   Walking the list of any reachable store, in any iteration order, visits every stored task that
   passes the filters exactly once, and nothing else.
   */
  lemma WalkVisitsEveryMatchOnce(steps: seq<Step>, order: seq<string>, req: ListRequest, t: Task)
    requires var tasks := Run(Init(1), steps).tasks;
             Enumerates(order, tasks) && |Retain(InOrder(tasks, order), Matches(req))| <= I32_MAX
    requires PageSize(req.pageSize) > 0
    ensures var tasks := Run(Init(1), steps).tasks;
            var matches := Retain(InOrder(tasks, order), Matches(req));
            multiset(AllTasks(Walk(matches, req.pageSize, None)))[t]
              == if t.id in tasks && tasks[t.id].task == t && Matches(req)(t) then 1 else 0
  {
    var tasks := Run(Init(1), steps).tasks;
    var items := InOrder(tasks, order);
    RunKeyed(Init(1), steps);
    RetainExactly(items, Matches(req), t);
    Occurrences(items, t);
    if t.id in tasks && tasks[t.id].task == t {
      var i :| 0 <= i < |order| && order[i] == t.id;
      assert items[i] == t;
    }
    WalkVisitsEverything(Retain(items, Matches(req)), req.pageSize);
  }

  // ---- Where the guarantee ends ------------------------------------------------------------

  /** A run given by all the states it passes through. */
  lemma {:induction false} Replay(states: seq<State>, steps: seq<Step>)
    requires |states| == |steps| + 1
    requires forall i :: 0 <= i < |steps| ==> states[i + 1] == Next(states[i], steps[i])
    ensures Run(states[0], steps) == states[|steps|]
    decreases steps
  {
    if steps != [] { Replay(states[1..], steps[1..]); }
  }

  /** From the derived `Default`, the first version reads as "missing": two saves that carry it both win. */
  lemma DefaultStoreLosesUpdates(t: Task)
    ensures var steps := [Ticket(0, t, MISSING), Write(0), Get(t.id),
                          Ticket(1, t, 0), Ticket(2, t, 0), Write(1), Write(2)];
            Run(Init(0), steps).log == [Committed(t.id, MISSING, 0, false, true), Read(t.id, Entry(t, 0)),
                                        Committed(t.id, 0, 1, true, true), Committed(t.id, 0, 2, true, true)]
  {
    var steps := [Ticket(0, t, MISSING), Write(0), Get(t.id),
                  Ticket(1, t, 0), Ticket(2, t, 0), Write(1), Write(2)];
    var a, b := Pending(t, 0, 1), Pending(t, 0, 2);
    var c0, c1, c2 := Committed(t.id, 0, 0, false, true), Committed(t.id, 0, 1, true, true),
                      Committed(t.id, 0, 2, true, true);
    var r := Read(t.id, Entry(t, 0));
    Replay([Init(0),
            State(map[], 1, map[0 := Pending(t, 0, 0)], [0], []),
            State(map[t.id := Entry(t, 0)], 1, map[], [0], [c0]),
            State(map[t.id := Entry(t, 0)], 1, map[], [0], [c0, r]),
            State(map[t.id := Entry(t, 0)], 2, map[1 := a], [0, 1], [c0, r]),
            State(map[t.id := Entry(t, 0)], 3, map[1 := a, 2 := b], [0, 1, 2], [c0, r]),
            State(map[t.id := Entry(t, 1)], 3, map[2 := b], [0, 1, 2], [c0, r, c1]),
            State(map[t.id := Entry(t, 2)], 3, map[], [0, 1, 2], [c0, r, c1, c2])], steps);
  }

  /** A save that does not find its key succeeds. */
  ghost predicate UnfoundSucceed(log: seq<Observation>) {
    forall i :: 0 <= i < |log| && log[i].Committed? && !log[i].found ==> log[i].ok
  }

  lemma {:induction false} UnfoundSucceeds(s: State, steps: seq<Step>)
    requires UnfoundSucceed(s.log)
    ensures UnfoundSucceed(Run(s, steps).log)
    decreases steps
  {
    if steps != [] {
      var t := Next(s, steps[0]);
      assert s.log <= t.log && |t.log| <= |s.log| + 1;
      forall i | 0 <= i < |t.log| && t.log[i].Committed? && !t.log[i].found ensures t.log[i].ok {
        if i < |s.log| { assert t.log[i] == s.log[i]; }
      }
      UnfoundSucceeds(t, steps[1..]);
    }
  }

  /** Of two saves that carry one version, the first having won: the second wins exactly if its key is gone. */
  lemma SecondSaveSucceedsIff(steps: seq<Step>, i: nat, j: nat)
    requires |Run(Init(1), steps).issued| < TWO_POW_64
    requires var log := Run(Init(1), steps).log;
             i < j < |log| && Swapped(log, i) && log[j].Committed? && log[j].prev == log[i].prev
    ensures var log := Run(Init(1), steps).log; log[j].ok <==> !log[j].found
  {
    EveryRunIsSafe(steps);
    UnfoundSucceeds(Init(1), steps);
    var log := Run(Init(1), steps).log;
    assert Swapped(log, i) && log[j].prev != MISSING;
    assert Swapped(log, j) <==> log[j].found && log[j].ok;
  }

  /** A deletion in between lets both savers of one version succeed: the second finds no key. */
  lemma DeletionLetsBothSucceed(t: Task)
    ensures var steps := [Ticket(0, t, MISSING), Write(0), Ticket(1, t, 1), Ticket(2, t, 1),
                          Write(1), Delete(t.id), Write(2)];
            Run(Init(1), steps).log == [Committed(t.id, MISSING, 1, false, true), Committed(t.id, 1, 2, true, true),
                                        Deleted(t.id), Committed(t.id, 1, 3, false, true)]
  {
    var steps := [Ticket(0, t, MISSING), Write(0), Ticket(1, t, 1), Ticket(2, t, 1),
                  Write(1), Delete(t.id), Write(2)];
    var a, b := Pending(t, 1, 2), Pending(t, 1, 3);
    var c0, c1, c2 := Committed(t.id, 0, 1, false, true), Committed(t.id, 1, 2, true, true),
                      Committed(t.id, 1, 3, false, true);
    Replay([Init(1),
            State(map[], 2, map[0 := Pending(t, 0, 1)], [1], []),
            State(map[t.id := Entry(t, 1)], 2, map[], [1], [c0]),
            State(map[t.id := Entry(t, 1)], 3, map[1 := a], [1, 2], [c0]),
            State(map[t.id := Entry(t, 1)], 4, map[1 := a, 2 := b], [1, 2, 3], [c0]),
            State(map[t.id := Entry(t, 2)], 4, map[2 := b], [1, 2, 3], [c0, c1]),
            State(map[], 4, map[2 := b], [1, 2, 3], [c0, c1, Deleted(t.id)]),
            State(map[t.id := Entry(t, 3)], 4, map[], [1, 2, 3], [c0, c1, Deleted(t.id), c2])], steps);
  }

  /** Versions of one key are unique but not increasing: an older ticket can be the last to commit. */
  lemma StoredVersionCanDecrease(t: Task)
    ensures var steps := [Ticket(0, t, MISSING), Ticket(1, t, MISSING), Write(1), Get(t.id), Write(0), Get(t.id)];
            Run(Init(1), steps).log == [Committed(t.id, MISSING, 2, false, true), Read(t.id, Entry(t, 2)),
                                        Committed(t.id, MISSING, 1, true, true), Read(t.id, Entry(t, 1))]
  {
    var steps := [Ticket(0, t, MISSING), Ticket(1, t, MISSING), Write(1), Get(t.id), Write(0), Get(t.id)];
    var a, b := Pending(t, 0, 1), Pending(t, 0, 2);
    var c1, c2 := Committed(t.id, 0, 2, false, true), Committed(t.id, 0, 1, true, true);
    var r1, r2 := Read(t.id, Entry(t, 2)), Read(t.id, Entry(t, 1));
    Replay([Init(1),
            State(map[], 2, map[0 := a], [1], []),
            State(map[], 3, map[0 := a, 1 := b], [1, 2], []),
            State(map[t.id := Entry(t, 2)], 3, map[0 := a], [1, 2], [c1]),
            State(map[t.id := Entry(t, 2)], 3, map[0 := a], [1, 2], [c1, r1]),
            State(map[t.id := Entry(t, 1)], 3, map[], [1, 2], [c1, r1, c2]),
            State(map[t.id := Entry(t, 1)], 3, map[], [1, 2], [c1, r1, c2, r2])], steps);
  }
}
