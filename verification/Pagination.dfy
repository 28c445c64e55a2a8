/**
 Offset pagination of `InMemoryTaskStore::list` (ra2a/src/server/task_store.rs): the page size is
 clamped, the total saturates at i32::MAX, and the next token is a printed offset that the next
 call parses again.
 */
module Pagination {
  import opened Wrappers
  import opened Types
  import opened Pages

  const I32_MAX: int := 0x7fff_ffff
  const USIZE_MAX: int := 0xffff_ffff_ffff_ffff
  type I32 = n: int | -0x8000_0000 <= n <= I32_MAX

  // ---- Decimal tokens ----------------------------------------------------------------------

  function DigitChar(d: nat): (c: char)
    requires d < 10
  {
    "0123456789"[d]
  }

  function DigitValue(c: char): Option<nat> {
    if '0' <= c <= '9' then Some(c as int - '0' as int) else None
  }

  /** `usize::to_string`. */
  function Print(n: nat): (s: string)
    ensures s != "" && s[0] != '+'
  {
    if n < 10 then [DigitChar(n)] else Print(n / 10) + [DigitChar(n % 10)]
  }

  function ParseDigits(s: string): Option<nat> {
    if s == "" then Some(0)
    else
      match (ParseDigits(s[..|s| - 1]), DigitValue(s[|s| - 1]))
      case (Some(high), Some(d)) => Some(10 * high + d)
      case _ => None
  }

  /** `str::parse::<usize>`: an optional plus sign, at least one digit, no overflow. */
  function ParseUsize(s: string): Option<nat> {
    var digits := if s != "" && s[0] == '+' then s[1..] else s;
    if digits == "" then None
    else
      match ParseDigits(digits)
      case Some(n) => if n <= USIZE_MAX then Some(n) else None
      case None => None
  }

  lemma {:induction false} ParseDigitsPrint(n: nat)
    ensures ParseDigits(Print(n)) == Some(n)
  {
    if n < 10 {
      var s := Print(n);
      assert s[..|s| - 1] == "";
    } else {
      ParseDigitsPrint(n / 10);
      var s := Print(n);
      assert s[..|s| - 1] == Print(n / 10);
    }
  }

  /** The number without its last i decimal digits. */
  function Shift(n: nat, i: nat): nat {
    if i == 0 then n else Shift(n / 10, i - 1)
  }

  /** Printed is the decimal numeral: its digits from the last to the first, and no zero in front. */
  lemma {:induction false} PrintIsDecimal(n: nat, i: nat)
    requires i < |Print(n)|
    ensures var s := Print(n);
            s[|s| - 1 - i] as int - '0' as int == Shift(n, i) % 10 && Shift(n, |s|) == 0 && (n > 0 ==> s[0] != '0')
  {
    if n < 10 {
      assert Shift(n, 1) == Shift(n / 10, 0);
    } else {
      var s, high := Print(n), Print(n / 10);
      assert s == high + [DigitChar(n % 10)];
      PrintIsDecimal(n / 10, if i == 0 then 0 else i - 1);
    }
  }

  lemma ParsePrint(n: nat)
    requires n <= USIZE_MAX
    ensures ParseUsize(Print(n)) == Some(n)
  {
    ParseDigitsPrint(n);
  }

  // ---- Filtering ---------------------------------------------------------------------------

  datatype ListRequest = ListRequest(
    contextId: Option<string>, status: Option<TaskState>, pageSize: Option<I32>, pageToken: Option<string>)

  datatype ListResponse = ListResponse(
    tasks: seq<Task>, totalSize: int, pageSize: int, nextPageToken: string)

  /** `Vec::retain`. */
  function Retain(tasks: seq<Task>, keep: Task -> bool): seq<Task> {
    if tasks == [] then []
    else (if keep(tasks[0]) then [tasks[0]] else []) + Retain(tasks[1..], keep)
  }

  /** Filtering keeps every occurrence of what matches, and nothing else. */
  lemma {:induction false} RetainExactly(tasks: seq<Task>, keep: Task -> bool, t: Task)
    ensures multiset(Retain(tasks, keep))[t] == if keep(t) then multiset(tasks)[t] else 0
  {
    if tasks != [] {
      RetainExactly(tasks[1..], keep, t);
      assert tasks == [tasks[0]] + tasks[1..];
    }
  }

  function InContext(contextId: Option<string>): Task -> bool {
    (t: Task) => contextId.Some? ==> t.contextId == contextId.value
  }

  function InState(status: Option<TaskState>): Task -> bool {
    (t: Task) => status.Some? ==> t.status.state == status.value
  }

  /** The filter of a whole request. */
  function Matches(req: ListRequest): Task -> bool {
    (t: Task) =>
      && (req.contextId.Some? ==> t.contextId == req.contextId.value)
      && (req.status.Some? ==> t.status.state == req.status.value)
  }

  /** One filter after the other is the filter of the request. */
  lemma {:induction false} FiltersCompose(tasks: seq<Task>, req: ListRequest)
    ensures Retain(Retain(tasks, InContext(req.contextId)), InState(req.status)) == Retain(tasks, Matches(req))
    ensures |Retain(tasks, Matches(req))| <= |tasks|
  {
    if tasks != [] {
      FiltersCompose(tasks[1..], req);
      var rest := Retain(tasks[1..], InContext(req.contextId));
      if InContext(req.contextId)(tasks[0]) {
        assert Retain(tasks, InContext(req.contextId))[1..] == rest;
      } else {
        assert Retain(tasks, InContext(req.contextId)) == rest;
      }
    }
  }

  lemma {:induction false} RetainAll(tasks: seq<Task>, p: Task -> bool)
    requires forall t :: p(t)
    ensures Retain(tasks, p) == tasks
  {
    if tasks != [] { RetainAll(tasks[1..], p); }
  }

  // ---- One page ----------------------------------------------------------------------------

  function Min(a: int, b: int): int { if a < b then a else b }

  /** Default 50, at most 100; a negative size does not fit usize and falls back to 50. */
  function PageSize(requested: Option<I32>): (r: nat)
    ensures requested.Some? && requested.value > 100 ==> r == 100
    ensures requested.Some? && 0 <= requested.value <= 100 ==> r == requested.value
    ensures requested.None? || requested.value < 0 ==> r == 50
  {
    var n := Min(requested.UnwrapOr(50), 100);
    if n < 0 then 50 else n
  }

  function Offset(token: Option<string>): nat {
    match token
    case None => 0
    case Some(t) => ParseUsize(t).UnwrapOr(0)
  }

  function Page(items: seq<Task>, size: Option<I32>, token: Option<string>): ListResponse
    requires |items| <= USIZE_MAX
  {
    var total := Min(|items|, I32_MAX);
    var paged := Cut(items, Offset(token), PageSize(size));
    var next := Offset(token) + |paged|;
    ListResponse(paged, total, PageSize(size), if Min(next, I32_MAX) < total then Print(next) else "")
  }

  /** No token makes the unchecked `offset + paged.len()` overflow. */
  lemma NextOffsetFits(items: seq<Task>, size: Option<I32>, token: Option<string>)
    requires |items| <= USIZE_MAX
    ensures Offset(token) + |Page(items, size, token).tasks| <= USIZE_MAX
  {}

  /** A page continues exactly while its end lies before the saturated total. */
  lemma NextToken(items: seq<Task>, size: Option<I32>, token: Option<string>)
    requires |items| <= USIZE_MAX
    ensures var r := Page(items, size, token);
            var end := Offset(token) + |r.tasks|;
            && (r.nextPageToken != "" <==> end < Min(|items|, I32_MAX))
            && (r.nextPageToken != "" ==> Offset(Some(r.nextPageToken)) == end)
  {
    var end := Offset(token) + |Page(items, size, token).tasks|;
    if end < Min(|items|, I32_MAX) { ParsePrint(end); }
  }

  /** Page size 0 never advances: the token it returns stands for the offset it was given. */
  lemma ZeroPageMakesNoProgress(items: seq<Task>, size: Option<I32>, token: Option<string>)
    requires |items| <= USIZE_MAX
    ensures PageSize(size) == 0 <==> size == Some(0)
    ensures var r := Page(items, Some(0), token);
            r.tasks == [] && (Offset(token) < Min(|items|, I32_MAX) ==>
              r.nextPageToken != "" && Offset(Some(r.nextPageToken)) == Offset(token))
  {
    NextToken(items, Some(0), token);
  }

  /** A page gives the number of matches, saturated, and the size it was cut to. */
  predicate Reports(page: ListResponse, matches: nat, size: nat) {
    && page.totalSize == (if matches <= I32_MAX then matches else I32_MAX)
    && page.pageSize == size && |page.tasks| <= size
  }

  /** A page is what it says: a run of the items from the offset on, cut short only by their end. */
  lemma PageHolds(items: seq<Task>, size: Option<I32>, token: Option<string>)
    requires |items| <= USIZE_MAX
    ensures var r := Page(items, size, token);
            && Reports(r, |items|, PageSize(size))
            && (forall i :: 0 <= i < |r.tasks| ==>
                  Offset(token) + i < |items| && r.tasks[i] == items[Offset(token) + i])
            && (|r.tasks| < r.pageSize ==> Offset(token) + |r.tasks| >= |items|)
  {}

  lemma {:induction false} NotDigits(s: string, i: nat)
    requires i < |s| && !('0' <= s[i] <= '9')
    ensures ParseDigits(s).None?
  {
    if i < |s| - 1 { NotDigits(s[..|s| - 1], i); }
  }

  /** A token that is empty or holds anything but digits after an optional plus sign asks for the first page. */
  lemma UnreadableTokenIsFirstPage(items: seq<Task>, size: Option<I32>, token: string, i: nat)
    requires |items| <= USIZE_MAX
    requires token == "" || token == "+"
             || (i < |token| && !('0' <= token[i] <= '9') && (i > 0 || token[0] != '+'))
    ensures Page(items, size, Some(token)) == Page(items, size, None)
  {
    if token != "" && token != "+" {
      if token[0] == '+' { NotDigits(token[1..], i - 1); } else { NotDigits(token, i); }
    }
    OffsetDecides(items, size, Some(token), None);
  }

  lemma OffsetDecides(items: seq<Task>, size: Option<I32>, a: Option<string>, b: Option<string>)
    requires |items| <= USIZE_MAX && Offset(a) == Offset(b)
    ensures Page(items, size, a) == Page(items, size, b)
  {}

  // ---- The whole walk ----------------------------------------------------------------------

  /** The pages a client sees when it follows `next_page_token` until it is empty. */
  function Walk(items: seq<Task>, size: Option<I32>, token: Option<string>): (pages: seq<ListResponse>)
    requires |items| <= USIZE_MAX && PageSize(size) > 0
    ensures forall i :: 0 <= i < |pages| ==> Reports(pages[i], |items|, PageSize(size))
    decreases if Offset(token) < |items| then |items| - Offset(token) else 0
  {
    var page := Page(items, size, token);
    if page.nextPageToken == "" then [page]
    else
      NextToken(items, size, token);
      [page] + Walk(items, size, Some(page.nextPageToken))
  }

  function AllTasks(pages: seq<ListResponse>): seq<Task> {
    if pages == [] then [] else pages[0].tasks + AllTasks(pages[1..])
  }

  /** A page in numbers: its tasks, and where the next one starts. */
  lemma PageFacts(items: seq<Task>, size: Option<I32>, token: Option<string>, o: nat, p: nat, total: nat)
    requires |items| <= USIZE_MAX && p == PageSize(size) > 0
    requires o == Offset(token) && total == Min(|items|, I32_MAX) && (o < total || total == 0)
    ensures var page := Page(items, size, token);
            && page.tasks == Cut(items, o, p)
            && (page.nextPageToken == "" <==> o + p >= total)
            && (page.nextPageToken != "" ==> Offset(Some(page.nextPageToken)) == o + p)
  {
    NextToken(items, size, token);
  }

  /** The pages in numbers: each holds the items from its offset on, until the total is reached. */
  ghost predicate Steps(pages: seq<ListResponse>, items: seq<Task>, p: nat, total: nat, o: nat)
    requires p > 0
    decreases if o < total then total - o else 0
  {
    && pages != []
    && pages[0].tasks == Cut(items, o, p)
    && if o + p < total then Steps(pages[1..], items, p, total, o + p) else |pages| == 1
  }

  /** Going through tokens changes nothing: this is where printing and parsing must agree. */
  lemma {:induction false} WalkSteps(
    items: seq<Task>, size: Option<I32>, token: Option<string>, o: nat, p: nat, total: nat)
    requires |items| <= USIZE_MAX && p == PageSize(size) > 0
    requires o == Offset(token) && total == Min(|items|, I32_MAX) && (o < total || total == 0)
    ensures Steps(Walk(items, size, token), items, p, total, o)
    decreases if o < total then total - o else 0
  {
    PageFacts(items, size, token, o, p, total);
    if o + p < total {
      var next := Some(Page(items, size, token).nextPageToken);
      WalkSteps(items, size, next, o + p, p, total);
      assert Walk(items, size, token)[1..] == Walk(items, size, next);
    }
  }

  lemma {:induction false} StepsGather(pages: seq<ListResponse>, items: seq<Task>, p: nat, total: nat, o: nat)
    requires p > 0 && Steps(pages, items, p, total, o)
    ensures |pages| == Calls(p, total, o) && AllTasks(pages) == Gather(items, p, total, o)
    decreases if o < total then total - o else 0
  {
    if o + p < total {
      StepsGather(pages[1..], items, p, total, o + p);
    } else {
      assert pages[1..] == [];
    }
  }

  lemma TokenWalkIsGather(
    items: seq<Task>, size: Option<I32>, token: Option<string>, o: nat, p: nat, total: nat)
    requires |items| <= USIZE_MAX && p == PageSize(size) > 0
    requires o == Offset(token) && total == Min(|items|, I32_MAX) && (o < total || total == 0)
    ensures |Walk(items, size, token)| == Calls(p, total, o)
    ensures AllTasks(Walk(items, size, token)) == Gather(items, p, total, o)
  {
    WalkSteps(items, size, token, o, p, total);
    StepsGather(Walk(items, size, token), items, p, total, o);
  }

  /** With at most i32::MAX matches the walk yields every task once, in order, in ceil(n / p) calls. */
  lemma WalkVisitsEverything(items: seq<Task>, size: Option<I32>)
    requires |items| <= I32_MAX && PageSize(size) > 0
    ensures AllTasks(Walk(items, size, None)) == items
    ensures |Walk(items, size, None)| == if items == [] then 1 else PageCount(|items|, PageSize(size))
  {
    var p, n := PageSize(size), |items|;
    TokenWalkIsGather(items, size, None, 0, p, n);
    if n > 0 {
      PagesCover(n, p);
      GatherAll(items, p, n, n);
      assert items[..n] == items;
    }
  }

  /** For any number of matches: complete exactly if the page that reaches the saturated total is the last. */
  lemma WalkCompleteIff(items: seq<Task>, size: Option<I32>, total: nat)
    requires 0 < |items| <= USIZE_MAX && PageSize(size) > 0 && total == Min(|items|, I32_MAX)
    ensures AllTasks(Walk(items, size, None)) == items
       <==> |items| <= PageCount(total, PageSize(size)) * PageSize(size)
  {
    var p := PageSize(size);
    var reach := PageCount(total, p) * p;
    var end := if reach < |items| then reach else |items|;
    PagesCover(total, p);
    TokenWalkIsGather(items, size, None, 0, p, total);
    GatherAll(items, p, total, end);
    assert |items[..end]| == end;
    if end == |items| { assert items[..end] == items; }
  }
}
