/**
 `ClientFactory::create_from_card` (ra2a/src/client/factory.rs): collect the interfaces that have a
 builder, sort them stably by preference, and take the first one that builds.
 */
module TransportSelection {
  import opened Wrappers

  datatype Interface = Interface(url: string, protocol: string, tenant: Option<string>)

  /** The selected connection; a non-empty tenant is injected into its requests. */
  datatype Client = Client(transport: nat, tenant: Option<string>)

  datatype FactoryError =
    | NoInterfaces
    | NoCompatibleTransport(available: seq<string>)
    | AllFailed(errors: seq<(string, string)>)

  /** `build` is the outcome of building the interface at a card position, should it be tried. */
  datatype Factory = Factory(
    preferred: seq<string>, builders: set<string>, build: nat -> Result<nat, string>)

  /** A card position and its preference rank. */
  datatype Candidate = Candidate(position: nat, priority: nat)

  const USIZE_MAX: nat := 0xffff_ffff_ffff_ffff

  // ---- Specification -----------------------------------------------------------------------

  /** First index of the protocol among the preferences; unlisted protocols rank last. */
  function Priority(preferred: seq<string>, protocol: string): nat {
    if preferred == [] then USIZE_MAX
    else if preferred[0] == protocol then 0
    else
      var p := Priority(preferred[1..], protocol);
      if p == USIZE_MAX then p else p + 1
  }

  predicate Eligible(f: Factory, card: seq<Interface>, i: nat)
    requires i < |card|
  {
    card[i].protocol in f.builders
  }

  predicate Builds(f: Factory, card: seq<Interface>, i: nat)
    requires i < |card|
  {
    Eligible(f, card, i) && f.build(i).Ok?
  }

  /** Preference first, card order second. */
  predicate Before(f: Factory, card: seq<Interface>, i: nat, j: nat)
    requires i < |card| && j < |card|
  {
    var p, q := Priority(f.preferred, card[i].protocol), Priority(f.preferred, card[j].protocol);
    p < q || (p == q && i < j)
  }

  function ClientFor(iface: Interface, transport: nat): Client {
    Client(transport, if iface.tenant == Some("") then None else iface.tenant)
  }

  ghost predicate NoneSkipped(f: Factory, card: seq<Interface>, attempts: seq<nat>, j: nat)
    requires j < |card|
  {
    forall i :: 0 <= i < |card| && Eligible(f, card, i) && Before(f, card, i, j) ==> i in attempts
  }

  /** The attempts of one call: distinct eligible positions in rank order, none skipped. */
  ghost predicate RankedAttempts(f: Factory, card: seq<Interface>, attempts: seq<nat>) {
    && (forall a :: 0 <= a < |attempts| ==> attempts[a] < |card| && Eligible(f, card, attempts[a]))
    && (forall a, b :: 0 <= a < b < |attempts| ==> Before(f, card, attempts[a], attempts[b]))
    && (forall a :: 0 <= a < |attempts| ==> NoneSkipped(f, card, attempts, attempts[a]))
  }

  /** i's protocol is listed at some index at which j's has not been listed yet, and j's is another one. */
  predicate Preferred(preferred: seq<string>, p: string, q: string) {
    p != q && exists k | 0 <= k < |preferred| :: preferred[k] == p && q !in preferred[..k]
  }

  /** Both protocols are equally good to the client: the same one, or neither is listed. */
  predicate Indifferent(preferred: seq<string>, p: string, q: string) {
    p == q || (p !in preferred && q !in preferred)
  }

  lemma NotAmongFirst(items: seq<string>, k: nat, x: string)
    requires k <= |items|
    ensures x !in items[..k] <==> forall m :: 0 <= m < k ==> items[m] != x
  {
    forall m | 0 <= m < k ensures items[m] in items[..k] { assert items[..k][m] == items[m]; }
  }

  lemma {:induction false} PriorityIsFirstIndex(preferred: seq<string>, p: string)
    requires |preferred| < USIZE_MAX
    ensures var k := Priority(preferred, p);
            if p in preferred then k < |preferred| && preferred[k] == p && p !in preferred[..k] else k == USIZE_MAX
  {
    if preferred != [] && preferred[0] != p {
      PriorityIsFirstIndex(preferred[1..], p);
      assert preferred == [preferred[0]] + preferred[1..];
      var k := Priority(preferred[1..], p);
      if p in preferred { assert preferred[..k + 1] == [preferred[0]] + preferred[1..][..k]; }
    }
  }

  /** The ranking, without numbers: what the client lists first, and among its equals card order. */
  lemma BeforeIff(f: Factory, card: seq<Interface>, i: nat, j: nat)
    requires i < |card| && j < |card| && |f.preferred| < USIZE_MAX
    ensures Before(f, card, i, j) <==>
            || Preferred(f.preferred, card[i].protocol, card[j].protocol)
            || (Indifferent(f.preferred, card[i].protocol, card[j].protocol) && i < j)
  {
    var p, q := card[i].protocol, card[j].protocol;
    PriorityIsFirstIndex(f.preferred, p);
    PriorityIsFirstIndex(f.preferred, q);
    var k, l := Priority(f.preferred, p), Priority(f.preferred, q);
    if p in f.preferred { NotAmongFirst(f.preferred, k, p); NotAmongFirst(f.preferred, k, q); }
    if q in f.preferred { NotAmongFirst(f.preferred, l, q); }
    assert k < l ==> Preferred(f.preferred, p, q);
    if Preferred(f.preferred, p, q) {
      var m :| 0 <= m < |f.preferred| && f.preferred[m] == p && q !in f.preferred[..m];
      NotAmongFirst(f.preferred, m, q);
    }
  }

  // ---- Stable sort by priority -------------------------------------------------------------

  predicate Less(x: Candidate, y: Candidate) {
    x.priority < y.priority || (x.priority == y.priority && x.position < y.position)
  }

  ghost predicate Ordered(cs: seq<Candidate>) {
    forall a, b :: 0 <= a < b < |cs| ==> Less(cs[a], cs[b])
  }

  /** Inserts behind every element of the same priority. */
  function InsertLast(sorted: seq<Candidate>, c: Candidate): seq<Candidate> {
    if sorted == [] || sorted[|sorted| - 1].priority <= c.priority then sorted + [c]
    else InsertLast(sorted[..|sorted| - 1], c) + [sorted[|sorted| - 1]]
  }

  /** `sort_by_key`. */
  function StableSort(cs: seq<Candidate>): seq<Candidate> {
    if cs == [] then [] else InsertLast(StableSort(cs[..|cs| - 1]), cs[|cs| - 1])
  }

  lemma OrderedMore(cs: seq<Candidate>, last: Candidate)
    requires Ordered(cs) && forall x :: x in cs ==> Less(x, last)
    ensures Ordered(cs + [last])
  {}

  lemma {:induction false} InsertLastSorts(sorted: seq<Candidate>, c: Candidate)
    requires Ordered(sorted) && forall x :: x in sorted ==> x.position < c.position
    ensures Ordered(InsertLast(sorted, c))
    ensures forall x :: x in InsertLast(sorted, c) <==> x in sorted || x == c
  {
    if sorted != [] && sorted[|sorted| - 1].priority > c.priority {
      var init, last := sorted[..|sorted| - 1], sorted[|sorted| - 1];
      assert sorted == init + [last];
      InsertLastSorts(init, c);
      forall x | x in init ensures Less(x, last) {
        var b :| 0 <= b < |init| && init[b] == x;
        assert sorted[b] == x;
      }
      OrderedMore(InsertLast(init, c), last);
    }
  }

  lemma {:induction false} StableSortSorts(cs: seq<Candidate>)
    requires forall a, b :: 0 <= a < b < |cs| ==> cs[a].position < cs[b].position
    ensures Ordered(StableSort(cs))
    ensures forall x :: x in StableSort(cs) <==> x in cs
  {
    if cs != [] {
      var init, last := cs[..|cs| - 1], cs[|cs| - 1];
      assert cs == init + [last];
      StableSortSorts(init);
      InsertLastSorts(StableSort(init), last);
    }
  }

  // ---- The factory -------------------------------------------------------------------------

  predicate IsCandidate(f: Factory, card: seq<Interface>, c: Candidate) {
    c.position < |card| && Eligible(f, card, c.position)
    && c.priority == Priority(f.preferred, card[c.position].protocol)
  }

  method CollectCandidates(f: Factory, card: seq<Interface>) returns (candidates: seq<Candidate>)
    ensures forall c :: c in candidates <==> IsCandidate(f, card, c)
    ensures forall a, b :: 0 <= a < b < |candidates| ==> candidates[a].position < candidates[b].position
  {
    candidates := [];
    for i := 0 to |card|
      invariant forall c :: c in candidates <==> IsCandidate(f, card, c) && c.position < i
      invariant forall a, b :: 0 <= a < b < |candidates| ==> candidates[a].position < candidates[b].position
    {
      ghost var before := candidates;
      var protocol := card[i].protocol;
      if protocol in f.builders {
        var c := Candidate(i, Priority(f.preferred, protocol));
        forall a | 0 <= a < |candidates| ensures candidates[a].position < i {
          assert candidates[a] in candidates;
        }
        candidates := candidates + [c];
        forall x ensures x in candidates <==> x in before || x == c {}
      }
    }
  }

  function Positions(cs: seq<Candidate>): (r: seq<nat>)
    ensures |r| == |cs| && forall a :: 0 <= a < |r| ==> r[a] == cs[a].position
  {
    seq(|cs|, a requires 0 <= a < |cs| => cs[a].position)
  }

  /** A prefix of the sorted candidates is a sequence of attempts in rank order. */
  lemma PrefixIsRanked(f: Factory, card: seq<Interface>, sorted: seq<Candidate>, n: nat)
    requires Ordered(sorted) && n <= |sorted| && forall c :: c in sorted <==> IsCandidate(f, card, c)
    ensures RankedAttempts(f, card, Positions(sorted[..n]))
  {
    var tried := Positions(sorted[..n]);
    forall a | 0 <= a < |sorted| ensures IsCandidate(f, card, sorted[a]) {
      assert sorted[a] in sorted;
    }
    forall a, i | 0 <= a < n && 0 <= i < |card| && Eligible(f, card, i) && Before(f, card, i, tried[a])
      ensures i in tried
    {
      var b := IndexOf(f, card, sorted, i);
      assert Less(sorted[b], sorted[a]);
      assert !Less(sorted[a], sorted[b]);
      assert tried[b] == i;
    }
  }

  lemma IndexOf(f: Factory, card: seq<Interface>, sorted: seq<Candidate>, i: nat) returns (b: nat)
    requires i < |card| && Eligible(f, card, i) && forall c :: c in sorted <==> IsCandidate(f, card, c)
    ensures b < |sorted| && sorted[b] == Candidate(i, Priority(f.preferred, card[i].protocol))
  {
    var c := Candidate(i, Priority(f.preferred, card[i].protocol));
    assert IsCandidate(f, card, c);
    b :| 0 <= b < |sorted| && sorted[b] == c;
  }

  function ErrorAt(f: Factory, card: seq<Interface>, i: nat): (string, string)
    requires i < |card| && Eligible(f, card, i) && !Builds(f, card, i)
  {
    (card[i].url, f.build(i).error)
  }

  ghost predicate AllCandidates(f: Factory, card: seq<Interface>, cs: seq<Candidate>) {
    forall a :: 0 <= a < |cs| ==> IsCandidate(f, card, cs[a])
  }

  ghost predicate FailedWith(f: Factory, card: seq<Interface>, cs: seq<Candidate>, errors: seq<(string, string)>) {
    |errors| == |cs| && forall a :: 0 <= a < |cs| ==>
      IsCandidate(f, card, cs[a]) && !Builds(f, card, cs[a].position)
      && errors[a] == ErrorAt(f, card, cs[a].position)
  }

  ghost predicate ChosenLast(f: Factory, card: seq<Interface>, cs: seq<Candidate>, client: Client)
    requires cs != []
  {
    var init, chosen := cs[..|cs| - 1], cs[|cs| - 1].position;
    && (forall a :: 0 <= a < |init| ==> IsCandidate(f, card, init[a]) && !Builds(f, card, init[a].position))
    && chosen < |card| && Builds(f, card, chosen)
    && client == ClientFor(card[chosen], f.build(chosen).value)
  }

  /** Tries candidates until one builds; `n` of them were tried. */
  method TryInOrder(f: Factory, card: seq<Interface>, sorted: seq<Candidate>)
    returns (client: Option<Client>, errors: seq<(string, string)>, n: nat)
    requires AllCandidates(f, card, sorted)
    ensures n <= |sorted|
    ensures client.None? ==> n == |sorted| && FailedWith(f, card, sorted, errors)
    ensures client.Some? ==> n > 0 && ChosenLast(f, card, sorted[..n], client.value)
  {
    errors := [];
    n := 0;
    while n < |sorted|
      invariant 0 <= n <= |sorted|
      invariant FailedWith(f, card, sorted[..n], errors)
    {
      assert IsCandidate(f, card, sorted[n]);
      assert sorted[..n + 1][..n] == sorted[..n];
      var position := sorted[n].position;
      var iface := card[position];
      n := n + 1;
      match f.build(position) {
        case Ok(transport) => return Some(ClientFor(iface, transport)), errors, n;
        case Err(e) => errors := errors + [(iface.url, e)];
      }
    }
    assert sorted[..n] == sorted;
    client := None;
  }

  function Protocols(card: seq<Interface>): seq<string> {
    seq(|card|, i requires 0 <= i < |card| => card[i].protocol)
  }

  /** The last attempt is the first that builds, and gives the client. */
  ghost predicate Chosen(f: Factory, card: seq<Interface>, attempts: seq<nat>, client: Client)
    requires attempts != [] && RankedAttempts(f, card, attempts)
  {
    var chosen := attempts[|attempts| - 1];
    && (forall a :: 0 <= a < |attempts| - 1 ==> !Builds(f, card, attempts[a]))
    && Builds(f, card, chosen) && client.transport == f.build(chosen).value
    && (if card[chosen].tenant == Some("") then client.tenant == None else client.tenant == card[chosen].tenant)
  }

  /** Every eligible interface was tried and failed, with one error each in the order of the attempts. */
  ghost predicate NoneBuilds(f: Factory, card: seq<Interface>, attempts: seq<nat>, errors: seq<(string, string)>)
    requires RankedAttempts(f, card, attempts)
  {
    && (forall i :: 0 <= i < |card| && Eligible(f, card, i) ==> i in attempts && !Builds(f, card, i))
    && |errors| == |attempts|
    && (forall a :: 0 <= a < |attempts| ==>
          f.build(attempts[a]) == Err(errors[a].1) && errors[a].0 == card[attempts[a]].url)
  }

  lemma LastIsChosen(f: Factory, card: seq<Interface>, tried: seq<Candidate>, client: Client)
    requires tried != [] && ChosenLast(f, card, tried, client) && RankedAttempts(f, card, Positions(tried))
    ensures Chosen(f, card, Positions(tried), client)
  {
    var init, attempts := tried[..|tried| - 1], Positions(tried);
    forall a | 0 <= a < |attempts| - 1 ensures !Builds(f, card, attempts[a]) {
      assert attempts[a] == init[a].position;
    }
  }

  lemma NothingEligible(f: Factory, card: seq<Interface>)
    requires forall c :: !IsCandidate(f, card, c)
    ensures forall i :: 0 <= i < |card| ==> !Eligible(f, card, i)
  {
    forall i | 0 <= i < |card| ensures !Eligible(f, card, i) {
      assert !IsCandidate(f, card, Candidate(i, Priority(f.preferred, card[i].protocol)));
    }
  }

  lemma AllTried(f: Factory, card: seq<Interface>, sorted: seq<Candidate>, errors: seq<(string, string)>)
    requires forall c :: c in sorted <==> IsCandidate(f, card, c)
    requires FailedWith(f, card, sorted, errors) && RankedAttempts(f, card, Positions(sorted))
    ensures NoneBuilds(f, card, Positions(sorted), errors)
  {
    forall i | 0 <= i < |card| && Eligible(f, card, i) ensures i in Positions(sorted) && !Builds(f, card, i) {
      var b := IndexOf(f, card, sorted, i);
      assert Positions(sorted)[b] == i;
    }
  }

  /**
   The chosen interface is the first in rank order that builds: everything ranked before it was tried
   and failed, nothing ranked after it was tried. If all fail there is one error for each, in order.
   */
  method CreateFromCard(f: Factory, card: seq<Interface>)
    returns (r: Result<Client, FactoryError>, attempts: seq<nat>)
    ensures RankedAttempts(f, card, attempts)
    ensures card == [] <==> r == Err(NoInterfaces)
    ensures r.Err? && r.error.NoCompatibleTransport?
       <==> card != [] && forall i :: 0 <= i < |card| ==> !Eligible(f, card, i)
    ensures r.Err? && r.error.NoCompatibleTransport? ==> r.error.available == Protocols(card)
    ensures r.Ok? ==> attempts != [] && Chosen(f, card, attempts, r.value)
    ensures r.Ok? && |f.preferred| < USIZE_MAX ==> Best(f, card, attempts[|attempts| - 1])
    ensures r.Err? && r.error.AllFailed? ==> NoneBuilds(f, card, attempts, r.error.errors)
  {
    attempts := [];
    if card == [] {
      return Err(NoInterfaces), [];
    }
    var candidates := CollectCandidates(f, card);
    if candidates == [] {
      NothingEligible(f, card);
      return Err(NoCompatibleTransport(Protocols(card))), [];
    }
    assert IsCandidate(f, card, candidates[0]);
    SortingKeeps(f, card, candidates);
    var client, errors, tried := ChooseFrom(f, card, StableSort(candidates));
    attempts := tried;
    r := if client.Some? then Ok(client.value) else Err(AllFailed(errors));
  }

  lemma SortingKeeps(f: Factory, card: seq<Interface>, candidates: seq<Candidate>)
    requires forall c :: c in candidates <==> IsCandidate(f, card, c)
    requires forall a, b :: 0 <= a < b < |candidates| ==> candidates[a].position < candidates[b].position
    ensures var sorted := StableSort(candidates);
            AllCandidates(f, card, sorted) && Ordered(sorted) && forall c :: c in sorted <==> IsCandidate(f, card, c)
  {
    StableSortSorts(candidates);
    var sorted := StableSort(candidates);
    forall a | 0 <= a < |sorted| ensures IsCandidate(f, card, sorted[a]) { assert sorted[a] in sorted; }
  }

  /** The loop over the sorted candidates, with what it means for the card. */
  method ChooseFrom(f: Factory, card: seq<Interface>, sorted: seq<Candidate>)
    returns (client: Option<Client>, errors: seq<(string, string)>, attempts: seq<nat>)
    requires AllCandidates(f, card, sorted) && Ordered(sorted)
    requires forall c :: c in sorted <==> IsCandidate(f, card, c)
    ensures RankedAttempts(f, card, attempts)
    ensures client.Some? ==> attempts != [] && Chosen(f, card, attempts, client.value)
    ensures client.Some? && |f.preferred| < USIZE_MAX ==> Best(f, card, attempts[|attempts| - 1])
    ensures client.None? ==> NoneBuilds(f, card, attempts, errors)
  {
    var n;
    client, errors, n := TryInOrder(f, card, sorted);
    attempts := Positions(sorted[..n]);
    PrefixIsRanked(f, card, sorted, n);
    if client.Some? {
      LastDecides(f, card, sorted[..n], client.value);
    } else {
      assert sorted[..n] == sorted;
      AllTried(f, card, sorted, errors);
    }
  }

  lemma LastDecides(f: Factory, card: seq<Interface>, tried: seq<Candidate>, client: Client)
    requires tried != [] && ChosenLast(f, card, tried, client) && RankedAttempts(f, card, Positions(tried))
    ensures Chosen(f, card, Positions(tried), client)
    ensures |f.preferred| < USIZE_MAX ==> Best(f, card, Positions(tried)[|tried| - 1])
  {
    LastIsChosen(f, card, tried, client);
    if |f.preferred| < USIZE_MAX { ChoiceIsBest(f, card, Positions(tried), client); }
  }

  /**
   The client's preferences decide. Of all interfaces that build, the chosen one has a protocol listed
   no later than any other's; of those equally good to the client it is the first on the card; and it has
   an unlisted protocol only if none with a listed one builds.
   */
  ghost predicate Best(f: Factory, card: seq<Interface>, chosen: nat)
    requires chosen < |card|
  {
    forall i :: 0 <= i < |card| && Builds(f, card, i) ==>
      && (forall k :: 0 <= k < |f.preferred| && f.preferred[k] == card[i].protocol ==>
            card[chosen].protocol in f.preferred[..k + 1])
      && (Indifferent(f.preferred, card[i].protocol, card[chosen].protocol) ==> chosen <= i)
  }

  lemma ChoiceIsBest(f: Factory, card: seq<Interface>, attempts: seq<nat>, client: Client)
    requires RankedAttempts(f, card, attempts) && attempts != [] && Chosen(f, card, attempts, client)
    requires |f.preferred| < USIZE_MAX
    ensures Best(f, card, attempts[|attempts| - 1])
  {
    var c := attempts[|attempts| - 1];
    forall i | 0 <= i < |card| && Builds(f, card, i)
      ensures forall k :: 0 <= k < |f.preferred| && f.preferred[k] == card[i].protocol ==>
                card[c].protocol in f.preferred[..k + 1]
      ensures Indifferent(f.preferred, card[i].protocol, card[c].protocol) ==> c <= i
    {
      if i != c {
        ChoiceIsLeast(f, card, attempts, client, i);
        BeforeIff(f, card, c, i);
        forall k | 0 <= k < |f.preferred| && f.preferred[k] == card[i].protocol
          ensures card[c].protocol in f.preferred[..k + 1]
        {
          EarlierListed(f.preferred, card[c].protocol, card[i].protocol, k);
        }
      } else {
        forall k | 0 <= k < |f.preferred| && f.preferred[k] == card[c].protocol
          ensures card[c].protocol in f.preferred[..k + 1]
        {
          assert f.preferred[..k + 1][k] == card[c].protocol;
        }
      }
    }
  }

  lemma EarlierListed(preferred: seq<string>, p: string, q: string, k: nat)
    requires k < |preferred| && preferred[k] == q && (Preferred(preferred, p, q) || Indifferent(preferred, p, q))
    ensures p in preferred[..k + 1]
  {
    assert preferred[..k + 1][k] == q;
    if Preferred(preferred, p, q) {
      var m :| 0 <= m < |preferred| && preferred[m] == p && q !in preferred[..m];
      NotAmongFirst(preferred, m, q);
      assert preferred[..k + 1][m] == p;
    }
  }

  /** Whatever builds and was not chosen ranks behind the choice: the choice is the least. */
  lemma ChoiceIsLeast(f: Factory, card: seq<Interface>, attempts: seq<nat>, client: Client, i: nat)
    requires RankedAttempts(f, card, attempts) && attempts != [] && Chosen(f, card, attempts, client)
    requires i < |card| && Builds(f, card, i) && i != attempts[|attempts| - 1]
    ensures i !in attempts && Before(f, card, attempts[|attempts| - 1], i)
  {
    assert NoneSkipped(f, card, attempts, attempts[|attempts| - 1]);
    forall a | 0 <= a < |attempts| ensures attempts[a] != i {}
  }
}
