/** Cutting a sequence into consecutive pages: the arithmetic behind the pagination walk. */
module Pages {

  /** Up to p items from offset o on. */
  function Cut<T>(items: seq<T>, o: nat, p: nat): seq<T> {
    if o >= |items| then [] else if o + p <= |items| then items[o..o + p] else items[o..]
  }

  /** All pages from offset o on, while a page ends before `total`. */
  function Gather<T>(items: seq<T>, p: nat, total: nat, o: nat): seq<T>
    requires p > 0
    decreases if o < total then total - o else 0
  {
    if o + p < total then Cut(items, o, p) + Gather(items, p, total, o + p) else Cut(items, o, p)
  }

  function Calls(p: nat, total: nat, o: nat): nat
    requires p > 0
    decreases if o < total then total - o else 0
  {
    if o + p < total then 1 + Calls(p, total, o + p) else 1
  }

  /** k pages of size p, kept linear for the proofs below. */
  function Times(k: nat, p: nat): nat {
    if k == 0 then 0 else p + Times(k - 1, p)
  }

  lemma {:induction false} TimesIsProduct(k: nat, p: nat)
    ensures Times(k, p) == k * p
  {
    if k > 0 {
      TimesIsProduct(k - 1, p);
      assert (k - 1) * p == k * p - p;
    }
  }

  lemma {:induction false} CallsAre(p: nat, total: nat, o: nat, left: nat, span: nat)
    requires p > 0 && left > 0 && span == Times(left, p)
    requires o + span - p < total <= o + span
    ensures Calls(p, total, o) == left
    decreases left
  {
    if left > 1 {
      assert Times(left - 1, p) == p + Times(left - 2, p);
      CallsAre(p, total, o + p, left - 1, span - p);
    }
  }

  lemma {:induction false} GatherIs<T>(items: seq<T>, p: nat, total: nat, o: nat, left: nat, span: nat, end: nat)
    requires p > 0 && left > 0 && span == Times(left, p)
    requires o + span - p < total <= o + span && total <= |items|
    requires end == if o + span < |items| then o + span else |items|
    ensures Gather(items, p, total, o) == items[o..end]
    decreases left
  {
    if left == 1 {
      assert span == p + Times(0, p);
    } else {
      assert Times(left - 1, p) == p + Times(left - 2, p);
      GatherIs(items, p, total, o + p, left - 1, span - p, end);
      assert items[o..o + p] + items[o + p..end] == items[o..end];
    }
  }

  /** ceil(total / p). */
  function PageCount(total: nat, p: nat): (m: nat)
    requires p > 0
  {
    (total + p - 1) / p
  }

  lemma PagesCover(total: nat, p: nat)
    requires total > 0 && p > 0
    ensures var m := PageCount(total, p);
            m > 0 && m * p == Times(m, p) && m * p - p < total <= m * p
  {
    var m := PageCount(total, p);
    var r := (total + p - 1) % p;
    assert total + p - 1 == p * m + r;
    assert p * m == m * p;
    TimesIsProduct(m, p);
  }

  /** From the start: as many pages as it takes to reach the total, and the items up to their end. */
  lemma GatherAll<T>(items: seq<T>, p: nat, total: nat, end: nat)
    requires p > 0 && 0 < total <= |items|
    requires end == if PageCount(total, p) * p < |items| then PageCount(total, p) * p else |items|
    ensures Calls(p, total, 0) == PageCount(total, p)
    ensures Gather(items, p, total, 0) == items[..end]
  {
    PagesCover(total, p);
    var m := PageCount(total, p);
    var span := m * p;
    CallsAre(p, total, 0, m, span);
    GatherIs(items, p, total, 0, m, span, end);
  }
}
