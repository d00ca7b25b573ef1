/** The batch edits of internal/domain/tools/edit_file.go: planned on one snapshot, applied from the back. */
module Edits {
  import opened Words

  datatype Change = Change(oldText: Bytes, newText: Bytes)

  datatype Planned = Planned(request: nat, oldText: Bytes, newText: Bytes, offset: nat, end: nat)

  // ---------------------------------------------------------------- occurrences

  predicate Occurs(s: Bytes, sub: Bytes, i: nat) {
    i + |sub| <= |s| && s[i..i + |sub|] == sub
  }

  /** strings.Index from a position: the first occurrence, or -1. */
  method Index(s: Bytes, from: nat, sub: Bytes) returns (i: int)
    requires from <= |s|
    ensures i >= 0 ==> i >= from && Occurs(s, sub, i) && forall k :: from <= k < i ==> !Occurs(s, sub, k)
    ensures i < 0 ==> forall k :: from <= k ==> !Occurs(s, sub, k)
  {
    i := from;
    while i + |sub| <= |s|
      invariant from <= i && forall k :: from <= k < i ==> !Occurs(s, sub, k)
      decreases |s| - i
    {
      if s[i..i + |sub|] == sub { return i; }
      i := i + 1;
    }
    return -1;
  }

  /** Every occurrence of a non-empty text, overlapping ones included, in order. */
  method FindAllExact(s: Bytes, sub: Bytes) returns (offsets: seq<nat>)
    ensures sub == [] ==> offsets == []
    ensures sub != [] ==> forall i: nat :: i in offsets <==> Occurs(s, sub, i)
    ensures forall j, k :: 0 <= j < k < |offsets| ==> offsets[j] < offsets[k]
  {
    offsets := [];
    if sub == [] { return; }
    var from := 0;
    while from + |sub| <= |s|
      invariant forall i: nat :: i in offsets <==> i < from && Occurs(s, sub, i)
      invariant forall j, k :: 0 <= j < k < |offsets| ==> offsets[j] < offsets[k]
      decreases |s| - from
    {
      var i := Index(s, from, sub);
      if i < 0 { break; }
      assert forall j :: 0 <= j < |offsets| ==> offsets[j] in offsets;
      offsets := offsets + [i];
      from := i + 1;
    }
  }

  // ---------------------------------------------------------------- what may be planned

  ghost predicate OnlyAt(s: Bytes, sub: Bytes, i: nat) {
    Occurs(s, sub, i) && forall j: nat :: Occurs(s, sub, j) ==> j == i
  }

  ghost predicate OccursOnce(s: Bytes, sub: Bytes) {
    exists i: nat :: OnlyAt(s, sub, i)
  }

  /** The only occurrence. */
  ghost function OffsetOf(s: Bytes, sub: Bytes): (i: nat)
    requires OccursOnce(s, sub)
    ensures OnlyAt(s, sub, i)
  {
    var i: nat :| OnlyAt(s, sub, i);
    i
  }

  ghost predicate AllOnce(s: Bytes, edits: seq<Change>) {
    forall i :: 0 <= i < |edits| ==> edits[i].oldText != [] && OccursOnce(s, edits[i].oldText)
  }

  ghost function PlannedAt(s: Bytes, edits: seq<Change>, i: nat): Planned
    requires i < |edits| && OccursOnce(s, edits[i].oldText)
  {
    var offset := OffsetOf(s, edits[i].oldText);
    Planned(i, edits[i].oldText, edits[i].newText, offset, offset + |edits[i].oldText|)
  }

  /** A plan entry has its request's texts. */
  predicate Carries(p: Planned, edits: seq<Change>) {
    && p.request < |edits| && p.oldText == edits[p.request].oldText && p.newText == edits[p.request].newText
    && p.end == p.offset + |p.oldText|
  }

  predicate Apart(a: Planned, b: Planned) {
    a.end <= b.offset || b.end <= a.offset
  }

  /** Each old text occurs exactly once and no two of the matched intervals meet. */
  ghost predicate Acceptable(s: Bytes, edits: seq<Change>) {
    && AllOnce(s, edits)
    && forall i, j :: 0 <= i < j < |edits| ==> Apart(PlannedAt(s, edits, i), PlannedAt(s, edits, j))
  }

  /** A plan holds each request's match once, from the highest offset to the lowest. */
  ghost predicate IsPlan(s: Bytes, edits: seq<Change>, plan: seq<Planned>) {
    && AllOnce(s, edits)
    && (forall p :: p in plan <==> exists i :: 0 <= i < |edits| && p == PlannedAt(s, edits, i))
    && forall j, k :: 0 <= j < k < |plan| ==> plan[k].end <= plan[j].offset
  }

  // ---------------------------------------------------------------- sorting

  ghost predicate StrictWeakOrder(less: (Planned, Planned) -> bool) {
    && (forall a, b :: less(a, b) ==> !less(b, a))
    && (forall a, b, c :: !less(b, a) && !less(c, b) ==> !less(c, a))
  }

  ghost predicate Sorted(xs: seq<Planned>, less: (Planned, Planned) -> bool) {
    forall i, j :: 0 <= i < j < |xs| ==> !less(xs[j], xs[i])
  }

  predicate Ascending(a: Planned, b: Planned) {
    if a.offset == b.offset then a.end < b.end else a.offset < b.offset
  }

  predicate Descending(a: Planned, b: Planned) {
    a.offset > b.offset
  }

  /** sort.SliceStable, as an insertion sort. */
  method SortStable(xs: seq<Planned>, less: (Planned, Planned) -> bool) returns (r: seq<Planned>)
    requires StrictWeakOrder(less)
    ensures multiset(r) == multiset(xs) && Sorted(r, less)
  {
    r := [];
    var i := 0;
    while i < |xs|
      invariant 0 <= i <= |xs| && multiset(r) == multiset(xs[..i]) && Sorted(r, less)
    {
      var k := |r|;
      while k > 0 && less(xs[i], r[k - 1])
        invariant 0 <= k <= |r| && forall j :: k <= j < |r| ==> less(xs[i], r[j])
      {
        k := k - 1;
      }
      InsertKeeps(r, k, xs[i], less);
      assert xs[..i + 1] == xs[..i] + [xs[i]];
      r := r[..k] + [xs[i]] + r[k..];
      i := i + 1;
    }
    assert xs[..i] == xs;
  }

  lemma InsertKeeps(r: seq<Planned>, k: nat, x: Planned, less: (Planned, Planned) -> bool)
    requires StrictWeakOrder(less) && Sorted(r, less) && k <= |r|
    requires (k > 0 ==> !less(x, r[k - 1])) && forall j :: k <= j < |r| ==> less(x, r[j])
    ensures Sorted(r[..k] + [x] + r[k..], less)
    ensures multiset(r[..k] + [x] + r[k..]) == multiset(r) + multiset{x}
  {
    hide StrictWeakOrder;
    var r' := r[..k] + [x] + r[k..];
    assert r == r[..k] + r[k..];
    forall i, j | 0 <= i < j < |r'| ensures !less(r'[j], r'[i]) {
      if j == k {
        if i < k - 1 { NotLess(less, r[i], r[k - 1], x); }
      } else if i == k {
        NotBoth(less, x, r[j - 1]);
      }
    }
  }

  lemma NotLess(less: (Planned, Planned) -> bool, a: Planned, b: Planned, c: Planned)
    requires StrictWeakOrder(less) && !less(b, a) && !less(c, b)
    ensures !less(c, a)
  {
  }

  lemma NotBoth(less: (Planned, Planned) -> bool, a: Planned, b: Planned)
    requires StrictWeakOrder(less) && less(a, b)
    ensures !less(b, a)
  {
  }

  // ---------------------------------------------------------------- the plan

  method PlanExactEdits(s: Bytes, edits: seq<Change>) returns (r: Option<seq<Planned>>)
    ensures r.Some? <==> Acceptable(s, edits)
    ensures r.Some? ==> IsPlan(s, edits, r.value) && |r.value| == |edits|
    ensures r.Some? ==> forall p :: p in r.value ==> Carries(p, edits) && Occurs(s, p.oldText, p.offset)
  {
    var planned: seq<Planned> := [];
    var issues := 0;
    var i := 0;
    while i < |edits|
      invariant 0 <= i <= |edits| && (issues == 0 <==> AllOnce(s, edits[..i])) && issues >= 0
      invariant forall p :: p in planned ==> p.offset < p.end
      invariant issues == 0 ==> Matches(s, edits[..i], planned)
    {
      var hits := FindAllExact(s, edits[i].oldText);
      if edits[i].oldText != [] { HitsOnce(s, edits[i].oldText, hits); }
      if |hits| == 1 {
        planned := planned + [Planned(i, edits[i].oldText, edits[i].newText, hits[0], hits[0] + |edits[i].oldText|)];
      } else {
        issues := issues + 1;
      }
      i := i + 1;
    }
    assert edits[..i] == edits;

    var byOffset := SortStable(planned, Ascending);
    ghost var once := issues;
    var k := 1;
    while k < |byOffset|
      invariant 1 <= k && (issues == once <==> NeighboursApart(byOffset, k)) && issues >= once
    {
      if byOffset[k].offset < byOffset[k - 1].end { issues := issues + 1; }
      k := k + 1;
    }
    if once == 0 { NeighboursDecide(s, edits, planned, byOffset); }
    if issues > 0 { return None; }
    var plan := SortStable(planned, Descending);
    DescendingIsPlan(s, edits, planned, plan);
    PlanCarries(s, edits, plan);
    assert |plan| == |multiset(plan)| == |planned|;
    return Some(plan);
  }

  /** The first `k` intervals each start after the one before has ended. */
  ghost predicate NeighboursApart(xs: seq<Planned>, k: int) {
    forall i :: 1 <= i < k && i < |xs| ==> xs[i - 1].end <= xs[i].offset
  }

  lemma HitsOnce(s: Bytes, sub: Bytes, hits: seq<nat>)
    requires forall i: nat :: i in hits <==> Occurs(s, sub, i)
    requires forall j, k :: 0 <= j < k < |hits| ==> hits[j] < hits[k]
    ensures |hits| == 1 <==> OccursOnce(s, sub)
    ensures |hits| == 1 ==> hits[0] == OffsetOf(s, sub)
  {
    hide Occurs;
    assert forall k :: 0 <= k < |hits| ==> hits[k] in hits && Occurs(s, sub, hits[k]);
    if |hits| == 1 {
      assert OnlyAt(s, sub, hits[0]);
    } else if OccursOnce(s, sub) {
      OneHit(s, sub, hits, OffsetOf(s, sub));
    }
  }

  lemma OneHit(s: Bytes, sub: Bytes, hits: seq<nat>, i: nat)
    requires OnlyAt(s, sub, i) && forall k: nat :: k in hits <==> Occurs(s, sub, k)
    requires forall j, k :: 0 <= j < k < |hits| ==> hits[j] < hits[k]
    ensures |hits| == 1
  {
    hide Occurs;
    assert |hits| > 1 ==> hits[0] < hits[1];
    assert i in hits;
    forall k | 0 <= k < |hits| ensures hits[k] == i {
      assert hits[k] in hits;
      assert Occurs(s, sub, hits[k]);
    }
  }

  /** The matches of all requests, in request order. */
  ghost predicate Matches(s: Bytes, edits: seq<Change>, planned: seq<Planned>) {
    && AllOnce(s, edits) && |planned| == |edits|
    && forall k :: 0 <= k < |edits| ==> planned[k] == PlannedAt(s, edits, k)
  }

  ghost predicate NoRepeats<T>(xs: seq<T>) {
    forall i, j :: 0 <= i < j < |xs| ==> xs[i] != xs[j]
  }

  lemma {:induction false} AtMostOnce<T>(xs: seq<T>, x: T)
    requires NoRepeats(xs)
    ensures multiset(xs)[x] <= 1
  {
    if |xs| > 0 {
      var n := |xs| - 1;
      AtMostOnce(xs[..n], x);
      assert xs == xs[..n] + [xs[n]];
      if xs[n] == x { assert x !in xs[..n]; }
    }
  }

  lemma Twice<T>(xs: seq<T>, i: nat, j: nat)
    requires i < j < |xs| && xs[i] == xs[j]
    ensures multiset(xs)[xs[i]] >= 2
  {
    assert xs == xs[..j] + [xs[j]] + xs[j + 1..];
    assert xs[i] in xs[..j];
  }

  lemma PermutationHasNoRepeats(a: seq<Planned>, b: seq<Planned>)
    requires NoRepeats(a) && multiset(a) == multiset(b)
    ensures NoRepeats(b)
  {
    forall i, j | 0 <= i < j < |b| ensures b[i] != b[j] {
      AtMostOnce(a, b[i]);
      if b[i] == b[j] { Twice(b, i, j); }
    }
  }

  /** Once sorted by offset, a test of neighbours alone decides about every pair. */
  lemma {:induction false} AdjacentSuffices(xs: seq<Planned>, i: nat, j: nat)
    requires Sorted(xs, Ascending) && NeighboursApart(xs, |xs|) && i < j < |xs|
    requires forall k :: 0 <= k < |xs| ==> xs[k].offset < xs[k].end
    ensures xs[i].end <= xs[j].offset
    decreases j
  {
    if i < j - 1 {
      AdjacentSuffices(xs, i, j - 1);
      assert xs[j - 1].end <= xs[j].offset;
    }
  }

  lemma MatchesAreDistinct(s: Bytes, edits: seq<Change>, planned: seq<Planned>, xs: seq<Planned>)
    requires Matches(s, edits, planned) && multiset(xs) == multiset(planned)
    ensures NoRepeats(xs)
    ensures forall x :: x in xs ==> x.request < |edits| && x == PlannedAt(s, edits, x.request) && x.offset < x.end
    ensures forall k :: 0 <= k < |edits| ==> PlannedAt(s, edits, k) in xs
  {
    PermutationHasNoRepeats(planned, xs);
    forall x | x in xs ensures x in planned { assert x in multiset(xs); }
    forall k | 0 <= k < |edits| ensures planned[k] in xs { assert planned[k] in multiset(planned); }
  }

  lemma NeighboursDecide(s: Bytes, edits: seq<Change>, planned: seq<Planned>, xs: seq<Planned>)
    requires Matches(s, edits, planned) && multiset(xs) == multiset(planned) && Sorted(xs, Ascending)
    ensures NeighboursApart(xs, |xs|) <==> Acceptable(s, edits)
  {
    MatchesAreDistinct(s, edits, planned, xs);
    if NeighboursApart(xs, |xs|) {
      forall i, j | 0 <= i < j < |edits| ensures Apart(PlannedAt(s, edits, i), PlannedAt(s, edits, j)) {
        SortedPairApart(xs, PlannedAt(s, edits, i), PlannedAt(s, edits, j));
      }
    }
    if Acceptable(s, edits) {
      forall i | 1 <= i < |xs| ensures xs[i - 1].end <= xs[i].offset {
        assert xs[i - 1] in xs && xs[i] in xs && xs[i - 1] != xs[i];
        PairApart(s, edits, xs[i - 1].request, xs[i].request);
      }
    }
  }

  lemma SortedPairApart(xs: seq<Planned>, x: Planned, y: Planned)
    requires Sorted(xs, Ascending) && NeighboursApart(xs, |xs|) && x in xs && y in xs && x != y
    requires forall k :: 0 <= k < |xs| ==> xs[k].offset < xs[k].end
    ensures Apart(x, y)
  {
    var a :| 0 <= a < |xs| && xs[a] == x;
    var b :| 0 <= b < |xs| && xs[b] == y;
    if a < b { AdjacentSuffices(xs, a, b); } else { AdjacentSuffices(xs, b, a); }
  }

  lemma PairApart(s: Bytes, edits: seq<Change>, i: nat, j: nat)
    requires Acceptable(s, edits) && i < |edits| && j < |edits| && i != j
    ensures Apart(PlannedAt(s, edits, i), PlannedAt(s, edits, j))
  {
    if j < i { assert Apart(PlannedAt(s, edits, j), PlannedAt(s, edits, i)); }
  }

  lemma DescendingIsPlan(s: Bytes, edits: seq<Change>, planned: seq<Planned>, plan: seq<Planned>)
    requires Matches(s, edits, planned) && Acceptable(s, edits)
    requires multiset(plan) == multiset(planned) && Sorted(plan, Descending)
    ensures IsPlan(s, edits, plan)
  {
    MatchesAreDistinct(s, edits, planned, plan);
    forall j, k | 0 <= j < k < |plan| ensures plan[k].end <= plan[j].offset {
      assert plan[j] in plan && plan[k] in plan && plan[j] != plan[k];
      PairApart(s, edits, plan[j].request, plan[k].request);
    }
  }

  // ---------------------------------------------------------------- carrying the plan out

  function ReplaceAt(s: Bytes, start: nat, length: nat, repl: Bytes): Bytes
    requires start + length <= |s|
  {
    s[..start] + repl + s[start + length..]
  }

  /** From `pos` on: all intervals of an ascending list replaced at once in the original. */
  function Substituted(s: Bytes, ascending: seq<Planned>, pos: nat): Bytes
    requires pos <= |s| && InOrder(s, ascending, pos)
    decreases |ascending|
  {
    if |ascending| == 0 then s[pos..]
    else s[pos..ascending[0].offset] + ascending[0].newText + Substituted(s, ascending[1..], ascending[0].end)
  }

  /** The intervals lie after `pos` and within the text, one after the other. */
  predicate InOrder(s: Bytes, ascending: seq<Planned>, pos: nat)
    decreases |ascending|
  {
    |ascending| > 0 ==>
      && pos <= ascending[0].offset <= ascending[0].end <= |s|
      && InOrder(s, ascending[1..], ascending[0].end)
  }

  function Reversed(xs: seq<Planned>): seq<Planned> {
    if |xs| == 0 then [] else [xs[|xs| - 1]] + Reversed(xs[..|xs| - 1])
  }

  /** The text after the first `n` edits of a plan, counted from the back of the text: everything before the last one
      untouched, all of them substituted at once after it. */
  ghost predicate Partly(s: Bytes, plan: seq<Planned>, n: nat, current: Bytes)
    requires n <= |plan|
  {
    var from := if n == 0 then |s| else plan[n - 1].offset;
    && from <= |s| && InOrder(s, Reversed(plan[..n]), from)
    && current == s[..from] + Substituted(s, Reversed(plan[..n]), from)
  }

  /** A plan's matches are texts of the original, each before the one planned ahead of it. */
  ghost predicate Fits(s: Bytes, plan: seq<Planned>) {
    && (forall k :: 0 <= k < |plan| ==> Occurs(s, plan[k].oldText, plan[k].offset) && plan[k].end == plan[k].offset + |plan[k].oldText|)
    && forall j, k :: 0 <= j < k < |plan| ==> plan[k].end <= plan[j].offset
  }

  lemma PlanFits(s: Bytes, edits: seq<Change>, plan: seq<Planned>)
    requires IsPlan(s, edits, plan)
    ensures Fits(s, plan)
  {
    forall k | 0 <= k < |plan| ensures Occurs(s, plan[k].oldText, plan[k].offset) && plan[k].end == plan[k].offset + |plan[k].oldText| {
      assert plan[k] in plan;
    }
  }

  lemma PlanCarries(s: Bytes, edits: seq<Change>, plan: seq<Planned>)
    requires IsPlan(s, edits, plan)
    ensures forall p :: p in plan ==> Carries(p, edits) && Occurs(s, p.oldText, p.offset)
  {
  }

  /** The next match is still in place, and splicing it is substituting it. */
  lemma SpliceNext(s: Bytes, plan: seq<Planned>, n: nat, current: Bytes)
    requires Fits(s, plan) && n < |plan| && Partly(s, plan, n, current)
    ensures var p := plan[n];
            && p.end <= |current| && current[p.offset..p.end] == p.oldText
            && Partly(s, plan, n + 1, ReplaceAt(current, p.offset, |p.oldText|, p.newText))
  {
    var p := plan[n];
    var from := if n == 0 then |s| else plan[n - 1].offset;
    assert Occurs(s, p.oldText, p.offset) && p.end <= from;
    assert plan[..n + 1][..n] == plan[..n];
    var rest := Reversed(plan[..n]);
    var next := Reversed(plan[..n + 1]);
    assert next == [p] + rest && next[1..] == rest;
    EarlierStart(s, rest, p.end, from);
    var current' := ReplaceAt(current, p.offset, |p.oldText|, p.newText);
    assert current[p.offset..p.end] == s[p.offset..p.end];
    assert current[..p.offset] == s[..p.offset];
    assert current[p.end..] == s[p.end..from] + Substituted(s, rest, from);
  }

  /** Starting the substitution earlier only adds the text in between. */
  lemma EarlierStart(s: Bytes, xs: seq<Planned>, a: nat, b: nat)
    requires a <= b <= |s| && InOrder(s, xs, b)
    ensures InOrder(s, xs, a) && Substituted(s, xs, a) == s[a..b] + Substituted(s, xs, b)
  {
    if |xs| > 0 {
      assert s[a..xs[0].offset] == s[a..b] + s[b..xs[0].offset];
    } else {
      assert s[a..] == s[a..b] + s[b..];
    }
  }

  // ---------------------------------------------------------------- what that means for the text

  /** `out` is `s` with the old texts of these requests, one after the other, exchanged for their new texts: both are cut
      into the same pieces in between. */
  ghost predicate Exchanged(s: Bytes, out: Bytes, edits: seq<Change>, order: seq<nat>)
    decreases |order|
  {
    if |order| == 0 then out == s
    else
      && order[0] < |edits|
      && exists before, s', out' ::
           && s == before + edits[order[0]].oldText + s' && out == before + edits[order[0]].newText + out'
           && Exchanged(s', out', edits, order[1..])
  }

  /** Every request once. */
  ghost predicate EachOnce(order: seq<nat>, n: nat) {
    NoRepeats(order) && forall i: nat :: i in order <==> i < n
  }

  function Requests(xs: seq<Planned>): (order: seq<nat>)
    ensures |order| == |xs| && forall k :: 0 <= k < |xs| ==> order[k] == xs[k].request
  {
    seq(|xs|, k requires 0 <= k < |xs| => xs[k].request)
  }

  /** Substituting planned matches at once exchanges their requests' texts. */
  lemma {:induction false} SubstitutedExchanges(s: Bytes, edits: seq<Change>, xs: seq<Planned>, pos: nat)
    requires pos <= |s| && InOrder(s, xs, pos)
    requires forall k :: 0 <= k < |xs| ==> Carries(xs[k], edits) && Occurs(s, xs[k].oldText, xs[k].offset)
    ensures Exchanged(s[pos..], Substituted(s, xs, pos), edits, Requests(xs))
    decreases |xs|
  {
    if |xs| > 0 {
      var p := xs[0];
      SubstitutedExchanges(s, edits, xs[1..], p.end);
      assert Requests(xs)[1..] == Requests(xs[1..]);
      assert s[pos..] == s[pos..p.offset] + edits[p.request].oldText + s[p.end..];
      assert Substituted(s, xs, pos) == s[pos..p.offset] + edits[p.request].newText + Substituted(s, xs[1..], p.end);
    }
  }

  lemma {:induction false} ReversedHas(xs: seq<Planned>)
    ensures |Reversed(xs)| == |xs| && forall k :: 0 <= k < |xs| ==> Reversed(xs)[k] == xs[|xs| - 1 - k]
  {
    if |xs| > 0 { ReversedHas(xs[..|xs| - 1]); }
  }

  /** The requests of a plan, from the front of the text on. */
  lemma PlannedOnce(s: Bytes, edits: seq<Change>, plan: seq<Planned>)
    requires IsPlan(s, edits, plan)
    ensures EachOnce(Requests(Reversed(plan)), |edits|)
  {
    ReversedHas(plan);
    var order := Requests(Reversed(plan));
    forall j, k | 0 <= j < k < |order| ensures order[j] != order[k] {
      var a, b := plan[|plan| - 1 - j], plan[|plan| - 1 - k];
      assert a in plan && b in plan && a.end <= b.offset;
    }
    forall i: nat ensures i in order <==> i < |edits| {
      if i < |edits| {
        assert PlannedAt(s, edits, i) in plan;
        var k :| 0 <= k < |plan| && plan[k] == PlannedAt(s, edits, i);
        assert order[|plan| - 1 - k] == i;
      }
      if i in order {
        var k :| 0 <= k < |order| && order[k] == i;
        assert plan[|plan| - 1 - k] in plan;
      }
    }
  }

  /** Edits from the back of the text up to some point have exchanged exactly their requests' texts. */
  lemma PartlyExchanges(s: Bytes, edits: seq<Change>, plan: seq<Planned>, n: nat, current: Bytes)
    requires IsPlan(s, edits, plan) && n <= |plan| && Partly(s, plan, n, current)
    ensures Exchanged(s, current, edits, Requests(Reversed(plan[..n])))
  {
    hide *;
    var xs := Reversed(plan[..n]);
    PartlyCarries(s, edits, plan, n);
    PartlyFromStart(s, plan, n, current);
    assert s[0..] == s;
    SubstitutedExchanges(s, edits, xs, 0);
  }

  lemma PartlyCarries(s: Bytes, edits: seq<Change>, plan: seq<Planned>, n: nat)
    requires IsPlan(s, edits, plan) && n <= |plan|
    ensures var xs := Reversed(plan[..n]);
            forall k :: 0 <= k < |xs| ==> Carries(xs[k], edits) && Occurs(s, xs[k].oldText, xs[k].offset)
  {
    PlanCarries(s, edits, plan);
    ReversedHas(plan[..n]);
    hide *;
    var xs := Reversed(plan[..n]);
    forall k | 0 <= k < |xs| ensures Carries(xs[k], edits) && Occurs(s, xs[k].oldText, xs[k].offset) {
      assert xs[k] == plan[n - 1 - k] && xs[k] in plan;
    }
  }

  lemma PartlyFromStart(s: Bytes, plan: seq<Planned>, n: nat, current: Bytes)
    requires n <= |plan| && Partly(s, plan, n, current)
    ensures InOrder(s, Reversed(plan[..n]), 0) && current == Substituted(s, Reversed(plan[..n]), 0)
  {
    var from := if n == 0 then |s| else plan[n - 1].offset;
    EarlierStart(s, Reversed(plan[..n]), 0, from);
  }

  /** For one request that is the whole story: the text around its only occurrence, and its new text in between. */
  lemma OneExchanged(s: Bytes, out: Bytes, edit: Change, order: seq<nat>, i: nat)
    requires OnlyAt(s, edit.oldText, i) && EachOnce(order, 1) && Exchanged(s, out, [edit], order)
    ensures out == s[..i] + edit.newText + s[i + |edit.oldText|..]
  {
    assert 0 in order;
    assert |order| == 1 by { assert forall k :: 0 <= k < |order| ==> order[k] in order; }
    assert order[0] in order;
    var before, s', out' :| s == before + edit.oldText + s' && out == before + edit.newText + out'
                            && Exchanged(s', out', [edit], order[1..]);
    assert Occurs(s, edit.oldText, |before|);
  }

  // ---------------------------------------------------------------- the apply loop

  datatype Outcome = Rejected | Completed | ReadFailed(done: nat) | Changed(done: nat) | WriteFailed(done: nat)

  /** A file that someone else may write between two of our accesses when it is `shared`. */
  class WorkFile {
    var content: Bytes
    const shared: bool

    constructor (content: Bytes, shared: bool)
      ensures this.content == content && this.shared == shared
    {
      this.content := content;
      this.shared := shared;
    }

    method ReadFile() returns (r: Option<Bytes>)
      modifies this
      ensures r.Some? ==> r.value == content
      ensures !shared ==> content == old(content)
    {
      if shared { content := *; }
      var up: bool := *;
      return if up then Some(content) else None;
    }

    method WriteFile(text: Bytes) returns (ok: bool)
      modifies this
      ensures content == if ok then text else old(content)
    {
      ok := *;
      if ok { content := text; }
    }
  }

  /** Execute, from the snapshot on. Without another writer the re-check never stops the batch: all edits are
      substituted at once in the original, or a failing access leaves exactly the edits counted as done. */
  method Execute(file: WorkFile, s: Bytes, edits: seq<Change>) returns (r: Outcome, ghost plan: seq<Planned>)
    requires file.content == s
    modifies file
    ensures r.Rejected? <==> !Acceptable(s, edits)
    ensures r.Rejected? ==> file.content == s
    ensures !r.Rejected? ==> IsPlan(s, edits, plan) && Fits(s, plan)
    ensures !file.shared ==> !r.Changed?
    ensures !file.shared && r.Completed? ==>
              InOrder(s, Reversed(plan), 0) && file.content == Substituted(s, Reversed(plan), 0)
    ensures !file.shared && (r.ReadFailed? || r.WriteFailed?) ==> r.done < |plan| && Partly(s, plan, r.done, file.content)
    ensures !file.shared && r.Completed? ==> exists order: seq<nat> :: EachOnce(order, |edits|) && Exchanged(s, file.content, edits, order)
    ensures !file.shared && (r.ReadFailed? || r.WriteFailed?) ==>
              exists order: seq<nat> :: |order| == r.done < |edits| && NoRepeats(order) && Exchanged(s, file.content, edits, order)
    ensures !file.shared && r.Completed? && |edits| == 1 ==>
              forall i: nat :: Occurs(s, edits[0].oldText, i) ==> SplicedAt(s, edits[0], i, file.content)
  {
    hide *;
    plan := [];
    var planned := PlanExactEdits(s, edits);
    if planned.None? { return Rejected, []; }
    plan := planned.value;
    PlanFits(s, edits, plan);
    NothingDone(s, plan);
    var n := 0;
    while n < |planned.value|
      invariant 0 <= n <= |plan| == |edits| && plan == planned.value
      invariant !file.shared ==> Partly(s, plan, n, file.content)
    {
      var edit := planned.value[n];
      var current := file.ReadFile();
      if !file.shared { SomeExchanged(s, edits, plan, n, file.content); }
      if current.None? { return ReadFailed(n), plan; }
      MatchEnds(s, plan, n);
      if !file.shared { SpliceNext(s, plan, n, file.content); }
      if edit.end > |current.value| || current.value[edit.offset..edit.end] != edit.oldText { return Changed(n), plan; }
      var updated := ReplaceAt(current.value, edit.offset, |edit.oldText|, edit.newText);
      var ok := file.WriteFile(updated);
      if !ok { return WriteFailed(n), plan; }
      n := n + 1;
    }
    if !file.shared {
      AllDone(s, plan, file.content);
      AllExchanged(s, edits, plan, file.content);
    }
    return Completed, plan;
  }

  /** All edits done. */
  lemma AllExchanged(s: Bytes, edits: seq<Change>, plan: seq<Planned>, current: Bytes)
    requires IsPlan(s, edits, plan) && Partly(s, plan, |plan|, current)
    ensures exists order: seq<nat> :: EachOnce(order, |edits|) && Exchanged(s, current, edits, order)
    ensures |edits| == 1 ==> forall i: nat :: Occurs(s, edits[0].oldText, i) ==> SplicedAt(s, edits[0], i, current)
  {
    hide Partly, IsPlan, EachOnce, Exchanged;
    PartlyExchanges(s, edits, plan, |plan|, current);
    assert plan[..|plan|] == plan;
    PlannedOnce(s, edits, plan);
    if |edits| == 1 {
      assert edits == [edits[0]];
      forall i: nat | Occurs(s, edits[0].oldText, i) ensures SplicedAt(s, edits[0], i, current) {
        OnlyOne(s, edits, plan, i);
        OneExchanged(s, current, edits[0], Requests(Reversed(plan)), i);
      }
    }
  }

  /** The text before and after the match at `i`, and the new text in between. */
  predicate SplicedAt(s: Bytes, edit: Change, i: nat, out: Bytes) {
    i + |edit.oldText| <= |s| && out == s[..i] + edit.newText + s[i + |edit.oldText|..]
  }

  lemma OnlyOne(s: Bytes, edits: seq<Change>, plan: seq<Planned>, i: nat)
    requires IsPlan(s, edits, plan) && |edits| > 0 && Occurs(s, edits[0].oldText, i)
    ensures OnlyAt(s, edits[0].oldText, i)
  {
    hide Occurs;
  }

  /** The first `n` edits done. */
  lemma SomeExchanged(s: Bytes, edits: seq<Change>, plan: seq<Planned>, n: nat, current: Bytes)
    requires IsPlan(s, edits, plan) && |plan| == |edits| && n < |plan| && Partly(s, plan, n, current)
    ensures exists order: seq<nat> :: |order| == n < |edits| && NoRepeats(order) && Exchanged(s, current, edits, order)
  {
    hide *;
    PartlyExchanges(s, edits, plan, n, current);
    LastRequests(s, edits, plan, n);
  }

  lemma LastRequests(s: Bytes, edits: seq<Change>, plan: seq<Planned>, n: nat)
    requires IsPlan(s, edits, plan) && n <= |plan|
    ensures |Requests(Reversed(plan[..n]))| == n && NoRepeats(Requests(Reversed(plan[..n])))
  {
    PlannedOnce(s, edits, plan);
    ReversedHas(plan);
    ReversedHas(plan[..n]);
    hide IsPlan, Reversed;
    NoneWithin(Requests(Reversed(plan)), Requests(Reversed(plan[..n])), |plan| - n);
  }

  lemma NoneWithin(all: seq<nat>, part: seq<nat>, shift: nat)
    requires NoRepeats(all) && shift + |part| <= |all| && forall k :: 0 <= k < |part| ==> part[k] == all[shift + k]
    ensures NoRepeats(part)
  {
  }

  lemma MatchEnds(s: Bytes, plan: seq<Planned>, n: nat)
    requires Fits(s, plan) && n < |plan|
    ensures plan[n].end == plan[n].offset + |plan[n].oldText|
  {
  }

  lemma NothingDone(s: Bytes, plan: seq<Planned>)
    ensures Partly(s, plan, 0, s)
  {
    assert plan[..0] == [];
  }

  lemma AllDone(s: Bytes, plan: seq<Planned>, current: Bytes)
    requires Fits(s, plan) && Partly(s, plan, |plan|, current)
    ensures InOrder(s, Reversed(plan), 0) && current == Substituted(s, Reversed(plan), 0)
  {
    var from := if |plan| == 0 then |s| else plan[|plan| - 1].offset;
    assert plan[..|plan|] == plan;
    EarlierStart(s, Reversed(plan), 0, from);
  }

  lemma FitsInOrder(s: Bytes, plan: seq<Planned>)
    requires Fits(s, plan)
    ensures InOrder(s, Reversed(plan), 0)
  {
    var current, n := s, 0;
    NothingDone(s, plan);
    while n < |plan|
      invariant 0 <= n <= |plan| && Partly(s, plan, n, current)
    {
      hide Partly, InOrder, Fits;
      SpliceNext(s, plan, n, current);
      MatchEnds(s, plan, n);
      current := ReplaceAt(current, plan[n].offset, |plan[n].oldText|, plan[n].newText);
      n := n + 1;
    }
    AllDone(s, plan, current);
  }

  // ---------------------------------------------------------------- the order of the requests

  function Core(p: Planned): Planned {
    p.(request := 0)
  }

  function Cores(xs: seq<Planned>): (r: seq<Planned>)
    ensures |r| == |xs| && forall k :: 0 <= k < |xs| ==> r[k] == Core(xs[k])
  {
    seq(|xs|, k requires 0 <= k < |xs| => Core(xs[k]))
  }

  ghost predicate Falling(xs: seq<Planned>) {
    forall j, k :: 0 <= j < k < |xs| ==> xs[k].offset < xs[j].offset
  }

  lemma {:induction false} FallingUnique(a: seq<Planned>, b: seq<Planned>)
    requires Falling(a) && Falling(b) && forall x :: x in a <==> x in b
    ensures a == b
  {
    assert |b| > 0 ==> b[0] in b;
    if |a| > 0 {
      assert a[0] in b && b[0] in a && a[0] == b[0];
      forall x ensures x in a[1..] <==> x in b[1..] {
        assert x in a && x != a[0] <==> x in a[1..];
        assert x in b && x != b[0] <==> x in b[1..];
      }
      FallingUnique(a[1..], b[1..]);
      assert a == [a[0]] + a[1..] && b == [b[0]] + b[1..];
    }
  }

  /** The matches of permuted requests differ in request numbers only. */
  lemma PlansHaveTheSameCores(s: Bytes, a: seq<Change>, b: seq<Change>, p: seq<Planned>, q: seq<Planned>)
    requires multiset(a) == multiset(b) && IsPlan(s, a, p) && IsPlan(s, b, q)
    ensures Cores(p) == Cores(q)
  {
    CoresWithin(s, a, b, p, q);
    CoresWithin(s, b, a, q, p);
    CoresFall(s, a, p);
    CoresFall(s, b, q);
    FallingUnique(Cores(p), Cores(q));
  }

  lemma CoresWithin(s: Bytes, a: seq<Change>, b: seq<Change>, p: seq<Planned>, q: seq<Planned>)
    requires multiset(a) == multiset(b) && IsPlan(s, a, p) && IsPlan(s, b, q)
    ensures forall x :: x in Cores(p) ==> x in Cores(q)
  {
    forall x | x in Cores(p) ensures x in Cores(q) {
      var k :| 0 <= k < |p| && Cores(p)[k] == x;
      assert p[k] in p;
      var i :| 0 <= i < |a| && p[k] == PlannedAt(s, a, i);
      assert a[i] in multiset(b);
      var j :| 0 <= j < |b| && b[j] == a[i];
      assert PlannedAt(s, b, j) in q;
      var l :| 0 <= l < |q| && q[l] == PlannedAt(s, b, j);
      assert Cores(q)[l] == x;
    }
  }

  lemma CoresFall(s: Bytes, edits: seq<Change>, plan: seq<Planned>)
    requires IsPlan(s, edits, plan)
    ensures Falling(Cores(plan))
  {
    forall j, k | 0 <= j < k < |plan| ensures plan[k].offset < plan[j].offset {
      assert plan[k] in plan;
      var i :| 0 <= i < |edits| && plan[k] == PlannedAt(s, edits, i);
      assert edits[i].oldText != [];
    }
  }

  lemma {:induction false} ReversedCores(p: seq<Planned>, q: seq<Planned>)
    requires Cores(p) == Cores(q)
    ensures Cores(Reversed(p)) == Cores(Reversed(q))
  {
    assert |p| == |Cores(p)| == |q|;
    if |p| > 0 {
      var n := |p| - 1;
      assert Cores(p[..n]) == Cores(p)[..n] && Cores(q[..n]) == Cores(q)[..n];
      ReversedCores(p[..n], q[..n]);
      assert Cores(p)[n] == Cores(q)[n];
      assert Cores(Reversed(p)) == [Core(p[n])] + Cores(Reversed(p[..n]));
      assert Cores(Reversed(q)) == [Core(q[n])] + Cores(Reversed(q[..n]));
    }
  }

  lemma {:induction false} SubstitutedByCores(s: Bytes, p: seq<Planned>, q: seq<Planned>, pos: nat)
    requires Cores(p) == Cores(q) && pos <= |s| && InOrder(s, p, pos)
    ensures InOrder(s, q, pos) && Substituted(s, p, pos) == Substituted(s, q, pos)
    decreases |p|
  {
    assert |p| == |Cores(p)| == |q|;
    if |p| > 0 {
      assert Cores(p)[0] == Cores(q)[0];
      assert Cores(p[1..]) == Cores(p)[1..] && Cores(q[1..]) == Cores(q)[1..];
      SubstitutedByCores(s, p[1..], q[1..], p[0].end);
    }
  }

  /** Whether a batch is accepted, and what it makes of the text, does not depend on the order of its requests. */
  lemma OrderDoesNotMatter(s: Bytes, a: seq<Change>, b: seq<Change>, p: seq<Planned>, q: seq<Planned>)
    requires multiset(a) == multiset(b)
    ensures Acceptable(s, a) <==> Acceptable(s, b)
    ensures IsPlan(s, a, p) && IsPlan(s, b, q) ==>
              && InOrder(s, Reversed(p), 0) && InOrder(s, Reversed(q), 0)
              && Substituted(s, Reversed(p), 0) == Substituted(s, Reversed(q), 0)
  {
    if Acceptable(s, a) { AcceptableInAnyOrder(s, a, b); }
    if Acceptable(s, b) { AcceptableInAnyOrder(s, b, a); }
    hide Acceptable;
    if IsPlan(s, a, p) && IsPlan(s, b, q) {
      PlanFits(s, a, p);
      FitsInOrder(s, p);
      PlansHaveTheSameCores(s, a, b, p, q);
      hide IsPlan;
      ReversedCores(p, q);
      SubstitutedByCores(s, Reversed(p), Reversed(q), 0);
    }
  }

  lemma AcceptableHasNoRepeats(s: Bytes, edits: seq<Change>)
    requires Acceptable(s, edits)
    ensures NoRepeats(edits)
  {
    forall i, j | 0 <= i < j < |edits| ensures edits[i] != edits[j] {
      assert Apart(PlannedAt(s, edits, i), PlannedAt(s, edits, j));
    }
  }

  lemma AcceptableInAnyOrder(s: Bytes, a: seq<Change>, b: seq<Change>)
    requires multiset(a) == multiset(b) && Acceptable(s, a)
    ensures Acceptable(s, b)
  {
    AcceptableHasNoRepeats(s, a);
    forall i | 0 <= i < |b| ensures exists k :: 0 <= k < |a| && a[k] == b[i] {
      assert b[i] in multiset(a);
    }
    forall i, j | 0 <= i < j < |b| ensures Apart(PlannedAt(s, b, i), PlannedAt(s, b, j)) {
      var k :| 0 <= k < |a| && a[k] == b[i];
      var l :| 0 <= l < |a| && a[l] == b[j];
      AtMostOnce(a, b[i]);
      if b[i] == b[j] { Twice(b, i, j); }
      PairApart(s, a, k, l);
    }
  }
}
