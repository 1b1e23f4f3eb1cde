/** The ranking evaluator `score`: for every track with a known clique, order
    all tracks by distance to it and record the sorted positions at which
    tracks of its own clique appear, except the earliest such position. */
module Ranking {
  import opened Common

  /** The clique id of a track that belongs to no clique. */
  const NoClique: int := -1

  /** One slot of the result: `Inf` is the `np.inf` placeholder, `Found` the
      sorted positions of same-clique tracks. */
  datatype Entry = Inf | Found(ranks: seq<nat>)

  /** The ranks an entry holds, none for `Inf`. */
  function RanksOf(e: Entry): seq<nat>
  {
    if e.Found? then e.ranks else []
  }

  predicate StrictlyIncreasing(s: seq<nat>)
  {
    forall a, b :: 0 <= a < b < |s| ==> s[a] < s[b]
  }

  predicate InRange(s: seq<nat>, m: nat)
  {
    forall k :: 0 <= k < |s| ==> s[k] < m
  }

  /** 0, 1, ..., m - 1. */
  function Indices(m: nat): (r: seq<nat>)
    ensures |r| == m && forall k :: 0 <= k < m ==> r[k] == k
  {
    if m == 0 then [] else Indices(m - 1) + [m - 1]
  }

  /** Every position 0 .. m-1 occurs in s exactly once. */
  predicate IsPermutation(s: seq<nat>, m: nat)
  {
    multiset(s) == multiset(Indices(m))
  }

  /** s is a possible result of `np.argsort(row)`: the positions of row,
      each once, in non-decreasing order of value. The default sort of numpy
      is not stable, so ties may come out in any order. */
  predicate IsArgsort(row: seq<real>, s: seq<nat>)
  {
    && IsPermutation(s, |row|)
    && InRange(s, |row|)
    && forall a, b :: 0 <= a < b < |s| ==> row[s[a]] <= row[s[b]]
  }

  /** The distances from track i to every track (`distance.cdist` on row i),
      for an abstract distance between feature vectors. */
  function DistRow<F>(feats: seq<F>, dist: (F, F) -> real, i: nat): (row: seq<real>)
    requires i < |feats|
    ensures |row| == |feats| && row[i] == dist(feats[i], feats[i])
    ensures forall j :: 0 <= j < |feats| ==> row[j] == dist(feats[i], feats[j])
  {
    seq(|feats|, j requires 0 <= j < |feats| => dist(feats[i], feats[j]))
  }

  /** `clique_ids[s]`: the clique ids in sorted order. */
  function Reorder(xs: seq<int>, s: seq<nat>): (r: seq<int>)
    requires InRange(s, |xs|)
    ensures |r| == |s| && forall k :: 0 <= k < |s| ==> r[k] == xs[s[k]]
  {
    seq(|s|, k requires 0 <= k < |s| => xs[s[k]])
  }

  /** `np.argwhere(xs == c)` on a one-dimensional array: the positions that
      hold c, ascending, one per occurrence. */
  function MatchPositions(xs: seq<int>, c: int): (r: seq<nat>)
    ensures StrictlyIncreasing(r)
    ensures forall k :: 0 <= k < |r| ==> r[k] < |xs| && xs[r[k]] == c
    ensures forall p :: 0 <= p < |xs| && xs[p] == c ==> p in r
    ensures |r| == multiset(xs)[c]
  {
    if |xs| == 0 then []
    else
      var init := xs[..|xs| - 1];
      assert xs == init + [xs[|xs| - 1]];
      var m := MatchPositions(init, c);
      if xs[|xs| - 1] == c then m + [|xs| - 1] else m
  }

  /** The first position holding c comes before every other one. */
  lemma FirstMatchIsEarliest(xs: seq<int>, c: int, p: nat)
    requires |MatchPositions(xs, c)| > 0 && p < |xs| && xs[p] == c
    ensures MatchPositions(xs, c)[0] <= p
  {
    var m := MatchPositions(xs, c);
    var k :| 0 <= k < |m| && m[k] == p;
  }

  lemma DropEarliest(xs: seq<int>, c: int, p: nat)
    requires |MatchPositions(xs, c)| > 0 && p < |xs|
    ensures p in MatchPositions(xs, c)[1..] <==> xs[p] == c && exists e :: 0 <= e < p && xs[e] == c
  {
    var m := MatchPositions(xs, c);
    var r := m[1..];
    if p in r {
      var k :| 0 <= k < |r| && r[k] == p;
      assert m[0] < m[k + 1];
    }
    if xs[p] == c && exists e :: 0 <= e < p && xs[e] == c {
      var e :| 0 <= e < p && xs[e] == c;
      FirstMatchIsEarliest(xs, c, e);
      var k :| 0 <= k < |m| && m[k] == p;
      assert k != 0;
      assert r[k - 1] == p;
    }
  }

  /** `np.argwhere(xs == c)[1:]`: every position holding c except the
      earliest. A position is kept exactly when it holds c and some earlier
      position holds c too; there is one fewer than there are c's. */
  function RankList(xs: seq<int>, c: int): (r: seq<nat>)
    ensures StrictlyIncreasing(r)
    ensures forall k :: 0 <= k < |r| ==> 1 <= r[k] < |xs| && xs[r[k]] == c
    ensures forall p :: 0 <= p < |xs| ==>
              (p in r <==> xs[p] == c && exists e :: 0 <= e < p && xs[e] == c)
    ensures multiset(xs)[c] == 0 ==> r == []
    ensures multiset(xs)[c] > 0 ==> |r| == multiset(xs)[c] - 1
  {
    var m := MatchPositions(xs, c);
    if |m| == 0 then
      assert forall p :: 0 <= p < |xs| ==> xs[p] != c;
      []
    else
      forall p | 0 <= p < |xs| ensures p in m[1..] <==> xs[p] == c && exists e :: 0 <= e < p && xs[e] == c {
        DropEarliest(xs, c, p);
      }
      assert forall k :: 1 <= k < |m| ==> m[0] < m[k];
      m[1..]
  }

  /** How many tracks belong to clique c. */
  function CliqueSize(cliqueIds: seq<int>, c: int): nat
  {
    multiset(cliqueIds)[c]
  }

  /** What `score` stores for query i when the argsort of its distance row
      is s: the rank list, or `Inf` when it is empty. */
  function QueryEntry(cliqueIds: seq<int>, s: seq<nat>, i: nat): Entry
    requires i < |cliqueIds| && InRange(s, |cliqueIds|)
  {
    var r := RankList(Reorder(cliqueIds, s), cliqueIds[i]);
    if |r| > 0 then Found(r) else Inf
  }

  // ---------------------------------------------------------------------------
  // Reordering by a permutation keeps the multiset of clique ids
  // ---------------------------------------------------------------------------

  lemma ReorderConcat(xs: seq<int>, u: seq<nat>, v: seq<nat>)
    requires InRange(u, |xs|) && InRange(v, |xs|)
    ensures InRange(u + v, |xs|)
    ensures Reorder(xs, u + v) == Reorder(xs, u) + Reorder(xs, v)
  {
  }

  lemma MultisetRemoveFirst(a: seq<nat>, b: seq<nat>, j: nat)
    requires |a| > 0 && j < |b| && b[j] == a[0] && multiset(a) == multiset(b)
    ensures multiset(a[1..]) == multiset(b[..j] + b[j + 1..])
  {
    var x := a[0];
    var b1, b2 := b[..j], b[j + 1..];
    assert b == b1 + [x] + b2;
    assert a == [x] + a[1..];
    assert multiset(a) == multiset{x} + multiset(a[1..]);
    assert multiset(b) == multiset(b1) + multiset{x} + multiset(b2);
    assert multiset(b1 + b2) == multiset(b1) + multiset(b2);
    assert multiset(a[1..]) == multiset(a) - multiset{x};
    assert multiset(b1 + b2) == multiset(b) - multiset{x};
  }

  lemma ReorderAround(xs: seq<int>, b: seq<nat>, j: nat)
    requires InRange(b, |xs|) && j < |b|
    ensures InRange(b[..j] + b[j + 1..], |xs|)
    ensures multiset(Reorder(xs, b)) == multiset(Reorder(xs, b[..j] + b[j + 1..])) + multiset{xs[b[j]]}
  {
    var b1, b2 := b[..j], b[j + 1..];
    assert b == b1 + [b[j]] + b2;
    ReorderConcat(xs, b1, [b[j]]);
    ReorderConcat(xs, b1 + [b[j]], b2);
    ReorderConcat(xs, b1, b2);
  }

  lemma {:induction false} ReorderSameMultiset(xs: seq<int>, a: seq<nat>, b: seq<nat>)
    requires InRange(a, |xs|) && InRange(b, |xs|)
    requires multiset(a) == multiset(b)
    ensures multiset(Reorder(xs, a)) == multiset(Reorder(xs, b))
    decreases |a|
  {
    if |a| == 0 {
      assert |multiset(b)| == 0;
    } else {
      assert a[0] in multiset(b);
      var j :| 0 <= j < |b| && b[j] == a[0];
      MultisetRemoveFirst(a, b, j);
      ReorderAround(xs, b, j);
      ReorderAround(xs, a, 0);
      assert a[..0] + a[1..] == a[1..];
      ReorderSameMultiset(xs, a[1..], b[..j] + b[j + 1..]);
    }
  }

  /** Sorting the clique ids by any permutation keeps how often each occurs. */
  lemma ReorderPermutation(xs: seq<int>, s: seq<nat>)
    requires IsPermutation(s, |xs|) && InRange(s, |xs|)
    ensures multiset(Reorder(xs, s)) == multiset(xs)
  {
    var id := Indices(|xs|);
    ReorderSameMultiset(xs, s, id);
    assert Reorder(xs, id) == xs;
  }

  /** The entry of query i, for ANY tie-breaking of the sort: the number of
      ranks is the size of the query's clique minus one, so the entry is `Inf`
      exactly when the query is alone in its clique; the ranks ascend
      strictly, lie in [1, M-1] and point at tracks of the query's clique. */
  lemma QueryEntryFacts(cliqueIds: seq<int>, s: seq<nat>, i: nat)
    requires i < |cliqueIds| && IsPermutation(s, |cliqueIds|) && InRange(s, |cliqueIds|)
    ensures QueryEntry(cliqueIds, s, i).Inf? <==> CliqueSize(cliqueIds, cliqueIds[i]) == 1
    ensures |RanksOf(QueryEntry(cliqueIds, s, i))| == CliqueSize(cliqueIds, cliqueIds[i]) - 1
    ensures StrictlyIncreasing(RanksOf(QueryEntry(cliqueIds, s, i)))
    ensures forall k :: 0 <= k < |RanksOf(QueryEntry(cliqueIds, s, i))| ==>
              var p := RanksOf(QueryEntry(cliqueIds, s, i))[k];
              1 <= p < |cliqueIds| && cliqueIds[s[p]] == cliqueIds[i]
  {
    var xs := Reorder(cliqueIds, s);
    ReorderPermutation(cliqueIds, s);
    assert cliqueIds[i] in multiset(cliqueIds);
  }

  lemma EntryInfIffSingleton(cliqueIds: seq<int>, s: seq<nat>, i: nat)
    requires i < |cliqueIds| && IsPermutation(s, |cliqueIds|) && InRange(s, |cliqueIds|)
    ensures QueryEntry(cliqueIds, s, i).Inf? <==> CliqueSize(cliqueIds, cliqueIds[i]) == 1
  {
    QueryEntryFacts(cliqueIds, s, i);
  }

  /** Two sorts that break ties differently give the query the same number of
      ranks, and agree on whether it is `Inf`. */
  lemma TieBreakingIrrelevant(cliqueIds: seq<int>, s1: seq<nat>, s2: seq<nat>, i: nat)
    requires i < |cliqueIds|
    requires IsPermutation(s1, |cliqueIds|) && InRange(s1, |cliqueIds|)
    requires IsPermutation(s2, |cliqueIds|) && InRange(s2, |cliqueIds|)
    ensures QueryEntry(cliqueIds, s1, i).Inf? == QueryEntry(cliqueIds, s2, i).Inf?
    ensures |RanksOf(QueryEntry(cliqueIds, s1, i))| == |RanksOf(QueryEntry(cliqueIds, s2, i))|
  {
    QueryEntryFacts(cliqueIds, s1, i);
    QueryEntryFacts(cliqueIds, s2, i);
  }

  // ---------------------------------------------------------------------------
  // The query itself comes first when its features are unique
  // ---------------------------------------------------------------------------

  lemma {:induction false} IndicesCount(m: nat, x: nat)
    ensures multiset(Indices(m))[x] == if x < m then 1 else 0
  {
    if m > 0 {
      var last: nat := m - 1;
      IndicesCount(last, x);
      assert multiset(Indices(m)) == multiset(Indices(last)) + multiset{last};
    }
  }

  lemma CountTwoPositions(s: seq<nat>, a: nat, b: nat)
    requires a < b < |s|
    ensures multiset(s)[s[a]] >= if s[a] == s[b] then 2 else 1
  {
    var u, v, w := s[..a], s[a + 1..b], s[b + 1..];
    assert s == u + [s[a]] + v + [s[b]] + w;
  }

  /** A permutation lists no position twice. */
  lemma PermutationDistinct(s: seq<nat>, m: nat, a: nat, b: nat)
    requires IsPermutation(s, m) && a < b < |s|
    ensures s[a] != s[b]
  {
    IndicesCount(m, s[a]);
    CountTwoPositions(s, a, b);
  }

  /** When the query's own distance is 0 and every other track is strictly
      farther, every argsort puts the query at position 0. */
  lemma SelfSortedFirst(row: seq<real>, s: seq<nat>, i: nat)
    requires IsArgsort(row, s) && i < |row|
    requires row[i] == 0.0
    requires forall j :: 0 <= j < |row| && j != i ==> row[j] > 0.0
    ensures |s| > 0 && s[0] == i
  {
    IndicesCount(|row|, i);
    assert i in multiset(s);
    var p :| 0 <= p < |s| && s[p] == i;
    assert row[s[0]] <= row[s[p]];
  }

  /** With a distance that is 0 from a track to itself and positive between
      distinct feature vectors, a query whose features no other track shares
      is never counted as its own match: its ranks are exactly the sorted
      positions from 1 on that hold another track of its clique. */
  lemma SelfNeverCounted<F>(feats: seq<F>, dist: (F, F) -> real, cliqueIds: seq<int>, s: seq<nat>, i: nat)
    requires |feats| == |cliqueIds| && i < |feats|
    requires IsArgsort(DistRow(feats, dist, i), s)
    requires dist(feats[i], feats[i]) == 0.0
    requires forall j :: 0 <= j < |feats| && feats[j] != feats[i] ==> dist(feats[i], feats[j]) > 0.0
    requires forall j :: 0 <= j < |feats| && j != i ==> feats[j] != feats[i]
    ensures forall p :: 1 <= p < |s| ==>
              (p in RanksOf(QueryEntry(cliqueIds, s, i)) <==> cliqueIds[s[p]] == cliqueIds[i])
    ensures forall k :: 0 <= k < |RanksOf(QueryEntry(cliqueIds, s, i))| ==>
              s[RanksOf(QueryEntry(cliqueIds, s, i))[k]] != i
  {
    var row := DistRow(feats, dist, i);
    SelfSortedFirst(row, s, i);
    var xs := Reorder(cliqueIds, s);
    assert xs[0] == cliqueIds[i];
    var r := RanksOf(QueryEntry(cliqueIds, s, i));
    assert r == RankList(xs, cliqueIds[i]);
    forall k | 0 <= k < |r| ensures s[r[k]] != i {
      PermutationDistinct(s, |row|, 0, r[k]);
    }
  }

  // ---------------------------------------------------------------------------
  // One valid argsort always exists
  // ---------------------------------------------------------------------------

  predicate SortedBy(row: seq<real>, s: seq<nat>)
    requires InRange(s, |row|)
  {
    forall a, b :: 0 <= a < b < |s| ==> row[s[a]] <= row[s[b]]
  }

  /** Inserts position j after every position whose value is at most row[j]. */
  function InsertByKey(row: seq<real>, sorted: seq<nat>, j: nat): (r: seq<nat>)
    requires InRange(sorted, |row|) && j < |row| && SortedBy(row, sorted)
    ensures multiset(r) == multiset(sorted) + multiset{j}
    ensures InRange(r, |row|) && SortedBy(row, r)
    decreases |sorted|
  {
    if |sorted| == 0 then [j]
    else if row[j] < row[sorted[0]] then
      BelowAll(row, j, sorted);
      [j] + sorted
    else
      var rest := InsertByKey(row, sorted[1..], j);
      assert sorted == [sorted[0]] + sorted[1..];
      HeadBelowInsert(row, sorted, j, rest);
      [sorted[0]] + rest
  }

  /** A position whose value is at most the first of a sorted list is at
      most all of them, and may go in front. */
  lemma BelowAll(row: seq<real>, j: nat, sorted: seq<nat>)
    requires InRange(sorted, |row|) && j < |row| && SortedBy(row, sorted)
    requires |sorted| > 0 && row[j] <= row[sorted[0]]
    ensures InRange([j] + sorted, |row|) && SortedBy(row, [j] + sorted)
  {
    var r := [j] + sorted;
    forall a, b | 0 <= a < b < |r|
      ensures row[r[a]] <= row[r[b]]
    {
      if a == 0 {
        assert row[sorted[0]] <= row[sorted[b - 1]];
      } else {
        assert r[a] == sorted[a - 1] && r[b] == sorted[b - 1];
      }
    }
  }

  /** The head of a sorted list stays in front of the rest with j inserted,
      when its value is at most row[j]. */
  lemma HeadBelowInsert(row: seq<real>, sorted: seq<nat>, j: nat, rest: seq<nat>)
    requires InRange(sorted, |row|) && j < |row| && SortedBy(row, sorted)
    requires |sorted| > 0 && row[sorted[0]] <= row[j]
    requires InRange(rest, |row|) && SortedBy(row, rest)
    requires multiset(rest) == multiset(sorted[1..]) + multiset{j}
    ensures InRange([sorted[0]] + rest, |row|) && SortedBy(row, [sorted[0]] + rest)
  {
    forall k | 0 <= k < |rest|
      ensures row[sorted[0]] <= row[rest[k]]
    {
      assert rest[k] in multiset(rest);
      if rest[k] != j {
        assert rest[k] in multiset(sorted[1..]);
        var m :| 0 <= m < |sorted[1..]| && sorted[1..][m] == rest[k];
        assert sorted[m + 1] == rest[k];
      }
    }
    var r := [sorted[0]] + rest;
    forall a, b | 0 <= a < b < |r|
      ensures row[r[a]] <= row[r[b]]
    {
      if a > 0 {
        assert r[a] == rest[a - 1] && r[b] == rest[b - 1];
      }
    }
  }

  /** Insertion sort of the positions 0 .. m-1 of row by value. */
  function ArgsortPrefix(row: seq<real>, m: nat): (s: seq<nat>)
    requires m <= |row|
    ensures multiset(s) == multiset(Indices(m))
    ensures InRange(s, |row|) && SortedBy(row, s)
  {
    if m == 0 then [] else InsertByKey(row, ArgsortPrefix(row, m - 1), m - 1)
  }

  /** An argsort of any distance row: the evaluator's precondition on the
      orders it is given can always be met. */
  function InsertionArgsort(row: seq<real>): (s: seq<nat>)
    ensures IsArgsort(row, s)
  {
    ArgsortPrefix(row, |row|)
  }

  // ---------------------------------------------------------------------------
  // The evaluator loop
  // ---------------------------------------------------------------------------

  /** The positions of the tracks that have a clique, in order: the queries
      `score` answers, one result slot each. */
  function Queries(cliqueIds: seq<int>): (q: seq<nat>)
    ensures StrictlyIncreasing(q)
    ensures forall k :: 0 <= k < |q| ==> q[k] < |cliqueIds| && cliqueIds[q[k]] != NoClique
  {
    if |cliqueIds| == 0 then []
    else
      var init := cliqueIds[..|cliqueIds| - 1];
      var q := Queries(init);
      if cliqueIds[|cliqueIds| - 1] != NoClique then q + [|cliqueIds| - 1] else q
  }

  /** Every query's order is some permutation of the track positions. */
  predicate ValidOrders(cliqueIds: seq<int>, orders: seq<seq<nat>>)
  {
    && |orders| == |cliqueIds|
    && forall i :: 0 <= i < |cliqueIds| && cliqueIds[i] != NoClique ==>
         IsPermutation(orders[i], |cliqueIds|) && InRange(orders[i], |cliqueIds|)
  }

  /** Every query's order is an argsort of its distance row. */
  predicate ArgsortsOf<F>(feats: seq<F>, dist: (F, F) -> real, cliqueIds: seq<int>, orders: seq<seq<nat>>)
  {
    && |feats| == |cliqueIds| == |orders|
    && forall i :: 0 <= i < |cliqueIds| && cliqueIds[i] != NoClique ==>
         IsArgsort(DistRow(feats, dist, i), orders[i])
  }

  lemma ArgsortsAreValidOrders<F>(feats: seq<F>, dist: (F, F) -> real, cliqueIds: seq<int>, orders: seq<seq<nat>>)
    requires ArgsortsOf(feats, dist, cliqueIds, orders)
    ensures ValidOrders(cliqueIds, orders)
  {
    forall i | 0 <= i < |cliqueIds| && cliqueIds[i] != NoClique
      ensures IsPermutation(orders[i], |cliqueIds|) && InRange(orders[i], |cliqueIds|)
    {
      assert IsArgsort(DistRow(feats, dist, i), orders[i]);
    }
  }

  /** The result slots `score` should produce: slot k holds the entry of the
      k-th track that has a clique, and slots no query reaches hold `Inf`. */
  function Expected(cliqueIds: seq<int>, orders: seq<seq<nat>>, n: nat): (stats: seq<Entry>)
    requires ValidOrders(cliqueIds, orders)
    ensures |stats| == n
  {
    var qs := Queries(cliqueIds);
    seq(n, k requires 0 <= k < n =>
      if k < |qs| then
        assert cliqueIds[qs[k]] != NoClique;
        QueryEntry(cliqueIds, orders[qs[k]], qs[k])
      else Inf)
  }

  /** The first q slots of e, the rest `Inf`: the result container after q
      queries. */
  function FilledUpTo(e: seq<Entry>, q: nat): (r: seq<Entry>)
    ensures |r| == |e|
  {
    seq(|e|, k requires 0 <= k < |e| => if k < q then e[k] else Inf)
  }

  lemma FilledStep(e: seq<Entry>, q: nat)
    ensures q < |e| && e[q] != Inf ==> FilledUpTo(e, q)[q := e[q]] == FilledUpTo(e, q + 1)
    ensures q >= |e| || e[q] == Inf ==> FilledUpTo(e, q) == FilledUpTo(e, q + 1)
  {
  }

  /** `IndexError` from `stats[q] = r` when q is past the last slot. */
  datatype ScoreError = SlotOutOfRange(query: nat)

  /** The evaluator of cover_id_test.py with n result slots. The tracks with
      no clique are skipped without using a slot; the k-th remaining track
      fills slot k with its entry, so an entry is `Inf` exactly when its
      query is alone in its clique. The run fails exactly when some query
      past the last slot is not alone in its clique (only a non-empty rank
      list is written), and then at the first such query; q is the final
      value of the query counter. */
  method Score<F>(feats: seq<F>, cliqueIds: seq<int>, n: nat, dist: (F, F) -> real, orders: seq<seq<nat>>)
    returns (r: Result<seq<Entry>, ScoreError>, q: nat)
    requires ArgsortsOf(feats, dist, cliqueIds, orders)
    ensures ValidOrders(cliqueIds, orders)
    ensures r.Ok? <==> forall k :: n <= k < |Queries(cliqueIds)| ==>
              CliqueSize(cliqueIds, cliqueIds[Queries(cliqueIds)[k]]) == 1
    ensures r.Ok? ==> q == |Queries(cliqueIds)| && r.value == Expected(cliqueIds, orders, n)
    ensures r.Ok? ==> forall k :: 0 <= k < n && k < q ==>
              (r.value[k].Inf? <==> CliqueSize(cliqueIds, cliqueIds[Queries(cliqueIds)[k]]) == 1)
    ensures r.Ok? ==> forall k :: q <= k < n ==> r.value[k] == Inf
    ensures r.Err? ==> n <= q == r.error.query < |Queries(cliqueIds)|
    ensures r.Err? ==> CliqueSize(cliqueIds, cliqueIds[Queries(cliqueIds)[q]]) > 1
    ensures r.Err? ==> forall k :: n <= k < q ==> CliqueSize(cliqueIds, cliqueIds[Queries(cliqueIds)[k]]) == 1
  {
    ArgsortsAreValidOrders(feats, dist, cliqueIds, orders);
    r, q := ScoreLoop(cliqueIds, n, orders);
  }

  /** The number of result slots of uri_SHS_test.py's evaluator. */
  const UriSlots: nat := 5236

  /** uri_SHS_test.py's `score`: the same loop over exactly 5236 slots. */
  method UriScore<F>(feats: seq<F>, cliqueIds: seq<int>, dist: (F, F) -> real, orders: seq<seq<nat>>)
    returns (r: Result<seq<Entry>, ScoreError>)
    requires ArgsortsOf(feats, dist, cliqueIds, orders)
    ensures ValidOrders(cliqueIds, orders)
    ensures r.Ok? <==> forall k :: UriSlots <= k < |Queries(cliqueIds)| ==>
              CliqueSize(cliqueIds, cliqueIds[Queries(cliqueIds)[k]]) == 1
    ensures r.Ok? ==> |r.value| == UriSlots && r.value == Expected(cliqueIds, orders, UriSlots)
    ensures r.Err? ==> UriSlots <= r.error.query < |Queries(cliqueIds)|
    ensures r.Err? ==> CliqueSize(cliqueIds, cliqueIds[Queries(cliqueIds)[r.error.query]]) > 1
    ensures r.Err? ==> forall k :: UriSlots <= k < r.error.query ==>
              CliqueSize(cliqueIds, cliqueIds[Queries(cliqueIds)[k]]) == 1
  {
    var q;
    r, q := Score(feats, cliqueIds, UriSlots, dist, orders);
  }

  /** The queries numbered n .. q-1, which have no slot, are all alone in
      their cliques. */
  predicate SingletonsFrom(cliqueIds: seq<int>, n: nat, q: nat)
    requires q <= |Queries(cliqueIds)|
  {
    forall k :: n <= k < q ==> CliqueSize(cliqueIds, cliqueIds[Queries(cliqueIds)[k]]) == 1
  }

  /** The loop of `score`, over any permutations: the argsorts are only
      needed to say where the orders come from. */
  method ScoreLoop(cliqueIds: seq<int>, n: nat, orders: seq<seq<nat>>)
    returns (r: Result<seq<Entry>, ScoreError>, q: nat)
    requires ValidOrders(cliqueIds, orders)
    ensures r.Ok? <==> forall k :: n <= k < |Queries(cliqueIds)| ==>
              CliqueSize(cliqueIds, cliqueIds[Queries(cliqueIds)[k]]) == 1
    ensures r.Ok? ==> q == |Queries(cliqueIds)| && r.value == Expected(cliqueIds, orders, n)
    ensures r.Ok? ==> forall k :: 0 <= k < n && k < q ==>
              (r.value[k].Inf? <==> CliqueSize(cliqueIds, cliqueIds[Queries(cliqueIds)[k]]) == 1)
    ensures r.Ok? ==> forall k :: q <= k < n ==> r.value[k] == Inf
    ensures r.Err? ==> n <= q == r.error.query < |Queries(cliqueIds)|
    ensures r.Err? ==> CliqueSize(cliqueIds, cliqueIds[Queries(cliqueIds)[q]]) > 1
    ensures r.Err? ==> forall k :: n <= k < q ==> CliqueSize(cliqueIds, cliqueIds[Queries(cliqueIds)[k]]) == 1
  {
    var expected := Expected(cliqueIds, orders, n);
    var stats: seq<Entry> := seq(n, _ => Inf);
    assert stats == FilledUpTo(expected, 0);
    q := 0;
    var i := 0;
    while i < |cliqueIds|
      invariant 0 <= i <= |cliqueIds|
      invariant q == |Queries(cliqueIds[..i])| && q <= |Queries(cliqueIds)|
      invariant stats == FilledUpTo(expected, q)
      invariant SingletonsFrom(cliqueIds, n, q)
    {
      var overflow;
      stats, q, overflow := ScoreStep(cliqueIds, orders, n, i, stats, q);
      if overflow {
        ScoreOverflow(cliqueIds, n, q);
        return Err(SlotOutOfRange(q)), q;
      }
      i := i + 1;
    }
    assert cliqueIds[..i] == cliqueIds;
    ScoreFinished(cliqueIds, orders, n, stats, q);
    r := Ok(stats);
  }

  /** One iteration of the loop of `score`, for track i: a sentinel is
      skipped; any other track is the next query, and its rank list goes
      into its slot when non-empty, which overflows when there is no slot
      left. */
  method ScoreStep(cliqueIds: seq<int>, orders: seq<seq<nat>>, n: nat, i: nat, stats: seq<Entry>, q: nat)
    returns (stats': seq<Entry>, q': nat, overflow: bool)
    requires ValidOrders(cliqueIds, orders) && i < |cliqueIds|
    requires q == |Queries(cliqueIds[..i])| && q <= |Queries(cliqueIds)|
    requires stats == FilledUpTo(Expected(cliqueIds, orders, n), q)
    requires SingletonsFrom(cliqueIds, n, q)
    ensures overflow ==> q' == q && n <= q < |Queries(cliqueIds)| &&
                         CliqueSize(cliqueIds, cliqueIds[Queries(cliqueIds)[q]]) > 1
    ensures overflow ==> SingletonsFrom(cliqueIds, n, q')
    ensures !overflow ==> q' == |Queries(cliqueIds[..i + 1])| && q' <= |Queries(cliqueIds)|
    ensures !overflow ==> stats' == FilledUpTo(Expected(cliqueIds, orders, n), q')
    ensures !overflow ==> SingletonsFrom(cliqueIds, n, q')
  {
    if cliqueIds[i] == NoClique {
      QueriesSkip(cliqueIds, i);
      return stats, q, false;
    }
    var expected := Expected(cliqueIds, orders, n);
    var ranks := RankList(Reorder(cliqueIds, orders[i]), cliqueIds[i]);
    QueryStep(cliqueIds, orders, n, i, q);
    stats' := stats;
    if |ranks| > 0 {
      if q >= n {
        return stats, q, true;
      }
      stats' := stats[q := Found(ranks)];
    }
    FilledStep(expected, q);
    q' := q + 1;
    overflow := false;
  }

  /** A query with no slot whose clique has other members makes the run
      fail. */
  lemma ScoreOverflow(cliqueIds: seq<int>, n: nat, q: nat)
    requires n <= q < |Queries(cliqueIds)|
    requires CliqueSize(cliqueIds, cliqueIds[Queries(cliqueIds)[q]]) > 1
    ensures !forall k :: n <= k < |Queries(cliqueIds)| ==>
              CliqueSize(cliqueIds, cliqueIds[Queries(cliqueIds)[k]]) == 1
  {
  }

  /** After the last track: every query was answered, the container is the
      expected one, and its entries are `Inf` exactly for singleton cliques
      and for the slots no query reached. */
  lemma ScoreFinished(cliqueIds: seq<int>, orders: seq<seq<nat>>, n: nat, stats: seq<Entry>, q: nat)
    requires ValidOrders(cliqueIds, orders)
    requires q == |Queries(cliqueIds)| && SingletonsFrom(cliqueIds, n, q)
    requires stats == FilledUpTo(Expected(cliqueIds, orders, n), q)
    ensures forall k :: n <= k < |Queries(cliqueIds)| ==>
              CliqueSize(cliqueIds, cliqueIds[Queries(cliqueIds)[k]]) == 1
    ensures stats == Expected(cliqueIds, orders, n)
    ensures forall k :: 0 <= k < n && k < q ==>
              (stats[k].Inf? <==> CliqueSize(cliqueIds, cliqueIds[Queries(cliqueIds)[k]]) == 1)
    ensures forall k :: q <= k < n ==> stats[k] == Inf
  {
    var all := Queries(cliqueIds);
    var expected := Expected(cliqueIds, orders, n);
    assert stats == expected;
    forall k | 0 <= k < n && k < q
      ensures stats[k].Inf? <==> CliqueSize(cliqueIds, cliqueIds[all[k]]) == 1
    {
      EntryInfIffSingleton(cliqueIds, orders[all[k]], all[k]);
    }
  }

  /** A track with the sentinel clique id adds no query. */
  lemma QueriesSkip(cliqueIds: seq<int>, i: nat)
    requires i < |cliqueIds| && cliqueIds[i] == NoClique
    ensures Queries(cliqueIds[..i + 1]) == Queries(cliqueIds[..i])
  {
    assert cliqueIds[..i + 1][..i] == cliqueIds[..i];
  }

  /** Track i, when not a sentinel, is the query numbered by the queries
      before it. */
  lemma QueryIndex(cliqueIds: seq<int>, i: nat, q: nat)
    requires i < |cliqueIds| && cliqueIds[i] != NoClique
    requires q == |Queries(cliqueIds[..i])|
    ensures Queries(cliqueIds[..i + 1]) == Queries(cliqueIds[..i]) + [i]
    ensures q < |Queries(cliqueIds)| && Queries(cliqueIds)[q] == i
  {
    assert cliqueIds[..i + 1][..i] == cliqueIds[..i];
    QueriesPrefix(cliqueIds, i + 1);
    assert Queries(cliqueIds)[..q + 1][q] == i;
  }

  /** What one iteration of the loop needs to know about track i when the
      queries before it number q. */
  lemma QueryStep(cliqueIds: seq<int>, orders: seq<seq<nat>>, n: nat, i: nat, q: nat)
    requires ValidOrders(cliqueIds, orders)
    requires i < |cliqueIds| && cliqueIds[i] != NoClique
    requires q == |Queries(cliqueIds[..i])|
    ensures q + 1 == |Queries(cliqueIds[..i + 1])| && q < |Queries(cliqueIds)|
    ensures Queries(cliqueIds)[q] == i
    ensures var ranks := RankList(Reorder(cliqueIds, orders[i]), cliqueIds[i]);
            && (|ranks| == 0 <==> CliqueSize(cliqueIds, cliqueIds[i]) == 1)
            && (q < n ==> Expected(cliqueIds, orders, n)[q] == if |ranks| > 0 then Found(ranks) else Inf)
  {
    QueryIndex(cliqueIds, i, q);
    EntryInfIffSingleton(cliqueIds, orders[i], i);
  }

  /** Every track without the sentinel clique id is a query: as many
      queries as there are such tracks. */
  lemma {:induction false} QueriesCount(cliqueIds: seq<int>)
    ensures |Queries(cliqueIds)| == |cliqueIds| - multiset(cliqueIds)[NoClique]
    decreases |cliqueIds|
  {
    if |cliqueIds| > 0 {
      var init := cliqueIds[..|cliqueIds| - 1];
      assert cliqueIds == init + [cliqueIds[|cliqueIds| - 1]];
      QueriesCount(init);
    }
  }

  /** The queries among the first i tracks are the first queries overall. */
  lemma {:induction false} QueriesPrefix(cliqueIds: seq<int>, i: nat)
    requires i <= |cliqueIds|
    ensures |Queries(cliqueIds[..i])| <= |Queries(cliqueIds)|
    ensures Queries(cliqueIds)[..|Queries(cliqueIds[..i])|] == Queries(cliqueIds[..i])
    decreases |cliqueIds|
  {
    if i == |cliqueIds| {
      assert cliqueIds[..i] == cliqueIds;
    } else {
      var init := cliqueIds[..|cliqueIds| - 1];
      assert init[..i] == cliqueIds[..i];
      QueriesPrefix(init, i);
    }
  }
}
