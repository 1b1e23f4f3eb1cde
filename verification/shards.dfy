/** The shard arithmetic of `compute_codes`: worker N owns a block of 100,000
    track positions and walks it in ten shards of 10,000, naming each shard's
    output file after N and the shard's iteration number. */
module Shards {
  import opened Common
  import opened Text

  /** Track positions owned by one worker (`MAX` in cover_id_test.py). */
  const TracksPerWorker: nat := 100000
  /** Track positions per shard (`ITER`). */
  const TracksPerShard: nat := 10000
  /** Iterations per worker (`xrange(10)`). */
  const ShardsPerWorker: nat := 10

  /** The half-open range [start, end) of track positions. */
  datatype Range = Range(start: nat, end: nat) {
    predicate Contains(t: int) { start <= t < end }
  }

  /** The range of iteration `it` of worker `n`. */
  function ShardBounds(n: nat, it: nat): Range
  {
    var start := n * 100000 + it * 10000;
    Range(start, start + 10000)
  }

  /** The ten shards of worker `n`, in iteration order: each holds 10,000
      positions, neighbours abut, and together they run from the first to the
      last position of the worker's block. */
  function WorkerShards(n: nat): (r: seq<Range>)
    ensures |r| == ShardsPerWorker
    ensures forall it :: 0 <= it < |r| ==> r[it].end - r[it].start == TracksPerShard
    ensures r[0].start == n * TracksPerWorker
    ensures r[|r| - 1].end == (n + 1) * TracksPerWorker
    ensures forall it :: 0 <= it < |r| - 1 ==> r[it].end == r[it + 1].start
  {
    seq(10, it requires 0 <= it => ShardBounds(n, it))
  }

  /** The (worker, iteration) pair whose shard holds track position `t`. */
  function ShardOf(t: nat): (nat, nat)
  {
    (t / 100000, (t % 100000) / 10000)
  }

  lemma MulAtLeast(a: int, d: int)
    requires a >= 1 && d > 0
    ensures a * d >= d
  {
  }

  lemma DivModUnique(t: int, d: int, q: int, r: int)
    requires d > 0 && 0 <= r < d && t == q * d + r
    ensures t / d == q && t % d == r
  {
    var q', r' := t / d, t % d;
    assert (q - q') * d == r' - r;
    if q > q' {
      MulAtLeast(q - q', d);
    } else if q < q' {
      MulAtLeast(q' - q, d);
    }
  }

  /** A position lies in the shard of (n, it) exactly when ShardOf names that
      pair: so every position lies in exactly one of the shards with it < 10. */
  lemma ShardOfCharacterizes(t: nat, n: nat, it: nat)
    requires it < ShardsPerWorker
    ensures ShardBounds(n, it).Contains(t) <==> ShardOf(t) == (n, it)
  {
    var b := ShardBounds(n, it);
    if b.Contains(t) {
      DivModUnique(t, 100000, n, t - n * 100000);
      DivModUnique(t - n * 100000, 10000, it, t - b.start);
    }
    if ShardOf(t) == (n, it) {
      DivModUnique(t, 100000, t / 100000, t % 100000);
      DivModUnique(t % 100000, 10000, (t % 100000) / 10000, (t % 100000) % 10000);
    }
  }

  /** The ten shards of a worker tile its block: a position is in the block
      exactly when some shard holds it, and no two shards share a position. */
  lemma WorkerBlockTiled(n: nat, t: nat)
    ensures n * TracksPerWorker <= t < (n + 1) * TracksPerWorker
            <==> exists it :: 0 <= it < ShardsPerWorker && ShardBounds(n, it).Contains(t)
    ensures forall i, j :: 0 <= i < j < ShardsPerWorker ==>
              !(ShardBounds(n, i).Contains(t) && ShardBounds(n, j).Contains(t))
  {
    var (m, k) := ShardOf(t);
    assert k < ShardsPerWorker;
    ShardOfCharacterizes(t, m, k);
    if n * TracksPerWorker <= t < (n + 1) * TracksPerWorker {
      DivModUnique(t, 100000, n, t - n * 100000);
      assert ShardBounds(n, k).Contains(t);
    }
    forall it | 0 <= it < ShardsPerWorker && ShardBounds(n, it).Contains(t)
      ensures n * TracksPerWorker <= t < (n + 1) * TracksPerWorker
    {
    }
    forall i, j | 0 <= i < j < ShardsPerWorker
      ensures !(ShardBounds(n, i).Contains(t) && ShardBounds(n, j).Contains(t))
    {
      ShardOfCharacterizes(t, n, i);
      ShardOfCharacterizes(t, n, j);
    }
  }

  /** The shards of workers 0 .. workers-1 tile the positions below
      workers * 100,000, each position falling in exactly one shard. */
  lemma PoolTiled(workers: nat, t: nat)
    ensures t < workers * TracksPerWorker <==>
            exists n, it :: 0 <= n < workers && 0 <= it < ShardsPerWorker && ShardBounds(n, it).Contains(t)
    ensures forall n1, it1, n2, it2 ::
              0 <= it1 < ShardsPerWorker && 0 <= it2 < ShardsPerWorker &&
              ShardBounds(n1, it1).Contains(t) && ShardBounds(n2, it2).Contains(t)
              ==> n1 == n2 && it1 == it2
  {
    var (m, k) := ShardOf(t);
    ShardOfCharacterizes(t, m, k);
    if t < workers * TracksPerWorker {
      assert m < workers;
    }
    forall n, it | 0 <= n < workers && 0 <= it < ShardsPerWorker && ShardBounds(n, it).Contains(t)
      ensures t < workers * TracksPerWorker
    {
    }
    forall n1, it1, n2, it2 |
      0 <= it1 < ShardsPerWorker && 0 <= it2 < ShardsPerWorker &&
      ShardBounds(n1, it1).Contains(t) && ShardBounds(n2, it2).Contains(t)
      ensures n1 == n2 && it1 == it2
    {
      ShardOfCharacterizes(t, n1, it1);
      ShardOfCharacterizes(t, n2, it2);
    }
  }

  // ---------------------------------------------------------------------------
  // Shard file names
  // ---------------------------------------------------------------------------

  const CodesSuffix: string := "-msd-codes.pk"

  /** cover_id_test.py: the worker index padded to two digits when below 10,
      then the iteration, then the fixed suffix. */
  function ShardName(n: nat, it: nat): string
  {
    var strN := if n < 10 then "0" + NatToString(n) else NatToString(n);
    strN + NatToString(it) + CodesSuffix
  }

  /** uri_SHS_test.py: the worker index and the iteration with no padding. */
  function UriShardName(n: nat, it: nat): string
  {
    NatToString(n) + NatToString(it) + CodesSuffix
  }

  /** Reads a shard file name back: the digits before the last one are the
      worker index, the last digit before the suffix is the iteration. */
  function ParseShardName(name: string): (r: Option<(nat, nat)>)
    ensures r.Some? ==> r.value.1 < ShardsPerWorker
  {
    if |name| < |CodesSuffix| + 2 || name[|name| - |CodesSuffix|..] != CodesSuffix then None
    else
      var stem := name[..|name| - |CodesSuffix|];
      var prefix := stem[..|stem| - 1];
      var last := stem[|stem| - 1];
      if IsDigit(last) && AllDigits(prefix) then Some((DigitsValue(prefix), DigitValue(last)))
      else None
  }

  lemma ParseStem(strN: string, it: nat, n: nat)
    requires it < 10 && |strN| >= 1 && AllDigits(strN) && DigitsValue(strN) == n
    ensures ParseShardName(strN + NatToString(it) + CodesSuffix) == Some((n, it))
  {
    var name := strN + NatToString(it) + CodesSuffix;
    assert NatToString(it) == [DigitChar(it)];
    assert name[|name| - |CodesSuffix|..] == CodesSuffix;
    var stem := name[..|name| - |CodesSuffix|];
    assert stem == strN + [DigitChar(it)];
    assert stem[..|stem| - 1] == strN;
  }

  /** Parsing a cover_id_test.py shard name recovers (n, it). */
  lemma ShardNameRoundTrip(n: nat, it: nat)
    requires it < ShardsPerWorker
    ensures ParseShardName(ShardName(n, it)) == Some((n, it))
  {
    NatToStringRoundTrip(n);
    if n < 10 {
      var strN := "0" + NatToString(n);
      assert strN[..1] == "0";
      assert strN[..|strN| - 1] == "0";
      assert DigitsValue(strN) == n;
      ParseStem(strN, it, n);
    } else {
      ParseStem(NatToString(n), it, n);
    }
  }

  /** Parsing a uri_SHS_test.py shard name recovers (n, it). */
  lemma UriShardNameRoundTrip(n: nat, it: nat)
    requires it < ShardsPerWorker
    ensures ParseShardName(UriShardName(n, it)) == Some((n, it))
  {
    NatToStringRoundTrip(n);
    ParseStem(NatToString(n), it, n);
  }

  /** No two shards of any workers write the same file (cover_id_test.py). */
  lemma ShardNameInjective(n1: nat, it1: nat, n2: nat, it2: nat)
    requires it1 < ShardsPerWorker && it2 < ShardsPerWorker
    ensures ShardName(n1, it1) == ShardName(n2, it2) <==> n1 == n2 && it1 == it2
  {
    ShardNameRoundTrip(n1, it1);
    ShardNameRoundTrip(n2, it2);
  }

  /** No two shards write the same file in uri_SHS_test.py either, despite
      the missing padding. */
  lemma UriShardNameInjective(n1: nat, it1: nat, n2: nat, it2: nat)
    requires it1 < ShardsPerWorker && it2 < ShardsPerWorker
    ensures UriShardName(n1, it1) == UriShardName(n2, it2) <==> n1 == n2 && it1 == it2
  {
    UriShardNameRoundTrip(n1, it1);
    UriShardNameRoundTrip(n2, it2);
  }
}
