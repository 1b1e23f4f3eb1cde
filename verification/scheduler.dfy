/** `compute_codes`: worker n computes its ten shards in order and writes
    each to its own file; the first exception stops the worker, leaving the
    files already written. File writes are modelled as the list of
    (name, contents) pairs written so far. */
module Scheduler {
  import opened Common
  import opened Shards
  import opened CodeBuilder

  /** One shard file written: its name and what it holds. */
  datatype Saved = Saved(name: string, artifact: Artifact)

  /** What a worker leaves behind: the files written, in order, and the
      exception that stopped it, if any. */
  datatype WorkerRun = WorkerRun(saved: seq<Saved>, failure: Option<BuildError>)

  /** File s is the shard `it` of worker n: named after (n, it), holding the
      ids of the shard's range as Python slices them and matrices with one
      row per track of the range. */
  predicate ShardFile(s: Saved, name: string, n: nat, it: nat, trackIds: seq<string>, cliqueIds: seq<int>)
  {
    var b := ShardBounds(n, it);
    s.name == name &&
    s.artifact.trackIds == PySlice(trackIds, b.start, b.end) &&
    s.artifact.cliqueIds == PySlice(cliqueIds, b.start, b.end) &&
    forall j :: 0 <= j < |s.artifact.codes| ==> |s.artifact.codes[j].rows| == TracksPerShard
  }

  /** Every row of the artifact within its id slice is derived from the
      row of the same index of the given original codes, and is a
      placeholder where that row is one. */
  predicate DerivedFrom(a: Artifact, oc: seq<Option<Vector>>, m: Models, num: Numerics)
  {
    |a.trackIds| <= |oc| &&
    forall j, i :: 0 <= j < |a.codes| && 0 <= i < |a.trackIds| ==>
      i < |a.codes[j].rows| &&
      (oc[i].None? ==> a.codes[j].rows[i] == None) &&
      (oc[i].Some? ==> a.codes[j].rows[i] == CodeOf(Postprocess(m, num, oc[i].value, i), j))
  }

  /** The widths a cover_id_test.py shard gets once its builder succeeded. */
  function CoverWidths(d: string, m: Models): seq<nat>
  {
    if d == "" || m.lda.Some? then ReducedWidths
    else match ParseK(d)
      case Ok(k) => if k >= 0 then [k as nat] else []
      case Err(_) => []
  }

  /** The origcodes the builder of the shard file `name` receives: the rows
      of the first matrix of the same-named origcodes file, if one is used. */
  function OrigCodesOf(origSource: Option<string -> CodeMatrix>, name: string): Option<seq<Option<Vector>>>
  {
    if origSource.Some? then Some(origSource.value(name).rows) else None
  }

  /** Whether shard `it` of worker n of cover_id_test.py is written without
      raising: always with the PCA builder (an empty dictionary name);
      otherwise the name must parse, K must not be negative without LDA, and
      no row of the shard may raise. */
  predicate CoverShardSucceeds(n: nat, it: nat, trackIds: seq<string>, d: string,
                               origSource: Option<string -> CodeMatrix>, m: Models, num: Numerics)
  {
    var b := ShardBounds(n, it);
    d == "" ||
    (ParseK(d).Ok? && (m.lda.None? ==> ParseK(d).value >= 0) &&
     CoverFillSucceeds(m, num, PySlice(trackIds, b.start, b.end), OrigCodesOf(origSource, ShardName(n, it))))
  }

  /** One iteration of `compute_codes` of cover_id_test.py: the range and
      name of shard `it`, the first matrix of the same-named origcodes file
      (`origSource` maps a file name to it), then the builder the dictionary
      name selects. An empty name selects the PCA builder, which
      never raises; otherwise a malformed name or a negative K without LDA
      raises, and so does a row the builder cannot handle. The shard is
      written exactly when `CoverShardSucceeds` holds. */
  method CoverShard(n: nat, it: nat, trackIds: seq<string>, cliqueIds: seq<int>, d: string,
                    origSource: Option<string -> CodeMatrix>, m: Models, num: Numerics,
                    trainedPca: (Vector, nat) -> Vector)
    returns (r: Result<Saved, BuildError>)
    ensures d == "" ==> r.Ok?
    ensures r.Ok? <==> CoverShardSucceeds(n, it, trackIds, d, origSource, m, num)
    ensures r.Err? ==>
              d != "" &&
              (ParseK(d).Err? || (r.error == NegativeWidth && m.lda.None? && ParseK(d).value < 0) ||
               (r.error.OrigCodesTooShort? && origSource.Some?) ||
               (r.error.LdaTooShort? && m.lda.Some? && |m.lda.value| < 3))
    ensures d != "" && ParseK(d).Err? ==> r == Err(ParseK(d).error)
    ensures d != "" && ParseK(d).Ok? && m.lda.None? && ParseK(d).value < 0 ==> r == Err(NegativeWidth)
    ensures r.Ok? ==> ShardFile(r.value, ShardName(n, it), n, it, trackIds, cliqueIds)
    ensures r.Ok? && d != "" ==> ParseK(d).Ok?
    ensures r.Ok? ==> Widths(r.value.artifact.codes) == CoverWidths(d, m) && |CoverWidths(d, m)| > 0
    ensures r.Ok? && d != "" && origSource.Some? ==>
              DerivedFrom(r.value.artifact, origSource.value(ShardName(n, it)).rows, m, num)
  {
    var b := ShardBounds(n, it);
    var name := ShardName(n, it);
    var origcodes := OrigCodesOf(origSource, name);
    if d == "" {
      var a := ComputeCodesOrigIt(trackIds, cliqueIds, b.start, b.end, num, trainedPca);
      r := Ok(Saved(name, a));
    } else {
      var res := ComputeCodesIt(trackIds, cliqueIds, d, b.start, b.end, origcodes, m, num);
      if res.Err? {
        return Err(res.error);
      }
      r := Ok(Saved(name, res.value));
    }
  }

  /** The files written by shards 0 .. |saved|-1 of a cover_id_test.py
      worker, each of which succeeded. */
  predicate CoverPrefix(saved: seq<Saved>, n: nat, trackIds: seq<string>, cliqueIds: seq<int>, d: string,
                        origSource: Option<string -> CodeMatrix>, m: Models, num: Numerics)
  {
    forall k :: 0 <= k < |saved| ==>
      ShardFile(saved[k], ShardName(n, k), n, k, trackIds, cliqueIds) &&
      Widths(saved[k].artifact.codes) == CoverWidths(d, m) &&
      CoverShardSucceeds(n, k, trackIds, d, origSource, m, num) &&
      (d != "" && origSource.Some? ==>
         DerivedFrom(saved[k].artifact, origSource.value(ShardName(n, k)).rows, m, num))
  }

  /** `compute_codes` of cover_id_test.py: the ten shards of worker n in
      order, stopping at the first exception. With the PCA builder all ten
      files are written; a malformed dictionary name or a negative K without
      LDA stops the worker before its first file. All ten files are written
      exactly when every shard satisfies `CoverShardSucceeds`, and a worker
      that stops does so at the first shard that does not. */
  method ComputeCodes(n: nat, trackIds: seq<string>, cliqueIds: seq<int>, d: string,
                      origSource: Option<string -> CodeMatrix>, m: Models, num: Numerics,
                      trainedPca: (Vector, nat) -> Vector)
    returns (run: WorkerRun)
    ensures |run.saved| <= ShardsPerWorker
    ensures run.failure.None? <==> |run.saved| == ShardsPerWorker
    ensures d == "" ==> run.failure.None?
    ensures run.failure.None? <==>
              forall it :: 0 <= it < ShardsPerWorker ==> CoverShardSucceeds(n, it, trackIds, d, origSource, m, num)
    ensures run.failure.Some? ==> !CoverShardSucceeds(n, |run.saved|, trackIds, d, origSource, m, num)
    ensures run.failure.Some? ==>
              d != "" &&
              (ParseK(d).Err? || (run.failure.value == NegativeWidth && m.lda.None? && ParseK(d).value < 0) ||
               (run.failure.value.OrigCodesTooShort? && origSource.Some?) ||
               (run.failure.value.LdaTooShort? && m.lda.Some? && |m.lda.value| < 3))
    ensures forall it :: 0 <= it < |run.saved| ==>
              ShardFile(run.saved[it], ShardName(n, it), n, it, trackIds, cliqueIds) &&
              Widths(run.saved[it].artifact.codes) == CoverWidths(d, m)
    ensures d != "" && ParseK(d).Err? ==> run == WorkerRun([], Some(ParseK(d).error))
    ensures d != "" && ParseK(d).Ok? && m.lda.None? && ParseK(d).value < 0 ==>
              run == WorkerRun([], Some(NegativeWidth))
    ensures d != "" && origSource.Some? ==> forall it :: 0 <= it < |run.saved| ==>
              DerivedFrom(run.saved[it].artifact, origSource.value(ShardName(n, it)).rows, m, num)
  {
    run := RunCoverShards(n, trackIds, cliqueIds, d, origSource, m, num, trainedPca);
    assert |run.saved| > 0 ==> CoverShardSucceeds(n, 0, trackIds, d, origSource, m, num);
  }

  /** The loop of `compute_codes` of cover_id_test.py: every file written
      comes from a shard that succeeded, and a stop names the first shard
      that did not. */
  method RunCoverShards(n: nat, trackIds: seq<string>, cliqueIds: seq<int>, d: string,
                        origSource: Option<string -> CodeMatrix>, m: Models, num: Numerics,
                        trainedPca: (Vector, nat) -> Vector)
    returns (run: WorkerRun)
    ensures |run.saved| <= ShardsPerWorker
    ensures run.failure.None? <==> |run.saved| == ShardsPerWorker
    ensures CoverPrefix(run.saved, n, trackIds, cliqueIds, d, origSource, m, num)
    ensures run.failure.Some? ==> !CoverShardSucceeds(n, |run.saved|, trackIds, d, origSource, m, num)
    ensures run.failure.Some? ==>
              d != "" &&
              (ParseK(d).Err? || (run.failure.value == NegativeWidth && m.lda.None? && ParseK(d).value < 0) ||
               (run.failure.value.OrigCodesTooShort? && origSource.Some?) ||
               (run.failure.value.LdaTooShort? && m.lda.Some? && |m.lda.value| < 3))
    ensures d != "" && ParseK(d).Err? ==> run.failure == Some(ParseK(d).error)
    ensures d != "" && ParseK(d).Ok? && m.lda.None? && ParseK(d).value < 0 ==> run.failure == Some(NegativeWidth)
  {
    var saved: seq<Saved> := [];
    for it := 0 to ShardsPerWorker
      invariant |saved| == it
      invariant CoverPrefix(saved, n, trackIds, cliqueIds, d, origSource, m, num)
      invariant it > 0 && d != "" ==> ParseK(d).Ok? && (m.lda.None? ==> ParseK(d).value >= 0)
    {
      var res := CoverShard(n, it, trackIds, cliqueIds, d, origSource, m, num, trainedPca);
      if res.Err? {
        return WorkerRun(saved, Some(res.error));
      }
      CoverPrefixExtend(saved, res.value, n, trackIds, cliqueIds, d, origSource, m, num);
      saved := saved + [res.value];
    }
    run := WorkerRun(saved, None);
  }

  /** A file written by the next shard, which succeeded, extends the prefix. */
  lemma CoverPrefixExtend(saved: seq<Saved>, s: Saved, n: nat, trackIds: seq<string>, cliqueIds: seq<int>, d: string,
                          origSource: Option<string -> CodeMatrix>, m: Models, num: Numerics)
    requires CoverPrefix(saved, n, trackIds, cliqueIds, d, origSource, m, num)
    requires ShardFile(s, ShardName(n, |saved|), n, |saved|, trackIds, cliqueIds)
    requires Widths(s.artifact.codes) == CoverWidths(d, m)
    requires CoverShardSucceeds(n, |saved|, trackIds, d, origSource, m, num)
    requires d != "" && origSource.Some? ==> DerivedFrom(s.artifact, origSource.value(ShardName(n, |saved|)).rows, m, num)
    ensures CoverPrefix(saved + [s], n, trackIds, cliqueIds, d, origSource, m, num)
  {
  }

  /** Whether shard `it` of worker n of uri_SHS_test.py is written without
      raising: the dictionary name must parse and, without an LDA list of at
      least three models, no extraction in the shard may succeed. */
  predicate UriShardSucceeds(n: nat, it: nat, trackIds: seq<string>, d: string,
                             lda: Option<seq<Vector -> Vector>>, num: Numerics)
  {
    var b := ShardBounds(n, it);
    ParseK(d).Ok? && UriFillSucceeds(lda, num, PySlice(trackIds, b.start, b.end))
  }

  /** One iteration of `compute_codes` of uri_SHS_test.py: the range and
      unpadded name of shard `it`, then the builder. The shard is written
      exactly when `UriShardSucceeds` holds; otherwise the exception is a
      malformed dictionary name or a missing or short LDA list. */
  method UriShard(n: nat, it: nat, trackIds: seq<string>, cliqueIds: seq<int>, d: string,
                  lda: Option<seq<Vector -> Vector>>, num: Numerics)
    returns (r: Result<Saved, BuildError>)
    ensures r.Ok? <==> UriShardSucceeds(n, it, trackIds, d, lda, num)
    ensures r.Err? ==>
              ParseK(d).Err? || (r.error.LdaNotLoaded? && lda.None?) ||
              (r.error.LdaTooShort? && lda.Some? && |lda.value| < 3)
    ensures ParseK(d).Err? ==> r == Err(ParseK(d).error)
    ensures r.Ok? ==> ShardFile(r.value, UriShardName(n, it), n, it, trackIds, cliqueIds)
    ensures r.Ok? ==> Widths(r.value.artifact.codes) == ReducedWidths
  {
    var b := ShardBounds(n, it);
    var res := UriComputeCodesIt(trackIds, cliqueIds, d, lda, b.start, b.end, num);
    if res.Err? {
      return Err(res.error);
    }
    r := Ok(Saved(UriShardName(n, it), res.value));
  }

  /** The files written by shards 0 .. |saved|-1 of a uri_SHS_test.py worker,
      each of which succeeded. */
  predicate UriPrefix(saved: seq<Saved>, n: nat, trackIds: seq<string>, cliqueIds: seq<int>, d: string,
                      lda: Option<seq<Vector -> Vector>>, num: Numerics)
  {
    forall k :: 0 <= k < |saved| ==>
      ShardFile(saved[k], UriShardName(n, k), n, k, trackIds, cliqueIds) &&
      Widths(saved[k].artifact.codes) == ReducedWidths &&
      UriShardSucceeds(n, k, trackIds, d, lda, num)
  }

  /** `compute_codes` of uri_SHS_test.py: the ten shards under the unpadded
      names, always with three LDA matrices. A malformed dictionary name stops
      the worker before its first file; without an LDA list of at least three
      models it stops at the first shard where an extraction succeeds. All ten
      files are written exactly when every shard satisfies `UriShardSucceeds`,
      and a worker that stops does so at the first shard that does not. */
  method UriComputeCodes(n: nat, trackIds: seq<string>, cliqueIds: seq<int>, d: string,
                         lda: Option<seq<Vector -> Vector>>, num: Numerics)
    returns (run: WorkerRun)
    ensures |run.saved| <= ShardsPerWorker
    ensures run.failure.None? <==> |run.saved| == ShardsPerWorker
    ensures forall it :: 0 <= it < |run.saved| ==>
              ShardFile(run.saved[it], UriShardName(n, it), n, it, trackIds, cliqueIds) &&
              Widths(run.saved[it].artifact.codes) == ReducedWidths
    ensures ParseK(d).Err? ==> run == WorkerRun([], Some(ParseK(d).error))
    ensures run.failure.Some? && lda.Some? && |lda.value| >= 3 ==> ParseK(d).Err?
    ensures run.failure.None? <==>
              forall it :: 0 <= it < ShardsPerWorker ==> UriShardSucceeds(n, it, trackIds, d, lda, num)
    ensures run.failure.Some? ==> !UriShardSucceeds(n, |run.saved|, trackIds, d, lda, num)
    ensures run.failure.Some? ==>
              ParseK(d).Err? || (run.failure.value.LdaNotLoaded? && lda.None?) ||
              (run.failure.value.LdaTooShort? && lda.Some? && |lda.value| < 3)
  {
    var parsed := ParseK(d);
    if parsed.Err? {
      // every shard parses the same name first, so shard 0 raises before any write
      assert !UriShardSucceeds(n, 0, trackIds, d, lda, num);
      return WorkerRun([], Some(parsed.error));
    }
    var saved: seq<Saved> := [];
    for it := 0 to ShardsPerWorker
      invariant |saved| == it
      invariant UriPrefix(saved, n, trackIds, cliqueIds, d, lda, num)
    {
      var res := UriShard(n, it, trackIds, cliqueIds, d, lda, num);
      if res.Err? {
        return WorkerRun(saved, Some(res.error));
      }
      UriPrefixExtend(saved, res.value, n, trackIds, cliqueIds, d, lda, num);
      saved := saved + [res.value];
    }
    run := WorkerRun(saved, None);
  }

  /** A file written by the next shard, which succeeded, extends the prefix. */
  lemma UriPrefixExtend(saved: seq<Saved>, s: Saved, n: nat, trackIds: seq<string>, cliqueIds: seq<int>, d: string,
                        lda: Option<seq<Vector -> Vector>>, num: Numerics)
    requires UriPrefix(saved, n, trackIds, cliqueIds, d, lda, num)
    requires ShardFile(s, UriShardName(n, |saved|), n, |saved|, trackIds, cliqueIds)
    requires Widths(s.artifact.codes) == ReducedWidths
    requires UriShardSucceeds(n, |saved|, trackIds, d, lda, num)
    ensures UriPrefix(saved + [s], n, trackIds, cliqueIds, d, lda, num)
  {
  }

  /** The files of one worker have pairwise distinct names, so none
      overwrites another (`Shards.ShardNameInjective` covers two workers). */
  lemma WorkerFilesDistinct(run: WorkerRun, n: nat, trackIds: seq<string>, cliqueIds: seq<int>, a: nat, b: nat)
    requires |run.saved| <= ShardsPerWorker
    requires forall it :: 0 <= it < |run.saved| ==>
               ShardFile(run.saved[it], ShardName(n, it), n, it, trackIds, cliqueIds)
    requires a < b < |run.saved|
    ensures run.saved[a].name != run.saved[b].name
  {
    ShardNameInjective(n, a, n, b);
  }

  /** A worker that wrote all ten files has put every track of its block that
      the id list holds into the file ShardOf names, at its offset within
      that shard, next to its clique id (either script). */
  lemma CompleteRunCoversBlock(run: WorkerRun, n: nat, trackIds: seq<string>, cliqueIds: seq<int>, t: nat)
    requires |run.saved| == ShardsPerWorker
    requires forall it :: 0 <= it < |run.saved| ==>
               ShardFile(run.saved[it], run.saved[it].name, n, it, trackIds, cliqueIds)
    requires n * TracksPerWorker <= t < (n + 1) * TracksPerWorker
    requires t < |trackIds| && t < |cliqueIds|
    ensures ShardOf(t).0 == n && ShardOf(t).1 < ShardsPerWorker
    ensures var a := run.saved[ShardOf(t).1].artifact;
            var o := t - ShardBounds(n, ShardOf(t).1).start;
            0 <= o < |a.trackIds| && o < |a.cliqueIds| &&
            a.trackIds[o] == trackIds[t] && a.cliqueIds[o] == cliqueIds[t]
  {
    WorkerBlockTiled(n, t);
    var it :| 0 <= it < ShardsPerWorker && ShardBounds(n, it).Contains(t);
    ShardOfCharacterizes(t, n, it);
    assert ShardFile(run.saved[it], run.saved[it].name, n, it, trackIds, cliqueIds);
  }
}
