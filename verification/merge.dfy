/** `load_codes`: concatenate, in file order, the chosen code matrix of every
    shard file together with its track and clique ids. */
module Merge {
  import opened Common
  import opened CodeBuilder

  /** The merged feature rows (`None` for a placeholder row), track ids and
      clique ids. */
  datatype Merged = Merged(feats: seq<Option<Vector>>, trackIds: seq<string>, cliqueIds: seq<int>)

  /** The exceptions of `load_codes`. */
  datatype LoadError =
    | UnknownLdaIndex         // no width is chosen, so the empty matrix cannot be allocated
    | MissingMatrix(file: nat) // IndexError from codes[0][lda_idx]
    | WidthMismatch(file: nat) // ValueError from appending a matrix of another width

  /** The matrix width `load_codes` of cover_id_test.py expects for an
      index: the LDA widths for 0, 1, 2 and the 2045 of an unreduced code
      for -1. */
  function LdaWidth(ldaIdx: int): Option<nat>
  {
    if ldaIdx == 0 then Some(50)
    else if ldaIdx == 1 then Some(100)
    else if ldaIdx == 2 then Some(200)
    else if ldaIdx == -1 then Some(2045)
    else None
  }

  /** uri_SHS_test.py knows only the three LDA widths. */
  function UriLdaWidth(ldaIdx: int): Option<nat>
  {
    if 0 <= ldaIdx < 3 then LdaWidth(ldaIdx) else None
  }

  /** The loader's widths are the builders' widths: index j of 0, 1, 2 is
      the j-th LDA matrix's width, -1 names the 2045-wide unreduced code,
      and every other index is rejected. */
  lemma LoadWidthsMatchBuilders(ldaIdx: int)
    ensures 0 <= ldaIdx < 3 ==> LdaWidth(ldaIdx) == Some(ReducedWidths[ldaIdx])
    ensures ldaIdx == -1 ==> LdaWidth(ldaIdx) == Some(2045)
    ensures LdaWidth(ldaIdx).Some? <==> -1 <= ldaIdx < 3
    ensures UriLdaWidth(ldaIdx).Some? <==> 0 <= ldaIdx < 3
  {
  }

  /** Python's `s[k]`: a negative index counts from the end; out of range is
      an IndexError (`None`). Within range, k and k + len(s) name the same
      entry, the one at k modulo the length. */
  function PyIndex<T>(s: seq<T>, k: int): (r: Option<T>)
    ensures r.Some? <==> -|s| <= k < |s|
    ensures r.Some? ==> r.value == s[k % |s|]
  {
    if 0 <= k < |s| then Some(s[k])
    else if -|s| <= k < 0 then Some(s[|s| + k])
    else None
  }

  /** Python's `s[:m]`: a negative bound counts from the end; both clamp. */
  function PyHead<T>(s: seq<T>, m: int): (r: seq<T>)
    ensures |r| <= |s| && r == s[..|r|]
    ensures 0 <= m ==> |r| == if m < |s| then m else |s|
    ensures m < 0 ==> |r| == if |s| + m < 0 then 0 else |s| + m
  {
    if 0 <= m then (if m < |s| then s[..m] else s)
    else if |s| + m < 0 then []
    else s[..|s| + m]
  }

  /** A shard file can be appended: it has a matrix at the index and that
      matrix has the expected width. */
  predicate Fits(a: Artifact, ldaIdx: int, width: nat)
  {
    PyIndex(a.codes, ldaIdx).Some? && PyIndex(a.codes, ldaIdx).value.width == width
  }

  /** The rows of the matrix at the index (empty when there is none). */
  function SelectedRows(a: Artifact, ldaIdx: int): seq<Option<Vector>>
  {
    match PyIndex(a.codes, ldaIdx)
    case None => []
    case Some(mat) => mat.rows
  }

  /** A shard file whose chosen matrix has one row per track id and clique id. */
  predicate Aligned(a: Artifact, ldaIdx: int)
  {
    |SelectedRows(a, ldaIdx)| == |a.trackIds| == |a.cliqueIds|
  }

  /** The loop of `load_codes` over the files in order. It fails at the
      first file that does not fit, and succeeds exactly when all fit. */
  function MergeFiles(files: seq<Artifact>, ldaIdx: int, width: nat): (r: Result<Merged, LoadError>)
    ensures r.Ok? <==> forall f :: 0 <= f < |files| ==> Fits(files[f], ldaIdx, width)
    ensures r.Err? ==> !r.error.UnknownLdaIndex?
    ensures r.Err? ==> r.error.file < |files| && !Fits(files[r.error.file], ldaIdx, width)
    ensures r.Err? ==> forall f :: 0 <= f < r.error.file ==> Fits(files[f], ldaIdx, width)
    ensures r.Err? ==> (r.error.MissingMatrix? <==> PyIndex(files[r.error.file].codes, ldaIdx).None?)
    decreases |files|
  {
    if |files| == 0 then Ok(Merged([], [], []))
    else
      var last := |files| - 1;
      match MergeFiles(files[..last], ldaIdx, width)
      case Err(e) => Err(e)
      case Ok(acc) =>
        match PyIndex(files[last].codes, ldaIdx)
        case None => Err(MissingMatrix(last))
        case Some(mat) =>
          if mat.width != width then Err(WidthMismatch(last))
          else Ok(Merged(acc.feats + mat.rows, acc.trackIds + files[last].trackIds,
                         acc.cliqueIds + files[last].cliqueIds))
  }

  /** `load_codes` of cover_id_test.py: an unknown index fails before any
      file is read; `max_files` keeps only a prefix of the file list. */
  function LoadCodes(files: seq<Artifact>, ldaIdx: int, maxFiles: Option<int>): (r: Result<Merged, LoadError>)
    ensures LdaWidth(ldaIdx).None? ==> r == Err(UnknownLdaIndex)
    ensures r.Ok? <==> (LdaWidth(ldaIdx).Some? &&
              var used := if maxFiles.Some? then PyHead(files, maxFiles.value) else files;
              forall f :: 0 <= f < |used| ==> Fits(used[f], ldaIdx, LdaWidth(ldaIdx).value))
  {
    match LdaWidth(ldaIdx)
    case None => Err(UnknownLdaIndex)
    case Some(w) => MergeFiles(if maxFiles.Some? then PyHead(files, maxFiles.value) else files, ldaIdx, w)
  }

  /** `load_codes` of uri_SHS_test.py: three indices, all files. */
  function UriLoadCodes(files: seq<Artifact>, ldaIdx: int): (r: Result<Merged, LoadError>)
    ensures UriLdaWidth(ldaIdx).None? ==> r == Err(UnknownLdaIndex)
    ensures r.Ok? <==> (0 <= ldaIdx < 3 &&
              forall f :: 0 <= f < |files| ==> Fits(files[f], ldaIdx, ReducedWidths[ldaIdx]))
  {
    match UriLdaWidth(ldaIdx)
    case None => Err(UnknownLdaIndex)
    case Some(w) => MergeFiles(files, ldaIdx, w)
  }

  // ---------------------------------------------------------------------------
  // Properties
  // ---------------------------------------------------------------------------

  /** The two loaders agree on the LDA indices; only cover_id_test.py
      accepts -1. */
  lemma UriAgreesWithCover(files: seq<Artifact>, ldaIdx: int)
    ensures 0 <= ldaIdx < 3 ==> UriLoadCodes(files, ldaIdx) == LoadCodes(files, ldaIdx, None)
    ensures ldaIdx == -1 ==> UriLoadCodes(files, ldaIdx).Err? && LoadCodes(files, ldaIdx, None) == MergeFiles(files, -1, 2045)
  {
  }

  /** Which shard files fit: one written with LDA (widths 50/100/200) fits
      exactly the indices 0, 1, 2; one written without (a single matrix of
      width K) fits index -1 exactly when K is 2045 and index 0 exactly when
      K is 50. */
  lemma WhichShardsFit(a: Artifact, ldaIdx: int)
    requires LdaWidth(ldaIdx).Some?
    ensures Widths(a.codes) == ReducedWidths ==>
              (Fits(a, ldaIdx, LdaWidth(ldaIdx).value) <==> 0 <= ldaIdx < 3)
    ensures forall k: nat :: Widths(a.codes) == [k] ==>
              (Fits(a, ldaIdx, LdaWidth(ldaIdx).value) <==> (ldaIdx == -1 && k == 2045) || (ldaIdx == 0 && k == 50))
  {
    if Widths(a.codes) == ReducedWidths {
      assert a.codes[0].width == 50 && a.codes[1].width == 100 && a.codes[2].width == 200;
    }
  }

  /** Merging is a homomorphism over file lists: the merge of a + b succeeds
      exactly when both merges do, and is then their concatenation. */
  lemma {:induction false} MergeSplit(a: seq<Artifact>, b: seq<Artifact>, ldaIdx: int, width: nat)
    ensures MergeFiles(a + b, ldaIdx, width).Ok? <==>
              MergeFiles(a, ldaIdx, width).Ok? && MergeFiles(b, ldaIdx, width).Ok?
    ensures MergeFiles(a + b, ldaIdx, width).Ok? ==>
              var ab := MergeFiles(a + b, ldaIdx, width).value;
              var ma := MergeFiles(a, ldaIdx, width).value;
              var mb := MergeFiles(b, ldaIdx, width).value;
              ab.feats == ma.feats + mb.feats && ab.trackIds == ma.trackIds + mb.trackIds &&
              ab.cliqueIds == ma.cliqueIds + mb.cliqueIds
    decreases |b|
  {
    if |b| == 0 {
      assert a + b == a;
    } else {
      var last := |b| - 1;
      var init := b[..last];
      assert (a + b)[..|a + b| - 1] == a + init;
      assert (a + b)[|a + b| - 1] == b[last];
      assert b[..|b| - 1] == init;
      MergeSplit(a, init, ldaIdx, width);
    }
  }

  /** Appending one file adds its chosen rows and its ids at the end. */
  lemma MergeAppend(files: seq<Artifact>, a: Artifact, ldaIdx: int, width: nat)
    requires MergeFiles(files + [a], ldaIdx, width).Ok?
    ensures MergeFiles(files, ldaIdx, width).Ok? && Fits(a, ldaIdx, width)
    ensures var m := MergeFiles(files + [a], ldaIdx, width).value;
            var pre := MergeFiles(files, ldaIdx, width).value;
            m == Merged(pre.feats + SelectedRows(a, ldaIdx), pre.trackIds + a.trackIds, pre.cliqueIds + a.cliqueIds)
  {
    assert (files + [a])[..|files|] == files;
    assert (files + [a])[|files|] == a;
  }

  /** When every file is aligned, so is the merge: one track id and one
      clique id per feature row. */
  lemma {:induction false} MergeAligned(files: seq<Artifact>, ldaIdx: int, width: nat)
    requires MergeFiles(files, ldaIdx, width).Ok?
    requires forall f :: 0 <= f < |files| ==> Aligned(files[f], ldaIdx)
    ensures var m := MergeFiles(files, ldaIdx, width).value;
            |m.feats| == |m.trackIds| == |m.cliqueIds|
    decreases |files|
  {
    if |files| > 0 {
      var last := |files| - 1;
      assert files == files[..last] + [files[last]];
      MergeAppend(files[..last], files[last], ldaIdx, width);
      MergeAligned(files[..last], ldaIdx, width);
    }
  }

  /** The merge of pre + [a] + tail is the merge of pre, then a's rows and
      ids, then the merge of tail. */
  lemma MergeMiddle(pre: seq<Artifact>, a: Artifact, tail: seq<Artifact>, ldaIdx: int, width: nat)
    requires MergeFiles(pre + [a] + tail, ldaIdx, width).Ok?
    ensures MergeFiles(pre, ldaIdx, width).Ok? && MergeFiles(tail, ldaIdx, width).Ok?
    ensures var m := MergeFiles(pre + [a] + tail, ldaIdx, width).value;
            var p := MergeFiles(pre, ldaIdx, width).value;
            var t := MergeFiles(tail, ldaIdx, width).value;
            m.feats == p.feats + SelectedRows(a, ldaIdx) + t.feats &&
            m.trackIds == p.trackIds + a.trackIds + t.trackIds &&
            m.cliqueIds == p.cliqueIds + a.cliqueIds + t.cliqueIds
  {
    MergeSplit(pre + [a], tail, ldaIdx, width);
    MergeAppend(pre, a, ldaIdx, width);
  }

  /** The lockstep of rows and ids: when the files before file a are
      aligned, a's k-th row, track id and clique id all land at the same
      merged position, just after everything those files contributed. */
  lemma MergeLockstep(pre: seq<Artifact>, a: Artifact, tail: seq<Artifact>, ldaIdx: int, width: nat, k: nat)
    requires MergeFiles(pre + [a] + tail, ldaIdx, width).Ok?
    requires forall g :: 0 <= g < |pre| ==> Aligned(pre[g], ldaIdx)
    requires Aligned(a, ldaIdx) && k < |SelectedRows(a, ldaIdx)|
    ensures MergeFiles(pre, ldaIdx, width).Ok?
    ensures var m := MergeFiles(pre + [a] + tail, ldaIdx, width).value;
            var o := |MergeFiles(pre, ldaIdx, width).value.feats|;
            o + k < |m.feats| && o + k < |m.trackIds| && o + k < |m.cliqueIds| &&
            m.feats[o + k] == SelectedRows(a, ldaIdx)[k] &&
            m.trackIds[o + k] == a.trackIds[k] &&
            m.cliqueIds[o + k] == a.cliqueIds[k]
  {
    MergeMiddle(pre, a, tail, ldaIdx, width);
    MergeAligned(pre, ldaIdx, width);
    var p := MergeFiles(pre, ldaIdx, width).value;
    var t := MergeFiles(tail, ldaIdx, width).value;
    IndexInMiddle(p.feats, SelectedRows(a, ldaIdx), t.feats, k);
    IndexInMiddle(p.trackIds, a.trackIds, t.trackIds, k);
    IndexInMiddle(p.cliqueIds, a.cliqueIds, t.cliqueIds, k);
  }

  lemma IndexInMiddle<T>(p: seq<T>, x: seq<T>, t: seq<T>, k: nat)
    requires k < |x|
    ensures |p| + k < |p + x + t| && (p + x + t)[|p| + k] == x[k]
  {
  }

  /** `max_files` = m keeps the first m files: the files after them are
      never read, whatever they hold. */
  lemma LoadCodesIgnoresLaterFiles(files: seq<Artifact>, extra: seq<Artifact>, ldaIdx: int)
    ensures LoadCodes(files + extra, ldaIdx, Some(|files|)) == LoadCodes(files, ldaIdx, None)
  {
    assert (files + extra)[..|files|] == files;
  }

  /** A negative `max_files` drops that many files from the end. */
  lemma LoadCodesNegativeMax(files: seq<Artifact>, extra: seq<Artifact>, ldaIdx: int)
    requires |extra| > 0
    ensures LoadCodes(files + extra, ldaIdx, Some(-|extra|)) == LoadCodes(files, ldaIdx, None)
  {
    assert (files + extra)[..|files|] == files;
  }
}
