/** The code builders `compute_codes_it` and `compute_codes_orig_it`: for one
    shard, allocate one placeholder matrix per output width, then fill row i
    for every track whose code can be computed. Every numeric step (feature
    extraction, the dictionary transform, the median, chroma normalisation,
    PCA and LDA projections) is an uninterpreted function. */
module CodeBuilder {
  import opened Common
  import opened Text

  /** A code: one row of feature values. */
  type Vector = seq<real>
  /** The per-frame features of one track. */
  type Frames = seq<Vector>

  /** A code matrix of the given width; a `None` row is the NaN placeholder. */
  datatype CodeMatrix = CodeMatrix(width: nat, rows: seq<Option<Vector>>)

  /** What a shard file holds: the code matrices, the track ids and the clique
      ids of the shard. */
  datatype Artifact = Artifact(codes: seq<CodeMatrix>, trackIds: seq<string>, cliqueIds: seq<int>)

  /** The external numeric collaborators. */
  datatype Numerics = Numerics(
    extract: string -> Option<Frames>,  // feature extraction of a track id, None when it fails
    fx: Frames -> Frames,               // the transform loaded from the dictionary file
    median: Frames -> Vector,           // the median over the time axis
    chromnorm: Vector -> Vector)        // chroma normalisation of a column, squeezed back

  /** The optional reductions of cover_id_test.py, set up once at start. */
  datatype Models = Models(norm: bool, pca: Option<Vector -> Vector>, lda: Option<seq<Vector -> Vector>>)

  /** The exceptions a builder can raise. */
  datatype BuildError =
    | DictNameMissingField       // IndexError from the splits of the dictionary name
    | DictNameNotInteger         // ValueError from int() on the dictionary name
    | NegativeWidth              // ValueError from allocating a matrix of negative width
    | OrigCodesTooShort(row: nat) // IndexError from origcodes[i]
    | LdaTooShort(row: nat)      // IndexError from lda[lda_idx]
    | LdaNotLoaded(row: nat)     // TypeError from indexing a missing LDA list

  /** The three LDA (or PCA) output widths, in matrix order. */
  const ReducedWidths: seq<nat> := [50, 100, 200]

  // ---------------------------------------------------------------------------
  // The dictionary size K in the dictionary file name
  // ---------------------------------------------------------------------------

  /** `int(d.split("_")[1].split("E")[1])`: the integer between the first `E`
      and the next `E` (or the end) of the second `_`-separated field. */
  function ParseK(d: string): Result<int, BuildError>
  {
    var fields := Split(d, '_');
    if |fields| < 2 then Err(DictNameMissingField)
    else
      var parts := Split(fields[1], 'E');
      if |parts| < 2 then Err(DictNameMissingField)
      else
        match ParseInt(parts[1])
        case None => Err(DictNameNotInteger)
        case Some(k) => Ok(k)
  }

  /** A name without `_`, or whose second `_`-field has no `E`, raises the
      IndexError of the missing field. */
  lemma ParseKMissingField(d: string)
    ensures '_' !in d ==> ParseK(d) == Err(DictNameMissingField)
    ensures '_' in d && 'E' !in Split(d, '_')[1] ==> ParseK(d) == Err(DictNameMissingField)
  {
    if '_' !in d {
      SplitNoSeparator(d, '_');
    } else {
      var fields := Split(d, '_');
      if |fields| >= 2 && 'E' !in fields[1] {
        SplitNoSeparator(fields[1], 'E');
      }
    }
  }

  lemma IntToStringHasNoLetters(k: int)
    ensures '_' !in IntToString(k) && 'E' !in IntToString(k)
  {
    var s := IntToString(k);
    if k < 0 {
      assert s == [s[0]] + s[1..];
    }
  }

  /** Splitting a join of fields free of the separator gives back the second
      field, and the separator does occur. */
  lemma SplitSecondField(a: string, b: string, rest: seq<string>, sep: char)
    requires sep !in a && sep !in b
    requires forall x :: 0 <= x < |rest| ==> sep !in rest[x]
    ensures sep in Join([a, b] + rest, sep)
    ensures |Split(Join([a, b] + rest, sep), sep)| >= 2
    ensures Split(Join([a, b] + rest, sep), sep)[1] == b
  {
    var fields := [a, b] + rest;
    assert fields[1..] == [b] + rest;
    assert Join(fields, sep) == a + [sep] + Join([b] + rest, sep);
    assert Join(fields, sep)[|a|] == sep;
    FieldsFreeOf(a, b, rest, sep);
    SplitJoinRoundTrip(fields, sep);
  }

  /** Joining fields free of a character leaves it out, whatever the separator. */
  lemma {:induction false} JoinNoSeparator(fields: seq<string>, sep: char, c: char)
    requires |fields| >= 1 && c != sep
    requires forall x :: 0 <= x < |fields| ==> c !in fields[x]
    ensures c !in Join(fields, sep)
    decreases |fields|
  {
    if |fields| > 1 {
      JoinNoSeparator(fields[1..], sep, c);
    }
  }

  /** The second `_`-field `<m>E<k>…` is itself free of `_`. */
  lemma KFieldHasNoUnderscore(m: string, k: int, moreE: seq<string>)
    requires '_' !in m
    requires forall x :: 0 <= x < |moreE| ==> '_' !in moreE[x]
    ensures '_' !in Join([m, IntToString(k)] + moreE, 'E')
  {
    var digits := IntToString(k);
    IntToStringHasNoLetters(k);
    FieldsFreeOf(m, digits, moreE, '_');
    JoinNoSeparator([m, digits] + moreE, 'E', '_');
  }

  lemma FieldsFreeOf(a: string, b: string, rest: seq<string>, c: char)
    requires c !in a && c !in b
    requires forall x :: 0 <= x < |rest| ==> c !in rest[x]
    ensures forall x :: 0 <= x < |[a, b] + rest| ==> c !in ([a, b] + rest)[x]
  {
    var fields := [a, b] + rest;
    forall x | 0 <= x < |fields|
      ensures c !in fields[x]
    {
      if x >= 2 {
        assert fields[x] == rest[x - 2];
      }
    }
  }

  /** ParseK reads whatever integer text the two splits select. */
  lemma ParseKSelects(d: string, k: int)
    requires |Split(d, '_')| >= 2
    requires |Split(Split(d, '_')[1], 'E')| >= 2
    requires Split(Split(d, '_')[1], 'E')[1] == IntToString(k)
    ensures ParseK(d) == Ok(k)
  {
    ParseIntRoundTrip([], k, []);
    assert [] + IntToString(k) + [] == IntToString(k);
  }

  /** A dictionary name whose second `_`-field reads `<m>E<k>`, possibly
      followed by further `E`-fields, gives back k, whatever the first field
      and whatever further `_`-fields follow. */
  lemma ParseKRoundTrip(head: string, m: string, k: int, moreE: seq<string>, more: seq<string>)
    requires '_' !in head && '_' !in m && 'E' !in m
    requires forall x :: 0 <= x < |moreE| ==> '_' !in moreE[x] && 'E' !in moreE[x]
    requires forall x :: 0 <= x < |more| ==> '_' !in more[x]
    ensures ParseK(Join([head, Join([m, IntToString(k)] + moreE, 'E')] + more, '_')) == Ok(k)
  {
    IntToStringHasNoLetters(k);
    KFieldHasNoUnderscore(m, k, moreE);
    var field := Join([m, IntToString(k)] + moreE, 'E');
    SplitSecondField(head, field, more, '_');
    SplitSecondField(m, IntToString(k), moreE, 'E');
    ParseKSelects(Join([head, field] + more, '_'), k);
  }

  // ---------------------------------------------------------------------------
  // Filling the placeholder matrices
  // ---------------------------------------------------------------------------

  /** What the loop body does with row i: leave the placeholder (`continue`
      after a failed extraction), fill one code per matrix, or raise. */
  datatype RowStep = Skip | Fill(codes: seq<Vector>) | Fail(error: BuildError)

  /** The code a step puts into matrix j, if any. */
  function CodeOf(s: RowStep, j: nat): Option<Vector>
  {
    if s.Fill? && j < |s.codes| then Some(s.codes[j]) else None
  }

  /** The value of row i of matrix j once rows 0 .. done-1 have been handled. */
  function RowAfter(step: nat -> RowStep, done: nat, j: nat, i: nat): Option<Vector>
  {
    if i < done then CodeOf(step(i), j) else None
  }

  /** Allocates one matrix of `rows` placeholder rows per width and runs the
      loop body over the first `count` rows (the tracks of the slice). The
      shard fails at the first row that raises; otherwise row i of matrix j
      holds the j-th code of row i when it was filled and the placeholder
      when it was skipped or lies past the slice. */
  method FillShard(widths: seq<nat>, rows: nat, count: nat, step: nat -> RowStep)
    returns (r: Result<seq<CodeMatrix>, BuildError>)
    requires count <= rows
    requires forall i :: 0 <= i < count && step(i).Fill? ==> |step(i).codes| == |widths|
    ensures r.Ok? <==> forall i :: 0 <= i < count ==> !step(i).Fail?
    ensures r.Err? ==> exists i :: 0 <= i < count && step(i) == Fail(r.error) &&
                          forall i' :: 0 <= i' < i ==> !step(i').Fail?
    ensures r.Ok? ==> |r.value| == |widths|
    ensures r.Ok? ==> forall j :: 0 <= j < |widths| ==>
              r.value[j].width == widths[j] && |r.value[j].rows| == rows
    ensures r.Ok? ==> forall j, i :: 0 <= j < |widths| && 0 <= i < rows ==>
              r.value[j].rows[i] == RowAfter(step, count, j, i)
  {
    var codes: seq<seq<Option<Vector>>> := seq(|widths|, _ => seq(rows, _ => None));
    var i := 0;
    while i < count
      invariant 0 <= i <= count
      invariant |codes| == |widths|
      invariant forall j :: 0 <= j < |widths| ==> |codes[j]| == rows
      invariant forall j, i' :: 0 <= j < |widths| && 0 <= i' < rows ==> codes[j][i'] == RowAfter(step, i, j, i')
      invariant forall i' :: 0 <= i' < i ==> !step(i').Fail?
    {
      match step(i) {
        case Skip =>
        case Fail(e) =>
          return Err(e);
        case Fill(cs) =>
          codes := seq(|widths|, j requires 0 <= j < |widths| => codes[j][i := Some(cs[j])]);
      }
      i := i + 1;
    }
    r := Ok(seq(|widths|, j requires 0 <= j < |widths| => CodeMatrix(widths[j], codes[j])));
  }

  // ---------------------------------------------------------------------------
  // cover_id_test.py
  // ---------------------------------------------------------------------------

  /** The three LDA projections of a code, each renormalised; indexing a list
      of fewer than three models raises. */
  function LdaProject(num: Numerics, bank: seq<Vector -> Vector>, code: Vector, row: nat): (s: RowStep)
    ensures s.Fill? ==> |s.codes| == |ReducedWidths|
  {
    if |bank| < 3 then Fail(LdaTooShort(row))
    else Fill(seq(3, j requires 0 <= j < 3 => num.chromnorm(bank[j](code))))
  }

  /** What cover_id_test.py does to a code once it has one: optional chroma
      normalisation, optional PCA, then the LDA projections or the code as is. */
  function Postprocess(m: Models, num: Numerics, code: Vector, row: nat): (s: RowStep)
    ensures s.Fill? ==> |s.codes| == if m.lda.Some? then 3 else 1
  {
    var normed := if m.norm then num.chromnorm(code) else code;
    var reduced := if m.pca.Some? then m.pca.value(normed) else normed;
    match m.lda
    case None => Fill([reduced])
    case Some(bank) => LdaProject(num, bank, reduced, row)
  }

  /** What cover_id_test.py does with a placeholder row of origcodes: the NaN
      row stays NaN through normalisation, PCA and the LDA projections, so the
      row stays a placeholder; indexing a list of fewer than three LDA models
      still raises first. */
  function PlaceholderStep(m: Models, row: nat): (s: RowStep)
    ensures !s.Fill?
  {
    if m.lda.Some? && |m.lda.value| < 3 then Fail(LdaTooShort(row)) else Skip
  }

  /** The loop body of `compute_codes_it` for row i of the slice. */
  function CoverStep(m: Models, num: Numerics, slice: seq<string>, origcodes: Option<seq<Option<Vector>>>, i: nat): RowStep
  {
    match origcodes
    case None =>
      if i >= |slice| then Skip
      else (match num.extract(slice[i])
            case None => Skip
            case Some(feats) => Postprocess(m, num, num.median(num.fx(feats)), i))
    case Some(oc) =>
      if i >= |oc| then Fail(OrigCodesTooShort(i))
      else (match oc[i]
            case None => PlaceholderStep(m, i)
            case Some(code) => Postprocess(m, num, code, i))
  }

  /** Whether every row of a cover_id_test.py shard over the tracks `tids`
      is handled without raising: with origcodes, they must cover the slice
      and, with fewer than three LDA models loaded, the slice must be empty;
      without them, fewer than three LDA models are fine only while every
      extraction fails. */
  predicate CoverFillSucceeds(m: Models, num: Numerics, tids: seq<string>, origcodes: Option<seq<Option<Vector>>>)
  {
    var ldaShort := m.lda.Some? && |m.lda.value| < 3;
    match origcodes
    case None => ldaShort ==> forall i :: 0 <= i < |tids| ==> num.extract(tids[i]).None?
    case Some(oc) => |tids| <= |oc| && (ldaShort ==> |tids| == 0)
  }

  /** The exception e is the one the first failing row of a cover_id_test.py
      shard over `tids` raises: origcodes shorter than the slice (at the row
      just past them) or too few LDA models; with origcodes the latter is
      raised at row 0, without them at the first track whose extraction
      succeeds. */
  predicate CoverFailure(e: BuildError, m: Models, num: Numerics, tids: seq<string>,
                         origcodes: Option<seq<Option<Vector>>>)
  {
    ((e.OrigCodesTooShort? && origcodes.Some?) || (e.LdaTooShort? && m.lda.Some? && |m.lda.value| < 3)) &&
    (e.OrigCodesTooShort? ==> e.row == |origcodes.value| < |tids|) &&
    (e.LdaTooShort? && origcodes.Some? ==> e.row == 0) &&
    (e.LdaTooShort? && origcodes.None? ==>
       e.row < |tids| && num.extract(tids[e.row]).Some? &&
       forall i :: 0 <= i < e.row ==> num.extract(tids[i]).None?)
  }

  /** The rows of a cover_id_test.py shard of `rows` rows over the tracks
      `tids`: every matrix has `rows` rows, those past the slice are
      placeholders; without origcodes a row is a placeholder exactly when
      its extraction failed and otherwise holds the post-processed median
      code; with origcodes (which then cover the slice) row i is derived from
      origcodes[i], a placeholder staying a placeholder. */
  predicate CoverRows(codes: seq<CodeMatrix>, rows: nat, tids: seq<string>,
                      origcodes: Option<seq<Option<Vector>>>, m: Models, num: Numerics)
  {
    |tids| <= rows &&
    (forall j :: 0 <= j < |codes| ==> |codes[j].rows| == rows) &&
    (forall j, i :: 0 <= j < |codes| && |tids| <= i < rows ==> codes[j].rows[i] == None) &&
    (origcodes.None? ==> forall j, i :: 0 <= j < |codes| && 0 <= i < |tids| ==>
       (codes[j].rows[i] == None <==> num.extract(tids[i]).None?) &&
       (num.extract(tids[i]).Some? ==>
          codes[j].rows[i] == CodeOf(Postprocess(m, num, num.median(num.fx(num.extract(tids[i]).value)), i), j))) &&
    (origcodes.Some? ==>
       |tids| <= |origcodes.value| &&
       forall j, i :: 0 <= j < |codes| && 0 <= i < |tids| ==>
         (origcodes.value[i].None? ==> codes[j].rows[i] == None) &&
         (origcodes.value[i].Some? ==>
            codes[j].rows[i] == CodeOf(Postprocess(m, num, origcodes.value[i].value, i), j)))
  }

  /** No row of a cover_id_test.py shard raises exactly when
      `CoverFillSucceeds` holds. */
  lemma CoverStepsSucceed(m: Models, num: Numerics, tids: seq<string>, origcodes: Option<seq<Option<Vector>>>)
    ensures (forall i :: 0 <= i < |tids| ==> !CoverStep(m, num, tids, origcodes, i).Fail?) <==>
            CoverFillSucceeds(m, num, tids, origcodes)
  {
    var ldaShort := m.lda.Some? && |m.lda.value| < 3;
    if origcodes.Some? {
      var oc := origcodes.value;
      assert CoverStep(m, num, tids, origcodes, |oc|) == Fail(OrigCodesTooShort(|oc|));
      assert ldaShort ==> CoverStep(m, num, tids, origcodes, 0).Fail?;
    } else if ldaShort {
      forall i | 0 <= i < |tids|
        ensures !CoverStep(m, num, tids, origcodes, i).Fail? <==> num.extract(tids[i]).None?
      {
      }
    }
  }

  /** The first failing row f of a cover_id_test.py shard names itself in its
      exception, which is the one `CoverFailure` describes. */
  lemma CoverFirstFailure(m: Models, num: Numerics, slice: seq<string>, origcodes: Option<seq<Option<Vector>>>,
                          f: nat, e: BuildError)
    requires f < |slice| && CoverStep(m, num, slice, origcodes, f) == Fail(e)
    requires forall i :: 0 <= i < f ==> !CoverStep(m, num, slice, origcodes, i).Fail?
    ensures e.row == f
    ensures CoverFailure(e, m, num, slice, origcodes)
  {
    if origcodes.Some? {
      // the row just past origcodes fails, and with too few LDA models so does row 0
      var oc := origcodes.value;
      assert CoverStep(m, num, slice, origcodes, |oc|) == Fail(OrigCodesTooShort(|oc|));
      assert m.lda.Some? && |m.lda.value| < 3 ==> CoverStep(m, num, slice, origcodes, 0).Fail?;
    } else if e.LdaTooShort? {
      forall i | 0 <= i < f
        ensures num.extract(slice[i]).None?
      {
        assert !CoverStep(m, num, slice, origcodes, i).Fail?;
      }
    }
  }

  /** The widths of an artifact's matrices, in order. */
  function Widths(codes: seq<CodeMatrix>): (w: seq<nat>)
    ensures |w| == |codes| && forall j :: 0 <= j < |codes| ==> w[j] == codes[j].width
  {
    seq(|codes|, j requires 0 <= j < |codes| => codes[j].width)
  }

  /** `compute_codes_it` of cover_id_test.py on the shard [start, end).
      K comes from the dictionary name first (a malformed name raises); with
      LDA there are three matrices of widths 50/100/200, otherwise one of
      width K (a negative K raises); every matrix has end - start rows. A
      row whose extraction fails stays a placeholder in every matrix; with
      origcodes (rows of an earlier shard matrix, placeholders included), no
      extraction happens and row i is derived from origcodes[i], a
      placeholder staying a placeholder. A failing shard raises at its first
      failing row. The id slices are returned as Python slices them. */
  method ComputeCodesIt(trackIds: seq<string>, cliqueIds: seq<int>, d: string, start: nat, end: nat,
                        origcodes: Option<seq<Option<Vector>>>, m: Models, num: Numerics)
    returns (r: Result<Artifact, BuildError>)
    requires start <= end
    ensures ParseK(d).Err? ==> r == Err(ParseK(d).error)
    ensures ParseK(d).Ok? && m.lda.None? && ParseK(d).value < 0 ==> r == Err(NegativeWidth)
    ensures r.Ok? <==> ParseK(d).Ok? && (m.lda.None? ==> ParseK(d).value >= 0) &&
                       CoverFillSucceeds(m, num, PySlice(trackIds, start, end), origcodes)
    ensures r.Err? ==> ParseK(d).Err? || (r.error == NegativeWidth && m.lda.None? && ParseK(d).value < 0) ||
                       CoverFailure(r.error, m, num, PySlice(trackIds, start, end), origcodes)
    ensures r.Ok? ==> r.value.trackIds == PySlice(trackIds, start, end)
    ensures r.Ok? ==> r.value.cliqueIds == PySlice(cliqueIds, start, end)
    ensures r.Ok? ==> Widths(r.value.codes) == if m.lda.Some? then ReducedWidths else [ParseK(d).value as nat]
    ensures r.Ok? ==> CoverRows(r.value.codes, end - start, r.value.trackIds, origcodes, m, num)
  {
    var parsed := ParseK(d);
    if parsed.Err? {
      return Err(parsed.error);
    }
    var k := parsed.value;
    var widths: seq<nat>;
    if m.lda.Some? {
      widths := ReducedWidths;
    } else if k < 0 {
      return Err(NegativeWidth);
    } else {
      widths := [k];
    }
    var tids := PySlice(trackIds, start, end);
    var cids := PySlice(cliqueIds, start, end);
    var filled := FillCoverShard(widths, end - start, tids, origcodes, m, num);
    if filled.Err? {
      return Err(filled.error);
    }
    r := Ok(Artifact(filled.value, tids, cids));
  }

  /** The allocate-and-fill part of `compute_codes_it` of cover_id_test.py,
      over the tracks `tids` of a shard of `rows` rows. */
  method FillCoverShard(widths: seq<nat>, rows: nat, tids: seq<string>, origcodes: Option<seq<Option<Vector>>>,
                        m: Models, num: Numerics)
    returns (r: Result<seq<CodeMatrix>, BuildError>)
    requires |tids| <= rows && |widths| == if m.lda.Some? then 3 else 1
    ensures r.Ok? <==> CoverFillSucceeds(m, num, tids, origcodes)
    ensures r.Err? ==> CoverFailure(r.error, m, num, tids, origcodes)
    ensures r.Ok? ==> Widths(r.value) == widths
    ensures r.Ok? ==> CoverRows(r.value, rows, tids, origcodes, m, num)
  {
    var step := (i: nat) => CoverStep(m, num, tids, origcodes, i);
    r := FillShard(widths, rows, |tids|, step);
    if r.Err? {
      ghost var f :| 0 <= f < |tids| && step(f) == Fail(r.error) &&
                     forall i' :: 0 <= i' < f ==> !step(i').Fail?;
      forall i' | 0 <= i' < f
        ensures !CoverStep(m, num, tids, origcodes, i').Fail?
      {
        assert !step(i').Fail?;
      }
      CoverFirstFailure(m, num, tids, origcodes, f, r.error);
    }
    forall i | 0 <= i < |tids|
      ensures step(i) == CoverStep(m, num, tids, origcodes, i)
    {
    }
    CoverStepsSucceed(m, num, tids, origcodes);
  }

  /** `compute_codes_orig_it` of cover_id_test.py: three matrices of widths
      50/100/200 with end - start rows; a track whose extraction succeeds gets
      the PCA projection of its normalised median code at each width, every
      other row stays a placeholder. It never raises. */
  method ComputeCodesOrigIt(trackIds: seq<string>, cliqueIds: seq<int>, start: nat, end: nat,
                            num: Numerics, trainedPca: (Vector, nat) -> Vector)
    returns (a: Artifact)
    requires start <= end
    ensures a.trackIds == PySlice(trackIds, start, end) && a.cliqueIds == PySlice(cliqueIds, start, end)
    ensures Widths(a.codes) == ReducedWidths
    ensures forall j :: 0 <= j < |a.codes| ==> |a.codes[j].rows| == end - start
    ensures forall j, i :: 0 <= j < |a.codes| && |a.trackIds| <= i < end - start ==> a.codes[j].rows[i] == None
    ensures forall j, i :: 0 <= j < |a.codes| && 0 <= i < |a.trackIds| ==>
              a.codes[j].rows[i] ==
                match num.extract(a.trackIds[i])
                case None => None
                case Some(feats) => Some(trainedPca(num.chromnorm(num.median(feats)), ReducedWidths[j]))
  {
    var tids := PySlice(trackIds, start, end);
    var cids := PySlice(cliqueIds, start, end);
    var step := (i: nat) =>
      if i >= |tids| then Skip
      else match num.extract(tids[i])
        case None => Skip
        case Some(feats) =>
          var tmp := num.chromnorm(num.median(feats));
          Fill(seq(3, j requires 0 <= j < 3 => trainedPca(tmp, ReducedWidths[j])));
    var filled := FillShard(ReducedWidths, end - start, |tids|, step);
    a := Artifact(filled.value, tids, cids);
  }

  // ---------------------------------------------------------------------------
  // uri_SHS_test.py
  // ---------------------------------------------------------------------------

  /** The loop body of uri_SHS_test.py's `compute_codes_it` for row i. */
  function UriStep(num: Numerics, lda: Option<seq<Vector -> Vector>>, slice: seq<string>, i: nat): RowStep
  {
    if i >= |slice| then Skip
    else match num.extract(slice[i])
      case None => Skip
      case Some(feats) =>
        if lda.None? then Fail(LdaNotLoaded(i))
        else LdaProject(num, lda.value, num.median(num.fx(feats)), i)
  }

  /** Whether every row of a uri_SHS_test.py shard over the tracks `tids`
      is handled without raising: without an LDA list of at least three
      models, every extraction must fail. */
  predicate UriFillSucceeds(lda: Option<seq<Vector -> Vector>>, num: Numerics, tids: seq<string>)
  {
    (lda.None? || |lda.value| < 3) ==> forall i :: 0 <= i < |tids| ==> num.extract(tids[i]).None?
  }

  /** `compute_codes_it` of uri_SHS_test.py: K is parsed (and a malformed
      name raises) although it is unused; there are always three matrices of
      widths 50/100/200 with end - start rows; a failed extraction leaves the
      row a placeholder; the first successful one raises when no LDA list of
      at least three models was given. */
  method UriComputeCodesIt(trackIds: seq<string>, cliqueIds: seq<int>, d: string,
                           lda: Option<seq<Vector -> Vector>>, start: nat, end: nat, num: Numerics)
    returns (r: Result<Artifact, BuildError>)
    requires start <= end
    ensures ParseK(d).Err? ==> r == Err(ParseK(d).error)
    ensures r.Ok? <==> ParseK(d).Ok? && UriFillSucceeds(lda, num, PySlice(trackIds, start, end))
    ensures r.Err? ==> (ParseK(d).Err? || (r.error.LdaNotLoaded? && lda.None?) ||
                        (r.error.LdaTooShort? && lda.Some? && |lda.value| < 3))
    ensures r.Ok? ==> r.value.trackIds == PySlice(trackIds, start, end)
    ensures r.Ok? ==> r.value.cliqueIds == PySlice(cliqueIds, start, end)
    ensures r.Ok? ==> Widths(r.value.codes) == ReducedWidths
    ensures r.Ok? ==> forall j :: 0 <= j < |r.value.codes| ==> |r.value.codes[j].rows| == end - start
    ensures r.Ok? ==> forall j, i :: 0 <= j < |r.value.codes| && |r.value.trackIds| <= i < end - start ==>
              r.value.codes[j].rows[i] == None
    ensures r.Ok? ==> forall j, i :: 0 <= j < |r.value.codes| && 0 <= i < |r.value.trackIds| ==>
              (r.value.codes[j].rows[i] == None <==> num.extract(r.value.trackIds[i]).None?)
    ensures r.Ok? ==> forall j, i :: (0 <= j < |r.value.codes| && 0 <= i < |r.value.trackIds| &&
              num.extract(r.value.trackIds[i]).Some?) ==>
              lda.Some? && |lda.value| >= 3 &&
              r.value.codes[j].rows[i] ==
                Some(num.chromnorm(lda.value[j](num.median(num.fx(num.extract(r.value.trackIds[i]).value)))))
    ensures r.Err? && (r.error.LdaNotLoaded? || r.error.LdaTooShort?) ==>
              var slice := PySlice(trackIds, start, end);
              r.error.row < |slice| && num.extract(slice[r.error.row]).Some? &&
              forall i :: 0 <= i < r.error.row ==> num.extract(slice[i]).None?
    ensures (ParseK(d).Ok? && (lda.None? || |lda.value| < 3) &&
             exists i :: 0 <= i < |PySlice(trackIds, start, end)| &&
                         num.extract(PySlice(trackIds, start, end)[i]).Some?) ==> r.Err?
  {
    var parsed := ParseK(d);
    if parsed.Err? {
      return Err(parsed.error);
    }
    var tids := PySlice(trackIds, start, end);
    var cids := PySlice(cliqueIds, start, end);
    var filled := FillUriShard(end - start, tids, lda, num);
    if filled.Err? {
      return Err(filled.error);
    }
    r := Ok(Artifact(filled.value, tids, cids));
  }

  /** The allocate-and-fill part of `compute_codes_it` of uri_SHS_test.py,
      over the tracks `tids` of a shard of `rows` rows. */
  method FillUriShard(rows: nat, tids: seq<string>, lda: Option<seq<Vector -> Vector>>, num: Numerics)
    returns (r: Result<seq<CodeMatrix>, BuildError>)
    requires |tids| <= rows
    ensures r.Err? ==> (r.error.LdaNotLoaded? && lda.None?) || (r.error.LdaTooShort? && lda.Some? && |lda.value| < 3)
    ensures r.Err? ==> r.error.row < |tids| && num.extract(tids[r.error.row]).Some? &&
                       forall i :: 0 <= i < r.error.row ==> num.extract(tids[i]).None?
    ensures r.Ok? ==> Widths(r.value) == ReducedWidths
    ensures r.Ok? ==> forall j :: 0 <= j < |r.value| ==> |r.value[j].rows| == rows
    ensures r.Ok? ==> forall j, i :: 0 <= j < |r.value| && |tids| <= i < rows ==> r.value[j].rows[i] == None
    ensures r.Ok? ==> forall j, i :: 0 <= j < |r.value| && 0 <= i < |tids| ==>
              (r.value[j].rows[i] == None <==> num.extract(tids[i]).None?)
    ensures r.Ok? ==> forall j, i :: (0 <= j < |r.value| && 0 <= i < |tids| && num.extract(tids[i]).Some?) ==>
              lda.Some? && |lda.value| >= 3 &&
              r.value[j].rows[i] == Some(num.chromnorm(lda.value[j](num.median(num.fx(num.extract(tids[i]).value)))))
    ensures (lda.None? || |lda.value| < 3) && (exists i :: 0 <= i < |tids| && num.extract(tids[i]).Some?) ==> r.Err?
  {
    var step := (i: nat) => UriStep(num, lda, tids, i);
    r := FillShard(ReducedWidths, rows, |tids|, step);
    if r.Err? {
      // the shard stops at the first failing row f: the first successful extraction
      ghost var f :| 0 <= f < |tids| && step(f) == Fail(r.error) &&
                     forall i' :: 0 <= i' < f ==> !step(i').Fail?;
      assert r.error.row == f;
      forall i | 0 <= i < f
        ensures num.extract(tids[i]).None?
      {
        assert !step(i).Fail?;
      }
    } else {
      forall i | 0 <= i < |tids| && num.extract(tids[i]).Some?
        ensures lda.Some? && |lda.value| >= 3
      {
        assert !step(i).Fail?;
      }
    }
  }

  /** The id slices have end - start entries, as many as the matrices have
      rows, exactly when the shard ends within the id list (or is empty). */
  lemma ShardAlignment<T>(ids: seq<T>, start: nat, end: nat)
    requires start <= end
    ensures |PySlice(ids, start, end)| == end - start <==> end <= |ids| || start == end
  {
  }
}
