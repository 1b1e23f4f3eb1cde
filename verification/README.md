# Large-scale cover song identification: the evaluation pipeline, modelled in Dafny

The two scripts `cover_id_test.py` and `uri_SHS_test.py` evaluate cover song
identification on the Million Song Dataset (MSD). The pipeline has three stages:

1. **Computing codes.** Every track gets a fixed-length code. Worker N walks its
   block of 100,000 MSD positions in ten shards of 10,000. For each shard it
   allocates one placeholder matrix per output width, fills row i when feature
   extraction of track i succeeds, and writes the matrices with the shard's
   track and clique ids to a file named after N and the shard number.
2. **Merging.** `load_codes` picks one matrix of every shard file and
   concatenates the rows, track ids and clique ids in file order.
3. **Scoring.** `score` answers one query per track that has a clique. It sorts
   all tracks by distance to the query. The rank list is every sorted position
   holding the same clique, except the earliest. A query alone in its clique
   gets `inf`. Tracks with clique `-1` are skipped without using a result slot.

The model has seven modules:

- `Common`: `Option`/`Result` and Python slicing.
- `Text`: `str()` of an integer, Python 2 `int()`, and `str.split`.
- `Shards`: shard ranges and file names.
- `Ranking`: the evaluator.
- `CodeBuilder`: the per-shard builders and the dictionary-size parse.
- `Merge`: `load_codes`.
- `Scheduler`: the per-worker loop of `compute_codes`.

Every numeric step is a parameter. One property is assumed of them, that NaN propagates (see "## Left out"):

- feature extraction, as a `string -> Option<Frames>` where `None` means extraction failed;
- the dictionary transform, the median, chroma normalisation, and the PCA and LDA projections;
- the distance.

A NaN placeholder row is `None`. An exception is an `Err` value.

The sort in `score` is `np.argsort` with numpy's default, unstable kind. It is
modelled as any permutation of the positions in non-decreasing distance order.
Every fact about the stored entries holds for every such permutation. A
permutation of this kind always exists (`Ranking.InsertionArgsort`).

## Model

| member | source | states |
|---|---|---|
| Common.PySlice | cover_id_test.py:101 | A Python slice `s[a:b]` clamps: it has max(0, min(b, len) - a) entries, entry k being s[a + k] |
| Text.NatToStringRoundTrip | cover_id_test.py:172-174 | Reading back the decimal digits `str(N)` writes gives N |
| Text.NatToStringInjective | cover_id_test.py:172-174 | Distinct numbers render to distinct decimal strings |
| Text.ParseIntRoundTrip | cover_id_test.py:110 | `int()` reads back `str(k)` for every integer k, with any whitespace around it |
| Text.ParseIntNeedsDigit | cover_id_test.py:110 | `int()` raises ValueError on a string with no decimal digit |
| Text.Split | cover_id_test.py:110 | `split(sep)` yields at least one field; no field contains sep; joining the fields with sep gives the input back |
| Text.SplitJoinRoundTrip | cover_id_test.py:110 | Splitting a join of separator-free fields gives exactly those fields back |
| Shards.WorkerShards | cover_id_test.py:164-170 | Worker N's ten ranges each hold 10,000 positions. The first starts at N*100000, the last ends at (N+1)*100000, and each range ends where the next begins |
| Shards.ShardOfCharacterizes | cover_id_test.py:167-170 | Position t lies in the range of (N, it), it < 10, exactly when t div 100000 = N and (t mod 100000) div 10000 = it |
| Shards.WorkerBlockTiled | cover_id_test.py:164-170 | A position is in worker N's block exactly when one of its ten shards holds it, and no two of those shards share a position |
| Shards.PoolTiled | cover_id_test.py:164-170 | The shards of workers 0 .. W-1 cover exactly the positions below W*100000, each position in one shard only |
| Shards.ShardNameRoundTrip | cover_id_test.py:172-175 | The padded name `strN + str(it) + "-msd-codes.pk"` reads back to (N, it) for it < 10 |
| Shards.ShardNameInjective | cover_id_test.py:172-175 | Two shards with it < 10 get the same file name exactly when their (N, it) are equal |
| Shards.UriShardNameRoundTrip | uri_SHS_test.py:76 | The unpadded name `str(N) + str(it) + "-msd-codes.pk"` reads back to (N, it) for it < 10 |
| Shards.UriShardNameInjective | uri_SHS_test.py:76 | The unpadded names are injective too, since `it` is always one digit |
| Ranking.MatchPositions | cover_id_test.py:204 | `argwhere(sorted == c)`: exactly the positions holding c, strictly increasing, as many as c occurs |
| Ranking.RankList | cover_id_test.py:204 | `[1:]` of the match positions: strictly increasing, within [1, M-1], exactly the positions holding c after the earliest one, one fewer than c occurs |
| Ranking.ReorderPermutation | cover_id_test.py:202-203 | Reordering the clique ids by an argsort keeps their multiset |
| Ranking.QueryEntryFacts | cover_id_test.py:201-206 | Query i's entry is `inf` iff its clique has one member. Otherwise it has clique size - 1 ranks, strictly increasing, within [1, M-1], and each rank's sorted track shares the query's clique |
| Ranking.EntryInfIffSingleton | cover_id_test.py:204-206 | Query i's rank list is empty exactly when no other track has its clique |
| Ranking.TieBreakingIrrelevant | cover_id_test.py:202-206 | Any two permutations give rank lists of equal length, and the same entry kind (`inf` or not) |
| Ranking.SelfSortedFirst | cover_id_test.py:201-202 | When the query is at distance 0 from itself and at a positive distance from every other track, every argsort puts the query first |
| Ranking.SelfNeverCounted | cover_id_test.py:201-204 | With distinct features and dist(x, x) = 0 minimal, the query sorts first, so the kept ranks are all same-clique positions except the query itself |
| Ranking.InsertionArgsort | cover_id_test.py:202 | Every distance row has an argsort: a permutation of its positions in non-decreasing order |
| Ranking.Queries | cover_id_test.py:198-200 | The query positions are strictly increasing, and each holds a track whose clique is not -1 |
| Ranking.QueriesCount | cover_id_test.py:198-207 | There are as many queries as tracks whose clique is not -1, so q ends at that count and every such track is a query |
| Ranking.Score | cover_id_test.py:192-215 | `score` with N slots succeeds iff every query past slot N is alone in its clique. On success, slot k < q holds query k's entry (`inf` iff singleton), slots from q on stay `inf`, and q is the number of queries. On failure, q is the first query past the slots with a non-empty rank list |
| Ranking.ScoreLoop | cover_id_test.py:193-207 | The loop of `score` over any permutations, with the same outcome as `Ranking.Score` |
| Ranking.ScoreStep | cover_id_test.py:199-207 | One iteration. A `-1` track changes nothing. Any other track becomes the next query. A non-empty rank list fills its slot, or overflows when q >= N |
| Ranking.ScoreFinished | cover_id_test.py:193-215 | When the loop ends, the container is the expected one, entries are `inf` iff singleton, and unreached slots are `inf` |
| Ranking.UriScore | uri_SHS_test.py:108-132 | The same evaluator with exactly 5236 slots. It succeeds iff every query past slot 5236 is alone in its clique, and otherwise fails at the first such query that is not |
| CodeBuilder.ParseKRoundTrip | cover_id_test.py:110 | K is the integer between the first `E` and the next `E` (or the end) of the second `_`-field, whatever surrounds it |
| CodeBuilder.ParseKMissingField | cover_id_test.py:110 | A name with no `_`, or whose second `_`-field has no `E`, raises IndexError |
| CodeBuilder.FillShard | cover_id_test.py:112-141 | One matrix per width, each with end - start rows, all placeholders at first. Row i gets step i's codes when filled and stays a placeholder when skipped or past the slice. The shard fails iff some step raises, and then with the exception of the first step that raises, as the `for` loop stops there |
| CodeBuilder.LdaProject | cover_id_test.py:135-139 | Three renormalised LDA projections, or IndexError when fewer than three models are loaded |
| CodeBuilder.Postprocess | cover_id_test.py:130-141 | One code per matrix: three with LDA, one without |
| CodeBuilder.ComputeCodesIt | cover_id_test.py:104-145 | A malformed dictionary name raises, and so does a negative K without LDA. Widths are 50/100/200 with LDA, else [K], each matrix with end - start rows. The id slices are returned. Without origcodes, a row is a placeholder in every matrix iff its extraction failed, and is otherwise the post-processed median code. With origcodes, row i is post-processed from origcodes[i], and a placeholder row of origcodes stays a placeholder. The shard is built iff the name parses, K is not negative without LDA, and no row raises (`CodeBuilder.CoverFillSucceeds`). So with origcodes it needs origcodes covering the slice and, with fewer than three LDA models, an empty slice; without origcodes and with fewer than three LDA models, every extraction must fail. Any other exception is a short origcodes or a short LDA list, raised at the first failing row |
| CodeBuilder.CoverStepsSucceed | cover_id_test.py:121-141 | No row of a shard raises exactly when origcodes cover the slice and, with fewer than three LDA models, the slice is empty; or, without origcodes, when fewer than three LDA models go with every extraction failing |
| CodeBuilder.CoverFirstFailure | cover_id_test.py:121-139 | The first failing row names itself in the exception. With origcodes, it is row 0 when fewer than three LDA models are loaded, and otherwise the row just past origcodes. Without origcodes, it is the first track whose extraction succeeds |
| CodeBuilder.ComputeCodesOrigIt | cover_id_test.py:77-102 | Never raises. Widths are 50/100/200 with end - start rows. Row i at width w is the PCA projection of the normalised median when extraction succeeds, and a placeholder otherwise |
| CodeBuilder.UriComputeCodesIt | uri_SHS_test.py:36-61 | K is parsed and a malformed name raises. There are always three matrices 50/100/200 with end - start rows. A failed extraction leaves a placeholder row. Without at least three LDA models, the shard raises as soon as one extraction in it succeeds, naming the first such row. So the shard is built iff the name parses and, without an LDA list of at least three models, every extraction fails (`CodeBuilder.UriFillSucceeds`) |
| CodeBuilder.ShardAlignment | uri_SHS_test.py:46-60 | The id slices have end - start entries, matching the matrix rows, iff end <= len(track_ids) or the shard is empty |
| Merge.LoadWidthsMatchBuilders | cover_id_test.py:218-227 | lda_idx 0/1/2 selects the builders' widths 50/100/200, and -1 selects 2045. Any other index is rejected. uri_SHS_test.py accepts 0/1/2 only |
| Merge.PyIndex | cover_id_test.py:234 | `codes[0][lda_idx]` is defined exactly for -len <= lda_idx < len, and then reads the entry at lda_idx modulo len, so a negative index counts from the end |
| Merge.PyHead | cover_id_test.py:230-231 | `code_files[:max_files]` is a prefix, clamped, with a negative bound counting from the end |
| Merge.MergeFiles | cover_id_test.py:233-236 | The merge succeeds iff every file has a matrix of the expected width at the index. A failure names the first file that does not fit, and IndexError means it had no such matrix |
| Merge.LoadCodes | cover_id_test.py:217-241 | An unknown index fails before any file is read. Success requires that every file kept by `max_files` fits |
| Merge.UriLoadCodes | uri_SHS_test.py:81-106 | Succeeds iff the index is 0/1/2 and every file has a matrix of that width there |
| Merge.UriAgreesWithCover | uri_SHS_test.py:83-89 | The two loaders agree on 0/1/2. Only cover_id_test.py accepts -1 |
| Merge.WhichShardsFit | cover_id_test.py:218-234 | A shard written with LDA fits exactly the indices 0/1/2. A single-matrix shard of width K fits -1 iff K = 2045, and 0 iff K = 50 |
| Merge.MergeSplit | cover_id_test.py:233-236 | Merging a + b succeeds iff both merges do, and then it is their concatenation, componentwise |
| Merge.MergeAppend | cover_id_test.py:233-236 | Appending a file adds its chosen rows, track ids and clique ids at the end |
| Merge.MergeAligned | cover_id_test.py:233-236 | If every file has as many rows as ids, the merge has one track id and one clique id per feature row |
| Merge.MergeMiddle | cover_id_test.py:233-236 | The merge of pre + [a] + tail is pre's merge, then a's rows and ids, then tail's merge |
| Merge.MergeLockstep | cover_id_test.py:233-236 | A file's k-th row, track id and clique id land at the same merged position, just after everything the earlier files contributed |
| Merge.LoadCodesIgnoresLaterFiles | cover_id_test.py:230-231 | With max_files = m, the files after the first m do not affect the result |
| Merge.LoadCodesNegativeMax | cover_id_test.py:230-231 | A negative max_files drops that many files from the end |
| Scheduler.CoverShard | cover_id_test.py:167-188 | Shard `it` gets its range, its padded name and the first matrix of its same-named origcodes file. An empty dictionary name never raises. A bad name raises, and so does a negative K without LDA. When an origcodes file is given and the dictionary name is non-empty, saved rows derive from its rows, and its placeholder rows stay placeholders. The shard is written iff the builder can handle it (`Scheduler.CoverShardSucceeds`). Otherwise the exception is a bad name, a negative K without LDA, a short origcodes matrix or a short LDA list |
| Scheduler.ComputeCodes | cover_id_test.py:147-190 | At most ten files are written, with names ShardName(N, it) in order, each holding its range's id slices and 10,000-row matrices. A worker stops exactly when it wrote fewer than ten. It writes all ten iff every shard satisfies `Scheduler.CoverShardSucceeds`, and it stops at the first shard that does not. A bad dictionary name stops it before the first file. The exception is one of the four a non-empty dictionary name allows |
| Scheduler.UriShard | uri_SHS_test.py:70-79 | Shard `it` gets its range and unpadded name. It is written iff the name parses and, without an LDA list of at least three models, no extraction in the shard succeeds (`Scheduler.UriShardSucceeds`). Otherwise the exception is a bad name, a missing LDA list or a short one |
| Scheduler.UriComputeCodes | uri_SHS_test.py:63-79 | At most ten files, named UriShardName(N, it) in order, each holding its range's id slices and three LDA matrices of 10,000 rows. A worker stops exactly when it wrote fewer than ten. It writes all ten iff every shard satisfies `Scheduler.UriShardSucceeds`: the name parses and, without an LDA list of at least three models, no extraction in the shard succeeds. It stops at the first shard that does not. The exception is a bad name, a missing LDA list or a short one. A bad name stops it before the first file |
| Scheduler.WorkerFilesDistinct | cover_id_test.py:172-175 | No two files a worker writes share a name |
| Scheduler.CompleteRunCoversBlock | cover_id_test.py:164-190 | After a complete run, each track of the block sits in the file ShardOf names, at its offset, next to its clique id |

## Left out

- Scheduler.UriComputeCodes: the worker index is a natural number. uri_SHS_test.py reads `-N` as any integer and passes it on unchecked. A negative N would slice from the end of the id list, giving an empty last shard, and would write names such as `-10`. This is not modelled.
- Scheduler.CoverShard: the origcodes file is given as a total map from a file name to its first matrix. The IndexError of `[0][0]` on a file with no matrices, and a missing or unreadable file, are not modelled.
- Pickle loading and saving, `glob` enumeration and output directories are left out as I/O. The file list is an input sequence in glob order. File names are modelled without their directory part, so the `msd_codes/` prefix of uri_SHS_test.py and the joins with `outdir` and `origcodesdir` are not included.
- The `multiprocessing.Pool` dispatch in `main` is left out as concurrency. Each worker is modelled on its own (`Scheduler.ComputeCodes`), and the shards of different workers are disjoint (`Shards.PoolTiled`).
- Argument parsing, logging and printing, `sys.exit`, timing, and the branch in `main` that loads a ready merged codes file are left out as plumbing. The evaluator's slot count is a parameter, which `main` sets to the number of tracks in the clique file.
- Floating point is not modelled. `N*1e5 + it*1e4` is computed exactly, which matches Python for every N whose positions fit in a double.
- The numeric steps are not modelled: median, chroma normalisation, PCA and LDA transforms, `cdist` and the distance. They are opaque function parameters, so numpy shape and broadcasting errors are not modelled either. NaN is modelled in one place only. An all-NaN origcodes row is taken to stay all-NaN through normalisation, PCA and LDA, so it stays a placeholder (`CodeBuilder.PlaceholderStep`). A transform that rejects NaN input is not modelled.
- CodeBuilder.ComputeCodesIt: a code whose length differs from its matrix's width is stored as is. numpy would raise instead, so a mismatch between K and the code length is not modelled as an error.
- Ranking.Score: requires as many feature rows as clique ids, and so does `Ranking.UriScore`. The IndexError the source raises at `feats[i]` or `clique_ids[s]` on misaligned input is not modelled. Such input can arise when a shard ends past the id list (`CodeBuilder.ShardAlignment`) and `clean_feats` does not drop the extra rows.
- Ranking.Score: the comparison `clique_id == -1` on numpy values, and the exact shape of `argwhere`'s output, are not modelled. A rank list is a sequence of positions.
- Feature extraction, `clean_feats`, `read_shs_file`, `load_transform` and the `analyze_stats` metrics (average rank, MAP) are defined in files outside this model. They are taken as given functions or not used.
- `if feats == None` is modelled as "extraction returned nothing". Its behaviour on numpy arrays in different numpy versions is not modelled.
