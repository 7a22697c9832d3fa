# SCorrelatorResponseMaker in Dafny

This project models the two analysis modules of SCorrelatorResponseMaker:

- `SCorrelatorResponseMaker` matches truth jets to reconstructed jets.
- `SCorrelatorFolder` is the folding module.

The per-jet matching itself is not yet written in the source; its loop body is empty. The model covers what the modules do today:

- **Response maker, configuration and acceptance test.** The configuration record and its defaults. The name and match-range setters. The jet-match acceptance test `IsJetGoodMatch`.
- **Address reset.** `InitializeAddresses` clears every input and output address member.
- **Tree-position bookkeeping.** The `fCurrent` markers that `LoadTree` keeps, and the byte counts that `GetEntry` reports. Both are against an abstract input tree.
- **The `DoMatching` event loop.** For every truth entry it clears the per-event buffers and the address members. It reads the truth entry and the reco entry at the same index. It accumulates the bytes read in `uint64_t` counters. It copies the event-level (truth, reco) pairs into the output members, with vertex Z taken from the truth side on both sides. It fills one response record.
- **Folder reset and setters.** The member reset, the tree initialisation, and the jet, constituent and match-range setters, including the pT range that `SetJetParameters` derives from its stored bin vector.

Modules:

- `Common`: `Option`, `Pair` (a C++ `pair`, or a two-element array with `[0]` as `first`), an opaque `Ptr`, and the `uint64_t`/`uint32_t` conversions.
- `Trees`: an input tree as a class.
  - Its current tree number changes; its contents (`TreeData`) are fixed: entries plus what loading and reading each entry reports.
  - The modules' `LoadTree` and `GetEntry` wrappers, which both modules define identically.
  - The marker-update rule and its consequences over a run of loads.
- `Addresses`: the truth, reco and response address members as value records.
  - The `vector<...>*` pointer members become `Option` values; `None` is a null pointer.
  - The input records are split into the branch values a read writes (`TrueBranches`, `RecoBranches`) and the members a read cannot reach: the truth parton sum, which has no branch, and the vector pointers, which are handed to `SetBranchAddress` by value.
  - Each record has a "cleared" predicate.
- `ResponseMakerConfig`: `SCorrelatorResponseMakerConfig` and its default values.
- `Matching`: the value-level specification of the event loop.
  - The record filled for each event; the records of a whole run.
  - The wrapping byte totals.
- `ResponseMaker`: class `Maker`, the response maker, whose methods update its members in place. `DoMatching` is proved against `Matching`.
- `CorrelatorFolder`: class `Folder`, the folding module, its setters and its reset.

Parameters stand in for the environment:

- The Fun4All `Verbosity()` value is the constructor parameter `subsysVerbosity`.
- The headers' default arguments are not modelled; callers pass every argument. The defaults are the class name as module name, `isComplex`, `doDebug` and `inBatch` all false, and `isTruthTree = false` for the folder's `SetInputTree`.
- ROOT trees are `Tree` objects built from their contents.

## Model

| member | source | states |
|---|---|---|
| Common.ToUint64 | src/SCorrelatorResponseMaker.ana.h:65-82 | the `uint64_t` a signed status or byte count becomes when stored unsigned: below 2^64, unchanged for non-negative values, `x + 2^64` for negative `int64_t` values, congruent to `x` modulo 2^64 |
| Common.ToUint32 | src/SCorrelatorFolder.io.h:39-40 | the bin count seen by the `uint32_t` loop counter: below 2^32, and equal to the size for any size below 2^32 |
| Trees.Tree.LoadTree | src/SCorrelatorResponseMaker.sys.h:409 | the tree's own load reports its status for the entry and moves the tree to the number it reports afterwards; the contents are untouched |
| Trees.Tree.GetEntry | src/SCorrelatorResponseMaker.sys.h:389 | the tree's own read reports its byte count for the entry and delivers the entry's record when the entry exists |
| Trees.GetEntry | src/SCorrelatorResponseMaker.sys.h:380-393 | a null tree returns 0 and fills nothing; otherwise the result is exactly the tree's byte count and record. SCorrelatorFolder.sys.h lines 306-319 are the same code |
| Trees.LoadTree | src/SCorrelatorResponseMaker.sys.h:397-420 | a null tree returns -5 and leaves the marker unchanged; otherwise the result is exactly the tree's own status; the marker moves to the post-load number only when that status is >= 0 and the pre-load number differs from the marker. SCorrelatorFolder.sys.h lines 323-346 are the same code |
| Trees.NextCurrentRule | src/SCorrelatorResponseMaker.sys.h:413-417 | all three cases of the marker update: a failed load keeps the marker, a pre-load number equal to the marker keeps it, and otherwise the marker takes the post-load number |
| Trees.NextCurrent | src/SCorrelatorResponseMaker.sys.h:412-417 | the marker after one load: it is either the old marker or the post-load number, and it changes only when the status is >= 0 and the pre-load number differs from the marker |
| Trees.MarkerCanLagTree | src/SCorrelatorResponseMaker.sys.h:408-417 | for every status >= 0, every marker and every switch to a new number: when the marker equals the pre-load number, it is kept and so differs from the tree's new number |
| Trees.CurrentAfterIsReported | src/SCorrelatorResponseMaker.ana.h:43-79 | across a run of loads of entries 0, 1, ..., the marker only ever holds its initial value or a number the tree reported after a successful load |
| Trees.FailedLoadsKeepCurrent | src/SCorrelatorResponseMaker.sys.h:413-417 | if no load in a run succeeds, the marker keeps its initial value |
| Addresses.ClearedRecordsAreUnique | src/SCorrelatorResponseMaker.sys.h:25-116 | the reset values satisfy the "cleared" predicates, and a record is cleared exactly when it equals the reset value: counts and vertices 0, every input array pointer null, every output pair zero or empty |
| Addresses.ReadTrue | src/SCorrelatorResponseMaker.sys.h:143-169 | a truth read writes exactly the bound scalars (counts, partons and vertex) and leaves the parton sum and the vector pointers as they were |
| Addresses.ReadReco | src/SCorrelatorResponseMaker.sys.h:172-192 | a reco read writes exactly the bound scalars (counts, vertex and calorimeter sums) and leaves the vector pointers as they were |
| Addresses.ReadIntoClearedKeepsUnbound | src/SCorrelatorResponseMaker.sys.h:143-192 | after a read into cleared members, the truth parton sum is still 0 and every vector pointer on both sides is still null, whatever the entry holds |
| Addresses.ReadTwiceIsReadOnce | src/SCorrelatorResponseMaker.sys.h:143-192 | repeating a read changes nothing, and the later of two reads alone decides the bound members |
| Addresses.NoJetContentIsAligned | src/SCorrelatorResponseMaker.sys.h:89-116 | a response record without jet or constituent entries has equal-length truth and reco columns |
| ResponseMakerConfig.DefaultConfig | src/SCorrelatorResponseMakerConfig.h:21-43 | the value of a default-constructed configuration, with every member at its declared default |
| ResponseMakerConfig.DefaultModes | src/SCorrelatorResponseMakerConfig.h:24-28 | by default: standalone mode, not complex mode, debug and batch off, verbosity 0 |
| ResponseMakerConfig.DefaultNamesEmpty | src/SCorrelatorResponseMakerConfig.h:29-36 | by default the module, file, node and tree names are all empty |
| ResponseMakerConfig.DefaultMatchRanges | src/SCorrelatorResponseMakerConfig.h:39-41 | by default the constituent fraction range is (0, 1) and the jet qT and dR ranges are (0, 10) |
| Matching.TrueAt | src/SCorrelatorResponseMaker.ana.h:62-68 | the truth members at the fill of event i: the cleared members with truth entry i read into them |
| Matching.RecoAt | src/SCorrelatorResponseMaker.ana.h:79-82 | the reco members at the fill of event i: the cleared members with the reco entry at index i read into them, or still cleared when the reco tree has no such entry |
| Matching.EventRecord | src/SCorrelatorResponseMaker.ana.h:90-95 | the response members at the fill: the event-level pairs from the two inputs over cleared output. It has no jet content, and both sides of its vertex-Z pair are the truth vertex Z |
| Matching.MatchRecords | src/SCorrelatorResponseMaker.ana.h:43-107 | the records filled by the first n passes of the event loop: exactly one per pass |
| Matching.MatchRecordsAt | src/SCorrelatorResponseMaker.ana.h:65-105 | record i is built from truth entry i and the reco entry at the same index i |
| Matching.RunRecordContents | src/SCorrelatorResponseMaker.ana.h:91-105 | a full run fills one record per truth event, and record i holds (trueNumJets, recoNumJets), (trueNumChrgPars, recoNumTrks), (trueVtxX, recoVtxX), (trueVtxY, recoVtxY) and (trueVtxZ, trueVtxZ) of event i; it has no jet-level content and its columns are aligned |
| Matching.RecordsPastRecoEnd | src/SCorrelatorResponseMaker.ana.h:62-93 | when the reco tree is shorter, the fills past its end carry the cleared reco values (zero counts and vertices) |
| Matching.RecoVtxZNeverCopied | src/SCorrelatorResponseMaker.ana.h:95 | the reco vertex Z never reaches the output: reco streams that differ only in vertex Z give identical records |
| Matching.NoCrossEventLeakage | src/SCorrelatorResponseMaker.ana.h:46-62 | because every pass clears the buffers and addresses first, record i depends only on the entries at index i, never on earlier events |
| Matching.AddUint64 | src/SCorrelatorResponseMaker.ana.h:73 | `uint64_t` addition: the sum is below 2^64 and is exact when the true sum is below 2^64 |
| Matching.ByteTotal | src/SCorrelatorResponseMaker.ana.h:41-87 | the byte counter after n reads always fits in `uint64_t` |
| Matching.ByteTotalIsWrappedSum | src/SCorrelatorResponseMaker.ana.h:41-87 | the counter equals the exact sum of the unsigned byte counts reduced modulo 2^64, so it equals the sum whenever the sum stays below 2^64 |
| Matching.ReduceBeforeAdd | src/SCorrelatorResponseMaker.ana.h:73 | adding to an already-wrapped counter gives the same result as wrapping the exact sum |
| ResponseMaker.Maker.constructor | src/SCorrelatorResponseMaker.cc:26-54 | after construction: trees null, markers 0, nothing filled, all addresses cleared, and the default configuration with complex/standalone mode from `isComplex`, verbosity taken from the framework only in complex mode, debug and batch from the arguments, and the module name |
| ResponseMaker.Maker.SetInputNodes | src/SCorrelatorResponseMaker.io.h:20-29 | the first argument becomes the truth node name and the second the reco node name; the rest of the configuration is unchanged |
| ResponseMaker.Maker.SetInputFiles | src/SCorrelatorResponseMaker.io.h:33-42 | the first argument becomes the truth file name and the second the reco file name; nothing else changes |
| ResponseMaker.Maker.SetInputTrees | src/SCorrelatorResponseMaker.io.h:46-55 | the first argument becomes the truth tree name and the second the reco tree name; nothing else changes |
| ResponseMaker.Maker.SetJetMatchQtRange | src/SCorrelatorResponseMaker.io.h:59-68 | the qT range becomes exactly (p.first, p.second); nothing else changes |
| ResponseMaker.Maker.SetJetMatchDrRange | src/SCorrelatorResponseMaker.io.h:72-81 | the dR range becomes exactly (p.first, p.second); nothing else changes |
| ResponseMaker.Maker.InitializeAddresses | src/SCorrelatorResponseMaker.sys.h:20-119 | every truth, reco and response address member is cleared, and only those members change |
| ResponseMaker.Maker.InitializeTrees | src/SCorrelatorResponseMaker.sys.h:123-138 | requires both trees to be present; sets both markers to -1 and changes nothing else |
| ResponseMaker.Maker.CheckCriticalParameters | src/SCorrelatorResponseMaker.sys.h:368-376 | always returns true and changes nothing |
| ResponseMaker.Maker.IsJetGoodMatch | src/SCorrelatorResponseMaker.ana.h:114-124 | the jet-match test: qT strictly inside the configured qT range and dR strictly inside the configured dR range |
| ResponseMaker.GoodMatchIsOpenRanges | src/SCorrelatorResponseMaker.ana.h:114-124 | a jet pair is a good match if and only if lo < qT < hi and lo < dR < hi; a value equal to either bound is rejected |
| ResponseMaker.DegenerateRangeAcceptsNothing | src/SCorrelatorResponseMaker.ana.h:119-121 | an empty or inverted qT or dR range accepts no pair |
| ResponseMaker.DefaultAcceptsOpenZeroToTen | src/SCorrelatorResponseMaker.ana.h:119-121 | with the default ranges a pair is accepted exactly when 0 < qT < 10 and 0 < dR < 10 |
| ResponseMaker.WiderRangesAcceptMore | src/SCorrelatorResponseMaker.ana.h:119-121 | a configuration whose ranges contain another's accepts every pair the other accepts |
| ResponseMaker.Maker.ReadEvent | src/SCorrelatorResponseMaker.ana.h:61-88 | one pass's reads: the addresses are cleared first; the truth entry and the reco entry, both at the same index, are loaded and read into the bound members only; each marker follows the update rule; the statuses and byte counts come back as the unsigned values the source stores |
| ResponseMaker.Maker.FillEvent | src/SCorrelatorResponseMaker.ana.h:90-105 | the output pairs take the event-level (truth, reco) values, with vertex Z from truth on both sides, and exactly that record is appended to the filled entries |
| ResponseMaker.Maker.DoMatching | src/SCorrelatorResponseMaker.ana.h:20-110 | the records filled are exactly `MatchRecords` over all truth entries, one per truth event with no early break; the tree numbers and markers are the result of the run of loads; the byte counters are the wrapping totals; the members hold the last event's values, or are unchanged for an empty truth tree |
| CorrelatorFolder.NullPtrs | src/SCorrelatorFolder.sys.h:108-160 | the branch pointer reset: n pointers, all null |
| CorrelatorFolder.DerivedPtRange | src/SCorrelatorFolder.io.h:46-47 | the pT range read from the stored vector: the low end of element 0 and the high end of element nBins - 1, whatever the vector held before the call |
| CorrelatorFolder.FreshBinsSpanTheirRange | src/SCorrelatorFolder.io.h:40-47 | on an empty bin vector the derived pT range is (low end of the first input bin, high end of the last) |
| CorrelatorFolder.StoredBinsShadowNewRange | src/SCorrelatorFolder.io.h:40-47 | on a vector that already holds bins, the derived range's low end comes from the old first bin; if at least nBins bins were stored, the new bins do not affect the range at all |
| CorrelatorFolder.StalePtRangeExample | src/SCorrelatorFolder.io.h:40-47 | a second call with stored bin (0, 5) and new bins (10, 20), (20, 30) derives (0, 20) rather than (10, 30) |
| CorrelatorFolder.Folder.constructor | src/SCorrelatorFolder.cc:25-53 | after construction the members are reset, the modes come from `isComplex`, verbosity comes from the framework only in complex mode, debug, batch and module name come from the arguments, and the bin vector and tree name are empty |
| CorrelatorFolder.Folder.SetInputTree | src/SCorrelatorFolder.io.h:19-28 | stores the tree name and the truth flag; nothing else changes |
| CorrelatorFolder.Folder.SetJetParameters | src/SCorrelatorFolder.io.h:32-53 | the eta range becomes (minEta, maxEta) and the bin count becomes the input size; the first nBins input bins are appended in order to the stored vector without clearing it; the pT range comes from element 0 and element nBins - 1 of the whole vector |
| CorrelatorFolder.Folder.SetJetParametersReplacing | src/SCorrelatorFolder.io.h:37-47 | corrected form: the stored vector is exactly the input bins, and the pT range is (first input low, last input high) |
| CorrelatorFolder.Folder.SetConstituentParameters | src/SCorrelatorFolder.io.h:57-71 | the momentum range becomes (minMom, maxMom) and the dR range (minDr, maxDr); nothing else changes |
| CorrelatorFolder.Folder.SetJetMatchQtRange | src/SCorrelatorFolder.io.h:75-81 | the jet qT range becomes (first, second); the other matching parameters are unchanged |
| CorrelatorFolder.Folder.SetJetMatchDrRange | src/SCorrelatorFolder.io.h:85-91 | the jet dR range becomes (first, second); the other matching parameters are unchanged |
| CorrelatorFolder.Folder.SetCstMatchQtRange | src/SCorrelatorFolder.io.h:95-101 | the constituent qT range becomes (first, second); the other matching parameters are unchanged |
| CorrelatorFolder.Folder.SetCstMatchDrRange | src/SCorrelatorFolder.io.h:105-111 | the constituent dR range becomes (first, second); the other matching parameters are unchanged |
| CorrelatorFolder.Folder.InitializeMembers | src/SCorrelatorFolder.sys.h:19-162 | after the reset: file and tree pointers null; markers 0; standalone mode with complex, debug and batch off and verbosity 0; all names empty; addresses cleared; the minimum constituent percent and both jet match ranges zero; all 28 truth and 21 reco branch pointers null. The constituent match ranges are unchanged |
| CorrelatorFolder.Folder.InitializeTrees | src/SCorrelatorFolder.sys.h:166-181 | requires both trees to be present; sets both markers to -1 and changes nothing else |
| CorrelatorFolder.Folder.CheckCriticalParameters | src/SCorrelatorFolder.sys.h:294-302 | always returns true and changes nothing |

## Left out

- **Jet and constituent matching.** The per-jet loop body is a TODO in the source, so the model's loop runs over the truth jets and does nothing. There is no best-match, fraction or constituent-ID logic to model.
- **ROOT I/O.** Not modelled: opening the input and output files, fetching trees from files, `GrabInputNodes`, `SaveOutput`, and `SetMakeClass`/`SetBranchAddress` in `InitializeTrees`.
  - A tree's entries are the values of its scalar branches. Reading an entry stands for ROOT writing them into the members bound to them (`ReadTrue`, `ReadReco`). Vector branches are bound through pointers passed by value, so reads never reach them, and the model gives them no contents.
- **The response tree.** `m_matchTree` is never created in the source. Its `Fill()` is modelled as appending the current response members to `filled`.
- **Logging.** `PrintMessage`, `PrintDebug` and `PrintError` are console output and are left out.
- **Lifecycle hooks.** The Fun4All hooks, the standalone Init/Analyze/End and the destructors call into I/O and are left out.
- **Floating point.** Doubles and floats are mathematical reals. Only comparisons and copies are applied to them.
- ResponseMaker.Maker.ReadEvent: the source checks each status and byte count with `< 0` right after reading it. The model performs both reads first and checks all four values afterwards.
  - Every value is a `uint64_t`, so none of the checks can fire, and the order cannot be observed.
  - The reco status of the pass where a check would fire is not distinguished.
- ResponseMaker.Maker.DoMatching: the per-event constituent buffers are cleared at the top of every pass, and the loop invariant keeps them empty. Nothing in the source reads them; only the unwritten matching would. The reco entry count is computed but only reported in the source, so the model does not constrain it.
- **Folder and response maker member sets.** `SCorrelatorFolder.h` declares a different member set from the one `SCorrelatorFolder.sys.h` and `SCorrelatorFolder.io.h` assign. The model follows the system and i/o methods.
  - The match-range setters in `SCorrelatorFolder.io.h` are defined on `SCorrelatorJetTree`; the model puts them on the folder.
  - The response maker's setters write configuration members through names the header does not declare. The model writes its `config` record.
- CorrelatorFolder.Folder.SetJetParameters: the type of `m_nBinsJetPt` is not declared anywhere. It is modelled as the `uint32_t` the loop counter uses.
  - The precondition is a non-zero bin count, because the source indexes element `nBins - 1`.
- **InitializeTrees (both modules).** The source asserts that both trees are present, and the model requires it.
- **Members no reset touches.** The C++ constructors leave some members uninitialised: the folder's constituent match ranges and jet/constituent parameters. The model leaves them unconstrained.
- **SetConfig and GetConfig** in `SCorrelatorResponseMaker.h` are plain header accessors and are left out.
- **Setter idempotence.** For the response maker's setters and the folder's `SetInputTree`, `SetConstituentParameters` and match-range setters, the `ensures` defines the new members from the arguments alone. Repeating such a call with the same arguments therefore leaves the state unchanged, so no separate lemma states it.
  - `SetJetParameters` is not idempotent: each call appends its bins, so a repeated call lengthens the stored vector (see Findings).

## Findings

| source | as written | input that shows it | evidently intended | confidence | as-written member | corrected member |
|---|---|---|---|---|---|---|
| src/SCorrelatorFolder.io.h:40-47 | `SetJetParameters` appends the new bins to `m_ptJetBins` without clearing it, then reads elements 0 and nBins - 1 of the whole vector | a first call with bin (0, 5) followed by a call with bins (10, 20), (20, 30) gives pT range (0, 20) | the pT range spans the bins just given: (10, 30) | medium (the first call after construction is correct); not executed | CorrelatorFolder.StalePtRangeExample | CorrelatorFolder.Folder.SetJetParametersReplacing |
