/** The folding module: its member reset, its tree bookkeeping and its
    parameter setters. The members are those its system and i/o methods
    assign (the class declaration in its header lists a different set). */
module CorrelatorFolder {
  import opened Common
  import opened Trees
  import opened Addresses

  /** The number of truth-tree and reco-tree branch pointer members. */
  const TRUE_BRANCH_COUNT: nat := 28
  const RECO_BRANCH_COUNT: nat := 21

  /** The pT range `SetJetParameters` derives from the stored bin vector:
      the low end of element 0 and the high end of element `nBins - 1`. */
  function DerivedPtRange(stored: seq<Pair<real>>, nBins: nat): Pair<real>
    requires 0 < nBins <= |stored|
  {
    Pair(stored[0].first, stored[nBins - 1].second)
  }

  /** On an empty vector the derived range spans the given bins: from the
      low end of the first to the high end of the last. */
  lemma FreshBinsSpanTheirRange(bins: seq<Pair<real>>, nBins: nat)
    requires 0 < nBins <= |bins|
    ensures var stored := [] + bins[..nBins];
            && |stored| == nBins
            && DerivedPtRange(stored, nBins) == Pair(bins[0].first, bins[nBins - 1].second)
  {
  }

  /** On a vector that already holds bins the new bins are appended after
      them, and the derived range takes its low end from the OLD first bin;
      when at least `nBins` bins were stored, the range ignores the new bins
      altogether. */
  lemma StoredBinsShadowNewRange(before: seq<Pair<real>>, bins: seq<Pair<real>>, nBins: nat)
    requires 0 < nBins <= |bins| && 0 < |before|
    ensures DerivedPtRange(before + bins[..nBins], nBins).first == before[0].first
    ensures nBins <= |before| ==> DerivedPtRange(before + bins[..nBins], nBins) == DerivedPtRange(before, nBins)
    ensures nBins > |before| ==> DerivedPtRange(before + bins[..nBins], nBins).second == bins[nBins - 1 - |before|].second
  {
  }

  /** A second call with one stored bin (0, 5) and new bins (10, 20),
      (20, 30) derives (0, 20) instead of (10, 30). */
  lemma StalePtRangeExample()
    ensures var before := [Pair(0.0, 5.0)];
            var bins := [Pair(10.0, 20.0), Pair(20.0, 30.0)];
            && DerivedPtRange(before + bins[..2], 2) == Pair(0.0, 20.0)
            && Pair(bins[0].first, bins[1].second) == Pair(10.0, 30.0)
  {
    var before := [Pair(0.0, 5.0)];
    var bins := [Pair(10.0, 20.0), Pair(20.0, 30.0)];
    assert before + bins[..2] == [Pair(0.0, 5.0), Pair(10.0, 20.0), Pair(20.0, 30.0)];
  }

  /** `n` branch pointers, all null. */
  function NullPtrs(n: nat): (ptrs: seq<Ptr>)
    ensures |ptrs| == n && forall i :: 0 <= i < n ==> ptrs[i] == Null
  {
    seq(n, _ => Null)
  }

  /** The folder's file pointer members. */
  datatype Files = Files(outFile: Ptr, inTrueFile: Ptr, inRecoFile: Ptr)

  /** The folder's verbosity, mode flags and name members. */
  datatype Settings = Settings(
    verbosity: int,
    inDebugMode: bool,
    inBatchMode: bool,
    inComplexMode: bool,
    inStandaloneMode: bool,
    moduleName: string,
    inTrueFileName: string,
    inRecoFileName: string,
    inTrueNodeName: string,
    inRecoNodeName: string,
    inTrueTreeName: string,
    inRecoTreeName: string,
    outFileName: string)

  /** The folder's matching parameters; each range is a two-element array. */
  datatype MatchParameters = MatchParameters(
    minPercentMatchCsts: real,
    jetMatchQtRange: Pair<real>,
    jetMatchDrRange: Pair<real>,
    cstMatchQtRange: Pair<real>,
    cstMatchDrRange: Pair<real>)

  /** The values `InitializeMembers` gives the system members: standalone
      mode, complex, debug and batch mode off, verbosity 0, every name empty. */
  const ResetSettings: Settings := Settings(0, false, false, false, true, "", "", "", "", "", "", "", "")

  class Folder {
    var files: Files
    var inTrueTree: Tree?<TrueBranches>
    var inRecoTree: Tree?<RecoBranches>
    var fTrueCurrent: int
    var fRecoCurrent: int
    var settings: Settings
    var trueIn: TrueInput
    var recoIn: RecoInput
    var matching: MatchParameters
    var trueBranches: seq<Ptr>
    var recoBranches: seq<Ptr>

    // input tree and jet/constituent parameters
    var inTreeName: string
    var isInputTreeTruth: bool
    var etaJetRange: Pair<real>
    var nBinsJetPt: nat
    var ptJetBins: seq<Pair<real>>
    var ptJetRange: Pair<real>
    var momCstRange: Pair<real>
    var drCstRange: Pair<real>

    /** The members the reset does not touch keep C++'s construction
        values: the bin vector and the tree name start empty, the remaining
        numeric members (and the constituent-match ranges) are left
        unconstrained. */
    constructor (name: string, isComplex: bool, doDebug: bool, inBatch: bool, subsysVerbosity: int)
      ensures IsReset()
      ensures settings == ResetSettings.(inComplexMode := isComplex, inStandaloneMode := !isComplex,
                                         verbosity := if isComplex then subsysVerbosity else 0,
                                         inDebugMode := doDebug, inBatchMode := inBatch, moduleName := name)
      ensures ptJetBins == [] && inTreeName == ""
    {
      ptJetBins := [];
      inTreeName := "";
      new;
      InitializeMembers();
      if isComplex {
        settings := settings.(inComplexMode := true, inStandaloneMode := false);
      } else {
        settings := settings.(inComplexMode := false, inStandaloneMode := true);
      }
      if settings.inComplexMode {
        settings := settings.(verbosity := subsysVerbosity);
      }
      settings := settings.(inDebugMode := doDebug, inBatchMode := inBatch);
      settings := settings.(moduleName := name);
    }

    /** Everything `InitializeMembers` resets apart from the settings: null
        files and trees, markers 0, cleared addresses, zero matching
        parameters (the constituent-match ranges excepted) and null branch
        pointers. */
    predicate IsReset()
      reads this
    {
      && files == Files(Null, Null, Null)
      && inTrueTree == null && inRecoTree == null
      && fTrueCurrent == 0 && fRecoCurrent == 0
      && trueIn.IsCleared() && recoIn.IsCleared()
      && matching.minPercentMatchCsts == 0.0
      && matching.jetMatchQtRange == Pair(0.0, 0.0) && matching.jetMatchDrRange == Pair(0.0, 0.0)
      && trueBranches == NullPtrs(TRUE_BRANCH_COUNT) && recoBranches == NullPtrs(RECO_BRANCH_COUNT)
    }

    // ---- i/o methods ------------------------------------------------------

    method SetInputTree(iTreeName: string, isTruthTree: bool)
      modifies this`inTreeName, this`isInputTreeTruth
      ensures inTreeName == iTreeName && isInputTreeTruth == isTruthTree
    {
      inTreeName := iTreeName;
      isInputTreeTruth := isTruthTree;
    }

    /** Stores the eta range and the bin count (truncated to 32 bits),
        appends the first `nBins` input bins to the stored vector in order
        without clearing it, and derives the pT range from the whole vector.
        The source indexes element `nBins - 1`, so it needs a non-zero count. */
    method SetJetParameters(pTjetBins: seq<Pair<real>>, minEta: real, maxEta: real)
      requires ToUint32(|pTjetBins|) > 0
      modifies this`etaJetRange, this`nBinsJetPt, this`ptJetBins, this`ptJetRange
      ensures etaJetRange == Pair(minEta, maxEta)
      ensures nBinsJetPt == ToUint32(|pTjetBins|) && nBinsJetPt <= |pTjetBins|
      ensures ptJetBins == old(ptJetBins) + pTjetBins[..nBinsJetPt]
      ensures ptJetRange == DerivedPtRange(ptJetBins, nBinsJetPt)
    {
      etaJetRange := etaJetRange.(first := minEta);
      etaJetRange := etaJetRange.(second := maxEta);
      nBinsJetPt := ToUint32(|pTjetBins|);
      var iPtBin := 0;
      while iPtBin < nBinsJetPt
        invariant iPtBin <= nBinsJetPt <= |pTjetBins|
        invariant etaJetRange == Pair(minEta, maxEta) && nBinsJetPt == ToUint32(|pTjetBins|)
        invariant ptJetBins == old(ptJetBins) + pTjetBins[..iPtBin]
      {
        var minPt := pTjetBins[iPtBin].first;
        var maxPt := pTjetBins[iPtBin].second;
        var ptBin := Pair(minPt, maxPt);
        ptJetBins := ptJetBins + [ptBin];
        iPtBin := iPtBin + 1;
      }
      ptJetRange := ptJetRange.(first := ptJetBins[0].first);
      ptJetRange := ptJetRange.(second := ptJetBins[nBinsJetPt - 1].second);
    }

    /** The corrected form: the stored vector is cleared first, so the
        derived pT range always spans the given bins. */
    method SetJetParametersReplacing(pTjetBins: seq<Pair<real>>, minEta: real, maxEta: real)
      requires ToUint32(|pTjetBins|) > 0
      modifies this`etaJetRange, this`nBinsJetPt, this`ptJetBins, this`ptJetRange
      ensures etaJetRange == Pair(minEta, maxEta)
      ensures nBinsJetPt == ToUint32(|pTjetBins|) && nBinsJetPt <= |pTjetBins|
      ensures ptJetBins == pTjetBins[..nBinsJetPt]
      ensures ptJetRange == Pair(pTjetBins[0].first, pTjetBins[nBinsJetPt - 1].second)
    {
      ptJetBins := [];
      SetJetParameters(pTjetBins, minEta, maxEta);
      FreshBinsSpanTheirRange(pTjetBins, nBinsJetPt);
    }

    method SetConstituentParameters(minMom: real, maxMom: real, minDr: real, maxDr: real)
      modifies this`momCstRange, this`drCstRange
      ensures momCstRange == Pair(minMom, maxMom) && drCstRange == Pair(minDr, maxDr)
    {
      momCstRange := momCstRange.(first := minMom);
      momCstRange := momCstRange.(second := maxMom);
      drCstRange := drCstRange.(first := minDr);
      drCstRange := drCstRange.(second := maxDr);
    }

    method SetJetMatchQtRange(qtRange: Pair<real>)
      modifies this`matching
      ensures matching == old(matching).(jetMatchQtRange := Pair(qtRange.first, qtRange.second))
    {
      matching := matching.(jetMatchQtRange := matching.jetMatchQtRange.(first := qtRange.first));
      matching := matching.(jetMatchQtRange := matching.jetMatchQtRange.(second := qtRange.second));
    }

    method SetJetMatchDrRange(drRange: Pair<real>)
      modifies this`matching
      ensures matching == old(matching).(jetMatchDrRange := Pair(drRange.first, drRange.second))
    {
      matching := matching.(jetMatchDrRange := matching.jetMatchDrRange.(first := drRange.first));
      matching := matching.(jetMatchDrRange := matching.jetMatchDrRange.(second := drRange.second));
    }

    method SetCstMatchQtRange(qtRange: Pair<real>)
      modifies this`matching
      ensures matching == old(matching).(cstMatchQtRange := Pair(qtRange.first, qtRange.second))
    {
      matching := matching.(cstMatchQtRange := matching.cstMatchQtRange.(first := qtRange.first));
      matching := matching.(cstMatchQtRange := matching.cstMatchQtRange.(second := qtRange.second));
    }

    method SetCstMatchDrRange(drRange: Pair<real>)
      modifies this`matching
      ensures matching == old(matching).(cstMatchDrRange := Pair(drRange.first, drRange.second))
    {
      matching := matching.(cstMatchDrRange := matching.cstMatchDrRange.(first := drRange.first));
      matching := matching.(cstMatchDrRange := matching.cstMatchDrRange.(second := drRange.second));
    }

    // ---- system methods -----------------------------------------------------

    /** Resets the file, tree, system, address, matching and branch members.
        The constituent-match ranges and the jet and constituent parameters
        are not touched. */
    method InitializeMembers()
      modifies this`files, this`inTrueTree, this`inRecoTree, this`fTrueCurrent, this`fRecoCurrent
      modifies this`settings, this`trueIn, this`recoIn, this`matching, this`trueBranches, this`recoBranches
      ensures IsReset() && settings == ResetSettings
      ensures matching.cstMatchQtRange == old(matching.cstMatchQtRange)
      ensures matching.cstMatchDrRange == old(matching.cstMatchDrRange)
    {
      // io members
      files := Files(Null, Null, Null);
      inTrueTree := null;
      inRecoTree := null;

      // system members
      fTrueCurrent := 0;
      fRecoCurrent := 0;
      settings := ResetSettings;

      // tree address members
      trueIn := NoTrueInput;
      recoIn := NoRecoInput;

      // matching parameters
      matching := matching.(minPercentMatchCsts := 0.0,
                            jetMatchQtRange := Pair(0.0, 0.0),
                            jetMatchDrRange := Pair(0.0, 0.0));

      // branch pointer members
      trueBranches := NullPtrs(TRUE_BRANCH_COUNT);
      recoBranches := NullPtrs(RECO_BRANCH_COUNT);
    }

    /** Both input trees must be present (the source aborts otherwise);
        both markers are reset to -1. */
    method InitializeTrees()
      requires inTrueTree != null && inRecoTree != null
      modifies this`fTrueCurrent, this`fRecoCurrent
      ensures fTrueCurrent == -1 && fRecoCurrent == -1
    {
      fTrueCurrent := -1;
      fRecoCurrent := -1;
    }

    method CheckCriticalParameters() returns (ok: bool)
      ensures ok
    {
      ok := true;
    }
  }
}
