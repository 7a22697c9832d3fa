/** The truth-to-reco response maker: its configuration setters, its
    tree-position bookkeeping, the jet-match acceptance test and the event
    loop that writes one response record per truth event. */
module ResponseMaker {
  import opened Common
  import opened Trees
  import opened Addresses
  import opened ResponseMakerConfig
  import opened Matching

  class Maker {
    var inTrueTree: Tree?<TrueBranches>
    var inRecoTree: Tree?<RecoBranches>
    var fTrueCurrent: int
    var fRecoCurrent: int
    var config: Config
    var trueIn: TrueInput
    var recoIn: RecoInput
    var matchOut: MatchOutput
    /** The entries filled into the response tree so far. */
    var filled: seq<MatchOutput>

    constructor (name: string, isComplex: bool, doDebug: bool, inBatch: bool, subsysVerbosity: int)
      ensures inTrueTree == null && inRecoTree == null
      ensures fTrueCurrent == 0 && fRecoCurrent == 0 && filled == []
      ensures trueIn.IsCleared() && recoIn.IsCleared() && matchOut.IsCleared()
      ensures config == DefaultConfig().(inComplexMode := isComplex, inStandaloneMode := !isComplex,
                                         verbosity := if isComplex then subsysVerbosity else 0,
                                         inDebugMode := doDebug, inBatchMode := inBatch, moduleName := name)
    {
      inTrueTree, inRecoTree := null, null;
      fTrueCurrent, fRecoCurrent := 0, 0;
      config := DefaultConfig();
      filled := [];
      new;
      InitializeAddresses();
      if isComplex {
        config := config.(inComplexMode := true, inStandaloneMode := false);
      } else {
        config := config.(inComplexMode := false, inStandaloneMode := true);
      }
      if config.inComplexMode {
        config := config.(verbosity := subsysVerbosity);
      }
      config := config.(inDebugMode := doDebug, inBatchMode := inBatch);
      config := config.(moduleName := name);
    }

    // ---- setters --------------------------------------------------------

    method SetInputNodes(iTrueNodeName: string, iRecoNodeName: string)
      modifies this`config
      ensures config == old(config).(inTrueNodeName := iTrueNodeName, inRecoNodeName := iRecoNodeName)
    {
      config := config.(inTrueNodeName := iTrueNodeName);
      config := config.(inRecoNodeName := iRecoNodeName);
    }

    method SetInputFiles(iTrueFileName: string, iRecoFileName: string)
      modifies this`config
      ensures config == old(config).(inTrueFileName := iTrueFileName, inRecoFileName := iRecoFileName)
    {
      config := config.(inTrueFileName := iTrueFileName);
      config := config.(inRecoFileName := iRecoFileName);
    }

    method SetInputTrees(iTrueTreeName: string, iRecoTreeName: string)
      modifies this`config
      ensures config == old(config).(inTrueTreeName := iTrueTreeName, inRecoTreeName := iRecoTreeName)
    {
      config := config.(inTrueTreeName := iTrueTreeName);
      config := config.(inRecoTreeName := iRecoTreeName);
    }

    method SetJetMatchQtRange(qtRange: Pair<real>)
      modifies this`config
      ensures config == old(config).(jetMatchQtRange := Pair(qtRange.first, qtRange.second))
    {
      config := config.(jetMatchQtRange := config.jetMatchQtRange.(first := qtRange.first));
      config := config.(jetMatchQtRange := config.jetMatchQtRange.(second := qtRange.second));
    }

    method SetJetMatchDrRange(drRange: Pair<real>)
      modifies this`config
      ensures config == old(config).(jetMatchDrRange := Pair(drRange.first, drRange.second))
    {
      config := config.(jetMatchDrRange := config.jetMatchDrRange.(first := drRange.first));
      config := config.(jetMatchDrRange := config.jetMatchDrRange.(second := drRange.second));
    }

    // ---- system methods -------------------------------------------------

    /** Clears every input and output address member. */
    method InitializeAddresses()
      modifies this`trueIn, this`recoIn, this`matchOut
      ensures trueIn.IsCleared() && recoIn.IsCleared() && matchOut.IsCleared()
    {
      trueIn := NoTrueInput;
      recoIn := NoRecoInput;
      matchOut := NoMatchOutput;
    }

    /** Both input trees must be present (the source aborts otherwise);
        both markers are reset to -1. */
    method InitializeTrees()
      requires inTrueTree != null && inRecoTree != null
      modifies this`fTrueCurrent, this`fRecoCurrent
      ensures fTrueCurrent == -1 && fRecoCurrent == -1
    {
      fTrueCurrent := -1;
      fRecoCurrent := -1;
    }

    method CheckCriticalParameters() returns (ok: bool)
      ensures ok
    {
      ok := true;
    }

    // ---- analysis methods -----------------------------------------------

    /** Both values strictly inside their configured ranges. */
    predicate IsJetGoodMatch(qtJet: real, drJet: real)
      reads this
    {
      var isInQtRange := qtJet > config.jetMatchQtRange.first && qtJet < config.jetMatchQtRange.second;
      var isInDrRange := drJet > config.jetMatchDrRange.first && drJet < config.jetMatchDrRange.second;
      isInQtRange && isInDrRange
    }

    /** The reading half of one pass of the event loop: clear the address
        members, then load and read the truth entry `iTrueEvt` and the reco
        entry at the same index. Returns both load statuses and both byte
        counts as the unsigned values the source stores. */
    method ReadEvent(iTrueEvt: nat) returns (trueEntry: nat, trueBytes: nat, recoEntry: nat, recoBytes: nat)
      requires inTrueTree != null && inRecoTree != null && iTrueEvt < |inTrueTree.data.entries|
      modifies this`trueIn, this`recoIn, this`matchOut, this`fTrueCurrent, this`fRecoCurrent
      modifies inTrueTree, inRecoTree
      ensures trueIn == TrueAt(inTrueTree.data.entries, iTrueEvt) && recoIn == RecoAt(inRecoTree.data.entries, iTrueEvt)
      ensures matchOut == NoMatchOutput
      ensures inTrueTree.number == inTrueTree.data.OutcomeAt(iTrueEvt).numberAfter
      ensures inRecoTree.number == inRecoTree.data.OutcomeAt(iTrueEvt).numberAfter
      ensures fTrueCurrent == NextCurrent(inTrueTree.data.OutcomeAt(iTrueEvt).loadStatus, old(inTrueTree.number),
                                          inTrueTree.data.OutcomeAt(iTrueEvt).numberAfter, old(fTrueCurrent))
      ensures fRecoCurrent == NextCurrent(inRecoTree.data.OutcomeAt(iTrueEvt).loadStatus, old(inRecoTree.number),
                                          inRecoTree.data.OutcomeAt(iTrueEvt).numberAfter, old(fRecoCurrent))
      ensures trueEntry == ToUint64(inTrueTree.data.OutcomeAt(iTrueEvt).loadStatus)
      ensures trueBytes == ToUint64(inTrueTree.data.OutcomeAt(iTrueEvt).bytes)
      ensures recoEntry == ToUint64(inRecoTree.data.OutcomeAt(iTrueEvt).loadStatus)
      ensures recoBytes == ToUint64(inRecoTree.data.OutcomeAt(iTrueEvt).bytes)
    {
      var trueTree, recoTree := inTrueTree, inRecoTree;
      InitializeAddresses();
      ClearedRecordsAreUnique(trueIn, recoIn, matchOut);

      // load truth entry
      var trueStatus, trueCurrent := LoadTree(iTrueEvt, trueTree, fTrueCurrent);
      fTrueCurrent := trueCurrent;
      trueEntry := ToUint64(trueStatus);
      var trueRead, trueLoaded := GetEntry(iTrueEvt, trueTree);
      trueIn := ReadTrue(trueIn, trueLoaded.value);
      trueBytes := ToUint64(trueRead);

      // load reco entry at the same index
      var recoStatus, recoCurrent := LoadTree(iTrueEvt, recoTree, fRecoCurrent);
      fRecoCurrent := recoCurrent;
      recoEntry := ToUint64(recoStatus);
      var recoRead, recoLoaded := GetEntry(iTrueEvt, recoTree);
      if recoLoaded.Some? {
        recoIn := ReadReco(recoIn, recoLoaded.value);
      }
      recoBytes := ToUint64(recoRead);
    }

    /** Copies the event-level pairs into the output members (the vertex-Z
        pair takes the truth value on both sides), runs the per-jet loop,
        whose body is empty in the source, and fills the response tree. */
    method FillEvent()
      modifies this`matchOut, this`filled
      ensures matchOut == old(matchOut).(numJets := Pair(trueIn.branches.numJets, recoIn.branches.numJets),
                                         numTrks := Pair(trueIn.branches.numChrgPars, recoIn.branches.numTrks),
                                         vtxX := Pair(trueIn.branches.vtxX, recoIn.branches.vtxX),
                                         vtxY := Pair(trueIn.branches.vtxY, recoIn.branches.vtxY),
                                         vtxZ := Pair(trueIn.branches.vtxZ, trueIn.branches.vtxZ))
      ensures old(matchOut) == NoMatchOutput ==> matchOut == EventRecord(trueIn, recoIn)
      ensures filled == old(filled) + [matchOut]
    {
      matchOut := matchOut.(numJets := Pair(trueIn.branches.numJets, recoIn.branches.numJets),
                            numTrks := Pair(trueIn.branches.numChrgPars, recoIn.branches.numTrks),
                            vtxX := Pair(trueIn.branches.vtxX, recoIn.branches.vtxX),
                            vtxY := Pair(trueIn.branches.vtxY, recoIn.branches.vtxY),
                            vtxZ := Pair(trueIn.branches.vtxZ, trueIn.branches.vtxZ));

      var iTrueJet := 0;
      while iTrueJet < trueIn.branches.numJets {
        iTrueJet := iTrueJet + 1;
      }

      filled := filled + [matchOut];
    }

    /** The event loop. For every truth entry, in order: clear the
        constituent buffers and the address members, load and read the truth
        entry and the reco entry at the same index, accumulate the bytes read
        with 64-bit wrap-around, and fill one response record. The `< 0`
        checks compare unsigned values and never fire, so every truth entry
        is filled. */
    method DoMatching() returns (nTrueBytes: nat, nRecoBytes: nat)
      requires inTrueTree != null && inRecoTree != null
      modifies this`trueIn, this`recoIn, this`matchOut, this`fTrueCurrent, this`fRecoCurrent, this`filled
      modifies inTrueTree, inRecoTree
      ensures filled == old(filled) + MatchRecords(inTrueTree.data.entries, inRecoTree.data.entries, |inTrueTree.data.entries|)
      ensures var n := |inTrueTree.data.entries|;
              && (n == 0 ==> unchanged(this`trueIn, this`recoIn, this`matchOut))
              && (n > 0 ==> && trueIn == TrueAt(inTrueTree.data.entries, n - 1)
                            && recoIn == RecoAt(inRecoTree.data.entries, n - 1)
                            && matchOut == EventRecord(trueIn, recoIn))
              && inTrueTree.number == NumberBefore(inTrueTree.data, old(inTrueTree.number), n)
              && inRecoTree.number == NumberBefore(inRecoTree.data, old(inRecoTree.number), n)
              && fTrueCurrent == CurrentAfter(inTrueTree.data, old(inTrueTree.number), old(fTrueCurrent), n)
              && fRecoCurrent == CurrentAfter(inRecoTree.data, old(inRecoTree.number), old(fRecoCurrent), n)
              && nTrueBytes == ByteTotal(inTrueTree.data, n)
              && nRecoBytes == ByteTotal(inRecoTree.data, n)
    {
      var trueTree, recoTree := inTrueTree, inRecoTree;
      var nTrueEvts := trueTree.GetEntriesFast();
      var nRecoEvts := recoTree.GetEntriesFast();  // only reported in the source

      var vecCst := EmptyCstMatchBuffers;
      nTrueBytes, nRecoBytes := 0, 0;
      var iTrueEvt := 0;
      while iTrueEvt < nTrueEvts
        invariant 0 <= iTrueEvt <= nTrueEvts
        invariant vecCst == EmptyCstMatchBuffers
        invariant filled == old(filled) + MatchRecords(trueTree.data.entries, recoTree.data.entries, iTrueEvt)
        invariant iTrueEvt == 0 ==> unchanged(this`trueIn, this`recoIn, this`matchOut)
        invariant iTrueEvt > 0 ==> && trueIn == TrueAt(trueTree.data.entries, iTrueEvt - 1)
                                   && recoIn == RecoAt(recoTree.data.entries, iTrueEvt - 1)
                                   && matchOut == EventRecord(trueIn, recoIn)
        invariant trueTree.number == NumberBefore(trueTree.data, old(trueTree.number), iTrueEvt)
        invariant recoTree.number == NumberBefore(recoTree.data, old(recoTree.number), iTrueEvt)
        invariant fTrueCurrent == CurrentAfter(trueTree.data, old(trueTree.number), old(fTrueCurrent), iTrueEvt)
        invariant fRecoCurrent == CurrentAfter(recoTree.data, old(recoTree.number), old(fRecoCurrent), iTrueEvt)
        invariant nTrueBytes == ByteTotal(trueTree.data, iTrueEvt)
        invariant nRecoBytes == ByteTotal(recoTree.data, iTrueEvt)
      {
        // clear the buffers and addresses, then load both entries
        vecCst := EmptyCstMatchBuffers;
        var trueEntry, trueBytes, recoEntry, recoBytes := ReadEvent(iTrueEvt);
        if trueEntry < 0 || trueBytes < 0 || recoEntry < 0 || recoBytes < 0 {
          break;
        }
        nTrueBytes := AddUint64(nTrueBytes, trueBytes);
        nRecoBytes := AddUint64(nRecoBytes, recoBytes);

        // set event info and fill
        FillEvent();
        iTrueEvt := iTrueEvt + 1;
      }
    }
  }

  /** A jet pair is a good match exactly when both its qT and its dR lie
      strictly inside the configured ranges; the range ends themselves are
      rejected. */
  lemma GoodMatchIsOpenRanges(m: Maker, qtJet: real, drJet: real)
    ensures m.IsJetGoodMatch(qtJet, drJet) <==>
            && m.config.jetMatchQtRange.first < qtJet < m.config.jetMatchQtRange.second
            && m.config.jetMatchDrRange.first < drJet < m.config.jetMatchDrRange.second
    ensures qtJet == m.config.jetMatchQtRange.first || qtJet == m.config.jetMatchQtRange.second ==> !m.IsJetGoodMatch(qtJet, drJet)
    ensures drJet == m.config.jetMatchDrRange.first || drJet == m.config.jetMatchDrRange.second ==> !m.IsJetGoodMatch(qtJet, drJet)
  {
  }

  /** An empty or inverted range (lower end at or above the upper end)
      accepts no jet pair at all. */
  lemma DegenerateRangeAcceptsNothing(m: Maker, qtJet: real, drJet: real)
    requires m.config.jetMatchQtRange.first >= m.config.jetMatchQtRange.second
             || m.config.jetMatchDrRange.first >= m.config.jetMatchDrRange.second
    ensures !m.IsJetGoodMatch(qtJet, drJet)
  {
  }

  /** Under the default configuration a pair is accepted exactly when
      0 < qT < 10 and 0 < dR < 10. */
  lemma DefaultAcceptsOpenZeroToTen(m: Maker, qtJet: real, drJet: real)
    requires m.config.jetMatchQtRange == DefaultConfig().jetMatchQtRange
    requires m.config.jetMatchDrRange == DefaultConfig().jetMatchDrRange
    ensures m.IsJetGoodMatch(qtJet, drJet) <==> 0.0 < qtJet < 10.0 && 0.0 < drJet < 10.0
  {
  }

  /** Widening either range never rejects a pair that was accepted: a
      configuration whose ranges contain another's accepts a superset. */
  lemma WiderRangesAcceptMore(m: Maker, wide: Maker, qtJet: real, drJet: real)
    requires wide.config.jetMatchQtRange.first <= m.config.jetMatchQtRange.first
    requires m.config.jetMatchQtRange.second <= wide.config.jetMatchQtRange.second
    requires wide.config.jetMatchDrRange.first <= m.config.jetMatchDrRange.first
    requires m.config.jetMatchDrRange.second <= wide.config.jetMatchDrRange.second
    ensures m.IsJetGoodMatch(qtJet, drJet) ==> wide.IsJetGoodMatch(qtJet, drJet)
  {
  }
}
