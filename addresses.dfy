/** The tree-address members: the per-event values read from the truth and
    reco input trees, and the per-event values written to the response tree.
    A vector pointer member (`vector<...>*`) is an `Option`: `None` is the
    null pointer. The input members are split into the branch values a read
    writes and the members it cannot reach. */
module Addresses {
  import opened Common

  /** The truth-tree branch values of one entry: the members `InitializeTrees`
      binds with `SetBranchAddress` to a scalar address, and so the members a
      read writes. */
  datatype TrueBranches = TrueBranches(
    numJets: int,
    numChrgPars: int,
    partonID: Pair<int>,
    partonMomX: Pair<real>,
    partonMomY: Pair<real>,
    partonMomZ: Pair<real>,
    vtxX: real,
    vtxY: real,
    vtxZ: real)

  /** The truth-tree vector pointer members. */
  datatype TrueVectors = TrueVectors(
    jetID: Option<seq<nat>>,
    jetNumCst: Option<seq<nat>>,
    jetEne: Option<seq<real>>,
    jetPt: Option<seq<real>>,
    jetEta: Option<seq<real>>,
    jetPhi: Option<seq<real>>,
    jetArea: Option<seq<real>>,
    cstID: Option<seq<seq<int>>>,
    cstZ: Option<seq<seq<real>>>,
    cstDr: Option<seq<seq<real>>>,
    cstEne: Option<seq<seq<real>>>,
    cstJt: Option<seq<seq<real>>>,
    cstEta: Option<seq<seq<real>>>,
    cstPhi: Option<seq<seq<real>>>)

  /** The truth-tree address members of one event: the bound scalars, the
      parton sum (which has no branch) and the vector pointers. */
  datatype TrueInput = TrueInput(branches: TrueBranches, sumPar: real, vectors: TrueVectors)
  {
    /** Every vector pointer member is null. */
    predicate HasNullVectors() {
      && vectors.jetID == None && vectors.jetNumCst == None && vectors.jetEne == None
      && vectors.jetPt == None && vectors.jetEta == None && vectors.jetPhi == None
      && vectors.jetArea == None
      && vectors.cstID == None && vectors.cstZ == None && vectors.cstDr == None
      && vectors.cstEne == None && vectors.cstJt == None && vectors.cstEta == None
      && vectors.cstPhi == None
    }

    /** Every count, parton value and vertex value is 0 and every vector pointer is null. */
    predicate IsCleared() {
      && branches.numJets == 0 && branches.numChrgPars == 0
      && branches.partonID == Pair(0, 0)
      && branches.partonMomX == Pair(0.0, 0.0) && branches.partonMomY == Pair(0.0, 0.0)
      && branches.partonMomZ == Pair(0.0, 0.0)
      && branches.vtxX == 0.0 && branches.vtxY == 0.0 && branches.vtxZ == 0.0
      && sumPar == 0.0
      && HasNullVectors()
    }
  }

  /** The reco-tree branch values of one entry: the members bound to a
      scalar address, and so the members a read writes. */
  datatype RecoBranches = RecoBranches(
    numJets: int,
    numTrks: int,
    vtxX: real,
    vtxY: real,
    vtxZ: real,
    sumECal: real,
    sumHCal: real)

  /** The reco-tree vector pointer members. */
  datatype RecoVectors = RecoVectors(
    jetID: Option<seq<nat>>,
    jetNumCst: Option<seq<nat>>,
    jetEne: Option<seq<real>>,
    jetPt: Option<seq<real>>,
    jetEta: Option<seq<real>>,
    jetPhi: Option<seq<real>>,
    jetArea: Option<seq<real>>,
    cstMatchID: Option<seq<seq<int>>>,
    cstZ: Option<seq<seq<real>>>,
    cstDr: Option<seq<seq<real>>>,
    cstEne: Option<seq<seq<real>>>,
    cstJt: Option<seq<seq<real>>>,
    cstEta: Option<seq<seq<real>>>,
    cstPhi: Option<seq<seq<real>>>)

  /** The reco-tree address members of one event. */
  datatype RecoInput = RecoInput(branches: RecoBranches, vectors: RecoVectors)
  {
    /** Every vector pointer member is null. */
    predicate HasNullVectors() {
      && vectors.jetID == None && vectors.jetNumCst == None && vectors.jetEne == None
      && vectors.jetPt == None && vectors.jetEta == None && vectors.jetPhi == None
      && vectors.jetArea == None
      && vectors.cstMatchID == None && vectors.cstZ == None && vectors.cstDr == None
      && vectors.cstEne == None && vectors.cstJt == None && vectors.cstEta == None
      && vectors.cstPhi == None
    }

    /** Every count, vertex value and energy sum is 0 and every vector pointer is null. */
    predicate IsCleared() {
      && branches.numJets == 0 && branches.numTrks == 0
      && branches.vtxX == 0.0 && branches.vtxY == 0.0 && branches.vtxZ == 0.0
      && branches.sumECal == 0.0 && branches.sumHCal == 0.0
      && HasNullVectors()
    }
  }

  /** The response-tree address members: (truth, reco) pairs at event, jet
      and constituent level. */
  datatype MatchOutput = MatchOutput(
    numJets: Pair<int>,
    numTrks: Pair<int>,
    vtxX: Pair<real>,
    vtxY: Pair<real>,
    vtxZ: Pair<real>,
    jetID: Pair<seq<nat>>,
    jetNumCst: Pair<seq<nat>>,
    jetEne: Pair<seq<real>>,
    jetPt: Pair<seq<real>>,
    jetEta: Pair<seq<real>>,
    jetPhi: Pair<seq<real>>,
    jetArea: Pair<seq<real>>,
    cstID: Pair<seq<seq<int>>>,
    cstZ: Pair<seq<seq<real>>>,
    cstDr: Pair<seq<seq<real>>>,
    cstEne: Pair<seq<seq<real>>>,
    cstJt: Pair<seq<seq<real>>>,
    cstEta: Pair<seq<seq<real>>>,
    cstPhi: Pair<seq<seq<real>>>)
  {
    /** No jet-level or constituent-level entry on either side. */
    predicate HasNoJetContent() {
      && jetID == Pair([], []) && jetNumCst == Pair([], []) && jetEne == Pair([], [])
      && jetPt == Pair([], []) && jetEta == Pair([], []) && jetPhi == Pair([], [])
      && jetArea == Pair([], [])
      && cstID == Pair([], []) && cstZ == Pair([], []) && cstDr == Pair([], [])
      && cstEne == Pair([], []) && cstJt == Pair([], []) && cstEta == Pair([], [])
      && cstPhi == Pair([], [])
    }

    /** Every event-level pair is zero and there is no jet content. */
    predicate IsCleared() {
      && numJets == Pair(0, 0) && numTrks == Pair(0, 0)
      && vtxX == Pair(0.0, 0.0) && vtxY == Pair(0.0, 0.0) && vtxZ == Pair(0.0, 0.0)
      && HasNoJetContent()
    }

    /** Truth-side and reco-side columns have equal length at jet and
        constituent level, so index i names one (truth, reco) pairing. */
    predicate IsAligned() {
      && |jetID.first| == |jetID.second| && |jetNumCst.first| == |jetNumCst.second|
      && |jetEne.first| == |jetEne.second| && |jetPt.first| == |jetPt.second|
      && |jetEta.first| == |jetEta.second| && |jetPhi.first| == |jetPhi.second|
      && |jetArea.first| == |jetArea.second|
      && |cstID.first| == |cstID.second| && |cstZ.first| == |cstZ.second|
      && |cstDr.first| == |cstDr.second| && |cstEne.first| == |cstEne.second|
      && |cstJt.first| == |cstJt.second| && |cstEta.first| == |cstEta.second|
      && |cstPhi.first| == |cstPhi.second|
    }
  }

  const NoTrueInput: TrueInput :=
    TrueInput(TrueBranches(0, 0, Pair(0, 0), Pair(0.0, 0.0), Pair(0.0, 0.0), Pair(0.0, 0.0), 0.0, 0.0, 0.0),
              0.0,
              TrueVectors(None, None, None, None, None, None, None, None, None, None, None, None, None, None))

  const NoRecoInput: RecoInput :=
    RecoInput(RecoBranches(0, 0, 0.0, 0.0, 0.0, 0.0, 0.0),
              RecoVectors(None, None, None, None, None, None, None, None, None, None, None, None, None, None))

  const NoMatchOutput: MatchOutput :=
    MatchOutput(Pair(0, 0), Pair(0, 0), Pair(0.0, 0.0), Pair(0.0, 0.0), Pair(0.0, 0.0),
                Pair([], []), Pair([], []), Pair([], []), Pair([], []), Pair([], []), Pair([], []), Pair([], []),
                Pair([], []), Pair([], []), Pair([], []), Pair([], []), Pair([], []), Pair([], []), Pair([], []))

  /** The cleared records are cleared, and being cleared pins every member down. */
  lemma ClearedRecordsAreUnique(t: TrueInput, r: RecoInput, m: MatchOutput)
    ensures NoTrueInput.IsCleared() && NoRecoInput.IsCleared() && NoMatchOutput.IsCleared()
    ensures t.IsCleared() <==> t == NoTrueInput
    ensures r.IsCleared() <==> r == NoRecoInput
    ensures m.IsCleared() <==> m == NoMatchOutput
  {
  }

  /** A record with no jet content is trivially aligned. */
  lemma NoJetContentIsAligned(m: MatchOutput)
    requires m.HasNoJetContent()
    ensures m.IsAligned()
  {
  }

  /** The truth members after ROOT reads entry `e` into `cur`: the bound
      scalars take the entry's values. `sumPar` has no branch, and the
      vector pointers are handed to `SetBranchAddress` by value, so a read
      leaves both as they were. */
  function ReadTrue(cur: TrueInput, e: TrueBranches): (t: TrueInput)
    ensures t.branches == e
    ensures t.sumPar == cur.sumPar && t.vectors == cur.vectors
  {
    cur.(branches := e)
  }

  /** The reco members after ROOT reads entry `e` into `cur`: the bound
      scalars take the entry's values and the vector pointers are kept. */
  function ReadReco(cur: RecoInput, e: RecoBranches): (r: RecoInput)
    ensures r.branches == e && r.vectors == cur.vectors
  {
    cur.(branches := e)
  }

  /** A read into cleared members: whatever the entry holds, `sumPar` stays
      0 and every vector pointer stays null, on both sides. */
  lemma ReadIntoClearedKeepsUnbound(e: TrueBranches, f: RecoBranches)
    ensures ReadTrue(NoTrueInput, e).sumPar == 0.0 && ReadTrue(NoTrueInput, e).HasNullVectors()
    ensures ReadReco(NoRecoInput, f).HasNullVectors()
  {
  }

  /** Reading the same entry twice leaves the members as one read does, and
      the later of two reads decides the bound members. */
  lemma ReadTwiceIsReadOnce(cur: TrueInput, e: TrueBranches, e2: TrueBranches, rcur: RecoInput, f: RecoBranches)
    ensures ReadTrue(ReadTrue(cur, e), e) == ReadTrue(cur, e)
    ensures ReadTrue(ReadTrue(cur, e2), e) == ReadTrue(cur, e)
    ensures ReadReco(ReadReco(rcur, f), f) == ReadReco(rcur, f)
  {
  }

  /** The per-event constituent-matching buffers of `DoMatching` (local
      (truth, reco) vector pairs). */
  datatype CstMatchBuffers = CstMatchBuffers(
    id: Pair<seq<int>>,
    z: Pair<seq<real>>,
    dr: Pair<seq<real>>,
    ene: Pair<seq<real>>,
    jt: Pair<seq<real>>,
    eta: Pair<seq<real>>,
    phi: Pair<seq<real>>)

  const EmptyCstMatchBuffers: CstMatchBuffers :=
    CstMatchBuffers(Pair([], []), Pair([], []), Pair([], []), Pair([], []), Pair([], []), Pair([], []), Pair([], []))
}
