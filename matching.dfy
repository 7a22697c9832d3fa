/** What the event loop of the response maker writes: one response record per
    truth event, built from the truth and reco entries at the same index, and
    the running byte counts it keeps. */
module Matching {
  import opened Common
  import opened Addresses
  import opened Trees

  /** The truth address members in place when event `i` is filled: the
      cleared members with truth entry `i` read into them. */
  function TrueAt(trueEvents: seq<TrueBranches>, i: nat): TrueInput
    requires i < |trueEvents|
  {
    ReadTrue(NoTrueInput, trueEvents[i])
  }

  /** The reco address members in place when event `i` is filled: the
      cleared members with the reco entry at the same index read into them,
      or the cleared members when the reco tree has no such entry (reading
      it fills nothing). */
  function RecoAt(recoEvents: seq<RecoBranches>, i: nat): RecoInput {
    if i < |recoEvents| then ReadReco(NoRecoInput, recoEvents[i]) else NoRecoInput
  }

  /** The response members at the moment of the fill: the cleared output with
      the event-level pairs set from the two inputs. The vertex-Z pair takes
      the truth value on BOTH sides. */
  function EventRecord(t: TrueInput, r: RecoInput): (rec: MatchOutput)
    ensures rec.HasNoJetContent()
    ensures rec.vtxZ.first == rec.vtxZ.second == t.branches.vtxZ
  {
    NoMatchOutput.(numJets := Pair(t.branches.numJets, r.branches.numJets),
                   numTrks := Pair(t.branches.numChrgPars, r.branches.numTrks),
                   vtxX := Pair(t.branches.vtxX, r.branches.vtxX),
                   vtxY := Pair(t.branches.vtxY, r.branches.vtxY),
                   vtxZ := Pair(t.branches.vtxZ, t.branches.vtxZ))
  }

  /** The records filled by the first `n` iterations of the event loop. */
  function MatchRecords(trueEvents: seq<TrueBranches>, recoEvents: seq<RecoBranches>, n: nat): (recs: seq<MatchOutput>)
    requires n <= |trueEvents|
    ensures |recs| == n
  {
    if n == 0 then []
    else MatchRecords(trueEvents, recoEvents, n - 1) + [EventRecord(TrueAt(trueEvents, n - 1), RecoAt(recoEvents, n - 1))]
  }

  /** Iteration i fills exactly one record, and it is built from entry i of
      both trees. */
  lemma {:induction false} MatchRecordsAt(trueEvents: seq<TrueBranches>, recoEvents: seq<RecoBranches>, n: nat, i: nat)
    requires i < n <= |trueEvents|
    ensures MatchRecords(trueEvents, recoEvents, n)[i] == EventRecord(TrueAt(trueEvents, i), RecoAt(recoEvents, i))
  {
    if i < n - 1 {
      MatchRecordsAt(trueEvents, recoEvents, n - 1, i);
    }
  }

  /** A full run fills one record per truth event, whatever the reco count;
      record i pairs (trueNumJets, recoNumJets), (trueNumChrgPars, recoNumTrks),
      (trueVtxX, recoVtxX), (trueVtxY, recoVtxY) and (trueVtxZ, trueVtxZ) of
      event i, and carries no jet-level content. */
  lemma RunRecordContents(trueEvents: seq<TrueBranches>, recoEvents: seq<RecoBranches>, i: nat)
    requires i < |trueEvents|
    ensures var recs := MatchRecords(trueEvents, recoEvents, |trueEvents|);
            var t, r := trueEvents[i], RecoAt(recoEvents, i).branches;
            && |recs| == |trueEvents|
            && recs[i].numJets == Pair(t.numJets, r.numJets)
            && recs[i].numTrks == Pair(t.numChrgPars, r.numTrks)
            && recs[i].vtxX == Pair(t.vtxX, r.vtxX)
            && recs[i].vtxY == Pair(t.vtxY, r.vtxY)
            && recs[i].vtxZ == Pair(t.vtxZ, t.vtxZ)
            && recs[i].HasNoJetContent()
            && recs[i].IsAligned()
  {
    MatchRecordsAt(trueEvents, recoEvents, |trueEvents|, i);
    NoJetContentIsAligned(MatchRecords(trueEvents, recoEvents, |trueEvents|)[i]);
  }

  /** When the reco tree is shorter than the truth tree, the records past its
      end carry zeros on the reco side. */
  lemma RecordsPastRecoEnd(trueEvents: seq<TrueBranches>, recoEvents: seq<RecoBranches>, i: nat)
    requires |recoEvents| <= i < |trueEvents|
    ensures var rec := MatchRecords(trueEvents, recoEvents, |trueEvents|)[i];
            rec.numJets.second == 0 && rec.numTrks.second == 0
            && rec.vtxX.second == 0.0 && rec.vtxY.second == 0.0
  {
    MatchRecordsAt(trueEvents, recoEvents, |trueEvents|, i);
  }

  /** The reco vertex Z is never copied: two reco streams that differ only in
      their vertex Z give identical records. */
  lemma {:induction false} RecoVtxZNeverCopied(trueEvents: seq<TrueBranches>, recoEvents: seq<RecoBranches>,
                                               otherReco: seq<RecoBranches>, n: nat)
    requires n <= |trueEvents|
    requires |otherReco| == |recoEvents|
    requires forall i :: 0 <= i < |recoEvents| ==> otherReco[i] == recoEvents[i].(vtxZ := otherReco[i].vtxZ)
    ensures MatchRecords(trueEvents, recoEvents, n) == MatchRecords(trueEvents, otherReco, n)
  {
    if n > 0 {
      RecoVtxZNeverCopied(trueEvents, recoEvents, otherReco, n - 1);
    }
  }

  /** Nothing leaks between events: record i of any run that reaches it
      depends only on the two entries of event i. */
  lemma NoCrossEventLeakage(trueEvents: seq<TrueBranches>, recoEvents: seq<RecoBranches>,
                            otherTrue: seq<TrueBranches>, otherReco: seq<RecoBranches>, n: nat, m: nat, i: nat)
    requires i < n <= |trueEvents| && i < m <= |otherTrue|
    requires trueEvents[i] == otherTrue[i] && RecoAt(recoEvents, i) == RecoAt(otherReco, i)
    ensures MatchRecords(trueEvents, recoEvents, n)[i] == MatchRecords(otherTrue, otherReco, m)[i]
  {
    MatchRecordsAt(trueEvents, recoEvents, n, i);
    MatchRecordsAt(otherTrue, otherReco, m, i);
  }

  /** `uint64_t` addition: wraps at 2^64 and is exact below it. */
  function AddUint64(a: nat, b: nat): (s: nat)
    ensures s < TWO_64
    ensures a + b < TWO_64 ==> s == a + b
  {
    (a + b) % TWO_64
  }

  /** The running byte count after `n` reads, kept in a `uint64_t`: each
      `int64_t` result is stored as unsigned and the sum wraps at 2^64. */
  function ByteTotal<E>(d: TreeData<E>, n: nat): (total: nat)
    ensures total < TWO_64
  {
    if n == 0 then 0 else AddUint64(ByteTotal(d, n - 1), ToUint64(d.OutcomeAt(n - 1).bytes))
  }

  /** The same reads added without wrap-around. */
  function ByteSum<E>(d: TreeData<E>, n: nat): nat {
    if n == 0 then 0 else ByteSum(d, n - 1) + ToUint64(d.OutcomeAt(n - 1).bytes)
  }

  /** The wrapping count is the exact sum reduced modulo 2^64; in particular
      it is exact as long as the sum stays below 2^64. */
  lemma {:induction false} ByteTotalIsWrappedSum<E>(d: TreeData<E>, n: nat)
    ensures ByteTotal(d, n) == ByteSum(d, n) % TWO_64
    ensures ByteSum(d, n) < TWO_64 ==> ByteTotal(d, n) == ByteSum(d, n)
  {
    if n > 0 {
      ByteTotalIsWrappedSum(d, n - 1);
      ReduceBeforeAdd(ByteSum(d, n - 1), ToUint64(d.OutcomeAt(n - 1).bytes));
    }
  }

  /** Reducing the running sum before adding does not change the result. */
  lemma ReduceBeforeAdd(a: nat, b: nat)
    ensures (a % TWO_64 + b) % TWO_64 == (a + b) % TWO_64
  {
    var q := a / TWO_64;
    assert a + b == (a % TWO_64 + b) + q * TWO_64;
  }
}
