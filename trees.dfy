/** The input trees as the event loop sees them, and the rule by which the
    modules keep their "current tree" markers (`fCurrent`) up to date. */
module Trees {
  import opened Common

  /** What a tree reports for one entry: the status `LoadTree(entry)`
      returns, the tree number current after that load, and the byte count
      `GetEntry(entry)` returns. */
  datatype Outcome = Outcome(loadStatus: int, numberAfter: int, bytes: int)

  /** The fixed contents of an input `TTree` (or chain of trees): its entries
      (`GetEntriesFast()` counts them) and what loading and reading each entry
      reports; `beyond` is what it reports for any entry past `outcomes`. */
  datatype TreeData<E> = TreeData(entries: seq<E>, outcomes: seq<Outcome>, beyond: Outcome)
  {
    function OutcomeAt(entry: nat): Outcome {
      if entry < |outcomes| then outcomes[entry] else beyond
    }

    /** The record that reading `entry` puts into the bound addresses, if the entry exists. */
    function EntryAt(entry: nat): Option<E> {
      if entry < |entries| then Some(entries[entry]) else None
    }
  }

  /** An input tree: its fixed contents and the number of the tree currently
      loaded (`GetTreeNumber()`), which `LoadTree` may switch. Reading entry
      `i` stands for ROOT filling the bound branch addresses with that
      entry's values. */
  class Tree<E> {
    var number: int
    const data: TreeData<E>

    constructor (number0: int, contents: TreeData<E>)
      ensures number == number0 && data == contents
    {
      number := number0;
      data := contents;
    }

    function GetEntriesFast(): nat {
      |data.entries|
    }

    /** `TTree::LoadTree`: reports a status and may switch the current tree number. */
    method LoadTree(entry: nat) returns (status: int)
      modifies this`number
      ensures status == data.OutcomeAt(entry).loadStatus
      ensures number == data.OutcomeAt(entry).numberAfter
    {
      status := data.OutcomeAt(entry).loadStatus;
      number := data.OutcomeAt(entry).numberAfter;
    }

    /** `TTree::GetEntry`: reports the bytes read and fills the addresses. */
    method GetEntry(entry: nat) returns (bytes: int, loaded: Option<E>)
      ensures bytes == data.OutcomeAt(entry).bytes
      ensures loaded == data.EntryAt(entry)
    {
      bytes := data.OutcomeAt(entry).bytes;
      loaded := data.EntryAt(entry);
    }
  }

  /** The marker update of both modules' `LoadTree`: the marker takes the
      tree's number only when the load succeeded and the number read BEFORE
      the load differs from the marker. */
  function NextCurrent(status: int, preNumber: int, postNumber: int, fCurrent: int): (c: int)
    ensures c == fCurrent || c == postNumber
    ensures c != fCurrent ==> status >= 0 && preNumber != fCurrent
  {
    if status >= 0 && preNumber != fCurrent then postNumber else fCurrent
  }

  lemma NextCurrentRule(status: int, preNumber: int, postNumber: int, fCurrent: int)
    ensures status < 0 ==> NextCurrent(status, preNumber, postNumber, fCurrent) == fCurrent
    ensures preNumber == fCurrent ==> NextCurrent(status, preNumber, postNumber, fCurrent) == fCurrent
    ensures status >= 0 && preNumber != fCurrent ==> NextCurrent(status, preNumber, postNumber, fCurrent) == postNumber
  {
  }

  /** Because the comparison uses the pre-load number, a successful load that
      moves the tree to a new number while the marker equals the old number
      leaves the marker behind the tree. */
  lemma MarkerCanLagTree(status: int, preNumber: int, postNumber: int, fCurrent: int)
    requires status >= 0 && preNumber == fCurrent && postNumber != preNumber
    ensures NextCurrent(status, preNumber, postNumber, fCurrent) == fCurrent != postNumber
  {
  }

  /** The modules' `GetEntry(entry, tree)`: 0 for a missing tree, otherwise
      exactly what the tree reports. */
  method GetEntry<E>(entry: nat, tree: Tree?<E>) returns (entryStatus: int, loaded: Option<E>)
    ensures tree == null ==> entryStatus == 0 && loaded == None
    ensures tree != null ==> entryStatus == tree.data.OutcomeAt(entry).bytes && loaded == tree.data.EntryAt(entry)
  {
    entryStatus := -1;
    loaded := None;
    if tree == null {
      entryStatus := 0;
    } else {
      entryStatus, loaded := tree.GetEntry(entry);
    }
  }

  /** The modules' `LoadTree(entry, tree, fCurrent)`: -5 with the marker
      untouched for a missing tree; otherwise the tree's own status, with the
      marker moved to the tree's new number only when that status is >= 0 and
      the number read before the load differs from the marker. `fCurrent` is
      passed by reference in the source: here it goes in as `fCurrent` and
      comes back as `newCurrent`. */
  method LoadTree<E>(entry: nat, tree: Tree?<E>, fCurrent: int) returns (treeStatus: int, newCurrent: int)
    modifies tree
    ensures tree == null ==> treeStatus == -5 && newCurrent == fCurrent
    ensures tree != null ==> treeStatus == tree.data.OutcomeAt(entry).loadStatus && tree.number == tree.data.OutcomeAt(entry).numberAfter
    ensures tree != null ==> newCurrent == NextCurrent(treeStatus, old(tree.number), tree.number, fCurrent)
  {
    var treeNumber := -1;
    treeStatus := -1;
    if tree == null {
      treeStatus := -5;
    } else {
      treeNumber := tree.number;
      treeStatus := tree.LoadTree(entry);
    }
    newCurrent := fCurrent;
    var isTreeStatusGood := treeStatus >= 0;
    var isNotCurrentTree := treeNumber != fCurrent;
    if isTreeStatusGood && isNotCurrentTree {
      newCurrent := tree.number;
    }
  }

  /** The tree number before the `k`-th of consecutive loads of entries 0, 1, ... */
  function NumberBefore<E>(d: TreeData<E>, number0: int, k: nat): int {
    if k == 0 then number0 else d.OutcomeAt(k - 1).numberAfter
  }

  /** The marker after loading entries 0 .. n-1 in order, starting from tree
      number `number0` and marker `fCurrent0`. */
  function CurrentAfter<E>(d: TreeData<E>, number0: int, fCurrent0: int, n: nat): int {
    if n == 0 then fCurrent0
    else NextCurrent(d.OutcomeAt(n - 1).loadStatus, NumberBefore(d, number0, n - 1),
                     d.OutcomeAt(n - 1).numberAfter, CurrentAfter(d, number0, fCurrent0, n - 1))
  }

  /** The marker only ever holds its initial value or a number the tree
      reported after a load that succeeded. */
  lemma {:induction false} CurrentAfterIsReported<E>(d: TreeData<E>, number0: int, fCurrent0: int, n: nat)
    ensures var c := CurrentAfter(d, number0, fCurrent0, n);
            c == fCurrent0 || exists k :: 0 <= k < n && d.OutcomeAt(k).loadStatus >= 0 && c == d.OutcomeAt(k).numberAfter
  {
    if n > 0 {
      CurrentAfterIsReported(d, number0, fCurrent0, n - 1);
    }
  }

  /** If no load among the first n succeeds, the marker is untouched. */
  lemma {:induction false} FailedLoadsKeepCurrent<E>(d: TreeData<E>, number0: int, fCurrent0: int, n: nat)
    requires forall k :: 0 <= k < n ==> d.OutcomeAt(k).loadStatus < 0
    ensures CurrentAfter(d, number0, fCurrent0, n) == fCurrent0
  {
    if n > 0 {
      FailedLoadsKeepCurrent(d, number0, fCurrent0, n - 1);
    }
  }
}
