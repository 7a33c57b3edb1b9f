/**
 * How an allocation reply's per-line quantities are merged into the stored
 * order: every stored line is compared with every snapshot line, in order,
 * and each snapshot line with the same id overwrites the stored line's
 * allocated quantity.
 */
module AllocationMerge {
  import opened Domain

  /** One stored line after the snapshot lines have been compared with it, first to last. */
  function ApplySnapshot(line: OrderLine, snapshot: seq<OrderLine>): (r: OrderLine)
    ensures r == line.(quantityAllocated := r.quantityAllocated)
    decreases |snapshot|
  {
    if snapshot == [] then line
    else
      var before := ApplySnapshot(line, snapshot[..|snapshot| - 1]);
      var last := snapshot[|snapshot| - 1];
      if last.id == line.id then before.(quantityAllocated := last.quantityAllocated) else before
  }

  /** Every stored line after the merge. */
  function MergeAllocated(stored: seq<OrderLine>, snapshot: seq<OrderLine>): seq<OrderLine>
  {
    seq(|stored|, i requires 0 <= i < |stored| => ApplySnapshot(stored[i], snapshot))
  }

  /** The index of the last snapshot line carrying `id`, or -1 when there is none. */
  function LastIndexOf(snapshot: seq<OrderLine>, id: Uuid): (k: int)
    ensures -1 <= k < |snapshot|
    ensures k >= 0 ==> snapshot[k].id == id
    ensures forall j | k < j < |snapshot| :: snapshot[j].id != id
    decreases |snapshot|
  {
    if snapshot == [] then -1
    else if snapshot[|snapshot| - 1].id == id then |snapshot| - 1
    else LastIndexOf(snapshot[..|snapshot| - 1], id)
  }

  /** A stored line takes the allocated quantity of the last snapshot line with its id, and keeps its own when none matches. */
  lemma {:induction false} ApplySnapshotTakesLastMatch(line: OrderLine, snapshot: seq<OrderLine>)
    ensures var k := LastIndexOf(snapshot, line.id);
      ApplySnapshot(line, snapshot)
        == if k < 0 then line else line.(quantityAllocated := snapshot[k].quantityAllocated)
    decreases |snapshot|
  {
    if snapshot != [] {
      var init := snapshot[..|snapshot| - 1];
      ApplySnapshotTakesLastMatch(line, init);
      if snapshot[|snapshot| - 1].id != line.id {
        assert LastIndexOf(snapshot, line.id) == LastIndexOf(init, line.id);
        var k := LastIndexOf(init, line.id);
        if k >= 0 {
          assert snapshot[k] == init[k];
        }
      }
    }
  }

  /** The merge neither adds nor removes lines, and changes nothing but allocated quantities. */
  lemma MergeKeepsLines(stored: seq<OrderLine>, snapshot: seq<OrderLine>)
    ensures |MergeAllocated(stored, snapshot)| == |stored|
    ensures forall i | 0 <= i < |stored| ::
      MergeAllocated(stored, snapshot)[i] == stored[i].(quantityAllocated := MergeAllocated(stored, snapshot)[i].quantityAllocated)
  {
  }

  /** A stored line matched by exactly one snapshot line takes that line's allocated quantity. */
  lemma MergeTakesMatchedQuantity(stored: seq<OrderLine>, snapshot: seq<OrderLine>, i: nat, j: nat)
    requires i < |stored| && j < |snapshot|
    requires snapshot[j].id == stored[i].id
    requires forall k | 0 <= k < |snapshot| && k != j :: snapshot[k].id != stored[i].id
    ensures MergeAllocated(stored, snapshot)[i] == stored[i].(quantityAllocated := snapshot[j].quantityAllocated)
  {
    ApplySnapshotTakesLastMatch(stored[i], snapshot);
  }

  /** A stored line that no snapshot line matches is left unchanged. */
  lemma MergeLeavesUnmatched(stored: seq<OrderLine>, snapshot: seq<OrderLine>, i: nat)
    requires i < |stored|
    requires forall k | 0 <= k < |snapshot| :: snapshot[k].id != stored[i].id
    ensures MergeAllocated(stored, snapshot)[i] == stored[i]
  {
    ApplySnapshotTakesLastMatch(stored[i], snapshot);
  }

  /** A last snapshot line with another id does not change which line is the last match. */
  lemma DropUnmatchedLast(s: seq<OrderLine>, id: Uuid)
    requires s != [] && s[|s| - 1].id != id
    ensures LastIndexOf(s, id) == LastIndexOf(s[..|s| - 1], id)
    ensures LastIndexOf(s, id) >= 0 ==> s[LastIndexOf(s, id)] == s[..|s| - 1][LastIndexOf(s, id)]
  {
  }

  /**
   * Removing a snapshot line whose id differs from `id` leaves the last line
   * carrying `id` unchanged, wherever the removed line stood.
   */
  lemma {:induction false} LastMatchSkipsOtherLine(s1: seq<OrderLine>, s2: seq<OrderLine>, other: OrderLine, id: Uuid)
    requires other.id != id
    ensures var a := LastIndexOf(s1 + [other] + s2, id);
      var b := LastIndexOf(s1 + s2, id);
      (a < 0 <==> b < 0) && (a >= 0 ==> (s1 + [other] + s2)[a] == (s1 + s2)[b])
    decreases |s2|
  {
    var with := s1 + [other] + s2;
    var without := s1 + s2;
    if s2 == [] {
      assert with[..|with| - 1] == without;
      DropUnmatchedLast(with, id);
    } else {
      var init := s2[..|s2| - 1];
      if s2[|s2| - 1].id != id {
        assert with[..|with| - 1] == s1 + [other] + init;
        assert without[..|without| - 1] == s1 + init;
        LastMatchSkipsOtherLine(s1, init, other, id);
        DropUnmatchedLast(with, id);
        DropUnmatchedLast(without, id);
      }
    }
  }

  /** A snapshot line whose id matches no stored line is ignored, wherever it stands in the snapshot. */
  lemma MergeIgnoresExtraLine(stored: seq<OrderLine>, s1: seq<OrderLine>, s2: seq<OrderLine>, extra: OrderLine)
    requires forall i | 0 <= i < |stored| :: stored[i].id != extra.id
    ensures MergeAllocated(stored, s1 + [extra] + s2) == MergeAllocated(stored, s1 + s2)
  {
    forall i | 0 <= i < |stored|
      ensures MergeAllocated(stored, s1 + [extra] + s2)[i] == MergeAllocated(stored, s1 + s2)[i]
    {
      ApplySnapshotTakesLastMatch(stored[i], s1 + [extra] + s2);
      ApplySnapshotTakesLastMatch(stored[i], s1 + s2);
      LastMatchSkipsOtherLine(s1, s2, extra, stored[i].id);
    }
  }
}
