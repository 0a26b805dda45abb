/** Paged reads of the experiment table, over a fixed snapshot of the rows that match the filters
    pushed into SQL, newest first. The target-app filter is applied to a page after it has been cut. */
module Paging {
  import opened Prelude

  const PAGE := 500

  function Min(a: int, b: int): int {
    if a < b then a else b
  }

  function Max(a: int, b: int): int {
    if a < b then b else a
  }

  /** LIMIT and OFFSET, clamped as the reader clamps them. */
  function Cut<R>(rows: seq<R>, limit: int, offset: int): seq<R> {
    var from := Max(offset, 0);
    var n := Min(Max(limit, 1), PAGE);
    if from >= |rows| then [] else rows[from..Min(from + n, |rows|)]
  }

  /** A page starts at the offset, or at the first row if that is negative, and has as many rows as asked for,
      but at least one and at most 500, as far as there are any. */
  lemma CutIs<R>(rows: seq<R>, limit: int, offset: int)
    ensures var from := if offset < 0 then 0 else offset;
            var n := if limit < 1 then 1 else if limit > 500 then 500 else limit;
            && |Cut(rows, limit, offset)| ==
                 (if from >= |rows| then 0 else if from + n <= |rows| then n else |rows| - from)
            && forall i | 0 <= i < |Cut(rows, limit, offset)| ::
                 from + i < |rows| && Cut(rows, limit, offset)[i] == rows[from + i]
  {
  }

  function ListExperiments<R>(rows: seq<R>, target: Option<R -> bool>, limit: int, offset: int): seq<R> {
    var page := Cut(rows, limit, offset);
    if target.Some? then Select(page, target.value) else page
  }

  function Wanted<R>(rows: seq<R>, target: Option<R -> bool>): seq<R> {
    if target.Some? then Select(rows, target.value) else rows
  }

  /** Where a walk over the pages stops: behind the first page that yields fewer than a page of
      records, which is the last page only if the filter drops nothing before it. */
  function WalkEnd<R>(rows: seq<R>, target: Option<R -> bool>, offset: nat): (end: nat)
    requires offset <= |rows|
    ensures offset <= end <= |rows|
    decreases |rows| - offset
  {
    var next := Min(offset + PAGE, |rows|);
    if |Wanted(rows[offset..next], target)| < PAGE then next else WalkEnd(rows, target, next)
  }

  lemma WantedAppend<R>(a: seq<R>, b: seq<R>, target: Option<R -> bool>)
    ensures Wanted(a + b, target) == Wanted(a, target) + Wanted(b, target)
  {
    if target.Some? {
      SelectAppend(a, b, target.value);
    }
  }

  lemma WantedIsShorter<R>(rows: seq<R>, target: Option<R -> bool>)
    ensures |Wanted(rows, target)| <= |rows|
  {
    if target.Some? {
      SelectIsShorter(rows, target.value);
    }
  }

  lemma PageIsSlice<R>(rows: seq<R>, target: Option<R -> bool>, offset: nat)
    requires offset <= |rows|
    ensures ListExperiments(rows, target, PAGE, offset) == Wanted(rows[offset..Min(offset + PAGE, |rows|)], target)
  {
    assert offset == |rows| ==> rows[offset..Min(offset + PAGE, |rows|)] == [];
  }

  /** One page of a walk. */
  lemma WalkStep<R>(rows: seq<R>, target: Option<R -> bool>, offset: nat)
    requires offset <= |rows|
    ensures var page, next := ListExperiments(rows, target, PAGE, offset), Min(offset + PAGE, |rows|);
            && Wanted(rows[..next], target) == Wanted(rows[..offset], target) + page
            && (if |page| < PAGE then WalkEnd(rows, target, offset) == next
                else next == offset + PAGE && WalkEnd(rows, target, offset) == WalkEnd(rows, target, next))
  {
    var next := Min(offset + PAGE, |rows|);
    PageIsSlice(rows, target, offset);
    assert rows[..next] == rows[..offset] + rows[offset..next];
    WantedAppend(rows[..offset], rows[offset..next], target);
    WantedIsShorter(rows[offset..next], target);
  }

  lemma NothingWanted<R>(rows: seq<R>, target: Option<R -> bool>)
    ensures Wanted(rows[..0], target) == []
  {
  }

  /** Visits page after page; `visited` is what the callback has seen, in order. */
  method ForEachExperiment<R>(rows: seq<R>, target: Option<R -> bool>) returns (visited: seq<R>)
    ensures visited == Wanted(rows[..WalkEnd(rows, target, 0)], target)
    ensures visited <= Wanted(rows, target) && (visited == Wanted(rows, target) <==> WalkSeesAll(rows, target))
  {
    hide Wanted, WalkEnd, ListExperiments, WalkSeesAll;
    NothingWanted(rows, target);
    WalkIsCompleteIff(rows, target);
    visited := [];
    var offset := 0;
    while true
      invariant 0 <= offset <= |rows| && visited == Wanted(rows[..offset], target)
      invariant WalkEnd(rows, target, 0) == WalkEnd(rows, target, offset)
      decreases |rows| - offset
    {
      var batch := ListExperiments(rows, target, PAGE, offset);
      WalkStep(rows, target, offset);
      visited := visited + batch;
      if |batch| < PAGE {
        return;
      }
      offset := offset + PAGE;
    }
  }

  /** The total for the same filter: one COUNT without a target app, the same walk with one. */
  method CountExperiments<R>(rows: seq<R>, target: Option<R -> bool>) returns (total: nat)
    ensures total == |Wanted(rows[..WalkEnd(rows, target, 0)], target)|
    ensures total <= |Wanted(rows, target)| && (total == |Wanted(rows, target)| <==> WalkSeesAll(rows, target))
  {
    hide Wanted, WalkEnd, ListExperiments, WalkSeesAll;
    WalkIsCompleteIff(rows, target);
    if target.None? {
      UnfilteredWalkIsComplete(rows);
      return |rows|;
    }
    NothingWanted(rows, target);
    total := 0;
    var offset := 0;
    while true
      invariant 0 <= offset <= |rows| && total == |Wanted(rows[..offset], target)|
      invariant WalkEnd(rows, target, 0) == WalkEnd(rows, target, offset)
      decreases |rows| - offset
    {
      var page := ListExperiments(rows, target, PAGE, offset);
      WalkStep(rows, target, offset);
      total := total + |page|;
      if |page| < PAGE {
        return;
      }
      offset := offset + PAGE;
    }
  }

  lemma {:induction false} UnfilteredWalkEnds<R>(rows: seq<R>, offset: nat)
    requires offset <= |rows|
    ensures WalkEnd(rows, None, offset) == |rows|
    decreases |rows| - offset
  {
    var next := Min(offset + PAGE, |rows|);
    if |rows[offset..next]| >= PAGE {
      UnfilteredWalkEnds(rows, next);
    }
  }

  /** Without a target app every row is visited exactly once, in order, however many pages it takes. */
  lemma UnfilteredWalkIsComplete<R>(rows: seq<R>)
    ensures Wanted(rows[..WalkEnd(rows, None, 0)], None) == rows
  {
    UnfilteredWalkEnds(rows, 0);
    assert rows[..|rows|] == rows;
  }

  /** No foreign row lies on an earlier page than a wanted one. */
  predicate ForeignRowsTrail<R>(rows: seq<R>, keep: R -> bool) {
    forall i, j | 0 <= i < j < |rows| && !keep(rows[i]) && keep(rows[j]) :: i / PAGE == j / PAGE
  }

  lemma SamePage(m: nat, i: nat)
    requires m * PAGE <= i < (m + 1) * PAGE
    ensures i / PAGE == m
  {
  }

  lemma LaterPage(m: nat, i: nat)
    requires i >= (m + 1) * PAGE
    ensures i / PAGE != m
  {
  }

  lemma WantedBehind<R>(rows: seq<R>, keep: R -> bool, next: nat)
    requires next <= |rows|
    ensures Select(rows[next..], keep) == [] <==> forall j | next <= j < |rows| :: !keep(rows[j])
  {
    SelectNone(rows[next..], keep);
    forall j | next <= j < |rows| ensures rows[j] in rows[next..] {
      assert rows[next..][j - next] == rows[j];
    }
  }

  lemma ForeignIn<R>(rows: seq<R>, keep: R -> bool, from: nat, to: nat)
    requires from <= to <= |rows|
    ensures |Select(rows[from..to], keep)| <= to - from
    ensures |Select(rows[from..to], keep)| == to - from <==> forall i | from <= i < to :: keep(rows[i])
  {
    SelectIsShorter(rows[from..to], keep);
    forall i | from <= i < to ensures rows[i] in rows[from..to] {
      assert rows[from..to][i - from] == rows[i];
    }
  }

  /** Behind pages full of wanted rows: the first page that is not full decides. */
  lemma {:induction false} WalkMissesNothingIff<R>(rows: seq<R>, keep: R -> bool, m: nat)
    requires m * PAGE <= |rows| && forall i | 0 <= i < m * PAGE :: keep(rows[i])
    ensures Select(rows[WalkEnd(rows, Some(keep), m * PAGE)..], keep) == [] <==> ForeignRowsTrail(rows, keep)
    decreases |rows| - m * PAGE
  {
    hide ForeignRowsTrail, Select;
    var offset := m * PAGE;
    var next := Min(offset + PAGE, |rows|);
    ForeignIn(rows, keep, offset, next);
    if |Select(rows[offset..next], keep)| == PAGE {
      assert next == (m + 1) * PAGE;
      WalkMissesNothingIff(rows, keep, m + 1);
    } else if next < |rows| {
      WantedBehind(rows, keep, next);
      var i :| offset <= i < next && !keep(rows[i]);
      PagesApart(rows, keep, m, i);
    } else {
      WantedBehind(rows, keep, next);
      LastPage(rows, keep, m);
    }
  }

  lemma LastPage<R>(rows: seq<R>, keep: R -> bool, m: nat)
    requires m * PAGE <= |rows| <= (m + 1) * PAGE && forall i | 0 <= i < m * PAGE :: keep(rows[i])
    ensures ForeignRowsTrail(rows, keep)
  {
    forall i, j | 0 <= i < j < |rows| && !keep(rows[i]) && keep(rows[j]) ensures i / PAGE == j / PAGE {
      SamePage(m, i);
      SamePage(m, j);
    }
  }

  lemma PagesApart<R>(rows: seq<R>, keep: R -> bool, m: nat, i: nat)
    requires m * PAGE <= i < (m + 1) * PAGE <= |rows| && !keep(rows[i])
    requires forall k | 0 <= k < m * PAGE :: keep(rows[k])
    ensures (forall j | (m + 1) * PAGE <= j < |rows| :: !keep(rows[j])) <==> ForeignRowsTrail(rows, keep)
  {
    SamePage(m, i);
    if ForeignRowsTrail(rows, keep) {
      forall j | (m + 1) * PAGE <= j < |rows| ensures !keep(rows[j]) {
        LaterPage(m, j);
      }
    }
    if forall j | (m + 1) * PAGE <= j < |rows| :: !keep(rows[j]) {
      forall k, j | 0 <= k < j < |rows| && !keep(rows[k]) && keep(rows[j]) ensures k / PAGE == j / PAGE {
        SamePage(m, k);
        SamePage(m, j);
      }
    }
  }

  /** Whether a walk sees everything that is wanted, told from the rows alone. */
  predicate WalkSeesAll<R>(rows: seq<R>, target: Option<R -> bool>) {
    target.Some? ==> ForeignRowsTrail(rows, target.value)
  }

  /** The exact condition: a walk sees every wanted record if and only if it has no target app, or no
      row of another app lies on an earlier page than a wanted one. A walk that does not see every
      wanted record does not see as many either, so the count is wrong in the same cases. */
  lemma WalkIsCompleteIff<R>(rows: seq<R>, target: Option<R -> bool>)
    ensures var seen := Wanted(rows[..WalkEnd(rows, target, 0)], target);
            && (seen == Wanted(rows, target) <==> WalkSeesAll(rows, target))
            && (|seen| == |Wanted(rows, target)| <==> WalkSeesAll(rows, target))
            && seen <= Wanted(rows, target)
  {
    hide ForeignRowsTrail, Select, WalkEnd;
    var end := WalkEnd(rows, target, 0);
    if target.None? {
      UnfilteredWalkEnds(rows, 0);
      assert rows[..|rows|] == rows;
    } else {
      WantedAppend(rows[..end], rows[end..], target);
      assert rows == rows[..end] + rows[end..];
      WalkMissesNothingIff(rows, target.value, 0);
    }
  }

  /** One row of another app on the first page hides everything behind that page: of any number of
      wanted rows that follow it, only the first 499 are counted. */
  lemma OneForeignRowHidesTheRest<R>(foreign: R, wanted: seq<R>, keep: R -> bool)
    requires !keep(foreign) && (forall r | r in wanted :: keep(r)) && |wanted| >= PAGE
    ensures var rows := [foreign] + wanted;
            && WalkEnd(rows, Some(keep), 0) == PAGE
            && |Wanted(rows[..PAGE], Some(keep))| == PAGE - 1
            && |Wanted(rows, Some(keep))| == |wanted|
  {
    var rows := [foreign] + wanted;
    var first := wanted[..PAGE - 1];
    assert rows[..PAGE] == [foreign] + first && rows[0..PAGE] == rows[..PAGE];
    assert forall r | r in first :: r in wanted;
    SelectAll(first, keep);
    SelectAll(wanted, keep);
    assert ([foreign] + first)[1..] == first && rows[1..] == wanted;
  }
}
