/** The merge of rule-based and model-based findings, shared in shape by the tester's
    hypotheses and the diagnostician's root causes. Whether two findings are duplicates is
    an overlap test, which is symmetric but not transitive; most of the theory is about
    what the merge still guarantees, and exactly when it leaves no duplicates. */
module Merge {
  import opened Prelude
  import opened Text
  import opened Sorting

  /** What the duplicate tests look at: a fault (or fix class) and the code references
      (or affected paths). */
  datatype Key = Key(cls: string, refs: seq<string>)

  datatype Finding = Finding(key: Key, confidence: real, statement: string)

  type Duplicates = (Key, Key) -> bool

  // ----- the two duplicate tests -------------------------------------------------------

  function IndexOf(s: string, c: char): (i: nat)
    ensures i <= |s| && c !in s[..i] && (i < |s| ==> s[i] == c)
  {
    if s == "" || s[0] == c then 0
    else
      var j := IndexOf(s[1..], c);
      assert s[..j + 1] == [s[0]] + s[1..][..j];
      j + 1
  }

  /** `path:42-55` becomes `path:42`, with forward slashes. */
  function NormalizeRef(ref: string): string {
    var r := Slashed(ref);
    var i := IndexOf(r, ':');
    if i == |r| then r
    else
      var tail := r[i + 1..];
      r[..i] + ":" + tail[..IndexOf(tail, '-')]
  }

  function NormalizedRefs(refs: seq<string>): set<string> {
    set r | r in refs :: NormalizeRef(r)
  }

  function SlashedPaths(paths: seq<string>): set<string> {
    set p | p in paths :: Slashed(p)
  }

  predicate AreDuplicates(x: Key, y: Key) {
    x.cls == y.cls && NormalizedRefs(x.refs) * NormalizedRefs(y.refs) != {}
  }

  predicate AreRootCauseDuplicates(x: Key, y: Key) {
    && x.cls == y.cls
    && ((SlashedPaths(x.refs) == {} && SlashedPaths(y.refs) == {})
        || SlashedPaths(x.refs) * SlashedPaths(y.refs) != {})
  }

  /** A slashed path without a colon, a colon, and a start line without a dash are already
      in normal form. */
  lemma SiteIsNormal(path: string, start: string)
    requires '\\' !in path && ':' !in path && '\\' !in start && '-' !in start
    ensures NormalizeRef(path + ":" + start) == path + ":" + start
  {
    var n := path + ":" + start;
    SlashedHasNoBackslash(n);
    assert n[..|path|] == path && n[|path| + 1..] == start && start[..|start|] == start;
    FirstIndex(n, ':', |path|);
    FirstIndex(start, '-', |start|);
  }

  /** Normalizing is idempotent, so the normalized reference is a fair dedup key. */
  lemma NormalizeRefIdempotent(ref: string)
    ensures NormalizeRef(NormalizeRef(ref)) == NormalizeRef(ref)
  {
    var r := Slashed(ref);
    SlashedHasNoBackslash(ref);
    var i := IndexOf(r, ':');
    if i == |r| {
      SlashedHasNoBackslash(r);
    } else {
      var tail := r[i + 1..];
      assert forall c | c in tail :: c in r;
      SiteIsNormal(r[..i], tail[..IndexOf(tail, '-')]);
    }
  }

  /** What a reference is compared by: its path and the line it starts at, with forward slashes, whether or
      not it names the end of a range; a reference without a line is compared as it is. */
  lemma NormalizeRefIs(path: string, start: string, rest: string)
    requires ':' !in path && '-' !in start
    ensures NormalizeRef(path) == Slashed(path)
    ensures NormalizeRef(path + ":" + start) == Slashed(path) + ":" + Slashed(start)
    ensures NormalizeRef(path + ":" + start + "-" + rest) == Slashed(path) + ":" + Slashed(start)
  {
    SlashedKeeps(path, ':');
    SlashedKeeps(start, '-');
    FirstIndex(Slashed(path), ':', |path|);
    NormalizesTo(path, start, "");
    NormalizesTo(path, start, "-" + rest);
    assert path + ":" + start + "" == path + ":" + start;
    assert path + ":" + start + ("-" + rest) == path + ":" + start + "-" + rest;
  }

  lemma SlashedKeeps(s: string, c: char)
    requires c !in s && c != '/'
    ensures |Slashed(s)| == |s| && c !in Slashed(s)
  {
    SlashedIs(s);
  }

  lemma NormalizesTo(path: string, start: string, range: string)
    requires ':' !in path && '-' !in start && (range == "" || range[0] == '-')
    ensures NormalizeRef(path + ":" + start + range) == Slashed(path) + ":" + Slashed(start)
  {
    var p, q, t := Slashed(path), Slashed(start), Slashed(range);
    SlashedKeeps(path, ':');
    SlashedKeeps(start, '-');
    SlashedConcat(path, ":");
    SlashedConcat(path + ":", start);
    SlashedConcat(path + ":" + start, range);
    SlashedIs(":");
    SlashedIs(range);
    assert Slashed(path + ":" + start + range) == p + ":" + q + t;
    hide Slashed;
    SplitsAt(p, q, t);
  }

  lemma SplitsAt(p: string, q: string, t: string)
    requires ':' !in p && '-' !in q && (t == "" || t[0] == '-')
    ensures var r := p + ":" + q + t;
            && IndexOf(r, ':') == |p| < |r| && r[..|p|] == p && IndexOf(r[|p| + 1..], '-') == |q|
            && r[|p| + 1..][..|q|] == q
  {
    var r := p + ":" + q + t;
    assert r[..|p|] == p && r[|p| + 1..] == q + t && (q + t)[..|q|] == q;
    FirstIndex(r, ':', |p|);
    FirstIndex(q + t, '-', |q|);
  }

  /** Spelled out over the references themselves. */
  lemma DuplicatesIff(x: Key, y: Key)
    ensures AreDuplicates(x, y) <==>
      x.cls == y.cls && exists r, s | r in x.refs && s in y.refs :: NormalizeRef(r) == NormalizeRef(s)
    ensures AreRootCauseDuplicates(x, y) <==>
      && x.cls == y.cls
      && ((x.refs == [] && y.refs == []) || exists p, q | p in x.refs && q in y.refs :: Slashed(p) == Slashed(q))
  {
    if r, s :| r in x.refs && s in y.refs && NormalizeRef(r) == NormalizeRef(s) {
      assert NormalizeRef(r) in NormalizedRefs(x.refs) * NormalizedRefs(y.refs);
    }
    if NormalizedRefs(x.refs) * NormalizedRefs(y.refs) != {} {
      var n :| n in NormalizedRefs(x.refs) && n in NormalizedRefs(y.refs);
    }
    if p, q :| p in x.refs && q in y.refs && Slashed(p) == Slashed(q) {
      assert Slashed(p) in SlashedPaths(x.refs) * SlashedPaths(y.refs);
    }
    if SlashedPaths(x.refs) * SlashedPaths(y.refs) != {} {
      var n :| n in SlashedPaths(x.refs) && n in SlashedPaths(y.refs);
    }
    NoPathsIff(x.refs);
    NoPathsIff(y.refs);
  }

  lemma NoPathsIff(paths: seq<string>)
    ensures SlashedPaths(paths) == {} <==> paths == []
  {
    if paths != [] {
      assert Slashed(paths[0]) in SlashedPaths(paths);
    }
  }

  lemma FirstIndex(s: string, c: char, i: nat)
    requires i <= |s| && c !in s[..i] && (i < |s| ==> s[i] == c)
    ensures IndexOf(s, c) == i
  {
  }

  // ----- the merge -----------------------------------------------------------------------

  /** Position of the first entry the candidate duplicates, or the length. */
  function FirstDuplicate(merged: seq<Finding>, cand: Finding, dup: Duplicates): (i: nat)
    ensures i <= |merged|
    ensures forall k | 0 <= k < i :: !dup(merged[k].key, cand.key)
    ensures i < |merged| ==> dup(merged[i].key, cand.key)
  {
    if merged == [] || dup(merged[0].key, cand.key) then 0
    else 1 + FirstDuplicate(merged[1..], cand, dup)
  }

  function Absorb(merged: seq<Finding>, cand: Finding, dup: Duplicates): seq<Finding> {
    var i := FirstDuplicate(merged, cand, dup);
    if i == |merged| then merged + [cand]
    else if cand.confidence > merged[i].confidence then merged[i := cand]
    else merged
  }

  function AbsorbAll(items: seq<Finding>, dup: Duplicates): seq<Finding> {
    if items == [] then []
    else Absorb(AbsorbAll(items[..|items| - 1], dup), items[|items| - 1], dup)
  }

  predicate MoreConfident(x: Finding, y: Finding) {
    x.confidence >= y.confidence
  }

  function Merged(items: seq<Finding>, dup: Duplicates): seq<Finding> {
    Sort(AbsorbAll(items, dup), MoreConfident)
  }

  /** A candidate without a duplicate is appended; otherwise it takes the place of its first duplicate if it
      is more confident, and nothing else changes. */
  lemma AbsorbIs(before: seq<Finding>, cand: Finding, dup: Duplicates)
    ensures (forall y | y in before :: !dup(y.key, cand.key)) ==> Absorb(before, cand, dup) == before + [cand]
    ensures forall i | 0 <= i < |before| && dup(before[i].key, cand.key)
        && (forall k | 0 <= k < i :: !dup(before[k].key, cand.key)) ::
      Absorb(before, cand, dup) == if cand.confidence > before[i].confidence then before[i := cand] else before
  {
  }

  /** The inner loop: the first duplicate is replaced if it is less confident, and only a
      candidate without a duplicate is appended. */
  method AbsorbOne(before: seq<Finding>, cand: Finding, dup: Duplicates) returns (merged: seq<Finding>)
    ensures merged == Absorb(before, cand, dup)
  {
    merged := before;
    for i := 0 to |before|
      invariant merged == before
      invariant forall k | 0 <= k < i :: !dup(before[k].key, cand.key)
    {
      if dup(merged[i].key, cand.key) {
        assert i == FirstDuplicate(before, cand, dup);
        if cand.confidence > merged[i].confidence {
          merged := merged[i := cand];
        }
        return;
      }
    }
    assert FirstDuplicate(before, cand, dup) == |before|;
    merged := merged + [cand];
  }

  method MergeFindings(a: seq<Finding>, b: seq<Finding>, dup: Duplicates) returns (merged: seq<Finding>)
    ensures merged == Merged(a + b, dup)
  {
    var all := a + b;
    merged := [];
    for n := 0 to |all|
      invariant merged == AbsorbAll(all[..n], dup)
    {
      assert all[..n + 1][..n] == all[..n];
      merged := AbsorbOne(merged, all[n], dup);
    }
    assert all[..|all|] == all;
    merged := Sort(merged, MoreConfident);
  }

  /** The diagnostician keeps only the head of the merged list. */
  function Truncated(items: seq<Finding>, dup: Duplicates, max: nat): seq<Finding> {
    var m := Merged(items, dup);
    if |m| <= max then m else m[..max]
  }

  // ----- what every merge guarantees -------------------------------------------------------

  lemma MoreConfidentIsPreorder()
    ensures TotalPreorder(MoreConfident)
  {
  }

  lemma {:induction false} AbsorbedAreInputs(items: seq<Finding>, dup: Duplicates)
    ensures forall x | x in AbsorbAll(items, dup) :: x in items
  {
    if items != [] {
      var front, cand := items[..|items| - 1], items[|items| - 1];
      AbsorbedAreInputs(front, dup);
      assert forall x | x in front :: x in items;
      var m := AbsorbAll(front, dup);
      assert forall x | x in AbsorbAll(items, dup) :: x in m || x == cand;
    }
  }

  /** The merge invents nothing and lists what it keeps by falling confidence. */
  lemma MergedIsSortedSelection(items: seq<Finding>, dup: Duplicates)
    ensures forall x | x in Merged(items, dup) :: x in items
    ensures forall i, j | 0 <= i < j < |Merged(items, dup)| ::
        Merged(items, dup)[i].confidence >= Merged(items, dup)[j].confidence
  {
    MergedIsOrdered(items, dup);
    assert forall i, j | 0 <= i < j < |Merged(items, dup)| ::
        MoreConfident(Merged(items, dup)[i], Merged(items, dup)[j]);
  }

  /** Equally confident findings stay in the order they were taken in. */
  lemma TiesKeepTheirOrder(items: seq<Finding>, dup: Duplicates, c: real)
    ensures Select(Merged(items, dup), (x: Finding) => x.confidence == c)
         == Select(AbsorbAll(items, dup), (x: Finding) => x.confidence == c)
  {
    SortIsStable(AbsorbAll(items, dup), MoreConfident, (x: Finding) => x.confidence == c);
  }

  lemma MergedIsOrdered(items: seq<Finding>, dup: Duplicates)
    ensures forall x | x in Merged(items, dup) :: x in items
    ensures Ordered(Merged(items, dup), MoreConfident)
  {
    MoreConfidentIsPreorder();
    AbsorbedAreInputs(items, dup);
    SortMembers(AbsorbAll(items, dup), MoreConfident);
    SortOrdered(AbsorbAll(items, dup), MoreConfident);
  }

  /** A chain of findings in which neighbours are duplicates. */
  ghost predicate Chain(p: seq<Finding>, items: seq<Finding>, dup: Duplicates) {
    && p != []
    && (forall x | x in p :: x in items)
    && forall i | 0 <= i < |p| - 1 :: dup(p[i].key, p[i + 1].key)
  }

  ghost predicate Linked(x: Finding, y: Finding, items: seq<Finding>, dup: Duplicates) {
    exists p :: Chain(p, items, dup) && p[0] == x && p[|p| - 1] == y
  }

  ghost predicate Represented(x: Finding, kept: seq<Finding>, items: seq<Finding>, dup: Duplicates) {
    exists y | y in kept :: Linked(x, y, items, dup) && y.confidence >= x.confidence
  }

  lemma LinkedToSelf(x: Finding, items: seq<Finding>, dup: Duplicates)
    requires x in items
    ensures Linked(x, x, items, dup)
  {
    assert Chain([x], items, dup);
  }

  lemma LinkedExtends(x: Finding, y: Finding, z: Finding, items: seq<Finding>, more: seq<Finding>, dup: Duplicates)
    requires Linked(x, y, items, dup) && dup(y.key, z.key) && z in more
    requires forall w | w in items :: w in more
    ensures Linked(x, z, more, dup)
  {
    var p :| Chain(p, items, dup) && p[0] == x && p[|p| - 1] == y;
    var q := p + [z];
    assert Chain(q, more, dup) && q[0] == x && q[|q| - 1] == z;
  }

  lemma LinkedWeakens(x: Finding, y: Finding, items: seq<Finding>, more: seq<Finding>, dup: Duplicates)
    requires Linked(x, y, items, dup)
    requires forall w | w in items :: w in more
    ensures Linked(x, y, more, dup)
  {
    var p :| Chain(p, items, dup) && p[0] == x && p[|p| - 1] == y;
    assert Chain(p, more, dup);
  }

  /** One absorption keeps each entry or replaces it by a more confident duplicate, and the
      candidate ends up in the list or behind an entry at least as confident. */
  lemma AbsorbStep(before: seq<Finding>, cand: Finding, dup: Duplicates)
    ensures var after := Absorb(before, cand, dup);
            && (forall y | y in before :: y in after
                 || (cand in after && dup(y.key, cand.key) && cand.confidence > y.confidence))
            && (cand in after || exists y | y in after :: dup(y.key, cand.key) && y.confidence >= cand.confidence)
            && (forall y | y in after :: y in before || y == cand)
  {
    var after := Absorb(before, cand, dup);
    var i := FirstDuplicate(before, cand, dup);
    if i == |before| {
      assert after[|before|] == cand;
    } else if cand.confidence > before[i].confidence {
      assert after[i] == cand;
      forall y | y in before ensures y in after || (dup(y.key, cand.key) && cand.confidence > y.confidence) {
        var k :| 0 <= k < |before| && before[k] == y;
        assert k == i || after[k] == y;
      }
    } else {
      assert before[i] in after;
    }
  }

  lemma {:induction false} AllRepresentedBeforeSorting(items: seq<Finding>, dup: Duplicates)
    requires forall x, y :: dup(x, y) ==> dup(y, x)
    ensures forall x | x in items :: Represented(x, AbsorbAll(items, dup), items, dup)
  {
    if items != [] {
      var front, cand := items[..|items| - 1], items[|items| - 1];
      AllRepresentedBeforeSorting(front, dup);
      AbsorbedAreInputs(front, dup);
      assert items == front + [cand];
      forall x | x in items ensures Represented(x, Absorb(AbsorbAll(front, dup), cand, dup), items, dup) {
        RepresentedAfterStep(x, front, cand, AbsorbAll(front, dup), items, dup);
      }
    }
  }

  lemma RepresentedAfterStep(x: Finding, front: seq<Finding>, cand: Finding, before: seq<Finding>,
                             items: seq<Finding>, dup: Duplicates)
    requires forall x, y :: dup(x, y) ==> dup(y, x)
    requires items == front + [cand] && x in items
    requires forall y | y in before :: y in front
    requires x in front ==> Represented(x, before, front, dup)
    ensures Represented(x, Absorb(before, cand, dup), items, dup)
  {
    var after := Absorb(before, cand, dup);
    AbsorbStep(before, cand, dup);
    assert cand in items && forall w | w in front :: w in items;
    if x in front {
      var y :| y in before && Linked(x, y, front, dup) && y.confidence >= x.confidence;
      if y in after {
        LinkedWeakens(x, y, front, items, dup);
      } else {
        LinkedExtends(x, y, cand, front, items, dup);
      }
    } else if cand in after {
      LinkedToSelf(cand, items, dup);
    } else {
      var y :| y in after && dup(y.key, cand.key) && y.confidence >= cand.confidence;
      LinkedToSelf(cand, items, dup);
      LinkedExtends(cand, cand, y, items, items, dup);
    }
  }
  /** Nothing is lost without trace: every input is joined by a chain of duplicates to a kept
      finding that is at least as confident. */
  lemma EveryInputIsRepresented(items: seq<Finding>, dup: Duplicates)
    requires forall x, y :: dup(x, y) ==> dup(y, x)
    ensures forall x | x in items :: Represented(x, Merged(items, dup), items, dup)
  {
    AllRepresentedBeforeSorting(items, dup);
    SortMembers(AbsorbAll(items, dup), MoreConfident);
    forall x | x in items ensures Represented(x, Merged(items, dup), items, dup) {
      var y :| y in AbsorbAll(items, dup) && Linked(x, y, items, dup) && y.confidence >= x.confidence;
      assert y in Merged(items, dup);
    }
  }

  /** Truncation cuts the list off behind the first `max`, and what it drops is never more confident than
      what it keeps. */
  lemma TruncationKeepsTheTop(items: seq<Finding>, dup: Duplicates, max: nat, i: nat, k: nat)
    ensures Truncated(items, dup, max) <= Merged(items, dup)
    ensures |Truncated(items, dup, max)| == if |Merged(items, dup)| < max then |Merged(items, dup)| else max
    ensures i < |Truncated(items, dup, max)| <= k < |Merged(items, dup)| ==>
      Truncated(items, dup, max)[i].confidence >= Merged(items, dup)[k].confidence
  {
    MergedIsOrdered(items, dup);
    var m := Merged(items, dup);
    if i < k < |m| {
      assert MoreConfident(m[i], m[k]);
    }
  }

  // ----- when no duplicates remain -----------------------------------------------------------

  ghost predicate Distinct(s: seq<Finding>, dup: Duplicates) {
    s == [] || ((forall y | y in s[1..] :: !dup(s[0].key, y.key)) && Distinct(s[1..], dup))
  }

  ghost predicate TransitiveOn(keys: set<Key>, dup: Duplicates) {
    forall x, y, z | x in keys && y in keys && z in keys :: dup(x, y) && dup(y, z) ==> dup(x, z)
  }

  ghost predicate Symmetric(dup: Duplicates) {
    forall x, y :: dup(x, y) ==> dup(y, x)
  }

  ghost predicate Unrelated(kept: seq<Finding>, dup: Duplicates) {
    forall i, j | 0 <= i < |kept| && 0 <= j < |kept| && i != j :: !dup(kept[i].key, kept[j].key)
  }

  ghost predicate Covered(x: Finding, kept: seq<Finding>, dup: Duplicates) {
    x in kept || exists y | y in kept :: dup(x.key, y.key)
  }

  ghost predicate Unbeaten(items: seq<Finding>, kept: seq<Finding>, dup: Duplicates) {
    forall x, y | x in items && y in kept && dup(x.key, y.key) :: x.confidence <= y.confidence
  }

  lemma {:induction false} DistinctPairs(s: seq<Finding>, dup: Duplicates)
    requires Symmetric(dup)
    ensures Distinct(s, dup) <==> Unrelated(s, dup)
  {
    if s != [] {
      DistinctPairs(s[1..], dup);
      if Distinct(s, dup) {
        forall i, j | 0 <= i < |s| && 0 <= j < |s| && i != j ensures !dup(s[i].key, s[j].key) {
          if i > 0 && j > 0 {
            assert !dup(s[1..][i - 1].key, s[1..][j - 1].key);
          } else {
            assert s[if i == 0 then j else i] in s[1..];
          }
        }
      } else {
        if y :| y in s[1..] && dup(s[0].key, y.key) {
          var j :| 0 <= j < |s[1..]| && s[1..][j] == y;
          assert s[j + 1] == y;
        } else {
          var i, j :| 0 <= i < |s[1..]| && 0 <= j < |s[1..]| && i != j && dup(s[1..][i].key, s[1..][j].key);
          assert dup(s[i + 1].key, s[j + 1].key);
        }
      }
    }
  }

  lemma InsertMembers(x: Finding, s: seq<Finding>)
    ensures forall y :: y in Insert(x, s, MoreConfident) <==> y == x || y in s
  {
    InsertMultiset(x, s, MoreConfident);
    assert forall y :: y in Insert(x, s, MoreConfident) <==> y in multiset(Insert(x, s, MoreConfident));
    assert forall y :: y in s <==> y in multiset(s);
  }

  lemma {:induction false} InsertDistinct(x: Finding, s: seq<Finding>, dup: Duplicates)
    requires Symmetric(dup)
    ensures Distinct(Insert(x, s, MoreConfident), dup) <==>
       Distinct(s, dup) && forall y | y in s :: !dup(x.key, y.key)
  {
    if s == [] {
      assert [x][1..] == [];
    } else if MoreConfident(x, s[0]) {
      assert ([x] + s)[1..] == s;
    } else {
      var rest := Insert(x, s[1..], MoreConfident);
      InsertDistinct(x, s[1..], dup);
      InsertMembers(x, s[1..]);
      assert ([s[0]] + rest)[1..] == rest;
      assert forall y :: y in s <==> y == s[0] || y in s[1..];
    }
  }

  lemma {:induction false} SortDistinct(s: seq<Finding>, dup: Duplicates)
    requires Symmetric(dup)
    ensures Distinct(Sort(s, MoreConfident), dup) <==> Distinct(s, dup)
  {
    if s != [] {
      var rest := Sort(s[1..], MoreConfident);
      SortDistinct(s[1..], dup);
      InsertDistinct(s[0], rest, dup);
      SortMembers(s[1..], MoreConfident);
      assert ([s[0]] + rest)[1..] == rest;
    }
  }

  ghost predicate AllKeysIn(items: seq<Finding>, keys: set<Key>) {
    forall x | x in items :: x.key in keys
  }

  /** What the running list satisfies while duplicates are transitive: no two entries are
      duplicates, every input is kept or has a direct duplicate that is at least as
      confident, and no input beats the entry it duplicates. */
  ghost predicate OnePerClass(kept: seq<Finding>, items: seq<Finding>, dup: Duplicates) {
    && Unrelated(kept, dup)
    && (forall x | x in items :: Covered(x, kept, dup))
    && Unbeaten(items, kept, dup)
  }

  lemma AbsorbUnrelated(before: seq<Finding>, cand: Finding, keys: set<Key>, dup: Duplicates)
    requires Symmetric(dup) && TransitiveOn(keys, dup) && AllKeysIn(before, keys) && cand.key in keys
    requires Unrelated(before, dup)
    ensures Unrelated(Absorb(before, cand, dup), dup)
  {
    var i := FirstDuplicate(before, cand, dup);
    if i < |before| {
      forall k | 0 <= k < |before| && k != i ensures !dup(cand.key, before[k].key) {
        assert before[i] in before && before[k] in before && dup(before[i].key, cand.key);
      }
    }
  }

  lemma AbsorbCovers(x: Finding, before: seq<Finding>, cand: Finding, keys: set<Key>, dup: Duplicates)
    requires Symmetric(dup) && TransitiveOn(keys, dup) && AllKeysIn(before, keys) && cand.key in keys
    requires x.key in keys && (x == cand || Covered(x, before, dup))
    ensures Covered(x, Absorb(before, cand, dup), dup)
  {
    var after := Absorb(before, cand, dup);
    AbsorbStep(before, cand, dup);
    if x == cand {
      if cand !in after {
        var y :| y in after && dup(y.key, cand.key);
        assert dup(cand.key, y.key);
      }
    } else if x in before {
      if x !in after {
        assert dup(x.key, cand.key);
      }
    } else {
      var y :| y in before && dup(x.key, y.key);
      if y !in after {
        assert dup(x.key, cand.key);
      }
    }
  }

  lemma AbsorbUnbeaten(front: seq<Finding>, before: seq<Finding>, cand: Finding, keys: set<Key>, dup: Duplicates)
    requires Symmetric(dup) && TransitiveOn(keys, dup) && AllKeysIn(front + [cand], keys)
    requires forall y | y in before :: y in front
    requires Unrelated(before, dup) && Unbeaten(front, before, dup)
    requires forall x | x in front :: Covered(x, before, dup)
    ensures Unbeaten(front + [cand], Absorb(before, cand, dup), dup)
  {
    var after := Absorb(before, cand, dup);
    var i := FirstDuplicate(before, cand, dup);
    AbsorbStep(before, cand, dup);
    forall x, y | x in front + [cand] && y in after && dup(x.key, y.key) ensures x.confidence <= y.confidence {
      assert x in front || x == cand;
      assert cand in front + [cand] && forall w | w in front :: w in front + [cand];
      if x in front && y !in before {
        // The candidate was taken in; whatever x stands behind is a duplicate of the candidate too.
        if x in before {
          assert dup(x.key, cand.key);
        } else {
          var r :| r in before && dup(x.key, r.key);
          assert dup(cand.key, x.key) && dup(cand.key, r.key);
        }
        assert i < |before| && before[i] in before;
        assert dup(cand.key, before[i].key) && dup(x.key, before[i].key);
      } else if x == cand && y in before {
        var k :| 0 <= k < |before| && before[k] == y;
        assert i <= k by { assert dup(y.key, cand.key); }
        assert before[i] in before && before[k] in before && dup(before[i].key, cand.key);
      }
    }
  }

  lemma {:induction false} AbsorbKeepsOnePerClass(items: seq<Finding>, keys: set<Key>, dup: Duplicates)
    requires Symmetric(dup) && TransitiveOn(keys, dup) && AllKeysIn(items, keys)
    ensures OnePerClass(AbsorbAll(items, dup), items, dup)
  {
    if items != [] {
      var front, cand := items[..|items| - 1], items[|items| - 1];
      var before := AbsorbAll(front, dup);
      assert items == front + [cand] && cand in items && forall w | w in front :: w in items;
      AbsorbKeepsOnePerClass(front, keys, dup);
      AbsorbedAreInputs(front, dup);
      AbsorbUnrelated(before, cand, keys, dup);
      AbsorbUnbeaten(front, before, cand, keys, dup);
      forall x | x in items ensures Covered(x, Absorb(before, cand, dup), dup) {
        AbsorbCovers(x, before, cand, keys, dup);
      }
    }
  }

  /** Where duplicates are transitive the merge keeps exactly one finding per class, and it
      is one of maximal confidence. */
  lemma TransitiveMergeKeepsTheBest(items: seq<Finding>, keys: set<Key>, dup: Duplicates)
    requires Symmetric(dup) && TransitiveOn(keys, dup) && AllKeysIn(items, keys)
    ensures OnePerClass(Merged(items, dup), items, dup)
  {
    var kept := AbsorbAll(items, dup);
    AbsorbKeepsOnePerClass(items, keys, dup);
    DistinctPairs(kept, dup);
    SortDistinct(kept, dup);
    DistinctPairs(Merged(items, dup), dup);
    SortMembers(kept, MoreConfident);
    forall x | x in items ensures Covered(x, Merged(items, dup), dup) {
      assert Covered(x, kept, dup);
      if x !in kept {
        var y :| y in kept && dup(x.key, y.key);
        assert y in Merged(items, dup);
      }
    }
  }

  /** The exact condition: over findings with the given keys, the merged list is free of
      duplicates for every order and every choice of confidences if and only if being a
      duplicate is transitive on those keys. */
  lemma DuplicateFreeIffTransitive(keys: set<Key>, dup: Duplicates)
    requires Symmetric(dup)
    ensures (forall items | AllKeysIn(items, keys) :: Distinct(Merged(items, dup), dup)) <==>
       TransitiveOn(keys, dup)
  {
    if TransitiveOn(keys, dup) {
      forall items | AllKeysIn(items, keys) ensures Distinct(Merged(items, dup), dup) {
        TransitiveMergeKeepsTheBest(items, keys, dup);
        DistinctPairs(Merged(items, dup), dup);
      }
    } else {
      var x, y, z :| x in keys && y in keys && z in keys && dup(x, y) && dup(y, z) && !dup(x, z);
      ReplacementOverlaps(x, y, z, dup);
      var items := [Finding(x, 0.0, ""), Finding(z, 0.0, ""), Finding(y, 1.0, "")];
      assert AllKeysIn(items, keys);
    }
  }

  /** A confident finding that bridges two unrelated ones replaces the first and is left
      standing next to the second, its duplicate. */
  lemma ReplacementOverlaps(x: Key, y: Key, z: Key, dup: Duplicates)
    requires Symmetric(dup) && dup(x, y) && dup(y, z) && !dup(x, z)
    ensures var items := [Finding(x, 0.0, ""), Finding(z, 0.0, ""), Finding(y, 1.0, "")];
            Merged(items, dup) == [items[2], items[1]] && !Distinct(Merged(items, dup), dup)
  {
    var fx, fz, fy := Finding(x, 0.0, ""), Finding(z, 0.0, ""), Finding(y, 1.0, "");
    assert [fx, fz, fy][..2] == [fx, fz] && [fx, fz][..1] == [fx] && [fx][..0] == [];
    assert AbsorbAll([fx], dup) == [fx];
    assert FirstDuplicate([fx], fz, dup) == 1;
    assert AbsorbAll([fx, fz], dup) == [fx, fz];
    assert FirstDuplicate([fx, fz], fy, dup) == 0;
    assert AbsorbAll([fx, fz, fy], dup) == [fy, fz];
    assert [fy, fz][1..] == [fz] && [fz][1..] == [];
    assert Sort([fz], MoreConfident) == [fz];
    assert Sort([fy, fz], MoreConfident) == [fy, fz];
    assert fz in [fy, fz][1..];
  }

  // ----- the two instances ----------------------------------------------------------------------

  lemma InstancesAreSymmetric()
    ensures Symmetric(AreDuplicates) && Symmetric(AreRootCauseDuplicates)
  {
    forall x: Key, y: Key ensures AreDuplicates(x, y) ==> AreDuplicates(y, x) {
      assert NormalizedRefs(x.refs) * NormalizedRefs(y.refs) == NormalizedRefs(y.refs) * NormalizedRefs(x.refs);
    }
    forall x: Key, y: Key ensures AreRootCauseDuplicates(x, y) ==> AreRootCauseDuplicates(y, x) {
      assert SlashedPaths(x.refs) * SlashedPaths(y.refs) == SlashedPaths(y.refs) * SlashedPaths(x.refs);
    }
  }

  /** When every hypothesis names exactly one site, the merge keeps exactly one finding of
      maximal confidence per (fault, site). */
  lemma OneSitePerHypothesis(items: seq<Finding>)
    requires forall x | x in items :: exists r :: NormalizedRefs(x.key.refs) == {r}
    ensures OnePerClass(Merged(items, AreDuplicates), items, AreDuplicates)
    ensures forall x, y | x in items && y in items ::
      AreDuplicates(x.key, y.key) <==>
      x.key.cls == y.key.cls && NormalizedRefs(x.key.refs) == NormalizedRefs(y.key.refs)
  {
    InstancesAreSymmetric();
    var keys := set x | x in items :: x.key;
    forall x, y | x in keys && y in keys
      ensures AreDuplicates(x, y) <==> x.cls == y.cls && NormalizedRefs(x.refs) == NormalizedRefs(y.refs)
    {
      var r :| NormalizedRefs(x.refs) == {r};
      var s :| NormalizedRefs(y.refs) == {s};
      assert r in {r} && (r in {s} <==> r == s);
      assert {r} * {s} != {} <==> r == s;
    }
    TransitiveMergeKeepsTheBest(items, keys, AreDuplicates);
  }

  /** The same for root causes that name at most one path each. */
  lemma OnePathPerRootCause(items: seq<Finding>)
    requires forall x | x in items :: |SlashedPaths(x.key.refs)| <= 1
    ensures OnePerClass(Merged(items, AreRootCauseDuplicates), items, AreRootCauseDuplicates)
  {
    InstancesAreSymmetric();
    var keys := set x | x in items :: x.key;
    forall x, y | x in keys && y in keys
      ensures AreRootCauseDuplicates(x, y) <==> x.cls == y.cls && SlashedPaths(x.refs) == SlashedPaths(y.refs)
    {
      AtMostOne(SlashedPaths(x.refs));
      AtMostOne(SlashedPaths(y.refs));
    }
    TransitiveMergeKeepsTheBest(items, keys, AreRootCauseDuplicates);
  }

  lemma AtMostOne(s: set<string>)
    requires |s| <= 1
    ensures s == {} || exists r :: s == {r}
  {
    if s != {} {
      var r :| r in s;
      assert |s - {r}| == 0;
      assert s == {r};
    }
  }

  /** Hypotheses that name several sites can leave duplicates behind. */
  lemma SeveralSitesLeaveDuplicates()
    ensures var items := [Finding(Key("pod.kill", ["a"]), 0.0, ""), Finding(Key("pod.kill", ["b"]), 0.0, ""),
                          Finding(Key("pod.kill", ["a", "b"]), 1.0, "")];
            !Distinct(Merged(items, AreDuplicates), AreDuplicates)
  {
    InstancesAreSymmetric();
    var x, y, z := Key("pod.kill", ["a"]), Key("pod.kill", ["a", "b"]), Key("pod.kill", ["b"]);
    assert NormalizeRef("a") == "a" && NormalizeRef("b") == "b" by {
      SlashedHasNoBackslash("a");
      SlashedHasNoBackslash("b");
      FirstIndex("a", ':', 1);
      FirstIndex("b", ':', 1);
    }
    assert NormalizedRefs(x.refs) == {"a"} && NormalizedRefs(z.refs) == {"b"};
    assert "a" in y.refs && "b" in y.refs;
    assert "a" in NormalizedRefs(x.refs) * NormalizedRefs(y.refs);
    assert "b" in NormalizedRefs(y.refs) * NormalizedRefs(z.refs);
    assert "a"[0] != "b"[0];
    ReplacementOverlaps(x, y, z, AreDuplicates);
  }
}
