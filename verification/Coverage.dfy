/** The fault-by-journey coverage matrix of a regression suite and its rollups. */
module Coverage {
  import opened Prelude
  import opened Sorting
  import opened Text

  /** `targets` are the non-empty values of the fault's label selector. */
  datatype Scenario = Scenario(id: string, fault: string, category: string, targets: set<string>, journeys: seq<string>)

  /** Which services a journey traverses, where that is known. */
  type Footprints = map<string, set<string>>

  datatype State = Covered(scenario: string) | NotApplicable | Unknown

  datatype Cell = Cell(fault: string, journey: string, state: State)

  datatype Matrix = Matrix(faults: seq<string>, journeys: seq<string>, cells: seq<Cell>)

  // ----- what a cell should say ---------------------------------------------------------------------

  predicate Pairs(s: Scenario, fault: string, journey: string) {
    s.fault == fault && journey in s.journeys
  }

  /** The last scenario that pairs the fault with the journey. */
  function Covering(suite: seq<Scenario>, fault: string, journey: string): Option<string> {
    if suite == [] then None
    else
      var s := suite[|suite| - 1];
      if Pairs(s, fault, journey) then Some(s.id) else Covering(suite[..|suite| - 1], fault, journey)
  }

  /** Every service the suite aims the fault at. */
  function TargetsOf(suite: seq<Scenario>, fault: string): set<string> {
    if suite == [] then {}
    else
      var s := suite[|suite| - 1];
      TargetsOf(suite[..|suite| - 1], fault) + (if s.fault == fault then s.targets else {})
  }

  function StateOf(suite: seq<Scenario>, fp: Footprints, fault: string, journey: string): State {
    var covering, targets := Covering(suite, fault, journey), TargetsOf(suite, fault);
    if covering.Some? then Covered(covering.value)
    else if journey in fp && targets != {} && targets !! fp[journey] then NotApplicable
    else Unknown
  }

  function CellsOf(suite: seq<Scenario>, fp: Footprints, faults: seq<string>, journeys: seq<string>): seq<Cell> {
    if faults == [] then []
    else CellsOf(suite, fp, faults[..|faults| - 1], journeys) + Row(suite, fp, faults[|faults| - 1], journeys)
  }

  function Row(suite: seq<Scenario>, fp: Footprints, fault: string, journeys: seq<string>): (r: seq<Cell>)
    ensures |r| == |journeys|
    ensures forall j | 0 <= j < |r| :: r[j] == Cell(fault, journeys[j], StateOf(suite, fp, fault, journeys[j]))
  {
    if journeys == [] then []
    else
      var j := journeys[|journeys| - 1];
      Row(suite, fp, fault, journeys[..|journeys| - 1]) + [Cell(fault, j, StateOf(suite, fp, fault, j))]
  }

  /** A fault is judged irrelevant only on evidence: the suite aims it somewhere, the journey's services
      are known, and none of the targets is among them. */
  lemma NotApplicableNeedsEvidence(suite: seq<Scenario>, fp: Footprints, fault: string, journey: string)
    ensures StateOf(suite, fp, fault, journey).NotApplicable? <==>
      && (forall i | 0 <= i < |suite| :: !Pairs(suite[i], fault, journey))
      && journey in fp
      && (exists i | 0 <= i < |suite| :: suite[i].fault == fault && suite[i].targets != {})
      && (forall i | 0 <= i < |suite| && suite[i].fault == fault :: suite[i].targets !! fp[journey])
  {
    CoveringMeaning(suite, fault, journey);
    TargetsMeaning(suite, fault);
    var targets := TargetsOf(suite, fault);
    if targets != {} {
      var t :| t in targets;
      var i :| 0 <= i < |suite| && suite[i].fault == fault && t in suite[i].targets;
    }
    if i :| 0 <= i < |suite| && suite[i].fault == fault && suite[i].targets != {} {
      var t :| t in suite[i].targets;
      assert t in targets;
    }
    if journey in fp {
      DisjointMeaning(suite, fault, fp[journey]);
    }
  }

  lemma {:induction false} CoveringMeaning(suite: seq<Scenario>, fault: string, journey: string)
    ensures Covering(suite, fault, journey).Some? <==> exists i | 0 <= i < |suite| :: Pairs(suite[i], fault, journey)
    ensures forall i | 0 <= i < |suite| && Pairs(suite[i], fault, journey)
        && (forall j | i < j < |suite| :: !Pairs(suite[j], fault, journey)) ::
      Covering(suite, fault, journey) == Some(suite[i].id)
    decreases |suite|
  {
    if suite != [] {
      var front := suite[..|suite| - 1];
      CoveringMeaning(front, fault, journey);
      assert forall i | 0 <= i < |front| :: front[i] == suite[i];
    }
  }

  /** A cell is covered exactly if some scenario exercises the journey under the fault, and names the last
      one that does. */
  lemma CoveredIff(suite: seq<Scenario>, fp: Footprints, fault: string, journey: string)
    ensures StateOf(suite, fp, fault, journey).Covered? <==>
      exists i | 0 <= i < |suite| :: suite[i].fault == fault && journey in suite[i].journeys
    ensures forall i | 0 <= i < |suite| && suite[i].fault == fault && journey in suite[i].journeys
        && (forall j | i < j < |suite| :: !(suite[j].fault == fault && journey in suite[j].journeys)) ::
      StateOf(suite, fp, fault, journey) == Covered(suite[i].id)
  {
    CoveringMeaning(suite, fault, journey);
    assert forall i | 0 <= i < |suite| ::
      Pairs(suite[i], fault, journey) <==> suite[i].fault == fault && journey in suite[i].journeys;
  }

  /** The cells go fault by fault, and journey by journey within a fault. */
  lemma {:induction false} CellIsAt(suite: seq<Scenario>, fp: Footprints, faults: seq<string>, journeys: seq<string>,
      i: nat, k: nat)
    requires i < |faults| && k < |journeys|
    ensures var cells := CellsOf(suite, fp, faults, journeys);
            && i * |journeys| + k < |cells|
            && cells[i * |journeys| + k] == Cell(faults[i], journeys[k], StateOf(suite, fp, faults[i], journeys[k]))
    decreases |faults|
  {
    var front := faults[..|faults| - 1];
    CellCount(suite, fp, front, journeys);
    if i < |faults| - 1 {
      CellIsAt(suite, fp, front, journeys, i, k);
    }
  }

  lemma {:induction false} TargetsMeaning(suite: seq<Scenario>, fault: string)
    ensures forall t ::
      t in TargetsOf(suite, fault) <==> exists i | 0 <= i < |suite| :: suite[i].fault == fault && t in suite[i].targets
    decreases |suite|
  {
    if suite != [] {
      TargetsMeaning(suite[..|suite| - 1], fault);
    }
  }

  lemma DisjointMeaning(suite: seq<Scenario>, fault: string, services: set<string>)
    ensures TargetsOf(suite, fault) !! services <==>
      forall i | 0 <= i < |suite| && suite[i].fault == fault :: suite[i].targets !! services
  {
    TargetsMeaning(suite, fault);
    var all := TargetsOf(suite, fault);
    if all !! services {
      forall i | 0 <= i < |suite| && suite[i].fault == fault ensures suite[i].targets !! services {
        assert forall t | t in suite[i].targets :: t in all;
      }
    } else {
      var t :| t in all && t in services;
      var i :| 0 <= i < |suite| && suite[i].fault == fault && t in suite[i].targets;
    }
  }

  // ----- the reporter ----------------------------------------------------------------------------------

  function Lookup<K, V>(m: map<K, V>, k: K): Option<V> {
    if k in m then Some(m[k]) else None
  }

  method SuiteFaultTargets(suite: seq<Scenario>) returns (targets: map<string, set<string>>)
    ensures forall f :: (if f in targets then targets[f] else {}) == TargetsOf(suite, f)
  {
    targets := map[];
    for n := 0 to |suite|
      invariant forall f :: (if f in targets then targets[f] else {}) == TargetsOf(suite[..n], f)
    {
      assert suite[..n + 1][..n] == suite[..n];
      var s := suite[n];
      targets := targets[s.fault := (if s.fault in targets then targets[s.fault] else {}) + s.targets];
    }
    assert suite[..|suite|] == suite;
  }

  method CoveringScenarios(suite: seq<Scenario>) returns (covered: map<(string, string), string>)
    ensures forall f, j :: Lookup(covered, (f, j)) == Covering(suite, f, j)
  {
    covered := map[];
    for n := 0 to |suite|
      invariant forall f, j :: Lookup(covered, (f, j)) == Covering(suite[..n], f, j)
    {
      assert suite[..n + 1][..n] == suite[..n];
      var s := suite[n];
      ghost var before := covered;
      for k := 0 to |s.journeys|
        invariant forall f, j ::
          Lookup(covered, (f, j)) == if f == s.fault && j in s.journeys[..k] then Some(s.id) else Lookup(before, (f, j))
      {
        covered := covered[(s.fault, s.journeys[k]) := s.id];
        assert s.journeys[..k + 1] == s.journeys[..k] + [s.journeys[k]];
      }
      assert s.journeys[..|s.journeys|] == s.journeys;
    }
    assert suite[..|suite|] == suite;
  }

  /** The default fault axis: the catalogue's faults in the categories the suite uses. */
  function UsedFaults(catalogue: seq<(string, string)>, suite: seq<Scenario>): seq<string> {
    if catalogue == [] then []
    else
      (if exists i | 0 <= i < |suite| :: suite[i].category == catalogue[0].1 then [catalogue[0].0] else [])
        + UsedFaults(catalogue[1..], suite)
  }

  /** Some scenario of the suite is in the category. */
  predicate Used(suite: seq<Scenario>, category: string) {
    exists i | 0 <= i < |suite| :: suite[i].category == category
  }

  /** It holds the catalogue's faults, in its order, whose category some scenario is in. */
  lemma {:induction false} UsedFaultsAre(catalogue: seq<(string, string)>, suite: seq<Scenario>)
    ensures UsedFaults(catalogue, suite)
         == Names(Select(catalogue, (entry: (string, string)) => Used(suite, entry.1)))
  {
    if catalogue != [] {
      UsedFaultsAre(catalogue[1..], suite);
      NamesOn(if Used(suite, catalogue[0].1) then [catalogue[0]] else [],
        Select(catalogue[1..], (entry: (string, string)) => Used(suite, entry.1)));
    }
  }

  lemma NamesOn(a: seq<(string, string)>, b: seq<(string, string)>)
    ensures Names(a + b) == Names(a) + Names(b)
    ensures |a| == 1 ==> Names(a) == [a[0].0]
  {
  }

  function Names(entries: seq<(string, string)>): (names: seq<string>)
    ensures |names| == |entries|
    ensures forall i | 0 <= i < |entries| :: names[i] == entries[i].0
  {
    seq(|entries|, i requires 0 <= i < |entries| => entries[i].0)
  }

  method Render(suite: seq<Scenario>, catalogue: seq<(string, string)>, journeys: seq<string>, faults: seq<string>,
      fp: Footprints)
    returns (m: Matrix)
    ensures m.faults == Sort(if faults != [] then faults else UsedFaults(catalogue, suite), LexLeq)
        && m.journeys == journeys
    ensures m.cells == CellsOf(suite, fp, m.faults, m.journeys)
  {
    var axis := Sort(if faults != [] then faults else UsedFaults(catalogue, suite), LexLeq);
    var cells := RenderCells(axis, journeys, suite, fp);
    m := Matrix(axis, journeys, cells);
  }

  method RenderCells(axis: seq<string>, journeys: seq<string>, suite: seq<Scenario>, fp: Footprints)
      returns (cells: seq<Cell>)
    ensures cells == CellsOf(suite, fp, axis, journeys)
  {
    var covered := CoveringScenarios(suite);
    var targets := SuiteFaultTargets(suite);
    cells := [];
    for n := 0 to |axis|
      invariant cells == CellsOf(suite, fp, axis[..n], journeys)
    {
      assert axis[..n + 1][..n] == axis[..n] && axis[..n + 1][n] == axis[n];
      var row := RenderRow(axis[n], journeys, covered, targets, fp, suite);
      cells := cells + row;
    }
    assert axis[..|axis|] == axis;
  }

  method RenderRow(fault: string, journeys: seq<string>, covered: map<(string, string), string>, targets: map<string,
      set<string>>,
                   fp: Footprints, ghost suite: seq<Scenario>)
    returns (row: seq<Cell>)
    requires forall f, j :: Lookup(covered, (f, j)) == Covering(suite, f, j)
    requires forall f :: (if f in targets then targets[f] else {}) == TargetsOf(suite, f)
    ensures row == Row(suite, fp, fault, journeys)
  {
    row := [];
    for k := 0 to |journeys|
      invariant row == Row(suite, fp, fault, journeys[..k])
    {
      assert journeys[..k + 1][..k] == journeys[..k];
      var cell := RenderCell(fault, journeys[k], covered, targets, fp, suite);
      row := row + [cell];
    }
    assert journeys[..|journeys|] == journeys;
  }

  method RenderCell(fault: string, journey: string, covered: map<(string, string), string>, targets: map<string,
      set<string>>,
                    fp: Footprints, ghost suite: seq<Scenario>)
    returns (c: Cell)
    requires Lookup(covered, (fault, journey)) == Covering(suite, fault, journey)
    requires (if fault in targets then targets[fault] else {}) == TargetsOf(suite, fault)
    ensures c == Cell(fault, journey, StateOf(suite, fp, fault, journey))
  {
    if (fault, journey) in covered {
      return Cell(fault, journey, Covered(covered[(fault, journey)]));
    }
    var aimed := if fault in targets then targets[fault] else {};
    if journey in fp && aimed != {} && aimed !! fp[journey] {
      return Cell(fault, journey, NotApplicable);
    }
    return Cell(fault, journey, Unknown);
  }

  // ----- the rollups --------------------------------------------------------------------------------------

  function CoveredCount(cells: seq<Cell>): nat {
    if cells == [] then 0 else (if cells[0].state.Covered? then 1 else 0) + CoveredCount(cells[1..])
  }

  function GapCount(cells: seq<Cell>): nat {
    if cells == [] then 0 else (if cells[0].state.Unknown? then 1 else 0) + GapCount(cells[1..])
  }

  function NaCount(cells: seq<Cell>): nat {
    if cells == [] then 0 else (if cells[0].state.NotApplicable? then 1 else 0) + NaCount(cells[1..])
  }

  /** Covered over relevant, or nothing when nothing is relevant. */
  function Comprehensiveness(cells: seq<Cell>): Option<real> {
    var relevant := CoveredCount(cells) + GapCount(cells);
    if relevant == 0 then None else Some(CoveredCount(cells) as real / relevant as real)
  }

  lemma {:induction false} CountsAre(cells: seq<Cell>)
    ensures CoveredCount(cells) == |Select(cells, (c: Cell) => c.state.Covered?)|
    ensures GapCount(cells) == |Select(cells, (c: Cell) => c.state.Unknown?)|
    ensures NaCount(cells) == |Select(cells, (c: Cell) => c.state.NotApplicable?)|
  {
    if cells != [] {
      CountsAre(cells[1..]);
    }
  }

  /** Comprehensiveness is the share of covered cells among those that are covered or a gap. It is undefined
      exactly if there are none, one exactly if there is no gap, and zero exactly if nothing is covered. */
  lemma ComprehensivenessIs(cells: seq<Cell>)
    ensures var covered := |Select(cells, (c: Cell) => c.state.Covered?)|;
            var gaps := |Select(cells, (c: Cell) => c.state.Unknown?)|;
            match Comprehensiveness(cells)
            case None => covered + gaps == 0
            case Some(share) =>
              && covered + gaps > 0 && share * (covered + gaps) as real == covered as real
              && (share == 1.0 <==> gaps == 0) && (share == 0.0 <==> covered == 0)
  {
    CountsAre(cells);
    hide CoveredCount, GapCount, Select;
    if CoveredCount(cells) + GapCount(cells) > 0 {
      ShareIs(CoveredCount(cells), GapCount(cells));
    }
  }

  lemma ShareIs(covered: nat, gaps: nat)
    requires covered + gaps > 0
    ensures var share := covered as real / (covered + gaps) as real;
            && share * (covered + gaps) as real == covered as real
            && (share == 1.0 <==> gaps == 0) && (share == 0.0 <==> covered == 0)
  {
    var c, n := covered as real, (covered + gaps) as real;
    var share := c / n;
    assert share * n == c;
    if share == 1.0 {
      assert 1.0 * n == c;
    }
    if share == 0.0 {
      assert 0.0 * n == c;
    }
  }

  lemma {:induction false} CountsPartition(cells: seq<Cell>)
    ensures CoveredCount(cells) + GapCount(cells) + NaCount(cells) == |cells|
  {
    if cells != [] {
      CountsPartition(cells[1..]);
    }
  }

  lemma {:induction false} CellCount(suite: seq<Scenario>, fp: Footprints, faults: seq<string>, journeys: seq<string>)
    ensures |CellsOf(suite, fp, faults, journeys)| == |faults| * |journeys|
    decreases |faults|
  {
    if faults != [] {
      CellCount(suite, fp, faults[..|faults| - 1], journeys);
      assert |faults| * |journeys| == (|faults| - 1) * |journeys| + |journeys|;
    }
  }

  /** Every fault meets every journey in exactly one cell, which is covered, a gap or not applicable. */
  lemma MatrixIsPartitioned(suite: seq<Scenario>, fp: Footprints, faults: seq<string>, journeys: seq<string>)
    ensures var cells := CellsOf(suite, fp, faults, journeys);
            CoveredCount(cells) + GapCount(cells) + NaCount(cells) == |faults| * |journeys|
  {
    CountsPartition(CellsOf(suite, fp, faults, journeys));
    CellCount(suite, fp, faults, journeys);
  }

  // ----- more footprints -------------------------------------------------------------------------------------

  /** More journeys are known; what was known stays. */
  ghost predicate Extends(fp: Footprints, more: Footprints) {
    forall j | j in fp :: j in more && more[j] == fp[j]
  }

  predicate OnlyPromotes(a: seq<Cell>, b: seq<Cell>) {
    |a| == |b| && forall i | 0 <= i < |a| ::
      a[i].state == b[i].state || (a[i].state.Unknown? && b[i].state.NotApplicable?)
  }

  lemma {:induction false} FootprintsOnlyPromote(
      suite: seq<Scenario>, fp: Footprints, more: Footprints, faults: seq<string>, journeys: seq<string>)
    requires Extends(fp, more)
    ensures OnlyPromotes(CellsOf(suite, fp, faults, journeys), CellsOf(suite, more, faults, journeys))
    decreases |faults|
  {
    if faults != [] {
      var front, f := faults[..|faults| - 1], faults[|faults| - 1];
      FootprintsOnlyPromote(suite, fp, more, front, journeys);
      PromotesAppend(CellsOf(suite, fp, front, journeys), CellsOf(suite, more, front, journeys),
                     Row(suite, fp, f, journeys), Row(suite, more, f, journeys));
    }
  }

  lemma PromotesAppend(a: seq<Cell>, b: seq<Cell>, a': seq<Cell>, b': seq<Cell>)
    requires OnlyPromotes(a, b) && OnlyPromotes(a', b')
    ensures OnlyPromotes(a + a', b + b')
  {
  }

  lemma {:induction false} PromotionCounts(a: seq<Cell>, b: seq<Cell>)
    requires OnlyPromotes(a, b)
    ensures CoveredCount(a) == CoveredCount(b) && GapCount(b) <= GapCount(a) && NaCount(b) >= NaCount(a)
  {
    if a != [] {
      assert OnlyPromotes(a[1..], b[1..]) by {
        assert forall i | 0 <= i < |a[1..]| :: a[1..][i] == a[i + 1] && b[1..][i] == b[i + 1];
      }
      PromotionCounts(a[1..], b[1..]);
    }
  }

  lemma FractionGrows(c: nat, gaps: nat, fewer: nat)
    requires fewer <= gaps && c + fewer > 0
    ensures c as real / (c + gaps) as real <= c as real / (c + fewer) as real
  {
    var x, y, n := (c + fewer) as real, (c + gaps) as real, c as real;
    assert n / y * y == n && n / x * x == n;
    assert n / x >= 0.0;
    assert n / x * y >= n / x * x;
    if n / y > n / x {
      assert n / y * y > n / x * y;
    }
  }

  lemma PromotionNeverLowers(a: seq<Cell>, b: seq<Cell>)
    requires OnlyPromotes(a, b)
    ensures Comprehensiveness(a).None? ==> Comprehensiveness(b).None?
    ensures Comprehensiveness(a).Some? && Comprehensiveness(b).Some? ==>
        Comprehensiveness(b).value >= Comprehensiveness(a).value
    ensures Comprehensiveness(a).Some? && Comprehensiveness(b).None? <==>
        CoveredCount(a) == 0 && GapCount(a) > 0 && GapCount(b) == 0
  {
    PromotionCounts(a, b);
    if CoveredCount(a) + GapCount(b) > 0 {
      FractionGrows(CoveredCount(a), GapCount(a), GapCount(b));
    }
  }

  /** Adding footprints never lowers comprehensiveness. It can only make it undefined, and only when
      nothing is covered and the last gap turns out to be irrelevant. */
  lemma FootprintsNeverLowerComprehensiveness(
      suite: seq<Scenario>, fp: Footprints, more: Footprints, faults: seq<string>, journeys: seq<string>)
    requires Extends(fp, more)
    ensures var a, b := CellsOf(suite, fp, faults, journeys), CellsOf(suite, more, faults, journeys);
            && (Comprehensiveness(a).None? ==> Comprehensiveness(b).None?)
            && (Comprehensiveness(a).Some? && Comprehensiveness(b).Some? ==>
               Comprehensiveness(b).value >= Comprehensiveness(a).value)
            && (Comprehensiveness(a).Some? && Comprehensiveness(b).None? <==>
               CoveredCount(a) == 0 && GapCount(a) > 0 && GapCount(b) == 0)
  {
    var a, b := CellsOf(suite, fp, faults, journeys), CellsOf(suite, more, faults, journeys);
    FootprintsOnlyPromote(suite, fp, more, faults, journeys);
    PromotionNeverLowers(a, b);
  }
}
