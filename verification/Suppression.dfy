/** Hypothesis suppression: rules mute hypotheses by fingerprint, fix class, path or summary. The
    fingerprint hash and the path matcher are arbitrary functions here. */
module Suppression {
  import opened Prelude
  import opened Sorting
  import opened Text

  datatype Hypothesis = Hypothesis(fixClass: string, paths: seq<string>, summary: string)

  datatype Rule = Rule(hypothesisId: Option<string>, fixClass: Option<string>, pathGlob: Option<string>,
                       summaryContains: Option<string>, expiresAt: Option<int>)

  /** The digest, the glob matcher (path, pattern) and the moment of the decision. */
  datatype Env = Env(hash: string -> string, glob: (string, string) -> bool, now: int)

  /** What the fingerprint is a digest of: the fix class, the sorted paths and the summary. */
  function Canonical(h: Hypothesis): string {
    Join([h.fixClass, Join(Sort(h.paths, LexLeq), ','), h.summary], '|')
  }

  function Fingerprint(h: Hypothesis, env: Env): string {
    env.hash(Canonical(h))
  }

  predicate AnyPathMatches(glob: string, paths: seq<string>, env: Env) {
    exists i | 0 <= i < |paths| :: env.glob(paths[i], glob)
  }

  /** All set match fields hold, and the rule has not expired. */
  predicate RuleMatches(rule: Rule, h: Hypothesis, env: Env) {
    && (rule.expiresAt.Some? ==> env.now <= rule.expiresAt.value)
    && (rule.hypothesisId.Some? ==> rule.hypothesisId.value == Fingerprint(h, env))
    && (rule.fixClass.Some? ==> rule.fixClass.value == h.fixClass)
    && (rule.pathGlob.Some? ==> AnyPathMatches(rule.pathGlob.value, h.paths, env))
    && (rule.summaryContains.Some? ==> Contains(Lower(h.summary), Lower(rule.summaryContains.value)))
  }

  /** What keeps a rule from matching: it has expired, or one of the fields it sets does not fit. */
  lemma RuleFailsIff(rule: Rule, h: Hypothesis, env: Env)
    ensures !RuleMatches(rule, h, env) <==>
      || (rule.expiresAt.Some? && env.now > rule.expiresAt.value)
      || (rule.hypothesisId.Some? && Fingerprint(h, env) != rule.hypothesisId.value)
      || (rule.fixClass.Some? && h.fixClass != rule.fixClass.value)
      || (rule.pathGlob.Some? && forall p | p in h.paths :: !env.glob(p, rule.pathGlob.value))
      || (rule.summaryContains.Some? && !Contains(Lower(h.summary), Lower(rule.summaryContains.value)))
  {
    if rule.pathGlob.Some? {
      SomePathMatches(rule.pathGlob.value, h.paths, env);
    }
  }

  lemma SomePathMatches(glob: string, paths: seq<string>, env: Env)
    ensures AnyPathMatches(glob, paths, env) <==> exists p | p in paths :: env.glob(p, glob)
  {
    if p :| p in paths && env.glob(p, glob) {
      var i :| 0 <= i < |paths| && paths[i] == p;
    }
  }

  predicate Muted(rules: seq<Rule>, h: Hypothesis, env: Env) {
    exists r | 0 <= r < |rules| :: RuleMatches(rules[r], h, env)
  }

  predicate FirstRule(rules: seq<Rule>, h: Hypothesis, r: nat, env: Env) {
    r < |rules| && RuleMatches(rules[r], h, env) && forall q | 0 <= q < r :: !RuleMatches(rules[q], h, env)
  }

  // ----- tagging a diagnosis -----------------------------------------------------------------

  /** The diagnosis: hypotheses stay, fingerprints of muted ones are added. A note names the rule
      that muted a fingerprint. */
  class DiagnosisReport {
    const hypotheses: seq<Hypothesis>
    var suppressed: seq<string>
    var notes: map<string, nat>

    constructor (hypotheses: seq<Hypothesis>, suppressed: seq<string>)
      ensures this.hypotheses == hypotheses && this.suppressed == suppressed && notes == map[]
    {
      this.hypotheses, this.suppressed, notes := hypotheses, suppressed, map[];
    }
  }

  method MatchingRule(rules: seq<Rule>, h: Hypothesis, env: Env) returns (hit: Option<nat>)
    ensures hit.Some? ==> FirstRule(rules, h, hit.value, env)
    ensures hit.None? ==> !Muted(rules, h, env)
  {
    for r := 0 to |rules|
      invariant forall q | 0 <= q < r :: !RuleMatches(rules[q], h, env)
    {
      if RuleMatches(rules[r], h, env) {
        return Some(r);
      }
    }
    return None;
  }

  /** Tags exactly the fingerprints of muted hypotheses, once each, after those already there. A
      fingerprint's note is the first rule that mutes the first hypothesis carrying it. */
  method ApplyToDiagnosis(d: DiagnosisReport, rules: seq<Rule>, env: Env)
    modifies d`suppressed, d`notes
    ensures old(d.suppressed) <= d.suppressed
    ensures forall fp :: fp in d.suppressed <==> fp in old(d.suppressed) || Tagged(fp, d.hypotheses, rules, env)
    ensures forall i, j | |old(d.suppressed)| <= i < |d.suppressed| && 0 <= j < i :: d.suppressed[j] != d.suppressed[i]
    ensures forall fp | fp in d.suppressed && fp !in old(d.suppressed) ::
      fp in d.notes && exists h | h in d.hypotheses ::
        Fingerprint(h, env) == fp && FirstRule(rules, h, d.notes[fp], env)
    ensures forall fp | fp in old(d.suppressed) :: fp in d.notes <==> fp in old(d.notes)
  {
    for n := 0 to |d.hypotheses|
      invariant old(d.suppressed) <= d.suppressed
      invariant forall fp ::
        fp in d.suppressed <==> fp in old(d.suppressed) || Tagged(fp, d.hypotheses[..n], rules, env)
      invariant forall i, j | |old(d.suppressed)| <= i < |d.suppressed| && 0 <= j < i ::
          d.suppressed[j] != d.suppressed[i]
      invariant forall fp | fp in d.suppressed && fp !in old(d.suppressed) ::
        fp in d.notes && exists h | h in d.hypotheses ::
          Fingerprint(h, env) == fp && FirstRule(rules, h, d.notes[fp], env)
      invariant forall fp | fp in old(d.suppressed) :: fp in d.notes <==> fp in old(d.notes)
    {
      var h := d.hypotheses[n];
      var hit := MatchingRule(rules, h, env);
      TaggedGrows(d.hypotheses, n, rules, env);
      if hit.Some? {
        var fp := Fingerprint(h, env);
        if fp !in d.suppressed {
          d.suppressed := d.suppressed + [fp];
          d.notes := d.notes[fp := hit.value];
        }
      }
    }
    assert d.hypotheses[..|d.hypotheses|] == d.hypotheses;
  }

  ghost predicate Tagged(fp: string, hs: seq<Hypothesis>, rules: seq<Rule>, env: Env) {
    exists h | h in hs :: Muted(rules, h, env) && Fingerprint(h, env) == fp
  }

  lemma TaggedGrows(hs: seq<Hypothesis>, n: nat, rules: seq<Rule>, env: Env)
    requires n < |hs|
    ensures forall fp :: Tagged(fp, hs[..n + 1], rules, env) <==>
      Tagged(fp, hs[..n], rules, env) || (Muted(rules, hs[n], env) && Fingerprint(hs[n], env) == fp)
  {
    var front, more := hs[..n], hs[..n + 1];
    assert more == front + [hs[n]] && hs[n] in more;
    forall fp ensures Tagged(fp, more, rules, env) <==>
      Tagged(fp, front, rules, env) || (Muted(rules, hs[n], env) && Fingerprint(hs[n], env) == fp)
    {
      if h :| h in more && Muted(rules, h, env) && Fingerprint(h, env) == fp {
        assert h in front || h == hs[n];
      }
      if h :| h in front && Muted(rules, h, env) && Fingerprint(h, env) == fp {
        assert h in more;
      }
    }
  }

  /** What survives suppression. */
  function Active(hs: seq<Hypothesis>, suppressed: seq<string>, env: Env): seq<Hypothesis> {
    Select(hs, h => Fingerprint(h, env) !in suppressed)
  }

  lemma SomeActive(hs: seq<Hypothesis>, suppressed: seq<string>, env: Env)
    ensures Active(hs, suppressed, env) != [] <==> exists h | h in hs :: Fingerprint(h, env) !in suppressed
  {
    var keep := h => Fingerprint(h, env) !in suppressed;
    SelectNone(hs, keep);
    assert forall h :: keep(h) <==> Fingerprint(h, env) !in suppressed;
  }

  // ----- a rule sees nothing beyond the canonical key ---------------------------------------------

  /** Inputs the key separates without ambiguity: a fix class from the fixed list has no bar, and
      the paths are non-empty without commas or bars. */
  predicate Plain(h: Hypothesis) {
    && '|' !in h.fixClass
    && forall p | p in h.paths :: p != "" && ',' !in p && '|' !in p
  }

  lemma {:induction false} JoinAvoids(parts: seq<string>, sep: char, c: char)
    requires c != sep && forall p | p in parts :: c !in p
    ensures c !in Join(parts, sep)
  {
    if parts != [] {
      assert parts[0] in parts && forall p | p in parts[1..] :: p in parts;
      JoinAvoids(parts[1..], sep, c);
    }
  }

  function PathKey(h: Hypothesis): string {
    Join(Sort(h.paths, LexLeq), ',')
  }

  lemma CanonicalIs(h: Hypothesis)
    ensures Canonical(h) == h.fixClass + (['|'] + (PathKey(h) + (['|'] + h.summary)))
  {
    var parts := [h.fixClass, PathKey(h), h.summary];
    assert parts[1..] == [PathKey(h), h.summary] && parts[1..][1..] == [h.summary];
    assert Join(parts[1..], '|') == PathKey(h) + ['|'] + h.summary;
    assert PathKey(h) + ['|'] + h.summary == PathKey(h) + (['|'] + h.summary);
  }

  lemma SortedPathsArePlain(h: Hypothesis)
    requires Plain(h)
    ensures forall p | p in Sort(h.paths, LexLeq) :: p != "" && ',' !in p && '|' !in p
    ensures '|' !in PathKey(h)
  {
    SortMembers(h.paths, LexLeq);
    JoinAvoids(Sort(h.paths, LexLeq), ',', '|');
  }

  lemma LexIsOrder()
    ensures TotalOrder(LexLeq)
  {
    forall a: string, b: string ensures LexLeq(a, b) || LexLeq(b, a) { LexTotal(a, b); }
    forall a: string, b: string | LexLeq(a, b) && LexLeq(b, a) ensures a == b { LexAntisymmetric(a, b); }
    forall a: string, b: string, c: string | LexLeq(a, b)
      && LexLeq(b, c) ensures LexLeq(a, c) { LexTransitive(a, b, c); }
  }

  predicate SameUpToOrder(h: Hypothesis, h': Hypothesis) {
    h.fixClass == h'.fixClass && multiset(h.paths) == multiset(h'.paths) && h.summary == h'.summary
  }

  /** Two plain hypotheses have the same key if and only if they differ at most in the order of
      their paths. */
  lemma KeySeparates(h: Hypothesis, h': Hypothesis)
    requires Plain(h) && Plain(h')
    ensures Canonical(h) == Canonical(h') <==> SameUpToOrder(h, h')
  {
    if SameUpToOrder(h, h') {
      PathOrderIsIrrelevant(h, h');
    }
    if Canonical(h) == Canonical(h') {
      CanonicalIs(h);
      CanonicalIs(h');
      SortedPathsArePlain(h);
      SortedPathsArePlain(h');
      var t, t' := PathKey(h) + (['|'] + h.summary), PathKey(h') + (['|'] + h'.summary);
      HeadUnique(h.fixClass, ['|'] + t, h'.fixClass, ['|'] + t', '|');
      assert (['|'] + t)[1..] == t && (['|'] + t')[1..] == t';
      HeadUnique(PathKey(h), ['|'] + h.summary, PathKey(h'), ['|'] + h'.summary, '|');
      assert (['|'] + h.summary)[1..] == h.summary && (['|'] + h'.summary)[1..] == h'.summary;
      JoinInjective(Sort(h.paths, LexLeq), Sort(h'.paths, LexLeq), ',');
      SortMultiset(h.paths, LexLeq);
      SortMultiset(h'.paths, LexLeq);
    }
  }

  /** Reordering paths changes neither the key nor, in either direction, a rule's verdict. */
  lemma PathOrderIsIrrelevant(h: Hypothesis, h': Hypothesis)
    requires SameUpToOrder(h, h')
    ensures Canonical(h) == Canonical(h')
    ensures forall rule, env :: RuleMatches(rule, h, env) <==> RuleMatches(rule, h', env)
  {
    LexIsOrder();
    SortPermutation(h.paths, h'.paths, LexLeq);
    forall glob, env ensures AnyPathMatches(glob, h.paths, env) <==> AnyPathMatches(glob, h'.paths, env) {
      SomePathMoves(glob, h.paths, h'.paths, env);
      SomePathMoves(glob, h'.paths, h.paths, env);
    }
  }

  lemma SomePathMoves(glob: string, paths: seq<string>, paths': seq<string>, env: Env)
    requires multiset(paths) == multiset(paths')
    ensures AnyPathMatches(glob, paths, env) ==> AnyPathMatches(glob, paths', env)
  {
    if i :| 0 <= i < |paths| && env.glob(paths[i], glob) {
      assert paths[i] in multiset(paths');
      var j :| 0 <= j < |paths'| && paths'[j] == paths[i];
    }
  }

  /** Everything a rule can see of a hypothesis besides its fingerprint. */
  ghost predicate LooksAlike(h: Hypothesis, h': Hypothesis) {
    && h.fixClass == h'.fixClass
    && (forall p :: p in h.paths <==> p in h'.paths)
    && Lower(h.summary) == Lower(h'.summary)
  }

  /** Hypotheses that share a key look alike to every rule. */
  ghost predicate KeysAgree(hs: seq<Hypothesis>) {
    forall h, h' | h in hs && h' in hs && Canonical(h) == Canonical(h') :: LooksAlike(h, h')
  }

  lemma PlainKeysAgree(hs: seq<Hypothesis>)
    requires forall h | h in hs :: Plain(h)
    ensures KeysAgree(hs)
  {
    forall h, h' | h in hs && h' in hs && Canonical(h) == Canonical(h') ensures LooksAlike(h, h') {
      KeySeparates(h, h');
      forall p ensures p in h.paths <==> p in h'.paths {
        assert p in h.paths <==> p in multiset(h.paths);
        assert p in h'.paths <==> p in multiset(h'.paths);
      }
    }
  }

  lemma AlikeSameVerdict(rule: Rule, h: Hypothesis, h': Hypothesis, env: Env)
    requires LooksAlike(h, h') && Canonical(h) == Canonical(h') && RuleMatches(rule, h, env)
    ensures RuleMatches(rule, h', env)
  {
    if rule.pathGlob.Some? {
      var i :| 0 <= i < |h.paths| && env.glob(h.paths[i], rule.pathGlob.value);
      assert h.paths[i] in h'.paths;
      var j :| 0 <= j < |h'.paths| && h'.paths[j] == h.paths[i];
    }
  }

  ghost predicate Injective(hash: string -> string) {
    forall a, b :: hash(a) == hash(b) ==> a == b
  }

  /** Tagging by fingerprint hits no hypothesis that no rule matches. */
  ghost predicate Faithful(hs: seq<Hypothesis>, rules: seq<Rule>, env: Env) {
    forall h | h in hs && Tagged(Fingerprint(h, env), hs, rules, env) :: Muted(rules, h, env)
  }

  lemma AgreeingKeysAreFaithful(hs: seq<Hypothesis>, rules: seq<Rule>, env: Env)
    requires KeysAgree(hs) && Injective(env.hash)
    ensures Faithful(hs, rules, env)
  {
    forall h | h in hs && Tagged(Fingerprint(h, env), hs, rules, env) ensures Muted(rules, h, env) {
      var h' :| h' in hs && Muted(rules, h', env) && Fingerprint(h', env) == Fingerprint(h, env);
      var r :| 0 <= r < |rules| && RuleMatches(rules[r], h', env);
      AlikeSameVerdict(rules[r], h', h, env);
    }
  }

  /** A rule and a path matcher that tell two hypotheses apart, one way round or the other. */
  lemma Distinguish(h: Hypothesis, h': Hypothesis) returns (rule: Rule, env: Env)
    requires !LooksAlike(h, h')
    ensures Injective(env.hash) && RuleMatches(rule, h, env) != RuleMatches(rule, h', env)
  {
    env := Env(x => x, (path, glob) => false, 0);
    if h.fixClass != h'.fixClass {
      rule := Rule(None, Some(h.fixClass), None, None, None);
    } else if p :| (p in h.paths) != (p in h'.paths) {
      env := Env(x => x, (path, glob) => path == p, 0);
      rule := Rule(None, None, Some("*"), None, None);
      assert AnyPathMatches("*", h.paths, env) <==> p in h.paths;
      assert AnyPathMatches("*", h'.paths, env) <==> p in h'.paths;
    } else {
      var a, b := Lower(h.summary), Lower(h'.summary);
      ContainsItself(a);
      ContainsItself(b);
      if Contains(a, b) && Contains(b, a) {
        MutualContainment(a, b);
      }
      rule := Rule(None, None, None, Some(if Contains(b, a) then h'.summary else h.summary), None);
    }
  }

  lemma ContainsItself(a: string)
    ensures Contains(a, a)
  {
    assert OccursAt(a, a, 0);
  }

  lemma MutualContainment(a: string, b: string)
    requires Contains(a, b) && Contains(b, a)
    ensures a == b
  {
    var i :| 0 <= i <= |a| && OccursAt(a, b, i);
    assert |a| == |b| && a[i..i + |b|] == a;
  }

  /** The exact condition: suppression by fingerprint mutes nothing that no rule matches, for every
      rule list, path matcher and collision-free digest, if and only if hypotheses that share a key
      look alike. */
  lemma FaithfulIffKeysAgree(hs: seq<Hypothesis>)
    ensures (forall rules, env: Env | Injective(env.hash) :: Faithful(hs, rules, env)) <==> KeysAgree(hs)
  {
    if KeysAgree(hs) {
      forall rules, env: Env | Injective(env.hash) ensures Faithful(hs, rules, env) {
        AgreeingKeysAreFaithful(hs, rules, env);
      }
    } else {
      var h, h' :| h in hs && h' in hs && Canonical(h) == Canonical(h') && !LooksAlike(h, h');
      var rule, env := Distinguish(h, h');
      OneRuleMutes(rule, h, env);
      OneRuleMutes(rule, h', env);
      assert Fingerprint(h, env) == Fingerprint(h', env);
      assert Tagged(Fingerprint(h, env), hs, [rule], env);
      assert !Faithful(hs, [rule], env);
    }
  }

  lemma OneRuleMutes(rule: Rule, h: Hypothesis, env: Env)
    ensures Muted([rule], h, env) <==> RuleMatches(rule, h, env)
  {
    assert [rule][0] == rule;
  }

  /** Suppression by fingerprint is suppression by rule: with a collision-free digest, what stays
      active are exactly the hypotheses that no rule matches and that were not suppressed before. */
  lemma ActiveMeansNoRuleMatches(hs: seq<Hypothesis>, before: seq<string>, after: seq<string>, rules: seq<Rule>,
      env: Env)
    requires Injective(env.hash) && KeysAgree(hs)
    requires forall fp :: fp in after <==> fp in before || Tagged(fp, hs, rules, env)
    ensures Active(hs, after, env) == Select(hs, h => !Muted(rules, h, env) && Fingerprint(h, env) !in before)
  {
    AgreeingKeysAreFaithful(hs, rules, env);
    SelectSame(hs, h => Fingerprint(h, env) !in after, h => !Muted(rules, h, env) && Fingerprint(h, env) !in before);
  }

  /** For arbitrary paths that is false. One path holding a comma collides with the two paths next
      to it, whatever the digest, so a rule about one mutes the other. */
  lemma CommaPathsCollide(fixClass: string, summary: string, env: Env)
    requires env.glob("a", "a") && !env.glob("a,b", "a")
    ensures var rules := [Rule(None, None, Some("a"), None, None)];
            var split, whole := Hypothesis(fixClass, ["a", "b"], summary), Hypothesis(fixClass, ["a,b"], summary);
            && Muted(rules, split, env) && !Muted(rules, whole, env)
            && forall after | (forall fp :: fp in after <==> Tagged(fp, [split, whole], rules, env)) ::
                 Active([split, whole], after, env) == []
  {
    var rule := Rule(None, None, Some("a"), None, None);
    var split, whole := Hypothesis(fixClass, ["a", "b"], summary), Hypothesis(fixClass, ["a,b"], summary);
    assert split.paths[0] == "a" && rule == [rule][0];
    CommaKeys();
    assert Canonical(split) == Canonical(whole);
    forall after | forall fp :: fp in after <==> Tagged(fp, [split, whole], [rule], env)
      ensures Active([split, whole], after, env) == []
    {
      assert split in [split, whole] && Tagged(Fingerprint(split, env), [split, whole], [rule], env);
      NothingSurvives([split, whole], after, env);
    }
  }

  lemma CommaKeys()
    ensures Join(Sort(["a", "b"], LexLeq), ',') == Join(Sort(["a,b"], LexLeq), ',')
  {
    assert ["a", "b"][1..] == ["b"] && ["b"][1..] == [] && ["a,b"][1..] == [];
    assert Sort(["b"], LexLeq) == ["b"] && Sort(["a,b"], LexLeq) == ["a,b"];
    assert LexLeq("a", "b");
    assert Sort(["a", "b"], LexLeq) == ["a"] + ["b"];
    assert Join(["b"], ',') == "b";
    assert "a" + [','] + "b" == "a,b";
  }

  lemma {:induction false} NothingSurvives(hs: seq<Hypothesis>, suppressed: seq<string>, env: Env)
    requires forall h | h in hs :: Fingerprint(h, env) in suppressed
    ensures Active(hs, suppressed, env) == []
  {
    if hs != [] {
      assert hs[0] in hs && forall h | h in hs[1..] :: h in hs;
      NothingSurvives(hs[1..], suppressed, env);
    }
  }
}
