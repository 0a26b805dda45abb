/** The deterministic gates around the fixer: path denylist, CODEOWNERS lookup, and the
    decision what kind of proposal may leave the agent. */
module FixerPolicy {
  import opened Prelude
  import opened Text
  import opened Glob

  /** Forward slashes, and a leading `./` dropped. */
  function Normalize(path: string): string {
    var norm := Slashed(path);
    if StartsWith(norm, "./") then norm[2..] else norm
  }

  // ----- denylist ---------------------------------------------------------------------

  predicate IsDenied(patterns: seq<string>, path: string) {
    exists i | 0 <= i < |patterns| :: GlobMatches(patterns[i], Normalize(path))
  }

  function Denied(patterns: seq<string>, paths: seq<string>): seq<string> {
    if paths == [] then []
    else (if IsDenied(patterns, paths[0]) then [paths[0]] else []) + Denied(patterns, paths[1..])
  }

  lemma {:induction false} DeniedAppend(patterns: seq<string>, paths: seq<string>, last: string)
    ensures Denied(patterns, paths + [last])
         == Denied(patterns, paths) + (if IsDenied(patterns, last) then [last] else [])
  {
    if paths == [] {
      assert [last][1..] == [] && [] + [last] == [last];
    } else {
      DeniedAppend(patterns, paths[1..], last);
      assert (paths + [last])[1..] == paths[1..] + [last];
    }
  }

  lemma DeniedIff(patterns: seq<string>, path: string)
    ensures IsDenied(patterns, path) <==> exists g | g in patterns :: GlobMatches(g, Normalize(path))
  {
    if g :| g in patterns && GlobMatches(g, Normalize(path)) {
      var i :| 0 <= i < |patterns| && patterns[i] == g;
    }
  }

  lemma {:induction false} NothingDenied(patterns: seq<string>, paths: seq<string>)
    ensures Denied(patterns, paths) == [] <==> forall p, g | p in paths && g in patterns ::
        !GlobMatches(g, Normalize(p))
    ensures Denied(patterns, paths) == [] <==> forall p | p in paths :: !IsDenied(patterns, p)
    ensures Denied(patterns, paths) == Select(paths, (p: string) => IsDenied(patterns, p))
  {
    forall p ensures IsDenied(patterns, p) <==> exists g | g in patterns :: GlobMatches(g, Normalize(p)) {
      DeniedIff(patterns, p);
    }
    if paths != [] {
      NothingDenied(patterns, paths[1..]);
      assert paths[0] in paths && forall p | p in paths[1..] :: p in paths;
      assert forall p | p in paths :: p == paths[0] || p in paths[1..];
    }
  }

  /** The pattern is the first one that matches the path. */
  ghost predicate Explains(patterns: seq<string>, path: string, pattern: string) {
    exists i | 0 <= i < |patterns| :: pattern == patterns[i] && FirstMatch(patterns, Normalize(path), i)
  }

  predicate FirstMatch(patterns: seq<string>, norm: string, i: nat)
    requires i < |patterns|
  {
    GlobMatches(patterns[i], norm) && forall j | 0 <= j < i :: !GlobMatches(patterns[j], norm)
  }

  method MatchingPattern(patterns: seq<string>, path: string) returns (hit: Option<string>)
    ensures hit.Some? <==> IsDenied(patterns, path)
    ensures hit.Some? ==> Explains(patterns, path, hit.value)
  {
    var norm := Normalize(path);
    for i := 0 to |patterns|
      invariant forall j | 0 <= j < i :: !GlobMatches(patterns[j], norm)
    {
      TranslationPreservesMeaning(patterns[i], norm);
      if GlobMatch(patterns[i], norm) {
        assert FirstMatch(patterns, norm, i);
        return Some(patterns[i]);
      }
    }
    return None;
  }

  /** One (path, pattern) explanation per denied path, in order, naming the first pattern
      that matches. */
  method Reasons(patterns: seq<string>, paths: seq<string>) returns (out: seq<(string, string)>)
    ensures |out| == |Denied(patterns, paths)|
    ensures forall k | 0 <= k < |out| :: out[k].0 == Denied(patterns, paths)[k]
    ensures forall k | 0 <= k < |out| :: Explains(patterns, out[k].0, out[k].1)
    ensures out == [] <==> forall p | p in paths :: !IsDenied(patterns, p)
  {
    out := [];
    for n := 0 to |paths|
      invariant |out| == |Denied(patterns, paths[..n])|
      invariant forall k | 0 <= k < |out| :: out[k].0 == Denied(patterns, paths[..n])[k]
      invariant forall k | 0 <= k < |out| :: Explains(patterns, out[k].0, out[k].1)
    {
      var hit := MatchingPattern(patterns, paths[n]);
      DeniedAppend(patterns, paths[..n], paths[n]);
      assert paths[..n + 1] == paths[..n] + [paths[n]];
      if hit.Some? {
        out := out + [(paths[n], hit.value)];
      }
    }
    assert paths[..|paths|] == paths;
    NothingDenied(patterns, paths);
  }

  // ----- CODEOWNERS --------------------------------------------------------------------

  datatype Rule = Rule(pattern: string, owners: seq<string>)

  /** A trailing slash means everything beneath. */
  function Beneath(p: string): string {
    if p != "" && p[|p| - 1] == '/' then p + "**" else p
  }

  function PatternToGlob(pattern: string): string {
    var q := Beneath(if StartsWith(pattern, "/") then pattern[1..] else pattern);
    if '/' in q then q else "**/" + q
  }

  predicate Owns(rule: Rule, path: string) {
    var g := PatternToGlob(rule.pattern);
    GlobMatches(g, Normalize(path)) || GlobMatches(g, "/" + Normalize(path))
  }

  /** What the code evaluates, through the translated regular expression. */
  method RuleFires(rule: Rule, path: string) returns (fires: bool)
    ensures fires == Owns(rule, path)
  {
    var norm, glob := Normalize(path), PatternToGlob(rule.pattern);
    TranslationPreservesMeaning(glob, norm);
    TranslationPreservesMeaning(glob, "/" + norm);
    fires := GlobMatch(glob, norm) || GlobMatch(glob, "/" + norm);
  }

  function LastMatch(rules: seq<Rule>, owns: Rule -> bool): seq<string> {
    if rules == [] then []
    else if owns(rules[|rules| - 1]) then rules[|rules| - 1].owners
    else LastMatch(rules[..|rules| - 1], owns)
  }

  /** The last rule that matches decides; no matching rule means no owners. */
  method OwnersFor(rules: seq<Rule>, path: string) returns (matched: seq<string>)
    ensures matched == LastMatch(rules, (r: Rule) => Owns(r, path))
  {
    ghost var owns := (r: Rule) => Owns(r, path);
    matched := [];
    for n := 0 to |rules|
      invariant matched == LastMatch(rules[..n], owns)
    {
      assert rules[..n + 1][..n] == rules[..n];
      var fires := RuleFires(rules[n], path);
      if fires {
        matched := rules[n].owners;
      }
    }
    assert rules[..|rules|] == rules;
  }

  /** What `OwnersFor` returns: the owners of the last rule that owns the path, whichever it
      is, and nobody when no rule does. */
  lemma {:induction false} LastMatchDecides(rules: seq<Rule>, owns: Rule -> bool, i: nat)
    requires i < |rules| ==> owns(rules[i]) && forall j | i < j < |rules| :: !owns(rules[j])
    requires i >= |rules| ==> forall j | 0 <= j < |rules| :: !owns(rules[j])
    ensures LastMatch(rules, owns) == if i < |rules| then rules[i].owners else []
  {
    if rules != [] && i != |rules| - 1 {
      LastMatchDecides(rules[..|rules| - 1], owns, if i < |rules| then i else |rules| - 1);
    }
  }

  predicate Literal(p: string) {
    '*' !in p && '?' !in p
  }

  lemma {:induction false} LiteralMatchesItself(p: string, s: string)
    requires Literal(p)
    ensures GlobMatches(p, s) <==> s == p
  {
    if p != "" {
      PrefixChar(p, "**", 0);
      assert p[0] in p;
      assert forall c | c in p[1..] :: c in p;
      if s != "" {
        LiteralMatchesItself(p[1..], s[1..]);
        assert s == [s[0]] + s[1..] && p == [p[0]] + p[1..];
      }
    }
  }

  /** `**` takes the first `k` characters, the pattern the rest. */
  predicate DeepSplit(p: string, s: string, k: nat)
    requires k <= |s|
  {
    '\n' !in s[..k] && GlobMatches(p, s[k..])
  }

  lemma DeepUnfolds(p: string, s: string)
    ensures GlobMatches("**" + p, s) <==>
       GlobMatches(p, s) || (s != "" && s[0] != '\n' && GlobMatches("**" + p, s[1..]))
  {
    assert ("**" + p)[..2] == "**" && ("**" + p)[2..] == p;
  }

  lemma SplitUnfolds(p: string, s: string, k: nat)
    requires s != "" && k < |s|
    ensures DeepSplit(p, s, k + 1) <==> s[0] != '\n' && DeepSplit(p, s[1..], k)
  {
    assert s[..k + 1] == [s[0]] + s[1..][..k] && s[1..][k..] == s[k + 1..];
  }

  lemma {:induction false} DeepMatches(p: string, s: string)
    ensures GlobMatches("**" + p, s) <==> exists k | 0 <= k <= |s| :: DeepSplit(p, s, k)
    decreases |s|
  {
    DeepUnfolds(p, s);
    assert DeepSplit(p, s, 0) <==> GlobMatches(p, s) by { assert s[0..] == s && s[..0] == ""; }
    if s != "" {
      DeepMatches(p, s[1..]);
      forall k | 0 <= k < |s| ensures DeepSplit(p, s, k + 1) <==> s[0] != '\n' && DeepSplit(p, s[1..], k) {
        SplitUnfolds(p, s, k);
      }
      if k :| 0 < k <= |s| && DeepSplit(p, s, k) {
        assert DeepSplit(p, s[1..], k - 1);
      }
    }
  }

  /** The leading slash itself is dropped. If such a pattern is anchored, then by another slash. */
  lemma LeadingSlashIsIgnored(pattern: string, owners: seq<string>, path: string)
    requires !StartsWith(pattern, "/")
    ensures Owns(Rule("/" + pattern, owners), path) <==> Owns(Rule(pattern, owners), path)
  {
    assert StartsWith("/" + pattern, "/") && ("/" + pattern)[1..] == pattern;
  }

  /** `**` in front of a literal accepts what ends in the literal, up to a newline. */
  lemma DeepLiteral(tail: string, s: string)
    requires Literal(tail)
    ensures GlobMatches("**" + tail, s) <==> exists k | 0 <= k <= |s| :: '\n' !in s[..k] && s[k..] == tail
  {
    DeepMatches(tail, s);
    forall k | 0 <= k <= |s| ensures DeepSplit(tail, s, k) <==> '\n' !in s[..k] && s[k..] == tail {
      LiteralMatchesItself(tail, s[k..]);
    }
  }

  /** A bare file name, anchored or not, owns that name in every directory. */
  lemma BareNameOwnsEverywhere(name: string, owners: seq<string>, path: string)
    requires name != "" && Literal(name) && '/' !in name
    ensures Owns(Rule(name, owners), path) <==>
       var norm := Normalize(path);
            || norm == name
            || exists k | 0 <= k <= |norm| :: '\n' !in norm[..k] && norm[k..] == "/" + name
  {
    var norm, tail := Normalize(path), "/" + name;
    PrefixChar(name, "/", 0);
    assert name[|name| - 1] in name && name[0] in name;
    assert Literal(tail);
    assert PatternToGlob(name) == "**" + tail by {
      assert "**/" + name == "**" + tail;
    }
    DeepLiteral(tail, norm);
    DeepLiteral(tail, "/" + norm);
    RootedSuffix(norm, name);
  }

  /** Looking for `/name` behind a leading slash finds nothing new except the bare name. */
  lemma RootedSuffix(norm: string, name: string)
    ensures (exists k | 0 <= k <= |"/" + norm| :: '\n' !in ("/" + norm)[..k] && ("/" + norm)[k..] == "/" + name) <==>
       norm == name || exists k | 0 <= k <= |norm| :: '\n' !in norm[..k] && norm[k..] == "/" + name
  {
    var rooted, tail := "/" + norm, "/" + name;
    if norm == name {
      assert rooted[0..] == tail && '\n' !in rooted[..0];
    }
    if k :| 0 <= k <= |norm| && '\n' !in norm[..k] && norm[k..] == tail {
      assert rooted[..k + 1] == "/" + norm[..k] && rooted[k + 1..] == tail;
      assert '\n' !in rooted[..k + 1];
    }
    if k :| 0 <= k <= |rooted| && '\n' !in rooted[..k] && rooted[k..] == tail {
      if k == 0 {
        assert norm == rooted[1..] == tail[1..] == name;
      } else {
        assert rooted[k..] == norm[k - 1..] && rooted[..k] == "/" + norm[..k - 1];
        assert '\n' !in norm[..k - 1];
      }
    }
  }

  // ----- which patterns are anchored ---------------------------------------------------

  /** What the documentation says of a leading slash: the rest of the pattern is matched from the
      root, and nowhere else. */
  ghost predicate AnchoredAtRoot(p: string) {
    forall owners, path | '\n' !in path :: Owns(Rule("/" + p, owners), path) <==>
      GlobMatches(Beneath(p), Normalize(path))
  }

  function AfterStars(q: string): string {
    if q != "" && q[0] == '*' then AfterStars(q[1..]) else q
  }

  /** There is a `**` with nothing but wildcards in front of it. */
  predicate OpensDeep(p: string) {
    p != "" && (StartsWith(p, "**") || ((p[0] == '*' || p[0] == '?') && OpensDeep(p[1..])))
  }

  /** With another slash, the pattern must not begin, stars aside, with something that takes a slash;
      without one, it must reach any depth by itself. No path has a backslash once it is normalized. */
  predicate KeepsAnchor(p: string) {
    || '\\' in p || '\n' in p
    || if '/' in p then var r := AfterStars(Beneath(p)); r == "" || (r[0] != '/' && r[0] != '?') else OpensDeep(p)
  }

  lemma {:induction false} LiteralsAppear(p: string, s: string, c: char)
    requires GlobMatches(p, s) && c in p && c != '*' && c != '?'
    ensures c in s
    decreases |p| + |s|
  {
    if StartsWith(p, "**") {
      PrefixChar(p, "**", 0);
      PrefixChar(p, "**", 1);
      if GlobMatches(p[2..], s) {
        assert p == [p[0]] + [p[1]] + p[2..];
        LiteralsAppear(p[2..], s, c);
      } else {
        LiteralsAppear(p, s[1..], c);
      }
    } else if p[0] == '*' {
      if GlobMatches(p[1..], s) {
        LiteralsAppear(p[1..], s, c);
      } else {
        LiteralsAppear(p, s[1..], c);
      }
    } else if p[0] != c {
      LiteralsAppear(p[1..], s[1..], c);
    }
  }

  /** The shortest match: stars take nothing, and each `?` this character. */
  function Filled(p: string, x: char): string {
    if p == "" then ""
    else if p[0] == '*' then Filled(p[1..], x)
    else [if p[0] == '?' then x else p[0]] + Filled(p[1..], x)
  }

  lemma {:induction false} FilledMatches(p: string, x: char)
    requires x != '\n'
    ensures GlobMatches(p, Filled(p, x))
    decreases |p|
  {
    if StartsWith(p, "**") {
      PrefixChar(p, "**", 0);
      PrefixChar(p, "**", 1);
      FilledMatches(p[2..], x);
      assert p[1..][1..] == p[2..] && Filled(p, x) == Filled(p[2..], x);
    } else if p != "" {
      FilledMatches(p[1..], x);
    }
  }

  lemma {:induction false} FilledIsShortest(p: string, x: char, s: string)
    requires GlobMatches(p, s)
    ensures |s| >= |Filled(p, x)|
    decreases |p| + |s|
  {
    if StartsWith(p, "**") {
      PrefixChar(p, "**", 0);
      PrefixChar(p, "**", 1);
      assert p[1..][1..] == p[2..] && Filled(p, x) == Filled(p[2..], x);
      if GlobMatches(p[2..], s) {
        FilledIsShortest(p[2..], x, s);
      } else {
        FilledIsShortest(p, x, s[1..]);
      }
    } else if p != "" && p[0] == '*' {
      if GlobMatches(p[1..], s) {
        FilledIsShortest(p[1..], x, s);
      } else {
        FilledIsShortest(p, x, s[1..]);
      }
    } else if p != "" {
      FilledIsShortest(p[1..], x, s[1..]);
    }
  }

  lemma {:induction false} FilledFrom(p: string, x: char)
    ensures forall c | c in Filled(p, x) :: c == x || c in p
  {
    if p != "" {
      FilledFrom(p[1..], x);
      assert forall c | c in p[1..] :: c in p;
    }
  }

  lemma {:induction false} StarsTakeNothing(q: string, s: string, x: char)
    ensures GlobMatches(AfterStars(q), s) ==> GlobMatches(q, s)
    ensures Filled(AfterStars(q), x) == Filled(q, x)
    decreases |q|
  {
    if StartsWith(q, "**") {
      PrefixChar(q, "**", 0);
      PrefixChar(q, "**", 1);
      StarsTakeNothing(q[2..], s, x);
      assert q[1..][1..] == q[2..];
      assert AfterStars(q) == AfterStars(q[2..]) && Filled(q, x) == Filled(q[2..], x);
    } else if q != "" && q[0] == '*' {
      StarsTakeNothing(q[1..], s, x);
    }
  }

  /** A pattern that does not begin with something that takes a slash gains nothing from one in front. */
  lemma {:induction false} SlashInFront(q: string, n: string)
    requires var r := AfterStars(q); r == "" || (r[0] != '/' && r[0] != '?')
    ensures GlobMatches(q, "/" + n) ==> GlobMatches(q, n)
    decreases |q|
  {
    assert ("/" + n)[1..] == n;
    if StartsWith(q, "**") {
      PrefixChar(q, "**", 0);
      PrefixChar(q, "**", 1);
      assert q[1..][1..] == q[2..] && AfterStars(q) == AfterStars(q[2..]);
      SlashInFront(q[2..], n);
    } else if q != "" && q[0] == '*' {
      SlashInFront(q[1..], n);
    }
  }

  /** One that does is matched one level up, too. */
  lemma SlashIsTaken(q: string) returns (n: string)
    requires var r := AfterStars(q); r != "" && (r[0] == '/' || r[0] == '?')
    ensures GlobMatches(q, "/" + n) && !GlobMatches(q, n)
    ensures forall c | c in n :: c == 'a' || c in q
  {
    var r := AfterStars(q);
    n := Filled(r[1..], 'a');
    FilledMatches(r[1..], 'a');
    FilledFrom(r[1..], 'a');
    AfterStarsIsSuffix(q);
    assert ("/" + n)[1..] == n && GlobMatches(r, "/" + n) by {
      assert r[0] != '*';
      NoStarNoDeep(r);
    }
    StarsTakeNothing(q, "/" + n, 'a');
    assert Filled(q, 'a') == Filled(r, 'a') && |Filled(r, 'a')| == 1 + |n|;
    if GlobMatches(q, n) {
      FilledIsShortest(q, 'a', n);
    }
  }

  lemma NoStarNoDeep(r: string)
    requires r != "" && r[0] != '*'
    ensures !StartsWith(r, "**")
  {
    PrefixChar(r, "**", 0);
  }

  lemma {:induction false} AfterStarsIsSuffix(q: string)
    ensures |AfterStars(q)| <= |q| && forall c | c in AfterStars(q) :: c in q
    ensures AfterStars(q) == "" || AfterStars(q)[0] != '*'
  {
    if q != "" && q[0] == '*' {
      AfterStarsIsSuffix(q[1..]);
    }
  }

  /** A pattern that reaches any depth by itself matches beneath any directory what it matches above. */
  lemma {:induction false} AnyDepth(p: string, x: string, v: string)
    requires OpensDeep(p) && GlobMatches(p, v) && '\n' !in x && '\n' !in v
    ensures GlobMatches(p, x + v)
    decreases |p| + |v|, |x|
  {
    assert forall c | c in v[if v == "" then 0 else 1..] :: c in v;
    if x == "" {
      assert x + v == v;
    } else if StartsWith(p, "**") {
      assert (x + v)[1..] == x[1..] + v && (x + v)[0] == x[0] && x[0] in x;
      assert forall c | c in x[1..] :: c in x;
      AnyDepth(p, x[1..], v);
    } else if p[0] == '?' {
      var y := x[1..] + [v[0]];
      assert x + v == [x[0]] + (y + v[1..]) && x[0] in x && v[0] in v;
      assert forall c | c in y :: c in x || c == v[0];
      AnyDepth(p[1..], y, v[1..]);
      assert (x + v)[1..] == y + v[1..];
    } else if GlobMatches(p[1..], v) {
      AnyDepth(p[1..], x, v);
    } else {
      var y := x + [v[0]];
      assert x + v == y + v[1..] && v[0] in v;
      assert forall c | c in y :: c in x || c == v[0];
      AnyDepth(p, y, v[1..]);
    }
  }

  function Slashes(j: nat): string {
    if j == 0 then "" else "/" + Slashes(j - 1)
  }

  /** One that does not, and has no slash, misses its shortest match, with slashes for `?`, one level down. */
  lemma {:induction false} NotDeeper(p: string, j: nat)
    requires '/' !in p && !OpensDeep(p) && j > 0
    ensures !GlobMatches(p, Slashes(j) + Filled(p, '/'))
    decreases |p|
  {
    var s := Slashes(j) + Filled(p, '/');
    assert s[0] == '/';
    if p != "" {
      assert forall c | c in p[1..] :: c in p;
      assert p[0] in p;
      if p[0] == '?' {
        NotDeeper(p[1..], j);
        SlashesShift(j, Filled(p[1..], '/'));
        assert s[1..] == Slashes(j) + Filled(p[1..], '/');
        NoStarNoDeep(p);
      } else if p[0] == '*' {
        NotDeeper(p[1..], j);
      } else {
        NoStarNoDeep(p);
      }
    }
  }

  lemma {:induction false} SlashesShift(j: nat, rest: string)
    requires j > 0
    ensures Slashes(j) + (['/'] + rest) == "/" + (Slashes(j) + rest)
  {
    if j > 1 {
      SlashesShift(j - 1, rest);
      assert Slashes(j) + (['/'] + rest) == "/" + (Slashes(j - 1) + (['/'] + rest));
      assert Slashes(j) + rest == "/" + (Slashes(j - 1) + rest);
    } else {
      assert Slashes(1) == "/" + Slashes(0);
    }
  }

  /** Every path without a backslash is what some path is normalized to. */
  lemma NormalizedPath(n: string)
    requires '\\' !in n
    ensures Normalize("./" + n) == n
  {
    SlashedHasNoBackslash("./" + n);
    assert ("./" + n)[2..] == n && ("./" + n)[..2] == "./";
  }

  lemma NormalizedHasNoBackslash(path: string)
    ensures '\\' !in Normalize(path)
    ensures '\n' !in path ==> '\n' !in Normalize(path)
  {
    SlashedHasNoBackslash(path);
  }

  lemma BeneathOf(p: string)
    ensures '/' in Beneath(p) <==> '/' in p
    ensures forall c | c in Beneath(p) :: c in p || c == '*'
    ensures '/' !in p ==> Beneath(p) == p
    ensures forall c | c in p :: c in Beneath(p)
  {
  }

  lemma GlobOf(p: string)
    ensures PatternToGlob("/" + p) == if '/' in p then Beneath(p) else "**/" + p
  {
    BeneathOf(p);
    assert StartsWith("/" + p, "/") && ("/" + p)[1..] == p;
  }

  /** The exact condition, for every pattern: a leading slash anchors it, as documented, if and only if
      `KeepsAnchor` holds of the rest. */
  lemma AnchoredIff(p: string)
    ensures AnchoredAtRoot(p) <==> KeepsAnchor(p)
  {
    if '\\' in p || '\n' in p {
      NothingMatches(p);
    } else if '/' in p {
      AnchoredBySlashIff(p);
    } else {
      AnchoredByDepthIff(p);
    }
  }

  lemma NothingMatches(p: string)
    requires '\\' in p || '\n' in p
    ensures AnchoredAtRoot(p)
  {
    var c := if '\\' in p then '\\' else '\n';
    GlobOf(p);
    BeneathOf(p);
    assert forall x | x in p :: x in "**/" + p;
    forall owners, path | '\n' !in path
      ensures Owns(Rule("/" + p, owners), path) <==> GlobMatches(Beneath(p), Normalize(path))
    {
      var g, norm := PatternToGlob("/" + p), Normalize(path);
      NormalizedHasNoBackslash(path);
      if GlobMatches(g, norm) { LiteralsAppear(g, norm, c); }
      if GlobMatches(g, "/" + norm) { LiteralsAppear(g, "/" + norm, c); }
      if GlobMatches(Beneath(p), norm) { LiteralsAppear(Beneath(p), norm, c); }
    }
  }

  lemma AnchoredBySlashIff(p: string)
    requires '/' in p && '\\' !in p && '\n' !in p
    ensures AnchoredAtRoot(p) <==> KeepsAnchor(p)
  {
    var q := Beneath(p);
    GlobOf(p);
    BeneathOf(p);
    if KeepsAnchor(p) {
      forall owners, path | '\n' !in path ensures Owns(Rule("/" + p, owners), path) <==>
        GlobMatches(q, Normalize(path)) {
        SlashInFront(q, Normalize(path));
      }
    } else {
      var n := SlashIsTaken(q);
      NormalizedPath(n);
      assert '\n' !in "./" + n;
      assert Owns(Rule("/" + p, []), "./" + n);
    }
  }

  lemma AnchoredByDepthIff(p: string)
    requires '/' !in p && '\\' !in p && '\n' !in p
    ensures AnchoredAtRoot(p) <==> KeepsAnchor(p)
  {
    GlobOf(p);
    BeneathOf(p);
    if OpensDeep(p) {
      forall owners, path | '\n' !in path ensures Owns(Rule("/" + p, owners), path) <==>
        GlobMatches(p, Normalize(path)) {
        NormalizedHasNoBackslash(path);
        OwnedAtAnyDepth(p, owners, path);
      }
    } else {
      var path := OwnedBelow(p);
      hide Owns, OpensDeep, GlobMatches;
      assert !(Owns(Rule("/" + p, []), path) <==> GlobMatches(Beneath(p), Normalize(path)));
    }
  }

  lemma OwnedBelow(p: string) returns (path: string)
    requires '/' !in p && '\\' !in p && '\n' !in p && !OpensDeep(p)
    ensures '\n' !in path && Owns(Rule("/" + p, []), path) && !GlobMatches(p, Normalize(path))
  {
    var n := "/" + Filled(p, '/');
    path := "./" + n;
    GlobOf(p);
    FilledFrom(p, '/');
    FilledMatches(p, '/');
    NotDeeper(p, 1);
    assert Slashes(1) == "/" + Slashes(0);
    NormalizedPath(n);
    assert n[1..] == Filled(p, '/') && n[..0] == "";
    hide GlobMatches, OpensDeep;
    DeepOwns(p, n, 0);
  }

  /** `**` in front of a slash and a pattern: somewhere the pattern matches what follows a slash. */
  lemma DeepOwns(p: string, s: string, k: nat)
    requires k < |s| && '\n' !in s[..k] && s[k] == '/' && GlobMatches(p, s[k + 1..])
    ensures GlobMatches("**/" + p, s)
  {
    assert "**/" + p == "**" + ("/" + p) && ("/" + p)[1..] == p && s[k..][1..] == s[k + 1..];
    NoStarNoDeep("/" + p);
    assert GlobMatches("/" + p, s[k..]);
    DeepMatches("/" + p, s);
    assert DeepSplit("/" + p, s, k);
  }

  lemma DeepOwned(p: string, s: string) returns (k: nat)
    requires GlobMatches("**/" + p, s)
    ensures k < |s| && '\n' !in s[..k] && s[k] == '/' && GlobMatches(p, s[k + 1..])
  {
    assert "**/" + p == "**" + ("/" + p) && ("/" + p)[1..] == p;
    NoStarNoDeep("/" + p);
    DeepMatches("/" + p, s);
    k :| 0 <= k <= |s| && DeepSplit("/" + p, s, k);
    assert s[k..][1..] == s[k + 1..];
  }

  lemma OwnedAtAnyDepth(p: string, owners: seq<string>, path: string)
    requires '/' !in p && OpensDeep(p) && '\n' !in Normalize(path)
    ensures Owns(Rule("/" + p, owners), path) <==> GlobMatches(p, Normalize(path))
  {
    hide GlobMatches, OpensDeep, Normalize, PatternToGlob;
    var norm := Normalize(path);
    var rooted := "/" + norm;
    GlobOf(p);
    assert rooted[1..] == norm;
    if GlobMatches(p, norm) {
      DeepOwns(p, rooted, 0);
    }
    if GlobMatches("**/" + p, norm) {
      var k := DeepOwned(p, norm);
      assert norm == norm[..k + 1] + norm[k + 1..];
      AnyDepth(p, norm[..k + 1], norm[k + 1..]);
    }
    if GlobMatches("**/" + p, rooted) {
      var k := DeepOwned(p, rooted);
      assert rooted[k + 1..] == norm[k..] && norm == norm[..k] + norm[k..];
      AnyDepth(p, norm[..k], norm[k..]);
    }
  }

  // Patterns without wildcards.

  lemma {:induction false} LiteralThenDeep(p: string, s: string)
    requires Literal(p)
    ensures GlobMatches(p + "**", s) <==> |p| <= |s| && s[..|p|] == p && '\n' !in s[|p|..]
  {
    if p == "" {
      assert p + "**" == "**" && s[0..] == s;
      DeepIsNewlineFree(s);
    } else {
      var q := p + "**";
      assert q[1..] == p[1..] + "**" && q[0] == p[0] && p[0] in p;
      assert forall c | c in p[1..] :: c in p;
      NoStarNoDeep(q);
      if s != "" {
        LiteralThenDeep(p[1..], s[1..]);
        if |p| <= |s| {
          assert s[..|p|] == [s[0]] + s[1..][..|p| - 1] && p == [p[0]] + p[1..] && s[1..][|p| - 1..] == s[|p|..];
        }
      }
    }
  }

  /** The path itself, or with a trailing slash anything beneath it, up to a newline. */
  predicate AtOrBeneath(p: string, norm: string) {
    if p != "" && p[|p| - 1] == '/' then |p| <= |norm| && norm[..|p|] == p && '\n' !in norm[|p|..] else norm == p
  }

  /** For a pattern without wildcards it comes down to another slash: `/src/app.py` and `/docs/` are
      anchored, `/Makefile` is not. */
  lemma LiteralAnchoredIff(p: string, owners: seq<string>)
    requires p != "" && Literal(p) && '\\' !in p && p[0] != '/'
    ensures (forall path :: Owns(Rule("/" + p, owners), path) <==> AtOrBeneath(p, Normalize(path))) <==> '/' in p
  {
    GlobOf(p);
    assert p[0] in p;
    if '/' in p {
      forall path ensures Owns(Rule("/" + p, owners), path) <==> AtOrBeneath(p, Normalize(path)) {
        var norm := Normalize(path);
        LiteralMatchesItself(p, norm);
        LiteralThenDeep(p, norm);
        SlashInFrontOfLiteral(p, norm);
      }
    } else {
      LeavesTheRoot(p, owners);
    }
  }

  lemma SlashInFrontOfLiteral(p: string, norm: string)
    requires p != "" && Literal(p) && p[0] != '/'
    ensures !GlobMatches(Beneath(p), "/" + norm)
  {
    assert p[0] in p && Beneath(p)[0] == p[0];
    NoStarNoDeep(Beneath(p));
  }

  /** The failing input: a slash, a name, and that name in a directory. */
  lemma LeavesTheRoot(name: string, owners: seq<string>)
    requires name != "" && Literal(name) && '\\' !in name && '/' !in name
    ensures Owns(Rule("/" + name, owners), "sub/" + name)
    ensures !AtOrBeneath(name, Normalize("sub/" + name))
  {
    var path := "sub/" + name;
    assert Normalize(path) == path by { PlainPath(path); }
    assert path[3..] == "/" + name && '\n' !in path[..3];
    assert name[|name| - 1] in name && !StartsWith(name, "/") by { NoSlashInFront(name); }
    hide Owns, Normalize, Literal;
    LeadingSlashIsIgnored(name, owners, path);
    BareNameOwnsEverywhere(name, owners, path);
  }

  lemma PlainPath(path: string)
    requires path != "" && path[0] != '.' && '\\' !in path
    ensures Normalize(path) == path
  {
    SlashedHasNoBackslash(path);
    PrefixChar(path, "./", 0);
  }

  lemma NoSlashInFront(name: string)
    requires '/' !in name
    ensures !StartsWith(name, "/")
  {
    PrefixChar(name, "/", 0);
    assert name != "" ==> name[0] in name;
  }

  lemma MakefileLeavesTheRoot(owners: seq<string>)
    ensures Owns(Rule("/Makefile", owners), "sub/Makefile")
  {
    hide Owns, Normalize, AtOrBeneath;
    LeavesTheRoot("Makefile", owners);
    assert "/" + "Makefile" == "/Makefile" && "sub/" + "Makefile" == "sub/Makefile";
  }

  // ----- what may be proposed -----------------------------------------------------------

  datatype FixAction = CodePatch | ConfigChange | DocOnly | NoFix

  const CODE_CLASSES := {"code-patch", "missing-retry", "missing-timeout", "missing-circuit-breaker",
                         "missing-fallback", "auth-control-gap", "secret-handling", "test-gap"}

  function DecideAction(fixClass: string, confidence: real, minConfidence: real): FixAction {
    if confidence < minConfidence then NoFix
    else if fixClass == "working-as-intended" then DocOnly
    else if fixClass in {"config-change", "image-policy"} then ConfigChange
    else if fixClass in CODE_CLASSES then CodePatch
    else NoFix
  }

  /** What each class of finding calls for, from someone confident enough. */
  function Intended(fixClass: string, confidence: real, minConfidence: real): FixAction {
    if confidence < minConfidence then NoFix
    else match fixClass
      case "working-as-intended" => DocOnly
      case "config-change" => ConfigChange
      case "image-policy" => ConfigChange
      case "code-patch" => CodePatch
      case "missing-retry" => CodePatch
      case "missing-timeout" => CodePatch
      case "missing-circuit-breaker" => CodePatch
      case "missing-fallback" => CodePatch
      case "auth-control-gap" => CodePatch
      case "secret-handling" => CodePatch
      case "test-gap" => CodePatch
      case _ => NoFix
  }

  lemma DecidesAsIntended(fixClass: string, confidence: real, minConfidence: real)
    ensures DecideAction(fixClass, confidence, minConfidence) == Intended(fixClass, confidence, minConfidence)
  {
  }

  datatype Proposal = Proposal(action: FixAction, files: seq<string>)

  /** `propose_fix`. The strategy is a black box that answers with any list of files, or
      raises; without a strategy the agent declines. */
  method ProposeFix(fixClass: string, confidence: real, minConfidence: real,
                    strategy: Option<Answer<seq<string>>>, denylist: seq<string>, docPath: string)
    returns (proposal: Answer<Proposal>)
    ensures var none := Answered(Proposal(NoFix, []));
            proposal == match Intended(fixClass, confidence, minConfidence)
            case NoFix => none
            case DocOnly => Answered(Proposal(DocOnly, [docPath]))
            case action =>
              match strategy
              case None => none
              case Some(Raised) => Raised
              case Some(Answered(files)) =>
                if exists f, g | f in files && g in denylist :: GlobMatches(g, Normalize(f)) then none
                else Answered(Proposal(action, files))
  {
    DecidesAsIntended(fixClass, confidence, minConfidence);
    var action := DecideAction(fixClass, confidence, minConfidence);
    if action == NoFix {
      return Answered(Proposal(NoFix, []));
    }
    if action == DocOnly {
      return Answered(Proposal(DocOnly, [docPath]));
    }
    if strategy.None? {
      return Answered(Proposal(NoFix, []));
    }
    if strategy.value.Raised? {
      return Raised;
    }
    var denied := Reasons(denylist, strategy.value.value);
    NothingDenied(denylist, strategy.value.value);
    if denied != [] {
      return Answered(Proposal(NoFix, []));
    }
    return Answered(Proposal(action, strategy.value.value));
  }
}
