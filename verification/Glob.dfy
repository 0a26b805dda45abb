/** The glob translation of the fixer policy, seen as a small compiler: a pattern is
    escaped and rewritten by three textual replacements into a regular expression,
    which `re.fullmatch` then runs. The reference is a matcher that reads the pattern
    directly. */
module Glob {
  import opened Prelude
  import opened Text

  /** The characters `re.escape` puts a backslash in front of. */
  predicate Special(c: char) {
    || c == '(' || c == ')' || c == '[' || c == ']' || c == '{' || c == '}'
    || c == '?' || c == '*' || c == '+' || c == '-' || c == '|' || c == '^' || c == '$'
    || c == '\\' || c == '.' || c == '&' || c == '~' || c == '#'
    || c == ' ' || c == '\t' || c == '\n' || c == '\r' || c == '\U{0B}' || c == '\U{0C}'
  }

  /** The characters that mean something by themselves in an expression. */
  predicate Meta(c: char) {
    c in "()[]{}?*+|^$\\."
  }

  /** A backslash in front of one of these would not make it a literal. */
  predicate Alphanumeric(c: char) {
    '0' <= c <= '9' || 'A' <= c <= 'Z' || 'a' <= c <= 'z'
  }

  /** The characters that would quantify what stands before them. */
  predicate Quantifier(c: char) {
    c == '*' || c == '+' || c == '?' || c == '{'
  }

  function EscapeChar(c: char): string {
    if Special(c) then ['\\', c] else [c]
  }

  function Escape(p: string): string {
    if p == "" then "" else EscapeChar(p[0]) + Escape(p[1..])
  }

  /** The regular expression `_glob_match` hands to `re.fullmatch`. */
  function Translate(p: string): string {
    Replace(Replace(Replace(Escape(p), "\\*\\*", ".*"), "\\*", "[^/]*"), "\\?", ".")
  }

  // ----- the part of Python's regular expressions the translation lands in ----------

  datatype Atom = Lit(c: char) | AnyButNewline | AnyButSlash

  datatype Piece = One(atom: Atom) | Many(atom: Atom)

  predicate AtomAccepts(a: Atom, c: char) {
    match a
    case Lit(d) => c == d
    case AnyButNewline => c != '\n'
    case AnyButSlash => c != '/'
  }

  /** Reads one atom off the front of a regular expression; None when the text is not
      in the modelled part of the syntax. */
  function ParseAtom(s: string): (r: Option<(Atom, string)>)
    ensures r.Some? ==> |r.value.1| < |s|
  {
    if s == "" then None
    else if s[0] == '\\' then
      if |s| > 1 && !Alphanumeric(s[1]) then Some((Lit(s[1]), s[2..])) else None
    else if s[0] == '.' then Some((AnyButNewline, s[1..]))
    else if StartsWith(s, "[^/]") then Some((AnyButSlash, s[4..]))
    else if Meta(s[0]) then None
    else Some((Lit(s[0]), s[1..]))
  }

  /** One atom and its star, if it has one. A second quantifier would change the meaning of the
      first, so it is not in the modelled part. */
  function ParsePiece(s: string): (r: Option<(Piece, string)>)
    ensures r.Some? ==> |r.value.1| < |s|
  {
    match ParseAtom(s)
    case None => None
    case Some((a, rest)) =>
      if rest == "" || rest[0] != '*' then Some((One(a), rest))
      else if |rest| > 1 && Quantifier(rest[1]) then None
      else Some((Many(a), rest[1..]))
  }

  function ParseRegex(s: string): Option<seq<Piece>>
    decreases |s|
  {
    if s == "" then Some([])
    else
      match ParsePiece(s)
      case None => None
      case Some((piece, rest)) =>
        match ParseRegex(rest)
        case None => None
        case Some(tail) => Some([piece] + tail)
  }

  /** The strings `re.fullmatch` accepts for a parsed expression. */
  predicate Accepts(ps: seq<Piece>, s: string)
    decreases |ps|
  {
    if ps == [] then s == ""
    else
      match ps[0]
      case One(a) => s != "" && AtomAccepts(a, s[0]) && Accepts(ps[1..], s[1..])
      case Many(a) => exists k | 0 <= k <= |s| :: AllAccepted(a, s[..k]) && Accepts(ps[1..], s[k..])
  }

  predicate AllAccepted(a: Atom, s: string) {
    forall i | 0 <= i < |s| :: AtomAccepts(a, s[i])
  }

  /** `_glob_match`. */
  predicate GlobMatch(pattern: string, path: string) {
    var parsed := ParseRegex(Translate(pattern));
    parsed.Some? && Accepts(parsed.value, path)
  }

  // ----- the reference matcher -------------------------------------------------------

  /** `**` stands for any run without a newline, `*` for any run without a slash, `?` for
      one character that is not a newline (a slash counts), everything else for itself. */
  predicate GlobMatches(p: string, s: string)
    decreases |p| + |s|
  {
    if p == "" then s == ""
    else if StartsWith(p, "**") then
      GlobMatches(p[2..], s) || (s != "" && s[0] != '\n' && GlobMatches(p, s[1..]))
    else if p[0] == '*' then
      GlobMatches(p[1..], s) || (s != "" && s[0] != '/' && GlobMatches(p, s[1..]))
    else
      s != "" && (if p[0] == '?' then s[0] != '\n' else s[0] == p[0]) && GlobMatches(p[1..], s[1..])
  }

  /** The same without a thought for newlines: `**` is any run, `*` any run without a slash, `?` any
      one character. */
  predicate PlainMatches(p: string, s: string)
    decreases |p| + |s|
  {
    if p == "" then s == ""
    else if StartsWith(p, "**") then PlainMatches(p[2..], s) || (s != "" && PlainMatches(p, s[1..]))
    else if p[0] == '*' then PlainMatches(p[1..], s) || (s != "" && s[0] != '/' && PlainMatches(p, s[1..]))
    else s != "" && (p[0] == '?' || s[0] == p[0]) && PlainMatches(p[1..], s[1..])
  }

  /** Every match is a plain match, and on a path without a newline every plain match is a match. */
  lemma {:induction false} NewlinesAside(p: string, s: string)
    ensures GlobMatches(p, s) ==> PlainMatches(p, s)
    ensures '\n' !in s ==> (GlobMatches(p, s) <==> PlainMatches(p, s))
    decreases |p| + |s|
  {
    if p != "" {
      assert s != "" ==> forall c | c in s[1..] :: c in s;
      if StartsWith(p, "**") {
        NewlinesAside(p[2..], s);
        if s != "" { NewlinesAside(p, s[1..]); }
      } else if p[0] == '*' {
        NewlinesAside(p[1..], s);
        if s != "" { NewlinesAside(p, s[1..]); }
      } else if s != "" {
        NewlinesAside(p[1..], s[1..]);
      }
    }
  }

  lemma {:induction false} DeepIsNewlineFree(s: string)
    ensures GlobMatches("**", s) <==> '\n' !in s
  {
    assert "**"[2..] == "";
    if s != "" {
      DeepIsNewlineFree(s[1..]);
      assert s == [s[0]] + s[1..];
    }
  }

  lemma {:induction false} DeepIsPlainlyAnything(s: string)
    ensures PlainMatches("**", s)
  {
    assert "**"[2..] == "";
    if s != "" {
      DeepIsPlainlyAnything(s[1..]);
    }
  }

  /** The exact condition: a path is matched as the wildcards plainly read, by every pattern, if and only
      if it holds no newline. */
  lemma NewlinesMatterIff(s: string)
    ensures (forall p :: GlobMatches(p, s) <==> PlainMatches(p, s)) <==> '\n' !in s
  {
    if '\n' in s {
      DeepIsNewlineFree(s);
      DeepIsPlainlyAnything(s);
    } else {
      forall p ensures GlobMatches(p, s) <==> PlainMatches(p, s) {
        NewlinesAside(p, s);
      }
    }
  }

  /** A newline escapes the denylist: not even `**` covers a path that holds one. */
  lemma NewlineEscapes()
    ensures PlainMatches("**", "\n") && !GlobMatches("**", "\n")
    ensures PlainMatches("?", "\n") && !GlobMatches("?", "\n")
  {
    assert "\n"[1..] == "" && "**"[2..] == "" && "?"[1..] == "";
  }

  // ----- from the three replacements to a token-wise rendering ------------------------

  /** The pattern with its wildcards rendered as given and its literals escaped. */
  function Rendered(p: string, deep: string, star: string, one: string): string {
    if p == "" then ""
    else if StartsWith(p, "**") then deep + Rendered(p[2..], deep, star, one)
    else if p[0] == '*' then star + Rendered(p[1..], deep, star, one)
    else if p[0] == '?' then one + Rendered(p[1..], deep, star, one)
    else EscapeChar(p[0]) + Rendered(p[1..], deep, star, one)
  }

  lemma {:induction false} EscapeIsRendered(p: string, deep: string, star: string, one: string)
    requires star == EscapeChar('*') && one == EscapeChar('?') && deep == star + star
    ensures Escape(p) == Rendered(p, deep, star, one)
    decreases |p|
  {
    if p != "" {
      if StartsWith(p, "**") {
        EscapeIsRendered(p[2..], deep, star, one);
        PrefixChar(p, "**", 0);
        PrefixChar(p, "**", 1);
        EscapeTwo(p);
        assert star + (star + Escape(p[2..])) == deep + Escape(p[2..]);
      } else {
        EscapeIsRendered(p[1..], deep, star, one);
      }
    }
  }

  lemma EscapeTwo(p: string)
    requires |p| >= 2
    ensures Escape(p) == EscapeChar(p[0]) + (EscapeChar(p[1]) + Escape(p[2..]))
  {
    assert p[1..][1..] == p[2..];
  }

  /** What the wildcards render to always starts with one of three characters. */
  predicate GoodHead(s: string) {
    s != "" && (s[0] == '\\' || s[0] == '.' || s[0] == '[')
  }

  lemma RenderedHead(p: string, deep: string, star: string, one: string)
    requires GoodHead(deep) && GoodHead(star) && GoodHead(one)
    ensures var r := Rendered(p, deep, star, one); r == "" || (r[0] != '*' && r[0] != '?')
  {
    if p != "" && !StartsWith(p, "**") && p[0] != '*' && p[0] != '?' {
      assert Rendered(p, deep, star, one)[0] == EscapeChar(p[0])[0];
    }
  }

  lemma {:induction false} ReplaceSkips(u: string, rest: string, old_: string, new_: string)
    requires |old_| > 0
    requires forall i | 0 <= i < |u| :: !StartsWith((u + rest)[i..], old_)
    ensures Replace(u + rest, old_, new_) == u + Replace(rest, old_, new_)
  {
    if u == "" {
      assert u + rest == rest;
    } else {
      var s := u + rest;
      assert s[0..] == s;
      assert !StartsWith(s, old_);
      assert s[1..] == u[1..] + rest;
      forall i | 0 <= i < |u[1..]| ensures !StartsWith((u[1..] + rest)[i..], old_) {
        assert (u[1..] + rest)[i..] == s[i + 1..];
      }
      ReplaceSkips(u[1..], rest, old_, new_);
      if |s| < |old_| {
        ReplaceShort(s[1..], old_, new_);
      }
      assert Replace(s, old_, new_) == [s[0]] + Replace(s[1..], old_, new_);
      assert [u[0]] + (u[1..] + Replace(rest, old_, new_)) == u + Replace(rest, old_, new_);
    }
  }

  lemma ReplaceShort(s: string, old_: string, new_: string)
    requires |s| < |old_|
    ensures Replace(s, old_, new_) == s
  {
  }

  lemma ReplaceHit(rest: string, old_: string, new_: string)
    requires |old_| > 0
    ensures Replace(old_ + rest, old_, new_) == new_ + Replace(rest, old_, new_)
  {
    assert (old_ + rest)[..|old_|] == old_;
    assert (old_ + rest)[|old_|..] == rest;
  }

  lemma PrefixChar(s: string, p: string, k: nat)
    requires k < |p|
    ensures StartsWith(s, p) ==> s[k] == p[k]
  {
    if StartsWith(s, p) {
      assert s[k] == s[..|p|][k];
    }
  }

  /** An escaped literal never lines up with an escaped wildcard. */
  lemma LiteralSkips(c: char, rest: string, old_: string, new_: string)
    requires c != '*' && c != '?'
    requires |old_| > 1 && old_[0] == '\\' && (old_[1] == '*' || old_[1] == '?')
    requires rest == "" || (rest[0] != '*' && rest[0] != '?')
    ensures Replace(EscapeChar(c) + rest, old_, new_) == EscapeChar(c) + Replace(rest, old_, new_)
  {
    var u := EscapeChar(c);
    forall i | 0 <= i < |u| ensures !StartsWith((u + rest)[i..], old_) {
      PrefixChar((u + rest)[i..], old_, 0);
      PrefixChar((u + rest)[i..], old_, 1);
    }
    ReplaceSkips(u, rest, old_, new_);
  }

  /** Text without a backslash holds no escaped wildcard, whatever follows it. */
  lemma PlainSkips(u: string, rest: string, old_: string, new_: string)
    requires |old_| > 0 && old_[0] == '\\' && '\\' !in u
    ensures Replace(u + rest, old_, new_) == u + Replace(rest, old_, new_)
  {
    forall i | 0 <= i < |u| ensures !StartsWith((u + rest)[i..], old_) {
      PrefixChar((u + rest)[i..], old_, 0);
      assert (u + rest)[i..][0] == u[i];
    }
    ReplaceSkips(u, rest, old_, new_);
  }

  /** An escaped wildcard is left alone by a replacement that looks for something else. */
  lemma WildcardSkips(w: char, rest: string, old_: string, new_: string)
    requires w == '*' || w == '?'
    requires |old_| > 1 && old_[0] == '\\'
    requires old_[1] != w || (|old_| == 4 && old_[2..] == "\\*" && !StartsWith(rest, "\\*"))
    ensures Replace(['\\', w] + rest, old_, new_) == ['\\', w] + Replace(rest, old_, new_)
  {
    var u := ['\\', w];
    assert |rest| >= 2 ==> rest[..2] == [rest[0], rest[1]];
    forall i | 0 <= i < |u| ensures !StartsWith((u + rest)[i..], old_) {
      PrefixChar((u + rest)[i..], old_, 0);
      PrefixChar((u + rest)[i..], old_, 1);
      if |old_| == 4 {
        PrefixChar((u + rest)[i..], old_, 2);
        PrefixChar((u + rest)[i..], old_, 3);
      }
    }
    ReplaceSkips(u, rest, old_, new_);
  }

  /** In the escaped pattern an escaped star stands only where the pattern has a star. */
  lemma NoEscapedStar(p: string, deep: string, star: string, one: string)
    requires p == "" || p[0] != '*'
    requires |star| == 2 && star[0] == '\\' && star[1] == '*' && |one| == 2 && one[1] == '?'
    requires GoodHead(deep) && GoodHead(one)
    ensures !StartsWith(Rendered(p, deep, star, one), star)
  {
    var r := Rendered(p, deep, star, one);
    if p != "" {
      PrefixChar(p, "**", 0);
      PrefixChar(r, star, 0);
      PrefixChar(r, star, 1);
      if p[0] == '?' {
        assert r[1] == one[1];
      } else {
        LiteralIsNoStar(p[0], Rendered(p[1..], deep, star, one));
        RenderedHead(p[1..], deep, star, one);
      }
    }
  }

  lemma LiteralIsNoStar(c: char, tail: string)
    requires c != '*' && (tail == "" || tail[0] != '*')
    ensures var r := EscapeChar(c) + tail; r[0] == '\\' && |r| > 1 ==> r[1] != '*'
  {
  }

  lemma {:induction false} DeepReplaced(p: string)
    ensures Replace(Rendered(p, "\\*\\*", "\\*", "\\?"), "\\*\\*", ".*")
         == Rendered(p, ".*", "\\*", "\\?")
  {
    if p != "" {
      if StartsWith(p, "**") {
        DeepReplaced(p[2..]);
        ReplaceHit(Rendered(p[2..], "\\*\\*", "\\*", "\\?"), "\\*\\*", ".*");
      } else {
        var tail := Rendered(p[1..], "\\*\\*", "\\*", "\\?");
        DeepReplaced(p[1..]);
        RenderedHead(p[1..], "\\*\\*", "\\*", "\\?");
        if p[0] == '*' {
          assert p[1..] == "" || p[1] != '*' by {
            if |p| > 1 { assert p[..2] == [p[0], p[1]]; }
          }
          NoEscapedStar(p[1..], "\\*\\*", "\\*", "\\?");
          WildcardSkips('*', tail, "\\*\\*", ".*");
        } else if p[0] == '?' {
          WildcardSkips('?', tail, "\\*\\*", ".*");
        } else {
          LiteralSkips(p[0], tail, "\\*\\*", ".*");
        }
      }
    }
  }

  lemma {:induction false} StarReplaced(p: string)
    ensures Replace(Rendered(p, ".*", "\\*", "\\?"), "\\*", "[^/]*")
         == Rendered(p, ".*", "[^/]*", "\\?")
  {
    if p != "" {
      if StartsWith(p, "**") {
        StarReplaced(p[2..]);
        PlainSkips(".*", Rendered(p[2..], ".*", "\\*", "\\?"), "\\*", "[^/]*");
      } else {
        var tail := Rendered(p[1..], ".*", "\\*", "\\?");
        StarReplaced(p[1..]);
        RenderedHead(p[1..], ".*", "\\*", "\\?");
        if p[0] == '*' {
          ReplaceHit(tail, "\\*", "[^/]*");
        } else if p[0] == '?' {
          WildcardSkips('?', tail, "\\*", "[^/]*");
        } else {
          LiteralSkips(p[0], tail, "\\*", "[^/]*");
        }
      }
    }
  }

  lemma {:induction false} OneReplaced(p: string)
    ensures Replace(Rendered(p, ".*", "[^/]*", "\\?"), "\\?", ".")
         == Rendered(p, ".*", "[^/]*", ".")
  {
    if p != "" {
      if StartsWith(p, "**") {
        OneReplaced(p[2..]);
        PlainSkips(".*", Rendered(p[2..], ".*", "[^/]*", "\\?"), "\\?", ".");
      } else {
        var tail := Rendered(p[1..], ".*", "[^/]*", "\\?");
        OneReplaced(p[1..]);
        RenderedHead(p[1..], ".*", "[^/]*", "\\?");
        if p[0] == '*' {
          PlainSkips("[^/]*", tail, "\\?", ".");
        } else if p[0] == '?' {
          ReplaceHit(tail, "\\?", ".");
        } else {
          LiteralSkips(p[0], tail, "\\?", ".");
        }
      }
    }
  }

  /** The three replacements never misfire on an escaped literal: together they render
      each wildcard of the pattern and nothing else. */
  lemma TranslateIsRendered(p: string)
    ensures Translate(p) == Rendered(p, ".*", "[^/]*", ".")
  {
    EscapeIsRendered(p, "\\*\\*", "\\*", "\\?");
    DeepReplaced(p);
    StarReplaced(p);
    OneReplaced(p);
  }

  // ----- from the rendering to the pieces, and from the pieces to the reference --------

  function Compile(p: string): seq<Piece> {
    if p == "" then []
    else if StartsWith(p, "**") then [Many(AnyButNewline)] + Compile(p[2..])
    else if p[0] == '*' then [Many(AnyButSlash)] + Compile(p[1..])
    else if p[0] == '?' then [One(AnyButNewline)] + Compile(p[1..])
    else [One(Lit(p[0]))] + Compile(p[1..])
  }

  predicate Unquantified(s: string) {
    s == "" || !Quantifier(s[0])
  }

  /** No rendered text begins with a quantifier, so none is ever doubled or made lazy. */
  lemma NoSecondQuantifier(p: string, deep: string, star: string, one: string)
    requires GoodHead(deep) && GoodHead(star) && GoodHead(one)
    ensures Unquantified(Rendered(p, deep, star, one))
  {
    if p != "" && !StartsWith(p, "**") && p[0] != '*' && p[0] != '?' {
      LiteralIsUnquantified(p[0]);
      assert Rendered(p, deep, star, one)[0] == EscapeChar(p[0])[0];
    } else if p != "" {
      GoodHeadIsUnquantified(deep);
      GoodHeadIsUnquantified(star);
      GoodHeadIsUnquantified(one);
    }
  }

  lemma GoodHeadIsUnquantified(s: string)
    requires GoodHead(s)
    ensures !Quantifier(s[0])
  {
  }

  lemma LiteralIsUnquantified(c: char)
    ensures !Quantifier(EscapeChar(c)[0])
  {
  }

  /** What each rendered wildcard or literal parses to, whatever follows it. */
  lemma DeepParses(tail: string)
    requires Unquantified(tail)
    ensures ParsePiece(".*" + tail) == Some((Many(AnyButNewline), tail))
  {
    var r := ".*" + tail;
    assert r[1..][1..] == tail && r[1] == '*';
  }

  lemma StarParses(tail: string)
    requires Unquantified(tail)
    ensures ParsePiece("[^/]*" + tail) == Some((Many(AnyButSlash), tail))
  {
    var r := "[^/]*" + tail;
    assert r[..4] == "[^/]" && r[4] == '*' && r[4..][1..] == tail;
  }

  lemma OneParses(tail: string)
    requires Unquantified(tail)
    ensures ParsePiece("." + tail) == Some((One(AnyButNewline), tail))
  {
    assert ("." + tail)[1..] == tail;
  }

  lemma LiteralParses(c: char, tail: string)
    requires Unquantified(tail)
    ensures ParsePiece(EscapeChar(c) + tail) == Some((One(Lit(c)), tail))
  {
    var r := EscapeChar(c) + tail;
    PrefixChar(r, "[^/]", 0);
    assert ParseAtom(r) == Some((Lit(c), tail)) by {
      if Special(c) {
        assert r[2..] == tail;
      } else {
        assert r[1..] == tail;
      }
    }
  }

  /** Every rendered pattern parses back to the pieces its tokens stand for. */
  lemma {:induction false} RenderedParses(p: string, deep: string, star: string, one: string)
    requires deep == ".*" && star == "[^/]*" && one == "."
    ensures ParseRegex(Rendered(p, deep, star, one)) == Some(Compile(p))
    decreases |p|
  {
    if p != "" {
      var after := p[if StartsWith(p, "**") then 2 else 1..];
      var tail := Rendered(after, deep, star, one);
      RenderedParses(after, deep, star, one);
      NoSecondQuantifier(after, deep, star, one);
      DeepParses(tail);
      StarParses(tail);
      OneParses(tail);
      LiteralParses(p[0], tail);
    }
  }

  /** A run is empty, or starts with one accepted character and goes on. */
  lemma ManyUnfolds(a: Atom, ps: seq<Piece>, s: string)
    ensures Accepts([Many(a)] + ps, s) <==>
       Accepts(ps, s) || (s != "" && AtomAccepts(a, s[0]) && Accepts([Many(a)] + ps, s[1..]))
  {
    var whole := [Many(a)] + ps;
    assert whole[1..] == ps;
    if Accepts(whole, s) {
      var k :| 0 <= k <= |s| && AllAccepted(a, s[..k]) && Accepts(ps, s[k..]);
      if k == 0 {
        assert s[0..] == s;
      } else {
        assert s[..k][0] == s[0];
        assert s[1..][k - 1..] == s[k..];
        var run := s[1..][..k - 1];
        forall i | 0 <= i < |run| ensures AtomAccepts(a, run[i]) {
          assert run[i] == s[..k][i + 1];
        }
        assert Accepts(whole, s[1..]);
      }
    }
    if Accepts(ps, s) {
      assert s[0..] == s && AllAccepted(a, s[..0]);
    }
    if s != "" && AtomAccepts(a, s[0]) && Accepts(whole, s[1..]) {
      var k :| 0 <= k <= |s[1..]| && AllAccepted(a, s[1..][..k]) && Accepts(ps, s[1..][k..]);
      assert s[1..][k..] == s[k + 1..];
      var run := s[..k + 1];
      forall i | 0 <= i < |run| ensures AtomAccepts(a, run[i]) {
        if i > 0 {
          assert run[i] == s[1..][..k][i - 1];
        }
      }
    }
  }

  lemma {:induction false} CompileMatchesReference(p: string, s: string)
    ensures Accepts(Compile(p), s) <==> GlobMatches(p, s)
    decreases |p| + |s|
  {
    if p != "" {
      if StartsWith(p, "**") {
        ManyUnfolds(AnyButNewline, Compile(p[2..]), s);
        CompileMatchesReference(p[2..], s);
        if s != "" { CompileMatchesReference(p, s[1..]); }
      } else if p[0] == '*' {
        ManyUnfolds(AnyButSlash, Compile(p[1..]), s);
        CompileMatchesReference(p[1..], s);
        if s != "" { CompileMatchesReference(p, s[1..]); }
      } else if s != "" {
        CompileMatchesReference(p[1..], s[1..]);
        assert Compile(p)[1..] == Compile(p[1..]);
      }
    }
  }

  /** The regular expression built by text replacement accepts exactly the paths the
      reference matcher accepts, for every pattern and every path. */
  lemma TranslationPreservesMeaning(pattern: string, path: string)
    ensures GlobMatch(pattern, path) <==> GlobMatches(pattern, path)
  {
    TranslateIsRendered(pattern);
    RenderedParses(pattern, ".*", "[^/]*", ".");
    CompileMatchesReference(pattern, path);
  }
}
