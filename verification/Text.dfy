/** The string operations of Python that the models depend on. */
module Text {

  predicate StartsWith(s: string, p: string) {
    |p| <= |s| && s[..|p|] == p
  }

  predicate OccursAt(s: string, p: string, i: nat) {
    i + |p| <= |s| && s[i..i + |p|] == p
  }

  /** `p in s` */
  predicate Contains(s: string, p: string) {
    exists i | 0 <= i <= |s| :: OccursAt(s, p, i)
  }

  function LowerChar(c: char): (r: char)
    ensures r as int - c as int == if 'A' <= c <= 'Z' then 32 else 0
  {
    if 'A' <= c <= 'Z' then ((c as int) - ('A' as int) + ('a' as int)) as char else c
  }

  /** `s.lower()` on ASCII letters. */
  function Lower(s: string): (r: string)
    ensures |r| == |s|
    ensures forall i | 0 <= i < |s| :: r[i] == LowerChar(s[i])
  {
    if s == "" then "" else [LowerChar(s[0])] + Lower(s[1..])
  }

  lemma LowerFixed(s: string)
    requires forall i | 0 <= i < |s| :: !('A' <= s[i] <= 'Z')
    ensures Lower(s) == s
  {
  }

  lemma OccursInside(a: string, p: string, b: string)
    ensures Contains(a + p + b, p)
  {
    assert OccursAt(a + p + b, p, |a|);
  }

  /** `s.replace(old, new)`: left to right, matches do not overlap. */
  function Replace(s: string, old_: string, new_: string): string
    requires |old_| > 0
  {
    if |s| < |old_| then s
    else if s[..|old_|] == old_ then new_ + Replace(s[|old_|..], old_, new_)
    else [s[0]] + Replace(s[1..], old_, new_)
  }

  /** Replacing one character by another goes character by character. */
  lemma {:induction false} ReplaceOne(s: string, a: char, b: char)
    ensures |Replace(s, [a], [b])| == |s|
    ensures forall i | 0 <= i < |s| :: Replace(s, [a], [b])[i] == if s[i] == a then b else s[i]
  {
    if s != "" {
      assert s[..1] == [s[0]];
      ReplaceOne(s[1..], a, b);
    }
  }

  /** Forward slashes. */
  function Slashed(s: string): string {
    Replace(s, "\\", "/")
  }

  lemma SlashedIs(s: string)
    ensures |Slashed(s)| == |s|
    ensures forall i | 0 <= i < |s| :: Slashed(s)[i] == if s[i] == '\\' then '/' else s[i]
  {
    ReplaceOne(s, '\\', '/');
  }

  lemma SlashedConcat(a: string, b: string)
    ensures Slashed(a + b) == Slashed(a) + Slashed(b)
  {
    SlashedIs(a);
    SlashedIs(b);
    SlashedIs(a + b);
  }

  lemma {:induction false} SlashedHasNoBackslash(s: string)
    ensures '\\' !in Slashed(s)
    ensures '\\' !in s ==> Slashed(s) == s
    ensures '\n' !in s ==> '\n' !in Slashed(s)
  {
    if s != "" {
      SlashedHasNoBackslash(s[1..]);
      assert s[..1] == [s[0]] && s == [s[0]] + s[1..];
      if s[0] == '\\' {
        assert s[..1] == "\\" && s[0] in s;
        assert Slashed(s) == "/" + Slashed(s[1..]);
      } else {
        assert s[..1] != "\\";
        assert Slashed(s) == [s[0]] + Slashed(s[1..]);
      }
    }
  }

  /** `sep.join(parts)` for a one-character separator. */
  function Join(parts: seq<string>, sep: char): string {
    if |parts| == 0 then ""
    else if |parts| == 1 then parts[0]
    else parts[0] + [sep] + Join(parts[1..], sep)
  }

  /** Code-point order on strings, the order `sorted` uses. */
  predicate LexLeq(a: string, b: string) {
    a == "" || (b != "" && (a[0] < b[0] || (a[0] == b[0] && LexLeq(a[1..], b[1..]))))
  }

  /** At position k the strings differ for the first time, and a has the smaller character. */
  predicate LessAt(a: string, b: string, k: nat) {
    k < |a| && k < |b| && a[..k] == b[..k] && a[k] < b[k]
  }

  /** A prefix comes first; otherwise the first difference decides. */
  lemma {:induction false} LexIff(a: string, b: string)
    ensures LexLeq(a, b) <==> a <= b || exists k: nat :: LessAt(a, b, k)
  {
    if a != "" && b != "" {
      LexIff(a[1..], b[1..]);
      assert a == [a[0]] + a[1..] && b == [b[0]] + b[1..];
      if k: nat :| LessAt(a, b, k) {
        LessAtTail(a, b, k);
      }
      if k: nat :| LessAt(a[1..], b[1..], k) {
        LessAtTail(a, b, k + 1);
      }
      assert a[0] < b[0] ==> LessAt(a, b, 0);
    }
  }

  lemma LessAtTail(a: string, b: string, k: nat)
    requires a != "" && b != ""
    ensures LessAt(a, b, k) <==> if k == 0 then a[0] < b[0] else a[0] == b[0] && LessAt(a[1..], b[1..], k - 1)
  {
    if 0 < k < |a| && k < |b| {
      assert a[..k] == [a[0]] + a[1..][..k - 1] && b[..k] == [b[0]] + b[1..][..k - 1];
    }
  }

  lemma {:induction false} LexTotal(a: string, b: string)
    ensures LexLeq(a, b) || LexLeq(b, a)
  {
    if a != "" && b != "" && a[0] == b[0] {
      LexTotal(a[1..], b[1..]);
    }
  }

  lemma {:induction false} LexAntisymmetric(a: string, b: string)
    requires LexLeq(a, b) && LexLeq(b, a)
    ensures a == b
  {
    if a != "" {
      LexAntisymmetric(a[1..], b[1..]);
      assert a == [a[0]] + a[1..] && b == [b[0]] + b[1..];
    }
  }

  lemma {:induction false} LexTransitive(a: string, b: string, c: string)
    requires LexLeq(a, b) && LexLeq(b, c)
    ensures LexLeq(a, c)
  {
    if a != "" && a[0] == b[0] && b[0] == c[0] {
      LexTransitive(a[1..], b[1..], c[1..]);
    }
  }

  /** Splitting on the first separator undoes `Join` when no part contains the separator. */
  lemma {:induction false} JoinInjective(a: seq<string>, b: seq<string>, sep: char)
    requires forall p | p in a :: p != "" && sep !in p
    requires forall p | p in b :: p != "" && sep !in p
    requires Join(a, sep) == Join(b, sep)
    ensures a == b
  {
    if a == [] || b == [] {
      JoinNonempty(a, sep);
      JoinNonempty(b, sep);
    } else {
      JoinSplits(a, b, sep);
      if |a| > 1 && |b| > 1 {
        assert JoinTail(a, sep)[1..] == Join(a[1..], sep);
        assert JoinTail(b, sep)[1..] == Join(b[1..], sep);
        assert forall p | p in a[1..] :: p in a;
        assert forall p | p in b[1..] :: p in b;
        hide Join;
        JoinInjective(a[1..], b[1..], sep);
      } else {
        assert |a| == 1 <==> JoinTail(a, sep) == "";
        assert |b| == 1 <==> JoinTail(b, sep) == "";
      }
      assert a == [a[0]] + a[1..] && b == [b[0]] + b[1..];
    }
  }

  lemma JoinSplits(a: seq<string>, b: seq<string>, sep: char)
    requires a != [] && b != [] && sep !in a[0] && sep !in b[0] && Join(a, sep) == Join(b, sep)
    ensures a[0] == b[0] && JoinTail(a, sep) == JoinTail(b, sep)
  {
    JoinHead(a, sep);
    JoinHead(b, sep);
    HeadUnique(a[0], JoinTail(a, sep), b[0], JoinTail(b, sep), sep);
  }

  ghost function JoinTail(a: seq<string>, sep: char): string
    requires a != []
  {
    if |a| == 1 then "" else [sep] + Join(a[1..], sep)
  }

  lemma JoinHead(a: seq<string>, sep: char)
    requires a != []
    ensures Join(a, sep) == a[0] + JoinTail(a, sep)
  {
    if |a| > 1 {
      assert a[0] + [sep] + Join(a[1..], sep) == a[0] + ([sep] + Join(a[1..], sep));
    } else {
      assert a[0] + "" == a[0];
    }
  }

  lemma JoinNonempty(a: seq<string>, sep: char)
    requires forall p | p in a :: p != ""
    ensures Join(a, sep) == "" <==> a == []
  {
    if a != [] {
      JoinHead(a, sep);
      assert a[0] in a;
    }
  }

  /** A separator-free head followed by nothing or by the separator is determined by the whole. */
  lemma {:induction false} HeadUnique(h: string, t: string, h': string, t': string, sep: char)
    requires sep !in h && sep !in h'
    requires t == "" || t[0] == sep
    requires t' == "" || t'[0] == sep
    requires h + t == h' + t'
    ensures h == h' && t == t'
  {
    var whole := h + t;
    assert forall i | 0 <= i < |h| :: whole[i] == h[i] && h[i] in h;
    assert forall i | 0 <= i < |h'| :: whole[i] == (h' + t')[i] && h'[i] in h';
    assert |h| < |whole| ==> whole[|h|] == t[0];
    assert |h'| < |whole| ==> whole[|h'|] == (h' + t')[|h'|] == t'[0];
    assert |h| == |h'|;
    assert h == (h + t)[..|h|] && h' == (h' + t')[..|h|];
    assert t == (h + t)[|h|..] && t' == (h' + t')[|h|..];
  }

  // ----- zero-padded decimal numbers ---------------------------------------------------

  function Digit(d: nat): char
    requires d < 10
  {
    (('0' as int) + d) as char
  }

  function DigitValue(c: char): int {
    (c as int) - ('0' as int)
  }

  function Decimal(n: nat): string {
    if n < 10 then [Digit(n)] else Decimal(n / 10) + [Digit(n % 10)]
  }

  /** `%0<width>d` */
  function Padded(n: nat, width: nat): string {
    var d := Decimal(n);
    if |d| >= width then d else Zeros(width - |d|) + d
  }

  function Zeros(k: nat): string {
    if k == 0 then "" else Zeros(k - 1) + "0"
  }

  function ReadDecimal(s: string): int {
    if s == "" then 0 else ReadDecimal(s[..|s| - 1]) * 10 + DigitValue(s[|s| - 1])
  }

  lemma {:induction false} ZerosReadZero(k: nat)
    ensures ReadDecimal(Zeros(k)) == 0
  {
    if k > 0 {
      ZerosReadZero(k - 1);
      assert Zeros(k)[..|Zeros(k)| - 1] == Zeros(k - 1);
    }
  }

  lemma {:induction false} ReadsBack(k: nat, n: nat)
    ensures ReadDecimal(Zeros(k) + Decimal(n)) == n
  {
    var s := Zeros(k) + Decimal(n);
    if n < 10 {
      ZerosReadZero(k);
      assert s[..|s| - 1] == Zeros(k) && s[|s| - 1] == Digit(n);
    } else {
      ReadsBack(k, n / 10);
      assert s[..|s| - 1] == Zeros(k) + Decimal(n / 10) && s[|s| - 1] == Digit(n % 10);
    }
  }

  lemma PaddedReadsBack(n: nat, width: nat)
    ensures ReadDecimal(Padded(n, width)) == n
  {
    var d := Decimal(n);
    if |d| >= width {
      ReadsBack(0, n);
      assert Zeros(0) + d == d;
    } else {
      ReadsBack(width - |d|, n);
    }
  }

  lemma {:induction false} ZerosLength(k: nat)
    ensures |Zeros(k)| == k
  {
    if k > 0 {
      ZerosLength(k - 1);
    }
  }

  lemma PaddedIsLong(n: nat, width: nat)
    ensures |Padded(n, width)| >= width
  {
    if |Decimal(n)| < width {
      ZerosLength(width - |Decimal(n)|);
    }
  }

  /** Padding does not identify different numbers. */
  lemma PaddedInjective(m: nat, n: nat, width: nat)
    requires Padded(m, width) == Padded(n, width)
    ensures m == n
  {
    PaddedReadsBack(m, width);
    PaddedReadsBack(n, width);
  }
}
