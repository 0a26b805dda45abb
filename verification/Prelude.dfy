/** Small vocabulary shared by every component: optional values, answers of a
    collaborator that may raise, selections from sequences, and sums of reals. */
module Prelude {

  datatype Option<+T> = None | Some(value: T) {
    function GetOr(default: T): T {
      if Some? then value else default
    }
  }

  /** What an `await` on a collaborator produces: a value, or an exception. */
  datatype Answer<+T> = Answered(value: T) | Raised

  function LastOf<T>(s: seq<T>): Option<T> {
    if s == [] then None else Some(s[|s| - 1])
  }

  function Select<T>(s: seq<T>, keep: T -> bool): seq<T> {
    if s == [] then [] else (if keep(s[0]) then [s[0]] else []) + Select(s[1..], keep)
  }

  lemma {:induction false} SelectMembers<T>(s: seq<T>, keep: T -> bool)
    ensures forall x :: x in Select(s, keep) <==> x in s && keep(x)
  {
    if s != [] {
      SelectMembers(s[1..], keep);
      assert forall x :: x in s <==> x == s[0] || x in s[1..];
    }
  }

  lemma SelectNone<T>(s: seq<T>, keep: T -> bool)
    ensures Select(s, keep) == [] <==> forall x | x in s :: !keep(x)
  {
    SelectMembers(s, keep);
    if Select(s, keep) != [] {
      assert Select(s, keep)[0] in Select(s, keep);
    }
  }

  lemma {:induction false} SelectAppend<T>(a: seq<T>, b: seq<T>, keep: T -> bool)
    ensures Select(a + b, keep) == Select(a, keep) + Select(b, keep)
  {
    if a == [] {
      assert a + b == b;
    } else {
      var head := if keep(a[0]) then [a[0]] else [];
      SelectAppend(a[1..], b, keep);
      assert (a + b)[1..] == a[1..] + b && (a + b)[0] == a[0];
      assert head + (Select(a[1..], keep) + Select(b, keep)) == (head + Select(a[1..], keep)) + Select(b, keep);
    }
  }

  lemma {:induction false} SelectIsShorter<T>(s: seq<T>, keep: T -> bool)
    ensures |Select(s, keep)| <= |s|
    ensures |Select(s, keep)| == |s| <==> forall x | x in s :: keep(x)
  {
    if s != [] {
      SelectIsShorter(s[1..], keep);
      assert forall x :: x in s <==> x == s[0] || x in s[1..];
    }
  }

  lemma {:induction false} SelectAll<T>(s: seq<T>, keep: T -> bool)
    requires forall x | x in s :: keep(x)
    ensures Select(s, keep) == s
  {
    if s != [] {
      assert s[0] in s && forall x | x in s[1..] :: x in s;
      SelectAll(s[1..], keep);
    }
  }

  lemma {:induction false} SelectSame<T>(s: seq<T>, p: T -> bool, q: T -> bool)
    requires forall x | x in s :: p(x) <==> q(x)
    ensures Select(s, p) == Select(s, q)
  {
    if s != [] {
      assert s[0] in s && forall x | x in s[1..] :: x in s;
      SelectSame(s[1..], p, q);
    }
  }

  function Sum(s: seq<real>): real {
    if s == [] then 0.0 else s[0] + Sum(s[1..])
  }

  lemma {:induction false} SumAppend(a: seq<real>, b: seq<real>)
    ensures Sum(a + b) == Sum(a) + Sum(b)
  {
    if a == [] {
      assert a + b == b;
    } else {
      SumAppend(a[1..], b);
      assert (a + b)[1..] == a[1..] + b;
    }
  }

  lemma SumOne(x: real)
    ensures Sum([x]) == x
  {
    assert Sum([x]) == x + Sum([x][1..]);
  }
}
