/** The serial line reader of the bench firmware. `Feed` says what one drain of the serial
    port does; the reference splits the CR-free stream at newlines. How the stream is cut
    into drains is up to the wire, so the question is when the cut can be seen. */
module LineReader {
  import opened Prelude

  newtype byte = x: int | 0 <= x < 256

  const NUL: byte := 0
  const LF: byte := 10
  const CR: byte := 13

  /** Size of the line buffer, terminator included. */
  const MAX_LINE: nat := 512

  /** A line handed to the command parser, or the "line too long" reply. */
  datatype Output = Line(text: seq<byte>) | TooLong

  /** A buffer as the C string the parser sees. */
  function CString(s: seq<byte>): seq<byte> {
    if s == [] || s[0] == NUL then [] else [s[0]] + CString(s[1..])
  }

  /** It reads up to the first NUL, or to the end. */
  lemma {:induction false} CStringReads(s: seq<byte>)
    ensures |CString(s)| <= |s| && CString(s) == s[..|CString(s)|] && 0 !in CString(s)
    ensures |CString(s)| < |s| ==> s[|CString(s)|] == 0
  {
    if s != [] && s[0] != NUL {
      CStringReads(s[1..]);
      var n := |CString(s[1..])|;
      assert s[..n + 1] == [s[0]] + s[1..][..n];
    }
  }

  // ----- one drain of the port --------------------------------------------------------

  datatype State = State(pending: seq<byte>, out: seq<Output>)

  function After(outs: seq<Output>, st: State): State {
    st.(out := outs + st.out)
  }

  function AfterNewline(s: seq<byte>): (r: seq<byte>)
    ensures |r| <= |s|
  {
    if s == [] then [] else if s[0] == LF then s[1..] else AfterNewline(s[1..])
  }

  function Dispatched(pending: seq<byte>): seq<Output> {
    if pending == [] then [] else [Line(CString(pending))]
  }

  function Feed(pending: seq<byte>, chunk: seq<byte>): State
    decreases |chunk|
  {
    if chunk == [] then State(pending, [])
    else if chunk[0] == CR then Feed(pending, chunk[1..])
    else if chunk[0] == LF then After(Dispatched(pending), Feed([], chunk[1..]))
    else if |pending| < MAX_LINE - 1 then Feed(pending + [chunk[0]], chunk[1..])
    else After([TooLong], Feed([], AfterNewline(chunk[1..])))
  }

  function FeedAll(pending: seq<byte>, chunks: seq<seq<byte>>): State
    decreases |chunks|
  {
    if chunks == [] then State(pending, [])
    else
      var st := Feed(pending, chunks[0]);
      After(st.out, FeedAll(st.pending, chunks[1..]))
  }

  function Flatten(chunks: seq<seq<byte>>): seq<byte> {
    if chunks == [] then [] else chunks[0] + Flatten(chunks[1..])
  }

  /** The reader itself: a fixed buffer and a fill count, drained byte by byte. */
  class Reader {
    const line: array<byte>
    var length: nat
    var out: seq<Output>

    ghost predicate Valid()
      reads this, line
    {
      line.Length == MAX_LINE && length < MAX_LINE
    }

    ghost function Pending(): seq<byte>
      reads this, line
      requires Valid()
    {
      line[..length]
    }

    constructor ()
      ensures Valid() && fresh(line) && Pending() == [] && out == []
    {
      line := new byte[MAX_LINE](_ => 0);
      length, out := 0, [];
    }

    method Loop(serial: seq<byte>)
      requires Valid()
      modifies this, line
      ensures Valid()
      ensures State(Pending(), out) == After(old(out), Feed(old(Pending()), serial))
    {
      var i := 0;
      ghost var start := Pending();
      while i < |serial|
        invariant 0 <= i <= |serial| && Valid()
        invariant After(old(out), Feed(start, serial)) == After(out, Feed(Pending(), serial[i..]))
      {
        var c := serial[i];
        ghost var rest := serial[i..];
        i := i + 1;
        assert rest[1..] == serial[i..];
        if c == CR {
          continue;
        }
        if c == LF {
          ghost var before := Pending();
          line[length] := NUL;
          assert line[..length] == before;
          if length > 0 {
            Terminated(line[..], length);
            assert line[..][..length] == before;
            out := out + [Line(CString(line[..]))];
          }
          length := 0;
          assert Pending() == [];
          continue;
        }
        if length < MAX_LINE - 1 {
          ghost var before := Pending();
          line[length] := c;
          length := length + 1;
          assert Pending() == before + [c];
        } else {
          length := 0;
          out := out + [TooLong];
          assert Pending() == [];
          i := Discard(serial, i);
        }
      }
      assert serial[i..] == [];
    }

    /** Reads on to the end of the line, or of what has arrived. */
    method Discard(serial: seq<byte>, start: nat) returns (i: nat)
      requires start <= |serial|
      ensures start <= i <= |serial| && serial[i..] == AfterNewline(serial[start..])
    {
      i := start;
      while i < |serial|
        invariant start <= i <= |serial|
        invariant AfterNewline(serial[start..]) == AfterNewline(serial[i..])
      {
        var d := serial[i];
        i := i + 1;
        assert serial[i - 1..][1..] == serial[i..];
        if d == LF {
          break;
        }
      }
    }
  }

  /** A terminator ends the C string, whatever the buffer holds behind it. */
  lemma {:induction false} Terminated(buffer: seq<byte>, length: nat)
    requires length < |buffer| && buffer[length] == NUL
    ensures CString(buffer) == CString(buffer[..length])
  {
    if length > 0 {
      Terminated(buffer[1..], length - 1);
      assert buffer[..length][1..] == buffer[1..][..length - 1];
    }
  }

  // ----- the reference: split the stream at newlines --------------------------------------

  function WithoutCR(s: seq<byte>): seq<byte> {
    if s == [] then [] else (if s[0] == CR then [] else [s[0]]) + WithoutCR(s[1..])
  }

  /** Length of the first line, the newline not counted. */
  function FirstLine(t: seq<byte>): (n: nat)
    ensures n <= |t| && LF !in t[..n] && (n < |t| ==> t[n] == LF)
  {
    if t == [] || t[0] == LF then 0
    else
      var m := FirstLine(t[1..]);
      assert t[..m + 1] == [t[0]] + t[1..][..m];
      m + 1
  }

  /** Every line of the stream, the unfinished last one included, has at most `k` bytes. */
  predicate LinesAtMost(t: seq<byte>, k: nat)
    decreases |t|
  {
    var n := FirstLine(t);
    n <= k && (n < |t| ==> LinesAtMost(t[n + 1..], k))
  }

  /** The non-empty finished lines in order; a line of exactly `MAX_LINE` bytes is refused. */
  function Expected(t: seq<byte>): seq<Output>
    decreases |t|
  {
    var n := FirstLine(t);
    (if n == MAX_LINE then [TooLong] else if n < |t| then Dispatched(t[..n]) else [])
      + (if n < |t| then Expected(t[n + 1..]) else [])
  }

  /** What is left unfinished at the end of the stream. */
  function Unfinished(t: seq<byte>): seq<byte>
    decreases |t|
  {
    var n := FirstLine(t);
    if n < |t| then Unfinished(t[n + 1..]) else if n == MAX_LINE then [] else t
  }

  function Reference(t: seq<byte>): State {
    State(Unfinished(t), Expected(t))
  }

  predicate Clean(s: seq<byte>) {
    CR !in s && LF !in s
  }

  lemma WithoutCRHead(x: byte, s: seq<byte>)
    ensures WithoutCR([x] + s) == (if x == CR then [] else [x]) + WithoutCR(s)
  {
    assert ([x] + s)[1..] == s;
  }

  lemma {:induction false} WithoutCRAppend(a: seq<byte>, b: seq<byte>)
    ensures WithoutCR(a + b) == WithoutCR(a) + WithoutCR(b)
  {
    if a == [] {
      assert a + b == b;
    } else {
      var x, rest := a[0], a[1..];
      WithoutCRAppend(rest, b);
      WithoutCRHead(x, rest);
      WithoutCRHead(x, rest + b);
      assert a == [x] + rest && a + b == [x] + (rest + b);
      var head := if x == CR then [] else [x];
      assert head + (WithoutCR(rest) + WithoutCR(b)) == (head + WithoutCR(rest)) + WithoutCR(b);
    }
  }

  lemma FirstLineIs(t: seq<byte>, n: nat)
    requires n <= |t| && LF !in t[..n] && (n < |t| ==> t[n] == LF)
    ensures FirstLine(t) == n
  {
  }

  lemma FirstLineOf(line: seq<byte>, rest: seq<byte>)
    requires LF !in line
    ensures FirstLine(line + [LF] + rest) == |line|
    ensures (line + [LF] + rest)[|line| + 1..] == rest && (line + [LF] + rest)[..|line|] == line
  {
    assert (line + [LF] + rest)[..|line|] == line;
    FirstLineIs(line + [LF] + rest, |line|);
  }

  lemma AfterAfter(a: seq<Output>, b: seq<Output>, st: State)
    ensures After(a, After(b, st)) == After(a + b, st)
  {
    assert a + (b + st.out) == (a + b) + st.out;
  }

  lemma AfterNothing(st: State)
    ensures After([], st) == st
  {
  }

  function Verdict(line: seq<byte>): seq<Output> {
    if |line| == MAX_LINE then [TooLong] else Dispatched(line)
  }

  /** The reference peels one finished line off the stream. */
  lemma ReferencePeels(line: seq<byte>, rest: seq<byte>)
    requires LF !in line
    ensures Reference(line + [LF] + rest) == After(Verdict(line), Reference(rest))
  {
    FirstLineOf(line, rest);
  }

  lemma LinesPeel(line: seq<byte>, rest: seq<byte>, k: nat)
    requires LF !in line
    ensures LinesAtMost(line + [LF] + rest, k) <==> |line| <= k && LinesAtMost(rest, k)
  {
    FirstLineOf(line, rest);
  }

  lemma ReferenceOfUnfinished(line: seq<byte>)
    requires LF !in line
    ensures Reference(line) == if |line| == MAX_LINE then State([], [TooLong]) else State(line, [])
  {
    FirstLineIs(line, |line|);
  }

  lemma LinesOfUnfinished(line: seq<byte>, k: nat)
    requires LF !in line
    ensures LinesAtMost(line, k) <==> |line| <= k
  {
    FirstLineIs(line, |line|);
  }

  ghost predicate Follows(pending: seq<byte>, input: seq<byte>, later: seq<byte>, st: State) {
    && Clean(st.pending) && |st.pending| < MAX_LINE
    && Reference(pending + input) == After(st.out, Reference(st.pending + WithoutCR(later)))
    && LinesAtMost(st.pending + WithoutCR(later), MAX_LINE)
  }

  /** Outputs put in front of a drain that continues the reference. */
  lemma Prefixed(first: seq<Output>, st: State, whole: State, middle: State, last: State)
    requires whole == After(first, middle) && middle == After(st.out, last)
    ensures whole == After(After(first, st).out, last)
  {
    AfterAfter(first, st.out, last);
  }

  /** One drain, seen inside the whole stream: what was pending plus this drain plus all later
      bytes gives the drain's outputs followed by what the new pending text and the later
      bytes give. */
  lemma {:induction false} FeedFollowsReference(pending: seq<byte>, chunk: seq<byte>, later: seq<byte>)
    requires Clean(pending) && |pending| < MAX_LINE
    requires LinesAtMost(pending + WithoutCR(chunk + later), MAX_LINE)
    ensures Follows(pending, WithoutCR(chunk + later), later, Feed(pending, chunk))
    decreases |chunk|
  {
    if chunk == [] {
      assert chunk + later == later;
    } else {
      var c, rest := chunk[0], chunk[1..];
      assert chunk + later == [c] + (rest + later);
      WithoutCRHead(c, rest + later);
      var t := WithoutCR(rest + later);
      if c == CR {
        assert [] + t == t;
        FeedFollowsReference(pending, rest, later);
      } else if c == LF {
        NewlineFollowsReference(pending, rest, later);
        assert Dispatched(pending) == Verdict(pending);
      } else if |pending| < MAX_LINE - 1 {
        assert pending + ([c] + t) == (pending + [c]) + t;
        FeedFollowsReference(pending + [c], rest, later);
      } else {
        assert pending + ([c] + t) == (pending + [c]) + t;
        OverflowFollowsReference(pending + [c], rest, later);
      }
    }
  }

  /** A finished line, short or full, is dispatched or refused and the reader starts afresh. */
  lemma NewlineFollowsReference(line: seq<byte>, rest: seq<byte>, later: seq<byte>)
    requires Clean(line) && |line| <= MAX_LINE
    requires LinesAtMost(line + ([LF] + WithoutCR(rest + later)), MAX_LINE)
    ensures Follows(line, [LF] + WithoutCR(rest + later), later, After(Verdict(line), Feed([], rest)))
    decreases |rest| + 1, 0
  {
    var t := WithoutCR(rest + later);
    assert line + ([LF] + t) == line + [LF] + t && [] + t == t;
    LinesPeel(line, t, MAX_LINE);
    FeedFollowsReference([], rest, later);
    ReferencePeels(line, t);
    var st := Feed([], rest);
    Prefixed(Verdict(line), st, Reference(line + [LF] + t), Reference(t), Reference(st.pending + WithoutCR(later)));
  }

  /** A line that overflows by its last byte: nothing but carriage returns may follow before the
      newline, so it makes no difference whether the newline is already there to be skipped. */
  lemma OverflowFollowsReference(line: seq<byte>, rest: seq<byte>, later: seq<byte>)
    requires Clean(line) && |line| == MAX_LINE
    requires LinesAtMost(line + WithoutCR(rest + later), MAX_LINE)
    ensures Follows(line, WithoutCR(rest + later), later, After([TooLong], Feed([], AfterNewline(rest))))
    decreases |rest|, 1
  {
    var u := WithoutCR(rest + later);
    NoByteBehindFullLine(line, u);
    SkippedCRs(rest, later);
    if LF in rest {
      NewlineFollowsReference(line, AfterNewline(rest), later);
    } else {
      NothingAfterOverflow(rest);
      FullLineAtTheEnd(line, u, later);
    }
  }

  lemma NothingAfterOverflow(rest: seq<byte>)
    requires AfterNewline(rest) == []
    ensures After([TooLong], Feed([], AfterNewline(rest))) == State([], [TooLong])
  {
    assert [TooLong] + [] == [TooLong];
  }

  lemma FullLineAtTheEnd(line: seq<byte>, u: seq<byte>, later: seq<byte>)
    requires LF !in line && |line| == MAX_LINE
    requires u == WithoutCR(later) && (u == [] || u[0] == LF) && LinesAtMost(line + u, MAX_LINE)
    ensures Follows(line, u, later, State([], [TooLong]))
  {
    assert [] + u == u;
    if u == [] {
      assert line + u == line;
      ReferenceOfUnfinished(line);
      ReferenceOfUnfinished([]);
      LinesOfUnfinished([], MAX_LINE);
    } else {
      FullLineBeforeNewline(line, u, u[1..]);
    }
  }

  lemma FullLineBeforeNewline(line: seq<byte>, u: seq<byte>, v: seq<byte>)
    requires LF !in line && |line| == MAX_LINE && u == [LF] + v && LinesAtMost(line + u, MAX_LINE)
    ensures Reference(line + u) == After([TooLong], Reference(u)) && LinesAtMost(u, MAX_LINE)
  {
    assert line + u == line + [LF] + v && u == [] + [LF] + v;
    LinesPeel(line, v, MAX_LINE);
    LinesPeel([], v, MAX_LINE);
    ReferencePeels(line, v);
    ReferencePeels([], v);
    AfterNothing(Reference(v));
  }

  lemma NoByteBehindFullLine(line: seq<byte>, u: seq<byte>)
    requires LF !in line && |line| == MAX_LINE && LinesAtMost(line + u, MAX_LINE)
    ensures u == [] || u[0] == LF
  {
    var whole := line + u;
    assert whole[..MAX_LINE] == line;
    assert forall i | 0 <= i < MAX_LINE :: whole[i] == line[i] && line[i] in line;
    assert FirstLine(whole) == MAX_LINE;
  }

  lemma {:induction false} SkippedCRs(rest: seq<byte>, later: seq<byte>)
    requires var u := WithoutCR(rest + later); u == [] || u[0] == LF
    ensures LF in rest ==>
      |AfterNewline(rest)| < |rest| && WithoutCR(rest + later) == [LF] + WithoutCR(AfterNewline(rest) + later)
    ensures LF !in rest ==> AfterNewline(rest) == [] && WithoutCR(rest + later) == WithoutCR(later)
  {
    if rest == [] {
      assert rest + later == later;
    } else {
      assert (rest + later)[1..] == rest[1..] + later && (rest + later)[0] == rest[0];
      assert rest == [rest[0]] + rest[1..];
      if rest[0] == CR {
        SkippedCRs(rest[1..], later);
      }
    }
  }

  /** The stream without its carriage returns. */
  lemma {:induction false} WithoutCRSelects(s: seq<byte>)
    ensures WithoutCR(s) == Select(s, (x: byte) => x != 13)
  {
    if s != [] {
      WithoutCRSelects(s[1..]);
    }
  }

  /** What the reference makes of a stream, line by line: a finished line of fewer than 512 bytes is handed on
      as the C string it holds, unless it is empty; one of exactly 512 is refused; and what is not finished
      yet is kept. */
  lemma ExpectedLineByLine(line: seq<byte>, rest: seq<byte>)
    requires 10 !in line
    ensures |line| < 512 ==> Reference(line) == State(line, [])
    ensures |line| < 512 ==>
      Reference(line + [10] + rest)
        == State(Unfinished(rest), (if line == [] then [] else [Line(CString(line))]) + Expected(rest))
    ensures |line| == 512 ==> Reference(line + [10] + rest) == State(Unfinished(rest), [TooLong] + Expected(rest))
  {
    ReferencePeels(line, rest);
    ReferenceOfUnfinished(line);
  }

  lemma {:induction false} FeedCollects(pending: seq<byte>, line: seq<byte>, rest: seq<byte>)
    requires Clean(line) && |pending| + |line| < MAX_LINE
    ensures Feed(pending, line + rest) == Feed(pending + line, rest)
    decreases |line|
  {
    if line == [] {
      assert line + rest == rest && pending + line == pending;
    } else {
      assert line[0] in line && forall x | x in line[1..] :: x in line;
      assert (line + rest)[1..] == line[1..] + rest && pending + [line[0]] + line[1..] == pending + line;
      FeedCollects(pending + [line[0]], line[1..], rest);
    }
  }

  lemma {:induction false} AfterNewlineSkips(line: seq<byte>, rest: seq<byte>)
    requires Clean(line)
    ensures AfterNewline(line + [LF] + rest) == rest
  {
    if line == [] {
      assert line + [LF] + rest == [LF] + rest;
    } else {
      assert line[0] in line && forall x | x in line[1..] :: x in line;
      assert (line + [LF] + rest)[1..] == line[1..] + [LF] + rest;
      AfterNewlineSkips(line[1..], rest);
    }
  }

  /** A line of 512 bytes or more that arrives whole is refused once, and the next line is read from its
      beginning. */
  lemma OverlongLineIsSkipped(line: seq<byte>, rest: seq<byte>)
    requires 13 !in line && 10 !in line && |line| >= 512
    ensures Feed([], line + [10] + rest) == After([TooLong], Feed([], rest))
  {
    var head, last, tail := line[..511], line[511], line[512..];
    assert last in line && forall x | x in tail :: x in line;
    assert line == head + [last] + tail && [] + head == head;
    assert line + [10] + rest == head + ([last] + (tail + [10] + rest));
    FeedCollects([], head, [last] + (tail + [10] + rest));
    assert ([last] + (tail + [10] + rest))[1..] == tail + [10] + rest;
    AfterNewlineSkips(tail, rest);
  }

  // ----- consequences -------------------------------------------------------------------------

  lemma {:induction false} FeedAllFollowsReference(pending: seq<byte>, chunks: seq<seq<byte>>)
    requires Clean(pending) && |pending| < MAX_LINE
    requires LinesAtMost(pending + WithoutCR(Flatten(chunks)), MAX_LINE)
    ensures FeedAll(pending, chunks) == Reference(pending + WithoutCR(Flatten(chunks)))
    decreases |chunks|
  {
    if chunks == [] {
      assert pending + [] == pending;
      FirstLineIs(pending, |pending|);
    } else {
      FeedFollowsReference(pending, chunks[0], Flatten(chunks[1..]));
      FeedAllFollowsReference(Feed(pending, chunks[0]).pending, chunks[1..]);
    }
  }

  /** The reader agrees with the reference for every stream without overlong lines, however it
      is cut into drains. */
  lemma ReaderFollowsReference(stream: seq<byte>, chunks: seq<seq<byte>>)
    requires Flatten(chunks) == stream && LinesAtMost(WithoutCR(stream), MAX_LINE)
    ensures FeedAll([], chunks) == Reference(WithoutCR(stream))
  {
    assert [] + WithoutCR(stream) == WithoutCR(stream);
    FeedAllFollowsReference([], chunks);
  }

  /** `TooLong` never appears, and every non-empty finished line does, exactly when no line
      exceeds the buffer. */
  lemma {:induction false} NothingRefusedIffLinesFit(t: seq<byte>)
    requires LinesAtMost(t, MAX_LINE)
    ensures TooLong !in Expected(t) <==> LinesAtMost(t, MAX_LINE - 1)
    decreases |t|
  {
    var n := FirstLine(t);
    if n < |t| {
      NothingRefusedIffLinesFit(t[n + 1..]);
      assert Expected(t) == Verdict(t[..n]) + Expected(t[n + 1..]);
      assert TooLong in Verdict(t[..n]) <==> n == MAX_LINE;
    }
  }

  ghost predicate CutInvisible(stream: seq<byte>) {
    forall a, b | Flatten(a) == stream && Flatten(b) == stream :: FeedAll([], a) == FeedAll([], b)
  }

  predicate BeginsLine(u: seq<byte>) {
    u != [] && u[0] != LF
  }

  /** How a drain treats its first finished line: one output if the line has any byte, none
      otherwise, and then the rest from an empty buffer. */
  lemma {:induction false} FeedFirstLine(pending: seq<byte>, chunk: seq<byte>) returns (first: seq<Output>)
    requires LF in chunk && |pending| < MAX_LINE
    ensures Feed(pending, chunk) == After(first, Feed([], AfterNewline(chunk)))
    ensures pending != [] || BeginsLine(WithoutCR(chunk)) ==> first != []
    decreases |chunk|
  {
    var c, rest := chunk[0], chunk[1..];
    assert chunk == [c] + rest;
    if c == LF {
      first := Dispatched(pending);
    } else if c == CR {
      first := FeedFirstLine(pending, rest);
    } else if |pending| < MAX_LINE - 1 {
      first := FeedFirstLine(pending + [c], rest);
    } else {
      first := [TooLong];
    }
  }

  lemma {:induction false} FeedKeepsUnfinished(pending: seq<byte>, chunk: seq<byte>)
    requires LF !in chunk && |pending| < MAX_LINE
    requires pending != [] || WithoutCR(chunk) != []
    ensures Feed(pending, chunk) != State([], [])
    decreases |chunk|
  {
    if chunk != [] {
      var c, rest := chunk[0], chunk[1..];
      assert forall x | x in rest :: x in chunk;
      if c == CR {
        FeedKeepsUnfinished(pending, rest);
      } else if |pending| < MAX_LINE - 1 {
        FeedKeepsUnfinished(pending + [c], rest);
      }
    }
  }

  function FeedTwice(pending: seq<byte>, a: seq<byte>, b: seq<byte>): State {
    var st := Feed(pending, a);
    After(st.out, Feed(st.pending, b))
  }

  /** Right behind the byte that overflows a line, a cut shows: the skipped remainder is taken
      for a line of its own. */
  lemma OverflowCutShows(rest: seq<byte>)
    requires BeginsLine(WithoutCR(rest))
    ensures Feed([], rest) != Feed([], AfterNewline(rest))
  {
    if LF in rest {
      var first := FeedFirstLine([], rest);
      assert |Feed([], rest).out| == |first| + |Feed([], AfterNewline(rest)).out|;
    } else {
      NoNewline(rest);
      FeedKeepsUnfinished([], rest);
    }
  }

  lemma {:induction false} NoNewline(s: seq<byte>)
    requires LF !in s
    ensures AfterNewline(s) == []
  {
    if s != [] {
      NoNewline(s[1..]);
    }
  }

  /** A visible cut stays visible behind bytes that both drains treat alike. */
  lemma CutBehindPrefix(outs: seq<Output>, a: State, b: State, whole: State)
    requires After(a.out, b) != whole
    ensures After(outs + a.out, b) != After(outs, whole)
  {
    assert (outs + a.out + b.out)[|outs|..] == a.out + b.out;
    assert (outs + whole.out)[|outs|..] == whole.out;
  }

  ghost predicate Shows(pending: seq<byte>, s: seq<byte>, k: nat) {
    k <= |s| && FeedTwice(pending, s[..k], s[k..]) != Feed(pending, s)
  }

  lemma ShowsOneLater(pending: seq<byte>, s: seq<byte>, j: nat, next: seq<byte>, outs: seq<Output>)
    requires s != [] && Shows(next, s[1..], j)
    requires Feed(pending, s[..j + 1]) == After(outs, Feed(next, s[1..][..j]))
    requires Feed(pending, s) == After(outs, Feed(next, s[1..]))
    ensures Shows(pending, s, j + 1)
  {
    assert s[j + 1..] == s[1..][j..];
    CutBehindPrefix(outs, Feed(next, s[1..][..j]), Feed(Feed(next, s[1..][..j]).pending, s[1..][j..]),
      Feed(next, s[1..]));
  }

  lemma OverlongGoesOn(line: seq<byte>, u: seq<byte>)
    requires LF !in line && |line| <= MAX_LINE && !LinesAtMost(line + u, MAX_LINE)
    ensures u != []
  {
    assert line + [] == line;
    LinesOfUnfinished(line, MAX_LINE);
  }

  /** Where to cut a stream with an overlong line so that the cut shows. */
  lemma {:induction false} VisibleCut(pending: seq<byte>, s: seq<byte>) returns (k: nat)
    requires Clean(pending) && |pending| < MAX_LINE
    requires !LinesAtMost(pending + WithoutCR(s), MAX_LINE)
    ensures Shows(pending, s, k)
    decreases |s|
  {
    OverlongGoesOn(pending, WithoutCR(s));
    var c, rest := s[0], s[1..];
    var u := WithoutCR(rest);
    if c == CR {
      assert WithoutCR(s) == u;
      var j := VisibleCut(pending, rest);
      assert s[..j + 1][1..] == rest[..j];
      ShowsOneLater(pending, s, j, pending, []);
      k := j + 1;
    } else if c == LF {
      assert pending + WithoutCR(s) == pending + [LF] + u;
      LinesPeel(pending, u, MAX_LINE);
      assert [] + u == u;
      var j := VisibleCut([], rest);
      assert s[..j + 1][1..] == rest[..j];
      ShowsOneLater(pending, s, j, [], Dispatched(pending));
      k := j + 1;
    } else if |pending| < MAX_LINE - 1 {
      assert pending + WithoutCR(s) == (pending + [c]) + u;
      var j := VisibleCut(pending + [c], rest);
      assert s[..j + 1][1..] == rest[..j];
      ShowsOneLater(pending, s, j, pending + [c], []);
      k := j + 1;
    } else {
      assert pending + WithoutCR(s) == (pending + [c]) + u;
      k := VisibleCutAfterOverflow(pending, s);
    }
  }

  lemma VisibleCutAfterOverflow(pending: seq<byte>, s: seq<byte>) returns (k: nat)
    requires Clean(pending) && |pending| == MAX_LINE - 1 && s != [] && s[0] != CR && s[0] != LF
    requires !LinesAtMost(pending + [s[0]] + WithoutCR(s[1..]), MAX_LINE)
    ensures Shows(pending, s, k)
    decreases |s|, 0
  {
    var rest := s[1..];
    var u, line := WithoutCR(rest), pending + [s[0]];
    OverlongGoesOn(line, u);
    if BeginsLine(u) {
      k := 1;
      CutAtOverflow(pending, s);
    } else {
      OverlongBehindNewline(line, rest);
      var after := AfterNewline(rest);
      var j := VisibleCut([], after);
      k := 1 + |rest| - |after| + j;
      CutBehindSkipped(pending, s, j);
    }
  }

  /** A full line directly followed by its newline: what is overlong comes later. */
  lemma OverlongBehindNewline(line: seq<byte>, rest: seq<byte>)
    requires Clean(line) && |line| == MAX_LINE && !LinesAtMost(line + WithoutCR(rest), MAX_LINE)
    requires var u := WithoutCR(rest); u != [] && u[0] == LF
    ensures LF in rest && |AfterNewline(rest)| < |rest|
    ensures !LinesAtMost([] + WithoutCR(AfterNewline(rest)), MAX_LINE)
  {
    var after := AfterNewline(rest);
    NewlineSkipped(rest);
    OverlongPeels(line, WithoutCR(rest), WithoutCR(after));
  }

  lemma NewlineSkipped(rest: seq<byte>)
    requires var u := WithoutCR(rest); u != [] && u[0] == LF
    ensures LF in rest && |AfterNewline(rest)| < |rest|
    ensures WithoutCR(rest) == [LF] + WithoutCR(AfterNewline(rest))
  {
    assert rest + [] == rest && AfterNewline(rest) + [] == AfterNewline(rest);
    SkippedCRs(rest, []);
    NewlineIn(rest);
  }

  lemma OverlongPeels(line: seq<byte>, u: seq<byte>, v: seq<byte>)
    requires LF !in line && |line| == MAX_LINE && u == [LF] + v && !LinesAtMost(line + u, MAX_LINE)
    ensures !LinesAtMost([] + v, MAX_LINE)
  {
    assert line + u == line + [LF] + v && [] + v == v;
    LinesPeel(line, v, MAX_LINE);
  }

  lemma CutAtOverflow(pending: seq<byte>, s: seq<byte>)
    requires |pending| == MAX_LINE - 1 && s != [] && s[0] != CR && s[0] != LF && BeginsLine(WithoutCR(s[1..]))
    ensures Shows(pending, s, 1)
  {
    var rest := s[1..];
    assert s[..1] == [s[0]] && s[..1][1..] == [];
    assert Feed(pending, s[..1]) == State([], [TooLong]);
    OverflowCutShows(rest);
    CutBehindPrefix([TooLong], State([], []), Feed([], rest), Feed([], AfterNewline(rest)));
  }

  /** A cut that shows behind the skipped newline shows in the whole stream. */
  lemma CutBehindSkipped(pending: seq<byte>, s: seq<byte>, j: nat)
    requires |pending| == MAX_LINE - 1 && s != [] && s[0] != CR && s[0] != LF && LF in s[1..]
    requires Shows([], AfterNewline(s[1..]), j)
    ensures Shows(pending, s, 1 + |s[1..]| - |AfterNewline(s[1..])| + j)
  {
    var rest, after := s[1..], AfterNewline(s[1..]);
    var m := |rest| - |after| + j;
    AfterNewlineOfPrefix(rest, m);
    assert s[..1 + m][1..] == rest[..m] && s[1 + m..] == rest[m..] == after[j..];
    assert Feed(pending, s[..1 + m]) == After([TooLong], Feed([], after[..j]));
    CutBehindPrefix([TooLong], Feed([], after[..j]), Feed(Feed([], after[..j]).pending, after[j..]), Feed([], after));
  }

  lemma {:induction false} NewlineIn(s: seq<byte>)
    ensures LF in WithoutCR(s) ==> LF in s
  {
    if s != [] {
      NewlineIn(s[1..]);
      assert forall x | x in s[1..] :: x in s;
    }
  }

  /** Skipping commutes with cutting off a tail behind the newline. */
  lemma {:induction false} AfterNewlineOfPrefix(s: seq<byte>, m: nat)
    requires LF in s && |s| - |AfterNewline(s)| <= m <= |s|
    ensures AfterNewline(s[..m]) == AfterNewline(s)[..m - (|s| - |AfterNewline(s)|)]
    ensures s[m..] == AfterNewline(s)[m - (|s| - |AfterNewline(s)|)..]
  {
    assert |s| - |AfterNewline(s)| > 0;
    assert s[..m][1..] == s[1..][..m - 1] && s[..m][0] == s[0];
    if s[0] != LF {
      assert s == [s[0]] + s[1..];
      AfterNewlineOfPrefix(s[1..], m - 1);
      assert s[m..] == s[1..][m - 1..];
    }
  }

  /** The exact condition: how the wire cuts the stream into drains is invisible, in the outputs
      and in what stays pending, if and only if no line has more than `MAX_LINE` bytes besides
      its carriage returns. */
  lemma CutInvisibleIffLinesFit(stream: seq<byte>)
    ensures CutInvisible(stream) <==> LinesAtMost(WithoutCR(stream), 512)
  {
    if LinesAtMost(WithoutCR(stream), MAX_LINE) {
      forall a, b | Flatten(a) == stream && Flatten(b) == stream ensures FeedAll([], a) == FeedAll([], b) {
        ReaderFollowsReference(stream, a);
        ReaderFollowsReference(stream, b);
      }
    } else {
      assert [] + WithoutCR(stream) == WithoutCR(stream);
      var k := VisibleCut([], stream);
      assert Shows([], stream, k);
      var one, two := [stream], [stream[..k], stream[k..]];
      assert Flatten(one) == stream by { assert one[1..] == []; assert stream + [] == stream; }
      assert Flatten(two) == stream by {
        assert two[1..] == [stream[k..]] && two[1..][1..] == [];
        assert stream[k..] + [] == stream[k..] && stream[..k] + stream[k..] == stream;
      }
      assert FeedAll([], one) == Feed([], stream) by {
        assert one[1..] == [];
        assert Feed([], stream).out + [] == Feed([], stream).out;
      }
      assert FeedAll([], two) == FeedTwice([], stream[..k], stream[k..]) by {
        assert two[1..] == [stream[k..]] && two[1..][1..] == [];
        var st := Feed([], stream[..k]);
        var st2 := Feed(st.pending, stream[k..]);
        assert FeedAll(st.pending, [stream[k..]]) == After(st2.out, FeedAll(st2.pending, []));
        assert st2.out + [] == st2.out;
      }
    }
  }
}
