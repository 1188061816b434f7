/** The newest lines of a file, found by reading it backwards block by block. */
module TailScan {

  import opened Utf8

  const NL: Byte := 10
  const DOTS: seq<Byte> := [46, 46, 46]

  // ----- what the scan must return -----

  /** The lines of a text: split at every newline. */
  function Split(s: seq<Byte>): (lines: seq<seq<Byte>>)
    ensures |lines| > 0
  {
    if s == [] then [[]] else Prepend(s[0], Split(s[1..]))
  }

  /** One more byte in front: a newline opens a new first line, another byte joins it. */
  function Prepend(b: Byte, lines: seq<seq<Byte>>): (longer: seq<seq<Byte>>)
    requires |lines| > 0
    ensures |longer| > 0
  {
    if b == NL then [[]] + lines else [[b] + lines[0]] + lines[1..]
  }

  function Join(lines: seq<seq<Byte>>): seq<Byte> {
    if lines == [] then []
    else if |lines| == 1 then lines[0]
    else lines[0] + [NL] + Join(lines[1..])
  }

  /** One trailing newline ends the last line; it does not open another. */
  function Body(content: seq<Byte>): seq<Byte> {
    if content != [] && content[|content| - 1] == NL then content[..|content| - 1] else content
  }

  function Lines(content: seq<Byte>): seq<seq<Byte>> {
    if Body(content) == [] then [] else Split(Body(content))
  }

  /** A line as it is shown: whole, or cut to its first `limit` bytes, trimmed and dotted. */
  function Show(line: seq<Byte>, limit: nat): seq<Byte> {
    if limit == 0 || |line| <= limit then line else LongestWellFormed(line[..limit]) + DOTS
  }

  function ShowAll(lines: seq<seq<Byte>>, limit: nat): (shown: seq<seq<Byte>>)
    ensures |shown| == |lines|
  {
    if lines == [] then [] else [Show(lines[0], limit)] + ShowAll(lines[1..], limit)
  }

  /** The newest `k` of the lines are within both budgets. */
  predicate Fits(shown: seq<seq<Byte>>, k: nat, maxLines: int, maxBytes: int)
    requires k <= |shown|
  {
    k <= maxLines && |Join(shown[|shown| - k..])| <= maxBytes
  }

  /** `k` newest lines is as many as fit. */
  predicate MostThatFit(shown: seq<seq<Byte>>, k: nat, maxLines: int, maxBytes: int) {
    && k <= |shown| && Fits(shown, k, maxLines, maxBytes)
    && forall j | k < j <= |shown| :: !Fits(shown, j, maxLines, maxBytes)
  }

  // ----- splitting and joining are inverse -----

  lemma JoinCons(x: seq<Byte>, rest: seq<seq<Byte>>)
    ensures Join([x] + rest) == if rest == [] then x else x + [NL] + Join(rest)
  {
    assert ([x] + rest)[1..] == rest;
  }

  lemma ConcatAssociates(a: seq<Byte>, b: seq<Byte>, c: seq<Byte>, d: seq<Byte>)
    ensures a + b + c + d == a + (b + c + d)
  {}

  lemma JoinLonger(b: Byte, first: seq<Byte>, rest: seq<seq<Byte>>)
    ensures Join([[b] + first] + rest) == [b] + Join([first] + rest)
  {
    JoinCons(first, rest);
    JoinCons([b] + first, rest);
    if rest != [] { ConcatAssociates([b], first, [NL], Join(rest)); }
  }

  lemma JoinNewline(lines: seq<seq<Byte>>)
    requires |lines| > 0
    ensures Join([[]] + lines) == [NL] + Join(lines)
  {
    JoinCons([], lines);
    var empty: seq<Byte> := [];
    assert empty + [NL] == [NL];
  }

  lemma HeadAndTail(lines: seq<seq<Byte>>)
    requires |lines| > 0
    ensures [lines[0]] + lines[1..] == lines
  {}

  lemma JoinPrepend(b: Byte, lines: seq<seq<Byte>>)
    requires |lines| > 0
    ensures Join(Prepend(b, lines)) == [b] + Join(lines)
  {
    if b == NL {
      JoinNewline(lines);
    } else {
      HeadAndTail(lines);
      JoinLonger(b, lines[0], lines[1..]);
    }
  }

  lemma {:induction false} JoinOfSplit(s: seq<Byte>)
    ensures Join(Split(s)) == s
    ensures forall i | 0 <= i < |Split(s)| :: NL !in Split(s)[i]
  {
    if s != [] {
      JoinOfSplit(s[1..]);
      JoinPrepend(s[0], Split(s[1..]));
      assert [s[0]] + s[1..] == s;
    }
  }

  lemma {:induction false} SplitOfLine(x: seq<Byte>)
    requires NL !in x
    ensures Split(x) == [x]
  {
    if x != [] {
      SplitOfLine(x[1..]);
      assert [x[0]] + x[1..] == x;
    }
  }

  lemma PrependAppend(b: Byte, lines: seq<seq<Byte>>, more: seq<seq<Byte>>)
    requires |lines| > 0
    ensures Prepend(b, lines + more) == Prepend(b, lines) + more
  {
    assert (lines + more)[1..] == lines[1..] + more;
  }

  lemma {:induction false} SplitAtNewline(x: seq<Byte>, y: seq<Byte>)
    ensures Split(x + [NL] + y) == Split(x) + Split(y)
  {
    var s := x + [NL] + y;
    if x == [] {
      assert s[1..] == y;
    } else {
      SplitAtNewline(x[1..], y);
      assert s[1..] == x[1..] + [NL] + y;
      PrependAppend(x[0], Split(x[1..]), Split(y));
    }
  }

  /** `Split` is the only way to cut a text into lines. */
  lemma {:induction false} SplitOfJoin(lines: seq<seq<Byte>>)
    requires |lines| > 0 && forall i | 0 <= i < |lines| :: NL !in lines[i]
    ensures Split(Join(lines)) == lines
  {
    SplitOfLine(lines[0]);
    if |lines| == 1 {
      assert lines == [lines[0]];
    } else {
      SplitOfJoin(lines[1..]);
      SplitAtNewline(lines[0], Join(lines[1..]));
    }
  }

  // ----- budgets -----

  lemma JoinFirst(x: seq<Byte>, rest: seq<seq<Byte>>)
    ensures |Join([x] + rest)| == |x| + (if rest == [] then 0 else 1 + |Join(rest)|)
  {
    assert ([x] + rest)[1..] == rest;
  }

  lemma FewerFit(shown: seq<seq<Byte>>, k: nat, maxLines: int, maxBytes: int)
    requires k < |shown| && Fits(shown, k + 1, maxLines, maxBytes)
    ensures Fits(shown, k, maxLines, maxBytes)
  {
    var i := |shown| - k - 1;
    assert shown[i..] == [shown[i]] + shown[i + 1..];
    JoinFirst(shown[i], shown[i + 1..]);
  }

  lemma {:induction false} TooManyStaysTooMany(shown: seq<seq<Byte>>, k: nat, j: nat, maxLines: int, maxBytes: int)
    requires k <= j <= |shown| && !Fits(shown, k, maxLines, maxBytes)
    ensures !Fits(shown, j, maxLines, maxBytes)
    decreases j - k
  {
    if k < j {
      if Fits(shown, k + 1, maxLines, maxBytes) { FewerFit(shown, k, maxLines, maxBytes); assert false; }
      TooManyStaysTooMany(shown, k + 1, j, maxLines, maxBytes);
    }
  }

  /** The newest lines joined are the end of the text, starting where a line starts. */
  lemma {:induction false} NewestIsSuffix(lines: seq<seq<Byte>>, i: nat)
    requires i < |lines|
    ensures
      var text, tail := Join(lines), Join(lines[i..]);
      && |tail| <= |text| && text[|text| - |tail|..] == tail
      && (i > 0 ==> |tail| < |text| && text[|text| - |tail| - 1] == NL)
      && (i == 0 ==> tail == text)
  {
    if i == 0 {
      assert lines[0..] == lines;
    } else {
      NewestIsSuffix(lines[1..], i - 1);
      assert lines[1..][i - 1..] == lines[i..];
    }
  }

  // ----- the ring buffer -----

  lemma NoMultipleBetween(n: nat, m: int)
    requires n > 0
    ensures n * m <= 0 || n * m >= n
  {
    if m >= 1 { assert n * m >= n; }
  }

  lemma RingSlotsDiffer(j: nat, total: nat, n: nat)
    requires 0 < total - j < n
    ensures j % n != total % n
  {
    if j % n == total % n {
      var d := total - j;
      assert total == n * (total / n) + total % n && j == n * (j / n) + j % n;
      assert d == n * (total / n - j / n);
      NoMultipleBetween(n, total / n - j / n);
      assert false;
    }
  }

  /** A line read backwards, of which the last `buf.Length` bytes read are kept. */
  class ReverseLine {
    const buf: array<Byte>
    const limit: nat
    var total: nat
    var next: nat
    ghost var line: seq<Byte>

    constructor (capacity: nat, limit: nat)
      ensures Valid() && line == [] && this.limit == limit && buf.Length == capacity && fresh(buf)
    {
      this.buf := new Byte[capacity](_ => 0);
      this.limit, this.total, this.next, this.line := limit, 0, 0, [];
    }

    /** The `j`-th byte read sits in slot `j % buf.Length` until it is overwritten. */
    ghost predicate Valid()
      reads this, buf
    {
      && total == |line| && next == (if buf.Length > 0 then total else 0)
      && forall j | 0 <= j < total && total - j <= buf.Length :: buf[j % buf.Length] == line[total - 1 - j]
    }

    method Add(value: Byte)
      requires Valid()
      modifies this, buf
      ensures Valid() && line == [value] + old(line)
    {
      if buf.Length > 0 {
        forall j | 0 <= j < total && total + 1 - j <= buf.Length ensures j % buf.Length != total % buf.Length {
          RingSlotsDiffer(j, total, buf.Length);
        }
        buf[next % buf.Length] := value;
        next := next + 1;
      }
      total := total + 1;
      line := [value] + line;
    }

    /** The bytes kept, put back in file order. */
    method Captured() returns (r: seq<Byte>)
      requires Valid()
      ensures r == line[..if total < buf.Length then total else buf.Length]
    {
      var size := if total < buf.Length then total else buf.Length;
      var start := next - size;
      r := [];
      var i := 0;
      while i < size
        invariant 0 <= i <= size && r == line[size - i..size]
      {
        r := [buf[(start + i) % buf.Length]] + r;
        i := i + 1;
      }
    }

    method Render() returns (r: seq<Byte>)
      requires Valid() && (limit > 0 ==> buf.Length == limit)
      ensures limit > 0 || |line| <= buf.Length ==> r == Show(line, limit)
    {
      r := Captured();
      if limit > 0 && total > limit {
        var p := TrimToWellFormed(r);
        r := p + DOTS;
      }
    }

    method Reset()
      requires Valid()
      modifies this
      ensures Valid() && line == []
    {
      total, next, line := 0, 0, [];
    }
  }

  // ----- the scan -----

  function Reversed<T>(s: seq<T>): (r: seq<T>)
    ensures |r| == |s|
  {
    if s == [] then [] else Reversed(s[1..]) + [s[0]]
  }

  lemma {:induction false} ReversedAppend<T>(s: seq<T>, x: T)
    ensures Reversed(s + [x]) == [x] + Reversed(s)
  {
    if s != [] {
      assert (s + [x])[1..] == s[1..] + [x];
      ReversedAppend(s[1..], x);
    }
  }

  lemma {:induction false} ReversedTwice<T>(s: seq<T>)
    ensures Reversed(Reversed(s)) == s
  {
    if s != [] {
      ReversedTwice(s[1..]);
      ReversedAppend(Reversed(s[1..]), s[0]);
    }
  }

  lemma {:induction false} ShowAllAppend(a: seq<seq<Byte>>, b: seq<seq<Byte>>, limit: nat)
    ensures ShowAll(a + b, limit) == ShowAll(a, limit) + ShowAll(b, limit)
  {
    if a == [] {
      assert a + b == b;
    } else {
      assert (a + b)[1..] == a[1..] + b;
      ShowAllAppend(a[1..], b, limit);
    }
  }

  lemma {:induction false} ShowAllWhole(lines: seq<seq<Byte>>, limit: nat)
    requires AllWithin(lines, limit)
    ensures ShowAll(lines, limit) == lines
  {
    if lines != [] { ShowAllWhole(lines[1..], limit); }
  }

  /** The scan's state: the lines accepted so far, newest first, and the line being read. */
  class Tail {
    var lines: seq<seq<Byte>>
    var total: nat
    const maxLines: nat
    const maxBytes: nat
    const line: ReverseLine
    ghost var done: seq<seq<Byte>>

    ghost predicate Valid()
      reads this, line, line.buf
    {
      && line.Valid() && line.buf.Length == (if line.limit == 0 then maxBytes else line.limit)
      && lines == Reversed(ShowAll(done, line.limit))
      && total == |Join(ShowAll(done, line.limit))|
      && |done| <= maxLines && total <= maxBytes
    }

    constructor (maxLines: nat, maxBytes: nat, lineLimit: nat)
      ensures Valid() && done == [] && line.line == [] && fresh(line) && fresh(line.buf)
      ensures this.maxLines == maxLines && this.maxBytes == maxBytes && line.limit == lineLimit
    {
      this.maxLines, this.maxBytes := maxLines, maxBytes;
      lines, total, done := [], 0, [];
      line := new ReverseLine(if lineLimit == 0 then maxBytes else lineLimit, lineLimit);
    }

    /** Takes the line just read, unless it would exceed a budget. */
    method AcceptLine() returns (ok: bool)
      requires Valid()
      modifies this, line
      ensures Valid()
      ensures ok <==> CanAdd(old(done), old(line.line), line.limit, maxLines, maxBytes)
      ensures ok ==> done == [old(line.line)] + old(done) && line.line == []
      ensures !ok ==> done == old(done)
    {
      var shown := line.Render();
      var additional := if line.limit == 0 then line.total else |shown|;
      if |lines| > 0 { additional := additional + 1; }
      JoinFirst(Show(line.line, line.limit), ShowAll(done, line.limit));
      if |lines| >= maxLines || total + additional > maxBytes { return false; }
      ghost var longer := [line.line] + done;
      assert longer[1..] == done;
      assert ShowAll(longer, line.limit)[1..] == ShowAll(done, line.limit);
      lines := lines + [shown];
      total := total + additional;
      done := longer;
      line.Reset();
      ok := true;
    }

    method Result() returns (r: seq<seq<Byte>>)
      requires Valid()
      ensures r == ShowAll(done, line.limit)
    {
      r := [];
      var i := 0;
      while i < |lines|
        invariant 0 <= i <= |lines| && r == Reversed(lines[..i])
      {
        assert lines[..i + 1] == lines[..i] + [lines[i]];
        ReversedAppend(lines[..i], lines[i]);
        r := [lines[i]] + r;
        i := i + 1;
      }
      assert lines[..i] == lines;
      ReversedTwice(ShowAll(done, line.limit));
    }
  }

  /** One more line, in front of the accepted ones, is still within both budgets. */
  predicate CanAdd(done: seq<seq<Byte>>, line: seq<Byte>, limit: nat, maxLines: nat, maxBytes: nat) {
    |done| < maxLines && |Join([Show(line, limit)] + ShowAll(done, limit))| <= maxBytes
  }

  /** Of all lines, as many of the newest as fit; truncated says whether one was left out. */
  predicate IsTailOf(all: seq<seq<Byte>>, empty: bool, maxLines: int, maxBytes: int, r: seq<seq<Byte>>,
      truncated: bool) {
    if !empty && (maxLines <= 0 || maxBytes <= 0) then r == [] && truncated
    else
      && (!empty ==> MostThatFit(all, |r|, maxLines, maxBytes))
      && |r| <= |all| && r == all[|all| - |r|..] && truncated == (|r| < |all|)
  }

  /** What a scan of `content` must return. */
  predicate IsTail(content: seq<Byte>, maxLines: int, maxBytes: int, limit: nat, r: seq<seq<Byte>>, truncated: bool) {
    IsTailOf(ShowAll(Lines(content), limit), content == [], maxLines, maxBytes, r, truncated)
  }

  lemma ShownParts(front: seq<seq<Byte>>, line: seq<Byte>, done: seq<seq<Byte>>, limit: nat)
    ensures
      var all, k := ShowAll(front + [line] + done, limit), |done|;
      && all[|all| - k..] == ShowAll(done, limit)
      && all[|all| - k - 1..] == [Show(line, limit)] + ShowAll(done, limit)
  {
    ShowAllAppend(front + [line], done, limit);
    ShowAllAppend(front, [line], limit);
    assert [line][1..] == [];
  }

  lemma RefusedIsMost(all: seq<seq<Byte>>, k: nat, maxLines: nat, maxBytes: nat)
    requires k < |all| && Fits(all, k, maxLines, maxBytes) && !Fits(all, k + 1, maxLines, maxBytes)
    ensures MostThatFit(all, k, maxLines, maxBytes)
  {
    forall j | k < j <= |all| ensures !Fits(all, j, maxLines, maxBytes) {
      TooManyStaysTooMany(all, k + 1, j, maxLines, maxBytes);
    }
  }

  lemma RefusedIsTail(content: seq<Byte>, front: seq<seq<Byte>>, line: seq<Byte>, done: seq<seq<Byte>>, limit: nat,
      maxLines: nat, maxBytes: nat)
    requires Body(content) != [] && maxLines > 0 && maxBytes > 0
    requires Lines(content) == front + [line] + done
    requires |done| <= maxLines && |Join(ShowAll(done, limit))| <= maxBytes
    requires !CanAdd(done, line, limit, maxLines, maxBytes)
    ensures IsTail(content, maxLines, maxBytes, limit, ShowAll(done, limit), true)
  {
    ShownParts(front, line, done, limit);
    RefusedIsMost(ShowAll(Lines(content), limit), |done|, maxLines, maxBytes);
  }

  lemma AllIsTail(content: seq<Byte>, limit: nat, maxLines: nat, maxBytes: nat)
    requires maxLines > 0 && maxBytes > 0
    requires |Lines(content)| <= maxLines && |Join(ShowAll(Lines(content), limit))| <= maxBytes
    ensures IsTail(content, maxLines, maxBytes, limit, ShowAll(Lines(content), limit), false)
  {
    var all := ShowAll(Lines(content), limit);
    assert all[|all| - |all|..] == all;
  }

  /** How much of the file, read backwards down to `p`, the scan has digested. */
  ghost predicate Digested(
    content: seq<Byte>, p: nat, line: seq<Byte>, done: seq<seq<Byte>>, atEnd: bool, leading: bool)
  {
    var body := Body(content);
    if atEnd then p == |content| && line == [] && done == [] && !leading
    else
      && p <= |body| && Split(body[p..]) == [line] + done
      && (leading <==> p == 0 && body != [] && body[0] == NL)
  }

  lemma DigestByte(content: seq<Byte>, p: nat, line: seq<Byte>, done: seq<seq<Byte>>, atEnd: bool, leading: bool)
    requires 0 < p <= |content| && Digested(content, p, line, done, atEnd, leading)
    ensures content[p - 1] != NL ==> Digested(content, p - 1, [content[p - 1]] + line, done, false, leading)
    ensures content[p - 1] == NL && atEnd ==> Digested(content, p - 1, line, done, false, leading)
    ensures content[p - 1] == NL && !atEnd ==>
      && Digested(content, p - 1, [], [line] + done, false, p - 1 == 0)
      && Body(content) != [] && Lines(content) == Split(Body(content)[..p - 1]) + [line] + done
  {
    var body := Body(content);
    if !atEnd || content[p - 1] != NL {
      assert body[p - 1..][1..] == body[p..];
      assert body[p - 1] == content[p - 1];
    }
    if content[p - 1] == NL && !atEnd {
      assert body == body[..p - 1] + [NL] + body[p..];
      SplitAtNewline(body[..p - 1], body[p..]);
    }
  }

  lemma DigestedAll(content: seq<Byte>, line: seq<Byte>, done: seq<seq<Byte>>, leading: bool)
    requires Digested(content, 0, line, done, false, leading)
    ensures line != [] || leading ==> Body(content) != [] && Lines(content) == [] + [line] + done
    ensures line == [] && !leading ==> Lines(content) == done
  {
    var body := Body(content);
    assert body[0..] == body;
    assert Split(body)[0] == line && Split(body)[1..] == done;
    assert [] + [line] + done == [line] + done;
  }

  /** A newline found at `p`: the line behind it is complete. */
  method EndLine(state: Tail, ghost content: seq<Byte>, ghost p: nat) returns (ok: bool)
    requires state.Valid() && state.maxLines > 0 && state.maxBytes > 0
    requires p < |Body(content)| && Lines(content) == Split(Body(content)[..p]) + [state.line.line] + state.done
    modifies state, state.line
    ensures state.Valid()
    ensures ok ==> state.line.line == [] && state.done == [old(state.line.line)] + old(state.done)
    ensures !ok ==>
      IsTail(content, state.maxLines, state.maxBytes, state.line.limit, ShowAll(state.done, state.line.limit), true)
  {
    ghost var line, done := state.line.line, state.done;
    ok := state.AcceptLine();
    if !ok { RefusedIsTail(content, Split(Body(content)[..p]), line, done, state.line.limit, state.maxLines,
      state.maxBytes); }
  }

  /** One byte, read at `p`. A refused line ends the scan. */
  method ReadByte(state: Tail, ghost content: seq<Byte>, p: nat, value: Byte, atEnd: bool, leading: bool)
    returns (refused: bool, leading': bool)
    requires state.Valid() && state.maxLines > 0 && state.maxBytes > 0
    requires p < |content| && value == content[p]
    requires Digested(content, p + 1, state.line.line, state.done, atEnd, leading)
    modifies state, state.line, state.line.buf
    ensures state.Valid()
    ensures !refused ==> Digested(content, p, state.line.line, state.done, false, leading')
    ensures refused ==>
      IsTail(content, state.maxLines, state.maxBytes, state.line.limit, ShowAll(state.done, state.line.limit), true)
  {
    refused, leading' := false, leading;
    DigestByte(content, p + 1, state.line.line, state.done, atEnd, leading);
    if value != NL {
      state.line.Add(value);
    } else if !atEnd {
      var ok := EndLine(state, content, p);
      refused, leading' := !ok, p == 0;
    }
  }

  /** Reads one block backwards. */
  method ScanBlock(state: Tail, ghost content: seq<Byte>, position: nat, buf: seq<Byte>, atEnd: bool, leading: bool)
    returns (refused: bool, atEnd': bool, leading': bool)
    requires state.Valid() && state.maxLines > 0 && state.maxBytes > 0
    requires position + |buf| <= |content| && buf == content[position..position + |buf|]
    requires Digested(content, position + |buf|, state.line.line, state.done, atEnd, leading)
    modifies state, state.line, state.line.buf
    ensures state.Valid()
    ensures !refused ==> Digested(content, position, state.line.line, state.done, atEnd', leading')
    ensures refused ==>
      IsTail(content, state.maxLines, state.maxBytes, state.line.limit, ShowAll(state.done, state.line.limit), true)
  {
    refused, atEnd', leading' := false, atEnd, leading;
    var i := |buf|;
    while i > 0
      invariant 0 <= i <= |buf| && state.Valid()
      invariant Digested(content, position + i, state.line.line, state.done, atEnd', leading')
    {
      i := i - 1;
      refused, leading' := ReadByte(state, content, position + i, buf[i], atEnd', leading');
      atEnd' := false;
      if refused { return; }
    }
  }

  /** The oldest line has no newline before it. */
  method AcceptFirst(state: Tail, ghost content: seq<Byte>, leading: bool) returns (truncated: bool)
    requires state.Valid() && state.maxLines > 0 && state.maxBytes > 0
    requires Digested(content, 0, state.line.line, state.done, false, leading)
    modifies state, state.line
    ensures state.Valid()
    ensures IsTail(content, state.maxLines, state.maxBytes, state.line.limit, ShowAll(state.done, state.line.limit),
      truncated)
  {
    ghost var line, done := state.line.line, state.done;
    DigestedAll(content, line, done, leading);
    if state.line.total > 0 || leading {
      var ok := state.AcceptLine();
      if !ok {
        RefusedIsTail(content, [], line, done, state.line.limit, state.maxLines, state.maxBytes);
        return true;
      }
      assert [] + [line] + done == [line] + done;
    }
    AllIsTail(content, state.line.limit, state.maxLines, state.maxBytes);
    truncated := false;
  }

  // ----- the answer in terms of the bytes -----

  /** `lines` are the lines of `content`: without newlines, and with one after each but perhaps the
      last they make up the content; an empty content and a lone newline have none. */
  predicate AreLines(lines: seq<seq<Byte>>, content: seq<Byte>) {
    && (forall i | 0 <= i < |lines| :: 10 !in lines[i])
    && content == Join(lines) + (if content != [] && content[|content| - 1] == 10 then [10] else [])
    && (lines == [] <==> content == [] || content == [10])
  }

  lemma LinesAreLines(content: seq<Byte>)
    ensures AreLines(Lines(content), content)
  {
    JoinOfSplit(Body(content));
    if content != [] { assert content == content[..|content| - 1] + [content[|content| - 1]]; }
  }

  /** There are no others. */
  lemma LinesAreUnique(lines: seq<seq<Byte>>, content: seq<Byte>)
    requires AreLines(lines, content)
    ensures lines == Lines(content)
  {
    var ended := content != [] && content[|content| - 1] == 10;
    assert Body(content) == Join(lines) by {
      if ended { assert content[..|content| - 1] == Join(lines); } else { assert Join(lines) + [] == Join(lines); }
    }
    if lines != [] { SplitOfJoin(lines); }
  }

  /** `shown` stands for `line`: it is the line, or, for one over the limit, the longest well-formed
      prefix of its first `limit` bytes and three dots. */
  predicate StandsFor(shown: seq<Byte>, line: seq<Byte>, limit: nat) {
    if limit == 0 || |line| <= limit then shown == line
    else |shown| >= 3 && shown[|shown| - 3..] == [46, 46, 46] && LongestPrefix(shown[..|shown| - 3], line[..limit])
  }

  lemma ShownStandsFor(line: seq<Byte>, limit: nat)
    ensures StandsFor(Show(line, limit), line, limit)
  {
    if 0 < limit < |line| {
      var p := LongestWellFormed(line[..limit]);
      assert Show(line, limit)[|p|..] == DOTS && Show(line, limit)[..|p|] == p;
    }
  }

  lemma StandsForOne(shown: seq<Byte>, line: seq<Byte>, limit: nat)
    requires StandsFor(shown, line, limit)
    ensures shown == Show(line, limit)
  {
    ShownStandsFor(line, limit);
    if 0 < limit < |line| {
      var p, q := shown[..|shown| - 3], LongestWellFormed(line[..limit]);
      LongestIsOne(p, q, line[..limit]);
      assert shown == p + shown[|shown| - 3..];
    }
  }

  lemma LongestIsOne(p: seq<Byte>, q: seq<Byte>, s: seq<Byte>)
    requires LongestPrefix(p, s) && LongestPrefix(q, s)
    ensures p == q
  {
    assert p == s[..|p|] && q == s[..|q|];
  }

  /** `r` is the end of `lines`, each line as it is shown. */
  predicate AllStandFor(r: seq<seq<Byte>>, lines: seq<seq<Byte>>, limit: nat) {
    |r| <= |lines| && forall i | 0 <= i < |r| :: StandsFor(r[i], lines[|lines| - |r| + i], limit)
  }

  /** The line before it, however shown, would break a budget. */
  ghost predicate NoRoomFor(line: seq<Byte>, limit: nat, r: seq<seq<Byte>>, maxLines: int, maxBytes: int) {
    forall x | StandsFor(x, line, limit) :: |r| == maxLines || |Join([x] + r)| > maxBytes
  }

  /** What a scan returns: the newest lines in file order, each as it is shown, within both budgets;
      it says truncated exactly when it left one out, and then one more would break a budget. */
  ghost predicate NewestThatFit(content: seq<Byte>, lines: seq<seq<Byte>>, maxLines: int, maxBytes: int, limit: nat,
      r: seq<seq<Byte>>, truncated: bool) {
    if content != [] && (maxLines <= 0 || maxBytes <= 0) then r == [] && truncated
    else
      && AllStandFor(r, lines, limit) && (truncated <==> |r| < |lines|)
      && (content != [] ==> |r| <= maxLines && |Join(r)| <= maxBytes)
      && (truncated ==> NoRoomFor(lines[|lines| - |r| - 1], limit, r, maxLines, maxBytes))
  }

  lemma {:induction false} ShowAllAt(lines: seq<seq<Byte>>, limit: nat, i: nat)
    requires i < |lines|
    ensures ShowAll(lines, limit)[i] == Show(lines[i], limit)
  {
    if i > 0 { ShowAllAt(lines[1..], limit, i - 1); }
  }

  lemma OneMoreBreaks(all: seq<seq<Byte>>, r: seq<seq<Byte>>, maxLines: int, maxBytes: int)
    requires MostThatFit(all, |r|, maxLines, maxBytes) && |r| < |all| && r == all[|all| - |r|..]
    ensures |r| == maxLines || |Join([all[|all| - |r| - 1]] + r)| > maxBytes
  {
    assert [all[|all| - |r| - 1]] + r == all[|all| - (|r| + 1)..];
    assert !Fits(all, |r| + 1, maxLines, maxBytes);
  }

  lemma NoRoomForNext(lines: seq<seq<Byte>>, limit: nat, r: seq<seq<Byte>>, maxLines: int, maxBytes: int)
    requires MostThatFit(ShowAll(lines, limit), |r|, maxLines, maxBytes) && |r| < |lines|
    requires r == ShowAll(lines, limit)[|lines| - |r|..]
    ensures NoRoomFor(lines[|lines| - |r| - 1], limit, r, maxLines, maxBytes)
  {
    var next := |lines| - |r| - 1;
    ShowAllAt(lines, limit, next);
    OneMoreBreaks(ShowAll(lines, limit), r, maxLines, maxBytes);
    forall x | StandsFor(x, lines[next], limit) ensures x == Show(lines[next], limit) {
      StandsForOne(x, lines[next], limit);
    }
  }

  lemma EndStandsFor(lines: seq<seq<Byte>>, limit: nat, r: seq<seq<Byte>>)
    requires |r| <= |lines| && r == ShowAll(lines, limit)[|lines| - |r|..]
    ensures AllStandFor(r, lines, limit)
  {
    forall i | 0 <= i < |r| ensures StandsFor(r[i], lines[|lines| - |r| + i], limit) {
      ShowAllAt(lines, limit, |lines| - |r| + i);
      ShownStandsFor(lines[|lines| - |r| + i], limit);
    }
  }

  lemma TailIsNewestThatFit(content: seq<Byte>, maxLines: int, maxBytes: int, limit: nat, r: seq<seq<Byte>>,
      truncated: bool)
    requires IsTail(content, maxLines, maxBytes, limit, r, truncated)
    ensures NewestThatFit(content, Lines(content), maxLines, maxBytes, limit, r, truncated)
  {
    var lines := Lines(content);
    if content == [] || (maxLines > 0 && maxBytes > 0) {
      EndStandsFor(lines, limit, r);
      if truncated { NoRoomForNext(lines, limit, r, maxLines, maxBytes); }
    }
  }

  /** The backwards scan, for every content and every block size. `fails` are the offsets at
      which reading a block fails. */
  method ScanTailLines(
    content: seq<Byte>, maxLines: int, maxBytes: int, lineLimit: nat, blockSize: nat, fails: set<nat>)
    returns (r: seq<seq<Byte>>, truncated: bool, err: bool)
    requires blockSize > 0
    ensures !err ==> IsTail(content, maxLines, maxBytes, lineLimit, r, truncated)
    ensures !err ==> forall lines | AreLines(lines, content) ::
      NewestThatFit(content, lines, maxLines, maxBytes, lineLimit, r, truncated)
    ensures err ==> r == [] && !truncated && exists p :: p in fails && p < |content|
  {
    r, truncated, err := ScanBackwards(content, maxLines, maxBytes, lineLimit, blockSize, fails);
    if !err {
      TailIsNewestThatFit(content, maxLines, maxBytes, lineLimit, r, truncated);
      forall lines | AreLines(lines, content) ensures lines == Lines(content) { LinesAreUnique(lines, content); }
    }
  }

  method ScanBackwards(
    content: seq<Byte>, maxLines: int, maxBytes: int, lineLimit: nat, blockSize: nat, fails: set<nat>)
    returns (r: seq<seq<Byte>>, truncated: bool, err: bool)
    requires blockSize > 0
    ensures !err ==> IsTail(content, maxLines, maxBytes, lineLimit, r, truncated)
    ensures err ==> r == [] && !truncated && exists p :: p in fails && p < |content|
  {
    if |content| == 0 { return [], false, false; }
    if maxLines <= 0 || maxBytes <= 0 { return [], true, false; }
    var state := new Tail(maxLines, maxBytes, lineLimit);
    var position: nat, atEnd, leading := |content|, true, false;
    while position > 0
      invariant position <= |content| && state.Valid()
      invariant fresh(state) && fresh(state.line) && fresh(state.line.buf)
      invariant Digested(content, position, state.line.line, state.done, atEnd, leading)
    {
      var block := if blockSize < position then blockSize else position;
      position := position - block;
      if position in fails { return [], false, true; }
      var refused;
      refused, atEnd, leading :=
        ScanBlock(state, content, position, content[position..position + block], atEnd, leading);
      if refused {
        r := state.Result();
        return r, true, false;
      }
    }
    err := false;
    truncated := AcceptFirst(state, content, leading);
    r := state.Result();
  }

  /** A scan has one right answer. */
  lemma TailIsUnique(
    content: seq<Byte>, maxLines: int, maxBytes: int, limit: nat,
    r: seq<seq<Byte>>, t: bool, r': seq<seq<Byte>>, t': bool)
    requires IsTail(content, maxLines, maxBytes, limit, r, t) && IsTail(content, maxLines, maxBytes, limit, r', t')
    ensures r == r' && t == t'
  {
    var all := ShowAll(Lines(content), limit);
    if content == [] {
      assert all == [];
    } else if maxLines > 0 && maxBytes > 0 {
      MostIsUnique(all, |r|, |r'|, maxLines, maxBytes);
    }
  }

  lemma MostIsUnique(all: seq<seq<Byte>>, k: nat, k': nat, maxLines: int, maxBytes: int)
    requires MostThatFit(all, k, maxLines, maxBytes) && MostThatFit(all, k', maxLines, maxBytes)
    ensures k == k'
  {}

  /** A suffix of whole lines: it starts the text, or follows a newline, or is empty. */
  predicate LineStart(text: seq<Byte>, i: nat) { i == 0 || i == |text| || (i < |text| && text[i - 1] == NL) }

  predicate WholeSuffix(text: seq<Byte>, tail: seq<Byte>) {
    |tail| <= |text| && text[|text| - |tail|..] == tail && LineStart(text, |text| - |tail|)
  }

  lemma SuffixOfLines(lines: seq<seq<Byte>>, k: nat)
    requires k <= |lines|
    ensures WholeSuffix(Join(lines), Join(lines[|lines| - k..]))
    ensures k == |lines| ==> Join(lines[|lines| - k..]) == Join(lines)
  {
    if k == 0 {
      assert Join(lines[|lines| - k..]) == [];
    } else {
      NewestIsSuffix(lines, |lines| - k);
    }
  }

  lemma JoinOfLines(content: seq<Byte>)
    ensures Join(Lines(content)) == Body(content)
  {
    JoinOfSplit(Body(content));
  }

  lemma TailFits(all: seq<seq<Byte>>, empty: bool, maxLines: int, maxBytes: int, r: seq<seq<Byte>>, truncated: bool)
    requires maxLines > 0 && maxBytes > 0 && IsTailOf(all, empty, maxLines, maxBytes, r, truncated)
      && (empty ==> all == [])
    ensures |r| <= |all| && r == all[|all| - |r|..] && |Join(r)| <= maxBytes
    ensures !truncated ==> |r| == |all|
  {
    if empty { assert r == []; } else { assert Fits(all, |r|, maxLines, maxBytes); }
  }

  lemma TailIsSuffix(text: seq<Byte>, all: seq<seq<Byte>>, empty: bool, maxLines: int, maxBytes: int,
      r: seq<seq<Byte>>, truncated: bool)
    requires maxLines > 0 && maxBytes > 0 && IsTailOf(all, empty, maxLines, maxBytes, r, truncated)
    requires text == Join(all) && (empty ==> all == [])
    ensures |Join(r)| <= maxBytes && WholeSuffix(text, Join(r))
    ensures !truncated ==> Join(r) == text
  {
    TailFits(all, empty, maxLines, maxBytes, r, truncated);
    SuffixOfLines(all, |r|);
  }

  /** No line of the content is over the limit. */
  predicate AllWithin(lines: seq<seq<Byte>>, limit: nat) {
    limit == 0 || forall i | 0 <= i < |lines| :: |lines[i]| <= limit
  }

  /** With no limit, or one that no line exceeds, the joined result is a whole-line suffix of the text,
      within the byte budget, and it is all of the text when nothing was left out. */
  lemma WholeLineSuffix(content: seq<Byte>, maxLines: int, maxBytes: int, limit: nat, r: seq<seq<Byte>>,
      truncated: bool)
    requires maxLines > 0 && maxBytes > 0 && AllWithin(Lines(content), limit)
    requires IsTail(content, maxLines, maxBytes, limit, r, truncated)
    ensures |Join(r)| <= maxBytes && WholeSuffix(Body(content), Join(r))
    ensures !truncated ==> Join(r) == Body(content)
  {
    ShowAllWhole(Lines(content), limit);
    JoinOfLines(content);
    TailIsSuffix(Body(content), ShowAll(Lines(content), limit), content == [], maxLines, maxBytes, r, truncated);
  }

  /** With a limit, a longer line shows the longest well-formed prefix of its first bytes. */
  lemma LongLineIsCut(line: seq<Byte>, limit: nat)
    requires 0 < limit < |line|
    ensures
      var shown := Show(line, limit);
      && |shown| >= 3 && shown[|shown| - 3..] == DOTS
      && LongestPrefix(shown[..|shown| - 3], line[..limit])
  {
    var p := LongestWellFormed(line[..limit]);
    assert Show(line, limit)[|p|..] == DOTS && Show(line, limit)[..|p|] == p;
  }

  method JoinLines(lines: seq<seq<Byte>>) returns (out: seq<Byte>)
    ensures out == Join(lines)
  {
    out := [];
    var i := 0;
    while i < |lines|
      invariant 0 <= i <= |lines| && out == Join(lines[..i])
    {
      JoinAppend(lines[..i], lines[i]);
      assert lines[..i + 1] == lines[..i] + [lines[i]];
      if i > 0 { out := out + [NL]; }
      out := out + lines[i];
      i := i + 1;
    }
    assert lines[..i] == lines;
  }

  lemma {:induction false} JoinAppend(lines: seq<seq<Byte>>, x: seq<Byte>)
    ensures Join(lines + [x]) == Join(lines) + (if lines == [] then [] else [NL]) + x
  {
    if |lines| == 1 {
      assert (lines + [x])[1..] == [x];
    } else if |lines| > 1 {
      assert (lines + [x])[1..] == lines[1..] + [x];
      JoinAppend(lines[1..], x);
    }
  }

  // ----- shrinking a tail once more -----

  /** `i` is where the longest whole-line suffix of at most `maxBytes` starts. */
  predicate LongestTailAt(text: seq<Byte>, maxBytes: nat, i: nat) {
    && i <= |text| && |text| - i <= maxBytes && LineStart(text, i)
    && forall j | 0 <= j < i && |text| - j <= maxBytes :: !LineStart(text, j)
  }

  /** Cuts to at most `maxBytes`, then on to the next line start. */
  method TruncateTailToBytes(text: seq<Byte>, maxBytes: nat) returns (r: seq<Byte>, ghost at: nat)
    ensures at <= |text| && r == text[at..] && |r| <= maxBytes && LineStart(text, at)
    ensures LongestTailAt(text, maxBytes, at) <==> !CutsAtLineStart(text, maxBytes)
    ensures WellFormed(text) ==> WellFormed(r)
  {
    if |text| <= maxBytes {
      assert text[0..] == text;
      return text, 0;
    }
    var start := |text| - maxBytes;
    while start < |text| && Continuation(text[start])
      invariant |text| - maxBytes <= start <= |text|
      invariant forall j | |text| - maxBytes <= j < start :: text[j] != NL
      decreases |text| - start
    {
      start := start + 1;
    }
    var i := start;
    while i < |text| && text[i] != NL
      invariant start <= i <= |text|
      invariant forall j | |text| - maxBytes <= j < i :: text[j] != NL
    {
      i := i + 1;
    }
    at := if i < |text| then i + 1 else |text|;
    r := if i < |text| then text[i + 1..] else [];
    TruncatedAt(text, maxBytes, i, at);
    if WellFormed(text) { AfterNewline(text, at); }
  }

  /** The cut falls exactly where a line starts, so that line would still fit. */
  predicate CutsAtLineStart(text: seq<Byte>, maxBytes: nat) {
    0 < maxBytes < |text| && text[|text| - maxBytes - 1] == NL
  }

  lemma TruncatedAt(text: seq<Byte>, maxBytes: nat, i: nat, at: nat)
    requires |text| > maxBytes && |text| - maxBytes <= i <= |text|
    requires forall j | |text| - maxBytes <= j < i :: text[j] != NL
    requires if i < |text| then text[i] == NL && at == i + 1 else at == |text|
    ensures LongestTailAt(text, maxBytes, at) <==> !CutsAtLineStart(text, maxBytes)
  {
    if CutsAtLineStart(text, maxBytes) {
      assert LineStart(text, |text| - maxBytes);
    } else {
      forall j | 0 <= j < at && |text| - j <= maxBytes ensures !LineStart(text, j) {
        if j == |text| - maxBytes { assert text[j - 1] != NL; }
      }
    }
  }

  lemma AfterNewline(text: seq<Byte>, at: nat)
    requires WellFormed(text) && at <= |text| && (at == |text| || (at > 0 && text[at - 1] == NL))
    ensures WellFormed(text[at..])
  {
    if at < |text| {
      WellFormedFrom(text, at - 1);
      assert text[at - 1..][1..] == text[at..];
    }
  }

  /** There the line at the cut is the longest tail that fits, and it is dropped: of "a", newline,
      "b" cut to one byte nothing is left. */
  lemma TruncateDropsALineThatFits(text: seq<Byte>, maxBytes: nat)
    ensures CutsAtLineStart(text, maxBytes) ==> LongestTailAt(text, maxBytes, |text| - maxBytes)
    ensures CutsAtLineStart([97, NL, 98], 1)
  {}
}
