/** Skill envelopes inside the output of a batch of tool calls: each call's output under its own
    header line. */
module SkillBatch {

  import opened Options
  import opened SkillEnvelope

  /** One call of a batch: its tool, its number in decimal, and what it put out. */
  datatype Call = Call(tool: string, count: string, out: string)

  predicate AllDigits(s: string) { forall i | 0 <= i < |s| :: IsDigit(s[i]) }

  predicate WellNamed(b: Call) { b.tool != "" && '\n' !in b.tool && b.count != "" && AllDigits(b.count) }

  function HeaderText(b: Call): string { "=== " + b.tool + " (call " + b.count + ") ===" }

  function CallText(b: Call): string { HeaderText(b) + "\n" + b.out }

  function Batch(calls: seq<Call>): string { if calls == [] then "" else CallText(calls[0]) + Batch(calls[1..]) }

  predicate EndsLine(s: string) { s != "" && s[|s| - 1] == '\n' }

  // ----- lines, headers and segments of a concatenation -----

  lemma InFrontJoin(c: char, a: seq<string>, b: seq<string>)
    requires c == '\n' || a != []
    ensures PutInFront(c, a + b) == PutInFront(c, a) + b
  {
    if c != '\n' { assert (a + b)[1..] == a[1..] + b; }
  }

  lemma {:induction false} LinesOfWhole(x: string)
    requires EndsLine(x)
    ensures Lines(x) != [] && Total(Lines(x)) == |x|
  {
    if |x| > 1 { LinesOfWhole(x[1..]); }
    TotalInFront(x[0], Lines(x[1..]));
  }

  /** Whole lines in front are lines of the concatenation. */
  lemma {:induction false} LinesJoin(x: string, y: string)
    requires EndsLine(x)
    ensures Lines(x + y) == Lines(x) + Lines(y)
  {
    assert (x + y)[1..] == x[1..] + y;
    if |x| == 1 {
      assert x[1..] + y == y;
      InFrontJoin(x[0], [], Lines(y));
    } else {
      LinesJoin(x[1..], y);
      LinesOfWhole(x[1..]);
      InFrontJoin(x[0], Lines(x[1..]), Lines(y));
    }
  }

  lemma {:induction false} OneLine(line: string)
    requires EndsLine(line) && '\n' !in line[..|line| - 1]
    ensures Lines(line) == [line]
  {
    if |line| > 1 {
      assert line[0] == line[..|line| - 1][0];
      assert line[1..][..|line| - 2] == line[..|line| - 1][1..];
      OneLine(line[1..]);
      assert [line[0]] + line[1..] == line;
    } else {
      assert line == "\n" && line[1..] == "";
    }
  }

  lemma Associates<T>(a: seq<T>, b: seq<T>, c: seq<T>)
    ensures a + b + c == a + (b + c)
  {}

  lemma {:induction false} HeadersAmongJoin(a: seq<string>, b: seq<string>, o: nat)
    ensures HeadersAmong(a + b, o) == HeadersAmong(a, o) + HeadersAmong(b, o + Total(a))
  {
    if a == [] {
      assert a + b == b;
    } else {
      assert (a + b)[1..] == a[1..] + b && (a + b)[0] == a[0];
      HeadersAmongJoin(a[1..], b, o + |a[0]|);
      Associates([HeaderAt(a[0], o)], HeadersAmong(a[1..], o + |a[0]|), HeadersAmong(b, o + Total(a)));
    }
  }

  function Shifted(hs: seq<Header>, d: nat): seq<Header> {
    if hs == [] then [] else [Header(hs[0].start + d, hs[0].end + d, hs[0].skill)] + Shifted(hs[1..], d)
  }

  lemma ShiftedCons(h: Header, more: seq<Header>, d: nat)
    ensures Shifted([h] + more, d) == [Header(h.start + d, h.end + d, h.skill)] + Shifted(more, d)
  {
    assert ([h] + more)[1..] == more;
  }

  /** One more line in front, whether or not it is a header. */
  lemma ShiftOneLine(lines: seq<string>, o: nat, d: nat, more: seq<Header>)
    requires lines != [] && more == HeadersAmong(lines[1..], o + |lines[0]|)
    requires HeadersAmong(lines[1..], o + d + |lines[0]|) == Shifted(more, d)
    ensures HeadersAmong(lines, o + d) == Shifted(HeadersAmong(lines, o), d)
  {
    var line := lines[0];
    if IsHeader(line) {
      var h := HeaderAt(line, o);
      assert HeaderAt(line, o + d) == Header(h.start + d, h.end + d, h.skill);
      ShiftedCons(h, more, d);
    }
  }

  lemma {:induction false} HeadersShift(lines: seq<string>, o: nat, d: nat)
    ensures HeadersAmong(lines, o + d) == Shifted(HeadersAmong(lines, o), d)
  {
    if lines != [] {
      var next := o + |lines[0]|;
      HeadersShift(lines[1..], next, d);
      assert next + d == o + d + |lines[0]|;
      ShiftOneLine(lines, o, d, HeadersAmong(lines[1..], next));
    }
  }

  lemma AmongJoin(a: seq<string>, b: seq<string>, o: nat)
    ensures HeadersAmong(a + b, o) == HeadersAmong(a, o) + Shifted(HeadersAmong(b, o), Total(a))
  {
    HeadersAmongJoin(a, b, o);
    HeadersShift(b, o, Total(a));
  }

  lemma HeadersJoin(x: string, y: string)
    requires EndsLine(x)
    ensures Headers(x + y) == Headers(x) + Shifted(Headers(y), |x|)
  {
    LinesJoin(x, y);
    LinesOfWhole(x);
    AmongJoin(Lines(x), Lines(y), 0);
  }

  lemma SliceInFront(x: string, y: string, i: nat, j: nat)
    requires i <= j <= |x|
    ensures (x + y)[i..j] == x[i..j]
  {}

  lemma SliceBehind(x: string, y: string, i: nat, j: nat)
    requires i <= j <= |y|
    ensures (x + y)[|x| + i..|x| + j] == y[i..j]
  {}

  lemma {:induction false} SegmentsInFront(x: string, y: string, hx: seq<Header>, g: seq<Header>, lo: nat)
    requires Ordered(hx, lo, |x|) && Ordered(hx + g, lo, |x + y|) && Ordered(g, |x|, |x + y|) && g != []
      && g[0].start == |x|
    ensures SegmentsUnder(x + y, hx + g, lo) == SegmentsUnder(x, hx, lo) + SegmentsUnder(x + y, g, |x|)
    decreases |hx|
  {
    if hx == [] {
      assert hx + g == g;
      SameSegments(x + y, g, lo, |x|);
    } else {
      var h, t := hx[0], hx[1..];
      assert (hx + g)[1..] == t + g && (hx + g)[0] == h && (hx + g)[1] == (t + g)[0];
      assert Ordered(t, h.end, |x|);
      var end := if t != [] then t[0].start else |x|;
      assert (t + g)[0].start == end;
      SliceInFront(x, y, h.end, end);
      SegmentsInFront(x, y, t, g, h.end);
      Associates(if h.skill then [x[h.end..end]] else [], SegmentsUnder(x, t, h.end), SegmentsUnder(x + y, g, |x|));
    }
  }

  lemma SameSegments(content: string, hs: seq<Header>, lo: nat, lo': nat)
    requires Ordered(hs, lo, |content|) && Ordered(hs, lo', |content|)
    ensures SegmentsUnder(content, hs, lo) == SegmentsUnder(content, hs, lo')
  {}

  lemma {:induction false} OrderedShift(hs: seq<Header>, lo: nat, hi: nat, d: nat)
    requires Ordered(hs, lo, hi)
    ensures Ordered(Shifted(hs, d), lo + d, hi + d)
  {
    if hs != [] {
      OrderedShift(hs[1..], hs[0].end, hi, d);
      assert Shifted(hs, d)[1..] == Shifted(hs[1..], d);
    }
  }

  lemma {:induction false} SegmentsBehind(x: string, y: string, hs: seq<Header>, lo: nat)
    requires Ordered(hs, lo, |y|) && Ordered(Shifted(hs, |x|), lo + |x|, |x + y|)
    ensures SegmentsUnder(x + y, Shifted(hs, |x|), lo + |x|) == SegmentsUnder(y, hs, lo)
    decreases |hs|
  {
    if hs != [] {
      var t := hs[1..];
      assert Shifted(hs, |x|)[1..] == Shifted(t, |x|);
      assert Ordered(t, hs[0].end, |y|);
      var end := if t != [] then t[0].start else |y|;
      SliceBehind(x, y, hs[0].end, end);
      SegmentsBehind(x, y, t, hs[0].end);
    }
  }

  /** The segments of skill calls under their headers. */
  function CallSegments(content: string): seq<string> { SegmentsUnder(content, Headers(content), 0) }

  lemma SegmentsJoin(x: string, y: string)
    requires EndsLine(x) && Headers(y) != [] && Headers(y)[0].start == 0
    ensures CallSegments(x + y) == CallSegments(x) + CallSegments(y)
  {
    var hx, hy := Headers(x), Headers(y);
    HeadersJoin(x, y);
    OrderedShift(hy, 0, |y|, |x|);
    SegmentsInFront(x, y, hx, Shifted(hy, |x|), 0);
    SegmentsBehind(x, y, hy, 0);
  }

  // ----- a call's own header -----

  lemma {:induction false} TrimDigitsOf(x: string, d: string)
    requires x != "" && !IsDigit(x[|x| - 1]) && AllDigits(d)
    ensures TrimDigits(x + d) == x
  {
    if d == "" {
      assert x + d == x;
    } else {
      assert (x + d)[..|x + d| - 1] == x + d[..|d| - 1];
      TrimDigitsOf(x, d[..|d| - 1]);
    }
  }

  lemma HeaderTextIsHeader(b: Call)
    requires WellNamed(b)
    ensures IsHeaderLine(HeaderText(b)) && '\n' !in HeaderText(b)
  {
    var line, front := HeaderText(b), "=== " + b.tool + " (call ";
    assert line[|line| - 5..] == ") ===" && line[..4] == "=== ";
    assert line[..|line| - 5] == front + b.count;
    TrimDigitsOf(front, b.count);
    assert front[|front| - 7..] == " (call ";
  }

  lemma {:induction false} TrimmedAreDigits(s: string)
    ensures |TrimDigits(s)| <= |s| && TrimDigits(s) == s[..|TrimDigits(s)|] && AllDigits(s[|TrimDigits(s)|..])
  {
    if s != "" && IsDigit(s[|s| - 1]) {
      var front, t := s[..|s| - 1], TrimDigits(s);
      TrimmedAreDigits(front);
      assert s[|t|..] == front[|t|..] + [s[|s| - 1]];
      assert s[..|t|] == front[..|t|];
    }
  }

  lemma Sandwich(s: string, a: nat, b: nat, c: nat, d: nat)
    requires a <= b <= c <= d <= |s|
    ensures s == s[..a] + s[a..b] + s[b..c] + s[c..d] + s[d..]
  {}

  lemma HeaderParts(line: string) returns (b: Call)
    requires '\n' !in line && IsHeaderLine(line)
    ensures WellNamed(b) && line == HeaderText(b)
  {
    var counted := line[..|line| - 5];
    TrimmedAreDigits(counted);
    var front := TrimDigits(counted);
    var n := |front|;
    b := Call(line[4..n - 7], line[n..|line| - 5], "");
    assert counted[n..] == b.count && front == line[..n];
    assert front[n - 7..] == line[n - 7..n];
    Sandwich(line, 4, n - 7, n, |line| - 5);
  }

  /** The header pattern matches exactly the lines a batch writes in front of its calls: three equals
      signs, a name of at least one character, the number of the call, three equals signs. */
  lemma HeaderLinesExactly(line: string)
    requires '\n' !in line
    ensures IsHeaderLine(line) <==> exists b: Call :: WellNamed(b) && line == HeaderText(b)
  {
    if b: Call :| WellNamed(b) && line == HeaderText(b) { HeaderTextIsHeader(b); }
    if IsHeaderLine(line) { var b := HeaderParts(line); }
  }

  /** A call's own header comes first, then whatever headers its output holds. */
  lemma CallHeaders(b: Call)
    requires WellNamed(b)
    ensures
      var line := HeaderText(b) + "\n";
      Headers(CallText(b)) == [Header(0, |line|, At(line, "=== skill ", 0))] + Shifted(Headers(b.out), |line|)
  {
    var line := HeaderText(b) + "\n";
    HeaderTextIsHeader(b);
    assert line[..|line| - 1] == HeaderText(b);
    OneLine(line);
    HeadersJoin(line, b.out);
    assert HeadersAmong([line], 0) == [HeaderAt(line, 0)] by { assert [line][1..] == []; }
  }

  // ----- a batch is extracted call by call -----

  lemma {:induction false} EnvelopesJoin(a: seq<string>, b: seq<string>, table: string -> Entity)
    ensures EnvelopesIn(a + b, table) == EnvelopesIn(a, table) + EnvelopesIn(b, table)
  {
    if b == [] {
      assert a + b == a;
    } else {
      assert (a + b)[..|a + b| - 1] == a + b[..|b| - 1];
      EnvelopesJoin(a, b[..|b| - 1], table);
    }
  }

  lemma AtInside(content: string, sub: string, i: nat, j: nat, r: int)
    requires i <= j <= |content| && At(content[i..j], sub, r)
    ensures At(content, sub, i + r)
  {
    var part := content[i..j][r..r + |sub|];
    forall k | 0 <= k < |sub| ensures content[i + r + k] == sub[k] { assert part[k] == content[i..j][r + k]; }
    assert content[i + r..i + r + |sub|] == sub;
  }

  lemma NoMarkerInside(content: string, i: nat, j: nat)
    requires i <= j <= |content| && Index(content, START) < 0
    ensures Index(content[i..j], START) < 0
  {
    if Index(content[i..j], START) >= 0 { AtInside(content, START, i, j, Index(content[i..j], START)); }
  }

  lemma {:induction false} NoMarkerNoEnvelope(content: string, hs: seq<Header>, lo: nat, table: string -> Entity)
    requires Ordered(hs, lo, |content|) && Index(content, START) < 0
    ensures EnvelopesIn(SegmentsUnder(content, hs, lo), table) == []
    decreases |hs|
  {
    if hs != [] {
      var t := hs[1..];
      assert Ordered(t, hs[0].end, |content|) && (t != [] ==> t[0] == hs[1]);
      var seg := content[hs[0].end..if |hs| > 1 then hs[1].start else |content|];
      NoMarkerInside(content, hs[0].end, if |hs| > 1 then hs[1].start else |content|);
      NoMarkerNoEnvelope(content, t, hs[0].end, table);
      OneSegment(seg, table);
      EnvelopesJoin([seg], SegmentsUnder(content, t, hs[0].end), table);
      var none: seq<string> := [];
      assert none + SegmentsUnder(content, t, hs[0].end) == SegmentsUnder(content, t, hs[0].end);
    }
  }

  /** With a header in front, only the segments under headers count. */
  lemma ExtractFromCalls(content: string, table: string -> Entity)
    requires Headers(content) != [] && Headers(content)[0].start == 0
    ensures Extract(content, table) == EnvelopesIn(CallSegments(content), table)
  {
    if Index(content, START) < 0 {
      NoMarkerNoEnvelope(content, Headers(content), 0, table);
      OneSegment(content, table);
    }
  }

  function Extracted(calls: seq<Call>, table: string -> Entity): seq<RenderedSkill> {
    if calls == [] then [] else Extract(CallText(calls[0]), table) + Extracted(calls[1..], table)
  }

  /** Every call is named as the batch names it, and all but the last end their line. */
  predicate IsBatch(calls: seq<Call>) {
    && (forall i | 0 <= i < |calls| :: WellNamed(calls[i]))
    && (forall i | 0 <= i < |calls| - 1 :: EndsLine(calls[i].out))
  }

  lemma CallTextEndsLine(b: Call)
    requires EndsLine(b.out)
    ensures EndsLine(CallText(b))
  {}

  lemma {:induction false} BatchSegments(calls: seq<Call>, table: string -> Entity)
    requires IsBatch(calls) && calls != []
    ensures Headers(Batch(calls)) != [] && Headers(Batch(calls))[0].start == 0
    ensures EnvelopesIn(CallSegments(Batch(calls)), table) == Extracted(calls, table)
  {
    var first, rest := calls[0], calls[1..];
    assert WellNamed(first);
    CallHeaders(first);
    ExtractFromCalls(CallText(first), table);
    if rest == [] {
      assert Batch(rest) == "" && CallText(first) + "" == CallText(first);
      assert Extracted(rest, table) == [];
    } else {
      assert EndsLine(first.out);
      assert IsBatch(rest) by {
        forall i | 0 <= i < |rest| ensures WellNamed(rest[i]) { assert rest[i] == calls[i + 1]; }
        forall i | 0 <= i < |rest| - 1 ensures EndsLine(rest[i].out) { assert rest[i] == calls[i + 1]; }
      }
      BatchSegments(rest, table);
      CallTextEndsLine(first);
      JoinSegments(CallText(first), Batch(rest), table);
    }
  }

  lemma JoinSegments(x: string, y: string, table: string -> Entity)
    requires EndsLine(x) && Headers(x) != [] && Headers(x)[0].start == 0 && Headers(y) != [] && Headers(y)[0].start == 0
    ensures Headers(x + y) != [] && Headers(x + y)[0].start == 0
    ensures EnvelopesIn(CallSegments(x + y), table) ==
      EnvelopesIn(CallSegments(x), table) + EnvelopesIn(CallSegments(y), table)
  {
    HeadersJoin(x, y);
    SegmentsJoin(x, y);
    EnvelopesJoin(CallSegments(x), CallSegments(y), table);
  }

  /** What a batch's output gives is what its calls' outputs give one by one, in order. */
  lemma BatchIsCallByCall(calls: seq<Call>, table: string -> Entity)
    requires IsBatch(calls) && calls != []
    ensures Extract(Batch(calls), table) == Extracted(calls, table)
  {
    BatchSegments(calls, table);
    ExtractFromCalls(Batch(calls), table);
  }
}
