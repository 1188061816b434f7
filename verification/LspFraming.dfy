/** Message framing of the Language Server Protocol 3.17, Base Protocol, Header Part: what the
    client writes to a server's input and how it reads a server's output. */
module LspFraming {

  import opened Options
  import opened Utf8

  const CR: Byte := 13
  const NL: Byte := 10
  const COLON: Byte := 58
  const SPACE: Byte := 32
  const CRLF: seq<Byte> := [CR, NL]

  /** "Content-Length", and the same in lower case. */
  const NAME: seq<Byte> := [67, 111, 110, 116, 101, 110, 116, 45, 76, 101, 110, 103, 116, 104]
  const FOLDED: seq<Byte> := [99, 111, 110, 116, 101, 110, 116, 45, 108, 101, 110, 103, 116, 104]

  const MAX_LINE := 4096
  const MAX_HEADERS := 16384
  const MAX_FRAME := 16777216

  datatype Error = Eof | TooLong | NotCrlf | BadHeader | Duplicate | BadLength | Missing

  datatype Result<+T> = Ok(value: T, rest: seq<Byte>) | Err(error: Error)

  // ----- numbers -----

  predicate IsDigit(b: Byte) { 48 <= b <= 57 }

  function Digits(n: nat): (d: seq<Byte>)
    ensures |d| > 0 && forall i | 0 <= i < |d| :: IsDigit(d[i])
  {
    if n < 10 then [48 + n] else Digits(n / 10) + [48 + n % 10]
  }

  function Value(d: seq<Byte>): nat
    requires forall i | 0 <= i < |d| :: IsDigit(d[i])
  {
    if d == [] then 0
    else
      assert IsDigit(d[|d| - 1]);
      Value(d[..|d| - 1]) * 10 + (d[|d| - 1] as int - 48)
  }

  predicate AllDigits(d: seq<Byte>) { d != [] && forall i | 0 <= i < |d| :: IsDigit(d[i]) }

  /** An optional sign and decimal digits; `None` for anything else. */
  function Atoi(s: seq<Byte>): Option<int> {
    if AllDigits(s) then Some(Value(s))
    else if s != [] && s[0] == 43 && AllDigits(s[1..]) then Some(Value(s[1..]))
    else if s != [] && s[0] == 45 && AllDigits(s[1..]) then var v: int := Value(s[1..]); Some(-v)
    else None
  }

  lemma {:induction false} ValueOfDigits(n: nat)
    ensures Value(Digits(n)) == n
  {
    if n < 10 {
      assert Value([48 + n]) == Value([]) * 10 + n;
    } else {
      ValueOfDigits(n / 10);
      var d := Digits(n);
      assert d[..|d| - 1] == Digits(n / 10);
    }
  }

  function Pow10(k: nat): nat { if k == 0 then 1 else 10 * Pow10(k - 1) }

  lemma {:induction false} DigitsLength(n: nat, k: nat)
    requires k > 0 && n < Pow10(k)
    ensures |Digits(n)| <= k
  {
    if n >= 10 { DigitsLength(n / 10, k - 1); }
  }

  // ----- header lines -----

  // White-space characters of Unicode by their length in UTF-8.

  predicate IsSpace(b: Byte) { 9 <= b <= 13 || b == SPACE }

  predicate IsSpace2(a: Byte, b: Byte) { a == 0xC2 && (b == 0x85 || b == 0xA0) }

  predicate IsSpace3(a: Byte, b: Byte, c: Byte) {
    || (a == 0xE1 && b == 0x9A && c == 0x80)
    || (a == 0xE2 && b == 0x80 && (0x80 <= c <= 0x8A || 0xA8 <= c <= 0xA9 || c == 0xAF))
    || (a == 0xE2 && b == 0x81 && c == 0x9F)
    || (a == 0xE3 && b == 0x80 && c == 0x80)
  }

  /** The length of the white-space character a text starts with; 0 when it starts with none. */
  function SpaceInFront(s: seq<Byte>): (k: nat)
    ensures k <= |s|
  {
    if |s| >= 1 && IsSpace(s[0]) then 1
    else if |s| >= 2 && IsSpace2(s[0], s[1]) then 2
    else if |s| >= 3 && IsSpace3(s[0], s[1], s[2]) then 3
    else 0
  }

  /** And of the one it ends with. */
  function SpaceAtEnd(s: seq<Byte>): (k: nat)
    ensures k <= |s|
  {
    var n := |s|;
    if n >= 1 && IsSpace(s[n - 1]) then 1
    else if n >= 2 && IsSpace2(s[n - 2], s[n - 1]) then 2
    else if n >= 3 && IsSpace3(s[n - 3], s[n - 2], s[n - 1]) then 3
    else 0
  }

  function TrimLeft(s: seq<Byte>): seq<Byte> { if SpaceInFront(s) > 0 then TrimLeft(s[SpaceInFront(s)..]) else s }

  function TrimRight(s: seq<Byte>): seq<Byte> { if SpaceAtEnd(s) > 0 then TrimRight(s[..|s| - SpaceAtEnd(s)]) else s }

  function Lower(b: Byte): Byte { if 65 <= b <= 90 then b + 32 else b }

  predicate Folds(s: seq<Byte>, t: seq<Byte>) { |s| == |t| && forall i | 0 <= i < |s| :: Lower(s[i]) == t[i] }

  /** The first position of `b`, or the length when there is none. */
  function Find(s: seq<Byte>, b: Byte): (i: nat)
    ensures i <= |s| && (i < |s| ==> s[i] == b) && b !in s[..i]
  {
    if s == [] then 0 else if s[0] == b then 0
    else
      assert s[..Find(s[1..], b) + 1] == [s[0]] + s[1..][..Find(s[1..], b)];
      Find(s[1..], b) + 1
  }

  lemma {:induction false} FindAt(s: seq<Byte>, t: seq<Byte>, b: Byte)
    requires b !in s
    ensures Find(s + [b] + t, b) == |s|
  {
    if s != [] {
      FindAt(s[1..], t, b);
      assert (s + [b] + t)[1..] == s[1..] + [b] + t;
    }
  }

  /** The text of a header line, without its line end. */
  function Text(line: seq<Byte>): seq<Byte>
    requires |line| >= 2
  {
    line[..|line| - 2]
  }

  predicate HasName(line: seq<Byte>)
    requires |line| >= 2
  {
    0 < Find(Text(line), COLON) < |line| - 2
  }

  predicate IsLength(line: seq<Byte>)
    requires |line| >= 2 && HasName(line)
  {
    Folds(Text(line)[..Find(Text(line), COLON)], FOLDED)
  }

  function LengthIn(line: seq<Byte>): Option<int>
    requires |line| >= 2 && HasName(line)
  {
    Atoi(TrimRight(TrimLeft(Text(line)[Find(Text(line), COLON) + 1..])))
  }

  predicate InRange(n: int) { 1 <= n <= MAX_FRAME }

  datatype Parsed = Length(n: int) | Refused(error: Error)

  function ParseContentLength(line: seq<Byte>, current: int): Parsed
    requires |line| >= 2
  {
    if !HasName(line) then Refused(BadHeader)
    else if !IsLength(line) then Length(current)
    else if current >= 0 then Refused(Duplicate)
    else
      var v := LengthIn(line);
      if v.None? || !InRange(v.value) then Refused(BadLength) else Length(v.value)
  }

  predicate EndsCrlf(line: seq<Byte>) { |line| >= 2 && line[|line| - 2..] == CRLF }

  /** The header block from here on, `current` being the length seen so far. */
  function Headers(input: seq<Byte>, current: int, total: nat): Result<int>
    decreases |input|, 0
  {
    var i := Find(input, NL);
    if i == |input| then Err(Eof) else AfterLine(input[..i + 1], input[i + 1..], current, total)
  }

  /** What one header line means: the end of the block, an error, or the length seen so far. */
  function LineStep(line: seq<Byte>, current: int, total: nat): Option<Parsed> {
    if |line| > MAX_LINE || total + |line| > MAX_HEADERS then Some(Refused(TooLong))
    else if !EndsCrlf(line) then Some(Refused(NotCrlf))
    else if line == CRLF then None
    else Some(ParseContentLength(line, current))
  }

  /** The header block whose next line is `line`. */
  function AfterLine(line: seq<Byte>, rest: seq<Byte>, current: int, total: nat): Result<int>
    decreases |rest|, 2
  {
    AfterStep(LineStep(line, current, total), rest, current, total + |line|)
  }

  function AfterStep(step: Option<Parsed>, rest: seq<Byte>, current: int, total: nat): Result<int>
    decreases |rest|, 1
  {
    match step
    case None => if current < 0 then Err(Missing) else Ok(current, rest)
    case Some(Refused(e)) => Err(e)
    case Some(Length(n)) => Headers(rest, n, total)
  }

  function ReadFrame(input: seq<Byte>): Result<seq<Byte>> {
    match Headers(input, -1, 0)
    case Err(e) => Err(e)
    case Ok(n, rest) => if n < 0 || |rest| < n then Err(Eof) else Ok(rest[..n], rest[n..])
  }

  // ----- which header blocks are accepted -----

  /** A header line within its own limit: name, colon, value, and the only newline at its end. */
  predicate GoodLine(line: seq<Byte>) {
    2 < |line| <= MAX_LINE && EndsCrlf(line) && NL !in line[..|line| - 1] && HasName(line)
  }

  function Flat(lines: seq<seq<Byte>>): seq<Byte> { if lines == [] then [] else lines[0] + Flat(lines[1..]) }

  /** The lengths the block announces; 0, which is none, for one that does not parse. */
  function Lengths(lines: seq<seq<Byte>>): seq<int>
    requires forall i | 0 <= i < |lines| :: GoodLine(lines[i])
  {
    if lines == [] then []
    else
      assert GoodLine(lines[0]);
      var v := LengthIn(lines[0]);
      (if IsLength(lines[0]) then [if v.Some? then v.value else 0] else []) + Lengths(lines[1..])
  }

  predicate GoodBlock(lines: seq<seq<Byte>>, current: int, total: nat, n: int) {
    && (forall i | 0 <= i < |lines| :: GoodLine(lines[i]))
    && total + |Flat(lines)| + 2 <= MAX_HEADERS
    && (if current < 0 then Lengths(lines) == [n] && InRange(n) else Lengths(lines) == [] && n == current)
  }

  lemma LineEnds(line: seq<Byte>, rest: seq<Byte>)
    requires |line| >= 2 && line[|line| - 1] == NL && NL !in line[..|line| - 1]
    ensures Find(line + rest, NL) == |line| - 1 && (line + rest)[..|line|] == line && (line + rest)[|line|..] == rest
  {
    assert line + rest == line[..|line| - 1] + [NL] + rest;
    FindAt(line[..|line| - 1], rest, NL);
  }

  lemma HeadersLine(line: seq<Byte>, rest: seq<Byte>, current: int, total: nat)
    requires |line| >= 2 && line[|line| - 1] == NL && NL !in line[..|line| - 1]
    ensures Headers(line + rest, current, total) == AfterLine(line, rest, current, total)
  {
    LineEnds(line, rest);
  }

  lemma {:induction false} GoodBlockAccepted(lines: seq<seq<Byte>>, rest: seq<Byte>, current: int, total: nat, n: int)
    requires GoodBlock(lines, current, total, n)
    ensures Headers(Flat(lines) + CRLF + rest, current, total) == Ok(n, rest)
  {
    if lines == [] {
      assert Flat(lines) + CRLF + rest == CRLF + rest;
      HeadersLine(CRLF, rest, current, total);
    } else {
      var line, tail := lines[0], Flat(lines[1..]) + CRLF + rest;
      assert GoodLine(line) && Flat(lines) + CRLF + rest == line + tail;
      HeadersLine(line, tail, current, total);
      BlockTail(lines, current, total, n);
      GoodBlockAccepted(lines[1..], rest, NextLength(line, current), total + |line|, n);
    }
  }

  function NextLength(line: seq<Byte>, current: int): int
    requires |line| >= 2
  {
    var p := ParseContentLength(line, current);
    if p.Length? then p.n else -1
  }

  lemma BlockTail(lines: seq<seq<Byte>>, current: int, total: nat, n: int)
    requires lines != [] && GoodBlock(lines, current, total, n)
    ensures ParseContentLength(lines[0], current).Length?
    ensures GoodBlock(lines[1..], NextLength(lines[0], current), total + |lines[0]|, n)
  {
    assert GoodLine(lines[0]);
    assert Flat(lines) == lines[0] + Flat(lines[1..]);
    var more := Lengths(lines[1..]);
    if IsLength(lines[0]) {
      assert Lengths(lines)[0] == n && Lengths(lines)[1..] == more;
    } else {
      assert Lengths(lines) == more;
    }
  }

  lemma BlockCons(line: seq<Byte>, lines: seq<seq<Byte>>, current: int, total: nat, n: int)
    requires GoodLine(line) && ParseContentLength(line, current).Length?
    requires GoodBlock(lines, NextLength(line, current), total + |line|, n)
    ensures GoodBlock([line] + lines, current, total, n)
  {
    var longer := [line] + lines;
    assert longer[1..] == lines;
    assert forall i | 0 <= i < |longer| :: GoodLine(longer[i]);
  }

  lemma FlatCons(line: seq<Byte>, lines: seq<seq<Byte>>, rest: seq<Byte>)
    ensures Flat([line] + lines) + CRLF + rest == line + (Flat(lines) + CRLF + rest)
  {
    assert ([line] + lines)[1..] == lines;
  }

  lemma FirstLine(input: seq<Byte>) returns (line: seq<Byte>, tail: seq<Byte>)
    requires Find(input, NL) < |input|
    ensures input == line + tail && line == input[..Find(input, NL) + 1] && tail == input[Find(input, NL) + 1..]
    ensures |line| > 0 && NL !in line[..|line| - 1]
  {
    var i := Find(input, NL);
    line, tail := input[..i + 1], input[i + 1..];
    assert line[..|line| - 1] == input[..i];
  }

  lemma {:induction false} AcceptedIsGoodBlock(input: seq<Byte>, current: int, total: nat, n: int, rest: seq<Byte>)
    returns (lines: seq<seq<Byte>>)
    requires Headers(input, current, total) == Ok(n, rest)
    ensures GoodBlock(lines, current, total, n) && input == Flat(lines) + CRLF + rest
    decreases |input|
  {
    var line, tail := FirstLine(input);
    assert AfterLine(line, tail, current, total) == Ok(n, rest);
    if line == CRLF {
      lines := [];
    } else {
      var next := ParseContentLength(line, current).n;
      var more := AcceptedIsGoodBlock(tail, next, total + |line|, n, rest);
      lines := [line] + more;
      BlockCons(line, more, current, total, n);
      FlatCons(line, more, rest);
    }
  }

  ghost predicate HasGoodBlock(input: seq<Byte>, n: int, rest: seq<Byte>) {
    exists lines :: GoodBlock(lines, -1, 0, n) && input == Flat(lines) + CRLF + rest
  }

  /** Exactly the header blocks that keep the limits and announce one length, in range, are
      accepted, and the length is the announced one. */
  lemma AcceptsExactlyGoodBlocks(input: seq<Byte>, n: int, rest: seq<Byte>)
    ensures Headers(input, -1, 0) == Ok(n, rest) <==> HasGoodBlock(input, n, rest)
    ensures Headers(input, -1, 0) == Ok(n, rest) ==> InRange(n)
  {
    if Headers(input, -1, 0) == Ok(n, rest) {
      var lines := AcceptedIsGoodBlock(input, -1, 0, n, rest);
    }
    if HasGoodBlock(input, n, rest) {
      var lines :| GoodBlock(lines, -1, 0, n) && input == Flat(lines) + CRLF + rest;
      GoodBlockAccepted(lines, rest, -1, 0, n);
    }
  }

  // ----- round trip -----

  function LengthLine(n: nat): seq<Byte> { NAME + [COLON, SPACE] + Digits(n) + CRLF }

  function Frame(body: seq<Byte>): seq<Byte> { LengthLine(|body|) + CRLF + body }

  lemma DigitsHaveNoSpace(d: seq<Byte>)
    requires AllDigits(d)
    ensures SpaceInFront(d) == 0 && SpaceAtEnd(d) == 0
  {
    assert IsDigit(d[0]) && IsDigit(d[|d| - 1]);
    assert |d| >= 2 ==> IsDigit(d[|d| - 2]);
    assert |d| >= 3 ==> IsDigit(d[|d| - 3]);
  }

  lemma TrimmedDigits(s: seq<Byte>, d: seq<Byte>)
    requires s == [SPACE] + d && AllDigits(d)
    ensures TrimRight(TrimLeft(s)) == d
  {
    assert SpaceInFront(s) == 1;
    assert s[1..] == d;
    DigitsHaveNoSpace(d);
    assert TrimLeft(d) == d;
  }

  lemma NameHasNoColon()
    ensures COLON !in NAME && NL !in NAME && Folds(NAME, FOLDED)
  {}

  lemma LengthLineShape(n: nat)
    ensures
      var line := LengthLine(n);
      && |line| == |Digits(n)| + 18 && EndsCrlf(line) && NL !in line[..|line| - 1]
      && Text(line) == NAME + [COLON] + ([SPACE] + Digits(n))
  {
    var line, d := LengthLine(n), Digits(n);
    NameHasNoColon();
    assert line[..|line| - 1] == NAME + [COLON, SPACE] + d + [CR];
  }

  lemma LengthLineReads(line: seq<Byte>, value: seq<Byte>, n: nat)
    requires |line| >= 2 && value == [SPACE] + Digits(n) && Text(line) == NAME + [COLON] + value
    ensures HasName(line) && IsLength(line) && LengthIn(line) == Some(n)
  {
    NameHasNoColon();
    FindAt(NAME, value, COLON);
    assert Text(line)[..|NAME|] == NAME && Text(line)[|NAME| + 1..] == value;
    TrimmedDigits(value, Digits(n));
    ValueOfDigits(n);
  }

  lemma LengthLineParts(n: nat)
    ensures
      var line := LengthLine(n);
      && |line| == |Digits(n)| + 18 && EndsCrlf(line) && NL !in line[..|line| - 1]
      && HasName(line) && IsLength(line) && LengthIn(line) == Some(n)
  {
    LengthLineShape(n);
    LengthLineReads(LengthLine(n), [SPACE] + Digits(n), n);
  }

  lemma InRangeIsShort(n: nat)
    requires n <= MAX_FRAME
    ensures |Digits(n)| <= 8
  {
    var k: nat := 8;
    assert Pow10(k) == 100 * Pow10(k - 2) && Pow10(k - 2) == 100 * Pow10(k - 4) && Pow10(k - 4) == 100 * Pow10(k - 6)
      && Pow10(k - 6) == 100 * Pow10(k - 8);
    DigitsLength(n, k);
  }

  /** What is read back is the body, whatever follows it, exactly for bodies of 1 byte to 16 MiB. */
  lemma FrameRoundTrip(body: seq<Byte>, rest: seq<Byte>)
    ensures ReadFrame(Frame(body) + rest) == Ok(body, rest) <==> InRange(|body|)
  {
    var line, tail := LengthLine(|body|), CRLF + (body + rest);
    LengthLineParts(|body|);
    assert Frame(body) + rest == line + tail;
    HeadersLine(line, tail, -1, 0);
    if InRange(|body|) {
      InRangeIsShort(|body|);
      HeadersLine(CRLF, body + rest, |body|, |line|);
      assert (body + rest)[..|body|] == body && (body + rest)[|body|..] == rest;
    }
  }

  function Frames(bodies: seq<seq<Byte>>): seq<Byte> {
    if bodies == [] then [] else Frame(bodies[0]) + Frames(bodies[1..])
  }

  /** The read loop: frames until the first that cannot be read. */
  function ReadAll(input: seq<Byte>): seq<seq<Byte>>
    decreases |input|
  {
    match ReadFrame(input)
    case Err(_) => []
    case Ok(body, rest) => if |rest| < |input| then [body] + ReadAll(rest) else []
  }

  /** Reading written frames gives their bodies back, in order and complete. */
  lemma {:induction false} FramesRoundTrip(bodies: seq<seq<Byte>>)
    requires forall i | 0 <= i < |bodies| :: InRange(|bodies[i]|)
    ensures ReadAll(Frames(bodies)) == bodies
  {
    if bodies == [] {
      assert ReadFrame([]).Err?;
    } else {
      FrameRoundTrip(bodies[0], Frames(bodies[1..]));
      FramesRoundTrip(bodies[1..]);
    }
  }

  // ----- the connection's two ends -----

  /** A buffered reader: what is still to come. */
  class Reader {
    var rest: seq<Byte>

    /** Reads up to and including the next newline. */
    method ReadLine() returns (line: Option<seq<Byte>>)
      modifies this
      ensures Find(old(rest), NL) == |old(rest)| <==> line.None?
      ensures line.Some? ==> line.value == old(rest)[..Find(old(rest), NL) + 1]
      ensures line.Some? ==> rest == old(rest)[Find(old(rest), NL) + 1..]
    {
      var i := 0;
      while i < |rest| && rest[i] != NL
        invariant 0 <= i <= |rest| && Find(rest, NL) == i + Find(rest[i..], NL)
      {
        assert rest[i..][1..] == rest[i + 1..];
        i := i + 1;
      }
      if i == |rest| { return None; }
      line := Some(rest[..i + 1]);
      rest := rest[i + 1..];
    }

    /** Reads one header line; a missing one is an error too. */
    method ReadHeader(current: int, total: nat) returns (step: Option<Parsed>, total': nat)
      modifies this
      ensures Headers(old(rest), current, total) == AfterStep(step, rest, current, total')
      ensures step.Some? && step.value.Length? ==> |rest| < |old(rest)|
    {
      var line := ReadLine();
      if line.None? { return Some(Refused(Eof)), total; }
      step, total' := LineStep(line.value, current, total), total + |line.value|;
    }

    method ReadHeaders() returns (length: int, err: Option<Error>)
      modifies this
      ensures match Headers(old(rest), -1, 0)
        case Ok(n, left) => err.None? && length == n && rest == left
        case Err(e) => err == Some(e)
    {
      var total: nat := 0;
      length, err := -1, None;
      ghost var answer := Headers(rest, length, total);
      while true
        invariant answer == Headers(rest, length, total)
        decreases |rest|
      {
        var step;
        step, total := ReadHeader(length, total);
        if step.None? { return length, if length < 0 then Some(Missing) else None; }
        if step.value.Refused? { return length, Some(step.value.error); }
        length := step.value.n;
      }
    }

    method ReadBody() returns (body: Option<seq<Byte>>, err: Option<Error>)
      modifies this
      ensures match ReadFrame(old(rest))
        case Ok(b, left) => body == Some(b) && rest == left
        case Err(e) => body.None? && err == Some(e)
    {
      ghost var before := rest;
      var length, failed := ReadHeaders();
      if failed.Some? { return None, failed; }
      AcceptsExactlyGoodBlocks(before, length, rest);
      if |rest| < length { return None, Some(Eof); }
      body, err := Some(rest[..length]), None;
      rest := rest[length..];
    }
  }

  /** What the pipe does with one write: it takes some bytes, and may report failure. */
  datatype Write = Takes(n: nat) | Fails(n: nat)

  class Pipe {
    var out: seq<Byte>

    /** Writes until everything is taken, however the pipe splits it; a write that takes nothing
        or fails ends it with a prefix written. */
    method WriteAll(data: seq<Byte>, writes: seq<Write>) returns (ok: bool, left: seq<Write>)
      modifies this
      ensures ok ==> out == old(out) + data
      ensures !ok ==> exists k: nat :: k <= |data| && out == old(out) + data[..k]
    {
      var done: nat := 0;
      left := writes;
      while done < |data|
        invariant done <= |data| && out == old(out) + data[..done]
      {
        var w := if left == [] then Fails(0) else left[0];
        var taken := if w.n < |data| - done then w.n else |data| - done;
        assert data[..done] + data[done..done + taken] == data[..done + taken];
        out := out + data[done..done + taken];
        done := done + taken;
        left := if left == [] then [] else left[1..];
        if w.Fails? || taken == 0 { return false, left; }
      }
      assert data[..done] == data;
      ok := true;
    }

    /** One whole frame, or a prefix of one after a failed write. */
    method WriteFrame(body: seq<Byte>, writes: seq<Write>) returns (ok: bool)
      modifies this
      ensures ok ==> out == old(out) + Frame(body)
      ensures !ok ==> exists k: nat :: k <= |Frame(body)| && out == old(out) + Frame(body)[..k]
    {
      var header := LengthLine(|body|) + CRLF;
      var left;
      ok, left := WriteAll(header, writes);
      if !ok {
        ghost var k: nat :| k <= |header| && out == old(out) + header[..k];
        assert header[..k] == Frame(body)[..k];
        return;
      }
      ok, left := WriteAll(body, left);
      if ok {
        assert old(out) + header + body == old(out) + Frame(body);
      } else {
        ghost var k: nat :| k <= |body| && out == old(out) + header + body[..k];
        assert header + body[..k] == Frame(body)[..|header| + k];
        assert out == old(out) + Frame(body)[..|header| + k];
      }
    }
  }
}
