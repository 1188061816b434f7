/** Which header blocks of the Language Server Protocol the client accepts, in the protocol's own
    characters: field names up to case, white space of Unicode around the value, signed decimals. */
module LspHeaders {

  import opened LspFraming
  import opened Options
  import opened Utf8

  // ----- white space -----

  /** The characters Unicode calls white space. */
  predicate White(c: int) {
    9 <= c <= 13 || c == 0x20 || c == 0x85 || c == 0xA0 || c == 0x1680 || 0x2000 <= c <= 0x200A
    || c == 0x2028 || c == 0x2029 || c == 0x202F || c == 0x205F || c == 0x3000
  }

  predicate AllWhite(cs: seq<int>) { forall i | 0 <= i < |cs| :: White(cs[i]) }

  function Spaces(cs: seq<int>): seq<Byte>
    requires AllWhite(cs)
  {
    assert forall i | 0 <= i < |cs| :: White(cs[i]) && Scalar(cs[i]);
    EncodeAll(cs)
  }

  /** A white-space character in front is found with its whole length. */
  lemma WhiteInFront(c: int, rest: seq<Byte>)
    requires White(c)
    ensures SpaceInFront(Encode(c) + rest) == |Encode(c)|
  {}

  lemma WhiteAtEnd(front: seq<Byte>, c: int)
    requires White(c)
    ensures SpaceAtEnd(front + Encode(c)) == |Encode(c)|
  {
    var s := front + Encode(c);
    assert s[|s| - |Encode(c)|..] == Encode(c);
  }

  lemma Two85(a: Byte, b: Byte) returns (c: int)
    requires IsSpace2(a, b)
    ensures White(c) && Encode(c) == [a, b]
  {
    c := b;
  }

  lemma Three80(a: Byte, b: Byte, d: Byte) returns (c: int)
    requires IsSpace3(a, b, d)
    ensures White(c) && Encode(c) == [a, b, d]
  {
    c := (a - 0xE0) * 4096 + (b - 0x80) * 64 + (d - 0x80);
  }

  lemma FrontIsWhite(s: seq<Byte>) returns (c: int)
    requires SpaceInFront(s) > 0
    ensures White(c) && Encode(c) == s[..SpaceInFront(s)]
  {
    var k := SpaceInFront(s);
    if k == 1 { c := s[0]; }
    else if k == 2 { c := Two85(s[0], s[1]); }
    else { c := Three80(s[0], s[1], s[2]); }
  }

  lemma EndIsWhite(s: seq<Byte>) returns (c: int)
    requires SpaceAtEnd(s) > 0
    ensures White(c) && Encode(c) == s[|s| - SpaceAtEnd(s)..]
  {
    var k, n := SpaceAtEnd(s), |s|;
    if k == 1 { c := s[n - 1]; }
    else if k == 2 { c := Two85(s[n - 2], s[n - 1]); }
    else { c := Three80(s[n - 3], s[n - 2], s[n - 1]); }
  }

  lemma SpacesCons(c: int, cs: seq<int>)
    requires White(c) && AllWhite(cs)
    ensures AllWhite([c] + cs) && Spaces([c] + cs) == Encode(c) + Spaces(cs)
  {
    assert ([c] + cs)[1..] == cs;
  }

  lemma {:induction false} SpacesSnoc(cs: seq<int>, c: int)
    requires White(c) && AllWhite(cs)
    ensures AllWhite(cs + [c]) && Spaces(cs + [c]) == Spaces(cs) + Encode(c)
  {
    if cs == [] {
      assert cs + [c] == [c] + cs;
      SpacesCons(c, cs);
    } else {
      SpacesSnoc(cs[1..], c);
      assert cs + [c] == [cs[0]] + (cs[1..] + [c]) && cs == [cs[0]] + cs[1..];
      SpacesCons(cs[0], cs[1..] + [c]);
      SpacesCons(cs[0], cs[1..]);
    }
  }

  lemma FrontCons(s: seq<Byte>, k: nat, c: int, cs: seq<int>, rest: seq<Byte>)
    requires White(c) && AllWhite(cs) && k <= |s| && s[..k] == Encode(c) && s[k..] == Spaces(cs) + rest
    ensures AllWhite([c] + cs) && s == Spaces([c] + cs) + rest
  {
    SpacesCons(c, cs);
    assert s == s[..k] + s[k..];
  }

  /** What trimming in front takes away is white space, and no white space is left there. */
  lemma {:induction false} TrimLeftTakesSpaces(s: seq<Byte>) returns (front: seq<int>)
    ensures AllWhite(front) && s == Spaces(front) + TrimLeft(s) && SpaceInFront(TrimLeft(s)) == 0
    decreases |s|
  {
    var k := SpaceInFront(s);
    if k == 0 {
      front := [];
    } else {
      var c := FrontIsWhite(s);
      var more := TrimLeftTakesSpaces(s[k..]);
      front := [c] + more;
      FrontCons(s, k, c, more, TrimLeft(s[k..]));
    }
  }

  lemma BackSnoc(s: seq<Byte>, k: nat, rest: seq<Byte>, cs: seq<int>, c: int)
    requires White(c) && AllWhite(cs) && k <= |s| && s[|s| - k..] == Encode(c) && s[..|s| - k] == rest + Spaces(cs)
    ensures AllWhite(cs + [c]) && s == rest + Spaces(cs + [c])
  {
    SpacesSnoc(cs, c);
    assert s == s[..|s| - k] + s[|s| - k..];
  }

  lemma {:induction false} TrimRightTakesSpaces(s: seq<Byte>) returns (back: seq<int>)
    ensures AllWhite(back) && s == TrimRight(s) + Spaces(back) && SpaceAtEnd(TrimRight(s)) == 0
    decreases |s|
  {
    var k := SpaceAtEnd(s);
    if k == 0 {
      back := [];
    } else {
      var c := EndIsWhite(s);
      var more := TrimRightTakesSpaces(s[..|s| - k]);
      back := more + [c];
      BackSnoc(s, k, TrimRight(s[..|s| - k]), more, c);
    }
  }

  lemma {:induction false} TrimLeftStops(front: seq<int>, s: seq<Byte>)
    requires AllWhite(front) && SpaceInFront(s) == 0
    ensures TrimLeft(Spaces(front) + s) == s
  {
    if front == [] {
      assert Spaces(front) + s == s;
    } else {
      var c, more := front[0], front[1..];
      assert front == [c] + more;
      SpacesCons(c, more);
      var rest := Spaces(more) + s;
      assert Spaces(front) + s == Encode(c) + rest;
      WhiteInFront(c, rest);
      assert (Encode(c) + rest)[|Encode(c)|..] == rest;
      TrimLeftStops(more, s);
    }
  }

  lemma {:induction false} TrimRightStops(s: seq<Byte>, back: seq<int>)
    requires AllWhite(back) && SpaceAtEnd(s) == 0
    ensures TrimRight(s + Spaces(back)) == s
  {
    if back == [] {
      assert s + Spaces(back) == s;
    } else {
      var more, c := back[..|back| - 1], back[|back| - 1];
      assert back == more + [c];
      SpacesSnoc(more, c);
      var rest := s + Spaces(more);
      assert s + Spaces(back) == rest + Encode(c);
      WhiteAtEnd(rest, c);
      assert (rest + Encode(c))[..|rest|] == rest;
      TrimRightStops(s, more);
    }
  }

  // ----- numbers -----

  function Zeros(k: nat): seq<Byte> { if k == 0 then [] else [48] + Zeros(k - 1) }

  /** "", "+" or "-", and what it makes of a number. */
  predicate Signs(sign: seq<Byte>, n: int, v: int) {
    (sign == [] && v == n) || (sign == [43] && v == n) || (sign == [45] && v == -n)
  }

  /** A decimal with an optional sign and leading zeros. */
  ghost predicate Numeral(t: seq<Byte>, v: int) {
    exists sign: seq<Byte>, k: nat, n: nat :: Signs(sign, n, v) && t == sign + (Zeros(k) + Digits(n))
  }

  lemma {:induction false} ZerosAreDigits(k: nat, d: seq<Byte>, s: seq<Byte>, n: nat)
    requires AllDigits(d) && Value(d) == n && s == Zeros(k) + d
    ensures AllDigits(s) && Value(s) == n
  {
    if k == 0 {
      assert s == d;
    } else {
      ZerosAreDigits(k - 1, d, s[1..], n);
      assert s == [48] + s[1..];
      ZeroInFront(s[1..]);
    }
  }

  lemma {:induction false} ZeroInFront(s: seq<Byte>)
    requires AllDigits(s)
    ensures AllDigits([48] + s) && Value([48] + s) == Value(s)
  {
    var z := [48] + s;
    assert forall i | 0 <= i < |z| :: IsDigit(z[i]);
    assert z[..|z| - 1] == [48] + s[..|s| - 1];
    if |s| > 1 {
      ZeroInFront(s[..|s| - 1]);
    } else {
      assert z[..|z| - 1] == [48] && s[..|s| - 1] == [];
      assert Value([48]) == 0;
    }
  }

  /** Every row of digits is zeros and the digits of its value. */
  lemma {:induction false} DigitsOfValue(d: seq<Byte>) returns (k: nat)
    requires AllDigits(d)
    ensures d == Zeros(k) + Digits(Value(d))
  {
    var front, last := d[..|d| - 1], d[|d| - 1];
    assert IsDigit(last) && d == front + [last];
    if front == [] {
      k := 0;
      assert Value(d) == last - 48;
    } else {
      var j := DigitsOfValue(front);
      var n := Value(front);
      assert Value(d) == n * 10 + (last - 48);
      if n == 0 {
        k := j + 1;
        ZerosSnoc(j);
        assert Digits(n) == [48];
        assert Digits(Value(d)) == [last];
      } else {
        k := j;
        assert Value(d) / 10 == n && Value(d) % 10 == last - 48;
        assert Digits(Value(d)) == Digits(n) + [last];
      }
    }
  }

  lemma {:induction false} ZerosSnoc(k: nat)
    ensures Zeros(k) + [48] == Zeros(k + 1)
  {
    if k > 0 { ZerosSnoc(k - 1); }
  }

  lemma NumeralReads(t: seq<Byte>, v: int)
    requires Numeral(t, v)
    ensures Atoi(t) == Some(v)
  {
    var sign: seq<Byte>, k: nat, n: nat :| Signs(sign, n, v) && t == sign + (Zeros(k) + Digits(n));
    ValueOfDigits(n);
    ZerosAreDigits(k, Digits(n), Zeros(k) + Digits(n), n);
    SignedReads(sign, Zeros(k) + Digits(n), v);
  }

  lemma SignedReads(sign: seq<Byte>, d: seq<Byte>, v: int)
    requires AllDigits(d) && Signs(sign, Value(d), v)
    ensures Atoi(sign + d) == Some(v)
  {
    var t := sign + d;
    if sign == [] {
      assert t == d;
    } else {
      assert t[0] == sign[0] && t[1..] == d && !IsDigit(t[0]);
    }
  }

  lemma ReadsNumeral(t: seq<Byte>, v: int)
    requires Atoi(t) == Some(v)
    ensures Numeral(t, v)
  {
    var sign: seq<Byte> := if AllDigits(t) then [] else [t[0]];
    var d := t[|sign|..];
    var k := DigitsOfValue(d);
    assert Signs(sign, Value(d), v) && t == sign + (Zeros(k) + Digits(Value(d)));
  }

  /** A numeral starts and ends with no white space, whatever stands next to it. */
  lemma NumeralIsBare(t: seq<Byte>, v: int, more: seq<Byte>)
    requires Atoi(t) == Some(v)
    ensures SpaceInFront(t + more) == 0 && SpaceAtEnd(t) == 0
  {
    var n := |t|;
    assert (t + more)[0] == t[0];
    if AllDigits(t) {
      assert IsDigit(t[0]);
      DigitsHaveNoSpace(t);
    } else {
      assert IsDigit(t[1..][n - 2]);
      assert n >= 3 ==> IsDigit(t[1..][n - 3]);
    }
  }

  /** The value between white space of Unicode, on both sides as much as there is. */
  ghost predicate Spaced(value: seq<Byte>, v: int) {
    exists front: seq<int>, t: seq<Byte>, back: seq<int> ::
      AllWhite(front) && AllWhite(back) && Numeral(t, v) && value == Spaces(front) + (t + Spaces(back))
  }

  /** Trimming and reading a value gives a number exactly when that number stands between spaces. */
  lemma ReadsExactlySpaced(value: seq<Byte>, v: int)
    ensures Atoi(TrimRight(TrimLeft(value))) == Some(v) <==> Spaced(value, v)
  {
    if Atoi(TrimRight(TrimLeft(value))) == Some(v) {
      var front := TrimLeftTakesSpaces(value);
      var back := TrimRightTakesSpaces(TrimLeft(value));
      var t := TrimRight(TrimLeft(value));
      ReadsNumeral(t, v);
      assert value == Spaces(front) + (t + Spaces(back));
    }
    if Spaced(value, v) {
      var front: seq<int>, t: seq<Byte>, back: seq<int> :|
        AllWhite(front) && AllWhite(back) && Numeral(t, v) && value == Spaces(front) + (t + Spaces(back));
      NumeralReads(t, v);
      NumeralIsBare(t, v, Spaces(back));
      TrimLeftStops(front, t + Spaces(back));
      TrimRightStops(t, back);
    }
  }

  // ----- header lines -----

  predicate UpToCase(b: Byte, c: char) {
    b == c as int || ('A' <= c <= 'Z' && b == c as int + 32) || ('a' <= c <= 'z' && b == c as int - 32)
  }

  predicate IsName(s: seq<Byte>) {
    var name := "Content-Length";
    |s| == |name| && forall i | 0 <= i < |name| :: UpToCase(s[i], name[i])
  }

  lemma FoldsExactlyName(s: seq<Byte>)
    ensures Folds(s, FOLDED) <==> IsName(s)
  {
    var name := "Content-Length";
    assert |name| == 14 == |FOLDED|;
    if |s| == 14 {
      forall i | 0 <= i < 14 ensures Lower(s[i]) == FOLDED[i] <==> UpToCase(s[i], name[i]) {}
    }
  }

  /** A field: a name that is not empty, up to the first colon, a value, and the line end. */
  predicate FieldOf(line: seq<Byte>, name: seq<Byte>, value: seq<Byte>) {
    line == name + [58] + value + [13, 10] && name != [] && 58 !in name
  }

  ghost predicate IsField(line: seq<Byte>) { exists name, value :: FieldOf(line, name, value) }

  ghost predicate NamesLength(line: seq<Byte>) { exists name, value :: FieldOf(line, name, value) && IsName(name) }

  ghost predicate Announces(line: seq<Byte>, v: int) {
    exists name, value :: FieldOf(line, name, value) && IsName(name) && Spaced(value, v)
  }

  lemma FieldParts(line: seq<Byte>, name: seq<Byte>, value: seq<Byte>)
    requires FieldOf(line, name, value)
    ensures EndsCrlf(line) && HasName(line)
    ensures Text(line)[..Find(Text(line), COLON)] == name && Text(line)[Find(Text(line), COLON) + 1..] == value
  {
    assert Text(line) == name + [58] + value;
    FindAt(name, value, COLON);
  }

  lemma NamedIsField(line: seq<Byte>)
    requires EndsCrlf(line) && HasName(line)
    ensures FieldOf(line, Text(line)[..Find(Text(line), COLON)], Text(line)[Find(Text(line), COLON) + 1..])
  {
    var text, i := Text(line), Find(Text(line), COLON);
    assert text == text[..i] + [58] + text[i + 1..] && line == text + [13, 10];
  }

  /** The parser's view of a line and the protocol's are the same. */
  lemma FieldExactly(line: seq<Byte>, v: int)
    requires EndsCrlf(line)
    ensures HasName(line) <==> IsField(line)
    ensures HasName(line) ==> (IsLength(line) <==> NamesLength(line))
    ensures HasName(line) ==> (IsLength(line) && LengthIn(line) == Some(v) <==> Announces(line, v))
  {
    if HasName(line) {
      var name, value := Text(line)[..Find(Text(line), COLON)], Text(line)[Find(Text(line), COLON) + 1..];
      NamedIsField(line);
      FoldsExactlyName(name);
      ReadsExactlySpaced(value, v);
      forall n, w | FieldOf(line, n, w) ensures n == name && w == value { FieldParts(line, n, w); }
    }
    if IsField(line) {
      var name, value :| FieldOf(line, name, value);
      FieldParts(line, name, value);
    }
  }

  // ----- header blocks -----

  ghost predicate HeaderLine(line: seq<Byte>) {
    |line| <= 4096 && IsField(line) && 10 !in line[..|line| - 1]
  }

  /** One line announces the length, and no other line is about it. */
  ghost predicate OneAnnounces(lines: seq<seq<Byte>>, i: nat, n: int) {
    && i < |lines| && Announces(lines[i], n)
    && forall j | 0 <= j < |lines| && j != i :: !NamesLength(lines[j])
  }

  ghost predicate IsBlock(lines: seq<seq<Byte>>, n: int) {
    && (forall j | 0 <= j < |lines| :: HeaderLine(lines[j]))
    && |Flat(lines)| + 2 <= 16384 && 1 <= n <= 16777216
    && exists i: nat :: OneAnnounces(lines, i, n)
  }

  lemma GoodLineExactly(line: seq<Byte>)
    ensures GoodLine(line) <==> HeaderLine(line)
  {
    if IsField(line) {
      var name, value :| FieldOf(line, name, value);
      FieldParts(line, name, value);
    }
    if EndsCrlf(line) { FieldExactly(line, 0); }
  }

  lemma {:induction false} NoLengths(lines: seq<seq<Byte>>)
    requires forall j | 0 <= j < |lines| :: GoodLine(lines[j])
    ensures Lengths(lines) == [] <==> forall j | 0 <= j < |lines| :: !NamesLength(lines[j])
  {
    if lines != [] {
      var rest := lines[1..];
      assert GoodLine(lines[0]) && forall j | 0 <= j < |rest| :: GoodLine(rest[j]);
      FieldExactly(lines[0], 0);
      NoLengths(rest);
      assert forall j | 0 < j < |lines| :: lines[j] == rest[j - 1];
      assert forall j | 0 <= j < |rest| :: rest[j] == lines[j + 1];
    }
  }

  lemma FirstAnnounced(lines: seq<seq<Byte>>, n: int)
    requires (forall j | 0 <= j < |lines| :: GoodLine(lines[j])) && n != 0
    requires lines != [] && GoodLine(lines[0]) && IsLength(lines[0])
    ensures Lengths(lines) == [n] <==> LengthIn(lines[0]) == Some(n) && Lengths(lines[1..]) == []
  {
    var v := LengthIn(lines[0]);
    var head, more := [if v.Some? then v.value else 0], Lengths(lines[1..]);
    assert Lengths(lines) == head + more;
    if head + more == [n] {
      assert (head + more)[0] == head[0] && |head + more| == 1 + |more|;
    }
  }

  lemma {:induction false} OneLength(lines: seq<seq<Byte>>, n: int)
    requires (forall j | 0 <= j < |lines| :: GoodLine(lines[j])) && n != 0
    ensures Lengths(lines) == [n] <==> exists i: nat :: OneAnnounces(lines, i, n)
  {
    if lines != [] {
      var rest := lines[1..];
      assert GoodLine(lines[0]) && forall j | 0 <= j < |rest| :: GoodLine(rest[j]);
      FieldExactly(lines[0], n);
      OneLength(rest, n);
      NoLengths(rest);
      if IsLength(lines[0]) {
        FirstAnnounced(lines, n);
        OnlyFirst(lines, n);
      } else {
        assert Lengths(lines) == Lengths(rest);
        NotFirst(lines, n);
      }
    }
  }

  lemma OnlyFirst(lines: seq<seq<Byte>>, n: int)
    requires lines != [] && NamesLength(lines[0])
    ensures (exists i: nat :: OneAnnounces(lines, i, n)) <==>
      Announces(lines[0], n) && forall j | 0 <= j < |lines[1..]| :: !NamesLength(lines[1..][j])
  {
    var rest := lines[1..];
    assert forall j | 0 < j < |lines| :: lines[j] == rest[j - 1];
    assert forall j | 0 <= j < |rest| :: rest[j] == lines[j + 1];
    if Announces(lines[0], n) && forall j | 0 <= j < |rest| :: !NamesLength(rest[j]) {
      assert OneAnnounces(lines, 0, n);
    }
  }

  lemma NotFirst(lines: seq<seq<Byte>>, n: int)
    requires lines != [] && !NamesLength(lines[0])
    ensures (exists i: nat :: OneAnnounces(lines, i, n)) <==> exists i: nat :: OneAnnounces(lines[1..], i, n)
  {
    var rest := lines[1..];
    if i: nat :| OneAnnounces(rest, i, n) { assert OneAnnounces(lines, i + 1, n); }
    if i: nat :| OneAnnounces(lines, i, n) {
      assert Announces(lines[i], n) ==> NamesLength(lines[i]);
      assert OneAnnounces(rest, i - 1, n);
    }
  }

  ghost predicate Accepted(input: seq<Byte>, n: int, rest: seq<Byte>) {
    exists lines :: IsBlock(lines, n) && input == Flat(lines) + [13, 10] + rest
  }

  lemma BlockExactly(lines: seq<seq<Byte>>, n: int)
    ensures GoodBlock(lines, -1, 0, n) <==> IsBlock(lines, n)
  {
    forall j | 0 <= j < |lines| ensures GoodLine(lines[j]) <==> HeaderLine(lines[j]) { GoodLineExactly(lines[j]); }
    if (forall j | 0 <= j < |lines| :: GoodLine(lines[j])) && InRange(n) { OneLength(lines, n); }
  }

  /** The client accepts a header block, and reads `n` from it, exactly when the block is header
      fields of at most 4096 bytes each and 16384 together, one of them called Content-Length in any
      case, whose value is `n` between white space, from 1 to 16 MiB, and the empty line. */
  lemma AcceptsExactly(input: seq<Byte>, n: int, rest: seq<Byte>)
    ensures Headers(input, -1, 0) == Ok(n, rest) <==> Accepted(input, n, rest)
  {
    AcceptsExactlyGoodBlocks(input, n, rest);
    forall lines ensures GoodBlock(lines, -1, 0, n) <==> IsBlock(lines, n) { BlockExactly(lines, n); }
  }

  // ----- and which it refuses, and why -----

  /** Header lines read so far: `c` is the length they announce, -1 while they announce none. */
  predicate Seen(lines: seq<seq<Byte>>, current: int, total: nat, c: int) {
    && (forall j | 0 <= j < |lines| :: GoodLine(lines[j]))
    && total + |Flat(lines)| <= MAX_HEADERS
    && ((Lengths(lines) == [] && c == current) || (current < 0 && Lengths(lines) == [c] && InRange(c)))
  }

  lemma SeenTail(lines: seq<seq<Byte>>, current: int, total: nat, c: int)
    requires lines != [] && Seen(lines, current, total, c)
    ensures GoodLine(lines[0]) && ParseContentLength(lines[0], current).Length? && |lines[0]| + total <= MAX_HEADERS
    ensures Seen(lines[1..], ParseContentLength(lines[0], current).n, total + |lines[0]|, c)
  {
    var rest := lines[1..];
    assert GoodLine(lines[0]) && forall j | 0 <= j < |rest| :: GoodLine(rest[j]);
    assert Flat(lines) == lines[0] + Flat(rest);
    if IsLength(lines[0]) {
      assert Lengths(lines) != [] && Lengths(lines)[0] == c && Lengths(lines)[1..] == Lengths(rest);
    } else {
      assert Lengths(lines) == Lengths(rest);
    }
  }

  lemma SeenCons(line: seq<Byte>, lines: seq<seq<Byte>>, current: int, total: nat, c: int)
    requires GoodLine(line) && ParseContentLength(line, current).Length?
    requires Seen(lines, ParseContentLength(line, current).n, total + |line|, c)
    ensures Seen([line] + lines, current, total, c)
  {
    var longer := [line] + lines;
    assert longer[1..] == lines;
    assert forall j | 0 <= j < |longer| :: GoodLine(longer[j]);
    assert Flat(longer) == line + Flat(lines);
  }

  /** Good header lines are read, and the rest of the input decides. */
  lemma {:induction false} SeenIsRead(lines: seq<seq<Byte>>, tail: seq<Byte>, current: int, total: nat, c: int)
    requires Seen(lines, current, total, c)
    ensures Headers(Flat(lines) + tail, current, total) == Headers(tail, c, total + |Flat(lines)|)
  {
    if lines == [] {
      assert Flat(lines) + tail == tail;
    } else {
      var line, rest := lines[0], lines[1..];
      SeenTail(lines, current, total, c);
      HeadersLine(line, Flat(rest) + tail, current, total);
      assert Flat(lines) + tail == line + (Flat(rest) + tail);
      SeenIsRead(rest, tail, ParseContentLength(line, current).n, total + |line|, c);
    }
  }

  /** The line that ends the reading with `e`, after `total` bytes that announced `c`. */
  ghost predicate LineFails(line: seq<Byte>, c: int, total: nat, e: Error) {
    if |line| > 4096 || total + |line| > 16384 then e == TooLong
    else if |line| < 2 || line[|line| - 2] != 13 then e == NotCrlf
    else if line == [13, 10] then e == Missing && c < 0
    else if !IsField(line) then e == BadHeader
    else NamesLength(line) && if c >= 0 then e == Duplicate
    else e == BadLength && forall v | Announces(line, v) :: !(1 <= v <= 16777216)
  }

  /** Where the reading ends with `e`: before the next line end comes, or with the next line. */
  ghost predicate Fails(tail: seq<Byte>, c: int, total: nat, e: Error) {
    if 10 !in tail then e == Eof
    else exists i: nat :: FailsAt(tail, i, c, total, e)
  }

  /** The first line of `tail` ends at `i`. */
  ghost predicate FailsAt(tail: seq<Byte>, i: nat, c: int, total: nat, e: Error) {
    i < |tail| && tail[i] == 10 && 10 !in tail[..i] && LineFails(tail[..i + 1], c, total, e)
  }

  lemma LineFailsExactly(line: seq<Byte>, c: int, total: nat, e: Error)
    requires |line| > 0 && line[|line| - 1] == 10 && 10 !in line[..|line| - 1]
    ensures LineFails(line, c, total, e) <==>
      LineStep(line, c, total) == Some(Refused(e)) || (LineStep(line, c, total).None? && c < 0 && e == Missing)
  {
    if EndsCrlf(line) {
      FieldExactly(line, 0);
      if HasName(line) && IsLength(line) {
        forall v ensures Announces(line, v) <==> LengthIn(line) == Some(v) { FieldExactly(line, v); }
      }
    } else {
      assert |line| >= 2 ==> line[|line| - 2..] == [line[|line| - 2], 10];
    }
  }

  lemma FirstNewline(tail: seq<Byte>, i: nat)
    requires i < |tail| && tail[i] == 10 && 10 !in tail[..i]
    ensures Find(tail, NL) == i
  {
    assert tail == tail[..i] + [NL] + tail[i + 1..];
    FindAt(tail[..i], tail[i + 1..], NL);
  }

  lemma {:induction false} HeadersAt(input: seq<Byte>, line: seq<Byte>, more: seq<Byte>, c: int, total: nat)
    requires Find(input, NL) < |input| && line == input[..Find(input, NL) + 1] && more == input[Find(input, NL) + 1..]
    ensures Headers(input, c, total) == AfterStep(LineStep(line, c, total), more, c, total + |line|)
  {
    assert Headers(input, c, total) == AfterLine(line, more, c, total);
  }

  /** A bad line ends the reading with its error. */
  lemma FailsIsRefused(tail: seq<Byte>, c: int, total: nat, e: Error)
    requires Fails(tail, c, total, e)
    ensures Headers(tail, c, total) == Err(e)
  {
    if 10 in tail {
      var i: nat :| FailsAt(tail, i, c, total, e);
      FirstNewline(tail, i);
      var line := tail[..i + 1];
      assert line[..|line| - 1] == tail[..i];
      LineFailsExactly(line, c, total, e);
      HeadersAt(tail, line, tail[i + 1..], c, total);
    }
  }

  lemma LinesCons(line: seq<Byte>, lines: seq<seq<Byte>>, tail: seq<Byte>)
    ensures Flat([line] + lines) + tail == line + (Flat(lines) + tail)
    ensures |Flat([line] + lines)| == |line| + |Flat(lines)|
  {
    assert ([line] + lines)[1..] == lines;
  }

  /** The next line is the one that fails, or it is read and the reading goes on. */
  lemma FailsOrReadsOn(input: seq<Byte>, current: int, total: nat, e: Error)
      returns (line: seq<Byte>, more: seq<Byte>)
    requires Headers(input, current, total) == Err(e) && 10 in input
    ensures input == line + more && |line| > 0
    ensures Fails(input, current, total, e)
      || (GoodLine(line) && total + |line| <= MAX_HEADERS && ParseContentLength(line, current).Length?
          && Headers(more, ParseContentLength(line, current).n, total + |line|) == Err(e))
  {
    line, more := FirstLine(input);
    var i := Find(input, NL);
    assert line[..|line| - 1] == input[..i];
    LineFailsExactly(line, current, total, e);
    HeadersAt(input, line, more, current, total);
    var step := LineStep(line, current, total);
    if !(step.Some? && step.value.Length?) { assert FailsAt(input, i, current, total, e); }
  }

  predicate Splits(input: seq<Byte>, lines: seq<seq<Byte>>, tail: seq<Byte>) { input == Flat(lines) + tail }

  lemma SplitsCons(line: seq<Byte>, more: seq<Byte>, lines: seq<seq<Byte>>, tail: seq<Byte>)
    requires Splits(more, lines, tail)
    ensures Splits(line + more, [line] + lines, tail) && |Flat([line] + lines)| == |line| + |Flat(lines)|
  {
    LinesCons(line, lines, tail);
  }

  lemma {:induction false} RefusedFails(input: seq<Byte>, current: int, total: nat, e: Error)
      returns (lines: seq<seq<Byte>>, tail: seq<Byte>, c: int, read: nat)
    requires Headers(input, current, total) == Err(e) && total <= MAX_HEADERS
    ensures Seen(lines, current, total, c) && Splits(input, lines, tail)
    ensures read == total + |Flat(lines)| && Fails(tail, c, read, e)
    decreases |input|
  {
    lines, tail, c, read := [], input, current, total;
    if 10 in input {
      var line, more := FailsOrReadsOn(input, current, total, e);
      if !Fails(input, current, total, e) {
        ghost var rest;
        rest, tail, c, read := RefusedFails(more, ParseContentLength(line, current).n, total + |line|, e);
        SeenCons(line, rest, current, total, c);
        SplitsCons(line, more, rest, tail);
        lines := [line] + rest;
      }
    }
  }

  /** Header lines that may stand in front of the line at which the reading fails. */
  ghost predicate MayPrecede(lines: seq<seq<Byte>>, c: int) {
    && (forall j | 0 <= j < |lines| :: HeaderLine(lines[j])) && |Flat(lines)| <= 16384
    && ((c == -1 && forall j | 0 <= j < |lines| :: !NamesLength(lines[j]))
        || (1 <= c <= 16777216 && exists i: nat :: OneAnnounces(lines, i, c)))
  }

  lemma PrecedesExactly(lines: seq<seq<Byte>>, c: int)
    ensures Seen(lines, -1, 0, c) <==> MayPrecede(lines, c)
  {
    forall j | 0 <= j < |lines| ensures GoodLine(lines[j]) <==> HeaderLine(lines[j]) { GoodLineExactly(lines[j]); }
    if forall j | 0 <= j < |lines| :: GoodLine(lines[j]) {
      NoLengths(lines);
      if InRange(c) { OneLength(lines, c); }
    }
  }

  ghost predicate FailsAfter(input: seq<Byte>, lines: seq<seq<Byte>>, tail: seq<Byte>, c: int, e: Error) {
    MayPrecede(lines, c) && Splits(input, lines, tail) && Fails(tail, c, |Flat(lines)|, e)
  }

  lemma PrecedingIsRead(lines: seq<seq<Byte>>, tail: seq<Byte>, c: int)
    requires MayPrecede(lines, c)
    ensures Headers(Flat(lines) + tail, -1, 0) == Headers(tail, c, |Flat(lines)|)
  {
    PrecedesExactly(lines, c);
    SeenIsRead(lines, tail, -1, 0, c);
  }

  lemma FailsAfterIsRefused(input: seq<Byte>, lines: seq<seq<Byte>>, tail: seq<Byte>, c: int, e: Error)
    requires FailsAfter(input, lines, tail, c, e)
    ensures Headers(input, -1, 0) == Err(e)
  {
    PrecedingIsRead(lines, tail, c);
    FailsIsRefused(tail, c, |Flat(lines)|, e);
  }

  lemma RefusedFailsAfter(input: seq<Byte>, e: Error) returns (lines: seq<seq<Byte>>, tail: seq<Byte>, c: int)
    requires Headers(input, -1, 0) == Err(e)
    ensures FailsAfter(input, lines, tail, c, e)
  {
    var read;
    lines, tail, c, read := RefusedFails(input, -1, 0, e);
    PrecedesExactly(lines, c);
  }

  /** An input is refused with an error exactly when good header lines are followed by what that
      error is for: the first thing wrong decides. */
  lemma RefusesExactly(input: seq<Byte>, e: Error)
    ensures Headers(input, -1, 0) == Err(e) <==> exists lines, tail, c :: FailsAfter(input, lines, tail, c, e)
  {
    if Headers(input, -1, 0) == Err(e) { var lines, tail, c := RefusedFailsAfter(input, e); }
    if lines, tail, c :| FailsAfter(input, lines, tail, c, e) { FailsAfterIsRefused(input, lines, tail, c, e); }
  }

  function Ascii(s: string): seq<Byte>
    requires forall i | 0 <= i < |s| :: s[i] < 128 as char
  {
    if s == "" then [] else [s[0] as int] + Ascii(s[1..])
  }

  lemma NameIsText(s: string)
    requires s == "Content-Length: "
    ensures |Ascii(s)| == 16 && Ascii(s) == NAME + [COLON, SPACE]
  {
    AsciiAt(s);
    forall i | 0 <= i < 16 ensures Ascii(s)[i] == (NAME + [COLON, SPACE])[i] {}
  }

  lemma {:induction false} AsciiAt(s: string)
    requires forall i | 0 <= i < |s| :: s[i] < 128 as char
    ensures |Ascii(s)| == |s| && forall i | 0 <= i < |s| :: Ascii(s)[i] == s[i] as int
  {
    if s != "" { AsciiAt(s[1..]); }
  }

  /** What the client writes in front of a body. */
  lemma FrameIsText(body: seq<Byte>, name: string, end: string)
    requires name == "Content-Length: " && end == "\r\n\r\n"
    ensures Frame(body) == Ascii(name) + Digits(|body|) + Ascii(end) + body
  {
    NameIsText(name);
    EndIsText(end);
    Regroup(NAME + [COLON, SPACE], Digits(|body|), CRLF, body);
  }

  lemma EndIsText(s: string)
    requires s == "\r\n\r\n"
    ensures Ascii(s) == CRLF + CRLF
  {
    AsciiAt(s);
  }

  lemma Regroup(a: seq<Byte>, b: seq<Byte>, c: seq<Byte>, d: seq<Byte>)
    ensures a + b + c + c + d == a + b + (c + c) + d
  {}
}
