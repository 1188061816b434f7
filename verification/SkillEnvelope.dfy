/** The envelope a skill is put into for the model, and how it is found again in a conversation. */
module SkillEnvelope {

  import opened Options

  datatype Skill = Skill(name: string, description: string, content: string)

  datatype RenderedSkill = RenderedSkill(name: string, envelope: string)

  const START := "<skill>\n<name>"
  const NAME_END := "</name>"
  const END := "</skill>"
  const ARGUMENTS := "$ARGUMENTS"

  // ----- substrings -----

  predicate At(s: string, sub: string, i: int) { 0 <= i && i + |sub| <= |s| && s[i..i + |sub|] == sub }

  lemma AtChars(s: string, sub: string, i: int, k: nat)
    requires k < |sub|
    ensures At(s, sub, i) ==> s[i + k] == sub[k]
  {
    if At(s, sub, i) { assert s[i..i + |sub|][k] == s[i + k]; }
  }

  function IndexFrom(s: string, sub: string, i: nat): (r: int)
    ensures r == -1 || (i <= r && At(s, sub, r))
    ensures forall j | i <= j && (r == -1 || j < r) :: !At(s, sub, j)
    decreases |s| - i
  {
    if i + |sub| > |s| then -1 else if At(s, sub, i) then i else IndexFrom(s, sub, i + 1)
  }

  /** The first occurrence, or -1. */
  function Index(s: string, sub: string): (r: int)
    ensures r == -1 || At(s, sub, r)
    ensures forall j | 0 <= j && (r == -1 || j < r) :: !At(s, sub, j)
  {
    IndexFrom(s, sub, 0)
  }

  function LastIndexFrom(s: string, sub: string, i: int): (r: int)
    requires i <= |s|
    ensures r == -1 || (0 <= r <= i && At(s, sub, r))
    ensures forall j | r < j <= i :: !At(s, sub, j)
    decreases i + 1
  {
    if i < 0 then -1 else if At(s, sub, i) then i else LastIndexFrom(s, sub, i - 1)
  }

  /** The last occurrence, or -1. */
  function LastIndex(s: string, sub: string): (r: int)
    ensures r == -1 || At(s, sub, r)
    ensures forall j | r < j <= |s| :: !At(s, sub, j)
  {
    LastIndexFrom(s, sub, |s|)
  }

  function ReplaceAll(s: string, from: string, to: string): string
    requires from != ""
    decreases |s|
  {
    var i := Index(s, from);
    if i < 0 then s else s[..i] + to + ReplaceAll(s[i + |from|..], from, to)
  }

  // ----- HTML escaping -----

  function EscapeChar(c: char): string {
    match c
    case '&' => "&amp;"
    case '\'' => "&#39;"
    case '<' => "&lt;"
    case '>' => "&gt;"
    case '"' => "&#34;"
    case _ => [c]
  }

  function Escape(s: string): string { if s == "" then "" else EscapeChar(s[0]) + Escape(s[1..]) }

  /** What an entity stands for and how many characters it takes. */
  datatype Entity = Entity(text: string, used: nat)

  /** The five entities escaping uses; every other one is `table`'s business. */
  function EntityAt(s: string, table: string -> Entity): Entity {
    if At(s, "&amp;", 0) then Entity("&", 5)
    else if At(s, "&#39;", 0) then Entity("'", 5)
    else if At(s, "&lt;", 0) then Entity("<", 4)
    else if At(s, "&gt;", 0) then Entity(">", 4)
    else if At(s, "&#34;", 0) then Entity("\"", 5)
    else table(s)
  }

  function Unescape(s: string, table: string -> Entity): string
    decreases |s|
  {
    if s == "" then ""
    else if s[0] != '&' then [s[0]] + Unescape(s[1..], table)
    else
      var e := EntityAt(s, table);
      if 0 < e.used <= |s| then e.text + Unescape(s[e.used..], table) else [s[0]] + Unescape(s[1..], table)
  }

  lemma EntityOfEscape(c: char, rest: string, table: string -> Entity)
    requires c in "&'<>\""
    ensures EntityAt(EscapeChar(c) + rest, table) == Entity([c], |EscapeChar(c)|)
  {
    var s := EscapeChar(c) + rest;
    assert At(s, EscapeChar(c), 0);
    AtChars(s, "&amp;", 0, 1);
    AtChars(s, "&#39;", 0, 1);
    AtChars(s, "&#39;", 0, 3);
    AtChars(s, "&lt;", 0, 1);
    AtChars(s, "&gt;", 0, 1);
  }

  lemma UnescapeChar(c: char, rest: string, table: string -> Entity)
    ensures Unescape(EscapeChar(c) + rest, table) == [c] + Unescape(rest, table)
  {
    var s := EscapeChar(c) + rest;
    assert s[|EscapeChar(c)|..] == rest;
    if c in "&'<>\"" { EntityOfEscape(c, rest, table); }
  }

  /** Unescaping undoes escaping, whatever the rest of the entity table says. */
  lemma {:induction false} UnescapeOfEscape(s: string, table: string -> Entity)
    ensures Unescape(Escape(s), table) == s
  {
    if s != "" {
      UnescapeOfEscape(s[1..], table);
      UnescapeChar(s[0], Escape(s[1..]), table);
      assert [s[0]] + s[1..] == s;
    }
  }

  lemma {:induction false} EscapeHasNoTag(s: string)
    ensures '<' !in Escape(s)
  {
    if s != "" { EscapeHasNoTag(s[1..]); }
  }

  // ----- rendering -----

  function BodyOf(content: string, args: string): string {
    var body := ReplaceAll(content, ARGUMENTS, args);
    if args != "" && Index(content, ARGUMENTS) < 0 then body + "\n\nARGUMENTS: " + args else body
  }

  /** Everything after the name: description, body, and a final newline. */
  function Middle(description: string, body: string): string {
    "\n" + (if description != "" then "<description>" + Escape(description) + "</description>\n" else "")
    + "---\n" + body + (if body != "" && body[|body| - 1] == '\n' then "" else "\n")
  }

  function Envelope(name: string, middle: string): string { START + Escape(name) + NAME_END + middle + END }

  function Render(skill: Skill, args: string): string {
    Envelope(skill.name, Middle(skill.description, BodyOf(skill.content, args)))
  }

  // ----- what the rendered text holds -----

  /** Pieces with `glue` between each two. */
  function Spliced(pieces: seq<string>, glue: string): string {
    if pieces == [] then "" else if |pieces| == 1 then pieces[0] else pieces[0] + glue + Spliced(pieces[1..], glue)
  }

  lemma SpliceCons(piece: string, rest: seq<string>, glue: string)
    requires rest != []
    ensures Spliced([piece] + rest, glue) == piece + glue + Spliced(rest, glue)
  {
    assert ([piece] + rest)[1..] == rest;
  }

  /** Replacing takes the text apart at every occurrence and puts it together around the other text. */
  lemma {:induction false} ReplacingSplices(s: string, from: string, to: string) returns (pieces: seq<string>)
    requires from != ""
    ensures pieces != [] && s == Spliced(pieces, from) && ReplaceAll(s, from, to) == Spliced(pieces, to)
    ensures forall i | 0 <= i < |pieces| - 1 :: Index(pieces[i] + from, from) == |pieces[i]|
    ensures Index(pieces[|pieces| - 1], from) < 0
    decreases |s|
  {
    var i := Index(s, from);
    if i < 0 {
      pieces := [s];
    } else {
      var rest := ReplacingSplices(s[i + |from|..], from, to);
      pieces := [s[..i]] + rest;
      SpliceCons(s[..i], rest, from);
      SpliceCons(s[..i], rest, to);
      assert s == s[..i] + from + s[i + |from|..];
      FirstStays(s, from, i);
    }
  }

  lemma OccursInFront(x: string, y: string, sub: string, i: int)
    ensures At(x, sub, i) ==> At(x + y, sub, i)
  {
    if At(x, sub, i) { assert (x + y)[i..i + |sub|] == x[i..i + |sub|]; }
  }

  lemma FirstStays(s: string, sub: string, i: nat)
    requires sub != "" && Index(s, sub) == i
    ensures i + |sub| <= |s| && Index(s[..i] + sub, sub) == i
  {
    var t, rest := s[..i] + sub, s[i + |sub|..];
    assert s == t + rest;
    assert t[i..i + |sub|] == sub;
    assert At(t, sub, i);
    forall j | 0 <= j < i ensures !At(t, sub, j) { OccursInFront(t, rest, sub, j); }
  }

  /** The body is the content with the arguments in place of every placeholder; without a placeholder
      they follow it under a heading, if there are any. */
  ghost predicate IsBody(body: string, content: string, args: string) {
    if Index(content, "$ARGUMENTS") >= 0 then
      exists pieces: seq<string> ::
        && |pieces| > 1 && content == Spliced(pieces, "$ARGUMENTS") && body == Spliced(pieces, args)
        && (forall i | 0 <= i < |pieces| :: Index(pieces[i], "$ARGUMENTS") < 0)
    else if args == "" then body == content
    else body == content + "\n\nARGUMENTS: " + args
  }

  lemma NoPlaceholderInPiece(piece: string)
    requires Index(piece + ARGUMENTS, ARGUMENTS) == |piece|
    ensures Index(piece, ARGUMENTS) < 0
  {
    var i := Index(piece, ARGUMENTS);
    if i >= 0 {
      assert (piece + ARGUMENTS)[i..i + |ARGUMENTS|] == piece[i..i + |ARGUMENTS|];
      assert At(piece + ARGUMENTS, ARGUMENTS, i);
    }
  }

  lemma BodyIsBody(content: string, args: string)
    ensures IsBody(BodyOf(content, args), content, args)
  {
    if Index(content, ARGUMENTS) >= 0 {
      var pieces := ReplacingSplices(content, ARGUMENTS, args);
      forall i | 0 <= i < |pieces| ensures Index(pieces[i], ARGUMENTS) < 0 {
        if i < |pieces| - 1 { NoPlaceholderInPiece(pieces[i]); }
      }
      assert |pieces| > 1;
    }
  }

  /** The tag around a description, which an empty one does not get. */
  function Described(description: string): string {
    if description == "" then "" else "<description>" + Escape(description) + "</description>\n"
  }

  lemma Regrouped(a: string, b: string, c: string, d: string, e: string, f: string, g: string, h: string, i: string)
    ensures a + b + c + (d + e + f + g + h) + i == a + b + (c + d) + e + f + g + h + i
  {}

  lemma NameEndsLine(nl: string)
    requires nl == "\n"
    ensures NAME_END + nl == "</name>\n"
  {}

  /** The line end a body gets that has none. */
  function LineEnd(body: string): string { if body != "" && body[|body| - 1] == '\n' then "" else "\n" }

  lemma MiddleParts(description: string, body: string, nl: string, rule: string)
    requires nl == "\n" && rule == "---\n"
    ensures Middle(description, body) == nl + Described(description) + rule + body + LineEnd(body)
  {}

  /** The rendered text is the escaped name and description, and then the body on lines of its own. */
  lemma RenderedHoldsBody(skill: Skill, args: string) returns (body: string)
    ensures IsBody(body, skill.content, args)
    ensures Render(skill, args) == "<skill>\n<name>" + Escape(skill.name) + "</name>\n" + Described(skill.description)
      + "---\n" + body + LineEnd(body) + "</skill>"
  {
    body := BodyOf(skill.content, args);
    BodyIsBody(skill.content, args);
    RenderedParts(skill.name, skill.description, body, "\n", "---\n");
  }

  lemma RenderedParts(name: string, description: string, body: string, nl: string, rule: string)
    requires nl == "\n" && rule == "---\n"
    ensures Envelope(name, Middle(description, body)) ==
      START + Escape(name) + "</name>\n" + Described(description) + rule + body + LineEnd(body) + END
  {
    MiddleParts(description, body, nl, rule);
    Regrouped(START, Escape(name), NAME_END, nl, Described(description), rule, body, LineEnd(body), END);
    NameEndsLine(nl);
  }

  predicate IsEntity(s: string, i: nat) {
    At(s, "&amp;", i) || At(s, "&#39;", i) || At(s, "&lt;", i) || At(s, "&gt;", i) || At(s, "&#34;", i)
  }

  /** Escaped text has no bracket and no quote, and every ampersand in it starts one of five entities. */
  lemma {:induction false} EscapeIsSafe(s: string, i: nat)
    requires i < |Escape(s)|
    ensures Escape(s)[i] !in "<>'\"" && (Escape(s)[i] == '&' ==> IsEntity(Escape(s), i))
  {
    var c, rest := EscapeChar(s[0]), Escape(s[1..]);
    if i < |c| {
      assert Escape(s)[i] == c[i];
      if c[i] == '&' { assert Escape(s)[..|c|] == c && i == 0; }
    } else {
      EscapeIsSafe(s[1..], i - |c|);
      EntityBehind(c, rest, i - |c|);
    }
  }

  lemma EntityBehind(x: string, y: string, i: nat)
    ensures IsEntity(y, i) ==> IsEntity(x + y, |x| + i)
  {
    OccursBehind(x, y, "&amp;", i);
    OccursBehind(x, y, "&#39;", i);
    OccursBehind(x, y, "&lt;", i);
    OccursBehind(x, y, "&gt;", i);
    OccursBehind(x, y, "&#34;", i);
  }

  lemma OccursBehind(x: string, y: string, sub: string, i: nat)
    ensures At(y, sub, i) ==> At(x + y, sub, |x| + i)
  {
    if At(y, sub, i) { assert (x + y)[|x| + i..|x| + i + |sub|] == y[i..i + |sub|]; }
  }

  // ----- extraction -----

  predicate IsDigit(c: char) { '0' <= c <= '9' }

  function TrimDigits(s: string): string { if s != "" && IsDigit(s[|s| - 1]) then TrimDigits(s[..|s| - 1]) else s }

  predicate EndsWith(s: string, suffix: string) { |suffix| <= |s| && s[|s| - |suffix|..] == suffix }

  /** The line a batch puts before each call's output. */
  predicate IsHeaderLine(line: string) {
    && EndsWith(line, ") ===") && At(line, "=== ", 0)
    && var counted := line[..|line| - 5];
       var uncounted := TrimDigits(counted);
       |uncounted| < |counted| && EndsWith(uncounted, " (call ") && |uncounted| > 11
  }

  /** Where a header line starts and ends in the content, and whether it is a skill call's. */
  datatype Header = Header(start: nat, end: nat, skill: bool)

  /** The complete lines of a text, each with its newline. */
  function Lines(s: string): seq<string> { if s == "" then [] else PutInFront(s[0], Lines(s[1..])) }

  /** One more character in front: a newline is a line of its own, another joins the first line,
      if one ends behind it. */
  function PutInFront(c: char, lines: seq<string>): seq<string> {
    if c == '\n' then ["\n"] + lines else if lines == [] then [] else [[c] + lines[0]] + lines[1..]
  }

  function Total(lines: seq<string>): nat { if lines == [] then 0 else |lines[0]| + Total(lines[1..]) }

  lemma TotalInFront(c: char, lines: seq<string>)
    ensures Total(PutInFront(c, lines)) <= Total(lines) + 1
    ensures c == '\n' || lines != [] ==> Total(PutInFront(c, lines)) == Total(lines) + 1
  {
    var longer := PutInFront(c, lines);
    if c == '\n' { assert longer[1..] == lines; } else if lines != [] { assert longer[1..] == lines[1..]; }
  }

  lemma {:induction false} LinesFit(s: string)
    ensures Total(Lines(s)) <= |s|
  {
    if s != "" {
      LinesFit(s[1..]);
      TotalInFront(s[0], Lines(s[1..]));
    }
  }

  /** Headers in order, none overlapping, between `lo` and `hi`. */
  predicate Ordered(hs: seq<Header>, lo: nat, hi: nat) {
    hs == [] || (lo <= hs[0].start < hs[0].end - 4 <= hi - 4 && Ordered(hs[1..], hs[0].end, hi))
  }

  lemma {:induction false} OrderedFrom(hs: seq<Header>, lo: nat, mid: nat, hi: nat)
    requires lo <= mid && Ordered(hs, mid, hi)
    ensures Ordered(hs, lo, hi)
  {}

  /** A line, with its newline, that is a header. */
  predicate IsHeader(line: string) { line != "" && IsHeaderLine(line[..|line| - 1]) }

  lemma HeaderIsLong(line: string)
    requires IsHeader(line)
    ensures |line| > 4 && line[0] == '='
  {
    AtChars(line[..|line| - 1], "=== ", 0, 0);
  }

  function HeaderAt(line: string, offset: nat): Header { Header(offset, offset + |line|, At(line, "=== skill ", 0)) }

  /** The headers among the lines that start at `offset`. */
  function HeadersAmong(lines: seq<string>, offset: nat): seq<Header> {
    if lines == [] then []
    else
      var more := HeadersAmong(lines[1..], offset + |lines[0]|);
      if IsHeader(lines[0]) then [HeaderAt(lines[0], offset)] + more else more
  }

  lemma {:induction false} HeadersOrdered(lines: seq<string>, offset: nat)
    ensures Ordered(HeadersAmong(lines, offset), offset, offset + Total(lines))
  {
    if lines != [] {
      var mid, hi := offset + |lines[0]|, offset + Total(lines);
      var more := HeadersAmong(lines[1..], mid);
      HeadersOrdered(lines[1..], mid);
      if IsHeader(lines[0]) {
        HeaderIsLong(lines[0]);
        assert ([HeaderAt(lines[0], offset)] + more)[1..] == more;
      } else {
        OrderedFrom(more, offset, mid, hi);
      }
    }
  }

  lemma {:induction false} OrderedWithin(hs: seq<Header>, lo: nat, hi: nat, hi': nat)
    requires Ordered(hs, lo, hi) && hi <= hi'
    ensures Ordered(hs, lo, hi')
  {
    if hs != [] { OrderedWithin(hs[1..], hs[0].end, hi, hi'); }
  }

  function Headers(content: string): (hs: seq<Header>)
    ensures Ordered(hs, 0, |content|)
  {
    LinesFit(content);
    HeadersOrdered(Lines(content), 0);
    OrderedWithin(HeadersAmong(Lines(content), 0), 0, Total(Lines(content)), |content|);
    HeadersAmong(Lines(content), 0)
  }

  /** The parts of the content after the headers of skill calls, each up to the next header. */
  function SegmentsUnder(content: string, hs: seq<Header>, lo: nat): seq<string>
    requires Ordered(hs, lo, |content|)
  {
    if hs == [] then []
    else
      assert Ordered(hs[1..], hs[0].end, |content|) && (|hs| > 1 ==> hs[1..][0] == hs[1]);
      (if hs[0].skill then [content[hs[0].end..if |hs| > 1 then hs[1].start else |content|]] else [])
      + SegmentsUnder(content, hs[1..], hs[0].end)
  }

  function Segments(content: string): seq<string> {
    var hs := Headers(content);
    if hs == [] || Index(content, START) < hs[0].start then [content] else SegmentsUnder(content, hs, 0)
  }

  /** The name behind a start marker, up to the first closing tag. */
  function NameIn(rest: string, table: string -> Entity): string {
    var nameEnd := Index(rest, NAME_END);
    if nameEnd < 0 then "" else Unescape(rest[..nameEnd], table)
  }

  /** From the start marker to the last end marker, or to the end. */
  function EnvelopeFrom(text: string): string {
    var end := LastIndex(text, END);
    text[..if end >= 0 then end + |END| else |text|]
  }

  /** The envelope in one segment; one without a name counts for nothing. */
  function EnvelopeIn(segment: string, table: string -> Entity): Option<RenderedSkill> {
    var start := Index(segment, START);
    if start < 0 || NameIn(segment[start + |START|..], table) == "" then None
    else Some(RenderedSkill(NameIn(segment[start + |START|..], table), EnvelopeFrom(segment[start..])))
  }

  function EnvelopesIn(segments: seq<string>, table: string -> Entity): seq<RenderedSkill> {
    if segments == [] then []
    else
      var last := EnvelopeIn(segments[|segments| - 1], table);
      EnvelopesIn(segments[..|segments| - 1], table) + (if last.Some? then [last.value] else [])
  }

  function Extract(content: string, table: string -> Entity): seq<RenderedSkill> {
    EnvelopesIn(Segments(content), table)
  }

  // ----- round trip -----

  lemma FirstOfLines(s: string)
    ensures Lines(s) != [] ==> s != "" && Lines(s)[0] != "" && Lines(s)[0][0] == s[0]
  {}

  lemma HeaderAtStart(s: string)
    ensures Headers(s) != [] && Headers(s)[0].start == 0 ==> s != "" && s[0] == '='
  {
    var lines := Lines(s);
    FirstOfLines(s);
    if lines != [] {
      if IsHeader(lines[0]) { HeaderIsLong(lines[0]); } else { HeadersOrdered(lines[1..], |lines[0]|); }
    }
  }

  lemma EnvelopeIsOneSegment(name: string, middle: string)
    ensures Index(Envelope(name, middle), START) == 0
    ensures Segments(Envelope(name, middle)) == [Envelope(name, middle)]
  {
    var text := Envelope(name, middle);
    assert text[..|START|] == START;
    HeaderAtStart(text);
    AtChars(text, START, 0, 0);
  }

  /** The name ends at the first closing tag: escaping leaves no tag inside it. */
  lemma NameIsFound(escaped: string, rest: string)
    requires '<' !in escaped
    ensures Index(escaped + NAME_END + rest, NAME_END) == |escaped|
  {
    var s := escaped + NAME_END + rest;
    assert At(s, NAME_END, |escaped|);
    AtChars(s, NAME_END, Index(s, NAME_END), 0);
  }

  lemma NameOfEnvelope(name: string, middle: string, table: string -> Entity)
    ensures NameIn(Envelope(name, middle)[|START|..], table) == name
  {
    var esc := Escape(name);
    EscapeHasNoTag(name);
    NameIsFound(esc, middle + END);
    UnescapeOfEscape(name, table);
    DropFirst(START, esc, NAME_END, middle, END);
    TakeFirst(esc, NAME_END, middle + END);
  }

  lemma DropFirst(a: string, b: string, c: string, d: string, e: string)
    ensures (a + b + c + d + e)[|a|..] == b + c + (d + e)
  {}

  lemma TakeFirst(a: string, b: string, c: string)
    ensures (a + b + c)[..|a|] == a
  {}

  lemma EndIsLast(s: string)
    ensures EnvelopeFrom(s + END) == s + END
  {
    assert At(s + END, END, |s|);
  }

  lemma EnvelopeAtStart(text: string, table: string -> Entity)
    requires Index(text, START) == 0
    ensures
      var name := NameIn(text[|START|..], table);
      EnvelopeIn(text, table) == if name == "" then None else Some(RenderedSkill(name, EnvelopeFrom(text)))
  {
    assert text[0..] == text;
  }

  lemma EnvelopeRoundTrip(name: string, middle: string, table: string -> Entity)
    ensures EnvelopeIn(Envelope(name, middle), table) == if name == "" then None
      else Some(RenderedSkill(name, Envelope(name, middle)))
  {
    EnvelopeIsOneSegment(name, middle);
    EnvelopeAtStart(Envelope(name, middle), table);
    NameOfEnvelope(name, middle, table);
    EndIsLast(START + Escape(name) + NAME_END + middle);
  }

  /** For every skill, whatever its description, body and arguments contain: the rendered text
      gives back exactly one skill, with its name and the whole text, if and only if the name is
      not empty; an empty name gives none. */
  lemma SkillRoundTrip(skill: Skill, args: string, table: string -> Entity)
    ensures Extract(Render(skill, args), table) == [RenderedSkill(skill.name, Render(skill, args))]
      <==> skill.name != ""
    ensures skill.name == "" ==> Extract(Render(skill, args), table) == []
  {
    var middle := Middle(skill.description, BodyOf(skill.content, args));
    EnvelopeIsOneSegment(skill.name, middle);
    EnvelopeRoundTrip(skill.name, middle, table);
    OneSegment(Render(skill, args), table);
  }

  lemma OneSegment(text: string, table: string -> Entity)
    ensures EnvelopesIn([text], table) == if EnvelopeIn(text, table).Some? then [EnvelopeIn(text, table).value] else []
  {
    assert [text][..0] == [];
    assert EnvelopesIn([], table) == [];
  }

  // ----- any content -----

  predicate Contains(s: string, sub: string) { exists i | 0 <= i <= |s| :: At(s, sub, i) }

  lemma EnvelopeIsInSegment(segment: string, table: string -> Entity)
    requires EnvelopeIn(segment, table).Some?
    ensures
      var r := EnvelopeIn(segment, table).value;
      r.name != "" && At(r.envelope, START, 0) && Contains(segment, r.envelope)
  {
    var start, r := Index(segment, START), EnvelopeIn(segment, table).value;
    var text := segment[start..];
    var end := LastIndex(text, END);
    assert text[..|START|] == START;
    if end >= 0 { EndAfterStart(text, end); }
    assert r.envelope[..|START|] == text[..|START|];
    assert At(segment, r.envelope, start);
  }

  /** An end marker lies behind the start marker it closes. */
  lemma EndAfterStart(s: string, end: int)
    requires At(s, START, 0) && At(s, END, end)
    ensures end >= |START|
  {
    AtChars(s, END, end, 0);
    AtChars(s, END, end, 1);
    assert forall k | 0 <= k < |START| :: s[k] == s[0..|START|][k];
  }

  /** Whatever the content: every extracted skill has a name, and its envelope starts with the
      start marker and is a piece of one segment. */
  lemma {:induction false} ExtractIsSound(segments: seq<string>, table: string -> Entity, k: nat)
    requires k < |EnvelopesIn(segments, table)|
    ensures
      var r := EnvelopesIn(segments, table)[k];
      r.name != "" && At(r.envelope, START, 0) && exists i | 0 <= i < |segments| :: Contains(segments[i], r.envelope)
  {
    var n := |segments| - 1;
    if k < |EnvelopesIn(segments[..n], table)| {
      ExtractIsSound(segments[..n], table, k);
    } else {
      EnvelopeIsInSegment(segments[n], table);
    }
  }

  method RenderedSkillSegments(content: string) returns (segments: seq<string>)
    ensures segments == Segments(content)
  {
    var headers := Headers(content);
    if |headers| == 0 || Index(content, START) < headers[0].start { return [content]; }
    segments := [];
    var i, from := 0, 0;
    assert headers[0..] == headers;
    while i < |headers|
      invariant 0 <= i <= |headers| && Ordered(headers[i..], from, |content|)
      invariant segments + SegmentsUnder(content, headers[i..], from) == SegmentsUnder(content, headers, 0)
    {
      ghost var rest := headers[i..];
      assert rest[0] == headers[i] && rest[1..] == headers[i + 1..] && (|rest| > 1 ==> rest[1] == headers[i + 1]);
      if headers[i].skill {
        var end := |content|;
        if i + 1 < |headers| { end := headers[i + 1].start; }
        segments := segments + [content[headers[i].end..end]];
      }
      i, from := i + 1, headers[i].end;
    }
  }

  method FindEnvelope(segment: string, table: string -> Entity) returns (r: Option<RenderedSkill>)
    ensures r == EnvelopeIn(segment, table)
  {
    var start := Index(segment, START);
    if start < 0 { return None; }
    var nameStart := start + |START|;
    var nameEnd := Index(segment[nameStart..], NAME_END);
    if nameEnd < 0 { return None; }
    var name := Unescape(segment[nameStart..][..nameEnd], table);
    if name == "" { return None; }
    var envelopeEnd := |segment|;
    var end := LastIndex(segment[start..], END);
    if end >= 0 { envelopeEnd := start + end + |END|; }
    assert segment[start..envelopeEnd] == segment[start..][..envelopeEnd - start];
    r := Some(RenderedSkill(name, segment[start..envelopeEnd]));
  }

  method ExtractRenderedSkills(content: string, table: string -> Entity) returns (skills: seq<RenderedSkill>)
    ensures skills == Extract(content, table)
  {
    var segments := RenderedSkillSegments(content);
    skills := [];
    var i := 0;
    while i < |segments|
      invariant 0 <= i <= |segments| && skills == EnvelopesIn(segments[..i], table)
    {
      assert segments[..i + 1][..i] == segments[..i];
      var r := FindEnvelope(segments[i], table);
      if r.Some? { skills := skills + [r.value]; }
      i := i + 1;
    }
    assert segments[..i] == segments;
  }
}
