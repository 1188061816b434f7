/** Skills in the results of tool calls: a skill called directly, under its title line, and skills
    among the calls of a batch. The batch tool has stopped taking skill calls; what it wrote before
    is still read. */
module SkillCalls {

  import opened Options
  import opened SkillEnvelope
  import opened SkillBatch

  // ----- a rendered skill with something behind it -----

  /** No end marker begins behind the envelope's own. */
  lemma EnvelopeBeforeTail(front: string, tail: string)
    requires Index(tail, END) < 0
    ensures EnvelopeFrom(front + END + tail) == front + END
  {
    var s := front + END + tail;
    assert s[|front|..|front| + |END|] == END;
    assert At(s, END, |front|);
    var last := LastIndex(s, END);
    AtChars(s, END, last, 0);
    if last >= |front| + |END| { AtBehind(front + END, tail, END, last - |front| - |END|); }
    assert s[..|front| + |END|] == front + END;
  }

  lemma NameBeforeTail(name: string, middle: string, tail: string, table: string -> Entity)
    ensures NameIn((Envelope(name, middle) + tail)[|START|..], table) == name
  {
    var esc := Escape(name);
    EscapeHasNoTag(name);
    NameIsFound(esc, middle + (END + tail));
    UnescapeOfEscape(name, table);
    Associates(START + esc + NAME_END + middle, END, tail);
    DropFirst(START, esc, NAME_END, middle, END + tail);
    TakeFirst(esc, NAME_END, middle + (END + tail));
  }

  lemma EnvelopeWithTail(name: string, middle: string, tail: string, table: string -> Entity)
    requires Index(tail, END) < 0
    ensures Index(Envelope(name, middle) + tail, START) == 0
    ensures EnvelopeIn(Envelope(name, middle) + tail, table)
      == if name == "" then None else Some(RenderedSkill(name, Envelope(name, middle)))
  {
    var text := Envelope(name, middle) + tail;
    assert text[..|START|] == START;
    assert At(text, START, 0);
    EnvelopeAtStart(text, table);
    NameBeforeTail(name, middle, tail, table);
    EnvelopeBeforeTail(START + Escape(name) + NAME_END + middle, tail);
  }

  lemma AtBehind(x: string, y: string, sub: string, i: int)
    requires 0 <= i
    ensures At(x + y, sub, |x| + i) <==> At(y, sub, i)
  {
    if i + |sub| <= |y| { SliceBehind(x, y, i, i + |sub|); }
  }

  lemma DropBehind(x: string, y: string, i: nat)
    requires i <= |y|
    ensures (x + y)[|x| + i..] == y[i..]
  {}

  /** What comes before the first start marker does not matter. */
  lemma EnvelopeBehind(x: string, text: string, whole: string, table: string -> Entity)
    requires whole == x + text
    requires Index(whole, START) == if Index(text, START) < 0 then -1 else |x| + Index(text, START)
    ensures EnvelopeIn(whole, table) == EnvelopeIn(text, table)
  {
    var there := Index(text, START);
    if there >= 0 {
      DropBehind(x, text, there);
      DropBehind(x, text, there + |START|);
    }
  }

  // ----- title lines -----

  /** The line written for a result's title, which for a skill is its name. */
  function Title(name: string): string { "[" + name + "]\n" }

  /** No line of the title is a header: every name on one line, and most others. */
  predicate Plain(name: string) { Headers(Title(name)) == [] }

  lemma {:induction false} LinesAreMadeOf(s: string, i: nat)
    requires i < |Lines(s)|
    ensures Lines(s)[i] != "" && forall k | 0 <= k < |Lines(s)[i]| :: Lines(s)[i][k] in s
  {
    var rest := Lines(s[1..]);
    if s[0] == '\n' {
      if i > 0 { LinesAreMadeOf(s[1..], i - 1); }
    } else {
      LinesAreMadeOf(s[1..], i);
    }
  }

  lemma {:induction false} NoHeadersAmong(lines: seq<string>, offset: nat)
    requires forall i | 0 <= i < |lines| :: lines[i] == "" || lines[i][0] != '='
    ensures HeadersAmong(lines, offset) == []
  {
    if lines != [] {
      if IsHeader(lines[0]) {
        HeaderIsLong(lines[0]);
        assert false;
      }
      NoHeadersAmong(lines[1..], offset + |lines[0]|);
    }
  }

  lemma NoEqualsNoHeader(s: string)
    requires '=' !in s
    ensures Headers(s) == []
  {
    forall i | 0 <= i < |Lines(s)| ensures Lines(s)[i] == "" || Lines(s)[i][0] != '=' { LinesAreMadeOf(s, i); }
    NoHeadersAmong(Lines(s), 0);
  }

  lemma OneLineIsPlain(name: string)
    requires '\n' !in name
    ensures Plain(name)
  {
    var title := Title(name);
    assert title[..|title| - 1] == "[" + name + "]";
    OneLine(title);
    NoHeadersAmong([title], 0);
  }

  /** A start marker that begins in a title lies in the name: it has neither bracket. */
  lemma StartInTitle(name: string, text: string, i: int)
    requires At(Title(name) + text, START, i) && i < |Title(name)|
    ensures 1 <= i && i + |START| <= |name| + 1 && At(name, START, i - 1)
  {
    var s := Title(name) + text;
    assert s[0] == '[' && s[|name| + 1] == ']';
    AtChars(s, START, i, 0);
    assert ']' !in START;
    if i + |START| > |name| + 1 && i <= |name| + 1 { AtChars(s, START, i, |name| + 1 - i); }
    assert s[|name| + 2] == '\n';
    assert s[i..i + |START|] == name[i - 1..i - 1 + |START|];
  }

  lemma StartInName(name: string, text: string, j: int)
    requires At(name, START, j)
    ensures At(Title(name) + text, START, j + 1)
  {
    var s := Title(name) + text;
    assert s[j + 1..j + 1 + |START|] == name[j..j + |START|];
  }

  lemma StartBehindTitle(name: string, text: string)
    requires Index(name, START) < 0
    ensures Index(Title(name) + text, START) == if Index(text, START) < 0 then -1
      else |Title(name)| + Index(text, START)
  {
    var title := Title(name);
    var here, there := Index(title + text, START), Index(text, START);
    if here >= 0 {
      if here < |title| {
        StartInTitle(name, text, here);
        assert false;
      }
      AtBehind(title, text, START, here - |title|);
    }
    if there >= 0 { AtBehind(title, text, START, there); }
  }

  lemma TitleKeepsEnvelope(name: string, text: string, table: string -> Entity)
    requires Index(name, START) < 0
    ensures EnvelopeIn(Title(name) + text, table) == EnvelopeIn(text, table)
  {
    StartBehindTitle(name, text);
    EnvelopeBehind(Title(name), text, Title(name) + text, table);
  }

  lemma {:induction false} EscapeIsNoShorter(s: string)
    ensures |Escape(s)| >= |s|
  {
    if s != "" { EscapeIsNoShorter(s[1..]); }
  }

  lemma EscapedPart(name: string, middle: string, p: nat)
    requires |START| <= p < |START| + |name|
    ensures p < |Envelope(name, middle)| && Envelope(name, middle)[p] != '<'
  {
    EscapeIsNoShorter(name);
    EscapeHasNoTag(name);
    assert Envelope(name, middle)[p] == Escape(name)[p - |START|];
  }

  /** With a start marker in the name the envelope begins in the title, where the name stands
      unescaped: it is not the rendered one. */
  lemma MarkedIsNotRendered(name: string, t: string, middle: string, table: string -> Entity)
    requires Index(name, START) >= 0 && t != "" && t[0] == '<'
    ensures EnvelopeIn(Title(name) + t, table) != Some(RenderedSkill(name, Envelope(name, middle)))
  {
    var s := Title(name) + t;
    StartInName(name, t, Index(name, START));
    var start := Index(s, START);
    StartInTitle(name, t, start);
    var p := |Title(name)| - start;
    EscapedPart(name, middle, p);
    var e := EnvelopeFrom(s[start..]);
    assert |e| > p ==> e[p] == s[start..][p];
    assert s[start..][p] == s[start + p] == t[0];
  }

  // ----- a skill called directly -----

  lemma HeadersBehindTitle(name: string, text: string)
    requires Plain(name)
    ensures Headers(Title(name) + text) == Shifted(Headers(text), |Title(name)|)
  {
    HeadersJoin(Title(name), text);
  }

  lemma TextIsRendered(skill: Skill, args: string, tail: string, table: string -> Entity)
    requires Index(tail, END) < 0
    ensures
      var text := Render(skill, args) + tail;
      && At(text, START, 0) && Index(text, START) == 0 && text[0] == '<'
        && (Headers(text) != [] ==> Headers(text)[0].start > 0)
      && (skill.name != "" ==> EnvelopeIn(text, table) == Some(RenderedSkill(skill.name, Render(skill, args))))
  {
    var text := Render(skill, args) + tail;
    EnvelopeWithTail(skill.name, Middle(skill.description, BodyOf(skill.content, args)), tail, table);
    AtChars(text, START, 0, 0);
    HeaderAtStart(text);
  }

  /** What a direct call puts into the conversation: the title line and the rendered skill. */
  function Called(skill: Skill, args: string): string { Title(skill.name) + Render(skill, args) }

  lemma CalledIsOneSegment(skill: Skill, args: string, table: string -> Entity)
    requires Plain(skill.name)
    ensures Segments(Called(skill, args)) == [Called(skill, args)]
  {
    var title, text, content := Title(skill.name), Render(skill, args), Called(skill, args);
    assert text + "" == text;
    TextIsRendered(skill, args, "", table);
    HeadersBehindTitle(skill.name, text);
    AtBehind(title, text, START, 0);
    if Headers(content) != [] { assert Headers(content)[0].start == |title| + Headers(text)[0].start; }
  }

  /** A skill called directly is found again in the call's result, name and whole envelope, whatever
      its text quotes, if and only if no start marker is in its name. */
  lemma DirectCallFoundExactlyWhenNoMarkerInName(skill: Skill, args: string, table: string -> Entity)
    requires skill.name != "" && Plain(skill.name)
    ensures Extract(Called(skill, args), table) == [RenderedSkill(skill.name, Render(skill, args))]
      <==> Index(skill.name, START) < 0
  {
    var text := Render(skill, args);
    assert text + "" == text;
    CalledIsOneSegment(skill, args, table);
    TextIsRendered(skill, args, "", table);
    OneSegment(Called(skill, args), table);
    if Index(skill.name, START) < 0 {
      TitleKeepsEnvelope(skill.name, text, table);
    } else {
      MarkedIsNotRendered(skill.name, text, Middle(skill.description, BodyOf(skill.content, args)), table);
    }
  }

  /** The input that shows it: a skill named like a start marker. */
  lemma MarkerInNameLosesTheSkill(table: string -> Entity)
    ensures Extract(Called(Skill(START, "", ""), ""), table) != [RenderedSkill(START, Render(Skill(START, "", ""), ""))]
  {
    NoEqualsNoHeader(Title(START));
    assert START[0..|START|] == START;
    assert At(START, START, 0);
    DirectCallFoundExactlyWhenNoMarkerInName(Skill(START, "", ""), "", table);
  }

  // ----- a skill called in a batch -----

  predicate IsTail(tail: string) { |tail| <= 2 && forall i | 0 <= i < |tail| :: tail[i] == '\n' }

  lemma TailHasNoEnd(tail: string)
    requires IsTail(tail)
    ensures Index(tail, END) < 0
  {}

  /** A skill call whose output is its title and a rendered skill, with the line ends the batch adds. */
  predicate IsSkillCall(b: Call, skill: Skill, args: string, tail: string) {
    && WellNamed(b) && b.tool == "skill" && IsTail(tail)
    && skill.name != "" && Plain(skill.name) && b.out == Title(skill.name) + (Render(skill, args) + tail)
  }

  lemma SkillHeader(b: Call)
    requires b.tool == "skill"
    ensures At(HeaderText(b) + "\n", "=== skill ", 0)
  {
    var line := HeaderText(b) + "\n";
    assert line[0..10] == "=== skill ";
  }

  /** A text up to its first header. */
  function Front(text: string): string {
    assert Headers(text) != [] ==> Headers(text)[0].start <= |text|;
    text[..if Headers(text) == [] then |text| else Headers(text)[0].start]
  }

  /** A skill call's segments: its output up to the first header in it, then those under such headers. */
  lemma SkillCallSegments(b: Call)
    requires WellNamed(b) && b.tool == "skill"
    ensures CallSegments(CallText(b)) == [Front(b.out)] + CallSegments(b.out)
  {
    var line, hb := HeaderText(b) + "\n", Headers(b.out);
    CallHeaders(b);
    SkillHeader(b);
    var hs := Headers(CallText(b));
    assert hs[1..] == Shifted(hb, |line|) && hs[0] == Header(0, |line|, true);
    var end := if hb == [] then |b.out| else hb[0].start;
    assert hb != [] ==> hs[1].start == |line| + hb[0].start;
    SliceBehind(line, b.out, 0, end);
    OrderedShift(hb, 0, |b.out|, |line|);
    SegmentsBehind(line, b.out, hb, 0);
  }

  lemma TitledSegments(name: string, text: string)
    requires Plain(name)
    ensures Headers(Title(name) + text) == Shifted(Headers(text), |Title(name)|)
    ensures Front(Title(name) + text) == Title(name) + Front(text)
    ensures CallSegments(Title(name) + text) == CallSegments(text)
  {
    var title, ht := Title(name), Headers(text);
    HeadersBehindTitle(name, text);
    OrderedShift(ht, 0, |text|, |title|);
    SegmentsBehind(title, text, ht, 0);
    SameSegments(title + text, Shifted(ht, |title|), 0, |title|);
    var end := if ht == [] then |text| else ht[0].start;
    assert (title + text)[..|title| + end] == title + text[..end];
  }

  /** A title line in front of any text changes nothing, if it holds neither header nor start marker. */
  lemma TitleIsTransparent(name: string, text: string, table: string -> Entity)
    requires Plain(name) && Index(name, START) < 0
    ensures Extract(Title(name) + text, table) == Extract(text, table)
  {
    var content := Title(name) + text;
    TitledSegments(name, text);
    StartBehindTitle(name, text);
    TitleKeepsEnvelope(name, text, table);
    OneSegment(content, table);
    OneSegment(text, table);
    assert Headers(text) != [] ==> Headers(content)[0].start == |Title(name)| + Headers(text)[0].start;
  }

  lemma OneLineIsTransparent(name: string, text: string, table: string -> Entity)
    requires '\n' !in name
    ensures Extract(Title(name) + text, table) == Extract(text, table)
  {
    OneLineIsPlain(name);
    AtChars(name, START, Index(name, START), 7);
    TitleIsTransparent(name, text, table);
  }

  /** A skill call under its title gives what the title and its text up to the first header give,
      and then what is under the headers in the text. */
  lemma TitledExtract(b: Call, name: string, text: string, table: string -> Entity)
    requires WellNamed(b) && b.tool == "skill" && Plain(name) && b.out == Title(name) + text
    ensures Headers(b.out) == [] <==> Headers(text) == []
    ensures Extract(CallText(b), table) == EnvelopesIn([Title(name) + Front(text)] + CallSegments(text), table)
  {
    CallHeaders(b);
    ExtractFromCalls(CallText(b), table);
    SkillCallSegments(b);
    TitledSegments(name, text);
  }

  predicate AllShorter(segments: seq<string>, n: int) { forall i | 0 <= i < |segments| :: |segments[i]| < n }

  lemma {:induction false} SegmentsAreShort(content: string, hs: seq<Header>, lo: nat)
    requires Ordered(hs, lo, |content|)
    ensures AllShorter(SegmentsUnder(content, hs, lo), |content| - lo - 4)
    decreases |hs|
  {
    if hs != [] {
      assert Ordered(hs[1..], hs[0].end, |content|);
      SegmentsAreShort(content, hs[1..], hs[0].end);
    }
  }

  lemma {:induction false} EnvelopeOfSome(segments: seq<string>, table: string -> Entity, r: RenderedSkill)
      returns (i: nat)
    requires r in EnvelopesIn(segments, table)
    ensures i < |segments| && EnvelopeIn(segments[i], table) == Some(r)
  {
    var n := |segments| - 1;
    if EnvelopeIn(segments[n], table) == Some(r) {
      i := n;
    } else {
      i := EnvelopeOfSome(segments[..n], table, r);
    }
  }

  lemma EnvelopeFits(segment: string, table: string -> Entity)
    ensures EnvelopeIn(segment, table).Some? ==> |EnvelopeIn(segment, table).value.envelope| <= |segment|
  {}

  /** A text cut by a header inside it is too short everywhere to give the whole envelope. */
  lemma CutGivesNoWhole(name: string, text: string, r: RenderedSkill, table: string -> Entity)
    requires Headers(text) != [] && |text| - 3 <= |r.envelope|
    requires EnvelopeIn(Title(name) + Front(text), table) != Some(r)
    ensures EnvelopesIn([Title(name) + Front(text)] + CallSegments(text), table) != [r]
  {
    var segments := [Title(name) + Front(text)] + CallSegments(text);
    SegmentsAreShort(text, Headers(text), 0);
    if EnvelopesIn(segments, table) == [r] {
      var i := EnvelopeOfSome(segments, table, r);
      if i > 0 { EnvelopeFits(CallSegments(text)[i - 1], table); }
      assert false;
    }
  }

  lemma FrontGivesNoWhole(skill: Skill, args: string, tail: string, table: string -> Entity)
    requires IsTail(tail) && skill.name != ""
    requires Headers(Render(skill, args) + tail) != [] || Index(skill.name, START) >= 0
    ensures EnvelopeIn(Title(skill.name) + Front(Render(skill, args) + tail), table)
      != Some(RenderedSkill(skill.name, Render(skill, args)))
  {
    var text := Render(skill, args) + tail;
    TailHasNoEnd(tail);
    TextIsRendered(skill, args, tail, table);
    var front := Front(text);
    assert front != "" && front[0] == '<';
    if Index(skill.name, START) >= 0 {
      MarkedIsNotRendered(skill.name, front, Middle(skill.description, BodyOf(skill.content, args)), table);
    } else {
      TitleKeepsEnvelope(skill.name, front, table);
      EnvelopeFits(front, table);
      assert |front| == Headers(text)[0].start && Headers(text)[0].start < |text| - 4;
    }
  }

  lemma WholeTextIsFound(b: Call, skill: Skill, args: string, tail: string, table: string -> Entity)
    requires WellNamed(b) && b.tool == "skill" && skill.name != "" && Plain(skill.name) && Index(skill.name, START) < 0
    requires b.out == Title(skill.name) + (Render(skill, args) + tail) && Index(tail, END) < 0 && Headers(b.out) == []
    ensures Extract(CallText(b), table) == [RenderedSkill(skill.name, Render(skill, args))]
  {
    var text := Render(skill, args) + tail;
    TitledExtract(b, skill.name, text, table);
    assert Front(text) == text && CallSegments(text) == [];
    var one := [Title(skill.name) + text];
    assert one + [] == one;
    OneSegment(Title(skill.name) + text, table);
    TitleKeepsEnvelope(skill.name, text, table);
    TextIsRendered(skill, args, tail, table);
  }

  /** A skill called in a batch is found again, name and whole envelope, if and only if nothing in
      its output looks like a header line of a batch and no start marker is in its name. */
  lemma SkillCallFoundExactlyWhenNoHeaderInside(b: Call, skill: Skill, args: string, tail: string,
      table: string -> Entity)
    requires IsSkillCall(b, skill, args, tail)
    ensures Extract(CallText(b), table) == [RenderedSkill(skill.name, Render(skill, args))]
      <==> Headers(b.out) == [] && Index(skill.name, START) < 0
  {
    var text, r := Render(skill, args) + tail, RenderedSkill(skill.name, Render(skill, args));
    TailHasNoEnd(tail);
    TitledExtract(b, skill.name, text, table);
    if Headers(text) == [] && Index(skill.name, START) < 0 {
      WholeTextIsFound(b, skill, args, tail, table);
    } else {
      FrontGivesNoWhole(skill, args, tail, table);
      if Headers(text) != [] {
        CutGivesNoWhole(skill.name, text, r, table);
      } else {
        assert Front(text) == text && CallSegments(text) == [];
        assert [Title(skill.name) + text] + [] == [Title(skill.name) + text];
        OneSegment(Title(skill.name) + text, table);
      }
    }
  }

  /** A text with a header line in it, behind whole lines, has a header. */
  lemma QuotedHeaderIsHeader(front: string, quoted: Call)
    requires EndsLine(front) && WellNamed(quoted)
    ensures Headers(front + CallText(quoted)) != []
  {
    CallHeaders(quoted);
    HeadersJoin(front, CallText(quoted));
  }

  /** So a skill whose text quotes a batch's header line is not given back. */
  lemma QuotedHeaderLosesTheSkill(
    b: Call, skill: Skill, args: string, tail: string, front: string, quoted: Call, table: string -> Entity)
    requires IsSkillCall(b, skill, args, tail)
    requires EndsLine(front) && WellNamed(quoted) && b.out == front + CallText(quoted)
    ensures Extract(CallText(b), table) != [RenderedSkill(skill.name, Render(skill, args))]
  {
    QuotedHeaderIsHeader(front, quoted);
    SkillCallFoundExactlyWhenNoHeaderInside(b, skill, args, tail, table);
  }

  lemma BodyWithoutArguments(content: string)
    requires '$' !in content
    ensures BodyOf(content, "") == content
  {
    AtChars(content, ARGUMENTS, Index(content, ARGUMENTS), 0);
  }

  lemma Regroup(a: string, b: string, m: string, c: string, e: string, t: string)
    ensures a + (b + (m + c) + e + t) == a + (b + m) + (c + (e + t))
  {}

  lemma MiddleOfLines(content: string)
    requires EndsLine(content)
    ensures Middle("", content) == "\n---\n" + content
  {}

  /** Skills that show it: those that consist of a header line. */
  lemma HeaderAsContent(b: Call, name: string, quoted: Call, tail: string, table: string -> Entity)
    requires WellNamed(quoted) && '$' !in HeaderText(quoted)
    requires IsSkillCall(b, Skill(name, "", HeaderText(quoted) + "\n"), "", tail)
    ensures Extract(CallText(b), table) != [RenderedSkill(name, Render(Skill(name, "", HeaderText(quoted) + "\n"), ""))]
  {
    var content, start := HeaderText(quoted) + "\n", START + Escape(name) + NAME_END;
    BodyWithoutArguments(content);
    MiddleOfLines(content);
    Regroup(Title(name), start, "\n---\n", content, END, tail);
    var whole := quoted.(out := END + tail);
    QuotedHeaderLosesTheSkill(b, Skill(name, "", content), "", tail, Title(name) + (start + "\n---\n"), whole, table);
  }

  lemma OneSuchSkill(b: Call, skill: Skill)
    requires skill == Skill("s", "", HeaderText(Call("a", "1", "")) + "\n")
    requires b == Call("skill", "1", Title("s") + (Render(skill, "") + "\n\n"))
    ensures WellNamed(Call("a", "1", "")) && '$' !in HeaderText(Call("a", "1", "")) && IsSkillCall(b, skill, "", "\n\n")
  {
    OneLineIsPlain("s");
  }

  lemma SomeSkillIsLost(table: string -> Entity) returns (b: Call, skill: Skill)
    ensures IsSkillCall(b, skill, "", "\n\n")
      && Extract(CallText(b), table) != [RenderedSkill(skill.name, Render(skill, ""))]
  {
    var quoted := Call("a", "1", "");
    skill := Skill("s", "", HeaderText(quoted) + "\n");
    b := Call("skill", "1", Title("s") + (Render(skill, "") + "\n\n"));
    OneSuchSkill(b, skill);
    HeaderAsContent(b, "s", quoted, "\n\n", table);
  }

  // ----- all skills of a batch -----

  /** A call that holds no skill: its output has no header line, and if its own header announces a
      skill, as a failed skill call's does, no start marker either. */
  predicate IsOtherCall(b: Call) {
    && WellNamed(b) && Headers(b.out) == []
    && (At(HeaderText(b) + "\n", "=== skill ", 0) ==> Index(b.out, START) < 0)
  }

  lemma OtherCallGivesNothing(b: Call, table: string -> Entity)
    requires IsOtherCall(b)
    ensures Extract(CallText(b), table) == []
  {
    var line := HeaderText(b) + "\n";
    CallHeaders(b);
    ExtractFromCalls(CallText(b), table);
    var hs, skill := Headers(CallText(b)), At(line, "=== skill ", 0);
    assert hs == [Header(0, |line|, skill)] && hs[1..] == [];
    assert CallText(b)[|line|..|CallText(b)|] == b.out;
    assert SegmentsUnder(CallText(b), hs[1..], |line|) == [];
    if skill {
      assert CallSegments(CallText(b)) == [b.out] + [] == [b.out];
      OneSegment(b.out, table);
    }
  }

  /** A call of a batch: a skill call together with the skill it rendered, or another one. */
  datatype Item = Invoked(call: Call, skill: Skill, args: string, tail: string) | Other(call: Call)

  predicate Sound(v: Item) {
    if v.Other? then IsOtherCall(v.call)
    else IsSkillCall(v.call, v.skill, v.args, v.tail) && Headers(v.call.out) == [] && Index(v.skill.name, START) < 0
  }

  function CallsOf(vs: seq<Item>): seq<Call> { if vs == [] then [] else [vs[0].call] + CallsOf(vs[1..]) }

  function SkillOf(v: Item): seq<RenderedSkill> {
    if v.Other? then [] else [RenderedSkill(v.skill.name, Render(v.skill, v.args))]
  }

  function SkillsOf(vs: seq<Item>): seq<RenderedSkill> { if vs == [] then [] else SkillOf(vs[0]) + SkillsOf(vs[1..]) }

  lemma ItemGivesItsSkill(v: Item, table: string -> Entity)
    requires Sound(v)
    ensures Extract(CallText(v.call), table) == SkillOf(v)
  {
    match v
    case Other(call) => OtherCallGivesNothing(call, table);
    case Invoked(call, skill, args, tail) => SkillCallFoundExactlyWhenNoHeaderInside(call, skill, args, tail, table);
  }

  lemma {:induction false} EachSkillFound(vs: seq<Item>, table: string -> Entity)
    requires forall i | 0 <= i < |vs| :: Sound(vs[i])
    ensures Extracted(CallsOf(vs), table) == SkillsOf(vs)
  {
    if vs != [] {
      ItemGivesItsSkill(vs[0], table);
      EachSkillFound(vs[1..], table);
      assert CallsOf(vs)[1..] == CallsOf(vs[1..]);
    }
  }

  /** A batch of skill calls and others, no output holding a header line, gives every skill back,
      with its name and whole envelope, in order, and nothing else. */
  lemma {:induction false} BatchGivesAllSkillsBack(vs: seq<Item>, table: string -> Entity)
    requires vs != [] && IsBatch(CallsOf(vs))
    requires forall i | 0 <= i < |vs| :: Sound(vs[i])
    ensures Extract(Batch(CallsOf(vs)), table) == SkillsOf(vs)
  {
    BatchIsCallByCall(CallsOf(vs), table);
    EachSkillFound(vs, table);
  }
}
