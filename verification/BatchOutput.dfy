/** What a batch returns: the calls' texts with the white space around them trimmed, so that a last
    call with nothing to show loses even the line end of its header. */
module BatchOutput {

  import opened Options
  import opened SkillEnvelope
  import opened SkillBatch
  import opened SkillCalls

  /** White space as Unicode has it. */
  predicate IsSpace(c: char) {
    || '\t' <= c <= '\r' || c == ' ' || c == '\U{85}' || c == '\U{A0}' || c == '\U{1680}'
    || '\U{2000}' <= c <= '\U{200A}'
    || c == '\U{2028}' || c == '\U{2029}' || c == '\U{202F}' || c == '\U{205F}' || c == '\U{3000}'
  }

  function TrimLeft(s: string): string { if s != "" && IsSpace(s[0]) then TrimLeft(s[1..]) else s }

  function TrimRight(s: string): string { if s != "" && IsSpace(s[|s| - 1]) then TrimRight(s[..|s| - 1]) else s }

  function TrimSpace(s: string): string { TrimRight(TrimLeft(s)) }

  lemma {:induction false} TrimJoin(x: string, y: string)
    ensures TrimRight(x + y) == if TrimRight(y) == "" then TrimRight(x) else x + TrimRight(y)
  {
    if y == "" {
      assert x + y == x;
    } else if IsSpace(y[|y| - 1]) {
      assert (x + y)[..|x + y| - 1] == x + y[..|y| - 1];
      TrimJoin(x, y[..|y| - 1]);
    }
  }

  /** Trimming cuts an end off. */
  lemma {:induction false} TrimIsFront(s: string)
    ensures |TrimRight(s)| <= |s| && TrimRight(s) == s[..|TrimRight(s)|]
  {
    if s != "" && IsSpace(s[|s| - 1]) {
      TrimIsFront(s[..|s| - 1]);
      assert s[..|s| - 1][..|TrimRight(s)|] == s[..|TrimRight(s)|];
    }
  }

  // ----- texts with the end cut off -----

  lemma {:induction false} LinesOfFront(x: string, y: string)
    ensures Lines(x) <= Lines(x + y)
  {
    if x != "" {
      assert (x + y)[0] == x[0] && (x + y)[1..] == x[1..] + y;
      LinesOfFront(x[1..], y);
    }
  }

  lemma HeadersOfFront(x: string, y: string)
    requires Headers(x + y) == []
    ensures Headers(x) == []
  {
    LinesOfFront(x, y);
    var a, all := Lines(x), Lines(x + y);
    assert a + all[|a|..] == all;
    HeadersAmongJoin(a, all[|a|..], 0);
  }

  // ----- a last call with nothing to show -----

  /** A text without a line end adds no header. */
  lemma {:induction false} NoLineNoHeader(y: string)
    requires '\n' !in y
    ensures Lines(y) == [] && Headers(y) == []
  {
    if y != "" { NoLineNoHeader(y[1..]); }
  }

  /** Nor does it continue a start marker: the marker's second line begins with `<`. */
  lemma NoStartAcross(x: string, y: string, i: int)
    requires EndsLine(x) && '\n' !in y && (y == "" || y[0] != '<') && At(x + y, START, i)
    ensures At(x, START, i)
  {
    var s := x + y;
    AtChars(s, START, i, 7);
    AtChars(s, START, i, 8);
    assert START[7] == '\n' && START[8] == '<';
    var last := |x| - 1;
    assert s[last] == '\n';
    assert forall k | 0 <= k < |START| && k != 7 :: START[k] != '\n';
    if i <= last < i + |START| { AtChars(s, START, i, last - i); }
    SliceInFront(x, y, i, i + |START|);
  }

  lemma HeaderTextIsQuiet(b: Call)
    requires WellNamed(b) && '<' !in b.tool
    ensures '\n' !in HeaderText(b) && HeaderText(b)[0] == '=' && '<' !in HeaderText(b)
      && TrimRight(HeaderText(b)) == HeaderText(b)
  {
    HeaderTextIsHeader(b);
    var y := HeaderText(b);
    assert y[|y| - 1] == '=';
    assert forall k | 0 <= k < |b.count| :: IsDigit(b.count[k]);
  }

  lemma NoTagNoEnd(x: string, y: string)
    requires IsTail(x) && '<' !in y
    ensures Index(x + y, END) < 0
  {
    AtChars(x + y, END, Index(x + y, END), 0);
  }

  /** A call followed by such a text still gives what it gave. */
  lemma TrailingTextIsHarmless(v: Item, y: string, table: string -> Entity)
    requires Sound(v) && EndsLine(v.call.out) && '\n' !in y && '<' !in y
    ensures Extract(CallText(v.call.(out := v.call.out + y)), table) == SkillOf(v)
  {
    var b, out := v.call.(out := v.call.out + y), v.call.out;
    HeadersJoin(out, y);
    NoLineNoHeader(y);
    assert Headers(b.out) == [];
    match v
    case Other(_) =>
      if Index(b.out, START) >= 0 { NoStartAcross(out, y, Index(b.out, START)); }
      assert HeaderText(b) == HeaderText(v.call);
      OtherCallGivesNothing(b, table);
    case Invoked(_, skill, args, tail) =>
      var r := Render(skill, args);
      Associates(Title(skill.name), r + tail, y);
      Associates(r, tail, y);
      NoTagNoEnd(tail, y);
      WholeTextIsFound(b, skill, args, tail + y, table);
  }

  lemma HeaderAloneGivesNothing(b: Call, table: string -> Entity)
    requires WellNamed(b) && '<' !in b.tool
    ensures Extract(HeaderText(b), table) == []
  {
    var y := HeaderText(b);
    HeaderTextIsQuiet(b);
    NoLineNoHeader(y);
    AtChars(y, START, Index(y, START), 0);
    OneSegment(y, table);
  }

  // ----- the whole output -----

  lemma {:induction false} BatchJoin(a: seq<Call>, b: Call)
    ensures Batch(a + [b]) == Batch(a) + CallText(b)
  {
    if a == [] {
      assert a + [b] == [b] && [b][1..] == [];
      assert Batch([b]) == CallText(b) + "";
    } else {
      assert (a + [b])[0] == a[0] && (a + [b])[1..] == a[1..] + [b];
      BatchJoin(a[1..], b);
      Associates(CallText(a[0]), Batch(a[1..]), CallText(b));
    }
  }

  lemma {:induction false} CallsJoin(vs: seq<Item>, v: Item)
    ensures CallsOf(vs + [v]) == CallsOf(vs) + [v.call] && SkillsOf(vs + [v]) == SkillsOf(vs) + SkillOf(v)
    ensures |CallsOf(vs)| == |vs| && forall i | 0 <= i < |vs| :: CallsOf(vs)[i] == vs[i].call
  {
    if vs == [] {
      assert vs + [v] == [v] && [v][1..] == [];
      assert SkillsOf([]) == [] && SkillsOf([v]) == SkillOf(v) + [];
    } else {
      assert (vs + [v])[0] == vs[0] && (vs + [v])[1..] == vs[1..] + [v];
      CallsJoin(vs[1..], v);
      Associates([vs[0].call], CallsOf(vs[1..]), [v.call]);
      Associates(SkillOf(vs[0]), SkillsOf(vs[1..]), SkillOf(v));
    }
  }

  lemma {:induction false} ExtractedJoin(a: seq<Call>, b: Call, table: string -> Entity)
    ensures Extracted(a + [b], table) == Extracted(a, table) + Extract(CallText(b), table)
  {
    if a == [] {
      assert a + [b] == [b] && [b][1..] == [];
      assert Extracted([], table) == [];
    } else {
      assert (a + [b])[0] == a[0] && (a + [b])[1..] == a[1..] + [b];
      ExtractedJoin(a[1..], b, table);
      Associates(Extract(CallText(a[0]), table), Extracted(a[1..], table), Extract(CallText(b), table));
    }
  }

  predicate All<T>(vs: seq<T>, p: T -> bool) { forall i | 0 <= i < |vs| :: p(vs[i]) }

  lemma SplitLast<T>(vs: seq<T>, p: T -> bool) returns (front: seq<T>, v: T)
    requires vs != [] && All(vs, p)
    ensures vs == front + [v] && All(front, p) && p(v)
  {
    front, v := vs[..|vs| - 1], vs[|vs| - 1];
  }

  lemma AllInFront<T>(vs: seq<T>, v: T, p: T -> bool)
    requires All(vs + [v], p)
    ensures All(vs, p) && p(v)
  {
    assert (vs + [v])[|vs|] == v;
    forall i | 0 <= i < |vs| ensures p(vs[i]) { assert (vs + [v])[i] == vs[i]; }
  }

  /** A call as the batch writes it: it ends its line. */
  predicate Written(v: Item) { Sound(v) && EndsLine(v.call.out) }

  predicate AllSound(vs: seq<Item>) { All(vs, Written) }

  lemma CallIsWellNamed(v: Item)
    requires Sound(v)
    ensures WellNamed(v.call)
  {}

  /** All but the last call as written, the last one with another output. */
  lemma {:induction false} ExtractWithLast(vs: seq<Item>, b: Call, table: string -> Entity)
    requires AllSound(vs) && WellNamed(b)
    ensures Extract(Batch(CallsOf(vs) + [b]), table) == SkillsOf(vs) + Extract(CallText(b), table)
  {
    var calls := CallsOf(vs) + [b];
    if vs != [] { CallsJoin(vs, vs[0]); }
    assert IsBatch(calls) by {
      forall i | 0 <= i < |calls| ensures WellNamed(calls[i]) && (i < |calls| - 1 ==> EndsLine(calls[i].out)) {
        if i < |vs| { CallIsWellNamed(vs[i]); }
      }
    }
    BatchIsCallByCall(calls, table);
    ExtractedJoin(CallsOf(vs), b, table);
    EachSkillFound(vs, table);
  }

  lemma TrimmedHasNoHeader(out: string)
    requires Headers(out) == []
    ensures Headers(TrimRight(out)) == [] && (Index(out, START) < 0 ==> Index(TrimRight(out), START) < 0)
  {
    var cut := TrimRight(out);
    TrimIsFront(out);
    var rest := out[|cut|..];
    assert out == cut + rest;
    HeadersOfFront(cut, rest);
    if Index(cut, START) >= 0 { OccursInFront(cut, rest, START, Index(cut, START)); }
  }

  /** The last call, its output trimmed but not empty, gives what it gave. */
  lemma TrimmedItemGivesItsSkill(v: Item, table: string -> Entity)
    requires Sound(v) && TrimRight(v.call.out) != ""
    ensures Extract(CallText(v.call.(out := TrimRight(v.call.out))), table) == SkillOf(v)
  {
    var b := v.call.(out := TrimRight(v.call.out));
    TrimmedHasNoHeader(v.call.out);
    match v
    case Other(_) =>
      assert HeaderText(b) == HeaderText(v.call);
      OtherCallGivesNothing(b, table);
    case Invoked(_, skill, args, tail) =>
      TrimmedSkill(skill, args, tail);
      WholeTextIsFound(b, skill, args, "", table);
  }

  lemma {:induction false} TailIsBlank(tail: string)
    requires IsTail(tail)
    ensures TrimRight(tail) == ""
  {
    if tail != "" { TailIsBlank(tail[..|tail| - 1]); }
  }

  lemma TrimmedSkill(skill: Skill, args: string, tail: string)
    requires IsTail(tail)
    ensures TrimRight(Title(skill.name) + (Render(skill, args) + tail)) ==
      Title(skill.name) + (Render(skill, args) + "")
  {
    var title, r := Title(skill.name), Render(skill, args);
    TailIsBlank(tail);
    TrimJoin(r, tail);
    assert r[|r| - 1] == '>';
    assert TrimRight(r) == r && r + "" == r;
    TrimJoin(title, r + tail);
  }

  lemma TrimLeftOfBatch(vs: seq<Item>)
    requires vs != []
    ensures TrimLeft(Batch(CallsOf(vs))) == Batch(CallsOf(vs))
  {
    var calls := CallsOf(vs);
    assert CallText(calls[0])[0] == '=';
    assert Batch(calls)[0] == '=';
  }

  lemma {:induction false} LastIsTrimmed(vs: seq<Item>, last: Item, table: string -> Entity)
    requires AllSound(vs) && Sound(last) && TrimRight(last.call.out) != ""
    ensures Extract(TrimRight(Batch(CallsOf(vs)) + CallText(last.call)), table) == SkillsOf(vs) + SkillOf(last)
  {
    var b := last.call;
    var cut := b.(out := TrimRight(b.out));
    TrimJoin(HeaderText(b) + "\n", b.out);
    TrimJoin(Batch(CallsOf(vs)), CallText(b));
    BatchJoin(CallsOf(vs), cut);
    CallIsWellNamed(last);
    ExtractWithLast(vs, cut, table);
    TrimmedItemGivesItsSkill(last, table);
  }

  lemma TrimLineEnd(y: string, line: string)
    requires TrimRight(y) == y && line == y + "\n"
    ensures TrimRight(line) == y
  {
    assert line[..|line| - 1] == y;
  }

  lemma TrimBlankCall(x: string, b: Call)
    requires WellNamed(b) && '<' !in b.tool && TrimRight(b.out) == ""
    ensures TrimRight(x + CallText(b)) == x + HeaderText(b)
  {
    var y, line := HeaderText(b), HeaderText(b) + "\n";
    HeaderTextIsQuiet(b);
    TrimLineEnd(y, line);
    TrimJoin(line, b.out);
    TrimJoin(x, CallText(b));
  }

  lemma BlankIsOther(v: Item)
    requires Sound(v) && TrimRight(v.call.out) == ""
    ensures SkillOf(v) == []
  {
    if v.Invoked? { TrimmedSkill(v.skill, v.args, v.tail); }
  }

  lemma {:induction false} BlankBehindOthers(vs: seq<Item>, v: Item, y: string, table: string -> Entity)
    requires AllSound(vs) && Written(v) && '\n' !in y && '<' !in y
    ensures Extract(Batch(CallsOf(vs + [v])) + y, table) == SkillsOf(vs + [v])
  {
    var b := v.call.(out := v.call.out + y);
    CallsJoin(vs, v);
    BatchJoin(CallsOf(vs), v.call);
    BatchJoin(CallsOf(vs), b);
    Associates(HeaderText(b) + "\n", v.call.out, y);
    Associates(Batch(CallsOf(vs)), CallText(v.call), y);
    CallIsWellNamed(v);
    ExtractWithLast(vs, b, table);
    TrailingTextIsHarmless(v, y, table);
  }

  lemma {:induction false} BlankBehindSome(vs: seq<Item>, y: string, table: string -> Entity)
    requires vs != [] && AllSound(vs) && '\n' !in y && '<' !in y
    ensures Extract(Batch(CallsOf(vs)) + y, table) == SkillsOf(vs)
  {
    var front, v := SplitLast(vs, Written);
    BlankBehindOthers(front, v, y, table);
  }

  lemma {:induction false} BareHeaderIsHarmless(vs: seq<Item>, b: Call, table: string -> Entity)
    requires AllSound(vs) && WellNamed(b) && '<' !in b.tool
    ensures Extract(Batch(CallsOf(vs)) + HeaderText(b), table) == SkillsOf(vs)
  {
    if vs == [] {
      HeaderAloneGivesNothing(b, table);
      assert Batch(CallsOf(vs)) + HeaderText(b) == HeaderText(b);
    } else {
      HeaderTextIsQuiet(b);
      BlankBehindSome(vs, HeaderText(b), table);
    }
  }

  lemma {:induction false} LastIsBlank(vs: seq<Item>, last: Item, table: string -> Entity)
    requires AllSound(vs) && Sound(last) && TrimRight(last.call.out) == "" && '<' !in last.call.tool
    ensures Extract(TrimRight(Batch(CallsOf(vs)) + CallText(last.call)), table) == SkillsOf(vs) + SkillOf(last)
  {
    CallIsWellNamed(last);
    BlankIsOther(last);
    TrimBlankCall(Batch(CallsOf(vs)), last.call);
    BareHeaderIsHarmless(vs, last.call, table);
  }

  /** What a batch returns gives all its skills back in order and nothing else, trimmed as it is. */
  lemma {:induction false} OutputGivesAllSkillsBack(vs: seq<Item>, last: Item, table: string -> Entity)
    requires AllSound(vs + [last]) && '<' !in last.call.tool
    ensures Extract(TrimSpace(Batch(CallsOf(vs + [last]))), table) == SkillsOf(vs + [last])
  {
    var b := last.call;
    AllInFront(vs, last, Written);
    CallIsWellNamed(last);
    TrimLeftOfBatch(vs + [last]);
    CallsJoin(vs, last);
    BatchJoin(CallsOf(vs), b);
    if TrimRight(b.out) != "" {
      LastIsTrimmed(vs, last, table);
    } else {
      LastIsBlank(vs, last, table);
    }
  }

  /** And so does what the conversation gets, the batch's title line in front of it. */
  lemma {:induction false} ResultGivesAllSkillsBack(vs: seq<Item>, last: Item, title: string, table: string -> Entity)
    requires AllSound(vs + [last]) && '<' !in last.call.tool && '\n' !in title
    ensures Extract(Title(title) + TrimSpace(Batch(CallsOf(vs + [last]))), table) == SkillsOf(vs + [last])
  {
    OneLineIsTransparent(title, TrimSpace(Batch(CallsOf(vs + [last]))), table);
    OutputGivesAllSkillsBack(vs, last, table);
  }
}
