/** UTF-8 well-formedness, section 3 of RFC 3629. */
module Utf8 {

  type Byte = x: int | 0 <= x < 256

  predicate Continuation(b: Byte) { 0x80 <= b <= 0xBF }

  /** The second byte of a longer sequence: no overlong form, no surrogate, nothing past U+10FFFF. */
  predicate Second(first: Byte, b: Byte) {
    match first
    case 0xE0 => 0xA0 <= b <= 0xBF
    case 0xED => 0x80 <= b <= 0x9F
    case 0xF0 => 0x90 <= b <= 0xBF
    case 0xF4 => 0x80 <= b <= 0x8F
    case _ => Continuation(b)
  }

  /** The length of the sequence `s` starts with, 0 when it starts with none. */
  function FirstLength(s: seq<Byte>): (n: nat)
    requires s != []
    ensures n <= |s|
    ensures forall i | 1 <= i < n :: Continuation(s[i])
  {
    if s[0] < 0x80 then 1
    else if 0xC2 <= s[0] <= 0xDF then (if |s| >= 2 && Second(s[0], s[1]) then 2 else 0)
    else if 0xE0 <= s[0] <= 0xEF then (if |s| >= 3 && Second(s[0], s[1]) && Continuation(s[2]) then 3 else 0)
    else if 0xF0 <= s[0] <= 0xF4 then
      (if |s| >= 4 && Second(s[0], s[1]) && Continuation(s[2]) && Continuation(s[3]) then 4 else 0)
    else 0
  }

  predicate WellFormed(s: seq<Byte>)
    decreases |s|
  {
    s == [] || (FirstLength(s) > 0 && WellFormed(s[FirstLength(s)..]))
  }

  /** A well-formed text cut before any byte that is no continuation byte stays well-formed. */
  lemma {:induction false} WellFormedFrom(s: seq<Byte>, i: nat)
    requires WellFormed(s) && i <= |s| && (i < |s| ==> !Continuation(s[i]))
    ensures WellFormed(s[i..])
    decreases |s|
  {
    if i > 0 {
      var n := FirstLength(s);
      assert n <= i;
      WellFormedFrom(s[n..], i - n);
      assert s[n..][i - n..] == s[i..];
    }
  }

  predicate LongestPrefix(p: seq<Byte>, s: seq<Byte>) {
    && p <= s && WellFormed(p)
    && forall n | |p| < n <= |s| :: !WellFormed(s[..n])
  }

  /** The longest well-formed prefix. */
  function LongestWellFormed(s: seq<Byte>): (p: seq<Byte>)
    ensures LongestPrefix(p, s)
  {
    if WellFormed(s) then s
    else
      var p := LongestWellFormed(s[..|s| - 1]);
      assert forall n | |p| < n < |s| :: s[..n] == s[..|s| - 1][..n];
      assert s[..|s|] == s;
      p
  }

  /** Drops bytes from the end until the rest is well-formed. */
  method TrimToWellFormed(s: seq<Byte>) returns (p: seq<Byte>)
    ensures p == LongestWellFormed(s)
  {
    p := s;
    while |p| > 0 && !WellFormed(p)
      invariant LongestWellFormed(p) == LongestWellFormed(s)
      decreases |p|
    {
      p := p[..|p| - 1];
    }
  }

  // ----- well-formed texts are exactly the encodings -----

  /** A Unicode scalar value: no surrogate, nothing past U+10FFFF. */
  predicate Scalar(c: int) { 0 <= c < 0xD800 || 0xE000 <= c <= 0x10FFFF }

  /** The bits of `c` in groups of six, behind a first byte that tells how many bytes follow. */
  function Encode(c: int): (s: seq<Byte>)
    requires Scalar(c)
    ensures s != []
  {
    if c < 0x80 then [c]
    else if c < 0x800 then [0xC0 + c / 64, 0x80 + c % 64]
    else if c < 0x10000 then [0xE0 + c / 4096, 0x80 + c / 64 % 64, 0x80 + c % 64]
    else [0xF0 + c / 262144, 0x80 + c / 4096 % 64, 0x80 + c / 64 % 64, 0x80 + c % 64]
  }

  function EncodeAll(cs: seq<int>): seq<Byte>
    requires forall i | 0 <= i < |cs| :: Scalar(cs[i])
  {
    if cs == [] then [] else Encode(cs[0]) + EncodeAll(cs[1..])
  }

  lemma EncodedIsFirst(c: int, rest: seq<Byte>)
    requires Scalar(c)
    ensures FirstLength(Encode(c) + rest) == |Encode(c)|
  {}

  lemma {:induction false} EncodingsAreWellFormed(cs: seq<int>)
    requires forall i | 0 <= i < |cs| :: Scalar(cs[i])
    ensures WellFormed(EncodeAll(cs))
  {
    if cs != [] {
      var rest := EncodeAll(cs[1..]);
      EncodedIsFirst(cs[0], rest);
      EncodingsAreWellFormed(cs[1..]);
      assert (Encode(cs[0]) + rest)[|Encode(cs[0])|..] == rest;
    }
  }

  lemma Groups(q: nat, r: nat)
    requires r < 64
    ensures (q * 64 + r) / 64 == q && (q * 64 + r) % 64 == r
  {}

  lemma TwoGroups(c: nat)
    ensures c / 4096 == c / 64 / 64 && c / 262144 == c / 64 / 64 / 64
  {}

  lemma Two(a: Byte, b: Byte) returns (c: int)
    requires 0xC2 <= a <= 0xDF && Continuation(b)
    ensures Scalar(c) && Encode(c) == [a, b]
  {
    var q: nat, r: nat := a - 0xC0, b - 0x80;
    c := q * 64 + r;
    Groups(q, r);
  }

  lemma Three(a: Byte, b: Byte, d: Byte) returns (c: int)
    requires 0xE0 <= a <= 0xEF && Second(a, b) && Continuation(d)
    ensures Scalar(c) && Encode(c) == [a, b, d]
  {
    var p: nat, q: nat, r: nat := a - 0xE0, b - 0x80, d - 0x80;
    var pq: nat := p * 64 + q;
    c := pq * 64 + r;
    Groups(p, q);
    Groups(pq, r);
    TwoGroups(c);
  }

  lemma Four(a: Byte, b: Byte, d: Byte, e: Byte) returns (c: int)
    requires 0xF0 <= a <= 0xF4 && Second(a, b) && Continuation(d) && Continuation(e)
    ensures Scalar(c) && Encode(c) == [a, b, d, e]
  {
    var o: nat, p: nat, q: nat, r: nat := a - 0xF0, b - 0x80, d - 0x80, e - 0x80;
    var op: nat := o * 64 + p;
    var opq: nat := op * 64 + q;
    c := opq * 64 + r;
    Groups(o, p);
    Groups(op, q);
    Groups(opq, r);
    TwoGroups(c);
  }

  lemma FirstIsEncoded(s: seq<Byte>) returns (c: int)
    requires s != [] && FirstLength(s) > 0
    ensures Scalar(c) && Encode(c) == s[..FirstLength(s)]
  {
    match FirstLength(s)
    case 1 => c := s[0];
    case 2 => c := Two(s[0], s[1]);
    case 3 => c := Three(s[0], s[1], s[2]);
    case _ => c := Four(s[0], s[1], s[2], s[3]);
  }

  lemma {:induction false} WellFormedIsEncoded(s: seq<Byte>) returns (cs: seq<int>)
    requires WellFormed(s)
    ensures (forall i | 0 <= i < |cs| :: Scalar(cs[i])) && EncodeAll(cs) == s
    decreases |s|
  {
    if s == [] {
      cs := [];
    } else {
      var n := FirstLength(s);
      var c := FirstIsEncoded(s);
      var rest := WellFormedIsEncoded(s[n..]);
      cs := [c] + rest;
      assert cs[1..] == rest && s == s[..n] + s[n..];
    }
  }

  ghost predicate IsEncoding(s: seq<Byte>) {
    exists cs: seq<int> :: (forall i | 0 <= i < |cs| :: Scalar(cs[i])) && EncodeAll(cs) == s
  }

  /** A byte string is well-formed if and only if it encodes a sequence of scalar values. */
  lemma WellFormedExactlyWhenEncoding(s: seq<Byte>)
    ensures WellFormed(s) <==> IsEncoding(s)
  {
    if WellFormed(s) { var cs := WellFormedIsEncoded(s); }
    if IsEncoding(s) {
      var cs: seq<int> :| (forall i | 0 <= i < |cs| :: Scalar(cs[i])) && EncodeAll(cs) == s;
      EncodingsAreWellFormed(cs);
    }
  }
}
