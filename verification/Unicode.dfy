/**
  UTF-8 text as the chunk-size line is read: well-formedness and white space, decided
  byte by byte, and what they mean in terms of the characters of RFC 3629.
 */
module Unicode {
  import opened Bytes

  // ------------------------------------------------------------------ UTF-8

  predicate Tail(b: byte) {
    0x80 <= b <= 0xBF
  }

  /** The length of the well-formed UTF-8 character `s` starts with, 0 if there is none. */
  function CharLength(s: seq<byte>): (n: nat)
    ensures n <= |s| && n <= 4
  {
    if s == [] then 0
    else if s[0] <= 0x7F then 1
    else if 0xC2 <= s[0] <= 0xDF && |s| >= 2 && Tail(s[1]) then 2
    else if 0xE0 <= s[0] <= 0xEF && |s| >= 3 && Tail(s[1]) && Tail(s[2])
            && (s[0] == 0xE0 ==> s[1] >= 0xA0) && (s[0] == 0xED ==> s[1] <= 0x9F) then 3
    else if 0xF0 <= s[0] <= 0xF4 && |s| >= 4 && Tail(s[1]) && Tail(s[2]) && Tail(s[3])
            && (s[0] == 0xF0 ==> s[1] >= 0x90) && (s[0] == 0xF4 ==> s[1] <= 0x8F) then 4
    else 0
  }

  predicate Utf8(s: seq<byte>) {
    s == [] || (CharLength(s) > 0 && Utf8(s[CharLength(s)..]))
  }

  predicate Ascii(s: seq<byte>) {
    forall i | 0 <= i < |s| :: s[i] <= 0x7F
  }

  lemma {:induction false} AsciiPrefixUtf8(a: seq<byte>, s: seq<byte>)
    requires Ascii(a)
    ensures Utf8(a + s) == Utf8(s)
  {
    if a == [] {
      assert a + s == s;
    } else {
      AsciiPrefixUtf8(a[1..], s);
      assert (a + s)[1..] == a[1..] + s;
    }
  }

  // ------------------------------------------------------------- white space

  /** The encodings of the characters with the White_Space property. */
  predicate WhiteSpace(c: seq<byte>) {
    || (|c| == 1 && (9 <= c[0] <= 13 || c[0] == 32))
    || (|c| == 2 && c[0] == 0xC2 && c[1] in {0x85, 0xA0})
    || (|c| == 3 && c[0] == 0xE1 && c[1] == 0x9A && c[2] == 0x80)
    || (|c| == 3 && c[0] == 0xE2 && c[1] == 0x80 && (0x80 <= c[2] <= 0x8A || c[2] in {0xA8, 0xA9, 0xAF}))
    || (|c| == 3 && c[0] == 0xE2 && c[1] == 0x81 && c[2] == 0x9F)
    || (|c| == 3 && c[0] == 0xE3 && c[1] == 0x80 && c[2] == 0x80)
  }

  function LeadingSpace(s: seq<byte>): (n: nat)
    ensures n <= |s|
  {
    if |s| >= 1 && WhiteSpace(s[..1]) then 1
    else if |s| >= 2 && WhiteSpace(s[..2]) then 2
    else if |s| >= 3 && WhiteSpace(s[..3]) then 3
    else 0
  }

  function TrailingSpace(s: seq<byte>): (n: nat)
    ensures n <= |s|
  {
    if |s| >= 1 && WhiteSpace(s[|s| - 1..]) then 1
    else if |s| >= 2 && WhiteSpace(s[|s| - 2..]) then 2
    else if |s| >= 3 && WhiteSpace(s[|s| - 3..]) then 3
    else 0
  }

  function TrimStart(s: seq<byte>): seq<byte>
    decreases |s|
  {
    if LeadingSpace(s) > 0 then TrimStart(s[LeadingSpace(s)..]) else s
  }

  function TrimEnd(s: seq<byte>): seq<byte>
    decreases |s|
  {
    if TrailingSpace(s) > 0 then TrimEnd(s[..|s| - TrailingSpace(s)]) else s
  }

  function Trim(s: seq<byte>): seq<byte> {
    TrimEnd(TrimStart(s))
  }

  // -------------------------------------------------------------- characters

  /** The Unicode scalar values: everything up to 0x10FFFF but the surrogates. */
  predicate IsScalar(cp: nat) {
    cp <= 0x10FFFF && !(0xD800 <= cp <= 0xDFFF)
  }

  function Continuation(bits: nat): byte
    requires bits < 0x40
  {
    (0x80 + bits) as byte
  }

  /** Section 3 of RFC 3629: six bits to every continuation byte, the rest in the first. */
  function EncodeScalar(cp: nat): (c: seq<byte>)
    requires IsScalar(cp)
    ensures 1 <= |c| <= 4
  {
    var high, low := cp / 0x40, cp % 0x40;
    var higher, middle := high / 0x40, high % 0x40;
    if cp < 0x80 then [cp as byte]
    else if cp < 0x800 then [(0xC0 + high) as byte, Continuation(low)]
    else if cp < 0x10000 then [(0xE0 + higher) as byte, Continuation(middle), Continuation(low)]
    else [(0xF0 + higher / 0x40) as byte, Continuation(higher % 0x40), Continuation(middle), Continuation(low)]
  }

  function Bits(b: byte): nat
    requires Tail(b)
  {
    b as nat - 0x80
  }

  /** The character with the given bytes, if they are one. */
  function ScalarOf(c: seq<byte>): nat
    requires 1 <= |c| <= 4 && CharLength(c) == |c|
  {
    if |c| == 1 then c[0] as nat
    else if |c| == 2 then (c[0] as nat - 0xC0) * 0x40 + Bits(c[1])
    else if |c| == 3 then ((c[0] as nat - 0xE0) * 0x40 + Bits(c[1])) * 0x40 + Bits(c[2])
    else (((c[0] as nat - 0xF0) * 0x40 + Bits(c[1])) * 0x40 + Bits(c[2])) * 0x40 + Bits(c[3])
  }

  lemma Split(high: nat, low: nat)
    requires low < 0x40
    ensures (high * 0x40 + low) / 0x40 == high && (high * 0x40 + low) % 0x40 == low
  {
  }

  lemma TwoBytes(c: seq<byte>)
    requires |c| == 2 && CharLength(c) == 2
    ensures IsScalar(ScalarOf(c)) && EncodeScalar(ScalarOf(c)) == c
  {
    Split(c[0] as nat - 0xC0, Bits(c[1]));
  }

  lemma ThreeBytes(c: seq<byte>)
    requires |c| == 3 && CharLength(c) == 3
    ensures IsScalar(ScalarOf(c)) && EncodeScalar(ScalarOf(c)) == c
  {
    var a := c[0] as nat - 0xE0;
    Split(a, Bits(c[1]));
    Split(a * 0x40 + Bits(c[1]), Bits(c[2]));
  }

  lemma FourBytes(c: seq<byte>)
    requires |c| == 4 && CharLength(c) == 4
    ensures IsScalar(ScalarOf(c)) && EncodeScalar(ScalarOf(c)) == c
  {
    var a := c[0] as nat - 0xF0;
    Split(a, Bits(c[1]));
    Split(a * 0x40 + Bits(c[1]), Bits(c[2]));
    Split((a * 0x40 + Bits(c[1])) * 0x40 + Bits(c[2]), Bits(c[3]));
  }

  lemma CharIsScalar(c: seq<byte>)
    requires 1 <= |c| <= 4 && CharLength(c) == |c|
    ensures IsScalar(ScalarOf(c)) && EncodeScalar(ScalarOf(c)) == c
  {
    if |c| == 2 {
      TwoBytes(c);
    } else if |c| == 3 {
      ThreeBytes(c);
    } else if |c| == 4 {
      FourBytes(c);
    }
  }

  lemma ScalarIsChar(cp: nat, rest: seq<byte>)
    requires IsScalar(cp)
    ensures CharLength(EncodeScalar(cp) + rest) == |EncodeScalar(cp)|
  {
  }

  ghost predicate AreScalars(cps: seq<nat>) {
    forall i | 0 <= i < |cps| :: IsScalar(cps[i])
  }

  ghost function EncodeAll(cps: seq<nat>): seq<byte>
    requires AreScalars(cps)
  {
    if cps == [] then [] else EncodeScalar(cps[0]) + EncodeAll(cps[1..])
  }

  lemma {:induction false} EncodedIsUtf8(cps: seq<nat>)
    requires AreScalars(cps)
    ensures Utf8(EncodeAll(cps))
  {
    hide EncodeScalar, CharLength;
    if cps != [] {
      var c, rest := EncodeScalar(cps[0]), EncodeAll(cps[1..]);
      ScalarIsChar(cps[0], rest);
      EncodedIsUtf8(cps[1..]);
      assert (c + rest)[|c|..] == rest;
    }
  }

  lemma CharAlone(s: seq<byte>)
    requires CharLength(s) > 0
    ensures CharLength(s[..CharLength(s)]) == CharLength(s)
  {
  }

  lemma {:induction false} Utf8IsEncoded(s: seq<byte>) returns (cps: seq<nat>)
    requires Utf8(s)
    ensures AreScalars(cps) && EncodeAll(cps) == s
    decreases |s|
  {
    hide EncodeScalar, CharLength, ScalarOf;
    if s == [] {
      cps := [];
    } else {
      var n := CharLength(s);
      CharAlone(s);
      CharIsScalar(s[..n]);
      var rest := Utf8IsEncoded(s[n..]);
      cps := [ScalarOf(s[..n])] + rest;
      assert cps[1..] == rest;
    }
  }

  /** Bytes are accepted as text exactly if they are the encodings of characters, one after another. */
  lemma Utf8Exactly(s: seq<byte>)
    ensures Utf8(s) <==> exists cps :: AreScalars(cps) && EncodeAll(cps) == s
  {
    if Utf8(s) {
      var cps := Utf8IsEncoded(s);
    } else {
      forall cps | AreScalars(cps)
        ensures EncodeAll(cps) != s
      {
        EncodedIsUtf8(cps);
      }
    }
  }

  // -------------------------------------------------------------- white space

  /** The characters with the White_Space property. */
  predicate IsWhite(cp: nat) {
    || 0x09 <= cp <= 0x0D || cp in {0x20, 0x85, 0xA0, 0x1680} || 0x2000 <= cp <= 0x200A
    || cp in {0x2028, 0x2029, 0x202F, 0x205F, 0x3000}
  }

  lemma WhiteIsScalar(cp: nat)
    requires IsWhite(cp)
    ensures IsScalar(cp) && |EncodeScalar(cp)| <= 3 && WhiteSpace(EncodeScalar(cp))
  {
  }

  lemma WhiteSpaceIsWhite(c: seq<byte>)
    requires WhiteSpace(c)
    ensures 1 <= |c| <= 3 && CharLength(c) == |c| && IsWhite(ScalarOf(c))
  {
  }

  /** The test finds exactly the encodings of white space characters. */
  lemma WhiteSpaceExactly(c: seq<byte>)
    ensures WhiteSpace(c) <==> exists cp :: IsWhite(cp) && IsScalar(cp) && EncodeScalar(cp) == c
  {
    hide WhiteSpace, EncodeScalar, IsWhite;
    if WhiteSpace(c) {
      WhiteSpaceIsWhite(c);
      CharIsScalar(c);
    }
    forall cp | IsWhite(cp) && IsScalar(cp) && EncodeScalar(cp) == c
      ensures WhiteSpace(c)
    {
      WhiteIsScalar(cp);
    }
  }

  ghost predicate AllWhite(cps: seq<nat>) {
    forall i | 0 <= i < |cps| :: IsWhite(cps[i]) && IsScalar(cps[i])
  }

  lemma {:induction false} EncodeAllConcat(xs: seq<nat>, ys: seq<nat>)
    requires AreScalars(xs) && AreScalars(ys)
    ensures AreScalars(xs + ys) && EncodeAll(xs + ys) == EncodeAll(xs) + EncodeAll(ys)
  {
    hide EncodeScalar;
    if xs == [] {
      assert xs + ys == ys;
      assert EncodeAll(xs) + EncodeAll(ys) == EncodeAll(ys);
    } else {
      EncodeAllConcat(xs[1..], ys);
      var c, rest, tail := EncodeScalar(xs[0]), EncodeAll(xs[1..]), EncodeAll(ys);
      assert (xs + ys)[1..] == xs[1..] + ys;
      assert c + (rest + tail) == (c + rest) + tail;
    }
  }

  predicate StartsWith(s: seq<byte>, c: seq<byte>) {
    |c| <= |s| && s[..|c|] == c
  }

  predicate EndsIn(s: seq<byte>, c: seq<byte>) {
    |c| <= |s| && s[|s| - |c|..] == c
  }

  /** No white space character at the front, or at the back. */
  ghost predicate FrontClean(s: seq<byte>) {
    forall c | WhiteSpace(c) :: !StartsWith(s, c)
  }

  ghost predicate BackClean(s: seq<byte>) {
    forall c | WhiteSpace(c) :: !EndsIn(s, c)
  }

  lemma WhiteSpaceShort(c: seq<byte>)
    requires WhiteSpace(c)
    ensures |c| in {1, 2, 3}
  {
  }

  lemma NoLeadingSpace(s: seq<byte>)
    ensures LeadingSpace(s) == 0 <==> FrontClean(s)
    ensures LeadingSpace(s) > 0 ==> WhiteSpace(s[..LeadingSpace(s)])
  {
    hide WhiteSpace;
    forall c | WhiteSpace(c)
      ensures StartsWith(s, c) ==> LeadingSpace(s) > 0
    {
      WhiteSpaceShort(c);
    }
    if LeadingSpace(s) > 0 {
      assert StartsWith(s, s[..LeadingSpace(s)]);
    }
  }

  lemma NoTrailingSpace(s: seq<byte>)
    ensures TrailingSpace(s) == 0 <==> BackClean(s)
    ensures TrailingSpace(s) > 0 ==> WhiteSpace(s[|s| - TrailingSpace(s)..])
  {
    hide WhiteSpace;
    forall c | WhiteSpace(c)
      ensures EndsIn(s, c) ==> TrailingSpace(s) > 0
    {
      WhiteSpaceShort(c);
    }
    if TrailingSpace(s) > 0 {
      assert EndsIn(s, s[|s| - TrailingSpace(s)..]);
    }
  }

  lemma WhiteCharacter(c: seq<byte>) returns (cp: nat)
    requires WhiteSpace(c)
    ensures AllWhite([cp]) && AreScalars([cp]) && EncodeAll([cp]) == c
  {
    WhiteSpaceIsWhite(c);
    CharIsScalar(c);
    cp := ScalarOf(c);
    assert EncodeAll([cp][1..]) == [];
    assert EncodeScalar(cp) + [] == EncodeScalar(cp);
  }

  lemma Regroup<T>(a: seq<T>, b: seq<T>, c: seq<T>)
    ensures a + (b + c) == (a + b) + c
  {
  }

  lemma EncodeNone()
    ensures AreScalars([]) && EncodeAll([]) == []
  {
  }

  lemma {:induction false} TrimStartExactly(s: seq<byte>) returns (lead: seq<nat>)
    ensures AllWhite(lead) && AreScalars(lead) && s == EncodeAll(lead) + TrimStart(s) && FrontClean(TrimStart(s))
    decreases |s|
  {
    hide WhiteSpace, LeadingSpace, FrontClean, EncodeScalar, EncodeAll;
    NoLeadingSpace(s);
    var n := LeadingSpace(s);
    if n == 0 {
      lead := [];
      EncodeNone();
    } else {
      var cp := WhiteCharacter(s[..n]);
      var rest := TrimStartExactly(s[n..]);
      EncodeAllConcat([cp], rest);
      lead := [cp] + rest;
      assert s == s[..n] + s[n..];
      Regroup(s[..n], EncodeAll(rest), TrimStart(s));
    }
  }

  lemma {:induction false} TrimEndExactly(s: seq<byte>) returns (tail: seq<nat>)
    ensures AllWhite(tail) && AreScalars(tail) && s == TrimEnd(s) + EncodeAll(tail) && BackClean(TrimEnd(s))
    ensures TrimEnd(s) <= s
    decreases |s|
  {
    hide WhiteSpace, TrailingSpace, BackClean, EncodeScalar, EncodeAll;
    NoTrailingSpace(s);
    var n := TrailingSpace(s);
    if n == 0 {
      tail := [];
      EncodeNone();
    } else {
      var m := |s| - n;
      var cp := WhiteCharacter(s[m..]);
      var rest := TrimEndExactly(s[..m]);
      EncodeAllConcat(rest, [cp]);
      tail := rest + [cp];
      assert s == s[..m] + s[m..];
      Regroup(TrimEnd(s), EncodeAll(rest), s[m..]);
    }
  }

  lemma FrontStaysClean(r: seq<byte>, s: seq<byte>)
    requires r <= s && FrontClean(s)
    ensures FrontClean(r)
  {
    forall c | WhiteSpace(c)
      ensures !StartsWith(r, c)
    {
      assert !StartsWith(s, c);
      assert |c| <= |r| ==> r[..|c|] == s[..|c|];
    }
  }

  /** Trimming takes white space characters away from both ends, all of them, and nothing else. */
  lemma TrimExactly(s: seq<byte>) returns (lead: seq<nat>, tail: seq<nat>)
    ensures AllWhite(lead) && AreScalars(lead) && AllWhite(tail) && AreScalars(tail)
    ensures s == EncodeAll(lead) + Trim(s) + EncodeAll(tail)
    ensures FrontClean(Trim(s)) && BackClean(Trim(s))
  {
    hide TrimStart, TrimEnd, EncodeScalar, EncodeAll, WhiteSpace, FrontClean, BackClean;
    lead := TrimStartExactly(s);
    tail := TrimEndExactly(TrimStart(s));
    Regroup(EncodeAll(lead), Trim(s), EncodeAll(tail));
    FrontStaysClean(Trim(s), TrimStart(s));
  }
}
