/**
  The chunk-size line of the rejected-handshake decoder: the source takes the line
  as UTF-8, cuts it at the first semicolon, trims white space and parses what is
  left as a hexadecimal `usize`.
 */
module ChunkLine {
  import opened Bytes
  import opened Unicode

  // ------------------------------------------------------------- hexadecimal

  function Digit(b: byte): Option<nat> {
    if 48 <= b <= 57 then Some((b - 48) as nat)
    else if 65 <= b <= 70 then Some((b - 55) as nat)
    else if 97 <= b <= 102 then Some((b - 87) as nat)
    else None
  }

  /** The loop of `from_str_radix`: multiply, add, and fail on overflow. */
  function ParseDigits(s: seq<byte>, sofar: nat): Option<nat> {
    if s == [] then Some(sofar)
    else
      match Digit(s[0])
      case None => None
      case Some(d) =>
        var next := 16 * sofar + d;
        if next >= WORD then None else ParseDigits(s[1..], next)
  }

  const PLUS: byte := 43
  const SEMICOLON: byte := 59

  /** `usize::from_str_radix(_, 16)`; a sign may stand before the digits. */
  function ParseHex(s: seq<byte>): Option<nat> {
    if s == [] || s == [PLUS] then None
    else if s[0] == PLUS then ParseDigits(s[1..], 0)
    else ParseDigits(s, 0)
  }

  predicate IsNumeral(s: seq<byte>) {
    s != [] && forall i | 0 <= i < |s| :: Digit(s[i]).Some?
  }

  function NumeralValue(s: seq<byte>, sofar: nat): nat
    requires forall i | 0 <= i < |s| :: Digit(s[i]).Some?
  {
    if s == [] then sofar else NumeralValue(s[1..], 16 * sofar + Digit(s[0]).value)
  }

  lemma {:induction false} ValueGrows(s: seq<byte>, sofar: nat)
    requires forall i | 0 <= i < |s| :: Digit(s[i]).Some?
    ensures NumeralValue(s, sofar) >= sofar
  {
    if s != [] {
      ValueGrows(s[1..], 16 * sofar + Digit(s[0]).value);
    }
  }

  /** Parsing succeeds exactly on numerals that fit in a word. */
  lemma {:induction false} ParsesNumerals(s: seq<byte>, sofar: nat)
    requires sofar < WORD
    ensures ParseDigits(s, sofar).Some? <==>
              (forall i | 0 <= i < |s| :: Digit(s[i]).Some?) && NumeralValue(s, sofar) < WORD
    ensures ParseDigits(s, sofar).Some? ==> ParseDigits(s, sofar).value == NumeralValue(s, sofar)
  {
    if s != [] && Digit(s[0]).Some? {
      var next := 16 * sofar + Digit(s[0]).value;
      assert forall i | 0 <= i < |s| - 1 :: s[1..][i] == s[i + 1];
      if next < WORD {
        ParsesNumerals(s[1..], next);
        assert (forall i | 0 <= i < |s| :: Digit(s[i]).Some?) <==> (forall i | 0 <= i < |s[1..]| :: Digit(s[1..][i]).Some?);
      } else if forall i | 0 <= i < |s| :: Digit(s[i]).Some? {
        ValueGrows(s[1..], next);
      }
    }
  }

  function HexDigit(d: nat): (b: byte)
    requires d < 16
    ensures Digit(b) == Some(d)
  {
    if d < 10 then (48 + d) as byte else (87 + d) as byte
  }

  /** Printing a number in lower-case hexadecimal. */
  function PrintHex(n: nat): (s: seq<byte>)
    ensures IsNumeral(s)
  {
    if n < 16 then [HexDigit(n)] else PrintHex(n / 16) + [HexDigit(n % 16)]
  }

  lemma {:induction false} ValueSnoc(s: seq<byte>, b: byte, sofar: nat)
    requires (forall i | 0 <= i < |s| :: Digit(s[i]).Some?) && Digit(b).Some?
    ensures NumeralValue(s + [b], sofar) == 16 * NumeralValue(s, sofar) + Digit(b).value
  {
    if s == [] {
      assert s + [b] == [b];
      assert NumeralValue([b][1..], 16 * sofar + Digit(b).value) == 16 * sofar + Digit(b).value;
    } else {
      ValueSnoc(s[1..], b, 16 * sofar + Digit(s[0]).value);
      assert (s + [b])[1..] == s[1..] + [b];
    }
  }

  /** What is printed reads back as the same number. */
  lemma {:induction false} PrintedValue(n: nat)
    ensures NumeralValue(PrintHex(n), 0) == n
  {
    if n < 16 {
      assert NumeralValue([HexDigit(n)][1..], n) == n;
    } else {
      PrintedValue(n / 16);
      ValueSnoc(PrintHex(n / 16), HexDigit(n % 16), 0);
    }
  }

  const LOWER := "0123456789abcdef"
  const UPPER := "0123456789ABCDEF"

  /** The digits are the sixteen of either case, each with its place in the row. */
  lemma DigitExactly(b: byte, d: nat)
    ensures Digit(b) == Some(d) <==> d < 16 && (b as int == LOWER[d] as int || b as int == UPPER[d] as int)
  {
    if d < 16 {
      assert LOWER[d] as int == if d < 10 then 48 + d else 87 + d;
      assert UPPER[d] as int == if d < 10 then 48 + d else 55 + d;
    }
  }

  /** A number is a numeral below 2^64, after a plus sign or not, and nothing else is one. */
  lemma ParseHexExactly(s: seq<byte>, n: nat)
    ensures ParseHex(s) == Some(n) <==>
              exists digits :: (s == digits || s == [43] + digits)
                && IsNumeral(digits) && NumeralValue(digits, 0) == n && n < 0x1_0000_0000_0000_0000
  {
    hide NumeralValue, ParseDigits;
    forall digits | (s == digits || s == [43] + digits) && IsNumeral(digits)
      ensures ParseHex(s) == ParseDigits(digits, 0)
    {
      assert Digit(digits[0]).Some?;
      assert s == [43] + digits ==> s[1..] == digits && s != [PLUS];
    }
    if |s| > 0 && s[0] == PLUS {
      assert s == [43] + s[1..];
      ParsesNumerals(s[1..], 0);
    } else {
      ParsesNumerals(s, 0);
    }
    forall digits | (s == digits || s == [43] + digits) && IsNumeral(digits)
      ensures ParseDigits(digits, 0) == Some(n) <==> NumeralValue(digits, 0) == n && n < 0x1_0000_0000_0000_0000
    {
      ParsesNumerals(digits, 0);
    }
  }

  // ---------------------------------------------------------------- the line

  /** Everything before the first semicolon. */
  function BeforeSemicolon(s: seq<byte>): seq<byte> {
    if s == [] || s[0] == SEMICOLON then [] else [s[0]] + BeforeSemicolon(s[1..])
  }

  lemma {:induction false} BeforeSemicolonExactly(s: seq<byte>)
    ensures 59 !in BeforeSemicolon(s)
    ensures s == BeforeSemicolon(s) || BeforeSemicolon(s) + [59] <= s
  {
    if s != [] && s[0] != SEMICOLON {
      BeforeSemicolonExactly(s[1..]);
      assert s == [s[0]] + s[1..];
    }
  }

  /** The size a chunk line announces, if it announces one. */
  function ChunkSize(line: seq<byte>): (size: Option<nat>) {
    if Utf8(line) then ParseHex(Trim(BeforeSemicolon(line))) else None
  }

  const SP: byte := 32
  const HTAB: byte := 9

  /** Blanks, and an extension behind them if there is one; section 7.1.1 of RFC 9112 allows them before its semicolon. */
  predicate IsExtension(ext: seq<byte>) {
    ext == [] || ext[0] == SEMICOLON || (ext[0] in {SP, HTAB} && IsExtension(ext[1..]))
  }

  /** The blanks an extension starts with. */
  function Blanks(ext: seq<byte>): seq<byte>
    requires IsExtension(ext)
  {
    if ext == [] || ext[0] == SEMICOLON then [] else [ext[0]] + Blanks(ext[1..])
  }

  predicate IsBlank(s: seq<byte>) {
    forall i | 0 <= i < |s| :: s[i] in {SP, HTAB}
  }

  lemma {:induction false} CutExtension(ext: seq<byte>)
    requires IsExtension(ext)
    ensures BeforeSemicolon(ext) == Blanks(ext) && IsBlank(Blanks(ext))
  {
    if ext != [] && ext[0] != SEMICOLON {
      CutExtension(ext[1..]);
    }
  }

  lemma {:induction false} CutNumeral(numeral: seq<byte>, ext: seq<byte>)
    requires (forall i | 0 <= i < |numeral| :: Digit(numeral[i]).Some?) && IsExtension(ext)
    ensures BeforeSemicolon(numeral + ext) == numeral + Blanks(ext)
  {
    if numeral == [] {
      assert numeral + ext == ext && numeral + Blanks(ext) == Blanks(ext);
      CutExtension(ext);
    } else {
      CutNumeral(numeral[1..], ext);
      assert (numeral + ext)[1..] == numeral[1..] + ext;
      assert numeral + Blanks(ext) == [numeral[0]] + (numeral[1..] + Blanks(ext));
    }
  }

  lemma DigitsAreNotSpace(c: seq<byte>)
    requires c != [] && (Digit(c[0]).Some? || Digit(c[|c| - 1]).Some?)
    ensures !WhiteSpace(c)
  {
  }

  lemma NoSpaceAtFront(s: seq<byte>)
    requires s != [] && Digit(s[0]).Some?
    ensures LeadingSpace(s) == 0
  {
    hide WhiteSpace, Digit;
    forall n: nat | 0 < n <= |s|
      ensures !WhiteSpace(s[..n])
    {
      DigitsAreNotSpace(s[..n]);
    }
  }

  lemma NoSpaceAtBack(s: seq<byte>)
    requires s != [] && Digit(s[|s| - 1]).Some?
    ensures TrailingSpace(s) == 0
  {
    hide WhiteSpace, Digit;
    forall n: nat | n < |s|
      ensures !WhiteSpace(s[n..])
    {
      DigitsAreNotSpace(s[n..]);
    }
  }

  lemma BlankAtBack(s: seq<byte>)
    requires s != [] && s[|s| - 1] in {SP, HTAB}
    ensures TrailingSpace(s) == 1
  {
    assert s[|s| - 1..] == [s[|s| - 1]];
  }

  lemma {:induction false} BlanksTrimmed(numeral: seq<byte>, blanks: seq<byte>)
    requires IsNumeral(numeral) && IsBlank(blanks)
    ensures TrimEnd(numeral + blanks) == numeral
    decreases |blanks|
  {
    var s := numeral + blanks;
    if blanks == [] {
      assert s == numeral;
      NoSpaceAtBack(numeral);
    } else {
      BlankAtBack(s);
      assert s[..|s| - 1] == numeral + blanks[..|blanks| - 1];
      BlanksTrimmed(numeral, blanks[..|blanks| - 1]);
    }
  }

  /** Trimming takes the blanks behind a numeral away, and nothing of the numeral. */
  lemma NumeralTrimmed(numeral: seq<byte>, blanks: seq<byte>)
    requires IsNumeral(numeral) && IsBlank(blanks)
    ensures Trim(numeral + blanks) == numeral
  {
    assert (numeral + blanks)[0] == numeral[0];
    NoSpaceAtFront(numeral + blanks);
    BlanksTrimmed(numeral, blanks);
  }

  lemma NumeralAscii(numeral: seq<byte>)
    requires IsNumeral(numeral)
    ensures Ascii(numeral)
  {
    assert forall i | 0 <= i < |numeral| :: Digit(numeral[i]).Some? && numeral[i] <= 0x7F;
  }

  lemma NumeralParses(numeral: seq<byte>)
    requires IsNumeral(numeral) && NumeralValue(numeral, 0) < WORD
    ensures ParseHex(numeral) == Some(NumeralValue(numeral, 0))
  {
    assert Digit(numeral[0]).Some? && numeral[0] != PLUS;
    ParsesNumerals(numeral, 0);
  }

  /** A numeral followed by blanks and an extension announces its value, if and only if the extension is UTF-8. */
  lemma NumeralLine(numeral: seq<byte>, ext: seq<byte>)
    requires IsNumeral(numeral) && NumeralValue(numeral, 0) < WORD && IsExtension(ext)
    ensures ChunkSize(numeral + ext) == if Utf8(ext) then Some(NumeralValue(numeral, 0)) else None
  {
    hide Trim, BeforeSemicolon, Utf8, NumeralValue, Digit;
    assert Ascii(numeral) by {
      NumeralAscii(numeral);
    }
    AsciiPrefixUtf8(numeral, ext);
    CutNumeral(numeral, ext);
    CutExtension(ext);
    NumeralTrimmed(numeral, Blanks(ext));
    NumeralParses(numeral);
  }
}
