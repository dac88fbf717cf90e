/** Printing a text as a YAML double-quoted scalar, and reading it back by the rules of
    section 7.3.1, with the escapes of section 5.7, of YAML 1.2. */
module YamlScalar {
  import opened Basics

  type CodePoint = c: nat | c <= 0x10FFFF

  const QUOTE: CodePoint := 0x22
  const BACKSLASH: CodePoint := 0x5C

  // ----------------------------------------------------------------------- printing

  /** `_ESCAPES`: the letter written after the backslash. */
  function Named(c: CodePoint): Option<CodePoint> {
    if c == BACKSLASH then Some(BACKSLASH)
    else if c == QUOTE then Some(QUOTE)
    else if c == 0x0A then Some(0x6E)
    else if c == 0x0D then Some(0x72)
    else if c == 0x09 then Some(0x74)
    else if c == 0x00 then Some(0x30)
    else None
  }

  /** What a loader could take for a control, a line break or a byte order mark. */
  predicate MustEscape(c: CodePoint) {
    || c < 0x20 || 0x7F <= c <= 0x9F || c == 0x2028 || c == 0x2029 || c == 0xFEFF
    || 0xD800 <= c <= 0xDFFF || c == 0xFFFE || c == 0xFFFF
  }

  function HexDigit(d: nat): CodePoint
    requires d < 16
  {
    if d < 10 then 0x30 + d else 0x61 + (d - 10)
  }

  /** `width` lower-case hexadecimal digits. */
  function Hex(n: nat, width: nat): (h: seq<CodePoint>)
    ensures |h| == width
  {
    if width == 0 then [] else Hex(n / 16, width - 1) + [HexDigit(n % 16)]
  }

  function Piece(c: CodePoint): seq<CodePoint> {
    if Named(c).Some? then [BACKSLASH, Named(c).value]
    else if MustEscape(c) then
      (if c <= 0xFFFF then [BACKSLASH, 0x75] + Hex(c, 4) else [BACKSLASH, 0x55] + Hex(c, 8))
    else [c]
  }

  /** Main result: what can be read stays as it is, and what could be taken for something else
      is escaped: by its own letter where the source names one, and by four digits otherwise. */
  lemma PieceByCause(c: CodePoint)
    ensures Piece(c) == [c] <==>
              && c >= 0x20 && c != 0x22 && c != 0x5C && !(0x7F <= c <= 0x9F) && c != 0x2028 && c != 0x2029
              && !(0xD800 <= c <= 0xDFFF) && c != 0xFEFF && c != 0xFFFE && c != 0xFFFF
    ensures Piece(0x22) == [0x5C, 0x22] && Piece(0x5C) == [0x5C, 0x5C] && Piece(0x0A) == [0x5C, 0x6E]
    ensures Piece(0x0D) == [0x5C, 0x72] && Piece(0x09) == [0x5C, 0x74] && Piece(0x00) == [0x5C, 0x30]
    ensures Piece(c) == [c] || |Piece(c)| == 2 || (|Piece(c)| == 6 && Piece(c)[..2] == [0x5C, 0x75])
    ensures |Piece(c)| == 2 <==> c in {0x22, 0x5C, 0x0A, 0x0D, 0x09, 0x00}
  {
    hide Hex;
  }

  function Pieces(value: seq<CodePoint>): seq<CodePoint> {
    if value == [] then [] else Pieces(value[..|value| - 1]) + Piece(value[|value| - 1])
  }

  /** `yaml_str`. */
  method YamlStr(value: seq<CodePoint>) returns (text: seq<CodePoint>)
    ensures text == [QUOTE] + Pieces(value) + [QUOTE]
    ensures Read(text) == Some(value)
    ensures forall i :: 0 <= i < |text| ==> Safe(text[i])
  {
    var out := [];
    for k := 0 to |value|
      invariant out == Pieces(value[..k])
    {
      assert value[..k + 1][..k] == value[..k];
      out := out + Piece(value[k]);
    }
    assert value[..|value|] == value;
    text := [QUOTE] + out + [QUOTE];
    RoundTrip(value);
    PiecesAreSafe(value);
  }

  // ------------------------------------------------------------------------ reading

  function HexValue(c: CodePoint): Option<nat> {
    if 0x30 <= c <= 0x39 then Some(c - 0x30)
    else if 0x61 <= c <= 0x66 then Some(c - 0x61 + 10)
    else if 0x41 <= c <= 0x46 then Some(c - 0x41 + 10)
    else None
  }

  function ReadHex(digits: seq<CodePoint>): Option<nat> {
    if digits == [] then Some(0)
    else
      var high, low := ReadHex(digits[..|digits| - 1]), HexValue(digits[|digits| - 1]);
      if high.Some? && low.Some? then Some(16 * high.value + low.value) else None
  }

  /** The one-letter escapes of section 5.7. */
  function Unnamed(letter: CodePoint): Option<CodePoint> {
    if letter == 0x30 then Some(0x00)
    else if letter == 0x61 then Some(0x07)
    else if letter == 0x62 then Some(0x08)
    else if letter == 0x74 || letter == 0x09 then Some(0x09)
    else if letter == 0x6E then Some(0x0A)
    else if letter == 0x76 then Some(0x0B)
    else if letter == 0x66 then Some(0x0C)
    else if letter == 0x72 then Some(0x0D)
    else if letter == 0x65 then Some(0x1B)
    else if letter == 0x20 then Some(0x20)
    else if letter == QUOTE then Some(QUOTE)
    else if letter == 0x2F then Some(0x2F)
    else if letter == BACKSLASH then Some(BACKSLASH)
    else if letter == 0x4E then Some(0x85)
    else if letter == 0x5F then Some(0xA0)
    else if letter == 0x4C then Some(0x2028)
    else if letter == 0x50 then Some(0x2029)
    else None
  }

  /** How many hexadecimal digits follow the escape letter x, u or U. */
  function HexWidth(letter: CodePoint): nat {
    if letter == 0x78 then 2 else if letter == 0x75 then 4 else if letter == 0x55 then 8 else 0
  }

  /** A code point that may stand for itself in a stream: printable, no break, no mark. */
  predicate Safe(c: CodePoint) {
    && 0x20 <= c && !(0x7F <= c <= 0x9F) && c != 0x2028 && c != 0x2029 && c != 0xFEFF
    && !(0xD800 <= c <= 0xDFFF) && c != 0xFFFE && c != 0xFFFF
  }

  /** The rest of a scalar after its opening quote. A quote that is not escaped ends it, and
      must be the last character. */
  function ReadRest(s: seq<CodePoint>): Option<seq<CodePoint>>
    decreases |s|
  {
    if s == [] then None
    else if s[0] == QUOTE then (if |s| == 1 then Some([]) else None)
    else if s[0] == BACKSLASH then
      if |s| < 2 then None
      else if Unnamed(s[1]).Some? then Then(Unnamed(s[1]).value, ReadRest(s[2..]))
      else if HexWidth(s[1]) == 0 || |s| < 2 + HexWidth(s[1]) then None
      else
        var code := ReadHex(s[2..2 + HexWidth(s[1])]);
        if code.None? || code.value > 0x10FFFF then None
        else Then(code.value, ReadRest(s[2 + HexWidth(s[1])..]))
    else if Safe(s[0]) then Then(s[0], ReadRest(s[1..]))
    else None
  }

  function Then(c: CodePoint, rest: Option<seq<CodePoint>>): Option<seq<CodePoint>> {
    if rest.Some? then Some([c] + rest.value) else None
  }

  /** Reading a double-quoted scalar on one line. */
  function Read(text: seq<CodePoint>): Option<seq<CodePoint>> {
    if text == [] || text[0] != QUOTE then None else ReadRest(text[1..])
  }

  // ---------------------------------------------------------------------- round trip

  lemma HexDigitReads(d: nat)
    requires d < 16
    ensures HexValue(HexDigit(d)) == Some(d) && Safe(HexDigit(d))
  {
  }

  function Pow16(k: nat): nat { if k == 0 then 1 else 16 * Pow16(k - 1) }

  lemma {:induction false} HexReads(n: nat, width: nat)
    requires n < Pow16(width)
    ensures ReadHex(Hex(n, width)) == Some(n)
    ensures forall i :: 0 <= i < width ==> Safe(Hex(n, width)[i])
  {
    if width > 0 {
      HexReads(n / 16, width - 1);
      HexDigitReads(n % 16);
      assert Hex(n, width)[..width - 1] == Hex(n / 16, width - 1);
    }
  }

  /** Everything that must be escaped lies in the basic plane: the eight-digit form is never
      written. */
  lemma EscapesAreFourDigits(c: CodePoint)
    ensures MustEscape(c) ==> c <= 0xFFFF
  {
  }

  lemma PieceReads(c: CodePoint, rest: seq<CodePoint>)
    ensures ReadRest(Piece(c) + rest) == Then(c, ReadRest(rest))
    ensures forall i :: 0 <= i < |Piece(c)| ==> Safe(Piece(c)[i])
  {
    var s := Piece(c) + rest;
    if Named(c).Some? {
      assert s[2..] == rest;
    } else if MustEscape(c) {
      assert Pow16(4) == 0x10000 by { assert Pow16(2) == 256 && Pow16(3) == 4096; }
      HexReads(c, 4);
      assert s[2..6] == Hex(c, 4) && s[6..] == rest;
    } else {
      assert s[1..] == rest;
    }
  }

  lemma {:induction false} PiecesRead(value: seq<CodePoint>, rest: seq<CodePoint>)
    requires ReadRest(rest).Some?
    ensures ReadRest(Pieces(value) + rest) == Some(value + ReadRest(rest).value)
    decreases |value|
  {
    hide ReadRest, Piece;
    if value == [] {
      assert Pieces(value) + rest == rest;
      assert value + ReadRest(rest).value == ReadRest(rest).value;
    } else {
      var init, last := value[..|value| - 1], value[|value| - 1];
      PieceReads(last, rest);
      PiecesRead(init, Piece(last) + rest);
      assert Pieces(value) + rest == Pieces(init) + (Piece(last) + rest);
      assert init + ([last] + ReadRest(rest).value) == value + ReadRest(rest).value;
    }
  }

  /** Main result: reading the printed scalar gives back exactly the value, for every
      sequence of code points, surrogates included. */
  lemma RoundTrip(value: seq<CodePoint>)
    ensures Read([QUOTE] + Pieces(value) + [QUOTE]) == Some(value)
  {
    hide Pieces;
    var text := [QUOTE] + Pieces(value) + [QUOTE];
    assert text[1..] == Pieces(value) + [QUOTE];
    assert ReadRest([QUOTE]) == Some([]);
    PiecesRead(value, [QUOTE]);
    assert value + [] == value;
  }

  /** The output holds no line break, control, surrogate or byte order mark. */
  lemma {:induction false} PiecesAreSafe(value: seq<CodePoint>)
    ensures forall i :: 0 <= i < |Pieces(value)| ==> Safe(Pieces(value)[i])
  {
    if value != [] {
      PiecesAreSafe(value[..|value| - 1]);
      PieceReads(value[|value| - 1], []);
    }
  }
}
