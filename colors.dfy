/**
 * Category colours as the views show them: looking a colour up by category
 * name, with `'#e0e0e0'` for a missing or empty one, and turning a `#RRGGBB`
 * colour into the `rgba(r, g, b, opacity)` tint used behind rows and cards.
 */
module Colors {
  import opened Seqs
  import opened Records

  /** The colour shown for a category with no stored colour. */
  const DefaultColor: string := "#e0e0e0"

  /** `color || '#e0e0e0'`: the empty string is falsy. */
  function OrDefault(color: string): string {
    if color == "" then DefaultColor else color
  }

  function NameIs(name: string): Category -> bool {
    (c: Category) => c.name == name
  }

  /** `categories.find(c => c.name === name)?.color || '#e0e0e0'`. */
  function CategoryColor(cats: seq<Category>, name: string): (r: string)
    ensures r != ""
    ensures (forall c <- cats :: c.name != name) ==> r == DefaultColor
    ensures forall i :: 0 <= i < |cats| && cats[i].name == name && (forall j :: 0 <= j < i ==> cats[j].name != name) ==>
      r == OrDefault(cats[i].color)
  {
    var i := FindFirst(cats, NameIs(name));
    if i.None? then DefaultColor else OrDefault(cats[i.value].color)
  }

  /** `categories.reduce((acc, cat) => { acc[cat.name] = cat.color; return acc; }, {})`. */
  function ColorRecord(cats: seq<Category>): map<string, string> {
    if cats == [] then map[]
    else ColorRecord(cats[..|cats| - 1])[cats[|cats| - 1].name := cats[|cats| - 1].color]
  }

  /** `categoryColors[name] || '#e0e0e0'`, as the category pie chart colours its slices. */
  function RecordColor(cats: seq<Category>, name: string): string {
    var rec := ColorRecord(cats);
    if name in rec then OrDefault(rec[name]) else DefaultColor
  }

  /** The record keeps, for each name, the colour of the LAST category with that name. */
  lemma {:induction false} ColorRecordSpec(cats: seq<Category>, name: string)
    ensures name in ColorRecord(cats) <==> exists c <- cats :: c.name == name
    ensures forall i :: 0 <= i < |cats| && cats[i].name == name && (forall j :: i < j < |cats| ==> cats[j].name != name) ==>
      ColorRecord(cats)[name] == cats[i].color
  {
    if cats != [] {
      var init, last := cats[..|cats| - 1], cats[|cats| - 1];
      ColorRecordSpec(init, name);
      assert cats == init + [last];
      forall i | 0 <= i < |cats| && cats[i].name == name && (forall j :: i < j < |cats| ==> cats[j].name != name)
        ensures ColorRecord(cats)[name] == cats[i].color
      {
        if i < |init| {
          assert init[i] == cats[i];
        }
      }
    }
  }

  /** The pie chart takes the last category of a name, the top lists the first: they
      agree when no two categories share a name. */
  lemma RecordColorAgrees(cats: seq<Category>, name: string)
    requires forall i, j :: 0 <= i < j < |cats| ==> cats[i].name != cats[j].name
    ensures RecordColor(cats, name) == CategoryColor(cats, name)
  {
    ColorRecordSpec(cats, name);
    var f := FindFirst(cats, NameIs(name));
    if f.Some? {
      assert cats[f.value].name == name;
    }
  }

  predicate IsHexDigit(c: char) {
    '0' <= c <= '9' || 'a' <= c <= 'f' || 'A' <= c <= 'F'
  }

  /** `/^#[0-9A-Fa-f]{6}$/`. */
  predicate IsHexColor(s: string) {
    |s| == 7 && s[0] == '#' && forall i :: 1 <= i < 7 ==> IsHexDigit(s[i])
  }

  function DigitValue(c: char): (v: nat)
    requires IsHexDigit(c)
    ensures v < 16
  {
    if '0' <= c <= '9' then (c as int) - ('0' as int)
    else if 'a' <= c <= 'f' then (c as int) - ('a' as int) + 10
    else (c as int) - ('A' as int) + 10
  }

  /** The value of a string of hexadecimal digits. */
  function HexValue(s: string): nat
    requires forall i :: 0 <= i < |s| ==> IsHexDigit(s[i])
  {
    if s == [] then 0 else 16 * HexValue(s[..|s| - 1]) + DigitValue(s[|s| - 1])
  }

  /** `s.slice(a, b)` for non-negative bounds: both are clamped to the length. */
  function Slice(s: string, a: nat, b: nat): (r: string)
    ensures a <= b <= |s| ==> r == s[a..b]
    ensures |s| <= a ==> r == ""
  {
    var lo := if a <= |s| then a else |s|;
    var hi := if b <= |s| then b else |s|;
    if lo <= hi then s[lo..hi] else ""
  }

  /** A JavaScript number as the parse can produce it. */
  datatype Num = NaN | Int(value: int)

  /** The white space and line terminators `parseInt` skips before the digits
      (section 7.2 and 7.3 of ECMA-262): tab, line feed, vertical tab, form feed,
      carriage return, the byte order mark, the two Unicode line separators, and
      every space separator (category Zs: space, no-break space, ogham space mark,
      the spaces U+2000 to U+200A, narrow no-break space, medium mathematical space
      and ideographic space). */
  predicate IsWhiteSpace(c: char) {
    var n := c as int;
    (9 <= n <= 13) || n == 32 || n == 0xA0 || n == 0x1680 || (0x2000 <= n <= 0x200A)
      || n == 0x2028 || n == 0x2029 || n == 0x202F || n == 0x205F || n == 0x3000 || n == 0xFEFF
  }

  function TrimStart(s: string): (r: string)
    ensures |r| <= |s| && r == s[|s| - |r|..]
    ensures r == [] || !IsWhiteSpace(r[0])
    ensures forall i :: 0 <= i < |s| - |r| ==> IsWhiteSpace(s[i])
  {
    if s != [] && IsWhiteSpace(s[0]) then TrimStart(s[1..]) else s
  }

  /** The longest prefix of s made of hexadecimal digits. */
  function HexPrefix(s: string): (r: string)
    ensures |r| <= |s| && r == s[..|r|]
    ensures forall i :: 0 <= i < |r| ==> IsHexDigit(r[i])
    ensures |r| == |s| || !IsHexDigit(s[|r|])
  {
    if s != [] && IsHexDigit(s[0]) then [s[0]] + HexPrefix(s[1..]) else []
  }

  /** What follows an optional sign. */
  function Unsigned(t: string): string {
    if t != [] && (t[0] == '-' || t[0] == '+') then t[1..] else t
  }

  /** What follows an optional `0x` or `0X`. */
  function WithoutHexMark(u: string): string {
    if |u| >= 2 && u[0] == '0' && (u[1] == 'x' || u[1] == 'X') then u[2..] else u
  }

  /** `parseInt(s, 16)`: leading white space, an optional sign and an optional
      `0x` are skipped, then the longest run of hexadecimal digits is read; with no
      digit the result is NaN. */
  function ParseHex(s: string): Num {
    ParseTrimmed(TrimStart(s))
  }

  /** `parseInt(s, 16)` once the white space is gone. */
  function ParseTrimmed(t: string): Num {
    var digits := HexPrefix(WithoutHexMark(Unsigned(t)));
    if digits == [] then NaN
    else
      var n: int := HexValue(digits);
      Int(if t != [] && t[0] == '-' then -n else n)
  }

  lemma {:induction false} HexPrefixOfDigits(s: string)
    requires forall i :: 0 <= i < |s| ==> IsHexDigit(s[i])
    ensures HexPrefix(s) == s
  {
    if s != [] {
      HexPrefixOfDigits(s[1..]);
    }
  }

  /** A string of digits parses to its value. */
  lemma ParseHexDigits(s: string)
    requires s != [] && forall i :: 0 <= i < |s| ==> IsHexDigit(s[i])
    ensures ParseHex(s) == Int(HexValue(s))
  {
    DigitsNotSkipped(s);
    HexPrefixOfDigits(s);
    ParseUnmarked(s);
  }

  lemma DigitsNotSkipped(s: string)
    requires s != [] && forall i :: 0 <= i < |s| ==> IsHexDigit(s[i])
    ensures TrimStart(s) == s && WithoutHexMark(Unsigned(s)) == s && s[0] != '-'
  {
    DigitNotSpace(s[0]);
    assert Unsigned(s) == s;
    if |s| >= 2 {
      DigitNotMark(s[1]);
    }
  }

  lemma DigitNotSpace(c: char)
    requires IsHexDigit(c)
    ensures !IsWhiteSpace(c) && c != '-' && c != '+'
  {
  }

  lemma DigitNotMark(c: char)
    requires IsHexDigit(c)
    ensures c != 'x' && c != 'X'
  {
  }

  lemma ParseUnmarked(s: string)
    requires s != [] && forall i :: 0 <= i < |s| ==> IsHexDigit(s[i])
    requires TrimStart(s) == s && WithoutHexMark(Unsigned(s)) == s && s[0] != '-' && HexPrefix(s) == s
    ensures ParseHex(s) == Int(HexValue(s))
  {
  }

  /** Nothing that begins with a character other than a sign, a digit or white
      space parses. */
  lemma ParseHexNaN(s: string)
    requires s == [] || !(IsHexDigit(s[0]) || IsWhiteSpace(s[0]) || s[0] == '-' || s[0] == '+')
    ensures ParseHex(s) == NaN
  {
    if s != [] {
      NothingSkipped(s);
    }
    NoDigitsNaN(s);
  }

  /** A string that starts with no white space, sign, digit or `0` keeps every
      character up to the digits, and has no leading digit. */
  lemma NothingSkipped(s: string)
    requires s != [] && !(IsHexDigit(s[0]) || IsWhiteSpace(s[0]) || s[0] == '-' || s[0] == '+')
    ensures HexPrefix(WithoutHexMark(Unsigned(TrimStart(s)))) == []
  {
    assert TrimStart(s) == s;
    assert Unsigned(s) == s;
    assert WithoutHexMark(s) == s;
  }

  /** With no digit after the skipped prefix, the parse is NaN. */
  lemma NoDigitsNaN(s: string)
    requires HexPrefix(WithoutHexMark(Unsigned(TrimStart(s)))) == []
    ensures ParseHex(s) == NaN
  {
  }

  /** A leading white-space character is skipped. */
  lemma WhiteSpaceSkipped(s: string)
    requires s != [] && IsWhiteSpace(s[0])
    ensures ParseHex(s) == ParseHex(s[1..])
  {
    SameAfterTrim(s, s[1..]);
  }

  /** A space separator before a digit is skipped: the pair `slice(1, 3)` takes
      from `"#\U{3000}f0000"` parses to 15. */
  lemma SpaceSeparatorSkipped(s: string)
    requires |s| == 2 && s[0] == '\U{3000}' && IsHexDigit(s[1])
    ensures ParseHex(s) == Int(DigitValue(s[1]))
  {
    WhiteSpaceThenDigit(s);
  }

  lemma WhiteSpaceThenDigit(s: string)
    requires |s| == 2 && IsWhiteSpace(s[0]) && IsHexDigit(s[1])
    ensures ParseHex(s) == Int(DigitValue(s[1]))
  {
    WhiteSpaceSkipped(s);
    OneDigit(s[1..]);
  }

  lemma OneDigit(s: string)
    requires |s| == 1 && IsHexDigit(s[0])
    ensures ParseHex(s) == Int(DigitValue(s[0]))
  {
    ParseHexDigits(s);
    assert s[..0] == [];
  }

  /** Strings that agree once their leading white space is dropped parse alike. */
  lemma SameAfterTrim(s: string, u: string)
    requires TrimStart(s) == TrimStart(u)
    ensures ParseHex(s) == ParseHex(u)
  {
  }

  /** The four components `hexToRgba` writes into `rgba(r, g, b, opacity)`. */
  datatype Rgba = Rgba(r: Num, g: Num, b: Num, opacity: real)

  /** `hexToRgba(hex, opacity)`: characters 1-2, 3-4 and 5-6 read as base-16 numbers. */
  function HexToRgba(hex: string, opacity: real): Rgba {
    Rgba(ParseHex(Slice(hex, 1, 3)), ParseHex(Slice(hex, 3, 5)), ParseHex(Slice(hex, 5, 7)), opacity)
  }

  lemma HexPairValue(s: string)
    requires |s| == 2 && IsHexDigit(s[0]) && IsHexDigit(s[1])
    ensures ParseHex(s) == Int(PairValue(s[0], s[1]))
  {
    ParseHexDigits(s);
    HexValuePair(s);
  }

  lemma HexValuePair(s: string)
    requires |s| == 2 && IsHexDigit(s[0]) && IsHexDigit(s[1])
    ensures HexValue(s) == 16 * DigitValue(s[0]) + DigitValue(s[1])
  {
    var init := s[..1];
    assert init[..0] == [] && init[0] == s[0];
    assert HexValue(init) == DigitValue(s[0]);
  }

  /** The value of two hexadecimal digits. */
  function PairValue(a: char, b: char): (v: nat)
    requires IsHexDigit(a) && IsHexDigit(b)
    ensures v < 256
  {
    16 * DigitValue(a) + DigitValue(b)
  }

  /** A `#RRGGBB` colour gives three byte values, one per digit pair. */
  lemma HexToRgbaOfHexColor(hex: string, opacity: real)
    requires IsHexColor(hex)
    ensures HexToRgba(hex, opacity)
      == Rgba(Int(PairValue(hex[1], hex[2])), Int(PairValue(hex[3], hex[4])), Int(PairValue(hex[5], hex[6])), opacity)
  {
    SlicePair(hex, 1);
    SlicePair(hex, 3);
    SlicePair(hex, 5);
  }

  lemma SlicePair(hex: string, i: nat)
    requires i + 2 <= |hex| && IsHexDigit(hex[i]) && IsHexDigit(hex[i + 1])
    ensures ParseHex(Slice(hex, i, i + 2)) == Int(PairValue(hex[i], hex[i + 1]))
  {
    var pair := Slice(hex, i, i + 2);
    assert pair == hex[i..i + 2];
    assert |pair| == 2 && pair[0] == hex[i] && pair[1] == hex[i + 1];
    HexPairValue(pair);
    assert PairValue(pair[0], pair[1]) == PairValue(hex[i], hex[i + 1]);
  }

  /** A string too short to hold a colour gives NaN components. */
  lemma HexToRgbaOfEmpty(opacity: real)
    ensures HexToRgba("", opacity) == Rgba(NaN, NaN, NaN, opacity)
    ensures HexToRgba("#", opacity) == Rgba(NaN, NaN, NaN, opacity)
  {
    ParseHexNaN("");
    assert Slice("", 1, 3) == "" && Slice("", 3, 5) == "" && Slice("", 5, 7) == "";
    assert Slice("#", 1, 3) == "" && Slice("#", 3, 5) == "" && Slice("#", 5, 7) == "";
  }

  function LowerDigit(v: nat): (c: char)
    requires v < 16
    ensures IsHexDigit(c) && DigitValue(c) == v
  {
    if v < 10 then (v + '0' as int) as char else (v - 10 + 'a' as int) as char
  }

  /** Two lower-case hexadecimal digits for a byte value. */
  function EncodeByte(v: nat): (s: string)
    requires v < 256
    ensures |s| == 2 && IsHexDigit(s[0]) && IsHexDigit(s[1]) && PairValue(s[0], s[1]) == v
  {
    [LowerDigit(v / 16), LowerDigit(v % 16)]
  }

  /** Lower-case `#rrggbb` for three byte values. */
  function EncodeHex(r: nat, g: nat, b: nat): (s: string)
    requires r < 256 && g < 256 && b < 256
    ensures IsHexColor(s)
    ensures s[1..3] == EncodeByte(r) && s[3..5] == EncodeByte(g) && s[5..7] == EncodeByte(b)
  {
    "#" + EncodeByte(r) + EncodeByte(g) + EncodeByte(b)
  }

  /** Reading back an encoded colour gives its byte values. */
  lemma DecodeEncode(r: nat, g: nat, b: nat, opacity: real)
    requires r < 256 && g < 256 && b < 256
    ensures HexToRgba(EncodeHex(r, g, b), opacity) == Rgba(Int(r), Int(g), Int(b), opacity)
  {
    var s := EncodeHex(r, g, b);
    HexToRgbaOfHexColor(s, opacity);
    assert s[1] == s[1..3][0] && s[2] == s[1..3][1];
    assert s[3] == s[3..5][0] && s[4] == s[3..5][1];
    assert s[5] == s[5..7][0] && s[6] == s[5..7][1];
  }

  /** `c.toLowerCase()` on a hexadecimal digit. */
  function LowerHex(c: char): char
    requires IsHexDigit(c)
  {
    if 'A' <= c <= 'F' then ((c as int) - ('A' as int) + ('a' as int)) as char else c
  }

  lemma EncodePair(a: char, b: char)
    requires IsHexDigit(a) && IsHexDigit(b)
    ensures EncodeByte(PairValue(a, b)) == [LowerHex(a), LowerHex(b)]
  {
    var v := PairValue(a, b);
    assert v / 16 == DigitValue(a) && v % 16 == DigitValue(b);
  }

  /** Encoding the byte values a colour decodes to (`HexToRgbaOfHexColor`) gives the
      colour back, in lower case. */
  lemma EncodeDecode(hex: string)
    requires IsHexColor(hex)
    ensures EncodeHex(PairValue(hex[1], hex[2]), PairValue(hex[3], hex[4]), PairValue(hex[5], hex[6]))
      == ['#', LowerHex(hex[1]), LowerHex(hex[2]), LowerHex(hex[3]), LowerHex(hex[4]), LowerHex(hex[5]), LowerHex(hex[6])]
  {
    EncodePair(hex[1], hex[2]);
    EncodePair(hex[3], hex[4]);
    EncodePair(hex[5], hex[6]);
  }
}
