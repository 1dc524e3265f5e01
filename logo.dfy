/** The logo-analysis service: the brand name is the first non-blank line of
    the recognised text, the colours are the palette in hex, and each failing
    step falls back to a fixed value. Text recognition and colour extraction
    are given as their outcomes. */
module LogoService {
  import opened Base

  datatype Rgb = Rgb(r: nat, g: nat, b: nat)

  function HexDigit(d: nat): char
    requires d < 16
  {
    if d < 10 then ('0' as int + d) as char else ('a' as int + d - 10) as char
  }

  /** Python's `format(n, 'x')`: lower-case hexadecimal without leading zeros. */
  function ToHex(n: nat): (h: string)
    ensures |h| >= 1
  {
    if n < 16 then [HexDigit(n)] else ToHex(n / 16) + [HexDigit(n % 16)]
  }

  /** `'{:02x}'.format(n)`: at least two digits, padded with '0'. */
  function Hex02(n: nat): (h: string)
    ensures |h| >= 2
  {
    if n < 16 then "0" + ToHex(n) else ToHex(n)
  }

  /** Below 256 the two digits are the high and the low nibble. */
  lemma Hex02Digits(n: nat)
    requires n < 256
    ensures Hex02(n) == [HexDigit(n / 16), HexDigit(n % 16)]
  {
    if n >= 16 {
      assert ToHex(n / 16) == [HexDigit(n / 16)];
    }
  }

  /** `rgb_to_hex`. */
  function RgbToHex(c: Rgb): (h: string)
    ensures |h| >= 7 && h[0] == '#'
    ensures h[1..] == Hex02(c.r) + Hex02(c.g) + Hex02(c.b)
  {
    "#" + Hex02(c.r) + Hex02(c.g) + Hex02(c.b)
  }

  function HexValue(ch: char): nat {
    if '0' <= ch <= '9' then ch as int - '0' as int
    else if 'a' <= ch <= 'f' then ch as int - 'a' as int + 10
    else 0
  }

  function ParseHex(s: string): nat {
    if s == [] then 0 else ParseHex(s[..|s| - 1]) * 16 + HexValue(s[|s| - 1])
  }

  lemma HexDigitValue(d: nat)
    requires d < 16
    ensures HexValue(HexDigit(d)) == d
  {
    var ch := HexDigit(d);
    if d < 10 {
      assert ch as int == '0' as int + d;
    } else {
      assert ch as int == 'a' as int + d - 10;
    }
  }

  lemma Hex02RoundTrip(n: nat)
    requires n < 256
    ensures ParseHex(Hex02(n)) == n
  {
    var h := Hex02(n);
    Hex02Digits(n);
    HexDigitValue(n / 16);
    HexDigitValue(n % 16);
    assert h[..1] == [HexDigit(n / 16)] && h[..1][..0] == [];
    assert ParseHex(h[..1]) == n / 16;
    assert ParseHex(h) == (n / 16) * 16 + n % 16;
  }

  /** For 8-bit components the colour is '#' and six lower-case hex digits,
      and parsing each pair gives the component back. */
  lemma RgbToHexRoundTrip(c: Rgb)
    requires c.r < 256 && c.g < 256 && c.b < 256
    ensures var h := RgbToHex(c);
            && |h| == 7 && h[0] == '#'
            && ParseHex(h[1..3]) == c.r && ParseHex(h[3..5]) == c.g && ParseHex(h[5..7]) == c.b
  {
    var h := RgbToHex(c);
    Hex02Digits(c.r);
    Hex02Digits(c.g);
    Hex02Digits(c.b);
    assert h[1..3] == Hex02(c.r) && h[3..5] == Hex02(c.g) && h[5..7] == Hex02(c.b);
    Hex02RoundTrip(c.r);
    Hex02RoundTrip(c.g);
    Hex02RoundTrip(c.b);
  }

  /** `[rgb_to_hex(color) for color in palette]`. */
  function HexColors(palette: seq<Rgb>): (colors: seq<string>)
    ensures |colors| == |palette|
  {
    if palette == [] then [] else [RgbToHex(palette[0])] + HexColors(palette[1..])
  }

  /** The colours keep the palette's order. */
  lemma {:induction false} HexColorsSpec(palette: seq<Rgb>, k: nat)
    requires k < |palette|
    ensures HexColors(palette)[k] == RgbToHex(palette[k])
  {
    if k > 0 {
      HexColorsSpec(palette[1..], k - 1);
    }
  }

  const DefaultBrand: string := "Your Brand"
  const DefaultColors: seq<string> := ["#3B82F6", "#10B981", "#F59E0B"]
  const DefaultDominant: string := "#3B82F6"

  /** The index of the first line that is not blank. */
  function FirstNonBlank(lines: seq<string>): (i: Option<nat>)
    ensures i.Some? ==> i.value < |lines| && PyStrip(lines[i.value]) != ""
    ensures i.Some? ==> forall k :: 0 <= k < i.value ==> PyStrip(lines[k]) == ""
    ensures i.None? ==> forall k :: 0 <= k < |lines| ==> PyStrip(lines[k]) == ""
  {
    if lines == [] then None
    else if PyStrip(lines[0]) != "" then Some(0)
    else match FirstNonBlank(lines[1..])
      case None => None
      case Some(k) => Some(k + 1)
  }

  /** The brand name from the recognised text; None when recognition failed. */
  function BrandName(ocr: Option<string>): (name: string)
    ensures ocr.None? ==> name == DefaultBrand
  {
    match ocr
    case None => DefaultBrand
    case Some(text) =>
      var lines := Split(PyStrip(text), '\n');
      match FirstNonBlank(lines)
      case None => DefaultBrand
      case Some(i) => PyStrip(lines[i])
  }

  /** The brand is the first line with text, stripped; only a text with no such
      line falls back to the default. */
  lemma BrandNameSpec(text: string)
    ensures var lines := Split(PyStrip(text), '\n');
            && (FirstNonBlank(lines).None? <==> forall k :: 0 <= k < |lines| ==> PyStrip(lines[k]) == "")
            && (FirstNonBlank(lines).None? ==> BrandName(Some(text)) == DefaultBrand)
            && (FirstNonBlank(lines).Some? ==>
                  var i := FirstNonBlank(lines).value;
                  && BrandName(Some(text)) == PyStrip(lines[i]) && BrandName(Some(text)) != ""
                  && forall k :: 0 <= k < i ==> PyStrip(lines[k]) == "")
  {
  }

  /** A one-line text is its own brand, stripped. */
  lemma OneLineBrand(text: string)
    requires PyStrip(text) != ""
    requires forall k :: 0 <= k < |text| ==> text[k] != '\n'
    ensures BrandName(Some(text)) == PyStrip(text)
  {
    var s := PyStrip(text);
    DropLeadingSpec(text, PySpaces);
    DropTrailingSpec(DropLeading(text, PySpaces), PySpaces);
    assert forall k :: 0 <= k < |s| ==> s[k] != '\n' by {
      var i := |text| - |DropLeading(text, PySpaces)|;
      assert s == text[i..i + |s|];
      forall k | 0 <= k < |s| ensures s[k] != '\n' {
        assert s[k] == text[i + k];
      }
    }
    AfterFirstNone(s, '\n');
    assert PyStrip(s) == s by {
      DropLeadingSpec(s, PySpaces);
      DropTrailingSpec(s, PySpaces);
      StripStripped(text);
    }
  }

  /** Stripping is idempotent. */
  lemma StripStripped(text: string)
    ensures PyStrip(PyStrip(text)) == PyStrip(text)
  {
    var a := DropLeading(text, PySpaces);
    var s := DropTrailing(a, PySpaces);
    DropLeadingSpec(text, PySpaces);
    DropTrailingSpec(a, PySpaces);
    if s != [] {
      assert s[0] == a[0];
      assert DropLeading(s, PySpaces) == s;
      assert DropTrailing(s, PySpaces) == s;
    }
  }

  /** The JSON body of a successful analysis. */
  datatype Analysis = Analysis(brandName: string, colors: seq<string>, dominantColor: string)

  datatype Failure = Failure(status: nat, error: string)

  /** `POST /analyze-logo`. `hasImage` and `filename` describe the upload,
      `opens` whether PIL can read it, `ocr` the recognised text (None when
      recognition raised), `palette` the three-colour palette (None when the
      colour extraction raised). The `get_color` result is never used. */
  function AnalyzeLogo(hasImage: bool, filename: string, opens: bool,
                       ocr: Option<string>, palette: Option<seq<Rgb>>): (r: Result<Analysis, Failure>)
    ensures !hasImage ==> r == Err(Failure(400, "No image file provided"))
    ensures hasImage && filename == "" ==> r == Err(Failure(400, "No file selected"))
    ensures hasImage && filename != "" && !opens ==> r == Err(Failure(500, "Failed to process image"))
    ensures r.Ok? <==> hasImage && filename != "" && opens
    ensures r.Ok? ==> r.value.brandName == BrandName(ocr)
    ensures r.Ok? && palette.None? ==> r.value.colors == DefaultColors && r.value.dominantColor == DefaultDominant
    ensures r.Ok? && palette.Some? ==> r.value.colors == HexColors(palette.value)
    ensures r.Ok? && palette.Some? && |palette.value| > 0 ==> r.value.dominantColor == RgbToHex(palette.value[0])
    ensures r.Ok? && palette == Some([]) ==> r.value.dominantColor == DefaultDominant
  {
    if !hasImage then Err(Failure(400, "No image file provided"))
    else if filename == "" then Err(Failure(400, "No file selected"))
    else if !opens then Err(Failure(500, "Failed to process image"))
    else
      var colors := if palette.Some? then HexColors(palette.value) else DefaultColors;
      Ok(Analysis(BrandName(ocr), colors, if |colors| > 0 then colors[0] else DefaultDominant))
  }
}
