/**
 * The value types that travel as strings: `RGBA`, `RGB`, `Pixels` and
 * `Percent`. Each writes itself with a `str.format` template and reads
 * itself back with an anchored regular expression.
 */
module Codecs {
  import opened Wire
  import opened Numerals
  import opened Patterns

  /**
   * A colour with alpha. The alpha is a Python float; the model keeps the
   * text Python prints for it (`0.27`, `1e-05`), which is what travels.
   */
  datatype RGBA = RGBA(r: int, g: int, b: int, a: string)

  datatype RGB = RGB(r: int, g: int, b: int)

  /**
   * A size in pixels. `instance_of(int)` also lets a boolean through, since
   * `bool` is a subclass of `int`; `str.format` writes it as `True` or `False`.
   */
  datatype Pixels = Pixels(num: int) | BoolPixels(flag: bool)

  datatype Percent = Percent(num: int)

  const GREY1 := RGBA(216, 200, 27, "0.27")
  const GREY2 := RGBA(234, 112, 112, "0.22")
  const BLUE_RGBA := RGBA(31, 118, 189, "0.18")
  const BLUE_RGB := RGB(31, 120, 193)
  const GREEN := RGBA(50, 172, 45, "0.97")
  const ORANGE := RGBA(237, 129, 40, "0.89")
  const RED := RGBA(245, 54, 54, "0.9")
  const BLANK := RGBA(0, 0, 0, "0.0")

  /** The texts of the template `"rgba({}, {}, {}, {})"` and of the pattern below. */
  const RGBA_TEXTS: seq<string> := ["rgba(", ", ", ", ", ", ", ")"]

  /** `^rgba\((\d+), (\d+), (\d+), (\d*(?:\.\d+)(?:e-\d\d)?)\)$` */
  const RGBA_GROUPS: seq<Group> := [Digits, Digits, Digits, Fraction]

  /** The texts of the template `"rgb({}, {}, {})"` and of the pattern below. */
  const RGB_TEXTS: seq<string> := ["rgb(", ", ", ", ", ")"]

  /** `^rgb\((\d+), (\d+), (\d+)\)$` */
  const RGB_GROUPS: seq<Group> := [Digits, Digits, Digits]

  /** The texts of the template `'{}px'` and of the pattern `^(\d+)px$`. */
  const PIXELS_TEXTS: seq<string> := ["", "px"]

  /** The pattern `^(\d+)$`: `^(\d+)(?:px)?$` without its optional suffix. */
  const BARE_PIXELS_TEXTS: seq<string> := ["", ""]

  /** The texts of the template `'{}%'` and of the pattern `^(\d+)%$`. */
  const PERCENT_TEXTS: seq<string> := ["", "%"]

  /** A pattern with a single `(\d+)` group. */
  const ONE_NUMBER: seq<Group> := [Digits]

  /** The alpha text is one the RGBA pattern accepts. */
  predicate IsAlpha(a: string) {
    Fits(Fraction, a)
  }

  /** A colour that `RGBA.parse_json_data` reads back: the pattern has no minus sign, and the alpha is a float it accepts. */
  predicate RgbaReadable(c: RGBA) {
    c.r >= 0 && c.g >= 0 && c.b >= 0 && IsAlpha(c.a)
  }

  /** A colour that `RGB.parse_json_data` reads back. */
  predicate RgbReadable(c: RGB) {
    c.r >= 0 && c.g >= 0 && c.b >= 0
  }

  function RgbaText(c: RGBA): string {
    Format(RGBA_TEXTS, [IntToString(c.r), IntToString(c.g), IntToString(c.b), c.a])
  }

  /** `RGBA.to_json_data`. */
  function EncodeRgba(c: RGBA): (e: Json)
    ensures e.JStr? && "rgba(" <= e.s && EndsWith(e.s, ")")
  {
    FormatEnds(RGBA_TEXTS, [IntToString(c.r), IntToString(c.g), IntToString(c.b), c.a]);
    JStr(RgbaText(c))
  }

  /** `RGBA.parse_json_data`: a string the pattern matches; any other string is rejected, a non-string is a `TypeError`. */
  function DecodeRgba(data: Json): (r: Result<RGBA>)
    ensures r.Err? ==> r.error == ParseJsonException(data) || (!data.JStr? && r.error.TypeError?)
  {
    if !data.JStr? then Err(TypeError("expected string or bytes-like object"))
    else
      var m := Anchored(RGBA_TEXTS, RGBA_GROUPS, data.s);
      if m.Some? then
        var g := m.value;
        Ok(RGBA(DigitsValue(g[0]), DigitsValue(g[1]), DigitsValue(g[2]), g[3]))
      else Err(ParseJsonException(data))
  }

  function RgbText(c: RGB): string {
    Format(RGB_TEXTS, [IntToString(c.r), IntToString(c.g), IntToString(c.b)])
  }

  /** `RGB.to_json_data`. */
  function EncodeRgb(c: RGB): (e: Json)
    ensures e.JStr? && "rgb(" <= e.s && EndsWith(e.s, ")")
  {
    FormatEnds(RGB_TEXTS, [IntToString(c.r), IntToString(c.g), IntToString(c.b)]);
    JStr(RgbText(c))
  }

  /** `RGB.parse_json_data`. */
  function DecodeRgb(data: Json): (r: Result<RGB>)
    ensures r.Err? ==> r.error == ParseJsonException(data) || (!data.JStr? && r.error.TypeError?)
  {
    if !data.JStr? then Err(TypeError("expected string or bytes-like object"))
    else
      var m := Anchored(RGB_TEXTS, RGB_GROUPS, data.s);
      if m.Some? then
        var g := m.value;
        Ok(RGB(DigitsValue(g[0]), DigitsValue(g[1]), DigitsValue(g[2])))
      else Err(ParseJsonException(data))
  }

  /** How `str.format` writes the number: a boolean as `True` or `False`. */
  function PixelsNumText(p: Pixels): string {
    match p
    case Pixels(n) => IntToString(n)
    case BoolPixels(b) => if b then "True" else "False"
  }

  function PixelsText(p: Pixels): string {
    Format(PIXELS_TEXTS, [PixelsNumText(p)])
  }

  /** A size that `Pixels.parse_json_data` reads back from its text: a whole number that is not negative. */
  predicate PixelsReadable(p: Pixels) {
    p.Pixels? && p.num >= 0
  }

  /** `Pixels.to_json_data`. */
  function EncodePixels(p: Pixels): (e: Json)
    ensures e.JStr? && EndsWith(e.s, "px")
  {
    FormatEnds(PIXELS_TEXTS, [PixelsNumText(p)]);
    JStr(PixelsText(p))
  }

  /**
   * `Pixels.parse_json_data`: an integer is taken as it is, and so is a
   * boolean, which `isinstance(data, int)` admits; a string must match
   * `^(\d+)(?:px)?$`, and the empty string gives `None`.
   */
  function DecodePixels(data: Json): (r: Result<Option<Pixels>>)
    ensures data.JInt? ==> r == Ok(Some(Pixels(data.i)))
    ensures data.JBool? ==> r == Ok(Some(BoolPixels(data.b)))
    ensures data == JStr("") ==> r == Ok(None)
    ensures r.Ok? && r.value.None? ==> data == JStr("")
    ensures r.Err? ==> r.error == ParseJsonException(data) || (!data.JStr? && r.error.TypeError?)
  {
    match data
    case JInt(n) => Ok(Some(Pixels(n)))
    case JBool(b) => Ok(Some(BoolPixels(b)))
    case JStr(s) =>
      var m := Anchored(PIXELS_TEXTS, ONE_NUMBER, s);
      var bare := Anchored(BARE_PIXELS_TEXTS, ONE_NUMBER, s);
      if m.Some? then Ok(Some(Pixels(DigitsValue(m.value[0]))))
      else if bare.Some? then Ok(Some(Pixels(DigitsValue(bare.value[0]))))
      else if s == "" then Ok(None)
      else Err(ParseJsonException(data))
    case _ => Err(TypeError("expected string or bytes-like object"))
  }

  /** An attribute holding a `Pixels` or `None`, as its owner writes it. */
  function OptPixelsJson(h: Option<Pixels>): Json {
    if h.Some? then EncodePixels(h.value) else JNull
  }

  function PercentText(p: Percent): string {
    Format(PERCENT_TEXTS, [IntToString(p.num)])
  }

  /** `Percent.to_json_data`. */
  function EncodePercent(p: Percent): (e: Json)
    ensures e.JStr? && EndsWith(e.s, "%")
  {
    FormatEnds(PERCENT_TEXTS, [IntToString(p.num)]);
    JStr(PercentText(p))
  }

  /** `Percent.parse_json_data`. */
  function DecodePercent(data: Json): (r: Result<Percent>)
    ensures r.Err? ==> r.error == ParseJsonException(data) || (!data.JStr? && r.error.TypeError?)
  {
    if !data.JStr? then Err(TypeError("expected string or bytes-like object"))
    else
      var m := Anchored(PERCENT_TEXTS, ONE_NUMBER, data.s);
      if m.Some? then Ok(Percent(DigitsValue(m.value[0]))) else Err(ParseJsonException(data))
  }

  // ---------------------------------------------------------------------
  // Round trips
  // ---------------------------------------------------------------------

  /** Reading back what `RGBA.to_json_data` wrote gives the colour again, for non-negative components. */
  lemma RgbaRoundTrip(c: RGBA)
    requires RgbaReadable(c)
    ensures Match(RGBA_TEXTS, RGBA_GROUPS, RgbaText(c)).Some?
    ensures DecodeRgba(EncodeRgba(c)) == Ok(c)
  {
    var args := [NatToString(c.r), NatToString(c.g), NatToString(c.b), c.a];
    FitsDigits(args[0]);
    FitsDigits(args[1]);
    FitsDigits(args[2]);
    assert AllFit(RGBA_GROUPS, args) by {
      assert AllFit(RGBA_GROUPS[3..], args[3..]);
      assert AllFit(RGBA_GROUPS[2..], args[2..]);
      assert AllFit(RGBA_GROUPS[1..], args[1..]);
    }
    MatchFormat(RGBA_TEXTS, RGBA_GROUPS, args);
    DigitsValueOfNatToString(c.r);
    DigitsValueOfNatToString(c.g);
    DigitsValueOfNatToString(c.b);
  }

  /** Reading back what `RGB.to_json_data` wrote gives the colour again, for non-negative components. */
  lemma RgbRoundTrip(c: RGB)
    requires RgbReadable(c)
    ensures DecodeRgb(EncodeRgb(c)) == Ok(c)
  {
    var args := [NatToString(c.r), NatToString(c.g), NatToString(c.b)];
    FitsDigits(args[0]);
    FitsDigits(args[1]);
    FitsDigits(args[2]);
    assert AllFit(RGB_GROUPS, args) by {
      assert AllFit(RGB_GROUPS[2..], args[2..]);
      assert AllFit(RGB_GROUPS[1..], args[1..]);
    }
    MatchFormat(RGB_TEXTS, RGB_GROUPS, args);
    DigitsValueOfNatToString(c.r);
    DigitsValueOfNatToString(c.g);
    DigitsValueOfNatToString(c.b);
  }

  /** Reading back what `Pixels.to_json_data` wrote gives the size again, for a non-negative size. */
  lemma PixelsRoundTrip(p: Pixels)
    requires PixelsReadable(p)
    ensures DecodePixels(EncodePixels(p)) == Ok(Some(p))
  {
    var args := [NatToString(p.num)];
    FitsDigits(args[0]);
    assert AllFit(ONE_NUMBER, args);
    MatchFormat(PIXELS_TEXTS, ONE_NUMBER, args);
    DigitsValueOfNatToString(p.num);
  }

  /**
   * A boolean size is accepted but written as `Truepx` or `Falsepx`, which
   * the pattern rejects: it does not read back.
   */
  lemma BoolPixelsUnreadable(b: bool)
    ensures DecodePixels(EncodePixels(BoolPixels(b))) == Err(ParseJsonException(EncodePixels(BoolPixels(b))))
  {
    var w := if b then "True" else "False";
    var s := w + "px";
    assert PixelsNumText(BoolPixels(b)) == w;
    assert Format(PIXELS_TEXTS[1..], [w][1..]) == "px";
    assert PixelsText(BoolPixels(b)) == "" + w + "px" == s;
    assert !IsDigit(s[0]) && DigitsEnd(s, 0) == 0;
    assert s[|s| - 1] == 'x';
    assert Match(PIXELS_TEXTS, ONE_NUMBER, s).None?;
    assert Match(BARE_PIXELS_TEXTS, ONE_NUMBER, s).None?;
  }

  /** Reading back what `Percent.to_json_data` wrote gives the percentage again, for a non-negative one. */
  lemma PercentRoundTrip(p: Percent)
    requires p.num >= 0
    ensures DecodePercent(EncodePercent(p)) == Ok(p)
  {
    var args := [NatToString(p.num)];
    FitsDigits(args[0]);
    assert AllFit(ONE_NUMBER, args);
    MatchFormat(PERCENT_TEXTS, ONE_NUMBER, args);
    DigitsValueOfNatToString(p.num);
  }

  /** The pattern's `$` lets a final newline through. */
  lemma RgbaTrailingNewline(c: RGBA)
    requires RgbaReadable(c)
    ensures DecodeRgba(JStr(RgbaText(c) + "\n")) == Ok(c)
  {
    RgbaRoundTrip(c);
    AnchoredTrailingNewline(RGBA_TEXTS, RGBA_GROUPS, RgbaText(c));
  }

  /** Python prints one hundred-thousandth as `1e-05`; the pattern wants a decimal point, so the colour is rejected. */
  lemma RgbaExponentAlphaRejected()
    ensures DecodeRgba(EncodeRgba(RGBA(0, 0, 0, "1e-05"))).Err?
  {
    var s := "rgba(0, 0, 0, 1e-05)";
    ExponentAlphaText();
    ExponentAlphaUnmatched(s);
    assert s[|s| - 1] == ')';
  }

  /** How `RGBA(0, 0, 0, 1e-05)` is written. */
  lemma ExponentAlphaText()
    ensures RgbaText(RGBA(0, 0, 0, "1e-05")) == "rgba(0, 0, 0, 1e-05)"
  {
    ZeroText();
    assert [IntToString(0), IntToString(0), IntToString(0), "1e-05"] == ["0", "0", "0", "1e-05"];
    ExponentAlphaFormat();
  }

  /** `str(0)`. */
  lemma ZeroText()
    ensures IntToString(0) == "0"
  {
    assert NatToString(0) == "0";
  }

  /** The template filled with the components of that colour. */
  lemma ExponentAlphaFormat()
    ensures Format(RGBA_TEXTS, ["0", "0", "0", "1e-05"]) == "rgba(0, 0, 0, 1e-05)"
  {
    var texts, args := RGBA_TEXTS, ["0", "0", "0", "1e-05"];
    assert Format(texts[4..], args[4..]) == ")";
    assert Format(texts[3..], args[3..]) == ", 1e-05)";
    assert Format(texts[2..], args[2..]) == ", 0, 1e-05)";
    assert Format(texts[1..], args[1..]) == ", 0, 0, 1e-05)";
  }

  /** The RGBA pattern does not match a colour whose alpha is written with an exponent and no point. */
  lemma ExponentAlphaUnmatched(s: string)
    requires s == "rgba(0, 0, 0, 1e-05)"
    ensures Match(RGBA_TEXTS, RGBA_GROUPS, s).None?
  {
    var texts, groups := RGBA_TEXTS, RGBA_GROUPS;
    ExponentAlphaComponents(s);
    MatchFromStep(texts, groups, s, 0, 6);
    MatchFromStep(texts[1..], groups[1..], s, 6, 9);
    MatchFromStep(texts[2..], groups[2..], s, 9, 12);
    ExponentAlphaGroup(s);
  }

  /** Scanning the three colour components of `rgba(0, 0, 0, 1e-05)`. */
  lemma ExponentAlphaComponents(s: string)
    requires s == "rgba(0, 0, 0, 1e-05)"
    ensures TextAt(s, 0, "rgba(") && TextAt(s, 6, ", ") && TextAt(s, 9, ", ")
    ensures DigitsEnd(s, 5) == 6 && DigitsEnd(s, 8) == 9 && DigitsEnd(s, 11) == 12
  {
    assert DigitsEnd(s, 6) == 6 && DigitsEnd(s, 9) == 9 && DigitsEnd(s, 12) == 12;
  }

  /** The alpha group finds no point after the `1` of `1e-05`. */
  lemma ExponentAlphaGroup(s: string)
    requires s == "rgba(0, 0, 0, 1e-05)"
    ensures MatchFrom(RGBA_TEXTS[3..], RGBA_GROUPS[3..], s, 12).None?
  {
    assert TextAt(s, 12, ", ");
    assert DigitsEnd(s, 15) == 15;
    assert DigitsEnd(s, 14) == 15 && s[15] == 'e';
  }

  /** The empty string is the one input for which `Pixels.parse_json_data` gives `None`; a bare number is read as pixels. */
  lemma BarePixels(n: nat)
    ensures DecodePixels(JStr(NatToString(n))) == Ok(Some(Pixels(n)))
  {
    var s := NatToString(n);
    assert Match(PIXELS_TEXTS, ONE_NUMBER, s).None? by {
      assert IsDigit(s[|s| - 1]);
      if Match(PIXELS_TEXTS, ONE_NUMBER, s).Some? {
        MatchFromEndsWith(PIXELS_TEXTS, ONE_NUMBER, s, 0);
      }
    }
    assert !IsDigit('\n');
    assert Format(BARE_PIXELS_TEXTS, [s]) == s;
    FitsDigits(s);
    assert AllFit(ONE_NUMBER, [s]);
    MatchFormat(BARE_PIXELS_TEXTS, ONE_NUMBER, [s]);
    DigitsValueOfNatToString(n);
  }
}
