/** Colour schemes: a named light/dark palette of ten semantic colours, the
    foreground policy and the nine-step shade ramp derived from one colour. */
module Schemes {
  import opened Base

  const DEFAULT1 := "#ddd"
  const DEFAULT2 := "#111"
  const LIGHT := "light"
  const DARK := "dark"

  /** The luminosity factors 1.4 .. 0.6, in tenths. */
  const SHADES: seq<nat> := [14, 13, 12, 11, 10, 9, 8, 7, 6]

  /** The colour attributes of a scheme, in the order the constructor sets them. */
  const COLOR_KEYS: seq<string> :=
    ["primary", "secondary", "success", "info", "warning", "danger",
     "light", "dark", "background", "foreground"]

  /** The attribute dictionary's keys: the two identity attributes first. */
  const ATTRIBUTE_KEYS: seq<string> := ["name", "mode"] + COLOR_KEYS

  /** An RGB triple as the colour converter yields it. */
  datatype Rgb = Rgb(red: int, grn: int, blu: int)

  /** The library's colour-to-RGB conversion, which is not part of this model. */
  type ColorParser = string -> Rgb

  /** The named tuple of a shade ramp, lightest first. */
  datatype Shades = Shades(l4: string, l3: string, l2: string, l1: string, base: string,
                           d1: string, d2: string, d3: string, d4: string)
  {
    /** Positional access, as `shades[i]` */
    function At(i: nat): string
      requires i < 9
    {
      [l4, l3, l2, l1, base, d1, d2, d3, d4][i]
    }
  }

  /** `colors.get(key, default)` */
  function ColorOr(colors: map<string, string>, key: string, default: string): string
  {
    if key in colors then colors[key] else default
  }

  class Scheme {
    const name: string
    const mode: string
    const primary: string
    const secondary: string
    const success: string
    const info: string
    const warning: string
    const danger: string
    const light: string
    const dark: string
    const background: string
    const foreground: string

    /** Every colour not passed in gets the default: `'#ddd'` for the nine
        accent and background colours, `'#111'` for the foreground. */
    constructor (name: string, mode: string, colors: map<string, string>)
      ensures this.name == name && this.mode == mode
      ensures primary == ColorOr(colors, "primary", DEFAULT1)
      ensures secondary == ColorOr(colors, "secondary", DEFAULT1)
      ensures success == ColorOr(colors, "success", DEFAULT1)
      ensures info == ColorOr(colors, "info", DEFAULT1)
      ensures warning == ColorOr(colors, "warning", DEFAULT1)
      ensures danger == ColorOr(colors, "danger", DEFAULT1)
      ensures light == ColorOr(colors, "light", DEFAULT1)
      ensures dark == ColorOr(colors, "dark", DEFAULT1)
      ensures background == ColorOr(colors, "background", DEFAULT1)
      ensures foreground == ColorOr(colors, "foreground", DEFAULT2)
      ensures MadeFrom(name, mode, colors)
    {
      this.name := name;
      this.mode := mode;
      primary := ColorOr(colors, "primary", DEFAULT1);
      secondary := ColorOr(colors, "secondary", DEFAULT1);
      success := ColorOr(colors, "success", DEFAULT1);
      info := ColorOr(colors, "info", DEFAULT1);
      warning := ColorOr(colors, "warning", DEFAULT1);
      danger := ColorOr(colors, "danger", DEFAULT1);
      light := ColorOr(colors, "light", DEFAULT1);
      dark := ColorOr(colors, "dark", DEFAULT1);
      background := ColorOr(colors, "background", DEFAULT1);
      foreground := ColorOr(colors, "foreground", DEFAULT2);
    }

    /** Whether this scheme is `Scheme(name, mode, **colors)`: name and mode
        as given, and each colour the one passed in or its default. */
    predicate MadeFrom(name: string, mode: string, colors: map<string, string>)
    {
      this.name == name && this.mode == mode &&
      primary == ColorOr(colors, "primary", DEFAULT1) &&
      secondary == ColorOr(colors, "secondary", DEFAULT1) &&
      success == ColorOr(colors, "success", DEFAULT1) &&
      info == ColorOr(colors, "info", DEFAULT1) &&
      warning == ColorOr(colors, "warning", DEFAULT1) &&
      danger == ColorOr(colors, "danger", DEFAULT1) &&
      light == ColorOr(colors, "light", DEFAULT1) &&
      dark == ColorOr(colors, "dark", DEFAULT1) &&
      background == ColorOr(colors, "background", DEFAULT1) &&
      foreground == ColorOr(colors, "foreground", DEFAULT2)
    }
  }

  // ---------------------------------------------------------------------------
  // Attribute lookup, foreground policy, iteration
  // ---------------------------------------------------------------------------

  /** `scheme.__dict__.get(key)` */
  function Attribute(s: Scheme, key: string): (r: Option<string>)
    ensures r.Some? <==> key in ATTRIBUTE_KEYS
  {
    match key
    case "name" => Some(s.name)
    case "mode" => Some(s.mode)
    case "primary" => Some(s.primary)
    case "secondary" => Some(s.secondary)
    case "success" => Some(s.success)
    case "info" => Some(s.info)
    case "warning" => Some(s.warning)
    case "danger" => Some(s.danger)
    case "light" => Some(s.light)
    case "dark" => Some(s.dark)
    case "background" => Some(s.background)
    case "foreground" => Some(s.foreground)
    case _ => None
  }

  /** The value of a colour; nothing for the identity attributes and for
      names that are not colours. */
  function GetColor(s: Scheme, colorName: string): (r: Option<string>)
    ensures r.Some? <==> colorName in COLOR_KEYS
    ensures r.Some? ==> r == Attribute(s, colorName)
  {
    if colorName in ["name", "mode"] then None else Attribute(s, colorName)
  }

  /** A scheme made from a colour table answers `get_color` with the colour
      passed in, or with the default when it was left out. */
  lemma MadeColors(s: Scheme, name: string, mode: string, colors: map<string, string>)
    requires s.MadeFrom(name, mode, colors)
    ensures forall k :: k in COLOR_KEYS ==>
              GetColor(s, k) == Some(ColorOr(colors, k, if k == "foreground" then DEFAULT2 else DEFAULT1))
  {
    forall k | k in COLOR_KEYS
      ensures GetColor(s, k) == Some(ColorOr(colors, k, if k == "foreground" then DEFAULT2 else DEFAULT1))
    {
      var j :| 0 <= j < |COLOR_KEYS| && COLOR_KEYS[j] == k;
    }
  }

  /** The foreground colour to draw on top of the named colour. */
  function GetForeground(s: Scheme, colorName: string): (r: string)
    ensures r in {s.dark, s.light, s.foreground, s.background}
  {
    if colorName == "light" then s.dark
    else if colorName == "dark" then s.light
    else if colorName == "background" then s.foreground
    else if s.mode == "dark" then s.foreground
    else s.background
  }

  /** `light` and `dark` are each other's foreground, `background` takes the
      scheme foreground, and every other colour takes the foreground in dark
      mode and the background otherwise. */
  lemma ForegroundPolicy(s: Scheme, colorName: string)
    ensures colorName == "light" ==> GetForeground(s, colorName) == s.dark
    ensures colorName == "dark" ==> GetForeground(s, colorName) == s.light
    ensures colorName == "background" ==> GetForeground(s, colorName) == s.foreground
    ensures colorName !in {"light", "dark", "background"} ==>
      GetForeground(s, colorName) == (if s.mode == DARK then s.foreground else s.background)
  {
  }

  /** For every name other than the three special ones the answer depends
      on the mode only, never on the name. */
  lemma ForegroundIgnoresName(s: Scheme, a: string, b: string)
    requires a !in {"light", "dark", "background"} && b !in {"light", "dark", "background"}
    ensures GetForeground(s, a) == GetForeground(s, b)
  {
  }

  /** `iter(scheme)`: the attribute names without `name` and `mode`. */
  function Iter(s: Scheme): (r: seq<string>)
    ensures "name" !in r && "mode" !in r
    ensures forall k :: k in r <==> GetColor(s, k).Some?
  {
    Without(ATTRIBUTE_KEYS, {"name", "mode"})
  }

  function Without(keys: seq<string>, drop: set<string>): (r: seq<string>)
    ensures forall k :: k in r <==> k in keys && k !in drop
  {
    if keys == [] then []
    else (if keys[0] in drop then [] else [keys[0]]) + Without(keys[1..], drop)
  }

  // ---------------------------------------------------------------------------
  // Shade arithmetic
  // ---------------------------------------------------------------------------

  /** `int(max(0, min(c * factor, 255)))` with the factor in tenths. */
  function Scale(c: int, tenths: nat): (r: int)
    ensures 0 <= r <= 255
  {
    var p := c * tenths;
    if p <= 0 then 0 else if p >= 2550 then 255 else p / 10
  }

  /** A larger factor never gives a smaller channel. */
  lemma ScaleMonotone(c: int, f: nat, g: nat)
    requires g <= f
    ensures Scale(c, g) <= Scale(c, f)
  {
    if c > 0 {
      MulMonotone(c, g, f);
    } else {
      MulNonPositive(c, g);
    }
  }

  lemma MulMonotone(c: nat, g: nat, f: nat)
    requires g <= f
    ensures c * g <= c * f
  {
    assert c * f == c * g + c * (f - g);
  }

  lemma MulNonPositive(c: int, g: nat)
    requires c <= 0
    ensures c * g <= 0
  {
    assert c * g == -((-c) * g);
  }

  /** The factor 1.0 leaves an in-range channel untouched. */
  lemma ScaleUnit(c: int)
    requires 0 <= c <= 255
    ensures Scale(c, 10) == c
  {
  }

  const HEX_DIGITS := "0123456789abcdef"

  predicate IsHexDigit(ch: char) { ch in HEX_DIGITS }

  function HexValue(ch: char): (v: nat)
    requires IsHexDigit(ch)
    ensures v < 16 && HEX_DIGITS[v] == ch
  {
    if '0' <= ch <= '9' then (ch - '0') as nat else (ch - 'a') as nat + 10
  }

  /** `f'{n:02x}'` for a byte: two lower-case hex digits. */
  function Hex2(n: int): (r: string)
    requires 0 <= n <= 255
    ensures |r| == 2 && IsHexDigit(r[0]) && IsHexDigit(r[1])
  {
    [HEX_DIGITS[n / 16], HEX_DIGITS[n % 16]]
  }

  function ParseHex2(s: string): int
    requires |s| == 2 && IsHexDigit(s[0]) && IsHexDigit(s[1])
  {
    HexValue(s[0]) * 16 + HexValue(s[1])
  }

  lemma HexValueOfDigit(d: nat)
    requires d < 16
    ensures HexValue(HEX_DIGITS[d]) == d
  {
  }

  /** Reading two formatted hex digits back gives the byte. */
  lemma Hex2RoundTrip(n: int)
    requires 0 <= n <= 255
    ensures ParseHex2(Hex2(n)) == n
  {
    HexValueOfDigit(n / 16);
    HexValueOfDigit(n % 16);
  }

  /** A `#rrggbb` string in lower-case hex. */
  predicate IsHexColor(c: string)
  {
    |c| == 7 && c[0] == '#' && forall i :: 1 <= i < 7 ==> IsHexDigit(c[i])
  }

  /** One shade: each channel scaled, clamped and written as two hex digits. */
  function ShadeOf(rgb: Rgb, tenths: nat): (r: string)
    ensures IsHexColor(r)
  {
    "#" + Hex2(Scale(rgb.red, tenths)) + Hex2(Scale(rgb.grn, tenths)) + Hex2(Scale(rgb.blu, tenths))
  }

  /** The channels a `#rrggbb` string encodes. */
  function ParseHexColor(c: string): Rgb
    requires IsHexColor(c)
  {
    Rgb(ParseHex2(c[1..3]), ParseHex2(c[3..5]), ParseHex2(c[5..7]))
  }

  function ScaleRgb(rgb: Rgb, tenths: nat): Rgb
  {
    Rgb(Scale(rgb.red, tenths), Scale(rgb.grn, tenths), Scale(rgb.blu, tenths))
  }

  /** The three two-digit fields of `#rrggbb` sit at 1, 3 and 5. */
  lemma HexSlices(x: string, y: string, z: string)
    requires |x| == 2 && |y| == 2 && |z| == 2
    ensures var c := "#" + x + y + z; c[1..3] == x && c[3..5] == y && c[5..7] == z
  {
  }

  /** A shade string encodes exactly the scaled and clamped channels. */
  lemma ShadeEncodes(rgb: Rgb, tenths: nat)
    ensures ParseHexColor(ShadeOf(rgb, tenths)) == ScaleRgb(rgb, tenths)
  {
    var r, g, b := Scale(rgb.red, tenths), Scale(rgb.grn, tenths), Scale(rgb.blu, tenths);
    HexSlices(Hex2(r), Hex2(g), Hex2(b));
    Hex2RoundTrip(r);
    Hex2RoundTrip(g);
    Hex2RoundTrip(b);
  }

  /** The ramp of nine shades, factor 1.4 first and 0.6 last. */
  function Ramp(rgb: Rgb): (r: seq<string>)
    ensures |r| == |SHADES| == 9
    ensures forall i :: 0 <= i < 9 ==> IsHexColor(r[i])
  {
    seq(9, i requires 0 <= i < 9 => ShadeOf(rgb, SHADES[i]))
  }

  /** Channel-wise "at least as bright". */
  predicate NoDarker(a: Rgb, b: Rgb)
  {
    a.red >= b.red && a.grn >= b.grn && a.blu >= b.blu
  }

  predicate InRange(rgb: Rgb)
  {
    0 <= rgb.red <= 255 && 0 <= rgb.grn <= 255 && 0 <= rgb.blu <= 255
  }

  /** Every shade's channels are within [0, 255]. */
  lemma RampInRange(rgb: Rgb, i: nat)
    requires i < 9
    ensures InRange(ParseHexColor(Ramp(rgb)[i]))
  {
    assert Ramp(rgb)[i] == ShadeOf(rgb, SHADES[i]);
    ShadeEncodes(rgb, SHADES[i]);
  }

  /** The middle entry, factor 1.0, is the input colour itself. */
  lemma RampBase(rgb: Rgb)
    requires InRange(rgb)
    ensures ParseHexColor(Ramp(rgb)[4]) == rgb
  {
    assert Ramp(rgb)[4] == ShadeOf(rgb, 10);
    ShadeEncodes(rgb, 10);
    ScaleUnit(rgb.red);
    ScaleUnit(rgb.grn);
    ScaleUnit(rgb.blu);
  }

  /** The factors fall by one tenth per step. */
  lemma ShadeFactor(i: nat)
    requires i < 9
    ensures SHADES[i] == 14 - i
  {
  }

  /** Scaling by a smaller factor never brightens a channel. */
  lemma ScaleRgbMonotone(rgb: Rgb, f: nat, g: nat)
    requires g <= f
    ensures NoDarker(ScaleRgb(rgb, f), ScaleRgb(rgb, g))
  {
    ScaleMonotone(rgb.red, f, g);
    ScaleMonotone(rgb.grn, f, g);
    ScaleMonotone(rgb.blu, f, g);
  }

  /** Down the ramp no channel ever gets brighter. */
  lemma RampMonotone(rgb: Rgb, i: nat, j: nat)
    requires i <= j < 9
    ensures NoDarker(ParseHexColor(Ramp(rgb)[i]), ParseHexColor(Ramp(rgb)[j]))
  {
    assert Ramp(rgb)[i] == ShadeOf(rgb, SHADES[i]);
    assert Ramp(rgb)[j] == ShadeOf(rgb, SHADES[j]);
    ShadeEncodes(rgb, SHADES[i]);
    ShadeEncodes(rgb, SHADES[j]);
    ShadeFactor(i);
    ShadeFactor(j);
    ScaleRgbMonotone(rgb, SHADES[i], SHADES[j]);
  }

  /** `Shades(*colors)` */
  function ToShades(colors: seq<string>): (r: Shades)
    requires |colors| == 9
    ensures forall i :: 0 <= i < 9 ==> r.At(i) == colors[i]
  {
    Shades(colors[0], colors[1], colors[2], colors[3], colors[4],
           colors[5], colors[6], colors[7], colors[8])
  }

  /** What `get_shades` yields: the ramp of the named colour, or an error
      when the scheme has no such colour. */
  function ShadesOf(s: Scheme, colorName: string, parse: ColorParser): (r: Result<Shades>)
    ensures r.Ok? <==> colorName in COLOR_KEYS
  {
    match GetColor(s, colorName)
    case None => Err(NoSuchColor(colorName))
    case Some(value) => Ok(ToShades(Ramp(parse(value))))
  }

  /** `get_shades`: one formatted shade per factor, appended in order. */
  method GetShades(s: Scheme, colorName: string, parse: ColorParser) returns (r: Result<Shades>)
    ensures r == ShadesOf(s, colorName, parse)
    ensures r.Ok? ==> forall i :: 0 <= i < 9 ==> IsHexColor(r.value.At(i))
  {
    var value := GetColor(s, colorName);
    if value.None? {
      return Err(NoSuchColor(colorName));
    }
    var rgb := parse(value.value);
    var colors: seq<string> := [];
    for k := 0 to |SHADES|
      invariant |colors| == k
      invariant forall i :: 0 <= i < k ==> colors[i] == ShadeOf(rgb, SHADES[i])
    {
      var color := "#" + Hex2(Scale(rgb.red, SHADES[k]));
      color := color + Hex2(Scale(rgb.grn, SHADES[k]));
      color := color + Hex2(Scale(rgb.blu, SHADES[k]));
      colors := colors + [color];
    }
    assert colors == Ramp(rgb);
    r := Ok(ToShades(colors));
  }

  /** The named entries of a successful `get_shades`, in terms of the ramp. */
  lemma ShadesAreRamp(s: Scheme, colorName: string, parse: ColorParser)
    requires colorName in COLOR_KEYS
    ensures var sh := ShadesOf(s, colorName, parse).value;
            var ramp := Ramp(parse(GetColor(s, colorName).value));
            sh.l4 == ramp[0] && sh.l3 == ramp[1] && sh.l2 == ramp[2] && sh.l1 == ramp[3] &&
            sh.base == ramp[4] &&
            sh.d1 == ramp[5] && sh.d2 == ramp[6] && sh.d3 == ramp[7] && sh.d4 == ramp[8]
  {
  }

  /** The built-in schemes, keyed by name, with their names in definition order. */
  method NewStdSchemes() returns (schemes: map<string, Scheme>, order: seq<string>)
    ensures order == ["cosmo", "flatly", "minty", "superhero"]
    ensures schemes.Keys == set k | k in order
    ensures forall k :: k in schemes ==> fresh(schemes[k]) && schemes[k].name == k
    ensures schemes["superhero"].mode == DARK
    ensures forall k :: k in schemes && k != "superhero" ==> schemes[k].mode == LIGHT
  {
    var cosmo := new Scheme("cosmo", LIGHT, map[
      "primary" := "#2780e3", "secondary" := "#7E8081", "success" := "#3fb618",
      "info" := "#9954bb", "warning" := "#ff7518", "danger" := "#ff0039",
      "light" := "#F8F9FA", "dark" := "#373A3C", "background" := "#fff",
      "foreground" := "#373a3c"]);
    var flatly := new Scheme("flatly", LIGHT, map[
      "primary" := "#2c3e50", "secondary" := "#95a5a6", "success" := "#18bc9c",
      "info" := "#3498db", "warning" := "#f39c12", "danger" := "#e74c3c",
      "light" := "#ecf0f1", "dark" := "#7b8a8b", "background" := "#fff",
      "foreground" := "#212529"]);
    var minty := new Scheme("minty", LIGHT, map[
      "primary" := "#78c2ad", "secondary" := "#f3969a", "success" := "#56cc9d",
      "info" := "#6cc3d5", "warning" := "#ffce67", "danger" := "#ff7851",
      "light" := "#f8f9fa", "dark" := "#343a40", "background" := "#fff",
      "foreground" := "#5a5a5a"]);
    var superhero := new Scheme("superhero", DARK, map[
      "primary" := "#4c9be8", "secondary" := "#4e5d6c", "success" := "#5cb85c",
      "info" := "#5bc0de", "warning" := "#f0ad4e", "danger" := "#d9534f",
      "light" := "#aab6c2", "dark" := "#20374c", "background" := "#2b3e50",
      "foreground" := "#fff"]);
    order := ["cosmo", "flatly", "minty", "superhero"];
    schemes := map["cosmo" := cosmo, "flatly" := flatly, "minty" := minty, "superhero" := superhero];
  }
}
