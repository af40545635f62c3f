/** What the theme engines share: the values of the library constants they
    use, the colour a builder falls back to, the shade each builder picks
    for each state by mode, and how ttk reads a state specification. */
module Palettes {
  import opened Base
  import opened Schemes

  // ---------------------------------------------------------------------------
  // Constants (the values tkinter gives these names)
  // ---------------------------------------------------------------------------

  const PRIMARY := "primary"
  const NSEW := "nsew"
  const NS := "ns"
  const EW := "ew"
  const LEFT := "left"
  const RIGHT := "right"
  const RAISED := "raised"
  const FLAT := "flat"
  const CENTER := "center"
  const VERTICAL := "vertical"
  const HORIZONTAL := "horizontal"

  /** `options['color'] or default`: the empty colour falls back. */
  function ColorOrDefault(color: string, default: string): (r: string)
    ensures color != "" ==> r == color
    ensures color == "" ==> r == default
  {
    if color == "" then default else color
  }

  // ---------------------------------------------------------------------------
  // Shade choices
  // ---------------------------------------------------------------------------

  /** The hover shade of a colour: one step lighter in light mode, one step
      darker otherwise. */
  function Hover(mode: string, sh: Shades): (r: string)
    ensures r == sh.At(if mode == LIGHT then 3 else 5)
  {
    if mode == LIGHT then sh.l1 else sh.d1
  }

  /** The pressed shade of a colour: two steps lighter in light mode, two
      steps darker otherwise. */
  function Pressed(mode: string, sh: Shades): (r: string)
    ensures r == sh.At(if mode == LIGHT then 2 else 6)
  {
    if mode == LIGHT then sh.l2 else sh.d2
  }

  /** The colour of disabled parts, taken from the `light` ramp. */
  function Disabled(mode: string, lt: Shades): (r: string)
    ensures r == lt.At(if mode == LIGHT then 6 else 8)
  {
    if mode == LIGHT then lt.d2 else lt.d4
  }

  /** The fill under the mouse of a part that is off: the lighter
      background in dark mode, the `light` colour otherwise. */
  function HoverOff(mode: string, lt: Shades, bg: Shades): (r: string)
    ensures mode == DARK ==> r == bg.At(3)
    ensures mode != DARK ==> r == lt.At(4)
  {
    if mode == DARK then bg.l1 else lt.base
  }

  /** The fill of a part that is off while pressed. */
  function PressedOff(mode: string, lt: Shades, bg: Shades): (r: string)
    ensures mode == DARK ==> r == bg.At(2)
    ensures mode != DARK ==> r == lt.At(5)
  {
    if mode == DARK then bg.l2 else lt.d1
  }

  /** The hover shade as the switch builder writes it, by position in the
      ramp in dark mode. */
  function SwitchHover(mode: string, sh: Shades): string
  {
    if mode == LIGHT then sh.l1 else sh.At(5)
  }

  /** The pressed shade as the switch builder writes it, by position in the
      ramp in light mode. */
  function SwitchPressed(mode: string, sh: Shades): string
  {
    if mode == LIGHT then sh.At(2) else sh.d2
  }

  /** The positions the switch builder uses are the named shades the other
      builders use: the switch agrees with them in both modes. */
  lemma SwitchShadesAgree(mode: string, sh: Shades)
    ensures SwitchHover(mode, sh) == Hover(mode, sh)
    ensures SwitchPressed(mode, sh) == Pressed(mode, sh)
  {
    assert sh.At(5) == sh.d1;
    assert sh.At(2) == sh.l2;
  }

  /** In light mode hovering lightens and pressing lightens further; in
      every other mode both darken, pressing the most. */
  lemma HoverPressedOrder(s: Scheme, colorName: string, parse: ColorParser)
    requires colorName in COLOR_KEYS
    ensures var sh := ShadesOf(s, colorName, parse).value;
            var base := ParseHexColor(sh.base);
            var hover := ParseHexColor(Hover(s.mode, sh));
            var pressed := ParseHexColor(Pressed(s.mode, sh));
            (s.mode == LIGHT ==> NoDarker(pressed, hover) && NoDarker(hover, base)) &&
            (s.mode != LIGHT ==> NoDarker(base, hover) && NoDarker(hover, pressed))
  {
    ShadesAreRamp(s, colorName, parse);
    var rgb := parse(GetColor(s, colorName).value);
    RampMonotone(rgb, 2, 3);
    RampMonotone(rgb, 3, 4);
    RampMonotone(rgb, 4, 5);
    RampMonotone(rgb, 5, 6);
  }

  /** Down the shades of any scheme colour, no channel gets brighter. */
  lemma ShadesDarken(s: Scheme, colorName: string, parse: ColorParser, i: nat, j: nat)
    requires colorName in COLOR_KEYS && i <= j < 9
    ensures var sh := ShadesOf(s, colorName, parse).value;
            NoDarker(ParseHexColor(sh.At(i)), ParseHexColor(sh.At(j)))
  {
    var rgb := parse(GetColor(s, colorName).value);
    assert ShadesOf(s, colorName, parse).value == ToShades(Ramp(rgb));
    RampMonotone(rgb, i, j);
  }

  /** Disabled parts are never brighter in dark mode than in light mode, and
      in either mode never brighter than the `light` colour itself. */
  lemma DisabledOrder(s: Scheme, parse: ColorParser)
    ensures var lt := ShadesOf(s, LIGHT, parse).value;
            NoDarker(ParseHexColor(Disabled(LIGHT, lt)), ParseHexColor(Disabled(DARK, lt))) &&
            NoDarker(ParseHexColor(lt.base), ParseHexColor(Disabled(s.mode, lt)))
  {
    var lt := ShadesOf(s, LIGHT, parse).value;
    assert LIGHT in COLOR_KEYS;
    ShadesDarken(s, LIGHT, parse, 6, 8);
    ShadesDarken(s, LIGHT, parse, 4, 6);
    ShadesDarken(s, LIGHT, parse, 4, 8);
    assert lt.At(4) == lt.base && lt.At(6) == lt.d2 && lt.At(8) == lt.d4;
  }

  /** An off part darkens when pressed after hovering in light mode, and
      lightens in dark mode. */
  lemma OffShadeOrder(s: Scheme, parse: ColorParser)
    ensures var lt := ShadesOf(s, LIGHT, parse).value;
            var bg := ShadesOf(s, "background", parse).value;
            var hover := ParseHexColor(HoverOff(s.mode, lt, bg));
            var pressed := ParseHexColor(PressedOff(s.mode, lt, bg));
            (s.mode == DARK ==> NoDarker(pressed, hover)) &&
            (s.mode != DARK ==> NoDarker(hover, pressed))
  {
    var lt := ShadesOf(s, LIGHT, parse).value;
    var bg := ShadesOf(s, "background", parse).value;
    assert LIGHT in COLOR_KEYS && "background" in COLOR_KEYS;
    ShadesDarken(s, LIGHT, parse, 4, 5);
    ShadesDarken(s, "background", parse, 2, 3);
    assert lt.At(4) == lt.base && lt.At(5) == lt.d1;
    assert bg.At(2) == bg.l2 && bg.At(3) == bg.l1;
  }

  // ---------------------------------------------------------------------------
  // State specifications: `'pressed !disabled'` and the like
  // ---------------------------------------------------------------------------

  /** One word of a state specification: `flag` holds when the flag is set,
      `!flag` when it is not; an empty word (from repeated blanks) is no
      condition at all. */
  predicate WordHolds(word: string, state: set<string>)
  {
    if word == "" then true
    else if word[0] == '!' then word[1..] !in state
    else word in state
  }

  predicate AllHold(words: seq<string>, state: set<string>)
  {
    forall i :: 0 <= i < |words| ==> WordHolds(words[i], state)
  }

  /** Whether a state specification matches the state of a widget: every
      one of its blank-separated words holds. */
  predicate Matches(spec: string, state: set<string>)
  {
    AllHold(SpecWords(spec), state)
  }

  /** The blank-separated words of a state specification. */
  function SpecWords(spec: string): seq<string>
  {
    Split(spec, ' ')
  }

  /** The value ttk uses for a widget state: that of the first entry whose
      specification matches, or the default when none does. */
  function Select<T>(entries: seq<(string, T)>, state: set<string>, default: T): (r: T)
    ensures (forall i :: 0 <= i < |entries| ==> !Matches(entries[i].0, state)) ==> r == default
    ensures r == default || exists i :: 0 <= i < |entries| && Matches(entries[i].0, state) && entries[i].1 == r
  {
    if entries == [] then default
    else if Matches(entries[0].0, state) then entries[0].1
    else
      var r := Select(entries[1..], state, default);
      assert r != default ==> exists i :: 1 <= i < |entries| && Matches(entries[i].0, state) && entries[i].1 == r by {
        if r != default {
          var j :| 0 <= j < |entries[1..]| && Matches(entries[1..][j].0, state) && entries[1..][j].1 == r;
          assert entries[j + 1] == entries[1..][j];
        }
      }
      r
  }

  /** The first matching entry decides: entries after it are never looked
      at, whatever they say. */
  lemma {:induction false} SelectFirst<T>(entries: seq<(string, T)>, state: set<string>, default: T, k: nat)
    requires k < |entries| && Matches(entries[k].0, state)
    requires forall i :: 0 <= i < k ==> !Matches(entries[i].0, state)
    ensures Select(entries, state, default) == entries[k].1
  {
    if k > 0 {
      assert entries[1..][k - 1] == entries[k];
      forall i | 0 <= i < k - 1
        ensures !Matches(entries[1..][i].0, state)
      {
        assert entries[1..][i] == entries[i + 1];
      }
      SelectFirst(entries[1..], state, default, k - 1);
    }
  }

  /** Reading the entries one at a time from position `k`: the entry there
      decides if it matches, the rest otherwise. */
  lemma SelectFrom<T>(entries: seq<(string, T)>, state: set<string>, default: T, k: nat)
    requires k < |entries|
    ensures Select(entries[k..], state, default) ==
              if Matches(entries[k].0, state) then entries[k].1 else Select(entries[k + 1..], state, default)
  {
    assert entries[k..][1..] == entries[k + 1..];
  }

  /** Three entries read in order. */
  lemma Select3<T>(a: string, x: T, b: string, y: T, c: string, z: T, state: set<string>, default: T)
    ensures Select([(a, x), (b, y), (c, z)], state, default) ==
              if Matches(a, state) then x else if Matches(b, state) then y else if Matches(c, state) then z else default
  {
    var e := [(a, x), (b, y), (c, z)];
    assert e[1..] == [(b, y), (c, z)] && e[1..][1..] == [(c, z)] && e[1..][1..][1..] == [];
    assert Select(e[1..][1..][1..], state, default) == default;
    assert Select(e[1..][1..], state, default) == if Matches(c, state) then z else default;
    assert Select(e[1..], state, default) == if Matches(b, state) then y else Select(e[1..][1..], state, default);
  }

  /** Two entries read in order. */
  lemma Select2<T>(a: string, x: T, b: string, y: T, state: set<string>, default: T)
    ensures Select([(a, x), (b, y)], state, default) ==
              if Matches(a, state) then x else if Matches(b, state) then y else default
  {
    var e := [(a, x), (b, y)];
    assert e[1..] == [(b, y)] && e[1..][1..] == [];
    assert Select(e[1..][1..], state, default) == default;
    assert Select(e[1..], state, default) == if Matches(b, state) then y else default;
  }

  /** Two entries in front of the rest: they are read first. */
  lemma SelectCons2<T>(a: string, x: T, b: string, y: T, rest: seq<(string, T)>, state: set<string>, default: T)
    ensures Select([(a, x), (b, y)] + rest, state, default) ==
              if Matches(a, state) then x else if Matches(b, state) then y else Select(rest, state, default)
  {
    var e := [(a, x), (b, y)] + rest;
    assert e[0] == (a, x) && e[1..][0] == (b, y);
    assert e[1..][1..] == rest;
  }

  /** Three entries in front of the rest: they are read first. */
  lemma SelectCons3<T>(a: string, x: T, b: string, y: T, c: string, z: T, rest: seq<(string, T)>, state: set<string>, default: T)
    ensures Select([(a, x), (b, y), (c, z)] + rest, state, default) ==
              if Matches(a, state) then x else if Matches(b, state) then y else if Matches(c, state) then z
              else Select(rest, state, default)
  {
    var e := [(a, x), (b, y), (c, z)] + rest;
    assert e[0] == (a, x);
    assert e[1..] == [(b, y), (c, z)] + rest;
    SelectCons2(b, y, c, z, rest, state, default);
  }

  /** Whether a specification of one word matches. */
  lemma Words1(spec: string, state: set<string>)
    requires ' ' !in spec
    ensures Matches(spec, state) <==> WordHolds(spec, state)
  {
    SplitNoSep(spec, ' ');
    assert Split(spec, ' ')[0] == spec;
  }

  /** Whether a specification of two words matches. */
  lemma Words2(spec: string, a: string, b: string, state: set<string>)
    requires spec == a + " " + b && ' ' !in a && ' ' !in b
    ensures Matches(spec, state) <==> WordHolds(a, state) && WordHolds(b, state)
  {
    assert spec == a + ([' '] + b);
    SplitPrefix(a, b, ' ');
    SplitNoSep(b, ' ');
    var w := SpecWords(spec);
    assert w == [a, b];
    assert AllHold(w, state) <==> WordHolds(w[0], state) && WordHolds(w[1], state);
  }

  /** Whether a specification of three words matches. */
  lemma Words3(spec: string, a: string, b: string, c: string, state: set<string>)
    requires spec == a + " " + b + " " + c && ' ' !in a && ' ' !in b && ' ' !in c
    ensures Matches(spec, state) <==> WordHolds(a, state) && WordHolds(b, state) && WordHolds(c, state)
  {
    assert spec == a + ([' '] + (b + ([' '] + c)));
    SplitPrefix(a, b + ([' '] + c), ' ');
    SplitPrefix(b, c, ' ');
    SplitNoSep(c, ' ');
    var w := SpecWords(spec);
    assert w == [a, b, c];
    assert AllHold(w, state) <==> WordHolds(w[0], state) && WordHolds(w[1], state) && WordHolds(w[2], state);
  }

  // ---------------------------------------------------------------------------
  // The state specifications the builders write, word by word
  // ---------------------------------------------------------------------------

  lemma SpecDisabled(state: set<string>)
    ensures Matches("disabled", state) <==> "disabled" in state
  {
    Words1("disabled", state);
  }

  lemma SpecAlternate(state: set<string>)
    ensures Matches("alternate", state) <==> "alternate" in state
  {
    Words1("alternate", state);
  }

  lemma SpecUnselected(state: set<string>)
    ensures Matches("!selected", state) <==> "selected" !in state
  {
    Words1("!selected", state);
  }

  lemma SpecPressedEnabled(state: set<string>)
    ensures Matches("pressed !disabled", state) <==> "pressed" in state && "disabled" !in state
  {
    Words2("pressed !disabled", "pressed", "!disabled", state);
  }

  lemma SpecHoverEnabled(state: set<string>)
    ensures Matches("hover !disabled", state) <==> "hover" in state && "disabled" !in state
  {
    Words2("hover !disabled", "hover", "!disabled", state);
  }

  lemma SpecFocusWritable(state: set<string>)
    ensures Matches("focus !readonly", state) <==> "focus" in state && "readonly" !in state
  {
    Words2("focus !readonly", "focus", "!readonly", state);
  }

  lemma SpecDisabledSelected(state: set<string>)
    ensures Matches("disabled selected", state) <==> "disabled" in state && "selected" in state
  {
    Words2("disabled selected", "disabled", "selected", state);
  }

  lemma SpecDisabledUnselected(state: set<string>)
    ensures Matches("disabled !selected", state) <==> "disabled" in state && "selected" !in state
  {
    Words2("disabled !selected", "disabled", "!selected", state);
  }

  lemma SpecDisabledAlternate(state: set<string>)
    ensures Matches("disabled alternate", state) <==> "disabled" in state && "alternate" in state
  {
    Words2("disabled alternate", "disabled", "alternate", state);
  }

  lemma SpecPressedAlternate(state: set<string>)
    ensures Matches("pressed alternate !disabled", state) <==> "pressed" in state && "alternate" in state && "disabled" !in state
  {
    Words3("pressed alternate !disabled", "pressed", "alternate", "!disabled", state);
  }

  lemma SpecPressedOff(state: set<string>)
    ensures Matches("pressed !selected !disabled", state) <==> "pressed" in state && "selected" !in state && "disabled" !in state
  {
    Words3("pressed !selected !disabled", "pressed", "!selected", "!disabled", state);
  }

  lemma SpecPressedOn(state: set<string>)
    ensures Matches("pressed selected !disabled", state) <==> "pressed" in state && "selected" in state && "disabled" !in state
  {
    Words3("pressed selected !disabled", "pressed", "selected", "!disabled", state);
  }

  lemma SpecHoverAlternate(state: set<string>)
    ensures Matches("hover alternate !disabled", state) <==> "hover" in state && "alternate" in state && "disabled" !in state
  {
    Words3("hover alternate !disabled", "hover", "alternate", "!disabled", state);
  }

  lemma SpecHoverOff(state: set<string>)
    ensures Matches("hover !selected !disabled", state) <==> "hover" in state && "selected" !in state && "disabled" !in state
  {
    Words3("hover !selected !disabled", "hover", "!selected", "!disabled", state);
  }

  lemma SpecHoverOn(state: set<string>)
    ensures Matches("hover selected !disabled", state) <==> "hover" in state && "selected" in state && "disabled" !in state
  {
    Words3("hover selected !disabled", "hover", "selected", "!disabled", state);
  }

  lemma SpecUnselectedPressed(state: set<string>)
    ensures Matches("!selected pressed", state) <==> "selected" !in state && "pressed" in state
  {
    assert "!selected pressed" == "!selected" + " " + "pressed";
    Words2("!selected pressed", "!selected", "pressed", state);
  }

  lemma SpecUnselectedHover(state: set<string>)
    ensures Matches("!selected hover", state) <==> "selected" !in state && "hover" in state
  {
    Words2("!selected hover", "!selected", "hover", state);
  }

  lemma SpecSelectedPressed(state: set<string>)
    ensures Matches("selected pressed", state) <==> "selected" in state && "pressed" in state
  {
    Words2("selected pressed", "selected", "pressed", state);
  }

  lemma SpecSelectedHover(state: set<string>)
    ensures Matches("selected hover", state) <==> "selected" in state && "hover" in state
  {
    Words2("selected hover", "selected", "hover", state);
  }
}
