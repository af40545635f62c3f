/** The widget side of styling: how a widget turns its `bootstyle` keyword
    into a style request (colour, type, class, ttk style name and builder
    handler), and when it sends that request on the bus. */
module Widgets {
  import opened Base
  import opened Native
  import opened Publishing
  import opened Messages
  import Styles

  /** `CUSTOM_KWARGS` */
  const CUSTOM_KWARGS: seq<string> := ["bootstyle", "style", "autostyle"]

  /** The alternatives of `COLOR_PATTERN`, in the order the pattern tries
      them. */
  const COLORS: seq<string> := ["primary", "secondary", "success", "info", "warning", "danger", "dark", "light"]

  // ---------------------------------------------------------------------------
  // `re.search(COLOR_PATTERN, s)`
  // ---------------------------------------------------------------------------

  lemma ColorsNonEmpty()
    ensures forall c :: c in COLORS ==> |c| > 0
  {
  }

  /** The first alternative, from the `k`-th on, that matches at position
      `i`. */
  function ColorAt(s: string, i: nat, k: nat): (r: Option<string>)
    requires k <= |COLORS|
    ensures r.Some? ==> r.value in COLORS && OccursAt(s, r.value, i)
    ensures r.None? ==> forall j :: k <= j < |COLORS| ==> !OccursAt(s, COLORS[j], i)
    decreases |COLORS| - k
  {
    if k == |COLORS| then None
    else if OccursAt(s, COLORS[k], i) then Some(COLORS[k])
    else ColorAt(s, i, k + 1)
  }

  /** The leftmost match at or after position `from`: its position and the
      colour matched there. */
  function SearchFrom(s: string, from: nat): (r: Option<(nat, string)>)
    ensures r.Some? ==> from <= r.value.0 && r.value.1 in COLORS && OccursAt(s, r.value.1, r.value.0)
    ensures r.Some? ==> forall j, c :: from <= j < r.value.0 && c in COLORS ==> !OccursAt(s, c, j)
    ensures r.None? ==> forall j, c :: from <= j && c in COLORS ==> !OccursAt(s, c, j)
    decreases |s| - from
  {
    if from >= |s| then
      ColorsNonEmpty();
      None
    else
      match ColorAt(s, from, 0)
      case Some(c) => Some((from, c))
      case None =>
        var r := SearchFrom(s, from + 1);
        assert forall c :: c in COLORS ==> !OccursAt(s, c, from) by {
          forall c | c in COLORS
            ensures !OccursAt(s, c, from)
          {
            var j :| 0 <= j < |COLORS| && COLORS[j] == c;
          }
        }
        r
  }

  /** `re.search(COLOR_PATTERN, s).group(0)`, or `None` when nothing
      matches. */
  function FindColor(s: string): (r: Option<string>)
    ensures r.Some? ==> r.value in COLORS && exists i :: OccursAt(s, r.value, i)
    ensures r.None? <==> forall j, c :: c in COLORS ==> !OccursAt(s, c, j)
  {
    match SearchFrom(s, 0)
    case Some(m) => Some(m.1)
    case None => None
  }

  // ---------------------------------------------------------------------------
  // The keyword parser of `_handler_message`
  // ---------------------------------------------------------------------------

  /** The colour, type and class read off a `bootstyle` keyword; an empty
      string is a part the keyword does not give. */
  datatype Keywords = Keywords(color: string, kind: string, klass: string)

  /** How `_handler_message` splits the lower-cased keyword on `-`. */
  function ParseBootstyle(bootstyle: string): (r: Keywords)
    ensures r.color != "" ==> FindColor(Lower(bootstyle)).Some?
    ensures '-' !in r.kind
    ensures '-' !in bootstyle ==> r.kind == ""
    ensures '-' !in bootstyle && FindColor(Lower(bootstyle)).None? ==> r == Keywords("", "", bootstyle)
    ensures '-' !in bootstyle && FindColor(Lower(bootstyle)).Some? ==> r.color == FindColor(Lower(bootstyle)).value && r.klass == ""
  {
    var low := Lower(bootstyle);
    var parts := Split(low, '-');
    assert '-' !in bootstyle ==> parts == [low] by {
      if '-' !in bootstyle {
        assert '-' !in low;
        SplitNoSep(low, '-');
      }
    }
    match FindColor(low)
    case Some(c) =>
      if |parts| == 1 then Keywords(c, "", "")
      else if |parts| == 2 then Keywords(parts[0], "", parts[1])
      else if |parts| == 3 then Keywords(parts[0], parts[1], parts[2])
      else Keywords("", "", "")
    case None =>
      if |parts| == 2 then Keywords("", parts[0], parts[1])
      else Keywords("", "", bootstyle)
  }

  /** A keyword with no upper-case letter is its own lower-case form. */
  lemma LowerOfLower(s: string)
    requires forall i :: 0 <= i < |s| ==> !IsUpperChar(s[i])
    ensures Lower(s) == s
  {
  }

  /** Two strings without upper-case letters join into one without. */
  lemma NoUpperAppend(a: string, b: string)
    requires forall i :: 0 <= i < |a| ==> !IsUpperChar(a[i])
    requires forall i :: 0 <= i < |b| ==> !IsUpperChar(b[i])
    ensures forall i :: 0 <= i < |a + b| ==> !IsUpperChar((a + b)[i])
  {
    forall i | 0 <= i < |a + b|
      ensures !IsUpperChar((a + b)[i])
    {
      if i < |a| {
        assert (a + b)[i] == a[i];
      } else {
        assert (a + b)[i] == b[i - |a|];
      }
    }
  }

  /** `color-type-class`: the three parts come back as written. */
  lemma ParseColorKindClass(color: string, kind: string, klass: string)
    requires color in COLORS
    requires '-' !in kind && '-' !in klass
    requires forall i :: 0 <= i < |kind| ==> !IsUpperChar(kind[i])
    requires forall i :: 0 <= i < |klass| ==> !IsUpperChar(klass[i])
    ensures ParseBootstyle(color + "-" + kind + "-" + klass) == Keywords(color, kind, klass)
  {
    var s := color + "-" + kind + "-" + klass;
    ColorShape(color);
    NoUpperAppend(color, "-");
    NoUpperAppend(color + "-", kind);
    NoUpperAppend(color + "-" + kind, "-");
    NoUpperAppend(color + "-" + kind + "-", klass);
    LowerOfLower(s);
    SplitThree(color, kind, klass);
    assert OccursAt(s, color, 0);
  }

  /** `color-class`: the first part is the colour and the second the class. */
  lemma ParseColorClass(color: string, klass: string)
    requires color in COLORS
    requires '-' !in klass
    requires forall i :: 0 <= i < |klass| ==> !IsUpperChar(klass[i])
    ensures ParseBootstyle(color + "-" + klass) == Keywords(color, "", klass)
  {
    var s := color + "-" + klass;
    ColorShape(color);
    NoUpperAppend(color, "-");
    NoUpperAppend(color + "-", klass);
    LowerOfLower(s);
    assert '-' !in color;
    SplitNoSep(klass, '-');
    SplitPrefix(color, klass, '-');
    assert s == color + (['-'] + klass);
    assert OccursAt(s, color, 0);
  }

  /** Every colour is a lower-case word of at least three letters. */
  lemma ColorShape(c: string)
    requires c in COLORS
    ensures |c| >= 3 && '-' !in c && '.' !in c
    ensures forall i :: 0 <= i < |c| ==> IsLowerChar(c[i])
  {
  }

  /** A colour searched for on its own is found whole. */
  lemma FindsItself(color: string)
    requires color in COLORS
    ensures FindColor(color) == Some(color)
  {
    ColorShape(color);
    assert OccursAt(color, color, 0);
    var m := SearchFrom(color, 0);
    assert m.Some? && m.value.0 == 0;
    var c := m.value.1;
    ColorShape(c);
    assert c[..3] == color[..3] by {
      assert color[..|c|] == c;
    }
    ColorsByPrefix(c, color);
  }

  /** A bare colour gives the colour and nothing else. */
  lemma ParseColorOnly(color: string)
    requires color in COLORS
    ensures ParseBootstyle(color) == Keywords(color, "", "")
  {
    ColorShape(color);
    LowerOfLower(color);
    SplitNoSep(color, '-');
    FindsItself(color);
  }

  /** No two colours share their first three letters. */
  lemma ColorsByPrefix(a: string, b: string)
    requires a in COLORS && b in COLORS
    requires |a| >= 3 && |b| >= 3 && a[..3] == b[..3]
    ensures a == b
  {
    assert a[0] == b[0] && a[1] == b[1] && a[2] == b[2] by {
      assert a[..3][0] == a[0] && a[..3][1] == a[1] && a[..3][2] == a[2];
      assert b[..3][0] == b[0] && b[..3][1] == b[1] && b[..3][2] == b[2];
    }
  }

  /** Without a colour, `type-class` gives the type and class and anything
      else is taken whole, in its original case, as the class. */
  lemma ParseNoColor(bootstyle: string)
    requires FindColor(Lower(bootstyle)).None?
    ensures var parts := Split(Lower(bootstyle), '-');
            ParseBootstyle(bootstyle) ==
            if |parts| == 2 then Keywords("", parts[0], parts[1]) else Keywords("", "", bootstyle)
  {
  }

  lemma SplitThree(a: string, b: string, c: string)
    requires '-' !in a && '-' !in b && '-' !in c
    ensures Split(a + "-" + b + "-" + c, '-') == [a, b, c]
  {
    var parts := [a, b, c];
    assert parts[1..] == [b, c] && [b, c][1..] == [c];
    assert Join([c], '-') == c;
    assert Join([b, c], '-') == b + ['-'] + c;
    assert Join(parts, '-') == a + ['-'] + (b + ['-'] + c);
    assert a + "-" + b + "-" + c == a + ['-'] + (b + ['-'] + c);
    SplitJoin(parts, '-');
  }

  // ---------------------------------------------------------------------------
  // The class, the ttk style name and the handler
  // ---------------------------------------------------------------------------

  /** The class read off the widget's Tk class when the keyword gives none:
      the last dotted part, with a leading `T` dropped when the first two
      characters are upper case, lower-cased. */
  function ClassFallback(winfoClass: string): (r: string)
    ensures '.' !in r
    ensures forall i :: 0 <= i < |r| ==> !IsUpperChar(r[i])
  {
    var parts := Split(winfoClass, '.');
    var temp := parts[|parts| - 1];
    if IsUpper(Take(temp, 2)) then Lower(temp[1..]) else Lower(temp)
  }

  /** A ttk class name `T` + `X...` loses its `T`. */
  lemma FallbackTtkClass(name: string)
    requires |name| >= 1 && IsUpperChar(name[0])
    requires '.' !in name
    ensures ClassFallback("T" + name) == Lower(name)
  {
    SplitNoSep("T" + name, '.');
    assert Take("T" + name, 2) == ['T', name[0]];
    assert ("T" + name)[1..] == name;
  }

  /** A Tk class that does not start with two capitals is only lower-cased. */
  lemma FallbackTkClass(name: string)
    requires |name| >= 2 && IsUpperChar(name[0]) && IsLowerChar(name[1])
    requires '.' !in name
    ensures ClassFallback(name) == Lower(name)
  {
    SplitNoSep(name, '.');
    assert Take(name, 2)[1] == name[1];
  }

  /** `s + '.' if s else ''` */
  function Dotted(s: string): string
  {
    if s != "" then s + "." else ""
  }

  /** The class part of a ttk style name: `klass.title()`, behind a `T`
      unless the class already starts with `t`. */
  function ClassPart(klass: string): string
  {
    if StartsWith(Lower(klass), "t") then Title(klass) else "T" + Title(klass)
  }

  /** The ttk style name of a ttk widget: `color.type.Orient.TClass`, each
      absent part left out. */
  function TtkStyleName(color: string, kind: string, orient: string, klass: string): (r: string)
    ensures StartsWith(r, Dotted(color))
  {
    Dotted(color) + (Dotted(kind) + (Dotted(Title(orient)) + ClassPart(klass)))
  }

  /** The parts a ttk style name is made of, in order. */
  function StyleParts(color: string, kind: string, orient: string, klass: string): seq<string>
  {
    (if color != "" then [color] else []) + (if kind != "" then [kind] else []) +
    (if orient != "" then [Title(orient)] else []) + [ClassPart(klass)]
  }

  lemma {:induction false} TitleKeepsUncased(s: string, prevCased: bool, c: char)
    requires !IsCased(c)
    ensures c in TitleAfter(s, prevCased) <==> c in s
  {
    if s != [] {
      TitleKeepsUncased(s[1..], IsCased(s[0]), c);
      assert TitleAfter(s, prevCased) == [TitleAfter(s, prevCased)[0]] + TitleAfter(s[1..], IsCased(s[0]));
      assert s == [s[0]] + s[1..];
    }
  }

  /** Lower-case letters after a cased character stay as they are. */
  lemma {:induction false} TitleAfterLetters(s: string)
    requires forall i :: 0 <= i < |s| ==> IsLowerChar(s[i])
    ensures TitleAfter(s, true) == s
  {
    if s != [] {
      TitleAfterLetters(s[1..]);
    }
  }

  /** A lower-case word title-cases to its capitalised form. */
  lemma TitleWord(s: string)
    requires |s| >= 1 && forall i :: 0 <= i < |s| ==> IsLowerChar(s[i])
    ensures Title(s) == [ToUpperChar(s[0])] + s[1..]
  {
    TitleAfterLetters(s[1..]);
  }

  lemma DottedJoin(x: string, rest: seq<string>)
    requires |rest| >= 1
    ensures Dotted(x) + Join(rest, '.') == Join((if x != "" then [x] else []) + rest, '.')
  {
    var xs := (if x != "" then [x] else []) + rest;
    if x != "" {
      assert |xs| > 1 && xs[0] == x && xs[1..] == rest;
      assert Join(xs, '.') == x + ['.'] + Join(rest, '.');
      assert Dotted(x) == x + ['.'];
    } else {
      assert xs == rest;
      assert Dotted(x) == [];
    }
  }

  /** Three optional dotted parts in front of a last part join with `.`. */
  lemma DottedParts(c: string, k: string, o: string, last: string)
    ensures Dotted(c) + (Dotted(k) + (Dotted(o) + last)) ==
            Join((if c != "" then [c] else []) + (if k != "" then [k] else []) + (if o != "" then [o] else []) + [last], '.')
  {
    var os := if o != "" then [o] else [];
    var ks := if k != "" then [k] else [];
    var cs := if c != "" then [c] else [];
    assert Join([last], '.') == last;
    DottedJoin(o, [last]);
    DottedJoin(k, os + [last]);
    DottedJoin(c, ks + (os + [last]));
    assert cs + (ks + (os + [last])) == cs + ks + os + [last];
  }

  /** Splitting a ttk style name on `.` gives back its parts, so an engine
      can read the colour, type, orientation and class off the name. */
  lemma StyleNameSplits(color: string, kind: string, orient: string, klass: string)
    requires '.' !in color && '.' !in kind && '.' !in orient && '.' !in klass
    ensures Split(TtkStyleName(color, kind, orient, klass), '.') == StyleParts(color, kind, orient, klass)
  {
    TitleKeepsUncased(orient, false, '.');
    TitleKeepsUncased(klass, false, '.');
    assert |Title(orient)| == |orient|;
    DottedParts(color, kind, Title(orient), ClassPart(klass));
    SplitJoin(StyleParts(color, kind, orient, klass), '.');
  }

  /** The class part of a lower-case word that does not start with `t`: a
      `T` in front of the capitalised word. */
  lemma ClassPartOfWord(w: string)
    requires |w| >= 1 && w[0] != 't'
    requires forall i :: 0 <= i < |w| ==> IsLowerChar(w[i])
    ensures ClassPart(w) == "T" + ([ToUpperChar(w[0])] + w[1..])
  {
    LowerOfLower(w);
    TitleWord(w);
    assert !StartsWith(w, "t") by {
      assert w[..1][0] == w[0];
    }
  }

  /** In a name whose every `.` is followed by something other than `T`,
      a marker `.T…` placed after it is its first occurrence. */
  lemma MarkerFirst(a: string, pat: string)
    requires |pat| >= 2 && pat[0] == '.' && pat[1] == 'T'
    requires forall i :: 0 <= i < |a| && a[i] == '.' ==> i + 1 < |a| && a[i + 1] != 'T'
    ensures forall i :: 0 <= i < |a| ==> !OccursAt(a + pat, pat, i)
  {
    var s := a + pat;
    forall i | 0 <= i < |a|
      ensures !OccursAt(s, pat, i)
    {
      assert s[i] == a[i];
    }
  }

  /** `name.replace('.TX', '.X')` on `a.TXrest`: only the class marker is
      rewritten. */
  lemma MarkerReplaced(a: string, pat: string, rep: string, rest: string)
    requires |pat| >= 2 && pat[0] == '.' && pat[1] == 'T' && '.' !in rest
    requires forall i :: 0 <= i < |a| && a[i] == '.' ==> i + 1 < |a| && a[i + 1] != 'T'
    ensures Replace(a + pat + rest, pat, rep) == a + rep + rest
  {
    MarkerFirst(a, pat);
    ReplaceOnce(a, pat, rep, rest);
    ReplaceSkip(rest, "", pat, rep);
    assert rest + "" == rest;
  }

  /** Whether a style name prefix is empty or ends in a `.`, with no other
      `.` in it followed by `T`: no class marker can start inside it. */
  predicate ClassAtEnd(prefix: string)
  {
    prefix == "" ||
    (prefix[|prefix| - 1] == '.' &&
     forall i :: 0 <= i < |prefix| - 1 && prefix[i] == '.' ==> i + 2 < |prefix| && prefix[i + 1] != 'T')
  }

  /** The part of a style name in front of its class: `color.Orient.`, each
      absent part left out. Every `.` in it but the last is followed by
      something other than `T`. */
  lemma PrefixDots(color: string, orient: string)
    requires '.' !in color
    requires orient == "" || orient == "horizontal" || orient == "vertical"
    ensures ClassAtEnd(Dotted(color) + Dotted(Title(orient)))
  {
    var title := Title(orient);
    if orient != "" {
      TitleWord(orient);
      assert title[0] != 'T' && '.' !in title;
      var prefix := Dotted(color) + (title + ".");
      forall i | 0 <= i < |prefix| - 1 && prefix[i] == '.'
        ensures i + 2 < |prefix| && prefix[i + 1] != 'T'
      {
        assert i == |color| && prefix[i + 1] == title[0];
      }
    }
  }

  /** `.replace('.TX', '.X')` on `prefix` + `TXrest`: the marker after the
      prefix is the first, and the only one. */
  lemma MarkedReplace(prefix: string, cap: string, rest: string)
    requires '.' !in cap && '.' !in rest
    requires ClassAtEnd(prefix)
    ensures Replace(prefix + ("T" + (cap + rest)), ".T" + cap, "." + cap) ==
              if prefix == "" then "T" + (cap + rest) else prefix + (cap + rest)
  {
    if prefix == "" {
      BareMarkerKept(cap, rest);
      assert prefix + ("T" + (cap + rest)) == "T" + (cap + rest);
    } else {
      DottedMarkerReplaced(prefix, cap, rest);
    }
  }

  /** A class name alone has no `.` and is left as it is. */
  lemma BareMarkerKept(cap: string, rest: string)
    requires '.' !in cap && '.' !in rest
    ensures Replace("T" + (cap + rest), ".T" + cap, "." + cap) == "T" + (cap + rest)
  {
    var x := "T" + (cap + rest);
    ReplaceSkip(x, "", ".T" + cap, "." + cap);
    assert x + "" == x;
  }

  lemma DottedMarkerReplaced(prefix: string, cap: string, rest: string)
    requires '.' !in rest && prefix != "" && ClassAtEnd(prefix)
    ensures Replace(prefix + ("T" + (cap + rest)), ".T" + cap, "." + cap) == prefix + (cap + rest)
  {
    var pat := ".T" + cap;
    var rep := "." + cap;
    var a := prefix[..|prefix| - 1];
    assert prefix == a + ".";
    assert prefix + ("T" + (cap + rest)) == a + pat + rest;
    MarkerReplaced(a, pat, rep, rest);
    assert a + rep + rest == prefix + (cap + rest);
  }

  /** `name.replace('.TX', '.X')` on the style name of a class `x…`: the
      marker in front of the class goes, and a bare class name stays. */
  lemma ElementName(color: string, orient: string, w: string)
    requires '.' !in color
    requires orient == "" || orient == "horizontal" || orient == "vertical"
    requires |w| >= 1 && w[0] != 't' && '.' !in w
    requires forall i :: 0 <= i < |w| ==> IsLowerChar(w[i])
    ensures var cap := [ToUpperChar(w[0])];
            var prefix := Dotted(color) + Dotted(Title(orient));
            Replace(TtkStyleName(color, "", orient, w), ".T" + cap, "." + cap) ==
              if prefix == "" then "T" + (cap + w[1..]) else prefix + (cap + w[1..])
  {
    var cap := [ToUpperChar(w[0])];
    var prefix := Dotted(color) + Dotted(Title(orient));
    NameOfWord(color, orient, w);
    assert '.' !in w[1..];
    PrefixDots(color, orient);
    MarkedReplace(prefix, cap, w[1..]);
  }

  /** The style name of a lower-case class not starting with `t`, without a
      type: the prefix, then `T` and the capitalised word. */
  lemma NameOfWord(color: string, orient: string, w: string)
    requires |w| >= 1 && w[0] != 't'
    requires forall i :: 0 <= i < |w| ==> IsLowerChar(w[i])
    ensures TtkStyleName(color, "", orient, w) ==
            (Dotted(color) + Dotted(Title(orient))) + ("T" + ([ToUpperChar(w[0])] + w[1..]))
  {
    ClassPartOfWord(w);
    assert Dotted("") == "";
  }

  /** The checkbutton's indicator element is named after its style with
      `.TC` made `.C` (chromatk.py:354): `primary.TCheckbutton` gives
      `primary.Checkbutton`, and the bare `TCheckbutton` is left alone. */
  lemma CheckElementName(color: string)
    requires '.' !in color
    ensures var e := Replace(TtkStyleName(color, "", "", "checkbutton"), ".TC", ".C");
            (color != "" ==> e == color + "." + "Checkbutton") && (color == "" ==> e == "TCheckbutton")
  {
    CheckbuttonWord();
    ElementName(color, "", "checkbutton");
    assert Dotted(Title("")) == "";
    assert Dotted(color) + "" == Dotted(color);
  }

  lemma CheckbuttonWord()
    ensures var cap := [ToUpperChar("checkbutton"[0])];
            ".T" + cap == ".TC" && "." + cap == ".C" &&
            cap + "checkbutton"[1..] == "Checkbutton" && "T" + "Checkbutton" == "TCheckbutton"
  {
    assert ToUpperChar('c') == 'C';
  }

  lemma ScrollbarWord()
    ensures var cap := [ToUpperChar("scrollbar"[0])];
            ".T" + cap == ".TS" && "." + cap == ".S" &&
            cap + "scrollbar"[1..] == "Scrollbar" && "T" + "Scrollbar" == "TScrollbar"
  {
    assert ToUpperChar('s') == 'S';
  }

  /** The scrollbar's trough and thumb elements are named after its style
      with `.TS` made `.S` (chromatk.py:671): `primary.Horizontal.TScrollbar`
      gives `primary.Horizontal.Scrollbar`, and the bare `TScrollbar` is left
      alone. */
  lemma ScrollbarElementName(color: string, orient: string)
    requires '.' !in color
    requires orient == "" || orient == "horizontal" || orient == "vertical"
    ensures var e := Replace(TtkStyleName(color, "", orient, "scrollbar"), ".TS", ".S");
            var prefix := Dotted(color) + Dotted(Title(orient));
            (prefix != "" ==> e == prefix + "Scrollbar") && (prefix == "" ==> e == "TScrollbar")
  {
    ScrollbarWord();
    ElementName(color, orient, "scrollbar");
  }

  /** The builder keyword: `[type-]class`, behind `tk-` for a Tk widget. */
  function HandlerName(isTtk: bool, kind: string, klass: string): (r: string)
    ensures isTtk && kind == "" ==> r == klass
    ensures !isTtk ==> |r| >= 3 && r[..3] == "tk-"
  {
    (if isTtk then "" else "tk-") + Join((if kind != "" then [kind] else []) + [klass], '-')
  }

  /** A ttk handler splits on `-` into its type and class; a Tk handler
      carries the `tk-` marker in front of them. */
  lemma HandlerSplits(isTtk: bool, kind: string, klass: string)
    requires '-' !in kind && '-' !in klass
    ensures Split(HandlerName(isTtk, kind, klass), '-') ==
            (if isTtk then [] else ["tk"]) + (if kind != "" then [kind] else []) + [klass]
  {
    var parts := (if kind != "" then [kind] else []) + [klass];
    if kind != "" {
      assert parts[1..] == [klass];
    }
    SplitJoin(parts, '-');
    var j := Join(parts, '-');
    if !isTtk {
      assert '-' !in "tk";
      SplitPrefix("tk", j, '-');
      assert HandlerName(isTtk, kind, klass) == "tk" + (['-'] + j);
      assert ["tk"] + parts == (if isTtk then [] else ["tk"]) + (if kind != "" then [kind] else []) + [klass];
    } else {
      assert HandlerName(isTtk, kind, klass) == j;
    }
  }

  /** The orientation as the message carries it: only when it is truthy. */
  function Truthy(orient: Option<string>): (r: Option<string>)
    ensures r.Some? <==> orient.Some? && orient.value != ""
    ensures r.Some? ==> r == orient
  {
    if orient.Some? && orient.value != "" then orient else None
  }

  /** `_handler_message()`: the style request of a widget with the given
      keyword, flags, Tk class and orientation (`None` when `cget('orient')`
      fails). */
  function HandlerMessage(bootstyle: string, isTtk: bool, isHybrid: bool, hybridStyles: set<string>,
                          orient: Option<string>, winfoClass: string, widget: WidgetId): (r: StyleRequest)
    ensures r.bootstyle == bootstyle && r.widget == widget && r.hybrid == isHybrid && r.hybridStyles == hybridStyles
    ensures r.orient == Truthy(orient) && r.scheme == None
    ensures !isTtk ==> r.ttkstyle == ""
  {
    var kw := ParseBootstyle(bootstyle);
    var klass := if kw.klass == "" then ClassFallback(winfoClass) else kw.klass;
    var o := Truthy(orient);
    StyleRequest(
      ttkstyle := if isTtk then TtkStyleName(kw.color, kw.kind, if o.Some? then o.value else "", klass) else "",
      color := kw.color,
      kind := kw.kind,
      klass := klass,
      bootstyle := bootstyle,
      handler := HandlerName(isTtk, kw.kind, klass),
      widget := widget,
      hybrid := isHybrid,
      hybridStyles := hybridStyles,
      orient := o,
      scheme := None)
  }

  /** A capitalised word (`Button`) and its lower-case form (`button`). */
  predicate IsCapitalised(name: string)
  {
    |name| >= 1 && IsUpperChar(name[0]) && forall i :: 1 <= i < |name| ==> IsLowerChar(name[i])
  }

  /** The class read off a ttk class `TName` gets its `T` back in the style
      name. */
  lemma ClassRoundTrip(name: string)
    requires IsCapitalised(name) && name[0] != 'T'
    ensures ClassFallback("T" + name) == Lower(name)
    ensures ClassPart(Lower(name)) == "T" + name
  {
    FallbackTtkClass(name);
    CapitalisedClassPart(name);
  }

  /** A capitalised class name lower-cases to a word whose class part is
      the name behind a `T`. */
  lemma CapitalisedClassPart(name: string)
    requires IsCapitalised(name) && name[0] != 'T'
    ensures |Lower(name)| >= 1 && forall i :: 0 <= i < |name| ==> IsLowerChar(Lower(name)[i])
    ensures ClassPart(Lower(name)) == "T" + name
  {
    var klass := Lower(name);
    TitleWord(klass);
    assert Title(klass) == name;
    assert !StartsWith(klass, "t") by {
      assert klass[0] == ToLowerChar(name[0]);
    }
    assert Lower(klass) == klass;
  }

  /** The style request of a ttk widget whose keyword names no class. */
  lemma TtkFallbackRequestOf(bootstyle: string, kw: Keywords, winfoClass: string, widget: WidgetId)
    requires ParseBootstyle(bootstyle) == kw && kw.klass == ""
    ensures var r := HandlerMessage(bootstyle, true, false, {}, None, winfoClass, widget);
            r.color == kw.color && r.kind == kw.kind && r.klass == ClassFallback(winfoClass) &&
            r.handler == HandlerName(true, kw.kind, ClassFallback(winfoClass)) &&
            r.ttkstyle == TtkStyleName(kw.color, kw.kind, "", ClassFallback(winfoClass))
  {
  }

  /** With a colour alone, the handler is the class ... */
  lemma ClassHandler(klass: string)
    ensures HandlerName(true, "", klass) == klass
  {
    assert [] + [klass] == [klass];
  }

  /** ... and the style name is the colour in front of the class part. */
  lemma ColorClassName(color: string, klass: string)
    requires color != ""
    ensures TtkStyleName(color, "", "", klass) == color + "." + ClassPart(klass)
  {
    assert Title("") == "";
    OneDotted(color, ClassPart(klass));
  }

  lemma OneDotted(a: string, last: string)
    requires a != ""
    ensures Dotted(a) + (Dotted("") + (Dotted("") + last)) == a + "." + last
  {
    assert Dotted("") + last == last;
  }

  /** A ttk widget of class `TName` styled with a bare colour asks the
      `name` builder for `color.TName`. */
  lemma BareColorTtkRequest(color: string, name: string, widget: WidgetId)
    requires color in COLORS
    requires IsCapitalised(name) && name[0] != 'T'
    ensures var r := HandlerMessage(color, true, false, {}, None, "T" + name, widget);
            r.color == color && r.kind == "" && r.klass == Lower(name) &&
            r.handler == Lower(name) && r.ttkstyle == color + "." + "T" + name
  {
    ParseColorOnly(color);
    ColorShape(color);
    TtkFallbackRequestOf(color, Keywords(color, "", ""), "T" + name, widget);
    ClassRoundTrip(name);
    ClassHandler(Lower(name));
    ColorClassName(color, Lower(name));
    assert color + "." + ClassPart(Lower(name)) == color + "." + "T" + name;
  }

  /** The style request of a ttk widget whose keyword names its class. */
  lemma TtkRequestOf(bootstyle: string, kw: Keywords, winfoClass: string, widget: WidgetId)
    requires ParseBootstyle(bootstyle) == kw && kw.klass != ""
    ensures var r := HandlerMessage(bootstyle, true, false, {}, None, winfoClass, widget);
            r.color == kw.color && r.kind == kw.kind && r.klass == kw.klass &&
            r.handler == HandlerName(true, kw.kind, kw.klass) &&
            r.ttkstyle == TtkStyleName(kw.color, kw.kind, "", kw.klass)
  {
  }

  /** A ttk widget styled `color-type-class` asks the `type-class` builder
      for `color.type.TClass`, whatever its own Tk class. */
  lemma ColorKindClassTtkRequest(color: string, kind: string, name: string, winfoClass: string, widget: WidgetId)
    requires color in COLORS
    requires |kind| >= 1 && forall i :: 0 <= i < |kind| ==> IsLowerChar(kind[i])
    requires IsCapitalised(name) && name[0] != 'T'
    ensures var r := HandlerMessage(color + "-" + kind + "-" + Lower(name), true, false, {}, None, winfoClass, widget);
            r.color == color && r.kind == kind && r.klass == Lower(name) &&
            r.handler == kind + "-" + Lower(name) && r.ttkstyle == color + "." + kind + "." + "T" + name
  {
    var klass := Lower(name);
    CapitalisedClassPart(name);
    ColorKindClassRequest(color, kind, klass, winfoClass, widget);
    var pre := color + "." + kind + ".";
    assert pre + ClassPart(klass) == pre + "T" + name;
  }

  /** The same for any lower-case class word, with the class part left
      unexpanded. */
  lemma ColorKindClassRequest(color: string, kind: string, klass: string, winfoClass: string, widget: WidgetId)
    requires color in COLORS
    requires |kind| >= 1 && forall i :: 0 <= i < |kind| ==> IsLowerChar(kind[i])
    requires |klass| >= 1 && forall i :: 0 <= i < |klass| ==> IsLowerChar(klass[i])
    ensures var r := HandlerMessage(color + "-" + kind + "-" + klass, true, false, {}, None, winfoClass, widget);
            r.color == color && r.kind == kind && r.klass == klass &&
            r.handler == kind + "-" + klass && r.ttkstyle == color + "." + kind + "." + ClassPart(klass)
  {
    ColorShape(color);
    assert '-' !in kind && '-' !in klass;
    ParseColorKindClass(color, kind, klass);
    TtkRequestOf(color + "-" + kind + "-" + klass, Keywords(color, kind, klass), winfoClass, widget);
    KindClassHandler(kind, klass);
    ColorKindClassName(color, kind, klass);
  }

  /** With a type, the handler is the type in front of the class ... */
  lemma KindClassHandler(kind: string, klass: string)
    requires kind != ""
    ensures HandlerName(true, kind, klass) == kind + "-" + klass
  {
    var ps := [kind] + [klass];
    assert ps[1..] == [klass];
    assert Join([klass], '-') == klass;
    assert Join(ps, '-') == kind + ['-'] + klass;
  }

  /** ... and the style name puts the colour and the type in front of the
      class part. */
  lemma ColorKindClassName(color: string, kind: string, klass: string)
    requires color != "" && kind != ""
    ensures TtkStyleName(color, kind, "", klass) == color + "." + kind + "." + ClassPart(klass)
  {
    assert Title("") == "";
    TwoDotted(color, kind, ClassPart(klass));
  }

  lemma TwoDotted(a: string, b: string, last: string)
    requires a != "" && b != ""
    ensures Dotted(a) + (Dotted(b) + (Dotted("") + last)) == a + "." + b + "." + last
  {
    assert Dotted("") + last == last;
    assert (a + ".") + ((b + ".") + last) == a + "." + b + "." + last;
  }

  /** A Tk widget styled with a bare colour asks the `tk-`class builder and
      gets no ttk style name. */
  lemma BareColorTkRequest(color: string, winfoClass: string, widget: WidgetId)
    requires color in COLORS
    ensures var r := HandlerMessage(color, false, false, {}, None, winfoClass, widget);
            r.ttkstyle == "" && r.color == color &&
            r.handler == "tk-" + ClassFallback(winfoClass)
  {
    ParseColorOnly(color);
    assert Join([] + [ClassFallback(winfoClass)], '-') == ClassFallback(winfoClass);
  }

  // ---------------------------------------------------------------------------
  // capture_custom_kwargs
  // ---------------------------------------------------------------------------

  /** `capture_custom_kwargs(kw)`: moves the custom keywords out of `kw`. */
  method CaptureCustomKwargs(kw: map<string, Value>) returns (custom: map<string, Value>, rest: map<string, Value>)
    ensures forall k :: k in custom <==> k in kw && k in CUSTOM_KWARGS
    ensures forall k :: k in rest <==> k in kw && k !in CUSTOM_KWARGS
    ensures forall k :: k in custom ==> custom[k] == kw[k]
    ensures forall k :: k in rest ==> rest[k] == kw[k]
  {
    custom := map[];
    rest := kw;
    var i := 0;
    while i < |CUSTOM_KWARGS|
      invariant 0 <= i <= |CUSTOM_KWARGS|
      invariant forall k :: k in custom <==> k in kw && k in CUSTOM_KWARGS[..i]
      invariant forall k :: k in rest <==> k in kw && k !in CUSTOM_KWARGS[..i]
      invariant forall k :: k in custom ==> custom[k] == kw[k]
      invariant forall k :: k in rest ==> rest[k] == kw[k]
    {
      var k := CUSTOM_KWARGS[i];
      if k in rest {
        custom := custom[k := rest[k]];
        rest := rest - {k};
      }
      assert CUSTOM_KWARGS[..i + 1] == CUSTOM_KWARGS[..i] + [k];
      i := i + 1;
    }
    assert CUSTOM_KWARGS[..i] == CUSTOM_KWARGS;
  }

  // ---------------------------------------------------------------------------
  // Widgets
  // ---------------------------------------------------------------------------

  /** What `configure` gives back. */
  datatype ConfigResult =
    | BootstyleValue(value: string)   // `configure('bootstyle')`
    | Queried(option: string)         // `configure(option)`: Tk's answer, not modelled
    | Configured                      // `configure(**kw)`

  /** Whether `configure(**kw)` restyles, as written: the test runs on the
      keywords left after `bootstyle` was popped. */
  function RestylesAsWritten(kw: map<string, Value>): bool
  {
    var rest := kw - {"bootstyle"};
    "style" in rest || "bootstyle" in rest
  }

  /** Whether `configure(**kw)` restyles, as evidently intended: a new
      `style` or a new `bootstyle`. */
  function RestylesFixed(kw: map<string, Value>): bool
  {
    "style" in kw || "bootstyle" in kw
  }

  /** As written, changing only `bootstyle` never restyles the widget. */
  lemma BootstyleAloneIgnored(kw: map<string, Value>)
    requires "style" !in kw
    ensures !RestylesAsWritten(kw)
    ensures "bootstyle" in kw ==> RestylesFixed(kw)
  {
  }

  /** The corrected test restyles exactly when `style` or `bootstyle` is
      given, and agrees with the written one whenever `style` is. */
  lemma RestylesFixedExactly(kw: map<string, Value>)
    ensures RestylesFixed(kw) <==> "style" in kw || "bootstyle" in kw
    ensures "style" in kw ==> RestylesFixed(kw) && RestylesAsWritten(kw)
    ensures RestylesFixed(kw) != RestylesAsWritten(kw) <==> "bootstyle" in kw && "style" !in kw
  {
  }

  /** What `super().configure(**kw)` sends to Tk: nothing for no options,
      one call with all of them otherwise. */
  function TkCalls(id: WidgetId, kw: map<string, Value>): (r: seq<NativeCall>)
    ensures kw == map[] <==> r == []
    ensures r != [] ==> r == [WidgetConfigure(id, kw)]
  {
    if kw == map[] then [] else [WidgetConfigure(id, kw)]
  }

  /** A ttk widget (`TTKWidget`): it keeps its keyword and its ttk `style`
      option, and restyles itself when the theme changes. */
  class TtkWidget {
    const id: WidgetId
    const native: NativeStyle
    const bus: Bus
    /** `_bootstyle` */
    var bootstyle: string
    /** `_is_ttk` */
    const isTtk: bool
    /** `_is_hybrid` */
    const isHybrid: bool
    /** `_hybrid_styles` */
    var hybridStyles: set<string>
    /** `winfo_class()` */
    const winfoClass: string
    /** `cget('orient')`, `None` when the widget has no such option */
    const orient: Option<string>
    /** the Tk `style` option; empty for the class's default style */
    var style: string

    /** `TTKWidget(**kw)`: `kw.get('bootstyle', '')`, `kw.get('is_ttk',
        True)`, `kw.get('is_hybrid', False)`, then a `theme-changed`
        subscription. */
    constructor (id: WidgetId, native: NativeStyle, bus: Bus, bootstyle: string, isTtk: bool, isHybrid: bool,
                 winfoClass: string, orient: Option<string>)
      modifies bus
      ensures this.id == id && this.native == native && this.bus == bus
      ensures this.bootstyle == bootstyle && this.isTtk == isTtk && this.isHybrid == isHybrid
      ensures hybridStyles == {} && this.winfoClass == winfoClass && this.orient == orient && style == ""
      ensures bus.subscribers == Subscribe(old(bus.subscribers), Styles.THEME_CHANGED, Callback.UpdateWidgetStyle(id))
      ensures bus.events == old(bus.events) && bus.deliveries == old(bus.deliveries)
    {
      this.id := id;
      this.native := native;
      this.bus := bus;
      this.bootstyle := bootstyle;
      this.isTtk := isTtk;
      this.isHybrid := isHybrid;
      hybridStyles := {};
      this.winfoClass := winfoClass;
      this.orient := orient;
      style := "";
      new;
      bus.Add(Styles.THEME_CHANGED, Callback.UpdateWidgetStyle(id));
    }

    /** `_handler_message()` of this widget. */
    function Message(): (r: StyleRequest)
      reads this
      ensures r.bootstyle == bootstyle && r.widget == id
    {
      HandlerMessage(bootstyle, isTtk, isHybrid, hybridStyles, orient, winfoClass, id)
    }

    /** `ttkstyle()`: the style in use, the class's own when none was set. */
    function TtkStyle(): (r: string)
      reads this
      ensures style != "" ==> r == style
      ensures style == "" ==> r == winfoClass
    {
      if style == "" then winfoClass else style
    }

    /** `super().configure(**kw)` */
    method TkConfigure(kw: map<string, Value>)
      requires native != bus as object
      modifies this, native
      ensures native.log == old(native.log) + TkCalls(id, kw)
      ensures style == if "style" in kw && kw["style"].Str? then kw["style"].s else old(style)
      ensures bootstyle == old(bootstyle) && hybridStyles == old(hybridStyles)
      ensures native.themes == old(native.themes) && native.current == old(native.current)
      ensures native.imageCount == old(native.imageCount)
    {
      if kw != map[] {
        native.Submit(WidgetConfigure(id, kw));
      }
      if "style" in kw && kw["style"].Str? {
        style := kw["style"].s;
      }
    }

    /** `update_widget_style()`: send the request to the router, then take
        the ttk style name it carries. */
    method UpdateWidgetStyle()
      requires native != bus as object
      modifies this, native, bus
      ensures bus.events == old(bus.events) + [(Styles.ROUTE_STYLE_HANDLER, Some(old(Message())))]
      ensures bus.subscribers == old(bus.subscribers)
      ensures native.log == old(native.log) + [WidgetConfigure(id, map["style" := Str(old(Message()).ttkstyle)])]
      ensures style == old(Message()).ttkstyle
      ensures bootstyle == old(bootstyle) && hybridStyles == old(hybridStyles)
      ensures native.themes == old(native.themes) && native.current == old(native.current)
      ensures native.imageCount == old(native.imageCount)
    {
      var message := Message();
      var calls := bus.Dispatch(Styles.ROUTE_STYLE_HANDLER, Some(message));
      TkConfigure(map["style" := Str(message.ttkstyle)]);
    }

    /** `configure(cnf, **kw)`, as written: `bootstyle` is popped before the
        restyle test looks for it. */
    method Configure(cnf: Option<string>, kw: map<string, Value>) returns (r: ConfigResult)
      requires native != bus as object
      requires "bootstyle" in kw ==> kw["bootstyle"].Str?
      modifies this, native, bus
      ensures cnf == Some("bootstyle") ==> r == BootstyleValue(old(bootstyle))
      ensures cnf.Some? && cnf.value != "bootstyle" ==> r == Queried(cnf.value)
      ensures cnf.Some? ==> bootstyle == old(bootstyle) && style == old(style) &&
                            native.log == old(native.log) && bus.events == old(bus.events)
      ensures cnf.None? ==> r == Configured
      ensures cnf.None? ==> bootstyle == if "bootstyle" in kw then kw["bootstyle"].s else old(bootstyle)
      ensures cnf.None? ==> bus.events == old(bus.events) + if RestylesAsWritten(kw) then [(Styles.ROUTE_STYLE_HANDLER, Some(Message()))] else []
      ensures cnf.None? ==> native.log == old(native.log) + TkCalls(id, kw - {"bootstyle"}) +
                            if RestylesAsWritten(kw) then [WidgetConfigure(id, map["style" := Str(Message().ttkstyle)])] else []
      ensures cnf.None? ==> style == if RestylesAsWritten(kw) then Message().ttkstyle else old(style)
      ensures hybridStyles == old(hybridStyles) && bus.subscribers == old(bus.subscribers)
      ensures native.themes == old(native.themes) && native.current == old(native.current)
      ensures native.imageCount == old(native.imageCount)
    {
      if cnf == Some("bootstyle") {
        return BootstyleValue(bootstyle);
      }
      if cnf.Some? {
        return Queried(cnf.value);
      }
      var rest := kw;
      if "bootstyle" in kw {
        bootstyle := kw["bootstyle"].s;
        rest := kw - {"bootstyle"};
      }
      assert rest == kw - {"bootstyle"};
      TkConfigure(rest);
      if "style" in rest || "bootstyle" in rest {
        UpdateWidgetStyle();
      }
      r := Configured;
    }

    /** `configure(cnf, **kw)` with the restyle test made on the keywords
        as given: a new `bootstyle` restyles too. */
    method ConfigureFixed(cnf: Option<string>, kw: map<string, Value>) returns (r: ConfigResult)
      requires native != bus as object
      requires "bootstyle" in kw ==> kw["bootstyle"].Str?
      modifies this, native, bus
      ensures cnf == Some("bootstyle") ==> r == BootstyleValue(old(bootstyle))
      ensures cnf.Some? && cnf.value != "bootstyle" ==> r == Queried(cnf.value)
      ensures cnf.Some? ==> bootstyle == old(bootstyle) && style == old(style) &&
                            native.log == old(native.log) && bus.events == old(bus.events)
      ensures cnf.None? ==> r == Configured
      ensures cnf.None? ==> bootstyle == if "bootstyle" in kw then kw["bootstyle"].s else old(bootstyle)
      ensures cnf.None? ==> bus.events == old(bus.events) + if RestylesFixed(kw) then [(Styles.ROUTE_STYLE_HANDLER, Some(Message()))] else []
      ensures cnf.None? ==> native.log == old(native.log) + TkCalls(id, kw - {"bootstyle"}) +
                            if RestylesFixed(kw) then [WidgetConfigure(id, map["style" := Str(Message().ttkstyle)])] else []
      ensures cnf.None? ==> style == if RestylesFixed(kw) then Message().ttkstyle else old(style)
      ensures hybridStyles == old(hybridStyles) && bus.subscribers == old(bus.subscribers)
      ensures native.themes == old(native.themes) && native.current == old(native.current)
      ensures native.imageCount == old(native.imageCount)
    {
      if cnf == Some("bootstyle") {
        return BootstyleValue(bootstyle);
      }
      if cnf.Some? {
        return Queried(cnf.value);
      }
      var restyle := RestylesFixed(kw);
      var rest := kw;
      if "bootstyle" in kw {
        bootstyle := kw["bootstyle"].s;
        rest := kw - {"bootstyle"};
      }
      assert rest == kw - {"bootstyle"};
      TkConfigure(rest);
      if restyle {
        UpdateWidgetStyle();
      }
      r := Configured;
    }
  }

  /** A Tk widget (`TKWidget`): no ttk style name; the builder styles the
      widget directly. */
  class TkWidget {
    const id: WidgetId
    const native: NativeStyle
    const bus: Bus
    /** `_bootstyle` */
    var bootstyle: string
    /** `_is_hybrid` */
    const isHybrid: bool
    /** `_hybrid_styles` */
    var hybridStyles: set<string>
    /** `winfo_class()` */
    const winfoClass: string
    /** `cget('orient')`, `None` when the widget has no such option */
    const orient: Option<string>

    /** `TKWidget(**kw)`: a styled widget with `is_ttk=False`, subscribed to
        `theme-changed`. */
    constructor (id: WidgetId, native: NativeStyle, bus: Bus, bootstyle: string, isHybrid: bool,
                 winfoClass: string, orient: Option<string>)
      modifies bus
      ensures this.id == id && this.native == native && this.bus == bus
      ensures this.bootstyle == bootstyle && this.isHybrid == isHybrid && hybridStyles == {}
      ensures this.winfoClass == winfoClass && this.orient == orient
      ensures bus.subscribers == Subscribe(old(bus.subscribers), Styles.THEME_CHANGED, Callback.UpdateWidgetStyle(id))
      ensures bus.events == old(bus.events) && bus.deliveries == old(bus.deliveries)
    {
      this.id := id;
      this.native := native;
      this.bus := bus;
      this.bootstyle := bootstyle;
      this.isHybrid := isHybrid;
      hybridStyles := {};
      this.winfoClass := winfoClass;
      this.orient := orient;
      new;
      bus.Add(Styles.THEME_CHANGED, Callback.UpdateWidgetStyle(id));
    }

    /** `_handler_message()` of this widget: no ttk style, a `tk-` handler. */
    function Message(): (r: StyleRequest)
      reads this
      ensures r.bootstyle == bootstyle && r.widget == id && r.ttkstyle == ""
    {
      HandlerMessage(bootstyle, false, isHybrid, hybridStyles, orient, winfoClass, id)
    }

    /** `update_widget_style()`: send the request to the router. */
    method UpdateWidgetStyle()
      modifies bus
      ensures bus.events == old(bus.events) + [(Styles.ROUTE_STYLE_HANDLER, Some(Message()))]
      ensures bus.subscribers == old(bus.subscribers)
    {
      var calls := bus.Dispatch(Styles.ROUTE_STYLE_HANDLER, Some(Message()));
    }

    /** `configure(cnf, **kw)`: a new `bootstyle` restyles before the other
        options go to Tk. */
    method Configure(cnf: Option<string>, kw: map<string, Value>) returns (r: ConfigResult)
      requires native != bus as object
      requires "bootstyle" in kw ==> kw["bootstyle"].Str?
      modifies this, native, bus
      ensures cnf == Some("bootstyle") ==> r == BootstyleValue(old(bootstyle))
      ensures cnf.Some? && cnf.value != "bootstyle" ==> r == Queried(cnf.value)
      ensures cnf.Some? ==> bootstyle == old(bootstyle) && native.log == old(native.log) && bus.events == old(bus.events)
      ensures cnf.None? ==> r == Configured
      ensures cnf.None? ==> bootstyle == if "bootstyle" in kw then kw["bootstyle"].s else old(bootstyle)
      ensures cnf.None? ==> bus.events == old(bus.events) + if "bootstyle" in kw then [(Styles.ROUTE_STYLE_HANDLER, Some(Message()))] else []
      ensures cnf.None? ==> native.log == old(native.log) + if kw - {"bootstyle"} != map[] then [WidgetConfigure(id, kw - {"bootstyle"})] else []
      ensures hybridStyles == old(hybridStyles) && bus.subscribers == old(bus.subscribers)
      ensures native.themes == old(native.themes) && native.current == old(native.current)
      ensures native.imageCount == old(native.imageCount)
    {
      if cnf == Some("bootstyle") {
        return BootstyleValue(bootstyle);
      }
      if cnf.Some? {
        return Queried(cnf.value);
      }
      var rest := kw;
      if "bootstyle" in kw {
        bootstyle := kw["bootstyle"].s;
        rest := kw - {"bootstyle"};
        UpdateWidgetStyle();
      }
      assert rest == kw - {"bootstyle"};
      if rest != map[] {
        native.Submit(WidgetConfigure(id, rest));
      }
      r := Configured;
    }
  }
}
