/** The style registry: the theme engines, the colour schemes, the themes
    made from a scheme and an engine, the theme in use, and the routing of
    a widget's style request to the builder of the engine in use. */
module Styles {
  import opened Base
  import opened Schemes
  import opened Native
  import opened Publishing
  import opened Messages
  import opened Engines
  import Chromatk
  import Bootstyle

  const DEFAULT_SCHEME_NAME := "flatly"
  const DEFAULT_ENGINE_NAME := "chromatk"
  const THEME_CHANGED := "theme-changed"
  const ROUTE_STYLE_HANDLER := "route-style-handler"

  /** `Theme(name, scheme, engine)`; the engine is `None` when the lookup
      that produced it found nothing. */
  datatype Theme = Theme(name: string, scheme: Scheme, engine: Option<ThemeEngine>)

  /** `table.get(key)` */
  function Get<V>(table: map<string, V>, key: string): (r: Option<V>)
    ensures r.Some? <==> key in table
    ensures r.Some? ==> r.value == table[key]
  {
    if key in table then Some(table[key]) else None
  }

  // ---------------------------------------------------------------------------
  // Theme names: `scheme-engine`, a bare scheme, or a bare engine
  // ---------------------------------------------------------------------------

  /** `_find_theme_scheme_engine`, as written: for a bare engine name the
      engine is looked up under the composed theme name. */
  function FindThemeSchemeEngine(themename: string, schemes: map<string, Scheme>, engines: map<string, ThemeEngine>): (r: Result<Theme>)
    requires DEFAULT_SCHEME_NAME in schemes
    ensures r.Err? ==> r.error.Exception?
  {
    var parts := Split(themename, '-');
    if |parts| == 2 then
      if parts[0] !in schemes then Err(Exception([parts[0], "is not a valid color scheme"]))
      else if parts[1] !in engines then Err(Exception([parts[1], "is not a valid theme engine"]))
      else Ok(Theme(parts[0] + "-" + parts[1], schemes[parts[0]], Some(engines[parts[1]])))
    else if themename in schemes then
      Ok(Theme(themename + "-" + DEFAULT_ENGINE_NAME, schemes[themename], Get(engines, DEFAULT_ENGINE_NAME)))
    else if themename in engines then
      var name := DEFAULT_SCHEME_NAME + "-" + themename;
      Ok(Theme(name, schemes[DEFAULT_SCHEME_NAME], Get(engines, name)))
    else Err(Exception([themename, "is not a valid scheme or engine"]))
  }

  /** The resolver with the bare-engine lookup made under the engine's own
      name. */
  function FindThemeFixed(themename: string, schemes: map<string, Scheme>, engines: map<string, ThemeEngine>): (r: Result<Theme>)
    requires DEFAULT_SCHEME_NAME in schemes
    ensures r.Err? ==> r.error.Exception?
  {
    var parts := Split(themename, '-');
    if |parts| == 2 then
      if parts[0] !in schemes then Err(Exception([parts[0], "is not a valid color scheme"]))
      else if parts[1] !in engines then Err(Exception([parts[1], "is not a valid theme engine"]))
      else Ok(Theme(parts[0] + "-" + parts[1], schemes[parts[0]], Some(engines[parts[1]])))
    else if themename in schemes then
      Ok(Theme(themename + "-" + DEFAULT_ENGINE_NAME, schemes[themename], Get(engines, DEFAULT_ENGINE_NAME)))
    else if themename in engines then
      Ok(Theme(DEFAULT_SCHEME_NAME + "-" + themename, schemes[DEFAULT_SCHEME_NAME], Some(engines[themename])))
    else Err(Exception([themename, "is not a valid scheme or engine"]))
  }

  lemma SplitPair(a: string, b: string)
    requires '-' !in a && '-' !in b
    ensures Split(a + "-" + b, '-') == [a, b]
  {
    SplitNoSep(b, '-');
    SplitPrefix(a, b, '-');
    assert a + "-" + b == a + (['-'] + b);
  }

  /** `scheme-engine` names the scheme and the engine. */
  lemma FindSchemeEngine(a: string, b: string, schemes: map<string, Scheme>, engines: map<string, ThemeEngine>)
    requires DEFAULT_SCHEME_NAME in schemes
    requires '-' !in a && '-' !in b
    ensures var r := FindThemeSchemeEngine(a + "-" + b, schemes, engines);
            (a !in schemes ==> r == Err(Exception([a, "is not a valid color scheme"]))) &&
            (a in schemes && b !in engines ==> r == Err(Exception([b, "is not a valid theme engine"]))) &&
            (a in schemes && b in engines ==> r == Ok(Theme(a + "-" + b, schemes[a], Some(engines[b]))))
  {
    SplitPair(a, b);
  }

  /** A bare scheme name is themed by the default engine. */
  lemma FindBareScheme(name: string, schemes: map<string, Scheme>, engines: map<string, ThemeEngine>)
    requires DEFAULT_SCHEME_NAME in schemes
    requires '-' !in name && name in schemes
    ensures FindThemeSchemeEngine(name, schemes, engines) ==
            Ok(Theme(name + "-" + DEFAULT_ENGINE_NAME, schemes[name], Get(engines, DEFAULT_ENGINE_NAME)))
  {
    SplitNoSep(name, '-');
  }

  /** A bare engine name gets the default scheme, but its engine is looked
      up under `flatly-{engine}`: when no engine name holds a dash, as with
      the built-in ones, the theme has no engine. */
  lemma FindBareEngineAsWritten(name: string, schemes: map<string, Scheme>, engines: map<string, ThemeEngine>)
    requires DEFAULT_SCHEME_NAME in schemes
    requires '-' !in name && name !in schemes && name in engines
    requires forall k :: k in engines ==> '-' !in k
    ensures var r := FindThemeSchemeEngine(name, schemes, engines);
            r.Ok? && r.value.name == DEFAULT_SCHEME_NAME + "-" + name &&
            r.value.scheme == schemes[DEFAULT_SCHEME_NAME] && r.value.engine.None?
  {
    SplitNoSep(name, '-');
    var composed := DEFAULT_SCHEME_NAME + "-" + name;
    assert composed[6] == '-';
  }

  /** With the lookup fixed, a bare engine name gets the default scheme and
      that engine. */
  lemma FindBareEngineFixed(name: string, schemes: map<string, Scheme>, engines: map<string, ThemeEngine>)
    requires DEFAULT_SCHEME_NAME in schemes
    requires '-' !in name && name !in schemes && name in engines
    ensures FindThemeFixed(name, schemes, engines) ==
            Ok(Theme(DEFAULT_SCHEME_NAME + "-" + name, schemes[DEFAULT_SCHEME_NAME], Some(engines[name])))
  {
    SplitNoSep(name, '-');
  }

  /** The fix changes nothing but the bare-engine case. */
  lemma FixedAgreesElsewhere(name: string, schemes: map<string, Scheme>, engines: map<string, ThemeEngine>)
    requires DEFAULT_SCHEME_NAME in schemes
    requires |Split(name, '-')| == 2 || name in schemes || name !in engines
    ensures FindThemeFixed(name, schemes, engines) == FindThemeSchemeEngine(name, schemes, engines)
  {
  }

  /** A name that is neither `a-b`, nor a scheme, nor an engine is refused. */
  lemma FindUnknown(name: string, schemes: map<string, Scheme>, engines: map<string, ThemeEngine>)
    requires DEFAULT_SCHEME_NAME in schemes
    requires |Split(name, '-')| != 2 && name !in schemes && name !in engines
    ensures FindThemeSchemeEngine(name, schemes, engines) == Err(Exception([name, "is not a valid scheme or engine"]))
  {
  }

  // ---------------------------------------------------------------------------
  // What `theme_use(name)` does
  // ---------------------------------------------------------------------------

  /** The branch `theme_use` takes: switch to a theme Tk already has (by
      its full name, or by the name the resolver gives), create a new one,
      or refuse the name. */
  datatype Plan = Existing(name: string) | NewTheme(theme: Theme) | Refused(error: Error)

  function PlanFor(themename: string, nativeThemes: set<string>, schemes: map<string, Scheme>, engines: map<string, ThemeEngine>): (p: Plan)
    requires DEFAULT_SCHEME_NAME in schemes
    ensures themename in nativeThemes ==> p == Existing(themename)
    ensures p.Existing? ==> p.name in nativeThemes
    ensures p.NewTheme? ==> p.theme.name !in nativeThemes
  {
    if themename in nativeThemes then Existing(themename)
    else
      match FindThemeSchemeEngine(themename, schemes, engines)
      case Err(e) => Refused(e)
      case Ok(t) => if t.name in nativeThemes then Existing(t.name) else NewTheme(t)
  }

  /** The theme `theme_use` ends up on, or why it fails: a theme Tk has but
      the registry never made is a `KeyError`; a new theme without an engine
      fails on its missing `base`; Tk refuses a parent it does not know. */
  function Outcome(plan: Plan, themes: map<string, Theme>, nativeThemes: set<string>): (r: Result<Theme>)
    ensures plan.Refused? ==> r == Err(plan.error)
    ensures plan.NewTheme? && r.Ok? ==> r.value == plan.theme && r.value.engine.Some?
  {
    match plan
    case Refused(e) => Err(e)
    case Existing(n) => if n in themes then Ok(themes[n]) else Err(KeyError(n))
    case NewTheme(t) =>
      if t.engine.None? then Err(AttributeError("base"))
      else if t.engine.value.base !in nativeThemes then Err(TclError("Theme " + t.engine.value.base + " doesn't exist"))
      else Ok(t)
  }

  /** Once a theme has been created, naming it by its scheme alone (for the
      default engine) switches to it again instead of creating it anew. */
  lemma ShortNameReuses(name: string, nativeThemes: set<string>, schemes: map<string, Scheme>, engines: map<string, ThemeEngine>)
    requires DEFAULT_SCHEME_NAME in schemes
    requires '-' !in name && name in schemes && name !in nativeThemes
    requires name + "-" + DEFAULT_ENGINE_NAME in nativeThemes
    ensures PlanFor(name, nativeThemes, schemes, engines) == Existing(name + "-" + DEFAULT_ENGINE_NAME)
  {
    FindBareScheme(name, schemes, engines);
  }

  /** As written, `theme_use` of a bare engine name that has not been
      created under its full name fails, after recording the engine-less
      theme. */
  lemma BareEngineUnusable(name: string, themes: map<string, Theme>, nativeThemes: set<string>,
                           schemes: map<string, Scheme>, engines: map<string, ThemeEngine>)
    requires DEFAULT_SCHEME_NAME in schemes
    requires '-' !in name && name !in schemes && name in engines && name !in nativeThemes
    requires forall k :: k in engines ==> '-' !in k
    requires DEFAULT_SCHEME_NAME + "-" + name !in nativeThemes
    ensures var plan := PlanFor(name, nativeThemes, schemes, engines);
            plan.NewTheme? && plan.theme.engine.None? &&
            Outcome(plan, themes, nativeThemes) == Err(AttributeError("base"))
  {
    FindBareEngineAsWritten(name, schemes, engines);
  }

  /** With the fixed resolver, the same request creates the theme on the
      engine's base. */
  lemma BareEngineFixedUsable(name: string, themes: map<string, Theme>, nativeThemes: set<string>,
                              schemes: map<string, Scheme>, engines: map<string, ThemeEngine>)
    requires DEFAULT_SCHEME_NAME in schemes
    requires '-' !in name && name !in schemes && name in engines && name !in nativeThemes
    requires DEFAULT_SCHEME_NAME + "-" + name !in nativeThemes
    requires engines[name].base in nativeThemes
    ensures var t := Theme(DEFAULT_SCHEME_NAME + "-" + name, schemes[DEFAULT_SCHEME_NAME], Some(engines[name]));
            FindThemeFixed(name, schemes, engines) == Ok(t) &&
            Outcome(NewTheme(t), themes, nativeThemes) == Ok(t)
  {
    FindBareEngineFixed(name, schemes, engines);
  }

  // ---------------------------------------------------------------------------
  // The registry
  // ---------------------------------------------------------------------------

  /** Whether routing dispatches to the builder: always for a Tk widget
      (no ttk style), and for a ttk widget only while its style has not been
      built for the scheme. */
  predicate RouteDispatches(ttkstyle: string, engine: ThemeEngine, scheme: Scheme)
    reads engine
  {
    ttkstyle == "" || !engine.StyleExists(ttkstyle, scheme)
  }

  class Style {
    /** the Tk interpreter's style state */
    const native: NativeStyle
    /** the process-wide bus */
    const bus: Bus
    /** engine name -> engine, filled once when the registry is made */
    const engines: map<string, ThemeEngine>
    /** theme name -> the theme recorded for it */
    var themes: map<string, Theme>
    /** the theme in use, once one has been chosen */
    var current: Option<Theme>
    /** scheme name -> scheme */
    var schemes: map<string, Scheme>
    /** the scheme names in dictionary order */
    var schemeOrder: seq<string>

    /** The registry's invariant: the default scheme is always there, the
        scheme order lists each scheme once, every recorded theme is filed
        under its own name and has an engine once Tk knows it, and the
        current theme is the one Tk is using. */
    ghost predicate Valid()
      reads this, native
    {
      native.Valid() &&
      DEFAULT_SCHEME_NAME in schemes &&
      (forall k :: k in schemes <==> k in schemeOrder) &&
      (forall i, j :: 0 <= i < j < |schemeOrder| ==> schemeOrder[i] != schemeOrder[j]) &&
      (forall n :: n in themes ==> themes[n].name == n) &&
      (forall n :: n in themes && n in native.themes ==> themes[n].engine.Some?) &&
      (current.Some? ==> current.value.engine.Some? && current.value.name == native.current)
    }

    /** `Style(master)`: adds the two built-in engines (each registers its
        builders on the bus), copies the built-in schemes, and subscribes
        the router. */
    constructor (native: NativeStyle, bus: Bus)
      requires native.Valid()
      modifies bus
      ensures Valid()
      ensures this.native == native && this.bus == bus
      ensures engines.Keys == set k | k in THEME_ENGINES :: EngineName(k)
      ensures forall n :: n in engines ==> fresh(engines[n])
      ensures forall k :: k in THEME_ENGINES ==> EngineName(k) in engines && engines[EngineName(k)].name == EngineName(k)
      ensures forall k :: k in THEME_ENGINES ==> engines[EngineName(k)].handlers == HandlersAfter(map[], EngineName(k), EngineKeywords(k))
      ensures themes == map[] && current == None
      ensures schemeOrder == ["cosmo", "flatly", "minty", "superhero"]
      ensures ROUTE_STYLE_HANDLER in bus.subscribers && Callback.RouteStyleHandler in bus.subscribers[ROUTE_STYLE_HANDLER]
      ensures bus.events == old(bus.events) && bus.deliveries == old(bus.deliveries)
      ensures native.themes == old(native.themes) && native.current == old(native.current) && native.log == old(native.log)
    {
      this.native := native;
      this.bus := bus;
      var added := ThemeEngineAdd(bus, THEME_ENGINES);
      engines := added;
      var std, order := NewStdSchemes();
      StdOrder(std, order);
      schemes := std;
      schemeOrder := order;
      themes := map[];
      current := None;
      new;
      bus.Add(ROUTE_STYLE_HANDLER, Callback.RouteStyleHandler);
    }

    /** `theme_names()` */
    function ThemeNames(): (r: set<string>)
      reads this, native
      ensures r == native.themes
    {
      native.ThemeNames()
    }

    /** `theme_current()` */
    function ThemeCurrent(): (r: Option<Theme>)
      reads this
      ensures r == current
    {
      current
    }

    /** `scheme_get(name)` */
    function SchemeGet(name: string): (r: Option<Scheme>)
      reads this
      ensures r.Some? <==> name in schemes
      ensures r.Some? ==> r.value == schemes[name]
    {
      Get(schemes, name)
    }

    /** `scheme_names()`: every scheme once, in the order first created. */
    function SchemeNames(): (r: seq<string>)
      reads this, native
      requires Valid()
      ensures forall k :: k in r <==> k in schemes
      ensures forall i, j :: 0 <= i < j < |r| ==> r[i] != r[j]
    {
      schemeOrder
    }

    /** `scheme_create(name, mode, **colors)`: a new scheme object under the
        name, replacing any scheme of that name. */
    method SchemeCreate(name: string, mode: string, colors: map<string, string>)
      requires Valid()
      modifies this
      ensures Valid()
      ensures schemes.Keys == old(schemes).Keys + {name}
      ensures fresh(schemes[name]) && schemes[name].MadeFrom(name, mode, colors)
      ensures forall k :: k in old(schemes) && k != name ==> schemes[k] == old(schemes)[k]
      ensures schemeOrder == if name in old(schemes) then old(schemeOrder) else old(schemeOrder) + [name]
      ensures themes == old(themes) && current == old(current)
    {
      var scheme := new Scheme(name, mode, colors);
      if name !in schemes {
        schemeOrder := schemeOrder + [name];
      }
      schemes := schemes[name := scheme];
    }

    /** `theme_create(theme, parent)`: the theme is recorded first; the
        parent defaults (for an empty one) to the engine's base, which an
        engine-less theme does not have. */
    method ThemeCreate(theme: Theme, parent: string) returns (r: Result<()>)
      requires Valid()
      requires theme.engine.Some? || (parent == "" && theme.name !in native.themes)
      modifies this, native
      ensures Valid()
      ensures themes == old(themes)[theme.name := theme]
      ensures parent == "" && theme.engine.None? ==>
                r == Err(AttributeError("base")) && native.themes == old(native.themes) && native.log == old(native.log)
      ensures parent != "" || theme.engine.Some? ==>
                var p := if parent != "" then parent else theme.engine.value.base;
                (r.Ok? <==> theme.name !in old(native.themes) && p in old(native.themes)) &&
                (theme.name !in old(native.themes) && p !in old(native.themes) ==>
                   r == Err(TclError("Theme " + p + " doesn't exist"))) &&
                (r.Ok? ==> native.themes == old(native.themes) + {theme.name} &&
                           native.log == old(native.log) + [NativeCall.ThemeCreate(theme.name, p)]) &&
                (r.Err? ==> native.themes == old(native.themes) && native.log == old(native.log))
      ensures current == old(current) && native.current == old(native.current)
      ensures schemes == old(schemes) && schemeOrder == old(schemeOrder)
    {
      themes := themes[theme.name := theme];
      if parent == "" && theme.engine.None? {
        return Err(AttributeError("base"));
      }
      var p := if parent != "" then parent else theme.engine.value.base;
      r := native.CreateTheme(theme.name, p);
    }

    /** Make the theme current in the registry and in Tk, and tell every
        subscriber of `theme-changed`, once. */
    method Switch(theme: Theme)
      requires Valid()
      requires theme.name in native.themes && theme.engine.Some?
      modifies this, native, bus
      ensures Valid()
      ensures current == Some(theme) && native.current == theme.name
      ensures native.log == old(native.log) + [NativeCall.ThemeUse(theme.name)]
      ensures native.themes == old(native.themes)
      ensures bus.subscribers == old(bus.subscribers)
      ensures bus.events == old(bus.events) + [(THEME_CHANGED, None)]
      ensures |bus.deliveries| >= |old(bus.deliveries)|
      ensures bus.deliveries[..|old(bus.deliveries)|] == old(bus.deliveries)
      ensures DeliversOnce(bus.deliveries[|old(bus.deliveries)|..], old(bus.Get(THEME_CHANGED)), None)
      ensures themes == old(themes) && schemes == old(schemes) && schemeOrder == old(schemeOrder)
    {
      current := Some(theme);
      var _ := native.UseTheme(theme.name);
      var calls := bus.Dispatch(THEME_CHANGED, None);
      assert bus.deliveries[|old(bus.deliveries)|..] == calls;
    }

    /** `theme_use(themename)`.  Without a name it only reports the theme Tk
        is using.  With one it follows `PlanFor` and `Outcome`: on success
        the theme is current in the registry and in Tk and `theme-changed` is
        dispatched exactly once; a new theme is recorded and created (on its
        engine's base) first; on failure nothing is dispatched and the theme
        in use stays. */
    method ThemeUse(themename: Option<string>) returns (r: Result<Option<string>>)
      requires Valid()
      modifies this, native, bus
      ensures Valid()
      ensures themename.None? ==>
                r == Ok(Some(old(native.current))) && themes == old(themes) && current == old(current) &&
                native.themes == old(native.themes) && native.log == old(native.log) && bus.events == old(bus.events)
      ensures themename.Some? ==>
                var plan := PlanFor(themename.value, old(native.themes), old(schemes), engines);
                var outcome := Outcome(plan, old(themes), old(native.themes));
                (outcome.Err? ==> r == Err(outcome.error) && current == old(current) &&
                                  native.current == old(native.current) && native.themes == old(native.themes) &&
                                  native.log == old(native.log) && bus.events == old(bus.events)) &&
                (outcome.Ok? ==> r == Ok(None) && current == Some(outcome.value) &&
                                 native.current == outcome.value.name &&
                                 bus.events == old(bus.events) + [(THEME_CHANGED, None)] &&
                                 native.themes == old(native.themes) + {outcome.value.name} &&
                                 native.log == old(native.log) +
                                   (if plan.NewTheme? then [NativeCall.ThemeCreate(outcome.value.name, outcome.value.engine.value.base)] else []) +
                                   [NativeCall.ThemeUse(outcome.value.name)]) &&
                themes == (if plan.NewTheme? then old(themes)[plan.theme.name := plan.theme] else old(themes))
      ensures bus.subscribers == old(bus.subscribers)
      ensures |bus.deliveries| >= |old(bus.deliveries)|
      ensures bus.deliveries[..|old(bus.deliveries)|] == old(bus.deliveries)
      ensures r.Err? || themename.None? ==> bus.deliveries == old(bus.deliveries)
      ensures r.Ok? && themename.Some? ==>
                DeliversOnce(bus.deliveries[|old(bus.deliveries)|..], old(bus.Get(THEME_CHANGED)), None)
      ensures schemes == old(schemes) && schemeOrder == old(schemeOrder)
    {
      if themename.None? {
        return Ok(Some(native.CurrentTheme()));
      }
      var name := themename.value;
      if name in native.ThemeNames() {
        if name !in themes {
          return Err(KeyError(name));
        }
        Switch(themes[name]);
        return Ok(None);
      }
      var found := FindThemeSchemeEngine(name, schemes, engines);
      if found.Err? {
        return Err(found.error);
      }
      var theme := found.value;
      if theme.name in native.ThemeNames() {
        if theme.name !in themes {
          return Err(KeyError(theme.name));
        }
        Switch(themes[theme.name]);
        return Ok(None);
      }
      var created := ThemeCreate(theme, "");
      if created.Err? {
        return Err(created.error);
      }
      Switch(theme);
      r := Ok(None);
    }

    /** `_route_style_handler(kw)`: attaches the current scheme to the
        request, dispatches it to `{engine}-{style}` for every hybrid
        style, in no particular order, and then to `{engine}-{handler}` when
        `RouteDispatches` says so. */
    method RouteStyleHandler(kw: StyleRequest) returns (r: Result<()>)
      requires Valid()
      modifies bus
      ensures current.None? ==> r == Err(AttributeError("engine")) && bus.events == old(bus.events)
      ensures current.Some? ==>
                var theme := current.value;
                var engine := theme.engine.value;
                var msg := kw.(scheme := Some(theme.scheme));
                var fan := if kw.hybrid then |kw.hybridStyles| else 0;
                var n := |old(bus.events)|;
                r == Ok(()) &&
                |bus.events| == n + fan + (if RouteDispatches(kw.ttkstyle, engine, theme.scheme) then 1 else 0) &&
                bus.events[..n] == old(bus.events) &&
                (set i | n <= i < n + fan :: bus.events[i]) ==
                  (set s | s in kw.hybridStyles && kw.hybrid :: (engine.name + "-" + s, Some(msg))) &&
                (RouteDispatches(kw.ttkstyle, engine, theme.scheme) ==>
                   bus.events[|bus.events| - 1] == (engine.name + "-" + kw.handler, Some(msg)))
      ensures bus.subscribers == old(bus.subscribers)
      ensures current.None? ==> bus.deliveries == old(bus.deliveries)
      ensures |old(bus.deliveries)| <= |bus.deliveries| && bus.deliveries[..|old(bus.deliveries)|] == old(bus.deliveries)
      ensures current.Some? ==> forall i :: |old(bus.deliveries)| <= i < |bus.deliveries| ==>
                bus.deliveries[i].args == [kw.(scheme := Some(current.value.scheme))]
    {
      if current.None? {
        return Err(AttributeError("engine"));
      }
      var theme := current.value;
      var engine := theme.engine.value;
      var event := engine.name + "-" + kw.handler;
      var msg := kw.(scheme := Some(theme.scheme));
      var n := |bus.events|;
      if msg.hybrid {
        DispatchHybrid(bus, engine.name, msg.hybridStyles, msg);
      }
      ghost var fan := if kw.hybrid then |kw.hybridStyles| else 0;
      ghost var mid := bus.events;
      assert (set i | n <= i < n + fan :: mid[i]) == (set s | s in kw.hybridStyles && kw.hybrid :: (engine.name + "-" + s, Some(msg)));
      if msg.ttkstyle == "" || !engine.StyleExists(msg.ttkstyle, theme.scheme) {
        var calls := bus.Dispatch(event, Some(msg));
        assert bus.events == mid + [(event, Some(msg))];
        assert forall i :: n <= i < n + fan ==> bus.events[i] == mid[i];
      }
      r := Ok(());
    }
  }

  // ---------------------------------------------------------------------------
  // The built-in engines
  // ---------------------------------------------------------------------------

  /** Dispatches `msg` to `{engine}-{style}` once for every style, in no
      particular order. */
  method DispatchHybrid(bus: Bus, engine: string, styles: set<string>, msg: StyleRequest)
    modifies bus
    ensures bus.subscribers == old(bus.subscribers)
    ensures |bus.events| == |old(bus.events)| + |styles| && bus.events[..|old(bus.events)|] == old(bus.events)
    ensures (set i | |old(bus.events)| <= i < |bus.events| :: bus.events[i]) ==
            (set s | s in styles :: (engine + "-" + s, Some(msg)))
    ensures |old(bus.deliveries)| <= |bus.deliveries| && bus.deliveries[..|old(bus.deliveries)|] == old(bus.deliveries)
    ensures forall i :: |old(bus.deliveries)| <= i < |bus.deliveries| ==> bus.deliveries[i].args == [msg]
  {
    var n := |bus.events|;
    var rest := styles;
    ghost var sent: seq<string> := [];
    while rest != {}
      invariant rest <= styles
      invariant |sent| == |styles| - |rest|
      invariant forall s :: s in sent <==> s in styles && s !in rest
      invariant |bus.events| == n + |sent|
      invariant bus.events[..n] == old(bus.events)
      invariant forall i :: 0 <= i < |sent| ==> bus.events[n + i] == (engine + "-" + sent[i], Some(msg))
      invariant bus.subscribers == old(bus.subscribers)
      invariant |old(bus.deliveries)| <= |bus.deliveries| && bus.deliveries[..|old(bus.deliveries)|] == old(bus.deliveries)
      invariant forall i :: |old(bus.deliveries)| <= i < |bus.deliveries| ==> bus.deliveries[i].args == [msg]
      decreases rest
    {
      var style :| style in rest;
      var calls := bus.Dispatch(engine + "-" + style, Some(msg));
      sent := sent + [style];
      rest := rest - {style};
    }
    HybridEvents(bus.events, n, sent, styles, engine, msg);
  }

  /** The engine classes `theme_engine_add` can be given. */
  datatype EngineKind = ChromatkEngine | BootstyleEngine

  /** `THEME_ENGINES` */
  const THEME_ENGINES: seq<EngineKind> := [ChromatkEngine, BootstyleEngine]

  /** The name an engine of this class files itself under. */
  function EngineName(kind: EngineKind): string
  {
    match kind
    case ChromatkEngine => Chromatk.ENGINE_NAME
    case BootstyleEngine => Bootstyle.ENGINE_NAME
  }

  /** The keyword table an engine of this class registers. */
  function EngineKeywords(kind: EngineKind): seq<(string, BuilderFn)>
  {
    match kind
    case ChromatkEngine => Chromatk.KEYWORDS
    case BootstyleEngine => Bootstyle.KEYWORDS
  }

  /** Two engine classes never share a name, so filing one never replaces
      the other. */
  lemma EngineNamesDiffer()
    ensures forall a, b :: EngineName(a) == EngineName(b) ==> a == b
  {
    assert |EngineName(ChromatkEngine)| != |EngineName(BootstyleEngine)|;
  }

  /** `e(style)`: a fresh engine of the class, its builders registered. */
  method NewEngine(kind: EngineKind, bus: Bus) returns (engine: ThemeEngine)
    modifies bus
    ensures fresh(engine) && engine.name == EngineName(kind)
    ensures engine.handlers == HandlersAfter(map[], EngineName(kind), EngineKeywords(kind))
    ensures bus.events == old(bus.events) && bus.deliveries == old(bus.deliveries)
  {
    match kind
    case ChromatkEngine => engine := Chromatk.NewChromatk(bus);
    case BootstyleEngine => engine := Bootstyle.NewBootstyle(bus);
  }

  /** `theme_engine_add(*kinds)` on an empty engine table: each engine is
      made in turn and filed under its name. */
  method ThemeEngineAdd(bus: Bus, kinds: seq<EngineKind>) returns (engines: map<string, ThemeEngine>)
    modifies bus
    ensures engines.Keys == set k | k in kinds :: EngineName(k)
    ensures forall n :: n in engines ==> fresh(engines[n])
    ensures forall k :: k in kinds ==> EngineName(k) in engines && engines[EngineName(k)].name == EngineName(k)
    ensures forall k :: k in kinds ==> engines[EngineName(k)].handlers == HandlersAfter(map[], EngineName(k), EngineKeywords(k))
    ensures bus.events == old(bus.events) && bus.deliveries == old(bus.deliveries)
  {
    EngineNamesDiffer();
    engines := map[];
    var i := 0;
    while i < |kinds|
      invariant 0 <= i <= |kinds|
      invariant engines.Keys == set j | 0 <= j < i :: EngineName(kinds[j])
      invariant forall n :: n in engines ==> fresh(engines[n])
      invariant forall k :: EngineName(k) in engines ==>
                  (engines[EngineName(k)].name == EngineName(k) &&
                   engines[EngineName(k)].handlers == HandlersAfter(map[], EngineName(k), EngineKeywords(k)))
      invariant bus.events == old(bus.events) && bus.deliveries == old(bus.deliveries)
    {
      var engine := NewEngine(kinds[i], bus);
      engines := engines[engine.name := engine];
      i := i + 1;
    }
    forall k | k in kinds
      ensures EngineName(k) in engines && engines[EngineName(k)].name == EngineName(k)
      ensures engines[EngineName(k)].handlers == HandlersAfter(map[], EngineName(k), EngineKeywords(k))
    {
      var j :| 0 <= j < |kinds| && kinds[j] == k;
      assert EngineName(kinds[j]) in engines.Keys;
    }
    assert engines.Keys == set k | k in kinds :: EngineName(k) by {
      forall n | n in engines.Keys
        ensures n in set k | k in kinds :: EngineName(k)
      {
        var j :| 0 <= j < |kinds| && EngineName(kinds[j]) == n;
        assert kinds[j] in kinds;
      }
    }
  }

  /** The built-in scheme names are distinct and include the default. */
  lemma StdOrder(std: map<string, Scheme>, order: seq<string>)
    requires order == ["cosmo", "flatly", "minty", "superhero"]
    requires std.Keys == set k | k in order
    ensures DEFAULT_SCHEME_NAME in std
    ensures forall k :: k in std <==> k in order
    ensures forall i, j :: 0 <= i < j < |order| ==> order[i] != order[j]
  {
    assert order[1] == DEFAULT_SCHEME_NAME;
    assert order[0][0] != order[2][0];
    assert |order[0]| != |order[1]| && |order[0]| != |order[3]|;
    assert |order[1]| != |order[2]| && |order[1]| != |order[3]| && |order[2]| != |order[3]|;
  }

  /** The events the hybrid fan-out leaves behind are exactly one per
      hybrid style. */
  lemma HybridEvents(events: seq<(string, Option<StyleRequest>)>, n: nat, sent: seq<string>, styles: set<string>,
                     engine: string, msg: StyleRequest)
    requires |events| == n + |sent|
    requires forall s :: s in sent <==> s in styles
    requires forall i :: 0 <= i < |sent| ==> events[n + i] == (engine + "-" + sent[i], Some(msg))
    ensures (set i | n <= i < n + |sent| :: events[i]) == (set s | s in styles :: (engine + "-" + s, Some(msg)))
  {
    var lhs := set i | n <= i < n + |sent| :: events[i];
    var rhs := set s | s in styles :: (engine + "-" + s, Some(msg));
    forall e | e in lhs
      ensures e in rhs
    {
      var i :| n <= i < n + |sent| && events[i] == e;
      assert events[n + (i - n)] == (engine + "-" + sent[i - n], Some(msg));
    }
    forall e | e in rhs
      ensures e in lhs
    {
      var s :| s in styles && e == (engine + "-" + s, Some(msg));
      var k :| 0 <= k < |sent| && sent[k] == s;
      assert events[n + k] == e;
    }
  }
}
