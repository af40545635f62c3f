/** The `bootstyle` theme engine: three builders that style the stock
    `clam` elements by configuration and state maps alone, without images. */
module Bootstyle {
  import opened Base
  import opened Schemes
  import opened Native
  import opened Publishing
  import opened Messages
  import opened Engines
  import opened Palettes
  import Chromatk

  const ENGINE_NAME := "bootstyle"
  const ENGINE_BASE := "clam"

  /** The keywords the engine answers, with their builders, in the order
      they are registered. */
  const KEYWORDS: seq<(string, BuilderFn)> := [
    ("button", BuilderFn.CreateButtonStyle),
    ("outline-button", BuilderFn.CreateOutlineButtonStyle),
    ("tk-tk", BuilderFn.StyleAppWindow)
  ]

  /** `BootstyleEngine(style)`: a fresh engine over the `clam` theme with
      its three builders registered. */
  method NewBootstyle(bus: Bus) returns (engine: ThemeEngine)
    modifies bus
    ensures fresh(engine) && engine.Valid()
    ensures engine.name == ENGINE_NAME && engine.base == ENGINE_BASE
    ensures engine.handlers == HandlersAfter(map[], ENGINE_NAME, KEYWORDS)
    ensures engine.handlerOrder == ["button", "outline-button", "tk-tk"]
    ensures engine.styles == map[] && engine.assets == map[]
    ensures bus.subscribers == SubscribeAll(old(bus.subscribers), ENGINE_NAME, KEYWORDS)
    ensures bus.events == old(bus.events) && bus.deliveries == old(bus.deliveries)
  {
    engine := new ThemeEngine(ENGINE_NAME, ENGINE_BASE);
    RegisterKeywords(engine, bus, KEYWORDS);
  }

  /** Each keyword is answered by its own builder of this engine, and the
      builder is subscribed on the bus under `bootstyle-{keyword}`. */
  lemma BootstyleHandlers(table: map<string, set<Callback>>)
    ensures HandlersAfter(map[], ENGINE_NAME, KEYWORDS) ==
            map["button" := Builder(ENGINE_NAME, BuilderFn.CreateButtonStyle),
                "outline-button" := Builder(ENGINE_NAME, BuilderFn.CreateOutlineButtonStyle),
                "tk-tk" := Builder(ENGINE_NAME, BuilderFn.StyleAppWindow)]
    ensures var t := SubscribeAll(table, ENGINE_NAME, KEYWORDS);
            "bootstyle-button" in t && Builder(ENGINE_NAME, BuilderFn.CreateButtonStyle) in t["bootstyle-button"] &&
            "bootstyle-outline-button" in t && Builder(ENGINE_NAME, BuilderFn.CreateOutlineButtonStyle) in t["bootstyle-outline-button"] &&
            "bootstyle-tk-tk" in t && Builder(ENGINE_NAME, BuilderFn.StyleAppWindow) in t["bootstyle-tk-tk"]
  {
    var b := Builder(ENGINE_NAME, BuilderFn.CreateButtonStyle);
    var o := Builder(ENGINE_NAME, BuilderFn.CreateOutlineButtonStyle);
    var w := Builder(ENGINE_NAME, BuilderFn.StyleAppWindow);
    assert ENGINE_NAME + "-" + "button" == "bootstyle-button";
    assert ENGINE_NAME + "-" + "outline-button" == "bootstyle-outline-button";
    assert ENGINE_NAME + "-" + "tk-tk" == "bootstyle-tk-tk";
    var t1 := Subscribe(table, "bootstyle-button", b);
    var t2 := Subscribe(t1, "bootstyle-outline-button", o);
    var t3 := Subscribe(t2, "bootstyle-tk-tk", w);
    assert KEYWORDS[1..] == [KEYWORDS[1], KEYWORDS[2]];
    assert KEYWORDS[1..][1..] == [KEYWORDS[2]];
    assert KEYWORDS[1..][1..][1..] == [];
    assert SubscribeAll(table, ENGINE_NAME, KEYWORDS) == SubscribeAll(t1, ENGINE_NAME, KEYWORDS[1..]);
    assert SubscribeAll(t1, ENGINE_NAME, KEYWORDS[1..]) == SubscribeAll(t2, ENGINE_NAME, KEYWORDS[1..][1..]);
    assert SubscribeAll(t2, ENGINE_NAME, KEYWORDS[1..][1..]) == t3;
    SubscribeFrame(table, "bootstyle-button", b);
    SubscribeFrame(t1, "bootstyle-outline-button", o);
    SubscribeFrame(t2, "bootstyle-tk-tk", w);
    assert HandlersAfter(map[], ENGINE_NAME, KEYWORDS) == HandlersAfter(map["button" := b], ENGINE_NAME, KEYWORDS[1..]);
    assert HandlersAfter(map["button" := b], ENGINE_NAME, KEYWORDS[1..]) ==
           HandlersAfter(map["button" := b, "outline-button" := o], ENGINE_NAME, KEYWORDS[1..][1..]);
  }

  // ---------------------------------------------------------------------------
  // The application window
  // ---------------------------------------------------------------------------

  /** The calls that style the main window and set the theme-wide defaults. */
  function AppWindowCalls(scheme: Scheme, widget: WidgetId): seq<NativeCall>
  {
    [WidgetConfigure(widget, map["background" := Str(GetColor(scheme, "background").value)]),
     Configure(".", map["font" := Str("TkBody"), "background" := Str(scheme.background),
                        "darkcolor" := Str(scheme.background), "foreground" := Str(scheme.foreground),
                        "troughcolor" := Str(scheme.background), "selectbg" := Str(scheme.info),
                        "selectfg" := Str(scheme.background), "fieldbg" := Str(scheme.background),
                        "borderwidth" := Int(1)])]
  }

  /** `style_app_window`. */
  method StyleAppWindow(native: NativeStyle, options: StyleRequest) returns (r: Result<()>)
    modifies native
    ensures options.scheme.None? ==> r == Err(KeyError("scheme")) && native.log == old(native.log)
    ensures options.scheme.Some? ==> r == Ok(()) && native.log == old(native.log) + AppWindowCalls(options.scheme.value, options.widget)
    ensures native.themes == old(native.themes) && native.current == old(native.current)
    ensures native.imageCount == old(native.imageCount)
  {
    if options.scheme.None? {
      return Err(KeyError("scheme"));
    }
    var scheme := options.scheme.value;
    assert "background" in COLOR_KEYS;
    var background := GetColor(scheme, "background").value;
    native.Submit(WidgetConfigure(options.widget, map["background" := Str(background)]));
    native.Submit(Configure(".", map["font" := Str("TkBody"), "background" := Str(scheme.background),
                                     "darkcolor" := Str(scheme.background), "foreground" := Str(scheme.foreground),
                                     "troughcolor" := Str(scheme.background), "selectbg" := Str(scheme.info),
                                     "selectfg" := Str(scheme.background), "fieldbg" := Str(scheme.background),
                                     "borderwidth" := Int(1)]));
    r := Ok(());
  }

  /** Both engines style the main window alike: the window takes the
      scheme's background, and the theme-wide defaults are the same. */
  lemma SameWindowAsChromatk(scheme: Scheme, widget: WidgetId)
    ensures AppWindowCalls(scheme, widget) == Chromatk.WindowCalls(scheme, widget)
  {
    assert "background" in COLOR_KEYS;
  }

  // ---------------------------------------------------------------------------
  // Push buttons
  // ---------------------------------------------------------------------------

  /** The state map of the face colours: pressed before hover, both only
      while enabled. */
  function FaceSpec(pressed: string, hover: string): seq<(string, Value)>
  {
    [("pressed !disabled", Str(pressed)), ("hover !disabled", Str(hover))]
  }

  /** The normal look of a button: the colour's foreground on its base
      shade, border and bevel in the base shade. */
  function ButtonOptions(foreground: string, background: string): (m: map<string, Value>)
    ensures "foreground" in m && m["foreground"] == Str(foreground)
    ensures "background" in m && m["background"] == Str(background)
    ensures "darkcolor" in m && m["darkcolor"] == Str(background)
    ensures "lightcolor" in m && m["lightcolor"] == Str(background)
  {
    map["font" := Str("TkBody"), "foreground" := Str(foreground), "background" := Str(background),
        "bordercolor" := Str(background), "darkcolor" := Str(background),
        "lightcolor" := Str(background), "relief" := Str(RAISED), "focusthickness" := Int(0),
        "focuscolor" := Str(foreground), "padding" := Str("8 4"), "anchor" := Str(CENTER)]
  }

  function ButtonCalls(ttkstyle: string, scheme: Scheme, color: string, sh: Shades): seq<NativeCall>
  {
    var face := FaceSpec(Pressed(scheme.mode, sh), Hover(scheme.mode, sh));
    [Configure(ttkstyle, ButtonOptions(GetForeground(scheme, color), sh.base)),
     StateMap(ttkstyle, "foreground", [("disabled", Str(sh.l2))]),
     StateMap(ttkstyle, "background", face),
     StateMap(ttkstyle, "darkcolor", face),
     StateMap(ttkstyle, "lightcolor", face)]
  }

  /** `create_button_style`: the colour defaults to `primary`; the style is
      registered before the shades are looked up. */
  method CreateButtonStyle(engine: ThemeEngine, native: NativeStyle, options: StyleRequest, parse: ColorParser) returns (r: Result<()>)
    modifies engine, native
    ensures options.scheme.None? ==> r == Err(KeyError("scheme")) && engine.styles == old(engine.styles) &&
                                     native.log == old(native.log)
    ensures options.scheme.Some? ==>
              var scheme := options.scheme.value;
              var color := ColorOrDefault(options.color, PRIMARY);
              var shades := ShadesOf(scheme, color, parse);
              engine.styles == AddTo(old(engine.styles), scheme, {options.ttkstyle}) &&
              (shades.Err? ==> r == Err(shades.error) && native.log == old(native.log)) &&
              (shades.Ok? ==> r == Ok(()) && native.log == old(native.log) + ButtonCalls(options.ttkstyle, scheme, color, shades.value))
    ensures engine.assets == old(engine.assets) && engine.handlers == old(engine.handlers) && engine.handlerOrder == old(engine.handlerOrder)
    ensures native.themes == old(native.themes) && native.current == old(native.current)
    ensures native.imageCount == old(native.imageCount)
  {
    if options.scheme.None? {
      return Err(KeyError("scheme"));
    }
    var scheme := options.scheme.value;
    var ttkstyle := options.ttkstyle;
    var color := ColorOrDefault(options.color, PRIMARY);
    engine.StyleRegister(ttkstyle, scheme);
    var shades := GetShades(scheme, color, parse);
    if shades.Err? {
      return Err(shades.error);
    }
    ButtonMaps(native, ttkstyle, scheme, color, shades.value);
    r := Ok(());
  }

  /** The part of `create_button_style` after the shades are known. */
  method ButtonMaps(native: NativeStyle, ttkstyle: string, scheme: Scheme, color: string, sh: Shades)
    modifies native
    ensures native.log == old(native.log) + ButtonCalls(ttkstyle, scheme, color, sh)
    ensures native.themes == old(native.themes) && native.current == old(native.current)
    ensures native.imageCount == old(native.imageCount)
  {
    var foreground := GetForeground(scheme, color);
    var background := sh.base;
    var hover := if scheme.mode == LIGHT then sh.l1 else sh.d1;
    var pressed := if scheme.mode == LIGHT then sh.l2 else sh.d2;
    var disabled := sh.l2;
    ghost var log0 := native.log;
    native.Submit(Configure(ttkstyle, ButtonOptions(foreground, background)));
    native.Submit(StateMap(ttkstyle, "foreground", [("disabled", Str(disabled))]));
    native.Submit(StateMap(ttkstyle, "background", FaceSpec(pressed, hover)));
    native.Submit(StateMap(ttkstyle, "darkcolor", FaceSpec(pressed, hover)));
    native.Submit(StateMap(ttkstyle, "lightcolor", FaceSpec(pressed, hover)));
  }

  /** The face of a bootstyle button in every state: the pressed shade
      beats the hover shade, and a disabled button keeps its base colour.
      The bevel (`darkcolor`, `lightcolor`) follows the face. */
  lemma ButtonFace(ttkstyle: string, scheme: Scheme, color: string, sh: Shades, state: set<string>)
    ensures var calls := ButtonCalls(ttkstyle, scheme, color, sh);
            var face := Select(calls[2].stateSpec, state, calls[0].opts["background"]);
            calls[2].option == "background" &&
            face == (if "disabled" in state then Str(sh.base)
                     else if "pressed" in state then Str(Pressed(scheme.mode, sh))
                     else if "hover" in state then Str(Hover(scheme.mode, sh))
                     else Str(sh.base)) &&
            Select(calls[3].stateSpec, state, calls[0].opts["darkcolor"]) == face &&
            Select(calls[4].stateSpec, state, calls[0].opts["lightcolor"]) == face
  {
    var spec := FaceSpec(Pressed(scheme.mode, sh), Hover(scheme.mode, sh));
    var calls := ButtonCalls(ttkstyle, scheme, color, sh);
    assert calls[2].stateSpec == spec && calls[3].stateSpec == spec && calls[4].stateSpec == spec;
    SpecPressedEnabled(state);
    SpecHoverEnabled(state);
    SelectFrom(spec, state, Str(sh.base), 0);
    SelectFrom(spec, state, Str(sh.base), 1);
    assert spec[0..] == spec && spec[2..] == [];
  }

  /** The label of a bootstyle button: the `l2` shade when disabled, the
      foreground for the colour otherwise. */
  lemma ButtonText(ttkstyle: string, scheme: Scheme, color: string, sh: Shades, state: set<string>)
    ensures var calls := ButtonCalls(ttkstyle, scheme, color, sh);
            calls[1].option == "foreground" &&
            Select(calls[1].stateSpec, state, calls[0].opts["foreground"]) ==
              if "disabled" in state then Str(sh.l2) else Str(GetForeground(scheme, color))
  {
    SpecDisabled(state);
  }

  // ---------------------------------------------------------------------------
  // Outline buttons
  // ---------------------------------------------------------------------------

  /** The normal look of an outline button: text and border in the colour
      on the background. */
  function OutlineOptions(color: string, background: string): (m: map<string, Value>)
    ensures "foreground" in m && m["foreground"] == Str(color)
    ensures "bordercolor" in m && m["bordercolor"] == Str(color)
    ensures "background" in m && m["background"] == Str(background)
  {
    map["font" := Str("TkBody"), "foreground" := Str(color), "focuscolor" := Str(color),
        "background" := Str(background), "darkcolor" := Str(background), "lightcolor" := Str(background),
        "bordercolor" := Str(color), "anchor" := Str(CENTER), "relief" := Str(RAISED),
        "focusthickness" := Int(0), "padding" := Str("8 4")]
  }

  /** The state map of the outline text: disabled first, then hover. */
  function OutlineTextSpec(disabled: string, hoverFg: string): seq<(string, Value)>
  {
    [("disabled", Str(disabled)), ("hover !disabled", Str(hoverFg))]
  }

  function OutlineCalls(ttkstyle: string, scheme: Scheme, color: string, sh: Shades, lt: Shades, bg: Shades): seq<NativeCall>
  {
    var hoverFg := GetForeground(scheme, color);
    var hoverBg := sh.base;
    [Configure(ttkstyle, OutlineOptions(sh.base, bg.base)),
     StateMap(ttkstyle, "foreground", OutlineTextSpec(Disabled(scheme.mode, lt), hoverFg)),
     StateMap(ttkstyle, "focuscolor", [("hover !disabled", Str(hoverFg))]),
     StateMap(ttkstyle, "shiftrelief", [("pressed !disabled", Int(-1))]),
     StateMap(ttkstyle, "background", [("hover !disabled", Str(hoverBg))]),
     StateMap(ttkstyle, "darkcolor", [("hover !disabled", Str(hoverBg))]),
     StateMap(ttkstyle, "lightcolor", [("hover !disabled", Str(hoverBg))])]
  }

  /** `create_outline_button_style`: the colour defaults to `primary`. */
  method CreateOutlineButtonStyle(engine: ThemeEngine, native: NativeStyle, options: StyleRequest, parse: ColorParser) returns (r: Result<()>)
    modifies engine, native
    ensures options.scheme.None? ==> r == Err(KeyError("scheme")) && engine.styles == old(engine.styles) &&
                                     native.log == old(native.log)
    ensures options.scheme.Some? ==>
              var scheme := options.scheme.value;
              var color := ColorOrDefault(options.color, PRIMARY);
              var shades := ShadesOf(scheme, color, parse);
              var lt := ShadesOf(scheme, LIGHT, parse).value;
              var bg := ShadesOf(scheme, "background", parse).value;
              engine.styles == AddTo(old(engine.styles), scheme, {options.ttkstyle}) &&
              (shades.Err? ==> r == Err(shades.error) && native.log == old(native.log)) &&
              (shades.Ok? ==> r == Ok(()) && native.log == old(native.log) + OutlineCalls(options.ttkstyle, scheme, color, shades.value, lt, bg))
    ensures engine.assets == old(engine.assets) && engine.handlers == old(engine.handlers) && engine.handlerOrder == old(engine.handlerOrder)
    ensures native.themes == old(native.themes) && native.current == old(native.current)
    ensures native.imageCount == old(native.imageCount)
  {
    if options.scheme.None? {
      return Err(KeyError("scheme"));
    }
    var scheme := options.scheme.value;
    var ttkstyle := options.ttkstyle;
    var color := ColorOrDefault(options.color, PRIMARY);
    engine.StyleRegister(ttkstyle, scheme);
    var shades := GetShades(scheme, color, parse);
    if shades.Err? {
      return Err(shades.error);
    }
    assert LIGHT in COLOR_KEYS && "background" in COLOR_KEYS;
    var lt := GetShades(scheme, LIGHT, parse);
    var bg := GetShades(scheme, "background", parse);
    OutlineMaps(native, ttkstyle, scheme, color, shades.value, lt.value, bg.value);
    r := Ok(());
  }

  /** The part of `create_outline_button_style` after the shades are known. */
  method OutlineMaps(native: NativeStyle, ttkstyle: string, scheme: Scheme, color: string, sh: Shades, lt: Shades, bg: Shades)
    modifies native
    ensures native.log == old(native.log) + OutlineCalls(ttkstyle, scheme, color, sh, lt, bg)
    ensures native.themes == old(native.themes) && native.current == old(native.current)
    ensures native.imageCount == old(native.imageCount)
  {
    var disabled := if scheme.mode == LIGHT then lt.d2 else lt.d4;
    var foreground := sh.base;
    var bordercolor := sh.base;
    var hoverFg := GetForeground(scheme, color);
    var hoverBg := bordercolor;
    ghost var log0 := native.log;
    native.Submit(Configure(ttkstyle, OutlineOptions(foreground, bg.base)));
    native.Submit(StateMap(ttkstyle, "foreground", OutlineTextSpec(disabled, hoverFg)));
    native.Submit(StateMap(ttkstyle, "focuscolor", [("hover !disabled", Str(hoverFg))]));
    native.Submit(StateMap(ttkstyle, "shiftrelief", [("pressed !disabled", Int(-1))]));
    native.Submit(StateMap(ttkstyle, "background", [("hover !disabled", Str(hoverBg))]));
    native.Submit(StateMap(ttkstyle, "darkcolor", [("hover !disabled", Str(hoverBg))]));
    native.Submit(StateMap(ttkstyle, "lightcolor", [("hover !disabled", Str(hoverBg))]));
  }

  /** An outline button fills with its colour under the mouse, while
      enabled, and shows the background otherwise. */
  lemma OutlineFill(ttkstyle: string, scheme: Scheme, color: string, sh: Shades, lt: Shades, bg: Shades, state: set<string>)
    ensures var calls := OutlineCalls(ttkstyle, scheme, color, sh, lt, bg);
            calls[4].option == "background" &&
            Select(calls[4].stateSpec, state, calls[0].opts["background"]) ==
              Str(if "hover" in state && "disabled" !in state then sh.base else bg.base)
  {
    SpecHoverEnabled(state);
  }

  /** The label of an outline button is in the colour; it turns to the
      colour's foreground when the button fills under the mouse, and to
      the disabled colour when disabled. */
  lemma OutlineText(ttkstyle: string, scheme: Scheme, color: string, sh: Shades, lt: Shades, bg: Shades, state: set<string>)
    ensures var calls := OutlineCalls(ttkstyle, scheme, color, sh, lt, bg);
            calls[1].option == "foreground" &&
            Select(calls[1].stateSpec, state, calls[0].opts["foreground"]) ==
              (if "disabled" in state then Str(Disabled(scheme.mode, lt))
               else if "hover" in state then Str(GetForeground(scheme, color))
               else Str(sh.base))
  {
    var calls := OutlineCalls(ttkstyle, scheme, color, sh, lt, bg);
    var spec := OutlineTextSpec(Disabled(scheme.mode, lt), GetForeground(scheme, color));
    assert calls[1] == StateMap(ttkstyle, "foreground", spec);
    assert calls[0].opts["foreground"] == Str(sh.base);
    OutlineTextSelect(Disabled(scheme.mode, lt), GetForeground(scheme, color), Str(sh.base), state);
  }

  lemma OutlineTextSelect(disabled: string, hoverFg: string, normal: Value, state: set<string>)
    ensures Select(OutlineTextSpec(disabled, hoverFg), state, normal) ==
              if "disabled" in state then Str(disabled) else if "hover" in state then Str(hoverFg) else normal
  {
    var spec := OutlineTextSpec(disabled, hoverFg);
    SpecDisabled(state);
    SpecHoverEnabled(state);
    SelectFrom(spec, state, normal, 0);
    SelectFrom(spec, state, normal, 1);
    assert spec[0..] == spec && spec[2..] == [];
  }

  /** Pressing an enabled outline button shifts its label by one pixel;
      nothing else shifts it. */
  lemma OutlinePress(ttkstyle: string, scheme: Scheme, color: string, sh: Shades, lt: Shades, bg: Shades, state: set<string>)
    ensures var calls := OutlineCalls(ttkstyle, scheme, color, sh, lt, bg);
            calls[3].option == "shiftrelief" &&
            (Select(calls[3].stateSpec, state, Int(0)) == Int(-1) <==> "pressed" in state && "disabled" !in state)
  {
    SpecPressedEnabled(state);
  }
}
