/** The `chromatk` theme engine: one builder per style keyword.  A builder
    registers the style for the scheme first, picks its colours from the
    scheme by mode, paints the images its elements show (an image here only
    records the colours painted into it), creates the image elements with
    their state specifications in order, lays the style out, keeps the
    images, and configures and maps the style.  Each builder is specified by
    a function giving the exact calls it makes into Tk. */
module Chromatk {
  import opened Base
  import opened Schemes
  import opened Native
  import opened Publishing
  import opened Messages
  import opened Elements
  import opened Engines
  import opened Palettes

  const ENGINE_NAME := "chromatk"
  const ENGINE_BASE := "clam"

  /** The keywords the engine answers, with their builders, in the order
      they are registered. */
  const KEYWORDS: seq<(string, BuilderFn)> := [
    ("button", BuilderFn.CreateButtonStyle),
    ("outline-button", BuilderFn.CreateOutlineButtonStyle),
    ("link-button", BuilderFn.CreateLinkButtonStyle),
    ("checkbutton", BuilderFn.CreateCheckbuttonStyle),
    ("radiobutton", BuilderFn.CreateRadiobuttonStyle),
    ("switch", BuilderFn.CreateSwitchStyle),
    ("scrollbar", BuilderFn.CreateScrollbarStyle),
    ("spinbox", BuilderFn.CreateSpinboxStyle),
    ("tk-tk", BuilderFn.CreateWindowStyle)
  ]

  /** The options an image element of a push button is created with. */
  const BUTTON_ELEMENT_OPTS: map<string, Value> :=
    map["sticky" := Str(NSEW), "border" := Scaled([6]), "width" := Scaled([200]), "height" := Scaled([50])]

  // ---------------------------------------------------------------------------
  // Engine set-up
  // ---------------------------------------------------------------------------

  /** `ChromatkEngine(style)`: a fresh engine over the `clam` theme with its
      nine builders registered. */
  method NewChromatk(bus: Bus) returns (engine: ThemeEngine)
    modifies bus
    ensures fresh(engine) && engine.Valid()
    ensures engine.name == ENGINE_NAME && engine.base == ENGINE_BASE
    ensures engine.handlers == HandlersAfter(map[], ENGINE_NAME, KEYWORDS)
    ensures engine.handlerOrder == seq(|KEYWORDS|, i requires 0 <= i < |KEYWORDS| => KEYWORDS[i].0)
    ensures engine.styles == map[] && engine.assets == map[]
    ensures bus.subscribers == SubscribeAll(old(bus.subscribers), ENGINE_NAME, KEYWORDS)
    ensures bus.events == old(bus.events) && bus.deliveries == old(bus.deliveries)
  {
    engine := new ThemeEngine(ENGINE_NAME, ENGINE_BASE);
    RegisterKeywords(engine, bus, KEYWORDS);
  }

  // ---------------------------------------------------------------------------
  // The application window
  // ---------------------------------------------------------------------------

  /** The calls that style the main window and set the theme-wide defaults. */
  function WindowCalls(scheme: Scheme, widget: WidgetId): seq<NativeCall>
  {
    var background := scheme.background;
    [WidgetConfigure(widget, map["background" := Str(background)]),
     Configure(".", map["font" := Str("TkBody"), "background" := Str(background),
                        "darkcolor" := Str(background), "foreground" := Str(scheme.foreground),
                        "troughcolor" := Str(background), "selectbg" := Str(scheme.info),
                        "selectfg" := Str(background), "fieldbg" := Str(background),
                        "borderwidth" := Int(1)])]
  }

  /** `create_window_style`: no style is registered and no image made. */
  method CreateWindowStyle(engine: ThemeEngine, native: NativeStyle, options: StyleRequest) returns (r: Result<()>)
    modifies native
    ensures options.scheme.None? ==> r == Err(KeyError("scheme")) && native.log == old(native.log)
    ensures options.scheme.Some? ==> r == Ok(()) && native.log == old(native.log) + WindowCalls(options.scheme.value, options.widget)
    ensures native.themes == old(native.themes) && native.current == old(native.current)
    ensures native.imageCount == old(native.imageCount)
  {
    if options.scheme.None? {
      return Err(KeyError("scheme"));
    }
    var scheme := options.scheme.value;
    assert "background" in COLOR_KEYS;
    var background := GetColor(scheme, "background").value;
    native.Submit(WidgetConfigure(options.widget, map["background" := Str(background)]));
    native.Submit(Configure(".", map["font" := Str("TkBody"), "background" := Str(background),
                                     "darkcolor" := Str(background), "foreground" := Str(scheme.foreground),
                                     "troughcolor" := Str(background), "selectbg" := Str(scheme.info),
                                     "selectfg" := Str(background), "fieldbg" := Str(background),
                                     "borderwidth" := Int(1)]));
    r := Ok(());
  }

  // ---------------------------------------------------------------------------
  // Push buttons
  // ---------------------------------------------------------------------------

  /** The three faces of a button, in creation order: normal, hover,
      pressed; each is the `d2` outline around a fill. */
  function ButtonImages(mode: string, sh: Shades, n: nat): seq<Image>
  {
    [PhotoImage(n, [sh.d2, sh.base]),
     PhotoImage(n + 1, [sh.d2, Hover(mode, sh)]),
     PhotoImage(n + 2, [sh.d2, Pressed(mode, sh)])]
  }

  /** `[{style}.button, [Button.padding, [Button.label]]]` as Tk receives it. */
  function ButtonLayout(ttkstyle: string, elementOpts: map<string, Value>, labelOpts: map<string, Value>): LayoutSpec
  {
    WithChildren(LayoutSpec(ttkstyle + ".button", elementOpts),
                 [WithChildren(LayoutSpec("Button.padding", map[]), [LayoutSpec("Button.label", labelOpts)])])
  }

  /** The calls of `create_button_style` once the shades are known. */
  function ButtonCalls(ttkstyle: string, scheme: Scheme, color: string, sh: Shades, n: nat): seq<NativeCall>
  {
    var im := ButtonImages(scheme.mode, sh, n);
    var foreground := GetForeground(scheme, color);
    [ElementCreate(ttkstyle + ".button", im[0], [("pressed !disabled", im[2]), ("hover !disabled", im[1])], BUTTON_ELEMENT_OPTS),
     Layout(ttkstyle, [ButtonLayout(ttkstyle, map["expand" := Flag(true)], map["expand" := Flag(true)])]),
     Configure(ttkstyle, map["foreground" := Str(foreground), "focuscolor" := Str(foreground),
                             "relief" := Str(RAISED), "anchor" := Str(CENTER), "padding" := Str("8 4")]),
     StateMap(ttkstyle, "foreground", [("disabled", Str(sh.l2))]),
     StateMap(ttkstyle, "shiftrelief", [("pressed !disabled", Int(-1))])]
  }

  /** `create_button_style`.  The style is registered before the shades are
      looked up, so it stays registered when the colour is unknown. */
  method CreateButtonStyle(engine: ThemeEngine, native: NativeStyle, options: StyleRequest, parse: ColorParser) returns (r: Result<()>)
    modifies engine, native
    ensures options.scheme.None? ==> r == Err(KeyError("scheme")) && engine.styles == old(engine.styles) &&
                                     engine.assets == old(engine.assets) && native.log == old(native.log) &&
                                     native.imageCount == old(native.imageCount)
    ensures options.scheme.Some? ==> engine.styles == AddTo(old(engine.styles), options.scheme.value, {options.ttkstyle})
    ensures options.scheme.Some? ==>
              var scheme := options.scheme.value;
              var color := ColorOrDefault(options.color, PRIMARY);
              var shades := ShadesOf(scheme, color, parse);
              var n := old(native.imageCount);
              (shades.Err? ==> r == Err(shades.error) && native.log == old(native.log) &&
                               engine.assets == old(engine.assets) && native.imageCount == n) &&
              (shades.Ok? ==> r == Ok(()) &&
                              native.log == old(native.log) + ButtonCalls(options.ttkstyle, scheme, color, shades.value, n) &&
                              engine.assets == AddTo(old(engine.assets), scheme.name, set i | i in ButtonImages(scheme.mode, shades.value, n)) &&
                              native.imageCount == n + 3)
    ensures engine.handlers == old(engine.handlers) && engine.handlerOrder == old(engine.handlerOrder)
    ensures native.themes == old(native.themes) && native.current == old(native.current)
  {
    if options.scheme.None? {
      return Err(KeyError("scheme"));
    }
    var scheme := options.scheme.value;
    var color := ColorOrDefault(options.color, PRIMARY);
    engine.StyleRegister(options.ttkstyle, scheme);
    var shades := GetShades(scheme, color, parse);
    if shades.Err? {
      return Err(shades.error);
    }
    ButtonAssets(engine, native, options.ttkstyle, scheme, color, shades.value);
    r := Ok(());
  }

  /** The part of `create_button_style` after the shades are known. */
  method ButtonAssets(engine: ThemeEngine, native: NativeStyle, ttkstyle: string, scheme: Scheme, color: string, sh: Shades)
    modifies engine, native
    ensures native.log == old(native.log) + ButtonCalls(ttkstyle, scheme, color, sh, old(native.imageCount))
    ensures engine.assets == AddTo(old(engine.assets), scheme.name, set i | i in ButtonImages(scheme.mode, sh, old(native.imageCount)))
    ensures native.imageCount == old(native.imageCount) + 3
    ensures engine.styles == old(engine.styles) && engine.handlers == old(engine.handlers) && engine.handlerOrder == old(engine.handlerOrder)
    ensures native.themes == old(native.themes) && native.current == old(native.current)
  {
    var foreground := GetForeground(scheme, color);
    var n := native.imageCount;
    ghost var log0 := native.log;
    var imgNorm := native.NewImage([sh.d2, sh.base]);
    var imgHover := native.NewImage([sh.d2, Hover(scheme.mode, sh)]);
    var imgPressed := native.NewImage([sh.d2, Pressed(scheme.mode, sh)]);
    CreateImageElement(native, ttkstyle + ".button", imgNorm,
                       [("pressed !disabled", imgPressed), ("hover !disabled", imgHover)], BUTTON_ELEMENT_OPTS);
    assert native.log == log0 + [ButtonCalls(ttkstyle, scheme, color, sh, n)[0]];
    LayoutChain(native, ttkstyle, LayoutSpec(ttkstyle + ".button", map["expand" := Flag(true)]),
                LayoutSpec("Button.padding", map[]), LayoutSpec("Button.label", map["expand" := Flag(true)]));
    assert native.log == log0 + ButtonCalls(ttkstyle, scheme, color, sh, n)[..2];
    engine.RegisterAssets(scheme.name, [imgNorm, imgHover, imgPressed]);
    native.Submit(Configure(ttkstyle, map["foreground" := Str(foreground), "focuscolor" := Str(foreground),
                                          "relief" := Str(RAISED), "anchor" := Str(CENTER), "padding" := Str("8 4")]));
    native.Submit(StateMap(ttkstyle, "foreground", [("disabled", Str(sh.l2))]));
    native.Submit(StateMap(ttkstyle, "shiftrelief", [("pressed !disabled", Int(-1))]));
    var im := ButtonImages(scheme.mode, sh, n);
    assert [imgNorm, imgHover, imgPressed] == im;
    var calls := ButtonCalls(ttkstyle, scheme, color, sh, n);
    assert calls[0] == ElementCreate(ttkstyle + ".button", imgNorm, [("pressed !disabled", imgPressed), ("hover !disabled", imgHover)], BUTTON_ELEMENT_OPTS);
    assert native.log == log0 + calls;
  }

  /** What a chromatk button shows: the pressed face while pressed, the
      hover face while hovered, and the normal face otherwise and whenever it
      is disabled, pressed or not. */
  lemma ButtonFace(ttkstyle: string, scheme: Scheme, color: string, sh: Shades, n: nat, state: set<string>)
    ensures var e := ButtonCalls(ttkstyle, scheme, color, sh, n)[0];
            var im := ButtonImages(scheme.mode, sh, n);
            Select(e.imageSpec, state, e.image) ==
              if "disabled" in state then im[0]
              else if "pressed" in state then im[2]
              else if "hover" in state then im[1]
              else im[0]
  {
    SpecPressedEnabled(state);
    SpecHoverEnabled(state);
  }

  /** The text of a chromatk button takes the `l2` shade when disabled and
      the foreground for the colour otherwise. */
  lemma ButtonText(ttkstyle: string, scheme: Scheme, color: string, sh: Shades, n: nat, state: set<string>)
    ensures var calls := ButtonCalls(ttkstyle, scheme, color, sh, n);
            calls[3].option == "foreground" &&
            Select(calls[3].stateSpec, state, calls[2].opts["foreground"]) ==
              if "disabled" in state then Str(sh.l2) else Str(GetForeground(scheme, color))
  {
    SpecDisabled(state);
  }

  // ---------------------------------------------------------------------------
  // Outline buttons
  // ---------------------------------------------------------------------------

  /** Normal, hover, pressed and disabled faces: an outline in the colour,
      filled on hover and press, outlined in the disabled colour when
      disabled. */
  function OutlineImages(mode: string, sh: Shades, lt: Shades, bg: Shades, n: nat): seq<Image>
  {
    var hoverBg := HoverOff(mode, lt, bg);
    [PhotoImage(n, [sh.base]),
     PhotoImage(n + 1, [sh.base, hoverBg]),
     PhotoImage(n + 2, [sh.base, hoverBg]),
     PhotoImage(n + 3, [Disabled(mode, lt)])]
  }

  /** The state specification of the outline button face. */
  function OutlineSpec(im: seq<Image>): seq<(string, Image)>
    requires |im| == 4
  {
    [("disabled", im[3]), ("pressed !disabled", im[2]), ("hover !disabled", im[1])]
  }

  function OutlineCalls(ttkstyle: string, mode: string, sh: Shades, lt: Shades, bg: Shades, n: nat): seq<NativeCall>
  {
    var im := OutlineImages(mode, sh, lt, bg, n);
    var foreground := sh.base;
    [ElementCreate(ttkstyle + ".button", im[0], OutlineSpec(im), BUTTON_ELEMENT_OPTS)] +
    OutlineStyleCalls(ttkstyle, mode, sh, lt)
  }

  /** The calls after the element: the layout, the options and the maps. */
  function OutlineStyleCalls(ttkstyle: string, mode: string, sh: Shades, lt: Shades): seq<NativeCall>
  {
    var foreground := sh.base;
    [Layout(ttkstyle, [ButtonLayout(ttkstyle, map["sticky" := Str(NSEW)], map["side" := Str(LEFT), "expand" := Flag(true)])]),
     Configure(ttkstyle, map["foreground" := Str(foreground), "relief" := Str(RAISED), "focuscolor" := Str(foreground),
                             "anchor" := Str(CENTER), "padding" := Str("8 4")]),
     StateMap(ttkstyle, "foreground", [("disabled", Str(Disabled(mode, lt)))]),
     StateMap(ttkstyle, "shiftrelief", [("pressed !disabled", Int(-1))])]
  }

  /** The end of `create_outline_button_style`, once its element exists. */
  method OutlineStyle(native: NativeStyle, ttkstyle: string, mode: string, sh: Shades, lt: Shades)
    modifies native
    ensures native.log == old(native.log) + OutlineStyleCalls(ttkstyle, mode, sh, lt)
    ensures native.imageCount == old(native.imageCount)
    ensures native.themes == old(native.themes) && native.current == old(native.current)
  {
    ghost var log0 := native.log;
    var calls := OutlineStyleCalls(ttkstyle, mode, sh, lt);
    var background := sh.base;
    LayoutChain(native, ttkstyle, LayoutSpec(ttkstyle + ".button", map["sticky" := Str(NSEW)]),
                LayoutSpec("Button.padding", map[]), LayoutSpec("Button.label", map["side" := Str(LEFT), "expand" := Flag(true)]));
    assert native.log == log0 + calls[..1];
    native.Submit(Configure(ttkstyle, map["foreground" := Str(background), "relief" := Str(RAISED), "focuscolor" := Str(background),
                                          "anchor" := Str(CENTER), "padding" := Str("8 4")]));
    native.Submit(StateMap(ttkstyle, "foreground", [("disabled", Str(Disabled(mode, lt)))]));
    native.Submit(StateMap(ttkstyle, "shiftrelief", [("pressed !disabled", Int(-1))]));
    assert native.log == log0 + calls;
  }

  /** `create_outline_button_style`. */
  method CreateOutlineButtonStyle(engine: ThemeEngine, native: NativeStyle, options: StyleRequest, parse: ColorParser) returns (r: Result<()>)
    modifies engine, native
    ensures options.scheme.None? ==> r == Err(KeyError("scheme")) && engine.styles == old(engine.styles) &&
                                     engine.assets == old(engine.assets) && native.log == old(native.log) &&
                                     native.imageCount == old(native.imageCount)
    ensures options.scheme.Some? ==> engine.styles == AddTo(old(engine.styles), options.scheme.value, {options.ttkstyle})
    ensures options.scheme.Some? ==>
              var scheme := options.scheme.value;
              var shades := ShadesOf(scheme, ColorOrDefault(options.color, PRIMARY), parse);
              var lt := ShadesOf(scheme, LIGHT, parse).value;
              var bg := ShadesOf(scheme, "background", parse).value;
              var n := old(native.imageCount);
              (shades.Err? ==> r == Err(shades.error) && native.log == old(native.log) &&
                               engine.assets == old(engine.assets) && native.imageCount == n) &&
              (shades.Ok? ==> r == Ok(()) &&
                              native.log == old(native.log) + OutlineCalls(options.ttkstyle, scheme.mode, shades.value, lt, bg, n) &&
                              engine.assets == AddTo(old(engine.assets), scheme.name, set i | i in OutlineImages(scheme.mode, shades.value, lt, bg, n)) &&
                              native.imageCount == n + 4)
    ensures engine.handlers == old(engine.handlers) && engine.handlerOrder == old(engine.handlerOrder)
    ensures native.themes == old(native.themes) && native.current == old(native.current)
  {
    if options.scheme.None? {
      return Err(KeyError("scheme"));
    }
    var scheme := options.scheme.value;
    engine.StyleRegister(options.ttkstyle, scheme);
    var shades := GetShades(scheme, ColorOrDefault(options.color, PRIMARY), parse);
    if shades.Err? {
      return Err(shades.error);
    }
    var lt := GetShades(scheme, LIGHT, parse);
    var bg := GetShades(scheme, "background", parse);
    assert LIGHT in COLOR_KEYS && "background" in COLOR_KEYS;
    OutlineAssets(engine, native, options.ttkstyle, scheme, shades.value, lt.value, bg.value);
    r := Ok(());
  }

  method OutlineAssets(engine: ThemeEngine, native: NativeStyle, ttkstyle: string, scheme: Scheme, sh: Shades, lt: Shades, bg: Shades)
    modifies engine, native
    ensures native.log == old(native.log) + OutlineCalls(ttkstyle, scheme.mode, sh, lt, bg, old(native.imageCount))
    ensures engine.assets == AddTo(old(engine.assets), scheme.name, set i | i in OutlineImages(scheme.mode, sh, lt, bg, old(native.imageCount)))
    ensures native.imageCount == old(native.imageCount) + 4
    ensures engine.styles == old(engine.styles) && engine.handlers == old(engine.handlers) && engine.handlerOrder == old(engine.handlerOrder)
    ensures native.themes == old(native.themes) && native.current == old(native.current)
  {
    var n := native.imageCount;
    ghost var log0 := native.log;
    var disabled := Disabled(scheme.mode, lt);
    var background := sh.base;
    var hoverBg := HoverOff(scheme.mode, lt, bg);
    var imgNorm := native.NewImage([background]);
    var imgHover := native.NewImage([background, hoverBg]);
    var imgPressed := native.NewImage([background, hoverBg]);
    var imgDisabled := native.NewImage([disabled]);
    var im := OutlineImages(scheme.mode, sh, lt, bg, n);
    assert [imgNorm, imgHover, imgPressed, imgDisabled] == im;
    engine.RegisterAssets(scheme.name, [imgNorm, imgHover, imgPressed, imgDisabled]);
    var calls := OutlineCalls(ttkstyle, scheme.mode, sh, lt, bg, n);
    CreateImageElement(native, ttkstyle + ".button", imgNorm,
                       [("disabled", imgDisabled), ("pressed !disabled", imgPressed), ("hover !disabled", imgHover)], BUTTON_ELEMENT_OPTS);
    assert native.log == log0 + calls[..1];
    OutlineStyle(native, ttkstyle, scheme.mode, sh, lt);
    assert calls == calls[..1] + OutlineStyleCalls(ttkstyle, scheme.mode, sh, lt);
  }

  /** What an outline button shows: the disabled outline whenever disabled,
      the filled face while pressed or hovered, the bare outline otherwise. */
  lemma OutlineFace(im: seq<Image>, state: set<string>)
    requires |im| == 4
    ensures Select(OutlineSpec(im), state, im[0]) ==
              if "disabled" in state then im[3]
              else if "pressed" in state then im[2]
              else if "hover" in state then im[1]
              else im[0]
  {
    Select3("disabled", im[3], "pressed !disabled", im[2], "hover !disabled", im[1], state, im[0]);
    SpecDisabled(state);
    SpecPressedEnabled(state);
    SpecHoverEnabled(state);
  }

  // ---------------------------------------------------------------------------
  // Link buttons
  // ---------------------------------------------------------------------------

  /** The foreground a link button is configured with: the colour's value,
      or Python's `None` for a name the scheme does not have. */
  function LinkForeground(scheme: Scheme, color: string): (v: Value)
    ensures color in COLOR_KEYS ==> v == Str(GetColor(scheme, color).value)
    ensures color !in COLOR_KEYS ==> v == Nothing
  {
    match GetColor(scheme, color)
    case Some(c) => Str(c)
    case None => Nothing
  }

  function LinkCalls(ttkstyle: string, scheme: Scheme, color: string, lt: Shades, n: nat): seq<NativeCall>
  {
    var disabled := Disabled(scheme.mode, lt);
    var hover := scheme.info;
    [Configure(ttkstyle, map["relief" := Str(RAISED), "foreground" := LinkForeground(scheme, color),
                             "padding" := Str("8 4"), "anchor" := Str(CENTER)]),
     ElementCreate(ttkstyle + ".button", PhotoImage(n, []), [], BUTTON_ELEMENT_OPTS),
     Layout(ttkstyle, [ButtonLayout(ttkstyle, map["expand" := Flag(true)], map["expand" := Flag(true)])]),
     StateMap(ttkstyle, "foreground", [("disabled", Str(disabled)), ("hover !disabled", Str(hover))]),
     StateMap(ttkstyle, "shiftrelief", [("pressed !disabled", Str("-2"))]),
     StateMap(ttkstyle, "focuscolor", [("hover", Str(hover))])]
  }

  /** `create_link_button_style`: nothing can fail once the scheme is
      there, since an unknown colour only gives an empty foreground. */
  method CreateLinkButtonStyle(engine: ThemeEngine, native: NativeStyle, options: StyleRequest, parse: ColorParser) returns (r: Result<()>)
    modifies engine, native
    ensures options.scheme.None? ==> r == Err(KeyError("scheme")) && engine.styles == old(engine.styles) &&
                                     engine.assets == old(engine.assets) && native.log == old(native.log) &&
                                     native.imageCount == old(native.imageCount)
    ensures options.scheme.Some? ==>
              var scheme := options.scheme.value;
              var n := old(native.imageCount);
              r == Ok(()) &&
              engine.styles == AddTo(old(engine.styles), scheme, {options.ttkstyle}) &&
              native.log == old(native.log) + LinkCalls(options.ttkstyle, scheme, ColorOrDefault(options.color, PRIMARY),
                                                        ShadesOf(scheme, LIGHT, parse).value, n) &&
              engine.assets == AddTo(old(engine.assets), scheme.name, {PhotoImage(n, [])}) &&
              native.imageCount == n + 1
    ensures engine.handlers == old(engine.handlers) && engine.handlerOrder == old(engine.handlerOrder)
    ensures native.themes == old(native.themes) && native.current == old(native.current)
  {
    if options.scheme.None? {
      return Err(KeyError("scheme"));
    }
    var scheme := options.scheme.value;
    engine.StyleRegister(options.ttkstyle, scheme);
    var lt := GetShades(scheme, LIGHT, parse);
    assert LIGHT in COLOR_KEYS;
    LinkAssets(engine, native, options.ttkstyle, scheme, ColorOrDefault(options.color, PRIMARY), lt.value);
    r := Ok(());
  }

  method LinkAssets(engine: ThemeEngine, native: NativeStyle, ttkstyle: string, scheme: Scheme, color: string, lt: Shades)
    modifies engine, native
    ensures native.log == old(native.log) + LinkCalls(ttkstyle, scheme, color, lt, old(native.imageCount))
    ensures engine.assets == AddTo(old(engine.assets), scheme.name, {PhotoImage(old(native.imageCount), [])})
    ensures native.imageCount == old(native.imageCount) + 1
    ensures engine.styles == old(engine.styles) && engine.handlers == old(engine.handlers) && engine.handlerOrder == old(engine.handlerOrder)
    ensures native.themes == old(native.themes) && native.current == old(native.current)
  {
    var disabled := Disabled(scheme.mode, lt);
    var foreground := LinkForeground(scheme, color);
    var hover := scheme.info;
    var n := native.imageCount;
    ghost var log0 := native.log;
    var calls := LinkCalls(ttkstyle, scheme, color, lt, n);
    native.Submit(Configure(ttkstyle, map["relief" := Str(RAISED), "foreground" := foreground,
                                          "padding" := Str("8 4"), "anchor" := Str(CENTER)]));
    assert native.log == log0 + calls[..1];
    var im := native.NewImage([]);
    CreateImageElement(native, ttkstyle + ".button", im, [], BUTTON_ELEMENT_OPTS);
    assert native.log == log0 + calls[..2];
    engine.RegisterAssets(scheme.name, [im]);
    assert (set i | i in [im]) == {im};
    LayoutChain(native, ttkstyle, LayoutSpec(ttkstyle + ".button", map["expand" := Flag(true)]),
                LayoutSpec("Button.padding", map[]), LayoutSpec("Button.label", map["expand" := Flag(true)]));
    assert native.log == log0 + calls[..3];
    native.Submit(StateMap(ttkstyle, "foreground", [("disabled", Str(disabled)), ("hover !disabled", Str(hover))]));
    native.Submit(StateMap(ttkstyle, "shiftrelief", [("pressed !disabled", Str("-2"))]));
    native.Submit(StateMap(ttkstyle, "focuscolor", [("hover", Str(hover))]));
    assert native.log == log0 + calls;
  }

  /** The text of a link button: the disabled colour when disabled, the
      scheme's `info` colour under the mouse, its own colour otherwise. */
  lemma LinkText(ttkstyle: string, scheme: Scheme, color: string, lt: Shades, n: nat, state: set<string>)
    ensures var calls := LinkCalls(ttkstyle, scheme, color, lt, n);
            Select(calls[3].stateSpec, state, calls[0].opts["foreground"]) ==
              if "disabled" in state then Str(Disabled(scheme.mode, lt))
              else if "hover" in state then Str(scheme.info)
              else LinkForeground(scheme, color)
  {
    var calls := LinkCalls(ttkstyle, scheme, color, lt, n);
    assert calls[3].stateSpec == [("disabled", Str(Disabled(scheme.mode, lt))), ("hover !disabled", Str(scheme.info))];
    assert calls[0].opts["foreground"] == LinkForeground(scheme, color);
    Select2("disabled", Str(Disabled(scheme.mode, lt)), "hover !disabled", Str(scheme.info), state, LinkForeground(scheme, color));
    SpecDisabled(state);
    SpecHoverEnabled(state);
  }

  // ---------------------------------------------------------------------------
  // Checkbuttons
  // ---------------------------------------------------------------------------

  /** The twelve indicator faces, in the order they are drawn: off, off under
      the mouse, off pressed, on (rim, fill, check mark), on under the
      mouse, on pressed, on disabled, alternate (rim, fill, dash),
      alternate pressed, alternate under the mouse, alternate disabled,
      disabled. */
  function CheckImages(scheme: Scheme, sh: Shades, lt: Shades, bg: Shades, n: nat): seq<Image>
  {
    var mark := scheme.background;
    var appBg := scheme.background;
    var disabled := Disabled(scheme.mode, lt);
    var outline := lt.d3;
    var hoverOn := Hover(scheme.mode, sh);
    var pressedOn := Pressed(scheme.mode, sh);
    [PhotoImage(n, [outline, appBg]),
     PhotoImage(n + 1, [outline, HoverOff(scheme.mode, lt, bg)]),
     PhotoImage(n + 2, [outline, PressedOff(scheme.mode, lt, bg)]),
     PhotoImage(n + 3, [bg.d2, sh.base, mark]),
     PhotoImage(n + 4, [bg.d2, hoverOn, mark]),
     PhotoImage(n + 5, [bg.d2, pressedOn, mark]),
     PhotoImage(n + 6, [disabled, sh.base, disabled]),
     PhotoImage(n + 7, [bg.d2, sh.base, mark]),
     PhotoImage(n + 8, [bg.d2, pressedOn, mark]),
     PhotoImage(n + 9, [bg.d2, hoverOn, mark]),
     PhotoImage(n + 10, [disabled, sh.base, disabled]),
     PhotoImage(n + 11, [disabled, mark])]
  }

  /** The indicator's state entries, first match wins. */
  function CheckSpec(im: seq<Image>): seq<(string, Image)>
    requires |im| == 12
  {
    [("disabled selected", im[6]), ("disabled alternate", im[10]), ("disabled", im[11]),
     ("pressed alternate !disabled", im[8]), ("pressed !selected !disabled", im[2]),
     ("pressed selected !disabled", im[5]), ("hover alternate !disabled", im[9]),
     ("hover !selected !disabled", im[1]), ("hover selected !disabled", im[4]),
     ("alternate", im[7]), ("!selected", im[0])]
  }

  /** The order in which `register_assets` receives the faces: the default
      face, then the mapped ones in mapping order. */
  function CheckKept(im: seq<Image>): seq<Image>
    requires |im| == 12
  {
    [im[3], im[6], im[10], im[11], im[8], im[2], im[5], im[9], im[1], im[4], im[7], im[0]]
  }

  /** Every face drawn is kept alive: none is left to the garbage collector. */
  lemma CheckKeepsAll(im: seq<Image>)
    requires |im| == 12
    ensures (set i | i in CheckKept(im)) == set i | i in im
  {
    var kept := CheckKept(im);
    forall i | i in im
      ensures i in kept
    {
      var k :| 0 <= k < 12 && im[k] == i;
      assert k in {0, 1, 2, 3, 4, 5, 6, 7, 8, 9, 10, 11};
    }
  }

  function CheckCalls(ttkstyle: string, scheme: Scheme, sh: Shades, lt: Shades, bg: Shades, n: nat): seq<NativeCall>
  {
    var im := CheckImages(scheme, sh, lt, bg, n);
    var element := Replace(ttkstyle, ".TC", ".C");
    [ElementCreate(element + ".indicator", im[3], CheckSpec(im), map["border" := Scaled([24, 0]), "sticky" := Str(NS)]),
     Configure(ttkstyle, map["foreground" := Str(scheme.foreground), "background" := Str(scheme.background),
                             "focuscolor" := Str(""), "font" := Str("TKBody")]),
     StateMap(ttkstyle, "foreground", [("disabled", Str(Disabled(scheme.mode, lt)))]),
     Layout(ttkstyle, [WithChildren(LayoutSpec("Checkbutton.padding", map["sticky" := Str(NSEW)]),
                                    [LayoutSpec(element + ".indicator", map["side" := Str(LEFT), "sticky" := Str("")]),
                                     LayoutSpec("Checkbutton.focus", map["side" := Str(LEFT), "sticky" := Str("")]),
                                     LayoutSpec("Checkbutton.label", map["sticky" := Str(NSEW)])])])]
  }

  /** `create_checkbutton_style`. */
  method CreateCheckbuttonStyle(engine: ThemeEngine, native: NativeStyle, options: StyleRequest, parse: ColorParser) returns (r: Result<()>)
    modifies engine, native
    ensures options.scheme.None? ==> r == Err(KeyError("scheme")) && engine.styles == old(engine.styles) &&
                                     engine.assets == old(engine.assets) && native.log == old(native.log) &&
                                     native.imageCount == old(native.imageCount)
    ensures options.scheme.Some? ==> engine.styles == AddTo(old(engine.styles), options.scheme.value, {options.ttkstyle})
    ensures options.scheme.Some? ==>
              var scheme := options.scheme.value;
              var shades := ShadesOf(scheme, ColorOrDefault(options.color, PRIMARY), parse);
              var lt := ShadesOf(scheme, LIGHT, parse).value;
              var bg := ShadesOf(scheme, "background", parse).value;
              var n := old(native.imageCount);
              (shades.Err? ==> r == Err(shades.error) && native.log == old(native.log) &&
                               engine.assets == old(engine.assets) && native.imageCount == n) &&
              (shades.Ok? ==> r == Ok(()) &&
                              native.log == old(native.log) + CheckCalls(options.ttkstyle, scheme, shades.value, lt, bg, n) &&
                              engine.assets == AddTo(old(engine.assets), scheme.name, set i | i in CheckKept(CheckImages(scheme, shades.value, lt, bg, n))) &&
                              native.imageCount == n + 12)
    ensures engine.handlers == old(engine.handlers) && engine.handlerOrder == old(engine.handlerOrder)
    ensures native.themes == old(native.themes) && native.current == old(native.current)
  {
    if options.scheme.None? {
      return Err(KeyError("scheme"));
    }
    var scheme := options.scheme.value;
    engine.StyleRegister(options.ttkstyle, scheme);
    var shades := GetShades(scheme, ColorOrDefault(options.color, PRIMARY), parse);
    if shades.Err? {
      return Err(shades.error);
    }
    var lt := GetShades(scheme, LIGHT, parse);
    var bg := GetShades(scheme, "background", parse);
    assert LIGHT in COLOR_KEYS && "background" in COLOR_KEYS;
    CheckAssets(engine, native, options.ttkstyle, scheme, shades.value, lt.value, bg.value);
    r := Ok(());
  }

  /** Draw the twelve faces, in order. */
  method DrawCheck(native: NativeStyle, scheme: Scheme, sh: Shades, lt: Shades, bg: Shades) returns (im: seq<Image>)
    modifies native
    ensures im == CheckImages(scheme, sh, lt, bg, old(native.imageCount))
    ensures native.imageCount == old(native.imageCount) + 12
    ensures native.log == old(native.log) && native.themes == old(native.themes) && native.current == old(native.current)
  {
    var foreground := scheme.background;
    var background := sh.base;
    var appBg := scheme.background;
    var disabled := Disabled(scheme.mode, lt);
    var outline := lt.d3;
    var hoverOn := Hover(scheme.mode, sh);
    var pressedOn := Pressed(scheme.mode, sh);
    var imgOff := native.NewImage([outline, appBg]);
    var imgOffHover := native.NewImage([outline, HoverOff(scheme.mode, lt, bg)]);
    var imgOffPressed := native.NewImage([outline, PressedOff(scheme.mode, lt, bg)]);
    var imgOn := native.NewImage([bg.d2, background, foreground]);
    var imgOnHover := native.NewImage([bg.d2, hoverOn, foreground]);
    var imgOnPressed := native.NewImage([bg.d2, pressedOn, foreground]);
    var imgOnDis := native.NewImage([disabled, background, disabled]);
    var imgAlt := native.NewImage([bg.d2, background, foreground]);
    var imgAltPressed := native.NewImage([bg.d2, pressedOn, foreground]);
    var imgAltHover := native.NewImage([bg.d2, hoverOn, foreground]);
    var imgAltDis := native.NewImage([disabled, background, disabled]);
    var imgDis := native.NewImage([disabled, foreground]);
    im := [imgOff, imgOffHover, imgOffPressed, imgOn, imgOnHover, imgOnPressed,
           imgOnDis, imgAlt, imgAltPressed, imgAltHover, imgAltDis, imgDis];
  }

  method CheckAssets(engine: ThemeEngine, native: NativeStyle, ttkstyle: string, scheme: Scheme, sh: Shades, lt: Shades, bg: Shades)
    modifies engine, native
    ensures native.log == old(native.log) + CheckCalls(ttkstyle, scheme, sh, lt, bg, old(native.imageCount))
    ensures engine.assets == AddTo(old(engine.assets), scheme.name, set i | i in CheckKept(CheckImages(scheme, sh, lt, bg, old(native.imageCount))))
    ensures native.imageCount == old(native.imageCount) + 12
    ensures engine.styles == old(engine.styles) && engine.handlers == old(engine.handlers) && engine.handlerOrder == old(engine.handlerOrder)
    ensures native.themes == old(native.themes) && native.current == old(native.current)
  {
    var n := native.imageCount;
    ghost var log0 := native.log;
    var im := DrawCheck(native, scheme, sh, lt, bg);
    var calls := CheckCalls(ttkstyle, scheme, sh, lt, bg, n);
    var element := Replace(ttkstyle, ".TC", ".C");
    CreateImageElement(native, element + ".indicator", im[3],
                       [("disabled selected", im[6]), ("disabled alternate", im[10]), ("disabled", im[11]),
                        ("pressed alternate !disabled", im[8]), ("pressed !selected !disabled", im[2]),
                        ("pressed selected !disabled", im[5]), ("hover alternate !disabled", im[9]),
                        ("hover !selected !disabled", im[1]), ("hover selected !disabled", im[4]),
                        ("alternate", im[7]), ("!selected", im[0])],
                       map["border" := Scaled([24, 0]), "sticky" := Str(NS)]);
    assert native.log == log0 + calls[..1];
    engine.RegisterAssets(scheme.name, [im[3], im[6], im[10], im[11], im[8], im[2], im[5], im[9], im[1], im[4], im[7], im[0]]);
    var disabled := Disabled(scheme.mode, lt);
    native.Submit(Configure(ttkstyle, map["foreground" := Str(scheme.foreground), "background" := Str(scheme.background),
                                          "focuscolor" := Str(""), "font" := Str("TKBody")]));
    native.Submit(StateMap(ttkstyle, "foreground", [("disabled", Str(disabled))]));
    assert native.log == log0 + calls[..3];
    LayoutIndicator(native, ttkstyle, LayoutSpec("Checkbutton.padding", map["sticky" := Str(NSEW)]),
                    LayoutSpec(element + ".indicator", map["side" := Str(LEFT), "sticky" := Str("")]),
                    LayoutSpec("Checkbutton.focus", map["side" := Str(LEFT), "sticky" := Str("")]),
                    LayoutSpec("Checkbutton.label", map["sticky" := Str(NSEW)]));
    assert native.log == log0 + calls;
  }

  /** The checkbutton indicator in every state: disabled wins over
      everything and shows whether the box is checked, partly checked or
      empty; otherwise pressing wins over hovering, the partial (alternate)
      mark wins over the checked one, and a checkbutton in none of these
      states shows the checked face. */
  lemma CheckIndicator(im: seq<Image>, state: set<string>)
    requires |im| == 12
    ensures Select(CheckSpec(im), state, im[3]) ==
              if "disabled" in state then
                (if "selected" in state then im[6] else if "alternate" in state then im[10] else im[11])
              else if "pressed" in state then
                (if "alternate" in state then im[8] else if "selected" !in state then im[2] else im[5])
              else if "hover" in state then
                (if "alternate" in state then im[9] else if "selected" !in state then im[1] else im[4])
              else if "alternate" in state then im[7]
              else if "selected" !in state then im[0]
              else im[3]
  {
    if "disabled" in state {
      var spec := CheckSpec(im);
      SpecDisabledSelected(state);
      SpecDisabledAlternate(state);
      SpecDisabled(state);
      SelectFrom(spec, state, im[3], 0);
      SelectFrom(spec, state, im[3], 1);
      SelectFrom(spec, state, im[3], 2);
      assert spec[0..] == spec;
    } else {
      CheckEnabled(im, state);
    }
  }

  /** The enabled part of `CheckIndicator`: the three disabled entries are
      skipped, then pressing decides, then hovering, then the mark. */
  lemma CheckEnabled(im: seq<Image>, state: set<string>)
    requires |im| == 12 && "disabled" !in state
    ensures Select(CheckSpec(im), state, im[3]) ==
              if "pressed" in state then
                (if "alternate" in state then im[8] else if "selected" !in state then im[2] else im[5])
              else if "hover" in state then
                (if "alternate" in state then im[9] else if "selected" !in state then im[1] else im[4])
              else if "alternate" in state then im[7]
              else if "selected" !in state then im[0]
              else im[3]
  {
    var spec := CheckSpec(im);
    SpecDisabledSelected(state);
    SpecDisabledAlternate(state);
    SpecDisabled(state);
    SelectFrom(spec, state, im[3], 0);
    SelectFrom(spec, state, im[3], 1);
    SelectFrom(spec, state, im[3], 2);
    assert spec[0..] == spec;
    SpecPressedAlternate(state);
    SpecPressedOff(state);
    SpecPressedOn(state);
    SelectFrom(spec, state, im[3], 3);
    SelectFrom(spec, state, im[3], 4);
    SelectFrom(spec, state, im[3], 5);
    if "pressed" !in state {
      CheckReleased(im, state);
    }
  }

  /** Neither disabled nor pressed: hovering decides, then the mark. */
  lemma CheckReleased(im: seq<Image>, state: set<string>)
    requires |im| == 12 && "disabled" !in state && "pressed" !in state
    ensures Select(CheckSpec(im)[6..], state, im[3]) ==
              if "hover" in state then
                (if "alternate" in state then im[9] else if "selected" !in state then im[1] else im[4])
              else if "alternate" in state then im[7]
              else if "selected" !in state then im[0]
              else im[3]
  {
    var spec := CheckSpec(im);
    var tail := [("alternate", im[7]), ("!selected", im[0])];
    assert spec[6..] == [("hover alternate !disabled", im[9]), ("hover !selected !disabled", im[1]),
                         ("hover selected !disabled", im[4])] + tail;
    SelectCons3("hover alternate !disabled", im[9], "hover !selected !disabled", im[1],
                "hover selected !disabled", im[4], tail, state, im[3]);
    Select2("alternate", im[7], "!selected", im[0], state, im[3]);
    SpecHoverAlternate(state);
    SpecHoverOff(state);
    SpecHoverOn(state);
    SpecAlternate(state);
    SpecUnselected(state);
  }

  // ---------------------------------------------------------------------------
  // Radiobuttons
  // ---------------------------------------------------------------------------

  /** The eight indicator faces, in the order they are drawn: off, off under
      the mouse, off pressed (a wide ring inside the rim), on (ring in the
      colour, rim `d2`), on under the mouse, on pressed, on disabled,
      disabled. */
  function RadioImages(scheme: Scheme, sh: Shades, lt: Shades, bg: Shades, n: nat): seq<Image>
  {
    var appBg := scheme.background;
    var disabled := Disabled(scheme.mode, lt);
    var outline := lt.d3;
    [PhotoImage(n, [outline, appBg]),
     PhotoImage(n + 1, [outline, HoverOff(scheme.mode, lt, bg)]),
     PhotoImage(n + 2, [outline, appBg, outline]),
     PhotoImage(n + 3, [sh.base, appBg, sh.d2]),
     PhotoImage(n + 4, [Hover(scheme.mode, sh), appBg, sh.d2]),
     PhotoImage(n + 5, [Pressed(scheme.mode, sh), appBg, sh.d2]),
     PhotoImage(n + 6, [disabled, appBg, outline]),
     PhotoImage(n + 7, [disabled, appBg])]
  }

  /** The indicator's state entries, first match wins. */
  function RadioSpec(im: seq<Image>): seq<(string, Image)>
    requires |im| == 8
  {
    [("disabled selected", im[6]), ("disabled", im[7]), ("pressed !selected !disabled", im[2]),
     ("pressed selected !disabled", im[5]), ("hover !selected !disabled", im[1]),
     ("hover selected !disabled", im[4]), ("!selected", im[0])]
  }

  /** The order in which `register_assets` receives the faces. */
  function RadioKept(im: seq<Image>): seq<Image>
    requires |im| == 8
  {
    [im[3], im[6], im[7], im[2], im[5], im[1], im[4], im[0]]
  }

  /** Every face drawn is kept alive. */
  lemma RadioKeepsAll(im: seq<Image>)
    requires |im| == 8
    ensures (set i | i in RadioKept(im)) == set i | i in im
  {
    var kept := RadioKept(im);
    forall i | i in im
      ensures i in kept
    {
      var k :| 0 <= k < 8 && im[k] == i;
      assert k in {0, 1, 2, 3, 4, 5, 6, 7};
    }
  }

  function RadioCalls(ttkstyle: string, scheme: Scheme, sh: Shades, lt: Shades, bg: Shades, n: nat): seq<NativeCall>
  {
    var im := RadioImages(scheme, sh, lt, bg, n);
    [ElementCreate(ttkstyle + ".indicator", im[3], RadioSpec(im), map["border" := Scaled([24, 0]), "sticky" := Str(NS)]),
     Configure(ttkstyle, map["font" := Str("TkBody"), "foreground" := Str(scheme.foreground),
                             "background" := Str(scheme.background), "focuscolor" := Str("")]),
     StateMap(ttkstyle, "foreground", [("disabled", Str(Disabled(scheme.mode, lt)))]),
     Layout(ttkstyle, [WithChildren(LayoutSpec("Radiobutton.padding", map["sticky" := Str(NSEW)]),
                                    [LayoutSpec(ttkstyle + ".indicator", map["side" := Str(LEFT)]),
                                     LayoutSpec("Radiobutton.focus", map["side" := Str(LEFT), "sticky" := Str(NSEW)]),
                                     LayoutSpec("Radiobutton.label", map["side" := Str(LEFT)])])])]
  }

  /** `create_radiobutton_style`. */
  method CreateRadiobuttonStyle(engine: ThemeEngine, native: NativeStyle, options: StyleRequest, parse: ColorParser) returns (r: Result<()>)
    modifies engine, native
    ensures options.scheme.None? ==> r == Err(KeyError("scheme")) && engine.styles == old(engine.styles) &&
                                     engine.assets == old(engine.assets) && native.log == old(native.log) &&
                                     native.imageCount == old(native.imageCount)
    ensures options.scheme.Some? ==> engine.styles == AddTo(old(engine.styles), options.scheme.value, {options.ttkstyle})
    ensures options.scheme.Some? ==>
              var scheme := options.scheme.value;
              var shades := ShadesOf(scheme, ColorOrDefault(options.color, PRIMARY), parse);
              var lt := ShadesOf(scheme, LIGHT, parse).value;
              var bg := ShadesOf(scheme, "background", parse).value;
              var n := old(native.imageCount);
              (shades.Err? ==> r == Err(shades.error) && native.log == old(native.log) &&
                               engine.assets == old(engine.assets) && native.imageCount == n) &&
              (shades.Ok? ==> r == Ok(()) &&
                              native.log == old(native.log) + RadioCalls(options.ttkstyle, scheme, shades.value, lt, bg, n) &&
                              engine.assets == AddTo(old(engine.assets), scheme.name, set i | i in RadioKept(RadioImages(scheme, shades.value, lt, bg, n))) &&
                              native.imageCount == n + 8)
    ensures engine.handlers == old(engine.handlers) && engine.handlerOrder == old(engine.handlerOrder)
    ensures native.themes == old(native.themes) && native.current == old(native.current)
  {
    if options.scheme.None? {
      return Err(KeyError("scheme"));
    }
    var scheme := options.scheme.value;
    var color := ColorOrDefault(options.color, PRIMARY);
    engine.StyleRegister(options.ttkstyle, scheme);
    var shades := GetShades(scheme, color, parse);
    if shades.Err? {
      return Err(shades.error);
    }
    var lt := GetShades(scheme, LIGHT, parse);
    var bg := GetShades(scheme, "background", parse);
    assert LIGHT in COLOR_KEYS && "background" in COLOR_KEYS;
    RadioAssets(engine, native, options.ttkstyle, scheme, shades.value, lt.value, bg.value);
    r := Ok(());
  }

  /** Draw the eight faces, in order. */
  method DrawRadio(native: NativeStyle, scheme: Scheme, sh: Shades, lt: Shades, bg: Shades) returns (im: seq<Image>)
    modifies native
    ensures im == RadioImages(scheme, sh, lt, bg, old(native.imageCount))
    ensures native.imageCount == old(native.imageCount) + 8
    ensures native.log == old(native.log) && native.themes == old(native.themes) && native.current == old(native.current)
  {
    var appBg := scheme.background;
    var disabled := Disabled(scheme.mode, lt);
    var outline := lt.d3;
    var imgOff := native.NewImage([outline, appBg]);
    var imgOffHover := native.NewImage([outline, HoverOff(scheme.mode, lt, bg)]);
    var imgOffPressed := native.NewImage([outline, appBg, outline]);
    var imgOn := native.NewImage([sh.base, appBg, sh.d2]);
    var imgOnHover := native.NewImage([Hover(scheme.mode, sh), appBg, sh.d2]);
    var imgOnPressed := native.NewImage([Pressed(scheme.mode, sh), appBg, sh.d2]);
    var imgOnDis := native.NewImage([disabled, appBg, outline]);
    var imgDis := native.NewImage([disabled, appBg]);
    im := [imgOff, imgOffHover, imgOffPressed, imgOn, imgOnHover, imgOnPressed, imgOnDis, imgDis];
  }

  method RadioAssets(engine: ThemeEngine, native: NativeStyle, ttkstyle: string, scheme: Scheme, sh: Shades, lt: Shades, bg: Shades)
    modifies engine, native
    ensures native.log == old(native.log) + RadioCalls(ttkstyle, scheme, sh, lt, bg, old(native.imageCount))
    ensures engine.assets == AddTo(old(engine.assets), scheme.name, set i | i in RadioKept(RadioImages(scheme, sh, lt, bg, old(native.imageCount))))
    ensures native.imageCount == old(native.imageCount) + 8
    ensures engine.styles == old(engine.styles) && engine.handlers == old(engine.handlers) && engine.handlerOrder == old(engine.handlerOrder)
    ensures native.themes == old(native.themes) && native.current == old(native.current)
  {
    var n := native.imageCount;
    ghost var log0 := native.log;
    var im := DrawRadio(native, scheme, sh, lt, bg);
    var calls := RadioCalls(ttkstyle, scheme, sh, lt, bg, n);
    CreateImageElement(native, ttkstyle + ".indicator", im[3],
                       [("disabled selected", im[6]), ("disabled", im[7]), ("pressed !selected !disabled", im[2]),
                        ("pressed selected !disabled", im[5]), ("hover !selected !disabled", im[1]),
                        ("hover selected !disabled", im[4]), ("!selected", im[0])],
                       map["border" := Scaled([24, 0]), "sticky" := Str(NS)]);
    assert native.log == log0 + calls[..1];
    engine.RegisterAssets(scheme.name, [im[3], im[6], im[7], im[2], im[5], im[1], im[4], im[0]]);
    native.Submit(Configure(ttkstyle, map["font" := Str("TkBody"), "foreground" := Str(scheme.foreground),
                                          "background" := Str(scheme.background), "focuscolor" := Str("")]));
    native.Submit(StateMap(ttkstyle, "foreground", [("disabled", Str(Disabled(scheme.mode, lt)))]));
    assert native.log == log0 + calls[..3];
    LayoutIndicator(native, ttkstyle, LayoutSpec("Radiobutton.padding", map["sticky" := Str(NSEW)]),
                    LayoutSpec(ttkstyle + ".indicator", map["side" := Str(LEFT)]),
                    LayoutSpec("Radiobutton.focus", map["side" := Str(LEFT), "sticky" := Str(NSEW)]),
                    LayoutSpec("Radiobutton.label", map["side" := Str(LEFT)]));
    assert native.log == log0 + calls;
  }

  /** The radiobutton indicator in every state: disabled wins and shows
      whether the button is selected; otherwise pressing wins over hovering,
      each showing whether the button is selected; at rest a selected
      button shows the ring and an unselected one the empty circle. */
  lemma RadioIndicator(im: seq<Image>, state: set<string>)
    requires |im| == 8
    ensures Select(RadioSpec(im), state, im[3]) ==
              if "disabled" in state then (if "selected" in state then im[6] else im[7])
              else if "pressed" in state then (if "selected" in state then im[5] else im[2])
              else if "hover" in state then (if "selected" in state then im[4] else im[1])
              else if "selected" in state then im[3]
              else im[0]
  {
    var spec := RadioSpec(im);
    SpecDisabledSelected(state);
    SpecDisabled(state);
    SpecPressedOff(state);
    SpecPressedOn(state);
    SelectFrom(spec, state, im[3], 0);
    SelectFrom(spec, state, im[3], 1);
    SelectFrom(spec, state, im[3], 2);
    SelectFrom(spec, state, im[3], 3);
    assert spec[0..] == spec;
    if "disabled" !in state && "pressed" !in state {
      RadioReleased(im, state);
    }
  }

  /** Neither disabled nor pressed: hovering decides, then the selection. */
  lemma RadioReleased(im: seq<Image>, state: set<string>)
    requires |im| == 8 && "disabled" !in state && "pressed" !in state
    ensures Select(RadioSpec(im)[4..], state, im[3]) ==
              if "hover" in state then (if "selected" in state then im[4] else im[1])
              else if "selected" in state then im[3]
              else im[0]
  {
    var spec := RadioSpec(im);
    var tail := [("!selected", im[0])];
    assert spec[4..] == [("hover !selected !disabled", im[1]), ("hover selected !disabled", im[4])] + tail;
    SelectCons2("hover !selected !disabled", im[1], "hover selected !disabled", im[4], tail, state, im[3]);
    SelectFrom(tail, state, im[3], 0);
    assert tail[0..] == tail && tail[1..] == [];
    SpecHoverOff(state);
    SpecHoverOn(state);
    SpecUnselected(state);
  }

  // ---------------------------------------------------------------------------
  // Switches (the `round-toggle` look of a checkbutton)
  // ---------------------------------------------------------------------------

  /** The eight faces, in the order they are drawn: off, off under the
      mouse, off pressed (track rim, track, knob rim, knob), on, on under
      the mouse, on pressed, off disabled, on disabled. */
  function SwitchImages(scheme: Scheme, sh: Shades, lt: Shades, n: nat): seq<Image>
  {
    var appBg := scheme.background;
    var disabled := Disabled(scheme.mode, lt);
    var outline := lt.d3;
    var hoverOn := SwitchHover(scheme.mode, sh);
    var pressedOn := SwitchPressed(scheme.mode, sh);
    [PhotoImage(n, [outline, appBg, appBg, outline]),
     PhotoImage(n + 1, [outline, appBg, appBg, outline]),
     PhotoImage(n + 2, [outline, appBg, appBg, outline]),
     PhotoImage(n + 3, [sh.d2, sh.base, sh.base, appBg]),
     PhotoImage(n + 4, [sh.d2, hoverOn, hoverOn, appBg]),
     PhotoImage(n + 5, [pressedOn, pressedOn, appBg]),
     PhotoImage(n + 6, [disabled, appBg, appBg, disabled]),
     PhotoImage(n + 7, [outline, disabled, disabled, appBg])]
  }

  /** The indicator's state entries, first match wins. */
  function SwitchSpec(im: seq<Image>): seq<(string, Image)>
    requires |im| == 8
  {
    [("disabled !selected", im[6]), ("disabled selected", im[7]), ("!selected pressed", im[2]),
     ("!selected hover", im[1]), ("!selected", im[0]), ("selected pressed", im[5]), ("selected hover", im[4])]
  }

  /** The order in which `register_assets` receives the faces. */
  function SwitchKept(im: seq<Image>): seq<Image>
    requires |im| == 8
  {
    [im[3], im[6], im[7], im[2], im[1], im[0], im[5], im[4]]
  }

  /** Every face drawn is kept alive. */
  lemma SwitchKeepsAll(im: seq<Image>)
    requires |im| == 8
    ensures (set i | i in SwitchKept(im)) == set i | i in im
  {
    var kept := SwitchKept(im);
    forall i | i in im
      ensures i in kept
    {
      var k :| 0 <= k < 8 && im[k] == i;
      assert k in {0, 1, 2, 3, 4, 5, 6, 7};
    }
  }

  function SwitchCalls(ttkstyle: string, scheme: Scheme, sh: Shades, lt: Shades, n: nat): seq<NativeCall>
  {
    var im := SwitchImages(scheme, sh, lt, n);
    [ElementCreate(ttkstyle + ".indicator", im[3], SwitchSpec(im),
                   map["width" := Int(60), "height" := Int(30), "padding" := Str("0 0 75 0"), "sticky" := Str("")]),
     Layout(ttkstyle, [WithChildren(LayoutSpec("Toolbutton.border", map["sticky" := Str(NSEW)]),
                                    [WithChildren(LayoutSpec("Toolbutton.padding", map["sticky" := Str(NSEW)]),
                                                  [LayoutSpec(ttkstyle + ".indicator", map["side" := Str(LEFT)]),
                                                   LayoutSpec("Toolbutton.label", map["side" := Str(RIGHT), "expand" := Flag(true)])])])]),
     Configure(ttkstyle, map["relief" := Str(FLAT), "borderwidth" := Int(0), "foreground" := Str(scheme.foreground),
                             "background" := Str(scheme.background)]),
     StateMap(ttkstyle, "foreground", [("disabled", Str(Disabled(scheme.mode, lt)))])]
  }

  /** `create_switch_style`. */
  method CreateSwitchStyle(engine: ThemeEngine, native: NativeStyle, options: StyleRequest, parse: ColorParser) returns (r: Result<()>)
    modifies engine, native
    ensures options.scheme.None? ==> r == Err(KeyError("scheme")) && engine.styles == old(engine.styles) &&
                                     engine.assets == old(engine.assets) && native.log == old(native.log) &&
                                     native.imageCount == old(native.imageCount)
    ensures options.scheme.Some? ==> engine.styles == AddTo(old(engine.styles), options.scheme.value, {options.ttkstyle})
    ensures options.scheme.Some? ==>
              var scheme := options.scheme.value;
              var shades := ShadesOf(scheme, ColorOrDefault(options.color, PRIMARY), parse);
              var lt := ShadesOf(scheme, LIGHT, parse).value;
              var n := old(native.imageCount);
              (shades.Err? ==> r == Err(shades.error) && native.log == old(native.log) &&
                               engine.assets == old(engine.assets) && native.imageCount == n) &&
              (shades.Ok? ==> r == Ok(()) &&
                              native.log == old(native.log) + SwitchCalls(options.ttkstyle, scheme, shades.value, lt, n) &&
                              engine.assets == AddTo(old(engine.assets), scheme.name, set i | i in SwitchKept(SwitchImages(scheme, shades.value, lt, n))) &&
                              native.imageCount == n + 8)
    ensures engine.handlers == old(engine.handlers) && engine.handlerOrder == old(engine.handlerOrder)
    ensures native.themes == old(native.themes) && native.current == old(native.current)
  {
    if options.scheme.None? {
      return Err(KeyError("scheme"));
    }
    var scheme := options.scheme.value;
    engine.StyleRegister(options.ttkstyle, scheme);
    var shades := GetShades(scheme, ColorOrDefault(options.color, PRIMARY), parse);
    if shades.Err? {
      return Err(shades.error);
    }
    var lt := GetShades(scheme, LIGHT, parse);
    assert LIGHT in COLOR_KEYS;
    SwitchAssets(engine, native, options.ttkstyle, scheme, shades.value, lt.value);
    r := Ok(());
  }

  /** Draw the eight faces, in order. */
  method DrawSwitch(native: NativeStyle, scheme: Scheme, sh: Shades, lt: Shades) returns (im: seq<Image>)
    modifies native
    ensures im == SwitchImages(scheme, sh, lt, old(native.imageCount))
    ensures native.imageCount == old(native.imageCount) + 8
    ensures native.log == old(native.log) && native.themes == old(native.themes) && native.current == old(native.current)
  {
    var background := sh.base;
    var appBg := scheme.background;
    var disabled := Disabled(scheme.mode, lt);
    var outline := lt.d3;
    var hoverOn := SwitchHover(scheme.mode, sh);
    var pressedOn := SwitchPressed(scheme.mode, sh);
    var imgOff := native.NewImage([outline, appBg, appBg, outline]);
    var imgOffHover := native.NewImage([outline, appBg, appBg, outline]);
    var imgOffPressed := native.NewImage([outline, appBg, appBg, outline]);
    var imgOn := native.NewImage([sh.d2, background, background, appBg]);
    var imgOnHover := native.NewImage([sh.d2, hoverOn, hoverOn, appBg]);
    var imgOnPressed := native.NewImage([pressedOn, pressedOn, appBg]);
    var imgOffDis := native.NewImage([disabled, appBg, appBg, disabled]);
    var imgOnDis := native.NewImage([outline, disabled, disabled, appBg]);
    im := [imgOff, imgOffHover, imgOffPressed, imgOn, imgOnHover, imgOnPressed, imgOffDis, imgOnDis];
  }

  method SwitchAssets(engine: ThemeEngine, native: NativeStyle, ttkstyle: string, scheme: Scheme, sh: Shades, lt: Shades)
    modifies engine, native
    ensures native.log == old(native.log) + SwitchCalls(ttkstyle, scheme, sh, lt, old(native.imageCount))
    ensures engine.assets == AddTo(old(engine.assets), scheme.name, set i | i in SwitchKept(SwitchImages(scheme, sh, lt, old(native.imageCount))))
    ensures native.imageCount == old(native.imageCount) + 8
    ensures engine.styles == old(engine.styles) && engine.handlers == old(engine.handlers) && engine.handlerOrder == old(engine.handlerOrder)
    ensures native.themes == old(native.themes) && native.current == old(native.current)
  {
    var n := native.imageCount;
    ghost var log0 := native.log;
    var im := DrawSwitch(native, scheme, sh, lt);
    var calls := SwitchCalls(ttkstyle, scheme, sh, lt, n);
    CreateImageElement(native, ttkstyle + ".indicator", im[3],
                       [("disabled !selected", im[6]), ("disabled selected", im[7]), ("!selected pressed", im[2]),
                        ("!selected hover", im[1]), ("!selected", im[0]), ("selected pressed", im[5]), ("selected hover", im[4])],
                       map["width" := Int(60), "height" := Int(30), "padding" := Str("0 0 75 0"), "sticky" := Str("")]);
    assert native.log == log0 + calls[..1];
    engine.RegisterAssets(scheme.name, [im[3], im[6], im[7], im[2], im[1], im[0], im[5], im[4]]);
    LayoutSwitch(native, ttkstyle, LayoutSpec("Toolbutton.border", map["sticky" := Str(NSEW)]),
                 LayoutSpec("Toolbutton.padding", map["sticky" := Str(NSEW)]),
                 LayoutSpec(ttkstyle + ".indicator", map["side" := Str(LEFT)]),
                 LayoutSpec("Toolbutton.label", map["side" := Str(RIGHT), "expand" := Flag(true)]));
    assert native.log == log0 + calls[..2];
    native.Submit(Configure(ttkstyle, map["relief" := Str(FLAT), "borderwidth" := Int(0), "foreground" := Str(scheme.foreground),
                                          "background" := Str(scheme.background)]));
    native.Submit(StateMap(ttkstyle, "foreground", [("disabled", Str(Disabled(scheme.mode, lt)))]));
    assert native.log == log0 + calls;
  }

  /** The switch in every state: disabled wins and shows the position;
      otherwise the position decides first and then pressing wins over
      hovering. */
  lemma SwitchIndicator(im: seq<Image>, state: set<string>)
    requires |im| == 8
    ensures Select(SwitchSpec(im), state, im[3]) ==
              if "disabled" in state then (if "selected" in state then im[7] else im[6])
              else if "selected" !in state then
                (if "pressed" in state then im[2] else if "hover" in state then im[1] else im[0])
              else if "pressed" in state then im[5]
              else if "hover" in state then im[4]
              else im[3]
  {
    var spec := SwitchSpec(im);
    SpecDisabledUnselected(state);
    SpecDisabledSelected(state);
    SelectFrom(spec, state, im[3], 0);
    SelectFrom(spec, state, im[3], 1);
    assert spec[0..] == spec;
    if "disabled" !in state {
      if "selected" in state {
        SwitchOn(im, state);
      } else {
        SwitchOff(im, state);
      }
    }
  }

  /** An enabled switch that is off: pressing, then hovering, decides. */
  lemma SwitchOff(im: seq<Image>, state: set<string>)
    requires |im| == 8 && "selected" !in state
    ensures Select(SwitchSpec(im)[2..], state, im[3]) ==
              if "pressed" in state then im[2] else if "hover" in state then im[1] else im[0]
  {
    var spec := SwitchSpec(im);
    SpecUnselectedPressed(state);
    SpecUnselectedHover(state);
    SpecUnselected(state);
    SelectFrom(spec, state, im[3], 2);
    SelectFrom(spec, state, im[3], 3);
    SelectFrom(spec, state, im[3], 4);
  }

  /** An enabled switch that is on: the entries for an off switch are
      skipped, then pressing, then hovering, decides. */
  lemma SwitchOn(im: seq<Image>, state: set<string>)
    requires |im| == 8 && "selected" in state
    ensures Select(SwitchSpec(im)[2..], state, im[3]) ==
              if "pressed" in state then im[5] else if "hover" in state then im[4] else im[3]
  {
    var spec := SwitchSpec(im);
    SpecUnselectedPressed(state);
    SpecUnselectedHover(state);
    SpecUnselected(state);
    SelectFrom(spec, state, im[3], 2);
    SelectFrom(spec, state, im[3], 3);
    SelectFrom(spec, state, im[3], 4);
    SwitchOnRest(im, state);
  }

  lemma SwitchOnRest(im: seq<Image>, state: set<string>)
    requires |im| == 8 && "selected" in state
    ensures Select(SwitchSpec(im)[5..], state, im[3]) ==
              if "pressed" in state then im[5] else if "hover" in state then im[4] else im[3]
  {
    var spec := SwitchSpec(im);
    assert spec[5..] == [("selected pressed", im[5]), ("selected hover", im[4])];
    Select2("selected pressed", im[5], "selected hover", im[4], state, im[3]);
    SpecSelectedPressed(state);
    SpecSelectedHover(state);
  }

  // ---------------------------------------------------------------------------
  // Scrollbars
  // ---------------------------------------------------------------------------

  /** `str(options['orient']) or VERTICAL` */
  function ScrollbarOrient(orient: string): (o: string)
    ensures orient != "" ==> o == orient
    ensures orient == "" ==> o == VERTICAL
  {
    if orient == "" then VERTICAL else orient
  }

  /** The thumb, filled with `d3` of the colour, and the empty trough. */
  function ScrollbarImages(sh: Shades, n: nat): seq<Image>
  {
    [PhotoImage(n, [sh.d3]), PhotoImage(n + 1, [])]
  }

  function ScrollbarKept(im: seq<Image>): seq<Image>
    requires |im| == 2
  {
    [im[1], im[0]]
  }

  /** Both images are kept alive. */
  lemma ScrollbarKeepsAll(im: seq<Image>)
    requires |im| == 2
    ensures (set i | i in ScrollbarKept(im)) == set i | i in im
  {
    assert im == [im[0], im[1]];
  }

  /** A horizontal scrollbar gets elements stretched east-west with padding;
      every other orientation gets elements stretched north-south. */
  function ScrollbarCalls(ttkstyle: string, orient: string, sh: Shades, n: nat): seq<NativeCall>
  {
    var im := ScrollbarImages(sh, n);
    var e := Replace(ttkstyle, ".TS", ".S");
    if orient == HORIZONTAL then
      [ElementCreate(e + ".trough", im[1], [], map["sticky" := Str(EW), "border" := Str("8 0"), "padding" := Int(6)]),
       ElementCreate(e + ".thumb", im[0], [], map["sticky" := Str(EW), "border" := Str("10 0"), "padding" := Int(12)]),
       Layout(ttkstyle, [WithChildren(LayoutSpec(e + ".trough", map["sticky" := Str(EW)]),
                                      [LayoutSpec(e + ".thumb", map["sticky" := Str(NSEW)])])])]
    else
      [ElementCreate(e + ".trough", im[1], [], map["sticky" := Str(NS), "border" := Str("0 8")]),
       ElementCreate(e + ".thumb", im[0], [], map["sticky" := Str(NS), "border" := Str("0 10")]),
       Layout(ttkstyle, [WithChildren(LayoutSpec(e + ".trough", map["sticky" := Str(NS)]),
                                      [LayoutSpec(e + ".thumb", map["sticky" := Str(NSEW)])])])]
  }

  /** `create_scrollbar_style`: the scheme, then the orientation, must be in
      the request; the colour defaults to `light`. */
  method CreateScrollbarStyle(engine: ThemeEngine, native: NativeStyle, options: StyleRequest, parse: ColorParser) returns (r: Result<()>)
    modifies engine, native
    ensures options.scheme.None? ==> r == Err(KeyError("scheme"))
    ensures options.scheme.Some? && options.orient.None? ==> r == Err(KeyError("orient"))
    ensures options.scheme.None? || options.orient.None? ==>
              engine.styles == old(engine.styles) && engine.assets == old(engine.assets) &&
              native.log == old(native.log) && native.imageCount == old(native.imageCount)
    ensures options.scheme.Some? && options.orient.Some? ==>
              var scheme := options.scheme.value;
              var shades := ShadesOf(scheme, ColorOrDefault(options.color, LIGHT), parse);
              var n := old(native.imageCount);
              engine.styles == AddTo(old(engine.styles), scheme, {options.ttkstyle}) &&
              (shades.Err? ==> r == Err(shades.error) && native.log == old(native.log) &&
                               engine.assets == old(engine.assets) && native.imageCount == n) &&
              (shades.Ok? ==> r == Ok(()) &&
                              native.log == old(native.log) +
                                ScrollbarCalls(options.ttkstyle, ScrollbarOrient(options.orient.value), shades.value, n) &&
                              engine.assets == AddTo(old(engine.assets), scheme.name, set i | i in ScrollbarKept(ScrollbarImages(shades.value, n))) &&
                              native.imageCount == n + 2)
    ensures engine.handlers == old(engine.handlers) && engine.handlerOrder == old(engine.handlerOrder)
    ensures native.themes == old(native.themes) && native.current == old(native.current)
  {
    if options.scheme.None? {
      return Err(KeyError("scheme"));
    }
    var scheme := options.scheme.value;
    if options.orient.None? {
      return Err(KeyError("orient"));
    }
    var orient := ScrollbarOrient(options.orient.value);
    var ttkstyle := options.ttkstyle;
    engine.StyleRegister(ttkstyle, scheme);
    var shades := GetShades(scheme, ColorOrDefault(options.color, LIGHT), parse);
    if shades.Err? {
      return Err(shades.error);
    }
    ScrollbarAssets(engine, native, ttkstyle, scheme.name, orient, shades.value);
    r := Ok(());
  }

  method ScrollbarAssets(engine: ThemeEngine, native: NativeStyle, ttkstyle: string, schemeName: string, orient: string, sh: Shades)
    modifies engine, native
    ensures native.log == old(native.log) + ScrollbarCalls(ttkstyle, orient, sh, old(native.imageCount))
    ensures engine.assets == AddTo(old(engine.assets), schemeName, set i | i in ScrollbarKept(ScrollbarImages(sh, old(native.imageCount))))
    ensures native.imageCount == old(native.imageCount) + 2
    ensures engine.styles == old(engine.styles) && engine.handlers == old(engine.handlers) && engine.handlerOrder == old(engine.handlerOrder)
    ensures native.themes == old(native.themes) && native.current == old(native.current)
  {
    var n := native.imageCount;
    ghost var log0 := native.log;
    var imgThumb := native.NewImage([sh.d3]);
    var imgTrough := native.NewImage([]);
    engine.RegisterAssets(schemeName, [imgTrough, imgThumb]);
    var calls := ScrollbarCalls(ttkstyle, orient, sh, n);
    var e := Replace(ttkstyle, ".TS", ".S");
    if orient == HORIZONTAL {
      CreateImageElement(native, e + ".trough", imgTrough, [], map["sticky" := Str(EW), "border" := Str("8 0"), "padding" := Int(6)]);
      CreateImageElement(native, e + ".thumb", imgThumb, [], map["sticky" := Str(EW), "border" := Str("10 0"), "padding" := Int(12)]);
      LayoutPair(native, ttkstyle, LayoutSpec(e + ".trough", map["sticky" := Str(EW)]), LayoutSpec(e + ".thumb", map["sticky" := Str(NSEW)]));
    } else {
      native.Submit(ElementCreate(e + ".trough", imgTrough, [], map["sticky" := Str(NS), "border" := Str("0 8")]));
      native.Submit(ElementCreate(e + ".thumb", imgThumb, [], map["sticky" := Str(NS), "border" := Str("0 10")]));
      LayoutPair(native, ttkstyle, LayoutSpec(e + ".trough", map["sticky" := Str(NS)]), LayoutSpec(e + ".thumb", map["sticky" := Str(NSEW)]));
    }
    assert native.log == log0 + calls;
  }

  /** Whatever the orientation, the layout names exactly the two elements
      just created, the thumb inside the trough; both stretch along the
      scrollbar, and neither changes with the widget state. */
  lemma ScrollbarElements(ttkstyle: string, orient: string, sh: Shades, n: nat, state: set<string>)
    ensures var calls := ScrollbarCalls(ttkstyle, orient, sh, n);
            var im := ScrollbarImages(sh, n);
            var along := Str(if orient == HORIZONTAL then EW else NS);
            calls[0].ElementCreate? && calls[1].ElementCreate? && calls[2].Layout? &&
            |calls[2].spec| == 1 && calls[2].spec[0].name == calls[0].element &&
            calls[2].spec[0].opts["children"] == Specs([LayoutSpec(calls[1].element, map["sticky" := Str(NSEW)])]) &&
            calls[0].opts["sticky"] == along && calls[1].opts["sticky"] == along &&
            Select(calls[0].imageSpec, state, calls[0].image) == im[1] &&
            Select(calls[1].imageSpec, state, calls[1].image) == im[0]
  {
  }

  // ---------------------------------------------------------------------------
  // Spinboxes
  // ---------------------------------------------------------------------------

  /** The ten images, in the order they are drawn: the field (rim and
      underline), the field under the mouse, the field with focus (rim and
      a focus underline), the disabled field, then the down and up chevrons
      normal, pressed (drawn bolder) and disabled.  The focus underline is
      the primary colour for a `light` spinbox and the spinbox's own colour
      otherwise. */
  function SpinboxImages(scheme: Scheme, color: string, sh: Shades, lt: Shades, bg: Shades, n: nat): seq<Image>
  {
    var disabled := Disabled(scheme.mode, lt);
    var rim := sh.d2;
    var fg := scheme.foreground;
    var focus := if color == LIGHT then scheme.primary else sh.base;
    [PhotoImage(n, [rim, sh.d3]),
     PhotoImage(n + 1, [rim, HoverOff(scheme.mode, lt, bg), sh.d3]),
     PhotoImage(n + 2, [rim, focus]),
     PhotoImage(n + 3, [disabled]),
     PhotoImage(n + 4, [fg]), PhotoImage(n + 5, [fg]),
     PhotoImage(n + 6, [fg]), PhotoImage(n + 7, [fg]),
     PhotoImage(n + 8, [disabled]), PhotoImage(n + 9, [disabled])]
  }

  function SpinboxFieldSpec(im: seq<Image>): seq<(string, Image)>
    requires |im| == 10
  {
    [("disabled", im[3]), ("focus !readonly", im[2]), ("hover !disabled", im[1])]
  }

  function ArrowSpec(disabled: Image, pressed: Image): seq<(string, Image)>
  {
    [("disabled", disabled), ("pressed !disabled", pressed)]
  }

  function SpinboxKept(im: seq<Image>): seq<Image>
    requires |im| == 10
  {
    [im[4], im[5], im[6], im[7], im[8], im[9], im[0], im[1], im[2], im[3]]
  }

  /** Every image drawn is kept alive. */
  lemma SpinboxKeepsAll(im: seq<Image>)
    requires |im| == 10
    ensures (set i | i in SpinboxKept(im)) == set i | i in im
  {
    var kept := SpinboxKept(im);
    forall i | i in im
      ensures i in kept
    {
      var k :| 0 <= k < 10 && im[k] == i;
      assert k in {0, 1, 2, 3, 4, 5, 6, 7, 8, 9};
    }
  }

  const ARROW_OPTS: map<string, Value> := map["sticky" := Str(""), "padding" := Str("16 4")]

  function SpinboxCalls(ttkstyle: string, scheme: Scheme, color: string, sh: Shades, lt: Shades, bg: Shades, n: nat): seq<NativeCall>
  {
    var im := SpinboxImages(scheme, color, sh, lt, bg, n);
    var fg := scheme.foreground;
    [ElementCreate(ttkstyle + ".field", im[0], SpinboxFieldSpec(im), BUTTON_ELEMENT_OPTS),
     ElementCreate(ttkstyle + ".uparrow", im[5], ArrowSpec(im[9], im[7]), ARROW_OPTS),
     ElementCreate(ttkstyle + ".downarrow", im[4], ArrowSpec(im[8], im[6]), ARROW_OPTS)] +
    SpinboxStyleCalls(ttkstyle, scheme, lt, bg)
  }

  /** The calls after the elements: the layout, the options and the maps. */
  function SpinboxStyleCalls(ttkstyle: string, scheme: Scheme, lt: Shades, bg: Shades): seq<NativeCall>
  {
    var fg := scheme.foreground;
    [Layout(ttkstyle, [WithChildren(LayoutSpec(ttkstyle + ".field", map["expand" := Flag(true)]),
                                    [LayoutSpec(ttkstyle + ".downarrow", map["side" := Str(RIGHT), "sticky" := Str(NS)]),
                                     LayoutSpec(ttkstyle + ".uparrow", map["side" := Str(RIGHT), "sticky" := Str(NS)]),
                                     LayoutSpec("Spinbox.textarea", map[])])]),
     Configure(ttkstyle, map["foreground" := Str(fg), "insertcolor" := Str(fg), "selectbackground" := Str(bg.base),
                             "selectforeground" := Str(fg), "padding" := Str("8 4")]),
     StateMap(ttkstyle, "foreground", [("disabled", Str(Disabled(scheme.mode, lt)))]),
     StateMap(ttkstyle, "selectbackground", [("hover !disabled", Str(HoverOff(scheme.mode, lt, bg)))])]
  }

  /** The end of `create_spinbox_style`, once its elements exist. */
  method SpinboxStyle(native: NativeStyle, ttkstyle: string, scheme: Scheme, lt: Shades, bg: Shades)
    modifies native
    ensures native.log == old(native.log) + SpinboxStyleCalls(ttkstyle, scheme, lt, bg)
    ensures native.imageCount == old(native.imageCount)
    ensures native.themes == old(native.themes) && native.current == old(native.current)
  {
    ghost var log0 := native.log;
    var calls := SpinboxStyleCalls(ttkstyle, scheme, lt, bg);
    LayoutSpinbox(native, ttkstyle, LayoutSpec(ttkstyle + ".field", map["expand" := Flag(true)]),
                  LayoutSpec(ttkstyle + ".downarrow", map["side" := Str(RIGHT), "sticky" := Str(NS)]),
                  LayoutSpec(ttkstyle + ".uparrow", map["side" := Str(RIGHT), "sticky" := Str(NS)]),
                  LayoutSpec("Spinbox.padding", map[]), LayoutSpec("Spinbox.textarea", map[]));
    assert native.log == log0 + calls[..1];
    var foreground := scheme.foreground;
    native.Submit(Configure(ttkstyle, map["foreground" := Str(foreground), "insertcolor" := Str(foreground),
                                          "selectbackground" := Str(bg.base), "selectforeground" := Str(foreground),
                                          "padding" := Str("8 4")]));
    native.Submit(StateMap(ttkstyle, "foreground", [("disabled", Str(Disabled(scheme.mode, lt)))]));
    native.Submit(StateMap(ttkstyle, "selectbackground", [("hover !disabled", Str(HoverOff(scheme.mode, lt, bg)))]));
    assert native.log == log0 + calls;
  }

  /** `create_spinbox_style`: the colour defaults to `light`. */
  method CreateSpinboxStyle(engine: ThemeEngine, native: NativeStyle, options: StyleRequest, parse: ColorParser) returns (r: Result<()>)
    modifies engine, native
    ensures options.scheme.None? ==> r == Err(KeyError("scheme")) && engine.styles == old(engine.styles) &&
                                     engine.assets == old(engine.assets) && native.log == old(native.log) &&
                                     native.imageCount == old(native.imageCount)
    ensures options.scheme.Some? ==> engine.styles == AddTo(old(engine.styles), options.scheme.value, {options.ttkstyle})
    ensures options.scheme.Some? ==>
              var scheme := options.scheme.value;
              var color := ColorOrDefault(options.color, LIGHT);
              var shades := ShadesOf(scheme, color, parse);
              var lt := ShadesOf(scheme, LIGHT, parse).value;
              var bg := ShadesOf(scheme, "background", parse).value;
              var n := old(native.imageCount);
              (shades.Err? ==> r == Err(shades.error) && native.log == old(native.log) &&
                               engine.assets == old(engine.assets) && native.imageCount == n) &&
              (shades.Ok? ==> r == Ok(()) &&
                              native.log == old(native.log) + SpinboxCalls(options.ttkstyle, scheme, color, shades.value, lt, bg, n) &&
                              engine.assets == AddTo(old(engine.assets), scheme.name, set i | i in SpinboxKept(SpinboxImages(scheme, color, shades.value, lt, bg, n))) &&
                              native.imageCount == n + 10)
    ensures engine.handlers == old(engine.handlers) && engine.handlerOrder == old(engine.handlerOrder)
    ensures native.themes == old(native.themes) && native.current == old(native.current)
  {
    if options.scheme.None? {
      return Err(KeyError("scheme"));
    }
    var scheme := options.scheme.value;
    var color := ColorOrDefault(options.color, LIGHT);
    engine.StyleRegister(options.ttkstyle, scheme);
    var shades := GetShades(scheme, color, parse);
    if shades.Err? {
      return Err(shades.error);
    }
    var bg := GetShades(scheme, "background", parse);
    var lt := GetShades(scheme, LIGHT, parse);
    assert LIGHT in COLOR_KEYS && "background" in COLOR_KEYS;
    SpinboxAssets(engine, native, options.ttkstyle, scheme, color, shades.value, lt.value, bg.value);
    r := Ok(());
  }

  /** Draw the four field images, in order. */
  method DrawField(native: NativeStyle, scheme: Scheme, color: string, sh: Shades, lt: Shades, bg: Shades) returns (im: seq<Image>)
    modifies native
    ensures im == SpinboxImages(scheme, color, sh, lt, bg, old(native.imageCount))[..4]
    ensures native.imageCount == old(native.imageCount) + 4
    ensures native.log == old(native.log) && native.themes == old(native.themes) && native.current == old(native.current)
  {
    var background := sh.d2;
    var focusColor := if color == LIGHT then scheme.primary else sh.base;
    var imgField := native.NewImage([background, sh.d3]);
    var imgHover := native.NewImage([background, HoverOff(scheme.mode, lt, bg), sh.d3]);
    var imgFocus := native.NewImage([background, focusColor]);
    var imgDisabled := native.NewImage([Disabled(scheme.mode, lt)]);
    im := [imgField, imgHover, imgFocus, imgDisabled];
  }

  /** Draw the six chevrons, in order. */
  method DrawChevrons(native: NativeStyle, scheme: Scheme, color: string, sh: Shades, lt: Shades, bg: Shades) returns (im: seq<Image>)
    modifies native
    ensures im == SpinboxImages(scheme, color, sh, lt, bg, old(native.imageCount) - 4)[4..]
    requires native.imageCount >= 4
    ensures native.imageCount == old(native.imageCount) + 6
    ensures native.log == old(native.log) && native.themes == old(native.themes) && native.current == old(native.current)
  {
    var foreground := scheme.foreground;
    var disabled := Disabled(scheme.mode, lt);
    var imgChevDw := native.NewImage([foreground]);
    var imgChevUp := native.NewImage([foreground]);
    var imgChevDwp := native.NewImage([foreground]);
    var imgChevUpp := native.NewImage([foreground]);
    var imgChevDwDis := native.NewImage([disabled]);
    var imgChevUpDis := native.NewImage([disabled]);
    im := [imgChevDw, imgChevUp, imgChevDwp, imgChevUpp, imgChevDwDis, imgChevUpDis];
  }

  method SpinboxAssets(engine: ThemeEngine, native: NativeStyle, ttkstyle: string, scheme: Scheme, color: string, sh: Shades, lt: Shades, bg: Shades)
    modifies engine, native
    ensures native.log == old(native.log) + SpinboxCalls(ttkstyle, scheme, color, sh, lt, bg, old(native.imageCount))
    ensures engine.assets == AddTo(old(engine.assets), scheme.name, set i | i in SpinboxKept(SpinboxImages(scheme, color, sh, lt, bg, old(native.imageCount))))
    ensures native.imageCount == old(native.imageCount) + 10
    ensures engine.styles == old(engine.styles) && engine.handlers == old(engine.handlers) && engine.handlerOrder == old(engine.handlerOrder)
    ensures native.themes == old(native.themes) && native.current == old(native.current)
  {
    var n := native.imageCount;
    ghost var log0 := native.log;
    var all := SpinboxImages(scheme, color, sh, lt, bg, n);
    var calls := SpinboxCalls(ttkstyle, scheme, color, sh, lt, bg, n);
    var field := DrawField(native, scheme, color, sh, lt, bg);
    CreateImageElement(native, ttkstyle + ".field", field[0],
                       [("disabled", field[3]), ("focus !readonly", field[2]), ("hover !disabled", field[1])], BUTTON_ELEMENT_OPTS);
    assert native.log == log0 + calls[..1];
    var chev := DrawChevrons(native, scheme, color, sh, lt, bg);
    var im := field + chev;
    assert im == all;
    engine.RegisterAssets(scheme.name, chev + field);
    assert chev + field == SpinboxKept(im);
    CreateImageElement(native, ttkstyle + ".uparrow", chev[1], [("disabled", chev[5]), ("pressed !disabled", chev[3])], ARROW_OPTS);
    CreateImageElement(native, ttkstyle + ".downarrow", chev[0], [("disabled", chev[4]), ("pressed !disabled", chev[2])], ARROW_OPTS);
    assert native.log == log0 + calls[..3];
    SpinboxStyle(native, ttkstyle, scheme, lt, bg);
    assert calls == calls[..3] + SpinboxStyleCalls(ttkstyle, scheme, lt, bg);
  }

  /** The spinbox field in every state: disabled wins, then keyboard focus
      (unless read-only), then the mouse. */
  lemma SpinboxField(im: seq<Image>, state: set<string>)
    requires |im| == 10
    ensures Select(SpinboxFieldSpec(im), state, im[0]) ==
              if "disabled" in state then im[3]
              else if "focus" in state && "readonly" !in state then im[2]
              else if "hover" in state then im[1]
              else im[0]
  {
    var spec := SpinboxFieldSpec(im);
    SpecDisabled(state);
    SpecFocusWritable(state);
    SpecHoverEnabled(state);
    SelectFrom(spec, state, im[0], 0);
    SelectFrom(spec, state, im[0], 1);
    SelectFrom(spec, state, im[0], 2);
    assert spec[0..] == spec && spec[3..] == [];
  }

  /** Each chevron: disabled wins over pressed, pressed over the normal
      face. */
  lemma ArrowFace(normal: Image, disabled: Image, pressed: Image, state: set<string>)
    ensures Select(ArrowSpec(disabled, pressed), state, normal) ==
              if "disabled" in state then disabled else if "pressed" in state then pressed else normal
  {
    var spec := ArrowSpec(disabled, pressed);
    SpecDisabled(state);
    SpecPressedEnabled(state);
    SelectFrom(spec, state, normal, 0);
    SelectFrom(spec, state, normal, 1);
    assert spec[0..] == spec && spec[2..] == [];
  }
}
