/** The Tk side of styling, reduced to what the style layer can observe:
    the themes the interpreter knows, the one in use, the images created so
    far, and the ordered log of style and widget calls made.  Nothing here
    draws; an image is a token that remembers the colours painted into it. */
module Native {
  import opened Base

  /** Widgets are identified by their path in the widget tree. */
  type WidgetId = nat

  /** A keyword-argument value handed to Tk. */
  datatype Value =
    | Str(s: string)
    | Int(i: int)
    | Flag(b: bool)
      // `scale_size(*args)`: the DPI scaling is not part of this model, so the
      // value is kept as the unscaled arguments
    | Scaled(args: seq<int>)
    | Specs(specs: seq<LayoutSpec>)
      // Python's `None`, passed on as given
    | Nothing

  /** One `(name, options)` entry of a ttk layout. */
  datatype LayoutSpec = LayoutSpec(name: string, opts: map<string, Value>)

  /** A photo image: its creation serial (which makes every image distinct)
      and the colours painted into it, outline before fill, shape by shape. */
  datatype Image = PhotoImage(serial: nat, ink: seq<string>)

  /** One call into Tk. */
  datatype NativeCall =
    | ElementCreate(element: string, image: Image, imageSpec: seq<(string, Image)>, opts: map<string, Value>)
    | Layout(style: string, spec: seq<LayoutSpec>)
    | Configure(style: string, opts: map<string, Value>)
    | StateMap(style: string, option: string, stateSpec: seq<(string, Value)>)
    | ThemeCreate(theme: string, parent: string)
    | ThemeUse(theme: string)
    | WidgetConfigure(widget: WidgetId, opts: map<string, Value>)

  class NativeStyle {
    /** the themes the interpreter knows */
    var themes: set<string>
    /** the theme in use */
    var current: string
    /** every style and widget call made, in order */
    var log: seq<NativeCall>
    /** the number of images created so far */
    var imageCount: nat

    ghost predicate Valid()
      reads this
    {
      current in themes
    }

    /** A fresh interpreter with its built-in themes, one of them in use. */
    constructor (builtin: set<string>, initial: string)
      requires initial in builtin
      ensures Valid()
      ensures themes == builtin && current == initial && log == [] && imageCount == 0
    {
      themes := builtin;
      current := initial;
      log := [];
      imageCount := 0;
    }

    /** `theme_names()` */
    function ThemeNames(): (r: set<string>)
      reads this
      ensures r == themes
    {
      themes
    }

    /** `theme_use()` without an argument. */
    function CurrentTheme(): (r: string)
      reads this
      requires Valid()
      ensures r in themes
    {
      current
    }

    /** Create a new image whose pixels are the given colours. */
    method NewImage(ink: seq<string>) returns (img: Image)
      modifies this
      ensures img == PhotoImage(old(imageCount), ink)
      ensures imageCount == old(imageCount) + 1
      ensures themes == old(themes) && current == old(current) && log == old(log)
    {
      img := PhotoImage(imageCount, ink);
      imageCount := imageCount + 1;
    }

    /** Record one style or widget call. */
    method Submit(call: NativeCall)
      requires !call.ThemeCreate? && !call.ThemeUse?
      modifies this
      ensures log == old(log) + [call]
      ensures themes == old(themes) && current == old(current) && imageCount == old(imageCount)
    {
      log := log + [call];
    }

    /** `theme_create(name, parent)`: refused for a name already taken and
        for a parent the interpreter does not know. */
    method CreateTheme(name: string, parent: string) returns (r: Result<()>)
      modifies this
      ensures r.Ok? <==> name !in old(themes) && parent in old(themes)
      ensures r.Ok? ==> themes == old(themes) + {name} && log == old(log) + [ThemeCreate(name, parent)]
      ensures name in old(themes) ==> r == Err(TclError("Theme " + name + " already exists"))
      ensures name !in old(themes) && parent !in old(themes) ==> r == Err(TclError("Theme " + parent + " doesn't exist"))
      ensures r.Err? ==> themes == old(themes) && log == old(log)
      ensures current == old(current) && imageCount == old(imageCount)
    {
      if name in themes {
        return Err(TclError("Theme " + name + " already exists"));
      }
      if parent !in themes {
        return Err(TclError("Theme " + parent + " doesn't exist"));
      }
      themes := themes + {name};
      log := log + [ThemeCreate(name, parent)];
      r := Ok(());
    }

    /** `theme_use(name)`: refused for a theme the interpreter does not know. */
    method UseTheme(name: string) returns (r: Result<()>)
      requires Valid()
      modifies this
      ensures Valid()
      ensures r.Ok? <==> name in old(themes)
      ensures r.Ok? ==> current == name && log == old(log) + [ThemeUse(name)]
      ensures r.Err? ==> current == old(current) && log == old(log) && r.error.TclError?
      ensures themes == old(themes) && imageCount == old(imageCount)
    {
      if name !in themes {
        return Err(TclError("can't find theme " + name));
      }
      current := name;
      log := log + [ThemeUse(name)];
      r := Ok(());
    }
  }
}
