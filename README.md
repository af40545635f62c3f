# ttkbootstrap style resolution, modelled in Dafny

This project models how ttkbootstrap decides which ttk style a widget gets.
It covers how widgets parse their `bootstyle` keyword into a style request,
how the `Style` registry resolves theme names and routes style requests over
the publish/subscribe bus, how theme engines register and look up their style
builders, how colour schemes compute shades, and how element and layout
builders turn descriptions into Tk calls. The two engines, chromatk and
bootstyle, are modelled for their decisions: which colours and images each
state selects, what is registered and which calls reach Tk. The pixels they
draw are not modelled.

Tk itself, and the `tkinter.ttk.Style` object that ttkbootstrap's `Style`
extends, are modelled by `Native.NativeStyle`. It holds:

- a log of the calls Tk receives;
- the set of themes Tk knows;
- the theme in use;
- a counter that names each new image.

A drawn image is a token: its serial number plus the colours drawn into it.

The modules follow the package:

| file | module | models |
|---|---|---|
| `base.dfy` | `Base` | `Option`/`Result`, the errors Python raises, and the `str` operations the code uses (`lower`, `title`, `split`, `join`, `replace`) |
| `publisher.dfy` | `Publishing` | `publisher.py` |
| `native.dfy` | `Native` | the Tk side of `ttk.Style` |
| `messages.dfy` | `Messages` | the handler message dictionary and the identities of callbacks |
| `scheme.dfy` | `Schemes` | `style/scheme.py` |
| `palette.dfy` | `Palettes` | the shade choices the builders share, and ttk's lookup in a state map |
| `element.dfy` | `Elements` | `style/element.py` |
| `engine.dfy` | `Engines` | `theme/engine.py` |
| `chromatk.dfy` | `Chromatk` | `theme/chromatk.py` |
| `bootstyle.dfy` | `Bootstyle` | `theme/bootstyle.py` |
| `style.dfy` | `Styles` | `style/style.py` |
| `widget.dfy` | `Widgets` | `widget/widget.py` |

Objects whose fields the source updates in place are classes with
`modifies` and `reads` frames:

- `Publisher`, `Scheme`, `ThemeEngine` and `Style`;
- `ElementImageBuilder`, `ElementLayout` and `ElementLayoutBuilder`;
- `TtkWidget` and `TkWidget`;
- the Tk model.

Pure computations are functions, each with lemmas about it:

- the keyword parser;
- the theme-name resolver;
- shade computation;
- state-map lookup.

## Model

| member | source | states |
|---|---|---|
| Base.Lower | src/ttkbootstrap/widget/widget.py:44 | `str.lower()` keeps the length and lower-cases each character |
| Base.Title | src/ttkbootstrap/widget/widget.py:76-80 | `str.title()` keeps the length of the string |
| Base.IsUpper | src/ttkbootstrap/widget/widget.py:62 | `str.isupper()` holds exactly when lower-casing changes the string and no character is lower case, so at least one character is a capital |
| Base.TitleKeepsLetters | src/ttkbootstrap/widget/widget.py:76-80 | `str.title()` only changes case: lower-casing before or after title-casing agrees |
| Base.Take | src/ttkbootstrap/widget/widget.py:62 | slicing `s[:n]` clamps the bound and yields a prefix of `s` |
| Base.Split | src/ttkbootstrap/style/style.py:131 | `str.split(sep)` yields at least one piece and no piece contains the separator |
| Base.Join | src/ttkbootstrap/widget/widget.py:88 | `sep.join(parts)` begins with the first piece, followed by the separator when there are more pieces |
| Base.JoinSplit | src/ttkbootstrap/style/style.py:131 | splitting and joining again gives back the original string |
| Base.SplitJoin | src/ttkbootstrap/style/style.py:131 | joining separator-free pieces and splitting again gives back the pieces |
| Base.ReplaceNone | src/ttkbootstrap/theme/chromatk.py:354 | `str.replace` leaves a string without the pattern unchanged |
| Base.ReplaceSkip | src/ttkbootstrap/theme/chromatk.py:354 | a prefix without the pattern's first character passes through `str.replace` unchanged |
| Base.ReplaceOnce | src/ttkbootstrap/theme/chromatk.py:354 | when the pattern first occurs after `a`, `str.replace` keeps `a`, puts the replacement in its place and goes on with the rest |
| Base.AddTo | src/ttkbootstrap/theme/engine.py:61-64 | `setdefault(key, set()).add(...)`: the key is present afterwards and its set holds the new items |
| Base.AddToFrame | src/ttkbootstrap/theme/engine.py:61-64 | adding to a table of sets changes only that key, which gains exactly the new items |
| Base.AddToIdempotent | src/ttkbootstrap/theme/engine.py:61-64 | registering the same items twice changes nothing |
| Publishing.ArgsFor | src/ttkbootstrap/publisher.py:53-58 | a dispatch passes no argument without a message and exactly the message otherwise |
| Publishing.SubscribeIdempotent | src/ttkbootstrap/publisher.py:20-23 | subscribing the same callback twice to an event changes nothing (set insertion) |
| Publishing.SubscribeFrame | src/ttkbootstrap/publisher.py:9-23 | a subscription adds the callback to its event's set and leaves every other event alone |
| Publishing.ServeOne | src/ttkbootstrap/publisher.py:53-58 | calling one more pending subscriber keeps the dispatch invariant: each subscriber called once, with the message |
| Publishing.CallEach | src/ttkbootstrap/publisher.py:53-58 | the dispatch loop calls every subscriber exactly once, each with the message when there is one |
| Publishing.Publisher.constructor | src/ttkbootstrap/publisher.py:6 | a new bus has no subscribers and has seen no events |
| Publishing.Publisher.Add | src/ttkbootstrap/publisher.py:9-23 | `add` creates the event's set on first use, then inserts the callback; nothing else changes |
| Publishing.Publisher.Get | src/ttkbootstrap/publisher.py:26-39 | `get` gives the event's subscribers, or the empty set for an unknown event |
| Publishing.Publisher.Dispatch | src/ttkbootstrap/publisher.py:42-58 | `dispatch` records the event and calls each of its subscribers once with the message; subscriptions are unchanged |
| Native.NativeStyle.constructor | src/ttkbootstrap/style/style.py:30 | Tk starts with its built-in themes, one of them in use, and no calls and no images yet |
| Native.NativeStyle.ThemeNames | src/ttkbootstrap/style/style.py:47-48 | `theme_names()` is the set of themes Tk knows |
| Native.NativeStyle.CurrentTheme | src/ttkbootstrap/style/style.py:51-52 | `theme_use()` without a name reports a theme Tk knows |
| Native.NativeStyle.NewImage | src/ttkbootstrap/theme/engine.py:21-30 | each image made is new: the next serial number, with the given colours |
| Native.NativeStyle.Submit | src/ttkbootstrap/style/style.py:91-92 | a style call (configure, map, element or layout) is appended to Tk's log and changes no theme |
| Native.NativeStyle.CreateTheme | src/ttkbootstrap/style/style.py:80 | `theme_create` succeeds exactly for a new name on a known parent, and otherwise fails with a `TclError` |
| Native.NativeStyle.UseTheme | src/ttkbootstrap/style/style.py:57 | `theme_use(name)` succeeds exactly for a theme Tk knows, and switches to it |
| Schemes.Scheme.constructor | src/ttkbootstrap/style/scheme.py:14-41 | every colour is the keyword argument of its name, or its default (`#ddd`, or `#111` for the foreground) |
| Schemes.MadeColors | src/ttkbootstrap/style/scheme.py:32-41 | a scheme made from keyword colours answers `get_color` for each of the ten colour names with that keyword, or its default |
| Schemes.Attribute | src/ttkbootstrap/style/scheme.py:82 | `__dict__.get(key)` answers exactly for the scheme's attribute names |
| Schemes.GetColor | src/ttkbootstrap/style/scheme.py:67-82 | `get_color` gives `None` for `name`, `mode` and unknown names, and the attribute for every colour name |
| Schemes.GetForeground | src/ttkbootstrap/style/scheme.py:43-65 | the foreground is always one of `dark`, `light`, `foreground` or `background` |
| Schemes.ForegroundPolicy | src/ttkbootstrap/style/scheme.py:56-65 | `light` is written in `dark`, `dark` in `light`, `background` in `foreground`, and any other colour in `foreground` in dark mode and `background` otherwise |
| Schemes.ForegroundIgnoresName | src/ttkbootstrap/style/scheme.py:62-65 | apart from those three names, the foreground does not depend on the colour name |
| Schemes.Iter | src/ttkbootstrap/style/scheme.py:109-113 | iterating a scheme yields exactly the colour names, without `name` and `mode` |
| Schemes.Scale | src/ttkbootstrap/style/scheme.py:103 | a scaled channel is clamped to [0, 255] |
| Schemes.ScaleMonotone | src/ttkbootstrap/style/scheme.py:103 | a larger factor never gives a smaller channel |
| Schemes.ScaleUnit | src/ttkbootstrap/style/scheme.py:103 | the factor 1.0 leaves an in-range channel unchanged |
| Schemes.Hex2 | src/ttkbootstrap/style/scheme.py:103 | `:02x` of a byte is two lower-case hex digits |
| Schemes.Hex2RoundTrip | src/ttkbootstrap/style/scheme.py:103 | reading the two hex digits back gives the byte |
| Schemes.ShadeOf | src/ttkbootstrap/style/scheme.py:103-105 | one shade is a `#rrggbb` string |
| Schemes.ShadeEncodes | src/ttkbootstrap/style/scheme.py:103-105 | a shade string encodes exactly the scaled and clamped channels |
| Schemes.Ramp | src/ttkbootstrap/style/scheme.py:102-106 | the ramp has nine `#rrggbb` shades, one per factor |
| Schemes.RampInRange | src/ttkbootstrap/style/scheme.py:102-106 | every shade's channels lie within [0, 255] |
| Schemes.RampBase | src/ttkbootstrap/style/scheme.py:8-9 | the `base` entry (factor 1.0) is the input colour itself |
| Schemes.ShadeFactor | src/ttkbootstrap/style/scheme.py:8 | the factors run from 1.4 down to 0.6, one tenth per step |
| Schemes.ScaleRgbMonotone | src/ttkbootstrap/style/scheme.py:103-105 | scaling by a smaller factor never brightens a channel |
| Schemes.RampMonotone | src/ttkbootstrap/style/scheme.py:102-106 | down the ramp, from `l4` to `d4`, no channel gets brighter |
| Schemes.ToShades | src/ttkbootstrap/style/scheme.py:107 | `Shades(*colors)` names the nine colours `l4` to `d4`, in order |
| Schemes.ShadesOf | src/ttkbootstrap/style/scheme.py:84-107 | `get_shades` succeeds exactly for a colour name of the scheme |
| Schemes.GetShades | src/ttkbootstrap/style/scheme.py:84-107 | the loop appends one formatted shade per factor and gives the ramp; each entry is a `#rrggbb` string |
| Schemes.ShadesAreRamp | src/ttkbootstrap/style/scheme.py:84-107 | the named shades of a colour are the ramp of its parsed value |
| Schemes.NewStdSchemes | src/ttkbootstrap/style/scheme.py:123-179 | the built-in schemes are `cosmo`, `flatly`, `minty` and `superhero`, keyed by their names; `superhero` is dark |
| Palettes.ColorOrDefault | src/ttkbootstrap/theme/chromatk.py:65 | `options['color'] or default`: the empty colour falls back to the default |
| Palettes.SwitchShadesAgree | src/ttkbootstrap/theme/chromatk.py:523-524 | the ramp positions the switch builder uses are the hover and pressed shades of the other builders |
| Palettes.Hover | src/ttkbootstrap/theme/chromatk.py:72 | the hover shade is one step from the base: `l1` in light mode, `d1` otherwise |
| Palettes.Pressed | src/ttkbootstrap/theme/chromatk.py:73 | the pressed shade is two steps from the base: `l2` in light mode, `d2` otherwise |
| Palettes.Disabled | src/ttkbootstrap/theme/chromatk.py:135 | disabled parts take `d2` of the `light` ramp in light mode and `d4` otherwise |
| Palettes.HoverOff | src/ttkbootstrap/theme/chromatk.py:258 | an unselected part under the mouse is `l1` of the background in dark mode, and the `light` colour otherwise |
| Palettes.PressedOff | src/ttkbootstrap/theme/chromatk.py:259 | an unselected pressed part is `l2` of the background in dark mode, and `d1` of `light` otherwise |
| Palettes.HoverPressedOrder | src/ttkbootstrap/theme/chromatk.py:72-73 | in light mode hover lightens and pressing lightens further; otherwise both darken, pressing the most |
| Palettes.ShadesDarken | src/ttkbootstrap/style/scheme.py:84-107 | down the shades of any scheme colour no channel gets brighter |
| Palettes.DisabledOrder | src/ttkbootstrap/theme/chromatk.py:135 | the disabled colour is never brighter than `light` itself, and is darker in dark mode than in light mode |
| Palettes.OffShadeOrder | src/ttkbootstrap/theme/chromatk.py:258-259 | a part that is off darkens from hover to pressed in light mode and lightens in dark mode |
| Palettes.Select | src/ttkbootstrap/style/style.py:91-92 | a state map yields the value of a matching entry, or the default when no entry matches |
| Palettes.SelectFirst | src/ttkbootstrap/style/style.py:91-92 | the first matching entry of a state map wins |
| Palettes.SelectFrom | src/ttkbootstrap/style/style.py:91-92 | lookup from entry `k` on is that entry when it matches, and otherwise the lookup from `k + 1` on |
| Palettes.Select3 | src/ttkbootstrap/theme/chromatk.py:174-176 | a three-entry state map gives the first, second or third value by the first specification that matches |
| Palettes.Words1 | src/ttkbootstrap/style/element.py:17-18 | a one-word state specification matches exactly when its word holds |
| Palettes.Words2 | src/ttkbootstrap/style/element.py:17-18 | a two-word specification matches exactly when both words hold |
| Palettes.Words3 | src/ttkbootstrap/style/element.py:17-18 | a three-word specification matches exactly when all three words hold |
| Palettes.SpecDisabled | src/ttkbootstrap/theme/chromatk.py:120 | `'disabled'` matches exactly the disabled states |
| Palettes.SpecAlternate | src/ttkbootstrap/theme/chromatk.py:369 | `'alternate'` matches exactly the alternate states |
| Palettes.SpecUnselected | src/ttkbootstrap/theme/chromatk.py:370 | `'!selected'` matches exactly the unselected states |
| Palettes.SpecPressedEnabled | src/ttkbootstrap/theme/chromatk.py:100 | `'pressed !disabled'` matches exactly pressed, enabled states |
| Palettes.SpecHoverEnabled | src/ttkbootstrap/theme/chromatk.py:101 | `'hover !disabled'` matches exactly hovered, enabled states |
| Palettes.SpecFocusWritable | src/ttkbootstrap/theme/chromatk.py:749 | `'focus !readonly'` matches exactly focused, writable states |
| Palettes.SpecDisabledSelected | src/ttkbootstrap/theme/chromatk.py:360 | `'disabled selected'` requires both flags |
| Palettes.SpecDisabledUnselected | src/ttkbootstrap/theme/chromatk.py:599 | `'disabled !selected'` matches disabled, unselected states |
| Palettes.SpecDisabledAlternate | src/ttkbootstrap/theme/chromatk.py:361 | `'disabled alternate'` requires both flags |
| Palettes.SpecPressedAlternate | src/ttkbootstrap/theme/chromatk.py:363 | `'pressed alternate !disabled'` matches exactly those three conditions |
| Palettes.SpecPressedOff | src/ttkbootstrap/theme/chromatk.py:364 | `'pressed !selected !disabled'` matches exactly those three conditions |
| Palettes.SpecPressedOn | src/ttkbootstrap/theme/chromatk.py:365 | `'pressed selected !disabled'` matches exactly those three conditions |
| Palettes.SpecHoverAlternate | src/ttkbootstrap/theme/chromatk.py:366 | `'hover alternate !disabled'` matches exactly those three conditions |
| Palettes.SpecHoverOff | src/ttkbootstrap/theme/chromatk.py:367 | `'hover !selected !disabled'` matches exactly those three conditions |
| Palettes.SpecHoverOn | src/ttkbootstrap/theme/chromatk.py:368 | `'hover selected !disabled'` matches exactly those three conditions |
| Palettes.SpecUnselectedPressed | src/ttkbootstrap/theme/chromatk.py:601 | `'!selected pressed'` matches unselected, pressed states |
| Palettes.SpecUnselectedHover | src/ttkbootstrap/theme/chromatk.py:602 | `'!selected hover'` matches unselected, hovered states |
| Palettes.SpecSelectedPressed | src/ttkbootstrap/theme/chromatk.py:604 | `'selected pressed'` requires both flags |
| Palettes.SpecSelectedHover | src/ttkbootstrap/theme/chromatk.py:605 | `'selected hover'` requires both flags |
| Elements.ElementImageBuilder.constructor | src/ttkbootstrap/style/element.py:10-15 | a builder holds its element name, normal image and options, and starts with no state entries |
| Elements.ElementImageBuilder.Map | src/ttkbootstrap/style/element.py:17-18 | `map` appends one state entry after those already mapped |
| Elements.ElementImageBuilder.Build | src/ttkbootstrap/style/element.py:20-22 | `build` sends one `element_create` with the image, its state entries in order, and the options |
| Elements.CreateImageElement | src/ttkbootstrap/style/element.py:10-22 | building a fresh builder after mapping the given entries sends exactly that element to Tk |
| Elements.ElementLayout.constructor | src/ttkbootstrap/style/element.py:27-30 | a layout node holds its element name and options and has no children yet |
| Elements.LinksWithin | src/ttkbootstrap/style/element.py:45-51 | every parent link goes from the enclosing node, or a node of the description, to a node of the description |
| Elements.KidsOutside | src/ttkbootstrap/style/element.py:45-51 | nodes outside the description gain no children |
| Elements.ApplyThen | src/ttkbootstrap/style/element.py:45-51 | applying two runs of parent links one after the other applies them joined |
| Elements.AssignEntry | src/ttkbootstrap/style/element.py:46-51 | one loop step of `assign_parent`: a node is added under the call's fixed `parent`, and a nested list recurses with `obj_layout[0]`, the first entry, as its parent |
| Elements.AssignParent | src/ttkbootstrap/style/element.py:45-51 | `assign_parent` appends to each node's children exactly the nodes the nesting gives it, in order; other objects are unchanged |
| Elements.BuildSpec | src/ttkbootstrap/style/element.py:32-35 | a node builds to its own name with its children's builds, or fails with `RecursionError` |
| Elements.BuildAll | src/ttkbootstrap/style/element.py:34 | building the children fails with `RecursionError` only |
| Elements.BuildAllNames | src/ttkbootstrap/style/element.py:34 | the built children carry the children's names, in order |
| Elements.BuildShape | src/ttkbootstrap/style/element.py:32-35 | a built node holds its options plus a `children` entry exactly when it has children |
| Elements.OwnChildNeverBuilds | src/ttkbootstrap/style/element.py:32-35 | a node that is its own first child always fails with `RecursionError` |
| Elements.BuildAllAt | src/ttkbootstrap/style/element.py:34 | children build one after the other: the first failure stops the rest |
| Elements.BuildNode | src/ttkbootstrap/style/element.py:32-35 | the recursive `build` method computes the build specification |
| Elements.KidsAmong | src/ttkbootstrap/style/element.py:45-51 | the children a node gains come from the description |
| Elements.ElementLayoutBuilder.constructor | src/ttkbootstrap/style/element.py:40-42 | a layout builder holds its ttk style name |
| Elements.ElementLayoutBuilder.Build | src/ttkbootstrap/style/element.py:44-53 | `build` links the description's nodes and sends one `layout` call: the build of its first node, or `RecursionError` |
| Elements.ChainLinks | src/ttkbootstrap/theme/chromatk.py:106-109 | `[a, [b, [c]]]`: `b` becomes a child of `a`, and `c` a child of `b` |
| Elements.IndicatorLinks | src/ttkbootstrap/theme/chromatk.py:390-394 | `[p, [i, f], [l]]`: all three become children of `p`, in that order |
| Elements.SwitchLinks | src/ttkbootstrap/theme/chromatk.py:615-619 | `[b, [p, [i, l]]]`: `p` becomes a child of `b`, and `i` and `l` children of `p` |
| Elements.PairLinks | src/ttkbootstrap/theme/chromatk.py:682-684 | `[t, [h]]`: `h` becomes a child of `t` |
| Elements.SpinboxLinks | src/ttkbootstrap/theme/chromatk.py:794-799 | the spinbox description links the arrows and the text area under the field |
| Elements.Entries | src/ttkbootstrap/style/element.py:32-35 | the layout entries of childless nodes are their names and options |
| Elements.BuildFlat | src/ttkbootstrap/style/element.py:32-35 | a node whose children are all leaves builds to its options plus their entries |
| Elements.ChainBuilds | src/ttkbootstrap/theme/chromatk.py:105-109 | once linked, the button chain builds to `a` holding `b` holding `c` |
| Elements.ChainKids | src/ttkbootstrap/style/element.py:45-51 | in a chain each node gets exactly the next one as a child |
| Elements.LayoutChain | src/ttkbootstrap/theme/chromatk.py:105-109 | building the button layout on fresh nodes sends Tk `a` holding `b` holding `c` |
| Elements.KidsOfFan | src/ttkbootstrap/style/element.py:45-51 | links from one parent give that parent exactly those children, in order |
| Elements.LayoutIndicator | src/ttkbootstrap/theme/chromatk.py:389-394 | building the checkbutton layout on fresh nodes sends Tk the padding holding indicator, focus and label |
| Elements.LayoutPair | src/ttkbootstrap/theme/chromatk.py:681-684 | building the scrollbar layout on fresh nodes sends Tk the trough holding the thumb |
| Elements.LayoutSpinbox | src/ttkbootstrap/theme/chromatk.py:793-799 | building the spinbox layout on fresh nodes sends Tk the field holding the arrows and the text area |
| Elements.SwitchKids | src/ttkbootstrap/style/element.py:45-51 | in the switch description the border gets the padding, and the padding the indicator and the label |
| Elements.LayoutSwitch | src/ttkbootstrap/theme/chromatk.py:614-619 | building the switch layout on fresh nodes sends Tk the border holding the padding, which holds the indicator and the label |
| Elements.SwitchBuilds | src/ttkbootstrap/theme/chromatk.py:614-619 | once linked, the switch description builds to the nested layout |
| Engines.InsertByLength | src/ttkbootstrap/theme/engine.py:74-75 | inserting a key keeps every key: a permutation with the key added |
| Engines.SortByLength | src/ttkbootstrap/theme/engine.py:74-75 | `sorted(..., key=len, reverse=True)` is a permutation of the keywords |
| Engines.InsertKeepsOrder | src/ttkbootstrap/theme/engine.py:74-75 | inserting into a longest-first list keeps it longest first |
| Engines.SortIsLongestFirst | src/ttkbootstrap/theme/engine.py:74-75 | the sorted keywords are longest first |
| Engines.InsertIsStable | src/ttkbootstrap/theme/engine.py:74-75 | an inserted key goes before the keys of its own length |
| Engines.SortIsStable | src/ttkbootstrap/theme/engine.py:74-75 | keywords of equal length keep their registration order (Python's sort is stable) |
| Engines.ThemeEngine.constructor | src/ttkbootstrap/theme/engine.py:33-39 | an engine starts with its name and base theme and empty style, handler and asset tables |
| Engines.ThemeEngine.StyleExists | src/ttkbootstrap/theme/engine.py:56-59 | a style exists exactly when it was registered for that scheme |
| Engines.ThemeEngine.StyleRegister | src/ttkbootstrap/theme/engine.py:61-64 | registering adds the style name to the scheme's set, creating the set on first use; nothing else changes |
| Engines.ThemeEngine.HandlerSet | src/ttkbootstrap/theme/engine.py:66-69 | `handler_set` maps the keyword to the builder; a new keyword is appended to the registration order |
| Engines.ThemeEngine.HandlerGet | src/ttkbootstrap/theme/engine.py:71-72 | `handler_get` gives the keyword's builder, or `None` |
| Engines.ThemeEngine.Keywords | src/ttkbootstrap/theme/engine.py:74-75 | `keywords` lists each registered keyword once |
| Engines.ThemeEngine.RegisterAssets | src/ttkbootstrap/theme/engine.py:98-101 | the images are added to the scheme's asset set, which is created on first use |
| Engines.RegisterKeywords | src/ttkbootstrap/theme/chromatk.py:15-24 | registering builders in order sets each keyword and subscribes `{engine}-{keyword}` on the bus |
| Engines.RegisterThenExists | src/ttkbootstrap/theme/engine.py:56-64 | right after `style_register`, `style_exists` holds for that style and scheme |
| Engines.KeywordsOrder | src/ttkbootstrap/theme/engine.py:74-75 | an engine's keywords are longest first, with ties in registration order |
| Engines.HandlerOverwrite | src/ttkbootstrap/theme/engine.py:66-69 | setting a keyword twice keeps the later builder |
| Chromatk.NewChromatk | src/ttkbootstrap/theme/chromatk.py:11-24 | the chromatk engine is named `chromatk` on base `clam`, with its nine keywords registered in order |
| Chromatk.CreateWindowStyle | src/ttkbootstrap/theme/chromatk.py:43-58 | the window and the `.` style get the scheme's background, foreground and `info` selection; no style is registered and no image made |
| Chromatk.CreateButtonStyle | src/ttkbootstrap/theme/chromatk.py:60-122 | `create_button_style` registers the style for the scheme and sends the element, layout, configure and maps; a missing scheme is a `KeyError` |
| Chromatk.ButtonAssets | src/ttkbootstrap/theme/chromatk.py:81-122 | three faces are drawn and kept alive, and Tk receives the element, the layout, the options and two maps, in that order |
| Chromatk.ButtonFace | src/ttkbootstrap/theme/chromatk.py:97-102 | a chromatk button shows the pressed face while pressed, the hover face while hovered, and the normal face otherwise and whenever disabled |
| Chromatk.ButtonText | src/ttkbootstrap/theme/chromatk.py:119-120 | the label takes the `l2` shade when disabled and the colour's foreground otherwise |
| Chromatk.CreateOutlineButtonStyle | src/ttkbootstrap/theme/chromatk.py:124-195 | `create_outline_button_style` registers the style and sends its calls; the colour defaults to `primary` |
| Chromatk.OutlineAssets | src/ttkbootstrap/theme/chromatk.py:144-195 | four faces are drawn and kept alive, and Tk receives the element, the layout, the options and two maps |
| Chromatk.OutlineStyle | src/ttkbootstrap/theme/chromatk.py:179-195 | Tk receives the button layout around the face element, the raised, centred options and the two state maps; no image is made |
| Chromatk.OutlineFace | src/ttkbootstrap/theme/chromatk.py:174-176 | the disabled outline whenever disabled, the filled face while pressed or hovered, the bare outline otherwise |
| Chromatk.LinkForeground | src/ttkbootstrap/theme/chromatk.py:207 | the link's colour is `get_color(colour)`, which is `None` for an unknown name |
| Chromatk.CreateLinkButtonStyle | src/ttkbootstrap/theme/chromatk.py:197-239 | `create_link_button_style` registers the style and sends its calls |
| Chromatk.LinkAssets | src/ttkbootstrap/theme/chromatk.py:210-239 | one blank image is made and kept alive, and Tk receives the options, the element, the layout and three maps |
| Chromatk.LinkText | src/ttkbootstrap/theme/chromatk.py:233-235 | link text is the disabled colour when disabled, `info` under the mouse, and its own colour otherwise |
| Chromatk.CheckKeepsAll | src/ttkbootstrap/theme/chromatk.py:374-376 | every checkbutton face drawn is registered as an asset |
| Chromatk.CreateCheckbuttonStyle | src/ttkbootstrap/theme/chromatk.py:241-394 | `create_checkbutton_style` registers the style and sends its calls |
| Chromatk.DrawCheck | src/ttkbootstrap/theme/chromatk.py:262-351 | the twelve checkbutton faces are drawn in order as new images |
| Chromatk.CheckAssets | src/ttkbootstrap/theme/chromatk.py:356-394 | the faces are kept alive, and Tk receives the element, the options, the map and the layout |
| Chromatk.CheckIndicator | src/ttkbootstrap/theme/chromatk.py:356-371 | the checkbutton face in every state: disabled wins; then pressed over hover; the partial mark over the checked one |
| Chromatk.CheckEnabled | src/ttkbootstrap/theme/chromatk.py:362-371 | for an enabled checkbutton, pressing decides first, then hovering, then the mark |
| Chromatk.CheckReleased | src/ttkbootstrap/theme/chromatk.py:366-371 | for an enabled checkbutton that is not pressed, hovering decides, then the mark |
| Chromatk.RadioKeepsAll | src/ttkbootstrap/theme/chromatk.py:488-490 | every radiobutton face drawn is registered as an asset |
| Chromatk.CreateRadiobuttonStyle | src/ttkbootstrap/theme/chromatk.py:396-507 | `create_radiobutton_style` registers the style and sends its calls |
| Chromatk.DrawRadio | src/ttkbootstrap/theme/chromatk.py:415-471 | the eight radiobutton faces are drawn in order as new images |
| Chromatk.RadioAssets | src/ttkbootstrap/theme/chromatk.py:476-507 | the faces are kept alive, and Tk receives the element, the options, the map and the layout |
| Chromatk.RadioIndicator | src/ttkbootstrap/theme/chromatk.py:476-485 | the radiobutton face in every state: disabled wins, then pressed over hover, each showing the selection |
| Chromatk.RadioReleased | src/ttkbootstrap/theme/chromatk.py:482-485 | for an enabled radiobutton that is not pressed, hovering decides, then the selection |
| Chromatk.SwitchKeepsAll | src/ttkbootstrap/theme/chromatk.py:609-611 | every switch face drawn is registered as an asset |
| Chromatk.CreateSwitchStyle | src/ttkbootstrap/theme/chromatk.py:509-628 | `create_switch_style` registers the style and sends its calls |
| Chromatk.DrawSwitch | src/ttkbootstrap/theme/chromatk.py:526-593 | the eight switch faces are drawn in order as new images |
| Chromatk.SwitchAssets | src/ttkbootstrap/theme/chromatk.py:596-628 | the faces are kept alive, and Tk receives the element, the layout, the options and the map |
| Chromatk.SwitchIndicator | src/ttkbootstrap/theme/chromatk.py:596-606 | the switch face in every state: disabled wins and shows the position; otherwise the position, then pressed over hover |
| Chromatk.SwitchOff | src/ttkbootstrap/theme/chromatk.py:601-603 | an enabled switch that is off: pressing, then hovering, decides |
| Chromatk.SwitchOn | src/ttkbootstrap/theme/chromatk.py:601-606 | an enabled switch that is on skips the off entries; then pressing, then hovering, decides |
| Chromatk.SwitchOnRest | src/ttkbootstrap/theme/chromatk.py:604-606 | the entries for a switch that is on: pressing, then hovering, then the on face |
| Chromatk.ScrollbarOrient | src/ttkbootstrap/theme/chromatk.py:633 | an empty orientation falls back to vertical |
| Chromatk.ScrollbarKeepsAll | src/ttkbootstrap/theme/chromatk.py:668 | the trough and the thumb are both registered as assets |
| Chromatk.CreateScrollbarStyle | src/ttkbootstrap/theme/chromatk.py:630-697 | `create_scrollbar_style` registers the style and sends its calls; a missing scheme or orientation is a `KeyError` |
| Chromatk.ScrollbarAssets | src/ttkbootstrap/theme/chromatk.py:668-697 | two images are kept alive, and Tk receives the two elements and the layout for the orientation |
| Chromatk.ScrollbarElements | src/ttkbootstrap/theme/chromatk.py:670-697 | for either orientation the layout names the two new elements, the thumb in the trough, both stretched along the bar and independent of state |
| Chromatk.SpinboxKeepsAll | src/ttkbootstrap/theme/chromatk.py:774-777 | every spinbox image drawn is registered as an asset |
| Chromatk.CreateSpinboxStyle | src/ttkbootstrap/theme/chromatk.py:699-811 | `create_spinbox_style` registers the style and sends its calls; the colour defaults to `light` |
| Chromatk.DrawField | src/ttkbootstrap/theme/chromatk.py:716-741 | the four field images are drawn in order as new images |
| Chromatk.DrawChevrons | src/ttkbootstrap/theme/chromatk.py:753-772 | the six chevrons are drawn in order as new images |
| Chromatk.SpinboxAssets | src/ttkbootstrap/theme/chromatk.py:745-811 | the images are kept alive, and Tk receives the field element, the two arrows, the layout, the options and the maps |
| Chromatk.SpinboxStyle | src/ttkbootstrap/theme/chromatk.py:793-811 | Tk receives the field layout with both arrows on the right, the text options and the two state maps; no image is made |
| Chromatk.SpinboxField | src/ttkbootstrap/theme/chromatk.py:745-751 | the spinbox field: disabled wins, then keyboard focus unless read-only, then the mouse |
| Chromatk.ArrowFace | src/ttkbootstrap/theme/chromatk.py:780-791 | each chevron: disabled beats pressed, and pressed beats the normal face |
| Bootstyle.NewBootstyle | src/ttkbootstrap/theme/bootstyle.py:12-19 | the bootstyle engine is named `bootstyle` on base `clam`, with `button`, `outline-button` and `tk-tk` registered in order |
| Bootstyle.BootstyleHandlers | src/ttkbootstrap/theme/bootstyle.py:16-19 | each keyword is answered by its own builder, subscribed on the bus as `bootstyle-{keyword}` |
| Bootstyle.StyleAppWindow | src/ttkbootstrap/theme/bootstyle.py:38-58 | the window and the `.` style get the scheme's colours; a missing scheme is a `KeyError` |
| Bootstyle.SameWindowAsChromatk | src/ttkbootstrap/theme/bootstyle.py:38-58 | both engines send Tk the same calls for the application window |
| Bootstyle.ButtonOptions | src/ttkbootstrap/theme/bootstyle.py:75-87 | a bootstyle button is the colour's foreground on its base shade, with border and bevel in the base shade |
| Bootstyle.CreateButtonStyle | src/ttkbootstrap/theme/bootstyle.py:60-100 | `create_button_style` registers the style and sends the options and four maps; no image is made |
| Bootstyle.ButtonMaps | src/ttkbootstrap/theme/bootstyle.py:75-100 | Tk receives the options and the maps for foreground, background, dark and light colour, in that order |
| Bootstyle.ButtonFace | src/ttkbootstrap/theme/bootstyle.py:92-100 | the face takes the pressed shade while pressed, then the hover shade, and keeps its base colour when disabled; the bevel follows the face |
| Bootstyle.ButtonText | src/ttkbootstrap/theme/bootstyle.py:90-91 | the label takes the `l2` shade when disabled and the colour's foreground otherwise |
| Bootstyle.OutlineOptions | src/ttkbootstrap/theme/bootstyle.py:118-129 | an outline button has text and border in its colour, on the background |
| Bootstyle.CreateOutlineButtonStyle | src/ttkbootstrap/theme/bootstyle.py:102-144 | `create_outline_button_style` registers the style and sends its calls; the colour defaults to `primary` |
| Bootstyle.OutlineMaps | src/ttkbootstrap/theme/bootstyle.py:118-144 | Tk receives the options and six maps, in order |
| Bootstyle.OutlineFill | src/ttkbootstrap/theme/bootstyle.py:139-144 | an enabled outline button fills with its colour under the mouse and shows the background otherwise |
| Bootstyle.OutlineText | src/ttkbootstrap/theme/bootstyle.py:132-134 | the label: the disabled colour when disabled, the colour's foreground under the mouse, the colour otherwise |
| Bootstyle.OutlinePress | src/ttkbootstrap/theme/bootstyle.py:137-138 | pressing an enabled outline button shifts its label; nothing else does |
| Styles.Get | src/ttkbootstrap/style/style.py:139-140 | `dict.get` gives the entry exactly for a present key, and `None` otherwise |
| Styles.FindThemeSchemeEngine | src/ttkbootstrap/style/style.py:130-153 | `_find_theme_scheme_engine` as written: it either gives a theme or raises `Exception` |
| Styles.FindThemeFixed | src/ttkbootstrap/style/style.py:130-153 | the resolver with the engine looked up under its own name; it fails only by raising `Exception` |
| Styles.FindSchemeEngine | src/ttkbootstrap/style/style.py:132-141 | `scheme-engine` names a known scheme and engine, and otherwise raises the exception for whichever is unknown |
| Styles.FindBareScheme | src/ttkbootstrap/style/style.py:142-146 | a bare scheme name is themed by the default engine as `scheme-chromatk` |
| Styles.FindBareEngineAsWritten | src/ttkbootstrap/style/style.py:147-151 | as written, a bare engine name gives `flatly-engine` with no engine, because the lookup uses the combined name |
| Styles.FindBareEngineFixed | src/ttkbootstrap/style/style.py:147-151 | fixed, a bare engine name gives `flatly-engine` on the default scheme with that engine |
| Styles.FixedAgreesElsewhere | src/ttkbootstrap/style/style.py:130-153 | the fix changes only the bare-engine branch |
| Styles.FindUnknown | src/ttkbootstrap/style/style.py:152-153 | a name that is not `a-b`, not a scheme and not an engine is refused |
| Styles.PlanFor | src/ttkbootstrap/style/style.py:54-72 | a name Tk knows is reused as is; otherwise the resolved name is reused when Tk knows it and created when it does not |
| Styles.Outcome | src/ttkbootstrap/style/style.py:54-80 | a refused name is the resolver's error; a new theme succeeds only with an engine |
| Styles.ShortNameReuses | src/ttkbootstrap/style/style.py:60-66 | once created, a theme named by its scheme alone is switched to again, not created anew |
| Styles.BareEngineUnusable | src/ttkbootstrap/style/style.py:147-151 | as written, `theme_use` of a bare engine name fails on the missing engine's `base` |
| Styles.BareEngineFixedUsable | src/ttkbootstrap/style/style.py:147-151 | with the fixed resolver, the same call creates the theme on the engine's base |
| Styles.Style.constructor | src/ttkbootstrap/style/style.py:26-34 | a new registry has both built-in engines under their names with their builders as handlers, the standard schemes, and the router subscribed to `route-style-handler` |
| Styles.Style.ThemeNames | src/ttkbootstrap/style/style.py:47-48 | `theme_names` is Tk's set of themes |
| Styles.Style.ThemeCurrent | src/ttkbootstrap/style/style.py:74-75 | `theme_current` is the registry's current theme |
| Styles.Style.SchemeGet | src/ttkbootstrap/style/style.py:97-98 | `scheme_get` gives the named scheme, or `None` |
| Styles.Style.SchemeNames | src/ttkbootstrap/style/style.py:100-101 | `scheme_names` lists every scheme once |
| Styles.Style.SchemeCreate | src/ttkbootstrap/style/style.py:94-95 | `scheme_create` adds, or replaces, a fresh scheme under its name, whose name, mode and ten colours are those of `Scheme(name, mode, **colors)` |
| Styles.Style.ThemeCreate | src/ttkbootstrap/style/style.py:77-80 | the theme is recorded under its name, then created in Tk on its engine's base |
| Styles.Style.Switch | src/ttkbootstrap/style/style.py:56-58 | switching makes the theme current in the registry and in Tk and dispatches `theme-changed` once |
| Styles.Style.ThemeUse | src/ttkbootstrap/style/style.py:50-72 | `theme_use` reports, switches, or creates then switches, as the plan says; on failure nothing is dispatched or delivered and the theme in use stays; a successful switch keeps the earlier deliveries and adds one `theme-changed` delivery to each subscriber |
| Styles.DispatchHybrid | src/ttkbootstrap/style/style.py:117-120 | one event `{engine}-{style}` per hybrid style, in no particular order, each delivering the message to its subscribers; earlier events and deliveries are kept |
| Styles.Style.RouteStyleHandler | src/ttkbootstrap/style/style.py:106-128 | the router attaches the scheme and sends one event per hybrid style, then the handler event for a Tk widget or a style not yet built; earlier deliveries are kept and every new one carries the message with the scheme attached |
| Styles.EngineNamesDiffer | src/ttkbootstrap/style/style.py:13 | the built-in engines have different names |
| Styles.NewEngine | src/ttkbootstrap/style/style.py:44 | `e(style)` makes a fresh engine of the class with its builders registered |
| Styles.ThemeEngineAdd | src/ttkbootstrap/style/style.py:42-45 | after the loop, each engine class has a fresh engine under its own name with exactly its keywords' builders as handlers, and the bus has seen no event |
| Styles.StdOrder | src/ttkbootstrap/style/style.py:14 | the default scheme `flatly` is among the built-in schemes |
| Styles.HybridEvents | src/ttkbootstrap/style/style.py:117-120 | a hybrid widget produces exactly one event per hybrid style |
| Widgets.ParseBootstyle | src/ttkbootstrap/widget/widget.py:43-58 | a colour is reported only when the keyword contains one; the type never contains `-`; a keyword without `-` is a bare colour, or otherwise the class, as written |
| Widgets.ClassFallback | src/ttkbootstrap/widget/widget.py:60-65 | the class read off `winfo_class()` is the last `.`-part, lower-case and free of `.` |
| Widgets.TtkStyleName | src/ttkbootstrap/widget/widget.py:71-80 | a ttk style name begins with the colour and a `.` when a colour is given |
| Widgets.HandlerName | src/ttkbootstrap/widget/widget.py:84-88 | a ttk handler without a type is the class itself; a Tk handler begins with `tk-` |
| Widgets.NameOfWord | src/ttkbootstrap/widget/widget.py:71-80 | without a type, the style name of a lower-case word not starting with `t` is the colour and orientation prefix, then `T` and the capitalised word |
| Widgets.ElementName | src/ttkbootstrap/theme/chromatk.py:354 | `name.replace('.TX', '.X')` on the style name of a class word drops the `T` of the class part behind a prefix, and leaves a bare class name alone |
| Widgets.CheckElementName | src/ttkbootstrap/theme/chromatk.py:354 | the indicator of `color.TCheckbutton` is `color.Checkbutton`; without a colour, `TCheckbutton` stays |
| Widgets.ScrollbarElementName | src/ttkbootstrap/theme/chromatk.py:671 | the scrollbar elements of `color.Orient.TScrollbar` are named `color.Orient.Scrollbar`; a bare `TScrollbar` stays |
| Widgets.ColorAt | src/ttkbootstrap/widget/widget.py:44 | the colour test at a position finds a colour occurring there, or proves none does |
| Widgets.SearchFrom | src/ttkbootstrap/widget/widget.py:44 | the search finds the leftmost occurrence of any colour, or proves there is none |
| Widgets.FindColor | src/ttkbootstrap/widget/widget.py:44 | the colour found occurs in the keyword; none is found exactly when no colour occurs |
| Widgets.LowerOfLower | src/ttkbootstrap/widget/widget.py:44-45 | a keyword without capitals is its own lower-case form |
| Widgets.ParseColorKindClass | src/ttkbootstrap/widget/widget.py:43-58 | `color-type-class` parses into its three parts as written |
| Widgets.ParseColorClass | src/ttkbootstrap/widget/widget.py:43-58 | `color-class` gives the colour and the class |
| Widgets.ColorShape | src/ttkbootstrap/widget/widget.py:9-10 | every colour keyword is a lower-case word of at least three letters |
| Widgets.FindsItself | src/ttkbootstrap/widget/widget.py:44 | a colour searched for on its own is found whole |
| Widgets.ParseColorOnly | src/ttkbootstrap/widget/widget.py:43-58 | a bare colour gives the colour and nothing else |
| Widgets.ColorsByPrefix | src/ttkbootstrap/widget/widget.py:9-10 | no two colours share their first three letters |
| Widgets.ParseNoColor | src/ttkbootstrap/widget/widget.py:43-58 | without a colour, the parts of the keyword are the type and the class |
| Widgets.FallbackTtkClass | src/ttkbootstrap/widget/widget.py:60-65 | a ttk class name `T` + `X...` loses its `T` when used as the handler |
| Widgets.FallbackTkClass | src/ttkbootstrap/widget/widget.py:60-65 | a Tk class name that does not start with two capitals is only lower-cased |
| Widgets.TitleWord | src/ttkbootstrap/widget/widget.py:76-80 | a lower-case word title-cases to its capitalised form |
| Widgets.StyleNameSplits | src/ttkbootstrap/widget/widget.py:71-80 | the ttk style name is the colour, type, orientation and class joined by `.`, and splits back into them |
| Widgets.HandlerSplits | src/ttkbootstrap/widget/widget.py:84-88 | the handler name is the type and the class joined by `-` (with `tk-` for Tk widgets), and splits back into them |
| Widgets.Truthy | src/ttkbootstrap/widget/widget.py:95-96 | the message carries the orientation only when it is truthy |
| Widgets.HandlerMessage | src/ttkbootstrap/widget/widget.py:34-97 | the handler message has the widget's keyword, identity and hybrid styles; a Tk widget gets no ttk style |
| Widgets.CapitalisedClassPart | src/ttkbootstrap/widget/widget.py:77-80 | a capitalised class name lower-cases to a lower-case word whose class part is the name behind a `T` |
| Widgets.ClassRoundTrip | src/ttkbootstrap/widget/widget.py:60-80 | a ttk class's handler name and the class part of its style name undo each other |
| Widgets.TtkFallbackRequestOf | src/ttkbootstrap/widget/widget.py:60-88 | a keyword without a class takes the handler and style class from the widget's own class |
| Widgets.ColorClassName | src/ttkbootstrap/widget/widget.py:71-80 | with a colour alone, the style name is the colour in front of the class part |
| Widgets.BareColorTtkRequest | src/ttkbootstrap/widget/widget.py:34-97 | a ttk widget of class `TName` with keyword `color` asks for `color.TName`, handled by `name` |
| Widgets.TtkRequestOf | src/ttkbootstrap/widget/widget.py:71-88 | a keyword that names its class uses that class for the handler and the style |
| Widgets.ColorKindClassRequest | src/ttkbootstrap/widget/widget.py:34-97 | `color-type-word` with a lower-case class word asks for `color.type.` plus the word's class part, handled by `type-word` |
| Widgets.ColorKindClassTtkRequest | src/ttkbootstrap/widget/widget.py:34-97 | `color-type-name` asks for `color.type.TName`, handled by `type-name` |
| Widgets.KindClassHandler | src/ttkbootstrap/widget/widget.py:84-88 | with a type, the handler is the type in front of the class |
| Widgets.ColorKindClassName | src/ttkbootstrap/widget/widget.py:71-80 | the style name is colour, type and class part joined by `.` |
| Widgets.BareColorTkRequest | src/ttkbootstrap/widget/widget.py:34-97 | a Tk widget with a bare colour asks for no ttk style and is handled by `tk-` plus its class |
| Widgets.CaptureCustomKwargs | src/ttkbootstrap/widget/widget.py:13-19 | the custom keywords move out of `kw` unchanged; the rest stay |
| Widgets.BootstyleAloneIgnored | src/ttkbootstrap/widget/widget.py:130-135 | as written, `configure(bootstyle=...)` without `style` never restyles a ttk widget, although the fixed version does |
| Widgets.RestylesFixedExactly | src/ttkbootstrap/widget/widget.py:130-135 | with the fix, a ttk widget is restyled exactly when `style` or `bootstyle` is configured; the two tests differ exactly when `bootstyle` is given without `style` |
| Widgets.TtkWidget.constructor | src/ttkbootstrap/widget/widget.py:102-104 | a ttk widget stores its keywords and subscribes its `update_widget_style` to `theme-changed` |
| Widgets.TtkWidget.Message | src/ttkbootstrap/widget/widget.py:34-97 | the widget's handler message carries its keyword and identity |
| Widgets.TtkWidget.TtkStyle | src/ttkbootstrap/widget/widget.py:106-112 | `ttkstyle()` is the configured style, or the widget's class when none is set |
| Widgets.TkCalls | src/ttkbootstrap/widget/widget.py:133 | Tk is called once exactly when there are options to pass, with all of them |
| Widgets.TtkWidget.TkConfigure | src/ttkbootstrap/widget/widget.py:133 | Tk receives the options, and a `style` option becomes the widget's style |
| Widgets.TtkWidget.UpdateWidgetStyle | src/ttkbootstrap/widget/widget.py:116-119 | the message is dispatched to the router, then the widget's style is set to the message's style name |
| Widgets.TtkWidget.Configure | src/ttkbootstrap/widget/widget.py:121-135 | `configure` as written: the keyword query answers the stored keyword, other queries go to Tk, and `bootstyle` is popped before the restyle test; Tk gets the other options, then `style=` the message's style name only when the test passes, which is then the widget's style, and otherwise the style is unchanged |
| Widgets.TtkWidget.ConfigureFixed | src/ttkbootstrap/widget/widget.py:121-135 | `configure` with the restyle test made before the pop: setting `style` or `bootstyle` restyles the widget; Tk gets the other options, then the new style name, which becomes the widget's style; otherwise the style is unchanged |
| Widgets.TkWidget.constructor | src/ttkbootstrap/widget/widget.py:140-142 | a Tk widget stores its keywords and subscribes its `update_widget_style` to `theme-changed` |
| Widgets.TkWidget.Message | src/ttkbootstrap/widget/widget.py:34-97 | a Tk widget's message has no ttk style and a `tk-` handler |
| Widgets.TkWidget.UpdateWidgetStyle | src/ttkbootstrap/widget/widget.py:144-146 | `update_widget_style` dispatches the message to the router |
| Widgets.TkWidget.Configure | src/ttkbootstrap/widget/widget.py:148-161 | a new `bootstyle` is stored and restyles the widget before the other options go to Tk |

## Left out

- Drawing with PIL is left out. Each image is a token: a serial number plus the colours drawn into it. Sizes, `scale_size` and the pixel geometry are not modelled.
- `parse_scheme` and `create_named_fonts` are left out, in both engines. They only compute sizes or create fonts, and no style decision depends on them.
- `colorutils.color_to_rgb` is not part of this model. It enters as a parameter (`parse`) from colour strings to channel triples.
- Schemes.GetShades: the float factors 1.4 to 0.6 are exact tenths, truncated toward zero. Floating-point rounding of `red * shade` is not modelled.
- Publishing.Publisher.Dispatch: Python iterates a set in hash order. The model fixes no order and only proves that each subscriber is called once. The callbacks are recorded, not run.
- Styles.Style.RouteStyleHandler: the hybrid events are related as a set, because they are sent in set order.
- `Style.instance` and the singleton check in `Style.__init__` are left out. The model passes the one registry around explicitly. The class-level dictionaries shared between instances are fields of that one registry.
- Styles.ThemeEngineAdd and Styles.Style.constructor state each engine's name, freshness and handler table, but not the bus subscriptions of each builder. `Engines.RegisterKeywords` states those.
- Styles.Style.ThemeCreate requires a theme with an engine, or an engine-less theme that Tk does not know yet and that comes without a parent. This keeps `Valid()`, under which every recorded theme that Tk knows has an engine. Without a parent, `parent or theme.engine.base` fails on `None.base`, and the method returns that `AttributeError`. An engine-less theme given a parent is not modelled; the source creates it on that parent, because `or` short-circuits.
- Styles.Style.ThemeUse uses the resolver as written, so the bare-engine defect of `style.py:150` is part of its behaviour.
- `RECURSION_LIMIT` is a constant depth bound. Python raises `RecursionError` for a cyclic layout at an unspecified depth.
- `ttkbootstrap.constants` is not part of this model. The usual tkinter values are used (`nsew`, `ew`, `ns`, `raised`, `center`, `horizontal`, `vertical`).
- Strings are ASCII. `lower` and `title` handle only ASCII letters.
- The `isinstance(klass, Callable)` branch of `_handler_message` is left out: the class is always a string here.
- The `TKBody` font name of chromatk's checkbutton builder (chromatk.py:382) is kept as written.
- Widgets.TtkWidget.Configure and Widgets.TkWidget.Configure record the call without modelling Tk's checks of the options, or its answers to queries. An empty `configure()` is a query.
- Widgets.TtkWidget.Configure takes `cnf` as an optional string. A dictionary `cnf`, which the source passes on to Tk (`widget.py:126-127`), is not modelled.
- Widgets.TkWidget.Configure takes `cnf` as an optional string as well. A dictionary `cnf`, which the source passes on to Tk (`widget.py:153-154`), is not modelled.
- Widgets.TtkWidget.Configure requires a `bootstyle` value to be a string. The source passes any value through to `_handler_message`, which lower-cases it.
- Widgets.TkWidget.Configure requires a `bootstyle` value to be a string too. The source stores any value (`widget.py:157-159`) and restyles at once, and `_handler_message` then fails with `AttributeError` on `lower` for a value that is not a string; that failure is not modelled.
- The orientation of a widget is fixed when it is created.
- Palettes.Select: ttk splits a state specification with Tcl's list rules. The model splits on blanks, which agrees for the specifications the builders use.

## Findings

| source | as written | input that shows it | evidently intended | confidence | as-written member | corrected member |
|---|---|---|---|---|---|---|
| src/ttkbootstrap/style/style.py:150 | for a bare engine name, the engine is looked up under the combined theme name `flatly-<engine>`, which is never a key of `_engines`, so the theme has no engine and `theme_create` then fails on `None.base` | `theme_use('chromatk')` on a registry where `flatly-chromatk` does not exist yet | look the engine up by its own name, `self._engines.get(themename)` | not executed | Styles.BareEngineUnusable | Styles.BareEngineFixedUsable |
| src/ttkbootstrap/widget/widget.py:130-135 | `bootstyle` is popped from `kw` before the test `'bootstyle' in kw`, so the test never sees it and the widget is not restyled | `configure(bootstyle='danger')` on a ttk widget | test for `style` or `bootstyle` before popping, so that the new keyword restyles the widget | not executed | Widgets.BootstyleAloneIgnored | Widgets.TtkWidget.ConfigureFixed, Widgets.RestylesFixedExactly |
