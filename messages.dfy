/** What travels on the event bus of the style layer: the callbacks that
    subscribe (named, since callbacks are compared by identity only) and
    the style-request message a widget sends. */
module Messages {
  import opened Base
  import opened Schemes
  import opened Native
  import opened Publishing

  /** The style builders of the theme engines. */
  datatype BuilderFn =
    | CreateWindowStyle
    | CreateButtonStyle
    | CreateOutlineButtonStyle
    | CreateLinkButtonStyle
    | CreateCheckbuttonStyle
    | CreateRadiobuttonStyle
    | CreateSwitchStyle
    | CreateScrollbarStyle
    | CreateSpinboxStyle
    | StyleAppWindow

  /** A subscriber: a bound method of an engine, of the style registry, or
      of a widget. */
  datatype Callback =
    | Builder(engine: string, fn: BuilderFn)
    | RouteStyleHandler
    | UpdateWidgetStyle(widget: WidgetId)

  /** The message dictionary a widget builds for its style request.  The
      scheme is absent until the registry attaches the current one, and so
      is the orientation of a widget that has none. */
  datatype StyleRequest = StyleRequest(
    ttkstyle: string,
    color: string,
    kind: string,
    klass: string,
    bootstyle: string,
    handler: string,
    widget: WidgetId,
    hybrid: bool,
    hybridStyles: set<string>,
    orient: Option<string>,
    scheme: Option<Scheme>)

  /** The process-wide bus of the style layer. */
  type Bus = Publisher<Callback, StyleRequest>
}
