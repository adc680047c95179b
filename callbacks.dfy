/**
 * The host callbacks the gateway registers: the tray menu and tray icon
 * handlers, the single-instance callback and the `deep-link://new-url`
 * listener.
 */
module Callbacks {
  import opened Wrappers
  import opened DeepLink
  import opened Host

  /** What bringing the main window to the front does. */
  datatype RevealEffect = RevealEffect(window: Option<WindowState>, calls: seq<HostCall>)

  /**
   * Bringing the main window `m` to the front when the host answers as `f`
   * says: `show` and then `set_focus` are both called and their errors
   * ignored, so the focus is requested even when showing failed. Without a
   * main window nothing is called.
   */
  function Revealed(m: Option<WindowState>, f: HostFaults): RevealEffect
  {
    match m
    case None => RevealEffect(None, [])
    case Some(w) =>
      RevealEffect(Some(WindowState(w.visible || f.showError.None?, w.focused || f.focusError.None?)),
                   [ShowCall, FocusCall])
  }

  /** On a host whose calls succeed the main window ends up visible and focused. */
  lemma RevealOnReliableHost(m: Option<WindowState>)
    ensures Revealed(m, Reliable).window == if m.None? then None else Some(WindowState(true, true))
  {
  }

  /** A reveal never hides the window or takes the focus away, and revealing twice is revealing once. */
  lemma RevealIsMonotoneAndIdempotent(m: Option<WindowState>, f: HostFaults)
    ensures Revealed(m, f).window.Some? <==> m.Some?
    ensures m.Some? && m.value.visible ==> Revealed(m, f).window.value.visible
    ensures m.Some? && m.value.focused ==> Revealed(m, f).window.value.focused
    ensures Revealed(Revealed(m, f).window, f).window == Revealed(m, f).window
  {
  }

  /**
   * Brings the main window to the front: `show`, then `set_focus`, each
   * error ignored; without a main window nothing is called.
   */
  method RevealMainWindow(app: App, f: HostFaults)
    modifies app, app.main
    ensures app.main == old(app.main)
    ensures app.MainState() == Revealed(old(app.MainState()), f).window
    ensures app.trace == old(app.trace) + Revealed(old(app.MainState()), f).calls
  {
    var found := app.GetMainWindow();
    if found.Some? {
      var window := found.value;
      var _ := app.Show(window, f.showError);
      var _ := app.SetFocus(window, f.focusError);
    }
  }

  /** The ids of the two tray menu items. */
  const ShowId: string := "show"
  const QuitId: string := "quit"

  /** What a tray menu id asks for. */
  datatype MenuAction = ShowMain | Quit | Ignore

  /** The tray menu dispatch: `show` and `quit` are recognised, any other id is ignored. */
  function MenuActionOf(id: string): (a: MenuAction)
    ensures a == ShowMain <==> id == ShowId
    ensures a == Quit <==> id == QuitId
    ensures a == Ignore <==> id != ShowId && id != QuitId
  {
    if id == ShowId then ShowMain else if id == QuitId then Quit else Ignore
  }

  /** The exit code of the tray's Quit item. */
  const QuitExitCode: int := 0

  /** The tray menu handler (`on_menu_event`). */
  method OnMenuEvent(app: App, id: string, f: HostFaults)
    modifies app, app.main
    ensures app.main == old(app.main)
    ensures MenuActionOf(id) == ShowMain ==>
      app.MainState() == Revealed(old(app.MainState()), f).window &&
      app.trace == old(app.trace) + Revealed(old(app.MainState()), f).calls
    ensures MenuActionOf(id) == Quit ==>
      app.MainState() == old(app.MainState()) && app.trace == old(app.trace) + [Exited(QuitExitCode)]
    ensures MenuActionOf(id) == Ignore ==>
      app.MainState() == old(app.MainState()) && app.trace == old(app.trace)
  {
    match MenuActionOf(id)
    case ShowMain =>
      RevealMainWindow(app, f);
    case Quit =>
      app.Exit(QuitExitCode);
    case Ignore =>
  }

  datatype MouseButton = Left | Right | Middle
  datatype MouseButtonState = Up | Down

  /** The tray icon events the host delivers. */
  datatype TrayIconEvent =
    | Click(button: MouseButton, buttonState: MouseButtonState)
    | DoubleClick(button: MouseButton)
    | Enter
    | Move
    | Leave

  /**
   * The tray icon handler (`on_tray_icon_event`): every click, whatever the
   * button and its state, brings the main window to the front; other
   * events do nothing.
   */
  method OnTrayIconEvent(app: App, event: TrayIconEvent, f: HostFaults)
    modifies app, app.main
    ensures app.main == old(app.main)
    ensures event.Click? ==>
      app.MainState() == Revealed(old(app.MainState()), f).window &&
      app.trace == old(app.trace) + Revealed(old(app.MainState()), f).calls
    ensures !event.Click? ==>
      app.MainState() == old(app.MainState()) && app.trace == old(app.trace)
  {
    if event.Click? {
      RevealMainWindow(app, f);
    }
  }

  /**
   * The single-instance callback: the main window is brought to the front
   * first, and then a `single-instance` event carrying the filtered
   * arguments and the unchanged working directory is emitted, every time.
   */
  method OnSingleInstance(app: App, args: seq<string>, cwd: string, f: HostFaults)
    modifies app, app.main
    ensures app.main == old(app.main)
    ensures app.MainState() == Revealed(old(app.MainState()), f).window
    ensures app.trace == old(app.trace) + Revealed(old(app.MainState()), f).calls
                         + [Emitted(SingleInstance(SingleInstanceEvent(args, cwd)))]
  {
    RevealMainWindow(app, f);
    var payload := SingleInstanceEvent(args, cwd);
    app.Emit(SingleInstance(payload));
  }

  /**
   * The `deep-link://new-url` listener: `parsed` is the payload decoded as a
   * list of strings, or `None` when it does not decode. It emits
   * `deep-link-received` when some URL survives the filter, and nothing
   * otherwise; it never touches the window and never reports an error.
   */
  method OnDeepLinkEvent(app: App, parsed: Option<seq<string>>)
    modifies app
    ensures app.main == old(app.main)
    ensures app.trace == old(app.trace) +
      match OnNewUrl(parsed)
      case None => []
      case Some(p) => [Emitted(DeepLinkReceived(p))]
  {
    var event := OnNewUrl(parsed);
    if event.Some? {
      app.Emit(DeepLinkReceived(event.value));
    }
  }
}
