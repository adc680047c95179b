/**
 * The part of the host runtime the gateway talks to: the main window with
 * its visible and focused flags, and the app handle through which the
 * gateway finds that window, emits events to the UI and exits.
 *
 * The host's own behaviour is not visible to the gateway: whether a call
 * succeeds is an input (`HostFaults`), and every call the gateway makes
 * that has an effect (`show`, `hide`, `set_focus`, `emit`, `exit`) is
 * recorded, in order, in the app's `trace`. The window lookup and the
 * visibility query only read, and they are not recorded.
 */
module Host {
  import opened Wrappers
  import opened DeepLink

  /** The two flags of the main window that the gateway reads or changes. */
  datatype WindowState = WindowState(visible: bool, focused: bool)

  /** An event emitted to the UI. */
  datatype Event =
    | DeepLinkReceived(deepLink: DeepLinkPayload)
    | SingleInstance(launch: SingleInstancePayload)

  /** A call the gateway makes into the host, in the order it makes them. */
  datatype HostCall = ShowCall | HideCall | FocusCall | Emitted(event: Event) | Exited(code: int)

  /**
   * How the host answers during one callback or command: the error each
   * window call fails with, or `None` when it succeeds.
   */
  datatype HostFaults = HostFaults(
    visibilityError: Option<string>,
    showError: Option<string>,
    hideError: Option<string>,
    focusError: Option<string>)

  /** A host on which every window call succeeds. */
  const Reliable: HostFaults := HostFaults(None, None, None, None)

  /** The outcome of a host call that fails with `err`, if any. */
  function Outcome(err: Option<string>): (r: Result<(), string>)
    ensures r.Ok? <==> err.None?
    ensures r.Err? ==> r.error == err.value
  {
    match err
    case None => Ok(())
    case Some(e) => Err(e)
  }

  /** The webview window labelled "main". */
  class MainWindow {
    var visible: bool
    var focused: bool

    constructor (visible: bool, focused: bool)
      ensures this.visible == visible && this.focused == focused
    {
      this.visible := visible;
      this.focused := focused;
    }
  }

  /** The app handle given to every command and callback. */
  class App {
    var main: MainWindow?
    var trace: seq<HostCall>

    constructor (main: MainWindow?)
      ensures this.main == main && trace == []
    {
      this.main := main;
      trace := [];
    }

    /** The main window, as the gateway can observe it. */
    function MainState(): (m: Option<WindowState>)
      reads this, main
      ensures m.None? <==> main == null
    {
      if main == null then None else Some(WindowState(main.visible, main.focused))
    }

    /** Looks up the window labelled "main", which may not exist. */
    method GetMainWindow() returns (w: Option<MainWindow>)
      ensures w.None? <==> main == null
      ensures w.Some? ==> w.value == main
    {
      w := if main == null then None else Some(main);
    }

    /** Asks the host whether the window is visible; the query can fail. */
    method IsVisible(window: MainWindow, err: Option<string>) returns (r: Result<bool, string>)
      ensures err.Some? ==> r == Err(err.value)
      ensures err.None? ==> r == Ok(window.visible)
    {
      r := if err.None? then Ok(window.visible) else Err(err.value);
    }

    /** Host call `show`: on success the window becomes visible. */
    method Show(window: MainWindow, err: Option<string>) returns (r: Result<(), string>)
      modifies this, window
      ensures r == Outcome(err)
      ensures window.visible == (old(window.visible) || err.None?)
      ensures window.focused == old(window.focused)
      ensures trace == old(trace) + [ShowCall] && main == old(main)
    {
      if err.None? {
        window.visible := true;
      }
      trace := trace + [ShowCall];
      r := Outcome(err);
    }

    /** Host call `hide`: on success the window is hidden and loses the focus. */
    method Hide(window: MainWindow, err: Option<string>) returns (r: Result<(), string>)
      modifies this, window
      ensures r == Outcome(err)
      ensures window.visible == (old(window.visible) && err.Some?)
      ensures window.focused == (old(window.focused) && err.Some?)
      ensures trace == old(trace) + [HideCall] && main == old(main)
    {
      if err.None? {
        window.visible := false;
        window.focused := false;
      }
      trace := trace + [HideCall];
      r := Outcome(err);
    }

    /** Host call `set_focus`: on success the window holds the focus. */
    method SetFocus(window: MainWindow, err: Option<string>) returns (r: Result<(), string>)
      modifies this, window
      ensures r == Outcome(err)
      ensures window.visible == old(window.visible)
      ensures window.focused == (old(window.focused) || err.None?)
      ensures trace == old(trace) + [FocusCall] && main == old(main)
    {
      if err.None? {
        window.focused := true;
      }
      trace := trace + [FocusCall];
      r := Outcome(err);
    }

    /** Emits an event to the UI; the two modelled emits discard the outcome. */
    method Emit(event: Event)
      modifies this
      ensures trace == old(trace) + [Emitted(event)] && main == old(main)
    {
      trace := trace + [Emitted(event)];
    }

    /** Ends the process with the given exit code. */
    method Exit(code: int)
      modifies this
      ensures trace == old(trace) + [Exited(code)] && main == old(main)
    {
      trace := trace + [Exited(code)];
    }
  }
}
