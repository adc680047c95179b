/**
 * The two IPC commands with logic: `set_badge_count`, a range check, and
 * `toggle_window_visibility`, a two-way decision on the main window.
 */
module Commands {
  import opened Wrappers
  import opened Host

  /** Rust's `u32`, the type of the badge count the UI sends. */
  newtype u32 = x: int | 0 <= x < 0x1_0000_0000

  const MaxBadgeCount: u32 := 99_999
  const BadgeRangeError: string := "Badge count must be between 0 and 99999"
  const WindowNotFound: string := "Main window not found"

  /**
   * `set_badge_count`: accepts 0..=99999, in which case it does nothing
   * further on any platform, and otherwise fails with a fixed message; it
   * has no other way to fail.
   */
  function SetBadgeCount(count: u32): (r: Result<(), string>)
    ensures r.Ok? <==> count <= MaxBadgeCount
    ensures r.Err? ==> r.error == BadgeRangeError
  {
    if count > MaxBadgeCount then Err(BadgeRangeError) else Ok(())
  }

  /** What one toggle does: the window afterwards, the host calls made, the result. */
  datatype ToggleEffect = ToggleEffect(window: Option<WindowState>, calls: seq<HostCall>, result: Result<(), string>)

  /**
   * The effect of `toggle_window_visibility` on the main window `m` when the
   * host answers as `f` says. A visibility query that fails counts as "not
   * visible"; the first failing call ends the command with its error.
   */
  function Toggled(m: Option<WindowState>, f: HostFaults): ToggleEffect
  {
    match m
    case None => ToggleEffect(None, [], Err(WindowNotFound))
    case Some(w) =>
      if f.visibilityError.None? && w.visible then
        match f.hideError
        case Some(e) => ToggleEffect(m, [HideCall], Err(e))
        case None => ToggleEffect(Some(WindowState(false, false)), [HideCall], Ok(()))
      else
        match f.showError
        case Some(e) => ToggleEffect(m, [ShowCall], Err(e))
        case None =>
          match f.focusError
          case Some(e) => ToggleEffect(Some(w.(visible := true)), [ShowCall, FocusCall], Err(e))
          case None => ToggleEffect(Some(WindowState(true, true)), [ShowCall, FocusCall], Ok(()))
  }

  /** The `toggle_window_visibility` command, making the host's window calls one at a time. */
  method ToggleWindowVisibility(app: App, f: HostFaults) returns (r: Result<(), string>)
    modifies app, app.main
    ensures app.main == old(app.main)
    ensures app.MainState() == Toggled(old(app.MainState()), f).window
    ensures app.trace == old(app.trace) + Toggled(old(app.MainState()), f).calls
    ensures r == Toggled(old(app.MainState()), f).result
  {
    var found := app.GetMainWindow();
    if found.None? {
      return Err(WindowNotFound);
    }
    var window := found.value;
    var query := app.IsVisible(window, f.visibilityError);
    var isVisible := match query case Ok(v) => v case Err(_) => false;
    if isVisible {
      var hidden := app.Hide(window, f.hideError);
      if hidden.Err? {
        return Err(hidden.error);
      }
    } else {
      var shown := app.Show(window, f.showError);
      if shown.Err? {
        return Err(shown.error);
      }
      var focused := app.SetFocus(window, f.focusError);
      if focused.Err? {
        return Err(focused.error);
      }
    }
    return Ok(());
  }

  /** Without a main window the command fails with "Main window not found" and makes no window call. */
  lemma ToggleWithoutWindow(f: HostFaults)
    ensures Toggled(None, f) == ToggleEffect(None, [], Err(WindowNotFound))
  {
  }

  /** A window seen as visible is hidden. */
  lemma ToggleHidesVisible(w: WindowState, f: HostFaults)
    requires w.visible && f.visibilityError.None? && f.hideError.None?
    ensures Toggled(Some(w), f) == ToggleEffect(Some(WindowState(false, false)), [HideCall], Ok(()))
  {
  }

  /** A hidden window, or one whose visibility cannot be read, is shown and then focused. */
  lemma ToggleShowsHidden(w: WindowState, f: HostFaults)
    requires !w.visible || f.visibilityError.Some?
    requires f.showError.None? && f.focusError.None?
    ensures Toggled(Some(w), f) == ToggleEffect(Some(WindowState(true, true)), [ShowCall, FocusCall], Ok(()))
  {
  }

  /**
   * The command succeeds exactly when the window exists and every call it
   * makes succeeds. Otherwise it reports the missing window, or the message
   * of the one call that failed, unchanged; a failed `hide` or `show` leaves
   * the window as it was, and a failed `set_focus` leaves it visible with
   * its focus unchanged. Each error path stops at the call that failed: a
   * failed `show` is never followed by `set_focus`.
   */
  lemma ToggleErrors(m: Option<WindowState>, f: HostFaults)
    ensures Toggled(m, f).result.Ok? <==>
      m.Some? &&
      (if f.visibilityError.None? && m.value.visible then f.hideError.None?
       else f.showError.None? && f.focusError.None?)
    ensures m.None? ==> Toggled(m, f).result == Err(WindowNotFound)
    ensures m.Some? && f.visibilityError.None? && m.value.visible && f.hideError.Some? ==>
      Toggled(m, f).result == Err(f.hideError.value) && Toggled(m, f).window == m &&
      Toggled(m, f).calls == [HideCall]
    ensures m.Some? && !(f.visibilityError.None? && m.value.visible) && f.showError.Some? ==>
      Toggled(m, f).result == Err(f.showError.value) && Toggled(m, f).window == m &&
      Toggled(m, f).calls == [ShowCall]
    ensures m.Some? && !(f.visibilityError.None? && m.value.visible) && f.showError.None? && f.focusError.Some? ==>
      Toggled(m, f).result == Err(f.focusError.value) &&
      Toggled(m, f).window == Some(WindowState(true, m.value.focused)) &&
      Toggled(m, f).calls == [ShowCall, FocusCall]
  {
  }

  /**
   * A toggle that succeeds leaves the window in one of the two settled
   * states, hidden or shown with the focus, and flips what it observed.
   */
  lemma ToggleSettles(m: Option<WindowState>, f: HostFaults)
    requires Toggled(m, f).result.Ok?
    ensures Toggled(m, f).window == Some(WindowState(false, false))
         || Toggled(m, f).window == Some(WindowState(true, true))
    ensures Toggled(m, f).window.value.visible == !(m.value.visible && f.visibilityError.None?)
  {
  }

  /** On a host whose calls succeed, toggling twice restores the original visibility. */
  lemma ToggleTwiceRestoresVisibility(w: WindowState)
    ensures var once := Toggled(Some(w), Reliable);
            var twice := Toggled(once.window, Reliable);
            twice.result.Ok? && twice.window.Some? && twice.window.value.visible == w.visible
  {
  }
}
