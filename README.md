# Forward Email desktop shell: input gateway

This project models the first-party logic of the desktop shell's native side
(`src-tauri/src/lib.rs`): the gateway through which every outside input
reaches the web UI, and the two IPC commands that carry logic. The Tauri
application framework and its plugins are outside. The model covers:

- **The deep-link validator** `is_valid_deep_link`. It trims the string with
  Rust's `str::trim`, then accepts it only if it starts with `mailto:` or
  `forwardemail:` (`DeepLink.IsValidDeepLink`).
- **The single-instance argument filter.** It keeps an argument that is a
  valid deep link or contains no `://` (`DeepLink.KeepLaunchArg`,
  `DeepLink.SafeLaunchArgs`).
- **The `deep-link://new-url` listener filter.** It keeps only valid URLs
  (`DeepLink.SafeUrls`, `DeepLink.OnNewUrl`).
- **`set_badge_count`**, a range check on a `u32` (`Commands.SetBadgeCount`).
- **`toggle_window_visibility`**, a two-way decision on the main window.
  The pure function `Commands.Toggled` states its effect, and the method
  `Commands.ToggleWindowVisibility` makes the host calls one at a time and is
  proved equal to that function.
- **The tray handlers and the single-instance callback.** These are methods
  in `Callbacks` that change the window and record their host calls.

Rust's string operations are modelled in `RustStr`. `trim` uses
`char::is_whitespace`, so the model's `IsWhitespace` is the full list of
characters with the Unicode White_Space property. `starts_with` is a prefix
test. `contains` asks whether the pattern occurs at some index. Rust's
`iter().filter().collect()` is `Seqs.Filter`.

The host is modelled in `Host`:
- `MainWindow` is the window labelled "main". It has the two flags the
  gateway touches, `visible` and `focused`.
- `App` is the app handle. It holds the optional main window and a `trace`
  of the host calls that have an effect: `show`, `hide`, `set_focus`, `emit`
  and `exit`, in order. The lookup `get_webview_window("main")` and the
  query `is_visible()` only read, and they are not recorded.
- Whether each window call succeeds is an input of type `HostFaults`, an
  optional error message per call.
- A successful `show` makes the window visible. A successful `set_focus`
  gives it the focus. A successful `hide` hides it. The model assumes that
  `show` keeps the focus, that `set_focus` keeps the visibility, and that a
  hidden window loses the focus.
- A failed call changes nothing.

The decoded JSON payload of `deep-link://new-url` is an
`Option<seq<string>>`, with `None` when it does not decode as a list of
strings.

Two facts about the code that the model keeps:

- `toggle_window_visibility` is not atomic. If `show` succeeds and
  `set_focus` then fails, the command returns the focus error and does not
  hide the window again. In the model, where `show` keeps the focus, the
  window is then visible with its old focus (`Commands.Toggled`,
  `Commands.ToggleErrors`). If `show` fails, `set_focus` is not called.
- Every error the commands return is a plain string, and the model's
  errors are strings too.

## Model

| member | source | states |
|---|---|---|
| DeepLink.IsValidDeepLink | src-tauri/src/lib.rs:118-122 | the deep-link check: the trimmed string starts with `mailto:` or `forwardemail:`. Its properties are stated by the `Valid…` and `…Rejected` lemmas |
| DeepLink.KeepLaunchArg | src-tauri/src/lib.rs:143 | the launch-argument check: a valid deep link, or a string that contains no `://` |
| DeepLink.SafeLaunchArgs | src-tauri/src/lib.rs:141-145 | the single-instance filter: the arguments that pass `KeepLaunchArg`, in order. Its properties are stated by `SafeLaunchArgsSpec` and `SafeLaunchArgsIdempotent` |
| DeepLink.SafeUrls | src-tauri/src/lib.rs:180-183 | the listener's URL filter: the valid URLs, in order. Its properties are stated by `OnNewUrl` and `OnNewUrlForwardsValidUrls` |
| Commands.Toggled | src-tauri/src/lib.rs:64-75 | the effect of one toggle: the window afterwards, the host calls made and the result. A failed visibility query counts as not visible, and the first failing call ends the command. Its properties are stated by the `Toggle…` lemmas |
| Callbacks.Revealed | src-tauri/src/lib.rs:90-93 | bringing the main window to the front: `show` and `set_focus` are both attempted and their errors ignored; nothing is called without a window. Its properties are stated by the `Reveal…` lemmas |
| Host.App.GetMainWindow | src-tauri/src/lib.rs:65-67 | the lookup of the window labelled "main" returns it exactly when it exists |
| Host.App.IsVisible | src-tauri/src/lib.rs:69 | the visibility query returns the window's flag, or the host's error when the query fails |
| Host.App.Show | src-tauri/src/lib.rs:72 | `show` is recorded; on success the window becomes visible and keeps its focus; on failure it returns the host's error and changes nothing |
| Host.App.Hide | src-tauri/src/lib.rs:70 | `hide` is recorded; on success the window is hidden and loses the focus; on failure it returns the host's error and changes nothing |
| Host.App.SetFocus | src-tauri/src/lib.rs:73 | `set_focus` is recorded; on success the window holds the focus and keeps its visibility; on failure it returns the host's error and changes nothing |
| Host.App.Emit | src-tauri/src/lib.rs:146-152 | the emitted event is appended to the trace, and nothing else changes; the same call models the `deep-link-received` emit at lib.rs:185-188 |
| Host.App.Exit | src-tauri/src/lib.rs:96 | the exit and its code are appended to the trace, and nothing else changes |
| RustStr.IsWhitespace | src-tauri/src/lib.rs:119 | the whitespace that `trim` removes is Rust's `char::is_whitespace`: exactly the characters with the Unicode White_Space property (U+0009 to U+000D, U+0020, U+0085, U+00A0, U+1680, U+2000 to U+200A, U+2028, U+2029, U+202F, U+205F, U+3000) |
| RustStr.StartsWith | src-tauri/src/lib.rs:120-121 | `starts_with`: the pattern is a prefix of the string; the test is case-sensitive |
| RustStr.Contains | src-tauri/src/lib.rs:143 | `contains`: the pattern occurs in the string at some index (`OccursAt`) |
| RustStr.TrimStart | src-tauri/src/lib.rs:119 | `trim_start`: the string from index `LeadingWhitespace(s)` on. Its properties are stated by `TrimStartSkipsPrefix` and `TrimStartKeepsTail` |
| RustStr.TrimEnd | src-tauri/src/lib.rs:119 | `trim_end`: the string up to index `TrailingWhitespaceStart(s)`. Its properties are stated by `TrimEndSkipsSuffix` and `TrimEndKeepsPrefix` |
| RustStr.LeadingWhitespace | src-tauri/src/lib.rs:119 | the whitespace `trim` drops at the front: every character before the index is whitespace, and the character at it is not |
| RustStr.TrailingWhitespaceStart | src-tauri/src/lib.rs:119 | the whitespace `trim` drops at the back: every character from the index on is whitespace, and the one before it is not |
| RustStr.Trim | src-tauri/src/lib.rs:119 | the trimmed string neither starts nor ends with whitespace, and it is empty exactly when the input is all whitespace |
| RustStr.TrimStartSkipsPrefix | src-tauri/src/lib.rs:119 | a whitespace prefix does not change the result of trimming the start |
| RustStr.TrimEndSkipsSuffix | src-tauri/src/lib.rs:119 | a whitespace suffix does not change the result of trimming the end |
| RustStr.TrimStartKeepsTail | src-tauri/src/lib.rs:119 | trimming the start keeps every character after the first non-white one |
| RustStr.TrimIgnoresPadding | src-tauri/src/lib.rs:119 | adding whitespace at either end never changes `trim`'s result |
| RustStr.TrimIdempotent | src-tauri/src/lib.rs:119 | trimming twice is the same as trimming once |
| RustStr.TrimOfUnpadded | src-tauri/src/lib.rs:119 | a string with non-white first and last characters is unchanged by `trim` |
| RustStr.TrimEndKeepsPrefix | src-tauri/src/lib.rs:119-121 | trimming the end keeps every prefix that ends in a non-white character, and adds none |
| RustStr.NotContainsWithout | src-tauri/src/lib.rs:143 | a string that lacks one character of a pattern does not contain the pattern |
| Seqs.Filter | src-tauri/src/lib.rs:141-145 | the filtered vector is no longer than the input, and every element of it satisfies the predicate |
| Seqs.FilterIsSubsequence | src-tauri/src/lib.rs:180-183 | the filter keeps the original order: the result is a subsequence of the input |
| Seqs.FilterLength | src-tauri/src/lib.rs:180-183 | the result has one element for each input element that satisfies the predicate |
| Seqs.FilterMembership | src-tauri/src/lib.rs:180-183 | an element is in the result iff it is in the input and satisfies the predicate |
| Seqs.FilterMultiplicity | src-tauri/src/lib.rs:180-183 | each kept element appears in the result as often as in the input; any other element appears zero times |
| Seqs.FilterKeepsAll | src-tauri/src/lib.rs:141-145 | an input whose elements all satisfy the predicate passes through unchanged |
| Seqs.FilterIdempotent | src-tauri/src/lib.rs:141-145 | filtering twice gives the same result as filtering once |
| Seqs.FilterEmpty | src-tauri/src/lib.rs:184 | the result is empty iff no input element satisfies the predicate |
| DeepLink.ValidIgnoresPadding | src-tauri/src/lib.rs:118-122 | adding or removing whitespace at either end never changes whether a link is valid |
| DeepLink.ValidIffSchemeAfterLeadingWhitespace | src-tauri/src/lib.rs:118-122 | a link is valid iff, after its leading whitespace is dropped, it starts with `mailto:` or `forwardemail:` |
| DeepLink.SchemePrefixIsValid | src-tauri/src/lib.rs:118-122 | a string that starts with `mailto:` or `forwardemail:` is valid |
| DeepLink.OtherSchemesRejected | src-tauri/src/lib.rs:116-122 | a link whose trimmed form starts with `http:`, `https:`, `file:` or `javascript:` is rejected |
| DeepLink.PlainArgKept | src-tauri/src/lib.rs:143 | a launch argument without a colon, such as a flag or a path, is always forwarded |
| DeepLink.ForeignUrlArgDropped | src-tauri/src/lib.rs:143 | a launch argument that contains `://` and uses a disallowed scheme is dropped |
| DeepLink.SafeLaunchArgsSpec | src-tauri/src/lib.rs:140-145 | the forwarded arguments are an order-preserving subsequence of the input. An argument is kept iff it is a valid deep link or contains no `://`, and a kept argument keeps its multiplicity |
| DeepLink.SafeLaunchArgsIdempotent | src-tauri/src/lib.rs:140-145 | filtering the launch arguments twice is the same as filtering them once |
| DeepLink.SingleInstanceEvent | src-tauri/src/lib.rs:140-152 | the `single-instance` payload always exists. Its `cwd` is the input `cwd`, and its `args` are exactly `SafeLaunchArgs(args)`: the order-preserving subsequence of the input holding every argument that passes the check, as `SafeLaunchArgsSpec` states |
| DeepLink.OnNewUrl | src-tauri/src/lib.rs:177-190 | a payload that does not decode produces no event. Any event carries a non-empty list of valid URLs. For a decoded list, no event is produced iff no element is valid |
| DeepLink.OnNewUrlForwardsValidUrls | src-tauri/src/lib.rs:180-188 | the forwarded `urls` are exactly the valid elements of the decoded list, in their original order and with their multiplicities |
| DeepLink.ValidThenInvalidBatch | src-tauri/src/lib.rs:180-188 | a batch of one valid URL followed by one invalid URL forwards the valid one alone |
| DeepLink.KeptKeptDropped | src-tauri/src/lib.rs:140-145 | two kept arguments followed by a dropped one filter to the first two |
| DeepLink.RejectedBatchIsSuppressed | src-tauri/src/lib.rs:177-190 | `["http://evil.test", "javascript:alert(1)"]` produces no `deep-link-received` event |
| DeepLink.MixedBatchForwardsMailto | src-tauri/src/lib.rs:177-190 | `["mailto:a@b.com", "http://x"]` produces an event with `urls = ["mailto:a@b.com"]` |
| DeepLink.LaunchArgsExample | src-tauri/src/lib.rs:140-145 | `["--flag", "forwardemail://open", "http://bad"]` filters to `["--flag", "forwardemail://open"]` |
| DeepLink.EmptyLaunchExample | src-tauri/src/lib.rs:140-152 | a second launch with no arguments and `cwd = "/tmp"` still yields the payload `{ args: [], cwd: "/tmp" }` |
| Commands.SetBadgeCount | src-tauri/src/lib.rs:40-59 | the command succeeds iff the count is at most 99999; otherwise it fails with exactly "Badge count must be between 0 and 99999"; there is no other failure |
| Commands.ToggleWindowVisibility | src-tauri/src/lib.rs:61-76 | the window state, the host calls made in order, and the result are exactly those given by `Toggled` for the window as it was |
| Commands.ToggleWithoutWindow | src-tauri/src/lib.rs:65-67 | with no main window, the command fails with "Main window not found", makes no `show`/`hide`/`set_focus` call and changes nothing |
| Commands.ToggleHidesVisible | src-tauri/src/lib.rs:69-70 | a window the host reports as visible is hidden, with a single `hide` call |
| Commands.ToggleShowsHidden | src-tauri/src/lib.rs:69-73 | a hidden window, or one whose visibility query fails, is shown and then focused |
| Commands.ToggleErrors | src-tauri/src/lib.rs:64-75 | the command succeeds iff the window exists and every call it makes succeeds. Without a window the error is "Main window not found". Otherwise the error is the unchanged message of the call that failed: `hide` for a window seen as visible, else `show`, else `set_focus`. A failed `hide` or `show` leaves the window as it was; a failed `set_focus` leaves it visible with its focus unchanged. The calls on each error path are pinned: `[hide]`, `[show]` (no `set_focus` after a failed `show`), or `[show, set_focus]` |
| Commands.ToggleSettles | src-tauri/src/lib.rs:69-75 | after a successful toggle, the window is either hidden or visible and focused, and its visibility is the opposite of what the host reported |
| Commands.ToggleTwiceRestoresVisibility | src-tauri/src/lib.rs:61-76 | on a host whose calls all succeed, two toggles in a row restore the original visibility |
| Callbacks.RevealMainWindow | src-tauri/src/lib.rs:90-93 | with a main window, `show` then `set_focus` are called, both attempted and both errors ignored; without one, nothing happens |
| Callbacks.RevealOnReliableHost | src-tauri/src/lib.rs:90-93 | on a host whose calls all succeed, revealing leaves the main window visible and focused |
| Callbacks.RevealIsMonotoneAndIdempotent | src-tauri/src/lib.rs:90-93 | revealing never hides the window or removes its focus, and a second reveal leaves the window as one reveal does (the trace gets two more host calls) |
| Callbacks.MenuActionOf | src-tauri/src/lib.rs:88-98 | id `show` selects show, `quit` selects quit, and every other id is ignored |
| Callbacks.OnMenuEvent | src-tauri/src/lib.rs:88-99 | `show` reveals the main window. `quit` exits with code 0 and touches no window. Any other id changes nothing and makes no call |
| Callbacks.OnTrayIconEvent | src-tauri/src/lib.rs:100-108 | every click, whatever the button or its state, reveals the main window; any other tray event changes nothing |
| Callbacks.OnSingleInstance | src-tauri/src/lib.rs:134-153 | the main window is revealed first. Then exactly one `single-instance` event is emitted with the filtered arguments and the unchanged `cwd`, even when no argument survives |
| Callbacks.OnDeepLinkEvent | src-tauri/src/lib.rs:177-191 | a `deep-link-received` event is emitted iff the decoded list has a valid element, with exactly those elements. A non-decoding payload emits nothing. The window is never touched |

## Left out

- `get_app_version` and `get_platform` (lines 26-38) return compile-time
  constants and contain no logic.
- The Tauri `Builder` chain and the plugin registrations in `run`
  (lines 127-169, 198-199) are framework calls. The model does not include
  the ordering between the `tauri-ready` event at line 194 and the
  callbacks.
- Building the tray menu and tray icon (lines 81-87, 109) is UI plumbing.
  Only the dispatch decisions are modelled.
- The macOS badge branch (lines 48-57) does nothing on any platform.
- JSON decoding with `serde_json` is not modelled. Its outcome is the input
  `Option<seq<string>>`.
- Deserialising the badge count is not modelled. The UI's number becomes a
  `u32` before `set_badge_count` runs, and the framework rejects negative or
  oversized numbers before the command is reached.
- The two modelled emits, `single-instance` (line 146) and `deep-link-received`
  (line 185), discard their results in the source. So each is only recorded
  in the trace. The `tauri-ready` emit at line 194, whose error is passed on,
  belongs to the `setup` closure outside the model. `exit(0)` is the
  terminal trace entry `Exited(0)`. Process termination is not modelled.
- Callbacks run by the host concurrently with UI commands are not
  modelled. Each command or callback is one sequential method.
- The error text of a failing host call (`e.to_string()`) is an input
  message, passed through unchanged.
- How the window calls affect the flags they do not name belongs to the
  host. The model assumes three things: a successful `show` keeps the
  focus, a successful `set_focus` keeps the visibility, and a successful
  `hide` clears the focus. So a call whose `show` fails but whose
  `set_focus` succeeds can leave a hidden window with the focus
  (`Callbacks.Revealed`).
