# Secure PDF viewer: login gate, page navigation, swipe and shortcut handling

This project models the state logic of a browser PDF viewer written as one
React file. A login form compares a username and password with two fixed
strings. When they match, the form is replaced by a viewer. The viewer keeps
a current page and a page count, and turns pages from buttons and from
horizontal swipes. It also intercepts print, save, copy, cut and screenshot
key combinations, raising a "screenshot attempt detected" banner and flashing
a black overlay.

Modules:

- `Optional`: the `Option` datatype that stands for JavaScript's `null`.
- `LoginGate`: the application component as the class `SecurePDFApp`. It holds
  the form fields, the logged-in flag and the error text. It has the submit
  handler and the form submission, which the browser blocks while a required
  field is empty.
- `Navigation`: the two page updaters as pure functions, and `Navigate`,
  which applies a queue of them in order as React does with functional updates.
- `Gestures`: the swipe classifier, with its strict threshold of 50.
- `Shortcuts`: the keydown decision table. The three tests the handler makes
  are combined in `KeyResponse`, which is proved equal to a separate,
  per-shortcut reference table (`Classify` and `Response`).
- `Viewer`: the viewer component as the class `SecurePDFViewer`, with fields
  `numPages`, `pageNumber`, `touchStart`, `screenCaptureAttempted` and
  `overlayVisible`. Its object invariant `Valid()` says that
  `1 <= pageNumber <= (numPages || 1)`. Every navigation and touch handler
  preserves it, and so does the first document load.

Two details of the source are kept as written:

- The touch-end guard tests JavaScript truthiness. A touch that starts at
  horizontal position 0 is therefore treated as having no start. The handler
  then returns before clearing that start.
- `numPages || 1` makes both "not loaded yet" and a page count of 0 behave
  like a one-page document.

## Model

| member | source | states |
|---|---|---|
| `LoginGate.OnlyTheReferencePairAuthenticates` | src/SecurePDFViewer.js:15-21 | the comparison accepts exactly the pair "demo"/"password123"; a change of letter case or a trailing space is refused (empty fields never reach it, see `Submit`) |
| `LoginGate.SecurePDFApp.constructor` | src/SecurePDFViewer.js:9-13 | the app mounts logged out, with empty fields and no error |
| `LoginGate.SecurePDFApp.SetUsername` | src/SecurePDFViewer.js:104 | the username field holds what was typed |
| `LoginGate.SecurePDFApp.SetPassword` | src/SecurePDFViewer.js:124 | the password field holds what was typed |
| `LoginGate.SecurePDFApp.Submit` | src/SecurePDFViewer.js:89-126 | the form is submitted exactly when both `required` fields are non-empty; with either empty nothing changes; otherwise the submit handler runs, logging in on the reference pair and setting "Invalid username or password" on any other |
| `LoginGate.SecurePDFApp.HandleLogin` | src/SecurePDFViewer.js:19-27 | the submit's default is always cancelled (the returned flag is always true); the reference pair sets the logged-in flag and clears the error; any other pair sets "Invalid username or password" and leaves the flag as it was; no other state exists, so retries are unlimited, and a logged-in session stays logged in |
| `Navigation.PageLimit` | src/SecurePDFViewer.js:296 | `numPages \|\| 1` is at least 1; it is the page count when that is positive, and 1 when nothing is loaded or the count is 0 |
| `Navigation.PrevPage` | src/SecurePDFViewer.js:291-293 | the result is never below 1; above page 1 it is one page back; at or below page 1 it is page 1, so page 1 is a fixed point |
| `Navigation.NextPage` | src/SecurePDFViewer.js:295-297 | the result never exceeds `numPages \|\| 1`; below that limit it is one page forward; at or past the limit it is the limit, so the last page is a fixed point and an unloaded document pins the page to 1 |
| `Navigation.NavigateStaysInRange` | src/SecurePDFViewer.js:291-297 | any sequence of queued previous/next updates keeps an in-range page within `1..(numPages \|\| 1)` |
| `Navigation.RepeatedNext` | src/SecurePDFViewer.js:295-297 | k next-page updates from an in-range page p reach `min(p + k, numPages \|\| 1)` |
| `Navigation.RepeatedPrev` | src/SecurePDFViewer.js:291-293 | k previous-page updates from page p >= 1 reach `max(p - k, 1)` |
| `Navigation.NextThenPrev` | src/SecurePDFViewer.js:291-297 | next then previous returns to the starting page whenever it was not the last page |
| `Gestures.ClassifySwipe` | src/SecurePDFViewer.js:328-340 | with diff = start - end: a next-page swipe exactly when diff > 50, a previous-page swipe exactly when diff < -50, and nothing exactly when -50 <= diff <= 50 |
| `Gestures.SwipeMirror` | src/SecurePDFViewer.js:329-340 | reversing a drag swaps next for previous and keeps "nothing" as nothing |
| `Shortcuts.KeyResponse` | src/SecurePDFViewer.js:228-254 | the handler's three combined tests give exactly the decision table: modifier+"p"/"s" cancel and alert; modifier+"c"/"x" only cancel; "PrintScreen" and modifier+Shift+"3"/"4" cancel, alert and show the overlay; everything else does nothing |
| `Shortcuts.EffectsNest` | src/SecurePDFViewer.js:230-253 | a shown overlay always comes with an alert, and an alert always comes with a cancelled default |
| `Shortcuts.CaseSensitive` | src/SecurePDFViewer.js:230-245 | key strings compare exactly: "P", "S", "printscreen" and an unmodified "p" get no response |
| `Viewer.SecurePDFViewer.constructor` | src/SecurePDFViewer.js:161-166 | the viewer mounts on page 1 with no page count, no touch, no alert and the overlay hidden, and satisfies the page-range invariant |
| `Viewer.SecurePDFViewer.OnDocumentLoadSuccess` | src/SecurePDFViewer.js:175-177 | records the page count and leaves the page unchanged; the first load, or any load that does not lower the limit, keeps the page in range |
| `Viewer.SecurePDFViewer.GoToPrevPage` | src/SecurePDFViewer.js:291-293 | the page becomes the previous-page update of the old page; a no-op on page 1; keeps the page in range |
| `Viewer.SecurePDFViewer.GoToNextPage` | src/SecurePDFViewer.js:295-297 | the page becomes the next-page update of the old page under the current page count; a no-op on the last page; keeps the page in range |
| `Viewer.SecurePDFViewer.HandleTouchStart` | src/SecurePDFViewer.js:321-323 | records the touch's horizontal position as the start |
| `Viewer.SecurePDFViewer.HandleTouchEnd` | src/SecurePDFViewer.js:325-343 | with no recorded start, or a start at 0, nothing changes; otherwise exactly one next-page step, one previous-page step or none, as the swipe classifier says, and the start is cleared; keeps the page in range |
| `Viewer.SecurePDFViewer.HandleKeyDown` | src/SecurePDFViewer.js:228-254 | the default is cancelled, the alert raised and the overlay shown exactly as the decision table says for the event's shortcut; neither flag is ever lowered by a key |

## Left out

- Zoom (`zoomIn`, `zoomOut`) and the resize handler that resets the scale: these are floating-point arithmetic.
- The timers that hide the overlay after 300 ms and clear the alert after 3000 ms: only the immediate effect of a trigger is modelled (alert raised, overlay shown).
- The visibility-change and display-mode handlers: they depend on `document.visibilityState` (src/SecurePDFViewer.js:197, 201) and on `matchMedia` (212-213), which the model does not have, and they act through timers.
- Creating and removing the overlay element and the injected style sheet, and adding and removing the event listeners: DOM set-up and tear-down.
- The context-menu handler: it cancels every event unconditionally and holds no state.
- The fullscreen toggle: it uses the asynchronous Fullscreen API and a browser alert.
- The device-fingerprint code: it uses screen, locale, navigator and local-storage APIs and its callback is never run; the hook call itself sits at module level, outside any component.
- The password-visibility toggle and the rest of the login markup (labels, icons, the error box): display only. The `required` attributes of the two inputs are modelled, by `LoginGate.SecurePDFApp.Submit`.
- The document renderer and the PDF worker set-up: a foreign library.
- The `disabled` guards of the footer's previous and next buttons (src/SecurePDFViewer.js:422, 435): they only decide which clicks reach the page updaters. Before the document loads, `1 >= null` holds in JavaScript, so the next button is disabled and only a swipe reaches the next-page updater. No state of the model depends on them, since both updaters are already no-ops at their bounds.
- `Viewer.SecurePDFViewer.HandleTouchStart`, `Viewer.SecurePDFViewer.HandleTouchEnd`: touch positions are modelled as integers; in a browser `clientX` is a double and may be fractional.
- React's batching of state updates and handlers' captured (possibly stale) state: the model applies each handler's updates immediately and in order.
