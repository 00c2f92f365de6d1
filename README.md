# react-mops interaction hooks, modelled in Dafny

This project models the deterministic logic inside `packages/react-mops/src/hooks/use-hooks.ts`
of react-mops, the library of draggable, resizable and rotatable React boxes:

- **Platform sniffing** (`getOS`, `isOSX`), module `Platform` (`platform.dfy`). `navigator.appVersion`
  is an `Option<string>`; `None` stands for "there is no `navigator`". `String.prototype.indexOf` is
  modelled by `IndexOf` and proved against a search-order-free `Contains` predicate. The checks run
  in the order "Win", "Mac", "X11", "Linux", and the first hit wins. With no navigator the result is
  `NODE`, which is the same string as `UNIX`.
- **Modifier-key tracker** (`useMeta`), module `MetaKey` (`meta_key.dfy`). The class `MetaTracker`
  holds the `metaKey` state cell. It has one method per window listener: `HandleKeyDown`,
  `HandleKeyUp`, and `HandleFocus`, which is registered for both "focus" and "blur". The pure fold
  `Run` over an `Event` sequence is what the class's `Valid()` ties the state to. `RunMatchesSpec`
  proves the fold equal to a reference meaning: the key is held exactly when the last state-changing
  event is a key-down of the watched key.
- **Cursor sector index** (`useCursorSlice`), module `Cursors` (`cursors.dfy`). It computes
  `(Math.round(to360(z) / 45) + n) % rotationCursors.length`. Angles are `real`. `Math.round` is
  `JsRound`, the floor of `x + 1/2`, so halves go toward +infinity. JavaScript's truncating `%` is
  `JsRem`, whose result has the sign of the dividend.
- **Callback binder** (`useHandler`, `useHandlers`), modules `Geometry` and `Handlers`
  (`geometry.dfy`, `handlers.dfy`). A wrapper is represented by what its closure captures. `Call`
  gives the payloads passed to the callback and the returned value.

Behaviour reproduced as written, where a natural reading of the design says otherwise:

- Line 35 tests `isOSX`, the arrow function itself, without calling it. A function value is always
  truthy, so the watched key is `"Meta"` on every platform and a `"Control"` key-down never changes
  the state (`WatchedKey`, `ControlKeyDownIgnored`). The model follows the code, not the intended
  platform switch.
- `Math.round(44 / 45)` is 1, so 44 degrees selects sector 1, not sector 0 (`SectorExamples`).
- A negative offset can give a negative index (`NegativeOffsetNotWrapped`). JavaScript's `%` does
  not wrap a negative sum into `[0, len)`.
- An empty cursor list makes the code compute `NaN` and raise nothing. The model requires
  `len > 0` instead of modelling a failure.
- Ties in rounding go toward +infinity, as `Math.round` does, not away from zero. For the
  non-negative angles that reach it, both rules give the same result.

## Model

| member | source | states |
|---|---|---|
| `Platform.IndexOfFrom` | packages/react-mops/src/hooks/use-hooks.ts:13-22 | the search from `from` returns the first position at or after `from` where the substring occurs, or -1 when there is none |
| `Platform.IndexOf` | packages/react-mops/src/hooks/use-hooks.ts:13-22 | `indexOf(...) !== -1` holds exactly when the substring occurs; otherwise the result is its first occurrence |
| `Platform.GetOS` | packages/react-mops/src/hooks/use-hooks.ts:5-27 | the result is one of OSX, WINDOWS, LINUX, UNIX. With no navigator it is NODE ("UNIX"). Otherwise the first of Win, Mac, X11, Linux present picks WINDOWS, OSX, UNIX, LINUX, and no match gives NODE |
| `Platform.IsOSX` | packages/react-mops/src/hooks/use-hooks.ts:29 | true exactly when there is an appVersion that contains "Mac" and does not contain "Win" |
| `Platform.WinBeforeMac` | packages/react-mops/src/hooks/use-hooks.ts:13-18 | any appVersion containing "Win" is WINDOWS and not OSX, even if it also contains "Mac" |
| `Platform.HeadlessLooksLikeX11` | packages/react-mops/src/hooks/use-hooks.ts:8-9 | no navigator and an X11 appVersion (with no Win or Mac) classify as the same string, "UNIX" |
| `Platform.MacAppVersionIsOSX` | packages/react-mops/src/hooks/use-hooks.ts:16-17 | the appVersion "Mac" classifies as OSX |
| `MetaKey.WatchedKey` | packages/react-mops/src/hooks/use-hooks.ts:35 | the watched key is "Meta", never "Control", because the condition is the uncalled function value |
| `MetaKey.WatchedKeyIgnoresPlatform` | packages/react-mops/src/hooks/use-hooks.ts:29-35 | a called `isOSX()` would pick "Control" exactly off macOS; the hook as written watches "Meta" for every appVersion |
| `MetaKey.RunMatchesSpec` | packages/react-mops/src/hooks/use-hooks.ts:34-56 | after any event sequence the state is held exactly when the last event among key-down/key-up of the watched key, focus and blur is a key-down, or there is no such event and it was held at the start |
| `MetaKey.ResetForcesRelease` | packages/react-mops/src/hooks/use-hooks.ts:54-56 | after a focus or a blur with no later key-down of the watched key, the state is not held, whatever happened before |
| `MetaKey.IrrelevantEventsIgnored` | packages/react-mops/src/hooks/use-hooks.ts:36-52 | removing every key event for keys other than the watched key leaves the final state unchanged |
| `MetaKey.ControlKeyDownIgnored` | packages/react-mops/src/hooks/use-hooks.ts:35-43 | a "Control" key-down never changes the state of the hook |
| `MetaKey.KeyDownIdempotent` | packages/react-mops/src/hooks/use-hooks.ts:36-43 | a key-down of the watched key gives held from either state, and a repeated key-down changes nothing |
| `MetaKey.KeyUpReleases` | packages/react-mops/src/hooks/use-hooks.ts:45-52 | a key-up of the watched key gives not held from either state |
| `MetaKey.MetaTracker.constructor` | packages/react-mops/src/hooks/use-hooks.ts:34-35 | a mounted hook starts not held, with an empty history, watching `WatchedKey()` |
| `MetaKey.MetaTracker.HandleKeyDown` | packages/react-mops/src/hooks/use-hooks.ts:36-43 | the state becomes held on the watched key and is otherwise unchanged; the history grows by the event and the state stays the fold of the history |
| `MetaKey.MetaTracker.HandleKeyUp` | packages/react-mops/src/hooks/use-hooks.ts:45-52 | the state becomes not held on the watched key and is otherwise unchanged; the state stays the fold of the history |
| `MetaKey.MetaTracker.HandleFocus` | packages/react-mops/src/hooks/use-hooks.ts:54-56 | a focus or blur makes the state not held from either state |
| `MetaKey.MetaTracker.Dispatch` | packages/react-mops/src/hooks/use-hooks.ts:58-79 | each window event reaches the handler registered for its type (focus and blur both reach `HandleFocus`), and the new state is one `Step` of the old |
| `Cursors.JsRound` | packages/react-mops/src/hooks/use-hooks.ts:85 | `Math.round(x)` is the integer `r` with `r - 1/2 <= x < r + 1/2` |
| `Cursors.JsRoundUnique` | packages/react-mops/src/hooks/use-hooks.ts:85 | that integer is unique: any `k` in the window is the rounded value |
| `Cursors.JsRem` | packages/react-mops/src/hooks/use-hooks.ts:85 | JavaScript `%`: smaller in magnitude than the divisor, with the sign of the dividend, and `a == d * trunc(a / d) + r` |
| `Cursors.Sector` | packages/react-mops/src/hooks/use-hooks.ts:85 | for an angle in [0, 360) the rounded sector lies in 0..8, and it is the multiple of 45 nearest the angle |
| `Cursors.CursorSlice` | packages/react-mops/src/hooks/use-hooks.ts:82-88 | the index is in (-len, len), it is in [0, len) for a non-negative offset, it equals the mathematical modulo when sector plus offset is non-negative, and it differs from sector plus offset by a truncated multiple of len |
| `Cursors.SectorExamples` | packages/react-mops/src/hooks/use-hooks.ts:85 | 0, 44, 46, 22.5 and 350 degrees give sectors 0, 1, 1, 1 and 8; with 8 cursors, 350 degrees gives index 0, and 90 degrees with offset 2 gives index 4 |
| `Cursors.NegativeOffsetNotWrapped` | packages/react-mops/src/hooks/use-hooks.ts:85 | sector 0 with offset -1 and 8 cursors gives index -1 |
| `Handlers.Call` | packages/react-mops/src/hooks/use-hooks.ts:89-95 | with no handler nothing is called and nothing is returned. Otherwise the handler is called exactly once, with position, rotation and size equal to the captured geometry, and its result is returned |
| `Handlers.CallForwardsCurrentSnapshot` | packages/react-mops/src/hooks/use-hooks.ts:89-95 | wrappers made for two different snapshots pass different payloads, and each forwards its own snapshot |
| `Handlers.UseHandlers` | packages/react-mops/src/hooks/use-hooks.ts:115-176 | each of the nine wrappers `handleX` holds the callback `onX` of the same name, and all nine share one geometry snapshot |
| `Handlers.PhasesHaveDistinctSlots` | packages/react-mops/src/hooks/use-hooks.ts:119-127 | the nine callback names are nine separate slots: replacing one phase's callback changes what that phase reads and no other |
| `Handlers.HandlerCallsItsOwnCallback` | packages/react-mops/src/hooks/use-hooks.ts:115-176 | invoking the wrapper of a phase calls that phase's callback once, with the shared snapshot, and returns its result; it calls nothing if that callback is absent |

## Left out

- React machinery. `useState` is the `metaKey` field. The memoization and referential stability from
  `useCallback` are not modelled; a wrapper is kept as its captured dependencies. `useEffect`
  scheduling is not modelled.
- Adding and removing the window listeners (lines 58-79). Events enter the model as method calls;
  `Dispatch` only routes each event type to its handler.
- `useLoaded` (lines 97-100) and `useInitialSize` (lines 101-114). They are effects that read
  `clientHeight` and `clientWidth` from a DOM node.
- The `navigator` global. Its `appVersion` is a parameter, and a missing navigator is `None`.
- The bodies of `to360` (in `../utils`) and `rotationCursors` (in `../cursors`), which are not
  part of this model. `to360` is a parameter whose results lie in [0, 360). The cursor list is
  its length `len`.
- IEEE floating point. Angles are exact reals, so there is no NaN for an empty cursor list.
- Cursors.CursorSlice: requires `len > 0`. With an empty list the code yields NaN and raises
  nothing, and the model does not represent that.
- Handlers.Call: the callback is a pure function. Side effects performed by the caller's callback
  are outside the model.
- The shape of the rotation object is assumed to be `{x, y, z}`. Only `z` is read, and the whole
  object is forwarded unchanged.
