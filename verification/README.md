# FinishLine in Dafny

A model of `FinishLine`, a scroll-zone evaluator. It binds to a node and, each time `run()` is called, decides from the scroll position whether the zone is idle, running (between a start line and a finish line) or completed (past the finish line). It then writes the result into the node's classes and inline `top`, and into a class on the page body. `deactivate()` forces the zone off and `isActive()` asks whether the node carries the running class.

The project has four modules:

- `Wrappers` (`wrappers.dfy`): `Option`, used for options the caller may leave out.
- `Dom` (`dom.dfy`): elements with a class set and an inline style map, and jQuery selections as sequences of elements. `addClass`, `removeClass`, `css`, `attr('style', '')` and `hasClass` act on every matched element; `hasClass` asks whether any element has the class.
- `Geometry` (`geometry.dfy`): the start and finish triggers, the `isRunning` and `hasCompleted` comparisons, the guard, and the classification into `Inert | Idle | Running | Completed`. It also holds the lemmas on direction, offsets and translation.
- `FinishLine` (`finish_line.dfy`): the options record, the live `Layout` that `run` reads, and the `Page` it writes. It defines `Run` as the literal ordered sequence of class and style writes, plus `Deactivate` and `IsActive`. The lemmas give the net effect of `run` per phase: completed precedence, the not-completed state, the guard, idempotence and frame.

Every value `run` reads through jQuery is a plain parameter in `Layout`. That covers the window width and scroll position, and the start and finish line selections as sequences of `Box(top, height)`, of which the first is measured. The body is one element's class set.

Two behaviours of the code are worth stating up front:

- On the guard path `run` only calls `deactivate`. That strips the three classes and keeps the inline style, while the unguarded idle path clears it (FinishLine.js:123). The model gives the guard path its own phase, `Inert`.
- `run` returns `false` on the guard path and `undefined` on the other path, because that path has no return statement (`JsValue.Undefined`).

The model proves that north mirrors south exactly for both triggers and for `isRunning`. For `hasCompleted` the mirror is off by twice the finish line's height, because both directions subtract that height from the finish trigger (`Geometry.NorthMirrorsSouth`). The pinned `top` does not mirror either: going north it is the finish line's bottom edge whatever the finish offset, going south it is the finish line's top plus twice the finish offset (`FinishLine.CompletedTopByDirection`). Both are recorded as behaviour, not as defects.

## Model

| member | source | states |
|---|---|---|
| Geometry.OffsetOrZero | FinishLine.js:81-86 | a missing offset and a zero offset both count as 0; any other offset is used unchanged |
| Geometry.ReachedIsSigned | FinishLine.js:90-91 | the north and south comparisons are the same "at or past" test after negating coordinates for north |
| Geometry.TriggersAreSignedShifts | FinishLine.js:80-88 | each trigger is its line's leading (start) or trailing (finish) edge moved by the offset in the scroll direction; the south start uses top + height, north uses top; the south finish uses top, north uses top + height |
| Geometry.NorthMirrorsSouth | FinishLine.js:80-91 | on a page turned upside down, north triggers and `isRunning` equal the south ones; `hasCompleted` matches only after shifting the scroll position by twice the finish height |
| Geometry.LargerStartOffsetStartsLater | FinishLine.js:81-90 | a larger start offset delays the start in both directions: whatever runs with it also runs without it |
| Geometry.TranslationInvariant | FinishLine.js:80-91 | moving the scroll position and both lines by the same distance changes neither `isRunning` nor `hasCompleted` |
| Geometry.Classify | FinishLine.js:93-125 | completed wins over running, running wins over idle; each phase holds exactly under its condition |
| FinishLine.PhaseOf | FinishLine.js:66-74 | the zone is inert exactly when the window is at or below the kill width or the node, start line or finish line selection is empty; a missing kill width never fires |
| FinishLine.IsActive | FinishLine.js:54-56 | active exactly when some element of the node carries the running class, so never for an empty node |
| FinishLine.Deactivate | FinishLine.js:133-142 | returns true; each node element loses the running and finish classes and nothing else; styles are untouched; the body loses its class; the zone is then not active |
| FinishLine.DeactivateIdempotent | FinishLine.js:133-142 | deactivating twice equals deactivating once |
| FinishLine.Run | FinishLine.js:64-127 | returns false exactly when the guard fires and undefined otherwise; the node selection keeps its elements |
| FinishLine.RunIsNetEffect | FinishLine.js:93-125 | the ordered writes of `run` equal the per-phase effect: inert strips the classes and keeps the style; idle also clears the style; running adds the running class and drops the finish class; completed swaps running for finish and pins `top`; the body class is present only when running |
| FinishLine.RunGuarded | FinishLine.js:66-74 | under the guard, `run` returns false, leaves what `deactivate` leaves, and does not touch inline styles |
| FinishLine.RunCompleted | FinishLine.js:107-119 | once completed, whatever `isRunning` says: finish class present, running class absent, body class absent, inline `top` equal to the finish trigger plus the finish offset |
| FinishLine.RunNotCompleted | FinishLine.js:93-100 | when not completed, the inline style is cleared and the finish class is absent; the running class and the body class are present exactly when running |
| FinishLine.RunFrame | FinishLine.js:93-124 | no node class other than the running and finish classes is added or removed, and no body class other than the body class is added or removed |
| FinishLine.RunIdempotent | FinishLine.js:93-125 | a second `run` with unchanged layout leaves the node classes, the node styles and the body classes as the first one left them |
| FinishLine.IsActiveAfterRun | FinishLine.js:54-56 | after `run`, `isActive` holds exactly when the phase is Running |
| FinishLine.CompletedTopByDirection | FinishLine.js:85-117 | the pinned `top` is the finish line's bottom edge going north, independent of the offset, and the finish line's top plus twice the offset going south |
| FinishLine.WorkedExample | FinishLine.js:80-117 | start line 500/20 and finish line 1000/50, south, no offsets: start trigger 520, completion threshold 950; scroll 300 is idle, 600 running, 980 completed with `top` 1000 |

## Left out

- jQuery and DOM reads (`$(window).width()`, `scrollTop()`, `offset()`, `outerHeight()`) become integer fields of `Layout`. Fractional pixel values are not modelled.
- The constructor's `typeof options !== "object"` check, its `console.error`, and the `return false` it makes: a constructor's return value does not change the instance in JavaScript. The model starts from a well-formed options record.
- `logOptions` and `getOptions`: a diagnostic print and a plain accessor, with no effect on state.
- The documented `orientation` option: the code never reads it.
- `parseInt(finishOffset)` and string-valued offsets, where `+` would concatenate strings: offsets are integers throughout.
- Start or finish line options that are missing altogether, where `.length` would throw: the lines are always selections, possibly empty.
- A `killWidth` of `null`, which JavaScript compares as 0: the kill width is either absent or an integer.
- The class-name options `runningModifier`, `finishModifier` and `bodyClass` are assumed present and non-empty. jQuery ignores an `undefined` or empty class name, but the model adds and removes it as a string. The documented `modifier` option is never read by the code and is not modelled.
- The node selection is assumed not to include the `body` element. If it did, the node writes and the body writes would go to one class list and one inline style, and later writes would undo earlier ones.
- Class names are single class tokens. jQuery's splitting of a space-separated class string into several classes is not modelled.
- Inline style values are `Px` or `Raw` text. jQuery's conversion of a number to a `px` string is folded into `Px`.
- Several evaluators sharing the body class: with no coordination, the last writer wins. One evaluator per page is modelled.
- The two-state goal-line variant of the evaluator is not part of this model. Only the three-state evaluator is.
- FinishLine.RunCompleted: assumes the running and finish class names differ. If they are the same, completing leaves that one class present.
- FinishLine.RunNotCompleted: assumes the running and finish class names differ. If they are the same, the class ends up absent even while running.
- FinishLine.IsActiveAfterRun: assumes the running and finish class names differ, for the same reason.
