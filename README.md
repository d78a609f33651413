# SYRefresh RefreshView — a verified model

SYRefresh adds pull-to-refresh headers and load-more footers to a UIKit scroll
view. All the behaviour lives in `RefreshView`:
- It observes the scroll view's `contentOffset`, its `contentSize` (footers only) and the end of its pan gesture.
- From these it computes a clamped `pullProgress` and notifies `idle`/`pulling` transitions.
- On `beginRefreshing` it grows one content inset of the scroll view by its own extent and runs the completion callback.
- `endRefreshing` shrinks that inset again.
- A footer hides itself while the content is shorter than the scroll view.
- A footer can start loading automatically at a configured fraction of the scrollable distance.

The model has three modules:

- `Geometry` (geometry.dfy) holds the value types and `IsLeftOrRight`, the `isLeftOrRightOrientation` test (lines 228-230). `Point`, `Size` and `EdgeInsets` stand for CGPoint, CGSize and UIEdgeInsets, with CGFloat as `real`. `ScrollMetrics` is what the control reads from its host. Beside them are the pure expressions of the source:
  - the clamped progress formulas of the four orientation/footer branches;
  - the pulling thresholds and the idle/pulling transition;
  - the content-size guard and the auto-refresh test;
  - the inset changes of the two animations.
- `Controller` (controller.dfy) gives every operation as a function from the control's state and the host's metrics before the call (a `Scene`) to both after it. The lemmas about the model are stated on these functions, including its invariant over any sequence of events.
- `RefreshControl` (refresh_view.dfy) is the imperative form. `ScrollView` is the host. `RefreshView` is a class that updates its fields and its host's inset and offset in place. The methods the observers and the application call (`BeginRefreshing`, `EndRefreshing`, `ContentOffsetChange`, `FooterAutoRefresh`, `ContentSizeChange` and `ScrollViewEndDragging`) are each proved to compute the matching `Controller` function (`ensures Snapshot() == Begin(Kind(), old(Snapshot()))`) and to keep `Valid()`. The helpers they call are proved against smaller pieces: the `didSet` observers and `setState` against `Controller.AssignIsRefreshing`, `AssignPullProgress` and `SetState`, the animation blocks against `Geometry.Reveal` and `Conceal`, the offset tracking against `Controller.Drag`. `DidMoveToSuperview` and `CheckContentSizeValid` state their effect directly. `HeaderClient` is a worked client of the class: it attaches a header to a scroll view, pulls it, releases it and ends the refresh.

Conventions of the model:
- The renderer hooks `setState`, `updateRefreshState` and `updatePullProgress` are recorded in the `notifications` log, in call order. Calls of the completion callback are counted in `completionCalls`.
- Each `UIView.animate` block and its completion closure are one atomic step.
- The three observed events are explicit method calls: `ContentOffsetChange`, `ContentSizeChange` and `ScrollViewEndDragging`.
- `setState` is modelled as a subclass override that stores the state it receives (`state := st`) as well as logging it. The base class's `setState` (RefreshView.swift:225) is empty, and nothing in RefreshView.swift assigns `state`. The `idle`/`pulling` transitions read `state`, so they only make sense for a subclass that stores it. This is the behaviour the model assumes.
- The `didSet` observers of `isRefreshing` and `pullProgress` are the methods `SetIsRefreshing` and `SetPullProgress`. Like the source, they call `checkContentSizeValid`, so they can hide or show a footer.
- The footer that `checkContentSizeValid` hides through `scrollview.sy_footer` is taken to be the control itself.

Quirks of the code that the model keeps as written:
- The horizontal header computes its progress from `contentInset.right` (line 250) although its threshold reads `contentInset.left` (line 252). `Geometry.HorizontalHeaderInsetMismatch` gives an input that is fully pulled but not beyond the threshold.
- The horizontal header's `beginRefreshing` writes `contentOffset.y := width + inset.left` (line 172).
- Only the vertical `endRefreshing` re-hides the control (line 217), header or footer alike. On the horizontal axis a footer's `isHidden` follows the content-size guard, and a header's stays as it was, since the guard does nothing for a header.
- `endRefreshing` does not check `isRefreshing`. A call without a preceding `beginRefreshing` still shrinks the inset.
- After attachment a horizontal control's width is its former height and its height is the scroll view's height (line 110). The horizontal auto-refresh test subtracts that height (line 296).
- A footer is placed at zero on attachment (lines 110 and 115; only a header's origin is then moved), not after the content. It moves to the content's end only when a content-size change is observed. The horizontal branch compares `bounds.minX`, which is always zero, with the content width (line 343).
- The base class's `setState` (line 225) stores nothing, so `state` is only ever changed by an overriding subclass; see the convention above.
- The comment on `footerAutoRefreshProgress` (line 34) calls 1.0 "refresh once the control is fully shown", but the auto-refresh test requires the ratio to be below 1.0 (lines 295 and 303), so the default never auto-refreshes. `Geometry.DefaultRatioNeverAutoRefreshes` follows the code.
- A division by a zero extent is modelled as CGFloat division followed by Swift's `min`/`max`: the progress is 1 for a positive numerator and 0 otherwise.

## Model

| member | source | states |
|---|---|---|
| Geometry.ClampedRatio | SYRefresh/RefreshView.swift:240 | `min(1, max(0, num/den))` always lies in [0,1]. For a positive extent it is 1 exactly when `num >= den`, 0 exactly when `num <= 0`, and the exact ratio in between |
| Geometry.PullProgress | SYRefresh/RefreshView.swift:238-272 | The progress assigned in each of the four orientation/footer branches lies in [0,1] |
| Geometry.DragTransition | SYRefresh/RefreshView.swift:244-280 | The only notifications are idle→pulling, exactly when idle and strictly beyond the threshold, and pulling→idle, exactly when pulling and strictly short of it. Never `refreshing` or `noMoreData` |
| Geometry.RevealGrowsOwnEdge | SYRefresh/RefreshView.swift:167-189 | The begin animation grows exactly the inset on the control's own side (top, left, bottom or right) by its extent. It changes no other inset, nor the content size or bounds, and for a footer not the offset |
| Geometry.ConcealShrinksOwnEdge | SYRefresh/RefreshView.swift:195-213 | The end animation shrinks exactly that inset by the extent and changes nothing else |
| Geometry.ConcealUndoesReveal | SYRefresh/RefreshView.swift:160-221 | Ending after beginning, with the same extent, restores the insets, whatever happened to the offset and content size in between |
| Geometry.VerticalHeaderFullAtThreshold | SYRefresh/RefreshView.swift:272-276 | A vertical header with a positive height is fully pulled exactly when the offset is at or beyond `-inset.top - height` |
| Geometry.FooterFullAtThreshold | SYRefresh/RefreshView.swift:238-264 | A footer with a positive extent is fully pulled exactly when the offset reaches `contentSize - bounds + extent` plus the trailing inset |
| Geometry.HorizontalHeaderInsetMismatch | SYRefresh/RefreshView.swift:250-252 | Because progress and threshold read different insets, a horizontal header can be fully pulled without being beyond its pulling threshold |
| Geometry.DefaultRatioNeverAutoRefreshes | SYRefresh/RefreshView.swift:293-303 | With the default ratio 1.0 the footer auto-refresh test (`ratio < 1.0`) never passes |
| Controller.Begin | SYRefresh/RefreshView.swift:160-190 | Already refreshing: nothing changes. Footer content too short: only the footer is hidden. Otherwise the control is refreshing with progress 1 and state `refreshing`. The log gains exactly updateRefreshState(true) then setState(refreshing). The completion count rises by exactly one. The host becomes `Reveal` of the old host. Size and origin are unchanged. The invariants are preserved |
| Controller.End | SYRefresh/RefreshView.swift:193-221 | With no check of `isRefreshing`, the control ends not refreshing, with progress 0 and state `idle`. The host's inset is concealed by the extent. The completion count is unchanged. The exact hook calls are logged, the last being setState(idle). A vertical control is hidden; a horizontal footer's visibility follows the content-size guard |
| Controller.AutoRefresh | SYRefresh/RefreshView.swift:289-311 | A header: no change. A footer begins refreshing exactly when the content-size guard passes, `0 <= ratio < 1` and `offset >= (contentSize - bounds - trailing inset - own height) * ratio`. Otherwise only the guard's hide or show happens |
| Controller.OffsetChange | SYRefresh/RefreshView.swift:234-286 | Changes nothing when refreshing or not dragging. The control's size, origin and auto-refresh ratio never change. Otherwise a header ends visible and a footer ends hidden exactly when its content is too short. When the footer auto-refresh test passes, the control begins refreshing: state `refreshing`, progress 1, one completion call, the host's inset revealed, and the log gains exactly updatePullProgress, the idle/pulling setState if any, updateRefreshState(true) and setState(refreshing). When it does not, the control stays not refreshing and the host and completion count are unchanged. The invariants are preserved |
| Controller.OffsetChangeOnlyPulls | SYRefresh/RefreshView.swift:234-286 | While dragging and without the auto-refresh firing, the host and the completion count are unchanged and the control stays not refreshing. The progress is the formula's value. The state changes only by the idle/pulling transition. The log gains exactly updatePullProgress (unless the guard fails) and that transition's setState |
| Controller.SizeChange | SYRefresh/RefreshView.swift:339-350 | Only visibility and origin change. A footer is hidden exactly when its content is too short. A valid vertical footer moves to `y = contentSize.height`. A valid horizontal footer moves to `x = contentSize.width` unless that width is 0 |
| Controller.EndDrag | SYRefresh/RefreshView.swift:353-356 | The end of a drag begins refreshing exactly when not refreshing and `pullProgress >= 1`; otherwise nothing changes |
| Controller.RunKeepsInvariant | SYRefresh/RefreshView.swift:45-59 | Over any sequence of offset changes, content-size changes, drag ends, begin and end calls, the following hold: the progress stays in [0,1]; `isRefreshing` holds exactly when the state is `refreshing`; the progress is 1 while refreshing; a footer whose content is too short stays hidden |
| Controller.RefreshingKeepsInsets | SYRefresh/RefreshView.swift:161 | While refreshing, any events other than endRefreshing leave the control refreshing and its size and the host's insets unchanged. Repeated beginRefreshing calls never apply the inset twice |
| Controller.RefreshCycleRestoresInsets | SYRefresh/RefreshView.swift:160-221 | A begin that takes effect, then any events other than end, then end, restores every inset of the host |
| Controller.HeaderPullThenReleaseScenario | SYRefresh/RefreshView.swift:272-280 | A 44-point header pulled to offset -50 has progress 1 and is `pulling`. Releasing it begins refreshing with top inset 44, offset -44 and one completion call |
| Controller.FooterRevealScenario | SYRefresh/RefreshView.swift:262-270 | A 44-point footer under 1000 points of content in an 800-point view at offset 244 has progress 1. With the default ratio it does not start until the drag ends, after which the bottom inset is 44 |
| Controller.FooterAutoRefreshScenario | SYRefresh/RefreshView.swift:303-308 | With ratio 0.5 and threshold (1000-800-0-44)*0.5 = 78, offset 78 auto-begins and offset 77 does not |
| RefreshControl.RefreshView.constructor | SYRefresh/RefreshView.swift:71-81 | A control is a footer exactly when its orientation is bottom or right. It starts hidden, idle, not refreshing, with progress 0, ratio 1.0 and height `height`. Its only log entry is updatePullProgress(0) |
| RefreshControl.RefreshView.DidMoveToSuperview | SYRefresh/RefreshView.swift:105-120 | Attaching takes the scroll view. A horizontal control becomes (old height) × (scroll view height); a vertical one becomes (scroll view width) × (old height). A header is placed one extent before the origin, a footer at zero. Detaching changes nothing else |
| RefreshControl.RefreshView.CheckContentSizeValid | SYRefresh/RefreshView.swift:314-336 | A header, or a control without a scroll view, answers false and changes nothing. A footer answers true exactly when its content is shorter than the scroll view on its axis, and is hidden exactly when it answers true |
| RefreshControl.RefreshView.SetIsRefreshing | SYRefresh/RefreshView.swift:45-51 | Assigning `isRefreshing` runs the content-size guard and calls updateRefreshState unless the guard fails |
| RefreshControl.RefreshView.SetPullProgress | SYRefresh/RefreshView.swift:53-59 | Assigning `pullProgress` calls updatePullProgress only when not refreshing and the guard passes |
| RefreshControl.RefreshView.SetState | SYRefresh/RefreshView.swift:225 | setState logs the new state and, as an overriding subclass would, stores it |
| RefreshControl.RefreshView.BeginRefreshing | SYRefresh/RefreshView.swift:160-190 | Computes `Controller.Begin` on the control and its scroll view in place and keeps `Valid()`. With no scroll view nothing changes |
| RefreshControl.RefreshView.RevealAnimation | SYRefresh/RefreshView.swift:167-189 | The begin animation block changes the scroll view exactly as `Geometry.Reveal` |
| RefreshControl.RefreshView.EndRefreshing | SYRefresh/RefreshView.swift:193-221 | Computes `Controller.End` in place and establishes `Valid()`. With no scroll view nothing changes |
| RefreshControl.RefreshView.ConcealAnimation | SYRefresh/RefreshView.swift:195-213 | The end animation block changes the scroll view exactly as `Geometry.Conceal` |
| RefreshControl.RefreshView.ContentOffsetChange | SYRefresh/RefreshView.swift:234-286 | Computes `Controller.OffsetChange` in place and keeps `Valid()`. With no scroll view nothing changes |
| RefreshControl.RefreshView.TrackPull | SYRefresh/RefreshView.swift:238-282 | The four orientation branches compute `Controller.Drag`: the clamped progress and the idle/pulling notification |
| RefreshControl.RefreshView.FooterAutoRefresh | SYRefresh/RefreshView.swift:289-311 | Computes `Controller.AutoRefresh` in place and keeps `Valid()` |
| RefreshControl.RefreshView.ContentSizeChange | SYRefresh/RefreshView.swift:339-350 | Computes `Controller.SizeChange` in place and keeps `Valid()` |
| RefreshControl.RefreshView.ScrollViewEndDragging | SYRefresh/RefreshView.swift:353-356 | Computes `Controller.EndDrag` in place and keeps `Valid()` |

## Left out

- Key-value observation: registering and removing the observers and the `observeValue` dispatch (lines 101-103, 123-157, 358-360). The three observed events are explicit calls. `Controller.Step` feeds content-size changes to footers only, as the registration does.
- Animation timing and the 0.3 s duration: each animation and its completion is one step. Consequently `endRefreshing` arriving while a begin animation is still in flight is not modelled.
- When the begin animation writes the header's offset, KVO calls `contentOffsetChange`. That call returns at once because `isRefreshing` is already true, so the model omits it.
- The rendering done by `updateRefreshState` and `updatePullProgress`: they are abstract hooks that end in `fatalError` in the base class. Here they are entries in the `notifications` log.
- RefreshControl.RefreshView.SetState: stores the state, which the base class's empty `setState` does not. This is an assumption about overriding subclasses; without it `state` would stay `idle`.
- `init(coder:)`, the hint-text tables, fonts and colours (lines 83-85, 363-388): constants and UIKit resources.
- CGFloat rounding, infinities and NaN, other than the division by a zero extent.
- The `sy_header`/`sy_footer` accessors are not part of this model. The footer they name is taken to be the control itself.
- `willMove(toSuperview:)` only removes observers and is not modelled.
- Setting a new `orientation` or `isFooter` after construction: both are fixed at construction in the model.
- Writes to the scroll view by anyone else are not events of the model, apart from the user's scrolling and content-size changes. This covers its bounds and its insets.
- SYRefreshExample/CoreTextTableViewController.swift and SYRefreshExample/TestVerticalCollectionViewController.swift are demo view controllers with data sources and delayed callbacks; they hold no logic of the control.
