# RollingLayout, modelled in Dafny

RollingLayout is an Android container that shows one child view at a time and
rolls to the next child on a timer, sliding the old child out and the new one
in along one of four directions. It is a `ViewFlipper` with three settings
(orientation, each-time: the duration of one slide, pause time: the interval
between slides), a child list rebuilt wholesale from an adapter, one
change-listener slot and one item-click-listener slot.

The model has three modules:

- `RollingLayoutAction` (`rolling_layout_action.dfy`): the public contract. It
  holds the Java `int` type (`int32`), the four orientation codes and the closed
  `Orientation` type they stand for. It also holds the listener identities and
  the records of the two callbacks (`RollingChanged`, `RollingItemClick`).
- `ViewFlipperBase` (`view_flipper_base.dfy`): the behaviour the layout relies
  on from `ViewAnimator`/`ViewFlipper`. That code is not part of this model, so
  each rule there is an explicit assumption: selecting index `w` of `n`
  children shows 0 when `w >= n` and `n - 1` when `w < 0`; `showNext` selects
  the displayed index plus one; `removeAllViews` resets the displayed index to
  0; `addView(child)` appends without moving the index, and throws for a view
  that is already a child; `getChildAt` outside
  the list is null. The lemmas there prove what repeated advancing does under
  these rules.
- `RollingLayoutView` (`rolling_layout.dfy`): the orientation-to-animation
  table and the class `RollingLayout`. Its fields are the layout's own
  (`orientation`, `eachTime`, `pauseTime`, the two listener slots) plus the
  framework state it drives (flip interval, installed animations, children,
  displayed index, flipping flag, click handler).

Each listener call is modelled as the record the method returns. `None` means
no call was made. So "notified exactly once, after the update" is stated as
the returned record carrying the post-update fields.

Behaviour of the code that the model keeps as written:

- No setting is validated. Negative each-time and pause values are stored, and
  the pause value becomes the flip interval.
- An orientation code outside the four constants is still stored in
  `orientation`, but the installed animations stay as they were, and no error
  is raised.
- `showNext` has no guard for an empty layout. Under the framework rules above,
  the index stays 0 and a registered change listener is told `(0, 0)`.
- A new pause time reaches the flip interval at once.
- `setAdapter` leaves the flipping flag alone.
- If the adapter hands out the same view at two positions, `addView` throws at
  the second one. `setAdapter` then ends early: the layout keeps the views
  added before that one, and the exception is reported as `completed == false`.
- Each listener kind has one slot; registering again replaces the old listener.

## Model

| member | source | states |
|---|---|---|
| RollingLayoutAction.FromCode | library/src/main/java/com/jkb/rollinglayout/RollingLayoutAction.java:25-45 | an integer is an orientation exactly when it is one of the four annotated codes, and then it decodes to the orientation whose code it is |
| RollingLayoutAction.IsOrientationCode | library/src/main/java/com/jkb/rollinglayout/RollingLayoutAction.java:25-28 | the `@Orientation` value set is exactly the set of the four orientations' codes |
| RollingLayoutAction.Code | library/src/main/java/com/jkb/rollinglayout/RollingLayoutAction.java:33-45 | every orientation's constant is one of UP_DOWN, DOWN_UP, LEFT_RIGHT and RIGHT_LEFT |
| RollingLayoutAction.CodeRoundTrip | library/src/main/java/com/jkb/rollinglayout/RollingLayoutAction.java:25-45 | decoding an orientation's constant gives that orientation back |
| RollingLayoutAction.CodesDistinct | library/src/main/java/com/jkb/rollinglayout/RollingLayoutAction.java:33-45 | UP_DOWN, DOWN_UP, LEFT_RIGHT and RIGHT_LEFT are pairwise distinct |
| ViewFlipperBase.Adapter.Count | library/src/main/java/com/jkb/rollinglayout/RollingLayout.java:109 | assumed adapter: `getCount()` is the number of views the adapter holds |
| ViewFlipperBase.Adapter.GetView | library/src/main/java/com/jkb/rollinglayout/RollingLayout.java:110 | assumed adapter: `getView(i)` for an in-range position always hands out that position's view |
| ViewFlipperBase.SelectedIndex | library/src/main/java/com/jkb/rollinglayout/RollingLayout.java:64 | assumed framework rule: with children present the shown index is always a valid one, and an in-range request is shown as asked |
| ViewFlipperBase.AdvancedIndex | library/src/main/java/com/jkb/rollinglayout/RollingLayout.java:63-64 | the base advance moves a valid index to (index + 1) mod count, and keeps index 0 on an empty layout |
| ViewFlipperBase.ChildAt | library/src/main/java/com/jkb/rollinglayout/RollingLayout.java:151 | the child lookup yields a view exactly for in-range indices, and then the child at that index |
| ViewFlipperBase.AdvancesCycle | library/src/main/java/com/jkb/rollinglayout/RollingLayout.java:62-68 | k successive advances from a valid index land on (index + k) mod count |
| ViewFlipperBase.AdvancesPeriodic | library/src/main/java/com/jkb/rollinglayout/RollingLayout.java:62-68 | count further advances return to the same index |
| ViewFlipperBase.AdvancesNoEarlyReturn | library/src/main/java/com/jkb/rollinglayout/RollingLayout.java:62-68 | between 1 and count - 1 advances never return to the start, so the period is exactly count |
| ViewFlipperBase.AdvancesEmpty | library/src/main/java/com/jkb/rollinglayout/RollingLayout.java:62-68 | on an empty layout any number of advances keeps index 0 |
| RollingLayoutView.Transition | library/src/main/java/com/jkb/rollinglayout/RollingLayout.java:73-90 | each orientation selects an entering and an exiting slide resource, both named for that orientation's direction |
| RollingLayoutView.TransitionsDistinct | library/src/main/java/com/jkb/rollinglayout/RollingLayout.java:73-90 | two different orientations share no resource, so the four pairs are pairwise different |
| RollingLayoutView.RollingLayout.constructor | library/src/main/java/com/jkb/rollinglayout/RollingLayout.java:37-60 | missing attributes default to DOWN_UP, 500 and 1000; the flip interval is the pause time; the initial animations carry the each-time as duration because orientation is applied last; no children, index 0, not flipping, no listeners |
| RollingLayoutView.RollingLayout.ShowNext | library/src/main/java/com/jkb/rollinglayout/RollingLayout.java:62-68 | the index is advanced first; then a registered change listener gets exactly one call with the new index and the child count; with no listener no call is made; the layout invariant (valid index, distinct children) is kept |
| RollingLayoutView.RollingLayout.SetRollingOrientation | library/src/main/java/com/jkb/rollinglayout/RollingLayout.java:70-91 | the code is always stored; one of the four codes installs its table pair with the current each-time as duration; any other code keeps the installed animations |
| RollingLayoutView.RollingLayout.SetRollingEachTime | library/src/main/java/com/jkb/rollinglayout/RollingLayout.java:93-96 | stores the each-time and nothing else, so installed animations keep their durations |
| RollingLayoutView.RollingLayout.SetRollingPauseTime | library/src/main/java/com/jkb/rollinglayout/RollingLayout.java:98-102 | stores the pause time and sets the flip interval to exactly that value, negative values included |
| RollingLayoutView.RollingLayout.SetAdapter | library/src/main/java/com/jkb/rollinglayout/RollingLayout.java:104-113 | the index is 0 and no view is a child twice; the call completes exactly when the adapter's views are distinct, and then the child count equals the adapter count and child i is the adapter's view i; otherwise the children are the adapter's views before the first repeated one |
| RollingLayoutView.RollingLayout.StartRolling | library/src/main/java/com/jkb/rollinglayout/RollingLayout.java:115-118 | the layout is flipping |
| RollingLayoutView.RollingLayout.StopRolling | library/src/main/java/com/jkb/rollinglayout/RollingLayout.java:120-123 | the layout is not flipping |
| RollingLayoutView.RollingLayout.AddOnRollingChangedListener | library/src/main/java/com/jkb/rollinglayout/RollingLayout.java:125-128 | the single change slot holds the new listener, replacing any earlier one |
| RollingLayoutView.RollingLayout.SetOnRollingItemClickListener | library/src/main/java/com/jkb/rollinglayout/RollingLayout.java:130-134 | the single click slot holds the new listener, and the layout is its own click handler |
| RollingLayoutView.RollingLayout.GetAnimator | library/src/main/java/com/jkb/rollinglayout/RollingLayout.java:142-146 | the animation is the requested resource with the current each-time as duration |
| RollingLayoutView.RollingLayout.OnClick | library/src/main/java/com/jkb/rollinglayout/RollingLayout.java:148-153 | with a click listener, one call carrying the displayed child, the layout itself and the displayed index; no view when the layout is empty; no call without a listener |
| RollingLayoutView.RollingLayout.FlipperShowNext | library/src/main/java/com/jkb/rollinglayout/RollingLayout.java:64 | assumed framework advance: the index becomes the advanced index |
| RollingLayoutView.RollingLayout.SetFlipInterval | library/src/main/java/com/jkb/rollinglayout/RollingLayout.java:101 | assumed framework setter: the flip interval becomes the given value |
| RollingLayoutView.RollingLayout.SetInAnimation | library/src/main/java/com/jkb/rollinglayout/RollingLayout.java:75 | the entering animation is installed |
| RollingLayoutView.RollingLayout.SetOutAnimation | library/src/main/java/com/jkb/rollinglayout/RollingLayout.java:76 | the exiting animation is installed |
| RollingLayoutView.RollingLayout.RemoveAllViews | library/src/main/java/com/jkb/rollinglayout/RollingLayout.java:107 | assumed framework rule: no children remain and the index is reset to 0 |
| RollingLayoutView.RollingLayout.AddView | library/src/main/java/com/jkb/rollinglayout/RollingLayout.java:110 | assumed framework rule: a view that is not yet a child is appended and the index does not move; a view that already is a child is refused and nothing changes |

## Left out

- Reading the styled attributes (`obtainStyledAttributes`, `TypedArray`) is resource I/O. The constructor takes the three attribute values as optional parameters instead; an absent one means the default.
- Loading and playing animations is done by the rendering engine. An animation is modelled as its resource name plus the duration set on it. The engine's own checks (a negative duration is refused by the framework) are not part of this model.
- `requestLayout`, the adapter's view inflation, child visibility and the `Context` are rendering concerns. Children are opaque view ids, and adapter view `i` is one fixed id.
- The timer and message handler behind `startFlipping`/`stopFlipping` are not modelled; only the flipping flag is. So the automatic ticks that call `showNext`, and the framework's extra visibility conditions for running, are not modelled either.
- Listener code is not modelled; each call is the record a method returns. So a listener that throws or calls back into the layout is not captured.
- RollingLayoutView.RollingLayout.AddView: only a view that is already a child of this layout is refused. A view that is attached to some other parent also makes the framework throw; that case is not modelled, because views are opaque ids with no parent.
- Indices and child counts are unbounded integers. A child list long enough to overflow a Java `int` is not considered.
- The demo activity is host UI code with no logic of its own.
