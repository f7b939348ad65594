/**
 * The rolling layout: a flipper that shows one child at a time, slides to the
 * next child with a directional enter/exit animation pair, and tells its two
 * listeners about changes and clicks.
 */
module RollingLayoutView {
  import opened Wrappers
  import opened RollingLayoutAction
  import opened ViewFlipperBase

  /** Default styled attributes: orientation, each-time and pause time. */
  const DEFAULT_ORIENTATION: int32 := DOWN_UP
  const DEFAULT_EACH_TIME: Millis := 500
  const DEFAULT_PAUSE_TIME: Millis := 1000

  /** The eight slide animation resources shipped with the layout. */
  datatype AnimRes =
    | SlideUpToDownIn | SlideUpToDownOut
    | SlideDownToUpIn | SlideDownToUpOut
    | SlideLeftToRightIn | SlideLeftToRightOut
    | SlideRightToLeftIn | SlideRightToLeftOut
  {
    /** True for the resources that bring the new child in. */
    predicate IsIn()
    {
      SlideUpToDownIn? || SlideDownToUpIn? || SlideLeftToRightIn? || SlideRightToLeftIn?
    }

    /** The direction the resource's name announces. */
    function Direction(): Orientation
    {
      match this
      case SlideUpToDownIn | SlideUpToDownOut => UpDown
      case SlideDownToUpIn | SlideDownToUpOut => DownUp
      case SlideLeftToRightIn | SlideLeftToRightOut => LeftRight
      case SlideRightToLeftIn | SlideRightToLeftOut => RightLeft
    }
  }

  /** A loaded animation: its resource and the duration set on it, in milliseconds. */
  datatype Animation = Animation(res: AnimRes, duration: int)

  /** The enter and exit resources of one orientation. */
  datatype TransitionPair = TransitionPair(enter: AnimRes, exit: AnimRes)

  /**
   * The fixed orientation-to-animation table: an orientation selects an
   * entering resource and an exiting resource, both sliding in its direction.
   */
  function Transition(o: Orientation): (p: TransitionPair)
    ensures p.enter.IsIn() && !p.exit.IsIn()
    ensures p.enter.Direction() == o && p.exit.Direction() == o
  {
    match o
    case UpDown => TransitionPair(SlideUpToDownIn, SlideUpToDownOut)
    case DownUp => TransitionPair(SlideDownToUpIn, SlideDownToUpOut)
    case LeftRight => TransitionPair(SlideLeftToRightIn, SlideLeftToRightOut)
    case RightLeft => TransitionPair(SlideRightToLeftIn, SlideRightToLeftOut)
  }

  /** Different orientations share no resource: the four pairs are pairwise different. */
  lemma TransitionsDistinct(o1: Orientation, o2: Orientation)
    requires o1 != o2
    ensures Transition(o1).enter != Transition(o2).enter
    ensures Transition(o1).exit != Transition(o2).exit
    ensures Transition(o1).enter != Transition(o2).exit
    ensures Transition(o1) != Transition(o2)
  {
  }

  class RollingLayout {
    // The layout's own fields.
    var orientation: int32
    var eachTime: Millis
    var pauseTime: Millis
    var changedListener: Option<ChangedListener>
    var itemClickListener: Option<ItemClickListener>

    // State the layout keeps in the framework classes it extends.
    var flipInterval: Millis
    var inAnimation: Option<Animation>
    var outAnimation: Option<Animation>
    var children: seq<ViewId>
    var displayed: int
    var flipping: bool
    /** Whether the layout is installed as its own click handler. */
    var clicksHandledBySelf: bool

    /**
     * The displayed index is a valid child index, or 0 when there are no
     * children, and no view is a child twice.
     */
    predicate Valid()
      reads this
    {
      0 <= displayed && (displayed < |children| || displayed == 0) && Distinct(children)
    }

    /**
     * Builds the layout from its styled attributes (None: attribute absent).
     * Pause time and each-time are applied before the orientation, so the
     * initial animations already carry the each-time as their duration.
     */
    constructor (attrOrientation: Option<int32>, attrEachTime: Option<Millis>, attrPause: Option<Millis>)
      ensures Valid()
      ensures orientation == attrOrientation.GetOr(DEFAULT_ORIENTATION)
      ensures eachTime == attrEachTime.GetOr(DEFAULT_EACH_TIME)
      ensures pauseTime == attrPause.GetOr(DEFAULT_PAUSE_TIME) && flipInterval == pauseTime
      ensures match FromCode(orientation)
        case Some(o) =>
          inAnimation == Some(Animation(Transition(o).enter, eachTime as int)) &&
          outAnimation == Some(Animation(Transition(o).exit, eachTime as int))
        case None => inAnimation == None && outAnimation == None
      ensures children == [] && displayed == 0 && !flipping
      ensures changedListener == None && itemClickListener == None && !clicksHandledBySelf
    {
      orientation, eachTime, pauseTime := 0, 0, 0;
      changedListener, itemClickListener := None, None;
      flipInterval := DEFAULT_FLIP_INTERVAL;
      inAnimation, outAnimation := None, None;
      children, displayed, flipping := [], 0, false;
      clicksHandledBySelf := false;
      new;
      orientation := attrOrientation.GetOr(DEFAULT_ORIENTATION);
      eachTime := attrEachTime.GetOr(DEFAULT_EACH_TIME);
      pauseTime := attrPause.GetOr(DEFAULT_PAUSE_TIME);
      SetRollingPauseTime(pauseTime);
      SetRollingEachTime(eachTime);
      SetRollingOrientation(orientation);
    }

    /**
     * Advances to the next child, then, if a change listener is registered,
     * notifies it exactly once with the new displayed index and the child count.
     */
    method ShowNext() returns (notified: Option<RollingChanged<RollingLayout>>)
      requires Valid()
      modifies this`displayed
      ensures Valid()
      ensures displayed == AdvancedIndex(old(displayed), |children|)
      ensures changedListener.None? ==> notified == None
      ensures changedListener.Some? ==>
        notified == Some(RollingChanged(changedListener.value, this, displayed, |children|))
    {
      FlipperShowNext();
      if changedListener.Some? {
        notified := Some(RollingChanged(changedListener.value, this, displayed, |children|));
      } else {
        notified := None;
      }
    }

    /**
     * Stores the orientation code. A code of the four orientations installs
     * that orientation's enter/exit pair, each with the current each-time as
     * duration; any other code installs nothing and keeps the old animations.
     */
    method SetRollingOrientation(code: int32)
      requires Valid()
      modifies this`orientation, this`inAnimation, this`outAnimation
      ensures Valid()
      ensures orientation == code
      ensures match FromCode(code)
        case Some(o) =>
          inAnimation == Some(Animation(Transition(o).enter, eachTime as int)) &&
          outAnimation == Some(Animation(Transition(o).exit, eachTime as int))
        case None => inAnimation == old(inAnimation) && outAnimation == old(outAnimation)
    {
      orientation := code;
      match FromCode(code) {
        case Some(o) =>
          var pair := Transition(o);
          var animation := GetAnimator(pair.enter);
          SetInAnimation(animation);
          animation := GetAnimator(pair.exit);
          SetOutAnimation(animation);
        case None =>
      }
    }

    /** Stores the each-time; animations already installed keep their duration. */
    method SetRollingEachTime(time: Millis)
      requires Valid()
      modifies this`eachTime
      ensures Valid()
      ensures eachTime == time
    {
      eachTime := time;
    }

    /** Stores the pause time and makes it the flip interval, whatever its sign. */
    method SetRollingPauseTime(time: Millis)
      requires Valid()
      modifies this`pauseTime, this`flipInterval
      ensures Valid()
      ensures pauseTime == time && flipInterval == time
    {
      pauseTime := time;
      SetFlipInterval(time);
    }

    /**
     * Discards every child, then appends the adapter's views 0 .. count-1 in
     * order; the displayed index is back at 0 and whether the layout is
     * flipping is left alone. When the adapter hands out a view that is
     * already a child, appending it throws: the call ends there (`completed`
     * is false) and the layout keeps the views appended before it.
     */
    method SetAdapter(adapter: Adapter) returns (completed: bool)
      modifies this`children, this`displayed
      ensures Valid() && displayed == 0
      ensures completed <==> Distinct(adapter.views)
      ensures completed ==> |children| == adapter.Count()
      ensures completed ==> forall i :: 0 <= i < adapter.Count() ==> children[i] == adapter.GetView(i)
      ensures !completed ==> |children| < adapter.Count() && children == adapter.views[..|children|]
      ensures !completed ==> adapter.GetView(|children|) in children
    {
      RemoveAllViews();
      for i := 0 to adapter.Count()
        invariant children == adapter.views[..i]
        invariant displayed == 0
        invariant Distinct(children)
      {
        var added := AddView(adapter.GetView(i));
        if !added {
          ghost var j :| 0 <= j < i && children[j] == adapter.views[i];
          assert adapter.views[j] == adapter.views[i];
          return false;
        }
      }
      return true;
    }

    /** Starts the framework's automatic flipping. */
    method StartRolling()
      requires Valid()
      modifies this`flipping
      ensures Valid()
      ensures flipping
    {
      flipping := true;
    }

    /** Stops the framework's automatic flipping. */
    method StopRolling()
      requires Valid()
      modifies this`flipping
      ensures Valid()
      ensures !flipping
    {
      flipping := false;
    }

    /** Fills the single change-listener slot, replacing any earlier listener. */
    method AddOnRollingChangedListener(listener: ChangedListener)
      requires Valid()
      modifies this`changedListener
      ensures Valid()
      ensures changedListener == Some(listener)
    {
      changedListener := Some(listener);
    }

    /**
     * Fills the single item-click-listener slot, replacing any earlier
     * listener, and installs the layout as its own click handler.
     */
    method SetOnRollingItemClickListener(listener: ItemClickListener)
      requires Valid()
      modifies this`itemClickListener, this`clicksHandledBySelf
      ensures Valid()
      ensures itemClickListener == Some(listener) && clicksHandledBySelf
    {
      itemClickListener := Some(listener);
      clicksHandledBySelf := true;
    }

    /** Loads an animation resource and gives it the current each-time as duration. */
    method GetAnimator(res: AnimRes) returns (animation: Animation)
      ensures animation.res == res && animation.duration == eachTime as int
    {
      animation := Animation(res, eachTime as int);
    }

    /**
     * A click on the layout: with an item-click listener registered, calls it
     * with the displayed child, the layout itself and the displayed index;
     * otherwise does nothing. The clicked view `v` is not consulted.
     */
    method OnClick(v: ViewId) returns (notified: Option<RollingItemClick<RollingLayout>>)
      requires Valid()
      ensures itemClickListener.None? ==> notified == None
      ensures itemClickListener.Some? ==>
        notified.Some? && notified.value.listener == itemClickListener.value &&
        notified.value.parent == this && notified.value.position == displayed
      ensures notified.Some? ==> (notified.value.view.Some? <==> |children| > 0)
      ensures notified.Some? && |children| > 0 ==> notified.value.view == Some(children[displayed])
    {
      if itemClickListener.Some? {
        notified := Some(RollingItemClick(itemClickListener.value, ChildAt(children, displayed), this, displayed));
      } else {
        notified := None;
      }
    }

    // Framework primitives used above.

    /** The framework's own advance: selects the displayed index plus one. */
    method FlipperShowNext()
      modifies this`displayed
      ensures displayed == AdvancedIndex(old(displayed), |children|)
    {
      displayed := AdvancedIndex(displayed, |children|);
    }

    /** Sets the interval between automatic flips. */
    method SetFlipInterval(interval: Millis)
      modifies this`flipInterval
      ensures flipInterval == interval
    {
      flipInterval := interval;
    }

    /** Installs the animation that brings the next child in. */
    method SetInAnimation(animation: Animation)
      modifies this`inAnimation
      ensures inAnimation == Some(animation)
    {
      inAnimation := Some(animation);
    }

    /** Installs the animation that takes the current child out. */
    method SetOutAnimation(animation: Animation)
      modifies this`outAnimation
      ensures outAnimation == Some(animation)
    {
      outAnimation := Some(animation);
    }

    /** Removes every child; the displayed index returns to 0. */
    method RemoveAllViews()
      modifies this`children, this`displayed
      ensures children == [] && displayed == 0
    {
      children, displayed := [], 0;
    }

    /**
     * Appends a child at the end; the displayed index does not move. A view
     * that is already a child is refused (the framework throws) and nothing
     * changes.
     */
    method AddView(child: ViewId) returns (added: bool)
      modifies this`children
      ensures added <==> child !in old(children)
      ensures children == if added then old(children) + [child] else old(children)
    {
      if child in children {
        return false;
      }
      children := children + [child];
      return true;
    }
  }
}
