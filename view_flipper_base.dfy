/**
 * The behaviour the rolling layout relies on from the framework classes it
 * extends (`ViewAnimator`, `ViewFlipper`) and from the adapter it is given.
 * None of this code belongs to the rolling layout itself: each definition
 * below is an ASSUMPTION about the framework, written out so that the
 * layout's own operations can be proved against it.
 *
 * Assumed framework rules:
 *  - selecting child `w` of `count` children shows child 0 when `w >= count`
 *    and the last child when `w < 0`, otherwise child `w`;
 *  - advancing selects the displayed index plus one;
 *  - removing every child resets the displayed index to 0;
 *  - appending a child at the end leaves the displayed index alone, and
 *    appending a view that is already a child fails (the framework throws);
 *  - asking for a child outside the list yields null.
 */
module ViewFlipperBase {
  import opened Wrappers
  import opened RollingLayoutAction

  /** The flip interval a freshly built flipper has before anyone sets it. */
  const DEFAULT_FLIP_INTERVAL: Millis := 3000

  /** The data source: `getCount()` views, view `i` being `getView(i)`. */
  datatype Adapter = Adapter(views: seq<ViewId>) {
    /** Assumed: the count is the number of views the adapter holds. */
    function Count(): (n: nat)
      ensures n == |views|
    {
      |views|
    }

    /** Assumed: asking for position `i` always hands out the same view. */
    function GetView(i: nat): (v: ViewId)
      requires i < Count()
      ensures v == views[i]
    {
      views[i]
    }
  }

  /** No view occurs twice: a view can be the child of one parent only once. */
  predicate Distinct(views: seq<ViewId>)
  {
    forall i, j :: 0 <= i < j < |views| ==> views[i] != views[j]
  }

  /** Assumed: the index actually shown when child `whichChild` is selected. */
  function SelectedIndex(whichChild: int, count: nat): (r: int)
    ensures count > 0 ==> 0 <= r < count
    ensures 0 <= whichChild < count ==> r == whichChild
    ensures count == 0 && whichChild >= 0 ==> r == 0
  {
    if whichChild >= count then 0
    else if whichChild < 0 then count - 1
    else whichChild
  }

  /** Assumed: the displayed index after the framework's own `showNext`. */
  function AdvancedIndex(which: int, count: nat): (r: int)
    ensures 0 <= which < count ==> r == (which + 1) % count
    ensures count == 0 && which >= 0 ==> r == 0
  {
    SelectedIndex(which + 1, count)
  }

  /** Assumed: `getChildAt(i)`, null (None) outside the child list. */
  function ChildAt(children: seq<ViewId>, i: int): (r: Option<ViewId>)
    ensures r.Some? <==> 0 <= i < |children|
    ensures r.Some? ==> r.value == children[i]
  {
    if 0 <= i < |children| then Some(children[i]) else None
  }

  /** The displayed index after `k` successive advances over `count` children. */
  function Advances(which: int, count: nat, k: nat): int
  {
    if k == 0 then which else AdvancedIndex(Advances(which, count, k - 1), count)
  }

  // Arithmetic helpers: Euclidean remainder facts, each small enough for the solver.

  lemma MulAtLeast(d: int, n: int)
    requires d >= 1 && n > 0
    ensures d * n >= n
  {
  }

  lemma MulDistrib(q: int, q': int, n: int)
    ensures q * n - q' * n == (q - q') * n
  {
  }

  lemma ModUnique(a: int, n: int, q: int, r: int)
    requires n > 0 && 0 <= r < n && a == q * n + r
    ensures a % n == r
  {
    var q' := a / n;
    assert a == q' * n + a % n;
    MulDistrib(q, q', n);
    if q > q' {
      MulAtLeast(q - q', n);
    } else if q < q' {
      MulAtLeast(q' - q, n);
      MulDistrib(q', q, n);
    }
  }

  lemma ModShift(x: int, n: int)
    requires n > 0
    ensures (x + n) % n == x % n
  {
    assert x == (x / n) * n + x % n;
    assert x + n == (x / n + 1) * n + x % n;
    ModUnique(x + n, n, x / n + 1, x % n);
  }

  lemma {:induction false} ModSucc(a: nat, n: nat)
    requires n > 0
    ensures (a % n + 1) % n == (a + 1) % n
  {
    if a >= n {
      ModShift(a - n, n);
      ModShift(a + 1 - n, n);
      ModSucc(a - n, n);
    }
  }

  /** Starting from a valid index, k advances land on index (which + k) mod count. */
  lemma {:induction false} AdvancesCycle(which: int, count: nat, k: nat)
    requires 0 <= which < count
    ensures Advances(which, count, k) == (which + k) % count
  {
    if k > 0 {
      AdvancesCycle(which, count, k - 1);
      ModSucc(which + k - 1, count);
    }
  }

  /** Advancing is periodic: `count` more advances come back to the same index. */
  lemma AdvancesPeriodic(which: int, count: nat, k: nat)
    requires 0 <= which < count
    ensures Advances(which, count, k + count) == Advances(which, count, k)
  {
    AdvancesCycle(which, count, k + count);
    AdvancesCycle(which, count, k);
    ModShift(which + k, count);
  }

  /** The period is exactly `count`: fewer advances never return to the start. */
  lemma AdvancesNoEarlyReturn(which: int, count: nat, k: nat)
    requires 0 <= which < count
    requires 0 < k < count
    ensures Advances(which, count, k) != which
  {
    AdvancesCycle(which, count, k);
    var a := which + k;
    if a < count {
      ModUnique(a, count, 0, a);
    } else {
      ModUnique(a, count, 1, a - count);
    }
  }

  /** With no children, any number of advances keeps index 0. */
  lemma {:induction false} AdvancesEmpty(k: nat)
    ensures Advances(0, 0, k) == 0
  {
    if k > 0 {
      AdvancesEmpty(k - 1);
    }
  }
}
