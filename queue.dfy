/** The chatbot's `LimitedQueue`: a FIFO of at most `max` items behind a
    prefix of "sticky" items that are never dropped. */
module Queue {

  /** The non-sticky items after `Add(item)`: the item goes at the end, and
      when that makes one too many the oldest item is dropped. */
  function Added<T>(slice: seq<T>, item: T, max: int): (r: seq<T>)
    ensures |r| == |slice| + 1 ==> r == slice + [item]
    ensures |r| != |slice| + 1 ==> |r| == |slice| && r == if slice == [] then [] else slice[1..] + [item]
  {
    var grown := slice + [item];
    if |grown| > max then
      assert slice != [] ==> grown[1..] == slice[1..] + [item];
      grown[1..]
    else grown
  }

  /** A queue within its capacity stays within it. */
  lemma AddedBound<T>(slice: seq<T>, item: T, max: int)
    requires max >= 0 && |slice| <= max
    ensures |Added(slice, item, max)| <= max
  {
    if |slice| + 1 > max {
      assert |Added(slice, item, max)| == |slice|;
    }
  }

  /** The new item is the last one unless the capacity is zero, and the
      items before it are the old ones in order, less the oldest exactly
      when the capacity is exceeded. */
  lemma AddedOrder<T>(slice: seq<T>, item: T, max: int)
    requires max >= 1 || slice != []
    ensures var r := Added(slice, item, max);
      && r != [] && r[|r| - 1] == item
      && r[..|r| - 1] == if |slice| + 1 > max then slice[1..] else slice
  {
    var r := Added(slice, item, max);
    if |slice| + 1 > max {
      assert r == slice[1..] + [item];
    } else {
      assert r == slice + [item];
    }
  }

  /** The non-sticky items after adding `items` one after the other. */
  function AddedAll<T>(slice: seq<T>, items: seq<T>, max: int): seq<T>
    decreases |items|
  {
    if items == [] then slice else AddedAll(Added(slice, items[0], max), items[1..], max)
  }

  /** The last `n` elements of `s`, or all of it when it is shorter. */
  function LastOf<T>(s: seq<T>, n: nat): (r: seq<T>)
    ensures |r| == if |s| < n then |s| else n
  {
    if |s| <= n then s else s[|s| - n..]
  }

  /** A queue with a positive capacity is a sliding window: after any run of
      additions it holds the newest `max` items seen, in arrival order. */
  lemma {:induction false} AddedAllWindow<T>(slice: seq<T>, items: seq<T>, max: int)
    requires max >= 1 && |slice| <= max
    ensures AddedAll(slice, items, max) == LastOf(slice + items, max)
    decreases |items|
  {
    if items == [] {
      assert slice + items == slice;
    } else {
      var next := Added(slice, items[0], max);
      AddedAllWindow(next, items[1..], max);
      assert slice + items == (slice + [items[0]]) + items[1..];
      if |slice| + 1 > max {
        assert next == (slice + [items[0]])[1..];
        LastOfDrop(slice + [items[0]], items[1..], max);
      } else {
        assert next == slice + [items[0]];
      }
    }
  }

  /** Dropping the first element of a sequence longer than `n` does not
      change its last `n` elements after any extension. */
  lemma LastOfDrop<T>(s: seq<T>, t: seq<T>, n: nat)
    requires |s| > n
    ensures LastOf(s[1..] + t, n) == LastOf(s + t, n)
  {
    assert s + t == [s[0]] + (s[1..] + t);
  }

  class LimitedQueue<T> {
    var slice: seq<T>
    var sticky: seq<T>
    var max: int

    /** `NewLimitedQueue(size)`: empty, with capacity `size`. */
    constructor (size: int)
      ensures slice == [] && sticky == [] && max == size
    {
      slice := [];
      sticky := [];
      max := size;
    }

    /** `Add`: append, then drop the oldest item if the capacity is exceeded. */
    method Add(item: T)
      modifies this
      ensures slice == Added(old(slice), item, old(max))
      ensures sticky == old(sticky) && max == old(max)
    {
      slice := slice + [item];
      if |slice| > max {
        slice := slice[1..];
      }

    }

    /** `AddSticky`: the item joins the items that are never dropped. */
    method AddSticky(item: T)
      modifies this
      ensures sticky == old(sticky) + [item]
      ensures slice == old(slice) && max == old(max)
    {
      sticky := sticky + [item];
    }

    /** `AllItems`: the sticky items first, then the others, each in order. */
    function AllItems(): (r: seq<T>)
      reads this
      ensures |r| == |sticky| + |slice|
      ensures r[..|sticky|] == sticky && r[|sticky|..] == slice
    {
      sticky + slice
    }

    /** `ClearNonSticky`: every droppable item goes. */
    method ClearNonSticky()
      modifies this
      ensures slice == [] && sticky == old(sticky) && max == old(max)
    {
      slice := [];
    }

    /** `Items`: the non-sticky items. */
    function Items(): (r: seq<T>)
      reads this
      ensures |r| == |AllItems()| - |sticky| && r == AllItems()[|sticky|..]
    {
      slice
    }

    /** `LastN(n)`: the `n`-th newest non-sticky item, or the first sticky
        item when there are none; Go panics on an index out of range, which
        is what the preconditions exclude. */
    function LastN(n: int): (r: T)
      reads this
      requires slice == [] ==> sticky != []
      requires slice != [] ==> 1 <= n <= |slice|
      ensures slice == [] ==> r == AllItems()[0]
      ensures slice != [] ==> r == AllItems()[|AllItems()| - n]
    {
      if |slice| == 0 then sticky[0] else slice[|slice| - n]
    }
  }

  /** Right after `Add(item)` on a queue with a positive capacity, the newest
      item is `item`. */
  lemma AddedThenLast<T>(slice: seq<T>, item: T, max: int)
    requires max >= 1
    ensures var r := Added(slice, item, max); r != [] && r[|r| - 1] == item
  {
    AddedOrder(slice, item, max);
  }
}
