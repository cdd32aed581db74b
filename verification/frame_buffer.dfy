/**
  The bounded frame buffer of the browser client (`frameBuffer`).  A push
  appends the frame and, when the array then holds more than the capacity, drops
  its first (oldest) element once.  `Recent` is the reference meaning of a bounded
  buffer: the last `capacity` items, oldest first.
 */
module FrameBuffer {

  /** `a` is what is left of `b` after dropping some of its first items. */
  ghost predicate IsSuffix<T>(a: seq<T>, b: seq<T>)
  {
    |a| <= |b| && a == b[|b| - |a|..]
  }

  /** The last `n` items of `items`, in their original order. */
  function Recent<T>(items: seq<T>, n: nat): (r: seq<T>)
    ensures |r| == if |items| < n then |items| else n
  {
    if |items| <= n then items else items[|items| - n..]
  }

  /** Appends the item, then drops the oldest one if the buffer is now over capacity. */
  function Push<T>(buffer: seq<T>, item: T, capacity: nat): (r: seq<T>)
    ensures |buffer| <= capacity ==> |r| <= capacity
    ensures |buffer| <= capacity ==> r == Recent(buffer + [item], capacity)
  {
    var pushed := buffer + [item];
    if |pushed| > capacity then pushed[1..] else pushed
  }

  /** Pushes `items` one after the other, first item first. */
  function PushAll<T>(buffer: seq<T>, items: seq<T>, capacity: nat): (r: seq<T>)
    ensures |buffer| <= capacity ==> r == Recent(buffer + items, capacity)
    decreases |items|
  {
    if |items| == 0 then buffer
    else
      var next := Push(buffer, items[0], capacity);
      PushThenRest(buffer, items, capacity);
      PushAll(next, items[1..], capacity)
  }

  lemma PushThenRest<T>(buffer: seq<T>, items: seq<T>, capacity: nat)
    requires |items| > 0
    ensures |buffer| <= capacity ==>
      Recent(Push(buffer, items[0], capacity) + items[1..], capacity) == Recent(buffer + items, capacity)
  {
    if |buffer| <= capacity {
      assert (buffer + [items[0]]) + items[1..] == buffer + items;
      RecentOfRecent(buffer + [items[0]], items[1..], capacity);
    }
  }

  /** Pushing two lists one after the other is pushing their concatenation. */
  lemma {:induction false} PushAllAppend<T>(buffer: seq<T>, a: seq<T>, b: seq<T>, capacity: nat)
    ensures PushAll(PushAll(buffer, a, capacity), b, capacity) == PushAll(buffer, a + b, capacity)
    decreases |a|
  {
    if |a| == 0 {
      assert a + b == b;
    } else {
      assert (a + b)[0] == a[0];
      assert (a + b)[1..] == a[1..] + b;
      PushAllAppend(Push(buffer, a[0], capacity), a[1..], b, capacity);
    }
  }

  /** Trimming to the last `n` items before appending more does not change the
      last `n` items of the whole. */
  lemma RecentOfRecent<T>(a: seq<T>, b: seq<T>, n: nat)
    ensures Recent(Recent(a, n) + b, n) == Recent(a + b, n)
  {
    var whole := a + b;
    var trimmed := Recent(a, n) + b;
    assert trimmed == whole[|whole| - |trimmed|..];
  }

  /** A push keeps the buffer a suffix of what it held plus the new item, and
      the new item is the newest one unless the capacity is zero. */
  lemma PushIsSuffix<T>(buffer: seq<T>, item: T, capacity: nat)
    ensures IsSuffix(Push(buffer, item, capacity), buffer + [item])
    ensures var r := Push(buffer, item, capacity); |r| > 0 ==> r[|r| - 1] == item
  {
  }

  lemma SuffixTransitive<T>(a: seq<T>, b: seq<T>, c: seq<T>)
    requires IsSuffix(a, b) && IsSuffix(b, c)
    ensures IsSuffix(a, c)
  {
  }

  lemma SuffixAppend<T>(a: seq<T>, b: seq<T>, c: seq<T>)
    requires IsSuffix(a, b)
    ensures IsSuffix(a + c, b + c)
  {
    assert a + c == (b + c)[|b + c| - |a + c|..];
  }

  lemma PushedThenRest<T>(first: seq<T>, items: seq<T>)
    requires |items| > 0
    ensures first + [items[0]] + items[1..] == first + items
  {
    assert [items[0]] + items[1..] == items;
  }

  lemma SplitJoin<T>(items: seq<T>, k: int)
    requires 0 <= k <= |items|
    ensures items[..k] + items[k..] == items
  {
  }

  lemma SuffixChain<T>(last: seq<T>, middle: seq<T>, first: seq<T>, items: seq<T>)
    requires |items| > 0
    requires IsSuffix(middle, first + [items[0]])
    requires IsSuffix(last, middle + items[1..])
    ensures IsSuffix(last, first + items)
  {
    var pushed := first + [items[0]];
    SuffixAppend(middle, pushed, items[1..]);
    PushedThenRest(first, items);
    SuffixTransitive(last, middle + items[1..], first + items);
  }
}
