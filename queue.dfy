/**
 * The bounded sample queue shared by the tone generator and the audio sink
 * (`AudioQueue`, an `ArrayQueue<StereoSample>` behind an `Arc`).
 *
 * Only the sequential behaviour of the four operations the program uses is
 * modelled: `force_push`, `pop`, `len` and `capacity`. A queue is its contents,
 * oldest first, plus a capacity fixed at creation.
 */
module Queue {
  import opened Wrappers

  /** One frame of two-channel audio. The f32 amplitudes are modelled as reals. */
  datatype StereoSample = StereoSample(left: real, right: real)

  /** `StereoSample::default()`: silence on both channels. */
  const Silence: StereoSample := StereoSample(0.0, 0.0)

  function Min(a: int, b: int): (m: int)
  {
    if a <= b then a else b
  }

  /** The newest `n` elements of `s`, in order (all of `s` when it is shorter). */
  function Newest<T>(s: seq<T>, n: nat): (r: seq<T>)
    ensures |r| == Min(|s|, n)
    ensures r == s[|s| - |r|..]
  {
    if |s| <= n then s else s[|s| - n..]
  }

  /** Taking the newest `n` twice is the same as taking them once over the whole history. */
  lemma NewestOfNewest<T>(a: seq<T>, b: seq<T>, n: nat)
    ensures Newest(Newest(a, n) + b, n) == Newest(a + b, n)
  {
    var l, r := Newest(Newest(a, n) + b, n), Newest(a + b, n);
    assert |l| == |r|;
    forall i | 0 <= i < |l| ensures l[i] == r[i] {
      if i + |Newest(a, n)| + |b| - |l| >= |Newest(a, n)| {
      } else {
      }
    }
  }

  /** The newest `m` of the newest `n` entries are the newest `m` entries. */
  lemma NewestSuffix<T>(s: seq<T>, n: nat, m: nat)
    requires m <= n && m <= |s|
    ensures Newest(s, n)[|Newest(s, n)| - m..] == s[|s| - m..]
  {
  }

  /** The last `m` entries of `a + b` lie in `b` when `b` has at least `m`. */
  lemma SuffixOfConcat<T>(a: seq<T>, b: seq<T>, m: nat)
    requires m <= |b|
    ensures (a + b)[|a + b| - m..] == b[|b| - m..]
  {
  }

  /**
   * Keeping the newest `capacity` entries after appending `xs` to a queue of at
   * most `capacity` entries: min(capacity, |items| + |xs|) entries remain, and
   * the newest min(capacity, |xs|) of them are the newest of `xs`.
   */
  lemma NewestOfPushed<T>(items: seq<T>, xs: seq<T>, capacity: nat)
    ensures var q, m := Newest(items + xs, capacity), Min(capacity, |xs|);
      && |q| == Min(capacity, |items| + |xs|)
      && q[|q| - m..] == xs[|xs| - m..]
  {
    var m := Min(capacity, |xs|);
    NewestSuffix(items + xs, capacity, m);
    SuffixOfConcat(items, xs, m);
  }

  /** `force_push`: append `x`; when the queue is full the oldest entry is evicted first. */
  function ForcePushed(items: seq<StereoSample>, capacity: nat, x: StereoSample): (r: seq<StereoSample>)
    requires 0 < capacity && |items| <= capacity
    ensures r == Newest(items + [x], capacity)
    ensures |r| <= capacity && r[|r| - 1] == x
  {
    if |items| < capacity then items + [x] else items[1..] + [x]
  }

  /** The queue after force-pushing every element of `xs`, one after the other. */
  function PushedAll(items: seq<StereoSample>, capacity: nat, xs: seq<StereoSample>): (r: seq<StereoSample>)
    requires 0 < capacity && |items| <= capacity
    ensures |r| <= capacity
    decreases |xs|
  {
    if xs == [] then items else PushedAll(ForcePushed(items, capacity, xs[0]), capacity, xs[1..])
  }

  /**
   * Sequential force-pushes never block and never lose the newest data: the
   * queue always holds exactly the newest `capacity` entries of its history.
   */
  lemma {:induction false} PushedAllKeepsNewest(items: seq<StereoSample>, capacity: nat, xs: seq<StereoSample>)
    requires 0 < capacity && |items| <= capacity
    ensures PushedAll(items, capacity, xs) == Newest(items + xs, capacity)
    decreases |xs|
  {
    if xs == [] {
      assert items + xs == items;
    } else {
      var pushed := items + [xs[0]];
      var next := ForcePushed(items, capacity, xs[0]);
      calc {
        PushedAll(items, capacity, xs);
        PushedAll(next, capacity, xs[1..]);
        { PushedAllKeepsNewest(next, capacity, xs[1..]); }
        Newest(next + xs[1..], capacity);
        { NewestOfNewest(pushed, xs[1..], capacity); }
        Newest(pushed + xs[1..], capacity);
        { assert pushed + xs[1..] == items + xs; }
        Newest(items + xs, capacity);
      }
    }
  }

  /**
   * After at least `capacity` force-pushes the queue is full and holds exactly
   * the last `capacity` values pushed, in push order.
   */
  lemma OverfilledHoldsLastPushed(items: seq<StereoSample>, capacity: nat, xs: seq<StereoSample>)
    requires 0 < capacity && |items| <= capacity && |xs| >= capacity
    ensures PushedAll(items, capacity, xs) == xs[|xs| - capacity..]
  {
    PushedAllKeepsNewest(items, capacity, xs);
    SuffixOfConcat(items, xs, capacity);
  }

  /** `pop().unwrap_or_default()`: the oldest entry, or silence when the queue is empty. */
  function PopOrSilence(items: seq<StereoSample>): (r: (StereoSample, seq<StereoSample>))
    ensures items == [] ==> r == (Silence, [])
    ensures items != [] ==> r.0 == items[0] && [r.0] + r.1 == items
  {
    if items == [] then (Silence, []) else (items[0], items[1..])
  }

  /** The shared queue: its contents (oldest first) change in place, its capacity never does. */
  class AudioQueue {
    const capacity: nat
    var items: seq<StereoSample>

    ghost predicate Valid()
      reads this
    {
      0 < capacity && |items| <= capacity
    }

    /** `ArrayQueue::new(capacity)`; the crate refuses a capacity of zero. */
    constructor (capacity: nat)
      requires 0 < capacity
      ensures Valid() && this.capacity == capacity && items == []
    {
      this.capacity := capacity;
      items := [];
    }

    /** `len()`: the number of entries, never more than the capacity. */
    function Len(): (n: nat)
      reads this
      requires Valid()
      ensures n <= capacity && n == |items|
    {
      |items|
    }

    /** `force_push(x)`: returns the evicted oldest entry when the queue was full. */
    method ForcePush(x: StereoSample) returns (evicted: Option<StereoSample>)
      requires Valid()
      modifies this
      ensures Valid()
      ensures items == ForcePushed(old(items), capacity, x)
      ensures evicted == if |old(items)| == capacity then Some(old(items)[0]) else None
    {
      if |items| == capacity {
        evicted := Some(items[0]);
        items := items[1..] + [x];
      } else {
        evicted := None;
        items := items + [x];
      }
    }

    /** `pop()`: the oldest entry, or `None` on an empty queue, which is left as it is. */
    method Pop() returns (r: Option<StereoSample>)
      requires Valid()
      modifies this
      ensures Valid()
      ensures r.UnwrapOr(Silence) == PopOrSilence(old(items)).0
      ensures items == PopOrSilence(old(items)).1
      ensures r.None? <==> old(items) == []
    {
      if items == [] {
        r := None;
      } else {
        r := Some(items[0]);
        items := items[1..];
      }
    }
  }
}
