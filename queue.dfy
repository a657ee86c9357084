/**
 * The message queue behind the appenders: a buffer bounded by total item cost
 * that evicts its oldest items on overflow (BufferWithFifoEviction with a
 * cost assigner), and the flushing task that drains it into batches.
 */
module SumoLogicQueue {

  /** Total cost of `s` under the cost assigner `cost`. */
  function TotalCost<T>(s: seq<T>, cost: T -> nat): nat
  {
    if s == [] then 0 else cost(s[0]) + TotalCost(s[1..], cost)
  }

  /** The positions of `s` holding a character outside the Basic Multilingual Plane. */
  function Supplementary(s: string): set<int>
  {
    set i | 0 <= i < |s| && s[i] >= '\U{10000}'
  }

  /**
   * StringLengthCostAssigner: a string costs its C# `Length`, the number of
   * UTF-16 code units, so a character outside the Basic Multilingual Plane
   * (a surrogate pair in UTF-16) costs 2 and every other character costs 1.
   */
  function StringLengthCost(s: string): (c: nat)
    ensures c >= |s|
  {
    |s| + |Supplementary(s)|
  }

  /** A string costs its number of characters exactly when all of them lie in the Basic Multilingual Plane. */
  lemma StringLengthCostInBmp(s: string)
    ensures StringLengthCost(s) == |s| <==> forall i :: 0 <= i < |s| ==> s[i] < '\U{10000}'
  {
    if forall i :: 0 <= i < |s| ==> s[i] < '\U{10000}' {
      assert Supplementary(s) == {};
    } else {
      var i :| 0 <= i < |s| && s[i] >= '\U{10000}';
      assert i in Supplementary(s);
    }
  }

  /** Each character outside the Basic Multilingual Plane adds one code unit: the cost is at most twice the length. */
  lemma StringLengthCostBound(s: string)
    ensures StringLengthCost(s) <= 2 * |s|
  {
    SupplementaryBound(s, |s|);
    assert SupplementaryBelow(s, |s|) == Supplementary(s);
  }

  /** The positions below `n` holding a character outside the Basic Multilingual Plane. */
  ghost function SupplementaryBelow(s: string, n: nat): set<int>
    requires n <= |s|
  {
    set i | 0 <= i < n && s[i] >= '\U{10000}'
  }

  lemma {:induction false} SupplementaryBound(s: string, n: nat)
    requires n <= |s|
    ensures |SupplementaryBelow(s, n)| <= n
  {
    if n == 0 {
      assert SupplementaryBelow(s, n) == {};
    } else {
      SupplementaryBound(s, n - 1);
      assert SupplementaryBelow(s, n) == SupplementaryBelow(s, n - 1) + (if s[n - 1] >= '\U{10000}' then {n - 1} else {});
    }
  }

  /** `a` is what remains of `b` after removing some items from its head. */
  ghost predicate IsSuffix<T>(a: seq<T>, b: seq<T>)
  {
    |a| <= |b| && a == b[|b| - |a|..]
  }

  /** What the buffer keeps of `s`: items dropped from the head until the total cost fits `capacity`. */
  function EvictOldest<T>(s: seq<T>, cost: T -> nat, capacity: nat): seq<T>
    decreases |s|
  {
    if |s| == 0 || TotalCost(s, cost) <= capacity then s else EvictOldest(s[1..], cost, capacity)
  }

  /** The cost of a concatenation is the sum of the costs. */
  lemma {:induction false} TotalCostAppend<T>(a: seq<T>, b: seq<T>, cost: T -> nat)
    ensures TotalCost(a + b, cost) == TotalCost(a, cost) + TotalCost(b, cost)
  {
    if a != [] {
      assert (a + b)[0] == a[0] && (a + b)[1..] == a[1..] + b;
      TotalCostAppend(a[1..], b, cost);
    } else {
      assert a + b == b;
    }
  }

  /** Costs are non-negative, so a shorter suffix never costs more. */
  lemma {:induction false} TotalCostSuffixMonotone<T>(s: seq<T>, i: nat, j: nat, cost: T -> nat)
    requires i <= j <= |s|
    ensures TotalCost(s[j..], cost) <= TotalCost(s[i..], cost)
    decreases j - i
  {
    if i < j {
      assert s[i..][1..] == s[i + 1..];
      TotalCostSuffixMonotone(s, i + 1, j, cost);
    }
  }

  /** EvictOldest keeps a suffix of `s` whose cost fits the capacity. */
  lemma {:induction false} EvictOldestFits<T>(s: seq<T>, cost: T -> nat, capacity: nat)
    ensures IsSuffix(EvictOldest(s, cost, capacity), s)
    ensures TotalCost(EvictOldest(s, cost, capacity), cost) <= capacity
    decreases |s|
  {
    if |s| > 0 && TotalCost(s, cost) > capacity {
      var r := EvictOldest(s[1..], cost, capacity);
      EvictOldestFits(s[1..], cost, capacity);
      assert s[1..][|s[1..]| - |r|..] == s[|s| - |r|..];
    }
  }

  /** EvictOldest evicts no more than it must: every longer suffix of `s` is over capacity. */
  lemma {:induction false} EvictOldestIsLongest<T>(s: seq<T>, cost: T -> nat, capacity: nat)
    ensures forall k :: 0 <= k < |s| - |EvictOldest(s, cost, capacity)| ==> TotalCost(s[k..], cost) > capacity
    decreases |s|
  {
    if |s| > 0 && TotalCost(s, cost) > capacity {
      var r := EvictOldest(s[1..], cost, capacity);
      EvictOldestIsLongest(s[1..], cost, capacity);
      forall k | 0 <= k < |s| - |r|
        ensures TotalCost(s[k..], cost) > capacity
      {
        if k > 0 {
          assert s[1..][k - 1..] == s[k..];
        }
      }
    }
  }

  /** Nothing is evicted while everything fits. */
  lemma EvictOldestKeepsFitting<T>(s: seq<T>, cost: T -> nat, capacity: nat)
    requires TotalCost(s, cost) <= capacity
    ensures EvictOldest(s, cost, capacity) == s
  {
  }

  /** An arrival that fits on its own is never the one evicted: it stays the newest item. */
  lemma KeepsNewestArrival<T>(s: seq<T>, x: T, cost: T -> nat, capacity: nat)
    requires cost(x) <= capacity
    ensures var r := EvictOldest(s + [x], cost, capacity); r != [] && r[|r| - 1] == x
  {
    var t := s + [x];
    EvictOldestFits(t, cost, capacity);
    EvictOldestIsLongest(t, cost, capacity);
    assert t[|s|..] == [x];
    assert TotalCost([x], cost) == cost(x);
  }

  /** An arrival that alone exceeds the capacity empties the buffer. */
  lemma OversizedArrivalEmpties<T>(s: seq<T>, x: T, cost: T -> nat, capacity: nat)
    requires cost(x) > capacity
    ensures EvictOldest(s + [x], cost, capacity) == []
  {
    var t := s + [x];
    var r := EvictOldest(t, cost, capacity);
    EvictOldestFits(t, cost, capacity);
    if r != [] {
      assert t[|t| - |r|..] == r;
      TotalCostSuffixMonotone(t, |t| - |r|, |s|, cost);
    }
  }

  /** The queue after adding the items `xs` one at a time to the queue `q`. */
  function AddAll<T>(q: seq<T>, xs: seq<T>, cost: T -> nat, capacity: nat): seq<T>
    decreases |xs|
  {
    if |xs| == 0 then q else AddAll(EvictOldest(q + [xs[0]], cost, capacity), xs[1..], cost, capacity)
  }

  /** Suffixes of suffixes are suffixes. */
  lemma SuffixTransitive<T>(a: seq<T>, b: seq<T>, c: seq<T>)
    requires IsSuffix(a, b) && IsSuffix(b, c)
    ensures IsSuffix(a, c)
  {
    assert c[|c| - |b|..][|b| - |a|..] == c[|c| - |a|..];
  }

  /** Appending the same items to a suffix and to the whole keeps the suffix relation. */
  lemma SuffixAppend<T>(a: seq<T>, b: seq<T>, t: seq<T>)
    requires IsSuffix(a, b)
    ensures IsSuffix(a + t, b + t)
  {
    assert (b + t)[|b + t| - |a + t|..] == b[|b| - |a|..] + t;
  }

  /** Moving the first of `xs` onto `q` does not change the concatenation. */
  lemma AppendHead<T>(q: seq<T>, xs: seq<T>)
    requires |xs| > 0
    ensures (q + [xs[0]]) + xs[1..] == q + xs
  {
    assert xs == [xs[0]] + xs[1..];
  }

  /** While the total cost stays within capacity, a run of adds loses nothing and keeps arrival order. */
  lemma {:induction false} AddAllWithinCapacityLosesNothing<T>(q: seq<T>, xs: seq<T>, cost: T -> nat, capacity: nat)
    requires TotalCost(q + xs, cost) <= capacity
    ensures AddAll(q, xs, cost, capacity) == q + xs
    decreases |xs|
  {
    if |xs| == 0 {
      assert q + xs == q;
    } else {
      var q' := q + [xs[0]];
      AppendHead(q, xs);
      TotalCostAppend(q', xs[1..], cost);
      EvictOldestKeepsFitting(q', cost, capacity);
      AddAllWithinCapacityLosesNothing(q', xs[1..], cost, capacity);
    }
  }

  /**
   * Whatever a run of adds evicts, the queue is a suffix of everything that
   * arrived (the newest items, in arrival order) and its cost fits.
   */
  lemma {:induction false} AddAllKeepsNewestArrivals<T>(q: seq<T>, xs: seq<T>, cost: T -> nat, capacity: nat)
    requires TotalCost(q, cost) <= capacity
    ensures IsSuffix(AddAll(q, xs, cost, capacity), q + xs)
    ensures TotalCost(AddAll(q, xs, cost, capacity), cost) <= capacity
    decreases |xs|
  {
    if |xs| == 0 {
      assert q + xs == q;
    } else {
      var q', rest := q + [xs[0]], xs[1..];
      var e := EvictOldest(q', cost, capacity);
      var r := AddAll(e, rest, cost, capacity);
      assert AddAll(q, xs, cost, capacity) == r;
      assert IsSuffix(e, q') && TotalCost(e, cost) <= capacity by {
        EvictOldestFits(q', cost, capacity);
      }
      assert IsSuffix(r, e + rest) && TotalCost(r, cost) <= capacity by {
        AddAllKeepsNewestArrivals(e, rest, cost, capacity);
      }
      assert IsSuffix(e + rest, q + xs) by {
        SuffixAppend(e, q', rest);
        AppendHead(q, xs);
      }
      SuffixTransitive(r, e + rest, q + xs);
    }
  }

  /** Adding to what eviction left of a history is evicting the history with the arrival appended. */
  lemma {:induction false} EvictOldestAppend<T>(h: seq<T>, x: T, cost: T -> nat, capacity: nat)
    ensures EvictOldest(EvictOldest(h, cost, capacity) + [x], cost, capacity) == EvictOldest(h + [x], cost, capacity)
    decreases |h|
  {
    if |h| > 0 && TotalCost(h, cost) > capacity {
      assert TotalCost(h + [x], cost) > capacity by {
        TotalCostAppend(h, [x], cost);
      }
      assert (h + [x])[1..] == h[1..] + [x];
      EvictOldestAppend(h[1..], x, cost, capacity);
    }
  }

  /**
   * A run of adds starting from what eviction left of a history `h` ends
   * where evicting `h` followed by all the arrivals ends.
   */
  lemma {:induction false} AddAllIsEvictOldest<T>(h: seq<T>, xs: seq<T>, cost: T -> nat, capacity: nat)
    ensures AddAll(EvictOldest(h, cost, capacity), xs, cost, capacity) == EvictOldest(h + xs, cost, capacity)
    decreases |xs|
  {
    if |xs| == 0 {
      assert h + xs == h;
    } else {
      var e := EvictOldest(h, cost, capacity);
      var h' := h + [xs[0]];
      assert AddAll(e, xs, cost, capacity) == AddAll(EvictOldest(e + [xs[0]], cost, capacity), xs[1..], cost, capacity);
      EvictOldestAppend(h, xs[0], cost, capacity);
      AddAllIsEvictOldest(h', xs[1..], cost, capacity);
      AppendHead(h, xs);
    }
  }

  /**
   * From an empty buffer, a run of adds keeps the longest suffix of all
   * arrivals that fits: within capacity, in arrival order, and every longer
   * suffix is over capacity.
   */
  lemma AddAllKeepsLongestFittingSuffix<T>(xs: seq<T>, cost: T -> nat, capacity: nat)
    ensures var r := AddAll([], xs, cost, capacity);
      && IsSuffix(r, xs)
      && TotalCost(r, cost) <= capacity
      && forall k :: 0 <= k < |xs| - |r| ==> TotalCost(xs[k..], cost) > capacity
  {
    assert EvictOldest([], cost, capacity) == [];
    AddAllIsEvictOldest([], xs, cost, capacity);
    assert [] + xs == xs;
    EvictOldestFits(xs, cost, capacity);
    EvictOldestIsLongest(xs, cost, capacity);
  }

  /** BufferWithFifoEviction: a FIFO queue whose total item cost stays within `capacity`. */
  class BufferWithFifoEviction<T> {
    const capacity: nat
    const costAssigner: T -> nat
    /** Queued items, oldest first. */
    var queue: seq<T>
    /** Total cost of the queued items. */
    var size: nat

    ghost predicate Valid()
      reads this
    {
      && size == TotalCost(queue, costAssigner)
      && size <= capacity
    }

    constructor (capacity: nat, costAssigner: T -> nat)
      ensures Valid()
      ensures this.capacity == capacity && this.costAssigner == costAssigner
      ensures queue == []
    {
      this.capacity := capacity;
      this.costAssigner := costAssigner;
      queue := [];
      size := 0;
    }

    /** The number of queued items. */
    function Count(): nat
      reads this
    {
      |queue|
    }

    /** Appends `item`, then evicts from the head while the total cost exceeds the capacity. */
    method Add(item: T)
      requires Valid()
      modifies this
      ensures Valid()
      ensures queue == EvictOldest(old(queue) + [item], costAssigner, capacity)
      ensures queue == old(queue) + [item] <==> old(size) + costAssigner(item) <= capacity
      ensures old(size) + costAssigner(item) <= capacity ==> size == old(size) + costAssigner(item)
    {
      ghost var added := queue + [item];
      TotalCostAppend(queue, [item], costAssigner);
      assert TotalCost([item], costAssigner) == costAssigner(item);
      queue := queue + [item];
      size := size + costAssigner(item);
      while size > capacity
        invariant size == TotalCost(queue, costAssigner)
        invariant EvictOldest(queue, costAssigner, capacity) == EvictOldest(added, costAssigner, capacity)
        invariant IsSuffix(queue, added)
        decreases |queue|
      {
        size := size - costAssigner(queue[0]);
        queue := queue[1..];
      }
    }

    /** Removes every queued item and returns them in arrival order. */
    method DrainTo() returns (drained: seq<T>)
      requires Valid()
      modifies this
      ensures Valid()
      ensures drained == old(queue) && queue == [] && size == 0
    {
      drained := [];
      while |queue| > 0
        invariant drained + queue == old(queue)
        invariant size == TotalCost(queue, costAssigner)
        decreases |queue|
      {
        drained := drained + [queue[0]];
        size := size - costAssigner(queue[0]);
        queue := queue[1..];
      }
    }
  }

  /** The maximum time between flushes; `MaxValue` is `TimeSpan.MaxValue` and never elapses. */
  datatype FlushInterval = Finite(ms: nat) | MaxValue

  /**
   * The flushing task over a string buffer whose sent batches are recorded in
   * `sentOut` (the test's DummyBufferFlushingTask). The clock is the `now`
   * argument of Run, in milliseconds.
   */
  class DummyBufferFlushingTask {
    const buffer: BufferWithFifoEviction<string>
    const maxFlushInterval: FlushInterval
    const messagesPerRequest: nat
    const name: string
    var lastFlushTime: nat
    var sentOut: seq<seq<string>>

    ghost predicate Valid()
      reads this, buffer
    {
      && buffer.Valid()
      && forall i :: 0 <= i < |sentOut| ==> sentOut[i] != []
    }

    constructor (buffer: BufferWithFifoEviction<string>, maxFlushInterval: FlushInterval,
                 messagesPerRequest: nat, name: string, now: nat)
      requires buffer.Valid()
      ensures Valid()
      ensures this.buffer == buffer && this.maxFlushInterval == maxFlushInterval
      ensures this.messagesPerRequest == messagesPerRequest && this.name == name
      ensures lastFlushTime == now && sentOut == []
    {
      this.buffer := buffer;
      this.maxFlushInterval := maxFlushInterval;
      this.messagesPerRequest := messagesPerRequest;
      this.name := name;
      lastFlushTime := now;
      sentOut := [];
    }

    /** Size trigger: enough messages for one request are queued. */
    predicate SizeTrigger()
      reads this, buffer
    {
      buffer.Count() >= messagesPerRequest
    }

    /** Time trigger: the flush interval has elapsed since the last flush. */
    predicate TimeTrigger(now: nat)
      reads this
    {
      maxFlushInterval.Finite? && now >= lastFlushTime + maxFlushInterval.ms
    }

    predicate NeedsFlushing(now: nat)
      reads this, buffer
    {
      SizeTrigger() || TimeTrigger(now)
    }

    /** With the interval at its maximum only the size trigger can start a flush. */
    lemma MaxIntervalOnlySizeTriggers(now: nat)
      requires maxFlushInterval == MaxValue
      ensures NeedsFlushing(now) <==> buffer.Count() >= messagesPerRequest
    {
    }

    /**
     * One scheduling cycle: when a trigger fires, drains the whole queue and
     * sends it as one batch (nothing is sent for an empty queue) and records
     * the flush time; otherwise changes nothing.
     */
    method Run(now: nat)
      requires Valid()
      modifies this, buffer
      ensures Valid()
      ensures old(NeedsFlushing(now)) ==>
        && buffer.queue == [] && buffer.size == 0
        && sentOut == old(sentOut) + (if old(buffer.queue) == [] then [] else [old(buffer.queue)])
        && lastFlushTime == now
      ensures !old(NeedsFlushing(now)) ==>
        && buffer.queue == old(buffer.queue) && buffer.size == old(buffer.size)
        && sentOut == old(sentOut)
        && lastFlushTime == old(lastFlushTime)
    {
      if NeedsFlushing(now) {
        var messages := buffer.DrainTo();
        if |messages| > 0 {
          sentOut := sentOut + [messages];
        }
        lastFlushTime := now;
      }
    }
  }
}
