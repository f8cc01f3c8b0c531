/** The event queue of net/net-events.c: a binary heap of events with a back-pointer in each event.

    An event is the number of its file descriptor, that is its index in Events; `priority`, `timestamp` and
    `inQueue` are the fields of these entries.  Slot 0 of the heap is not used. */
module EventHeap {
  import opened Counting

  // ----- greater_ev -----

  /** A difference of two ints as the processor computes it. */
  function Wrap(x: int): int {
    (x + 0x8000_0000) % 0x1_0000_0000 - 0x8000_0000
  }

  predicate IsInt(x: int) {
    -0x8000_0000 <= x < 0x8000_0000
  }

  /** greater_ev (ev1, ev2) > 0. */
  predicate Greater(p1: int, t1: int, p2: int, t2: int) {
    var x := Wrap(p1 - p2);
    if x != 0 then x > 0 else t1 > t2
  }

  /** Later in the order by priority, then by timestamp. */
  predicate Later(p1: int, t1: int, p2: int, t2: int) {
    p1 > p2 || (p1 == p2 && t1 > t2)
  }

  /** greater_ev decides the order of two events exactly when the difference of their priorities is an int. */
  lemma GreaterIsLater(p1: int, p2: int)
    requires IsInt(p1) && IsInt(p2)
    ensures (forall t1, t2 :: Greater(p1, t1, p2, t2) == Later(p1, t1, p2, t2)) <==> IsInt(p1 - p2)
  {
    if !IsInt(p1 - p2) {
      assert Greater(p1, 0, p2, 0) != Later(p1, 0, p2, 0);
    }
  }

  // ----- the heap as a value -----

  /** All priorities are ints within half the range of each other; the program uses 0 to 9. */
  predicate Fits(p: seq<int>) {
    forall a, b :: 0 <= a < |p| && 0 <= b < |p| ==> IsInt(p[a]) && IsInt(p[a] - p[b])
  }

  /** Event a need not come after event b. */
  predicate Le(p: seq<int>, t: seq<int>, a: int, b: int) {
    0 <= a < |p| == |t| && 0 <= b < |p| && !Later(p[a], t[a], p[b], t[b])
  }

  /** Slots and back-pointers match, but for the slot `hole`, which holds nothing (0: there is none). */
  predicate Linked(h: seq<int>, q: seq<int>, n: int, hole: int) {
    && 0 <= n < |h| && 0 <= hole <= n
    && (forall k :: 1 <= k <= n && k != hole ==> 0 <= h[k] < |q| && q[h[k]] == k)
    && (forall e :: 0 <= e < |q| ==> q[e] == 0 || (1 <= q[e] <= n && q[e] != hole && h[q[e]] == e))
  }

  /** The order between slot k and the next filled slot above it. */
  predicate Link(h: seq<int>, p: seq<int>, t: seq<int>, hole: int, k: int)
    requires 2 <= k < |h|
  {
    k == hole || (if k / 2 == hole then hole == 1 || Le(p, t, h[hole / 2], h[k]) else Le(p, t, h[k / 2], h[k]))
  }

  predicate Ordered(h: seq<int>, p: seq<int>, t: seq<int>, n: int, hole: int) {
    0 <= n < |h| && 0 <= hole && forall k :: 2 <= k <= n ==> Link(h, p, t, hole, k)
  }

  lemma LeTrans(p: seq<int>, t: seq<int>, a: int, b: int, c: int)
    requires Le(p, t, a, b) && Le(p, t, b, c)
    ensures Le(p, t, a, c)
  {
  }

  /** Changing the key of one event leaves the order of all others. */
  lemma Rekeyed(h: seq<int>, q: seq<int>, p: seq<int>, t: seq<int>, p': seq<int>, t': seq<int>, n: int, ev: int)
    requires Linked(h, q, n, 0) && Ordered(h, p, t, n, 0) && |p| == |t| == |p'| == |t'| == |q| && 0 <= ev < |q|
    requires forall e :: 0 <= e < |q| && e != ev ==> p'[e] == p[e] && t'[e] == t[e]
    ensures Ordered(h, p', t', n, q[ev])
  {
    var i := q[ev];
    forall k | 2 <= k <= n ensures Link(h, p', t', i, k) {
      assert Link(h, p, t, 0, k);
      if k / 2 == i && i > 1 {
        assert Link(h, p, t, 0, i);
        LeTrans(p, t, h[i / 2], h[i], h[k]);
      }
    }
  }

  /** The first slot holds a minimum. */
  lemma {:induction false} HeadFirst(h: seq<int>, p: seq<int>, t: seq<int>, n: int, k: int)
    requires Ordered(h, p, t, n, 0) && 1 <= k <= n && |p| == |t| && forall i :: 1 <= i <= n ==> 0 <= h[i] < |p|
    ensures Le(p, t, h[1], h[k])
    decreases k
  {
    if k > 1 {
      HeadFirst(h, p, t, n, k / 2);
      assert Link(h, p, t, 0, k);
      LeTrans(p, t, h[1], h[k / 2], h[k]);
    }
  }

  /** The event in slot j moves into the hole i; j is the hole then. */
  lemma MoveLinked(h: seq<int>, q: seq<int>, n: int, i: int, j: int)
    requires Linked(h, q, n, i) && 1 <= i <= n && 1 <= j <= n && j != i
    ensures Linked(h[i := h[j]], q[h[j] := i], n, j)
    ensures forall e :: 0 <= e < |q| ==> (q[h[j] := i][e] == 0 <==> q[e] == 0)
  {
  }

  lemma MoveDown(h: seq<int>, p: seq<int>, t: seq<int>, n: int, i: int, j: int)
    requires Ordered(h, p, t, n, i) && 1 <= i <= n && (j == 2 * i || j == 2 * i + 1) && j <= n
    requires j % 2 == 1 ==> Le(p, t, h[j], h[j - 1])
    requires j % 2 == 0 && j < n ==> Le(p, t, h[j], h[j + 1])
    ensures Ordered(h[i := h[j]], p, t, n, j)
  {
    var h' := h[i := h[j]];
    forall k | 2 <= k <= n ensures Link(h', p, t, j, k) {
      assert Link(h, p, t, i, k) && Link(h, p, t, i, j);
    }
  }

  /** One step of the loop of pop_heap_head: the child in slot j comes before x and moves up into the hole i. */
  lemma DownStep(h: seq<int>, q: seq<int>, p: seq<int>, t: seq<int>, n: int, i: int, j: int, x: int)
    requires 0 <= x < |q| && Linked(h, q[x := 0], n, i) && Ordered(h, p, t, n, i)
    requires 1 <= i <= n && (j == 2 * i || j == 2 * i + 1) && j <= n && Le(p, t, h[j], x)
    requires j % 2 == 1 ==> Le(p, t, h[j], h[j - 1])
    requires j % 2 == 0 && j < n ==> Le(p, t, h[j], h[j + 1])
    ensures 0 <= h[j] < |q| && h[j] != x
    ensures var h', q' := h[i := h[j]], q[h[j] := i];
            && Linked(h', q'[x := 0], n, j) && Ordered(h', p, t, n, j) && Le(p, t, h'[j / 2], x)
            && forall e :: 0 <= e < |q| && e != x ==> (q'[e] == 0 <==> q[e] == 0)
  {
    assert q[x := 0][h[j]] == j;
    MoveLinked(h, q[x := 0], n, i, j);
    MoveDown(h, p, t, n, i, j);
    assert q[h[j] := i][x := 0] == q[x := 0][h[j] := i];
  }

  lemma MoveUp(h: seq<int>, p: seq<int>, t: seq<int>, n: int, i: int)
    requires Ordered(h, p, t, n, i) && 2 <= i <= n
    ensures Ordered(h[i := h[i / 2]], p, t, n, i / 2)
  {
    var j := i / 2;
    var h' := h[i := h[j]];
    forall k | 2 <= k <= n ensures Link(h', p, t, j, k) {
      assert Link(h, p, t, i, k);
      if j >= 2 {
        assert Link(h, p, t, i, j);
        if k / 2 == j && k != i { LeTrans(p, t, h[j / 2], h[j], h[k]); }
      }
    }
  }

  /** ev may be put into the hole i as far as the slots below are concerned. */
  predicate Below(h: seq<int>, p: seq<int>, t: seq<int>, n: int, i: int, ev: int) {
    0 <= n < |h| && forall k :: 2 <= k <= n && k / 2 == i ==> Le(p, t, ev, h[k])
  }

  lemma Filled(h: seq<int>, q: seq<int>, p: seq<int>, t: seq<int>, n: int, i: int, ev: int)
    requires Linked(h, q, n, i) && Ordered(h, p, t, n, i) && 1 <= i <= n && 0 <= ev < |q| && q[ev] == 0
    requires Below(h, p, t, n, i, ev) && (i > 1 ==> Le(p, t, h[i / 2], ev))
    ensures Linked(h[i := ev], q[ev := i], n, 0) && Ordered(h[i := ev], p, t, n, 0)
  {
    var h' := h[i := ev];
    forall k | 2 <= k <= n ensures Link(h', p, t, 0, k) {
      assert Link(h, p, t, i, k);
    }
  }

  lemma BelowUp(h: seq<int>, p: seq<int>, t: seq<int>, n: int, i: int, ev: int)
    requires Ordered(h, p, t, n, i) && 2 <= i <= n && Below(h, p, t, n, i, ev) && Le(p, t, ev, h[i / 2])
    ensures Below(h[i := h[i / 2]], p, t, n, i / 2, ev)
  {
    var j := i / 2;
    var h' := h[i := h[j]];
    forall k | 2 <= k <= n && k / 2 == j ensures Le(p, t, ev, h'[k]) {
      assert Link(h, p, t, i, k);
      if k != i { LeTrans(p, t, ev, h[j], h[k]); }
    }
  }

  // ----- the heap in place -----

  class Events {
    const priority: array<int>
    const timestamp: array<int>
    const inQueue: array<int>
    const heap: array<int>
    var size: int

    /** Events with the numbers below n, none of them in the queue. */
    constructor (n: nat)
      ensures Valid() && size == 0 && inQueue.Length == n && forall e :: 0 <= e < n ==> inQueue[e] == 0
      ensures fresh(priority) && fresh(timestamp) && fresh(inQueue) && fresh(heap)
    {
      priority, timestamp, inQueue := new int[n](i => 0), new int[n](i => 0), new int[n](i => 0);
      heap, size := new int[n + 1](i => 0), 0;
    }

    predicate Shape() reads this, priority {
      && priority.Length == timestamp.Length == inQueue.Length && heap.Length == inQueue.Length + 1
      && priority != timestamp && priority != inQueue && priority != heap
      && timestamp != inQueue && timestamp != heap && inQueue != heap
      && Fits(priority[..])
    }

    predicate Queue(hole: int) reads this, priority, timestamp, inQueue, heap {
      && Shape() && Linked(heap[..], inQueue[..], size, hole)
      && Ordered(heap[..], priority[..], timestamp[..], size, hole)
    }

    /** Between calls. */
    predicate Valid() reads this, priority, timestamp, inQueue, heap {
      Queue(0)
    }

    method IsGreater(a: int, b: int) returns (r: bool)
      requires Shape() && 0 <= a < priority.Length && 0 <= b < priority.Length
      ensures !r ==> Le(priority[..], timestamp[..], a, b)
      ensures r ==> Le(priority[..], timestamp[..], b, a) && !Le(priority[..], timestamp[..], a, b)
    {
      r := Greater(priority[a], timestamp[a], priority[b], timestamp[b]);
      assert IsInt(priority[..][a] - priority[..][b]) && IsInt(priority[..][a]) && IsInt(priority[..][b]);
      GreaterIsLater(priority[a], priority[b]);
      assert Greater(priority[a], timestamp[a], priority[b], timestamp[b])
             == Later(priority[a], timestamp[a], priority[b], timestamp[b]);
    }

    /** The smaller child of slot i. */
    method Child(i: int, n: int) returns (j: int)
      requires Shape() && 1 <= i && 2 * i <= n < heap.Length
      requires forall k :: 1 <= k <= n && k != i ==> 0 <= heap[k] < priority.Length
      ensures j == 2 * i || (j == 2 * i + 1 && j <= n)
      ensures j % 2 == 1 ==> Le(priority[..], timestamp[..], heap[j], heap[j - 1])
      ensures j % 2 == 0 && j < n ==> Le(priority[..], timestamp[..], heap[j], heap[j + 1])
    {
      j := 2 * i;
      if j < n {
        var g := IsGreater(heap[j], heap[j + 1]);
        if g { j := j + 1; }
      }
    }

    /** The queue without the event ev, whose own fields do not count yet. */
    predicate QueueBut(ev: int, hole: int) reads this, priority, timestamp, inQueue, heap
      requires 0 <= ev < inQueue.Length
    {
      && Shape() && Linked(heap[..], inQueue[..][ev := 0], size, hole)
      && Ordered(heap[..], priority[..], timestamp[..], size, hole)
    }

    /** The events other than ev are in the queue, or not, as before. */
    twostate predicate SameMembers(ev: int) reads inQueue {
      forall e :: 0 <= e < inQueue.Length && e != ev ==> (inQueue[e] == 0 <==> old(inQueue[e]) == 0)
    }

    /** ev is put into the hole i, where it fits. */
    method Fill(i: int, ev: int)
      requires 0 <= ev < inQueue.Length && QueueBut(ev, i) && 1 <= i && i <= size
      requires Below(heap[..], priority[..], timestamp[..], size, i, ev)
      requires i > 1 ==> Le(priority[..], timestamp[..], heap[i / 2], ev)
      modifies heap, inQueue
      ensures Valid() && inQueue[ev] == i && SameMembers(ev)
    {
      ghost var h, q := heap[..], inQueue[..];
      Filled(h, q[ev := 0], priority[..], timestamp[..], size, i, ev);
      heap[i] := ev;
      inQueue[ev] := i;
      assert heap[..] == h[i := ev] && inQueue[..] == q[ev := 0][ev := i];
    }

    /** The loop that moves the hole i up until ev fits, and puts ev there. */
    method SiftUp(i0: int, ev: int) returns (i: int)
      requires 0 <= ev < inQueue.Length && QueueBut(ev, i0) && 1 <= i0 <= size
      requires Below(heap[..], priority[..], timestamp[..], size, i0, ev)
      modifies heap, inQueue
      ensures Valid() && inQueue[ev] == i && 1 <= i && SameMembers(ev)
    {
      i := i0;
      while i > 1
        invariant 1 <= i <= size && QueueBut(ev, i) && SameMembers(ev)
        invariant Below(heap[..], priority[..], timestamp[..], size, i, ev)
        decreases i
      {
        var j := i / 2;
        var x := heap[j];
        assert x != ev by { assert inQueue[..][ev := 0][x] == j; }
        var g := IsGreater(x, ev);
        if !g { break; }
        ghost var h, q := heap[..], inQueue[..];
        MoveLinked(h, q[ev := 0], size, i, j);
        MoveUp(h, priority[..], timestamp[..], size, i);
        BelowUp(h, priority[..], timestamp[..], size, i, ev);
        heap[i] := x;
        inQueue[x] := i;
        assert heap[..] == h[i := h[j]] && inQueue[..][ev := 0] == q[ev := 0][h[j] := i];
        i := j;
      }
      Fill(i, ev);
    }

    /** pop_heap_head: an event that none of the others comes before, or -1. */
    method Pop() returns (ev: int)
      requires Valid()
      modifies heap, inQueue, this`size
      ensures Valid() && (ev == -1 <==> old(size) == 0)
      ensures ev == -1 ==> size == 0 && SameMembers(-1)
      ensures ev != -1 ==> 0 <= ev < inQueue.Length && old(inQueue[ev]) != 0 && inQueue[ev] == 0 && SameMembers(ev)
      ensures ev != -1 ==>
        forall e :: 0 <= e < inQueue.Length && old(inQueue[e]) != 0 ==> Le(priority[..], timestamp[..], ev, e)
    {
      if size == 0 {
        return -1;
      }
      ev := heap[1];
      forall e | 0 <= e < inQueue.Length && inQueue[e] != 0 ensures Le(priority[..], timestamp[..], ev, e) {
        HeadFirst(heap[..], priority[..], timestamp[..], size, inQueue[e]);
      }
      ghost var q := inQueue[..];
      assert inQueue[ev] == 1;
      inQueue[ev] := 0;
      assert inQueue[..] == q[ev := 0];
      size := size - 1;
      if size == 0 {
        return;
      }
      var x := heap[size + 1];
      TakeLast(heap[..], q, priority[..], timestamp[..], size, ev, x);
      SiftDown(x);
    }

    /** The loop of pop_heap_head: the hole moves down from the top until x fits. */
    method SiftDown(x: int)
      requires 0 <= x < inQueue.Length && QueueBut(x, 1) && 1 <= size && inQueue[x] != 0
      modifies heap, inQueue
      ensures Valid() && inQueue[x] != 0 && SameMembers(x)
    {
      var i := 1;
      while 2 * i <= size
        invariant 1 <= i <= size && QueueBut(x, i) && SameMembers(x)
        invariant i > 1 ==> Le(priority[..], timestamp[..], heap[i / 2], x)
        decreases size - i
      {
        var j := Child(i, size);
        var y := heap[j];
        var g := IsGreater(x, y);
        if !g {
          ChildFirst(heap[..], priority[..], timestamp[..], size, i, j, x);
          break;
        }
        ghost var h, q := heap[..], inQueue[..];
        DownStep(h, q, priority[..], timestamp[..], size, i, j, x);
        heap[i] := y;
        inQueue[y] := i;
        assert heap[..] == h[i := h[j]] && inQueue[..] == q[h[j] := i];
        i := j;
      }
      Fill(i, x);
    }

    /** The loop of remove_event_from_heap: the hole moves down to the end of the heap. */
    method HoleDown(i0: int) returns (i: int)
      requires Queue(i0) && 1 <= i0
      modifies heap, inQueue
      ensures Queue(i) && 1 <= i && 2 * i > size
      ensures forall e :: 0 <= e < inQueue.Length ==> (inQueue[e] == 0 <==> old(inQueue[e]) == 0)
    {
      i := i0;
      while 2 * i <= size
        invariant 1 <= i && Queue(i)
        invariant forall e :: 0 <= e < inQueue.Length ==> (inQueue[e] == 0 <==> old(inQueue[e]) == 0)
        decreases size - i
      {
        var j := Child(i, size);
        ghost var h, q := heap[..], inQueue[..];
        MoveLinked(h, q, size, i, j);
        MoveDown(h, priority[..], timestamp[..], size, i, j);
        var x := heap[j];
        heap[i] := x;
        inQueue[x] := i;
        assert heap[..] == h[i := h[j]] && inQueue[..] == q[h[j] := i];
        i := j;
      }
    }

    /** remove_event_from_heap (ev, 1), for an event in the queue whose key may have changed: its slot becomes a
        hole at the end of the heap. */
    method RemoveHole(ev: int) returns (i: int)
      requires 0 <= ev < inQueue.Length && Shape() && Linked(heap[..], inQueue[..], size, 0) && inQueue[ev] != 0
      requires Ordered(heap[..], priority[..], timestamp[..], size, inQueue[ev])
      modifies heap, inQueue
      ensures Queue(i) && 1 <= i && 2 * i > size && inQueue[ev] == 0 && SameMembers(ev)
    {
      i := inQueue[ev];
      ghost var h, q := heap[..], inQueue[..];
      inQueue[ev] := 0;
      assert inQueue[..] == q[ev := 0];
      i := HoleDown(i);
    }

    /** remove_event_from_heap (ev, 0). */
    method Remove(ev: int) returns (r: int)
      requires 0 <= ev < inQueue.Length && Valid()
      modifies heap, inQueue, this`size
      ensures Valid() && inQueue[ev] == 0 && SameMembers(ev)
      ensures r == (if old(inQueue[ev]) == 0 then 0 else old(size)) && size == old(size) - (if r == 0 then 0 else 1)
    {
      if inQueue[ev] == 0 {
        return 0;
      }
      HoleFor(heap[..], inQueue[..], priority[..], timestamp[..], size, inQueue[ev]);
      r := size;
      var i := RemoveHole(ev);
      size := size - 1;
      if i < r {
        var last := heap[r];
        LastOut(heap[..], inQueue[..], priority[..], timestamp[..], size, i, last);
        heap[r] := -1;
        var at := SiftUp(i, last);
      } else {
        LastHole(heap[..], inQueue[..], priority[..], timestamp[..], size);
      }
    }

    /** put_event_into_heap: ev comes into the queue, or finds its place again after a change of its key. */
    method Put(ev: int) returns (i: int)
      requires 0 <= ev < inQueue.Length && Shape() && Linked(heap[..], inQueue[..], size, 0)
      requires Ordered(heap[..], priority[..], timestamp[..], size, inQueue[ev])
      modifies heap, inQueue, this`size
      ensures Valid() && inQueue[ev] == i && 1 <= i && SameMembers(ev)
      ensures size == old(size) + if old(inQueue[ev]) == 0 then 1 else 0
    {
      if inQueue[ev] != 0 {
        i := RemoveHole(ev);
      } else {
        Room(heap[..], inQueue[..], size, ev);
        NewHole(heap[..], inQueue[..], priority[..], timestamp[..], size);
        size := size + 1;
        i := size;
      }
      assert inQueue[..][ev := 0] == inQueue[..];
      i := SiftUp(i, ev);
    }

    /** A change of the key of an event, in the queue or not, and the call that brings the queue in order again
        (epoll_work sets the timestamp, epoll_sethandler the priority). */
    method Rekey(ev: int, prio: int, time: int) returns (i: int)
      requires 0 <= ev < inQueue.Length && Valid() && Fits(priority[..][ev := prio])
      modifies heap, inQueue, priority, timestamp, this`size
      ensures Valid() && inQueue[ev] == i && 1 <= i && SameMembers(ev)
      ensures priority[..] == old(priority[..])[ev := prio] && timestamp[..] == old(timestamp[..])[ev := time]
    {
      ghost var p, t := priority[..], timestamp[..];
      priority[ev] := prio;
      timestamp[ev] := time;
      assert priority[..] == p[ev := prio] && timestamp[..] == t[ev := time];
      Rekeyed(heap[..], inQueue[..], p, t, priority[..], timestamp[..], size, ev);
      i := Put(ev);
    }
  }

  /** Without its head and its last event, the heap is a heap with a hole on top. */
  lemma TakeLast(h: seq<int>, q: seq<int>, p: seq<int>, t: seq<int>, n: int, ev: int, x: int)
    requires Linked(h, q, n + 1, 0) && Ordered(h, p, t, n + 1, 0) && n >= 1 && ev == h[1] && x == h[n + 1]
    ensures 0 <= x < |q| && x != ev && q[x] == n + 1
    ensures Linked(h, q[ev := 0][x := 0], n, 1) && Ordered(h, p, t, n, 1)
  {
    forall k | 2 <= k <= n ensures Link(h, p, t, 1, k) {
      assert Link(h, p, t, 0, k);
    }
  }

  lemma ChildFirst(h: seq<int>, p: seq<int>, t: seq<int>, n: int, i: int, j: int, x: int)
    requires 1 <= i && 2 * i <= n < |h| && (j == 2 * i || j == 2 * i + 1) && j <= n
    requires j % 2 == 1 ==> Le(p, t, h[j], h[j - 1])
    requires j % 2 == 0 && j < n ==> Le(p, t, h[j], h[j + 1])
    requires Le(p, t, x, h[j])
    ensures Below(h, p, t, n, i, x)
  {
    forall k | 2 <= k <= n && k / 2 == i ensures Le(p, t, x, h[k]) {
      if k != j { LeTrans(p, t, x, h[j], h[k]); }
    }
  }

  /** The order with one slot taken for a hole. */
  lemma HoleFor(h: seq<int>, q: seq<int>, p: seq<int>, t: seq<int>, n: int, i: int)
    requires Linked(h, q, n, 0) && Ordered(h, p, t, n, 0) && 1 <= i <= n
    ensures Ordered(h, p, t, n, i)
  {
    forall k | 2 <= k <= n ensures Link(h, p, t, i, k) {
      assert Link(h, p, t, 0, k);
      if k / 2 == i && i > 1 {
        assert Link(h, p, t, 0, i);
        LeTrans(p, t, h[i / 2], h[i], h[k]);
      }
    }
  }

  /** The last event is taken out to be put into the hole i, which has no children. */
  lemma LastOut(h: seq<int>, q: seq<int>, p: seq<int>, t: seq<int>, n: int, i: int, x: int)
    requires Linked(h, q, n + 1, i) && Ordered(h, p, t, n + 1, i) && 1 <= i <= n && 2 * i > n + 1 && x == h[n + 1]
    ensures 0 <= x < |q| && q[x] == n + 1
    ensures var h' := h[n + 1 := -1];
            Linked(h', q[x := 0], n, i) && Ordered(h', p, t, n, i) && Below(h', p, t, n, i, x)
  {
    var h' := h[n + 1 := -1];
    forall k | 2 <= k <= n ensures Link(h', p, t, i, k) {
      assert Link(h, p, t, i, k);
    }
  }

  lemma LastHole(h: seq<int>, q: seq<int>, p: seq<int>, t: seq<int>, n: int)
    requires n >= 0 && Linked(h, q, n + 1, n + 1) && Ordered(h, p, t, n + 1, n + 1)
    ensures Linked(h, q, n, 0) && Ordered(h, p, t, n, 0)
  {
    forall k | 2 <= k <= n ensures Link(h, p, t, 0, k) {
      assert Link(h, p, t, n + 1, k);
    }
  }

  lemma NewHole(h: seq<int>, q: seq<int>, p: seq<int>, t: seq<int>, n: int)
    requires Linked(h, q, n, 0) && Ordered(h, p, t, n, 0) && n + 1 < |h|
    ensures Linked(h, q, n + 1, n + 1) && Ordered(h, p, t, n + 1, n + 1)
  {
    var hole := n + 1;
    forall k | 2 <= k <= n + 1 ensures Link(h, p, t, hole, k) {
      assert k <= n ==> Link(h, p, t, 0, k);
    }
  }

  // ----- the heap never overflows -----

  ghost function Upto(n: nat): set<int> {
    if n == 0 then {} else Upto(n - 1) + {n - 1}
  }

  lemma {:induction false} UptoSize(n: nat)
    ensures |Upto(n)| == n && forall e :: e in Upto(n) <==> 0 <= e < n
  {
    if n > 0 { UptoSize(n - 1); }
  }

  ghost function Used(h: seq<int>, m: nat): set<int>
    requires m < |h|
  {
    if m == 0 then {} else Used(h, m - 1) + {h[m]}
  }

  lemma {:induction false} UsedSize(h: seq<int>, q: seq<int>, n: int, m: nat)
    requires Linked(h, q, n, 0) && m <= n
    ensures |Used(h, m)| == m && forall e :: e in Used(h, m) ==> 0 <= e < |q| && 1 <= q[e] <= m
  {
    if m > 0 { UsedSize(h, q, n, m - 1); }
  }

  /** As long as an event is not in the queue, the heap is not full. */
  lemma Room(h: seq<int>, q: seq<int>, n: int, ev: int)
    requires Linked(h, q, n, 0) && 0 <= ev < |q| && q[ev] == 0
    ensures n < |q|
  {
    UsedSize(h, q, n, n);
    UptoSize(|q|);
    forall e | e in Used(h, n) ensures e in Upto(|q|) - {ev} {
    }
    Subset(Used(h, n), Upto(|q|) - {ev});
  }
}
