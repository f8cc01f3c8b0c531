/** One ring of common/mp-queue.c: a fixed array of (safe bit, index, value) cells, a head and a
    tail counter from which pops and pushes draw tickets, and a closed bit.

    The `stored`, `taken`, `given`, `popper` and `pusher` components are history: they remember what
    was stored under which tail ticket, which head tickets took a value or gave up, and which thread
    drew each ticket.  No transition looks at them. */
module MpRing {
  type Value = nat
  type Tid = nat

  datatype Content = Empty | Full(v: Value)

  datatype Cell = Cell(safe: bool, idx: nat, content: Content)

  /** The cell of a ticket: `ticket & (size - 1)`, by counting round the ring. */
  function SlotOf(ticket: nat, size: nat): (i: nat)
    requires size > 0
    ensures i < size
  {
    if ticket < size then ticket else SlotOf(ticket - size, size)
  }

  datatype Ring = Ring(
    head: nat,
    tail: nat,
    closed: bool,
    cells: seq<Cell>,
    // history
    bound: nat,               // every ticket a push drew while the ring was open is below it
    stored: map<nat, Value>,
    taken: set<nat>,
    given: set<nat>,
    popper: map<nat, Tid>,
    pusher: map<nat, Tid>)
  {
    function Slot(ticket: nat): (i: nat)
      requires |cells| > 0
      ensures i < |cells|
    {
      SlotOf(ticket, |cells|)
    }

    function At(ticket: nat): Cell
      requires |cells| > 0
    {
      cells[Slot(ticket)]
    }

    predicate Live(t: nat) {
      t in stored && t !in taken
    }

    /** Every value a push stored or may still store has a pop that drew its ticket. */
    predicate Drained() {
      closed && bound <= head
    }
  }

  // ----- transitions: one per atomic instruction that writes the ring -----

  /** alloc_mpq_block: an empty ring, or one that holds a first value under ticket 0. */
  function NewRing(size: nat, first: Content, u: Tid): Ring
    requires size > 0
  {
    var cells := seq(size, i requires 0 <= i < size => Cell(true, i, if i == 0 then first else Empty));
    match first
    case Empty => Ring(0, 0, false, cells, 0, map[], {}, {}, map[], map[])
    case Full(v) => Ring(0, 1, false, cells, 1, map[0 := v], {}, {}, map[], map[0 := u])
  }

  /** h = fetch_and_add(&mqb_head, 1) */
  function DrawPop(r: Ring, u: Tid): Ring {
    r.(head := r.head + 1, popper := r.popper[r.head := u])
  }

  /** The compare-and-swap that empties the cell of ticket h and returns its value. */
  function Take(r: Ring, h: nat): Ring
    requires |r.cells| > 0
  {
    var c := r.At(h);
    r.(cells := r.cells[r.Slot(h) := Cell(c.safe, c.idx + |r.cells|, Empty)], taken := r.taken + {h})
  }

  /** The compare-and-swap that clears the safe bit of a cell still holding an older value. */
  function Unsafe(r: Ring, h: nat): Ring
    requires |r.cells| > 0
  {
    r.(cells := r.cells[r.Slot(h) := r.At(h).(safe := false)], given := r.given + {h})
  }

  /** The compare-and-swap that moves an empty cell past ticket h. */
  function Bump(r: Ring, h: nat): Ring
    requires |r.cells| > 0
  {
    r.(cells := r.cells[r.Slot(h) := r.At(h).(idx := h + |r.cells|)], given := r.given + {h})
  }

  /** The cell is already past ticket h: nothing is written. */
  function Skip(r: Ring, h: nat): Ring {
    r.(given := r.given + {h})
  }

  /** t = fetch_and_add(&mqb_tail, 1); the ticket is good only if the ring was open. */
  function DrawPush(r: Ring, u: Tid): Ring {
    if r.closed then r.(tail := r.tail + 1)
    else r.(tail := r.tail + 1, bound := r.tail + 1, pusher := r.pusher[r.tail := u])
  }

  /** The compare-and-swap that puts v into the cell of ticket t. */
  function Store(r: Ring, t: nat, v: Value): Ring
    requires |r.cells| > 0
  {
    r.(cells := r.cells[r.Slot(t) := Cell(true, t, Full(v))], stored := r.stored[t := v])
  }

  /** fetch_and_or(&mqb_tail, MQN_SAFE) */
  function Close(r: Ring): Ring {
    r.(closed := true)
  }

  /** mpq_fix_state: the successful compare-and-swap of the tail. */
  function AdvanceTail(r: Ring, h: nat): Ring {
    r.(tail := h)
  }

  // ----- invariant -----

  ghost predicate CellsOk(r: Ring)
    requires |r.cells| > 0
  {
    && (forall i :: 0 <= i < |r.cells| ==> r.Slot(r.cells[i].idx) == i)
    && (forall i :: 0 <= i < |r.cells| && r.cells[i].content.Full? ==>
          r.Live(r.cells[i].idx) && r.stored[r.cells[i].idx] == r.cells[i].content.v)
    && (forall t :: r.Live(t) ==> r.At(t).idx == t && r.At(t).content.Full?)
  }

  ghost predicate TicketsOk(r: Ring) {
    && r.taken <= r.stored.Keys <= r.pusher.Keys
    && (forall t :: t in r.pusher ==> t < r.bound)
    && r.bound <= r.tail
    && (forall h: nat :: h in r.popper <==> h < r.head)
    && (forall h :: h in r.taken ==> h < r.head)
    && (forall h :: h in r.given ==> h < r.head)
  }

  /** A pop that gave up on ticket h leaves its cell past h, or unsafe. */
  ghost predicate GivenOk(r: Ring)
    requires |r.cells| > 0
  {
    forall h :: h in r.given ==> h !in r.stored && (r.At(h).idx > h || !r.At(h).safe)
  }

  ghost predicate RingOk(r: Ring) {
    |r.cells| > 0 && CellsOk(r) && TicketsOk(r) && GivenOk(r)
  }

  /** What a push that is about to swap in its value relies on: if the cell it saw is still there,
      then the pop of its ticket has not given up. */
  ghost predicate PushSafe(r: Ring, t: nat, safe: bool, idx: nat)
    requires |r.cells| > 0
  {
    var c := r.At(t);
    && idx <= t && idx <= c.idx
    && (safe || c.idx > idx || c.content.Full? || forall h :: h in r.given && r.Slot(h) == r.Slot(t) ==> h < t)
  }

  /** How a ring may change under the other threads' feet while thread u takes one step. */
  ghost predicate Evolves(r: Ring, r': Ring, u: Tid) {
    && |r.cells| == |r'.cells| > 0
    && r.head <= r'.head && r.tail <= r'.tail && (r.closed ==> r'.closed) && r.bound <= r'.bound
    && (r.closed ==> r'.bound == r.bound)
    && (forall i :: 0 <= i < |r.cells| ==> r.cells[i].idx <= r'.cells[i].idx)
    && (forall t :: t in r.stored ==> t in r'.stored && r'.stored[t] == r.stored[t])
    && (forall t :: t in r.pusher ==> t in r'.pusher && r'.pusher[t] == r.pusher[t])
    && (forall h :: h in r.popper ==> h in r'.popper && r'.popper[h] == r.popper[h])
    && (forall h :: h in r'.popper && h !in r.popper ==> r'.popper[h] == u)
    && r.taken <= r'.taken && r.given <= r'.given
    && (forall t :: t in r'.stored && t !in r.stored ==> t in r'.pusher && r'.pusher[t] == u)
    && (forall h :: h in r'.taken && h !in r.taken ==> h in r'.popper && r'.popper[h] == u)
    && (forall h :: h in r'.given && h !in r.given ==> h in r'.popper && r'.popper[h] == u)
  }

  ghost predicate KeepsPushSafe(r: Ring, r': Ring)
    requires |r.cells| == |r'.cells| > 0
  {
    forall t: nat, safe, idx: nat :: PushSafe(r, t, safe, idx) ==> PushSafe(r', t, safe, idx)
  }

  // ----- each transition keeps the invariant -----

  lemma NewRingOk(size: nat, first: Content, u: Tid)
    requires size > 0
    ensures RingOk(NewRing(size, first, u))
  {
    var r := NewRing(size, first, u);
    assert r.popper == map[] && r.head == 0;
  }

  lemma DrawPopOk(r: Ring, u: Tid)
    requires RingOk(r)
    ensures RingOk(DrawPop(r, u)) && Evolves(r, DrawPop(r, u), u) && KeepsPushSafe(r, DrawPop(r, u))
  {
    var r' := DrawPop(r, u);
    assert forall t :: r'.Live(t) == r.Live(t);
    assert forall t :: r'.At(t) == r.At(t) && r'.Slot(t) == r.Slot(t);
  }

  lemma DrawPushOk(r: Ring, u: Tid)
    requires RingOk(r)
    ensures RingOk(DrawPush(r, u)) && Evolves(r, DrawPush(r, u), u) && KeepsPushSafe(r, DrawPush(r, u))
  {
    var r' := DrawPush(r, u);
    assert forall t :: r'.Live(t) == r.Live(t);
    assert forall t :: r'.At(t) == r.At(t) && r'.Slot(t) == r.Slot(t);
  }

  lemma CloseOk(r: Ring, u: Tid)
    requires RingOk(r)
    ensures RingOk(Close(r)) && Evolves(r, Close(r), u) && KeepsPushSafe(r, Close(r))
  {
    var r' := Close(r);
    assert forall t :: r'.Live(t) == r.Live(t);
    assert forall t :: r'.At(t) == r.At(t) && r'.Slot(t) == r.Slot(t);
  }

  lemma AdvanceTailOk(r: Ring, h: nat, u: Tid)
    requires RingOk(r) && r.tail < h
    ensures RingOk(AdvanceTail(r, h)) && Evolves(r, AdvanceTail(r, h), u) && KeepsPushSafe(r, AdvanceTail(r, h))
  {
    var r' := AdvanceTail(r, h);
    assert forall t :: r'.Live(t) == r.Live(t);
    assert forall t :: r'.At(t) == r.At(t) && r'.Slot(t) == r.Slot(t);
  }

  /** A pop that took the value of its own ticket: the value is the one stored under that ticket. */
  lemma TakeOk(r: Ring, h: nat, u: Tid)
    requires RingOk(r) && h in r.popper && r.popper[h] == u
    requires r.At(h).content.Full? && r.At(h).idx == h
    ensures r.Live(h) && r.stored[h] == r.At(h).content.v
    ensures RingOk(Take(r, h)) && Evolves(r, Take(r, h), u) && KeepsPushSafe(r, Take(r, h))
  {
    var r' := Take(r, h);
    var s := r.Slot(h);
    assert SlotOf(h + |r.cells|, |r.cells|) == r.Slot(h);
    assert forall t :: r'.Slot(t) == r.Slot(t);
    assert forall t :: r'.Live(t) <==> r.Live(t) && t != h;
    forall t | r'.Live(t) ensures r'.At(t).idx == t && r'.At(t).content.Full? {
      assert r.At(t).idx == t;
    }
    assert forall t: nat, safe, idx: nat :: PushSafe(r, t, safe, idx) ==> PushSafe(r', t, safe, idx) by {
      forall t: nat, safe, idx: nat | PushSafe(r, t, safe, idx) ensures PushSafe(r', t, safe, idx) {
        if r.Slot(t) == s { assert r'.At(t).idx > idx; } else { assert r'.At(t) == r.At(t); }
      }
    }
  }

  lemma UnsafeOk(r: Ring, h: nat, u: Tid)
    requires RingOk(r) && h in r.popper && r.popper[h] == u && h !in r.taken
    requires r.At(h).content.Full? && r.At(h).idx < h
    ensures RingOk(Unsafe(r, h)) && Evolves(r, Unsafe(r, h), u) && KeepsPushSafe(r, Unsafe(r, h))
  {
    var r' := Unsafe(r, h);
    assert forall t :: r'.Live(t) == r.Live(t) && r'.Slot(t) == r.Slot(t);
    assert !r.Live(h);
  }

  lemma BumpOk(r: Ring, h: nat, u: Tid)
    requires RingOk(r) && h in r.popper && r.popper[h] == u && h !in r.taken
    requires r.At(h).content.Empty? && r.At(h).idx <= h
    ensures RingOk(Bump(r, h)) && Evolves(r, Bump(r, h), u) && KeepsPushSafe(r, Bump(r, h))
  {
    var r' := Bump(r, h);
    assert SlotOf(h + |r.cells|, |r.cells|) == r.Slot(h);
    assert !r.Live(h);
    assert forall t :: r'.Live(t) == r.Live(t) && r'.Slot(t) == r.Slot(t);
    forall t: nat, safe, idx: nat | PushSafe(r, t, safe, idx) ensures PushSafe(r', t, safe, idx) {
      if r.Slot(t) == r.Slot(h) { assert r'.At(t).idx > idx; } else { assert r'.At(t) == r.At(t); }
    }
  }

  lemma SkipOk(r: Ring, h: nat, u: Tid)
    requires RingOk(r) && h in r.popper && r.popper[h] == u && h !in r.taken
    requires r.At(h).idx > h
    ensures RingOk(Skip(r, h)) && Evolves(r, Skip(r, h), u) && KeepsPushSafe(r, Skip(r, h))
  {
    var r' := Skip(r, h);
    assert !r.Live(h);
    assert forall t :: r'.Live(t) == r.Live(t) && r'.Slot(t) == r.Slot(t);
    forall t: nat, safe, idx: nat | PushSafe(r, t, safe, idx) ensures PushSafe(r', t, safe, idx) {
      if r.Slot(t) == r.Slot(h) && t <= h { assert r'.At(t).idx > idx; } else { assert r'.At(t) == r.At(t); }
    }
  }

  /** A push succeeds only while the pop of the same ticket has not given up. */
  lemma StoreOk(r: Ring, t: nat, v: Value, safe: bool, idx: nat, u: Tid)
    requires RingOk(r) && t in r.pusher && r.pusher[t] == u && t !in r.stored
    requires PushSafe(r, t, safe, idx) && r.At(t) == Cell(safe, idx, Empty)
    ensures t !in r.given
    ensures RingOk(Store(r, t, v)) && Evolves(r, Store(r, t, v), u) && KeepsPushSafe(r, Store(r, t, v))
  {
    var r' := Store(r, t, v);
    assert forall h :: h in r.given && r.Slot(h) == r.Slot(t) ==> h < t;
    assert forall x :: r'.Live(x) <==> r.Live(x) || x == t;
    assert forall x :: r'.Slot(x) == r.Slot(x);
    forall x | r'.Live(x) ensures r'.At(x).idx == x && r'.At(x).content.Full? {
      if x != t { assert r.At(x).content.Full?; assert r.Slot(x) != r.Slot(t); }
    }
  }
}
