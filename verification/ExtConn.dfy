/** The operations on the tables of external connections (mtproto/mtproto-proxy.c): what forwarding a query, an
    answer, an acknowledgement, and the closing of either side do to them. */
module ExtConn {
  import opened CircularLists
  import opened ExtTables

  /** Live connections by address, the hash table, OutExtConnections, and the links of the lists.  The heads of the
      lists of descriptor fd are -fd, that of the LRU list is 0. */
  datatype World = World(ext: map<int, Ext>, table: Hash, slots: map<int, Slot>, o: Links, i: Links, lru: Links)

  /** What the tables stand for: the elements of each chain and list, and every id issued so far. */
  datatype Lens = Lens(chains: map<int, seq<int>>, om: map<int, seq<int>>, im: map<int, seq<int>>, lm: map<int, seq<int>>,
                       issued: map<int, Client>)

  datatype State = State(w: World, ghost g: Lens)

  /** All tables agree: what every operation keeps. */
  ghost predicate Good(s: State) {
    && HashOk(Hashes(s.w.ext), s.w.table, s.g.chains) && KeysOk(s.w.ext)
    && SlotsOk(s.w.ext, s.w.slots) && IssuedOk(s.w.ext, s.w.slots, s.g.issued)
    && MembersOk(s.w.o, s.g.om, OutFds(s.w.ext))
    && MembersOk(s.w.i, s.g.im, InFds(s.w.ext)) && (forall h :: h in s.g.im ==> |s.g.im[h]| <= 1)
    && LruOk(s.w.ext, s.w.lru, s.g.lm)
  }

  /** Ids once issued stay with their clients. */
  ghost predicate Onward(s: State, s': State) {
    forall id :: id in s.g.issued ==> id in s'.g.issued && s'.g.issued[id] == s.g.issued[id]
  }

  // ----- removal -----

  /** get_ext_connection_by_in_conn_id in mode 1: x, which follows prev in its chain, leaves all tables. */
  function Removed(w: World, prev: int, x: int): World
    requires x in w.ext && x in w.table.next
  {
    var e := w.ext[x];
    World(Drop(w.ext, x), ChainDrop(w.table, HashFor(e), prev, x), w.slots[e.outConnId % TABLE_SIZE := Slot(0, e.outConnId)],
          DeleteIf(w.o, x), DeleteIf(w.i, x), DeleteIf(w.lru, x))
  }

  function WithoutMember(m: map<int, seq<int>>, fd: int, x: int): map<int, seq<int>> {
    if fd == 0 then m else WithoutIf(m, -fd, x)
  }

  function RemovedLens(w: World, g: Lens, x: int): Lens
    requires x in w.ext
  {
    var e := w.ext[x];
    Lens(g.chains[HashFor(e) := Without(ListAt(g.chains, HashFor(e)), x)], WithoutMember(g.om, e.outFd, x),
         WithoutMember(g.im, e.inFd, x), WithoutIf(g.lm, 0, x), g.issued)
  }

  /** x is the k-th of its chain, behind prev. */
  ghost predicate InChain(s: State, prev: int, x: int, k: nat) {
    && x in s.w.ext
    && (var c := ListAt(s.g.chains, HashFor(s.w.ext[x]));
        k < |c| && c[k] == x && prev == if k == 0 then 0 else c[k - 1])
  }

  lemma DroppedMaps(ext: map<int, Ext>, x: int)
    ensures Hashes(Drop(ext, x)) == Drop(Hashes(ext), x)
    ensures OutFds(Drop(ext, x)) == Drop(OutFds(ext), x) && InFds(Drop(ext, x)) == Drop(InFds(ext), x)
  {
  }

  lemma RemoveOk(s: State, prev: int, x: int, k: nat)
    requires Good(s) && InChain(s, prev, x, k)
    ensures x in s.w.table.next
    ensures var s' := State(Removed(s.w, prev, x), RemovedLens(s.w, s.g, x)); Good(s') && s'.g.om.Keys == s.g.om.Keys
  {
    RemoveKeys(s, prev, x, k);
    RemoveMembers(s, x);
  }

  lemma RemoveKeys(s: State, prev: int, x: int, k: nat)
    requires Good(s) && InChain(s, prev, x, k)
    ensures x in s.w.table.next && x > 0
    ensures var w', g' := Removed(s.w, prev, x), RemovedLens(s.w, s.g, x);
            && HashOk(Hashes(w'.ext), w'.table, g'.chains) && KeysOk(w'.ext)
            && SlotsOk(w'.ext, w'.slots) && IssuedOk(w'.ext, w'.slots, g'.issued)
  {
    DroppedMaps(s.w.ext, x);
    assert InOwnChain(s.g.chains, x, Hashes(s.w.ext)[x]);
    RemoveHash(Hashes(s.w.ext), s.w.table, s.g.chains, prev, x, k);
    RemoveSlots(s.w.ext, s.w.slots, s.g.issued, x);
  }

  lemma RemoveMembers(s: State, x: int)
    requires x in s.w.ext && x > 0 && MembersOk(s.w.o, s.g.om, OutFds(s.w.ext)) && MembersOk(s.w.i, s.g.im, InFds(s.w.ext))
    requires (forall h :: h in s.g.im ==> |s.g.im[h]| <= 1) && LruOk(s.w.ext, s.w.lru, s.g.lm)
    ensures var ext', e := Drop(s.w.ext, x), s.w.ext[x];
            && MembersOk(DeleteIf(s.w.o, x), WithoutMember(s.g.om, e.outFd, x), OutFds(ext'))
            && MembersOk(DeleteIf(s.w.i, x), WithoutMember(s.g.im, e.inFd, x), InFds(ext'))
            && (forall h :: h in WithoutMember(s.g.im, e.inFd, x) ==> |WithoutMember(s.g.im, e.inFd, x)[h]| <= 1)
            && WithoutMember(s.g.om, e.outFd, x).Keys == s.g.om.Keys
            && LruOk(ext', DeleteIf(s.w.lru, x), WithoutIf(s.g.lm, 0, x))
  {
    DroppedMaps(s.w.ext, x);
    RemoveMember(s.w.o, s.g.om, OutFds(s.w.ext), x);
    RemoveMember(s.w.i, s.g.im, InFds(s.w.ext), x);
    LruDelete(s.w.ext, s.w.lru, s.g.lm, x);
  }

  // ----- addition -----

  /** x, with the id of slot r, comes into the tables; the list heads it needs are in place. */
  function Added(w: World, x: int, e: Ext, r: int): World
    requires (e.outFd != 0 ==> -e.outFd in w.o.prev) && (e.inFd != 0 ==> -e.inFd in w.i.prev)
  {
    World(w.ext[x := e], ChainAdd(w.table, HashFor(e), x), w.slots[r := Slot(x, e.outConnId)],
          InsertIf(w.o, e.outFd, x), InsertIf(w.i, e.inFd, x), w.lru)
  }

  function InsertIf(l: Links, fd: int, x: int): Links
    requires fd != 0 ==> -fd in l.prev
  {
    if fd == 0 then l else Insert(l, -fd, x)
  }

  function WithMember(m: map<int, seq<int>>, fd: int, x: int): map<int, seq<int>> {
    if fd == 0 then m else m[-fd := ListAt(m, -fd) + [x]]
  }

  function AddedLens(g: Lens, x: int, e: Ext): Lens {
    Lens(g.chains[HashFor(e) := [x] + ListAt(g.chains, HashFor(e))], WithMember(g.om, e.outFd, x), WithMember(g.im, e.inFd, x),
         g.lm, g.issued[e.outConnId := ClientOf(e)])
  }

  /** When x can be added for e at slot r. */
  ghost predicate CanAdd(s: State, x: int, e: Ext, r: int) {
    && x > 0 && x !in s.w.ext && 0 <= r < TABLE_SIZE && SlotAt(s.w.slots, r).ref == 0
    && e.outConnId == NextId(SlotAt(s.w.slots, r).outConnId, r)
    && (forall y :: y in s.w.ext ==> !SameKey(s.w.ext[y], e))
    && e.inFd >= 0 && (e.inFd > 0 ==> -e.inFd in s.g.im && s.g.im[-e.inFd] == [])
    && e.outFd >= 0 && (e.outFd > 0 ==> -e.outFd in s.g.om)
  }

  lemma AddedMaps(ext: map<int, Ext>, x: int, e: Ext)
    ensures Hashes(ext[x := e]) == Hashes(ext)[x := HashFor(e)]
    ensures OutFds(ext[x := e]) == OutFds(ext)[x := e.outFd] && InFds(ext[x := e]) == InFds(ext)[x := e.inFd]
  {
  }

  lemma AddTo(l: Links, m: map<int, seq<int>>, fds: map<int, int>, x: int, fd: int)
    requires MembersOk(l, m, fds) && x > 0 && x !in fds && fd >= 0 && (fd > 0 ==> -fd in m)
    ensures fd != 0 ==> -fd in l.prev
    ensures MembersOk(InsertIf(l, fd, x), WithMember(m, fd, x), fds[x := fd])
  {
    if fd == 0 { AddNone(l, m, fds, x); } else { AddMember(l, m, fds, x, fd); }
  }

  lemma PositiveExt(s: State)
    requires Good(s)
    ensures forall x :: x in s.w.ext ==> x > 0
  {
    forall x | x in s.w.ext ensures x > 0 {
      assert x in Hashes(s.w.ext) && InOwnChain(s.g.chains, x, Hashes(s.w.ext)[x]);
    }
  }

  lemma AddOk(s: State, x: int, e: Ext, r: int)
    requires Good(s) && CanAdd(s, x, e, r)
    ensures (e.outFd != 0 ==> -e.outFd in s.w.o.prev) && (e.inFd != 0 ==> -e.inFd in s.w.i.prev)
    ensures Good(State(Added(s.w, x, e, r), AddedLens(s.g, x, e))) && e.outConnId !in s.g.issued
  {
    AddKeys(s, x, e, r);
    AddMembers(s, x, e, r);
  }

  lemma AddKeys(s: State, x: int, e: Ext, r: int)
    requires Good(s) && CanAdd(s, x, e, r)
    ensures var ext', g' := s.w.ext[x := e], AddedLens(s.g, x, e);
            && HashOk(Hashes(ext'), ChainAdd(s.w.table, HashFor(e), x), g'.chains) && KeysOk(ext')
            && SlotsOk(ext', s.w.slots[r := Slot(x, e.outConnId)])
            && IssuedOk(ext', s.w.slots[r := Slot(x, e.outConnId)], g'.issued)
    ensures e.outConnId !in s.g.issued
  {
    AddedMaps(s.w.ext, x, e);
    PositiveExt(s);
    AddHash(Hashes(s.w.ext), s.w.table, s.g.chains, x, HashFor(e));
    AddSlots(s.w.ext, s.w.slots, s.g.issued, x, e, r);
  }

  lemma AddMembers(s: State, x: int, e: Ext, r: int)
    requires MembersOk(s.w.o, s.g.om, OutFds(s.w.ext)) && MembersOk(s.w.i, s.g.im, InFds(s.w.ext))
    requires (forall h :: h in s.g.im ==> |s.g.im[h]| <= 1) && LruOk(s.w.ext, s.w.lru, s.g.lm) && CanAdd(s, x, e, r)
    ensures (e.outFd != 0 ==> -e.outFd in s.w.o.prev) && (e.inFd != 0 ==> -e.inFd in s.w.i.prev)
    ensures MembersOk(InsertIf(s.w.o, e.outFd, x), WithMember(s.g.om, e.outFd, x), OutFds(s.w.ext[x := e]))
    ensures MembersOk(InsertIf(s.w.i, e.inFd, x), WithMember(s.g.im, e.inFd, x), InFds(s.w.ext[x := e]))
    ensures forall h :: h in WithMember(s.g.im, e.inFd, x) ==> |WithMember(s.g.im, e.inFd, x)[h]| <= 1
    ensures LruOk(s.w.ext[x := e], s.w.lru, s.g.lm)
  {
    AddedMaps(s.w.ext, x, e);
    AddTo(s.w.o, s.g.om, OutFds(s.w.ext), x, e.outFd);
    AddTo(s.w.i, s.g.im, InFds(s.w.ext), x, e.inFd);
    StillOne(s.g.im, e.inFd, x);
  }

  lemma StillOne(m: map<int, seq<int>>, fd: int, x: int)
    requires (forall h :: h in m ==> |m[h]| <= 1) && (fd != 0 ==> ListAt(m, -fd) == [])
    ensures forall h :: h in WithMember(m, fd, x) ==> |WithMember(m, fd, x)[h]| <= 1
  {
  }

  /** A new connection x for a client, with an id that was never issued before. */
  ghost predicate Created(s: State, s': State, x: int, c: Client, authKey: int) {
    && Good(s') && x !in s.w.ext && x in s'.w.ext && s'.w.ext == s.w.ext[x := s'.w.ext[x]]
    && ClientOf(s'.w.ext[x]) == c && s'.w.ext[x].authKey == authKey
    && s'.w.ext[x].outConnId !in s.g.issued && s'.g.issued == s.g.issued[s'.w.ext[x].outConnId := c]
    && s'.g.om.Keys == s.g.om.Keys
  }

  lemma CreatedOk(s0: State, s: State, x: int, e: Ext, r: int)
    requires Good(s) && CanAdd(s, x, e, r) && s.w.ext == s0.w.ext && s.g.issued == s0.g.issued && s.g.om == s0.g.om
    ensures (e.outFd != 0 ==> -e.outFd in s.w.o.prev) && (e.inFd != 0 ==> -e.inFd in s.w.i.prev)
    ensures Created(s0, State(Added(s.w, x, e, r), AddedLens(s.g, x, e)), x, ClientOf(e), e.authKey)
  {
    if e.outFd != 0 {
      assert -e.outFd in s.g.om;
      SameKeys(s.g.om, -e.outFd, ListAt(s.g.om, -e.outFd) + [x]);
    }
    AddOk(s, x, e, r);
  }

  lemma SameKeys(m: map<int, seq<int>>, h: int, t: seq<int>)
    requires h in m
    ensures m[h := t].Keys == m.Keys
  {
  }

  // ----- heads -----

  lemma OutHeadOk(s: State, fd: int)
    requires Good(s) && fd > 0 && -fd !in s.g.om
    ensures Good(State(s.w.(o := NewHead(s.w.o, -fd)), s.g.(om := s.g.om[-fd := []])))
  {
    AddHead(s.w.o, s.g.om, OutFds(s.w.ext), fd);
  }

  lemma OutHeadGone(s: State, fd: int)
    requires Good(s) && fd > 0 && -fd in s.g.om && s.g.om[-fd] == []
    ensures Good(State(s.w.(o := DropHead(s.w.o, -fd)), s.g.(om := map h | h in s.g.om && h != -fd :: s.g.om[h])))
  {
    RemoveHead(s.w.o, s.g.om, OutFds(s.w.ext), fd);
  }

  /** The list of a client descriptor gets its head when it is first used. */
  lemma InHeadOk(s: State, fd: int)
    requires Good(s) && fd > 0
    ensures -fd in s.w.i.next <==> -fd in s.g.im
    ensures -fd !in s.g.im ==> Good(State(s.w.(i := NewHead(s.w.i, -fd)), s.g.(im := s.g.im[-fd := []])))
  {
    if -fd in s.g.im {
      CircleIn(s.w.i, s.g.im, -fd, -fd);
    } else {
      AddHead(s.w.i, s.g.im, InFds(s.w.ext), fd);
    }
  }

  lemma NoneThere(s: State, fd: int)
    requires Good(s) && fd > 0 && ListAt(s.g.im, -fd) == []
    ensures forall x :: x in s.w.ext ==> s.w.ext[x].inFd != fd
  {
    forall x | x in s.w.ext ensures s.w.ext[x].inFd != fd {
      assert x in InFds(s.w.ext) && Listed(s.g.im, x, InFds(s.w.ext)[x]);
    }
  }

  /** The only connection of a client descriptor is the one behind the head of its list. */
  lemma OnlyOne(s: State, fd: int)
    requires Good(s) && fd > 0 && -fd in s.g.im
    ensures -fd in s.w.i.next
    ensures s.g.im[-fd] == [] ==> s.w.i.next[-fd] == -fd
    ensures s.g.im[-fd] != [] ==>
      var x := s.w.i.next[-fd]; x in s.w.ext && x > 0 && s.w.ext[x].inFd == fd && s.g.im[-fd] == [x]
  {
    var c := [-fd] + s.g.im[-fd];
    assert Linked(s.w.i, c, 0);
    if s.g.im[-fd] != [] {
      var x := s.g.im[-fd][0];
      assert c[1] == x && s.g.im[-fd] == [x];
      assert Belongs(InFds(s.w.ext), -fd, x);
      PositiveExt(s);
    }
  }

  // ----- the LRU list -----

  lemma LruInsertOk(s: State, x: int)
    requires Good(s) && x in s.w.ext
    ensures 0 in s.g.lm && 0 in DeleteIf(s.w.lru, x).prev
    ensures Good(State(s.w.(lru := Insert(DeleteIf(s.w.lru, x), 0, x)), s.g.(lm := map[0 := Without(s.g.lm[0], x) + [x]])))
  {
    PositiveExt(s);
    assert 0 in s.g.lm;
    LruInsert(s.w.ext, s.w.lru, s.g.lm, x);
  }

  lemma EmptyOk(s: State)
    requires s == State(World(map[], Hash(map[], map[]), map[], Links(map[], map[]), Links(map[], map[]),
                              Links(map[0 := 0], map[0 := 0])),
                        Lens(map[], map[], map[], map[0 := []], map[]))
    ensures Good(s)
  {
    forall h ensures Chain(s.w.table, h, ListAt(s.g.chains, h)) {
    }
    forall h ensures SlotOk(s.w.ext, s.w.slots, h) {
    }
    var c := [0] + [];
    assert c == [0] && Linked(s.w.lru, c, 0) && Circle(s.w.lru, c);
    assert Lists(s.w.lru, s.g.lm);
  }

  datatype Target = Dropped | To(fd: int, gen: int, connId: int)

  datatype Forward = Lost | Sent(outConnId: int, fd: int, gen: int)

  /** The connection x of a client, with the id that goes into the request. */
  predicate Uses(e: Ext, inFd: int, authKey: int, f: Forward)
    requires f.Sent?
  {
    e.inFd == inFd && e.outConnId == f.outConnId && e.outFd == f.fd && e.outGen == f.gen && e.authKey == authKey
  }

  /** A forwarded query carries the id of the live connection of its client: the one there was, or a new one with an
      id never issued before.  The connections of other clients stay as they are. */
  ghost predicate Forwarded(s: State, s': State, inFd: int, authKey: int, f: Forward) {
    && Onward(s, s')
    && OthersKept(s, s', inFd)
    && (f.Sent? ==> exists x :: x in s'.w.ext && Uses(s'.w.ext[x], inFd, authKey, f) && OldOrNew(s, x, inFd, f.outConnId))
  }

  ghost predicate OldOrNew(s: State, x: int, inFd: int, id: int) {
    id in s.g.issued ==> x in s.w.ext && s.w.ext[x].inFd == inFd && s.w.ext[x].outConnId == id
  }

  /** The client descriptor has no connection. */
  ghost predicate NoneOf(s: State, inFd: int) {
    ListAt(s.g.im, -inFd) == [] && forall y :: y in s.w.ext ==> s.w.ext[y].inFd != inFd
  }

  ghost predicate OthersKept(s: State, s': State, inFd: int) {
    forall y :: y in s.w.ext && s.w.ext[y].inFd != inFd ==> y in s'.w.ext && s'.w.ext[y] == s.w.ext[y]
  }

  /** The connections of the client descriptor are for generation inGen of it. */
  ghost predicate OfGen(s: State, inFd: int, inGen: int) {
    forall y :: y in s.w.ext && s.w.ext[y].inFd == inFd ==> s.w.ext[y].inGen == inGen
  }

  /** Whose answers come back under the id that was sent: those of the client descriptor, and of its generation
      inGen exactly if no connection of another generation was there, or it was dropped. */
  ghost predicate ForClient(s: State, s': State, inFd: int, inGen: int, aliveOut: bool, f: Forward) {
    && (f.Sent? ==>
          && f.outConnId in s'.g.issued && s'.g.issued[f.outConnId].inFd == inFd
          && (s'.g.issued[f.outConnId].inGen == inGen <==> OfGen(s, inFd, inGen) || !aliveOut))
    && (OfGen(s, inFd, inGen) ==> OfGen(s', inFd, inGen))
  }

  /** The client has a connection, and its middle-end connection is still there. */
  ghost predicate Usable(s: State, inFd: int, aliveOut: bool) {
    aliveOut && !NoneOf(s, inFd)
  }

  /** The query goes over the connection that the client has in s. */
  ghost predicate CarriedBy(s: State, inFd: int, f: Forward)
    requires f.Sent?
  {
    exists x :: x in s.w.ext && s.w.ext[x].inFd == inFd && s.w.ext[x].outConnId == f.outConnId
             && s.w.ext[x].outFd == f.fd && s.w.ext[x].outGen == f.gen
  }

  /** When a query is sent, and over what: the connection of the client if that can be used; otherwise a new one over
      the choice made, unless there is no choice or a packet was dropped before. */
  ghost predicate Routed(s: State, s': State, inFd: int, aliveOut: bool, choiceFd: int, choiceGen: int, dropped: bool,
                         f: Forward)
  {
    && (f.Sent? <==> Usable(s, inFd, aliveOut) || (choiceFd != 0 && !dropped))
    && (Usable(s, inFd, aliveOut) ==> CarriedBy(s, inFd, f) && s'.g.issued == s.g.issued)
    && (f.Sent? && !Usable(s, inFd, aliveOut) ==> f.outConnId !in s.g.issued && f.fd == choiceFd && f.gen == choiceGen)
    && (f.Lost? ==> NoneOf(s', inFd) && s'.g.issued == s.g.issued && s'.w.ext.Keys <= s.w.ext.Keys)
  }

  lemma ForOldClient(s: State, s': State, x: int, inFd: int, authKey: int, f: Forward)
    requires Good(s) && x in s.w.ext && s.w.ext[x].inFd == inFd > 0 && s'.g == s.g
    requires f.Sent? && f.outConnId == s.w.ext[x].outConnId
    requires s'.w.ext == s.w.ext[x := s.w.ext[x].(authKey := authKey)]
    ensures forall inGen :: ForClient(s, s', inFd, inGen, true, f)
  {
    assert IssuedTo(s.g.issued, s.w.ext[x]);
    NowAlone(s, x);
  }

  lemma ForNoClient(s: State, s': State, inFd: int, aliveOut: bool)
    requires NoneOf(s', inFd)
    ensures forall inGen :: ForClient(s, s', inFd, inGen, aliveOut, Lost)
  {
  }

  lemma ForNewClient(s: State, s1: State, s': State, x: int, c: Client, authKey: int, aliveOut: bool, f: Forward)
    requires NoneOf(s1, c.inFd) && (NoneOf(s, c.inFd) || !aliveOut)
    requires Created(s1, s', x, c, authKey) && f.Sent? && f.outConnId == s'.w.ext[x].outConnId
    ensures ForClient(s, s', c.inFd, c.inGen, aliveOut, f)
  {
  }

  /** The client descriptor has lost its connection, the others have kept theirs, and no slot was taken. */
  ghost predicate Unbound(s: State, s': State, inFd: int) {
    && NoneOf(s', inFd) && OthersKept(s, s', inFd) && s'.w.ext.Keys <= s.w.ext.Keys
    && forall r :: SlotAt(s.w.slots, r).ref == 0 ==> SlotAt(s'.w.slots, r).ref == 0
  }

  lemma UnboundNow(s: State, s1: State, s': State, x: int, inFd: int, authKey: int)
    requires Good(s) && x in s.w.ext && s.w.ext[x].inFd == inFd > 0 && s1.g == s.g
    requires s1.w.ext == s.w.ext[x := s.w.ext[x].(authKey := authKey)] && s'.w.ext == Drop(s1.w.ext, x)
    requires s'.g.im == WithoutMember(s.g.im, inFd, x)
    requires forall r :: SlotAt(s.w.slots, r).ref == 0 ==> SlotAt(s'.w.slots, r).ref == 0
    ensures Unbound(s, s', inFd)
  {
    NowAlone(s, x);
  }

  lemma ForwardedOld(s: State, s': State, x: int, inFd: int, authKey: int)
    requires Good(s) && x in s.w.ext && s.w.ext[x].inFd == inFd && s'.g == s.g
    requires s'.w.ext == s.w.ext[x := s.w.ext[x].(authKey := authKey)]
    ensures var e := s'.w.ext[x];
            Forwarded(s, s', inFd, authKey, Sent(e.outConnId, e.outFd, e.outGen)) && e.outConnId in s.g.issued
  {
    assert IssuedTo(s.g.issued, s.w.ext[x]);
    assert Uses(s'.w.ext[x], inFd, authKey, Sent(s'.w.ext[x].outConnId, s'.w.ext[x].outFd, s'.w.ext[x].outGen));
  }

  lemma ForwardedNew(s: State, s1: State, s': State, x: int, c: Client, authKey: int, f: Forward)
    requires s1.g.issued == s.g.issued && Created(s1, s', x, c, authKey)
    requires OthersKept(s, s1, c.inFd) && f == Sent(s'.w.ext[x].outConnId, c.outFd, c.outGen)
    ensures Forwarded(s, s', c.inFd, authKey, f)
  {
    assert Uses(s'.w.ext[x], c.inFd, authKey, f);
  }

  // ----- the tables in place -----

  class Tables {
    var s: State

    ghost predicate Valid() reads this {
      Good(s)
    }

    constructor ()
      ensures Valid() && s.w.ext == map[] && s.g.issued == map[]
    {
      s := State(World(map[], Hash(map[], map[]), map[], Links(map[], map[]), Links(map[], map[]), Links(map[0 := 0], map[0 := 0])),
                 Lens(map[], map[], map[], map[0 := []], map[]));
      new;
      EmptyOk(s);
    }

    /** The search of get_ext_connection_by_in_conn_id. */
    method Lookup(inFd: int, inConnId: int) returns (prev: int, cur: int, ghost k: nat)
      requires Valid()
      ensures cur != 0 ==> InChain(s, prev, cur, k) && s.w.ext[cur].inFd == inFd && s.w.ext[cur].inConnId == inConnId
      ensures cur == 0 ==> forall x :: x in s.w.ext ==> s.w.ext[x].inFd != inFd || s.w.ext[x].inConnId != inConnId
    {
      var h := HashOf(inFd, inConnId);
      ghost var c := ListAt(s.g.chains, h);
      assert Chain(s.w.table, h, c);
      prev, cur, k := 0, HeadOf(s.w.table, h), 0;
      assert c != [] ==> LinkedAt(s.w.table, c, 0);
      while cur != 0
        invariant 0 <= k <= |c| && prev == (if k == 0 then 0 else c[k - 1]) && cur == (if k < |c| then c[k] else 0)
        invariant k < |c| ==> cur > 0
        invariant forall j :: 0 <= j < k ==> c[j] in s.w.ext && !(s.w.ext[c[j]].inFd == inFd && s.w.ext[c[j]].inConnId == inConnId)
        decreases |c| - k
      {
        assert c[k] in c && HasHash(Hashes(s.w.ext), c[k], h);
        assert LinkedAt(s.w.table, c, k) && (k + 1 < |c| ==> LinkedAt(s.w.table, c, k + 1));
        if s.w.ext[cur].inFd == inFd && s.w.ext[cur].inConnId == inConnId {
          return;
        }
        prev, cur, k := cur, s.w.table.next[cur], k + 1;
      }
      assert k == |c|;
      forall x | x in s.w.ext ensures s.w.ext[x].inFd != inFd || s.w.ext[x].inConnId != inConnId {
        assert x in Hashes(s.w.ext) && InOwnChain(s.g.chains, x, Hashes(s.w.ext)[x]);
      }
    }

    /** get_ext_connection_by_in_fd. */
    method ByInFd(fd: int) returns (x: int)
      requires Valid() && fd > 0
      ensures x != 0 ==> x in s.w.ext && s.w.ext[x].inFd == fd
      ensures x == 0 ==> ListAt(s.g.im, -fd) == [] && forall y :: y in s.w.ext ==> s.w.ext[y].inFd != fd
    {
      InHeadOk(s, fd);
      if -fd !in s.w.i.next {
        NoneThere(s, fd);
        return 0;
      }
      OnlyOne(s, fd);
      x := s.w.i.next[-fd];
      if x == -fd {
        NoneThere(s, fd);
        return 0;
      }
    }

    /** find_ext_connection_by_out_conn_id: 0 unless a live connection has the id. */
    method ByOutId(id: int) returns (x: int)
      requires Valid()
      ensures x != 0 ==> x in s.w.ext && s.w.ext[x].outConnId == id
      ensures x == 0 ==> forall y :: y in s.w.ext ==> s.w.ext[y].outConnId != id
    {
      var slot := SlotAt(s.w.slots, id % TABLE_SIZE);
      assert SlotOk(s.w.ext, s.w.slots, id % TABLE_SIZE);
      PositiveExt(s);
      if slot.ref == 0 || slot.outConnId != id {
        forall y | y in s.w.ext ensures s.w.ext[y].outConnId != id {
          assert Placed(s.w.slots, y, s.w.ext[y].outConnId);
        }
        return 0;
      }
      return slot.ref;
    }

    /** remove_ext_connection. */
    method Remove(x: int)
      requires Valid() && x in s.w.ext
      modifies this
      ensures Valid() && s.w.ext == Drop(old(s.w.ext), x) && s.g.issued == old(s.g.issued)
      ensures s.g.om == WithoutMember(old(s.g.om), old(s.w.ext)[x].outFd, x) && s.g.om.Keys == old(s.g.om.Keys)
      ensures s.g.im == WithoutMember(old(s.g.im), old(s.w.ext)[x].inFd, x)
      ensures forall r :: SlotAt(old(s.w.slots), r).ref == 0 ==> SlotAt(s.w.slots, r).ref == 0
    {
      var e := s.w.ext[x];
      var prev, cur; ghost var k;
      prev, cur, k := Lookup(e.inFd, e.inConnId);
      assert SameKey(s.w.ext[cur], s.w.ext[x]) && cur == x;
      RemoveOk(s, prev, x, k);
      s := State(Removed(s.w, prev, x), RemovedLens(s.w, s.g, x));
    }

    /** The retry loop for a slot: the first proposal, or a random one that is free. */
    method FreeSlot(first: int, retry: int) returns (r: int)
      requires Valid() && SlotAt(s.w.slots, retry % TABLE_SIZE).ref == 0
      ensures 0 <= r < TABLE_SIZE && SlotAt(s.w.slots, r).ref == 0
    {
      r := first % TABLE_SIZE;
      if SlotAt(s.w.slots, r).ref != 0 {
        r := retry % TABLE_SIZE;
      }
    }

    /** create_ext_connection: a connection for a client descriptor that has none; address is what calloc returns,
        random the first proposal for a slot if inConnId is not 0, and retry the random one that the search for a free
        slot ends at. */
    method Create(inFd: int, inGen: int, inConnId: int, outFd: int, outGen: int, authKey: int, address: int, random: int,
                  retry: int)
      returns (x: int)
      requires Valid() && inFd > 0 && outFd > 0 && -outFd in s.g.om && NoneOf(s, inFd)
      requires address > 0 && address !in s.w.ext && SlotAt(s.w.slots, retry % TABLE_SIZE).ref == 0
      modifies this
      ensures x == address && Created(old(s), s, x, Client(inFd, inGen, inConnId, outFd, outGen), authKey)
    {
      InHeadOk(s, inFd);
      if -inFd !in s.w.i.next {
        s := State(s.w.(i := NewHead(s.w.i, -inFd)), s.g.(im := s.g.im[-inFd := []]));
      }
      var r := FreeSlot(if inConnId != 0 then random else inFd, retry);
      x := address;
      var e := Ext(inFd, inGen, inConnId, outFd, outGen, NextId(SlotAt(s.w.slots, r).outConnId, r), authKey);
      CreatedOk(old(s), s, x, e, r);
      s := State(Added(s.w, x, e, r), AddedLens(s.g, x, e));
    }

    /** The first part of forward_tcp_query: the connection of the client is used again, or dropped if its
        middle-end connection is gone. */
    method Reuse(inFd: int, authKey: int, aliveOut: bool) returns (f: Forward)
      requires Valid() && inFd > 0
      modifies this
      ensures Valid() && s.g.issued == old(s.g.issued) && s.g.om.Keys == old(s.g.om.Keys)
      ensures f.Sent? ==> Forwarded(old(s), s, inFd, authKey, f) && f.outConnId in s.g.issued
      ensures f.Lost? ==> Unbound(old(s), s, inFd)
      ensures f.Sent? <==> Usable(old(s), inFd, aliveOut)
      ensures f.Sent? ==> CarriedBy(old(s), inFd, f)
      ensures forall inGen :: ForClient(old(s), s, inFd, inGen, aliveOut, f)
    {
      var x := ByInFd(inFd);
      if x == 0 {
        ForNoClient(s, s, inFd, aliveOut);
        return Lost;
      }
      Reauthorized(s, x, authKey);
      s := State(s.w.(ext := s.w.ext[x := s.w.ext[x].(authKey := authKey)]), s.g);
      if aliveOut {
        ForwardedOld(old(s), s, x, inFd, authKey);
        ForOldClient(old(s), s, x, inFd, authKey, Sent(s.w.ext[x].outConnId, s.w.ext[x].outFd, s.w.ext[x].outGen));
        return Sent(s.w.ext[x].outConnId, s.w.ext[x].outFd, s.w.ext[x].outGen);
      }
      ghost var s1 := s;
      Remove(x);
      UnboundNow(old(s), s1, s, x, inFd, authKey);
      ForNoClient(old(s), s, inFd, aliveOut);
      f := Lost;
    }

    /** The table part of forward_tcp_query for a client.  aliveOut says whether the middle-end connection of an
        existing entry can still be used, choice is the one picked for a new entry (none: 0), dropped whether an
        earlier packet was dropped. */
    method ForwardQuery(inFd: int, inGen: int, authKey: int, aliveOut: bool, choiceFd: int, choiceGen: int, dropped: bool,
                        address: int, retry: int)
      returns (f: Forward)
      requires Valid() && inFd > 0 && (choiceFd != 0 ==> choiceFd > 0 && -choiceFd in s.g.om)
      requires address > 0 && address !in s.w.ext && SlotAt(s.w.slots, retry % TABLE_SIZE).ref == 0
      modifies this
      ensures Valid() && Forwarded(old(s), s, inFd, authKey, f) && s.g.om.Keys == old(s.g.om.Keys)
      ensures f.Sent? && f.outConnId !in old(s.g.issued) ==>
        f.outConnId in s.g.issued && s.g.issued[f.outConnId] == Client(inFd, inGen, 0, choiceFd, choiceGen)
      ensures Routed(old(s), s, inFd, aliveOut, choiceFd, choiceGen, dropped, f)
      ensures ForClient(old(s), s, inFd, inGen, aliveOut, f)
    {
      f := Reuse(inFd, authKey, aliveOut);
      if f.Sent? || choiceFd == 0 || dropped {
        return;
      }
      ghost var s1 := s;
      var x := Create(inFd, inGen, 0, choiceFd, choiceGen, authKey, address, retry, retry);
      f := Sent(s.w.ext[x].outConnId, choiceFd, choiceGen);
      ForwardedNew(old(s), s1, s, x, Client(inFd, inGen, 0, choiceFd, choiceGen), authKey, f);
      ForNewClient(old(s), s1, s, x, Client(inFd, inGen, 0, choiceFd, choiceGen), authKey, aliveOut, f);
    }

    /** RPC_PROXY_ANS and RPC_SIMPLE_ACK from the middle-end connection (fromFd, fromGen): to which client they go.
        alive says which client connections still exist. */
    method Answer(id: int, fromFd: int, fromGen: int, alive: (int, int) -> bool) returns (t: Target)
      requires Valid()
      ensures t.To? ==> id in s.g.issued && s.g.issued[id] == Client(t.fd, t.gen, t.connId, fromFd, fromGen)
      ensures t.To? <==> exists x :: x in s.w.ext && s.w.ext[x].outConnId == id && s.w.ext[x].outFd == fromFd
                           && s.w.ext[x].outGen == fromGen && alive(s.w.ext[x].inFd, s.w.ext[x].inGen)
    {
      var x := ByOutId(id);
      if x != 0 && s.w.ext[x].outFd == fromFd && s.w.ext[x].outGen == fromGen && alive(s.w.ext[x].inFd, s.w.ext[x].inGen) {
        assert IssuedTo(s.g.issued, s.w.ext[x]);
        return To(s.w.ext[x].inFd, s.w.ext[x].inGen, s.w.ext[x].inConnId);
      }
      t := Dropped;
      SameId(s);
    }

    /** RPC_CLOSE_EXT: the connection with the id goes, whichever middle-end connection says so, and nothing else. */
    method CloseExt(id: int)
      requires Valid()
      modifies this
      ensures Valid() && s.g.issued == old(s.g.issued) && s.g.om.Keys == old(s.g.om.Keys)
      ensures forall y :: y in s.w.ext <==> y in old(s.w.ext) && old(s.w.ext)[y].outConnId != id
      ensures forall y :: y in s.w.ext ==> s.w.ext[y] == old(s.w.ext)[y]
    {
      var x := ByOutId(id);
      SameId(s);
      if x != 0 {
        Remove(x);
      }
    }

    /** mtproto_ext_rpc_close and do_close_in_ext_conn: the client side goes. */
    method ClientClosed(fd: int)
      requires Valid() && fd > 0
      modifies this
      ensures Valid() && s.g.issued == old(s.g.issued) && s.g.om.Keys == old(s.g.om.Keys)
      ensures forall y :: y in s.w.ext <==> y in old(s.w.ext) && old(s.w.ext)[y].inFd != fd
      ensures forall y :: y in s.w.ext ==> s.w.ext[y] == old(s.w.ext)[y]
    {
      var x := ByInFd(fd);
      if x != 0 {
        NowAlone(s, x);
        Remove(x);
      }
    }

    /** mtfront_client_ready. */
    method OutReady(fd: int)
      requires Valid() && fd > 0 && -fd !in s.g.om
      modifies this
      ensures Valid() && s.w.ext == old(s.w.ext) && s.g.issued == old(s.g.issued) && s.g.om == old(s.g.om)[-fd := []]
    {
      OutHeadOk(s, fd);
      s := State(s.w.(o := NewHead(s.w.o, -fd)), s.g.(om := s.g.om[-fd := []]));
    }

    /** mtfront_client_close: every connection through the middle-end connection goes. */
    method OutClosed(fd: int)
      requires Valid() && fd > 0 && -fd in s.g.om
      modifies this
      ensures Valid() && s.g.issued == old(s.g.issued) && s.g.om.Keys == old(s.g.om.Keys) - {-fd}
      ensures forall y :: y in s.w.ext <==> y in old(s.w.ext) && old(s.w.ext)[y].outFd != fd
      ensures forall y :: y in s.w.ext ==> s.w.ext[y] == old(s.w.ext)[y]
    {
      FirstOut(s, fd);
      var x := s.w.o.next[-fd];
      while x != -fd
        invariant Valid() && s.g.issued == old(s.g.issued) && s.g.om.Keys == old(s.g.om.Keys)
        invariant FirstIs(s, fd, x)
        invariant forall y :: y in s.w.ext ==> y in old(s.w.ext) && s.w.ext[y] == old(s.w.ext)[y]
        invariant forall y :: y in old(s.w.ext) && old(s.w.ext)[y].outFd != fd ==> y in s.w.ext
        decreases |s.g.om[-fd]|
      {
        SecondOut(s, fd, x);
        var next := s.w.o.next[x];
        Remove(x);
        FirstOut(s, fd);
        x := next;
      }
      NoneOut(s, fd);
      OutHeadGone(s, fd);
      s := State(s.w.(o := DropHead(s.w.o, -fd)), s.g.(om := map h | h in s.g.om && h != -fd :: s.g.om[h]));
    }

    /** lru_insert_conn. */
    method LruInsertConn(fd: int, gen: int)
      requires Valid() && fd > 0
      modifies this
      ensures Valid() && s.w.ext == old(s.w.ext) && s.g.issued == old(s.g.issued) && s.g.om == old(s.g.om)
      ensures forall x :: x in s.w.ext && s.w.ext[x].inFd == fd && s.w.ext[x].inGen == gen ==>
        s.g.lm[0] == Without(old(s.g.lm)[0], x) + [x]
      ensures (forall x :: x in s.w.ext ==> s.w.ext[x].inFd != fd || s.w.ext[x].inGen != gen) ==> s.g.lm == old(s.g.lm)
    {
      var x := ByInFd(fd);
      if x != 0 {
        NowAlone(s, x);
        if s.w.ext[x].inGen == gen {
          LruInsertOk(s, x);
          s := State(s.w.(lru := Insert(DeleteIf(s.w.lru, x), 0, x)), s.g.(lm := map[0 := Without(s.g.lm[0], x) + [x]]));
        }
      }
    }
  }

  // ----- facts the methods use -----

  /** auth_key_id is in no table. */
  lemma Reauthorized(s: State, x: int, authKey: int)
    requires Good(s) && x in s.w.ext
    ensures Good(State(s.w.(ext := s.w.ext[x := s.w.ext[x].(authKey := authKey)]), s.g))
  {
    var ext' := s.w.ext[x := s.w.ext[x].(authKey := authKey)];
    assert Hashes(ext') == Hashes(s.w.ext) && OutFds(ext') == OutFds(s.w.ext) && InFds(ext') == InFds(s.w.ext);
    forall h ensures SlotOk(ext', s.w.slots, h) { assert SlotOk(s.w.ext, s.w.slots, h); }
    forall y | y in ext' ensures Placed(s.w.slots, y, ext'[y].outConnId) && IssuedTo(s.g.issued, ext'[y]) {
      assert Placed(s.w.slots, y, s.w.ext[y].outConnId) && IssuedTo(s.g.issued, s.w.ext[y]);
    }
  }

  /** A client descriptor has one connection. */
  lemma NowAlone(s: State, x: int)
    requires Good(s) && x in s.w.ext && s.w.ext[x].inFd > 0
    ensures forall y :: y in s.w.ext && s.w.ext[y].inFd == s.w.ext[x].inFd ==> y == x
    ensures ListAt(WithoutMember(s.g.im, s.w.ext[x].inFd, x), -s.w.ext[x].inFd) == []
  {
    var fd := s.w.ext[x].inFd;
    assert x in InFds(s.w.ext) && Listed(s.g.im, x, fd);
    OnlyOne(s, fd);
    assert s.g.im[-fd] == [x];
    forall y | y in s.w.ext && s.w.ext[y].inFd == fd ensures y == x {
      assert y in InFds(s.w.ext) && Listed(s.g.im, y, fd);
    }
    assert [x][1..] == [];
  }

  /** An id belongs to one live connection. */
  lemma SameId(s: State)
    requires Good(s)
    ensures forall x, y :: x in s.w.ext && y in s.w.ext && s.w.ext[x].outConnId == s.w.ext[y].outConnId ==> x == y
  {
    forall x, y | x in s.w.ext && y in s.w.ext && s.w.ext[x].outConnId == s.w.ext[y].outConnId ensures x == y {
      assert Placed(s.w.slots, x, s.w.ext[x].outConnId) && Placed(s.w.slots, y, s.w.ext[y].outConnId);
    }
  }

  ghost predicate FirstIs(s: State, fd: int, x: int) {
    -fd in s.g.om && x == if s.g.om[-fd] == [] then -fd else s.g.om[-fd][0]
  }

  lemma FirstOut(s: State, fd: int)
    requires Good(s) && fd > 0 && -fd in s.g.om
    ensures -fd in s.w.o.next && FirstIs(s, fd, s.w.o.next[-fd])
  {
    assert Linked(s.w.o, [-fd] + s.g.om[-fd], 0);
  }

  /** The first connection of a list, its successor, and the list without it. */
  lemma SecondOut(s: State, fd: int, x: int)
    requires Good(s) && fd > 0 && FirstIs(s, fd, x) && x != -fd
    ensures x in s.w.ext && s.w.ext[x].outFd == fd && x in s.w.o.next
    ensures var m := WithoutMember(s.g.om, fd, x);
            && m[-fd] == s.g.om[-fd][1..]
            && s.w.o.next[x] == if m[-fd] == [] then -fd else m[-fd][0]
  {
    var c := [-fd] + s.g.om[-fd];
    assert Linked(s.w.o, c, 1) && c[1] == x;
    assert x in s.g.om[-fd] && Belongs(OutFds(s.w.ext), -fd, x);
  }

  lemma NoneOut(s: State, fd: int)
    requires Good(s) && fd > 0 && FirstIs(s, fd, -fd)
    ensures s.g.om[-fd] == [] && forall y :: y in s.w.ext ==> s.w.ext[y].outFd != fd
  {
    assert Nodes(s.g.om[-fd]);
    assert s.g.om[-fd] == [];
    forall y | y in s.w.ext ensures s.w.ext[y].outFd != fd {
      assert y in OutFds(s.w.ext) && Listed(s.g.om, y, OutFds(s.w.ext)[y]);
    }
  }
}
