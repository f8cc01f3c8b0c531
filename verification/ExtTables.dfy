/** The tables of external connections in mtproto/mtproto-proxy.c as values: hash chains by client descriptor and
    connection id, the table of outbound ids, the circular lists of each descriptor, and the LRU list. */
module ExtTables {
  import opened CircularLists

  const TABLE_SIZE := 0x40_0000        // EXT_CONN_TABLE_SIZE

  /** struct ext_connection without its links. */
  datatype Ext = Ext(inFd: int, inGen: int, inConnId: int, outFd: int, outGen: int, outConnId: int, authKey: int)

  /** struct ext_connection_ref. */
  datatype Slot = Slot(ref: int, outConnId: int)

  /** For whom an outbound id was issued. */
  datatype Client = Client(inFd: int, inGen: int, inConnId: int, outFd: int, outGen: int)

  /** ext_conn_hash. */
  function HashOf(inFd: int, inConnId: int): int {
    (inFd * 11400714819323198485 + inConnId * 13043817825332782213) % 0x1_0000_0000_0000_0000 / 0x1000_0000_0000
  }

  function HashFor(e: Ext): int {
    HashOf(e.inFd, e.inConnId)
  }

  function ClientOf(e: Ext): Client {
    Client(e.inFd, e.inGen, e.inConnId, e.outFd, e.outGen)
  }

  predicate SameKey(d: Ext, e: Ext) {
    d.inFd == e.inFd && d.inConnId == e.inConnId
  }

  function Drop<T>(m: map<int, T>, x: int): map<int, T> {
    map y | y in m && y != x :: m[y]
  }

  // ----- the hash chains: InExtConnectionHash and the h_next links -----

  datatype Hash = Hash(head: map<int, int>, next: map<int, int>)

  function HeadOf(t: Hash, h: int): int {
    if h in t.head then t.head[h] else 0
  }

  function ListAt(m: map<int, seq<int>>, h: int): seq<int> {
    if h in m then m[h] else []
  }

  predicate LinkedAt(t: Hash, s: seq<int>, i: nat)
    requires i < |s|
  {
    s[i] > 0 && s[i] in t.next && t.next[s[i]] == if i + 1 < |s| then s[i + 1] else 0
  }

  predicate Chain(t: Hash, h: int, s: seq<int>) {
    && NoDup(s) && HeadOf(t, h) == (if s == [] then 0 else s[0])
    && forall i: nat :: i < |s| ==> LinkedAt(t, s, i)
  }

  /** The hash of every live connection. */
  function Hashes(ext: map<int, Ext>): map<int, int> {
    map x | x in ext :: HashFor(ext[x])
  }

  predicate HasHash(hashes: map<int, int>, x: int, h: int) {
    x in hashes && hashes[x] == h
  }

  predicate InOwnChain(chains: map<int, seq<int>>, x: int, h: int) {
    x > 0 && x in ListAt(chains, h)
  }

  /** Every live connection is in exactly one chain, that of its hash. */
  ghost predicate HashOk(hashes: map<int, int>, t: Hash, chains: map<int, seq<int>>) {
    && (forall h {:trigger ListAt(chains, h)} :: Chain(t, h, ListAt(chains, h)))
    && (forall h, x :: x in ListAt(chains, h) ==> HasHash(hashes, x, h))
    && (forall x :: x in hashes ==> InOwnChain(chains, x, hashes[x]))
  }

  /** No two live connections have the same key. */
  ghost predicate KeysOk(ext: map<int, Ext>) {
    forall x, y :: x in ext && y in ext && SameKey(ext[x], ext[y]) ==> x == y
  }

  function ChainAdd(t: Hash, h: int, x: int): Hash {
    Hash(t.head[h := x], t.next[x := HeadOf(t, h)])
  }

  lemma ChainAddOk(t: Hash, h: int, s: seq<int>, x: int)
    requires Chain(t, h, s) && x > 0 && x !in s
    ensures Chain(ChainAdd(t, h, x), h, [x] + s)
  {
    var t', r := ChainAdd(t, h, x), [x] + s;
    forall i: nat | i < |r| ensures LinkedAt(t', r, i) {
      if i > 0 {
        assert LinkedAt(t, s, i - 1);
        assert s[i - 1] in s;
      }
    }
    forall i, j | 0 <= i < j < |r| ensures r[i] != r[j] {
      if i == 0 { assert r[j] == s[j - 1] && s[j - 1] in s; }
    }
  }

  lemma ChainKept(t: Hash, t': Hash, h: int, s: seq<int>)
    requires Chain(t, h, s) && HeadOf(t', h) == HeadOf(t, h)
    requires forall x :: x in s && x in t.next ==> x in t'.next && t'.next[x] == t.next[x]
    ensures Chain(t', h, s)
  {
    forall i: nat | i < |s| ensures LinkedAt(t', s, i) {
      assert LinkedAt(t, s, i) && s[i] in s;
    }
  }

  /** Unlinking x, whose predecessor is `prev` (0 stands for the head of the chain). */
  function ChainDrop(t: Hash, h: int, prev: int, x: int): Hash
    requires x in t.next
  {
    if prev == 0 then Hash(t.head[h := t.next[x]], Drop(t.next, x)) else Hash(t.head, Drop(t.next[prev := t.next[x]], x))
  }

  lemma ChainDropOk(t: Hash, h: int, s: seq<int>, k: nat)
    requires Chain(t, h, s) && k < |s|
    ensures s[k] in t.next
    ensures Chain(ChainDrop(t, h, if k == 0 then 0 else s[k - 1], s[k]), h, s[..k] + s[k + 1..])
  {
    assert LinkedAt(t, s, k);
    var prev := if k == 0 then 0 else s[k - 1];
    var t', r := ChainDrop(t, h, prev, s[k]), s[..k] + s[k + 1..];
    if k > 0 { assert LinkedAt(t, s, k - 1); }
    forall i: nat | i < |r| ensures LinkedAt(t', r, i) {
      var j: nat := if i < k then i else i + 1;
      assert LinkedAt(t, s, j) && r[i] == s[j] && s[j] != s[k];
      if k > 0 && j != k - 1 { assert s[j] != s[k - 1]; }
    }
    forall i, j | 0 <= i < j < |r| ensures r[i] != r[j] {
      var i', j' := if i < k then i else i + 1, if j < k then j else j + 1;
      assert s[i'] != s[j'];
    }
  }

  lemma AddHash(hashes: map<int, int>, t: Hash, chains: map<int, seq<int>>, x: int, h: int)
    requires HashOk(hashes, t, chains) && x > 0 && x !in hashes
    ensures HashOk(hashes[x := h], ChainAdd(t, h, x), chains[h := [x] + ListAt(chains, h)])
  {
    var hashes', t', chains' := hashes[x := h], ChainAdd(t, h, x), chains[h := [x] + ListAt(chains, h)];
    forall f ensures x !in ListAt(chains, f) {
      assert x in ListAt(chains, f) ==> HasHash(hashes, x, f);
    }
    ChainAddOk(t, h, ListAt(chains, h), x);
    forall f ensures Chain(t', f, ListAt(chains', f)) {
      if f != h { ChainKept(t, t', f, ListAt(chains, f)); }
    }
    forall f, y | y in ListAt(chains', f) ensures HasHash(hashes', y, f) {
      assert y in ListAt(chains, f) ==> HasHash(hashes, y, f);
    }
    forall y | y in hashes' ensures InOwnChain(chains', y, hashes'[y]) {
      assert y in hashes ==> InOwnChain(chains, y, hashes[y]);
    }
  }

  lemma RemoveHash(hashes: map<int, int>, t: Hash, chains: map<int, seq<int>>, prev: int, x: int, k: nat)
    requires HashOk(hashes, t, chains) && x in hashes
    requires var s := ListAt(chains, hashes[x]); k < |s| && s[k] == x && prev == if k == 0 then 0 else s[k - 1]
    ensures x in t.next
    ensures var h := hashes[x];
            HashOk(Drop(hashes, x), ChainDrop(t, h, prev, x), chains[h := Without(ListAt(chains, h), x)])
  {
    var h := hashes[x];
    var s := ListAt(chains, h);
    ChainDropOk(t, h, s, k);
    WithoutIs(s, x, k);
    WithoutHas(s, x);
    var t', chains' := ChainDrop(t, h, prev, x), chains[h := Without(s, x)];
    forall f ensures Chain(t', f, ListAt(chains', f)) {
      if f != h {
        Predecessor(hashes, t, chains, prev, x, k);
        OtherChain(hashes, t, chains, prev, x, h, f, k);
      } else {
        assert ListAt(chains', f) == s[..k] + s[k + 1..];
      }
    }
    RemoveFromChain(hashes, t, chains, x, Without(s, x));
  }

  lemma Predecessor(hashes: map<int, int>, t: Hash, chains: map<int, seq<int>>, prev: int, x: int, k: nat)
    requires HashOk(hashes, t, chains) && x in hashes
    requires var s := ListAt(chains, hashes[x]); k < |s| && s[k] == x && prev == if k == 0 then 0 else s[k - 1]
    ensures HasHash(hashes, x, hashes[x]) && if k == 0 then prev == 0 else HasHash(hashes, prev, hashes[x]) && prev > 0
  {
    var s := ListAt(chains, hashes[x]);
    if k > 0 { assert LinkedAt(t, s, k - 1) && prev in s && HasHash(hashes, prev, hashes[x]); }
  }

  lemma RemoveFromChain(hashes: map<int, int>, t: Hash, chains: map<int, seq<int>>, x: int, s: seq<int>)
    requires HashOk(hashes, t, chains) && x in hashes
    requires forall y :: y in s <==> y in ListAt(chains, hashes[x]) && y != x
    ensures var hashes', chains' := Drop(hashes, x), chains[hashes[x] := s];
            && (forall f, y :: y in ListAt(chains', f) ==> HasHash(hashes', y, f))
            && (forall y :: y in hashes' ==> InOwnChain(chains', y, hashes'[y]))
  {
    var hashes', chains' := Drop(hashes, x), chains[hashes[x] := s];
    forall f, y | y in ListAt(chains', f) ensures HasHash(hashes', y, f) {
      assert y in ListAt(chains, f) && HasHash(hashes, y, f);
    }
    forall y | y in hashes' ensures InOwnChain(chains', y, hashes'[y]) {
      assert InOwnChain(chains, y, hashes[y]);
    }
  }

  lemma OtherChain(hashes: map<int, int>, t: Hash, chains: map<int, seq<int>>, prev: int, x: int, h: int, f: int, k: nat)
    requires HashOk(hashes, t, chains) && HasHash(hashes, x, h) && f != h && x in t.next
    requires if k == 0 then prev == 0 else HasHash(hashes, prev, h) && prev > 0
    ensures Chain(ChainDrop(t, h, prev, x), f, ListAt(chains, f))
  {
    forall y | y in ListAt(chains, f) ensures y != x && y != prev {
      assert HasHash(hashes, y, f);
      assert k == 0 ==> InOwnChain(chains, y, hashes[y]);
    }
    ChainKept(t, ChainDrop(t, h, prev, x), f, ListAt(chains, f));
  }

  // ----- the ids: OutExtConnections -----

  function SlotAt(slots: map<int, Slot>, h: int): Slot {
    if h in slots then slots[h] else Slot(0, 0)
  }

  predicate Placed(slots: map<int, Slot>, x: int, id: int) {
    id > 0 && SlotAt(slots, id % TABLE_SIZE) == Slot(x, id)
  }

  predicate SlotOk(ext: map<int, Ext>, slots: map<int, Slot>, h: int) {
    var s := SlotAt(slots, h);
    s.outConnId >= 0 && (s.ref != 0 ==> s.ref in ext && ext[s.ref].outConnId == s.outConnId && s.outConnId % TABLE_SIZE == h)
  }

  /** Every live connection is in the slot of its id, and a slot refers to no other. */
  ghost predicate SlotsOk(ext: map<int, Ext>, slots: map<int, Slot>) {
    && (forall h {:trigger SlotAt(slots, h)} :: SlotOk(ext, slots, h))
    && (forall x :: x in ext ==> Placed(slots, x, ext[x].outConnId))
  }

  predicate IssuedTo(issued: map<int, Client>, e: Ext) {
    e.outConnId in issued && issued[e.outConnId] == ClientOf(e)
  }

  /** Ids belong to the client they were issued for, and a slot never goes back behind one. */
  ghost predicate IssuedOk(ext: map<int, Ext>, slots: map<int, Slot>, issued: map<int, Client>) {
    && (forall x :: x in ext ==> IssuedTo(issued, ext[x]))
    && (forall id :: id in issued ==> 0 < id <= SlotAt(slots, id % TABLE_SIZE).outConnId)
  }

  /** The id that follows `last` in slot r: (last | (TABLE_SIZE - 1)) + 1 + r. */
  function NextId(last: int, r: int): int {
    (last / TABLE_SIZE + 1) * TABLE_SIZE + r
  }

  lemma NextIdIs(last: int, r: int)
    requires 0 <= r < TABLE_SIZE && last >= 0
    ensures NextId(last, r) > last && NextId(last, r) > 0 && NextId(last, r) % TABLE_SIZE == r
  {
    var q := last / TABLE_SIZE;
    assert last == q * TABLE_SIZE + last % TABLE_SIZE;
  }

  lemma AddSlots(ext: map<int, Ext>, slots: map<int, Slot>, issued: map<int, Client>, x: int, e: Ext, r: int)
    requires SlotsOk(ext, slots) && IssuedOk(ext, slots, issued) && x != 0 && x !in ext && 0 !in ext && 0 <= r < TABLE_SIZE
    requires SlotAt(slots, r).ref == 0 && e.outConnId == NextId(SlotAt(slots, r).outConnId, r)
    ensures SlotsOk(ext[x := e], slots[r := Slot(x, e.outConnId)]) && e.outConnId !in issued
    ensures IssuedOk(ext[x := e], slots[r := Slot(x, e.outConnId)], issued[e.outConnId := ClientOf(e)])
  {
    var ext', slots', issued' := ext[x := e], slots[r := Slot(x, e.outConnId)], issued[e.outConnId := ClientOf(e)];
    assert SlotOk(ext, slots, r);
    NextIdIs(SlotAt(slots, r).outConnId, r);
    forall h ensures SlotOk(ext', slots', h) { assert SlotOk(ext, slots, h); }
    forall y | y in ext' ensures Placed(slots', y, ext'[y].outConnId) && IssuedTo(issued', ext'[y]) {
      if y != x {
        assert Placed(slots, y, ext[y].outConnId) && IssuedTo(issued, ext[y]);
      }
    }
  }

  lemma RemoveSlots(ext: map<int, Ext>, slots: map<int, Slot>, issued: map<int, Client>, x: int)
    requires SlotsOk(ext, slots) && IssuedOk(ext, slots, issued) && x in ext
    ensures var id := ext[x].outConnId;
            var slots' := slots[id % TABLE_SIZE := Slot(0, id)];
            SlotsOk(Drop(ext, x), slots') && IssuedOk(Drop(ext, x), slots', issued)
  {
    var id := ext[x].outConnId;
    var ext', slots' := Drop(ext, x), slots[id % TABLE_SIZE := Slot(0, id)];
    assert Placed(slots, x, id);
    forall h ensures SlotOk(ext', slots', h) { assert SlotOk(ext, slots, h); }
    forall y | y in ext' ensures Placed(slots', y, ext'[y].outConnId) && IssuedTo(issued, ext'[y]) {
      assert Placed(slots, y, ext[y].outConnId) && IssuedTo(issued, ext[y]);
    }
  }

  // ----- the lists of a descriptor -----

  function OutFds(ext: map<int, Ext>): map<int, int> {
    map x | x in ext :: ext[x].outFd
  }

  function InFds(ext: map<int, Ext>): map<int, int> {
    map x | x in ext :: ext[x].inFd
  }

  predicate Listed(m: map<int, seq<int>>, x: int, fd: int) {
    fd == 0 || (fd > 0 && -fd in m && x in m[-fd])
  }

  predicate Belongs(fds: map<int, int>, h: int, x: int) {
    x in fds && h == -fds[x] && h < 0
  }

  /** The list of descriptor fd, whose head is -fd, holds exactly the live connections that use it. */
  ghost predicate MembersOk(l: Links, m: map<int, seq<int>>, fds: map<int, int>) {
    && Lists(l, m)
    && (forall h, x :: h in m && x in m[h] ==> Belongs(fds, h, x))
    && (forall x :: x in fds ==> x > 0 && Listed(m, x, fds[x]))
  }

  lemma AddMember(l: Links, m: map<int, seq<int>>, fds: map<int, int>, x: int, fd: int)
    requires MembersOk(l, m, fds) && x > 0 && x !in fds && fd > 0 && -fd in m
    ensures x !in l.next && -fd in l.prev && MembersOk(Insert(l, -fd, x), m[-fd := m[-fd] + [x]], fds[x := fd])
  {
    var m' := m[-fd := m[-fd] + [x]];
    NotListed(l, m, fds, x);
    CircleIn(l, m, -fd, -fd);
    InsertOk(l, m, -fd, x);
    var fds' := fds[x := fd];
    forall y | y in fds' ensures y > 0 && Listed(m', y, fds'[y]) {
      assert y in fds ==> Listed(m, y, fds[y]);
    }
    forall h, y | h in m' && y in m'[h] ensures Belongs(fds[x := fd], h, y) {
      assert y != x || h != -fd ==> h in m && y in m[h] && Belongs(fds, h, y);
    }
  }

  lemma NotListed(l: Links, m: map<int, seq<int>>, fds: map<int, int>, x: int)
    requires MembersOk(l, m, fds) && x > 0 && (x !in fds || fds[x] == 0)
    ensures x !in l.next && !InSome(m, x)
  {
    InLinks(l, m, x);
    forall h | h in m ensures x !in m[h] {
      assert x in m[h] ==> Belongs(fds, h, x);
    }
  }

  /** A connection without a list. */
  lemma AddNone(l: Links, m: map<int, seq<int>>, fds: map<int, int>, x: int)
    requires MembersOk(l, m, fds) && x > 0 && x !in fds
    ensures MembersOk(l, m, fds[x := 0])
  {
    forall h, y | h in m && y in m[h] ensures Belongs(fds[x := 0], h, y) {
      assert Belongs(fds, h, y);
    }
    var fds' := fds[x := 0];
    forall y | y in fds' ensures y > 0 && Listed(m, y, fds'[y]) {
      assert y in fds ==> Listed(m, y, fds[y]);
    }
  }

  /** mtfront_client_ready, or the first use of a client descriptor. */
  lemma AddHead(l: Links, m: map<int, seq<int>>, fds: map<int, int>, fd: int)
    requires MembersOk(l, m, fds) && fd > 0 && -fd !in m
    ensures -fd !in l.next && MembersOk(NewHead(l, -fd), m[-fd := []], fds)
  {
    var m' := m[-fd := []];
    NewHeadOk(l, m, -fd);
    forall x | x in fds ensures x > 0 && Listed(m', x, fds[x]) {
      assert Listed(m, x, fds[x]);
    }
    forall h, x | h in m' && x in m'[h] ensures Belongs(fds, h, x) {
      assert h in m && x in m[h] && Belongs(fds, h, x);
    }
  }

  lemma RemoveHead(l: Links, m: map<int, seq<int>>, fds: map<int, int>, fd: int)
    requires MembersOk(l, m, fds) && fd > 0 && -fd in m && m[-fd] == []
    ensures MembersOk(DropHead(l, -fd), map h | h in m && h != -fd :: m[h], fds)
  {
    var m' := map h | h in m && h != -fd :: m[h];
    DropHeadOk(l, m, -fd);
    forall x | x in fds ensures x > 0 && Listed(m', x, fds[x]) {
      assert Listed(m, x, fds[x]);
    }
    forall h, x | h in m' && x in m'[h] ensures Belongs(fds, h, x) {
      assert h in m && x in m[h] && Belongs(fds, h, x);
    }
  }

  function DeleteIf(l: Links, x: int): Links {
    if x in l.next && x in l.prev then Delete(l, x) else l
  }

  function WithoutIf(m: map<int, seq<int>>, h: int, x: int): map<int, seq<int>> {
    if h in m then m[h := Without(m[h], x)] else m
  }

  lemma {:induction false} WithoutShorter(s: seq<int>, x: int)
    ensures |Without(s, x)| <= |s|
  {
    if s != [] { WithoutShorter(s[1..], x); }
  }

  lemma NoDupTail(h: int, s: seq<int>)
    requires NoDup([h] + s)
    ensures NoDup(s)
  {
    assert forall i :: 0 <= i < |s| ==> s[i] == ([h] + s)[i + 1];
  }

  lemma RemoveMember(l: Links, m: map<int, seq<int>>, fds: map<int, int>, x: int)
    requires MembersOk(l, m, fds) && x in fds
    ensures var m' := if fds[x] == 0 then m else WithoutIf(m, -fds[x], x);
            && MembersOk(DeleteIf(l, x), m', Drop(fds, x))
            && (forall h :: h in m' <==> h in m) && (forall h :: h in m ==> |m'[h]| <= |m[h]|)
  {
    assert Listed(m, x, fds[x]);
    if fds[x] == 0 {
      NotListed(l, m, fds, x);
      RemoveNone(l, m, fds, x);
    } else {
      RemoveListed(l, m, fds, x);
    }
  }

  lemma RemoveNone(l: Links, m: map<int, seq<int>>, fds: map<int, int>, x: int)
    requires MembersOk(l, m, fds) && !InSome(m, x)
    ensures MembersOk(l, m, Drop(fds, x))
  {
    forall h, y | h in m && y in m[h] ensures Belongs(Drop(fds, x), h, y) {
      assert Belongs(fds, h, y);
    }
    forall y | y in Drop(fds, x) ensures y > 0 && Listed(m, y, Drop(fds, x)[y]) {
      assert Listed(m, y, fds[y]);
    }
  }

  lemma RemoveListed(l: Links, m: map<int, seq<int>>, fds: map<int, int>, x: int)
    requires MembersOk(l, m, fds) && x in fds && fds[x] != 0 && -fds[x] in m && x in m[-fds[x]]
    ensures var m' := WithoutIf(m, -fds[x], x);
            && MembersOk(DeleteIf(l, x), m', Drop(fds, x))
            && (forall h :: h in m' <==> h in m) && (forall h :: h in m ==> |m'[h]| <= |m[h]|)
  {
    var h0 := -fds[x];
    var m' := WithoutIf(m, h0, x);
    NoDupTail(h0, m[h0]);
    WithoutHas(m[h0], x);
    WithoutShorter(m[h0], x);
    DeleteOk(l, m, h0, x);
    forall h, y | h in m' && y in m'[h] ensures Belongs(Drop(fds, x), h, y) {
      assert y in m[h] && Belongs(fds, h, y);
    }
    forall y | y in Drop(fds, x) ensures y > 0 && Listed(m', y, Drop(fds, x)[y]) {
      assert Listed(m, y, fds[y]);
    }
  }

  // ----- the LRU list -----

  /** It holds live connections only; its head is 0. */
  ghost predicate LruOk(ext: map<int, Ext>, l: Links, m: map<int, seq<int>>) {
    Lists(l, m) && m.Keys == {0} && forall x :: x in m[0] ==> x in ext
  }

  /** lru_delete_ext_conn. */
  lemma LruDelete(ext: map<int, Ext>, l: Links, m: map<int, seq<int>>, x: int)
    requires LruOk(ext, l, m) && x > 0
    ensures LruOk(Drop(ext, x), DeleteIf(l, x), WithoutIf(m, 0, x)) && x !in DeleteIf(l, x).next
    ensures x !in WithoutIf(m, 0, x)[0] && forall y :: y in WithoutIf(m, 0, x)[0] <==> y in m[0] && y != x
  {
    assert 0 in m;
    NoDupTail(0, m[0]);
    WithoutHas(m[0], x);
    InLinks(l, m, x);
    if x in m[0] {
      DeleteOk(l, m, 0, x);
    } else {
      WithoutSame(m[0], x);
      assert m[0 := m[0]] == m;
      assert !InSome(m, x);
    }
  }

  /** lru_insert_ext_conn: x becomes the last. */
  lemma LruInsert(ext: map<int, Ext>, l: Links, m: map<int, seq<int>>, x: int)
    requires LruOk(ext, l, m) && x > 0 && x in ext
    ensures var l1, s := DeleteIf(l, x), Without(m[0], x);
            0 in l1.prev && LruOk(ext, Insert(l1, 0, x), map[0 := s + [x]])
  {
    var l1, m1 := DeleteIf(l, x), WithoutIf(m, 0, x);
    LruDelete(ext, l, m, x);
    CircleIn(l1, m1, 0, 0);
    InsertOk(l1, m1, 0, x);
    assert m1[0 := m1[0] + [x]] == map[0 := Without(m[0], x) + [x]];
  }
}
