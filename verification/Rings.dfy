/** The consistent-hash ring (`HashRing`): a sorted map from 64-bit positions to
    silo addresses, with `virtualNodes` positions per silo.  The hash is any
    function from strings to positions. */
module Rings {
  import opened Text

  const RING_SIZE: nat := 0x1_0000_0000_0000_0000

  type Position = p: nat | p < RING_SIZE
  type Hash = string -> Position

  datatype SiloAddress = SiloAddress(host: string, port: nat, siloId: string)

  type Ring = map<Position, SiloAddress>

  /** How vnodes are laid out: the hash and the number of vnodes per silo. */
  datatype Layout = Layout(hash: Hash, virtualNodes: nat) {

    function VnodeKey(id: string, i: nat): Position {
      hash(Labelled(id, i))
    }

    function Vnodes(id: string): set<Position> {
      set i: nat | i < virtualNodes :: VnodeKey(id, i)
    }

    /** No vnode of `a` shares a position with a vnode of `b`. */
    ghost predicate Apart(a: string, b: string) {
      Vnodes(a) !! Vnodes(b)
    }

    /** Vnodes of distinct silos among `ids` never share a position. */
    ghost predicate CollisionFree(ids: set<string>) {
      forall a, b :: a in ids && b in ids && a != b ==> Apart(a, b)
    }

    /** The ring after `HashRing::add`. */
    function Add(r: Ring, silo: SiloAddress): Ring {
      r + map p | p in Vnodes(silo.siloId) :: silo
    }

    /** The ring after `HashRing::remove`. */
    function Remove(r: Ring, id: string): Ring {
      r - Vnodes(id)
    }

    function AddAll(r: Ring, silos: seq<SiloAddress>): Ring {
      if silos == [] then r
      else Add(AddAll(r, silos[..|silos| - 1]), silos[|silos| - 1])
    }

    function RemoveAll(r: Ring, silos: seq<SiloAddress>): Ring {
      if silos == [] then r
      else Remove(RemoveAll(r, silos[..|silos| - 1]), silos[|silos| - 1].siloId)
    }
  }

  function SiloIds(r: Ring): set<string> {
    set p | p in r :: r[p].siloId
  }

  // --- Lookup ---

  ghost predicate IsLowest(s: set<Position>, k: Position) {
    k in s && forall x :: x in s ==> k <= x
  }

  lemma {:induction false} LowestExists(s: set<Position>)
    requires s != {}
    ensures exists k :: IsLowest(s, k)
    decreases s
  {
    var y :| y in s;
    var rest := s - {y};
    assert s == rest + {y};
    if rest == {} {
      assert IsLowest(s, y);
    } else {
      LowestExists(rest);
      var k :| IsLowest(rest, k);
      assert IsLowest(s, if k <= y then k else y);
    }
  }

  /** First key of a non-empty ordered map. */
  function Lowest(s: set<Position>): (k: Position)
    requires s != {}
    ensures k in s
    ensures forall x :: x in s ==> k <= x
  {
    LowestExists(s);
    assert exists k :: k in s && forall x :: x in s ==> k <= x by {
      var k :| IsLowest(s, k);
    }
    var k :| k in s && forall x :: x in s ==> k <= x;
    k
  }

  /** `range(p..).next()`, or the first key when the range is empty. */
  function Successor(keys: set<Position>, p: Position): Position
    requires keys != {}
  {
    var after := set k | k in keys && k >= p;
    if after != {} then Lowest(after) else Lowest(keys)
  }

  /** `HashRing::get`, on an already hashed grain key. */
  function Get(r: Ring, p: Position): Option<SiloAddress> {
    if r == map[] then None else Some(r[Successor(r.Keys, p)])
  }

  /** Clockwise distance from `p` to `k`, around the end of the ring. */
  function Distance(p: Position, k: Position): nat {
    (k - p) % RING_SIZE
  }

  lemma DistanceCases(p: Position, k: Position)
    ensures Distance(p, k) == if k >= p then k - p else k - p + RING_SIZE
  {
  }

  /** `k` is the first of `keys` met when walking clockwise from `p`. */
  ghost predicate Nearest(keys: set<Position>, p: Position, k: Position) {
    k in keys && forall x :: x in keys && x != k ==> Distance(p, k) < Distance(p, x)
  }

  /** `get` finds the clockwise successor, wrap-around included. */
  lemma SuccessorIsNearest(keys: set<Position>, p: Position)
    requires keys != {}
    ensures Nearest(keys, p, Successor(keys, p))
  {
    var s := Successor(keys, p);
    var after := set k | k in keys && k >= p;
    forall x | x in keys && x != s
      ensures Distance(p, s) < Distance(p, x)
    {
      DistanceCases(p, s);
      DistanceCases(p, x);
      assert x >= p ==> x in after;
    }
  }

  /** The clockwise-successor specification determines the answer of `get`. */
  lemma GetIsClockwiseSuccessor(r: Ring, p: Position, k: Position)
    ensures Get(r, p) == None <==> r == map[]
    ensures Nearest(r.Keys, p, k) ==> Get(r, p) == Some(r[k])
  {
    if r != map[] {
      SuccessorIsNearest(r.Keys, p);
      assert Nearest(r.Keys, p, k) ==> k == Successor(r.Keys, p);
    }
  }

  // --- Minimal movement ---

  /** Adding a silo moves keys only to that silo, whatever collides. */
  lemma AddMovesKeysOnlyToNewSilo(l: Layout, r: Ring, silo: SiloAddress, p: Position)
    ensures Get(l.Add(r, silo), p) in {Get(r, p), Some(silo)}
  {
    var r' := l.Add(r, silo);
    if r' != map[] {
      var k := Successor(r'.Keys, p);
      SuccessorIsNearest(r'.Keys, p);
      if k !in l.Vnodes(silo.siloId) {
        assert Nearest(r.Keys, p, k);
        GetIsClockwiseSuccessor(r, p, k);
      }
    } else {
      assert r == r';
    }
  }

  /** Every vnode position of `id` that the ring holds belongs to `id` itself. */
  ghost predicate OwnsItsVnodes(l: Layout, r: Ring, id: string) {
    forall p :: p in l.Vnodes(id) && p in r ==> r[p].siloId == id
  }

  /** Removing a silo that owns its vnodes moves only keys that it served. */
  lemma RemoveMovesOnlyOwnKeys(l: Layout, r: Ring, id: string, p: Position)
    requires OwnsItsVnodes(l, r, id)
    ensures Get(r, p).Some? && Get(r, p).value.siloId != id ==> Get(l.Remove(r, id), p) == Get(r, p)
  {
    if r != map[] {
      var k := Successor(r.Keys, p);
      SuccessorIsNearest(r.Keys, p);
      if r[k].siloId != id {
        var r' := l.Remove(r, id);
        assert k in r';
        assert Nearest(r'.Keys, p, k);
        GetIsClockwiseSuccessor(r', p, k);
      }
    }
  }

  /** Add-then-remove restores the ring exactly when no vnode position was taken. */
  lemma AddThenRemoveRestores(l: Layout, r: Ring, silo: SiloAddress)
    ensures l.Remove(l.Add(r, silo), silo.siloId) == r <==> r.Keys !! l.Vnodes(silo.siloId)
  {
    var r' := l.Remove(l.Add(r, silo), silo.siloId);
    assert r'.Keys == r.Keys - l.Vnodes(silo.siloId);
    if r.Keys !! l.Vnodes(silo.siloId) {
      assert r' == r;
    }
  }

  /** Two different silos can be added in either order exactly when their vnodes
      do not collide. */
  lemma AddCommutes(l: Layout, r: Ring, a: SiloAddress, b: SiloAddress)
    requires a != b
    ensures l.Add(l.Add(r, a), b) == l.Add(l.Add(r, b), a) <==> l.Apart(a.siloId, b.siloId)
  {
    var ab, ba := l.Add(l.Add(r, a), b), l.Add(l.Add(r, b), a);
    if p :| p in l.Vnodes(a.siloId) && p in l.Vnodes(b.siloId) {
      assert ab[p] == b && ba[p] == a;
    } else {
      assert ab == ba;
    }
  }

  // --- The ring as a function of the set of silos ---

  /** Silos with pairwise apart ids; equal ids mean equal addresses. */
  ghost predicate Compatible(l: Layout, silos: seq<SiloAddress>) {
    forall a, b :: a in silos && b in silos && a != b ==> l.Apart(a.siloId, b.siloId)
  }

  /** What `AddAll` leaves at each position, read off the set of silos alone. */
  lemma {:induction false} AddAllContents(l: Layout, silos: seq<SiloAddress>, p: Position)
    requires Compatible(l, silos)
    ensures forall a :: a in silos && p in l.Vnodes(a.siloId) ==>
              p in l.AddAll(map[], silos) && l.AddAll(map[], silos)[p] == a
    ensures p in l.AddAll(map[], silos) ==>
              l.AddAll(map[], silos)[p] in silos && p in l.Vnodes(l.AddAll(map[], silos)[p].siloId)
  {
    if silos != [] {
      var init, last := silos[..|silos| - 1], silos[|silos| - 1];
      assert forall a :: a in silos <==> a in init || a == last;
      AddAllContents(l, init, p);
    }
  }

  /** The ring depends only on the set of silos added, not on order or repeats. */
  lemma RingDependsOnlyOnSet(l: Layout, xs: seq<SiloAddress>, ys: seq<SiloAddress>)
    requires Compatible(l, xs)
    requires forall a :: a in xs <==> a in ys
    ensures l.AddAll(map[], xs) == l.AddAll(map[], ys)
  {
    forall p: Position
      ensures p in l.AddAll(map[], xs) <==> p in l.AddAll(map[], ys)
      ensures p in l.AddAll(map[], xs) && p in l.AddAll(map[], ys) ==>
                l.AddAll(map[], xs)[p] == l.AddAll(map[], ys)[p]
    {
      AddAllContents(l, xs, p);
      AddAllContents(l, ys, p);
    }
  }

  /** With a collision the order of addition decides who serves the position. */
  lemma CollisionMakesOrderMatter(l: Layout, a: SiloAddress, b: SiloAddress)
    requires a != b && !l.Apart(a.siloId, b.siloId)
    ensures l.AddAll(map[], [a, b]) != l.AddAll(map[], [b, a])
  {
    AddCommutes(l, map[], a, b);
    assert [a, b][..1] == [a] && [b, a][..1] == [b] && [a][..0] == [] && [b][..0] == [];
    assert l.AddAll(map[], [a]) == l.Add(l.AddAll(map[], []), a);
    assert l.AddAll(map[], [b]) == l.Add(l.AddAll(map[], []), b);
  }

  // --- Rings that hold exactly the vnodes of a set of silo ids ---

  /** The ring holds exactly the vnodes of `ids`, each owned by its silo. */
  ghost predicate Holds(l: Layout, r: Ring, ids: set<string>) {
    && (forall id, p :: id in ids && p in l.Vnodes(id) ==> p in r && r[p].siloId == id)
    && (forall p :: p in r ==> r[p].siloId in ids && p in l.Vnodes(r[p].siloId))
  }

  lemma HoldsAdd(l: Layout, r: Ring, ids: set<string>, silo: SiloAddress)
    requires l.CollisionFree(ids + {silo.siloId}) && Holds(l, r, ids)
    ensures Holds(l, l.Add(r, silo), ids + {silo.siloId})
  {
    forall id, p | id in ids + {silo.siloId} && p in l.Vnodes(id)
      ensures p in l.Add(r, silo) && l.Add(r, silo)[p].siloId == id
    {
      assert id != silo.siloId ==> l.Apart(id, silo.siloId);
    }
    forall p | p in l.Add(r, silo)
      ensures l.Add(r, silo)[p].siloId in ids + {silo.siloId} && p in l.Vnodes(l.Add(r, silo)[p].siloId)
    {
      assert p in l.Vnodes(silo.siloId) || p in r;
    }
  }

  lemma HoldsRemove(l: Layout, r: Ring, ids: set<string>, id: string)
    requires l.CollisionFree(ids + {id}) && Holds(l, r, ids)
    ensures Holds(l, l.Remove(r, id), ids - {id})
  {
    forall x, p | x in ids - {id} && p in l.Vnodes(x)
      ensures p in l.Remove(r, id) && l.Remove(r, id)[p].siloId == x
    {
      assert l.Apart(x, id);
    }
  }

  lemma HoldsSiloIds(l: Layout, r: Ring, ids: set<string>)
    requires Holds(l, r, ids) && l.virtualNodes >= 1
    ensures SiloIds(r) == ids
  {
    forall id | id in ids
      ensures id in SiloIds(r)
    {
      var p := l.VnodeKey(id, 0);
      assert p in l.Vnodes(id);
      assert r[p].siloId == id;
    }
  }

  /** Two rings holding the same silo ids route every key to the same silo. */
  lemma SameIdsRouteAlike(l: Layout, r1: Ring, r2: Ring, ids: set<string>, p: Position)
    requires Holds(l, r1, ids) && Holds(l, r2, ids)
    ensures Get(r1, p).Some? == Get(r2, p).Some?
    ensures Get(r1, p).Some? ==> Get(r1, p).value.siloId == Get(r2, p).value.siloId
  {
    assert r1.Keys == r2.Keys;
    if r1 != map[] {
      var k := Successor(r1.Keys, p);
      SuccessorIsNearest(r1.Keys, p);
      assert k in l.Vnodes(r1[k].siloId);
    }
  }

  // --- What the hash must do ---

  /** The hash sends different vnode labels of these silos to different positions. */
  ghost predicate Spreads(l: Layout, ids: set<string>) {
    forall a, b, i: nat, j: nat ::
      a in ids && b in ids && i < l.virtualNodes && j < l.virtualNodes && Labelled(a, i) != Labelled(b, j) ==>
        l.hash(Labelled(a, i)) != l.hash(Labelled(b, j))
  }

  /** Then vnodes of different silos never collide. */
  lemma SpreadIsCollisionFree(l: Layout, ids: set<string>)
    requires Spreads(l, ids)
    ensures l.CollisionFree(ids)
  {
    forall a, b | a in ids && b in ids && a != b
      ensures l.Apart(a, b)
    {
      forall p | p in l.Vnodes(a)
        ensures p !in l.Vnodes(b)
      {
        var i: nat :| i < l.virtualNodes && p == l.VnodeKey(a, i);
        if p in l.Vnodes(b) {
          var j: nat :| j < l.virtualNodes && p == l.VnodeKey(b, j);
          LabelInjective(a, i, b, j);
        }
      }
    }
  }

  /** And every silo gets its full number of positions. */
  lemma SpreadFillsVnodes(l: Layout, id: string)
    requires Spreads(l, {id})
    ensures |l.Vnodes(id)| == l.virtualNodes
  {
    FirstVnodesCount(l, id, l.virtualNodes);
    assert FirstVnodes(l, id, l.virtualNodes) == l.Vnodes(id);
  }

  lemma {:induction false} FirstVnodesCount(l: Layout, id: string, n: nat)
    requires Spreads(l, {id}) && n <= l.virtualNodes
    ensures |FirstVnodes(l, id, n)| == n
  {
    if n == 0 {
      assert FirstVnodes(l, id, n) == {};
    } else {
      FirstVnodesCount(l, id, n - 1);
      FirstVnodesGrow(l, id, n - 1);
      if l.VnodeKey(id, n - 1) in FirstVnodes(l, id, n - 1) {
        var j: nat :| j < n - 1 && l.VnodeKey(id, n - 1) == l.VnodeKey(id, j);
        assert Labelled(id, n - 1) == Labelled(id, j);
        LabelInjective(id, n - 1, id, j);
      }
    }
  }

  // --- The mutable ring ---

  /** The vnodes with index below `n`. */
  function FirstVnodes(l: Layout, id: string, n: nat): set<Position> {
    set i: nat | i < n :: l.VnodeKey(id, i)
  }

  /** Ring positions that serve a silo id. */
  ghost function PositionsOf(r: Ring, id: string): set<Position> {
    set p | p in r && r[p].siloId == id
  }

  ghost function FirstOf(r: Ring, id: string): (p: Position)
    requires id in SiloIds(r)
    ensures p in r && r[p].siloId == id
  {
    var q :| q in r && r[q].siloId == id;
    assert q in PositionsOf(r, id);
    Lowest(PositionsOf(r, id))
  }

  ghost predicate IsFirstOf(r: Ring, id: string, p: Position) {
    p in r && r[p].siloId == id && forall q :: q in r && r[q].siloId == id ==> p <= q
  }

  lemma FirstIsUnique(r: Ring, id: string, p: Position)
    requires IsFirstOf(r, id, p)
    ensures id in SiloIds(r) && FirstOf(r, id) == p
  {
    assert p in PositionsOf(r, id);
  }

  class HashRing {
    const layout: Layout
    var ring: Ring

    constructor (virtualNodes: nat, hash: Hash)
      ensures layout == Layout(hash, virtualNodes) && ring == map[]
    {
      layout := Layout(hash, virtualNodes);
      ring := map[];
    }

    method Add(silo: SiloAddress)
      modifies this
      ensures ring == layout.Add(old(ring), silo)
    {
      for i := 0 to layout.virtualNodes
        invariant ring == old(ring) + map p | p in FirstVnodes(layout, silo.siloId, i) :: silo
      {
        ring := ring[layout.VnodeKey(silo.siloId, i) := silo];
        FirstVnodesGrow(layout, silo.siloId, i);
      }
      assert FirstVnodes(layout, silo.siloId, layout.virtualNodes) == layout.Vnodes(silo.siloId);
    }

    method Remove(silo: SiloAddress)
      modifies this
      ensures ring == layout.Remove(old(ring), silo.siloId)
    {
      for i := 0 to layout.virtualNodes
        invariant ring == old(ring) - FirstVnodes(layout, silo.siloId, i)
      {
        ring := ring - {layout.VnodeKey(silo.siloId, i)};
        FirstVnodesGrow(layout, silo.siloId, i);
      }
      assert FirstVnodes(layout, silo.siloId, layout.virtualNodes) == layout.Vnodes(silo.siloId);
    }

    /** `HashRing::get`. */
    function Lookup(grainKey: string): Option<SiloAddress>
      reads this
    {
      Get(ring, layout.hash(grainKey))
    }

    /** One address per silo id, in order of first vnode. */
    method Members() returns (result: seq<SiloAddress>)
      ensures forall i, j :: 0 <= i < j < |result| ==> result[i].siloId != result[j].siloId
      ensures (set a | a in result :: a.siloId) == SiloIds(ring)
      ensures forall i :: 0 <= i < |result| ==> result[i] == ring[FirstOf(ring, result[i].siloId)]
      ensures forall i, j :: 0 <= i < j < |result| ==>
                FirstOf(ring, result[i].siloId) < FirstOf(ring, result[j].siloId)
    {
      result := [];
      ghost var firsts: seq<Position> := [];
      var seen: set<string> := {};
      var todo := ring.Keys;
      while todo != {}
        invariant todo <= ring.Keys && |firsts| == |result|
        invariant forall p, q :: p in ring && p !in todo && q in todo ==> p < q
        invariant seen == set a | a in result :: a.siloId
        invariant seen == set p | p in ring && p !in todo :: ring[p].siloId
        invariant forall i :: 0 <= i < |result| ==>
                    firsts[i] in ring && firsts[i] !in todo && result[i] == ring[firsts[i]]
                    && IsFirstOf(ring, result[i].siloId, firsts[i])
        invariant forall i, j :: 0 <= i < j < |result| ==>
                    firsts[i] < firsts[j] && result[i].siloId != result[j].siloId
        decreases todo
      {
        var p := Lowest(todo);
        if ring[p].siloId !in seen {
          assert IsFirstOf(ring, ring[p].siloId, p);
          result, firsts := result + [ring[p]], firsts + [p];
        }
        seen := seen + {ring[p].siloId};
        todo := todo - {p};
      }
      forall i | 0 <= i < |result|
        ensures FirstOf(ring, result[i].siloId) == firsts[i]
      {
        FirstIsUnique(ring, result[i].siloId, firsts[i]);
      }
    }
  }

  lemma FirstVnodesGrow(l: Layout, id: string, i: nat)
    ensures FirstVnodes(l, id, i + 1) == FirstVnodes(l, id, i) + {l.VnodeKey(id, i)}
  {
    forall p | p in FirstVnodes(l, id, i + 1)
      ensures p in FirstVnodes(l, id, i) + {l.VnodeKey(id, i)}
    {
      var j: nat :| j < i + 1 && p == l.VnodeKey(id, j);
    }
  }
}
