/** The ring agrees with the member table whenever the SWIM lock is free, and a
    gossip batch updates the ring as if its updates came one at a time — exactly
    when no batch buries a silo that it admitted itself. */
module SwimRing {
  import opened Rings
  import opened SwimSilo

  /** The silo ids the ring must hold: the recorded members and the local silo. */
  function Live(t: Table): set<string> {
    t.members.Keys + {t.LocalId()}
  }

  /** The ring holds exactly the vnodes of the live silos, and every record is
      filed under the id of the silo it describes. */
  ghost predicate Agrees(l: Layout, s: Silo) {
    Holds(l, s.ring, Live(s.table)) && Filed(s.table)
  }

  function IdsOf(silos: seq<SiloAddress>): set<string> {
    set a | a in silos :: a.siloId
  }

  function IdsNamed(us: seq<GossipUpdate>): set<string> {
    set u | u in us :: u.addr.siloId
  }

  // --- Batched against sequential ring updates ---

  /** The ring if every update of the batch touched it on its own. */
  function RingOneByOne(l: Layout, s: Silo, us: seq<GossipUpdate>, clock: Clock): Ring {
    if us == [] then s.ring
    else
      var init, u := us[..|us| - 1], us[|us| - 1];
      var t, r := ApplyAll(s.table, init, clock), RingOneByOne(l, s, init, clock);
      if Admits(t, u) then l.Add(r, u.addr)
      else if Kills(t, u) then l.Remove(r, u.addr.siloId)
      else r
  }

  /** Some silo admitted within the batch is gone again at its end. */
  predicate BuriesItsOwnJoin(t: Table, us: seq<GossipUpdate>, clock: Clock) {
    exists a :: a in Adds(t, us, clock) && a.siloId !in ApplyAll(t, us, clock).members
  }

  /** Two rings hold the same entries at the vnodes of `id`. */
  ghost predicate SameAt(l: Layout, r1: Ring, r2: Ring, id: string) {
    forall p :: p in l.Vnodes(id) ==> (p in r1 <==> p in r2) && (p in r1 ==> r1[p] == r2[p])
  }

  lemma {:induction false} ApplyAllKeepsLocal(t: Table, us: seq<GossipUpdate>, clock: Clock)
    ensures ApplyAll(t, us, clock).localAddr == t.localAddr
  {
    if us != [] {
      ApplyAllKeepsLocal(t, us[..|us| - 1], clock);
    }
  }

  lemma {:induction false} AddsAreNamed(t: Table, us: seq<GossipUpdate>, clock: Clock)
    ensures IdsOf(Adds(t, us, clock)) <= IdsNamed(us)
    ensures t.LocalId() !in IdsOf(Adds(t, us, clock))
  {
    if us != [] {
      var init, u := us[..|us| - 1], us[|us| - 1];
      AddsAreNamed(t, init, clock);
      ApplyAllKeepsLocal(t, init, clock);
      assert u in us && forall x :: x in init ==> x in us;
      assert u.addr.siloId in IdsNamed(us) && IdsNamed(init) <= IdsNamed(us);
      forall a | a in Adds(t, us, clock)
        ensures a.siloId in IdsNamed(us) && a.siloId != t.LocalId()
      {
        if a in Adds(t, init, clock) {
          assert a.siloId in IdsOf(Adds(t, init, clock));
        }
      }
    }
  }

  /** Live ids stay within the old ones and those the batch names. */
  lemma {:induction false} LiveWithin(t: Table, us: seq<GossipUpdate>, clock: Clock)
    ensures Live(ApplyAll(t, us, clock)) <= Live(t) + IdsNamed(us)
  {
    if us != [] {
      var init, u := us[..|us| - 1], us[|us| - 1];
      LiveWithin(t, init, clock);
      assert u in us && forall x :: x in init ==> x in us;
    }
  }

  predicate Filed(t: Table) {
    forall id :: id in t.members ==> t.members[id].addr.siloId == id
  }

  lemma UpdateKeepsFiling(t: Table, u: GossipUpdate, now: nat)
    requires Filed(t)
    ensures Filed(ApplyUpdate(t, u, now))
  {
  }

  lemma {:induction false} RecordsStayFiled(t: Table, us: seq<GossipUpdate>, clock: Clock)
    requires Filed(t)
    ensures Filed(ApplyAll(t, us, clock))
  {
    if us != [] {
      var init, u := us[..|us| - 1], us[|us| - 1];
      RecordsStayFiled(t, init, clock);
      UpdateKeepsFiling(ApplyAll(t, init, clock), u, clock(|us| - 1));
    }
  }

  /** One at a time, the ring always agrees with the table. */
  lemma {:induction false} OneByOneAgrees(l: Layout, s: Silo, us: seq<GossipUpdate>, clock: Clock)
    requires Agrees(l, s)
    requires l.CollisionFree(Live(s.table) + IdsNamed(us))
    ensures Agrees(l, Silo(ApplyAll(s.table, us, clock), RingOneByOne(l, s, us, clock)))
  {
    RecordsStayFiled(s.table, us, clock);
    if us != [] {
      var init, u := us[..|us| - 1], us[|us| - 1];
      assert u in us && forall x :: x in init ==> x in us;
      OneByOneAgrees(l, s, init, clock);
      var t, r := ApplyAll(s.table, init, clock), RingOneByOne(l, s, init, clock);
      LiveWithin(s.table, init, clock);
      var t' := ApplyUpdate(t, u, clock(|us| - 1));
      if Admits(t, u) {
        HoldsAdd(l, r, Live(t), u.addr);
        assert Live(t') == Live(t) + {u.addr.siloId};
      } else if Kills(t, u) {
        HoldsRemove(l, r, Live(t), u.addr.siloId);
        assert Live(t') == Live(t) - {u.addr.siloId};
      } else {
        assert Live(t') == Live(t);
      }
    }
  }

  /** Adding or removing another silo leaves the vnodes of `id` alone. */
  lemma OthersLeaveVnodesAlone(l: Layout, r: Ring, silo: SiloAddress, id: string)
    requires l.Apart(silo.siloId, id)
    ensures SameAt(l, r, l.Add(r, silo), id) && SameAt(l, r, l.Remove(r, silo.siloId), id)
  {
  }

  lemma {:induction false} AddAllSameAt(l: Layout, r1: Ring, r2: Ring, silos: seq<SiloAddress>, id: string)
    requires SameAt(l, r1, r2, id)
    ensures SameAt(l, l.AddAll(r1, silos), l.AddAll(r2, silos), id)
  {
    if silos != [] {
      AddAllSameAt(l, r1, r2, silos[..|silos| - 1], id);
    }
  }

  lemma {:induction false} AddAllElsewhere(l: Layout, r: Ring, silos: seq<SiloAddress>, id: string)
    requires id !in IdsOf(silos)
    requires forall a :: a in silos ==> l.Apart(a.siloId, id)
    ensures SameAt(l, r, l.AddAll(r, silos), id)
  {
    if silos != [] {
      var init, last := silos[..|silos| - 1], silos[|silos| - 1];
      assert last in silos && forall a :: a in init ==> a in silos;
      AddAllElsewhere(l, r, init, id);
      OthersLeaveVnodesAlone(l, l.AddAll(r, init), last, id);
    }
  }

  function Batched(l: Layout, s: Silo, us: seq<GossipUpdate>, clock: Clock): Ring {
    AfterGossip(l, s, us, clock).ring
  }

  /** How one more update extends the batched ring. */
  lemma BatchedSnoc(l: Layout, s: Silo, us: seq<GossipUpdate>, clock: Clock)
    requires us != []
    ensures var init, u := us[..|us| - 1], us[|us| - 1];
            var t := ApplyAll(s.table, init, clock);
            var adds, rem := Adds(s.table, init, clock), l.RemoveAll(s.ring, Removes(s.table, init, clock));
            Batched(l, s, us, clock)
            == if Admits(t, u) then l.Add(l.AddAll(rem, adds), u.addr)
               else if Kills(t, u) then l.AddAll(l.Remove(rem, u.addr.siloId), adds)
               else l.AddAll(rem, adds)
  {
    var adds, adds' := Adds(s.table, us[..|us| - 1], clock), Adds(s.table, us, clock);
    var removes, removes' := Removes(s.table, us[..|us| - 1], clock), Removes(s.table, us, clock);
    assert adds' != adds ==> adds'[..|adds'| - 1] == adds;
    assert removes' != removes ==> removes'[..|removes'| - 1] == removes;
  }

  /** What a batch adds lies apart from a silo it names and does not add. */
  lemma AddsLieApart(l: Layout, t: Table, us: seq<GossipUpdate>, clock: Clock, id: string)
    requires l.CollisionFree(IdsNamed(us) + {id}) && id !in IdsOf(Adds(t, us, clock))
    ensures forall a :: a in Adds(t, us, clock) ==> l.Apart(a.siloId, id)
  {
    AddsAreNamed(t, us, clock);
    forall a | a in Adds(t, us, clock)
      ensures l.Apart(a.siloId, id)
    {
      assert a.siloId in IdsOf(Adds(t, us, clock));
    }
  }

  /** A silo the last update buries, and the batch did not admit, is gone either way. */
  lemma {:induction false} KilledSameAt(l: Layout, s: Silo, us: seq<GossipUpdate>, clock: Clock, id: string)
    requires us != [] && id == us[|us| - 1].addr.siloId
    requires Kills(ApplyAll(s.table, us[..|us| - 1], clock), us[|us| - 1])
    requires l.CollisionFree(IdsNamed(us[..|us| - 1]) + {id})
    requires id !in IdsOf(Adds(s.table, us[..|us| - 1], clock))
    ensures SameAt(l, Batched(l, s, us, clock), RingOneByOne(l, s, us, clock), id)
  {
    var init := us[..|us| - 1];
    var adds := Adds(s.table, init, clock);
    var rem := l.RemoveAll(s.ring, Removes(s.table, init, clock));
    BatchedSnoc(l, s, us, clock);
    AddsLieApart(l, s.table, init, clock, id);
    AddAllElsewhere(l, l.Remove(rem, id), adds, id);
  }

  /** A silo the last update admits is added last either way. */
  lemma AdmittedSameAt(l: Layout, s: Silo, us: seq<GossipUpdate>, clock: Clock)
    requires us != [] && Admits(ApplyAll(s.table, us[..|us| - 1], clock), us[|us| - 1])
    ensures SameAt(l, Batched(l, s, us, clock), RingOneByOne(l, s, us, clock), us[|us| - 1].addr.siloId)
  {
    BatchedSnoc(l, s, us, clock);
  }

  /** An update that neither admits nor buries leaves both rings alone. */
  lemma IgnoredUnchanged(l: Layout, s: Silo, us: seq<GossipUpdate>, clock: Clock)
    requires us != []
    requires !Admits(ApplyAll(s.table, us[..|us| - 1], clock), us[|us| - 1])
    requires !Kills(ApplyAll(s.table, us[..|us| - 1], clock), us[|us| - 1])
    ensures var init := us[..|us| - 1];
            && Batched(l, s, us, clock) == Batched(l, s, init, clock)
            && RingOneByOne(l, s, us, clock) == RingOneByOne(l, s, init, clock)
            && Adds(s.table, us, clock) == Adds(s.table, init, clock)
            && ApplyAll(s.table, us, clock).members.Keys == ApplyAll(s.table, init, clock).members.Keys
  {
    BatchedSnoc(l, s, us, clock);
  }

  lemma CollisionFreePrefix(l: Layout, us: seq<GossipUpdate>, id: string)
    requires us != [] && l.CollisionFree(IdsNamed(us) + {id})
    ensures l.CollisionFree(IdsNamed(us[..|us| - 1]) + {id})
    ensures us[|us| - 1].addr.siloId != id ==> l.Apart(us[|us| - 1].addr.siloId, id)
  {
    var init, u := us[..|us| - 1], us[|us| - 1];
    assert u in us && forall x :: x in init ==> x in us;
    assert u.addr.siloId in IdsNamed(us) && IdsNamed(init) <= IdsNamed(us);
  }

  /** Away from silos the batch both admitted and buried, removals-then-additions
      and one-by-one updates leave the same entries. */
  lemma {:induction false} BatchedSameAt(l: Layout, s: Silo, us: seq<GossipUpdate>, clock: Clock, id: string)
    requires l.CollisionFree(IdsNamed(us) + {id})
    requires id in IdsOf(Adds(s.table, us, clock)) ==> id in ApplyAll(s.table, us, clock).members
    ensures SameAt(l, Batched(l, s, us, clock), RingOneByOne(l, s, us, clock), id)
    decreases us
  {
    if us != [] {
      var init, u := us[..|us| - 1], us[|us| - 1];
      var t := ApplyAll(s.table, init, clock);
      CollisionFreePrefix(l, us, id);
      if id != u.addr.siloId {
        AddsOfOthersUnchanged(s.table, us, clock, id);
        BatchedSameAt(l, s, init, clock, id);
        OtherUpdateSameAt(l, s, us, clock, id);
      } else if Kills(t, u) {
        assert Adds(s.table, us, clock) == Adds(s.table, init, clock);
        KilledSameAt(l, s, us, clock, id);
      } else if Admits(t, u) {
        AdmittedSameAt(l, s, us, clock);
      } else {
        IgnoredUnchanged(l, s, us, clock);
        BatchedSameAt(l, s, init, clock, id);
      }
    }
  }

  lemma AddsOfOthersUnchanged(t: Table, us: seq<GossipUpdate>, clock: Clock, id: string)
    requires us != [] && us[|us| - 1].addr.siloId != id
    ensures var init := us[..|us| - 1];
            && (id in IdsOf(Adds(t, init, clock)) ==> id in IdsOf(Adds(t, us, clock)))
            && (id in ApplyAll(t, us, clock).members <==> id in ApplyAll(t, init, clock).members)
  {
    var init := us[..|us| - 1];
    if a :| a in Adds(t, init, clock) && a.siloId == id {
      assert a in Adds(t, us, clock);
    }
  }

  /** An update about another silo keeps batched and one-by-one rings alike at `id`. */
  lemma {:induction false} OtherUpdateSameAt(l: Layout, s: Silo, us: seq<GossipUpdate>, clock: Clock, id: string)
    requires us != [] && l.Apart(us[|us| - 1].addr.siloId, id)
    requires SameAt(l, Batched(l, s, us[..|us| - 1], clock), RingOneByOne(l, s, us[..|us| - 1], clock), id)
    ensures SameAt(l, Batched(l, s, us, clock), RingOneByOne(l, s, us, clock), id)
  {
    var init, u := us[..|us| - 1], us[|us| - 1];
    var adds := Adds(s.table, init, clock);
    var rem := l.RemoveAll(s.ring, Removes(s.table, init, clock));
    var r := RingOneByOne(l, s, init, clock);
    BatchedSnoc(l, s, us, clock);
    OthersLeaveVnodesAlone(l, l.AddAll(rem, adds), u.addr, id);
    OthersLeaveVnodesAlone(l, rem, u.addr, id);
    OthersLeaveVnodesAlone(l, r, u.addr, id);
    AddAllSameAt(l, rem, l.Remove(rem, u.addr.siloId), adds, id);
  }

  /** Every entry of the batched ring sits at a vnode of the silo it names, and
      names a live silo or one the batch admitted. */
  lemma {:induction false} BatchedEntries(
      l: Layout, r: Ring, removes: seq<SiloAddress>, adds: seq<SiloAddress>, p: Position)
    requires p in l.AddAll(l.RemoveAll(r, removes), adds)
    requires p in r ==> p in l.Vnodes(r[p].siloId)
    ensures var a := l.AddAll(l.RemoveAll(r, removes), adds)[p];
            p in l.Vnodes(a.siloId) && (a in adds || (p in r && a == r[p]))
    decreases |adds| + |removes|
  {
    if adds != [] {
      var init, last := adds[..|adds| - 1], adds[|adds| - 1];
      if p !in l.Vnodes(last.siloId) {
        BatchedEntries(l, r, removes, init, p);
      }
    } else if removes != [] {
      assert l.AddAll(l.RemoveAll(r, removes), adds) == l.RemoveAll(r, removes);
      BatchedEntries(l, r, removes[..|removes| - 1], [], p);
    }
  }

  lemma {:induction false} BatchAgreesUnlessBuried(l: Layout, s: Silo, us: seq<GossipUpdate>, clock: Clock)
    requires Agrees(l, s) && l.virtualNodes >= 1
    requires l.CollisionFree(Live(s.table) + IdsNamed(us))
    ensures !BuriesItsOwnJoin(s.table, us, clock) <==> Agrees(l, AfterGossip(l, s, us, clock))
    ensures !BuriesItsOwnJoin(s.table, us, clock) <==>
              Batched(l, s, us, clock) == RingOneByOne(l, s, us, clock)
  {
    OneByOneAgrees(l, s, us, clock);
    AddsAreNamed(s.table, us, clock);
    LiveWithin(s.table, us, clock);
    ApplyAllKeepsLocal(s.table, us, clock);
    if a :| a in Adds(s.table, us, clock) && a.siloId !in ApplyAll(s.table, us, clock).members {
      OwnJoinLingers(l, s, us, clock, a);
    } else {
      RingsEqual(l, s, us, clock);
    }
  }

  lemma RingsEqual(l: Layout, s: Silo, us: seq<GossipUpdate>, clock: Clock)
    requires Agrees(l, s) && !BuriesItsOwnJoin(s.table, us, clock)
    requires l.CollisionFree(Live(s.table) + IdsNamed(us))
    ensures Batched(l, s, us, clock) == RingOneByOne(l, s, us, clock)
  {
    var b, o := Batched(l, s, us, clock), RingOneByOne(l, s, us, clock);
    forall p | p in b
      ensures p in o && o[p] == b[p]
    {
      BatchedEntryIsFiled(l, s, us, clock, p);
      SameAtNamed(l, s, us, clock, b[p].siloId);
    }
    forall p | p in o
      ensures p in b
    {
      OneByOneEntryIsFiled(l, s, us, clock, p);
      SameAtNamed(l, s, us, clock, o[p].siloId);
    }
  }

  lemma BatchedEntryIsFiled(l: Layout, s: Silo, us: seq<GossipUpdate>, clock: Clock, p: Position)
    requires Agrees(l, s) && p in Batched(l, s, us, clock)
    ensures var id := Batched(l, s, us, clock)[p].siloId;
            p in l.Vnodes(id) && id in Live(s.table) + IdsNamed(us)
  {
    AddsAreNamed(s.table, us, clock);
    BatchedEntries(l, s.ring, Removes(s.table, us, clock), Adds(s.table, us, clock), p);
    var a := Batched(l, s, us, clock)[p];
    assert a in Adds(s.table, us, clock) ==> a.siloId in IdsOf(Adds(s.table, us, clock));
  }

  lemma OneByOneEntryIsFiled(l: Layout, s: Silo, us: seq<GossipUpdate>, clock: Clock, p: Position)
    requires Agrees(l, s) && p in RingOneByOne(l, s, us, clock)
    requires l.CollisionFree(Live(s.table) + IdsNamed(us))
    ensures var id := RingOneByOne(l, s, us, clock)[p].siloId;
            p in l.Vnodes(id) && id in Live(s.table) + IdsNamed(us)
  {
    OneByOneAgrees(l, s, us, clock);
    LiveWithin(s.table, us, clock);
  }

  lemma {:induction false} SameAtNamed(l: Layout, s: Silo, us: seq<GossipUpdate>, clock: Clock, id: string)
    requires !BuriesItsOwnJoin(s.table, us, clock)
    requires l.CollisionFree(Live(s.table) + IdsNamed(us)) && id in Live(s.table) + IdsNamed(us)
    ensures SameAt(l, Batched(l, s, us, clock), RingOneByOne(l, s, us, clock), id)
  {
    if id in IdsOf(Adds(s.table, us, clock)) {
      var a :| a in Adds(s.table, us, clock) && a.siloId == id;
      assert id in ApplyAll(s.table, us, clock).members;
    }
    BatchedSameAt(l, s, us, clock, id);
  }

  /** A silo admitted and buried by one batch stays on the ring without a record. */
  lemma {:induction false} OwnJoinLingers(l: Layout, s: Silo, us: seq<GossipUpdate>, clock: Clock, a: SiloAddress)
    requires Agrees(l, s) && l.virtualNodes >= 1
    requires l.CollisionFree(Live(s.table) + IdsNamed(us))
    requires a in Adds(s.table, us, clock) && a.siloId !in ApplyAll(s.table, us, clock).members
    ensures a.siloId in SiloIds(Batched(l, s, us, clock)) - Live(ApplyAll(s.table, us, clock))
    ensures !Agrees(l, AfterGossip(l, s, us, clock))
    ensures Batched(l, s, us, clock) != RingOneByOne(l, s, us, clock)
  {
    var b := Batched(l, s, us, clock);
    var p := l.VnodeKey(a.siloId, 0);
    assert p in l.Vnodes(a.siloId);
    AddsAreNamed(s.table, us, clock);
    ApplyAllKeepsLocal(s.table, us, clock);
    OneByOneAgrees(l, s, us, clock);
    AddedIsPresent(l, l.RemoveAll(s.ring, Removes(s.table, us, clock)), Adds(s.table, us, clock), a, p);
    assert b[p].siloId == a.siloId;
  }

  lemma {:induction false} AddedIsPresent(l: Layout, r: Ring, silos: seq<SiloAddress>, a: SiloAddress, p: Position)
    requires a in silos && p in l.Vnodes(a.siloId) && l.CollisionFree(IdsOf(silos))
    ensures p in l.AddAll(r, silos) && l.AddAll(r, silos)[p].siloId == a.siloId
  {
    var init, last := silos[..|silos| - 1], silos[|silos| - 1];
    assert forall x :: x in silos <==> x in init || x == last;
    if last.siloId != a.siloId {
      assert last.siloId in IdsOf(silos) && a.siloId in IdsOf(silos);
      assert l.Apart(last.siloId, a.siloId);
      assert IdsOf(init) <= IdsOf(silos);
      AddedIsPresent(l, r, init, a, p);
    }
  }

  /** The smallest such batch: join `a`, then report it dead. */
  lemma JoinThenDeadLeavesRingAhead(l: Layout, s: Silo, a: SiloAddress, inc: nat, clock: Clock)
    requires Agrees(l, s) && l.virtualNodes >= 1 && a.siloId !in Live(s.table)
    requires l.CollisionFree(Live(s.table) + {a.siloId})
    ensures var s' := AfterGossip(l, s, [JoinUpdate(a), DeadUpdate(a, inc)], clock);
            a.siloId in SiloIds(s'.ring) - Live(s'.table)
  {
    var us := [JoinUpdate(a), DeadUpdate(a, inc)];
    assert us[..1] == [JoinUpdate(a)] && us[..1][..0] == [];
    assert ApplyAll(s.table, us[..1], clock) == ApplyUpdate(s.table, JoinUpdate(a), clock(0));
    assert Adds(s.table, us[..1], clock) == [a];
    assert a in Adds(s.table, us, clock);
    assert IdsNamed(us) == {a.siloId} by {
      assert us[0] in us;
    }
    OwnJoinLingers(l, s, us, clock, a);
  }

  /** A syntactic test a sender can make: no silo is reported dead after a join. */
  predicate NoDeathAfterJoin(us: seq<GossipUpdate>) {
    forall i, j :: 0 <= i < j < |us| && us[i].JoinUpdate? && us[j].DeadUpdate? ==>
      us[i].addr.siloId != us[j].addr.siloId
  }

  lemma {:induction false} NoDeathAfterJoinSuffices(t: Table, us: seq<GossipUpdate>, clock: Clock)
    requires NoDeathAfterJoin(us)
    ensures !BuriesItsOwnJoin(t, us, clock)
    ensures forall a :: a in Adds(t, us, clock) ==> exists i :: 0 <= i < |us| && us[i] == JoinUpdate(a)
  {
    if us != [] {
      var init, u := us[..|us| - 1], us[|us| - 1];
      NoDeathAfterJoinSuffices(t, init, clock);
      forall a | a in Adds(t, us, clock)
        ensures exists i :: 0 <= i < |us| && us[i] == JoinUpdate(a)
        ensures a.siloId in ApplyAll(t, us, clock).members
      {
        if a in Adds(t, init, clock) {
          var i :| 0 <= i < |init| && init[i] == JoinUpdate(a);
          assert us[i] == JoinUpdate(a);
          assert us[|us| - 1].DeadUpdate? ==> us[i].addr.siloId != u.addr.siloId;
        } else {
          assert us[|us| - 1] == JoinUpdate(a);
        }
      }
    }
  }

  // --- Following one silo through a batch ---

  /** What a table records of one silo. */
  datatype Standing = Gone | There(incarnation: nat, suspected: bool)

  /** Its standing, and whether the batch admitted it on the way. */
  datatype Trace = Trace(standing: Standing, admitted: bool)

  function StandingOf(t: Table, x: string): Standing {
    if x in t.members then There(t.members[x].incarnation, t.members[x].status.Suspect?) else Gone
  }

  /** One update that names the silo. */
  function Follow(tr: Trace, u: GossipUpdate): Trace {
    match tr.standing
    case Gone => if u.JoinUpdate? then Trace(There(0, false), true) else tr
    case There(inc, suspected) =>
      if u.AliveUpdate? && u.incarnation > inc then tr.(standing := There(u.incarnation, false))
      else if u.SuspectUpdate? && u.incarnation >= inc && !suspected then tr.(standing := There(u.incarnation, true))
      else if u.DeadUpdate? && u.incarnation >= inc then tr.(standing := Gone)
      else tr
  }

  /** The updates of a batch that name `x`, one after the other; the rest of the table,
      the ring and the clock do not matter. */
  function FollowAll(start: Standing, us: seq<GossipUpdate>, x: string): Trace {
    if us == [] then Trace(start, false)
    else
      var tr, u := FollowAll(start, us[..|us| - 1], x), us[|us| - 1];
      if u.addr.siloId == x then Follow(tr, u) else tr
  }

  /** Following a silo tells its record after the batch, and whether it was added. */
  lemma {:induction false} FollowsTable(t: Table, us: seq<GossipUpdate>, clock: Clock, x: string)
    requires x != t.LocalId()
    ensures var tr := FollowAll(StandingOf(t, x), us, x);
            && tr.standing == StandingOf(ApplyAll(t, us, clock), x)
            && (tr.admitted <==> x in IdsOf(Adds(t, us, clock)))
  {
    if us != [] {
      var init, u := us[..|us| - 1], us[|us| - 1];
      FollowsTable(t, init, clock, x);
      ApplyAllKeepsLocal(t, init, clock);
      AddsSnoc(t, us, clock, x);
    }
  }

  lemma AddsSnoc(t: Table, us: seq<GossipUpdate>, clock: Clock, x: string)
    requires us != []
    ensures var init, u := us[..|us| - 1], us[|us| - 1];
            x in IdsOf(Adds(t, us, clock))
            <==> (x in IdsOf(Adds(t, init, clock))
                  || (Admits(ApplyAll(t, init, clock), u) && u.addr.siloId == x))
  {
    var init, u := us[..|us| - 1], us[|us| - 1];
    assert forall a :: a in Adds(t, us, clock) <==>
             a in Adds(t, init, clock) || (Admits(ApplyAll(t, init, clock), u) && a == u.addr);
  }

  /** Some silo other than the local one is admitted on the way and gone at the end. */
  predicate LosesItsOwnJoin(t: Table, us: seq<GossipUpdate>) {
    exists x :: x in IdsNamed(us) && x != t.LocalId() && FollowAll(StandingOf(t, x), us, x) == Trace(Gone, true)
  }

  lemma FollowingDecides(t: Table, us: seq<GossipUpdate>, clock: Clock)
    ensures BuriesItsOwnJoin(t, us, clock) <==> LosesItsOwnJoin(t, us)
  {
    AddsAreNamed(t, us, clock);
    if a :| a in Adds(t, us, clock) && a.siloId !in ApplyAll(t, us, clock).members {
      assert a.siloId in IdsOf(Adds(t, us, clock));
      FollowsTable(t, us, clock, a.siloId);
    }
    if x :| x in IdsNamed(us) && x != t.LocalId() && FollowAll(StandingOf(t, x), us, x) == Trace(Gone, true) {
      FollowsTable(t, us, clock, x);
      var a :| a in Adds(t, us, clock) && a.siloId == x;
    }
  }

  /** A batch leaves ring and table agreeing, and the ring as one-by-one updates would,
      exactly when no silo is admitted by it and gone at its end — which the updates
      naming that silo and its old record decide. */
  lemma BatchAgreesIff(l: Layout, s: Silo, us: seq<GossipUpdate>, clock: Clock)
    requires Agrees(l, s) && l.virtualNodes >= 1
    requires l.CollisionFree(Live(s.table) + IdsNamed(us))
    ensures !LosesItsOwnJoin(s.table, us) <==> Agrees(l, AfterGossip(l, s, us, clock))
    ensures !LosesItsOwnJoin(s.table, us) <==>
              Batched(l, s, us, clock) == RingOneByOne(l, s, us, clock)
  {
    BatchAgreesUnlessBuried(l, s, us, clock);
    FollowingDecides(s.table, us, clock);
  }

  // --- Every run of membership steps ---

  /** Everything that happens to ring and table under the SWIM lock. */
  datatype MemberStep =
    | JoinRpc(addr: SiloAddress)
    | NotifyJoinRpc(addr: SiloAddress)
    | NotifyLeaveRpc(addr: SiloAddress)
    | SeedReply(addrs: seq<SiloAddress>)
    | GossipBatch(updates: seq<GossipUpdate>, clock: Clock)
    | SuspectStep(id: string, now: nat)
    | PingOkStep(id: string)
    | DeathStep(id: string)
    | DrainStep(n: nat)

  function Named(st: MemberStep): set<string> {
    match st
    case JoinRpc(a) => {a.siloId}
    case NotifyJoinRpc(a) => {a.siloId}
    case NotifyLeaveRpc(a) => {a.siloId}
    case SeedReply(addrs) => IdsOf(addrs)
    case GossipBatch(us, _) => IdsNamed(us)
    case SuspectStep(id, _) => {id}
    case PingOkStep(id) => {id}
    case DeathStep(id) => {id}
    case DrainStep(_) => {}
  }

  function Do(l: Layout, s: Silo, st: MemberStep): Silo {
    match st
    case JoinRpc(a) => AfterJoin(l, s, a)
    case NotifyJoinRpc(a) => AfterNotifyJoin(l, s, a)
    case NotifyLeaveRpc(a) => AfterNotifyLeave(l, s, a)
    case SeedReply(addrs) => AfterSeedReply(l, s, addrs)
    case GossipBatch(us, clock) => AfterGossip(l, s, us, clock)
    case SuspectStep(id, now) => s.(table := Suspected(s.table, id, now))
    case PingOkStep(id) => s.(table := MarkAlive(s.table, id))
    case DeathStep(id) => AfterDeath(l, s, id)
    case DrainStep(n) => s.(table := AfterDrain(s.table, n))
  }

  /** The local silo is not told to leave or, if it is recorded, declared dead, and the
      batch does not bury its own join. */
  predicate Allowed(s: Silo, st: MemberStep) {
    match st
    case NotifyLeaveRpc(a) => a.siloId != s.table.LocalId()
    case DeathStep(id) => id == s.table.LocalId() ==> id !in s.table.members
    case GossipBatch(us, clock) => !BuriesItsOwnJoin(s.table, us, clock)
    case _ => true
  }

  lemma {:induction false} SeedReplyAgrees(l: Layout, s: Silo, addrs: seq<SiloAddress>)
    requires Agrees(l, s) && l.CollisionFree(Live(s.table) + IdsOf(addrs))
    ensures Agrees(l, AfterSeedReply(l, s, addrs))
    ensures AfterSeedReply(l, s, addrs).table.LocalId() == s.table.LocalId()
    ensures Live(AfterSeedReply(l, s, addrs).table) == Live(s.table) + IdsOf(addrs)
  {
    if addrs != [] {
      var init, a := addrs[..|addrs| - 1], addrs[|addrs| - 1];
      assert forall x :: x in addrs <==> x in init || x == a;
      assert IdsOf(addrs) == IdsOf(init) + {a.siloId};
      SeedReplyAgrees(l, s, init);
      var s1 := AfterSeedReply(l, s, init);
      assert Live(s1.table) + {a.siloId} == Live(s.table) + IdsOf(addrs);
      HoldsAdd(l, s1.ring, Live(s1.table), a);
      assert Live(AfterSeedReply(l, s, addrs).table) == Live(s1.table) + {a.siloId};
    }
  }

  /** Each allowed step keeps ring and table in agreement. */
  lemma StepAgrees(l: Layout, s: Silo, st: MemberStep)
    requires Agrees(l, s) && Allowed(s, st) && l.virtualNodes >= 1
    requires l.CollisionFree(Live(s.table) + Named(st))
    ensures Agrees(l, Do(l, s, st))
    ensures Do(l, s, st).table.localAddr == s.table.localAddr
    ensures Live(Do(l, s, st).table) <= Live(s.table) + Named(st)
  {
    var t := s.table;
    match st
    case JoinRpc(a) =>
      HoldsAdd(l, s.ring, Live(t), a);
      assert Live(Do(l, s, st).table) == Live(t) + {a.siloId};
    case NotifyJoinRpc(a) =>
      HoldsAdd(l, s.ring, Live(t), a);
      assert Live(Do(l, s, st).table) == Live(t) + {a.siloId};
    case NotifyLeaveRpc(a) =>
      HoldsRemove(l, s.ring, Live(t), a.siloId);
      assert Live(Do(l, s, st).table) == Live(t) - {a.siloId};
    case SeedReply(addrs) =>
      SeedReplyAgrees(l, s, addrs);
      SeedReplyKeepsLocal(t, addrs);
    case GossipBatch(us, clock) =>
      BatchAgreesUnlessBuried(l, s, us, clock);
      ApplyAllKeepsLocal(t, us, clock);
      LiveWithin(t, us, clock);
    case SuspectStep(id, now) =>
      assert Live(Do(l, s, st).table) == Live(t);
    case PingOkStep(id) =>
      assert Live(Do(l, s, st).table) == Live(t);
    case DeathStep(id) =>
      if id in t.members {
        HoldsRemove(l, s.ring, Live(t), id);
        assert Live(Do(l, s, st).table) == Live(t) - {id};
      }
    case DrainStep(n) =>
  }

  /** A ring without the local silo's vnodes does not agree with any table of that silo. */
  lemma OffOwnRing(l: Layout, s: Silo)
    requires l.virtualNodes >= 1 && l.VnodeKey(s.table.LocalId(), 0) !in s.ring
    ensures !Agrees(l, s)
  {
    assert l.VnodeKey(s.table.LocalId(), 0) in l.Vnodes(s.table.LocalId());
  }

  /** A step keeps ring and table in agreement exactly when it is allowed. */
  lemma StepAgreesIff(l: Layout, s: Silo, st: MemberStep)
    requires Agrees(l, s) && l.virtualNodes >= 1
    requires l.CollisionFree(Live(s.table) + Named(st))
    ensures Agrees(l, Do(l, s, st)) <==> Allowed(s, st)
  {
    if Allowed(s, st) {
      StepAgrees(l, s, st);
    } else if st.GossipBatch? {
      BatchAgreesUnlessBuried(l, s, st.updates, st.clock);
    } else {
      assert l.VnodeKey(s.table.LocalId(), 0) in l.Vnodes(s.table.LocalId());
      OffOwnRing(l, Do(l, s, st));
    }
  }

  lemma {:induction false} SeedReplyKeepsLocal(t: Table, addrs: seq<SiloAddress>)
    ensures OverwriteAll(t, addrs).localAddr == t.localAddr
  {
    if addrs != [] {
      SeedReplyKeepsLocal(t, addrs[..|addrs| - 1]);
    }
  }

  function RunSteps(l: Layout, s: Silo, steps: seq<MemberStep>): Silo {
    if steps == [] then s else Do(l, RunSteps(l, s, steps[..|steps| - 1]), steps[|steps| - 1])
  }

  predicate AllAllowed(l: Layout, s: Silo, steps: seq<MemberStep>) {
    steps == [] || (AllAllowed(l, s, steps[..|steps| - 1])
                    && Allowed(RunSteps(l, s, steps[..|steps| - 1]), steps[|steps| - 1]))
  }

  function AllNamed(steps: seq<MemberStep>): set<string> {
    if steps == [] then {} else AllNamed(steps[..|steps| - 1]) + Named(steps[|steps| - 1])
  }

  function Fresh(l: Layout, local: SiloAddress): Silo {
    Silo(NewTable(local), l.Add(map[], local))
  }

  /** In every run of allowed steps from a fresh silo the ring's silo ids are the
      member-table ids plus the local id. */
  lemma {:induction false} RingMatchesTable(l: Layout, local: SiloAddress, steps: seq<MemberStep>)
    requires l.virtualNodes >= 1
    requires l.CollisionFree({local.siloId} + AllNamed(steps))
    requires AllAllowed(l, Fresh(l, local), steps)
    ensures var s := RunSteps(l, Fresh(l, local), steps);
            && Agrees(l, s)
            && s.table.localAddr == local
            && Live(s.table) <= {local.siloId} + AllNamed(steps)
            && SiloIds(s.ring) == s.table.members.Keys + {local.siloId}
  {
    var s := RunSteps(l, Fresh(l, local), steps);
    if steps == [] {
      FreshAgrees(l, local);
    } else {
      var init, st := steps[..|steps| - 1], steps[|steps| - 1];
      RingMatchesTable(l, local, init);
      StepAgrees(l, RunSteps(l, Fresh(l, local), init), st);
    }
    HoldsSiloIds(l, s.ring, Live(s.table));
  }

  lemma FreshAgrees(l: Layout, local: SiloAddress)
    ensures Agrees(l, Fresh(l, local)) && Live(Fresh(l, local).table) == {local.siloId}
  {
    HoldsAdd(l, map[], {}, local);
    assert {} + {local.siloId} == {local.siloId} == Live(Fresh(l, local).table);
  }

  /** Ring and table agree after every step of a run exactly when every step is allowed. */
  lemma {:induction false} RingMatchesTableIff(l: Layout, local: SiloAddress, steps: seq<MemberStep>)
    requires l.virtualNodes >= 1 && l.CollisionFree({local.siloId} + AllNamed(steps))
    ensures AgreesThroughout(l, Fresh(l, local), steps) <==> AllAllowed(l, Fresh(l, local), steps)
  {
    var s := Fresh(l, local);
    if steps == [] {
      RingMatchesTable(l, local, steps);
    } else {
      var init, st := steps[..|steps| - 1], steps[|steps| - 1];
      RingMatchesTableIff(l, local, init);
      if AllAllowed(l, s, init) {
        RingMatchesTable(l, local, init);
        StepAgreesIff(l, RunSteps(l, s, init), st);
      }
    }
  }

  /** Ring and table agree at the start and after every step. */
  ghost predicate AgreesThroughout(l: Layout, s: Silo, steps: seq<MemberStep>) {
    && (steps != [] ==> AgreesThroughout(l, s, steps[..|steps| - 1]))
    && Agrees(l, RunSteps(l, s, steps))
  }

  /** The disallowed steps are real: `notify_leave` has no guard for the local silo, passes
      its check, and takes the silo off its own ring. */
  lemma NotifyLeaveOfSelfEmptiesRing(l: Layout, local: SiloAddress)
    requires l.virtualNodes >= 1
    ensures local.siloId in SiloIds(Fresh(l, local).ring)
    ensures var s := Do(l, Fresh(l, local), NotifyLeaveRpc(local));
            s.ring == map[] && Live(s.table) == {local.siloId} && !Agrees(l, s)
  {
    var s := Fresh(l, local);
    var p := l.VnodeKey(local.siloId, 0);
    assert p in l.Vnodes(local.siloId) && s.ring[p].siloId == local.siloId;
    assert Do(l, s, NotifyLeaveRpc(local)).ring == map[];
    OffOwnRing(l, Do(l, s, NotifyLeaveRpc(local)));
  }

  // --- Which steps lower a recorded incarnation ---

  /** The step overwrites the record of `x` with a smaller incarnation: an overwrite by
      `notify_join` or by a seed's answer, or a batch that readmits `x` after burying it
      and does not raise it as far again. */
  predicate OverwritesLower(t: Table, st: MemberStep, x: string)
    requires x in t.members
  {
    && t.members[x].incarnation > 0
    && match st
       case NotifyJoinRpc(a) => a.siloId == x
       case SeedReply(addrs) => x in IdsOf(addrs) && x != t.LocalId()
       case GossipBatch(us, _) =>
         && x != t.LocalId()
         && var tr := FollowAll(StandingOf(t, x), us, x);
            tr.admitted && tr.standing.There? && tr.standing.incarnation < t.members[x].incarnation
       case _ => false
  }

  /** A batch that does not readmit a silo never lowers its record. */
  lemma {:induction false} WithoutReadmissionOnlyRises(start: Standing, us: seq<GossipUpdate>, x: string)
    requires start.There?
    ensures var tr := FollowAll(start, us, x);
            !tr.admitted && tr.standing.There? ==> start.incarnation <= tr.standing.incarnation
    ensures var tr := FollowAll(start, us, x);
            tr.admitted || tr.standing.Gone? ==>
              exists i :: 0 <= i < |us| && us[i].DeadUpdate? && us[i].addr.siloId == x
                          && us[i].incarnation >= start.incarnation
  {
    if us != [] {
      var init, u := us[..|us| - 1], us[|us| - 1];
      WithoutReadmissionOnlyRises(start, init, x);
      var tr := FollowAll(start, init, x);
      if tr.admitted || tr.standing.Gone? {
        var i :| 0 <= i < |init| && init[i].DeadUpdate? && init[i].addr.siloId == x
                 && init[i].incarnation >= start.incarnation;
        assert us[i] == init[i];
      }
    }
  }

  lemma {:induction false} SeedReplyRecords(t: Table, addrs: seq<SiloAddress>, x: string)
    ensures var t' := OverwriteAll(t, addrs);
            && (x in IdsOf(addrs) && x != t.LocalId() ==> x in t'.members && t'.members[x].incarnation == 0)
            && (x !in IdsOf(addrs) || x == t.LocalId() ==>
                  (x in t'.members <==> x in t.members) && (x in t.members ==> t'.members[x] == t.members[x]))
  {
    if addrs != [] {
      var init, a := addrs[..|addrs| - 1], addrs[|addrs| - 1];
      SeedReplyRecords(t, init, x);
      assert forall b :: b in addrs <==> b in init || b == a;
      assert IdsOf(addrs) == IdsOf(init) + {a.siloId};
    }
  }

  lemma {:induction false} BatchIgnoresLocal(t: Table, us: seq<GossipUpdate>, clock: Clock)
    ensures StandingOf(ApplyAll(t, us, clock), t.LocalId()) == StandingOf(t, t.LocalId())
  {
    if us != [] {
      BatchIgnoresLocal(t, us[..|us| - 1], clock);
      ApplyAllKeepsLocal(t, us[..|us| - 1], clock);
    }
  }

  /** For every step: the record of a member that stays in the table falls exactly when
      the step overwrites it lower. */
  lemma RecordFallsIff(l: Layout, s: Silo, st: MemberStep, x: string)
    requires x in s.table.members && x in Do(l, s, st).table.members
    ensures Do(l, s, st).table.members[x].incarnation < s.table.members[x].incarnation
            <==> OverwritesLower(s.table, st, x)
  {
    match st
    case GossipBatch(us, clock) =>
      if x == s.table.LocalId() {
        BatchIgnoresLocal(s.table, us, clock);
      } else {
        FollowsTable(s.table, us, clock, x);
        WithoutReadmissionOnlyRises(StandingOf(s.table, x), us, x);
      }
    case SeedReply(addrs) =>
      SeedReplyRecords(s.table, addrs, x);
    case _ =>
  }

  // --- The check that `notify_join` makes before it takes the lock ---

  lemma {:induction false} PrefixAllowed(l: Layout, s: Silo, steps: seq<MemberStep>, i: nat)
    requires i <= |steps| && AllAllowed(l, s, steps)
    ensures AllAllowed(l, s, steps[..i]) && AllNamed(steps[..i]) <= AllNamed(steps)
    decreases |steps|
  {
    if i == |steps| {
      assert steps[..i] == steps;
    } else {
      var init := steps[..|steps| - 1];
      PrefixAllowed(l, s, init, i);
      assert init[..i] == steps[..i];
    }
  }

  /** Between a point where something does not hold and one where it does, it starts. */
  lemma {:induction false} StartsBetween(holds: seq<bool>, i: nat, k: nat) returns (m: nat)
    requires i <= k < |holds| && !holds[i] && holds[k]
    ensures i <= m < k && !holds[m] && holds[m + 1]
    decreases k - i
  {
    if holds[i + 1] {
      m := i;
    } else {
      m := StartsBetween(holds, i + 1, k);
    }
  }

  /** `x` is recorded after the first `j` steps. */
  predicate RecordedAt(l: Layout, s: Silo, steps: seq<MemberStep>, j: nat, x: string) {
    j <= |steps| && x in RunSteps(l, s, steps[..j]).table.members
  }

  /** Whether `x` is recorded, point by point. */
  function Recorded(l: Layout, s: Silo, steps: seq<MemberStep>, n: nat, x: string): (r: seq<bool>)
    ensures |r| == n && forall j :: 0 <= j < n ==> r[j] == RecordedAt(l, s, steps, j, x)
  {
    if n == 0 then [] else Recorded(l, s, steps, n - 1, x) + [RecordedAt(l, s, steps, n - 1, x)]
  }

  lemma RecordStartsBetween(l: Layout, s: Silo, steps: seq<MemberStep>, i: nat, k: nat, x: string) returns (m: nat)
    requires i <= k && !RecordedAt(l, s, steps, i, x) && RecordedAt(l, s, steps, k, x)
    ensures i <= m < k && !RecordedAt(l, s, steps, m, x) && RecordedAt(l, s, steps, m + 1, x)
  {
    m := StartsBetween(Recorded(l, s, steps, k + 1, x), i, k);
  }

  lemma OffRingIsUnrecorded(l: Layout, local: SiloAddress, steps: seq<MemberStep>, i: nat, x: string)
    requires l.virtualNodes >= 1 && l.CollisionFree({local.siloId} + AllNamed(steps))
    requires AllAllowed(l, Fresh(l, local), steps) && i <= |steps|
    requires x !in SiloIds(RunSteps(l, Fresh(l, local), steps[..i]).ring)
    ensures !RecordedAt(l, Fresh(l, local), steps, i, x)
  {
    PrefixAllowed(l, Fresh(l, local), steps, i);
    RingMatchesTable(l, local, steps[..i]);
  }

  /** In every run: if `notify_join` saw its silo off the ring at point `i` and its insert
      at point `k` finds a record, some step in between admitted that silo.  With check
      and insert in one piece it could not overwrite anything. */
  lemma NotifyJoinOverwritesOnlyAfterRace(
      l: Layout, local: SiloAddress, steps: seq<MemberStep>, i: nat, k: nat, a: SiloAddress) returns (m: nat)
    requires l.virtualNodes >= 1 && l.CollisionFree({local.siloId} + AllNamed(steps))
    requires AllAllowed(l, Fresh(l, local), steps) && i <= k < |steps| && steps[k] == NotifyJoinRpc(a)
    requires a.siloId !in SiloIds(RunSteps(l, Fresh(l, local), steps[..i]).ring)
    requires RecordedAt(l, Fresh(l, local), steps, k, a.siloId)
    ensures i <= m < k
    ensures !RecordedAt(l, Fresh(l, local), steps, m, a.siloId)
    ensures RecordedAt(l, Fresh(l, local), steps, m + 1, a.siloId)
  {
    OffRingIsUnrecorded(l, local, steps, i, a.siloId);
    m := RecordStartsBetween(l, Fresh(l, local), steps, i, k, a.siloId);
  }

  /** Such a run: the check sees `x` off the ring, a batch admits `x` at incarnation 1,
      and the insert resets it to 0. */
  lemma NotifyJoinRaceLowersRecord(l: Layout, local: SiloAddress, x: SiloAddress, clock: Clock)
      returns (steps: seq<MemberStep>)
    requires x.siloId != local.siloId
    ensures steps == [GossipBatch([JoinUpdate(x), AliveUpdate(x, 1)], clock), NotifyJoinRpc(x)]
    ensures x.siloId !in SiloIds(RunSteps(l, Fresh(l, local), steps[..0]).ring)
    ensures AllAllowed(l, Fresh(l, local), steps)
    ensures var before := RunSteps(l, Fresh(l, local), steps[..1]).table;
            var after := RunSteps(l, Fresh(l, local), steps).table;
            && x.siloId in before.members && before.members[x.siloId].incarnation == 1
            && x.siloId in after.members && after.members[x.siloId].incarnation == 0
  {
    var us := [JoinUpdate(x), AliveUpdate(x, 1)];
    steps := [GossipBatch(us, clock), NotifyJoinRpc(x)];
    var s := Fresh(l, local);
    assert steps[..0] == [] && steps[..1] == [GossipBatch(us, clock)] && steps[..1][..0] == [];
    assert us[..1] == [JoinUpdate(x)] && us[..1][..0] == [];
    assert ApplyAll(s.table, us[..1], clock) == ApplyUpdate(s.table, JoinUpdate(x), clock(0));
    assert ApplyAll(s.table, us, clock).members.Keys == {x.siloId};
    AddsAreNamed(s.table, us, clock);
    assert !BuriesItsOwnJoin(s.table, us, clock) by {
      forall a | a in Adds(s.table, us, clock)
        ensures a.siloId in ApplyAll(s.table, us, clock).members
      {
        assert a.siloId in IdsOf(Adds(s.table, us, clock)) && forall u :: u in us ==> u.addr.siloId == x.siloId;
      }
    }
    var first := [GossipBatch(us, clock)];
    assert first[..|first| - 1] == [] && AllAllowed(l, s, []) && RunSteps(l, s, []) == s;
    assert AllAllowed(l, s, first) && RunSteps(l, s, first) == AfterGossip(l, s, us, clock);
  }

  // --- The gap between the scan for expired suspects and their burial ---

  /** The lock is free between scan and burial, and the burial does not look again: after
      every run in between, a silo that is recorded survives the burial exactly when it was
      not an expired suspect at the scan, whatever has become of it since. */
  lemma SurvivesBurialIff(l: Layout, s: Silo, ids: seq<string>, now: nat, suspectTimeout: nat,
                          steps: seq<MemberStep>, x: string)
    requires ListsExpired(s.table.members, now, suspectTimeout, ids)
    requires x in RunSteps(l, s, steps).table.members
    ensures x in AfterDeaths(l, RunSteps(l, s, steps), ids).table.members
            <==> !(x in s.table.members && Expired(s.table.members[x], now, suspectTimeout))
  {
    DeathsLeaveTheOthers(l, RunSteps(l, s, steps), ids);
  }

  lemma TwoSteps(l: Layout, s: Silo, st1: MemberStep, st2: MemberStep)
    ensures RunSteps(l, s, [st1, st2]) == Do(l, Do(l, s, st1), st2)
  {
    var steps, first := [st1, st2], [st1];
    assert steps[..|steps| - 1] == first && first[..|first| - 1] == [];
    assert RunSteps(l, s, first) == Do(l, s, st1);
  }

  lemma SuspectedJoiner(local: SiloAddress, x: SiloAddress, since: nat)
    ensures var t := Suspected(Admit(NewTable(local), x), x.siloId, since);
            t.localAddr == local && t.members == map[x.siloId := SwimMember(x, Suspect(since, local.siloId), 0)]
  {
    assert Admit(NewTable(local), x).members == map[x.siloId := NewMember(x)];
  }

  lemma JoinedAndSuspected(l: Layout, local: SiloAddress, x: SiloAddress, since: nat)
    requires x.siloId != local.siloId
    ensures var t := RunSteps(l, Fresh(l, local), [JoinRpc(x), SuspectStep(x.siloId, since)]).table;
            t.localAddr == local && t.members == map[x.siloId := SwimMember(x, Suspect(since, local.siloId), 0)]
  {
    TwoSteps(l, Fresh(l, local), JoinRpc(x), SuspectStep(x.siloId, since));
    SuspectedJoiner(local, x, since);
  }

  lemma OneRumour(l: Layout, s: Silo, u: GossipUpdate, clock: Clock)
    ensures RunSteps(l, s, [GossipBatch([u], clock)]).table == ApplyUpdate(s.table, u, clock(0))
  {
    var us, batch := [u], [GossipBatch([u], clock)];
    assert us[..|us| - 1] == [] && batch[..|batch| - 1] == [];
    assert RunSteps(l, s, batch) == AfterGossip(l, s, us, clock);
  }

  /** So a refutation in between is in vain.  From a fresh silo: `x` joins, is suspected,
      expires, is scanned, refutes at incarnation 1, is Alive, and is buried. */
  lemma RefutationAfterScanIsInVain(l: Layout, local: SiloAddress, x: SiloAddress,
                                    since: nat, now: nat, suspectTimeout: nat, clock: Clock)
    requires x.siloId != local.siloId && now - since > suspectTimeout
    ensures var s := RunSteps(l, Fresh(l, local), [JoinRpc(x), SuspectStep(x.siloId, since)]);
            var s' := RunSteps(l, s, [GossipBatch([AliveUpdate(x, 1)], clock)]);
            && ListsExpired(s.table.members, now, suspectTimeout, [x.siloId])
            && x.siloId in s'.table.members && s'.table.members[x.siloId] == SwimMember(x, Alive, 1)
            && x.siloId !in AfterDeaths(l, s', [x.siloId]).table.members
  {
    var s := RunSteps(l, Fresh(l, local), [JoinRpc(x), SuspectStep(x.siloId, since)]);
    JoinedAndSuspected(l, local, x, since);
    OneRumour(l, s, AliveUpdate(x, 1), clock);
    SurvivesBurialIff(l, s, [x.siloId], now, suspectTimeout, [GossipBatch([AliveUpdate(x, 1)], clock)], x.siloId);
  }

  // --- Where suspicions come from, and what becomes of them ---

  /** The step makes `x` a suspect at the given time. */
  ghost predicate Raises(t: Table, st: MemberStep, x: string, status: MemberStatus) {
    match st
    case SuspectStep(id, now) => id == x && status == Suspect(now, t.LocalId())
    case GossipBatch(us, clock) => Reported(us, clock, x, status)
    case _ => false
  }

  ghost predicate Reported(us: seq<GossipUpdate>, clock: Clock, x: string, status: MemberStatus) {
    exists i: nat :: i < |us| && us[i].SuspectUpdate? && us[i].addr.siloId == x
                     && status == Suspect(clock(i), us[i].reportedBy)
  }

  /** The step ends any suspicion of `x`: an answered ping, or an overwritten record. */
  predicate Clears(t: Table, st: MemberStep, x: string) {
    match st
    case PingOkStep(id) => id == x
    case NotifyJoinRpc(a) => a.siloId == x
    case SeedReply(addrs) => x in IdsOf(addrs) && x != t.LocalId()
    case _ => false
  }

  predicate IsSuspect(t: Table, x: string, status: MemberStatus) {
    x in t.members && t.members[x].status == status && status.Suspect?
  }

  lemma {:induction false} BatchSuspicion(
      t: Table, us: seq<GossipUpdate>, clock: Clock, x: string, status: MemberStatus)
    requires IsSuspect(ApplyAll(t, us, clock), x, status)
    ensures IsSuspect(t, x, status) || Reported(us, clock, x, status)
  {
    if us != [] {
      var init, n := us[..|us| - 1], |us| - 1;
      if IsSuspect(ApplyAll(t, init, clock), x, status) {
        BatchSuspicion(t, init, clock, x, status);
        if Reported(init, clock, x, status) {
          var i: nat :| i < |init| && init[i].SuspectUpdate? && init[i].addr.siloId == x
                        && status == Suspect(clock(i), init[i].reportedBy);
          assert us[i] == init[i];
        }
      } else {
        assert us[n].SuspectUpdate? && us[n].addr.siloId == x && status == Suspect(clock(n), us[n].reportedBy);
      }
    }
  }

  lemma {:induction false} SeedReplySuspicion(t: Table, addrs: seq<SiloAddress>, x: string, status: MemberStatus)
    requires IsSuspect(OverwriteAll(t, addrs), x, status)
    ensures IsSuspect(t, x, status) && !(x in IdsOf(addrs) && x != t.LocalId())
  {
    if addrs != [] {
      var init, a := addrs[..|addrs| - 1], addrs[|addrs| - 1];
      SeedReplySuspicion(t, init, x, status);
      assert forall b :: b in addrs <==> b in init || b == a;
      assert IdsOf(addrs) == IdsOf(init) + {a.siloId};
    }
  }

  /** A suspicion found after a step was raised by it, or was there before and not cleared. */
  lemma StepSuspicion(l: Layout, s: Silo, st: MemberStep, x: string, status: MemberStatus)
    requires IsSuspect(Do(l, s, st).table, x, status)
    ensures Raises(s.table, st, x, status) || (IsSuspect(s.table, x, status) && !Clears(s.table, st, x))
  {
    match st
    case GossipBatch(us, clock) => BatchSuspicion(s.table, us, clock, x, status);
    case SeedReply(addrs) => SeedReplySuspicion(s.table, addrs, x, status);
    case _ =>
  }

  /** Step `k` of the run raises the suspicion. */
  ghost predicate RaisedAt(l: Layout, s: Silo, steps: seq<MemberStep>, k: nat, x: string, status: MemberStatus) {
    k < |steps| && Raises(RunSteps(l, s, steps[..k]).table, steps[k], x, status)
  }

  predicate ClearedAt(l: Layout, s: Silo, steps: seq<MemberStep>, k: nat, x: string) {
    k < |steps| && Clears(RunSteps(l, s, steps[..k]).table, steps[k], x)
  }

  lemma PrefixSays(l: Layout, s: Silo, steps: seq<MemberStep>, k: nat, x: string, status: MemberStatus)
    requires k < |steps| - 1
    ensures RaisedAt(l, s, steps[..|steps| - 1], k, x, status) <==> RaisedAt(l, s, steps, k, x, status)
    ensures ClearedAt(l, s, steps[..|steps| - 1], k, x) <==> ClearedAt(l, s, steps, k, x)
  {
    assert steps[..|steps| - 1][..k] == steps[..k];
  }

  /** In every run from a fresh silo, a suspicion was raised by some step at the time it
      carries, and nothing after that step cleared it: no answered ping, no overwritten
      record. */
  lemma {:induction false} SuspicionHasCause(
      l: Layout, local: SiloAddress, steps: seq<MemberStep>, x: string, status: MemberStatus) returns (k: nat)
    requires IsSuspect(RunSteps(l, Fresh(l, local), steps).table, x, status)
    ensures RaisedAt(l, Fresh(l, local), steps, k, x, status)
    ensures forall m: nat :: m > k ==> !ClearedAt(l, Fresh(l, local), steps, m, x)
  {
    var init, n := steps[..|steps| - 1], |steps| - 1;
    var s0 := Fresh(l, local);
    StepSuspicion(l, RunSteps(l, s0, init), steps[n], x, status);
    if RaisedAt(l, s0, steps, n, x, status) {
      k := n;
    } else {
      k := SuspicionHasCause(l, local, init, x, status);
      PrefixSays(l, s0, steps, k, x, status);
      forall m: nat | m > k
        ensures !ClearedAt(l, s0, steps, m, x)
      {
        if m < n {
          PrefixSays(l, s0, steps, m, x, status);
        }
      }
    }
  }

  /** So a scan lists a silo only if some step suspected it more than the timeout ago, and
      it has answered no ping since. */
  lemma ScanFindsOldSuspicion(l: Layout, local: SiloAddress, steps: seq<MemberStep>,
                              now: nat, suspectTimeout: nat, ids: seq<string>, x: string)
      returns (k: nat, since: nat, reporter: string)
    requires ListsExpired(RunSteps(l, Fresh(l, local), steps).table.members, now, suspectTimeout, ids) && x in ids
    ensures now - since > suspectTimeout && RaisedAt(l, Fresh(l, local), steps, k, x, Suspect(since, reporter))
    ensures forall m: nat :: m > k ==> !ClearedAt(l, Fresh(l, local), steps, m, x)
  {
    var status := RunSteps(l, Fresh(l, local), steps).table.members[x].status;
    since, reporter := status.since, status.reportedBy;
    k := SuspicionHasCause(l, local, steps, x, status);
  }

  /** A record that no step names stays as it is. */
  lemma UnnamedStays(l: Layout, s: Silo, st: MemberStep, x: string)
    requires x in s.table.members && x !in Named(st)
    ensures x in Do(l, s, st).table.members && Do(l, s, st).table.members[x] == s.table.members[x]
  {
    match st
    case GossipBatch(us, clock) => UnnamedInBatch(s.table, us, clock, x);
    case SeedReply(addrs) => SeedReplyRecords(s.table, addrs, x);
    case _ =>
  }

  lemma {:induction false} UnnamedInBatch(t: Table, us: seq<GossipUpdate>, clock: Clock, x: string)
    requires x in t.members && x !in IdsNamed(us)
    ensures x in ApplyAll(t, us, clock).members && ApplyAll(t, us, clock).members[x] == t.members[x]
  {
    if us != [] {
      var init, u := us[..|us| - 1], us[|us| - 1];
      assert u in us && forall v :: v in init ==> v in us;
      UnnamedInBatch(t, init, clock, x);
    }
  }

  lemma {:induction false} UnnamedStaysThroughout(l: Layout, s: Silo, steps: seq<MemberStep>, x: string)
    requires x in s.table.members && x !in AllNamed(steps)
    ensures x in RunSteps(l, s, steps).table.members
    ensures RunSteps(l, s, steps).table.members[x] == s.table.members[x]
  {
    if steps != [] {
      UnnamedStaysThroughout(l, s, steps[..|steps| - 1], x);
      UnnamedStays(l, RunSteps(l, s, steps[..|steps| - 1]), steps[|steps| - 1], x);
    }
  }

  /** A member that fails a ping and is not heard of again is buried by the first scan past
      the timeout, whatever else happens in between; its death is then in the gossip queue
      if it is buried last. */
  lemma SilentMemberIsBuried(l: Layout, s: Silo, x: string, since: nat, quiet: seq<MemberStep>,
                             now: nat, suspectTimeout: nat, ids: seq<string>)
    requires x in s.table.members && s.table.members[x].status == Alive && x !in AllNamed(quiet)
    requires now - since > suspectTimeout
    requires ListsExpired(RunSteps(l, Do(l, s, SuspectStep(x, since)), quiet).table.members, now, suspectTimeout, ids)
    ensures var s' := RunSteps(l, Do(l, s, SuspectStep(x, since)), quiet);
            && x in ids
            && x !in AfterDeaths(l, s', ids).table.members
            && (ids[|ids| - 1] == x ==>
                  DeadUpdate(s.table.members[x].addr, s.table.members[x].incarnation)
                  in AfterDeaths(l, s', ids).table.pending)
  {
    var s1 := Do(l, s, SuspectStep(x, since));
    UnnamedStaysThroughout(l, s1, quiet, x);
    var s' := RunSteps(l, s1, quiet);
    DeathsLeaveTheOthers(l, s', ids);
    if ids[|ids| - 1] == x {
      var init := ids[..|ids| - 1];
      DeathsLeaveTheOthers(l, s', init);
      assert x !in init;
      var u := DeadUpdate(s.table.members[x].addr, s.table.members[x].incarnation);
      assert u in Bury(AfterDeaths(l, s', init).table, x).pending;
    }
  }

  /** Two silos whose runs end with the same live ids place every grain alike. */
  lemma {:induction false} ConvergedSilosRouteAlike(
      l: Layout, local1: SiloAddress, steps1: seq<MemberStep>,
      local2: SiloAddress, steps2: seq<MemberStep>, grainKey: string)
    requires l.virtualNodes >= 1
    requires l.CollisionFree({local1.siloId} + AllNamed(steps1))
    requires l.CollisionFree({local2.siloId} + AllNamed(steps2))
    requires AllAllowed(l, Fresh(l, local1), steps1) && AllAllowed(l, Fresh(l, local2), steps2)
    requires Live(RunSteps(l, Fresh(l, local1), steps1).table)
             == Live(RunSteps(l, Fresh(l, local2), steps2).table)
    ensures var g1 := Get(RunSteps(l, Fresh(l, local1), steps1).ring, l.hash(grainKey));
            var g2 := Get(RunSteps(l, Fresh(l, local2), steps2).ring, l.hash(grainKey));
            g1.Some? && g2.Some? && g1.value.siloId == g2.value.siloId
  {
    RingMatchesTable(l, local1, steps1);
    RingMatchesTable(l, local2, steps2);
    var s1, s2 := RunSteps(l, Fresh(l, local1), steps1), RunSteps(l, Fresh(l, local2), steps2);
    SameIdsRouteAlike(l, s1.ring, s2.ring, Live(s1.table), l.hash(grainKey));
    assert local1.siloId in SiloIds(s1.ring);
  }
}
