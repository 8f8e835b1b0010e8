/** One silo's SWIM state (`SwimState`): member table, own incarnation, bounded
    gossip queue, and the ring published next to it.  The functions give each
    operation's effect on a value; the class at the end performs them in place. */
module SwimSilo {
  import opened Rings

  const MAX_PENDING_GOSSIP: nat := 1024

  datatype MemberStatus = Alive | Suspect(since: nat, reportedBy: string)

  datatype SwimMember = SwimMember(addr: SiloAddress, status: MemberStatus, incarnation: nat)

  datatype GossipUpdate =
    | AliveUpdate(addr: SiloAddress, incarnation: nat)
    | SuspectUpdate(addr: SiloAddress, incarnation: nat, reportedBy: string)
    | DeadUpdate(addr: SiloAddress, incarnation: nat)
    | JoinUpdate(addr: SiloAddress)

  /** `SwimState`. */
  datatype Table = Table(
    localAddr: SiloAddress,
    incarnation: nat,
    members: map<string, SwimMember>,
    pending: seq<GossipUpdate>)
  {
    function LocalId(): string {
      localAddr.siloId
    }
  }

  /** `SwimState` together with the ring guarded by the same lock. */
  datatype Silo = Silo(table: Table, ring: Ring)

  /** Clock readings while a batch is processed, by index in the batch. */
  type Clock = nat -> nat

  function NewTable(local: SiloAddress): Table {
    Table(local, 0, map[], [])
  }

  function NewMember(addr: SiloAddress): SwimMember {
    SwimMember(addr, Alive, 0)
  }

  // --- Gossip queue ---

  /** The bounded queue after `enqueue_gossip`: the oldest entry gives way. */
  function Enqueue(pending: seq<GossipUpdate>, u: GossipUpdate): seq<GossipUpdate> {
    (if |pending| >= MAX_PENDING_GOSSIP then pending[1..] else pending) + [u]
  }

  function EnqueueAll(pending: seq<GossipUpdate>, us: seq<GossipUpdate>): seq<GossipUpdate> {
    if us == [] then pending
    else Enqueue(EnqueueAll(pending, us[..|us| - 1]), us[|us| - 1])
  }

  /** The queue holds the newest `MAX_PENDING_GOSSIP` of everything enqueued. */
  lemma {:induction false} QueueKeepsNewest(pending: seq<GossipUpdate>, us: seq<GossipUpdate>)
    requires |pending| <= MAX_PENDING_GOSSIP
    ensures var all := pending + us;
            EnqueueAll(pending, us)
            == if |all| <= MAX_PENDING_GOSSIP then all else all[|all| - MAX_PENDING_GOSSIP..]
  {
    if us == [] {
      assert pending + us == pending;
    } else {
      var init := us[..|us| - 1];
      QueueKeepsNewest(pending, init);
      assert pending + us == (pending + init) + [us[|us| - 1]];
    }
  }

  function DrainCount(t: Table, n: nat): nat {
    if n < |t.pending| then n else |t.pending|
  }

  function Drained(t: Table, n: nat): seq<GossipUpdate> {
    t.pending[..DrainCount(t, n)]
  }

  function AfterDrain(t: Table, n: nat): Table {
    t.(pending := t.pending[DrainCount(t, n)..])
  }

  function DrainedAll(t: Table, ns: seq<nat>): seq<GossipUpdate> {
    if ns == [] then [] else DrainedAll(t, ns[..|ns| - 1]) + Drained(AfterDrains(t, ns[..|ns| - 1]), ns[|ns| - 1])
  }

  function AfterDrains(t: Table, ns: seq<nat>): Table {
    if ns == [] then t else AfterDrain(AfterDrains(t, ns[..|ns| - 1]), ns[|ns| - 1])
  }

  /** Draining hands out every queued rumour once, in order: what was handed out and what
      is left are the queue as it was. */
  lemma {:induction false} DrainsConserveQueue(t: Table, ns: seq<nat>)
    ensures DrainedAll(t, ns) + AfterDrains(t, ns).pending == t.pending
    ensures AfterDrains(t, ns) == t.(pending := AfterDrains(t, ns).pending)
  {
    if ns == [] {
      assert [] + t.pending == t.pending;
    } else {
      var init, n := ns[..|ns| - 1], ns[|ns| - 1];
      DrainsConserveQueue(t, init);
      var rest := AfterDrains(t, init);
      DrainSplitsQueue(rest, n);
      SeqAssociative(DrainedAll(t, init), Drained(rest, n), AfterDrain(rest, n).pending);
    }
  }

  lemma DrainSplitsQueue(t: Table, n: nat)
    ensures Drained(t, n) + AfterDrain(t, n).pending == t.pending
  {
  }

  lemma SeqAssociative<T>(a: seq<T>, b: seq<T>, c: seq<T>)
    ensures (a + b) + c == a + (b + c)
  {
  }

  // --- One gossip update ---

  /** The update names a member this table records (and is not about itself). */
  predicate About(t: Table, u: GossipUpdate) {
    u.addr.siloId != t.LocalId() && u.addr.siloId in t.members
  }

  /** One pass of the `apply_gossip` loop, on the table. */
  function ApplyUpdate(t: Table, u: GossipUpdate, now: nat): Table {
    var id := u.addr.siloId;
    match u
    case AliveUpdate(_, inc) =>
      if About(t, u) && inc > t.members[id].incarnation then
        t.(members := t.members[id := t.members[id].(incarnation := inc, status := Alive)])
      else t
    case SuspectUpdate(_, inc, reporter) =>
      if id == t.LocalId() then
        if inc >= t.incarnation then
          t.(incarnation := inc + 1, pending := Enqueue(t.pending, AliveUpdate(t.localAddr, inc + 1)))
        else t
      else if About(t, u) && inc >= t.members[id].incarnation && t.members[id].status == Alive then
        t.(members := t.members[id := t.members[id].(status := Suspect(now, reporter), incarnation := inc)])
      else t
    case DeadUpdate(_, inc) =>
      if About(t, u) && inc >= t.members[id].incarnation then t.(members := t.members - {id}) else t
    case JoinUpdate(addr) =>
      if id != t.LocalId() && id !in t.members then
        t.(members := t.members[id := NewMember(addr)])
      else t
  }

  predicate Kills(t: Table, u: GossipUpdate) {
    u.DeadUpdate? && About(t, u) && u.incarnation >= t.members[u.addr.siloId].incarnation
  }

  predicate Admits(t: Table, u: GossipUpdate) {
    u.JoinUpdate? && u.addr.siloId != t.LocalId() && u.addr.siloId !in t.members
  }

  // --- A batch of updates ---

  function ApplyAll(t: Table, us: seq<GossipUpdate>, clock: Clock): Table {
    if us == [] then t
    else ApplyUpdate(ApplyAll(t, us[..|us| - 1], clock), us[|us| - 1], clock(|us| - 1))
  }

  /** `ring_adds` at the end of the loop. */
  function Adds(t: Table, us: seq<GossipUpdate>, clock: Clock): seq<SiloAddress> {
    if us == [] then []
    else
      var init, u := us[..|us| - 1], us[|us| - 1];
      Adds(t, init, clock) + if Admits(ApplyAll(t, init, clock), u) then [u.addr] else []
  }

  /** `ring_removes` at the end of the loop. */
  function Removes(t: Table, us: seq<GossipUpdate>, clock: Clock): seq<SiloAddress> {
    if us == [] then []
    else
      var init, u := us[..|us| - 1], us[|us| - 1];
      Removes(t, init, clock) + if Kills(ApplyAll(t, init, clock), u) then [u.addr] else []
  }

  /** `apply_gossip`: the table one update at a time, the ring in one batch of
      removals followed by additions. */
  function AfterGossip(l: Layout, s: Silo, us: seq<GossipUpdate>, clock: Clock): Silo {
    Silo(ApplyAll(s.table, us, clock),
         l.AddAll(l.RemoveAll(s.ring, Removes(s.table, us, clock)), Adds(s.table, us, clock)))
  }

  // --- Failure detector transitions ---

  /** `suspect_member`. */
  function Suspected(t: Table, id: string, now: nat): Table {
    if id in t.members && t.members[id].status == Alive then
      var m := t.members[id];
      t.(members := t.members[id := m.(status := Suspect(now, t.LocalId()))],
         pending := Enqueue(t.pending, SuspectUpdate(m.addr, m.incarnation, t.LocalId())))
    else t
  }

  /** A direct or indirect ping succeeded. */
  function MarkAlive(t: Table, id: string): Table {
    if id in t.members then t.(members := t.members[id := t.members[id].(status := Alive)]) else t
  }

  /** `declare_dead`, on the table. */
  function Bury(t: Table, id: string): Table {
    if id in t.members then
      t.(members := t.members - {id},
         pending := Enqueue(t.pending, DeadUpdate(t.members[id].addr, t.members[id].incarnation)))
    else t
  }

  /** A burial leaves a rumour that buries the silo wherever it is recorded no higher. */
  lemma DeathSpreads(t: Table, id: string, r: Table, now: nat)
    requires id in t.members && t.members[id].addr.siloId == id
    requires id in r.members && id != r.LocalId() && r.members[id].incarnation <= t.members[id].incarnation
    ensures exists u :: u in Bury(t, id).pending && id !in ApplyUpdate(r, u, now).members
  {
    var u := DeadUpdate(t.members[id].addr, t.members[id].incarnation);
    assert u in Bury(t, id).pending;
  }

  /** `declare_dead`. */
  function AfterDeath(l: Layout, s: Silo, id: string): Silo {
    Silo(Bury(s.table, id),
         if id in s.table.members then l.Remove(s.ring, s.table.members[id].addr.siloId) else s.ring)
  }

  // --- Membership RPCs ---

  /** `join`, on the table. */
  function Admit(t: Table, addr: SiloAddress): Table {
    if addr.siloId in t.members then t
    else t.(members := t.members[addr.siloId := NewMember(addr)],
            pending := Enqueue(t.pending, JoinUpdate(addr)))
  }

  function AfterJoin(l: Layout, s: Silo, addr: SiloAddress): Silo {
    Silo(Admit(s.table, addr), l.Add(s.ring, addr))
  }

  /** The locked part of `notify_join`, on the table: an unconditional insert. */
  function Overwrite(t: Table, addr: SiloAddress): Table {
    t.(members := t.members[addr.siloId := NewMember(addr)])
  }

  function AfterNotifyJoin(l: Layout, s: Silo, addr: SiloAddress): Silo {
    Silo(Overwrite(s.table, addr), l.Add(s.ring, addr))
  }

  /** The locked part of `notify_leave`, on the table. */
  function Forget(t: Table, id: string): Table {
    t.(members := t.members - {id})
  }

  function AfterNotifyLeave(l: Layout, s: Silo, addr: SiloAddress): Silo {
    Silo(Forget(s.table, addr.siloId), l.Remove(s.ring, addr.siloId))
  }

  /** The table after `join_cluster` learned the seed's member list. */
  function OverwriteAll(t: Table, addrs: seq<SiloAddress>): Table {
    if addrs == [] then t
    else
      var t', a := OverwriteAll(t, addrs[..|addrs| - 1]), addrs[|addrs| - 1];
      if a.siloId != t.LocalId() then Overwrite(t', a) else t'
  }

  function AfterSeedReply(l: Layout, s: Silo, addrs: seq<SiloAddress>): Silo {
    Silo(OverwriteAll(s.table, addrs), l.AddAll(s.ring, addrs))
  }

  // --- The mutable silo ---

  class SwimState {
    const layout: Layout
    const localAddr: SiloAddress
    var members: map<string, SwimMember>
    var localIncarnation: nat
    var pendingGossip: seq<GossipUpdate>
    var ring: Ring

    function View(): Silo
      reads this
    {
      Silo(Table(localAddr, localIncarnation, members, pendingGossip), ring)
    }

    constructor (layout: Layout, localAddr: SiloAddress)
      ensures this.layout == layout
      ensures View() == Silo(NewTable(localAddr), layout.Add(map[], localAddr))
    {
      this.layout, this.localAddr := layout, localAddr;
      members, localIncarnation, pendingGossip := map[], 0, [];
      ring := layout.Add(map[], localAddr);
    }

    method DrainGossip(n: nat) returns (batch: seq<GossipUpdate>)
      modifies this`pendingGossip
      ensures batch == Drained(old(View()).table, n)
      ensures View().table == AfterDrain(old(View()).table, n)
    {
      var count := if n < |pendingGossip| then n else |pendingGossip|;
      batch := pendingGossip[..count];
      pendingGossip := pendingGossip[count..];
    }

    method EnqueueGossip(update: GossipUpdate)
      modifies this`pendingGossip
      ensures pendingGossip == Enqueue(old(pendingGossip), update)
    {
      if |pendingGossip| >= MAX_PENDING_GOSSIP {
        pendingGossip := pendingGossip[1..];
      }
      pendingGossip := pendingGossip + [update];
    }

    /** One pass of the loop; reports what must happen to the ring. */
    method ApplyOne(update: GossipUpdate, now: nat) returns (add: bool, remove: bool)
      modifies this`members, this`localIncarnation, this`pendingGossip
      ensures View().table == ApplyUpdate(old(View()).table, update, now)
      ensures add == Admits(old(View()).table, update)
      ensures remove == Kills(old(View()).table, update)
    {
      add, remove := false, false;
      var id := update.addr.siloId;
      match update
      case AliveUpdate(_, incarnation) =>
        if id == localAddr.siloId { return; }
        if id in members && incarnation > members[id].incarnation {
          members := members[id := members[id].(incarnation := incarnation, status := Alive)];
        }
      case SuspectUpdate(_, incarnation, reportedBy) =>
        if id == localAddr.siloId && incarnation >= localIncarnation {
          localIncarnation := incarnation + 1;
          EnqueueGossip(AliveUpdate(localAddr, localIncarnation));
          return;
        }
        if id == localAddr.siloId { return; }
        if id in members && incarnation >= members[id].incarnation && members[id].status == Alive {
          members := members[id := members[id].(status := Suspect(now, reportedBy), incarnation := incarnation)];
        }
      case DeadUpdate(_, incarnation) =>
        if id == localAddr.siloId { return; }
        if id in members && incarnation >= members[id].incarnation {
          remove := true;
          members := members - {id};
        }
      case JoinUpdate(addr) =>
        if id == localAddr.siloId { return; }
        if id !in members {
          add := true;
          members := members[id := NewMember(addr)];
        }
    }

    method ApplyGossip(updates: seq<GossipUpdate>, clock: Clock)
      modifies this
      ensures View() == AfterGossip(layout, old(View()), updates, clock)
    {
      var ringAdds: seq<SiloAddress>, ringRemoves: seq<SiloAddress> := [], [];
      ghost var t := View().table;
      for i := 0 to |updates|
        invariant View().table == ApplyAll(t, updates[..i], clock)
        invariant ringAdds == Adds(t, updates[..i], clock)
        invariant ringRemoves == Removes(t, updates[..i], clock)
        invariant ring == old(ring)
      {
        assert updates[..i + 1][..i] == updates[..i];
        var add, remove := ApplyOne(updates[i], clock(i));
        if add { ringAdds := ringAdds + [updates[i].addr]; }
        if remove { ringRemoves := ringRemoves + [updates[i].addr]; }
      }
      assert updates[..|updates|] == updates;
      UpdateRing(ringAdds, ringRemoves);
    }

    /** The batched ring update at the end of `apply_gossip`. */
    method UpdateRing(ringAdds: seq<SiloAddress>, ringRemoves: seq<SiloAddress>)
      modifies this`ring
      ensures ring == layout.AddAll(layout.RemoveAll(old(ring), ringRemoves), ringAdds)
    {
      if ringAdds != [] || ringRemoves != [] {
        var newRing := ring;
        for i := 0 to |ringRemoves|
          invariant newRing == layout.RemoveAll(ring, ringRemoves[..i])
        {
          assert ringRemoves[..i + 1][..i] == ringRemoves[..i];
          newRing := layout.Remove(newRing, ringRemoves[i].siloId);
        }
        assert ringRemoves[..|ringRemoves|] == ringRemoves;
        ghost var kept := newRing;
        for i := 0 to |ringAdds|
          invariant newRing == layout.AddAll(kept, ringAdds[..i])
        {
          assert ringAdds[..i + 1][..i] == ringAdds[..i];
          newRing := layout.Add(newRing, ringAdds[i]);
        }
        assert ringAdds[..|ringAdds|] == ringAdds;
        ring := newRing;
      }
    }

    method SuspectMember(siloId: string, now: nat)
      modifies this`members, this`pendingGossip
      ensures View().table == Suspected(old(View()).table, siloId, now)
    {
      if siloId in members && members[siloId].status == Alive {
        var m := members[siloId];
        members := members[siloId := m.(status := Suspect(now, localAddr.siloId))];
        EnqueueGossip(SuspectUpdate(m.addr, m.incarnation, localAddr.siloId));
      }
    }

    method DeclareDead(siloId: string)
      modifies this`members, this`pendingGossip, this`ring
      ensures View() == AfterDeath(layout, old(View()), siloId)
    {
      if siloId in members {
        var m := members[siloId];
        members := members - {siloId};
        ring := layout.Remove(ring, m.addr.siloId);
        EnqueueGossip(DeadUpdate(m.addr, m.incarnation));
      }
    }

    /** The scan of `expire_suspects`, in whatever order the map is enumerated. */
    method ScanExpired(now: nat, suspectTimeout: nat) returns (expired: seq<string>)
      ensures ListsExpired(members, now, suspectTimeout, expired)
    {
      expired := [];
      var todo := set id | id in members && Expired(members[id], now, suspectTimeout);
      while todo != {}
        invariant forall id :: id in todo ==> id in members && Expired(members[id], now, suspectTimeout)
        invariant forall id :: id in expired <==>
                    id in members && Expired(members[id], now, suspectTimeout) && id !in todo
        invariant forall i, j :: 0 <= i < j < |expired| ==> expired[i] != expired[j]
        decreases todo
      {
        var id :| id in todo;
        expired := expired + [id];
        todo := todo - {id};
      }
    }

    /** The burials of `expire_suspects`, under a lock of their own. */
    method BuryAll(expired: seq<string>)
      modifies this`members, this`pendingGossip, this`ring
      ensures View() == AfterDeaths(layout, old(View()), expired)
    {
      for i := 0 to |expired|
        invariant View() == AfterDeaths(layout, old(View()), expired[..i])
      {
        assert expired[..i + 1][..i] == expired[..i];
        DeclareDead(expired[i]);
      }
      assert expired[..|expired|] == expired;
    }

    /** `expire_suspects` when nothing happens between scan and burial: every suspect
        older than the timeout is buried, and no one else. */
    method ExpireSuspects(now: nat, suspectTimeout: nat) returns (expired: seq<string>)
      modifies this`members, this`pendingGossip, this`ring
      ensures ListsExpired(old(members), now, suspectTimeout, expired)
      ensures View() == AfterDeaths(layout, old(View()), expired)
      ensures forall id :: id in members <==>
                id in old(members) && !Expired(old(members)[id], now, suspectTimeout)
      ensures forall id :: id in members ==> members[id] == old(members)[id]
    {
      expired := ScanExpired(now, suspectTimeout);
      DeathsLeaveTheOthers(layout, View(), expired);
      BuryAll(expired);
    }

    /** The `join` RPC, past authentication and rate limiting. */
    method Join(silo: SiloAddress)
      modifies this`members, this`pendingGossip, this`ring
      ensures View() == AfterJoin(layout, old(View()), silo)
    {
      ring := layout.Add(ring, silo);
      if silo.siloId !in members {
        members := members[silo.siloId := NewMember(silo)];
        EnqueueGossip(JoinUpdate(silo));
      }
    }

    /** The check `notify_join` and `notify_leave` make before they take the lock. */
    method IsKnown(silo: SiloAddress) returns (known: bool)
      ensures known <==> silo.siloId in SiloIds(ring)
    {
      known := false;
      var todo := ring.Keys;
      while todo != {} && !known
        invariant todo <= ring.Keys
        invariant known ==> silo.siloId in SiloIds(ring)
        invariant !known ==> forall p :: p in ring && p !in todo ==> ring[p].siloId != silo.siloId
        decreases todo
      {
        var p :| p in todo;
        known := ring[p].siloId == silo.siloId;
        todo := todo - {p};
      }
    }

    /** The rest of `notify_join`, on what the check said: the ring may have changed
        since, and the insert does not look. */
    method NotifyJoin(silo: SiloAddress, known: bool)
      modifies this`members, this`ring
      ensures View() == if known then old(View()) else AfterNotifyJoin(layout, old(View()), silo)
    {
      if known {
        return;
      }
      ring := layout.Add(ring, silo);
      members := members[silo.siloId := NewMember(silo)];
    }

    /** The rest of `notify_leave`, on what the check said. */
    method NotifyLeave(silo: SiloAddress, known: bool)
      modifies this`members, this`ring
      ensures View() == if known then AfterNotifyLeave(layout, old(View()), silo) else old(View())
    {
      if !known {
        return;
      }
      ring := layout.Remove(ring, silo.siloId);
      members := members - {silo.siloId};
    }

    /** `join_cluster`, once the seed has answered with its members. */
    method JoinCluster(seedMembers: seq<SiloAddress>)
      modifies this`members, this`ring
      ensures View() == AfterSeedReply(layout, old(View()), seedMembers)
    {
      var newRing := ring;
      for i := 0 to |seedMembers|
        invariant newRing == layout.AddAll(old(ring), seedMembers[..i])
      {
        assert seedMembers[..i + 1][..i] == seedMembers[..i];
        newRing := layout.Add(newRing, seedMembers[i]);
      }
      ring := newRing;
      for i := 0 to |seedMembers|
        invariant ring == newRing
        invariant View().table == OverwriteAll(old(View()).table, seedMembers[..i])
      {
        assert seedMembers[..i + 1][..i] == seedMembers[..i];
        if seedMembers[i].siloId != localAddr.siloId {
          members := members[seedMembers[i].siloId := NewMember(seedMembers[i])];
        }
      }
      assert seedMembers[..|seedMembers|] == seedMembers;
    }
  }

  // --- Burying expired suspects ---

  predicate Expired(m: SwimMember, now: nat, suspectTimeout: nat) {
    m.status.Suspect? && now - m.status.since > suspectTimeout
  }

  /** Each expired suspect once, in some order. */
  ghost predicate ListsExpired(members: map<string, SwimMember>, now: nat, suspectTimeout: nat, ids: seq<string>) {
    && (forall id :: id in ids <==> id in members && Expired(members[id], now, suspectTimeout))
    && (forall i, j :: 0 <= i < j < |ids| ==> ids[i] != ids[j])
  }

  function AfterDeaths(l: Layout, s: Silo, ids: seq<string>): Silo {
    if ids == [] then s else AfterDeath(l, AfterDeaths(l, s, ids[..|ids| - 1]), ids[|ids| - 1])
  }

  /** Exactly the listed silos lose their records. */
  lemma {:induction false} DeathsLeaveTheOthers(l: Layout, s: Silo, ids: seq<string>)
    ensures var s' := AfterDeaths(l, s, ids);
            && (forall id :: id in s'.table.members <==> id in s.table.members && id !in ids)
            && (forall id :: id in s'.table.members ==> s'.table.members[id] == s.table.members[id])
  {
    if ids != [] {
      DeathsLeaveTheOthers(l, s, ids[..|ids| - 1]);
      assert ids == ids[..|ids| - 1] + [ids[|ids| - 1]];
    }
  }

  // --- Records never move backwards while a member stays ---

  /** Everything `swim.rs` does to the table, one gossip update at a time. */
  datatype SwimStep =
    | Gossip(update: GossipUpdate, now: nat)
    | PingOk(id: string)
    | PingFailed(id: string, now: nat)
    | Expire(id: string)
    | Piggyback(n: nat)

  function Apply(t: Table, st: SwimStep): Table {
    match st
    case Gossip(u, now) => ApplyUpdate(t, u, now)
    case PingOk(id) => MarkAlive(t, id)
    case PingFailed(id, now) => Suspected(t, id, now)
    case Expire(id) => Bury(t, id)
    case Piggyback(n) => AfterDrain(t, n)
  }

  function Run(t: Table, steps: seq<SwimStep>): Table {
    if steps == [] then t else Apply(Run(t, steps[..|steps| - 1]), steps[|steps| - 1])
  }

  /** `x` is in the table before, during and after the run. */
  predicate Stays(t: Table, steps: seq<SwimStep>, x: string) {
    forall k :: 0 <= k <= |steps| ==> x in Run(t, steps[..k]).members
  }

  /** (incarnation, suspected), compared lexicographically. */
  predicate NotBehind(old_: SwimMember, new_: SwimMember) {
    || old_.incarnation < new_.incarnation
    || (old_.incarnation == new_.incarnation && (old_.status.Suspect? ==> new_.status.Suspect?))
  }

  lemma StepKeepsIncarnation(t: Table, st: SwimStep, x: string)
    requires x in t.members && x in Apply(t, st).members
    ensures t.members[x].incarnation <= Apply(t, st).members[x].incarnation
    ensures st.Gossip? ==> NotBehind(t.members[x], Apply(t, st).members[x])
  {
  }

  /** While a member stays in the table its recorded incarnation never falls. */
  lemma {:induction false} IncarnationNeverFalls(t: Table, steps: seq<SwimStep>, x: string)
    requires Stays(t, steps, x)
    ensures x in t.members && x in Run(t, steps).members
    ensures t.members[x].incarnation <= Run(t, steps).members[x].incarnation
  {
    assert steps[..0] == [] && steps[..|steps|] == steps;
    if steps != [] {
      var init := steps[..|steps| - 1];
      StaysPrefix(t, steps, x);
      IncarnationNeverFalls(t, init, x);
      StepKeepsIncarnation(Run(t, init), steps[|steps| - 1], x);
    }
  }

  lemma StaysPrefix(t: Table, steps: seq<SwimStep>, x: string)
    requires Stays(t, steps, x) && steps != []
    ensures Stays(t, steps[..|steps| - 1], x)
  {
    var init := steps[..|steps| - 1];
    forall k | 0 <= k <= |init|
      ensures x in Run(t, init[..k]).members
    {
      assert init[..k] == steps[..k];
    }
  }

  /** Gossip alone only raises (incarnation, suspected). */
  lemma {:induction false} GossipOnlyRaises(t: Table, steps: seq<SwimStep>, x: string)
    requires Stays(t, steps, x)
    requires forall k :: 0 <= k < |steps| ==> steps[k].Gossip?
    ensures x in t.members && x in Run(t, steps).members
    ensures NotBehind(t.members[x], Run(t, steps).members[x])
  {
    assert steps[..0] == [] && steps[..|steps|] == steps;
    if steps != [] {
      var init := steps[..|steps| - 1];
      StaysPrefix(t, steps, x);
      GossipOnlyRaises(t, init, x);
      StepKeepsIncarnation(Run(t, init), steps[|steps| - 1], x);
    }
  }

  /** A Suspect or Dead rumour older than an incarnation accepted earlier in the
      run changes nothing about the member. */
  lemma {:induction false} StaleRumourHasNoEffect(t: Table, steps: seq<SwimStep>, x: string, u: GossipUpdate, now: nat)
    requires Stays(t, steps, x)
    requires (u.SuspectUpdate? || u.DeadUpdate?) && u.addr.siloId == x && x != t.LocalId()
    requires x in t.members && u.incarnation < t.members[x].incarnation
    ensures ApplyUpdate(Run(t, steps), u, now) == Run(t, steps)
  {
    IncarnationNeverFalls(t, steps, x);
    RunKeepsLocal(t, steps);
  }

  lemma {:induction false} RunKeepsLocal(t: Table, steps: seq<SwimStep>)
    ensures Run(t, steps).localAddr == t.localAddr
  {
    if steps != [] {
      RunKeepsLocal(t, steps[..|steps| - 1]);
    }
  }
}
