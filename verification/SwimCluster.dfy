/** Any number of silos exchanging gossip that may be lost, duplicated or
    reordered.  No one ever holds an incarnation of a silo above the silo's own,
    so a silo refutes each suspicion by raising its incarnation exactly once. */
module SwimCluster {
  import opened Rings
  import opened SwimSilo

  /** The running silos and every gossip batch ever put on the wire.  A batch is
      never taken off: it can arrive late, twice, or not at all. */
  datatype Cluster = Cluster(silos: map<string, Table>, sent: set<seq<GossipUpdate>>)

  datatype Event =
    | Start(addr: SiloAddress)
    | Send(at: string, n: nat)
    | Deliver(at: string, batch: seq<GossipUpdate>, clock: Clock)
    | PingFails(at: string, target: string, now: nat)
    | PingSucceeds(at: string, target: string)
    | DeclareDead(at: string, target: string)
    | JoinRpc(at: string, joiner: SiloAddress)
    | NotifyJoinRpc(at: string, addr: SiloAddress)
    | NotifyLeaveRpc(at: string, addr: SiloAddress)
    | SeedReply(at: string, addrs: seq<SiloAddress>)

  /** Silo ids are started at most once; the rest happens at running silos, and
      only batches that were sent arrive. */
  predicate Enabled(c: Cluster, e: Event) {
    match e
    case Start(addr) => addr.siloId !in c.silos
    case Deliver(at, batch, _) => at in c.silos && batch in c.sent
    case _ => e.at in c.silos
  }

  /** The local effect of an event on the silo where it happens. */
  function Local(t: Table, e: Event): Table {
    match e
    case Start(_) => t
    case Send(_, n) => AfterDrain(t, n)
    case Deliver(_, batch, clock) => ApplyAll(t, batch, clock)
    case PingFails(_, target, now) => Suspected(t, target, now)
    case PingSucceeds(_, target) => MarkAlive(t, target)
    case DeclareDead(_, target) => Bury(t, target)
    case JoinRpc(_, joiner) => Admit(t, joiner)
    case NotifyJoinRpc(_, addr) => Overwrite(t, addr)
    case NotifyLeaveRpc(_, addr) => Forget(t, addr.siloId)
    case SeedReply(_, addrs) => OverwriteAll(t, addrs)
  }

  function Step(c: Cluster, e: Event): Cluster
    requires Enabled(c, e)
  {
    match e
    case Start(addr) => c.(silos := c.silos[addr.siloId := NewTable(addr)])
    case Send(at, n) =>
      Cluster(c.silos[at := Local(c.silos[at], e)], c.sent + {Drained(c.silos[at], n)})
    case _ => c.(silos := c.silos[e.at := Local(c.silos[e.at], e)])
  }

  /** The incarnation silo `x` itself claims (0 before it starts). */
  function Own(c: Cluster, x: string): nat {
    if x in c.silos then c.silos[x].incarnation else 0
  }

  function Claims(c: Cluster): map<string, nat> {
    map x | x in c.silos :: c.silos[x].incarnation
  }

  // --- The bound, seen from one table ---

  /** Upper bound on incarnations of `x`: a silo's own counter for itself, the
      claims of the others otherwise. */
  function BoundOn(t: Table, claims: map<string, nat>, x: string): nat {
    if x == t.LocalId() then t.incarnation
    else if x in claims then claims[x] else 0
  }

  predicate RumourBelow(t: Table, claims: map<string, nat>, u: GossipUpdate) {
    u.JoinUpdate? || u.incarnation <= BoundOn(t, claims, u.addr.siloId)
  }

  ghost predicate TableBelow(t: Table, claims: map<string, nat>) {
    && (forall x :: x in t.members ==>
          t.members[x].addr.siloId == x && t.members[x].incarnation <= BoundOn(t, claims, x))
    && (forall u :: u in t.pending ==> RumourBelow(t, claims, u))
  }

  lemma EnqueueMembers(q: seq<GossipUpdate>, u: GossipUpdate)
    ensures forall x :: x in Enqueue(q, u) ==> x in q || x == u
  {
  }

  /** One update keeps the bound and moves the own incarnation by at most one,
      and by one exactly when it is a suspicion at the current incarnation. */
  lemma UpdateKeepsBound(t: Table, claims: map<string, nat>, u: GossipUpdate, now: nat)
    requires TableBelow(t, claims) && RumourBelow(t, claims, u)
    ensures var t' := ApplyUpdate(t, u, now);
            && TableBelow(t', claims)
            && t'.localAddr == t.localAddr
            && t'.incarnation
               == t.incarnation + if u.SuspectUpdate? && u.addr.siloId == t.LocalId()
                                     && u.incarnation == t.incarnation then 1 else 0
  {
    EnqueueMembers(t.pending, AliveUpdate(t.localAddr, t.incarnation + 1));
  }

  lemma {:induction false} BatchKeepsBound(t: Table, claims: map<string, nat>, us: seq<GossipUpdate>, clock: Clock)
    requires TableBelow(t, claims)
    requires forall u :: u in us ==> RumourBelow(t, claims, u)
    ensures var t' := ApplyAll(t, us, clock);
            TableBelow(t', claims) && t'.localAddr == t.localAddr && t.incarnation <= t'.incarnation
  {
    if us != [] {
      var init, u := us[..|us| - 1], us[|us| - 1];
      assert u in us && forall x :: x in init ==> x in us;
      BatchKeepsBound(t, claims, init, clock);
      UpdateKeepsBound(ApplyAll(t, init, clock), claims, u, clock(|us| - 1));
    }
  }

  lemma {:induction false} SeedReplyKeepsBound(t: Table, claims: map<string, nat>, addrs: seq<SiloAddress>)
    requires TableBelow(t, claims)
    ensures var t' := OverwriteAll(t, addrs);
            TableBelow(t', claims) && t'.localAddr == t.localAddr && t'.incarnation == t.incarnation
  {
    if addrs != [] {
      SeedReplyKeepsBound(t, claims, addrs[..|addrs| - 1]);
    }
  }

  /** Every event keeps the bound of the table where it happens. */
  lemma LocalKeepsBound(t: Table, claims: map<string, nat>, e: Event)
    requires TableBelow(t, claims)
    requires e.Deliver? ==> forall u :: u in e.batch ==> RumourBelow(t, claims, u)
    ensures var t' := Local(t, e);
            TableBelow(t', claims) && t'.localAddr == t.localAddr && t.incarnation <= t'.incarnation
  {
    match e
    case Deliver(_, batch, clock) =>
      BatchKeepsBound(t, claims, batch, clock);
    case SeedReply(_, addrs) =>
      SeedReplyKeepsBound(t, claims, addrs);
    case PingFails(_, id, now) =>
      if id in t.members {
        EnqueueMembers(t.pending, SuspectUpdate(t.members[id].addr, t.members[id].incarnation, t.LocalId()));
      }
    case DeclareDead(_, id) =>
      if id in t.members {
        EnqueueMembers(t.pending, DeadUpdate(t.members[id].addr, t.members[id].incarnation));
      }
    case JoinRpc(_, addr) =>
      EnqueueMembers(t.pending, JoinUpdate(addr));
    case _ =>
      QuietKeepsBound(t, claims, e);
  }

  /** Events that put nothing into the gossip queue. */
  lemma QuietKeepsBound(t: Table, claims: map<string, nat>, e: Event)
    requires TableBelow(t, claims)
    requires !e.Deliver? && !e.SeedReply? && !e.PingFails? && !e.DeclareDead? && !e.JoinRpc?
    ensures var t' := Local(t, e);
            TableBelow(t', claims) && t'.localAddr == t.localAddr && t.incarnation == t'.incarnation
  {
    var t' := Local(t, e);
    forall u | u in t'.pending
      ensures RumourBelow(t', claims, u)
    {
      assert u in t.pending && RumourBelow(t, claims, u);
    }
  }

  // --- The bound, over the whole cluster ---

  predicate InFlightBelow(c: Cluster, u: GossipUpdate) {
    u.JoinUpdate? || u.incarnation <= Own(c, u.addr.siloId)
  }

  /** No table, queue or in-flight rumour holds an incarnation of a silo above
      the silo's own. */
  ghost predicate NoneAbove(c: Cluster) {
    && (forall s :: s in c.silos ==>
          c.silos[s].LocalId() == s && TableBelow(c.silos[s], Claims(c)))
    && (forall batch, u :: batch in c.sent && u in batch ==> InFlightBelow(c, u))
  }

  /** Raising claims keeps every other table below them. */
  lemma ClaimsOnlyRaise(t: Table, claims: map<string, nat>, claims': map<string, nat>)
    requires TableBelow(t, claims)
    requires forall x :: x in claims ==> x in claims' && claims[x] <= claims'[x]
    ensures TableBelow(t, claims')
  {
    forall u | u in t.pending
      ensures RumourBelow(t, claims', u)
    {
      assert RumourBelow(t, claims, u);
    }
  }

  lemma StepKeepsTablesBelow(c: Cluster, e: Event)
    requires NoneAbove(c) && Enabled(c, e)
    ensures var c' := Step(c, e);
            && (forall s :: s in c'.silos ==> c'.silos[s].LocalId() == s && TableBelow(c'.silos[s], Claims(c')))
            && (forall x :: x in c.silos ==> x in c'.silos && Own(c, x) <= Own(c', x))
  {
    var c' := Step(c, e);
    if e.Start? {
      forall s | s in c.silos
        ensures TableBelow(c'.silos[s], Claims(c'))
      {
        ClaimsOnlyRaise(c.silos[s], Claims(c), Claims(c'));
      }
    } else {
      var t := c.silos[e.at];
      if e.Deliver? {
        forall u | u in e.batch
          ensures RumourBelow(t, Claims(c), u)
        {
          assert InFlightBelow(c, u);
        }
      }
      LocalKeepsBound(t, Claims(c), e);
      forall s | s in c'.silos
        ensures TableBelow(c'.silos[s], Claims(c'))
      {
        ClaimsOnlyRaise(if s == e.at then c'.silos[s] else c.silos[s], Claims(c), Claims(c'));
      }
    }
  }

  lemma StepKeepsNoneAbove(c: Cluster, e: Event)
    requires NoneAbove(c) && Enabled(c, e)
    ensures NoneAbove(Step(c, e))
    ensures forall x :: x in c.silos ==> x in Step(c, e).silos && Own(c, x) <= Own(Step(c, e), x)
  {
    var c' := Step(c, e);
    StepKeepsTablesBelow(c, e);
    forall batch, u | batch in c'.sent && u in batch
      ensures InFlightBelow(c', u)
    {
      if batch in c.sent {
        assert InFlightBelow(c, u);
      } else {
        assert RumourBelow(c.silos[e.at], Claims(c), u);
      }
    }
  }

  // --- Runs ---

  predicate ValidRun(c: Cluster, es: seq<Event>)
    decreases es, 0
  {
    es == [] || (ValidRun(c, es[..|es| - 1]) && Enabled(After(c, es[..|es| - 1]), es[|es| - 1]))
  }

  function After(c: Cluster, es: seq<Event>): Cluster
    requires ValidRun(c, es)
    decreases es, 1
  {
    if es == [] then c else Step(After(c, es[..|es| - 1]), es[|es| - 1])
  }

  const EMPTY: Cluster := Cluster(map[], {})

  lemma {:induction false} RunsKeepNoneAbove(es: seq<Event>)
    requires ValidRun(EMPTY, es)
    ensures NoneAbove(After(EMPTY, es))
  {
    if es != [] {
      RunsKeepNoneAbove(es[..|es| - 1]);
      StepKeepsNoneAbove(After(EMPTY, es[..|es| - 1]), es[|es| - 1]);
    }
  }

  /** In every run no member table, gossip queue or in-flight rumour holds an
      incarnation of a silo above the silo's own. */
  lemma NoIncarnationAboveOwn(es: seq<Event>)
    requires ValidRun(EMPTY, es)
    ensures var c := After(EMPTY, es);
            && (forall s, x :: s in c.silos && x in c.silos[s].members ==>
                  c.silos[s].members[x].incarnation <= Own(c, x))
            && (forall s, u :: s in c.silos && u in c.silos[s].pending ==> InFlightBelow(c, u))
            && (forall batch, u :: batch in c.sent && u in batch ==> InFlightBelow(c, u))
  {
    RunsKeepNoneAbove(es);
    var c := After(EMPTY, es);
    forall s, u | s in c.silos && u in c.silos[s].pending
      ensures InFlightBelow(c, u)
    {
      assert RumourBelow(c.silos[s], Claims(c), u);
    }
  }

  /** In every run, each self-refutation raises the incarnation by exactly one,
      to one above the suspicion it answers. */
  lemma RefutationAddsExactlyOne(es: seq<Event>, s: string, batch: seq<GossipUpdate>, clock: Clock, k: nat)
    requires ValidRun(EMPTY, es) && Enabled(After(EMPTY, es), Deliver(s, batch, clock)) && k < |batch|
    ensures var t := ApplyAll(After(EMPTY, es).silos[s], batch[..k], clock);
            var t' := ApplyUpdate(t, batch[k], clock(k));
            && t'.incarnation in {t.incarnation, t.incarnation + 1}
            && (t'.incarnation != t.incarnation ==>
                  batch[k].SuspectUpdate? && batch[k].addr.siloId == s
                  && t'.incarnation == batch[k].incarnation + 1)
  {
    RunsKeepNoneAbove(es);
    var c := After(EMPTY, es);
    var t0 := c.silos[s];
    forall u | u in batch
      ensures RumourBelow(t0, Claims(c), u)
    {
      assert InFlightBelow(c, u);
    }
    BatchKeepsBound(t0, Claims(c), batch[..k], clock);
    var t := ApplyAll(t0, batch[..k], clock);
    assert batch[k] in batch;
    UpdateKeepsBound(t, Claims(c), batch[k], clock(k));
  }

  // --- A silo that restarts under its old id ---

  /** A restart forgets everything, the incarnation included. */
  function Restart(c: Cluster, addr: SiloAddress): Cluster {
    c.(silos := c.silos[addr.siloId := NewTable(addr)])
  }

  /** Someone else's record or a rumour gives `x` an incarnation above zero. */
  ghost predicate RememberedAboveZero(c: Cluster, x: string) {
    || (exists s :: s in c.silos && s != x && x in c.silos[s].members
                    && c.silos[s].members[x].incarnation > 0)
    || (exists s, u :: s in c.silos && s != x && u in c.silos[s].pending && Aloft(u, x))
    || (exists batch, u :: batch in c.sent && u in batch && Aloft(u, x))
  }

  predicate Aloft(u: GossipUpdate, x: string) {
    !u.JoinUpdate? && u.addr.siloId == x && u.incarnation > 0
  }

  lemma RememberedBreaksBound(c: Cluster, addr: SiloAddress)
    requires RememberedAboveZero(c, addr.siloId)
    ensures !NoneAbove(Restart(c, addr))
  {
    var x, c' := addr.siloId, Restart(c, addr);
    if s :| s in c.silos && s != x && x in c.silos[s].members && c.silos[s].members[x].incarnation > 0 {
      assert c'.silos[s] == c.silos[s] && (c'.silos[s].LocalId() != s || !TableBelow(c'.silos[s], Claims(c')));
    } else if s, u :| s in c.silos && s != x && u in c.silos[s].pending && Aloft(u, x) {
      assert c'.silos[s] == c.silos[s] && (c'.silos[s].LocalId() != s || !RumourBelow(c'.silos[s], Claims(c'), u));
    } else {
      var batch, u :| batch in c.sent && u in batch && Aloft(u, x);
      assert !InFlightBelow(c', u);
    }
  }

  lemma UnrememberedKeepsBound(c: Cluster, addr: SiloAddress)
    requires NoneAbove(c) && !RememberedAboveZero(c, addr.siloId)
    ensures NoneAbove(Restart(c, addr))
  {
    var x, c' := addr.siloId, Restart(c, addr);
    forall s | s in c'.silos
      ensures c'.silos[s].LocalId() == s && TableBelow(c'.silos[s], Claims(c'))
    {
      if s != x {
        assert x in c.silos[s].members ==> c.silos[s].members[x].incarnation == 0;
        UnrememberedStaysBelow(c.silos[s], Claims(c), Claims(c'), x);
      }
    }
    forall batch, u | batch in c'.sent && u in batch
      ensures InFlightBelow(c', u)
    {
      assert InFlightBelow(c, u) && !Aloft(u, x);
    }
  }

  /** A restart keeps the bound exactly when no one remembers an incarnation of
      the silo above zero. */
  lemma RestartKeepsBoundIff(c: Cluster, addr: SiloAddress)
    requires NoneAbove(c)
    ensures NoneAbove(Restart(c, addr)) <==> !RememberedAboveZero(c, addr.siloId)
  {
    if RememberedAboveZero(c, addr.siloId) {
      RememberedBreaksBound(c, addr);
    } else {
      UnrememberedKeepsBound(c, addr);
    }
  }

  /** A table that knows nothing of `x` above zero outlives a change of its claim. */
  lemma UnrememberedStaysBelow(t: Table, claims: map<string, nat>, claims': map<string, nat>, x: string)
    requires TableBelow(t, claims) && t.LocalId() != x
    requires x in t.members ==> t.members[x].incarnation == 0
    requires forall u :: u in t.pending ==> !Aloft(u, x)
    requires forall y :: y in claims && y != x ==> y in claims' && claims'[y] == claims[y]
    ensures TableBelow(t, claims')
  {
    forall u | u in t.pending
      ensures RumourBelow(t, claims', u)
    {
      assert RumourBelow(t, claims, u) && !Aloft(u, x);
    }
  }

  /** A silo that never had to refute anything may restart. */
  lemma RestartBeforeRefutationIsSafe(es: seq<Event>, addr: SiloAddress)
    requires ValidRun(EMPTY, es) && Own(After(EMPTY, es), addr.siloId) == 0
    ensures NoneAbove(Restart(After(EMPTY, es), addr))
  {
    var c, x := After(EMPTY, es), addr.siloId;
    RunsKeepNoneAbove(es);
    NoIncarnationAboveOwn(es);
    assert !RememberedAboveZero(c, x) by {
      forall s, u | s in c.silos && u in c.silos[s].pending
        ensures !Aloft(u, x)
      {
        assert InFlightBelow(c, u);
      }
    }
    RestartKeepsBoundIff(c, addr);
  }

  ghost predicate Reached(es: seq<Event>, c: Cluster) {
    ValidRun(EMPTY, es) && After(EMPTY, es) == c
  }

  lemma Extend(es: seq<Event>, c: Cluster, e: Event)
    requires Reached(es, c) && Enabled(c, e)
    ensures Reached(es + [e], Step(c, e))
  {
    assert (es + [e])[..|es|] == es;
  }

  /** After one refutation it may not: `y` suspects `x`, `x` refutes at incarnation 1 and
      sends that out, and restarts at 0. */
  lemma RestartAfterRefutationBreaksBound(x: SiloAddress, y: SiloAddress, now: nat, clock: Clock)
      returns (es: seq<Event>)
    requires x.siloId != y.siloId
    ensures var rumours := [JoinUpdate(x), SuspectUpdate(x, 0, y.siloId)];
            es == [Start(x), Start(y), JoinRpc(y.siloId, x), PingFails(y.siloId, x.siloId, now),
                   Send(y.siloId, 2), Deliver(x.siloId, rumours, clock), Send(x.siloId, 1)]
    ensures ValidRun(EMPTY, es) && !NoneAbove(Restart(After(EMPTY, es), x))
  {
    var c: Cluster;
    es, c := ReachSuspicion(x, y, now);
    var rumours := [JoinUpdate(x), SuspectUpdate(x, 0, y.siloId)];
    RefutesAtOne(x, y.siloId, clock);
    Extend(es, c, Deliver(x.siloId, rumours, clock));
    es, c := es + [Deliver(x.siloId, rumours, clock)], Step(c, Deliver(x.siloId, rumours, clock));
    assert Drained(c.silos[x.siloId], 1) == [AliveUpdate(x, 1)];
    Extend(es, c, Send(x.siloId, 1));
    es, c := es + [Send(x.siloId, 1)], Step(c, Send(x.siloId, 1));
    var batch, u := [AliveUpdate(x, 1)], AliveUpdate(x, 1);
    assert batch in c.sent && u in batch && Aloft(u, x.siloId);
    RunsKeepNoneAbove(es);
    RestartKeepsBoundIff(c, x);
  }

  lemma RefutesAtOne(x: SiloAddress, reporter: string, clock: Clock)
    ensures ApplyAll(NewTable(x), [JoinUpdate(x), SuspectUpdate(x, 0, reporter)], clock)
            == Table(x, 1, map[], [AliveUpdate(x, 1)])
  {
    var us := [JoinUpdate(x), SuspectUpdate(x, 0, reporter)];
    assert us[..1] == [JoinUpdate(x)] && us[..1][..0] == [];
    assert ApplyAll(NewTable(x), us[..1], clock) == NewTable(x);
  }

  lemma ReachJoined(x: SiloAddress, y: SiloAddress) returns (es: seq<Event>, c: Cluster)
    requires x.siloId != y.siloId
    ensures es == [Start(x), Start(y), JoinRpc(y.siloId, x)] && Reached(es, c)
    ensures x.siloId in c.silos && c.silos[x.siloId] == NewTable(x)
    ensures y.siloId in c.silos
            && c.silos[y.siloId] == Table(y, 0, map[x.siloId := NewMember(x)], [JoinUpdate(x)])
  {
    es, c := [], EMPTY;
    Extend(es, c, Start(x));
    es, c := es + [Start(x)], Step(c, Start(x));
    Extend(es, c, Start(y));
    es, c := es + [Start(y)], Step(c, Start(y));
    assert Admit(NewTable(y), x) == Table(y, 0, map[x.siloId := NewMember(x)], [JoinUpdate(x)]);
    Extend(es, c, JoinRpc(y.siloId, x));
    es, c := es + [JoinRpc(y.siloId, x)], Step(c, JoinRpc(y.siloId, x));
  }

  lemma ReachSuspicion(x: SiloAddress, y: SiloAddress, now: nat) returns (es: seq<Event>, c: Cluster)
    requires x.siloId != y.siloId
    ensures es == [Start(x), Start(y), JoinRpc(y.siloId, x), PingFails(y.siloId, x.siloId, now), Send(y.siloId, 2)]
    ensures Reached(es, c) && x.siloId in c.silos && c.silos[x.siloId] == NewTable(x)
    ensures [JoinUpdate(x), SuspectUpdate(x, 0, y.siloId)] in c.sent
  {
    es, c := ReachJoined(x, y);
    Extend(es, c, PingFails(y.siloId, x.siloId, now));
    es, c := es + [PingFails(y.siloId, x.siloId, now)], Step(c, PingFails(y.siloId, x.siloId, now));
    assert c.silos[y.siloId].pending == [JoinUpdate(x), SuspectUpdate(x, 0, y.siloId)];
    assert Drained(c.silos[y.siloId], 2) == [JoinUpdate(x), SuspectUpdate(x, 0, y.siloId)];
    Extend(es, c, Send(y.siloId, 2));
    es, c := es + [Send(y.siloId, 2)], Step(c, Send(y.siloId, 2));
  }

  // --- Rumours that reach another silo ---

  /** A silo sends everything it has queued. */
  lemma SendAll(es: seq<Event>, c: Cluster, s: string) returns (c': Cluster)
    requires Reached(es, c) && s in c.silos
    ensures Reached(es + [Send(s, |c.silos[s].pending|)], c')
    ensures c'.silos == c.silos[s := c.silos[s].(pending := [])]
    ensures c'.sent == c.sent + {c.silos[s].pending}
  {
    var n := |c.silos[s].pending|;
    Extend(es, c, Send(s, n));
    c' := Step(c, Send(s, n));
    assert Drained(c.silos[s], n) == c.silos[s].pending;
    assert AfterDrain(c.silos[s], n) == c.silos[s].(pending := []);
  }

  /** A silo gets one rumour that was sent on its own. */
  lemma DeliverOne(es: seq<Event>, c: Cluster, r: string, u: GossipUpdate, clock: Clock) returns (c': Cluster)
    requires Reached(es, c) && r in c.silos && [u] in c.sent
    ensures Reached(es + [Deliver(r, [u], clock)], c')
    ensures c' == c.(silos := c.silos[r := ApplyUpdate(c.silos[r], u, clock(0))])
  {
    Extend(es, c, Deliver(r, [u], clock));
    c' := Step(c, Deliver(r, [u], clock));
    assert [u][..0] == [];
    assert ApplyAll(c.silos[r], [u], clock) == ApplyUpdate(c.silos[r], u, clock(0));
  }

  /** After every run: `s` sends what it has queued, declares `x` dead, sends that, and `r`
      gets it.  Then `r` forgets `x` exactly when it had not recorded a higher incarnation. */
  lemma DeathIsHeardIff(es: seq<Event>, c: Cluster, s: string, r: string, x: string, clock: Clock)
      returns (es': seq<Event>, c': Cluster)
    requires Reached(es, c) && s in c.silos && r in c.silos && s != r && x != r
    requires x in c.silos[s].members && x in c.silos[r].members
    ensures var m := c.silos[s].members[x];
            es' == es + [Send(s, |c.silos[s].pending|)] + [DeclareDead(s, x)] + [Send(s, 1)]
                   + [Deliver(r, [DeadUpdate(m.addr, m.incarnation)], clock)]
    ensures Reached(es', c') && r in c'.silos
    ensures x in c'.silos[r].members <==> c.silos[r].members[x].incarnation > c.silos[s].members[x].incarnation
  {
    RunsKeepNoneAbove(es);
    var m := c.silos[s].members[x];
    assert TableBelow(c.silos[s], Claims(c)) && c.silos[r].LocalId() == r;
    c' := SendAll(es, c, s);
    es' := es + [Send(s, |c.silos[s].pending|)];
    Extend(es', c', DeclareDead(s, x));
    es', c' := es' + [DeclareDead(s, x)], Step(c', DeclareDead(s, x));
    assert c'.silos[s].pending == [DeadUpdate(m.addr, m.incarnation)];
    var c3 := SendAll(es', c', s);
    es', c' := es' + [Send(s, 1)], c3;
    c' := DeliverOne(es', c', r, DeadUpdate(m.addr, m.incarnation), clock);
    es' := es' + [Deliver(r, [DeadUpdate(m.addr, m.incarnation)], clock)];
  }

  lemma SuspicionIsSent(es: seq<Event>, c: Cluster, s: string, x: string, now: nat)
      returns (es': seq<Event>, c': Cluster)
    requires Reached(es, c) && s in c.silos && x in c.silos && s != x && c.silos[s].LocalId() == s
    requires x in c.silos[s].members && c.silos[s].members[x].status == Alive
    ensures Reached(es', c') && s in c'.silos && x in c'.silos && c'.silos[x] == c.silos[x]
    ensures var m := c.silos[s].members[x];
            && c'.silos[s] == c.silos[s].(members := c.silos[s].members[x := m.(status := Suspect(now, s))],
                                          pending := [])
            && [SuspectUpdate(m.addr, m.incarnation, s)] in c'.sent
  {
    var m := c.silos[s].members[x];
    c' := SendAll(es, c, s);
    es' := es + [Send(s, |c.silos[s].pending|)];
    Extend(es', c', PingFails(s, x, now));
    es', c' := es' + [PingFails(s, x, now)], Step(c', PingFails(s, x, now));
    assert c'.silos[s].pending == [SuspectUpdate(m.addr, m.incarnation, s)];
    var c3 := SendAll(es', c', s);
    es', c' := es' + [Send(s, 1)], c3;
  }

  /** After every run: `s` suspects `x`, which it records as Alive, and the suspicion reaches
      `x` alone.  `x` answers it exactly when the suspicion is at its own incarnation; a
      suspicion at an older one changes nothing at `x`, and nothing is queued against it. */
  lemma SuspicionIsAnsweredIff(es: seq<Event>, c: Cluster, s: string, x: string, now: nat, clock: Clock)
      returns (es': seq<Event>, c': Cluster)
    requires Reached(es, c) && s in c.silos && x in c.silos && s != x
    requires x in c.silos[s].members && c.silos[s].members[x].status == Alive
    ensures Reached(es', c') && s in c'.silos && x in c'.silos
    ensures var m, own := c.silos[s].members[x], c.silos[x].incarnation;
            && m.incarnation <= own
            && x in c'.silos[s].members && c'.silos[s].members[x] == m.(status := Suspect(now, s))
            && c'.silos[s].pending == []
            && c'.silos[x] == if m.incarnation == own
                              then c.silos[x].(incarnation := own + 1,
                                               pending := [AliveUpdate(c.silos[x].localAddr, own + 1)])
                              else c.silos[x].(pending := [])
  {
    RunsKeepNoneAbove(es);
    var m := c.silos[s].members[x];
    assert TableBelow(c.silos[s], Claims(c)) && c.silos[x].LocalId() == x && c.silos[s].LocalId() == s;
    es', c' := SuspicionIsSent(es, c, s, x, now);
    var c4 := SendAll(es', c', x);
    es', c' := es' + [Send(x, |c'.silos[x].pending|)], c4;
    var u := SuspectUpdate(m.addr, m.incarnation, s);
    c' := DeliverOne(es', c', x, u, clock);
    es' := es' + [Deliver(x, [u], clock)];
  }

  /** And the answer clears the suspicion, at one incarnation more. */
  lemma AnswerClearsSuspicion(es: seq<Event>, c: Cluster, s: string, x: string, inc: nat, clock: Clock)
      returns (es': seq<Event>, c': Cluster)
    requires Reached(es, c) && s in c.silos && x in c.silos && s != x && x in c.silos[s].members
    requires c.silos[x].pending == [AliveUpdate(c.silos[x].localAddr, inc)] && c.silos[s].members[x].incarnation < inc
    ensures es' == es + [Send(x, 1)] + [Deliver(s, c.silos[x].pending, clock)] && Reached(es', c') && s in c'.silos
    ensures x in c'.silos[s].members
            && c'.silos[s].members[x] == c.silos[s].members[x].(status := Alive, incarnation := inc)
  {
    RunsKeepNoneAbove(es);
    assert c.silos[x].LocalId() == x && c.silos[s].LocalId() == s;
    var u := AliveUpdate(c.silos[x].localAddr, inc);
    c' := SendAll(es, c, x);
    es' := es + [Send(x, 1)];
    c' := DeliverOne(es', c', s, u, clock);
    es' := es' + [Deliver(s, [u], clock)];
  }

  /** After every run: a silo that joins at `s`, known to neither, is recorded by every silo
      its Join rumour reaches. */
  lemma JoinIsHeard(es: seq<Event>, c: Cluster, s: string, r: string, x: SiloAddress, clock: Clock)
      returns (es': seq<Event>, c': Cluster)
    requires Reached(es, c) && s in c.silos && r in c.silos && s != r && x.siloId != r
    requires x.siloId !in c.silos[s].members && x.siloId !in c.silos[r].members
    ensures es' == es + [Send(s, |c.silos[s].pending|)] + [JoinRpc(s, x)] + [Send(s, 1)]
                   + [Deliver(r, [JoinUpdate(x)], clock)]
    ensures Reached(es', c') && r in c'.silos
    ensures x.siloId in c'.silos[r].members && c'.silos[r].members[x.siloId] == NewMember(x)
  {
    RunsKeepNoneAbove(es);
    assert c.silos[r].LocalId() == r;
    c' := SendAll(es, c, s);
    es' := es + [Send(s, |c.silos[s].pending|)];
    Extend(es', c', JoinRpc(s, x));
    es', c' := es' + [JoinRpc(s, x)], Step(c', JoinRpc(s, x));
    assert c'.silos[s].pending == [JoinUpdate(x)];
    var c3 := SendAll(es', c', s);
    es', c' := es' + [Send(s, 1)], c3;
    c' := DeliverOne(es', c', r, JoinUpdate(x), clock);
    es' := es' + [Deliver(r, [JoinUpdate(x)], clock)];
  }
}
