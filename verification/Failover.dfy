/** The failover manager: a timed phase machine per peer cluster, and the sweep
    that promotes a failed peer's grains. */
module Failover {
  import opened Grains
  import opened CrossCluster

  datatype PeerStatus = Healthy | Unreachable | Unknown

  datatype FailoverPhase =
    | Monitoring
    | PrimaryUnreachable(since: nat)
    | Promoting
    | Promoted(epoch: nat)

  // --- The phase machine of one peer ---

  /** One health check of a peer: when, what was seen, and — should a sweep be
      due — whether the directory listing answers, and the largest epoch granted. */
  datatype Check = Check(now: nat, status: PeerStatus, listOk: bool, maxEpoch: nat)

  function Elapsed(since: nat, now: nat): nat {
    if now >= since then now - since else 0
  }

  /** A sweep is attempted at this check. */
  predicate SweepDue(phase: FailoverPhase, c: Check) {
    phase.Promoting? && c.status == Unreachable
  }

  function NextPhase(phase: FailoverPhase, c: Check, grace: nat): FailoverPhase {
    match (c.status, phase)
    case (Healthy, _) => Monitoring
    case (Unreachable, Monitoring) => PrimaryUnreachable(c.now)
    case (Unreachable, PrimaryUnreachable(since)) =>
      if Elapsed(since, c.now) >= grace then Promoting else phase
    case (Unreachable, Promoting) => if c.listOk then Promoted(c.maxEpoch) else phase
    case _ => phase
  }

  function PhaseAfter(checks: seq<Check>, grace: nat): FailoverPhase {
    if checks == [] then Monitoring
    else NextPhase(PhaseAfter(checks[..|checks| - 1], grace), checks[|checks| - 1], grace)
  }

  /** A sweep is attempted (and completes, if the listing answers) at check `k`. */
  predicate SweepAt(checks: seq<Check>, grace: nat, k: nat)
    requires k < |checks|
  {
    SweepDue(PhaseAfter(checks[..k], grace), checks[k])
  }

  predicate CompletesAt(checks: seq<Check>, grace: nat, k: nat)
    requires k < |checks|
  {
    SweepAt(checks, grace, k) && checks[k].listOk
  }

  // --- The phase, read off the history ---

  /** The Unreachable checks since the last Healthy one. */
  function Outage(checks: seq<Check>): seq<Check> {
    if checks == [] then []
    else
      var last := checks[|checks| - 1];
      if last.status == Healthy then []
      else Outage(checks[..|checks| - 1]) + if last.status == Unreachable then [last] else []
  }

  /** Check `m` of the outage is the first at which the grace period has passed. */
  ghost predicate GraceEndsAt(o: seq<Check>, grace: nat, m: int) {
    && 1 <= m < |o|
    && Elapsed(o[0].now, o[m].now) >= grace
    && forall i :: 1 <= i < m ==> Elapsed(o[0].now, o[i].now) < grace
  }

  /** The grace period ended and no sweep has completed since. */
  ghost predicate AwaitsSweep(o: seq<Check>, grace: nat) {
    exists m :: GraceEndsAt(o, grace, m) && forall i :: m < i < |o| ==> !o[i].listOk
  }

  /** Check `d` of the outage is the first after the grace period whose listing answers. */
  ghost predicate SweptAtCheck(o: seq<Check>, grace: nat, d: int) {
    && d < |o|
    && exists m :: GraceEndsAt(o, grace, m) && m < d && o[d].listOk && forall i :: m < i < d ==> !o[i].listOk
  }

  /** What the phase says about the outage so far. */
  ghost predicate Explains(phase: FailoverPhase, o: seq<Check>, grace: nat) {
    match phase
    case Monitoring => o == []
    case PrimaryUnreachable(since) =>
      o != [] && since == o[0].now && forall i :: 1 <= i < |o| ==> Elapsed(since, o[i].now) < grace
    case Promoting => AwaitsSweep(o, grace)
    case Promoted(epoch) => exists d :: SweptAtCheck(o, grace, d) && 0 <= d < |o| && epoch == o[d].maxEpoch
  }

  lemma {:induction false} PhaseIsExplained(checks: seq<Check>, grace: nat)
    ensures Explains(PhaseAfter(checks, grace), Outage(checks), grace)
  {
    if checks != [] {
      var init, c := checks[..|checks| - 1], checks[|checks| - 1];
      PhaseIsExplained(init, grace);
      if c.status == Unreachable {
        ExplainStep(PhaseAfter(init, grace), Outage(init), c, grace);
      } else if c.status == Unknown {
        assert Outage(checks) == Outage(init);
      }
    }
  }

  lemma ExplainStep(phase: FailoverPhase, o: seq<Check>, c: Check, grace: nat)
    requires Explains(phase, o, grace) && c.status == Unreachable
    ensures Explains(NextPhase(phase, c, grace), o + [c], grace)
  {
    match phase
    case Monitoring =>
    case PrimaryUnreachable(since) =>
      if Elapsed(since, c.now) >= grace {
        assert GraceEndsAt(o + [c], grace, |o|);
      }
    case Promoting =>
      var m :| GraceEndsAt(o, grace, m) && forall i :: m < i < |o| ==> !o[i].listOk;
      assert GraceEndsAt(o + [c], grace, m);
      if c.listOk {
        assert (o + [c])[|o|] == c;
        assert SweptAtCheck(o + [c], grace, |o|);
      }
    case Promoted(epoch) =>
      var d :| SweptAtCheck(o, grace, d) && 0 <= d < |o| && epoch == o[d].maxEpoch;
      var m :| GraceEndsAt(o, grace, m) && m < d && o[d].listOk && forall i :: m < i < d ==> !o[i].listOk;
      assert GraceEndsAt(o + [c], grace, m) && (o + [c])[d] == o[d];
      assert SweptAtCheck(o + [c], grace, d);
  }

  /** A sweep is attempted at a check exactly when the peer is Unreachable there,
      the grace period ended at an earlier check of the same outage, and no sweep
      has completed since. */
  lemma SweepIff(checks: seq<Check>, grace: nat, k: nat)
    requires k < |checks|
    ensures SweepAt(checks, grace, k) <==>
              checks[k].status == Unreachable && AwaitsSweep(Outage(checks[..k]), grace)
  {
    PhaseIsExplained(checks[..k], grace);
  }

  /** Elements of the outage are checks of the run with no Healthy one after. */
  lemma {:induction false} OutageElement(checks: seq<Check>, i: nat) returns (k: nat)
    requires i < |Outage(checks)|
    ensures k < |checks| && checks[k] == Outage(checks)[i] && checks[k].status == Unreachable
    ensures forall j :: k <= j < |checks| ==> checks[j].status != Healthy
  {
    var init := checks[..|checks| - 1];
    if i < |Outage(init)| {
      k := OutageElement(init, i);
    } else {
      k := |checks| - 1;
    }
  }

  /** A sweep runs only on a peer seen Unreachable at a check at least the grace
      period earlier, and never Healthy since. */
  lemma SweepOnlyAfterGrace(checks: seq<Check>, grace: nat, k: nat)
    requires k < |checks| && SweepAt(checks, grace, k)
    requires forall i, j :: 0 <= i <= j < |checks| ==> checks[i].now <= checks[j].now
    ensures exists j :: 0 <= j < k && checks[j].status == Unreachable
                        && checks[k].now - checks[j].now >= grace
                        && forall i :: j <= i <= k ==> checks[i].status != Healthy
  {
    SweepIff(checks, grace, k);
    var o := Outage(checks[..k]);
    var m :| GraceEndsAt(o, grace, m) && forall i :: m < i < |o| ==> !o[i].listOk;
    var j := OutageElement(checks[..k], 0);
    var jm := OutageElement(checks[..k], m);
    assert checks[..k][j] == checks[j] && checks[..k][jm] == checks[jm];
    forall i | j <= i <= k
      ensures checks[i].status != Healthy
    {
      assert i < k ==> checks[..k][i] == checks[i];
    }
  }

  /** Once promoted, a phase stays so until the peer is seen Healthy. */
  lemma {:induction false} PromotedUntilHealthy(checks: seq<Check>, grace: nat, i: nat)
    requires i <= |checks| && PhaseAfter(checks[..i], grace).Promoted?
    requires forall j :: i <= j < |checks| ==> checks[j].status != Healthy
    ensures PhaseAfter(checks, grace).Promoted?
    decreases |checks| - i
  {
    if i == |checks| {
      assert checks[..i] == checks;
    } else {
      assert checks[..i + 1][..i] == checks[..i];
      PromotedUntilHealthy(checks, grace, i + 1);
    }
  }

  /** At most one sweep completes per outage. */
  lemma OneSweepPerOutage(checks: seq<Check>, grace: nat, i: nat, k: nat)
    requires i < k < |checks| && CompletesAt(checks, grace, i) && SweepAt(checks, grace, k)
    ensures exists j :: i < j < k && checks[j].status == Healthy
  {
    if forall j :: i < j < k ==> checks[j].status != Healthy {
      var before := checks[..k];
      assert before[..i + 1][..i] == checks[..i] && before[..i + 1] == checks[..i + 1];
      assert checks[..i + 1][..i] == checks[..i];
      assert PhaseAfter(checks[..i + 1], grace).Promoted?;
      PromotedUntilHealthy(before, grace, i + 1);
    }
  }

  // --- The promotion sweep ---

  /** The directory after promoting `grains` one after the other; promotions of
      grains filed under a key in `fails` return an error. */
  function Swept(es: Entries, grains: seq<(GrainId, GrainOwnership)>, local: ClusterId,
                 clock: nat -> nat, fails: set<string>): Entries
  {
    if grains == [] then es
    else
      var n := |grains| - 1;
      var es', x := Swept(es, grains[..n], local, clock, fails), grains[n];
      if KeyOf(x.0) in fails then es' else Register(es', x.0, local, x.1.epoch + 1, clock(n)).0
  }

  lemma SweptSnoc(es: Entries, done: seq<(GrainId, GrainOwnership)>, x: (GrainId, GrainOwnership),
                  local: ClusterId, clock: nat -> nat, fails: set<string>)
    ensures var es' := Swept(es, done, local, clock, fails);
            Swept(es, done + [x], local, clock, fails)
            == if KeyOf(x.0) in fails then es' else Register(es', x.0, local, x.1.epoch + 1, clock(|done|)).0
  {
    assert (done + [x])[..|done|] == done;
  }

  /** The largest epoch the sweep was granted. */
  function MaxEpoch(es: Entries, grains: seq<(GrainId, GrainOwnership)>, local: ClusterId,
                    clock: nat -> nat, fails: set<string>): nat
  {
    if grains == [] then 0
    else
      var n := |grains| - 1;
      var best, x := MaxEpoch(es, grains[..n], local, clock, fails), grains[n];
      var owner := Register(Swept(es, grains[..n], local, clock, fails), x.0, local, x.1.epoch + 1, clock(n)).1;
      if KeyOf(x.0) !in fails && owner.clusterId == local && owner.epoch > best then owner.epoch else best
  }

  /** How many promotions went through, were lost to another cluster, or failed. */
  datatype Tally = Tally(promoted: nat, lost: nat, failed: nat)

  function TallyOf(es: Entries, grains: seq<(GrainId, GrainOwnership)>, local: ClusterId,
                   clock: nat -> nat, fails: set<string>): Tally
  {
    if grains == [] then Tally(0, 0, 0)
    else
      var n := |grains| - 1;
      var t, x := TallyOf(es, grains[..n], local, clock, fails), grains[n];
      var owner := Register(Swept(es, grains[..n], local, clock, fails), x.0, local, x.1.epoch + 1, clock(n)).1;
      if KeyOf(x.0) in fails then t.(failed := t.failed + 1)
      else if owner.clusterId == local then t.(promoted := t.promoted + 1)
      else t.(lost := t.lost + 1)
  }

  /** One more grain: what its promotion adds to the largest epoch and to the counts. */
  lemma CountsSnoc(es: Entries, done: seq<(GrainId, GrainOwnership)>, x: (GrainId, GrainOwnership),
                   local: ClusterId, clock: nat -> nat, fails: set<string>)
    ensures var best, t := MaxEpoch(es, done, local, clock, fails), TallyOf(es, done, local, clock, fails);
            var owner := Register(Swept(es, done, local, clock, fails), x.0, local, x.1.epoch + 1, clock(|done|)).1;
            var best' := MaxEpoch(es, done + [x], local, clock, fails);
            var t' := TallyOf(es, done + [x], local, clock, fails);
            if KeyOf(x.0) in fails then best' == best && t' == t.(failed := t.failed + 1)
            else if owner.clusterId == local then
              best' == (if best < owner.epoch then owner.epoch else best) && t' == t.(promoted := t.promoted + 1)
            else best' == best && t' == t.(lost := t.lost + 1)
  {
    assert (done + [x])[..|done|] == done;
  }

  /** `grains` lists what `peer` owns, each grain once. */
  ghost predicate Lists(es: Entries, peer: ClusterId, grains: seq<(GrainId, GrainOwnership)>) {
    && (forall x :: x in grains <==> x in OwnedBy(es, peer))
    && (forall i, j :: 0 <= i < j < |grains| ==> grains[i] != grains[j])
  }

  /** The entry went to `local`, one epoch up. */
  predicate Moved(before: (GrainId, GrainOwnership), after: (GrainId, GrainOwnership), local: ClusterId) {
    after.0 == before.0 && after.1.clusterId == local && after.1.epoch == before.1.epoch + 1
  }

  /** Exactly the entries in `done` whose promotion did not fail have moved. */
  ghost predicate SweptOver(es: Entries, es': Entries, done: seq<(GrainId, GrainOwnership)>,
                            local: ClusterId, fails: set<string>)
  {
    && es'.Keys == es.Keys
    && forall k :: k in es ==>
         if es[k] in done && k !in fails then Moved(es[k], es'[k], local) else es'[k] == es[k]
  }

  lemma SweepOneMore(es: Entries, es1: Entries, done: seq<(GrainId, GrainOwnership)>, x: (GrainId, GrainOwnership),
                     local: ClusterId, now: nat, fails: set<string>)
    requires WellKeyed(es) && SweptOver(es, es1, done, local, fails)
    requires x in es.Values && x !in done
    ensures SweptOver(es, if KeyOf(x.0) in fails then es1 else Register(es1, x.0, local, x.1.epoch + 1, now).0,
                      done + [x], local, fails)
  {
    var kx :| kx in es && es[kx] == x;
    assert kx == KeyOf(x.0) && es1[kx] == x;
    forall k | k in es
      ensures es[k] in done + [x] <==> es[k] in done || k == kx
    {
      assert es[k] == x ==> k == KeyOf(es[k].0) == kx;
    }
  }

  /** Entries of the directory, each once. */
  ghost predicate Sweepable(es: Entries, grains: seq<(GrainId, GrainOwnership)>) {
    grains == []
    || (Sweepable(es, grains[..|grains| - 1])
        && grains[|grains| - 1] in es.Values && grains[|grains| - 1] !in grains[..|grains| - 1])
  }

  lemma {:induction false} ListedIsSweepable(es: Entries, peer: ClusterId,
                                             grains: seq<(GrainId, GrainOwnership)>, n: nat)
    requires Lists(es, peer, grains) && n <= |grains|
    ensures Sweepable(es, grains[..n])
    decreases n
  {
    if n > 0 {
      ListedIsSweepable(es, peer, grains, n - 1);
      assert grains[n - 1] in OwnedBy(es, peer);
      assert grains[..n][..n - 1] == grains[..n - 1];
    }
  }

  lemma {:induction false} SweepOver(es: Entries, grains: seq<(GrainId, GrainOwnership)>,
                                     local: ClusterId, clock: nat -> nat, fails: set<string>)
    requires WellKeyed(es) && Sweepable(es, grains)
    ensures SweptOver(es, Swept(es, grains, local, clock, fails), grains, local, fails)
    decreases grains
  {
    if grains != [] {
      var n := |grains| - 1;
      var done, x := grains[..n], grains[n];
      SweepOver(es, done, local, clock, fails);
      SweepOneMore(es, Swept(es, done, local, clock, fails), done, x, local, clock(n), fails);
      assert grains == done + [x];
    }
  }

  /** In an undisturbed sweep nothing is lost to another cluster: every grain is promoted
      or its promotion failed. */
  lemma {:induction false} SweepLosesNothing(es: Entries, grains: seq<(GrainId, GrainOwnership)>,
                                             local: ClusterId, clock: nat -> nat, fails: set<string>)
    requires WellKeyed(es) && Sweepable(es, grains)
    ensures var t := TallyOf(es, grains, local, clock, fails);
            && t.lost == 0 && t.promoted + t.failed == |grains|
            && t.failed == |FailedAt(grains, fails)|
    decreases grains
  {
    if grains != [] {
      var n := |grains| - 1;
      var done, x := grains[..n], grains[n];
      SweepLosesNothing(es, done, local, clock, fails);
      SweepOver(es, done, local, clock, fails);
      var kx :| kx in es && es[kx] == x;
      assert kx == KeyOf(x.0) && Swept(es, done, local, clock, fails)[kx] == x;
      FailedAtSnoc(done, x, fails);
      assert grains == done + [x];
    }
  }

  /** Where in the list the promotions fail. */
  function FailedAt(grains: seq<(GrainId, GrainOwnership)>, fails: set<string>): set<nat> {
    set i: nat | i < |grains| && KeyOf(grains[i].0) in fails
  }

  lemma FailedAtSnoc(done: seq<(GrainId, GrainOwnership)>, x: (GrainId, GrainOwnership), fails: set<string>)
    ensures |FailedAt(done + [x], fails)| == |FailedAt(done, fails)| + if KeyOf(x.0) in fails then 1 else 0
  {
    var all := done + [x];
    assert all[|done|] == x && forall i :: 0 <= i < |done| ==> all[i] == done[i];
    assert FailedAt(all, fails) == FailedAt(done, fails) + if KeyOf(x.0) in fails then {|done|} else {};
  }

  /** In an undisturbed sweep the recorded epoch is the largest of the promoted grains' new
      epochs, and zero if none was promoted. */
  lemma {:induction false} SweepRecordsLargestEpoch(es: Entries, grains: seq<(GrainId, GrainOwnership)>,
                                                    local: ClusterId, clock: nat -> nat, fails: set<string>)
    requires WellKeyed(es) && Sweepable(es, grains)
    ensures var best := MaxEpoch(es, grains, local, clock, fails);
            && (forall i :: 0 <= i < |grains| && KeyOf(grains[i].0) !in fails ==> grains[i].1.epoch + 1 <= best)
            && (best == 0 || exists i :: 0 <= i < |grains| && KeyOf(grains[i].0) !in fails
                                         && best == grains[i].1.epoch + 1)
    decreases grains
  {
    if grains != [] {
      var n := |grains| - 1;
      var done, x := grains[..n], grains[n];
      SweepRecordsLargestEpoch(es, done, local, clock, fails);
      SweepOver(es, done, local, clock, fails);
      var kx :| kx in es && es[kx] == x;
      assert kx == KeyOf(x.0) && Swept(es, done, local, clock, fails)[kx] == x;
      CountsSnoc(es, done, x, local, clock, fails);
      assert grains == done + [x];
      assert forall i :: 0 <= i < n ==> grains[i] == done[i];
    }
  }

  /** An undisturbed sweep moves exactly the peer's grains whose promotion does not
      fail: they end up owned locally one epoch up, every other entry is
      untouched, and the peer keeps only the failures — nothing, if there are none. */
  lemma SweepMovesGrains(es: Entries, peer: ClusterId, grains: seq<(GrainId, GrainOwnership)>,
                         local: ClusterId, clock: nat -> nat, fails: set<string>)
    requires WellKeyed(es) && Lists(es, peer, grains) && peer != local
    ensures var es' := Swept(es, grains, local, clock, fails);
            && es'.Keys == es.Keys
            && (forall k :: k in es ==>
                  if es[k].1.clusterId == peer && k !in fails then Moved(es[k], es'[k], local)
                  else es'[k] == es[k])
            && OwnedBy(es', peer) == (set k | k in es && es[k].1.clusterId == peer && k in fails :: es[k])
            && (fails == {} ==> OwnedBy(es', peer) == {})
  {
    ListedIsSweepable(es, peer, grains, |grains|);
    assert grains[..|grains|] == grains;
    SweepOver(es, grains, local, clock, fails);
    forall k | k in es
      ensures es[k] in grains <==> es[k].1.clusterId == peer
    {
      assert es[k] in grains <==> es[k] in OwnedBy(es, peer);
    }
  }

  // --- The mutable manager ---

  class FailoverManager {
    const localClusterId: ClusterId
    const gracePeriod: nat
    const directory: InMemoryCrossClusterDirectory
    var peerPhases: map<ClusterId, FailoverPhase>

    constructor (localClusterId: ClusterId, gracePeriod: nat, directory: InMemoryCrossClusterDirectory)
      ensures this.localClusterId == localClusterId && this.gracePeriod == gracePeriod
      ensures this.directory == directory && peerPhases == map[]
    {
      this.localClusterId, this.gracePeriod, this.directory := localClusterId, gracePeriod, directory;
      peerPhases := map[];
    }

    function Phase(peer: ClusterId): FailoverPhase
      reads this
    {
      if peer in peerPhases then peerPhases[peer] else Monitoring
    }

    /** `promote_grain`. */
    method PromoteGrain(g: GrainId, current: GrainOwnership, now: nat) returns (owner: GrainOwnership)
      requires directory.Valid()
      modifies directory
      ensures directory.Valid()
      ensures (directory.entries, owner)
              == Register(old(directory.entries), g, localClusterId, current.epoch + 1, now)
    {
      owner := directory.RegisterGrain(g, localClusterId, current.epoch + 1, now);
    }

    /** The promotion loop over the listed grains. */
    method Sweep(grains: seq<(GrainId, GrainOwnership)>, clock: nat -> nat, fails: set<string>)
        returns (maxEpoch: nat, promoted: nat, lost: nat, failed: nat)
      requires directory.Valid()
      modifies directory
      ensures directory.Valid()
      ensures directory.entries == Swept(old(directory.entries), grains, localClusterId, clock, fails)
      ensures maxEpoch == MaxEpoch(old(directory.entries), grains, localClusterId, clock, fails)
      ensures Tally(promoted, lost, failed) == TallyOf(old(directory.entries), grains, localClusterId, clock, fails)
    {
      maxEpoch, promoted, lost, failed := 0, 0, 0, 0;
      for i := 0 to |grains|
        invariant directory.entries == Swept(old(directory.entries), grains[..i], localClusterId, clock, fails)
        invariant maxEpoch == MaxEpoch(old(directory.entries), grains[..i], localClusterId, clock, fails)
        invariant Tally(promoted, lost, failed)
                  == TallyOf(old(directory.entries), grains[..i], localClusterId, clock, fails)
        invariant directory.Valid()
      {
        SweptSnoc(old(directory.entries), grains[..i], grains[i], localClusterId, clock, fails);
        CountsSnoc(old(directory.entries), grains[..i], grains[i], localClusterId, clock, fails);
        assert grains[..i + 1] == grains[..i] + [grains[i]];
        if KeyOf(grains[i].0) in fails {
          failed := failed + 1;
        } else {
          var owner := PromoteGrain(grains[i].0, grains[i].1, clock(i));
          if owner.clusterId == localClusterId {
            promoted := promoted + 1;
            maxEpoch := if maxEpoch < owner.epoch then owner.epoch else maxEpoch;
          } else {
            lost := lost + 1;
          }
        }
      }
      assert grains[..|grains|] == grains;
    }

    /** One peer's turn in the monitoring loop; the directory answers or it does not. */
    method CheckPeer(peer: ClusterId, status: PeerStatus, now: nat, listOk: bool, clock: nat -> nat, fails: set<string>)
        returns (maxEpoch: nat)
      requires directory.Valid()
      modifies this, directory
      ensures directory.Valid()
      ensures Phase(peer) == NextPhase(old(Phase(peer)), Check(now, status, listOk, maxEpoch), gracePeriod)
      ensures forall p :: p != peer ==> Phase(p) == old(Phase(p))
      ensures !(SweepDue(old(Phase(peer)), Check(now, status, listOk, maxEpoch)) && listOk) ==>
                directory.entries == old(directory.entries)
      ensures SweepDue(old(Phase(peer)), Check(now, status, listOk, maxEpoch)) && listOk ==>
                exists grains :: Lists(old(directory.entries), peer, grains)
                  && directory.entries == Swept(old(directory.entries), grains, localClusterId, clock, fails)
                  && maxEpoch == MaxEpoch(old(directory.entries), grains, localClusterId, clock, fails)
    {
      maxEpoch := 0;
      var phase := Phase(peer);
      match (status, phase)
      case (Healthy, _) =>
        peerPhases := peerPhases[peer := Monitoring];
      case (Unreachable, Monitoring) =>
        peerPhases := peerPhases[peer := PrimaryUnreachable(now)];
      case (Unreachable, PrimaryUnreachable(since)) =>
        if Elapsed(since, now) >= gracePeriod {
          peerPhases := peerPhases[peer := Promoting];
        }
      case (Unreachable, Promoting) =>
        if listOk {
          var grains := directory.ListOwnedBy(peer);
          var promoted, lost, failed;
          maxEpoch, promoted, lost, failed := Sweep(grains, clock, fails);
          peerPhases := peerPhases[peer := Promoted(maxEpoch)];
        }
      case _ =>
    }
  }
}
