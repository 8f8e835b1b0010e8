/** The cross-cluster ownership directory: registration is a compare-and-swap
    fenced by a monotonic epoch. */
module CrossCluster {
  import opened Text
  import opened Grains

  type ClusterId = string

  datatype GrainOwnership = GrainOwnership(clusterId: ClusterId, epoch: nat, registeredAt: nat)

  type Entries = map<string, (GrainId, GrainOwnership)>

  function Lookup(es: Entries, g: GrainId): Option<GrainOwnership> {
    if KeyOf(g) in es then Some(es[KeyOf(g)].1) else None
  }

  /** The directory holds a record for `g` that an attempt at `epoch` cannot beat. */
  predicate Fenced(es: Entries, g: GrainId, epoch: nat) {
    KeyOf(g) in es && epoch <= es[KeyOf(g)].1.epoch
  }

  /** The directory and the answer after `register`. */
  function Register(es: Entries, g: GrainId, c: ClusterId, epoch: nat, now: nat): (Entries, GrainOwnership) {
    if Fenced(es, g, epoch) then (es, es[KeyOf(g)].1)
    else
      var ownership := GrainOwnership(c, epoch, now);
      (es[KeyOf(g) := (g, ownership)], ownership)
  }

  /** The directory after `deregister`: only the owner removes its entry. */
  function Deregister(es: Entries, g: GrainId, c: ClusterId): Entries {
    if KeyOf(g) in es && es[KeyOf(g)].1.clusterId == c then es - {KeyOf(g)} else es
  }

  /** `list_owned_by`, as a set. */
  function OwnedBy(es: Entries, c: ClusterId): set<(GrainId, GrainOwnership)> {
    set k | k in es && es[k].1.clusterId == c :: es[k]
  }

  /** Entries are filed under the key of the grain they name. */
  ghost predicate WellKeyed(es: Entries) {
    forall k :: k in es ==> KeyOf(es[k].0) == k
  }

  // --- Runs of register, promote and deregister by any number of clusters ---

  /** A promotion registers one above an ownership record seen at any time. */
  datatype Attempt =
    | RegisterAt(grain: GrainId, cluster: ClusterId, epoch: nat, now: nat)
    | Promote(grain: GrainId, cluster: ClusterId, seen: GrainOwnership, now: nat)
    | Withdraw(grain: GrainId, cluster: ClusterId)

  function EpochOf(a: Attempt): nat
    requires !a.Withdraw?
  {
    match a
    case RegisterAt(_, _, epoch, _) => epoch
    case Promote(_, _, seen, _) => seen.epoch + 1
  }

  function Try(es: Entries, a: Attempt): (Entries, GrainOwnership)
    requires !a.Withdraw?
  {
    Register(es, a.grain, a.cluster, EpochOf(a), a.now)
  }

  function After(es: Entries, a: Attempt): Entries {
    if a.Withdraw? then Deregister(es, a.grain, a.cluster) else Try(es, a).0
  }

  function Final(run: seq<Attempt>): Entries {
    if run == [] then map[] else After(Final(run[..|run| - 1]), run[|run| - 1])
  }

  /** What the `i`-th attempt of the run was answered. */
  function Answer(run: seq<Attempt>, i: nat): GrainOwnership
    requires i < |run| && !run[i].Withdraw?
  {
    Try(Final(run[..i]), run[i]).1
  }

  /** The `k`-th step takes the record filed under `key` out. */
  predicate Withdrawn(run: seq<Attempt>, k: nat, key: string)
    requires k < |run|
  {
    key in Final(run[..k]) && key !in Final(run[..k + 1])
  }

  /** The later record is the same one, or carries a strictly larger epoch. */
  predicate Supersedes(old_: GrainOwnership, new_: GrainOwnership) {
    new_ == old_ || new_.epoch > old_.epoch
  }

  lemma FinalSnoc(run: seq<Attempt>, i: nat)
    requires i < |run|
    ensures Final(run[..i + 1]) == After(Final(run[..i]), run[i])
  {
    assert run[..i + 1][..i] == run[..i];
  }

  /** From any point of a run on, until it is withdrawn, a grain's record only gives way
      to larger epochs: epochs never fall and owners change only with a larger one. */
  lemma {:induction false} EpochsNeverFall(run: seq<Attempt>, i: nat, j: nat, key: string)
    requires i <= j <= |run| && key in Final(run[..i])
    requires forall k :: i <= k < j ==> !Withdrawn(run, k, key)
    ensures key in Final(run[..j]) && Supersedes(Final(run[..i])[key].1, Final(run[..j])[key].1)
    decreases j - i
  {
    if i < j {
      FinalSnoc(run, i);
      assert !Withdrawn(run, i, key);
      EpochsNeverFall(run, i + 1, j, key);
    }
  }

  /** The answer to an attempt is the record the directory then holds. */
  lemma AnswerIsRecorded(run: seq<Attempt>, i: nat)
    requires i < |run| && !run[i].Withdraw?
    ensures var key := KeyOf(run[i].grain);
            key in Final(run[..i + 1]) && Final(run[..i + 1])[key].1 == Answer(run, i)
  {
    FinalSnoc(run, i);
  }

  /** In every run each (grain, epoch) pair is granted to at most one cluster: two answers
      about a grain with the same epoch are the same, unless the grain was withdrawn
      between them. */
  lemma OneClusterPerEpoch(run: seq<Attempt>, i: nat, j: nat)
    requires i < j < |run| && !run[i].Withdraw? && !run[j].Withdraw? && run[i].grain == run[j].grain
    requires Answer(run, i).epoch == Answer(run, j).epoch
    ensures Answer(run, i) == Answer(run, j) || exists k :: i < k < j && Withdrawn(run, k, KeyOf(run[i].grain))
  {
    var key := KeyOf(run[i].grain);
    if forall k :: i < k < j ==> !Withdrawn(run, k, key) {
      AnswerIsRecorded(run, i);
      AnswerIsRecorded(run, j);
      FinalSnoc(run, j);
      EpochsNeverFall(run, i + 1, j + 1, key);
    }
  }

  /** Only a deregistration by the recorded owner withdraws a record. */
  lemma WithdrawnIffOwnerDeregisters(run: seq<Attempt>, k: nat, key: string)
    requires k < |run|
    ensures Withdrawn(run, k, key) <==>
            && run[k].Withdraw? && KeyOf(run[k].grain) == key
            && key in Final(run[..k]) && Final(run[..k])[key].1.clusterId == run[k].cluster
  {
    FinalSnoc(run, k);
  }

  /** A withdrawal forgets the fence: the same epoch is granted to two clusters. */
  lemma WithdrawalRegrantsEpoch(g: GrainId, c1: ClusterId, c2: ClusterId, epoch: nat, now: nat, later: nat)
      returns (run: seq<Attempt>)
    ensures run == [RegisterAt(g, c1, epoch, now), Withdraw(g, c1), RegisterAt(g, c2, epoch, later)]
    ensures Answer(run, 0) == GrainOwnership(c1, epoch, now) && Answer(run, 2) == GrainOwnership(c2, epoch, later)
  {
    run := [RegisterAt(g, c1, epoch, now), Withdraw(g, c1), RegisterAt(g, c2, epoch, later)];
    assert run[..0] == [];
    FinalSnoc(run, 0);
    FinalSnoc(run, 1);
  }

  /** An attempt wins exactly when it is not fenced; otherwise the directory is left alone
      and the attempt is told the standing record. */
  lemma WinsIffNotFenced(run: seq<Attempt>, i: nat)
    requires i < |run| && !run[i].Withdraw?
    ensures !Fenced(Final(run[..i]), run[i].grain, EpochOf(run[i]))
            <==> Final(run[..i + 1]) != Final(run[..i])
    ensures Final(run[..i + 1]) == Final(run[..i]) ==>
              && Lookup(Final(run[..i]), run[i].grain) == Some(Answer(run, i))
              && Answer(run, i).epoch >= EpochOf(run[i])
    ensures Final(run[..i + 1]) != Final(run[..i]) ==>
              Answer(run, i) == GrainOwnership(run[i].cluster, EpochOf(run[i]), run[i].now)
  {
    FinalSnoc(run, i);
    var es, key := Final(run[..i]), KeyOf(run[i].grain);
    assert !Fenced(es, run[i].grain, EpochOf(run[i])) && key in es ==>
        Final(run[..i + 1])[key].1.epoch != es[key].1.epoch;
  }

  // --- Following one grain through a run ---

  /** What the attempts on one key lead to, if there was no record before: a larger epoch
      takes over, and the holder may withdraw. */
  function Contest(run: seq<Attempt>, key: string): Option<GrainOwnership> {
    if run == [] then None
    else
      var held, a := Contest(run[..|run| - 1], key), run[|run| - 1];
      if KeyOf(a.grain) != key then held
      else if a.Withdraw? then (if held.Some? && held.value.clusterId == a.cluster then None else held)
      else if held.None? || EpochOf(a) > held.value.epoch then Some(GrainOwnership(a.cluster, EpochOf(a), a.now))
      else held
  }

  /** The record of a key that had none is decided by the attempts on it alone. */
  lemma {:induction false} ContestDecides(before: seq<Attempt>, between: seq<Attempt>, key: string)
    requires key !in Final(before)
    ensures var es := Final(before + between);
            Contest(between, key) == if key in es then Some(es[key].1) else None
    decreases between
  {
    if between == [] {
      assert before + between == before;
    } else {
      var init := between[..|between| - 1];
      ContestDecides(before, init, key);
      assert (before + between)[..|before + between| - 1] == before + init;
    }
  }

  /** The attempt registers or promotes under the key. */
  predicate Contends(a: Attempt, key: string) {
    !a.Withdraw? && KeyOf(a.grain) == key
  }

  /** Attempt `k` has the largest epoch of those on the key, and is the first with it. */
  ghost predicate FirstLargest(run: seq<Attempt>, key: string, k: nat) {
    && k < |run| && Contends(run[k], key)
    && (forall m :: 0 <= m < |run| && Contends(run[m], key) ==> EpochOf(run[m]) <= EpochOf(run[k]))
    && (forall m :: 0 <= m < k && Contends(run[m], key) ==> EpochOf(run[m]) < EpochOf(run[k]))
  }

  /** Without withdrawals the first attempt with the largest epoch holds the grain. */
  lemma {:induction false} FirstLargestHolds(run: seq<Attempt>, key: string)
    requires forall m :: 0 <= m < |run| && KeyOf(run[m].grain) == key ==> !run[m].Withdraw?
    ensures Contest(run, key).None? <==> forall m :: 0 <= m < |run| ==> !Contends(run[m], key)
    ensures Contest(run, key).Some? ==>
              exists k: nat :: FirstLargest(run, key, k)
                               && Contest(run, key).value == GrainOwnership(run[k].cluster, EpochOf(run[k]), run[k].now)
  {
    if run != [] {
      var init, a := run[..|run| - 1], run[|run| - 1];
      FirstLargestHolds(init, key);
      var held := Contest(init, key);
      assert forall m :: 0 <= m < |init| ==> init[m] == run[m];
      if Contends(a, key) && (held.None? || EpochOf(a) > held.value.epoch) {
        LaterAttemptTakesOver(init, a, key);
        assert init + [a] == run;
      } else if held.Some? {
        var k: nat :| FirstLargest(init, key, k)
                      && held.value == GrainOwnership(init[k].cluster, EpochOf(init[k]), init[k].now);
        assert FirstLargest(run, key, k);
      }
    }
  }

  lemma LaterAttemptTakesOver(init: seq<Attempt>, a: Attempt, key: string)
    requires Contends(a, key)
    requires forall m :: 0 <= m < |init| && Contends(init[m], key) ==> EpochOf(init[m]) < EpochOf(a)
    ensures FirstLargest(init + [a], key, |init|)
  {
  }

  /** Grains whose type names contain no '/' do not disturb each other. */
  lemma GrainsAreIndependent(es: Entries, a: Attempt, g: GrainId)
    requires '/' !in a.grain.typeName && '/' !in g.typeName && a.grain != g
    ensures Lookup(After(es, a), g) == Lookup(es, g)
  {
    KeyOfInjective(a.grain, g);
  }

  // --- The mutable directory ---

  class InMemoryCrossClusterDirectory {
    var entries: Entries

    ghost predicate Valid()
      reads this
    {
      WellKeyed(entries)
    }

    constructor ()
      ensures Valid() && entries == map[]
    {
      entries := map[];
    }

    method RegisterGrain(g: GrainId, c: ClusterId, epoch: nat, now: nat) returns (owner: GrainOwnership)
      requires Valid()
      modifies this
      ensures Valid()
      ensures (entries, owner) == Register(old(entries), g, c, epoch, now)
    {
      var key := KeyOf(g);
      if key in entries {
        var existing := entries[key].1;
        if existing.clusterId != c && epoch <= existing.epoch {
          return existing;
        }
        if existing.clusterId == c && epoch <= existing.epoch {
          return existing;
        }
      }
      owner := GrainOwnership(c, epoch, now);
      entries := entries[key := (g, owner)];
    }

    method DeregisterGrain(g: GrainId, c: ClusterId)
      requires Valid()
      modifies this
      ensures Valid()
      ensures entries == Deregister(old(entries), g, c)
    {
      var key := KeyOf(g);
      if key in entries && entries[key].1.clusterId == c {
        entries := entries - {key};
      }
    }

    /** The owned grains, each once, in some order. */
    method ListOwnedBy(c: ClusterId) returns (owned: seq<(GrainId, GrainOwnership)>)
      requires Valid()
      ensures forall x :: x in owned <==> x in OwnedBy(entries, c)
      ensures forall i, j :: 0 <= i < j < |owned| ==> owned[i] != owned[j]
    {
      owned := [];
      var todo := OwnedBy(entries, c);
      while todo != {}
        invariant todo <= OwnedBy(entries, c)
        invariant forall x :: x in owned <==> x in OwnedBy(entries, c) && x !in todo
        invariant forall i, j :: 0 <= i < j < |owned| ==> owned[i] != owned[j]
        decreases todo
      {
        var x :| x in todo;
        owned := owned + [x];
        todo := todo - {x};
      }
    }
  }
}
