/** The versioned membership table: a compare-and-swap on one version gives a total
    order of views, and equal updates give equal views and rings. */
module MembershipTable {
  import opened Text
  import opened Rings

  datatype MembershipStatus = Joining | Active | Suspect | Dead

  datatype MemberEntry = MemberEntry(
    addr: SiloAddress,
    status: MembershipStatus,
    generation: nat,
    suspectors: seq<string>,
    iAmAlive: nat)
  {
    function Id(): string {
      addr.siloId
    }
  }

  datatype MembershipView = MembershipView(version: nat, members: seq<MemberEntry>)

  datatype MembershipError = VersionConflict(expected: nat, actual: nat) | NotFound(siloId: string)

  datatype UpdateResult = Updated(view: MembershipView) | Failed(error: MembershipError)

  type Members = map<string, MemberEntry>

  datatype Table = Table(version: nat, members: Members)

  const EMPTY_TABLE: Table := Table(0, map[])

  predicate Keyed(ms: Members) {
    forall id :: id in ms ==> ms[id].Id() == id
  }

  // --- Views ---

  ghost predicate SortedById(ms: seq<MemberEntry>) {
    forall i, j :: 0 <= i < j < |ms| ==> Below(ms[i].Id(), ms[j].Id())
  }

  /** The rows of the table, sorted by silo id. */
  ghost predicate IsListing(list: seq<MemberEntry>, ms: Members) {
    && SortedById(list)
    && forall e :: e in list <==> e.Id() in ms && ms[e.Id()] == e
  }

  lemma {:induction false} SortedUnique(a: seq<MemberEntry>, b: seq<MemberEntry>)
    requires SortedById(a) && SortedById(b)
    requires forall e :: e in a <==> e in b
    ensures a == b
  {
    if a == [] {
      HeadIsElement(b);
    } else {
      assert a[0] in b && b != [] && b[0] in a;
      if a[0] != b[0] {
        var j :| 0 <= j < |b| && b[j] == a[0];
        var i :| 0 <= i < |a| && a[i] == b[0];
        BelowTransitive(a[0].Id(), b[0].Id(), a[0].Id());
        BelowIrreflexive(a[0].Id());
      }
      RestSame(a, b);
      SortedUnique(a[1..], b[1..]);
    }
  }

  lemma HeadIsElement(b: seq<MemberEntry>)
    ensures b == [] || b[0] in b
  {
  }

  lemma RestSame(a: seq<MemberEntry>, b: seq<MemberEntry>)
    requires SortedById(a) && SortedById(b) && a != [] && b != [] && a[0] == b[0]
    requires forall e :: e in a <==> e in b
    ensures forall e :: e in a[1..] <==> e in b[1..]
  {
    RestExcludesFirst(a);
    RestExcludesFirst(b);
  }

  lemma RestExcludesFirst(a: seq<MemberEntry>)
    requires SortedById(a) && a != []
    ensures forall e :: e in a[1..] <==> e in a && e != a[0]
  {
    forall e | e in a[1..]
      ensures e != a[0]
    {
      BelowIrreflexive(a[0].Id());
    }
    forall e | e in a && e != a[0]
      ensures e in a[1..]
    {
      var i :| 0 <= i < |a| && a[i] == e;
      assert a[1..][i - 1] == e;
    }
  }

  /** Whatever order the rows are enumerated in, the sorted view is the same. */
  lemma ListingUnique(a: seq<MemberEntry>, b: seq<MemberEntry>, ms: Members)
    requires IsListing(a, ms) && IsListing(b, ms)
    ensures a == b
  {
    SortedUnique(a, b);
  }

  function Insert(list: seq<MemberEntry>, e: MemberEntry): seq<MemberEntry> {
    if list == [] || Below(e.Id(), list[0].Id()) then [e] + list else [list[0]] + Insert(list[1..], e)
  }

  lemma {:induction false} InsertSorted(list: seq<MemberEntry>, e: MemberEntry)
    requires SortedById(list) && forall x :: x in list ==> x.Id() != e.Id()
    ensures SortedById(Insert(list, e))
    ensures forall x :: x in Insert(list, e) <==> x in list || x == e
  {
    if list != [] {
      assert list == [list[0]] + list[1..];
      if Below(e.Id(), list[0].Id()) {
        forall j | 0 <= j < |list|
          ensures Below(e.Id(), list[j].Id())
        {
          if j > 0 {
            BelowTransitive(e.Id(), list[0].Id(), list[j].Id());
          }
        }
      } else {
        BelowTotal(e.Id(), list[0].Id());
        assert list[0] in list;
        InsertSorted(list[1..], e);
        var rest := Insert(list[1..], e);
        forall j | 0 <= j < |rest|
          ensures Below(list[0].Id(), rest[j].Id())
        {
          assert rest[j] in rest;
          if rest[j] in list[1..] {
            var k :| 0 <= k < |list[1..]| && list[1..][k] == rest[j];
            assert list[k + 1] == rest[j];
          }
        }
      }
    }
  }

  // --- Active silos and their ring ---

  /** `active_silos`. */
  function ActiveSilos(list: seq<MemberEntry>): seq<SiloAddress> {
    if list == [] then []
    else ActiveSilos(list[..|list| - 1])
         + if list[|list| - 1].status == Active then [list[|list| - 1].addr] else []
  }

  /** `build_ring`. */
  function BuildRing(l: Layout, list: seq<MemberEntry>): Ring {
    l.AddAll(map[], ActiveSilos(list))
  }

  lemma {:induction false} ActiveSilosAre(list: seq<MemberEntry>, a: SiloAddress)
    ensures a in ActiveSilos(list) <==> exists i :: 0 <= i < |list| && list[i].status == Active && list[i].addr == a
  {
    if list != [] {
      ActiveSilosAre(list[..|list| - 1], a);
    }
  }

  lemma {:induction false} AddAllOnlyThese(l: Layout, silos: seq<SiloAddress>, p: Position)
    requires p in l.AddAll(map[], silos)
    ensures l.AddAll(map[], silos)[p] in silos
  {
    var init := silos[..|silos| - 1];
    if p !in l.Vnodes(silos[|silos| - 1].siloId) {
      AddAllOnlyThese(l, init, p);
    }
  }

  /** The ring of a view serves every position from a row that is Active. */
  lemma RingServesOnlyActive(l: Layout, ms: Members, list: seq<MemberEntry>, p: Position)
    requires IsListing(list, ms) && p in BuildRing(l, list)
    ensures var a := BuildRing(l, list)[p];
            a.siloId in ms && ms[a.siloId].status == Active && ms[a.siloId].addr == a
  {
    AddAllOnlyThese(l, ActiveSilos(list), p);
    var a := BuildRing(l, list)[p];
    ActiveSilosAre(list, a);
    var i :| 0 <= i < |list| && list[i].status == Active && list[i].addr == a;
    assert list[i] in list;
  }

  function IdsOf(silos: seq<SiloAddress>): set<string> {
    set a | a in silos :: a.siloId
  }

  lemma {:induction false} AddAllHolds(l: Layout, silos: seq<SiloAddress>)
    requires l.CollisionFree(IdsOf(silos))
    ensures Holds(l, l.AddAll(map[], silos), IdsOf(silos))
  {
    if silos != [] {
      var init, a := silos[..|silos| - 1], silos[|silos| - 1];
      assert forall x :: x in silos <==> x in init || x == a;
      assert IdsOf(silos) == IdsOf(init) + {a.siloId};
      AddAllHolds(l, init);
      HoldsAdd(l, l.AddAll(map[], init), IdsOf(init), a);
    }
  }

  function ActiveIds(ms: Members): set<string> {
    set id | id in ms && ms[id].status == Active
  }

  lemma ActiveSilosCover(ms: Members, list: seq<MemberEntry>)
    requires IsListing(list, ms) && Keyed(ms)
    ensures IdsOf(ActiveSilos(list)) == ActiveIds(ms)
  {
    forall a | a in ActiveSilos(list)
      ensures a.siloId in ActiveIds(ms)
    {
      ActiveSilosAre(list, a);
      var i :| 0 <= i < |list| && list[i].status == Active && list[i].addr == a;
      assert list[i] in list;
    }
    forall id | id in ActiveIds(ms)
      ensures id in IdsOf(ActiveSilos(list))
    {
      assert ms[id] in list;
      var i :| 0 <= i < |list| && list[i] == ms[id];
      ActiveSilosAre(list, ms[id].addr);
    }
  }

  /** Where vnodes do not collide, the ring of a view holds exactly the Active silos: every
      vnode of each of them, and no other. */
  lemma RingHoldsActive(l: Layout, ms: Members, list: seq<MemberEntry>)
    requires IsListing(list, ms) && Keyed(ms) && l.CollisionFree(ActiveIds(ms))
    ensures Holds(l, BuildRing(l, list), ActiveIds(ms))
  {
    ActiveSilosCover(ms, list);
    AddAllHolds(l, ActiveSilos(list));
  }

  // --- The compare-and-swap ---

  function AfterUpdate(t: Table, e: MemberEntry, expected: nat): Table {
    if t.version != expected then t else Table(t.version + 1, t.members[e.Id() := e])
  }

  function AfterHeartbeat(t: Table, id: string, now: nat): Table {
    if id in t.members then t.(members := t.members[id := t.members[id].(iAmAlive := now)]) else t
  }

  /** What any number of clients do to the table: updates against a version they
      read at some time, and heartbeats. */
  datatype Op =
    | TryUpdate(entry: MemberEntry, expected: nat)
    | Heartbeat(siloId: string, now: nat)

  function Do(t: Table, op: Op): Table {
    match op
    case TryUpdate(e, expected) => AfterUpdate(t, e, expected)
    case Heartbeat(id, now) => AfterHeartbeat(t, id, now)
  }

  function Final(run: seq<Op>): Table {
    if run == [] then EMPTY_TABLE else Do(Final(run[..|run| - 1]), run[|run| - 1])
  }

  /** The `i`-th operation of the run is an update that went through. */
  predicate Wins(run: seq<Op>, i: nat)
    requires i < |run|
  {
    run[i].TryUpdate? && run[i].expected == Final(run[..i]).version
  }

  /** The entries of the winning updates, in order. */
  function Winners(run: seq<Op>): seq<MemberEntry> {
    if run == [] then []
    else Winners(run[..|run| - 1]) + if Wins(run, |run| - 1) then [run[|run| - 1].entry] else []
  }

  /** Successful updates carry versions 1, 2, 3, ...: the version is their count. */
  lemma {:induction false} VersionCountsWinners(run: seq<Op>)
    ensures Final(run).version == |Winners(run)|
  {
    if run != [] {
      VersionCountsWinners(run[..|run| - 1]);
    }
  }

  lemma {:induction false} VersionsOnlyGrow(run: seq<Op>, i: nat)
    requires i <= |run|
    ensures Final(run[..i]).version <= Final(run).version
    decreases |run| - i
  {
    if i == |run| {
      assert run[..i] == run;
    } else {
      assert run[..i + 1][..i] == run[..i];
      VersionsOnlyGrow(run, i + 1);
    }
  }

  /** A winning update produces the version one above the one it expected, and a
      later winner expected strictly more: writers that share an expected version
      have at most one winner among them. */
  lemma AtMostOneWinnerPerVersion(run: seq<Op>, i: nat, j: nat)
    requires i < j < |run| && Wins(run, i) && Wins(run, j)
    ensures Final(run[..i + 1]).version == run[i].expected + 1
    ensures run[i].expected < run[j].expected
  {
    assert run[..i + 1][..i] == run[..i];
    assert run[..j][..i + 1] == run[..i + 1];
    VersionsOnlyGrow(run[..j], i + 1);
  }

  // --- The table is the fold of the winners ---

  /** The row without its diagnostic heartbeat. */
  function Agreed(e: MemberEntry): MemberEntry {
    e.(iAmAlive := 0)
  }

  function AgreedMembers(ms: Members): Members {
    map id | id in ms :: Agreed(ms[id])
  }

  function FoldEntries(es: seq<MemberEntry>): Members {
    if es == [] then map[] else FoldEntries(es[..|es| - 1])[es[|es| - 1].Id() := es[|es| - 1]]
  }

  lemma AgreedUpdate(ms: Members, e: MemberEntry)
    ensures AgreedMembers(ms[e.Id() := e]) == AgreedMembers(ms)[e.Id() := Agreed(e)]
  {
  }

  lemma HeartbeatAgrees(t: Table, id: string, now: nat)
    ensures AgreedMembers(AfterHeartbeat(t, id, now).members) == AgreedMembers(t.members)
  {
  }

  /** Heartbeats aside, every row is the one the last winning update for its silo wrote. */
  lemma {:induction false} TableIsFoldOfWinners(run: seq<Op>)
    ensures AgreedMembers(Final(run).members) == AgreedMembers(FoldEntries(Winners(run)))
    ensures Keyed(Final(run).members)
  {
    if run != [] {
      var init, op := run[..|run| - 1], run[|run| - 1];
      TableIsFoldOfWinners(init);
      var t, w := Final(init), Winners(init);
      if Wins(run, |run| - 1) {
        assert (w + [op.entry])[..|w|] == w;
        AgreedUpdate(t.members, op.entry);
        AgreedUpdate(FoldEntries(w), op.entry);
      } else {
        assert Winners(run) == w;
        if op.Heartbeat? {
          HeartbeatAgrees(t, op.siloId, op.now);
        }
      }
    }
  }

  /** The last sign of life of a silo: from its last winning update, or a heartbeat since. */
  function LastSign(run: seq<Op>, id: string): Option<nat> {
    if run == [] then None
    else
      var before, op := LastSign(run[..|run| - 1], id), run[|run| - 1];
      if op.TryUpdate? then (if Wins(run, |run| - 1) && op.entry.Id() == id then Some(op.entry.iAmAlive) else before)
      else if op.siloId == id && before.Some? then Some(op.now) else before
  }

  /** In every interleaving each row carries the last sign of life of its silo. */
  lemma {:induction false} RowsCarryLastSign(run: seq<Op>, id: string)
    ensures LastSign(run, id)
            == if id in Final(run).members then Some(Final(run).members[id].iAmAlive) else None
  {
    if run != [] {
      RowsCarryLastSign(run[..|run| - 1], id);
    }
  }

  // --- Equal updates, equal views, equal rings ---

  function AgreedList(list: seq<MemberEntry>): seq<MemberEntry> {
    seq(|list|, i requires 0 <= i < |list| => Agreed(list[i]))
  }

  lemma AgreedListing(list: seq<MemberEntry>, ms: Members)
    requires IsListing(list, ms) && Keyed(ms)
    ensures IsListing(AgreedList(list), AgreedMembers(ms))
  {
    var al, am := AgreedList(list), AgreedMembers(ms);
    forall e | e in al
      ensures e.Id() in am && am[e.Id()] == e
    {
      var i :| 0 <= i < |al| && al[i] == e;
      assert list[i] in list;
    }
    forall e: MemberEntry | e.Id() in am && am[e.Id()] == e
      ensures e in al
    {
      assert ms[e.Id()] in list;
      var i :| 0 <= i < |list| && list[i] == ms[e.Id()];
      assert al[i] == e;
    }
  }

  lemma {:induction false} HeartbeatsDoNotMoveSilos(list: seq<MemberEntry>)
    ensures ActiveSilos(AgreedList(list)) == ActiveSilos(list)
  {
    if list != [] {
      HeartbeatsDoNotMoveSilos(list[..|list| - 1]);
      assert AgreedList(list)[..|list| - 1] == AgreedList(list[..|list| - 1]);
    }
  }

  /** Two tables whose winning updates are the same — however their clients
      interleaved, failed or sent heartbeats — are at the same version, list the
      same rows in the same order, and build the same ring. */
  lemma SameUpdatesSameRing(l: Layout, run1: seq<Op>, run2: seq<Op>, list1: seq<MemberEntry>, list2: seq<MemberEntry>)
    requires Winners(run1) == Winners(run2)
    requires IsListing(list1, Final(run1).members) && IsListing(list2, Final(run2).members)
    ensures Final(run1).version == Final(run2).version
    ensures AgreedList(list1) == AgreedList(list2)
    ensures ActiveSilos(list1) == ActiveSilos(list2) && BuildRing(l, list1) == BuildRing(l, list2)
  {
    VersionCountsWinners(run1);
    VersionCountsWinners(run2);
    TableIsFoldOfWinners(run1);
    TableIsFoldOfWinners(run2);
    AgreedListing(list1, Final(run1).members);
    AgreedListing(list2, Final(run2).members);
    ListingUnique(AgreedList(list1), AgreedList(list2), AgreedMembers(Final(run1).members));
    HeartbeatsDoNotMoveSilos(list1);
    HeartbeatsDoNotMoveSilos(list2);
  }

  // --- The mutable table ---

  class InMemoryMembershipTable {
    var version: nat
    var members: Members

    ghost predicate Valid()
      reads this
    {
      Keyed(members)
    }

    function View(): Table
      reads this
    {
      Table(version, members)
    }

    constructor ()
      ensures Valid() && View() == EMPTY_TABLE
    {
      version, members := 0, map[];
    }

    /** `snapshot`: rows in the map's own order, sorted by silo id. */
    method ReadAll() returns (view: MembershipView)
      requires Valid()
      ensures view.version == version && IsListing(view.members, members)
    {
      var list: seq<MemberEntry> := [];
      var todo := members.Keys;
      while todo != {}
        invariant todo <= members.Keys
        invariant SortedById(list)
        invariant forall e :: e in list <==> e.Id() in members && e.Id() !in todo && members[e.Id()] == e
        decreases todo
      {
        var id :| id in todo;
        InsertSorted(list, members[id]);
        list := Insert(list, members[id]);
        todo := todo - {id};
      }
      view := MembershipView(version, list);
    }

    method TryUpdateEntry(entry: MemberEntry, expected: nat) returns (r: UpdateResult)
      requires Valid()
      modifies this
      ensures Valid()
      ensures View() == AfterUpdate(old(View()), entry, expected)
      ensures old(version) != expected ==> r == Failed(VersionConflict(expected, old(version)))
      ensures old(version) == expected ==>
                r.Updated? && r.view.version == expected + 1 && IsListing(r.view.members, members)
    {
      if version != expected {
        return Failed(VersionConflict(expected, version));
      }
      members := members[entry.Id() := entry];
      version := version + 1;
      var view := ReadAll();
      return Updated(view);
    }

    method UpdateIAmAlive(siloId: string, now: nat) returns (error: Option<MembershipError>)
      requires Valid()
      modifies this`members
      ensures Valid()
      ensures View() == AfterHeartbeat(old(View()), siloId, now)
      ensures error == if siloId in old(members) then None else Some(NotFound(siloId))
    {
      if siloId in members {
        members := members[siloId := members[siloId].(iAmAlive := now)];
        return None;
      }
      return Some(NotFound(siloId));
    }
  }
}
