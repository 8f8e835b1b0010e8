/** Routing a grain call: forwarding to the ring owner, to another cluster or to an
    existing activation, limited by a hop count carried in the request context. */
module Transport {
  import opened Text
  import opened Grains
  import opened Rings
  import opened CrossCluster

  const MAX_HOPS: nat := 3
  const HOP_COUNT_KEY: string := "__orlando_hop_count"
  const MAX_PAYLOAD_SIZE: nat := 64 * 1024 * 1024

  type Context = map<string, string>

  datatype Request = Request(grain: GrainId, payloadSize: nat, context: Context) {

    /** The hop count as parsed; anything missing or unparsable counts as zero. */
    function Hops(): nat {
      if HOP_COUNT_KEY in context && ParseU32(context[HOP_COUNT_KEY]).Some?
      then ParseU32(context[HOP_COUNT_KEY]).value else 0
    }

    function Forwarded(): Request {
      this.(context := context[HOP_COUNT_KEY := Decimal(Hops() + 1)])
    }

    /** How many silo-to-silo forwards the hop count still permits. */
    function HopsLeft(): nat {
      if Hops() < MAX_HOPS then MAX_HOPS - Hops() else 0
    }
  }

  /** The count written by one silo is the count read by the next; nothing else of the
      request changes on the way. */
  lemma HopCountTravels(req: Request)
    requires req.Hops() < MAX_HOPS
    ensures req.Forwarded().Hops() == req.Hops() + 1
    ensures req.Forwarded().grain == req.grain && req.Forwarded().payloadSize == req.payloadSize
    ensures req.Forwarded().context - {HOP_COUNT_KEY} == req.context - {HOP_COUNT_KEY}
  {
    ParseRendered(req.Hops() + 1);
  }

  /** What a caller gets by supplying a count itself: fewer forwards, but all of them again
      once the count no longer fits 32 bits. */
  lemma SuppliedCount(req: Request, n: nat)
    requires HOP_COUNT_KEY in req.context && req.context[HOP_COUNT_KEY] == Decimal(n)
    ensures req.HopsLeft() == if n < 3 then 3 - n else if n < 0x1_0000_0000 then 0 else 3
  {
    DecimalRoundTrip(n);
    assert IsDigit(Decimal(n)[0]);
  }

  function Endpoint(a: SiloAddress): string {
    Labelled(a.host, a.port)
  }

  // --- The cross-cluster check ---

  datatype DirectoryAnswer = LookupFailed | Unowned | OwnedIn(cluster: ClusterId)

  /** What the silo knows about other clusters, if cross-cluster calls are enabled.
      `allowed` is the grain type's data-residency list, if it has one. */
  datatype CrossView = Disabled | Enabled(
    local: ClusterId,
    peers: map<ClusterId, string>,
    typeKnown: bool,
    allowed: Option<seq<ClusterId>>,
    answer: DirectoryAnswer)

  datatype CrossDecision = HandleHere(claim: bool) | ToCluster(endpoint: string) | NoAllowedCluster

  function FirstReachable(clusters: seq<ClusterId>, peers: map<ClusterId, string>): Option<string> {
    if clusters == [] then None
    else if clusters[0] in peers then Some(peers[clusters[0]])
    else FirstReachable(clusters[1..], peers)
  }

  function CrossCheck(v: CrossView): CrossDecision {
    if v.Disabled? || !v.typeKnown then HandleHere(false)
    else match v.answer
      case LookupFailed => HandleHere(false)
      case OwnedIn(cluster) =>
        if cluster != v.local && cluster in v.peers then ToCluster(v.peers[cluster]) else HandleHere(false)
      case Unowned =>
        if v.allowed.Some? && v.local !in v.allowed.value then
          match FirstReachable(v.allowed.value, v.peers)
          case Some(endpoint) => ToCluster(endpoint)
          case None => NoAllowedCluster
        else HandleHere(true)
  }

  lemma {:induction false} FirstReachableIsFirst(clusters: seq<ClusterId>, peers: map<ClusterId, string>)
    ensures FirstReachable(clusters, peers).None? <==> forall i :: 0 <= i < |clusters| ==> clusters[i] !in peers
    ensures FirstReachable(clusters, peers).Some? ==>
              exists i :: 0 <= i < |clusters| && clusters[i] in peers
                          && peers[clusters[i]] == FirstReachable(clusters, peers).value
                          && forall j :: 0 <= j < i ==> clusters[j] !in peers
  {
    if clusters != [] {
      if clusters[0] in peers {
        assert peers[clusters[0]] == FirstReachable(clusters, peers).value;
      } else {
        var rest := clusters[1..];
        FirstReachableIsFirst(rest, peers);
        assert forall i :: 0 < i < |clusters| ==> clusters[i] == rest[i - 1];
        if FirstReachable(rest, peers).Some? {
          var i :| 0 <= i < |rest| && rest[i] in peers && peers[rest[i]] == FirstReachable(rest, peers).value
                   && forall j :: 0 <= j < i ==> rest[j] !in peers;
          assert clusters[i + 1] == rest[i];
          assert forall j :: 0 <= j < i + 1 ==> clusters[j] !in peers;
        }
      }
    }
  }

  /** The endpoint a call must cross to: the owning cluster's, or for an unowned grain that
      may not live here, the first allowed cluster's that is a peer. */
  ghost predicate CrossesTo(v: CrossView, endpoint: string) {
    && v.Enabled? && v.typeKnown
    && match v.answer
       case LookupFailed => false
       case OwnedIn(c) => c != v.local && c in v.peers && v.peers[c] == endpoint
       case Unowned => v.allowed.Some? && v.local !in v.allowed.value && FirstPeer(v.allowed.value, v.peers, endpoint)
  }

  ghost predicate FirstPeer(clusters: seq<ClusterId>, peers: map<ClusterId, string>, endpoint: string) {
    exists i :: 0 <= i < |clusters| && clusters[i] in peers && peers[clusters[i]] == endpoint
                && forall j :: 0 <= j < i ==> clusters[j] !in peers
  }

  /** The whole check: where it sends a call, when it refuses one, and when it claims the
      grain. */
  lemma CrossCheckDecides(v: CrossView)
    ensures forall e :: CrossCheck(v) == ToCluster(e) <==> CrossesTo(v, e)
    ensures CrossCheck(v) == NoAllowedCluster <==>
            && v.Enabled? && v.typeKnown && v.answer == Unowned && v.allowed.Some? && v.local !in v.allowed.value
            && forall c :: c in v.allowed.value ==> c !in v.peers
    ensures CrossCheck(v) == HandleHere(true) <==> MayHost(v) && v.answer == Unowned
  {
    if v.Enabled? && v.allowed.Some? {
      var allowed := v.allowed.value;
      FirstReachableIsFirst(allowed, v.peers);
      assert forall i :: 0 <= i < |allowed| ==> allowed[i] in allowed;
      FirstPeerIsUnique(allowed, v.peers);
    }
  }

  lemma FirstPeerIsUnique(clusters: seq<ClusterId>, peers: map<ClusterId, string>)
    ensures forall e, f :: FirstPeer(clusters, peers, e) && FirstPeer(clusters, peers, f) ==> e == f
  {
    forall e, f | FirstPeer(clusters, peers, e) && FirstPeer(clusters, peers, f)
      ensures e == f
    {
      var i :| 0 <= i < |clusters| && clusters[i] in peers && peers[clusters[i]] == e
               && forall j :: 0 <= j < i ==> clusters[j] !in peers;
      var k :| 0 <= k < |clusters| && clusters[k] in peers && peers[clusters[k]] == f
               && forall j :: 0 <= j < k ==> clusters[j] !in peers;
      assert i == k;
    }
  }

  /** A cluster outside a type's residency list serves such a grain exactly when the
      directory does not answer, or names this cluster or one that is not a peer. */
  lemma ResidencyBypassedIff(v: CrossView)
    requires v.Enabled? && v.typeKnown && v.allowed.Some? && v.local !in v.allowed.value
    ensures CrossCheck(v).HandleHere? <==>
            || v.answer.LookupFailed?
            || (v.answer.OwnedIn? && (v.answer.cluster == v.local || v.answer.cluster !in v.peers))
    ensures v.answer.Unowned? ==>
              if exists c :: c in v.allowed.value && c in v.peers
              then CrossCheck(v).ToCluster?
                   && exists c :: c in v.allowed.value && c in v.peers && v.peers[c] == CrossCheck(v).endpoint
              else CrossCheck(v) == NoAllowedCluster
  {
    var allowed := v.allowed.value;
    FirstReachableIsFirst(allowed, v.peers);
    assert forall i :: 0 <= i < |allowed| ==> allowed[i] in allowed;
  }

  /** What a lookup in the in-memory directory answers. */
  function Answer(es: Entries, g: GrainId): DirectoryAnswer {
    match Lookup(es, g)
    case Some(ownership) => OwnedIn(ownership.clusterId)
    case None => Unowned
  }

  /** The lookup of `check_cross_cluster`; the backend may fail. */
  method LookUpOwner(dir: InMemoryCrossClusterDirectory, g: GrainId, lookupOk: bool) returns (answer: DirectoryAnswer)
    ensures answer == if lookupOk then Answer(dir.entries, g) else LookupFailed
  {
    if !lookupOk {
      return LookupFailed;
    }
    var key := KeyOf(g);
    answer := if key in dir.entries then OwnedIn(dir.entries[key].1.clusterId) else Unowned;
  }

  /** The rest of `check_cross_cluster`, on an answer looked up earlier: decides, and
      claims a grain that was unowned then at epoch 1.  What the claim returns is not
      looked at. */
  method CheckCrossCluster(dir: InMemoryCrossClusterDirectory, g: GrainId, now: nat, view: CrossView)
    returns (d: CrossDecision)
    requires dir.Valid()
    modifies dir
    ensures dir.Valid() && d == CrossCheck(view)
    ensures dir.entries == if d == HandleHere(true) && view.Enabled?
                           then Register(old(dir.entries), g, view.local, 1, now).0 else old(dir.entries)
  {
    if view.Disabled? || !view.typeKnown {
      return HandleHere(false);
    }
    match view.answer
    case LookupFailed =>
      return HandleHere(false);
    case OwnedIn(owner) =>
      if owner == view.local {
        return HandleHere(false);
      }
      if owner in view.peers {
        return ToCluster(view.peers[owner]);
      }
      return HandleHere(false);
    case Unowned =>
      if view.allowed.Some? && view.local !in view.allowed.value {
        var names := view.allowed.value;
        for i := 0 to |names|
          invariant FirstReachable(names, view.peers) == FirstReachable(names[i..], view.peers)
        {
          if names[i] in view.peers {
            return ToCluster(view.peers[names[i]]);
          }
        }
        return NoAllowedCluster;
      }
      var _ := dir.RegisterGrain(g, view.local, 1, now);
      return HandleHere(true);
  }

  /** A lookup that finds another cluster's record sends the call to that cluster, if it is a
      peer; one that finds the own record, or a cluster that is not a peer, keeps it here
      and claims nothing. */
  lemma RecordedOwnerDecides(v: CrossView, es: Entries, g: GrainId)
    requires v.Enabled? && v.typeKnown && v.answer == Answer(es, g) && Lookup(es, g).Some?
    ensures var owner := Lookup(es, g).value.clusterId;
            CrossCheck(v) == if owner != v.local && owner in v.peers then ToCluster(v.peers[owner])
                             else HandleHere(false)
  {
    CrossCheckDecides(v);
  }

  /** The cluster may host the grain's type. */
  predicate MayHost(v: CrossView) {
    v.Enabled? && v.typeKnown && (v.allowed.None? || v.local in v.allowed.value)
  }

  /** Between lookup and claim any attempts of other clusters may come in.  Whatever they
      are, a cluster that saw the grain unowned handles the call itself; and it ends up as
      the owner exactly when those attempts leave the grain unheld, held at epoch 0, or
      held by itself. */
  lemma ClaimStandsIff(v: CrossView, before: seq<Attempt>, between: seq<Attempt>, g: GrainId, now: nat)
    requires MayHost(v) && v.answer == Answer(Final(before), g) && v.answer == Unowned
    ensures CrossCheck(v) == HandleHere(true)
    ensures var owner := Lookup(Register(Final(before + between), g, v.local, 1, now).0, g);
            var held := Contest(between, KeyOf(g));
            && owner.Some?
            && (owner.value.clusterId == v.local
                <==> (held.None? || held.value.epoch == 0 || held.value.clusterId == v.local))
  {
    ContestDecides(before, between, KeyOf(g));
  }

  /** Two clusters that look up an unowned grain at the same time both handle the call,
      though only the first to claim it owns it. */
  lemma RacingClustersBothHandle(v1: CrossView, v2: CrossView, es: Entries, g: GrainId, now: nat, later: nat)
    requires MayHost(v1) && MayHost(v2) && v1.local != v2.local
    requires v1.answer == Answer(es, g) == Unowned && v2.answer == Unowned
    ensures CrossCheck(v1) == HandleHere(true) == CrossCheck(v2)
    ensures var es1 := Register(es, g, v1.local, 1, now).0;
            Lookup(Register(es1, g, v2.local, 1, later).0, g) == Some(GrainOwnership(v1.local, 1, now))
  {
  }

  // --- One silo's decision ---

  /** What a silo knows when a call arrives: any ring, any cluster view, any
      activation and any answer of the cluster-wide lookup, and which endpoints it
      can connect to. */
  datatype SiloView = SiloView(
    localId: string,
    ring: Ring,
    cross: CrossView,
    activeHere: bool,
    activeElsewhere: Option<string>,
    unreachable: set<string>)

  /** `find_owner`: the endpoint of the ring owner, unless that is this silo. */
  function FindOwner(v: SiloView, p: Position): Option<string> {
    match Get(v.ring, p)
    case Some(target) => if target.siloId != v.localId then Some(Endpoint(target)) else None
    case None => None
  }

  datatype RouteError = PayloadTooLarge | HopsExceeded | ConnectionFailed | NoClusterAllowed

  datatype Action =
    | ForwardToSilo(endpoint: string)
    | ForwardToCluster(endpoint: string)
    | DispatchHere
    | Reject(error: RouteError)

  /** Where the silo wants the call to go, before looking at the hop count. */
  function Wanted(v: SiloView, p: Position): Action {
    match FindOwner(v, p)
    case Some(endpoint) => ForwardToSilo(endpoint)
    case None =>
      match CrossCheck(v.cross)
      case NoAllowedCluster => Reject(NoClusterAllowed)
      case ToCluster(endpoint) => ForwardToCluster(endpoint)
      case HandleHere(_) =>
        if !v.activeHere && v.activeElsewhere.Some? then ForwardToSilo(v.activeElsewhere.value) else DispatchHere
  }

  /** `invoke`, as one decision. */
  function Decide(v: SiloView, hash: Hash, req: Request): Action {
    if req.payloadSize > MAX_PAYLOAD_SIZE then Reject(PayloadTooLarge)
    else match Wanted(v, hash(KeyOf(req.grain)))
      case ForwardToSilo(endpoint) =>
        if req.Hops() >= MAX_HOPS then Reject(HopsExceeded)
        else if endpoint in v.unreachable then Reject(ConnectionFailed)
        else ForwardToSilo(endpoint)
      case ForwardToCluster(endpoint) =>
        if endpoint in v.unreachable then Reject(ConnectionFailed) else ForwardToCluster(endpoint)
      case other => other
  }

  // --- The whole way of a call ---

  datatype Outcome =
    | DispatchedAt(silo: string)
    | DispatchedInCluster(gateway: string)
    | Failed(error: RouteError)

  /** Where a call ends, after how many silo-to-silo forwards and cluster crossings. */
  datatype Journey = Journey(outcome: Outcome, forwards: nat, crossings: nat)

  /** What the silo at an endpoint sees when it is the `i`-th on the way: views may
      disagree with each other and change from one step to the next. */
  type World = (nat, string) -> SiloView

  /** The call's way from the silo at `at`.  The gateway of another cluster dispatches
      at once.  The hop count alone bounds the recursion. */
  function Route(world: World, hash: Hash, i: nat, at: string, req: Request): (j: Journey)
    ensures j.forwards <= req.HopsLeft()
    ensures j.crossings <= 1
    ensures j.crossings == 1 <==> j.outcome.DispatchedInCluster?
    decreases req.HopsLeft()
  {
    match Decide(world(i, at), hash, req)
    case Reject(error) => Journey(Failed(error), 0, 0)
    case DispatchHere => Journey(DispatchedAt(at), 0, 0)
    case ForwardToCluster(endpoint) => Journey(DispatchedInCluster(endpoint), 0, 1)
    case ForwardToSilo(endpoint) =>
      HopCountTravels(req);
      var j := Route(world, hash, i + 1, endpoint, req.Forwarded());
      j.(forwards := j.forwards + 1)
  }

  /** No silo on any way would serve the call, and all can reach each other. */
  ghost predicate NobodyAccepts(world: World, p: Position) {
    forall i: nat, at: string ::
      Wanted(world(i, at), p).ForwardToSilo? && Wanted(world(i, at), p).endpoint !in world(i, at).unreachable
  }

  /** The bound is reached: where every silo passes the call on, it is forwarded
      exactly as often as its hop count permits and then refused. */
  lemma {:induction false} PassedOnUntilRefused(world: World, hash: Hash, i: nat, at: string, req: Request)
    requires req.payloadSize <= MAX_PAYLOAD_SIZE
    requires NobodyAccepts(world, hash(KeyOf(req.grain)))
    ensures Route(world, hash, i, at, req) == Journey(Failed(HopsExceeded), req.HopsLeft(), 0)
    decreases req.HopsLeft()
  {
    var w := Wanted(world(i, at), hash(KeyOf(req.grain)));
    if req.Hops() < MAX_HOPS {
      HopCountTravels(req);
      PassedOnUntilRefused(world, hash, i + 1, w.endpoint, req.Forwarded());
    }
  }

  /** A call is refused for its size exactly when it is too large, and then at once. */
  lemma {:induction false} RefusedForSizeIff(world: World, hash: Hash, i: nat, at: string, req: Request)
    ensures Route(world, hash, i, at, req).outcome == Failed(PayloadTooLarge) <==> req.payloadSize > MAX_PAYLOAD_SIZE
    ensures req.payloadSize > MAX_PAYLOAD_SIZE ==>
              Route(world, hash, i, at, req) == Journey(Failed(PayloadTooLarge), 0, 0)
    decreases req.HopsLeft()
  {
    var d := Decide(world(i, at), hash, req);
    if d.ForwardToSilo? {
      HopCountTravels(req);
      RefusedForSizeIff(world, hash, i + 1, d.endpoint, req.Forwarded());
    }
  }

  // --- Agreement ---

  /** A silo's view where all silos agree on the ring: it holds the silos `ids`, endpoints
      lead to the silo they are listed for, and connections work. */
  ghost predicate RingAgrees(v: SiloView, id: string, l: Layout, ids: set<string>, idAt: string -> string) {
    && Holds(l, v.ring, ids)
    && v.localId == id
    && (forall k :: k in v.ring ==> idAt(Endpoint(v.ring[k])) == v.ring[k].siloId)
    && v.unreachable == {}
  }

  /** Moreover nothing belongs to another cluster. */
  ghost predicate Agrees(v: SiloView, id: string, l: Layout, ids: set<string>, idAt: string -> string) {
    RingAgrees(v, id, l, ids, idAt) && CrossCheck(v.cross).HandleHere?
  }

  ghost predicate AllAgree(world: World, l: Layout, ids: set<string>, idAt: string -> string) {
    forall i: nat, at: string :: Agrees(world(i, at), idAt(at), l, ids, idAt)
  }

  /** The silo that owns a position, by any agreeing silo's ring. */
  ghost predicate Owner(v: SiloView, p: Position, owner: string) {
    Get(v.ring, p).Some? && Get(v.ring, p).value.siloId == owner
  }

  /** Agreeing silos find the same owner. */
  lemma {:induction false} OwnerIsShared(
      v: SiloView, id: string, v': SiloView, id': string, l: Layout, ids: set<string>,
      idAt: string -> string, p: Position, owner: string)
    requires RingAgrees(v, id, l, ids, idAt) && RingAgrees(v', id', l, ids, idAt) && Owner(v, p, owner)
    ensures Owner(v', p, owner)
    ensures if id' == owner then FindOwner(v', p) == None
            else FindOwner(v', p).Some? && idAt(FindOwner(v', p).value) == owner
  {
    SameIdsRouteAlike(l, v.ring, v'.ring, ids, p);
    GetIsAnEntry(v'.ring, p);
  }

  lemma GetIsAnEntry(r: Ring, p: Position)
    requires Get(r, p).Some?
    ensures exists k :: k in r && r[k] == Get(r, p).value
  {
    SuccessorIsNearest(r.Keys, p);
    assert Successor(r.Keys, p) in r;
  }

  /** The owner would serve the call: the grain is active there, or nowhere else. */
  predicate Serves(v: SiloView) {
    v.activeHere || v.activeElsewhere.None?
  }

  lemma OwnerDispatches(world: World, l: Layout, ids: set<string>, idAt: string -> string,
                        i: nat, at: string, req: Request)
    requires Agrees(world(i, at), idAt(at), l, ids, idAt) && req.payloadSize <= MAX_PAYLOAD_SIZE
    requires Owner(world(i, at), l.hash(KeyOf(req.grain)), idAt(at)) && Serves(world(i, at))
    ensures Route(world, l.hash, i, at, req) == Journey(DispatchedAt(at), 0, 0)
  {
    var v := world(i, at);
    OwnerIsShared(v, idAt(at), v, idAt(at), l, ids, idAt, l.hash(KeyOf(req.grain)), idAt(at));
    assert Decide(v, l.hash, req) == DispatchHere;
  }

  function NextStop(v: SiloView, p: Position, at: string): string {
    if FindOwner(v, p).Some? then FindOwner(v, p).value else at
  }

  /** A silo that is not the owner sends the call to the owner, if hops are left. */
  lemma {:induction false} OtherForwards(
      v: SiloView, at: string, v1: SiloView, e: string,
      l: Layout, ids: set<string>, idAt: string -> string, req: Request, owner: string)
    requires RingAgrees(v, idAt(at), l, ids, idAt) && RingAgrees(v1, idAt(e), l, ids, idAt)
    requires req.payloadSize <= MAX_PAYLOAD_SIZE && e == NextStop(v, l.hash(KeyOf(req.grain)), at)
    requires Owner(v, l.hash(KeyOf(req.grain)), owner) && idAt(at) != owner
    ensures idAt(e) == owner && Owner(v1, l.hash(KeyOf(req.grain)), owner)
    ensures Decide(v, l.hash, req) == if req.Hops() >= MAX_HOPS then Reject(HopsExceeded) else ForwardToSilo(e)
  {
    OwnerIsShared(v, idAt(at), v, idAt(at), l, ids, idAt, l.hash(KeyOf(req.grain)), owner);
    OwnerIsShared(v, idAt(at), v1, idAt(e), l, ids, idAt, l.hash(KeyOf(req.grain)), owner);
  }

  lemma RouteUnfolds(world: World, hash: Hash, i: nat, at: string, req: Request, d: Action)
    requires d == Decide(world(i, at), hash, req)
    ensures d.Reject? ==> Route(world, hash, i, at, req) == Journey(Failed(d.error), 0, 0)
    ensures d.ForwardToSilo? ==>
              var j := Route(world, hash, i + 1, d.endpoint, req.Forwarded());
              Route(world, hash, i, at, req) == j.(forwards := j.forwards + 1)
  {
  }

  /** The owner dispatches at once; any other silo sends the call to the owner, which
      dispatches it, unless its hops are already spent. */
  ghost predicate ReachesOwner(j: Journey, at: string, idAt: string -> string, hops: nat, owner: string) {
    if idAt(at) == owner then j == Journey(DispatchedAt(at), 0, 0)
    else if hops >= MAX_HOPS then j == Journey(Failed(HopsExceeded), 0, 0)
    else j.outcome.DispatchedAt? && idAt(j.outcome.silo) == owner && j.forwards == 1 && j.crossings == 0
  }

  lemma {:induction false} OtherReachesOwner(
      world: World, l: Layout, ids: set<string>, idAt: string -> string,
      at: string, e: string, req: Request, owner: string)
    requires Agrees(world(0, at), idAt(at), l, ids, idAt) && Agrees(world(1, e), idAt(e), l, ids, idAt)
    requires req.payloadSize <= MAX_PAYLOAD_SIZE && e == NextStop(world(0, at), l.hash(KeyOf(req.grain)), at)
    requires Owner(world(0, at), l.hash(KeyOf(req.grain)), owner) && idAt(at) != owner
    requires idAt(e) == owner ==> Serves(world(1, e))
    ensures ReachesOwner(Route(world, l.hash, 0, at, req), at, idAt, req.Hops(), owner)
  {
    OtherForwards(world(0, at), at, world(1, e), e, l, ids, idAt, req, owner);
    RouteUnfolds(world, l.hash, 0, at, req, Decide(world(0, at), l.hash, req));
    OwnerDispatches(world, l, ids, idAt, 1, e, req.Forwarded());
  }

  /** Where silos agree on the ring's members and the owner would serve the call, the
      owner dispatches it after at most one forward, wherever it enters.  Only a call
      that enters at another silo with its hops already spent is refused. */
  lemma {:induction false} AgreementReachesOwner(
      world: World, l: Layout, ids: set<string>, idAt: string -> string,
      at: string, req: Request, owner: string)
    requires AllAgree(world, l, ids, idAt) && req.payloadSize <= MAX_PAYLOAD_SIZE
    requires Owner(world(0, at), l.hash(KeyOf(req.grain)), owner)
    requires forall i: nat, e: string :: idAt(e) == owner ==> Serves(world(i, e))
    ensures ReachesOwner(Route(world, l.hash, 0, at, req), at, idAt, req.Hops(), owner)
  {
    if idAt(at) == owner {
      OwnerDispatches(world, l, ids, idAt, 0, at, req);
    } else {
      var e := NextStop(world(0, at), l.hash(KeyOf(req.grain)), at);
      assert Agrees(world(0, at), idAt(at), l, ids, idAt) && Agrees(world(1, e), idAt(e), l, ids, idAt);
      OtherReachesOwner(world, l, ids, idAt, at, e, req, owner);
    }
  }

  lemma OwnerCrosses(world: World, l: Layout, ids: set<string>, idAt: string -> string,
                     i: nat, at: string, req: Request, gateway: string)
    requires RingAgrees(world(i, at), idAt(at), l, ids, idAt) && req.payloadSize <= MAX_PAYLOAD_SIZE
    requires Owner(world(i, at), l.hash(KeyOf(req.grain)), idAt(at)) && CrossesTo(world(i, at).cross, gateway)
    ensures Route(world, l.hash, i, at, req) == Journey(DispatchedInCluster(gateway), 0, 1)
  {
    var v := world(i, at);
    OwnerIsShared(v, idAt(at), v, idAt(at), l, ids, idAt, l.hash(KeyOf(req.grain)), idAt(at));
    CrossCheckDecides(v.cross);
    assert Decide(v, l.hash, req) == ForwardToCluster(gateway);
  }

  lemma OtherReachesGateway(
      world: World, l: Layout, ids: set<string>, idAt: string -> string,
      at: string, e: string, req: Request, owner: string, gateway: string)
    requires RingAgrees(world(0, at), idAt(at), l, ids, idAt) && RingAgrees(world(1, e), idAt(e), l, ids, idAt)
    requires req.payloadSize <= MAX_PAYLOAD_SIZE && e == NextStop(world(0, at), l.hash(KeyOf(req.grain)), at)
    requires Owner(world(0, at), l.hash(KeyOf(req.grain)), owner) && idAt(at) != owner
    requires idAt(e) == owner ==> CrossesTo(world(1, e).cross, gateway)
    ensures Route(world, l.hash, 0, at, req) ==
            if req.Hops() >= MAX_HOPS then Journey(Failed(HopsExceeded), 0, 0)
            else Journey(DispatchedInCluster(gateway), 1, 1)
  {
    OtherForwards(world(0, at), at, world(1, e), e, l, ids, idAt, req, owner);
    RouteUnfolds(world, l.hash, 0, at, req, Decide(world(0, at), l.hash, req));
    OwnerCrosses(world, l, ids, idAt, 1, e, req.Forwarded(), gateway);
  }

  /** Where silos agree on the ring and the owning silo finds that the grain belongs to
      another cluster, or may not live here, the call is dispatched by that cluster's
      gateway after at most one forward, wherever it enters; only a call that enters at
      another silo with its hops already spent is refused. */
  lemma OtherClusterServes(
      world: World, l: Layout, ids: set<string>, idAt: string -> string,
      at: string, req: Request, owner: string, gateway: string)
    requires forall i: nat, e: string :: RingAgrees(world(i, e), idAt(e), l, ids, idAt)
    requires req.payloadSize <= MAX_PAYLOAD_SIZE && Owner(world(0, at), l.hash(KeyOf(req.grain)), owner)
    requires forall i: nat, e: string :: idAt(e) == owner ==> CrossesTo(world(i, e).cross, gateway)
    ensures Route(world, l.hash, 0, at, req) ==
            if idAt(at) == owner then Journey(DispatchedInCluster(gateway), 0, 1)
            else if req.Hops() >= MAX_HOPS then Journey(Failed(HopsExceeded), 0, 0)
            else Journey(DispatchedInCluster(gateway), 1, 1)
  {
    if idAt(at) == owner {
      OwnerCrosses(world, l, ids, idAt, 0, at, req, gateway);
    } else {
      var e := NextStop(world(0, at), l.hash(KeyOf(req.grain)), at);
      assert RingAgrees(world(0, at), idAt(at), l, ids, idAt) && RingAgrees(world(1, e), idAt(e), l, ids, idAt);
      OtherReachesGateway(world, l, ids, idAt, at, e, req, owner, gateway);
    }
  }

  /** On any silo that would handle the position itself, whatever its ring otherwise: a
      grain that a reachable peer cluster owns is dispatched there, with or without a
      residency list. */
  lemma OwnedElsewhereIsForwarded(world: World, hash: Hash, i: nat, at: string, req: Request, c: ClusterId)
    requires var v := world(i, at);
             && req.payloadSize <= MAX_PAYLOAD_SIZE && FindOwner(v, hash(KeyOf(req.grain))) == None
             && v.cross.Enabled? && v.cross.typeKnown && v.cross.answer == OwnedIn(c)
             && c != v.cross.local && c in v.cross.peers && v.cross.peers[c] !in v.unreachable
    ensures Route(world, hash, i, at, req) == Journey(DispatchedInCluster(world(i, at).cross.peers[c]), 0, 1)
  {
    CrossCheckDecides(world(i, at).cross);
  }

  /** An activation on the wrong silo defeats agreement: the owner sends the call to
      it, that silo sends it back to the owner, and the hops run out. */
  lemma {:induction false} MisplacedActivationIsNeverReached(
      world: World, l: Layout, ids: set<string>, idAt: string -> string,
      at: string, req: Request, owner: string)
    requires AllAgree(world, l, ids, idAt) && req.payloadSize <= MAX_PAYLOAD_SIZE
    requires Owner(world(0, at), l.hash(KeyOf(req.grain)), owner)
    requires forall i: nat, e: string :: idAt(e) == owner ==> !Serves(world(i, e))
    ensures Route(world, l.hash, 0, at, req) == Journey(Failed(HopsExceeded), req.HopsLeft(), 0)
  {
    var p := l.hash(KeyOf(req.grain));
    forall i: nat, e: string
      ensures Wanted(world(i, e), p).ForwardToSilo? && Wanted(world(i, e), p).endpoint !in world(i, e).unreachable
    {
      OwnerIsShared(world(0, at), idAt(at), world(i, e), idAt(e), l, ids, idAt, p, owner);
    }
    PassedOnUntilRefused(world, l.hash, 0, at, req);
  }

  /** Two silos with the same ring. */
  function TwoSiloRing(l: Layout, a: SiloAddress, b: SiloAddress): Ring {
    l.Add(l.Add(map[], a), b)
  }

  /** The grain is active on `b`; the lookup tells `a` so, and `b` knows it has it. */
  function TwoSiloView(l: Layout, a: SiloAddress, b: SiloAddress, atA: bool): SiloView {
    if atA then SiloView(a.siloId, TwoSiloRing(l, a, b), Disabled, false, Some(Endpoint(b)), {})
    else SiloView(b.siloId, TwoSiloRing(l, a, b), Disabled, true, None, {})
  }

  lemma TwoSilosAgree(l: Layout, a: SiloAddress, b: SiloAddress, idAt: string -> string, atA: bool)
    requires a.siloId != b.siloId && l.CollisionFree({a.siloId, b.siloId})
    requires idAt(Endpoint(a)) == a.siloId && idAt(Endpoint(b)) == b.siloId
    ensures Agrees(TwoSiloView(l, a, b, atA), if atA then a.siloId else b.siloId, l, {a.siloId, b.siloId}, idAt)
  {
    HoldsAdd(l, map[], {}, a);
    assert {} + {a.siloId} == {a.siloId};
    HoldsAdd(l, l.Add(map[], a), {a.siloId}, b);
    assert {a.siloId} + {b.siloId} == {a.siloId, b.siloId};
    forall k | k in TwoSiloRing(l, a, b)
      ensures TwoSiloRing(l, a, b)[k] in {a, b}
    {
    }
  }

  /** Two silos that agree, a grain owned by `a` and active on `b`: every call that
      enters at either of them goes back and forth until its hops are spent. */
  lemma TwoSilosPassTheCall(l: Layout, a: SiloAddress, b: SiloAddress, at: string, req: Request)
    requires a.siloId != b.siloId && (a.host, a.port) != (b.host, b.port) && l.CollisionFree({a.siloId, b.siloId})
    requires req.payloadSize <= MAX_PAYLOAD_SIZE && at in {Endpoint(a), Endpoint(b)}
    requires var owner := Get(TwoSiloRing(l, a, b), l.hash(KeyOf(req.grain)));
             owner.Some? && owner.value.siloId == a.siloId
    ensures var world := (i: nat, e: string) => TwoSiloView(l, a, b, e == Endpoint(a));
            Route(world, l.hash, 0, at, req) == Journey(Failed(HopsExceeded), req.HopsLeft(), 0)
  {
    var world := (i: nat, e: string) => TwoSiloView(l, a, b, e == Endpoint(a));
    var idAt := (e: string) => if e == Endpoint(a) then a.siloId else b.siloId;
    if Endpoint(a) == Endpoint(b) {
      LabelInjective(a.host, a.port, b.host, b.port);
    }
    var ids := {a.siloId, b.siloId};
    forall i: nat, e: string
      ensures Agrees(world(i, e), idAt(e), l, ids, idAt)
    {
      TwoSilosAgree(l, a, b, idAt, e == Endpoint(a));
    }
    MisplacedActivationIsNeverReached(world, l, ids, idAt, at, req, a.siloId);
  }

  /** Among agreeing silos a call is dispatched exactly when the owner would serve it
      and the call enters at the owner or with a hop to spare. */
  lemma {:induction false} DispatchedIffOwnerServes(
      world: World, l: Layout, ids: set<string>, idAt: string -> string,
      at: string, req: Request, owner: string, serves: bool)
    requires AllAgree(world, l, ids, idAt) && req.payloadSize <= MAX_PAYLOAD_SIZE
    requires Owner(world(0, at), l.hash(KeyOf(req.grain)), owner)
    requires forall i: nat, e: string :: idAt(e) == owner ==> Serves(world(i, e)) == serves
    ensures Route(world, l.hash, 0, at, req).outcome.DispatchedAt? <==>
            serves && (idAt(at) == owner || req.Hops() < MAX_HOPS)
  {
    if serves {
      AgreementReachesOwner(world, l, ids, idAt, at, req, owner);
    } else {
      MisplacedActivationIsNeverReached(world, l, ids, idAt, at, req, owner);
    }
  }
}
