/** The in-memory state store: every write takes a fresh etag, and a conditional
    save succeeds only against the etag it expects. */
module StateStore {
  import opened Text
  import opened Grains

  type ETag = string

  datatype PersistenceError = EtagMismatch(expected: Option<ETag>, actual: Option<ETag>)
  datatype SaveResult = Saved(etag: ETag) | Rejected(error: PersistenceError)

  type Data = map<GrainId, (Bytes, ETag)>

  function Lookup(data: Data, g: GrainId): Option<(Bytes, ETag)> {
    if g in data then Some(data[g]) else None
  }

  function ETagOf(v: Option<(Bytes, ETag)>): Option<ETag> {
    if v.Some? then Some(v.value.1) else None
  }

  function BytesOf(v: Option<(Bytes, ETag)>): Option<Bytes> {
    if v.Some? then Some(v.value.0) else None
  }

  class InMemoryStateStore {
    var data: Data
    var version: nat

    constructor ()
      ensures data == map[] && version == 1
    {
      data, version := map[], 1;
    }

    /** `fetch_add(1)`, rendered. */
    method NextEtag() returns (etag: ETag)
      modifies this`version
      ensures etag == Decimal(old(version)) && version == old(version) + 1
    {
      etag := Decimal(version);
      version := version + 1;
    }

    method Save(g: GrainId, bytes: Bytes)
      modifies this
      ensures data == old(data)[g := (bytes, Decimal(old(version)))] && version == old(version) + 1
    {
      var etag := NextEtag();
      data := data[g := (bytes, etag)];
    }

    method Delete(g: GrainId)
      modifies this`data
      ensures data == old(data) - {g}
    {
      data := data - {g};
    }

    /** A conditional save: `expected == None` asks that there be no state yet. */
    method SaveWithEtag(g: GrainId, bytes: Bytes, expected: Option<ETag>) returns (r: SaveResult)
      modifies this
      ensures version == old(version) + 1
      ensures r.Saved? <==> expected == ETagOf(Lookup(old(data), g))
      ensures r.Saved? ==> r.etag == Decimal(old(version)) && data == old(data)[g := (bytes, r.etag)]
      ensures r.Rejected? ==> data == old(data)
                              && r.error == EtagMismatch(expected, ETagOf(Lookup(data, g)))
    {
      var etag := NextEtag();
      match (expected, Lookup(data, g)) {
        case (None, None) =>
        case (None, Some((_, actual))) =>
          return Rejected(EtagMismatch(None, Some(actual)));
        case (Some(e), None) =>
          return Rejected(EtagMismatch(Some(e), None));
        case (Some(e), Some((_, actual))) =>
          if e != actual {
            return Rejected(EtagMismatch(Some(e), Some(actual)));
          }
      }
      data := data[g := (bytes, etag)];
      return Saved(etag);
    }
  }
}

/** Any number of clients on one store.  Etags are drawn before the lock is taken,
    so writes may commit in another order than their etags were issued. */
module OptimisticConcurrency {
  import opened Text
  import opened Grains
  import opened StateStore

  type Update = Option<Bytes> -> Bytes

  /** A write in flight: an unconditional save, or the conditional save of a client
      that loaded `base` and modified it. */
  datatype Write =
    | Put(grain: GrainId, bytes: Bytes)
    | Modify(grain: GrainId, update: Update, base: Option<(Bytes, ETag)>)

  datatype Client =
    | Resting
    | HasLoaded(grain: GrainId, base: Option<(Bytes, ETag)>)
    | InFlight(write: Write, number: nat)

  /** A committed operation, with the number behind its etag. */
  datatype Entry =
    | Wrote(grain: GrainId, bytes: Bytes, number: nat)
    | Modified(grain: GrainId, update: Update, number: nat)
    | Deleted(grain: GrainId)

  datatype World = World(data: Data, version: nat, clients: map<nat, Client>, log: seq<Entry>)

  datatype Step =
    | Load(client: nat, grain: GrainId)
    | BeginModify(client: nat, update: Update)
    | BeginPut(client: nat, grain: GrainId, bytes: Bytes)
    | Commit(client: nat)
    | Delete(grain: GrainId)

  function At(w: World, c: nat): Client {
    if c in w.clients then w.clients[c] else Resting
  }

  predicate Enabled(w: World, st: Step) {
    match st
    case Load(c, _) => !At(w, c).InFlight?
    case BeginModify(c, _) => At(w, c).HasLoaded?
    case BeginPut(c, _, _) => !At(w, c).InFlight?
    case Commit(c) => At(w, c).InFlight?
    case Delete(_) => true
  }

  /** Whether a write goes through under the lock. */
  predicate Succeeds(data: Data, wr: Write) {
    wr.Put? || ETagOf(wr.base) == ETagOf(Lookup(data, wr.grain))
  }

  function BytesToWrite(wr: Write): Bytes {
    match wr
    case Put(_, bytes) => bytes
    case Modify(_, update, base) => update(BytesOf(base))
  }

  function EntryFor(wr: Write, number: nat): Entry {
    match wr
    case Put(g, bytes) => Wrote(g, bytes, number)
    case Modify(g, update, _) => Modified(g, update, number)
  }

  function Do(w: World, st: Step): World
    requires Enabled(w, st)
  {
    match st
    case Load(c, g) => w.(clients := w.clients[c := HasLoaded(g, Lookup(w.data, g))])
    case BeginModify(c, update) =>
      var me := At(w, c);
      w.(clients := w.clients[c := InFlight(Modify(me.grain, update, me.base), w.version)],
         version := w.version + 1)
    case BeginPut(c, g, bytes) =>
      w.(clients := w.clients[c := InFlight(Put(g, bytes), w.version)], version := w.version + 1)
    case Commit(c) =>
      var wr, n := At(w, c).write, At(w, c).number;
      var resting := w.clients[c := Resting];
      if Succeeds(w.data, wr) then
        w.(data := w.data[wr.grain := (BytesToWrite(wr), Decimal(n))],
           clients := resting, log := w.log + [EntryFor(wr, n)])
      else w.(clients := resting)
    case Delete(g) => w.(data := w.data - {g}, log := w.log + [Deleted(g)])
  }

  const EMPTY: World := World(map[], 1, map[], [])

  predicate ValidRun(run: seq<Step>)
    decreases run, 0
  {
    run == [] || (ValidRun(run[..|run| - 1]) && Enabled(Final(run[..|run| - 1]), run[|run| - 1]))
  }

  function Final(run: seq<Step>): World
    requires ValidRun(run)
    decreases run, 1
  {
    if run == [] then EMPTY else Do(Final(run[..|run| - 1]), run[|run| - 1])
  }

  // --- The sequential reading of the log ---

  /** What `g` holds if the committed operations ran one after the other, each
      modification applied to the value it found. */
  function Sequential(log: seq<Entry>, g: GrainId): Option<(Bytes, ETag)> {
    if log == [] then None
    else
      var before, e := Sequential(log[..|log| - 1], g), log[|log| - 1];
      if e.grain != g then before
      else match e
        case Wrote(_, bytes, n) => Some((bytes, Decimal(n)))
        case Modified(_, update, n) => Some((update(BytesOf(before)), Decimal(n)))
        case Deleted(_) => None
  }

  ghost predicate NumbersFresh(log: seq<Entry>, version: nat) {
    && (forall i :: 0 <= i < |log| && !log[i].Deleted? ==> log[i].number < version)
    && (forall i, j :: 0 <= i < j < |log| && !log[i].Deleted? && !log[j].Deleted? ==>
          log[i].number != log[j].number)
  }

  /** Nothing about `g` is committed from index `i` on. */
  predicate Untouched(log: seq<Entry>, g: GrainId, i: int) {
    forall j :: 0 <= j < |log| && i <= j ==> log[j].grain != g
  }

  /** The current value of `g` was written by the entry at `k`, and `g` is untouched
      since. */
  ghost predicate WrittenAt(log: seq<Entry>, g: GrainId, k: int) {
    && 0 <= k < |log| && log[k].grain == g && !log[k].Deleted?
    && Untouched(log, g, k + 1)
    && Sequential(log, g).Some? && Sequential(log, g) == Sequential(log[..k + 1], g)
    && Sequential(log, g).value.1 == Decimal(log[k].number)
  }

  lemma {:induction false} LastWrite(log: seq<Entry>, g: GrainId) returns (k: int)
    requires Sequential(log, g).Some?
    ensures WrittenAt(log, g, k)
  {
    var init, e := log[..|log| - 1], log[|log| - 1];
    if e.grain == g {
      k := |log| - 1;
      assert log[..k + 1] == log;
    } else {
      k := LastWrite(init, g);
      assert init[..k + 1] == log[..k + 1];
    }
  }

  /** Etags are never reused, so an etag determines the value it came with. */
  lemma EtagDeterminesValue(log: seq<Entry>, version: nat, g: GrainId, i: nat)
    requires NumbersFresh(log, version) && i <= |log|
    requires Sequential(log[..i], g).Some? && Sequential(log, g).Some?
    requires Sequential(log[..i], g).value.1 == Sequential(log, g).value.1
    ensures Sequential(log[..i], g) == Sequential(log, g)
    ensures Untouched(log, g, i)
  {
    var k := LastWrite(log, g);
    var k' := LastWrite(log[..i], g);
    DecimalInjective(log[k].number, log[k'].number);
    assert k == k';
    assert log[..i][..k' + 1] == log[..k + 1];
  }

  /** Conversely, an untouched grain keeps its value. */
  lemma {:induction false} UntouchedKeepsValue(log: seq<Entry>, g: GrainId, i: nat)
    requires i <= |log| && Untouched(log, g, i)
    ensures Sequential(log[..i], g) == Sequential(log, g)
    decreases |log| - i
  {
    if i == |log| {
      assert log[..i] == log;
    } else {
      assert log[..i + 1][..i] == log[..i];
      UntouchedKeepsValue(log, g, i + 1);
    }
  }

  // --- The invariant ---

  /** The base a client works from was the value of its grain at some point. */
  ghost predicate WasRead(log: seq<Entry>, g: GrainId, base: Option<(Bytes, ETag)>) {
    exists i :: 0 <= i <= |log| && Sequential(log[..i], g) == base
  }

  ghost predicate ClientOk(w: World, c: nat)
    requires c in w.clients
  {
    match w.clients[c]
    case Resting => true
    case HasLoaded(g, base) => WasRead(w.log, g, base)
    case InFlight(wr, n) =>
      && n < w.version
      && (forall i :: 0 <= i < |w.log| && !w.log[i].Deleted? ==> w.log[i].number != n)
      && (wr.Modify? ==> WasRead(w.log, wr.grain, wr.base))
  }

  ghost predicate NumbersApart(clients: map<nat, Client>) {
    forall c, d :: c in clients && d in clients && c != d && clients[c].InFlight? && clients[d].InFlight? ==>
      clients[c].number != clients[d].number
  }

  ghost predicate Serial(w: World) {
    && NumbersFresh(w.log, w.version)
    && (forall g :: Lookup(w.data, g) == Sequential(w.log, g))
    && (forall c :: c in w.clients ==> ClientOk(w, c))
    && NumbersApart(w.clients)
  }

  lemma WasReadExtends(log: seq<Entry>, e: Entry, g: GrainId, base: Option<(Bytes, ETag)>)
    requires WasRead(log, g, base)
    ensures WasRead(log + [e], g, base)
  {
    var i :| 0 <= i <= |log| && Sequential(log[..i], g) == base;
    assert (log + [e])[..i] == log[..i];
  }

  lemma WasReadNow(log: seq<Entry>, g: GrainId)
    ensures WasRead(log, g, Sequential(log, g))
  {
    assert log[..|log|] == log;
  }

  /** Growing the log by an entry whose number no client holds keeps clients sound. */
  lemma ClientsSurvive(w: World, w': World, e: Entry, c: nat)
    requires c in w.clients && ClientOk(w, c) && c in w'.clients && w'.clients[c] == w.clients[c]
    requires w'.version >= w.version && w'.log == w.log + [e]
    requires !e.Deleted? && w.clients[c].InFlight? ==> w.clients[c].number != e.number
    ensures ClientOk(w', c)
  {
    match w.clients[c]
    case Resting =>
    case HasLoaded(g, base) =>
      WasReadExtends(w.log, e, g, base);
    case InFlight(wr, n) =>
      if wr.Modify? {
        WasReadExtends(w.log, e, wr.grain, wr.base);
      }
  }

  /** A conditional save that goes through writes its update of the value it
      replaces. */
  lemma CommitAppliesToCurrent(w: World, c: nat)
    requires Serial(w) && c in w.clients && w.clients[c].InFlight? && w.clients[c].write.Modify?
    requires Succeeds(w.data, w.clients[c].write)
    ensures BytesOf(w.clients[c].write.base) == BytesOf(Lookup(w.data, w.clients[c].write.grain))
  {
    var wr := w.clients[c].write;
    assert ClientOk(w, c);
    var i :| 0 <= i <= |w.log| && Sequential(w.log[..i], wr.grain) == wr.base;
    if wr.base.Some? {
      EtagDeterminesValue(w.log, w.version, wr.grain, i);
    }
  }

  lemma CommitKeepsSerial(w: World, c: nat)
    requires Serial(w) && Enabled(w, Commit(c))
    ensures Serial(Do(w, Commit(c)))
  {
    var w', wr, n := Do(w, Commit(c)), w.clients[c].write, w.clients[c].number;
    assert ClientOk(w, c);
    if Succeeds(w.data, wr) {
      var e := EntryFor(wr, n);
      if wr.Modify? {
        CommitAppliesToCurrent(w, c);
      }
      assert w'.log[..|w.log|] == w.log;
      forall g
        ensures Lookup(w'.data, g) == Sequential(w'.log, g)
      {
        assert Lookup(w.data, g) == Sequential(w.log, g);
      }
      forall d | d in w'.clients
        ensures ClientOk(w', d)
      {
        if d != c {
          ClientsSurvive(w, w', e, d);
        }
      }
    } else {
      forall d | d in w'.clients
        ensures ClientOk(w', d)
      {
        assert d != c ==> ClientOk(w, d);
      }
    }
  }

  lemma {:induction false} DeleteKeepsSerial(w: World, g: GrainId)
    requires Serial(w)
    ensures Serial(Do(w, Delete(g)))
  {
    var w' := Do(w, Delete(g));
    assert w'.log[..|w.log|] == w.log;
    forall x
      ensures Lookup(w'.data, x) == Sequential(w'.log, x)
    {
      assert Lookup(w.data, x) == Sequential(w.log, x);
    }
    forall c | c in w'.clients
      ensures ClientOk(w', c)
    {
      ClientsSurvive(w, w', Deleted(g), c);
    }
  }

  lemma StepKeepsSerial(w: World, st: Step)
    requires Serial(w) && Enabled(w, st)
    ensures Serial(Do(w, st))
  {
    match st
    case Commit(c) => CommitKeepsSerial(w, c);
    case Delete(g) => DeleteKeepsSerial(w, g);
    case Load(c, g) =>
      WasReadNow(w.log, g);
      forall d | d in Do(w, st).clients
        ensures ClientOk(Do(w, st), d)
      {
        assert d != c ==> ClientOk(w, d);
      }
    case BeginModify(c, update) =>
      assert ClientOk(w, c);
      forall d | d in Do(w, st).clients
        ensures ClientOk(Do(w, st), d)
      {
        assert d != c ==> ClientOk(w, d);
      }
    case BeginPut(c, g, bytes) =>
      forall d | d in Do(w, st).clients
        ensures ClientOk(Do(w, st), d)
      {
        assert d != c ==> ClientOk(w, d);
      }
  }

  lemma {:induction false} RunsStaySerial(run: seq<Step>)
    requires ValidRun(run)
    ensures Serial(Final(run))
  {
    if run != [] {
      RunsStaySerial(run[..|run| - 1]);
      StepKeepsSerial(Final(run[..|run| - 1]), run[|run| - 1]);
    }
  }

  /** In every interleaving each committed write carries an etag never used before. */
  lemma EtagsAreUnique(run: seq<Step>, i: nat, j: nat)
    requires ValidRun(run) && i < j < |Final(run).log|
    requires !Final(run).log[i].Deleted? && !Final(run).log[j].Deleted?
    ensures Decimal(Final(run).log[i].number) != Decimal(Final(run).log[j].number)
  {
    RunsStaySerial(run);
    if Decimal(Final(run).log[i].number) == Decimal(Final(run).log[j].number) {
      DecimalInjective(Final(run).log[i].number, Final(run).log[j].number);
    }
  }

  /** In every interleaving a conditional save against an etag goes through exactly
      when nothing wrote or deleted the grain after the write that issued it. */
  lemma SucceedsIffUntouched(run: seq<Step>, c: nat, i: nat)
    requires ValidRun(run) && At(Final(run), c).InFlight? && At(Final(run), c).write.Modify?
    requires i <= |Final(run).log|
    requires var wr := At(Final(run), c).write;
             wr.base.Some? && Sequential(Final(run).log[..i], wr.grain) == wr.base
    ensures var w, wr := Final(run), At(Final(run), c).write;
            Succeeds(w.data, wr) <==> Untouched(w.log, wr.grain, i)
  {
    RunsStaySerial(run);
    var w, wr := Final(run), At(Final(run), c).write;
    assert Lookup(w.data, wr.grain) == Sequential(w.log, wr.grain);
    if Succeeds(w.data, wr) {
      EtagDeterminesValue(w.log, w.version, wr.grain, i);
    }
    if Untouched(w.log, wr.grain, i) {
      UntouchedKeepsValue(w.log, wr.grain, i);
    }
  }

  /** No lost updates: after every interleaving the store holds what the committed
      operations yield when run one after the other. */
  lemma NoLostUpdates(run: seq<Step>, g: GrainId)
    requires ValidRun(run)
    ensures Lookup(Final(run).data, g) == Sequential(Final(run).log, g)
  {
    RunsStaySerial(run);
  }

  ghost predicate Reached(run: seq<Step>, w: World) {
    ValidRun(run) && Final(run) == w
  }

  lemma Extend(run: seq<Step>, w: World, st: Step)
    requires Reached(run, w) && Enabled(w, st)
    ensures Reached(run + [st], Do(w, st))
  {
    assert (run + [st])[..|run|] == run;
  }

  /** A client that saw no state may save even though the grain was written and
      deleted in between: absence carries no etag. */
  lemma AbsenceIsNotFenced(g: GrainId, bytes: Bytes, update: Update) returns (run: seq<Step>)
    ensures run == [Load(0, g), BeginModify(0, update), BeginPut(1, g, bytes), Commit(1), Delete(g)]
    ensures ValidRun(run) && At(Final(run), 0) == InFlight(Modify(g, update, None), 1)
    ensures Succeeds(Final(run).data, At(Final(run), 0).write) && !Untouched(Final(run).log, g, 0)
  {
    var w := EMPTY;
    run := [];
    Extend(run, w, Load(0, g));
    run, w := run + [Load(0, g)], Do(w, Load(0, g));
    Extend(run, w, BeginModify(0, update));
    run, w := run + [BeginModify(0, update)], Do(w, BeginModify(0, update));
    Extend(run, w, BeginPut(1, g, bytes));
    run, w := run + [BeginPut(1, g, bytes)], Do(w, BeginPut(1, g, bytes));
    Extend(run, w, Commit(1));
    run, w := run + [Commit(1)], Do(w, Commit(1));
    assert w.log == [Wrote(g, bytes, 2)];
    Extend(run, w, Delete(g));
    run, w := run + [Delete(g)], Do(w, Delete(g));
    assert w.log[0].grain == g;
  }
}
