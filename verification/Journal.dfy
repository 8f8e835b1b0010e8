/** Event sourcing with snapshots: the journal store, the effect of an `ask` on a
    journaled grain, and recovery from snapshot plus replay.  Where hooks do no harm
    and nothing fails, recovery yields the fold of every event ever appended; the
    lemmas at the end say what each failure costs. */
module Journal {
  import opened Text
  import opened Grains

  datatype JournalEntry = JournalEntry(sequence: nat, eventBytes: Bytes)

  datatype GrainJournal = GrainJournal(events: seq<JournalEntry>, snapshot: Option<(nat, Bytes)>)

  const EMPTY_JOURNAL: GrainJournal := GrainJournal([], None)

  /** A journaled grain type: its state, its events, the lifecycle hooks, and the
      encodings.  Encoding may fail; so may decoding anything. */
  datatype JournaledGrain<!S, !E> = JournaledGrain(
    initial: S,
    apply: (S, E) -> S,
    onActivate: S -> S,
    onDeactivate: S -> S,
    encodeState: S -> Option<Bytes>,
    decodeState: Bytes -> Option<S>,
    encodeEvent: E -> Option<Bytes>,
    decodeEvent: Bytes -> Option<E>,
    snapshotInterval: nat)

  /** Decoding undoes encoding. */
  ghost predicate Sound<S(!new), E(!new)>(g: JournaledGrain<S, E>) {
    && (forall e :: g.encodeEvent(e).Some? ==> g.decodeEvent(g.encodeEvent(e).value) == Some(e))
    && (forall s :: g.encodeState(s).Some? ==> g.decodeState(g.encodeState(s).value) == Some(s))
  }

  function Fold<S, E>(g: JournaledGrain<S, E>, s: S, es: seq<E>): S {
    if es == [] then s else g.apply(Fold(g, s, es[..|es| - 1]), es[|es| - 1])
  }

  lemma {:induction false} FoldConcat<S, E>(g: JournaledGrain<S, E>, s: S, a: seq<E>, b: seq<E>)
    ensures Fold(g, s, a + b) == Fold(g, Fold(g, s, a), b)
  {
    if b == [] {
      assert a + b == a;
    } else {
      assert (a + b)[..|a + b| - 1] == a + b[..|b| - 1];
      FoldConcat(g, s, a, b[..|b| - 1]);
    }
  }

  lemma FoldOne<S, E>(g: JournaledGrain<S, E>, s: S, e: E)
    ensures Fold(g, s, [e]) == g.apply(s, e)
  {
    assert [e][..0] == [];
  }

  // --- The store, per grain ---

  function LastSequence(j: GrainJournal): nat {
    if j.events == [] then 0 else j.events[|j.events| - 1].sequence
  }

  /** The journal after `append`. */
  function Appended(j: GrainJournal, payloads: seq<Bytes>): GrainJournal {
    if payloads == [] then j
    else
      var j' := Appended(j, payloads[..|payloads| - 1]);
      j'.(events := j'.events + [JournalEntry(LastSequence(j') + 1, payloads[|payloads| - 1])])
  }

  /** `load_events_after`. */
  function After(events: seq<JournalEntry>, sequence: nat): seq<JournalEntry> {
    if events == [] then []
    else
      var last := events[|events| - 1];
      After(events[..|events| - 1], sequence) + if last.sequence > sequence then [last] else []
  }

  // --- Recovery (`load_state`) ---

  /** The replay loop: undecodable events are skipped. */
  function Replay<S, E>(g: JournaledGrain<S, E>, s: S, sequence: nat, entries: seq<JournalEntry>): (S, nat) {
    if entries == [] then (s, sequence)
    else
      var (s', n) := Replay(g, s, sequence, entries[..|entries| - 1]);
      var last := entries[|entries| - 1];
      match g.decodeEvent(last.eventBytes)
      case Some(e) => (g.apply(s', e), last.sequence)
      case None => (s', n)
  }

  /** Where replay starts: the snapshot if it can be read and decoded. */
  function Base<S, E>(g: JournaledGrain<S, E>, j: GrainJournal, readable: bool): (S, nat) {
    if readable && j.snapshot.Some? then
      match g.decodeState(j.snapshot.value.1)
      case Some(s) => (s, j.snapshot.value.0)
      case None => (g.initial, 0)
    else (g.initial, 0)
  }

  /** `load_state`.  Events that cannot be loaded are taken for none. */
  function Recovered<S, E>(g: JournaledGrain<S, E>, j: GrainJournal, readable: bool, eventsOk: bool): (S, nat) {
    var (s, n) := Base(g, j, readable);
    Replay(g, s, n, if eventsOk then After(j.events, n) else [])
  }

  // --- A live activation (`JournaledState`) ---

  datatype Activation<S> = Activation(state: S, sequence: nat, eventsSinceSnapshot: nat)

  predicate AllEncodable<S, E>(g: JournaledGrain<S, E>, es: seq<E>) {
    forall i :: 0 <= i < |es| ==> g.encodeEvent(es[i]).Some?
  }

  /** The events that can be encoded; the others are skipped. */
  function Encodable<S, E>(g: JournaledGrain<S, E>, es: seq<E>): seq<E> {
    if es == [] then []
    else Encodable(g, es[..|es| - 1]) + if g.encodeEvent(es[|es| - 1]).Some? then [es[|es| - 1]] else []
  }

  function Encoded<S, E>(g: JournaledGrain<S, E>, es: seq<E>): seq<Bytes> {
    if es == [] then []
    else
      match g.encodeEvent(es[|es| - 1])
      case Some(bytes) => Encoded(g, es[..|es| - 1]) + [bytes]
      case None => Encoded(g, es[..|es| - 1])
  }

  /** The handler closure of `ask`: append what can be encoded, apply everything, and
      snapshot when due. */
  function Ask<S, E>(g: JournaledGrain<S, E>, j: GrainJournal, a: Activation<S>, es: seq<E>,
                     appendOk: bool, saveOk: bool): (GrainJournal, Activation<S>)
  {
    if es == [] then (j, a)
    else
      var payloads := Encoded(g, es);
      var appended := appendOk && payloads != [];
      var j1 := if appended then Appended(j, payloads) else j;
      var a1 := Activation(
        Fold(g, a.state, es),
        if appended then LastSequence(j1) else a.sequence,
        a.eventsSinceSnapshot + if appended then |payloads| else 0);
      if SnapshotDue(g, a1) && saveOk && g.encodeState(a1.state).Some? then
        (Snapshotted(g, j1, a1.state, a1.sequence), a1.(eventsSinceSnapshot := 0))
      else (j1, a1)
  }

  predicate SnapshotDue<S, E>(g: JournaledGrain<S, E>, a: Activation<S>) {
    g.snapshotInterval > 0 && a.eventsSinceSnapshot >= g.snapshotInterval
  }

  /** `save_snapshot`; nothing happens if the state cannot be encoded. */
  function Snapshotted<S, E>(g: JournaledGrain<S, E>, j: GrainJournal, state: S, sequence: nat): GrainJournal {
    match g.encodeState(state)
    case Some(bytes) => j.(snapshot := Some((sequence, bytes)))
    case None => j
  }

  /** The snapshot a graceful deactivation takes of the state its hook left behind. */
  function Deactivated<S, E>(g: JournaledGrain<S, E>, j: GrainJournal, a: Activation<S>, last: S,
                             saveOk: bool): GrainJournal
  {
    if saveOk then Snapshotted(g, j, last, a.sequence) else j
  }

  // --- Runs ---

  datatype System<S> = System(journal: GrainJournal, live: Option<Activation<S>>)

  /** One grain's life: activations, asks with the events their handlers return,
      graceful deactivations whose hook may panic and leave `wreck` behind, crashes
      and panics at any point, appends and event loads that fail, and snapshots that
      fail to be written, read or decoded. */
  datatype LifeEvent<!S, !E> =
    | Activate(readable: bool, eventsOk: bool)
    | AskStep(events: seq<E>, appendOk: bool, saveOk: bool)
    | CrashAfterAppend(events: seq<E>)
    | Deactivate(saveOk: bool)
    | DeactivatePanics(saveOk: bool, wreck: S)
    | Crash
    | SpoilSnapshot(sequence: nat, bytes: Bytes)

  predicate Enabled<S, E>(g: JournaledGrain<S, E>, sys: System<S>, e: LifeEvent<S, E>) {
    match e
    case Activate(_, _) => sys.live == None
    case SpoilSnapshot(_, bytes) => sys.journal.snapshot.Some? && g.decodeState(bytes) == None
    case _ => sys.live.Some?
  }

  function Step<S, E>(g: JournaledGrain<S, E>, sys: System<S>, e: LifeEvent<S, E>): System<S>
    requires Enabled(g, sys, e)
  {
    match e
    case Activate(readable, eventsOk) =>
      var (s, n) := Recovered(g, sys.journal, readable, eventsOk);
      sys.(live := Some(Activation(g.onActivate(s), n, 0)))
    case AskStep(es, appendOk, saveOk) =>
      var (j, a) := Ask(g, sys.journal, sys.live.value, es, appendOk, saveOk);
      System(j, Some(a))
    case CrashAfterAppend(es) => System(Appended(sys.journal, Encoded(g, es)), None)
    case Deactivate(saveOk) =>
      var a := sys.live.value;
      System(Deactivated(g, sys.journal, a, g.onDeactivate(a.state), saveOk), None)
    case DeactivatePanics(saveOk, wreck) =>
      System(Deactivated(g, sys.journal, sys.live.value, wreck, saveOk), None)
    case Crash => sys.(live := None)
    case SpoilSnapshot(n, bytes) => sys.(journal := sys.journal.(snapshot := Some((n, bytes))))
  }

  /** The events an event of the run appends. */
  function Emitted<S, E>(g: JournaledGrain<S, E>, e: LifeEvent<S, E>): seq<E> {
    match e
    case AskStep(es, appendOk, _) => if appendOk then Encodable(g, es) else []
    case CrashAfterAppend(es) => Encodable(g, es)
    case _ => []
  }

  /** All events ever appended. */
  function History<S, E>(g: JournaledGrain<S, E>, run: seq<LifeEvent<S, E>>): seq<E> {
    if run == [] then [] else History(g, run[..|run| - 1]) + Emitted(g, run[|run| - 1])
  }

  /** How many events had been appended when the last activation began. */
  function ActivatedAt<S, E>(g: JournaledGrain<S, E>, run: seq<LifeEvent<S, E>>): nat {
    if run == [] then 0
    else if run[|run| - 1].Activate? then |History(g, run[..|run| - 1])|
    else ActivatedAt(g, run[..|run| - 1])
  }

  predicate ValidRun<S, E>(g: JournaledGrain<S, E>, run: seq<LifeEvent<S, E>>)
    decreases run, 0
  {
    run == [] || (ValidRun(g, run[..|run| - 1])
                  && Enabled(g, Final(g, run[..|run| - 1]), run[|run| - 1]))
  }

  function Final<S, E>(g: JournaledGrain<S, E>, run: seq<LifeEvent<S, E>>): System<S>
    requires ValidRun(g, run)
    decreases run, 1
  {
    if run == [] then System(EMPTY_JOURNAL, None)
    else Step(g, Final(g, run[..|run| - 1]), run[|run| - 1])
  }

  // --- What the journal and the live state mean ---

  /** The journal holds exactly the events of `log`, numbered from 1, and a snapshot that
      can be decoded carries no larger number. */
  ghost predicate Numbered<S, E>(g: JournaledGrain<S, E>, j: GrainJournal, log: seq<E>) {
    && |j.events| == |log| && AllEncodable(g, log)
    && (forall i :: 0 <= i < |log| ==> j.events[i] == JournalEntry(i + 1, g.encodeEvent(log[i]).value))
    && (j.snapshot.Some? && g.decodeState(j.snapshot.value.1).Some? ==> j.snapshot.value.0 <= |log|)
  }

  /** Moreover a snapshot that can be decoded is the fold of the prefix it is numbered
      with. */
  ghost predicate Records<S, E>(g: JournaledGrain<S, E>, j: GrainJournal, log: seq<E>) {
    && Numbered(g, j, log)
    && (j.snapshot.Some? && g.decodeState(j.snapshot.value.1).Some? ==>
          g.decodeState(j.snapshot.value.1).value == Fold(g, g.initial, log[..j.snapshot.value.0]))
  }

  /** The state of an activation that recovered `pre` and has since applied `post`. */
  function Lived<S, E>(g: JournaledGrain<S, E>, pre: seq<E>, post: seq<E>): S {
    Fold(g, g.onActivate(Fold(g, g.initial, pre)), post)
  }

  ghost predicate Current<S, E>(g: JournaledGrain<S, E>, a: Activation<S>, log: seq<E>, k: nat) {
    && k <= |log|
    && a.state == Lived(g, log[..k], log[k..])
    && a.sequence == |log|
    && a.eventsSinceSnapshot <= |log| - k
  }

  lemma {:induction false} EncodableAll<S, E>(g: JournaledGrain<S, E>, es: seq<E>)
    requires AllEncodable(g, es)
    ensures Encodable(g, es) == es && |Encoded(g, es)| == |es|
  {
    if es != [] {
      EncodableAll(g, es[..|es| - 1]);
    }
  }

  lemma {:induction false} EncodedLength<S, E>(g: JournaledGrain<S, E>, es: seq<E>)
    ensures |Encoded(g, es)| == |Encodable(g, es)|
  {
    if es != [] {
      EncodedLength(g, es[..|es| - 1]);
    }
  }

  lemma AppendOneNumbered<S, E>(g: JournaledGrain<S, E>, j: GrainJournal, log: seq<E>, e: E, bytes: Bytes)
    requires Numbered(g, j, log) && g.encodeEvent(e) == Some(bytes)
    ensures Numbered(g, j.(events := j.events + [JournalEntry(LastSequence(j) + 1, bytes)]), log + [e])
  {
  }

  lemma {:induction false} AppendNumbered<S, E>(g: JournaledGrain<S, E>, j: GrainJournal, log: seq<E>, es: seq<E>)
    requires Numbered(g, j, log)
    ensures Numbered(g, Appended(j, Encoded(g, es)), log + Encodable(g, es))
    ensures Appended(j, Encoded(g, es)).snapshot == j.snapshot
  {
    if es == [] {
      assert log + [] == log;
    } else {
      var init, e := es[..|es| - 1], es[|es| - 1];
      AppendNumbered(g, j, log, init);
      if g.encodeEvent(e).Some? {
        var before, payloads := Encoded(g, init), Encoded(g, es);
        assert payloads[..|payloads| - 1] == before;
        AppendOneNumbered(g, Appended(j, before), log + Encodable(g, init), e, g.encodeEvent(e).value);
        assert log + Encodable(g, es) == (log + Encodable(g, init)) + [e];
      } else {
        assert Encodable(g, es) == Encodable(g, init);
      }
    }
  }

  /** A snapshot stays the fold of its prefix while the journal grows. */
  lemma GrownRecords<S, E>(g: JournaledGrain<S, E>, j: GrainJournal, j': GrainJournal, log: seq<E>, more: seq<E>)
    requires Records(g, j, log) && Numbered(g, j', log + more) && j'.snapshot == j.snapshot
    ensures Records(g, j', log + more)
  {
    if j.snapshot.Some? && j.snapshot.value.0 <= |log| {
      assert (log + more)[..j.snapshot.value.0] == log[..j.snapshot.value.0];
    }
  }

  lemma AppendRecords<S, E>(g: JournaledGrain<S, E>, j: GrainJournal, log: seq<E>, es: seq<E>)
    requires Records(g, j, log)
    ensures Records(g, Appended(j, Encoded(g, es)), log + Encodable(g, es))
  {
    AppendNumbered(g, j, log, es);
    GrownRecords(g, j, Appended(j, Encoded(g, es)), log, Encodable(g, es));
  }

  lemma {:induction false} AfterIsSuffix(events: seq<JournalEntry>, n: nat)
    requires forall i :: 0 <= i < |events| ==> events[i].sequence == i + 1
    ensures After(events, n) == if n <= |events| then events[n..] else []
  {
    if events != [] {
      var init, last := events[..|events| - 1], events[|events| - 1];
      AfterIsSuffix(init, n);
      if n < |events| {
        assert After(events, n) == After(init, n) + [last];
        assert events[n..] == init[n..] + [last];
      } else {
        assert After(events, n) == After(init, n);
      }
    }
  }

  lemma {:induction false} ReplayIsFold<S(!new), E(!new)>(
      g: JournaledGrain<S, E>, s: S, n: nat, entries: seq<JournalEntry>, es: seq<E>)
    requires Sound(g) && |entries| == |es|
    requires AllEncodable(g, es)
    requires forall i :: 0 <= i < |es| ==> entries[i] == JournalEntry(n + i + 1, g.encodeEvent(es[i]).value)
    ensures Replay(g, s, n, entries) == (Fold(g, s, es), n + |es|)
  {
    if es != [] {
      ReplayIsFold(g, s, n, entries[..|entries| - 1], es[..|es| - 1]);
    }
  }

  lemma SuffixReplays<S(!new), E(!new)>(g: JournaledGrain<S, E>, j: GrainJournal, log: seq<E>, s: S, n: nat)
    requires Sound(g) && Numbered(g, j, log) && n <= |log|
    ensures Replay(g, s, n, After(j.events, n)) == (Fold(g, s, log[n..]), |log|)
  {
    AfterIsSuffix(j.events, n);
    ReplayIsFold(g, s, n, j.events[n..], log[n..]);
  }

  /** Recovery replays, on the snapshot it starts from, exactly the events numbered above
      it, and ends at the number of the last event. */
  lemma RecoveryReplays<S(!new), E(!new)>(g: JournaledGrain<S, E>, j: GrainJournal, log: seq<E>, readable: bool)
    requires Sound(g) && Numbered(g, j, log)
    ensures var (s, n) := Base(g, j, readable);
            n <= |log| && Recovered(g, j, readable, true) == (Fold(g, s, log[n..]), |log|)
  {
    var (s, n) := Base(g, j, readable);
    assert n <= |log|;
    SuffixReplays(g, j, log, s, n);
  }

  /** Snapshot plus suffix replay is the fold of the whole journal, whether or
      not the snapshot could be read and decoded. */
  lemma RecoveryIsFold<S(!new), E(!new)>(g: JournaledGrain<S, E>, j: GrainJournal, log: seq<E>, readable: bool)
    requires Sound(g) && Records(g, j, log)
    ensures Recovered(g, j, readable, true) == (Fold(g, g.initial, log), |log|)
  {
    RecoveryReplays(g, j, log, readable);
    BaseIsPrefixFold(g, j, log, readable);
    FoldSplit(g, log, Base(g, j, readable).1);
  }

  lemma BaseIsPrefixFold<S, E>(g: JournaledGrain<S, E>, j: GrainJournal, log: seq<E>, readable: bool)
    requires Records(g, j, log)
    ensures var (s, n) := Base(g, j, readable);
            n <= |log| && s == Fold(g, g.initial, log[..n])
  {
    assert log[..0] == [];
  }

  lemma {:induction false} FoldSplit<S, E>(g: JournaledGrain<S, E>, log: seq<E>, n: nat)
    requires n <= |log|
    ensures Fold(g, Fold(g, g.initial, log[..n]), log[n..]) == Fold(g, g.initial, log)
  {
    FoldConcat(g, g.initial, log[..n], log[n..]);
    assert log[..n] + log[n..] == log;
  }

  lemma SnapshotRecords<S(!new), E(!new)>(g: JournaledGrain<S, E>, j: GrainJournal, s: S, log: seq<E>)
    requires Sound(g) && Records(g, j, log)
    requires g.encodeState(s).Some? ==> s == Fold(g, g.initial, log)
    ensures Records(g, Snapshotted(g, j, s, |log|), log)
  {
    assert log[..|log|] == log;
  }

  // --- What an ask does to the journal ---

  /** The events of an ask that reach the journal. */
  function Kept<S, E>(g: JournaledGrain<S, E>, es: seq<E>, appendOk: bool): seq<E> {
    if appendOk then Encodable(g, es) else []
  }

  /** The ask ends with a snapshot. */
  predicate TakesSnapshot<S, E>(
      g: JournaledGrain<S, E>, a: Activation<S>, es: seq<E>, appendOk: bool, saveOk: bool)
  {
    && es != [] && saveOk && g.encodeState(Fold(g, a.state, es)).Some?
    && 0 < g.snapshotInterval <= a.eventsSinceSnapshot + |Kept(g, es, appendOk)|
  }

  /** The number the activation is at after the ask. */
  function NumberAfter<S, E>(g: JournaledGrain<S, E>, a: Activation<S>, log: seq<E>, kept: seq<E>): nat {
    if kept == [] then a.sequence else |log + kept|
  }

  lemma AskUnfolds<S, E>(
      g: JournaledGrain<S, E>, j: GrainJournal, a: Activation<S>, log: seq<E>, es: seq<E>, appendOk: bool, saveOk: bool)
      returns (j1: GrainJournal)
    requires Numbered(g, j, log) && a.sequence <= |log|
    ensures var kept := Kept(g, es, appendOk);
            var (j', a') := Ask(g, j, a, es, appendOk, saveOk);
            && Numbered(g, j1, log + kept) && j1.snapshot == j.snapshot
            && a'.state == Fold(g, a.state, es) && a'.sequence == NumberAfter(g, a, log, kept)
            && a'.eventsSinceSnapshot <= a.eventsSinceSnapshot + |kept|
            && j' == if TakesSnapshot(g, a, es, appendOk, saveOk)
                     then Snapshotted(g, j1, a'.state, a'.sequence) else j1
  {
    AppendNumbered(g, j, log, es);
    EncodedLength(g, es);
    assert log + [] == log;
    j1 := if appendOk then Appended(j, Encoded(g, es)) else j;
  }

  // --- Every run, whatever fails in it ---

  lemma SnapshotNumbered<S, E>(g: JournaledGrain<S, E>, j: GrainJournal, s: S, n: nat, log: seq<E>)
    requires Numbered(g, j, log) && n <= |log|
    ensures Numbered(g, Snapshotted(g, j, s, n), log)
  {
  }

  lemma StepNumbered<S(!new), E(!new)>(g: JournaledGrain<S, E>, sys: System<S>, e: LifeEvent<S, E>, log: seq<E>)
    requires Sound(g) && Enabled(g, sys, e) && Numbered(g, sys.journal, log)
    requires sys.live.Some? ==> sys.live.value.sequence <= |log|
    ensures var sys', log' := Step(g, sys, e), log + Emitted(g, e);
            Numbered(g, sys'.journal, log') && (sys'.live.Some? ==> sys'.live.value.sequence <= |log'|)
  {
    assert log + [] == log;
    match e
    case Activate(readable, _) =>
      RecoveryReplays(g, sys.journal, log, readable);
    case AskStep(es, appendOk, saveOk) =>
      var a := sys.live.value;
      var j1 := AskUnfolds(g, sys.journal, a, log, es, appendOk, saveOk);
      var kept := Kept(g, es, appendOk);
      SnapshotNumbered(g, j1, Fold(g, a.state, es), NumberAfter(g, a, log, kept), log + kept);
    case CrashAfterAppend(es) =>
      AppendNumbered(g, sys.journal, log, es);
    case Deactivate(_) =>
      SnapshotNumbered(g, sys.journal, g.onDeactivate(sys.live.value.state), sys.live.value.sequence, log);
    case DeactivatePanics(_, wreck) =>
      SnapshotNumbered(g, sys.journal, wreck, sys.live.value.sequence, log);
    case Crash =>
    case SpoilSnapshot(n, bytes) =>
  }

  /** In every run, with any failures, the journal holds exactly the events ever appended,
      and neither a snapshot nor a live activation is numbered beyond them. */
  lemma {:induction false} RunNumbered<S(!new), E(!new)>(g: JournaledGrain<S, E>, run: seq<LifeEvent<S, E>>)
    requires Sound(g) && ValidRun(g, run)
    ensures Numbered(g, Final(g, run).journal, History(g, run))
    ensures Final(g, run).live.Some? ==> Final(g, run).live.value.sequence <= |History(g, run)|
  {
    if run != [] {
      RunNumbered(g, run[..|run| - 1]);
      StepNumbered(g, Final(g, run[..|run| - 1]), run[|run| - 1], History(g, run[..|run| - 1]));
    }
  }

  /** In every run, with any failures, recovery counts all events ever appended and
      replays those after the snapshot it starts from: no event in the journal is skipped,
      repeated or reordered. */
  lemma RecoveryInEveryRun<S(!new), E(!new)>(g: JournaledGrain<S, E>, run: seq<LifeEvent<S, E>>, readable: bool)
    requires Sound(g) && ValidRun(g, run)
    ensures var (s, n) := Base(g, Final(g, run).journal, readable);
            && n <= |History(g, run)|
            && Recovered(g, Final(g, run).journal, readable, true)
               == (Fold(g, s, History(g, run)[n..]), |History(g, run)|)
  {
    RunNumbered(g, run);
    RecoveryReplays(g, Final(g, run).journal, History(g, run), readable);
  }

  // --- Recovery over whole runs, and what it asks of the hooks ---

  /** What the runtime is expected to get right: appends and event loads work, events
      can be encoded, and `on_deactivate` does not panic. */
  predicate Undisturbed<S, E>(g: JournaledGrain<S, E>, e: LifeEvent<S, E>) {
    match e
    case Activate(_, eventsOk) => eventsOk
    case AskStep(es, appendOk, _) => appendOk && AllEncodable(g, es)
    case DeactivatePanics(_, _) => false
    case _ => true
  }

  predicate AllUndisturbed<S, E>(g: JournaledGrain<S, E>, run: seq<LifeEvent<S, E>>) {
    forall i :: 0 <= i < |run| ==> Undisturbed(g, run[i])
  }

  /** Whatever was journaled before and during an activation, the snapshots it may
      take — periodic ones, once enough events came in, and the final one — hold the
      fold of the journal. */
  ghost predicate HarmlessAt<S, E>(g: JournaledGrain<S, E>, pre: seq<E>, post: seq<E>) {
    var s, last := Lived(g, pre, post), g.onDeactivate(Lived(g, pre, post));
    && (g.encodeState(last).Some? ==> last == Fold(g, g.initial, pre + post))
    && (0 < g.snapshotInterval <= |post| && g.encodeState(s).Some? ==> s == Fold(g, g.initial, pre + post))
  }

  ghost predicate Harmless<S(!new), E(!new)>(g: JournaledGrain<S, E>) {
    forall pre, post :: AllEncodable(g, pre) && AllEncodable(g, post) ==> HarmlessAt(g, pre, post)
  }

  lemma LivedExtends<S, E>(g: JournaledGrain<S, E>, log: seq<E>, k: nat, es: seq<E>)
    requires k <= |log|
    ensures Lived(g, (log + es)[..k], (log + es)[k..]) == Fold(g, Lived(g, log[..k], log[k..]), es)
  {
    assert (log + es)[..k] == log[..k] && (log + es)[k..] == log[k..] + es;
    FoldConcat(g, g.onActivate(Fold(g, g.initial, log[..k])), log[k..], es);
  }

  lemma AskKeepsCurrent<S, E>(
      g: JournaledGrain<S, E>, j: GrainJournal, a: Activation<S>, es: seq<E>, saveOk: bool, log: seq<E>, k: nat)
    requires AllEncodable(g, es) && Records(g, j, log) && Current(g, a, log, k)
    ensures Current(g, Ask(g, j, a, es, true, saveOk).1, log + es, k)
  {
    EncodableAll(g, es);
    var _ := AskUnfolds(g, j, a, log, es, true, saveOk);
    LivedExtends(g, log, k, es);
  }

  lemma AskRecords<S(!new), E(!new)>(
      g: JournaledGrain<S, E>, j: GrainJournal, a: Activation<S>, es: seq<E>, saveOk: bool, log: seq<E>, k: nat)
    requires Sound(g) && Harmless(g) && AllEncodable(g, es)
    requires Records(g, j, log) && Current(g, a, log, k)
    ensures Records(g, Ask(g, j, a, es, true, saveOk).0, log + es)
  {
    EncodableAll(g, es);
    var j1 := AskUnfolds(g, j, a, log, es, true, saveOk);
    GrownRecords(g, j, j1, log, es);
    if TakesSnapshot(g, a, es, true, saveOk) {
      LivedExtends(g, log, k, es);
      SnapshotIsHarmless(g, log + es, k);
      SnapshotRecords(g, j1, Fold(g, a.state, es), log + es);
    }
  }

  lemma SnapshotIsHarmless<S(!new), E(!new)>(g: JournaledGrain<S, E>, log: seq<E>, k: nat)
    requires Harmless(g) && AllEncodable(g, log) && k <= |log|
    ensures var s, last := Lived(g, log[..k], log[k..]), g.onDeactivate(Lived(g, log[..k], log[k..]));
            && (g.encodeState(last).Some? ==> last == Fold(g, g.initial, log))
            && (0 < g.snapshotInterval <= |log| - k && g.encodeState(s).Some? ==> s == Fold(g, g.initial, log))
  {
    assert HarmlessAt(g, log[..k], log[k..]);
    assert log[..k] + log[k..] == log;
  }

  lemma DeactivateRecords<S(!new), E(!new)>(
      g: JournaledGrain<S, E>, j: GrainJournal, a: Activation<S>, saveOk: bool, log: seq<E>, k: nat)
    requires Sound(g) && Harmless(g) && Records(g, j, log) && Current(g, a, log, k)
    ensures Records(g, Deactivated(g, j, a, g.onDeactivate(a.state), saveOk), log)
  {
    SnapshotIsHarmless(g, log, k);
    SnapshotRecords(g, j, g.onDeactivate(a.state), log);
  }

  lemma StepRecords<S(!new), E(!new)>(
      g: JournaledGrain<S, E>, sys: System<S>, e: LifeEvent<S, E>, log: seq<E>, k: nat)
    requires Sound(g) && Harmless(g) && Enabled(g, sys, e) && Undisturbed(g, e)
    requires Records(g, sys.journal, log)
    requires sys.live.Some? ==> Current(g, sys.live.value, log, k)
    ensures var sys', log' := Step(g, sys, e), log + Emitted(g, e);
            && Records(g, sys'.journal, log')
            && (sys'.live.Some? ==> Current(g, sys'.live.value, log', if e.Activate? then |log| else k))
  {
    assert log + [] == log;
    match e
    case Activate(readable, _) =>
      RecoveryIsFold(g, sys.journal, log, readable);
      assert log[..|log|] == log && log[|log|..] == [];
    case AskStep(es, _, saveOk) =>
      EncodableAll(g, es);
      AskRecords(g, sys.journal, sys.live.value, es, saveOk, log, k);
      AskKeepsCurrent(g, sys.journal, sys.live.value, es, saveOk, log, k);
    case CrashAfterAppend(es) =>
      AppendRecords(g, sys.journal, log, es);
    case Deactivate(saveOk) =>
      DeactivateRecords(g, sys.journal, sys.live.value, saveOk, log, k);
    case Crash =>
    case SpoilSnapshot(n, bytes) =>
  }

  /** In every undisturbed run of a grain with harmless hooks, the journal is the log of
      all events ever appended, a snapshot is the fold of a prefix, and a live
      activation holds its activation hook's state with the later events applied. */
  lemma {:induction false} RunRecords<S(!new), E(!new)>(g: JournaledGrain<S, E>, run: seq<LifeEvent<S, E>>)
    requires Sound(g) && Harmless(g) && ValidRun(g, run) && AllUndisturbed(g, run)
    ensures Records(g, Final(g, run).journal, History(g, run))
    ensures Final(g, run).live.Some? ==>
              Current(g, Final(g, run).live.value, History(g, run), ActivatedAt(g, run))
  {
    if run != [] {
      var init := run[..|run| - 1];
      RunRecords(g, init);
      StepRecords(g, Final(g, init), run[|run| - 1], History(g, init), ActivatedAt(g, init));
    }
  }

  /** In every such run recovery returns the fold over all events ever appended, and
      their count. */
  lemma RecoveryAfterAnyRun<S(!new), E(!new)>(g: JournaledGrain<S, E>, run: seq<LifeEvent<S, E>>, readable: bool)
    requires Sound(g) && Harmless(g) && ValidRun(g, run) && AllUndisturbed(g, run)
    ensures Recovered(g, Final(g, run).journal, readable, true)
            == (Fold(g, g.initial, History(g, run)), |History(g, run)|)
  {
    RunRecords(g, run);
    RecoveryIsFold(g, Final(g, run).journal, History(g, run), readable);
  }

  /** Hooks that leave every state alone. */
  ghost predicate Neutral<S(!new), E>(g: JournaledGrain<S, E>) {
    forall s :: g.onActivate(s) == s && g.onDeactivate(s) == s
  }

  /** Hooks that leave the state alone are harmless, and then a live activation holds
      exactly what recovery would return. */
  lemma NeutralHooksMatchRecovery<S(!new), E(!new)>(
      g: JournaledGrain<S, E>, run: seq<LifeEvent<S, E>>, readable: bool)
    requires Sound(g) && Neutral(g) && ValidRun(g, run) && AllUndisturbed(g, run)
    ensures Harmless(g)
    ensures Final(g, run).live.Some? ==>
              var a := Final(g, run).live.value;
              (a.state, a.sequence) == Recovered(g, Final(g, run).journal, readable, true)
  {
    forall pre, post | AllEncodable(g, pre) && AllEncodable(g, post)
      ensures HarmlessAt(g, pre, post)
    {
      FoldConcat(g, g.initial, pre, post);
    }
    RunRecords(g, run);
    RecoveryAfterAnyRun(g, run, readable);
    if Final(g, run).live.Some? {
      FoldSplit(g, History(g, run), ActivatedAt(g, run));
    }
  }

  /** Recovery is the fold of the journal in every undisturbed run. */
  ghost predicate AlwaysRecovers<S(!new), E(!new)>(g: JournaledGrain<S, E>) {
    forall run, readable :: ValidRun(g, run) && AllUndisturbed(g, run) ==>
      Recovered(g, Final(g, run).journal, readable, true)
      == (Fold(g, g.initial, History(g, run)), |History(g, run)|)
  }

  /** The hooks get the state mutably and their changes are not journaled.  Recovery
      stays the fold in every run exactly when they are harmless. */
  lemma AlwaysRecoversIffHarmless<S(!new), E(!new)>(g: JournaledGrain<S, E>)
    requires Sound(g)
    ensures AlwaysRecovers(g) <==> Harmless(g)
  {
    if Harmless(g) {
      forall run, readable | ValidRun(g, run) && AllUndisturbed(g, run)
        ensures Recovered(g, Final(g, run).journal, readable, true)
                == (Fold(g, g.initial, History(g, run)), |History(g, run)|)
      {
        RecoveryAfterAnyRun(g, run, readable);
      }
    }
    if AlwaysRecovers(g) {
      forall pre, post | AllEncodable(g, pre) && AllEncodable(g, post)
        ensures HarmlessAt(g, pre, post)
      {
        FinalSnapshotExposesHooks(g, pre, post);
        PeriodicSnapshotExposesHook(g, pre, post);
      }
    }
  }

  ghost predicate Reached<S, E>(g: JournaledGrain<S, E>, run: seq<LifeEvent<S, E>>, sys: System<S>) {
    ValidRun(g, run) && Final(g, run) == sys
  }

  lemma Extend<S, E>(g: JournaledGrain<S, E>, run: seq<LifeEvent<S, E>>, sys: System<S>, e: LifeEvent<S, E>)
    requires Reached(g, run, sys) && Enabled(g, sys, e)
    ensures Reached(g, run + [e], Step(g, sys, e))
    ensures History(g, run + [e]) == History(g, run) + Emitted(g, e)
    ensures AllUndisturbed(g, run) && Undisturbed(g, e) ==> AllUndisturbed(g, run + [e])
  {
    assert (run + [e])[..|run|] == run;
  }

  /** A run that leaves the journal `pre` and a new activation on it. */
  lemma ReachActivated<S(!new), E(!new)>(g: JournaledGrain<S, E>, pre: seq<E>)
      returns (run: seq<LifeEvent<S, E>>, j: GrainJournal)
    requires Sound(g) && AllEncodable(g, pre)
    ensures AllUndisturbed(g, run) && History(g, run) == pre && Records(g, j, pre)
    ensures Reached(g, run, System(j, Some(Activation(g.onActivate(Fold(g, g.initial, pre)), |pre|, 0))))
  {
    j := Appended(EMPTY_JOURNAL, Encoded(g, pre));
    EncodableAll(g, pre);
    AppendRecords(g, EMPTY_JOURNAL, [], pre);
    assert [] + pre == pre;
    RecoveryIsFold(g, j, pre, true);
    run := [];
    var sys: System<S> := System(EMPTY_JOURNAL, None);
    Extend(g, run, sys, Activate(true, true));
    run, sys := run + [Activate(true, true)], Step(g, sys, Activate(true, true));
    Extend(g, run, sys, CrashAfterAppend(pre));
    run, sys := run + [CrashAfterAppend(pre)], System(j, None);
    Extend(g, run, sys, Activate(true, true));
    run := run + [Activate(true, true)];
  }

  /** From there, `post` in one ask. */
  lemma ReachLived<S(!new), E(!new)>(g: JournaledGrain<S, E>, pre: seq<E>, post: seq<E>, saveOk: bool)
      returns (run: seq<LifeEvent<S, E>>, j: GrainJournal, a: Activation<S>)
    requires Sound(g) && AllEncodable(g, pre) && AllEncodable(g, post)
    ensures AllUndisturbed(g, run) && History(g, run) == pre + post
    ensures Records(g, j, pre) && a == Activation(g.onActivate(Fold(g, g.initial, pre)), |pre|, 0)
    ensures var (j', a') := Ask(g, j, a, post, true, saveOk);
            Reached(g, run, System(j', Some(a')))
  {
    run, j := ReachActivated(g, pre);
    a := Activation(g.onActivate(Fold(g, g.initial, pre)), |pre|, 0);
    EncodableAll(g, post);
    Extend(g, run, System(j, Some(a)), AskStep(post, true, saveOk));
    run := run + [AskStep(post, true, saveOk)];
  }

  /** What recovery makes of a snapshot: the later events on top of it if it can be read,
      and what it would have returned without it if not. */
  lemma SnapshotReplays<S(!new), E(!new)>(g: JournaledGrain<S, E>, j: GrainJournal, s: S, n: nat, log: seq<E>)
    requires Sound(g) && Numbered(g, j, log) && g.encodeState(s).Some? && n <= |log|
    ensures Recovered(g, Snapshotted(g, j, s, n), true, true) == (Fold(g, s, log[n..]), |log|)
    ensures Recovered(g, Snapshotted(g, j, s, n), false, true) == Recovered(g, j, false, true)
  {
    RecoveryReplays(g, Snapshotted(g, j, s, n), log, true);
  }

  /** A snapshot of the whole journal is what recovery returns. */
  lemma CoveringSnapshotIsRecovered<S(!new), E(!new)>(g: JournaledGrain<S, E>, j: GrainJournal, s: S, log: seq<E>)
    requires Sound(g) && Numbered(g, j, log) && g.encodeState(s).Some?
    ensures Recovered(g, Snapshotted(g, j, s, |log|), true, true) == (s, |log|)
  {
    SnapshotReplays(g, j, s, |log|, log);
  }

  lemma FinalSnapshotExposesHooks<S(!new), E(!new)>(g: JournaledGrain<S, E>, pre: seq<E>, post: seq<E>)
    requires Sound(g) && AlwaysRecovers(g) && AllEncodable(g, pre) && AllEncodable(g, post)
    ensures var last := g.onDeactivate(Lived(g, pre, post));
            g.encodeState(last).Some? ==> last == Fold(g, g.initial, pre + post)
  {
    var run, j, a := ReachLived(g, pre, post, false);
    EncodableAll(g, post);
    var j1 := AskUnfolds(g, j, a, pre, post, true, false);
    var last := g.onDeactivate(Lived(g, pre, post));
    if g.encodeState(last).Some? {
      var sys := Final(g, run);
      Extend(g, run, sys, Deactivate(true));
      CoveringSnapshotIsRecovered(g, j1, last, pre + post);
      RecoversAt(g, run + [Deactivate(true)], Step(g, sys, Deactivate(true)), pre + post);
    }
  }

  lemma PeriodicSnapshotExposesHook<S(!new), E(!new)>(g: JournaledGrain<S, E>, pre: seq<E>, post: seq<E>)
    requires Sound(g) && AlwaysRecovers(g) && AllEncodable(g, pre) && AllEncodable(g, post)
    ensures var s := Lived(g, pre, post);
            0 < g.snapshotInterval <= |post| && g.encodeState(s).Some? ==> s == Fold(g, g.initial, pre + post)
  {
    var s := Lived(g, pre, post);
    if 0 < g.snapshotInterval <= |post| && g.encodeState(s).Some? {
      var run, j, a := ReachLived(g, pre, post, true);
      EncodableAll(g, post);
      var j1 := AskUnfolds(g, j, a, pre, post, true, true);
      CoveringSnapshotIsRecovered(g, j1, s, pre + post);
      RecoversAt(g, run, Final(g, run), pre + post);
    }
  }

  lemma RecoversAt<S(!new), E(!new)>(
      g: JournaledGrain<S, E>, run: seq<LifeEvent<S, E>>, sys: System<S>, log: seq<E>)
    requires AlwaysRecovers(g) && Reached(g, run, sys) && AllUndisturbed(g, run) && History(g, run) == log
    ensures Recovered(g, sys.journal, true, true).0 == Fold(g, g.initial, log)
  {
    assert Recovered(g, Final(g, run).journal, true, true)
           == (Fold(g, g.initial, History(g, run)), |History(g, run)|);
  }

  // --- How often an activation takes snapshots ---

  datatype AskInput<E> = AskInput(events: seq<E>, appendOk: bool, saveOk: bool)

  /** The asks of one activation, one after the other. */
  function AskAll<S, E>(g: JournaledGrain<S, E>, j: GrainJournal, a: Activation<S>, asks: seq<AskInput<E>>)
      : (GrainJournal, Activation<S>)
  {
    if asks == [] then (j, a)
    else
      var (j1, a1) := AskAll(g, j, a, asks[..|asks| - 1]);
      var ask := asks[|asks| - 1];
      Ask(g, j1, a1, ask.events, ask.appendOk, ask.saveOk)
  }

  /** The events of the asks that reach the journal. */
  function KeptAll<S, E>(g: JournaledGrain<S, E>, asks: seq<AskInput<E>>): seq<E> {
    if asks == [] then []
    else KeptAll(g, asks[..|asks| - 1]) + Kept(g, asks[|asks| - 1].events, asks[|asks| - 1].appendOk)
  }

  /** The number at which the activation last took a snapshot, or at which it began. */
  function LastMark<S, E>(g: JournaledGrain<S, E>, j: GrainJournal, a: Activation<S>, asks: seq<AskInput<E>>): nat {
    if asks == [] then a.sequence
    else
      var before, ask := AskAll(g, j, a, asks[..|asks| - 1]).1, asks[|asks| - 1];
      if TakesSnapshot(g, before, ask.events, ask.appendOk, ask.saveOk)
      then a.sequence + |KeptAll(g, asks)| else LastMark(g, j, a, asks[..|asks| - 1])
  }

  lemma AskNumbers<S, E>(
      g: JournaledGrain<S, E>, j: GrainJournal, a: Activation<S>, log: seq<E>, es: seq<E>, appendOk: bool, saveOk: bool)
    requires Numbered(g, j, log) && a.sequence == |log|
    ensures var (j', a') := Ask(g, j, a, es, appendOk, saveOk);
            var all := log + Kept(g, es, appendOk);
            Numbered(g, j', all) && a'.sequence == |all|
  {
    var j1 := AskUnfolds(g, j, a, log, es, appendOk, saveOk);
    var all := log + Kept(g, es, appendOk);
    SnapshotNumbered(g, j1, Fold(g, a.state, es), |all|, all);
    assert log + [] == log;
  }

  lemma AskCounts<S, E>(
      g: JournaledGrain<S, E>, j: GrainJournal, a: Activation<S>, es: seq<E>, appendOk: bool, saveOk: bool)
    ensures Ask(g, j, a, es, appendOk, saveOk).1.eventsSinceSnapshot
            == if TakesSnapshot(g, a, es, appendOk, saveOk) then 0
               else a.eventsSinceSnapshot + |Kept(g, es, appendOk)|
  {
    EncodedLength(g, es);
  }

  lemma {:induction false} AskAllNumbered<S, E>(
      g: JournaledGrain<S, E>, j: GrainJournal, a: Activation<S>, log: seq<E>, asks: seq<AskInput<E>>)
    requires Numbered(g, j, log) && a.sequence == |log|
    ensures Numbered(g, AskAll(g, j, a, asks).0, log + KeptAll(g, asks))
    ensures AskAll(g, j, a, asks).1.sequence == |log + KeptAll(g, asks)|
  {
    if asks == [] {
      assert log + [] == log;
    } else {
      var init, ask := asks[..|asks| - 1], asks[|asks| - 1];
      AskAllNumbered(g, j, a, log, init);
      var (j1, a1) := AskAll(g, j, a, init);
      AskNumbers(g, j1, a1, log + KeptAll(g, init), ask.events, ask.appendOk, ask.saveOk);
      assert log + KeptAll(g, asks) == (log + KeptAll(g, init)) + Kept(g, ask.events, ask.appendOk);
    }
  }

  /** However appends and saves fare, the counter is the number of events that reached the
      journal since the activation's last snapshot, or since it began. */
  lemma {:induction false} CounterCountsSinceMark<S, E>(
      g: JournaledGrain<S, E>, j: GrainJournal, a: Activation<S>, log: seq<E>, asks: seq<AskInput<E>>)
    requires Numbered(g, j, log) && a.sequence == |log| && a.eventsSinceSnapshot == 0
    ensures var a' := AskAll(g, j, a, asks).1;
            a'.sequence == |log| + |KeptAll(g, asks)|
            && a'.eventsSinceSnapshot == a'.sequence - LastMark(g, j, a, asks)
  {
    AskAllNumbered(g, j, a, log, asks);
    if asks != [] {
      var init, ask := asks[..|asks| - 1], asks[|asks| - 1];
      CounterCountsSinceMark(g, j, a, log, init);
      AskAllNumbered(g, j, a, log, init);
      var (j1, a1) := AskAll(g, j, a, init);
      AskCounts(g, j1, a1, ask.events, ask.appendOk, ask.saveOk);
    }
  }

  /** So an ask ends with a snapshot exactly when it has events, the state is saved, and the
      interval has passed since the last one, counted in journaled events: snapshots of one
      activation lie at least the interval apart, and none is put off. */
  lemma SnapshotIffIntervalPassed<S, E>(
      g: JournaledGrain<S, E>, j: GrainJournal, a: Activation<S>, log: seq<E>, asks: seq<AskInput<E>>, ask: AskInput<E>)
    requires Numbered(g, j, log) && a.sequence == |log| && a.eventsSinceSnapshot == 0
    ensures var (j', a') := AskAll(g, j, a, asks);
            TakesSnapshot(g, a', ask.events, ask.appendOk, ask.saveOk)
            <==> (&& ask.events != [] && ask.saveOk && g.encodeState(Fold(g, a'.state, ask.events)).Some?
                  && 0 < g.snapshotInterval
                         <= |log + KeptAll(g, asks) + Kept(g, ask.events, ask.appendOk)| - LastMark(g, j, a, asks))
  {
    CounterCountsSinceMark(g, j, a, log, asks);
  }

  /** Where saves work and states can be encoded, fewer events than the interval are ever
      without a snapshot between asks. */
  lemma {:induction false} FewerThanIntervalUncovered<S(!new), E>(
      g: JournaledGrain<S, E>, j: GrainJournal, a: Activation<S>, log: seq<E>, asks: seq<AskInput<E>>)
    requires Numbered(g, j, log) && a.sequence == |log| && a.eventsSinceSnapshot == 0 && g.snapshotInterval > 0
    requires (forall s :: g.encodeState(s).Some?) && forall i :: 0 <= i < |asks| ==> asks[i].saveOk
    ensures AskAll(g, j, a, asks).1.sequence - LastMark(g, j, a, asks) < g.snapshotInterval
  {
    CounterCountsSinceMark(g, j, a, log, asks);
    if asks != [] {
      var init, ask := asks[..|asks| - 1], asks[|asks| - 1];
      FewerThanIntervalUncovered(g, j, a, log, init);
      CounterCountsSinceMark(g, j, a, log, init);
      AskAllNumbered(g, j, a, log, init);
      var (j1, a1) := AskAll(g, j, a, init);
      AskCounts(g, j1, a1, ask.events, ask.appendOk, ask.saveOk);
      assert a1.eventsSinceSnapshot < g.snapshotInterval;
    }
  }

  // --- What a disturbance costs ---

  /** What recovery makes of a journal that grew without a new snapshot. */
  lemma GrownReplays<S(!new), E(!new)>(
      g: JournaledGrain<S, E>, j: GrainJournal, j1: GrainJournal, log: seq<E>, kept: seq<E>, readable: bool)
    requires Sound(g) && Numbered(g, j, log) && Numbered(g, j1, log + kept) && j1.snapshot == j.snapshot
    ensures var (s, n) := Base(g, j, readable);
            n <= |log| && Recovered(g, j1, readable, true).0 == Fold(g, s, log[n..] + kept)
  {
    var (s, n) := Base(g, j, readable);
    assert n <= |log|;
    assert (log + kept)[n..] == log[n..] + kept;
    SuffixReplays(g, j1, log + kept, s, n);
  }

  /** And of one that got a snapshot at the number the activation is then at. */
  lemma NewSnapshotReplays<S(!new), E(!new)>(
      g: JournaledGrain<S, E>, j1: GrainJournal, a: Activation<S>, log: seq<E>, kept: seq<E>, memory: S)
    requires Sound(g) && Numbered(g, j1, log + kept) && a.sequence <= |log| && g.encodeState(memory).Some?
    ensures Recovered(g, Snapshotted(g, j1, memory, NumberAfter(g, a, log, kept)), true, true).0
            == if kept != [] then memory else Fold(g, memory, log[a.sequence..])
  {
    SnapshotReplays(g, j1, memory, NumberAfter(g, a, log, kept), log + kept);
    if kept == [] {
      assert log + kept == log;
    } else {
      assert (log + kept)[|log + kept|..] == [];
    }
  }

  /** Appends can fail and events that cannot be encoded are skipped, but every event is
      applied to memory.  Afterwards recovery agrees with memory exactly when the journal
      leads to the same state; or, if a snapshot was taken and can be read, when it is
      numbered as the last event, or the events above its number change nothing.  The
      hypotheses hold of every state that any run reaches. */
  lemma AskRecoversIff<S(!new), E(!new)>(
      g: JournaledGrain<S, E>, j: GrainJournal, a: Activation<S>, log: seq<E>, es: seq<E>,
      appendOk: bool, saveOk: bool, readable: bool)
    requires Sound(g) && Numbered(g, j, log) && a.sequence <= |log|
    ensures var kept, memory := Kept(g, es, appendOk), Fold(g, a.state, es);
            var (s, n) := Base(g, j, readable);
            n <= |log|
            && (Recovered(g, Ask(g, j, a, es, appendOk, saveOk).0, readable, true).0 == memory
                <==> if readable && TakesSnapshot(g, a, es, appendOk, saveOk)
                     then kept != [] || Fold(g, memory, log[a.sequence..]) == memory
                     else Fold(g, s, log[n..] + kept) == memory)
    ensures Ask(g, j, a, es, appendOk, saveOk).1.state == Fold(g, a.state, es)
  {
    var j1 := AskUnfolds(g, j, a, log, es, appendOk, saveOk);
    var kept, memory := Kept(g, es, appendOk), Fold(g, a.state, es);
    GrownReplays(g, j, j1, log, kept, readable);
    if TakesSnapshot(g, a, es, appendOk, saveOk) {
      if readable {
        NewSnapshotReplays(g, j1, a, log, kept, memory);
      } else {
        SnapshotReplays(g, j1, memory, NumberAfter(g, a, log, kept), log + kept);
      }
    }
  }

  /** The same of every run: what recovery would return after one more ask. */
  lemma AskRecoversInRunIff<S(!new), E(!new)>(
      g: JournaledGrain<S, E>, run: seq<LifeEvent<S, E>>, es: seq<E>, appendOk: bool, saveOk: bool, readable: bool)
    requires Sound(g) && ValidRun(g, run) && Final(g, run).live.Some?
    ensures var run', log := run + [AskStep(es, appendOk, saveOk)], History(g, run);
            var a, (s, n) := Final(g, run).live.value, Base(g, Final(g, run).journal, readable);
            var kept, memory := Kept(g, es, appendOk), Fold(g, a.state, es);
            && ValidRun(g, run') && Final(g, run').live.Some? && n <= |log| && a.sequence <= |log|
            && (Recovered(g, Final(g, run').journal, readable, true).0 == Final(g, run').live.value.state
                <==> if readable && TakesSnapshot(g, a, es, appendOk, saveOk)
                     then kept != [] || Fold(g, memory, log[a.sequence..]) == memory
                     else Fold(g, s, log[n..] + kept) == memory)
  {
    var sys := Final(g, run);
    RunNumbered(g, run);
    Extend(g, run, sys, AskStep(es, appendOk, saveOk));
    AskRecoversIff(g, sys.journal, sys.live.value, History(g, run), es, appendOk, saveOk, readable);
  }

  lemma RecordedReplays<S, E>(g: JournaledGrain<S, E>, j: GrainJournal, log: seq<E>, kept: seq<E>, readable: bool)
    requires Records(g, j, log)
    ensures var (s, n) := Base(g, j, readable);
            n <= |log| && Fold(g, s, log[n..] + kept) == Fold(g, g.initial, log + kept)
  {
    var n := Base(g, j, readable).1;
    BaseIsPrefixFold(g, j, log, readable);
    FoldConcat(g, g.initial, log[..n], log[n..] + kept);
    assert log[..n] + (log[n..] + kept) == log + kept;
  }

  /** Where the journal leads to its fold and the activation is at its end: recovery agrees
      with memory exactly when memory is the fold of what is in the journal now, or a
      snapshot was taken and can be read. */
  lemma RecordedAskRecoversIff<S(!new), E(!new)>(
      g: JournaledGrain<S, E>, j: GrainJournal, a: Activation<S>, log: seq<E>, es: seq<E>,
      appendOk: bool, saveOk: bool, readable: bool)
    requires Sound(g) && Records(g, j, log) && a.sequence == |log|
    ensures var (j', a') := Ask(g, j, a, es, appendOk, saveOk);
            Recovered(g, j', readable, true).0 == a'.state
            <==> (Fold(g, g.initial, log + Kept(g, es, appendOk)) == Fold(g, a.state, es)
                  || (readable && TakesSnapshot(g, a, es, appendOk, saveOk)))
  {
    AskRecoversIff(g, j, a, log, es, appendOk, saveOk, readable);
    RecordedReplays(g, j, log, Kept(g, es, appendOk), readable);
    assert log[|log|..] == [];
  }

  /** A failed append in particular: recovery agrees with memory exactly when memory is the
      fold of the journal as it was, or a snapshot was already due, was saved, and can be
      read. */
  lemma FailedAppendDivergesIff<S(!new), E(!new)>(
      g: JournaledGrain<S, E>, j: GrainJournal, a: Activation<S>, log: seq<E>, es: seq<E>, saveOk: bool, readable: bool)
    requires Sound(g) && Records(g, j, log) && a.sequence == |log|
    ensures var (j', a') := Ask(g, j, a, es, false, saveOk);
            Recovered(g, j', readable, true).0 == a'.state
            <==> (Fold(g, g.initial, log) == Fold(g, a.state, es)
                  || (es != [] && SnapshotDue(g, a) && saveOk && readable
                      && g.encodeState(Fold(g, a.state, es)).Some?))
  {
    RecordedAskRecoversIff(g, j, a, log, es, false, saveOk, readable);
    assert log + [] == log;
  }

  /** Any event that changes the first state is lost by a failed append. */
  lemma FailedAppendLosesEvent<S(!new), E(!new)>(g: JournaledGrain<S, E>, e: E, readable: bool)
      returns (run: seq<LifeEvent<S, E>>)
    requires g.apply(g.onActivate(g.initial), e) != g.initial
    ensures run == [Activate(true, true), AskStep([e], false, false)]
    ensures ValidRun(g, run) && Final(g, run).live.Some?
    ensures Recovered(g, Final(g, run).journal, readable, true).0 != Final(g, run).live.value.state
  {
    var sys: System<S> := System(EMPTY_JOURNAL, None);
    Extend(g, [], sys, Activate(true, true));
    sys := Step(g, sys, Activate(true, true));
    Extend(g, [] + [Activate(true, true)], sys, AskStep([e], false, false));
    run := [] + [Activate(true, true)] + [AskStep([e], false, false)];
    FoldOne(g, g.onActivate(g.initial), e);
  }

  lemma ReachSecondAsk<S, E>(g: JournaledGrain<S, E>, e1: E, e2: E)
      returns (run: seq<LifeEvent<S, E>>, a: Activation<S>)
    requires g.snapshotInterval == 0
    ensures run == [Activate(true, true), AskStep([e1], false, true), AskStep([e2], true, true)]
    ensures a == Activation(g.apply(g.onActivate(g.initial), e1), 0, 0)
    ensures var (j', a') := Ask(g, EMPTY_JOURNAL, a, [e2], true, true);
            Reached(g, run, System(j', Some(a')))
  {
    run := [];
    var a0 := Activation(g.onActivate(g.initial), 0, 0);
    Extend(g, run, System(EMPTY_JOURNAL, None), Activate(true, true));
    run := run + [Activate(true, true)];
    Extend(g, run, System(EMPTY_JOURNAL, Some(a0)), AskStep([e1], false, true));
    run := run + [AskStep([e1], false, true)];
    FoldOne(g, a0.state, e1);
    a := Activation(g.apply(a0.state, e1), 0, 0);
    assert Ask(g, EMPTY_JOURNAL, a0, [e1], false, true) == (EMPTY_JOURNAL, a);
    Extend(g, run, System(EMPTY_JOURNAL, Some(a)), AskStep([e2], true, true));
    run := run + [AskStep([e2], true, true)];
  }

  /** Later asks do not heal it, though nothing of theirs is lost: without snapshots the
      two stay apart as long as the lost event makes a difference. */
  lemma LaterAskDoesNotHeal<S(!new), E(!new)>(g: JournaledGrain<S, E>, e1: E, e2: E, readable: bool)
      returns (run: seq<LifeEvent<S, E>>)
    requires Sound(g) && g.snapshotInterval == 0 && g.encodeEvent(e2).Some?
    requires g.apply(g.initial, e2) != g.apply(g.apply(g.onActivate(g.initial), e1), e2)
    ensures run == [Activate(true, true), AskStep([e1], false, true), AskStep([e2], true, true)]
    ensures ValidRun(g, run) && Final(g, run).live.Some? && Kept(g, [e2], true) == [e2]
    ensures Recovered(g, Final(g, run).journal, readable, true).0 != Final(g, run).live.value.state
  {
    var a;
    run, a := ReachSecondAsk(g, e1, e2);
    EncodableAll(g, [e2]);
    FoldOne(g, a.state, e2);
    FoldOne(g, g.initial, e2);
    RecordedAskRecoversIff(g, EMPTY_JOURNAL, a, [], [e2], true, true, readable);
    assert [] + [e2] == [e2];
  }

  lemma FirstAsk<S, E>(g: JournaledGrain<S, E>, e: E) returns (j: GrainJournal, a: Activation<S>)
    requires g.encodeEvent(e).Some?
    ensures (j, a) == Ask(g, EMPTY_JOURNAL, Activation(g.initial, 0, 0), [e], true, false)
    ensures Records(g, j, [e]) && a.state == g.apply(g.initial, e) && a.sequence == 1 && a.eventsSinceSnapshot == 1
  {
    var start := Activation(g.initial, 0, 0);
    j, a := Ask(g, EMPTY_JOURNAL, start, [e], true, false).0, Ask(g, EMPTY_JOURNAL, start, [e], true, false).1;
    EncodableAll(g, [e]);
    var j1 := AskUnfolds(g, EMPTY_JOURNAL, start, [], [e], true, false);
    GrownRecords(g, EMPTY_JOURNAL, j1, [], [e]);
    assert [] + [e] == [e];
    FoldOne(g, g.initial, e);
  }

  lemma ReachOverdue<S, E>(g: JournaledGrain<S, E>, e1: E, e2: E, j: GrainJournal, a: Activation<S>)
      returns (run: seq<LifeEvent<S, E>>)
    requires g.onActivate(g.initial) == g.initial
    requires (j, a) == Ask(g, EMPTY_JOURNAL, Activation(g.initial, 0, 0), [e1], true, false)
    ensures run == [Activate(true, true), AskStep([e1], true, false), AskStep([e2], false, true)]
    ensures var (j', a') := Ask(g, j, a, [e2], false, true);
            Reached(g, run, System(j', Some(a')))
  {
    run := [];
    Extend(g, run, System(EMPTY_JOURNAL, None), Activate(true, true));
    run := run + [Activate(true, true)];
    Extend(g, run, System(EMPTY_JOURNAL, Some(Activation(g.initial, 0, 0))), AskStep([e1], true, false));
    run := run + [AskStep([e1], true, false)];
    Extend(g, run, System(j, Some(a)), AskStep([e2], false, true));
    run := run + [AskStep([e2], false, true)];
  }

  /** With a snapshot overdue, a failed append is followed by a snapshot of the state
      that was not journaled, under the old number: recovery then depends on whether
      that snapshot can be read. */
  lemma OverdueSnapshotCoversFailedAppend<S(!new), E(!new)>(g: JournaledGrain<S, E>, e1: E, e2: E)
      returns (run: seq<LifeEvent<S, E>>)
    requires Sound(g) && g.snapshotInterval == 1 && g.encodeEvent(e1).Some? && g.onActivate(g.initial) == g.initial
    requires var s1 := g.apply(g.initial, e1);
             g.apply(s1, e2) != s1 && g.encodeState(g.apply(s1, e2)).Some?
    ensures run == [Activate(true, true), AskStep([e1], true, false), AskStep([e2], false, true)]
    ensures ValidRun(g, run) && Final(g, run).live.Some?
    ensures Recovered(g, Final(g, run).journal, true, true).0 == Final(g, run).live.value.state
    ensures Recovered(g, Final(g, run).journal, false, true).0 != Final(g, run).live.value.state
  {
    var j, a := FirstAsk(g, e1);
    run := ReachOverdue(g, e1, e2, j, a);
    FoldOne(g, g.initial, e1);
    FoldOne(g, a.state, e2);
    FailedAppendDivergesIff(g, j, a, [e1], [e2], true, true);
    FailedAppendDivergesIff(g, j, a, [e1], [e2], true, false);
  }

  /** Events that cannot be loaded are taken for none: recovery is still complete exactly
      when the snapshot it starts from is numbered as the last event. */
  lemma FailedEventLoadIsCompleteIff<S(!new), E(!new)>(
      g: JournaledGrain<S, E>, j: GrainJournal, log: seq<E>, readable: bool)
    requires Sound(g) && Numbered(g, j, log)
    ensures Recovered(g, j, readable, false) == Recovered(g, j, readable, true)
            <==> Base(g, j, readable).1 == |log|
  {
    RecoveryReplays(g, j, log, readable);
    assert log[|log|..] == [];
  }

  /** An ask of an activation that started from nothing. */
  lemma AskFromNothing<S, E>(g: JournaledGrain<S, E>, j: GrainJournal, log: seq<E>, e: E)
      returns (j1: GrainJournal, a1: Activation<S>)
    requires Numbered(g, j, log) && g.snapshotInterval == 0 && g.encodeEvent(e).Some?
    ensures (j1, a1) == Ask(g, j, Activation(g.onActivate(g.initial), 0, 0), [e], true, true)
    ensures Numbered(g, j1, log + [e]) && Encodable(g, [e]) == [e]
    ensures a1.state == g.apply(g.onActivate(g.initial), e) && a1.sequence == |log| + 1
  {
    var a := Activation(g.onActivate(g.initial), 0, 0);
    EncodableAll(g, [e]);
    FoldOne(g, a.state, e);
    j1 := AskUnfolds(g, j, a, log, [e], true, true);
    a1 := Ask(g, j, a, [e], true, true).1;
  }

  /** The damage lasts: after any run that left no snapshot, one failed load, one ask and a
      graceful end write a snapshot that hides the whole journal from then on. */
  lemma FailedLoadDamageLasts<S(!new), E(!new)>(
      g: JournaledGrain<S, E>, run: seq<LifeEvent<S, E>>, j: GrainJournal, e: E)
      returns (run': seq<LifeEvent<S, E>>, j': GrainJournal)
    requires Sound(g) && Reached(g, run, System(j, None)) && j.snapshot.None?
    requires g.snapshotInterval == 0 && g.encodeEvent(e).Some?
    requires g.encodeState(g.onDeactivate(g.apply(g.onActivate(g.initial), e))).Some?
    ensures run' == run + [Activate(true, false)] + [AskStep([e], true, true)] + [Deactivate(true)]
    ensures Reached(g, run', System(j', None)) && History(g, run') == History(g, run) + [e]
    ensures Recovered(g, j', true, true)
            == (g.onDeactivate(g.apply(g.onActivate(g.initial), e)), |History(g, run)| + 1)
  {
    var log := History(g, run);
    ReachedNumbered(g, run, j);
    var j1, a1 := AskFromNothing(g, j, log, e);
    run' := ReachDamage(g, run, j, e, j1, a1);
    j' := Snapshotted(g, j1, g.onDeactivate(a1.state), a1.sequence);
    CoveringSnapshotIsRecovered(g, j1, g.onDeactivate(a1.state), log + [e]);
  }

  lemma ReachedNumbered<S(!new), E(!new)>(g: JournaledGrain<S, E>, run: seq<LifeEvent<S, E>>, j: GrainJournal)
    requires Sound(g) && Reached(g, run, System(j, None))
    ensures Numbered(g, j, History(g, run))
  {
    RunNumbered(g, run);
  }

  lemma ReachBlankActivation<S, E>(g: JournaledGrain<S, E>, run: seq<LifeEvent<S, E>>, j: GrainJournal)
    requires Reached(g, run, System(j, None)) && j.snapshot.None?
    ensures Reached(g, run + [Activate(true, false)], System(j, Some(Activation(g.onActivate(g.initial), 0, 0))))
    ensures History(g, run + [Activate(true, false)]) == History(g, run)
  {
    Extend(g, run, System(j, None), Activate(true, false));
  }

  lemma ReachEnd<S, E>(g: JournaledGrain<S, E>, run: seq<LifeEvent<S, E>>, j: GrainJournal, a: Activation<S>)
    requires Reached(g, run, System(j, Some(a)))
    ensures Reached(g, run + [Deactivate(true)],
                    System(Snapshotted(g, j, g.onDeactivate(a.state), a.sequence), None))
    ensures History(g, run + [Deactivate(true)]) == History(g, run)
  {
    Extend(g, run, System(j, Some(a)), Deactivate(true));
  }

  lemma ReachDamage<S, E>(
      g: JournaledGrain<S, E>, run: seq<LifeEvent<S, E>>, j: GrainJournal, e: E, j1: GrainJournal, a1: Activation<S>)
      returns (run': seq<LifeEvent<S, E>>)
    requires Reached(g, run, System(j, None)) && j.snapshot.None? && Encodable(g, [e]) == [e]
    requires (j1, a1) == Ask(g, j, Activation(g.onActivate(g.initial), 0, 0), [e], true, true)
    ensures run' == run + [Activate(true, false)] + [AskStep([e], true, true)] + [Deactivate(true)]
    ensures Reached(g, run', System(Snapshotted(g, j1, g.onDeactivate(a1.state), a1.sequence), None))
    ensures History(g, run') == History(g, run) + [e]
  {
    ReachBlankActivation(g, run, j);
    run' := run + [Activate(true, false)];
    Extend(g, run', System(j, Some(Activation(g.onActivate(g.initial), 0, 0))), AskStep([e], true, true));
    run' := run' + [AskStep([e], true, true)];
    ReachEnd(g, run', j1, a1);
    run' := run' + [Deactivate(true)];
  }

  /** The final snapshot takes whatever `on_deactivate` left, even by panicking: recovery is
      the fold exactly when the events above its number lead there from that state; or, if
      the snapshot is not saved or not readable, when recovery led there before. */
  lemma DeactivationKeepsFoldIff<S(!new), E(!new)>(
      g: JournaledGrain<S, E>, j: GrainJournal, a: Activation<S>, log: seq<E>, last: S, saveOk: bool, readable: bool)
    requires Sound(g) && Numbered(g, j, log) && a.sequence <= |log|
    ensures Recovered(g, Deactivated(g, j, a, last, saveOk), readable, true).0 == Fold(g, g.initial, log)
            <==> if saveOk && readable && g.encodeState(last).Some?
                 then Fold(g, last, log[a.sequence..]) == Fold(g, g.initial, log)
                 else Recovered(g, j, readable, true).0 == Fold(g, g.initial, log)
  {
    if saveOk && g.encodeState(last).Some? {
      SnapshotReplays(g, j, last, a.sequence, log);
    }
  }

  /** A hook that panics at once makes recovery return whatever it left, out of nothing. */
  lemma PanickedHookIsRecovered<S(!new), E(!new)>(g: JournaledGrain<S, E>, wreck: S)
      returns (run: seq<LifeEvent<S, E>>)
    requires Sound(g) && g.encodeState(wreck).Some?
    ensures run == [Activate(true, true), DeactivatePanics(true, wreck)]
    ensures ValidRun(g, run) && History(g, run) == []
    ensures Recovered(g, Final(g, run).journal, true, true) == (wreck, 0)
  {
    run := [];
    var a := Activation(g.onActivate(g.initial), 0, 0);
    Extend(g, run, System(EMPTY_JOURNAL, None), Activate(true, true));
    run := run + [Activate(true, true)];
    Extend(g, run, System(EMPTY_JOURNAL, Some(a)), DeactivatePanics(true, wreck));
    run := run + [DeactivatePanics(true, wreck)];
    CoveringSnapshotIsRecovered(g, EMPTY_JOURNAL, wreck, []);
  }

  // --- The stateful store and activation ---

  class InMemoryJournalStore {
    var data: map<GrainId, GrainJournal>

    constructor ()
      ensures data == map[]
    {
      data := map[];
    }

    function Of(id: GrainId): GrainJournal
      reads this
    {
      if id in data then data[id] else EMPTY_JOURNAL
    }

    method Append(id: GrainId, payloads: seq<Bytes>) returns (sequence: nat)
      modifies this
      ensures Of(id) == Appended(old(Of(id)), payloads)
      ensures sequence == LastSequence(Of(id))
      ensures forall x :: x != id ==> Of(x) == old(Of(x))
    {
      var j := Of(id);
      sequence := LastSequence(j);
      for i := 0 to |payloads|
        invariant j == Appended(old(Of(id)), payloads[..i])
        invariant sequence == LastSequence(j)
      {
        assert payloads[..i + 1][..i] == payloads[..i];
        sequence := sequence + 1;
        j := j.(events := j.events + [JournalEntry(sequence, payloads[i])]);
      }
      assert payloads[..|payloads|] == payloads;
      data := data[id := j];
    }

    method LoadEventsAfter(id: GrainId, sequence: nat) returns (events: seq<JournalEntry>)
      ensures events == After(Of(id).events, sequence)
    {
      var all := Of(id).events;
      events := [];
      for i := 0 to |all|
        invariant events == After(all[..i], sequence)
      {
        assert all[..i + 1][..i] == all[..i];
        if all[i].sequence > sequence {
          events := events + [all[i]];
        }
      }
      assert all[..|all|] == all;
    }

    method SaveSnapshot(id: GrainId, sequence: nat, stateBytes: Bytes)
      modifies this
      ensures Of(id) == old(Of(id)).(snapshot := Some((sequence, stateBytes)))
      ensures forall x :: x != id ==> Of(x) == old(Of(x))
    {
      data := data[id := Of(id).(snapshot := Some((sequence, stateBytes)))];
    }
  }

  /** `load_state`. */
  method LoadState<S, E>(g: JournaledGrain<S, E>, store: InMemoryJournalStore, id: GrainId,
                         readable: bool, eventsOk: bool)
      returns (state: S, sequence: nat)
    ensures (state, sequence) == Recovered(g, store.Of(id), readable, eventsOk)
  {
    state, sequence := g.initial, 0;
    if readable && store.Of(id).snapshot.Some? {
      var (seqNo, bytes) := store.Of(id).snapshot.value;
      match g.decodeState(bytes)
      case Some(s) => state, sequence := s, seqNo;
      case None =>
    }
    var events: seq<JournalEntry> := [];
    if eventsOk {
      events := store.LoadEventsAfter(id, sequence);
    }
    ghost var (s0, n0) := (state, sequence);
    for i := 0 to |events|
      invariant (state, sequence) == Replay(g, s0, n0, events[..i])
    {
      assert events[..i + 1][..i] == events[..i];
      match g.decodeEvent(events[i].eventBytes)
      case Some(e) => state, sequence := g.apply(state, e), events[i].sequence;
      case None =>
    }
    assert events[..|events|] == events;
  }

  /** `JournaledState` inside its mailbox. */
  class JournaledState<S, E> {
    const grain: JournaledGrain<S, E>
    const id: GrainId
    const store: InMemoryJournalStore
    var state: S
    var sequence: nat
    var eventsSinceSnapshot: nat

    function View(): Activation<S>
      reads this
    {
      Activation(state, sequence, eventsSinceSnapshot)
    }

    /** Activation: load the state, run the hook on it, and count events afresh. */
    constructor (grain: JournaledGrain<S, E>, id: GrainId, store: InMemoryJournalStore, readable: bool, eventsOk: bool)
      ensures this.grain == grain && this.id == id && this.store == store
      ensures var (s, n) := Recovered(grain, store.Of(id), readable, eventsOk);
              View() == Activation(grain.onActivate(s), n, 0)
    {
      this.grain, this.id, this.store := grain, id, store;
      var s, n := LoadState(grain, store, id, readable, eventsOk);
      state, sequence, eventsSinceSnapshot := grain.onActivate(s), n, 0;
    }

    /** Encode the events and append those that could be encoded, if any. */
    method Persist(events: seq<E>, appendOk: bool)
      modifies this`sequence, this`eventsSinceSnapshot, store
      ensures var payloads := Encoded(grain, events);
              if appendOk && payloads != [] then
                && store.Of(id) == Appended(old(store.Of(id)), payloads)
                && sequence == LastSequence(store.Of(id))
                && eventsSinceSnapshot == old(eventsSinceSnapshot) + |payloads|
              else
                && store.Of(id) == old(store.Of(id))
                && sequence == old(sequence) && eventsSinceSnapshot == old(eventsSinceSnapshot)
      ensures forall x :: x != id ==> store.Of(x) == old(store.Of(x))
    {
      var payloads: seq<Bytes> := [];
      for i := 0 to |events|
        invariant payloads == Encoded(grain, events[..i])
      {
        assert events[..i + 1][..i] == events[..i];
        match grain.encodeEvent(events[i])
        case Some(bytes) => payloads := payloads + [bytes];
        case None =>
      }
      assert events[..|events|] == events;
      if appendOk && payloads != [] {
        sequence := store.Append(id, payloads);
        eventsSinceSnapshot := eventsSinceSnapshot + |payloads|;
      }
    }

    method ApplyAll(events: seq<E>)
      modifies this`state
      ensures state == Fold(grain, old(state), events)
    {
      for i := 0 to |events|
        invariant state == Fold(grain, old(state), events[..i])
      {
        assert events[..i + 1][..i] == events[..i];
        state := grain.apply(state, events[i]);
      }
      assert events[..|events|] == events;
    }

    /** The periodic snapshot. */
    method SnapshotIfDue(saveOk: bool)
      modifies this`eventsSinceSnapshot, store
      ensures if SnapshotDue(grain, old(View())) && saveOk && grain.encodeState(state).Some? then
                && store.Of(id) == Snapshotted(grain, old(store.Of(id)), state, sequence)
                && eventsSinceSnapshot == 0
              else store.Of(id) == old(store.Of(id)) && eventsSinceSnapshot == old(eventsSinceSnapshot)
      ensures forall x :: x != id ==> store.Of(x) == old(store.Of(x))
    {
      if SnapshotDue(grain, View()) {
        match grain.encodeState(state)
        case Some(bytes) =>
          if saveOk {
            store.SaveSnapshot(id, sequence, bytes);
            eventsSinceSnapshot := 0;
          }
        case None =>
      }
    }

    /** What the envelope of `ask` does with the events its handler returned. */
    method HandleAsk(events: seq<E>, appendOk: bool, saveOk: bool)
      modifies this, store
      ensures (store.Of(id), View()) == Ask(grain, old(store.Of(id)), old(View()), events, appendOk, saveOk)
      ensures forall x :: x != id ==> store.Of(x) == old(store.Of(x))
    {
      if events == [] {
        return;
      }
      Persist(events, appendOk);
      ApplyAll(events);
      SnapshotIfDue(saveOk);
    }

    /** Graceful deactivation: run the hook, which may panic and leave `wreck`, and
        snapshot what is left. */
    method Deactivate(wreck: Option<S>, saveOk: bool)
      modifies this`state, store
      ensures state == if wreck.Some? then wreck.value else grain.onDeactivate(old(state))
      ensures store.Of(id) == Deactivated(grain, old(store.Of(id)), old(View()), state, saveOk)
      ensures forall x :: x != id ==> store.Of(x) == old(store.Of(x))
    {
      state := if wreck.Some? then wreck.value else grain.onDeactivate(state);
      match grain.encodeState(state)
      case Some(bytes) =>
        if saveOk {
          store.SaveSnapshot(id, sequence, bytes);
        }
      case None =>
    }
  }
}
