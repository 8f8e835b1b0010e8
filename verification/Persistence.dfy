/** The persistent mailbox: what each strategy writes after a message, what a fault
    discards, and what the next activation starts from. */
module Persistence {
  import opened Text
  import opened Grains
  import opened Activation
  import opened StateStore

  datatype Strategy = WriteOnDeactivate | WriteThrough | WriteBack(interval: nat)

  /** A persistent grain type: handlers and hooks as functions on its state, and a
      serializer that may fail either way. */
  datatype PersistentGrain<!S, !M> = PersistentGrain(
    initial: S,
    handle: (S, M) -> S,
    onActivate: S -> S,
    onDeactivate: S -> S,
    encode: S -> Option<Bytes>,
    decode: Bytes -> Option<S>)

  ghost predicate Sound<S(!new), M>(g: PersistentGrain<S, M>) {
    forall s :: g.encode(s).Some? ==> g.decode(g.encode(s).value) == Some(s)
  }

  /** One message and how its turn goes: whether the handler panics (leaving
      `wreck` behind), when it is done, and whether a store write would succeed. */
  datatype Turn<S, M> = Turn(msg: M, panics: bool, wreck: S, doneAt: nat, saveOk: bool)

  /** The loop's variables, the stored bytes, and a record of what happened:
      completed turns, how many of them the last save covers, when that was (the
      loop's start if never), every payload saved and every payload replicated. */
  datatype Loop<S, M> = Loop(
    state: S,
    fsm: ActivationState,
    lastSave: nat,
    stored: Option<Bytes>,
    done: seq<Turn<S, M>>,
    covered: Option<nat>,
    savedAt: nat,
    saves: seq<Bytes>,
    sent: seq<Bytes>)

  function Start<S, M>(s: S, stored: Option<Bytes>, now: nat): Loop<S, M> {
    Loop(s, Idle, now, stored, [], None, now, [], [])
  }

  function Fold<S, M>(g: PersistentGrain<S, M>, s: S, turns: seq<Turn<S, M>>): S {
    if turns == [] then s else g.handle(Fold(g, s, turns[..|turns| - 1]), turns[|turns| - 1].msg)
  }

  function Elapsed(since: nat, now: nat): nat {
    if now >= since then now - since else 0
  }

  // --- One turn ---

  /** `prepare_persist`: skip, give up, or write these bytes. */
  datatype Plan = Skip | SerializeFailed | Write(bytes: Bytes)

  predicate WriteDue(st: Strategy, lastSave: nat, now: nat) {
    match st
    case WriteThrough => true
    case WriteBack(interval) => Elapsed(lastSave, now) >= interval
    case WriteOnDeactivate => false
  }

  function PlanFor<S, M>(g: PersistentGrain<S, M>, st: Strategy, s: S, lastSave: nat, now: nat): Plan {
    if !WriteDue(st, lastSave, now) then Skip
    else match g.encode(s)
      case Some(bytes) => Write(bytes)
      case None => SerializeFailed
  }

  /** The payload replicated without a save, under write-on-deactivate. */
  function SentUnsaved<S, M>(g: PersistentGrain<S, M>, st: Strategy, s: S): seq<Bytes> {
    if st.WriteOnDeactivate? && g.encode(s).Some? then [g.encode(s).value] else []
  }

  function TakeTurn<S, M>(g: PersistentGrain<S, M>, st: Strategy, l: Loop<S, M>, t: Turn<S, M>): Loop<S, M> {
    if l.fsm != Idle then l
    else if t.panics then l.(state := t.wreck, fsm := Faulted)
    else
      var s := g.handle(l.state, t.msg);
      var lastSave := if st.WriteBack? && WriteDue(st, l.lastSave, t.doneAt) then t.doneAt else l.lastSave;
      match PlanFor(g, st, s, l.lastSave, t.doneAt)
      case Skip => l.(state := s, done := l.done + [t], sent := l.sent + SentUnsaved(g, st, s))
      case SerializeFailed => l.(state := s, fsm := Faulted, lastSave := lastSave)
      case Write(bytes) =>
        if t.saveOk then
          l.(state := s, lastSave := lastSave, stored := Some(bytes), done := l.done + [t],
             covered := Some(|l.done| + 1), savedAt := t.doneAt, saves := l.saves + [bytes], sent := l.sent + [bytes])
        else l.(state := s, fsm := Faulted, lastSave := lastSave)
  }

  function RunLoop<S, M>(g: PersistentGrain<S, M>, st: Strategy, l: Loop<S, M>, turns: seq<Turn<S, M>>): Loop<S, M> {
    if turns == [] then l
    else TakeTurn(g, st, RunLoop(g, st, l, turns[..|turns| - 1]), turns[|turns| - 1])
  }

  // --- What the loop keeps, whatever the strategy ---

  ghost predicate Consistent<S, M>(g: PersistentGrain<S, M>, s0: S, stored0: Option<Bytes>, l: Loop<S, M>) {
    && (l.fsm == Idle || l.fsm == Faulted)
    && (l.fsm == Idle ==> l.state == Fold(g, s0, l.done))
    && (l.covered == None ==> l.stored == stored0)
    && (l.covered.Some? ==>
          && 1 <= l.covered.value <= |l.done|
          && l.stored.Some?
          && g.decode(l.stored.value) == Some(Fold(g, s0, l.done[..l.covered.value])))
  }

  lemma FoldSnoc<S, M>(g: PersistentGrain<S, M>, s0: S, turns: seq<Turn<S, M>>, t: Turn<S, M>, k: nat)
    requires k <= |turns|
    ensures Fold(g, s0, turns + [t]) == g.handle(Fold(g, s0, turns), t.msg)
    ensures (turns + [t])[..k] == turns[..k] && (turns + [t])[..|turns| + 1] == turns + [t]
  {
    assert (turns + [t])[..|turns|] == turns;
  }

  /** A completed turn, saved or not, extends a consistent loop. */
  lemma CompletedTurnConsistent<S, M>(
      g: PersistentGrain<S, M>, s0: S, stored0: Option<Bytes>, l: Loop<S, M>, t: Turn<S, M>, l': Loop<S, M>)
    requires Consistent(g, s0, stored0, l) && l.fsm == Idle && l'.fsm == Idle
    requires l'.done == l.done + [t] && l'.state == g.handle(l.state, t.msg)
    requires (l'.covered == l.covered && l'.stored == l.stored)
             || (l'.covered == Some(|l.done| + 1) && l'.stored.Some? && g.decode(l'.stored.value) == Some(l'.state))
    ensures Consistent(g, s0, stored0, l')
  {
    FoldSnoc(g, s0, l.done, t, if l.covered.Some? then l.covered.value else 0);
  }

  lemma TurnKeepsConsistent<S(!new), M>(
      g: PersistentGrain<S, M>, st: Strategy, s0: S, stored0: Option<Bytes>, l: Loop<S, M>, t: Turn<S, M>)
    requires Sound(g) && Consistent(g, s0, stored0, l)
    ensures Consistent(g, s0, stored0, TakeTurn(g, st, l, t))
  {
    var l' := TakeTurn(g, st, l, t);
    if l.fsm == Idle && l'.fsm == Idle {
      CompletedTurnConsistent(g, s0, stored0, l, t, l');
    }
  }

  lemma {:induction false} LoopStaysConsistent<S(!new), M>(
      g: PersistentGrain<S, M>, st: Strategy, s0: S, stored0: Option<Bytes>, now: nat, turns: seq<Turn<S, M>>)
    requires Sound(g)
    ensures Consistent(g, s0, stored0, RunLoop(g, st, Start(s0, stored0, now), turns))
  {
    if turns != [] {
      LoopStaysConsistent(g, st, s0, stored0, now, turns[..|turns| - 1]);
      TurnKeepsConsistent(g, st, s0, stored0,
                          RunLoop(g, st, Start(s0, stored0, now), turns[..|turns| - 1]), turns[|turns| - 1]);
    }
  }

  // --- Write-through ---

  lemma {:induction false} WriteThroughCoversAll<S, M>(
      g: PersistentGrain<S, M>, s0: S, stored0: Option<Bytes>, now: nat, turns: seq<Turn<S, M>>)
    ensures var l := RunLoop(g, WriteThrough, Start(s0, stored0, now), turns);
            && l.covered == (if l.done == [] then None else Some(|l.done|))
            && l.saves == l.sent && |l.saves| == |l.done|
  {
    if turns != [] {
      WriteThroughCoversAll(g, s0, stored0, now, turns[..|turns| - 1]);
    }
  }

  /** Under write-through, whenever the loop is Idle after a message the store holds
      exactly the in-memory state. */
  lemma {:induction false} WriteThroughIdleIsDurable<S(!new), M>(
      g: PersistentGrain<S, M>, s0: S, stored0: Option<Bytes>, now: nat, turns: seq<Turn<S, M>>)
    requires Sound(g)
    ensures var l := RunLoop(g, WriteThrough, Start(s0, stored0, now), turns);
            l.fsm == Idle && l.done != [] ==> l.stored.Some? && g.decode(l.stored.value) == Some(l.state)
  {
    LoopStaysConsistent(g, WriteThrough, s0, stored0, now, turns);
    WriteThroughCoversAll(g, s0, stored0, now, turns);
    var l := RunLoop(g, WriteThrough, Start(s0, stored0, now), turns);
    assert l.done[..|l.done|] == l.done;
  }

  /** The turn faults a write-through loop that has reached state `s`. */
  predicate Faults<S, M>(g: PersistentGrain<S, M>, s: S, t: Turn<S, M>) {
    t.panics || !t.saveOk || g.encode(g.handle(s, t.msg)) == None
  }

  /** How many turns precede the first faulting one. */
  function BeforeFault<S, M>(g: PersistentGrain<S, M>, s0: S, turns: seq<Turn<S, M>>): (n: nat)
    ensures n <= |turns|
  {
    if turns == [] then 0
    else
      var n := BeforeFault(g, s0, turns[..|turns| - 1]);
      if n == |turns| - 1 && !Faults(g, Fold(g, s0, turns[..n]), turns[n]) then |turns| else n
  }

  lemma WriteThroughTurn<S, M>(g: PersistentGrain<S, M>, l: Loop<S, M>, t: Turn<S, M>)
    ensures var l' := TakeTurn(g, WriteThrough, l, t);
            if l.fsm == Idle && !Faults(g, l.state, t) then l'.fsm == Idle && l'.done == l.done + [t]
            else l'.done == l.done && l'.fsm == if l.fsm == Idle then Faulted else l.fsm
  {
  }

  /** The write-through loop completes exactly the turns before the first fault. */
  lemma {:induction false} WriteThroughStopsAtFault<S(!new), M>(
      g: PersistentGrain<S, M>, s0: S, stored0: Option<Bytes>, now: nat, turns: seq<Turn<S, M>>)
    requires Sound(g)
    ensures var l, n := RunLoop(g, WriteThrough, Start(s0, stored0, now), turns), BeforeFault(g, s0, turns);
            l.done == turns[..n] && (l.fsm == Idle <==> n == |turns|)
  {
    if turns != [] {
      var init, t := turns[..|turns| - 1], turns[|turns| - 1];
      WriteThroughStopsAtFault(g, s0, stored0, now, init);
      LoopStaysConsistent(g, WriteThrough, s0, stored0, now, init);
      WriteThroughTurn(g, RunLoop(g, WriteThrough, Start(s0, stored0, now), init), t);
      var n := BeforeFault(g, s0, init);
      assert init[..n] == turns[..n];
      assert turns == init + [t] && turns[..|turns|] == turns;
    }
  }

  // --- Write-back ---

  /** Completed turns the last save does not cover. */
  function Uncovered<S, M>(l: Loop<S, M>): seq<Turn<S, M>> {
    if l.covered.Some? && l.covered.value <= |l.done| then l.done[l.covered.value..] else l.done
  }

  ghost predicate Recent<S, M>(interval: nat, l: Loop<S, M>) {
    && (l.covered.Some? ==> l.covered.value <= |l.done|)
    && (l.fsm == Idle ==> l.lastSave == l.savedAt)
    && (forall i :: 0 <= i < |Uncovered(l)| ==> Elapsed(l.savedAt, Uncovered(l)[i].doneAt) < interval)
    && l.saves == l.sent
  }

  lemma WriteBackTurn<S, M>(g: PersistentGrain<S, M>, interval: nat, l: Loop<S, M>, t: Turn<S, M>)
    requires Recent(interval, l)
    ensures Recent(interval, TakeTurn(g, WriteBack(interval), l, t))
  {
    var l' := TakeTurn(g, WriteBack(interval), l, t);
    if l'.done == l.done {
      assert Uncovered(l') == Uncovered(l);
    } else if WriteDue(WriteBack(interval), l.lastSave, t.doneAt) {
      assert Uncovered(l') == [];
    } else {
      assert Uncovered(l') == Uncovered(l) + [t];
    }
  }

  /** Under write-back every completed turn that is not saved yet was done less than
      `interval` after the last save, or after the loop's start. */
  lemma {:induction false} WriteBackLosesLessThanInterval<S, M>(
      g: PersistentGrain<S, M>, interval: nat, s0: S, stored0: Option<Bytes>, now: nat, turns: seq<Turn<S, M>>)
    ensures Recent(interval, RunLoop(g, WriteBack(interval), Start(s0, stored0, now), turns))
  {
    if turns != [] {
      var init := turns[..|turns| - 1];
      WriteBackLosesLessThanInterval(g, interval, s0, stored0, now, init);
      WriteBackTurn(g, interval, RunLoop(g, WriteBack(interval), Start(s0, stored0, now), init), turns[|turns| - 1]);
    }
  }

  /** Turn `k` ends in a save. */
  predicate SavesAt<S, M>(g: PersistentGrain<S, M>, st: Strategy, l: Loop<S, M>, turns: seq<Turn<S, M>>, k: nat)
    requires k < |turns|
  {
    |RunLoop(g, st, l, turns[..k + 1]).saves| > |RunLoop(g, st, l, turns[..k]).saves|
  }

  /** When the last saving turn was done; the loop's start if none saved. */
  function LastSaveTime<S, M>(g: PersistentGrain<S, M>, st: Strategy, l: Loop<S, M>, turns: seq<Turn<S, M>>): nat {
    if turns == [] then l.lastSave
    else if SavesAt(g, st, l, turns, |turns| - 1) then turns[|turns| - 1].doneAt
    else LastSaveTime(g, st, l, turns[..|turns| - 1])
  }

  lemma {:induction false} LastSaveIsTracked<S, M>(
      g: PersistentGrain<S, M>, interval: nat, l: Loop<S, M>, turns: seq<Turn<S, M>>)
    ensures var l' := RunLoop(g, WriteBack(interval), l, turns);
            l'.fsm == Idle ==> l'.lastSave == LastSaveTime(g, WriteBack(interval), l, turns)
  {
    if turns != [] {
      LastSaveIsTracked(g, interval, l, turns[..|turns| - 1]);
      assert turns[..|turns|] == turns;
    }
  }

  /** The turn is taken, its handler returns, and its state could be saved. */
  predicate CouldSave<S, M>(g: PersistentGrain<S, M>, l: Loop<S, M>, t: Turn<S, M>) {
    l.fsm == Idle && !t.panics && t.saveOk && g.encode(g.handle(l.state, t.msg)).Some?
  }

  /** Under write-back a turn ends in a save exactly when it could and the interval has
      passed since the last saving turn, or since the loop's start: saves lie at least the
      interval apart, and none is put off. */
  lemma WriteBackSavesIff<S, M>(
      g: PersistentGrain<S, M>, interval: nat, s0: S, stored0: Option<Bytes>, now: nat, turns: seq<Turn<S, M>>, k: nat)
    requires k < |turns|
    ensures var st, l0: Loop<S, M> := WriteBack(interval), Start(s0, stored0, now);
            SavesAt(g, st, l0, turns, k)
            <==> (CouldSave(g, RunLoop(g, st, l0, turns[..k]), turns[k])
                  && Elapsed(LastSaveTime(g, st, l0, turns[..k]), turns[k].doneAt) >= interval)
  {
    LastSaveIsTracked(g, interval, Start(s0, stored0, now), turns[..k]);
    assert turns[..k + 1][..k] == turns[..k];
  }

  // --- Write-on-deactivate ---

  /** The encodings of the states after each turn, where there is one. */
  function Encodings<S, M>(g: PersistentGrain<S, M>, s0: S, turns: seq<Turn<S, M>>): seq<Bytes> {
    if turns == [] then []
    else
      Encodings(g, s0, turns[..|turns| - 1])
      + match g.encode(Fold(g, s0, turns)) case Some(bytes) => [bytes] case None => []
  }

  /** How many turns precede the first panic. */
  function BeforePanic<S, M>(turns: seq<Turn<S, M>>): (n: nat)
    ensures n <= |turns|
    ensures forall i :: 0 <= i < n ==> !turns[i].panics
    ensures n < |turns| ==> turns[n].panics
  {
    if turns == [] then 0
    else
      var n := BeforePanic(turns[..|turns| - 1]);
      if n == |turns| - 1 && !turns[n].panics then |turns| else n
  }

  /** The loop has saved nothing, stopped only at a panic, and handed every state it could
      encode to the replication sink. */
  ghost predicate OnlyReplicated<S, M>(
      g: PersistentGrain<S, M>, s0: S, stored0: Option<Bytes>, turns: seq<Turn<S, M>>, l: Loop<S, M>)
  {
    var n := BeforePanic(turns);
    && l.stored == stored0 && l.saves == []
    && l.done == turns[..n] && (l.fsm == Idle <==> n == |turns|)
    && (l.fsm == Idle ==> l.state == Fold(g, s0, turns))
    && l.sent == Encodings(g, s0, turns[..n])
  }

  lemma BeforePanicSnoc<S, M>(init: seq<Turn<S, M>>, t: Turn<S, M>)
    ensures var n := BeforePanic(init);
            BeforePanic(init + [t]) == if n == |init| && !t.panics then n + 1 else n
    ensures (init + [t])[..BeforePanic(init)] == init[..BeforePanic(init)]
  {
    assert (init + [t])[..|init|] == init;
  }

  lemma TurnKeepsOnlyReplicated<S, M>(
      g: PersistentGrain<S, M>, s0: S, stored0: Option<Bytes>, init: seq<Turn<S, M>>, t: Turn<S, M>, l: Loop<S, M>)
    requires OnlyReplicated(g, s0, stored0, init, l)
    ensures OnlyReplicated(g, s0, stored0, init + [t], TakeTurn(g, WriteOnDeactivate, l, t))
  {
    BeforePanicSnoc(init, t);
    WriteOnDeactivateTurn(g, l, t);
    if l.fsm == Idle && !t.panics {
      var turns := init + [t];
      assert turns[..|init|] == init && turns[..|turns|] == turns && init[..|init|] == init;
    }
  }

  /** Under write-on-deactivate the loop saves nothing, stops only at a panic, and hands
      every state it could encode to the replication sink. */
  lemma {:induction false} WriteOnDeactivateSavesNothing<S, M>(
      g: PersistentGrain<S, M>, s0: S, stored0: Option<Bytes>, now: nat, turns: seq<Turn<S, M>>)
    ensures OnlyReplicated(g, s0, stored0, turns, RunLoop(g, WriteOnDeactivate, Start(s0, stored0, now), turns))
  {
    if turns != [] {
      var init, t := turns[..|turns| - 1], turns[|turns| - 1];
      WriteOnDeactivateSavesNothing(g, s0, stored0, now, init);
      TurnKeepsOnlyReplicated(g, s0, stored0, init, t, RunLoop(g, WriteOnDeactivate, Start(s0, stored0, now), init));
      assert turns == init + [t];
    }
  }

  lemma WriteOnDeactivateTurn<S, M>(g: PersistentGrain<S, M>, l: Loop<S, M>, t: Turn<S, M>)
    ensures var l', s := TakeTurn(g, WriteOnDeactivate, l, t), g.handle(l.state, t.msg);
            && l'.stored == l.stored && l'.saves == l.saves
            && (l.fsm == Idle && !t.panics ==>
                  && l'.fsm == Idle && l'.state == s && l'.done == l.done + [t]
                  && l'.sent == l.sent + match g.encode(s) case Some(bytes) => [bytes] case None => [])
            && (l.fsm != Idle || t.panics ==>
                  l'.done == l.done && l'.sent == l.sent && l'.fsm == if l.fsm == Idle then Faulted else l.fsm)
  {
  }

  // --- Whole activations, one after the other ---

  /** A graceful end runs `on_deactivate`, which may panic and leave `wreck` behind, and
      then saves; `Killed` is a crash of the process. */
  datatype End<S> = Graceful(finalSaves: seq<bool>, wreck: Option<S>) | Killed

  /** One activation: whether loading worked, whether `on_activate` panicked, when
      the loop started, the turns it took, and how it ended. */
  datatype Life<S, M> = Life(loadOk: bool, activatePanics: bool, startedAt: nat, turns: seq<Turn<S, M>>, end: End<S>)

  /** `load_or_default`: the stored state, or the default. */
  function Loaded<S, M>(g: PersistentGrain<S, M>, stored: Option<Bytes>, loadOk: bool): S {
    if loadOk && stored.Some? && g.decode(stored.value).Some? then g.decode(stored.value).value else g.initial
  }

  /** `save_with_retry`: three attempts. */
  predicate SavesInThree(results: seq<bool>) {
    exists i :: 0 <= i < |results| && i < 3 && results[i]
  }

  /** What the final save would write. */
  function LastState<S, M>(g: PersistentGrain<S, M>, s: S, end: End<S>): S {
    if end.Graceful? && end.wreck.Some? then end.wreck.value else g.onDeactivate(s)
  }

  /** The loop ended well, and the final state was encoded and saved. */
  predicate SavesLast<S, M>(g: PersistentGrain<S, M>, l: Loop<S, M>, end: End<S>) {
    && l.fsm == Idle && end.Graceful? && SavesInThree(end.finalSaves)
    && g.encode(LastState(g, l.state, end)).Some?
  }

  function LoopOf<S, M>(g: PersistentGrain<S, M>, st: Strategy, stored: Option<Bytes>, life: Life<S, M>): Loop<S, M> {
    RunLoop(g, st, Start(g.onActivate(Loaded(g, stored, life.loadOk)), stored, life.startedAt), life.turns)
  }

  /** What the store holds after the activation. */
  function Live<S, M>(g: PersistentGrain<S, M>, st: Strategy, stored: Option<Bytes>, life: Life<S, M>): Option<Bytes> {
    if life.activatePanics then stored
    else
      var l := LoopOf(g, st, stored, life);
      if SavesLast(g, l, life.end) then g.encode(LastState(g, l.state, life.end)) else l.stored
  }

  /** What the activation handed to its replication sink, in order. */
  function Sent<S, M>(g: PersistentGrain<S, M>, st: Strategy, stored: Option<Bytes>, life: Life<S, M>): seq<Bytes> {
    if life.activatePanics then []
    else
      var l := LoopOf(g, st, stored, life);
      l.sent + if SavesLast(g, l, life.end) then [g.encode(LastState(g, l.state, life.end)).value] else []
  }

  function LiveAll<S, M>(g: PersistentGrain<S, M>, st: Strategy, lives: seq<Life<S, M>>): Option<Bytes> {
    if lives == [] then None else Live(g, st, LiveAll(g, st, lives[..|lives| - 1]), lives[|lives| - 1])
  }

  /** What survives a write-through activation when `v` was stored before, without
      mention of stores or bytes: everything if the final save went through, else
      the messages before the first fault, else `v`.  A failed load starts from the
      default instead of `v`. */
  function Survives<S, M>(g: PersistentGrain<S, M>, v: S, life: Life<S, M>): S {
    if life.activatePanics then v
    else
      var s0 := g.onActivate(if life.loadOk then v else g.initial);
      var n := BeforeFault(g, s0, life.turns);
      var last := LastState(g, Fold(g, s0, life.turns), life.end);
      if n == |life.turns| && life.end.Graceful? && SavesInThree(life.end.finalSaves) && g.encode(last).Some?
      then last
      else if n > 0 then Fold(g, s0, life.turns[..n])
      else v
  }

  function SurvivesAll<S, M>(g: PersistentGrain<S, M>, lives: seq<Life<S, M>>): S {
    if lives == [] then g.initial
    else Survives(g, SurvivesAll(g, lives[..|lives| - 1]), lives[|lives| - 1])
  }

  lemma LifeSurvives<S(!new), M>(g: PersistentGrain<S, M>, stored: Option<Bytes>, life: Life<S, M>)
    requires Sound(g)
    ensures Loaded(g, Live(g, WriteThrough, stored, life), true)
            == Survives(g, Loaded(g, stored, true), life)
  {
    if !life.activatePanics {
      var s0 := g.onActivate(Loaded(g, stored, life.loadOk));
      var l := LoopOf(g, WriteThrough, stored, life);
      LoopStaysConsistent(g, WriteThrough, s0, stored, life.startedAt, life.turns);
      WriteThroughCoversAll(g, s0, stored, life.startedAt, life.turns);
      WriteThroughStopsAtFault(g, s0, stored, life.startedAt, life.turns);
      assert l.done[..|l.done|] == l.done && life.turns[..|life.turns|] == life.turns;
    }
  }

  /** In every sequence of write-through activations — failed loads, panics in handlers
      and hooks, failed saves, failed final saves and crashes included — the next
      activation that loads starts from exactly the messages before each fault. */
  lemma {:induction false} NextActivationStartsFromSurvivors<S(!new), M>(
      g: PersistentGrain<S, M>, lives: seq<Life<S, M>>)
    requires Sound(g)
    ensures Loaded(g, LiveAll(g, WriteThrough, lives), true) == SurvivesAll(g, lives)
  {
    if lives != [] {
      NextActivationStartsFromSurvivors(g, lives[..|lives| - 1]);
      LifeSurvives(g, LiveAll(g, WriteThrough, lives[..|lives| - 1]), lives[|lives| - 1]);
    }
  }

  lemma {:induction false} StoredIsLastSave<S, M>(
      g: PersistentGrain<S, M>, st: Strategy, s0: S, stored0: Option<Bytes>, now: nat, turns: seq<Turn<S, M>>)
    ensures var l := RunLoop(g, st, Start(s0, stored0, now), turns);
            && l.stored == (if l.saves == [] then stored0 else Some(l.saves[|l.saves| - 1]))
            && (st != WriteOnDeactivate ==> l.sent == l.saves)
  {
    if turns != [] {
      StoredIsLastSave(g, st, s0, stored0, now, turns[..|turns| - 1]);
    }
  }

  /** Under write-through and write-back an activation hands every durable state to the
      replication sink and nothing else: what is stored at its end is the last payload it
      sent, or what was stored before if it sent none. */
  lemma EverySaveIsSent<S, M>(g: PersistentGrain<S, M>, st: Strategy, stored: Option<Bytes>, life: Life<S, M>)
    requires st != WriteOnDeactivate
    ensures var sent := Sent(g, st, stored, life);
            Live(g, st, stored, life) == if sent == [] then stored else Some(sent[|sent| - 1])
  {
    StoredIsLastSave(g, st, g.onActivate(Loaded(g, stored, life.loadOk)), stored, life.startedAt, life.turns);
  }

  /** A graceful end of a loop that did not fault, under every strategy: what is stored in the
      end is what `on_deactivate` made of the state, or what it left behind by panicking. */
  lemma GracefulEndStores<S, M>(g: PersistentGrain<S, M>, st: Strategy, stored: Option<Bytes>, life: Life<S, M>)
    requires !life.activatePanics && life.end.Graceful? && SavesInThree(life.end.finalSaves)
    requires LoopOf(g, st, stored, life).fsm == Idle
    ensures var state := LoopOf(g, st, stored, life).state;
            var last := if life.end.wreck.Some? then life.end.wreck.value else g.onDeactivate(state);
            g.encode(last).Some? ==> Live(g, st, stored, life) == g.encode(last)
  {
  }

  /** So a hook that panics in an activation without messages replaces whatever was stored
      by what it left. */
  lemma PanickedHookIsStored<S, M>(g: PersistentGrain<S, M>, st: Strategy, stored: Option<Bytes>, wreck: S, now: nat)
    requires g.encode(wreck).Some?
    ensures Live(g, st, stored, Life(true, false, now, [], Graceful([true], Some(wreck)))) == g.encode(wreck)
  {
    var life: Life<S, M> := Life(true, false, now, [], Graceful([true], Some(wreck)));
    assert [true][0];
    GracefulEndStores(g, st, stored, life);
  }

  /** Under write-on-deactivate an activation is stored as a whole or not at all. */
  lemma WriteOnDeactivateIsAllOrNothing<S, M>(g: PersistentGrain<S, M>, stored: Option<Bytes>, life: Life<S, M>)
    ensures var last := LastState(g, Fold(g, g.onActivate(Loaded(g, stored, life.loadOk)), life.turns), life.end);
            Live(g, WriteOnDeactivate, stored, life)
            == if !life.activatePanics && (forall i :: 0 <= i < |life.turns| ==> !life.turns[i].panics)
                  && life.end.Graceful? && SavesInThree(life.end.finalSaves)
               then (if g.encode(last).Some? then g.encode(last) else stored) else stored
  {
    WriteOnDeactivateSavesNothing(g, g.onActivate(Loaded(g, stored, life.loadOk)), stored, life.startedAt, life.turns);
  }

  /** Two loops that differ at most in the stored bytes, and hold the same ones as soon as
      a save went through. */
  ghost predicate Alike<S, M>(l1: Loop<S, M>, l2: Loop<S, M>, stored1: Option<Bytes>, stored2: Option<Bytes>) {
    && l1 == l2.(stored := l1.stored)
    && (l1.covered.None? ==> l1.stored == stored1 && l2.stored == stored2)
    && (l1.covered.Some? ==> l1.stored == l2.stored)
  }

  lemma TurnKeepsAlike<S, M>(g: PersistentGrain<S, M>, st: Strategy, l1: Loop<S, M>, l2: Loop<S, M>, t: Turn<S, M>,
                             stored1: Option<Bytes>, stored2: Option<Bytes>)
    requires Alike(l1, l2, stored1, stored2)
    ensures Alike(TakeTurn(g, st, l1, t), TakeTurn(g, st, l2, t), stored1, stored2)
  {
  }

  /** The stored bytes do not steer the loop. */
  lemma {:induction false} LoopIgnoresStored<S, M>(
      g: PersistentGrain<S, M>, st: Strategy, s0: S, now: nat, turns: seq<Turn<S, M>>,
      stored1: Option<Bytes>, stored2: Option<Bytes>)
    ensures Alike(RunLoop(g, st, Start(s0, stored1, now), turns), RunLoop(g, st, Start(s0, stored2, now), turns),
                  stored1, stored2)
  {
    if turns != [] {
      var init := turns[..|turns| - 1];
      LoopIgnoresStored(g, st, s0, now, init, stored1, stored2);
      TurnKeepsAlike(g, st, RunLoop(g, st, Start(s0, stored1, now), init),
                     RunLoop(g, st, Start(s0, stored2, now), init), turns[|turns| - 1], stored1, stored2);
    }
  }

  /** An activation that starts from the default saves something. */
  predicate SavesFromDefault<S, M>(g: PersistentGrain<S, M>, st: Strategy, life: Life<S, M>) {
    var l := RunLoop(g, st, Start(g.onActivate(g.initial), None, life.startedAt), life.turns);
    !life.activatePanics && (l.covered.Some? || SavesLast(g, l, life.end))
  }

  /** Under every strategy, an activation whose load failed overwrites what was stored
      with bytes that owe nothing to it exactly when it saves anything at all. */
  lemma FailedLoadOverwritesIff<S, M>(
      g: PersistentGrain<S, M>, st: Strategy, life: Life<S, M>, stored1: Option<Bytes>, stored2: Option<Bytes>)
    requires !life.loadOk
    ensures if SavesFromDefault(g, st, life) then Live(g, st, stored1, life) == Live(g, st, stored2, life)
            else Live(g, st, stored1, life) == stored1 && Live(g, st, stored2, life) == stored2
  {
    var s0 := g.onActivate(g.initial);
    LoopIgnoresStored(g, st, s0, life.startedAt, life.turns, stored1, None);
    LoopIgnoresStored(g, st, s0, life.startedAt, life.turns, stored2, None);
  }

  /** One message after a failed load: whatever was stored, the store ends up with the
      message applied to the default. */
  lemma FailedLoadLosesState<S, M>(g: PersistentGrain<S, M>, stored: Option<Bytes>, m: M, wreck: S, now: nat)
    requires g.encode(g.handle(g.onActivate(g.initial), m)).Some?
    ensures var life := Life(false, false, now, [Turn(m, false, wreck, now, true)], Killed);
            Live(g, WriteThrough, stored, life) == g.encode(g.handle(g.onActivate(g.initial), m))
  {
    var turns := [Turn(m, false, wreck, now, true)];
    var l: Loop<S, M> := Start(g.onActivate(g.initial), stored, now);
    assert turns[..|turns| - 1] == [];
    assert RunLoop(g, WriteThrough, l, turns) == TakeTurn(g, WriteThrough, l, turns[0]);
  }

  // --- The mailbox, step by step ---

  /** `save_with_retry` against a store whose attempts succeed or fail as given. */
  method SaveWithRetry(store: InMemoryStateStore, id: GrainId, bytes: Bytes, results: seq<bool>) returns (saved: bool)
    modifies store
    ensures saved <==> exists i :: 0 <= i < 3 && i < |results| && results[i]
    ensures BytesOf(Lookup(store.data, id)) == if saved then Some(bytes) else old(BytesOf(Lookup(store.data, id)))
    ensures forall x :: x != id ==> Lookup(store.data, x) == old(Lookup(store.data, x))
  {
    for attempt := 0 to 3
      invariant store.data == old(store.data)
      invariant forall i :: 0 <= i < attempt && i < |results| ==> !results[i]
    {
      if attempt < |results| && results[attempt] {
        store.Save(id, bytes);
        return true;
      }
    }
    return false;
  }

  /** What follows a handler that returned: the save its strategy calls for. */
  method FinishTurn<S, M>(g: PersistentGrain<S, M>, st: Strategy, state: S, lastSave: nat, t: Turn<S, M>,
                          store: InMemoryStateStore, id: GrainId)
      returns (fsm: ActivationState, newLastSave: nat, sent: seq<Bytes>)
    modifies store
    ensures var plan := PlanFor(g, st, state, lastSave, t.doneAt);
            && fsm == (if plan == Skip || (plan.Write? && t.saveOk) then Idle else Faulted)
            && newLastSave == (if st.WriteBack? && plan != Skip then t.doneAt else lastSave)
            && sent == (if plan == Skip then SentUnsaved(g, st, state)
                        else if plan.Write? && t.saveOk then [plan.bytes] else [])
            && BytesOf(Lookup(store.data, id))
               == if plan.Write? && t.saveOk then Some(plan.bytes) else old(BytesOf(Lookup(store.data, id)))
    ensures forall x :: x != id ==> Lookup(store.data, x) == old(Lookup(store.data, x))
  {
    var plan := PlanFor(g, st, state, lastSave, t.doneAt);
    newLastSave := if st.WriteBack? && plan != Skip then t.doneAt else lastSave;
    fsm, sent := Processing, [];
    match plan
    case Skip =>
      if st.WriteOnDeactivate? {
        match g.encode(state)
        case Some(bytes) => sent := [bytes];
        case None =>
      }
      fsm := Next(fsm, HandlerCompleted);
    case SerializeFailed =>
      fsm := Next(Next(fsm, PersistStarted), PersistFailed);
    case Write(bytes) =>
      if t.saveOk {
        store.Save(id, bytes);
        sent := [bytes];
      }
      fsm := Next(Next(fsm, PersistStarted), if t.saveOk then PersistSucceeded else PersistFailed);
  }

  /** `sequential_loop`. */
  method SequentialLoop<S, M>(g: PersistentGrain<S, M>, st: Strategy, initial: S, now: nat,
                              store: InMemoryStateStore, id: GrainId, inbox: seq<Turn<S, M>>)
      returns (state: S, faulted: bool, sent: seq<Bytes>)
    modifies store
    ensures var l := RunLoop(g, st, Start(initial, old(BytesOf(Lookup(store.data, id))), now), inbox);
            && state == l.state && (faulted <==> l.fsm == Faulted) && (!faulted <==> l.fsm == Idle)
            && BytesOf(Lookup(store.data, id)) == l.stored && sent == l.sent
    ensures forall x :: x != id ==> Lookup(store.data, x) == old(Lookup(store.data, x))
  {
    state, sent := initial, [];
    var lastSave := now;
    var fsm := Idle;
    ghost var stored0 := BytesOf(Lookup(store.data, id));
    ghost var l := Start(initial, stored0, now);
    var i := 0;
    while fsm == Idle && i < |inbox|
      invariant 0 <= i <= |inbox| && (fsm == Idle || fsm == Faulted)
      invariant l == RunLoop(g, st, Start(initial, stored0, now), inbox[..i])
      invariant (state, fsm, lastSave, sent) == (l.state, l.fsm, l.lastSave, l.sent)
      invariant BytesOf(Lookup(store.data, id)) == l.stored
      invariant forall x :: x != id ==> Lookup(store.data, x) == old(Lookup(store.data, x))
    {
      var t := inbox[i];
      assert inbox[..i + 1][..i] == inbox[..i];
      l := TakeTurn(g, st, l, t);
      i := i + 1;
      fsm := Next(fsm, MessageReceived);
      if t.panics {
        state := t.wreck;
        fsm := Next(fsm, HandlerPanicked);
        continue;
      }
      state := g.handle(state, t.msg);
      var more;
      fsm, lastSave, more := FinishTurn(g, st, state, lastSave, t, store, id);
      assert more == [] ==> sent + more == sent;
      sent := sent + more;
    }
    FaultedLoopStops(g, st, Start(initial, stored0, now), inbox, i);
    faulted := fsm == Faulted;
  }

  /** `run`: load, activate, loop, deactivate, save.  A faulted activation skips the
      hook and the final save; a panicking `on_deactivate` skips nothing. */
  method RunActivation<S, M>(g: PersistentGrain<S, M>, st: Strategy,
                             store: InMemoryStateStore, id: GrainId, life: Life<S, M>)
      returns (sent: seq<Bytes>)
    modifies store
    ensures BytesOf(Lookup(store.data, id)) == Live(g, st, old(BytesOf(Lookup(store.data, id))), life)
    ensures sent == Sent(g, st, old(BytesOf(Lookup(store.data, id))), life)
    ensures forall x :: x != id ==> Lookup(store.data, x) == old(Lookup(store.data, x))
  {
    sent := [];
    var state := Loaded(g, BytesOf(Lookup(store.data, id)), life.loadOk);
    if life.activatePanics {
      return;
    }
    state := g.onActivate(state);
    var faulted;
    state, faulted, sent := SequentialLoop(g, st, state, life.startedAt, store, id, life.turns);
    if !faulted && life.end.Graceful? {
      state := if life.end.wreck.Some? then life.end.wreck.value else g.onDeactivate(state);
      match g.encode(state)
      case Some(bytes) =>
        var saved := SaveWithRetry(store, id, bytes, life.end.finalSaves);
        if saved {
          sent := sent + [bytes];
        }
      case None =>
    }
  }

  /** Once a loop has faulted, further turns change nothing. */
  lemma {:induction false} FaultedLoopStops<S, M>(
      g: PersistentGrain<S, M>, st: Strategy, l: Loop<S, M>, turns: seq<Turn<S, M>>, i: nat)
    requires i <= |turns|
    requires i < |turns| ==> RunLoop(g, st, l, turns[..i]).fsm != Idle
    ensures RunLoop(g, st, l, turns) == RunLoop(g, st, l, turns[..i])
    decreases |turns| - i
  {
    if i == |turns| {
      assert turns[..i] == turns;
    } else {
      assert turns[..i + 1][..i] == turns[..i];
      FaultedLoopStops(g, st, l, turns, i + 1);
    }
  }
}
