/** Callers and mailbox tasks interleaving on one grain directory.  Without drain
    or rebalancing a grain never has two activations that have not deregistered,
    and the activation count stays within the limit plus the callers that slipped
    past the check together. */
module SingleActivation {
  import opened Text
  import opened Grains
  import opened Activation

  /** One activation: its state, whether its task has called `remove`, and
      whether its receiver still exists. */
  datatype Mailbox = Mailbox(grain: GrainId, fsm: ActivationState, deregistered: bool, open: bool)

  /** `waiting` maps callers past the limit check to the grain they want. */
  datatype World = World(
    directory: Directory,
    mailboxes: map<nat, Mailbox>,
    waiting: map<nat, GrainId>,
    created: nat)

  datatype Step =
    | CheckLimit(caller: nat, grain: GrainId)
    | EnterMap(caller: nat)
    | Advance(mailbox: nat, event: ActivationEvent)
    | Deregister(mailbox: nat)
    | DropReceiver(mailbox: nat)

  /** The events `run_mailbox` feeds the machine in each state. */
  predicate Raised(s: ActivationState, e: ActivationEvent) {
    match s
    case Activating => e.ActivateSucceeded? || e.ActivateFailed?
    case Idle => e.MessageReceived? || e.ChannelClosed? || e.IdleTimeout?
    case Processing => e.HandlerCompleted? || e.HandlerPanicked?
    case Draining => e.DrainComplete?
    case Deactivating => e.DeactivateComplete?
    case Faulted => e.DeactivateComplete?
    case _ => false
  }

  predicate Enabled(w: World, st: Step) {
    match st
    case CheckLimit(c, _) => c !in w.waiting
    case EnterMap(c) => c in w.waiting
    case Advance(a, e) => a in w.mailboxes && Raised(w.mailboxes[a].fsm, e)
    case Deregister(a) => a in w.mailboxes && w.mailboxes[a].fsm == Closed && !w.mailboxes[a].deregistered
    case DropReceiver(a) => a in w.mailboxes && w.mailboxes[a].deregistered && w.mailboxes[a].open
  }

  /** Calls come from the given callers. */
  predicate CalledBy(callers: set<nat>, st: Step) {
    st.CheckLimit? ==> st.caller in callers
  }

  /** Activations whose senders report `is_closed`. */
  function ClosedSenders(w: World): set<nat> {
    set a | a in w.mailboxes && !w.mailboxes[a].open
  }

  function Do(w: World, st: Step): World
    requires Enabled(w, st)
  {
    match st
    case CheckLimit(c, g) =>
      if w.directory.draining || OverLimit(w.directory) then w else w.(waiting := w.waiting[c := g])
    case EnterMap(c) =>
      var g := w.waiting[c];
      var (d, sender) := Entry(w.directory, g, ClosedSenders(w), w.created);
      var left := w.waiting - {c};
      if sender == SenderOf(w.created) then
        World(d, w.mailboxes[w.created := Mailbox(g, Activating, false, true)], left, w.created + 1)
      else w.(directory := d, waiting := left)
    case Advance(a, e) =>
      w.(mailboxes := w.mailboxes[a := w.mailboxes[a].(fsm := Next(w.mailboxes[a].fsm, e))])
    case Deregister(a) =>
      w.(directory := Deregistered(w.directory, w.mailboxes[a].grain),
         mailboxes := w.mailboxes[a := w.mailboxes[a].(deregistered := true)])
    case DropReceiver(a) =>
      w.(mailboxes := w.mailboxes[a := w.mailboxes[a].(open := false)])
  }

  /** What the caller is told at a step, if the step ends its call. */
  function AnswerAt(w: World, st: Step): Option<Sender>
    requires Enabled(w, st)
  {
    match st
    case CheckLimit(_, g) =>
      if w.directory.draining || OverLimit(w.directory) then Some(Existing(w.directory, g, ClosedSenders(w))) else None
    case EnterMap(c) => Some(Entry(w.directory, w.waiting[c], ClosedSenders(w), w.created).1)
    case _ => None
  }

  /** With nothing in between, check and map entry together are `get_or_insert`. */
  lemma CheckThenEntryIsGetOrInsert(w: World, c: nat, g: GrainId)
    requires Enabled(w, CheckLimit(c, g))
    ensures var w1 := Do(w, CheckLimit(c, g));
            GetOrInsert(w.directory, g, ClosedSenders(w), w.created)
            == match AnswerAt(w, CheckLimit(c, g))
               case Some(sender) => (w1.directory, sender)
               case None => (Do(w1, EnterMap(c)).directory, AnswerAt(w1, EnterMap(c)).value)
  {
  }

  function Initial(limit: nat): World {
    World(Directory(map[], false, limit), map[], map[], 0)
  }

  predicate ValidRun(limit: nat, callers: set<nat>, run: seq<Step>)
    decreases run, 0
  {
    run == [] || (ValidRun(limit, callers, run[..|run| - 1]) && CalledBy(callers, run[|run| - 1])
                  && Enabled(Final(limit, callers, run[..|run| - 1]), run[|run| - 1]))
  }

  function Final(limit: nat, callers: set<nat>, run: seq<Step>): World
    requires ValidRun(limit, callers, run)
    decreases run, 1
  {
    if run == [] then Initial(limit) else Do(Final(limit, callers, run[..|run| - 1]), run[|run| - 1])
  }

  // --- One activation per grain ---

  /** The directory's entries are exactly the activations that have not
      deregistered, and those still have their receivers. */
  ghost predicate Exclusive(w: World) {
    && (forall g :: g in w.directory.activations ==>
          var a := w.directory.activations[g];
          a in w.mailboxes && w.mailboxes[a].grain == g && !w.mailboxes[a].deregistered)
    && (forall a :: a in w.mailboxes && !w.mailboxes[a].deregistered ==>
          && w.mailboxes[a].open
          && w.mailboxes[a].grain in w.directory.activations
          && w.directory.activations[w.mailboxes[a].grain] == a)
    && (forall a :: a in w.mailboxes ==> a < w.created)
    && (forall a :: a in w.mailboxes && w.mailboxes[a].deregistered ==> w.mailboxes[a].fsm == Closed)
  }

  lemma EnteringKeepsExclusive(w: World, c: nat)
    requires Exclusive(w) && Enabled(w, EnterMap(c))
    ensures Exclusive(Do(w, EnterMap(c)))
  {
  }

  lemma DeregisteringKeepsExclusive(w: World, a: nat)
    requires Exclusive(w) && Enabled(w, Deregister(a))
    ensures Exclusive(Do(w, Deregister(a)))
  {
  }

  lemma {:induction false} StepKeepsExclusive(w: World, st: Step)
    requires Exclusive(w) && Enabled(w, st)
    ensures Exclusive(Do(w, st))
  {
    match st
    case EnterMap(c) => EnteringKeepsExclusive(w, c);
    case Deregister(a) => DeregisteringKeepsExclusive(w, a);
    case _ =>
  }

  lemma {:induction false} RunsStayExclusive(limit: nat, callers: set<nat>, run: seq<Step>)
    requires ValidRun(limit, callers, run)
    ensures Exclusive(Final(limit, callers, run))
  {
    if run != [] {
      RunsStayExclusive(limit, callers, run[..|run| - 1]);
      StepKeepsExclusive(Final(limit, callers, run[..|run| - 1]), run[|run| - 1]);
    }
  }

  /** Two different activations of the same grain. */
  predicate OfOneGrain(w: World, a: nat, b: nat) {
    a != b && a in w.mailboxes && b in w.mailboxes && w.mailboxes[a].grain == w.mailboxes[b].grain
  }

  /** In every interleaving: of two activations of one grain at most one has not
      deregistered, so a grain never handles two messages at once; and every
      directory entry is open, so none is ever replaced as stale. */
  lemma {:induction false} AtMostOneActivation(limit: nat, callers: set<nat>, run: seq<Step>)
    requires ValidRun(limit, callers, run)
    ensures var w := Final(limit, callers, run);
            && (forall a, b :: OfOneGrain(w, a, b) ==>
                  w.mailboxes[a].deregistered || w.mailboxes[b].deregistered)
            && (forall a, b :: OfOneGrain(w, a, b) ==>
                  w.mailboxes[a].fsm != Processing || w.mailboxes[b].fsm != Processing)
            && (forall g :: g in w.directory.activations ==>
                  w.directory.activations[g] !in ClosedSenders(w))
  {
    RunsStayExclusive(limit, callers, run);
  }

  // --- Removal from outside ---

  /** Drain and the rebalancer take an entry out while its mailbox still runs. */
  function RemovedFromOutside(w: World, g: GrainId): World {
    w.(directory := Deregistered(w.directory, g))
  }

  /** An outside removal keeps the invariant exactly when there was no entry. */
  lemma OutsideRemovalKeepsExclusiveIff(w: World, g: GrainId)
    requires Exclusive(w)
    ensures Exclusive(RemovedFromOutside(w, g)) <==> g !in w.directory.activations
  {
    if g in w.directory.activations {
      var a := w.directory.activations[g];
      assert !w.mailboxes[a].deregistered;
    } else {
      assert RemovedFromOutside(w, g) == w;
    }
  }

  /** Afterwards the next caller gets a second activation beside the first. */
  lemma OutsideRemovalAllowsSecondActivation(w: World, g: GrainId, caller: nat)
    requires Exclusive(w) && g in w.directory.activations
    requires caller in w.waiting && w.waiting[caller] == g
    ensures var first := w.directory.activations[g];
            var w1 := RemovedFromOutside(w, g);
            && Enabled(w1, EnterMap(caller))
            && var w2 := Do(w1, EnterMap(caller));
               var second := w2.directory.activations[g];
               first != second && w2.mailboxes[first].grain == w2.mailboxes[second].grain
               && !w2.mailboxes[first].deregistered && !w2.mailboxes[second].deregistered
  {
  }

  // --- Runs with removals from outside ---

  /** Removals by drain or the rebalancer, and the flag drain sets first. */
  datatype AnyStep = Inside(step: Step) | Outside(grain: GrainId) | BeginDrain

  predicate Possible(w: World, st: AnyStep) {
    st.Inside? ==> Enabled(w, st.step)
  }

  function Perform(w: World, st: AnyStep): World
    requires Possible(w, st)
  {
    match st
    case Inside(step) => Do(w, step)
    case Outside(g) => RemovedFromOutside(w, g)
    case BeginDrain => w.(directory := w.directory.(draining := true))
  }

  predicate AnyRun(limit: nat, run: seq<AnyStep>)
    decreases run, 0
  {
    run == [] || (AnyRun(limit, run[..|run| - 1]) && Possible(EndOf(limit, run[..|run| - 1]), run[|run| - 1]))
  }

  function EndOf(limit: nat, run: seq<AnyStep>): World
    requires AnyRun(limit, run)
    decreases run, 1
  {
    if run == [] then Initial(limit) else Perform(EndOf(limit, run[..|run| - 1]), run[|run| - 1])
  }

  /** How often the grain's entry was taken out from outside. */
  function Removals(run: seq<AnyStep>, g: GrainId): nat {
    if run == [] then 0
    else Removals(run[..|run| - 1], g) + if run[|run| - 1] == Outside(g) then 1 else 0
  }

  /** The grain's activations that have not deregistered. */
  function LiveOf(w: World, g: GrainId): set<nat> {
    set a | a in w.mailboxes && w.mailboxes[a].grain == g && !w.mailboxes[a].deregistered
  }

  function EntriesOf(w: World, g: GrainId): nat {
    if g in w.directory.activations then 1 else 0
  }

  /** What outside removals leave of the invariant: activations are numbered in order,
      live ones are open, and an entry names a live activation of its grain. */
  ghost predicate Ordered(w: World) {
    && (forall a :: a in w.mailboxes ==> a < w.created)
    && (forall a :: a in w.mailboxes && !w.mailboxes[a].deregistered ==> w.mailboxes[a].open)
    && (forall g :: g in w.directory.activations ==> w.directory.activations[g] in LiveOf(w, g))
  }

  /** The caller's grain gets a new mailbox and the entry. */
  function WithMailbox(w: World, c: nat, g: GrainId): World {
    World(w.directory.(activations := w.directory.activations[g := w.created]),
          w.mailboxes[w.created := Mailbox(g, Activating, false, true)], w.waiting - {c}, w.created + 1)
  }

  lemma NewMailboxBalances(w: World, c: nat, mine: GrainId, g: GrainId)
    requires w.created !in w.mailboxes && mine !in w.directory.activations
    ensures var w' := WithMailbox(w, c, mine);
            |LiveOf(w', g)| - EntriesOf(w', g) == |LiveOf(w, g)| - EntriesOf(w, g)
  {
    var w' := WithMailbox(w, c, mine);
    if mine == g {
      assert LiveOf(w', g) == LiveOf(w, g) + {w.created};
    } else {
      assert LiveOf(w', g) == LiveOf(w, g);
    }
  }

  /** What the map-entry step does: nothing but letting the caller go, or a new mailbox
      with the entry. */
  lemma EnteringCases(w: World, c: nat)
    requires Ordered(w) && Enabled(w, EnterMap(c))
    ensures var w', g := Do(w, EnterMap(c)), w.waiting[c];
            if g in w.directory.activations then w' == w.(waiting := w.waiting - {c})
            else w' == WithMailbox(w, c, g)
  {
    var g := w.waiting[c];
    if g in w.directory.activations {
      assert w.directory.activations[g] in LiveOf(w, g);
      assert w.directory.activations[g] !in ClosedSenders(w);
    }
  }

  lemma EnteringKeepsOrdered(w: World, c: nat)
    requires Ordered(w) && Enabled(w, EnterMap(c))
    ensures Ordered(Do(w, EnterMap(c)))
  {
    EnteringCases(w, c);
    var w' := Do(w, EnterMap(c));
    forall g | g in w'.directory.activations
      ensures w'.directory.activations[g] in LiveOf(w', g)
    {
      assert g in w.directory.activations ==> w.directory.activations[g] in LiveOf(w, g);
    }
  }

  lemma DeregisteringKeepsOrdered(w: World, a: nat)
    requires Ordered(w) && Enabled(w, Deregister(a))
    ensures Ordered(Do(w, Deregister(a)))
  {
    var w' := Do(w, Deregister(a));
    forall g | g in w'.directory.activations
      ensures w'.directory.activations[g] in LiveOf(w', g)
    {
      assert w.directory.activations[g] in LiveOf(w, g);
    }
  }

  lemma StepKeepsOrdered(w: World, st: AnyStep)
    requires Ordered(w) && Possible(w, st)
    ensures Ordered(Perform(w, st))
  {
    match st
    case Inside(EnterMap(c)) => EnteringKeepsOrdered(w, c);
    case Inside(Deregister(a)) => DeregisteringKeepsOrdered(w, a);
    case _ =>
      var w' := Perform(w, st);
      forall g | g in w'.directory.activations
        ensures w'.directory.activations[g] in LiveOf(w', g)
      {
        assert w.directory.activations[g] in LiveOf(w, g);
      }
  }

  lemma EnteringBalances(w: World, c: nat, g: GrainId)
    requires Ordered(w) && Enabled(w, EnterMap(c))
    ensures var w' := Do(w, EnterMap(c));
            |LiveOf(w', g)| - EntriesOf(w', g) == |LiveOf(w, g)| - EntriesOf(w, g)
  {
    EnteringCases(w, c);
    if w.waiting[c] in w.directory.activations {
      assert LiveOf(w.(waiting := w.waiting - {c}), g) == LiveOf(w, g);
    } else {
      NewMailboxBalances(w, c, w.waiting[c], g);
    }
  }

  lemma DeregisteringBalances(w: World, a: nat, g: GrainId)
    requires Enabled(w, Deregister(a))
    ensures var w' := Do(w, Deregister(a));
            |LiveOf(w', g)| - EntriesOf(w', g) <= |LiveOf(w, g)| - EntriesOf(w, g)
  {
    var w' := Do(w, Deregister(a));
    if w.mailboxes[a].grain == g {
      assert LiveOf(w', g) == LiveOf(w, g) - {a};
    } else {
      assert LiveOf(w', g) == LiveOf(w, g);
    }
  }

  /** Creating and deregistering move live activations and entries together; only a
      removal from outside puts one more live activation beside the entry. */
  lemma LiveBesideEntries(w: World, st: AnyStep, g: GrainId)
    requires Ordered(w) && Possible(w, st)
    ensures var w' := Perform(w, st);
            |LiveOf(w', g)| - EntriesOf(w', g)
            <= |LiveOf(w, g)| - EntriesOf(w, g) + if st == Outside(g) then 1 else 0
  {
    match st
    case Inside(EnterMap(c)) => EnteringBalances(w, c, g);
    case Inside(Deregister(a)) => DeregisteringBalances(w, a, g);
    case _ => assert LiveOf(Perform(w, st), g) == LiveOf(w, g);
  }

  lemma {:induction false} AnyRunBalances(limit: nat, run: seq<AnyStep>, g: GrainId)
    requires AnyRun(limit, run)
    ensures Ordered(EndOf(limit, run))
    ensures |LiveOf(EndOf(limit, run), g)| <= EntriesOf(EndOf(limit, run), g) + Removals(run, g)
  {
    if run != [] {
      var init := run[..|run| - 1];
      AnyRunBalances(limit, init, g);
      StepKeepsOrdered(EndOf(limit, init), run[|run| - 1]);
      LiveBesideEntries(EndOf(limit, init), run[|run| - 1], g);
    }
  }

  /** In every interleaving with any removals from outside, a grain has at most one live
      activation more than there were removals of its entry. */
  lemma LiveBoundedByRemovals(limit: nat, run: seq<AnyStep>, g: GrainId)
    requires AnyRun(limit, run)
    ensures |LiveOf(EndOf(limit, run), g)| <= 1 + Removals(run, g)
  {
    AnyRunBalances(limit, run, g);
  }

  // --- What callers are answered ---

  /** The grain a call is about. */
  function GrainOf(w: World, st: Step): GrainId
    requires Enabled(w, st) && AnswerAt(w, st).Some?
  {
    match st
    case CheckLimit(_, g) => g
    case EnterMap(c) => w.waiting[c]
  }

  /** In every interleaving, with any removals and drains, a caller that gets a sender gets
      the one in the directory, of an activation of that grain which has not deregistered;
      and a caller is turned away exactly at the check, when the directory is full or
      draining and holds no entry for the grain. */
  lemma AnswersAreLive(limit: nat, run: seq<AnyStep>, st: Step)
    requires AnyRun(limit, run) && Enabled(EndOf(limit, run), st) && AnswerAt(EndOf(limit, run), st).Some?
    ensures var w, sender := EndOf(limit, run), AnswerAt(EndOf(limit, run), st).value;
            var g, w' := GrainOf(w, st), Do(w, st);
            && (sender.SenderOf? ==>
                  && sender.activation in LiveOf(w', g)
                  && g in w'.directory.activations && w'.directory.activations[g] == sender.activation
                  && (g in w.directory.activations ==> w.directory.activations[g] == sender.activation))
            && (sender == ClosedSender <==>
                  st.CheckLimit? && g !in w.directory.activations && (w.directory.draining || OverLimit(w.directory)))
  {
    var w := EndOf(limit, run);
    var g := GrainOf(w, st);
    AnyRunBalances(limit, run, g);
    if g in w.directory.activations {
      assert w.directory.activations[g] in LiveOf(w, g);
      assert w.directory.activations[g] !in ClosedSenders(w);
    }
  }

  /** So a call to a grain whose entry was never removed from outside, and which has an
      activation that has not deregistered, gets that activation, with the directory full,
      draining, or neither. */
  lemma LiveActivationIsReached(limit: nat, run: seq<AnyStep>, st: Step, a: nat)
    requires AnyRun(limit, run) && Enabled(EndOf(limit, run), st) && AnswerAt(EndOf(limit, run), st).Some?
    requires var w := EndOf(limit, run);
             Removals(run, GrainOf(w, st)) == 0 && a in LiveOf(w, GrainOf(w, st))
    ensures AnswerAt(EndOf(limit, run), st) == Some(SenderOf(a))
  {
    var w := EndOf(limit, run);
    var g := GrainOf(w, st);
    AnyRunBalances(limit, run, g);
    AnswersAreLive(limit, run, st);
    OnlyElement(LiveOf(w, g), a);
    if g in w.directory.activations {
      assert w.directory.activations[g] in LiveOf(w, g);
    }
  }

  lemma OnlyElement(s: set<nat>, a: nat)
    requires a in s && |s| <= 1
    ensures s == {a}
  {
    SubsetCardinality({a}, s);
    if b :| b in s && b != a {
      SubsetCardinality({a, b}, s);
    }
  }

  /** While a directory drains, an activation is only created for a caller that was
      already past the check. */
  lemma DrainingStep(w: World, st: AnyStep)
    requires w.directory.draining && Possible(w, st)
    ensures Perform(w, st).directory.draining
    ensures Perform(w, st).created + |Perform(w, st).waiting| <= w.created + |w.waiting|
  {
    if st.Inside? && st.step.EnterMap? {
      var c := st.step.caller;
      assert (w.waiting - {c}).Keys == w.waiting.Keys - {c};
      assert |(w.waiting - {c}).Keys| == |w.waiting.Keys| - 1;
    }
  }

  /** In every interleaving: once a drain has begun, no more activations are created than
      callers were past the check at that time. */
  lemma {:induction false} DrainStopsActivations(limit: nat, run: seq<AnyStep>, i: nat)
    requires AnyRun(limit, run) && i <= |run| && AnyRun(limit, run[..i])
    requires EndOf(limit, run[..i]).directory.draining
    ensures EndOf(limit, run).directory.draining
    ensures EndOf(limit, run).created + |EndOf(limit, run).waiting|
            <= EndOf(limit, run[..i]).created + |EndOf(limit, run[..i]).waiting|
    decreases |run|
  {
    if i == |run| {
      assert run[..i] == run;
    } else {
      var init := run[..|run| - 1];
      assert init[..i] == run[..i];
      DrainStopsActivations(limit, init, i);
      DrainingStep(EndOf(limit, init), run[|run| - 1]);
    }
  }

  ghost predicate Attained(limit: nat, g: GrainId, w: World, removals: nat) {
    exists run :: AnyRun(limit, run) && EndOf(limit, run) == w && Removals(run, g) == removals
  }

  lemma AttainStep(limit: nat, g: GrainId, w: World, removals: nat, st: AnyStep)
    requires Attained(limit, g, w, removals) && Possible(w, st)
    ensures Attained(limit, g, Perform(w, st), removals + if st == Outside(g) then 1 else 0)
  {
    var run :| AnyRun(limit, run) && EndOf(limit, run) == w && Removals(run, g) == removals;
    var longer := run + [st];
    assert longer[..|run|] == run;
    assert AnyRun(limit, longer) && EndOf(limit, longer) == Perform(w, st);
  }

  /** No entries and no one waiting. */
  predicate Vacant(w: World, limit: nat) {
    w.directory == Directory(map[], false, limit) && w.waiting == map[] && w.created !in w.mailboxes
  }

  /** A caller comes in on a vacant directory and gets a new activation. */
  function Entered(w: World, g: GrainId): World {
    World(w.directory.(activations := map[g := w.created]),
          w.mailboxes[w.created := Mailbox(g, Activating, false, true)], map[], w.created + 1)
  }

  lemma CallerEnters(limit: nat, g: GrainId, w: World, removals: nat)
    requires Attained(limit, g, w, removals) && Vacant(w, limit)
    ensures Attained(limit, g, Entered(w, g), removals)
  {
    AttainStep(limit, g, w, removals, Inside(CheckLimit(0, g)));
    var w1 := Do(w, CheckLimit(0, g));
    assert w1 == w.(waiting := map[0 := g]);
    AttainStep(limit, g, w1, removals, Inside(EnterMap(0)));
    assert w1.waiting - {0} == map[];
    assert Do(w1, EnterMap(0)) == Entered(w, g);
  }

  lemma InitiallyAttained(limit: nat, g: GrainId)
    ensures Attained(limit, g, Initial(limit), 0)
  {
    var run: seq<AnyStep> := [];
    assert AnyRun(limit, run) && EndOf(limit, run) == Initial(limit) && Removals(run, g) == 0;
  }

  /** `n` activations, all live, the last one with the entry. */
  ghost predicate Piled(w: World, limit: nat, g: GrainId, n: nat) {
    && n >= 1 && w.created == n && w.waiting == map[]
    && w.directory == Directory(map[g := n - 1], false, limit)
    && (forall a :: a in w.mailboxes <==> 0 <= a < n)
    && (forall a :: a in w.mailboxes ==> w.mailboxes[a] == Mailbox(g, Activating, false, true))
  }

  lemma RemoveAndEnter(limit: nat, g: GrainId, w: World, removals: nat)
    requires Attained(limit, g, w, removals) && Vacant(RemovedFromOutside(w, g), limit)
    ensures Attained(limit, g, Entered(RemovedFromOutside(w, g), g), removals + 1)
  {
    AttainStep(limit, g, w, removals, Outside(g));
    CallerEnters(limit, g, RemovedFromOutside(w, g), removals + 1);
  }

  lemma PileGrows(limit: nat, g: GrainId, w: World, n: nat)
    requires Piled(w, limit, g, n)
    ensures Vacant(RemovedFromOutside(w, g), limit)
    ensures Piled(Entered(RemovedFromOutside(w, g), g), limit, g, n + 1)
  {
    assert RemovedFromOutside(w, g) == World(Directory(map[], false, limit), w.mailboxes, map[], n);
  }

  lemma FirstCaller(limit: nat, g: GrainId)
    ensures Attained(limit, g, Entered(Initial(limit), g), 0) && Piled(Entered(Initial(limit), g), limit, g, 1)
  {
    InitiallyAttained(limit, g);
    CallerEnters(limit, g, Initial(limit), 0);
  }

  lemma {:induction false} PileUp(limit: nat, g: GrainId, removals: nat) returns (w: World)
    ensures Attained(limit, g, w, removals) && Piled(w, limit, g, removals + 1)
  {
    if removals == 0 {
      FirstCaller(limit, g);
      w := Entered(Initial(limit), g);
    } else {
      var w0 := PileUp(limit, g, removals - 1);
      PileGrows(limit, g, w0, removals);
      RemoveAndEnter(limit, g, w0, removals - 1);
      w := Entered(RemovedFromOutside(w0, g), g);
    }
  }

  lemma {:induction false} InitialSegmentSize(s: set<nat>, n: nat)
    requires forall a :: a in s <==> 0 <= a < n
    ensures |s| == n
  {
    if n == 0 {
      assert s == {};
    } else {
      InitialSegmentSize(s - {n - 1}, n - 1);
    }
  }

  /** That bound is reached for every number of removals, whatever the activation limit:
      removals let the live activations of one grain pile up. */
  lemma RemovalsPileUp(limit: nat, g: GrainId, removals: nat) returns (w: World)
    ensures Attained(limit, g, w, removals) && |LiveOf(w, g)| == 1 + removals
  {
    w := PileUp(limit, g, removals);
    InitialSegmentSize(LiveOf(w, g), removals + 1);
  }

  /** Two live activations of which the later one has the entry. */
  ghost predicate Overlapping(w: World, limit: nat, g: GrainId, a: nat, b: nat) {
    && a < b < w.created && a in w.mailboxes && b in w.mailboxes && w.created !in w.mailboxes
    && w.mailboxes[a] == Mailbox(g, Activating, false, true)
    && w.mailboxes[b] == Mailbox(g, Activating, false, true)
    && w.directory == Directory(map[g := b], false, limit) && w.waiting == map[]
    && (forall c :: c in w.mailboxes ==> c < w.created)
  }

  lemma PairOverlaps(w: World, limit: nat, g: GrainId)
    requires Piled(w, limit, g, 2)
    ensures Overlapping(w, limit, g, 0, 1) && w.created == 2
  {
    assert 0 in w.mailboxes && 1 in w.mailboxes && 2 !in w.mailboxes;
  }

  /** The earlier one fails to activate, closes, and deregisters. */
  function EarlierGone(w: World, g: GrainId, a: nat): World {
    World(w.directory.(activations := map[]), w.mailboxes[a := Mailbox(g, Closed, true, true)], map[], w.created)
  }

  function EarlierIn(w: World, g: GrainId, a: nat, fsm: ActivationState): World {
    w.(mailboxes := w.mailboxes[a := Mailbox(g, fsm, false, true)])
  }

  lemma EarlierSteps(w: World, limit: nat, g: GrainId, a: nat, b: nat)
    requires Overlapping(w, limit, g, a, b)
    ensures Enabled(w, Advance(a, ActivateFailed)) && Do(w, Advance(a, ActivateFailed)) == EarlierIn(w, g, a, Faulted)
    ensures var w1 := EarlierIn(w, g, a, Faulted);
            Enabled(w1, Advance(a, DeactivateComplete))
            && Do(w1, Advance(a, DeactivateComplete)) == EarlierIn(w, g, a, Closed)
    ensures var w2 := EarlierIn(w, g, a, Closed);
            Enabled(w2, Deregister(a)) && Do(w2, Deregister(a)) == EarlierGone(w, g, a)
  {
    assert map[g := b] - {g} == map[];
  }

  lemma AttainInside(limit: nat, g: GrainId, w: World, removals: nat, st: Step, w': World)
    requires Attained(limit, g, w, removals) && Enabled(w, st) && Do(w, st) == w'
    ensures Attained(limit, g, w', removals)
  {
    AttainStep(limit, g, w, removals, Inside(st));
  }

  lemma EarlierLeaves(limit: nat, g: GrainId, w: World, removals: nat, a: nat, b: nat)
    requires Attained(limit, g, w, removals) && Overlapping(w, limit, g, a, b)
    ensures Attained(limit, g, EarlierGone(w, g, a), removals)
  {
    EarlierSteps(w, limit, g, a, b);
    AttainInside(limit, g, w, removals, Advance(a, ActivateFailed), EarlierIn(w, g, a, Faulted));
    AttainInside(limit, g, EarlierIn(w, g, a, Faulted), removals,
                 Advance(a, DeactivateComplete), EarlierIn(w, g, a, Closed));
    AttainInside(limit, g, EarlierIn(w, g, a, Closed), removals, Deregister(a), EarlierGone(w, g, a));
  }

  /** The earlier one's own `remove` takes out the later one's entry, so the next caller
      starts a third while the second still runs. */
  lemma OverlapGoesOn(limit: nat, g: GrainId, w: World, removals: nat, a: nat, b: nat) returns (w': World)
    requires Attained(limit, g, w, removals) && Overlapping(w, limit, g, a, b)
    ensures Attained(limit, g, w', removals) && Overlapping(w', limit, g, b, w.created) && w'.created == w.created + 1
  {
    EarlierLeaves(limit, g, w, removals, a, b);
    CallerEnters(limit, g, EarlierGone(w, g, a), removals);
    w' := Entered(EarlierGone(w, g, a), g);
  }

  /** After one removal in all, activations `n` and `n + 1` overlap. */
  ghost predicate OverlapAt(limit: nat, g: GrainId, w: World, n: nat) {
    Attained(limit, g, w, 1) && Overlapping(w, limit, g, n, n + 1) && w.created == n + 2
  }

  lemma FirstOverlap(limit: nat, g: GrainId) returns (w: World)
    ensures OverlapAt(limit, g, w, 0)
  {
    w := PileUp(limit, g, 1);
    PairOverlaps(w, limit, g);
  }

  lemma NextOverlap(limit: nat, g: GrainId, w: World, n: nat) returns (w': World)
    requires OverlapAt(limit, g, w, n)
    ensures OverlapAt(limit, g, w', n + 1)
  {
    w' := OverlapGoesOn(limit, g, w, 1, n, n + 1);
  }

  /** One removal from outside is enough for activations of a grain to overlap forever:
      for every `n`, some run with a single removal reaches the `n`-th overlap after the
      first. */
  lemma {:induction false} OneRemovalOverlapsForever(limit: nat, g: GrainId, n: nat) returns (w: World)
    ensures OverlapAt(limit, g, w, n)
  {
    w := FirstOverlap(limit, g);
    for i := 0 to n
      invariant OverlapAt(limit, g, w, i)
    {
      w := NextOverlap(limit, g, w, i);
    }
  }

  // --- The activation limit ---

  /** Live activations and callers about to add one, together. */
  ghost predicate WithinLimit(w: World, limit: nat, callers: set<nat>) {
    && w.directory.maxActivations == limit
    && w.waiting.Keys <= callers
    && |w.directory.activations| + |w.waiting| <= limit - 1 + |callers|
  }

  lemma SubsetCardinality<T>(a: set<T>, b: set<T>)
    requires a <= b
    ensures |a| <= |b|
  {
    if a != {} {
      var x :| x in a;
      SubsetCardinality(a - {x}, b - {x});
    }
  }

  lemma MapSizes<K, V>(m: map<K, V>, k: K, v: V)
    ensures |m[k := v]| == if k in m then |m| else |m| + 1
    ensures |m - {k}| == if k in m then |m| - 1 else |m|
  {
    assert m[k := v].Keys == m.Keys + {k};
    assert (m - {k}).Keys == m.Keys - {k};
  }

  lemma StepKeepsWithinLimit(w: World, limit: nat, callers: set<nat>, st: Step)
    requires limit >= 1 && WithinLimit(w, limit, callers)
    requires Enabled(w, st) && CalledBy(callers, st)
    ensures WithinLimit(Do(w, st), limit, callers)
  {
    match st
    case CheckLimit(c, g) =>
      SubsetCardinality(w.waiting[c := g].Keys, callers);
      assert |w.waiting[c := g]| == |w.waiting[c := g].Keys|;
    case EnterMap(c) =>
      MapSizes(w.waiting, c, w.waiting[c]);
      MapSizes(w.directory.activations, w.waiting[c], w.created);
    case Deregister(a) =>
      MapSizes(w.directory.activations, w.mailboxes[a].grain, a);
    case _ =>
  }

  /** With a limit fixed from the start, the number of activations never exceeds
      `limit - 1` plus the number of concurrent callers — so never the limit
      itself when calls are serial. */
  lemma {:induction false} ActivationsBounded(limit: nat, callers: set<nat>, run: seq<Step>)
    requires limit >= 1 && callers != {} && ValidRun(limit, callers, run)
    ensures WithinLimit(Final(limit, callers, run), limit, callers)
    ensures |Final(limit, callers, run).directory.activations| <= limit - 1 + |callers|
    ensures |callers| == 1 ==> |Final(limit, callers, run).directory.activations| <= limit
  {
    if run == [] {
      assert |callers| >= 1;
    } else {
      ActivationsBounded(limit, callers, run[..|run| - 1]);
      StepKeepsWithinLimit(Final(limit, callers, run[..|run| - 1]), limit, callers, run[|run| - 1]);
    }
  }

  // --- The bound is reached ---

  function NthGrain(n: nat): GrainId {
    GrainId("Counter", Decimal(n))
  }

  /** Some run from the empty directory ends in `w`. */
  ghost predicate Reached(limit: nat, callers: set<nat>, w: World) {
    exists run :: ValidRun(limit, callers, run) && Final(limit, callers, run) == w
  }

  lemma ReachedInitially(limit: nat, callers: set<nat>)
    ensures Reached(limit, callers, Initial(limit))
  {
    assert ValidRun(limit, callers, []) && Final(limit, callers, []) == Initial(limit);
  }

  lemma ReachedStep(limit: nat, callers: set<nat>, w: World, st: Step)
    requires Reached(limit, callers, w) && Enabled(w, st) && CalledBy(callers, st)
    ensures Reached(limit, callers, Do(w, st))
  {
    var run :| ValidRun(limit, callers, run) && Final(limit, callers, run) == w;
    assert (run + [st])[..|run|] == run;
    assert ValidRun(limit, callers, run + [st]) && Final(limit, callers, run + [st]) == Do(w, st);
  }

  /** `n` activations, none of a grain numbered `n` or above. */
  ghost predicate Filled(w: World, limit: nat, n: nat) {
    && w.directory.maxActivations == limit && !w.directory.draining
    && |w.directory.activations| == n
    && forall i: nat :: i >= n ==> NthGrain(i) !in w.directory.activations
  }

  /** Serial calls fill the directory up to `n`, one below the limit at most. */
  lemma {:induction false} FillSerially(limit: nat, callers: set<nat>, n: nat) returns (w: World)
    requires 0 in callers && n < limit
    ensures Reached(limit, callers, w) && Filled(w, limit, n) && w.waiting == map[]
    decreases n
  {
    if n == 0 {
      ReachedInitially(limit, callers);
      return Initial(limit);
    }
    w := FillSerially(limit, callers, n - 1);
    var g := NthGrain(n - 1);
    ReachedStep(limit, callers, w, CheckLimit(0, g));
    var w1 := Do(w, CheckLimit(0, g));
    ReachedStep(limit, callers, w1, EnterMap(0));
    MapSizes(w.directory.activations, g, w.created);
    w := Do(w1, EnterMap(0));
    forall i: nat | i >= n
      ensures NthGrain(i) != g
    {
      if NthGrain(i) == g {
        DecimalInjective(i, n - 1);
      }
    }
  }

  /** Callers 0 to k-1, each waiting for its own grain, numbered from `n`. */
  function Queue(n: nat, k: nat): (q: map<nat, GrainId>)
    ensures forall c: nat :: c in q <==> c < k
    ensures forall c :: c in q ==> q[c] == NthGrain(n + c)
  {
    if k == 0 then map[] else Queue(n, k - 1)[k - 1 := NthGrain(n + k - 1)]
  }

  /** Callers 0 to k-1 all pass the check before anyone inserts. */
  lemma {:induction false} QueueUp(limit: nat, callers: set<nat>, w: World, n: nat, k: nat)
    requires Reached(limit, callers, w) && n < limit && Filled(w, limit, n) && w.waiting == map[]
    requires forall c: nat :: c < k ==> c in callers
    ensures Reached(limit, callers, w.(waiting := Queue(n, k)))
    decreases k
  {
    if k == 0 {
      assert w.(waiting := Queue(n, k)) == w;
    } else {
      QueueUp(limit, callers, w, n, k - 1);
      var w1 := w.(waiting := Queue(n, k - 1));
      ReachedStep(limit, callers, w1, CheckLimit(k - 1, NthGrain(n + k - 1)));
      assert Do(w1, CheckLimit(k - 1, NthGrain(n + k - 1))) == w.(waiting := Queue(n, k));
    }
  }

  /** Waiting callers want distinct grains that are not active yet. */
  ghost predicate AllNew(w: World) {
    && (forall c :: c in w.waiting ==> w.waiting[c] !in w.directory.activations)
    && (forall c, d :: c in w.waiting && d in w.waiting && c != d ==> w.waiting[c] != w.waiting[d])
  }

  /** The waiting callers insert one after the other; each adds an activation. */
  lemma {:induction false} InsertAll(limit: nat, callers: set<nat>, w: World) returns (w': World)
    requires Reached(limit, callers, w) && AllNew(w)
    ensures Reached(limit, callers, w')
    ensures |w'.directory.activations| == |w.directory.activations| + |w.waiting|
    decreases |w.waiting|
  {
    if w.waiting == map[] {
      return w;
    }
    var c :| c in w.waiting;
    ReachedStep(limit, callers, w, EnterMap(c));
    MapSizes(w.directory.activations, w.waiting[c], w.created);
    MapSizes(w.waiting, c, w.waiting[c]);
    w' := InsertAll(limit, callers, Do(w, EnterMap(c)));
  }

  lemma {:induction false} QueueAllNew(w: World, limit: nat, n: nat, k: nat)
    requires Filled(w, limit, n) && w.waiting == Queue(n, k)
    ensures AllNew(w)
  {
    forall c, d | c in w.waiting && d in w.waiting && c != d
      ensures w.waiting[c] != w.waiting[d]
    {
      if w.waiting[c] == w.waiting[d] {
        DecimalInjective(n + c, n + d);
      }
    }
  }

  function FirstCallers(k: nat): (cs: set<nat>)
    ensures |cs| == k
    ensures forall c: nat :: c in cs <==> c < k
  {
    if k == 0 then {} else FirstCallers(k - 1) + {k - 1}
  }

  /** For every limit and every number of callers some run reaches the bound. */
  lemma BoundIsReached(limit: nat, k: nat)
    requires limit >= 1 && k >= 1
    ensures exists w :: Reached(limit, FirstCallers(k), w) && |w.directory.activations| == limit - 1 + k
  {
    var callers := FirstCallers(k);
    var w := FillSerially(limit, callers, limit - 1);
    QueueUp(limit, callers, w, limit - 1, k);
    w := w.(waiting := Queue(limit - 1, k));
    QueueAllNew(w, limit, limit - 1, k);
    assert w.waiting.Keys == callers;
    w := InsertAll(limit, callers, w);
  }
}
