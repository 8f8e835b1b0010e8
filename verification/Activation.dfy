/** The activation lifecycle: the state machine of one activation, the mailbox
    loop it drives, and the grain directory. */
module Activation {
  import opened Grains

  datatype ActivationState =
    | Activating | Idle | Processing | Persisting | Draining | Deactivating | Faulted | Closed

  datatype ActivationEvent =
    | ActivateSucceeded | ActivateFailed | MessageReceived | HandlerCompleted | PersistStarted
    | HandlerPanicked | PersistSucceeded | PersistFailed | ChannelClosed | IdleTimeout
    | DrainComplete | DeactivateComplete

  /** `ActivationState::next`: unexpected pairs keep the state. */
  function Next(s: ActivationState, e: ActivationEvent): ActivationState {
    match (s, e)
    case (Activating, ActivateSucceeded) => Idle
    case (Activating, ActivateFailed) => Faulted
    case (Idle, MessageReceived) => Processing
    case (Idle, ChannelClosed) => Draining
    case (Idle, IdleTimeout) => Draining
    case (Processing, HandlerCompleted) => Idle
    case (Processing, PersistStarted) => Persisting
    case (Processing, HandlerPanicked) => Faulted
    case (Persisting, PersistSucceeded) => Idle
    case (Persisting, PersistFailed) => Faulted
    case (Draining, DrainComplete) => Deactivating
    case (Deactivating, DeactivateComplete) => Closed
    case (Faulted, DeactivateComplete) => Closed
    case _ => s
  }

  // --- The mailbox loop ---

  /** What `timeout(idle, rx.recv())` yields; an exhausted inbox is a closed channel. */
  datatype Delivery = Message(panics: bool) | Timeout

  /** Messages handled before the loop ends, the panicking one included. */
  function HandledBy(inbox: seq<Delivery>): nat {
    if inbox == [] || inbox[0].Timeout? then 0
    else 1 + if inbox[0].panics then 0 else HandledBy(inbox[1..])
  }

  /** The loop ends in a panic rather than a timeout or a closed channel. */
  predicate EndsInPanic(inbox: seq<Delivery>) {
    inbox != [] && inbox[0].Message? && (inbox[0].panics || EndsInPanic(inbox[1..]))
  }

  /** How many messages are handled, by their places: all of them without a panic but
      possibly the last, and the next delivery, if any, is not a message unless a panic
      ended the loop. */
  lemma {:induction false} HandledUpToFirstStop(inbox: seq<Delivery>)
    ensures var n := HandledBy(inbox);
            && n <= |inbox|
            && (forall i :: 0 <= i < n ==> inbox[i].Message?)
            && (forall i :: 0 <= i < n - 1 ==> !inbox[i].panics)
            && (EndsInPanic(inbox) <==> n > 0 && inbox[n - 1].panics)
            && (n < |inbox| ==> EndsInPanic(inbox) || inbox[n].Timeout?)
  {
    if inbox != [] && inbox[0].Message? && !inbox[0].panics {
      var rest := inbox[1..];
      HandledUpToFirstStop(rest);
      assert forall i :: 0 < i < |inbox| ==> inbox[i] == rest[i - 1];
    }
  }

  /** `run_mailbox`: however a turn ends, the activation is torn down to Closed and
      removed, and `on_deactivate` runs exactly when nothing panicked. */
  method RunMailbox(activatePanics: bool, inbox: seq<Delivery>)
      returns (fsm: ActivationState, handled: nat, ranOnDeactivate: bool, removed: bool)
    ensures fsm == Closed && removed
    ensures handled == if activatePanics then 0 else HandledBy(inbox)
    ensures ranOnDeactivate <==> !activatePanics && !EndsInPanic(inbox)
  {
    fsm, handled, ranOnDeactivate, removed := Activating, 0, false, false;
    fsm := Next(fsm, if activatePanics then ActivateFailed else ActivateSucceeded);
    var rest := inbox;
    while fsm == Idle
      invariant fsm in {Idle, Draining, Faulted}
      invariant fsm == Idle ==> handled + HandledBy(rest) == HandledBy(inbox)
                                && (EndsInPanic(rest) <==> EndsInPanic(inbox))
      invariant fsm != Idle && !activatePanics ==>
                  handled == HandledBy(inbox) && (fsm == Faulted <==> EndsInPanic(inbox))
      invariant activatePanics ==> fsm == Faulted && handled == 0
      decreases |rest|, fsm == Idle
    {
      var event;
      if rest == [] {
        event := ChannelClosed;
      } else {
        match rest[0]
        case Timeout =>
          event := IdleTimeout;
        case Message(panics) =>
          fsm := Next(fsm, MessageReceived);
          handled := handled + 1;
          event := if panics then HandlerPanicked else HandlerCompleted;
          rest := rest[1..];
      }
      fsm := Next(fsm, event);
    }
    if fsm == Draining {
      fsm := Next(fsm, DrainComplete);
      ranOnDeactivate := true;
      fsm := Next(fsm, DeactivateComplete);
    } else {
      fsm := Next(fsm, DeactivateComplete);
    }
    removed := true;
  }

  // --- The grain directory ---

  /** Activations are numbered as they are created. */
  datatype Directory = Directory(activations: map<GrainId, nat>, draining: bool, maxActivations: nat)

  /** What a caller gets: the sender of an activation, or an already closed one. */
  datatype Sender = SenderOf(activation: nat) | ClosedSender

  predicate OverLimit(d: Directory) {
    d.maxActivations > 0 && |d.activations| >= d.maxActivations
  }

  /** The grain's sender if its mailbox is open. */
  function Existing(d: Directory, g: GrainId, closed: set<nat>): Sender {
    if g in d.activations && d.activations[g] !in closed then SenderOf(d.activations[g]) else ClosedSender
  }

  /** The atomic map-entry step: an open entry is used, a stale or missing one is
      filled with the activation numbered `next`. */
  function Entry(d: Directory, g: GrainId, closed: set<nat>, next: nat): (Directory, Sender) {
    if Existing(d, g, closed).SenderOf? then (d, Existing(d, g, closed))
    else (d.(activations := d.activations[g := next]), SenderOf(next))
  }

  function GetOrInsert(d: Directory, g: GrainId, closed: set<nat>, next: nat): (Directory, Sender) {
    if d.draining || OverLimit(d) then (d, Existing(d, g, closed)) else Entry(d, g, closed, next)
  }

  /** A call to a grain that has an open entry gets it, with the directory full or draining
      or neither; the caller is turned away exactly when there is none and the directory is
      full or draining; otherwise the grain gets a new activation. */
  lemma GetOrInsertAnswers(d: Directory, g: GrainId, closed: set<nat>, next: nat)
    ensures var (d', sender) := GetOrInsert(d, g, closed, next);
            var open := g in d.activations && d.activations[g] !in closed;
            && (open ==> d' == d && sender == SenderOf(d.activations[g]))
            && (sender == ClosedSender <==> !open && (d.draining || OverLimit(d)))
            && (!open && sender != ClosedSender ==>
                  sender == SenderOf(next) && d' == d.(activations := d.activations[g := next]))
            && (sender == ClosedSender ==> d' == d)
  {
  }

  function Deregistered(d: Directory, g: GrainId): Directory {
    d.(activations := d.activations - {g})
  }

  class GrainDirectory {
    var activations: map<GrainId, nat>
    var draining: bool
    var maxActivations: nat
    var created: nat

    function View(): Directory
      reads this
    {
      Directory(activations, draining, maxActivations)
    }

    /** Entries carry numbers already given out. */
    ghost predicate Valid()
      reads this
    {
      forall g :: g in activations ==> activations[g] < created
    }

    constructor (limit: nat)
      ensures Valid() && View() == Directory(map[], false, limit) && created == 0
    {
      activations, draining, maxActivations, created := map[], false, limit, 0;
    }

    /** `get_or_insert`, called with the set of activations whose receiver is gone. */
    method GetOrInsertSender(g: GrainId, closed: set<nat>) returns (sender: Sender)
      requires Valid()
      modifies this`activations, this`created
      ensures Valid()
      ensures (View(), sender) == GetOrInsert(old(View()), g, closed, old(created))
      ensures created == old(created) + if sender == SenderOf(old(created)) then 1 else 0
    {
      if draining {
        if g in activations && activations[g] !in closed {
          return SenderOf(activations[g]);
        }
        return ClosedSender;
      }
      if maxActivations > 0 && |activations| >= maxActivations {
        if g in activations && activations[g] !in closed {
          return SenderOf(activations[g]);
        }
        return ClosedSender;
      }
      if g in activations && activations[g] !in closed {
        return SenderOf(activations[g]);
      }
      activations := activations[g := created];
      created := created + 1;
      return SenderOf(created - 1);
    }

    method Remove(g: GrainId)
      requires Valid()
      modifies this`activations
      ensures Valid()
      ensures View() == Deregistered(old(View()), g)
    {
      activations := activations - {g};
    }
  }
}
