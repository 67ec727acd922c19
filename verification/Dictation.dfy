/** The states of a dictation on macOS and the machine that guards its edges. */
module Dictation {
  datatype DictationState =
    Idle | Starting | Recording | Stopping | Processing | Delivering | Success | Error | Cancelled

  predicate CanTransition(from: DictationState, to: DictationState) {
    match from
    case Idle => to.Starting? || to.Error?
    case Starting => to.Recording? || to.Error? || to.Cancelled?
    case Recording => to.Stopping? || to.Error? || to.Cancelled?
    case Stopping => to.Processing? || to.Error? || to.Cancelled?
    case Processing => to.Idle? || to.Delivering? || to.Success? || to.Error? || to.Cancelled?
    case Delivering => to.Idle? || to.Success? || to.Error? || to.Cancelled?
    case Success => to.Idle?
    case Error => to.Idle?
    case Cancelled => to.Idle?
  }

  predicate Terminal(s: DictationState) {
    s.Success? || s.Error? || s.Cancelled?
  }

  predicate Active(s: DictationState) {
    s.Starting? || s.Recording? || s.Stopping? || s.Processing? || s.Delivering?
  }

  /** How far a dictation has come. */
  function Rank(s: DictationState): nat {
    match s
    case Idle => 0
    case Starting => 1
    case Recording => 2
    case Stopping => 3
    case Processing => 4
    case Delivering => 5
    case _ => 6
  }

  /** A dictation goes through the active states one by one; it can fail until it is
      over, be cancelled while it is active, and succeed or end quietly once there is
      something to deliver; what is over becomes idle, and nothing else. */
  lemma EdgesAre(from: DictationState, to: DictationState)
    ensures CanTransition(from, to) <==>
      match to
      case Idle => Terminal(from) || from.Processing? || from.Delivering?
      case Success => from.Processing? || from.Delivering?
      case Error => !Terminal(from)
      case Cancelled => Active(from)
      case _ => Rank(to) == Rank(from) + 1
  {}

  class StateMachine {
    var state: DictationState

    constructor ()
      ensures state == Idle
    {
      state := Idle;
    }

    method Transition(to: DictationState) returns (ok: bool)
      modifies this
      ensures ok <==> CanTransition(old(state), to)
      ensures state == if ok then to else old(state)
    {
      ok := CanTransition(state, to);
      if ok { state := to; }
    }
  }
}
