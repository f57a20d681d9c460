/**
 * simulation::ExternalStore: a dummy store that can be jettisoned once.
 * Its state is two flags, `canJettison` and `jettisoned`, plus an optional
 * type string. A JETTISON event sets `jettisoned` only when the store may
 * be jettisoned and has not been; RESET clears `jettisoned`.
 */
module SimulationExternalStore {
  import opened Common

  /** The two flags of a store. */
  datatype StoreState = StoreState(canJettison: bool, jettisoned: bool)

  /** The state initData() sets up. */
  const Initial := StoreState(true, false)

  /** onJettisonEvent(): the new flags and whether the event was handled. */
  function Jettison(s: StoreState): (r: (StoreState, bool))
    ensures r.1 <==> s.canJettison && !s.jettisoned
    ensures r.0.canJettison == s.canJettison
    ensures r.0.jettisoned == (s.jettisoned || r.1)
  {
    if s.canJettison && !s.jettisoned then (s.(jettisoned := true), true)
    else (s, false)
  }

  /** reset(): clears `jettisoned` only. */
  function Cleared(s: StoreState): StoreState {
    s.(jettisoned := false)
  }

  /** The events a store answers to. */
  datatype StoreEvent = JettisonEvent | ResetEvent | SetJettisonable(f: bool)

  function Step(s: StoreState, e: StoreEvent): StoreState {
    match e
    case JettisonEvent => Jettison(s).0
    case ResetEvent => Cleared(s)
    case SetJettisonable(f) => s.(canJettison := f)
  }

  function Run(s: StoreState, events: seq<StoreEvent>): StoreState
    decreases |events|
  {
    if events == [] then s else Run(Step(s, events[0]), events[1..])
  }

  /** How many JETTISON events in `events` succeed, starting from `s`. */
  function Successes(s: StoreState, events: seq<StoreEvent>): nat
    decreases |events|
  {
    if events == [] then 0
    else
      (if events[0] == JettisonEvent && Jettison(s).1 then 1 else 0)
      + Successes(Step(s, events[0]), events[1..])
  }

  /** A second jettison fails and changes nothing. */
  lemma SecondJettisonFails(s: StoreState)
    requires Jettison(s).1
    ensures Jettison(Jettison(s).0) == (Jettison(s).0, false)
  {
  }

  /** Between two resets at most one jettison succeeds. */
  lemma {:induction false} AtMostOneJettisonWithoutReset(s: StoreState, events: seq<StoreEvent>)
    requires forall i :: 0 <= i < |events| ==> events[i] != ResetEvent
    ensures Successes(s, events) <= (if s.jettisoned then 0 else 1)
    ensures s.jettisoned ==> Run(s, events).jettisoned
    decreases |events|
  {
    if events != [] {
      AtMostOneJettisonWithoutReset(Step(s, events[0]), events[1..]);
    }
  }

  /**
   * A store that is not jettisonable is never jettisoned by the event: as
   * long as nothing makes it jettisonable, `jettisoned` can only go from
   * true to false (by RESET), never from false to true.
   */
  lemma {:induction false} NotJettisonableStaysOnBoard(s: StoreState, events: seq<StoreEvent>)
    requires !s.canJettison && !s.jettisoned
    requires forall i :: 0 <= i < |events| ==> events[i] != SetJettisonable(true)
    ensures !Run(s, events).canJettison && !Run(s, events).jettisoned
    ensures Successes(s, events) == 0
    decreases |events|
  {
    if events != [] {
      NotJettisonableStaysOnBoard(Step(s, events[0]), events[1..]);
    }
  }

  class ExternalStore {
    var storeType: Option<string>
    var canJettison: bool
    var jettisoned: bool

    function State(): StoreState
      reads this
    {
      StoreState(canJettison, jettisoned)
    }

    /** The constructor runs initData(): no type, jettisonable, not jettisoned. */
    constructor ()
      ensures State() == Initial && storeType == None
    {
      storeType := None;
      canJettison := true;
      jettisoned := false;
    }

    method OnJettisonEvent() returns (ok: bool)
      modifies this
      ensures (State(), ok) == Jettison(old(State()))
      ensures storeType == old(storeType)
    {
      ok := false;
      if canJettison && !jettisoned {
        jettisoned := true;
        ok := true;
      }
    }

    method Reset()
      modifies this
      ensures State() == Cleared(old(State()))
      ensures storeType == old(storeType)
    {
      jettisoned := false;
    }

    method SetJettisonable(f: bool) returns (ok: bool)
      modifies this
      ensures ok
      ensures canJettison == f && jettisoned == old(jettisoned) && storeType == old(storeType)
    {
      canJettison := f;
      ok := true;
    }

    /** setSlotJettisonable(): the number's boolean value goes to setJettisonable(). */
    method SetSlotJettisonable(value: bool) returns (ok: bool)
      modifies this
      ensures ok
      ensures canJettison == value && jettisoned == old(jettisoned) && storeType == old(storeType)
    {
      var _ := SetJettisonable(value);
      ok := true;
    }

    method SetSlotType(msg: Option<string>) returns (ok: bool)
      modifies this
      ensures ok
      ensures storeType == msg && State() == old(State())
    {
      storeType := msg;
      ok := true;
    }

    method GetType() returns (t: Option<string>)
      ensures t == storeType
    {
      t := storeType;
    }

    method IsJettisonable() returns (b: bool)
      ensures b == canJettison
    {
      b := canJettison;
    }

    method IsJettisoned() returns (b: bool)
      ensures b == jettisoned
    {
      b := jettisoned;
    }
  }
}
