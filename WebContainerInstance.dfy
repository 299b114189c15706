/**
 * The lazily booted WebContainer: module state `instance` and `initializationPromise`, and
 * `getWebContainerInstance`, which must start the boot at most once. Booting itself is foreign;
 * its completion is an event that delivers the booted container.
 */
module WebContainerInstance {
  import opened JsValues

  /** A booted container, known by identity. */
  datatype Container = Container(id: nat)

  /** What a call returns: the instance itself, or the shared initialization promise. */
  datatype Handle = Ready(container: Container) | Pending

  /**
   * The module state: `instance`, whether `initializationPromise` is non-null, and how many
   * times `WebContainer.boot()` has been called so far (bookkeeping for the proofs).
   */
  datatype Slot = Slot(instance: Option<Container>, initializationPromise: bool, boots: nat)

  /** The state when the module is loaded. */
  const Initial := Slot(None, false, 0)

  /** One call of `getWebContainerInstance`: the new state and what the call returns. */
  function Get(s: Slot): (r: (Slot, Handle))
    ensures s.instance.Some? ==> r == (s, Ready(s.instance.value))
    ensures r.0.instance == s.instance
    ensures r.0.initializationPromise == (s.initializationPromise || s.instance.None?)
    ensures r.0.boots == s.boots + (if s.instance.None? && !s.initializationPromise then 1 else 0)
  {
    if s.instance.Some? then (s, Ready(s.instance.value))
    else if !s.initializationPromise then (Slot(None, true, s.boots + 1), Pending)
    else (s, Pending)
  }

  /**
   * The boot promise settles with a container and its `then` callback stores it. It can only
   * happen once, while the boot is under way; in any other state the event does not occur.
   */
  function Resolve(s: Slot, booted: Container): (r: Slot)
    ensures s.initializationPromise && s.instance.None? ==> r == s.(instance := Some(booted))
    ensures !(s.initializationPromise && s.instance.None?) ==> r == s
  {
    if s.initializationPromise && s.instance.None? then s.(instance := Some(booted)) else s
  }

  datatype Event = Call | BootResolves(booted: Container)

  function Step(s: Slot, e: Event): Slot {
    match e
    case Call => Get(s).0
    case BootResolves(c) => Resolve(s, c)
  }

  /** The state after a sequence of events. */
  function Run(s: Slot, events: seq<Event>): Slot
    decreases |events|
  {
    if events == [] then s else Run(Step(s, events[0]), events[1..])
  }

  /** The states reachable from `Initial`: boot called exactly once iff the promise exists, and an instance only after it. */
  predicate Reachable(s: Slot) {
    && s.boots == (if s.initializationPromise then 1 else 0)
    && (s.instance.Some? ==> s.initializationPromise)
  }

  lemma StepPreservesReachable(s: Slot, e: Event)
    requires Reachable(s)
    ensures Reachable(Step(s, e))
  {
  }

  /** Every state reachable by any sequence of calls and boot completions is `Reachable`. */
  lemma {:induction false} RunPreservesReachable(s: Slot, events: seq<Event>)
    requires Reachable(s)
    ensures Reachable(Run(s, events))
    decreases |events|
  {
    if events != [] {
      StepPreservesReachable(s, events[0]);
      RunPreservesReachable(Step(s, events[0]), events[1..]);
    }
  }

  /** Over any sequence of events, `WebContainer.boot()` is called at most once. */
  lemma BootAtMostOnce(events: seq<Event>)
    ensures Run(Initial, events).boots <= 1
  {
    RunPreservesReachable(Initial, events);
  }

  /** Nothing ever resets the state: the promise stays set, a stored instance stays the same, boots never decrease. */
  lemma {:induction false} RunNeverResets(s: Slot, events: seq<Event>)
    ensures s.initializationPromise ==> Run(s, events).initializationPromise
    ensures s.instance.Some? ==> Run(s, events).instance == s.instance
    ensures Run(s, events).boots >= s.boots
    decreases |events|
  {
    if events != [] {
      RunNeverResets(Step(s, events[0]), events[1..]);
    }
  }

  /** Once the boot has resolved, every later call returns that same container and leaves the state alone. */
  lemma ReadyForever(s: Slot, booted: Container, events: seq<Event>)
    requires s.initializationPromise && s.instance.None?
    ensures var t := Run(Resolve(s, booted), events); Get(t) == (t, Ready(booted))
  {
    RunNeverResets(Resolve(s, booted), events);
  }

  /** The module-level variables of the source, with the same transitions as `Get` and `Resolve`. */
  class ContainerSlot {
    var instance: Option<Container>
    var initializationPromise: bool
    ghost var boots: nat

    ghost function State(): Slot
      reads this
    {
      Slot(instance, initializationPromise, boots)
    }

    constructor ()
      ensures State() == Initial
    {
      instance := None;
      initializationPromise := false;
      boots := 0;
    }

    /** `getWebContainerInstance()`. */
    method GetWebContainerInstance() returns (h: Handle)
      modifies this
      ensures (State(), h) == Get(old(State()))
    {
      if instance.Some? {
        return Ready(instance.value);
      }
      if !initializationPromise {
        // initializationPromise = WebContainer.boot().then(...)
        initializationPromise := true;
        boots := boots + 1;
      }
      return Pending;
    }

    /** The `then` callback of the boot promise: `instance = bootedInstance`. */
    method OnBooted(booted: Container)
      requires initializationPromise && instance.None?
      modifies this
      ensures State() == Resolve(old(State()), booted)
    {
      instance := Some(booted);
    }
  }
}
