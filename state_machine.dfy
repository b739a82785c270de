/** The state machine: current-state storage, the state and trigger
    configuration maps, the unhandled-trigger policy and an identity.

    The machine is a class whose fields the operations update in place. The
    value `Model()` collects what the operations read and write, and the pure
    function `Fired` says what firing a trigger does to that value; the
    method `InternalFire` is proved against it. A ghost `trace` records, in
    order, the calls into the parts that are not modelled (argument
    validation, the unhandled-trigger action, exit and entry of a
    representation) and the write of the new state.
 */
module StateMachines {
  import opened Outcomes
  import opened TriggerSignatures
  import opened Representations

  /** The cell behind the state accessor and mutator: the accessor reads
      `value`, the mutator writes it. */
  class StateCell<S> {
    var value: S

    constructor (initial: S)
      ensures value == initial
    {
      value := initial;
    }
  }

  /** A machine identity. A token allocated by `new` differs from every token
      allocated before it, which is all that is claimed of a new Guid. */
  class Token {
    constructor ()
    {
    }
  }

  /** The action called on an unhandled trigger: the built-in default, or a
      caller's delegate (by identity; its body is not modelled). */
  datatype UnhandledAction = DefaultUnhandledTriggerAction | UserAction(id: nat)

  /** Calling the unhandled-trigger action. The default throws
      InvalidOperationException; a caller's action returns. */
  function InvokeUnhandled<S, T>(action: UnhandledAction, state: S, trigger: T): (o: Outcome)
    ensures o == Throws(InvalidOperation) <==> action == DefaultUnhandledTriggerAction
    ensures o == Ok <==> action.UserAction?
  {
    match action
    case DefaultUnhandledTriggerAction => Throws(InvalidOperation)
    case UserAction(_) => Ok
  }

  /** The transition handed to exit and entry. */
  datatype Transition<S, T> = Transition(source: S, destination: S, trigger: T)

  /** What the ghost trace records. */
  datatype Event<S, T> =
    | Validated(trigger: T)
    | Unhandled(action: UnhandledAction, state: S, trigger: T)
    | Exit(transition: Transition<S, T>, actions: seq<ActionId>)
    | StateWritten(state: S)
    | Enter(transition: Transition<S, T>, actions: seq<ActionId>, args: seq<Argument>)

  /** Neither exit, a state write nor entry happened. */
  predicate Quiet<S, T>(events: seq<Event<S, T>>)
  {
    forall i :: 0 <= i < |events| ==> events[i].Validated? || events[i].Unhandled?
  }

  /** The machine as a value: current state, both maps, unhandled action. */
  datatype Machine<S, T> = Machine(
    state: S,
    states: map<S, Rep<S, T>>,
    triggers: map<T, TriggerWithParameters<T>>,
    unhandled: UnhandledAction)

  /** Every representation is filed under its own state and every signature
      under its own trigger. */
  ghost predicate ConsistentKeys<S, T>(states: map<S, Rep<S, T>>, triggers: map<T, TriggerWithParameters<T>>)
  {
    && (forall s :: s in states ==> states[s].underlying == s)
    && (forall t :: t in triggers ==> triggers[t].trigger == t)
  }

  ghost predicate WellFormed<S, T>(m: Machine<S, T>)
  {
    ConsistentKeys(m.states, m.triggers)
  }

  /** `GetRepresentation` on the state map: an existing entry is kept, an
      absent one gets a fresh representation; no other key is touched. */
  function Materialize<S, T>(reps: map<S, Rep<S, T>>, s: S): (r: map<S, Rep<S, T>>)
    ensures s in r && r.Keys == reps.Keys + {s}
    ensures forall k :: k in reps ==> r[k] == reps[k]
    ensures s !in reps ==> r[s] == Empty(s)
    ensures s in reps ==> r == reps
  {
    if s in reps then reps else reps[s := Empty(s)]
  }

  /** `b` keeps every entry of `a`, and may have more. */
  ghost predicate Extends<K, V>(a: map<K, V>, b: map<K, V>)
  {
    a.Keys <= b.Keys && forall k :: k in a ==> b[k] == a[k]
  }

  /** The outcome of firing, the machine afterwards, and the events in order. */
  datatype FireResult<S, T> = FireResult(outcome: Outcome, after: Machine<S, T>, events: seq<Event<S, T>>)

  /** Firing `t` with `args` (`InternalFire`): validate the arguments if the
      trigger has a registered signature, then dispatch on the current
      state's representation (created if absent). */
  function Fired<S, T>(m: Machine<S, T>, t: T, args: seq<Argument>): FireResult<S, T>
  {
    var check := Validation(m, t, args);
    if check != Ok then FireResult(check, m, [])
    else
      var d := Dispatch(m.(states := Materialize(m.states, m.state)), t, args);
      d.(events := Prelude(m, t) + d.events)
  }

  /** The verdict of the registered signature, or `Ok` when there is none. */
  function Validation<S, T>(m: Machine<S, T>, t: T, args: seq<Argument>): Outcome
  {
    if t in m.triggers then ValidateParameters(m.triggers[t], Some(args)) else Ok
  }

  /** Find a handler for the current state; with none, call the unhandled
      action and stop; with one that transitions, transit; otherwise stop. */
  function Dispatch<S, T>(m: Machine<S, T>, t: T, args: seq<Argument>): FireResult<S, T>
    requires m.state in m.states
  {
    var current := m.states[m.state];
    match TryFindHandler(m.states, m.state, t)
    case None =>
      FireResult(InvokeUnhandled(m.unhandled, current.underlying, t), m,
                 [Unhandled(m.unhandled, current.underlying, t)])
    case Some(behaviour) =>
      match ResultsInTransitionFrom(behaviour, m.state, args)
      case None => FireResult(Ok, m, [])
      case Some(destination) => Transit(m, Transition(m.state, destination, t), args)
  }

  /** Exit the source, write the destination, enter the destination's
      representation (created if absent). */
  function Transit<S, T>(m: Machine<S, T>, transition: Transition<S, T>, args: seq<Argument>): FireResult<S, T>
    requires m.state in m.states
  {
    var states := Materialize(m.states, transition.destination);
    FireResult(Ok, m.(state := transition.destination, states := states),
               [Exit(transition, m.states[m.state].exitActions),
                StateWritten(transition.destination),
                Enter(transition, states[transition.destination].entryActions, args)])
  }

  /** The events recorded before the handler lookup. */
  function Prelude<S, T>(m: Machine<S, T>, t: T): seq<Event<S, T>>
  {
    if t in m.triggers then [Validated(t)] else []
  }

  /** Arguments that do not fit a registered signature stop the fire before
      any handler lookup: the machine is left exactly as it was and nothing
      runs. */
  lemma ValidationComesFirst<S, T>(m: Machine<S, T>, t: T, args: seq<Argument>)
    requires t in m.triggers && !Compatible(args, m.triggers[t].argumentTypes)
    ensures Fired(m, t, args) == FireResult(Throws(ArgumentMismatch), m, [])
  {
  }

  /** When the arguments fit (or no signature is registered), validation is
      the first thing recorded, and only when a signature is registered. */
  lemma ValidationIsRecordedFirst<S, T>(m: Machine<S, T>, t: T, args: seq<Argument>)
    requires t in m.triggers ==> Compatible(args, m.triggers[t].argumentTypes)
    ensures var r := Fired(m, t, args);
      t in m.triggers ==> |r.events| > 0 && r.events[0] == Validated(t)
    ensures var r := Fired(m, t, args);
      forall i :: 0 <= i < |r.events| && r.events[i].Validated? ==> i == 0 && t in m.triggers
  {
    var d := Dispatch(m.(states := Materialize(m.states, m.state)), t, args);
    assert Validation(m, t, args) == Ok;
    assert Fired(m, t, args).events == Prelude(m, t) + d.events;
    DispatchRecordsNoValidation(m.(states := Materialize(m.states, m.state)), t, args);
  }

  /** Handler lookup, the unhandled action, exit, the state write and entry
      record no validation of their own. */
  lemma DispatchRecordsNoValidation<S, T>(m: Machine<S, T>, t: T, args: seq<Argument>)
    requires m.state in m.states
    ensures forall i :: 0 <= i < |Dispatch(m, t, args).events| ==> !Dispatch(m, t, args).events[i].Validated?
  {
  }

  /** With no handler, the unhandled action is called exactly once, with the
      current state and the trigger; nothing exits or enters, the state stays,
      and the outcome is InvalidOperation exactly for the default action. */
  lemma UnhandledTrigger<S, T>(m: Machine<S, T>, t: T, args: seq<Argument>)
    requires WellFormed(m)
    requires t in m.triggers ==> Compatible(args, m.triggers[t].argumentTypes)
    requires !CanHandle(Materialize(m.states, m.state), m.state, t)
    ensures var r := Fired(m, t, args);
      && r.after == m.(states := Materialize(m.states, m.state))
      && r.events == Prelude(m, t) + [Unhandled(m.unhandled, m.state, t)]
      && Quiet(r.events)
      && (r.outcome == Throws(InvalidOperation) <==> m.unhandled == DefaultUnhandledTriggerAction)
      && (r.outcome == Ok <==> m.unhandled.UserAction?)
  {
  }

  /** A handled trigger that transitions: exit on the source, then the write
      of the destination, then entry on the destination's representation, and
      the destination is the new state. */
  lemma TransitionOrder<S, T>(m: Machine<S, T>, t: T, args: seq<Argument>, b: Behaviour<S, T>, d: S)
    requires t in m.triggers ==> Compatible(args, m.triggers[t].argumentTypes)
    requires TryFindHandler(Materialize(m.states, m.state), m.state, t) == Some(b)
    requires ResultsInTransitionFrom(b, m.state, args) == Some(d)
    ensures var r := Fired(m, t, args);
      var source := Materialize(m.states, m.state)[m.state];
      var transition := Transition(m.state, d, t);
      && r.outcome == Ok
      && r.after.state == d
      && r.after.states == Materialize(Materialize(m.states, m.state), d)
      && r.events == Prelude(m, t) + [Exit(transition, source.exitActions),
                                      StateWritten(d),
                                      Enter(transition, r.after.states[d].entryActions, args)]
  {
  }

  /** A handled trigger that does not transition (an ignored trigger):
      the state stays and nothing exits or enters. */
  lemma NoTransitionKeepsState<S, T>(m: Machine<S, T>, t: T, args: seq<Argument>, b: Behaviour<S, T>)
    requires t in m.triggers ==> Compatible(args, m.triggers[t].argumentTypes)
    requires TryFindHandler(Materialize(m.states, m.state), m.state, t) == Some(b)
    requires ResultsInTransitionFrom(b, m.state, args).None?
    ensures var r := Fired(m, t, args);
      && r.outcome == Ok
      && r.after == m.(states := Materialize(m.states, m.state))
      && r.events == Prelude(m, t)
      && Quiet(r.events)
  {
  }

  /** A failure the library raises itself leaves the state as it was and
      runs no exit, state write or entry. */
  lemma FailureKeepsState<S, T>(m: Machine<S, T>, t: T, args: seq<Argument>)
    ensures var r := Fired(m, t, args);
      r.outcome.Throws? ==> r.after.state == m.state && Quiet(r.events)
  {
    var states := Materialize(m.states, m.state);
    var handler := TryFindHandler(states, m.state, t);
    if t in m.triggers && !Compatible(args, m.triggers[t].argumentTypes) {
      ValidationComesFirst(m, t, args);
    } else if handler.None? {
      assert Fired(m, t, args).events == Prelude(m, t) + [Unhandled(m.unhandled, states[m.state].underlying, t)];
    } else if ResultsInTransitionFrom(handler.value, m.state, args).None? {
      NoTransitionKeepsState(m, t, args, handler.value);
    } else {
      TransitionOrder(m, t, args, handler.value, ResultsInTransitionFrom(handler.value, m.state, args).value);
    }
  }

  /** Firing changes only the state map and the current state. It adds at
      most the representations of the source and the destination, and keeps
      every existing representation unchanged. */
  lemma FireOnlyAddsRepresentations<S, T>(m: Machine<S, T>, t: T, args: seq<Argument>)
    ensures var r := Fired(m, t, args);
      && r.after.triggers == m.triggers && r.after.unhandled == m.unhandled
      && Extends(m.states, r.after.states)
      && r.after.states.Keys <= m.states.Keys + {m.state, r.after.state}
  {
    var states := Materialize(m.states, m.state);
    var handler := TryFindHandler(states, m.state, t);
    if t in m.triggers && !Compatible(args, m.triggers[t].argumentTypes) {
      ValidationComesFirst(m, t, args);
    } else if handler.None? {
    } else if ResultsInTransitionFrom(handler.value, m.state, args).None? {
      NoTransitionKeepsState(m, t, args, handler.value);
    } else {
      TransitionOrder(m, t, args, handler.value, ResultsInTransitionFrom(handler.value, m.state, args).value);
    }
  }

  /** Firing keeps every representation under its own state and every
      signature under its own trigger. */
  lemma FirePreservesWellFormed<S, T>(m: Machine<S, T>, t: T, args: seq<Argument>)
    requires WellFormed(m)
    ensures WellFormed(Fired(m, t, args).after)
  {
    if Validation(m, t, args) == Ok {
      var materialized := m.(states := Materialize(m.states, m.state));
      assert WellFormed(materialized);
      DispatchPreservesWellFormed(materialized, t, args);
    }
  }

  lemma DispatchPreservesWellFormed<S, T>(m: Machine<S, T>, t: T, args: seq<Argument>)
    requires m.state in m.states && WellFormed(m)
    ensures WellFormed(Dispatch(m, t, args).after)
  {
    match TryFindHandler(m.states, m.state, t)
    case None =>
    case Some(behaviour) =>
      match ResultsInTransitionFrom(behaviour, m.state, args)
      case None =>
      case Some(destination) =>
        var after := Transit(m, Transition(m.state, destination, t), args).after;
        assert after.states == Materialize(m.states, destination);
  }

  /** `Fired` phase by phase: a failed validation ends the fire, otherwise
      the dispatch's outcome and machine are the fire's, and its events follow
      the prelude. */
  lemma FiredByPhases<S, T>(m: Machine<S, T>, t: T, args: seq<Argument>)
    ensures Validation(m, t, args) != Ok ==> Fired(m, t, args) == FireResult(Validation(m, t, args), m, [])
    ensures Validation(m, t, args) == Ok ==>
      var d := Dispatch(m.(states := Materialize(m.states, m.state)), t, args);
      && Fired(m, t, args).outcome == d.outcome
      && Fired(m, t, args).after == d.after
      && Fired(m, t, args).events == Prelude(m, t) + d.events
  {
  }

  lemma ConcatenationAssociates<E>(a: seq<E>, b: seq<E>, c: seq<E>)
    ensures a + b + c == a + (b + c)
  {
  }

  /** Copies a dictionary entry by entry, cloning each value: the `foreach`
      loops of the private copying constructor. */
  method CopyEntries<K, V>(source: map<K, V>, duplicate: V -> V) returns (copy: map<K, V>)
    ensures copy.Keys == source.Keys
    ensures forall k :: k in copy ==> copy[k] == duplicate(source[k])
  {
    copy := map[];
    var pending := source.Keys;
    while pending != {}
      invariant pending <= source.Keys
      invariant copy.Keys == source.Keys - pending
      invariant forall k :: k in copy ==> copy[k] == duplicate(source[k])
      decreases pending
    {
      var k :| k in pending;
      copy := copy[k := duplicate(source[k])];
      pending := pending - {k};
    }
  }

  class StateMachine<S(==), T(==)> {
    const cell: StateCell<S>
    const id: Token
    var stateConfiguration: map<S, Rep<S, T>>
    var triggerConfiguration: map<T, TriggerWithParameters<T>>
    var unhandledTriggerAction: UnhandledAction
    ghost var trace: seq<Event<S, T>>

    /** `State`: what the accessor reads, which is the current state of the
        machine's value. */
    function State(): (s: S)
      reads this, cell
      ensures s == Model().state
    {
      cell.value
    }

    ghost function Model(): Machine<S, T>
      reads this, cell
    {
      Machine(cell.value, stateConfiguration, triggerConfiguration, unhandledTriggerAction)
    }

    ghost predicate Valid()
      reads this
    {
      ConsistentKeys(stateConfiguration, triggerConfiguration)
    }

    /** A machine that keeps its state in a cell of its own. */
    constructor (initialState: S)
      ensures fresh(cell) && fresh(id)
      ensures Model() == Machine(initialState, map[], map[], DefaultUnhandledTriggerAction)
      ensures Valid() && trace == []
    {
      cell := new StateCell(initialState);
      id := new Token();
      stateConfiguration := map[];
      triggerConfiguration := map[];
      unhandledTriggerAction := DefaultUnhandledTriggerAction;
      trace := [];
    }

    /** A machine whose state lives in the caller's storage. */
    constructor WithStorage(storage: StateCell<S>)
      ensures cell == storage && fresh(id)
      ensures Model() == Machine(storage.value, map[], map[], DefaultUnhandledTriggerAction)
      ensures Valid() && trace == []
    {
      cell := storage;
      id := new Token();
      stateConfiguration := map[];
      triggerConfiguration := map[];
      unhandledTriggerAction := DefaultUnhandledTriggerAction;
      trace := [];
    }

    /** The public accessor/mutator constructor, whose null check throws
        ArgumentNullException. */
    static method FromAccessorAndMutator(storage: StateCell?<S>) returns (r: Result<StateMachine<S, T>>)
      ensures storage == null <==> r == Raises(ArgumentNull)
      ensures storage != null ==> r.Returns?
      ensures r.Returns? ==> fresh(r.value) && r.value.cell == storage && fresh(r.value.id)
      ensures r.Returns? ==> r.value.Model() == Machine(storage.value, map[], map[], DefaultUnhandledTriggerAction)
      ensures r.Returns? ==> r.value.Valid() && r.value.trace == []
    {
      if storage == null {
        return Raises(ArgumentNull);
      }
      var m := new StateMachine.WithStorage(storage);
      r := Returns(m);
    }

    /** The private copying constructor used by `Clone`: a private cell holding
        the existing state, copies of both maps, the default unhandled action
        (the field initializer) and a new identity. */
    constructor Copy(existingState: S, states: map<S, Rep<S, T>>, triggers: map<T, TriggerWithParameters<T>>)
      requires ConsistentKeys(states, triggers)
      ensures fresh(cell) && fresh(id)
      ensures Model() == Machine(existingState, states, triggers, DefaultUnhandledTriggerAction)
      ensures Valid() && trace == []
    {
      var stateCopy := CopyEntries(states, CloneRepresentation);
      var triggerCopy := CopyEntries(triggers, TriggerSignatures.Clone);
      cell := new StateCell(existingState);
      id := new Token();
      stateConfiguration := stateCopy;
      triggerConfiguration := triggerCopy;
      unhandledTriggerAction := DefaultUnhandledTriggerAction;
      trace := [];
    }

    /** `GetRepresentation`: the representation of `s`, created on first use. */
    method GetRepresentation(s: S) returns (r: Rep<S, T>)
      requires Valid()
      modifies this
      ensures Valid()
      ensures Model() == old(Model()).(states := Materialize(old(stateConfiguration), s))
      ensures r == stateConfiguration[s]
      ensures r == if s in old(stateConfiguration) then old(stateConfiguration)[s] else Empty(s)
      ensures trace == old(trace)
    {
      if s !in stateConfiguration {
        stateConfiguration := stateConfiguration[s := Empty(s)];
      }
      r := stateConfiguration[s];
    }

    /** `Configure`: the representation a configuration builder for `s` works on. */
    method Configure(s: S) returns (r: Rep<S, T>)
      requires Valid()
      modifies this
      ensures Valid()
      ensures Model() == old(Model()).(states := Materialize(old(stateConfiguration), s))
      ensures r == stateConfiguration[s]
      ensures r == if s in old(stateConfiguration) then old(stateConfiguration)[s] else Empty(s)
      ensures trace == old(trace)
    {
      r := GetRepresentation(s);
    }

    /** One builder call on the configuration of `s`, written back to the
        state map. `SubstateOf` looks its superstate up through
        `GetRepresentation`, so that representation exists afterwards. */
    method Reconfigure(s: S, edit: Edit<S, T>)
      requires Valid()
      modifies this
      ensures Valid()
      ensures var reps := Materialize(old(stateConfiguration), s);
        var reps' := if edit.SubstateOf? then Materialize(reps, edit.superstate) else reps;
        stateConfiguration == reps'[s := Apply(reps'[s], edit)]
      ensures triggerConfiguration == old(triggerConfiguration)
      ensures unhandledTriggerAction == old(unhandledTriggerAction) && trace == old(trace)
    {
      var rep := GetRepresentation(s);
      if edit.SubstateOf? {
        var parent := GetRepresentation(edit.superstate);
      }
      stateConfiguration := stateConfiguration[s := Apply(stateConfiguration[s], edit)];
    }

    /** `InternalFire`. */
    method InternalFire(t: T, args: seq<Argument>) returns (o: Outcome)
      requires Valid()
      modifies this, cell
      ensures Valid()
      ensures var r := Fired(old(Model()), t, args);
        o == r.outcome && Model() == r.after && trace == old(trace) + r.events
    {
      ghost var m := Model();
      FiredByPhases(m, t, args);
      o := if t in triggerConfiguration then ValidateParameters(triggerConfiguration[t], Some(args)) else Ok;
      if o != Ok {
        return;
      }
      trace := trace + Prelude(m, t);
      ghost var d := Dispatch(m.(states := Materialize(m.states, m.state)), t, args);
      o := HandleTrigger(t, args);
      ConcatenationAssociates(old(trace), Prelude(m, t), d.events);
    }

    /** The part of `InternalFire` after validation: fetch the current
        representation, look up a handler for it and act on it. */
    method HandleTrigger(t: T, args: seq<Argument>) returns (o: Outcome)
      requires Valid()
      modifies this, cell
      ensures Valid()
      ensures var m := old(Model());
        var r := Dispatch(m.(states := Materialize(m.states, m.state)), t, args);
        o == r.outcome && Model() == r.after && trace == old(trace) + r.events
    {
      var representation := GetRepresentation(cell.value);
      var handler := TryFindHandler(stateConfiguration, cell.value, t);
      if handler.None? {
        var current := GetRepresentation(cell.value);
        trace := trace + [Unhandled(unhandledTriggerAction, current.underlying, t)];
        o := InvokeUnhandled(unhandledTriggerAction, current.underlying, t);
        return;
      }
      var source := cell.value;
      var destination := ResultsInTransitionFrom(handler.value, source, args);
      if destination.Some? {
        ExitWriteEnter(Transition(source, destination.value, t), args);
      }
      o := Ok;
    }

    /** Exit the source representation, write the destination through the
        mutator, then enter the representation of the state read back. */
    method ExitWriteEnter(transition: Transition<S, T>, args: seq<Argument>)
      requires Valid() && transition.source == State() && State() in stateConfiguration
      modifies this, cell
      ensures Valid()
      ensures var r := Transit(old(Model()), transition, args);
        Model() == r.after && trace == old(trace) + r.events
    {
      var current := GetRepresentation(cell.value);
      trace := trace + [Exit(transition, current.exitActions)];
      cell.value := transition.destination;
      trace := trace + [StateWritten(transition.destination)];
      current := GetRepresentation(cell.value);
      trace := trace + [Enter(transition, current.entryActions, args)];
    }

    /** `Fire(trigger)`: no arguments. */
    method Fire(t: T) returns (o: Outcome)
      requires Valid()
      modifies this, cell
      ensures Valid()
      ensures var r := Fired(old(Model()), t, []);
        o == r.outcome && Model() == r.after && trace == old(trace) + r.events
    {
      o := InternalFire(t, []);
    }

    /** `Fire(trigger, arg0)`: a null signature throws ArgumentNullException. */
    method Fire1(trigger: Option<TriggerWithParameters<T>>, arg0: Argument) returns (o: Outcome)
      requires Valid()
      modifies this, cell
      ensures Valid()
      ensures trigger.None? ==> o == Throws(ArgumentNull) && Model() == old(Model()) && trace == old(trace)
      ensures trigger.Some? ==> var r := Fired(old(Model()), trigger.value.trigger, [arg0]);
        o == r.outcome && Model() == r.after && trace == old(trace) + r.events
    {
      if trigger.None? {
        return Throws(ArgumentNull);
      }
      o := InternalFire(trigger.value.trigger, [arg0]);
    }

    /** `Fire(trigger, arg0, arg1)`. */
    method Fire2(trigger: Option<TriggerWithParameters<T>>, arg0: Argument, arg1: Argument) returns (o: Outcome)
      requires Valid()
      modifies this, cell
      ensures Valid()
      ensures trigger.None? ==> o == Throws(ArgumentNull) && Model() == old(Model()) && trace == old(trace)
      ensures trigger.Some? ==> var r := Fired(old(Model()), trigger.value.trigger, [arg0, arg1]);
        o == r.outcome && Model() == r.after && trace == old(trace) + r.events
    {
      if trigger.None? {
        return Throws(ArgumentNull);
      }
      o := InternalFire(trigger.value.trigger, [arg0, arg1]);
    }

    /** `Fire(trigger, arg0, arg1, arg2)`. */
    method Fire3(trigger: Option<TriggerWithParameters<T>>, arg0: Argument, arg1: Argument, arg2: Argument)
      returns (o: Outcome)
      requires Valid()
      modifies this, cell
      ensures Valid()
      ensures trigger.None? ==> o == Throws(ArgumentNull) && Model() == old(Model()) && trace == old(trace)
      ensures trigger.Some? ==> var r := Fired(old(Model()), trigger.value.trigger, [arg0, arg1, arg2]);
        o == r.outcome && Model() == r.after && trace == old(trace) + r.events
    {
      if trigger.None? {
        return Throws(ArgumentNull);
      }
      o := InternalFire(trigger.value.trigger, [arg0, arg1, arg2]);
    }

    /** `OnUnhandledTrigger`: a null action throws ArgumentNullException and
        keeps the previous one; otherwise the action is replaced. */
    method OnUnhandledTrigger(action: Option<nat>) returns (o: Outcome)
      modifies this
      ensures action.None? ==> o == Throws(ArgumentNull) && unhandledTriggerAction == old(unhandledTriggerAction)
      ensures action.Some? ==> o == Ok && unhandledTriggerAction == UserAction(action.value)
      ensures stateConfiguration == old(stateConfiguration) && triggerConfiguration == old(triggerConfiguration)
      ensures trace == old(trace)
    {
      if action.None? {
        return Throws(ArgumentNull);
      }
      unhandledTriggerAction := UserAction(action.value);
      o := Ok;
    }

    /** `IsInState`: whether the current state is `s` or a substate of `s`. */
    method IsInState(s: S) returns (b: bool)
      requires Valid()
      modifies this
      ensures Valid()
      ensures Model() == old(Model()).(states := Materialize(old(stateConfiguration), State()))
      ensures b == IsIncludedIn(stateConfiguration, State(), s)
      ensures State() == s ==> b
      ensures stateConfiguration[State()].superstate == Some(s) ==> b
      ensures trace == old(trace)
    {
      var current := GetRepresentation(cell.value);
      b := IsIncludedIn(stateConfiguration, cell.value, s);
      IncludedInItself(stateConfiguration, cell.value);
      if stateConfiguration[cell.value].superstate == Some(s) {
        IncludedInSuperstate(stateConfiguration, cell.value, s);
      }
    }

    /** `CanFire`: whether the current representation can handle `t`. */
    method CanFire(t: T) returns (b: bool)
      requires Valid()
      modifies this
      ensures Valid()
      ensures Model() == old(Model()).(states := Materialize(old(stateConfiguration), State()))
      ensures b == CanHandle(stateConfiguration, State(), t)
      ensures trace == old(trace)
    {
      var current := GetRepresentation(cell.value);
      b := CanHandle(stateConfiguration, cell.value, t);
    }

    /** `PermittedTriggers`: the triggers the current representation permits. */
    method PermittedTriggers() returns (ts: set<T>)
      requires Valid()
      modifies this
      ensures Valid()
      ensures Model() == old(Model()).(states := Materialize(old(stateConfiguration), State()))
      ensures ts == Representations.PermittedTriggers(stateConfiguration, State())
      ensures trace == old(trace)
    {
      var current := GetRepresentation(cell.value);
      ts := Representations.PermittedTriggers(stateConfiguration, cell.value);
    }

    /** `SaveTriggerConfiguration`: a trigger gets a signature at most once. */
    method SaveTriggerConfiguration(signature: TriggerWithParameters<T>) returns (o: Outcome)
      requires Valid()
      modifies this
      ensures Valid()
      ensures o == Throws(InvalidOperation) <==> signature.trigger in old(triggerConfiguration)
      ensures o == Ok <==> signature.trigger !in old(triggerConfiguration)
      ensures triggerConfiguration ==
        if o == Ok then old(triggerConfiguration)[signature.trigger := signature] else old(triggerConfiguration)
      ensures stateConfiguration == old(stateConfiguration)
      ensures unhandledTriggerAction == old(unhandledTriggerAction) && trace == old(trace)
    {
      if signature.trigger in triggerConfiguration {
        return Throws(InvalidOperation);
      }
      triggerConfiguration := triggerConfiguration[signature.trigger := signature];
      o := Ok;
    }

    /** `SetTriggerParameters<TArg0>`. */
    method SetTriggerParameters1(t: T, arg0: TypeTag) returns (r: Result<TriggerWithParameters<T>>)
      requires Valid()
      modifies this
      ensures Valid()
      ensures r == Raises(InvalidOperation) <==> t in old(triggerConfiguration)
      ensures r.Returns? <==> t !in old(triggerConfiguration)
      ensures r.Returns? ==> r.value == WithOneParameter(t, arg0)
      ensures triggerConfiguration == if r.Returns? then old(triggerConfiguration)[t := r.value] else old(triggerConfiguration)
      ensures stateConfiguration == old(stateConfiguration)
      ensures unhandledTriggerAction == old(unhandledTriggerAction) && trace == old(trace)
    {
      var configuration := WithOneParameter(t, arg0);
      var o := SaveTriggerConfiguration(configuration);
      r := if o == Ok then Returns(configuration) else Raises(o.exception);
    }

    /** `SetTriggerParameters<TArg0, TArg1>`. */
    method SetTriggerParameters2(t: T, arg0: TypeTag, arg1: TypeTag) returns (r: Result<TriggerWithParameters<T>>)
      requires Valid()
      modifies this
      ensures Valid()
      ensures r == Raises(InvalidOperation) <==> t in old(triggerConfiguration)
      ensures r.Returns? <==> t !in old(triggerConfiguration)
      ensures r.Returns? ==> r.value == WithTwoParameters(t, arg0, arg1)
      ensures triggerConfiguration == if r.Returns? then old(triggerConfiguration)[t := r.value] else old(triggerConfiguration)
      ensures stateConfiguration == old(stateConfiguration)
      ensures unhandledTriggerAction == old(unhandledTriggerAction) && trace == old(trace)
    {
      var configuration := WithTwoParameters(t, arg0, arg1);
      var o := SaveTriggerConfiguration(configuration);
      r := if o == Ok then Returns(configuration) else Raises(o.exception);
    }

    /** `SetTriggerParameters<TArg0, TArg1, TArg2>`. */
    method SetTriggerParameters3(t: T, arg0: TypeTag, arg1: TypeTag, arg2: TypeTag)
      returns (r: Result<TriggerWithParameters<T>>)
      requires Valid()
      modifies this
      ensures Valid()
      ensures r == Raises(InvalidOperation) <==> t in old(triggerConfiguration)
      ensures r.Returns? <==> t !in old(triggerConfiguration)
      ensures r.Returns? ==> r.value == WithThreeParameters(t, arg0, arg1, arg2)
      ensures triggerConfiguration == if r.Returns? then old(triggerConfiguration)[t := r.value] else old(triggerConfiguration)
      ensures stateConfiguration == old(stateConfiguration)
      ensures unhandledTriggerAction == old(unhandledTriggerAction) && trace == old(trace)
    {
      var configuration := WithThreeParameters(t, arg0, arg1, arg2);
      var o := SaveTriggerConfiguration(configuration);
      r := if o == Ok then Returns(configuration) else Raises(o.exception);
    }

    /** `Clone`: same state (in a private cell), equal configuration, the
        default unhandled action, a new identity. */
    method Clone() returns (c: StateMachine<S, T>)
      requires Valid()
      ensures fresh(c) && fresh(c.cell) && fresh(c.id) && c.id != id
      ensures c.Model() == Model().(unhandled := DefaultUnhandledTriggerAction)
      ensures c.Valid() && c.trace == []
    {
      c := new StateMachine.Copy(cell.value, stateConfiguration, triggerConfiguration);
    }
  }
}
