/** Clients of the state machine that exercise `Clone`: the fixture of
    src/Stateless.Tests/StateMachineCloneTestFixture.cs on a three-state
    machine, and the same isolation facts for any machine. Entry and exit
    delegates are identified by number; an exit delegate "fired" when its
    number appears in an `Exit` event of the trace. */
module CloneScenarios {
  import opened Outcomes
  import opened TriggerSignatures
  import opened Representations
  import opened StateMachines

  datatype State = A | B | C
  datatype Trigger = X | Y

  /** The delegates the fixture registers. */
  const OriginalExit: ActionId := 1
  const CloneExit: ActionId := 2
  const ParentExit: ActionId := 3
  const ParentUnhandled: nat := 4
  const CloneUnhandled: nat := 5

  /** B with its one behaviour, X to C, and the given exit delegates. */
  function ConfiguredB(exits: seq<ActionId>): Rep<State, Trigger>
  {
    Rep(B, [Behaviour(X, true, To(C))], None, [], exits)
  }

  /** The fixture's machine in B, with the given exit delegates and unhandled action. */
  function InB(exits: seq<ActionId>, unhandled: UnhandledAction): Machine<State, Trigger>
  {
    Machine(B, map[B := ConfiguredB(exits)], map[], unhandled)
  }

  /** Firing X in B: B's exit delegates run, the state becomes C, C's (new,
      empty) representation is entered. */
  lemma FiringXLeavesB(exits: seq<ActionId>, unhandled: UnhandledAction)
    ensures var r := Fired(InB(exits, unhandled), X, []);
      var transition := Transition(B, C, X);
      && r.outcome == Ok
      && r.after == Machine(C, map[B := ConfiguredB(exits), C := Empty(C)], map[], unhandled)
      && r.events == [Exit(transition, exits), StateWritten(C), Enter(transition, [], [])]
  {
    var m := InB(exits, unhandled);
    assert Chain(m.states, B) == [B];
    assert TryFindHandler(m.states, B, X) == Some(Behaviour(X, true, To(C)));
    TransitionOrder(m, X, [], Behaviour(X, true, To(C)), C);
  }

  /** Firing Y in B: no handler, so the unhandled action is called with B and Y. */
  lemma FiringYIsUnhandled(exits: seq<ActionId>, unhandled: UnhandledAction)
    ensures var r := Fired(InB(exits, unhandled), Y, []);
      && r.outcome == InvokeUnhandled(unhandled, B, Y)
      && r.after == InB(exits, unhandled)
      && r.events == [Unhandled(unhandled, B, Y)]
  {
    var m := InB(exits, unhandled);
    assert Chain(m.states, B) == [B];
    assert ConfiguredB(exits).behaviours[1..] == [];
    assert LocalHandler(ConfiguredB(exits).behaviours, Y) == None;
    assert [B][1..] == [];
    assert HandlerAlong(m.states, [B], Y) == None;
    assert TryFindHandler(m.states, B, Y) == None;
    UnhandledTrigger(m, Y, []);
  }

  /** The fixture's set-up: a machine in B in which X leads from B to C;
      the machine is in B. */
  method Given() returns (m: StateMachine<State, Trigger>)
    ensures fresh(m) && fresh(m.cell) && fresh(m.id)
    ensures m.Valid() && m.trace == []
    ensures m.Model() == InB([], DefaultUnhandledTriggerAction)
  {
    m := new StateMachine(B);
    m.Reconfigure(B, Permit(X, C));
    assert [] + [Behaviour(X, true, To(C))] == [Behaviour(X, true, To(C))];
    var inB := m.IsInState(B);
    assert inB;
  }

  /** `Configure(State.B).OnExit(...)` on a fixture machine. */
  method AddExit(m: StateMachine<State, Trigger>, exit: ActionId)
    requires m.Valid() && m.Model() == InB([], m.unhandledTriggerAction)
    modifies m
    ensures m.Valid() && m.Model() == InB([exit], old(m.unhandledTriggerAction)) && m.trace == old(m.trace)
  {
    m.Reconfigure(B, OnExit(exit));
    assert [] + [exit] == [exit];
  }

  /** It_can_be_cloned and Clone_has_same_state: a different object with a
      different identity, in the same state. */
  method CloneIsNewAndInSameState() returns (m: StateMachine<State, Trigger>, c: StateMachine<State, Trigger>)
    ensures c != m && c.id != m.id
    ensures c.State() == m.State() == B
  {
    m := Given();
    c := m.Clone();
  }

  /** Clone_fires_previous_callbacks: an exit delegate registered on the
      parent before cloning runs when the clone leaves B. */
  method CloneFiresPreviousCallbacks() returns (c: StateMachine<State, Trigger>, o: Outcome)
    ensures o == Ok && c.State() == C
    ensures c.trace == [Exit(Transition(B, C, X), [OriginalExit]), StateWritten(C), Enter(Transition(B, C, X), [], [])]
  {
    var m := Given();
    AddExit(m, OriginalExit);
    c := m.Clone();
    assert c.Model() == InB([OriginalExit], c.unhandledTriggerAction);
    FiringXLeavesB([OriginalExit], c.unhandledTriggerAction);
    o := c.Fire(X);
  }

  /** Parent_doesnt_fire_new_callbacks_in_clone: after cloning, each machine
      gets its own exit delegate; firing the clone runs the clone's only. */
  method ParentCallbackStaysInParent()
    returns (m: StateMachine<State, Trigger>, c: StateMachine<State, Trigger>, o: Outcome)
    ensures o == Ok && c.State() == C && m.State() == B
    ensures c.trace == [Exit(Transition(B, C, X), [CloneExit]), StateWritten(C), Enter(Transition(B, C, X), [], [])]
    ensures m.trace == []
  {
    m := Given();
    c := m.Clone();
    AddExit(c, CloneExit);
    AddExit(m, ParentExit);
    assert c.Model() == InB([CloneExit], c.unhandledTriggerAction);
    FiringXLeavesB([CloneExit], c.unhandledTriggerAction);
    o := c.Fire(X);
  }

  /** Clone_doesnt_fire_new_callbacks_in_parent: firing the parent runs the
      parent's delegate only and leaves the clone in B. */
  method CloneCallbackStaysInClone()
    returns (m: StateMachine<State, Trigger>, c: StateMachine<State, Trigger>, o: Outcome)
    ensures o == Ok && m.State() == C && c.State() == B
    ensures m.trace == [Exit(Transition(B, C, X), [ParentExit]), StateWritten(C), Enter(Transition(B, C, X), [], [])]
    ensures c.trace == []
  {
    m := Given();
    c := m.Clone();
    AddExit(c, CloneExit);
    AddExit(m, ParentExit);
    assert m.Model() == InB([ParentExit], m.unhandledTriggerAction);
    FiringXLeavesB([ParentExit], m.unhandledTriggerAction);
    o := m.Fire(X);
  }

  /** Callback_on_invalid_can_be_updated_without_interfering_with_parent:
      the clone starts with the default unhandled action; after each machine
      has its own, an unhandled Y calls the clone's on the clone and the
      parent's on the parent, and neither changes state. */
  method UnhandledCallbacksAreSeparate()
    returns (m: StateMachine<State, Trigger>, c: StateMachine<State, Trigger>)
    ensures c.trace == [Unhandled(UserAction(CloneUnhandled), B, Y)]
    ensures m.trace == [Unhandled(UserAction(ParentUnhandled), B, Y)]
    ensures c.State() == B && m.State() == B
  {
    m := Given();
    var registered := m.OnUnhandledTrigger(Some(ParentUnhandled));
    c := m.Clone();
    assert c.Model().unhandled == DefaultUnhandledTriggerAction;
    registered := c.OnUnhandledTrigger(Some(CloneUnhandled));
    assert c.Model() == InB([], UserAction(CloneUnhandled));
    FiringYIsUnhandled([], UserAction(CloneUnhandled));
    var o := c.Fire(Y);
    assert m.Model() == InB([], UserAction(ParentUnhandled));
    FiringYIsUnhandled([], UserAction(ParentUnhandled));
    o := m.Fire(Y);
  }

  /** For any machine: a fire on a fresh clone acts on the snapshot (with
      the default unhandled action) and cannot reach the parent, whose
      fields and cell are outside what the fire may change. */
  method FireOnClone<S(==), T(==)>(m: StateMachine<S, T>, t: T, args: seq<Argument>)
    returns (c: StateMachine<S, T>, o: Outcome)
    requires m.Valid()
    ensures c != m && c.cell != m.cell && c.id != m.id
    ensures var r := Fired(m.Model().(unhandled := DefaultUnhandledTriggerAction), t, args);
      o == r.outcome && c.Model() == r.after && c.trace == r.events
  {
    c := m.Clone();
    o := c.InternalFire(t, args);
  }

  /** For any machine: a fire on the parent leaves an earlier clone as it
      was made. */
  method FireOnParent<S(==), T(==)>(m: StateMachine<S, T>, t: T, args: seq<Argument>)
    returns (c: StateMachine<S, T>, o: Outcome)
    requires m.Valid()
    modifies m, m.cell
    ensures c != m && c.cell != m.cell && c.id != m.id
    ensures c.Model() == old(m.Model()).(unhandled := DefaultUnhandledTriggerAction) && c.trace == []
    ensures var r := Fired(old(m.Model()), t, args);
      o == r.outcome && m.Model() == r.after
  {
    c := m.Clone();
    o := m.InternalFire(t, args);
  }

  /** For any machine: configuring a clone leaves the parent's
      configuration alone, and configuring the parent leaves the clone's. */
  method ConfigureAfterClone<S(==), T(==)>(m: StateMachine<S, T>, s: S, edit: Edit<S, T>, u: S, parentEdit: Edit<S, T>)
    returns (c: StateMachine<S, T>)
    requires m.Valid()
    modifies m
    ensures c != m && c.cell != m.cell
    ensures var reps := Materialize(old(m.stateConfiguration), s);
      var reps' := if edit.SubstateOf? then Materialize(reps, edit.superstate) else reps;
      c.stateConfiguration == reps'[s := Apply(reps'[s], edit)]
    ensures var reps := Materialize(old(m.stateConfiguration), u);
      var reps' := if parentEdit.SubstateOf? then Materialize(reps, parentEdit.superstate) else reps;
      m.stateConfiguration == reps'[u := Apply(reps'[u], parentEdit)]
    ensures c.triggerConfiguration == m.triggerConfiguration == old(m.triggerConfiguration)
  {
    c := m.Clone();
    c.Reconfigure(s, edit);
    m.Reconfigure(u, parentEdit);
  }
}
