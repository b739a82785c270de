# Stateless transition engine in Dafny

This project models the transition engine of Stateless, a hierarchical
state-machine library for .NET. It covers `StateMachine<TState, TTrigger>` and
the trigger signatures (`TriggerWithParameters`) that say which arguments a
trigger must be fired with.

- **`Outcomes`** (`outcomes.dfy`) holds the exceptions of the library as
  values. A call that can throw returns an `Outcome` (`Ok | Throws(e)`) or a
  `Result` (`Returns(v) | Raises(e)`). The exception kinds are
  `InvalidOperation`, `ArgumentNull` and `ArgumentMismatch`.
- **`TriggerSignatures`** (`trigger_signatures.dfy`) models the immutable
  signature: a trigger value and a sequence of argument type tags.
  - The base constructor rejects a null type array and keeps a copy of it.
  - The 1-, 2- and 3-argument forms declare their types in order.
  - `ValidateParameters` rejects null arguments and arguments that do not fit
    the declared types.
  - `Clone` returns the signature itself.
- **`Representations`** (`representations.dfy`) holds the per-state
  representation as a value: behaviours, an optional superstate, and entry
  and exit action lists. It also holds the lookups the machine calls on it
  (handler search, inclusion, permitted triggers, where a behaviour leads).
- **`StateMachines`** (`state_machine.dfy`) models the machine as a class.
  - Its fields are:
    - a current-state cell, reached through the accessor/mutator pair;
    - the state map, filled lazily by `GetRepresentation`;
    - the trigger map, which accepts each trigger once;
    - the unhandled-trigger action;
    - an identity.
  - A ghost `trace` records, in order, each passed validation, each call of
    the unhandled action, each exit, each write of the state and each entry.
  - The pure function `Fired` says what firing does to the machine's value
    `Model()`. It is built from `Validation`, `Dispatch` and `Transit`.
    `InternalFire` and the `Fire` overloads are proved against it.
  - Lemmas about `Fired` state the firing rules:
    - validation comes first;
    - an unhandled trigger calls the action once and leaves the state alone;
    - a transition runs exit, then the write, then entry;
    - a failure the library raises itself runs no exit, state write or entry.
  - `Clone` and the private copying constructor copy both maps entry by
    entry (`CopyEntries`). The clone gets a private cell, a new identity and
    the default unhandled action.
- **`CloneScenarios`** (`clone_scenarios.dfy`) restates the clone test
  fixture as client methods, on a machine with states A, B and C where X
  leads from B to C. It also proves the same isolation facts for any
  machine.

The code and its own documentation disagree on one point; the model follows
the code. The doc comment of `Clone` (src/Stateless/StateMachine.cs:337-339)
says the clone has the same callbacks. That holds for entry and exit actions,
which live in the copied representations. It does not hold for the
unhandled-trigger action: the copying constructor never copies it, so the
field initializer (src/Stateless/StateMachine.cs:46) gives the clone the
default action. `StateMachines.StateMachine.Clone` states this.

## Model

| member | source | states |
|---|---|---|
| `TriggerSignatures.Create` | Stateless/TriggerWithParameters.cs:21-36 | a null type array raises ArgumentNull, and only then; any other array always yields a signature that keeps the trigger and exactly the given types, so `Trigger` returns the constructor's trigger |
| `TriggerSignatures.ConstructThenOverwrite` | Stateless/TriggerWithParameters.cs:26-27 | a signature built from a caller's array keeps that array's contents at construction, even after the caller writes to the array |
| `TriggerSignatures.WithOneParameter` | Stateless/TriggerWithParameters.cs:75-77 | the one-argument form is the base constructor with exactly one type, the declared one |
| `TriggerSignatures.WithTwoParameters` | Stateless/TriggerWithParameters.cs:92-94 | exactly two types, in declaration order |
| `TriggerSignatures.WithThreeParameters` | Stateless/TriggerWithParameters.cs:110-112 | exactly three types, in declaration order |
| `TriggerSignatures.ValidateParameters` | Stateless/TriggerWithParameters.cs:43-47 | succeeds if and only if the arguments are present and compatible; null arguments, and only those, raise ArgumentNull; nothing else can result |
| `TriggerSignatures.WrongArityIsRejected` | Stateless/TriggerWithParameters.cs:43-47 | arguments of the wrong number are rejected with ArgumentMismatch |
| `TriggerSignatures.WrongTypeIsRejected` | Stateless/TriggerWithParameters.cs:43-47 | an argument of the wrong type in any position is rejected with ArgumentMismatch |
| `TriggerSignatures.DeclaredTypesAreAccepted` | Stateless/TriggerWithParameters.cs:43-47 | arguments with exactly the declared types, in order, are accepted |
| `TriggerSignatures.Clone` | Stateless/TriggerWithParameters.cs:53-57 | the clone is the signature itself, with the same trigger |
| `Representations.CloneRepresentation` | src/Stateless/StateMachine.cs:57-58 | the copy of a representation equals it |
| `Representations.LineageFollowsSuperstates` | src/Stateless/StateMachine.cs:244-245 | the superstate chain starts at the state itself, and each later element is the superstate of the one before |
| `Representations.IncludedInItself` | src/Stateless/StateMachine.cs:244-245 | a state is included in itself |
| `Representations.IncludedInSuperstate` | src/Stateless/StateMachine.cs:244-245 | a state is included in its superstate |
| `Representations.IncludedOnlyAlongSuperstates` | src/Stateless/StateMachine.cs:244-245 | a state is included only in itself or in a state reached by following superstate links |
| `Representations.LineageSuffix` | src/Stateless/StateMachine.cs:244-245 | from any of its elements on, a superstate chain is the chain of that element |
| `Representations.RootedLineageIsStable` | src/Stateless/StateMachine.cs:244-245 | a chain that reaches a state with no superstate does not change when more links may be followed |
| `Representations.IncludedTransitively` | src/Stateless/StateMachine.cs:244-245 | for a chain without a cycle, inclusion is transitive: a state is included in everything that its superstates, at any depth, are included in |
| `Representations.IncludedThroughSuperstate` | src/Stateless/StateMachine.cs:244-245 | for a chain without a cycle, a state is included in everything its superstate is included in |
| `Representations.RootIncludedOnlyInItself` | src/Stateless/StateMachine.cs:244-245 | a state with no superstate is included in nothing but itself |
| `StateMachines.InvokeUnhandled` | src/Stateless/StateMachine.cs:328-334 | the default unhandled action throws InvalidOperation, and only it; a caller's action returns normally |
| `StateMachines.Materialize` | src/Stateless/StateMachine.cs:108-119 | afterwards the state is a key; an existing entry is kept unchanged; an absent one gets a fresh representation of that state; no other key is added |
| `StateMachines.ValidationComesFirst` | src/Stateless/StateMachine.cs:204-208 | arguments that do not fit a registered signature end the fire with ArgumentMismatch before any lookup; the machine is unchanged and nothing is recorded |
| `StateMachines.ValidationIsRecordedFirst` | src/Stateless/StateMachine.cs:204-211 | when the arguments fit, validation is the first event recorded if a signature is registered; it is recorded nowhere else, and not at all without a signature |
| `StateMachines.DispatchRecordsNoValidation` | src/Stateless/StateMachine.cs:210-226 | handler lookup, the unhandled action, exit, the write and entry record no validation |
| `StateMachines.UnhandledTrigger` | src/Stateless/StateMachine.cs:210-215 | with no handler, the unhandled action is called once with the current state and the trigger; the state is unchanged and nothing exits or enters; the outcome is InvalidOperation exactly for the default action |
| `StateMachines.TransitionOrder` | src/Stateless/StateMachine.cs:217-226 | a transitioning handler gives exit on the source, then the write of the destination, then entry on the destination's representation; the new state is the destination |
| `StateMachines.NoTransitionKeepsState` | src/Stateless/StateMachine.cs:217-219 | a handler that reports no transition leaves the state alone, and nothing exits or enters |
| `StateMachines.FailureKeepsState` | src/Stateless/StateMachine.cs:204-215 | a fire the library itself rejects (arguments that do not fit, the default unhandled action) leaves the state as it was, and runs no exit, write or entry |
| `StateMachines.FireOnlyAddsRepresentations` | src/Stateless/StateMachine.cs:204-226 | firing changes neither the trigger map nor the unhandled action; it keeps every existing representation and adds at most those of the old and the new state |
| `StateMachines.FirePreservesWellFormed` | src/Stateless/StateMachine.cs:204-226 | firing keeps each representation filed under its own state and each signature under its own trigger |
| `StateMachines.DispatchPreservesWellFormed` | src/Stateless/StateMachine.cs:210-226 | the lookup-and-transition part keeps the maps consistently keyed |
| `StateMachines.CopyEntries` | src/Stateless/StateMachine.cs:57-61 | the entry-by-entry copy has exactly the source's keys, and each value is the clone of the source's value |
| `StateMachines.StateMachine.constructor` | src/Stateless/StateMachine.cs:79-84 | a machine in its own new cell holding the initial state; both maps are empty and the unhandled action is the default |
| `StateMachines.StateMachine.WithStorage` | src/Stateless/StateMachine.cs:69-73 | a machine whose state is the caller's storage; both maps are empty and the unhandled action is the default |
| `StateMachines.StateMachine.State` | src/Stateless/StateMachine.cs:89-93 | the `State` getter reads the current state of the machine's value through the accessor |
| `StateMachines.StateMachine.FromAccessorAndMutator` | src/Stateless/StateMachine.cs:69-73 | null storage raises ArgumentNull, and only then; any other storage always yields a new machine over that storage |
| `StateMachines.StateMachine.Copy` | src/Stateless/StateMachine.cs:46-62 | a new private cell holding the existing state, copies of both maps, the default unhandled action, and a new identity |
| `StateMachines.StateMachine.GetRepresentation` | src/Stateless/StateMachine.cs:108-119 | returns the existing representation, or creates and files a fresh one; the state map becomes `Materialize` of the old map; nothing else changes |
| `StateMachines.StateMachine.Configure` | src/Stateless/StateMachine.cs:127-130 | the representation being configured exists afterwards, with the same lazy-insert rule |
| `StateMachines.StateMachine.Reconfigure` | src/Stateless/StateMachine.cs:127-130 | one builder call changes only the configured state's representation; a superstate declaration also materializes the superstate |
| `StateMachines.StateMachine.InternalFire` | src/Stateless/StateMachine.cs:204-227 | outcome, new machine value and recorded events are exactly those of `Fired` on the old value; the maps stay consistently keyed |
| `StateMachines.StateMachine.HandleTrigger` | src/Stateless/StateMachine.cs:210-226 | after validation, the outcome, new value and events are those of `Dispatch` on the materialized current state |
| `StateMachines.StateMachine.ExitWriteEnter` | src/Stateless/StateMachine.cs:221-225 | exit on the source, the write of the destination through the mutator, entry on the destination's representation; the result is `Transit` of the old value |
| `StateMachines.StateMachine.Fire` | src/Stateless/StateMachine.cs:141-144 | firing with no arguments is `Fired` with the empty argument list |
| `StateMachines.StateMachine.Fire1` | src/Stateless/StateMachine.cs:157-161 | a null signature raises ArgumentNull and changes nothing; otherwise `Fired` on the signature's trigger with one argument |
| `StateMachines.StateMachine.Fire2` | src/Stateless/StateMachine.cs:176-180 | the same rule with two arguments, in order |
| `StateMachines.StateMachine.Fire3` | src/Stateless/StateMachine.cs:197-202 | the same rule with three arguments, in order |
| `StateMachines.StateMachine.OnUnhandledTrigger` | src/Stateless/StateMachine.cs:234-238 | a null action raises ArgumentNull and keeps the previous one; otherwise the new action replaces it; the maps are unchanged |
| `StateMachines.StateMachine.IsInState` | src/Stateless/StateMachine.cs:244-249 | true exactly when the current state is included in the given state, so true for the state itself and for its superstate (deeper superstates by `IncludedTransitively`); the only change is the lazy insert of the current representation |
| `StateMachines.StateMachine.CanFire` | src/Stateless/StateMachine.cs:257-260 | true exactly when a handler is found for the trigger; the only change is the lazy insert |
| `StateMachines.StateMachine.PermittedTriggers` | src/Stateless/StateMachine.cs:98-106 | the current representation's permitted triggers; the only change is the lazy insert |
| `StateMachines.StateMachine.SaveTriggerConfiguration` | src/Stateless/StateMachine.cs:319-326 | a trigger already in the map raises InvalidOperation and leaves the map unchanged, and only then; otherwise exactly that one key is added |
| `StateMachines.StateMachine.SetTriggerParameters1` | src/Stateless/StateMachine.cs:281-286 | a trigger without a signature always gets the one-argument signature registered and returned; a trigger that already has one raises InvalidOperation and nothing changes |
| `StateMachines.StateMachine.SetTriggerParameters2` | src/Stateless/StateMachine.cs:296-301 | a trigger without a signature always gets the two-argument signature registered and returned; otherwise InvalidOperation and nothing changes |
| `StateMachines.StateMachine.SetTriggerParameters3` | src/Stateless/StateMachine.cs:312-317 | a trigger without a signature always gets the three-argument signature registered and returned; otherwise InvalidOperation and nothing changes |
| `StateMachines.StateMachine.Clone` | src/Stateless/StateMachine.cs:343-346 | a new machine and cell with a new identity, in the same state, with equal maps and the default unhandled action |
| `CloneScenarios.FiringXLeavesB` | src/Stateless.Tests/StateMachineCloneTestFixture.cs:13-14 | in the fixture machine, X moves B to C, running B's exit delegates and then entry on C's new representation |
| `CloneScenarios.FiringYIsUnhandled` | src/Stateless.Tests/StateMachineCloneTestFixture.cs:104 | in the fixture machine, Y has no handler in B, so the unhandled action is called with B and Y |
| `CloneScenarios.Given` | src/Stateless.Tests/StateMachineCloneTestFixture.cs:10-18 | the set-up machine is in B, B permits X to C, and `IsInState(B)` holds |
| `CloneScenarios.AddExit` | src/Stateless.Tests/StateMachineCloneTestFixture.cs:48-49 | configuring an exit delegate on B adds it to B's representation only |
| `CloneScenarios.CloneIsNewAndInSameState` | src/Stateless.Tests/StateMachineCloneTestFixture.cs:26-41 | the clone is another object with another identity, in state B |
| `CloneScenarios.CloneFiresPreviousCallbacks` | src/Stateless.Tests/StateMachineCloneTestFixture.cs:43-58 | an exit delegate registered before cloning runs when the clone fires X; the clone's whole record is that exit, the write of C and the entry of C |
| `CloneScenarios.ParentCallbackStaysInParent` | src/Stateless.Tests/StateMachineCloneTestFixture.cs:60-75 | firing the clone records exactly its exit with the clone's delegate alone, the write of C and the entry of C, so the parent's delegate never runs; the parent stays in B with nothing recorded |
| `CloneScenarios.CloneCallbackStaysInClone` | src/Stateless.Tests/StateMachineCloneTestFixture.cs:77-91 | firing the parent records exactly its exit with the parent's delegate alone, the write of C and the entry of C, so the clone's delegate never runs; the clone stays in B with nothing recorded |
| `CloneScenarios.UnhandledCallbacksAreSeparate` | src/Stateless.Tests/StateMachineCloneTestFixture.cs:93-112 | the clone starts with the default action; once each has its own, an unhandled Y calls the clone's action on the clone and the parent's action on the parent |
| `CloneScenarios.FireOnClone` | src/Stateless/StateMachine.cs:48-55 | for any machine, a fire on a fresh clone is `Fired` on the snapshot with the default unhandled action, and the parent is not in what it may change |
| `CloneScenarios.FireOnParent` | src/Stateless/StateMachine.cs:48-55 | for any machine, a fire on the parent after cloning leaves the clone as it was made |
| `CloneScenarios.ConfigureAfterClone` | src/Stateless/StateMachine.cs:57-61 | configuration added to the clone or to the parent after cloning appears only in that machine's state map |

## Left out

- `StateRepresentation`, `StateConfiguration`, `TriggerBehaviour`, `StateReference` and `Enforce` are not part of this model. The module `Representations` stands in for them with plain definitions:
  - handlers are searched in order of registration, the state's own before its superstates';
  - a trigger is permitted if some behaviour for it has a guard that holds;
  - an edit appends a behaviour or an action;
  - exit and entry run the representation's own action lists; any exit or entry of superstates is not modelled.
  Apart from the inclusion rule, nothing is claimed about these internals.
- `ParameterConversion` is not part of this model. `TriggerSignatures.Compatible` stands in for `ParameterConversion.Validate`: same number of arguments, and each argument's type tag equals the declared one. Conversions between related .NET types are not modelled.
- The bodies of entry and exit actions, guards and unhandled-trigger delegates are not modelled, and neither are exceptions they throw. The trace records only which delegates are called, by number. A guard is the value it returns, fixed when it is configured.
- The library does not roll back a fire when an exit or entry action throws: an entry action that throws after the write of the new state (src/Stateless/StateMachine.cs:224-225) leaves the new state in place. Such exceptions are not modelled, so `FailureKeepsState` covers only the failures the library raises itself.
- `PermitDynamic` selectors are pure functions of the fired arguments.
- An accessor/mutator pair is modelled as one shared cell, so a mutator always writes what the accessor reads back. Pairs that do not read back what they write are not modelled.
- The superstate chain follows at most as many links as there are representations, so a cyclic chain is cut off instead of looping.
- The error for a trigger with more than one permitted behaviour is not modelled; the first behaviour whose guard holds wins.
- `Guid.NewGuid` is modelled by allocating a new `Token`; only that two identities differ is claimed.
- `ToString` (src/Stateless/StateMachine.cs:266-272) and the resource strings of exception messages are not modelled; an exception is its kind.
- `ICloneable.Clone` (src/Stateless/StateMachine.cs:348-351 and Stateless/TriggerWithParameters.cs:59-62) only forwards to `Clone`, so it has no separate member.
- Stateless/SequentialActionQueue.cs and its concurrency are not modelled. The machine is treated as used by one thread at a time.
