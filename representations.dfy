/** State representations: what the machine knows about one state.

    StateRepresentation, TriggerBehaviour and StateConfiguration are not part
    of this model. This module gives them the smallest value form the machine
    needs: a representation holds its behaviours, an optional superstate and
    its entry and exit action lists. The lookup functions below (handler
    search, inclusion, permitted triggers, where a behaviour leads) are
    stand-ins with plain definitions; nothing is claimed about them except the
    inclusion rule that the machine's own documentation promises.
 */
module Representations {
  import opened Outcomes
  import opened TriggerSignatures

  /** An entry or exit action (a delegate) by its identity; its body is not modelled. */
  type ActionId = nat

  /** Where a behaviour leads. */
  datatype Effect<S> =
    | To(destination: S)                  // Permit, PermitIf
    | Reentry                             // PermitReentry: back to the source state
    | Dynamic(select: seq<Argument> -> S) // PermitDynamic: computed from the fired arguments
    | Ignored                             // Ignore: accepted, no transition

  /** A trigger behaviour; `guard` is the value its guard delegate returns. */
  datatype Behaviour<S, T> = Behaviour(trigger: T, guard: bool, effect: Effect<S>)

  /** The representation of the state `underlying`. */
  datatype Rep<S, T> = Rep(
    underlying: S,
    behaviours: seq<Behaviour<S, T>>,
    superstate: Option<S>,
    entryActions: seq<ActionId>,
    exitActions: seq<ActionId>)

  /** A freshly created representation: nothing configured. */
  function Empty<S, T>(s: S): Rep<S, T>
  {
    Rep(s, [], None, [], [])
  }

  /** Copying a representation when a machine is cloned. A representation is a
      value here, so the copy is equal to it and shares no storage with it. */
  function CloneRepresentation<S, T>(rep: Rep<S, T>): (r: Rep<S, T>)
    ensures r == rep
  {
    rep
  }

  /** One call on a StateConfiguration builder, as it changes the representation. */
  datatype Edit<S, T> =
    | Permit(trigger: T, destination: S)
    | PermitIf(trigger: T, destination: S, guard: bool)
    | PermitReentry(trigger: T)
    | PermitDynamic(trigger: T, select: seq<Argument> -> S)
    | Ignore(trigger: T)
    | OnEntry(action: ActionId)
    | OnExit(action: ActionId)
    | SubstateOf(superstate: S)

  function Apply<S, T>(rep: Rep<S, T>, edit: Edit<S, T>): Rep<S, T>
  {
    match edit
    case Permit(t, d) => rep.(behaviours := rep.behaviours + [Behaviour(t, true, To(d))])
    case PermitIf(t, d, g) => rep.(behaviours := rep.behaviours + [Behaviour(t, g, To(d))])
    case PermitReentry(t) => rep.(behaviours := rep.behaviours + [Behaviour(t, true, Reentry)])
    case PermitDynamic(t, f) => rep.(behaviours := rep.behaviours + [Behaviour(t, true, Dynamic(f))])
    case Ignore(t) => rep.(behaviours := rep.behaviours + [Behaviour(t, true, Ignored)])
    case OnEntry(a) => rep.(entryActions := rep.entryActions + [a])
    case OnExit(a) => rep.(exitActions := rep.exitActions + [a])
    case SubstateOf(p) => rep.(superstate := Some(p))
  }

  /** The superstate chain of `s`: `s`, its superstate, that one's superstate,
      and so on, following at most `fuel` links. */
  function Lineage<S, T>(reps: map<S, Rep<S, T>>, s: S, fuel: nat): seq<S>
    decreases fuel
  {
    if fuel > 0 && s in reps && reps[s].superstate.Some?
    then [s] + Lineage(reps, reps[s].superstate.value, fuel - 1)
    else [s]
  }

  /** The whole superstate chain: an acyclic chain never has more links than
      there are representations. */
  function Chain<S, T>(reps: map<S, Rep<S, T>>, s: S): seq<S>
  {
    Lineage(reps, s, |reps|)
  }

  /** `IsIncludedIn`: `x` is `s` or one of its superstates. */
  predicate IsIncludedIn<S(==), T>(reps: map<S, Rep<S, T>>, s: S, x: S)
  {
    x in Chain(reps, s)
  }

  /** The first behaviour for `t` in `behaviours` whose guard holds. */
  function LocalHandler<S, T(==)>(behaviours: seq<Behaviour<S, T>>, t: T): Option<Behaviour<S, T>>
  {
    if behaviours == [] then None
    else if behaviours[0].trigger == t && behaviours[0].guard then Some(behaviours[0])
    else LocalHandler(behaviours[1..], t)
  }

  /** The first handler along a chain of states. */
  function HandlerAlong<S(==), T(==)>(reps: map<S, Rep<S, T>>, chain: seq<S>, t: T): Option<Behaviour<S, T>>
  {
    if chain == [] then None
    else
      var local := if chain[0] in reps then LocalHandler(reps[chain[0]].behaviours, t) else None;
      if local.Some? then local else HandlerAlong(reps, chain[1..], t)
  }

  /** `TryFindHandler`: a handler of the state itself, else of its superstates. */
  function TryFindHandler<S(==), T(==)>(reps: map<S, Rep<S, T>>, s: S, t: T): Option<Behaviour<S, T>>
  {
    HandlerAlong(reps, Chain(reps, s), t)
  }

  /** `CanHandle`: some handler is found. */
  predicate CanHandle<S(==), T(==)>(reps: map<S, Rep<S, T>>, s: S, t: T)
  {
    TryFindHandler(reps, s, t).Some?
  }

  /** Triggers with a behaviour whose guard holds. */
  function LocalPermitted<S, T>(behaviours: seq<Behaviour<S, T>>): set<T>
  {
    if behaviours == [] then {}
    else (if behaviours[0].guard then {behaviours[0].trigger} else {}) + LocalPermitted(behaviours[1..])
  }

  function PermittedAlong<S(==), T>(reps: map<S, Rep<S, T>>, chain: seq<S>): set<T>
  {
    if chain == [] then {}
    else (if chain[0] in reps then LocalPermitted(reps[chain[0]].behaviours) else {}) + PermittedAlong(reps, chain[1..])
  }

  /** `PermittedTriggers`: the permitted triggers of the state and of its superstates. */
  function PermittedTriggers<S(==), T>(reps: map<S, Rep<S, T>>, s: S): set<T>
  {
    PermittedAlong(reps, Chain(reps, s))
  }

  /** `ResultsInTransitionFrom`: the destination, or `None` when the behaviour
      does not transition. */
  function ResultsInTransitionFrom<S, T>(behaviour: Behaviour<S, T>, source: S, args: seq<Argument>): Option<S>
  {
    match behaviour.effect
    case To(d) => Some(d)
    case Reentry => Some(source)
    case Dynamic(f) => Some(f(args))
    case Ignored => None
  }

  /** The chain starts at the state itself and each further element is the
      superstate of the one before it. */
  lemma {:induction false} LineageFollowsSuperstates<S, T>(reps: map<S, Rep<S, T>>, s: S, fuel: nat, i: nat)
    requires i + 1 < |Lineage(reps, s, fuel)|
    ensures Lineage(reps, s, fuel)[0] == s
    ensures var chain := Lineage(reps, s, fuel);
      chain[i] in reps && reps[chain[i]].superstate == Some(chain[i + 1])
    decreases fuel
  {
    var p := reps[s].superstate.value;
    if i > 0 {
      LineageFollowsSuperstates(reps, p, fuel - 1, i - 1);
    }
  }

  /** The documented inclusion rule: a state is included in itself ... */
  lemma IncludedInItself<S, T>(reps: map<S, Rep<S, T>>, s: S)
    ensures IsIncludedIn(reps, s, s)
  {
  }

  /** ... and in its superstate ... */
  lemma IncludedInSuperstate<S, T>(reps: map<S, Rep<S, T>>, s: S, p: S)
    requires s in reps && reps[s].superstate == Some(p)
    ensures IsIncludedIn(reps, s, p)
  {
    assert reps != map[];
    var rest := Lineage(reps, p, |reps| - 1);
    assert Chain(reps, s) == [s] + rest;
    assert rest[0] == p;
  }

  /** ... and, up the chain, in every state `x` that is reached from `s` by
      following superstate links: every element of the chain other than `s`
      is the superstate of an element before it, so that membership is
      exactly "equal to, or a substate of". */
  lemma {:induction false} IncludedOnlyAlongSuperstates<S, T>(reps: map<S, Rep<S, T>>, s: S, x: S)
    requires IsIncludedIn(reps, s, x)
    ensures x == s ||
            exists i :: 0 <= i < |Chain(reps, s)| - 1 && Chain(reps, s)[i + 1] == x &&
                        Chain(reps, s)[i] in reps && reps[Chain(reps, s)[i]].superstate == Some(x)
  {
    var chain := Chain(reps, s);
    var k :| 0 <= k < |chain| && chain[k] == x;
    if k > 0 {
      LineageFollowsSuperstates(reps, s, |reps|, k - 1);
    }
  }

  /** The chain ends at a root: its last state has no superstate. A chain
      without a cycle always does; a cyclic one is cut off by the fuel and
      does not. */
  predicate EndsAtRoot<S(==), T>(reps: map<S, Rep<S, T>>, chain: seq<S>)
  {
    |chain| > 0 && (chain[|chain| - 1] !in reps || reps[chain[|chain| - 1]].superstate.None?)
  }

  /** From its `i`-th element on, a chain is the chain of that element with
      the fuel that is left. */
  lemma {:induction false} LineageSuffix<S, T>(reps: map<S, Rep<S, T>>, s: S, fuel: nat, i: nat)
    requires i < |Lineage(reps, s, fuel)|
    ensures i <= fuel
    ensures Lineage(reps, s, fuel)[i..] == Lineage(reps, Lineage(reps, s, fuel)[i], fuel - i)
    decreases fuel
  {
    if i > 0 {
      var p := reps[s].superstate.value;
      LineageSuffix(reps, p, fuel - 1, i - 1);
      assert Lineage(reps, s, fuel)[i..] == Lineage(reps, p, fuel - 1)[i - 1..];
    }
  }

  /** A chain that ends at a root stays the same with more fuel. */
  lemma {:induction false} RootedLineageIsStable<S, T>(reps: map<S, Rep<S, T>>, s: S, fuel: nat, more: nat)
    requires fuel <= more && EndsAtRoot(reps, Lineage(reps, s, fuel))
    ensures Lineage(reps, s, more) == Lineage(reps, s, fuel)
    decreases fuel
  {
    if s in reps && reps[s].superstate.Some? {
      var p := reps[s].superstate.value;
      var rest := Lineage(reps, p, fuel - 1);
      assert Lineage(reps, s, fuel) == [s] + rest;
      assert rest[|rest| - 1] == Lineage(reps, s, fuel)[|Lineage(reps, s, fuel)| - 1];
      RootedLineageIsStable(reps, p, fuel - 1, more - 1);
    }
  }

  /** Inclusion is transitive along a chain without a cycle: a state is
      included in whatever its superstates, at any depth, are included in. */
  lemma {:induction false} IncludedTransitively<S, T>(reps: map<S, Rep<S, T>>, s: S, y: S, x: S)
    requires EndsAtRoot(reps, Chain(reps, s))
    requires IsIncludedIn(reps, s, y) && IsIncludedIn(reps, y, x)
    ensures IsIncludedIn(reps, s, x)
  {
    var chain := Chain(reps, s);
    var i :| 0 <= i < |chain| && chain[i] == y;
    LineageSuffix(reps, s, |reps|, i);
    var tail := Lineage(reps, y, |reps| - i);
    assert chain[i..] == tail;
    assert tail[|tail| - 1] == chain[|chain| - 1];
    RootedLineageIsStable(reps, y, |reps| - i, |reps|);
    var k :| 0 <= k < |tail| && tail[k] == x;
    assert chain[i + k] == x;
  }

  /** The documented rule one level at a time: a state whose chain has no
      cycle is included in everything its superstate is included in. */
  lemma IncludedThroughSuperstate<S, T>(reps: map<S, Rep<S, T>>, s: S, p: S, x: S)
    requires s in reps && reps[s].superstate == Some(p)
    requires EndsAtRoot(reps, Chain(reps, s))
    requires IsIncludedIn(reps, p, x)
    ensures IsIncludedIn(reps, s, x)
  {
    IncludedInSuperstate(reps, s, p);
    IncludedTransitively(reps, s, p, x);
  }

  /** A state with no superstate is included in nothing but itself. */
  lemma RootIncludedOnlyInItself<S, T>(reps: map<S, Rep<S, T>>, s: S, x: S)
    requires s !in reps || reps[s].superstate.None?
    requires x != s
    ensures !IsIncludedIn(reps, s, x)
  {
  }
}
