/** Trigger signatures: a trigger value together with the argument types it
    must be fired with (the nested `TriggerWithParameters` classes).

    A signature is immutable, so it is a datatype. The .NET `Type` of an
    argument is a `TypeTag`, and a boxed argument is an `Argument` that carries
    the tag of its runtime type.
 */
module TriggerSignatures {
  import opened Outcomes

  /** The identity of a .NET type. */
  datatype TypeTag = TypeTag(name: string)

  /** A boxed argument passed to Fire: its runtime type and an opaque payload. */
  datatype Argument = Argument(tag: TypeTag, payload: int)

  /** A configured trigger: the underlying trigger value and the argument types
      expected when it is fired. */
  datatype TriggerWithParameters<T> = TriggerWithParameters(trigger: T, argumentTypes: seq<TypeTag>)

  /** Whether fired arguments fit the expected argument types: same number of
      arguments, and the argument in each position has that position's type.
      The conversion rules themselves live in ParameterConversion, which is not
      part of this model; this positional rule stands in for them. */
  predicate Compatible(args: seq<Argument>, argumentTypes: seq<TypeTag>)
  {
    |args| == |argumentTypes| && forall i :: 0 <= i < |args| ==> args[i].tag == argumentTypes[i]
  }

  /** The base constructor. `argumentTypes` is the caller's array as it is at
      the moment of the call (`None` for a null array); the signature keeps
      these contents as a value, so a later write to the caller's array cannot
      reach it. */
  function Create<T>(trigger: T, argumentTypes: Option<seq<TypeTag>>): (r: Result<TriggerWithParameters<T>>)
    ensures argumentTypes.None? <==> r == Raises(ArgumentNull)
    ensures argumentTypes.Some? ==> r == Returns(TriggerWithParameters(trigger, argumentTypes.value))
    ensures r.Returns? ==> r.value.trigger == trigger && r.value.argumentTypes == argumentTypes.value
  {
    match argumentTypes
    case None => Raises(ArgumentNull)
    case Some(types) => Returns(TriggerWithParameters(trigger, types))
  }

  /** `TriggerWithParameters<TArg0>`: the base constructor with one type. */
  function WithOneParameter<T>(trigger: T, arg0: TypeTag): (r: TriggerWithParameters<T>)
    ensures Create(trigger, Some([arg0])) == Returns(r)
    ensures r.trigger == trigger && |r.argumentTypes| == 1 && r.argumentTypes[0] == arg0
  {
    Create(trigger, Some([arg0])).value
  }

  /** `TriggerWithParameters<TArg0, TArg1>`: two types, in declaration order. */
  function WithTwoParameters<T>(trigger: T, arg0: TypeTag, arg1: TypeTag): (r: TriggerWithParameters<T>)
    ensures Create(trigger, Some([arg0, arg1])) == Returns(r)
    ensures r.trigger == trigger && |r.argumentTypes| == 2
    ensures r.argumentTypes[0] == arg0 && r.argumentTypes[1] == arg1
  {
    Create(trigger, Some([arg0, arg1])).value
  }

  /** `TriggerWithParameters<TArg0, TArg1, TArg2>`: three types, in declaration order. */
  function WithThreeParameters<T>(trigger: T, arg0: TypeTag, arg1: TypeTag, arg2: TypeTag): (r: TriggerWithParameters<T>)
    ensures Create(trigger, Some([arg0, arg1, arg2])) == Returns(r)
    ensures r.trigger == trigger && |r.argumentTypes| == 3
    ensures r.argumentTypes[0] == arg0 && r.argumentTypes[1] == arg1 && r.argumentTypes[2] == arg2
  {
    Create(trigger, Some([arg0, arg1, arg2])).value
  }

  /** Checks fired arguments (`None` for a null array) against the signature.
      It changes nothing: the only effect is the outcome. */
  function ValidateParameters<T>(signature: TriggerWithParameters<T>, args: Option<seq<Argument>>): (r: Outcome)
    ensures r == Ok <==> args.Some? && Compatible(args.value, signature.argumentTypes)
    ensures r == Throws(ArgumentNull) <==> args.None?
    ensures r == Ok || r == Throws(ArgumentNull) || r == Throws(ArgumentMismatch)
  {
    match args
    case None => Throws(ArgumentNull)
    case Some(values) => if Compatible(values, signature.argumentTypes) then Ok else Throws(ArgumentMismatch)
  }

  /** Cloning a signature yields the very same (immutable, non-null) signature,
      so a cloned state machine shares its signatures with the original. */
  function Clone<T>(signature: TriggerWithParameters<T>): (r: TriggerWithParameters<T>)
    ensures r == signature
  {
    signature
  }

  /** A signature built from a caller's array keeps the array's contents at
      construction time, whatever the caller writes to the array afterwards. */
  method ConstructThenOverwrite<T>(trigger: T, types: array<TypeTag>, i: nat, tag: TypeTag)
    returns (r: Result<TriggerWithParameters<T>>)
    requires i < types.Length
    modifies types
    ensures types[i] == tag
    ensures r == Returns(TriggerWithParameters(trigger, old(types[..])))
  {
    r := Create(trigger, Some(types[..]));
    types[i] := tag;
  }

  /** Fired arguments of the wrong number are rejected, whatever their types. */
  lemma WrongArityIsRejected<T>(signature: TriggerWithParameters<T>, args: seq<Argument>)
    requires |args| != |signature.argumentTypes|
    ensures ValidateParameters(signature, Some(args)) == Throws(ArgumentMismatch)
  {
  }

  /** An argument of the wrong type in any position is rejected. */
  lemma WrongTypeIsRejected<T>(signature: TriggerWithParameters<T>, args: seq<Argument>, i: nat)
    requires i < |args| && i < |signature.argumentTypes|
    requires args[i].tag != signature.argumentTypes[i]
    ensures ValidateParameters(signature, Some(args)) == Throws(ArgumentMismatch)
  {
  }

  /** Arguments carrying exactly the declared types, in order, are accepted. */
  lemma DeclaredTypesAreAccepted<T>(signature: TriggerWithParameters<T>, args: seq<Argument>)
    requires |args| == |signature.argumentTypes|
    requires forall i :: 0 <= i < |args| ==> args[i].tag == signature.argumentTypes[i]
    ensures ValidateParameters(signature, Some(args)) == Ok
  {
  }
}
