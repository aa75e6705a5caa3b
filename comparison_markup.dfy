/**
 * A markup extension that yields a condition converter: an object which,
 * once a comparison has produced a boolean, returns the value associated
 * with that boolean (`IfTrue` or `IfFalse`).
 *
 * The host's type-conversion service and the concrete extension's converter
 * factory are collaborators whose code is not part of this model; both are
 * injected as functions.
 */
module ComparisonMarkup {
  import opened Wrappers

  /** A runtime type, as far as the extension needs to tell types apart. */
  datatype TypeDesc =
    | BoolType              // typeof(bool)
    | ObjectType            // typeof(object)
    | Named(name: string)   // any other type (an enum, int, string, ...); never bool or object,
                            // which have exactly one descriptor each, as `typeof` gives one Type each

  /** An object value; `null` is `None` of an `Option<Value>`. */
  datatype Value =
    | BoolValue(b: bool)
    | Text(s: string)                          // a raw string, as written in markup
    | Number(n: int)
    | Instance(typeName: string, id: nat)      // any other object

  /** Exceptions that may escape from `ProvideValue`. */
  datatype Error =
    | UnsupportedType(target: TypeDesc)                       // no converter for the type
    | ValueConversion(value: Option<Value>, target: TypeDesc)  // ConvertFrom refused a value
    | InvalidImplementation(typeName: string)                 // the factory broke its contract
    | NullReference                                           // the factory returned null

  /** `TypeConverter.ConvertFrom`: turns a raw value into the target type; it may throw. */
  type ConvertFrom = Option<Value> -> Result<Option<Value>, Error>

  /** `TypeDescriptor.GetConverter`: the host's converter lookup for a type. */
  type GetConverter = TypeDesc -> Result<ConvertFrom, Error>

  /**
   * What `CreateConditionConverter` hands back: an `IConditionConverter<T>`
   * with result type `T`, some other object, known by the name of its
   * runtime type, or null.
   */
  datatype Created =
    | Conforming(resultType: TypeDesc)
    | NonConforming(typeName: string)
    | Null

  /** The abstract `CreateConditionConverter(Type)` that a concrete extension implements. */
  type Factory = TypeDesc -> Created

  /** The two values that end up on the converter. */
  datatype Pair = Pair(ifTrue: Option<Value>, ifFalse: Option<Value>)

  /** A fully built converter, as a value: its result type and its two values. */
  datatype Built = Built(resultType: TypeDesc, values: Pair)

  const TrueValue: Option<Value> := Some(BoolValue(true))
  const FalseValue: Option<Value> := Some(BoolValue(false))

  /** Looking up the converter for `t` and converting `v` with it, as one step. */
  function Converted(getConverter: GetConverter, t: TypeDesc, v: Option<Value>): Result<Option<Value>, Error> {
    match getConverter(t)
    case Failure(e) => Failure(e)
    case Success(convertFrom) => convertFrom(v)
  }

  /**
   * The optional coercion: without a type both raw values pass through;
   * with one, the converter is looked up once and applied to `IfTrue`, then
   * to `IfFalse` (null included). The first exception escapes.
   */
  function Coerce(type_: Option<TypeDesc>, ifTrue: Option<Value>, ifFalse: Option<Value>, getConverter: GetConverter): Result<Pair, Error> {
    match type_
    case None => Success(Pair(ifTrue, ifFalse))
    case Some(t) =>
      match getConverter(t)
      case Failure(e) => Failure(e)
      case Success(convertFrom) =>
        match convertFrom(ifTrue)
        case Failure(e) => Failure(e)
        case Success(coercedTrue) =>
          match convertFrom(ifFalse)
          case Failure(e) => Failure(e)
          case Success(coercedFalse) => Success(Pair(coercedTrue, coercedFalse))
  }

  /**
   * The case in which the converter mirrors the boolean: no type, or the
   * type `bool`, and neither raw value given. It looks at the properties as
   * set, not at their coerced forms.
   */
  predicate IsBoolDefaultCase(type_: Option<TypeDesc>, ifTrue: Option<Value>, ifFalse: Option<Value>) {
    (type_.None? || type_ == Some(BoolType)) && ifTrue.None? && ifFalse.None?
  }

  /** The argument handed to the factory: `Type ?? typeof(object)`. */
  function FactoryArgument(type_: Option<TypeDesc>): TypeDesc {
    type_.GetOr(ObjectType)
  }

  /**
   * The values `ProvideValue` installs on the converter, from the three
   * properties: coercion first, then the overwrite with `true`/`false`.
   */
  function ResolveValues(type_: Option<TypeDesc>, ifTrue: Option<Value>, ifFalse: Option<Value>, getConverter: GetConverter): (r: Result<Pair, Error>)
    // No type and nothing given: the converter yields the boolean itself.
    ensures type_.None? && ifTrue.None? && ifFalse.None? ==>
      r == Success(Pair(TrueValue, FalseValue))
    // No type and at least one value given: both raw values, uncoerced.
    ensures type_.None? && (ifTrue.Some? || ifFalse.Some?) ==>
      r == Success(Pair(ifTrue, ifFalse))
    // No type: nothing can go wrong, and the converter never holds two nulls.
    ensures type_.None? ==> r.Success? && (r.value.ifTrue.Some? || r.value.ifFalse.Some?)
    // A type: success exactly when both conversions (lookup included) succeed.
    ensures type_.Some? ==>
      (r.Success? <==> Converted(getConverter, type_.value, ifTrue).Success?
                       && Converted(getConverter, type_.value, ifFalse).Success?)
    // The first failure, in source order, is the one that escapes.
    ensures type_.Some? && Converted(getConverter, type_.value, ifTrue).Failure? ==>
      r == Failure(Converted(getConverter, type_.value, ifTrue).error)
    ensures type_.Some? && Converted(getConverter, type_.value, ifTrue).Success?
                        && Converted(getConverter, type_.value, ifFalse).Failure? ==>
      r == Failure(Converted(getConverter, type_.value, ifFalse).error)
    // A type, outside the bool default: each value is the conversion of its raw value, null included.
    ensures type_.Some? && r.Success? && !IsBoolDefaultCase(type_, ifTrue, ifFalse) ==>
      r.value == Pair(Converted(getConverter, type_.value, ifTrue).value,
                      Converted(getConverter, type_.value, ifFalse).value)
    // Type bool, nothing given: whatever the conversions of null returned is replaced by true/false.
    ensures type_ == Some(BoolType) && ifTrue.None? && ifFalse.None? && r.Success? ==>
      r.value == Pair(TrueValue, FalseValue)
  {
    match Coerce(type_, ifTrue, ifFalse, getConverter)
    case Failure(e) => Failure(e)
    case Success(coerced) =>
      if IsBoolDefaultCase(type_, ifTrue, ifFalse) then Success(Pair(TrueValue, FalseValue))
      else Success(coerced)
  }

  /**
   * The whole of `ProvideValue` as a value: resolve the two values, ask the
   * factory for a converter of `Type ?? object`, fail on null, reject
   * anything that is not an `IConditionConverter<>`, and install the values.
   * The converter's type argument is not compared with `Type ?? object`:
   * only the generic definition is tested.
   */
  function Provide(type_: Option<TypeDesc>, ifTrue: Option<Value>, ifFalse: Option<Value>,
                   getConverter: GetConverter, create: Factory): (r: Result<Built, Error>)
    // A failed coercion escapes unchanged: the factory's answer plays no part.
    ensures ResolveValues(type_, ifTrue, ifFalse, getConverter).Failure? ==>
      r == Failure(ResolveValues(type_, ifTrue, ifFalse, getConverter).error)
    // A null factory result fails when its runtime type is asked for.
    ensures ResolveValues(type_, ifTrue, ifFalse, getConverter).Success?
            && create(FactoryArgument(type_)).Null? ==>
      r == Failure(NullReference)
    // A non-conforming factory result is rejected, naming its type.
    ensures ResolveValues(type_, ifTrue, ifFalse, getConverter).Success?
            && create(FactoryArgument(type_)).NonConforming? ==>
      r == Failure(InvalidImplementation(create(FactoryArgument(type_)).typeName))
    // A converter comes back exactly when resolution succeeds and the factory conforms.
    ensures r.Success? <==> ResolveValues(type_, ifTrue, ifFalse, getConverter).Success?
                            && create(FactoryArgument(type_)).Conforming?
    // It is the one the factory made for `Type ?? object`, carrying the resolved values.
    ensures r.Success? ==>
      r.value.resultType == create(type_.GetOr(ObjectType)).resultType
      && r.value.values == ResolveValues(type_, ifTrue, ifFalse, getConverter).value
  {
    match ResolveValues(type_, ifTrue, ifFalse, getConverter)
    case Failure(e) => Failure(e)
    case Success(values) =>
      match create(FactoryArgument(type_))
      case Null => Failure(NullReference)
      case NonConforming(typeName) => Failure(InvalidImplementation(typeName))
      case Conforming(resultType) => Success(Built(resultType, values))
  }

  /**
   * Without a type, the pairs a converter can be given are exactly those
   * that are not two nulls: every other pair is reached by setting it
   * directly, and two nulls always turn into true/false.
   */
  lemma {:induction false} UntypedRange(p: Pair, getConverter: GetConverter)
    ensures (exists ifTrue, ifFalse :: ResolveValues(None, ifTrue, ifFalse, getConverter) == Success(p))
            <==> (p.ifTrue.Some? || p.ifFalse.Some?)
  {
    if p.ifTrue.Some? || p.ifFalse.Some? {
      assert ResolveValues(None, p.ifTrue, p.ifFalse, getConverter) == Success(p);
    }
  }

  /** An `IConditionConverter<T>`: two settable values read when the condition is evaluated. */
  class ConditionConverter {
    const ResultType: TypeDesc
    var IfTrue: Option<Value>
    var IfFalse: Option<Value>

    constructor (resultType: TypeDesc)
      ensures ResultType == resultType && IfTrue.None? && IfFalse.None?
    {
      ResultType := resultType;
      IfTrue := None;
      IfFalse := None;
    }
  }

  /**
   * The markup extension. `Type`, `IfTrue` and `IfFalse` are the settable
   * properties; `CreateConditionConverter` is the factory the concrete
   * extension supplies.
   */
  class ComparisonExtension {
    var Type: Option<TypeDesc>
    var IfTrue: Option<Value>
    var IfFalse: Option<Value>
    const CreateConditionConverter: Factory

    constructor (createConditionConverter: Factory)
      ensures Type.None? && IfTrue.None? && IfFalse.None?
      ensures CreateConditionConverter == createConditionConverter
    {
      Type := None;
      IfTrue := None;
      IfFalse := None;
      CreateConditionConverter := createConditionConverter;
    }

    /**
     * Builds the converter. The target object and property are ignored;
     * the extension itself is left unchanged (no modifies clause), and the
     * result is a freshly allocated converter or the exception.
     */
    method ProvideValue(targetObject: object?, targetProperty: object?, getConverter: GetConverter)
      returns (r: Result<ConditionConverter, Error>)
      ensures var expected := Provide(Type, IfTrue, IfFalse, getConverter, CreateConditionConverter);
        && (r.Success? <==> expected.Success?)
        && (r.Failure? ==> r.error == expected.error)
        && (r.Success? ==>
              && fresh(r.value)
              && r.value.ResultType == expected.value.resultType
              && r.value.IfTrue == expected.value.values.ifTrue
              && r.value.IfFalse == expected.value.values.ifFalse)
    {
      var values :- ResolveValues(Type, IfTrue, IfFalse, getConverter);
      var created := CreateConditionConverter(FactoryArgument(Type));
      if created.Null? {
        return Failure(NullReference);
      }
      if created.NonConforming? {
        return Failure(InvalidImplementation(created.typeName));
      }
      var converter := new ConditionConverter(created.resultType);
      converter.IfTrue := values.ifTrue;
      converter.IfFalse := values.ifFalse;
      return Success(converter);
    }
  }

  /**
   * Two extensions with equal properties and the same factory, under the
   * same host, agree: both fail with the same exception, or both return
   * converters with the same result type and equal values (in this model
   * always two distinct objects, since each call allocates its own).
   */
  method ProvideValueTwice(extension: ComparisonExtension, other: ComparisonExtension, getConverter: GetConverter)
    returns (first: Result<ConditionConverter, Error>, second: Result<ConditionConverter, Error>)
    requires extension.Type == other.Type
    requires extension.IfTrue == other.IfTrue && extension.IfFalse == other.IfFalse
    requires extension.CreateConditionConverter == other.CreateConditionConverter
    ensures first.Success? <==> second.Success?
    ensures first.Failure? ==> second.Failure? && first.error == second.error
    ensures first.Success? ==>
      && first.value != second.value
      && first.value.ResultType == second.value.ResultType
      && first.value.IfTrue == second.value.IfTrue
      && first.value.IfFalse == second.value.IfFalse
  {
    first := extension.ProvideValue(null, null, getConverter);
    second := other.ProvideValue(null, null, getConverter);
  }
}
