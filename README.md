# Comparison markup extension: conditional value resolver

This project models `AbstractComparisonMarkupExtension`, the markup extension
of Whathecode's presentation framework that hands a UI binding a *condition
converter*: an `IConditionConverter<T>` holding two values, `IfTrue` and
`IfFalse`, one of which is later picked according to the outcome of a
comparison.

The extension has three settable properties: `Type`, `IfTrue` and `IfFalse`.
`ProvideValue` builds the converter from them in this order:

1. It starts from the raw `IfTrue`/`IfFalse`.
2. When `Type` is set, it looks up the host's type converter for that type.
   It then converts `IfTrue` and `IfFalse`, in that order. A null value is
   converted too.
3. When `Type` is unset or `bool`, and both raw properties are null, it
   replaces both values with `true`/`false`. This test reads the
   properties themselves, not their converted forms.
4. It asks the concrete extension's `CreateConditionConverter` for a
   converter of `Type`, or of `object` when `Type` is unset.
5. It throws `InvalidImplementationException` when the factory's object is
   not an `IConditionConverter<>`. The exception names that object's type.
   Only the generic definition is tested; the type argument is not compared
   with `Type ?? object`. A null factory result throws a null-reference
   exception when its runtime type is asked for.
6. Otherwise it sets the two values on the converter and returns it.

Files:

- `wrappers.dfy`: `Option` (a nullable reference) and `Result` (a value or a
  thrown exception).
- `comparison_markup.dfy`: module `ComparisonMarkup`.
  - Pure part: the steps as functions. `Coerce` is step 2. `IsBoolDefaultCase`
    is the test of step 3. `ResolveValues` covers steps 1-3. `FactoryArgument`
    is `Type ?? typeof(object)`. `Provide` is the whole operation as a value.
  - Imperative part: the class `ComparisonExtension` with the three
    properties, and the class `ConditionConverter` with mutable
    `IfTrue`/`IfFalse` fields. `ComparisonExtension.ProvideValue` allocates
    the converter and assigns its fields. It is proved against `Provide`.

Collaborators are injected, because their code is not part of this model:

- The host's `TypeDescriptor.GetConverter` is a function
  `GetConverter: TypeDesc -> Result<ConvertFrom, Error>`. `ConvertFrom` is
  a function `Option<Value> -> Result<Option<Value>, Error>`, so conversion
  may fail and may return null.
- The abstract `CreateConditionConverter(Type)` is a constant function of the
  extension, `Factory: TypeDesc -> Created`. `Created` is either
  `Conforming(resultType)`, an `IConditionConverter<resultType>`,
  `NonConforming(typeName)`, any other object, or `Null`. A Dafny function cannot
  allocate, so `ProvideValue` allocates the converter object that the
  factory describes.

The doc comments on `IfTrue` and `IfFalse` (lines 22 and 28) describe the
default per property: a null `IfTrue` means `true`. The code (line 48)
defaults only when *both* properties are null. The model follows the code:
with no `Type`, `IfTrue` null and `IfFalse` set, the converter holds null and
the given `IfFalse`. `UntypedRange` states the consequence: without a
`Type`, a converter can be given any pair of values except two nulls.

## Model

| member | source | states |
|---|---|---|
| `ComparisonMarkup.ResolveValues` | Whathecode.PresentationFramework/Windows/Data/AbstractComparisonMarkupExtension.cs:35-52 | No `Type` and both null gives `true`/`false`. No `Type` and a value given passes both raw values through, uncoerced; without `Type` nothing fails and two nulls never result. With `Type`, it succeeds exactly when converter lookup and both conversions succeed, and otherwise the first failure in source order escapes. With `Type`, outside the bool-default case, each value is the conversion of its raw value, null included. With `Type` bool and both null, successful conversions of null are overwritten by `true`/`false` |
| `ComparisonMarkup.Provide` | Whathecode.PresentationFramework/Windows/Data/AbstractComparisonMarkupExtension.cs:33-63 | A conversion failure escapes unchanged, and the factory's answer plays no part in it. A null factory result yields `NullReference`. A non-conforming factory result yields `InvalidImplementation` naming its type. A converter is returned exactly when resolution succeeds and the factory conforms. Its result type is the one named by the factory's answer for `Type ?? object` (not checked against that argument), and it carries the resolved values |
| `ComparisonMarkup.UntypedRange` | Whathecode.PresentationFramework/Windows/Data/AbstractComparisonMarkupExtension.cs:48-52 | Without a `Type`, some `IfTrue`/`IfFalse` setting yields a pair if and only if the pair is not two nulls |
| `ComparisonMarkup.ComparisonExtension.constructor` | Whathecode.PresentationFramework/Windows/Data/AbstractComparisonMarkupExtension.cs:18-30 | A new extension has `Type`, `IfTrue` and `IfFalse` unset (null) and uses the given factory |
| `ComparisonMarkup.ComparisonExtension.ProvideValue` | Whathecode.PresentationFramework/Windows/Data/AbstractComparisonMarkupExtension.cs:33-63 | It ignores both targets and leaves the extension unchanged. It fails exactly when `Provide` fails, with the same exception. Otherwise it returns a freshly allocated converter whose result type, `IfTrue` and `IfFalse` are those `Provide` computes |
| `ComparisonMarkup.ConditionConverter.constructor` | Whathecode.PresentationFramework/Windows/Data/AbstractComparisonMarkupExtension.cs:54 | The converter has the result type named by the factory's answer, and both values are null until `ProvideValue` sets them |
| `ComparisonMarkup.ProvideValueTwice` | Whathecode.PresentationFramework/Windows/Data/AbstractComparisonMarkupExtension.cs:33-63 | Two extensions with equal `Type`, `IfTrue`, `IfFalse` and factory, under the same host, agree. Either both throw the same exception, or both return converters with equal result types and equal values. That the two converters are distinct objects follows from this model allocating one per call, not from a promise of the source |

## Left out

- `AbstractMarkupExtension` (service provider, `IXamlTypeResolver`, `ResolveXamlType`) is framework plumbing. Here `ProvideValue` takes the target object and property directly and ignores them.
- How `TypeDescriptor.GetConverter` and `TypeConverter.ConvertFrom` behave (null included) belongs to the host. Both are injected, possibly failing, functions.
- `IsOfGenericType` reflection is replaced by the tag `Conforming`/`NonConforming`/`Null` on the factory's result; a null-reference exception is the `NullReference` error.
- `ComparisonMarkup.ComparisonExtension.ProvideValue`: `SetPropertyValue` is modelled as direct field assignment. Reflection fails when a value does not fit the converter's property type, and the model does not capture that failure.
- The factory is a pure function that describes the converter, and `ProvideValue` allocates it. Factory side effects, such as returning a shared instance, are not modelled.
- The number of factory calls is not stated in a contract. `ProvideValue` calls the factory once, or not at all when conversion fails.
- Evaluating the converter against a boolean happens in `IConditionConverter<T>` implementations, which are not part of this model. So are the concrete extensions that implement `CreateConditionConverter`.
- `WindowInfo` (OS window calls through User32 and process lookups) and `CommandBindingTrigger` (UI event wiring) are I/O adapters outside this core.
