# Yoga selector parser, modelled in Dafny

Yoga lets a client ask for a shaped view of a server-side object graph.
The client sends a *selector* string that names the fields to return.
`SelectorParser` is the entry point that compiles that string:

- an absent (null) expression means "no selector";
- when explicit selectors are disabled, only alias references (strings
  starting with `$`) are accepted;
- an alias reference is replaced once by the text its `AliasSelectorResolver`
  gives, and that text goes to the dialect's `parse`;
- a parse result that is null or selects no field collapses to "no selector";
- the two-argument entry point wraps the result with a wildcard
  `MapSelector` into a `CompositeSelector`, or returns the `MapSelector`
  alone when there is no explicit selector.

Files:

- `wrappers.dfy`: `Option` (a Java reference that may be null) and
  `Result` (a call that may throw).
- `selectors.dfy`: what the two-argument entry point returns, either the
  bare `MapSelector` (`Map`) or a `CompositeSelector` (`Composite`), over
  abstract `FieldSelector` (type `F`) and `MapSelector` (type `M`); and
  `WithBaseline`, the choice between the two.
- `selector_parser.dfy`: the configuration and its setters, the reference
  function `Run` for `parseSelector(String)`, the lemmas about it, and the
  class `SelectorParser` whose methods are proved against `Run`.

The collaborators are function values, not code. They are the dialect's
`parse`, `FieldSelector.getAllPossibleFields(null)` and
`AliasSelectorResolver.resolveSelector`. `parse` is an instance method of
the parser, so it is given the parser's configuration as well as the text.
The entity configuration registry is an opaque value (type `R`).
`parse` and the resolver may throw a
`ParseSelectorException` (for instance for an unknown alias); that is a
`Failure`, and it passes through unchanged. Each run of the pipeline also
records the calls it makes into these collaborators (`Call`, `Outcome.calls`).
This is how "the resolver is not called", "parse is never reached" and
"resolved exactly once" are stated.

`parseSelector` checks emptiness only through `getAllPossibleFields(null)`
on the parsed selector. `SelectorParser` itself never reads the entity
configuration registry; only a dialect's `parse` can.

## Model

| member | source | states |
|---|---|---|
| Selectors.WithBaseline | yoga-core/src/main/java/org/skyscreamer/yoga/selector/parser/SelectorParser.java:64-76 | the result always carries the given MapSelector as its baseline (so it is never null for a non-null MapSelector), and carries the parsed selector exactly when there is one |
| Selectors.WithBaselineUnique | yoga-core/src/main/java/org/skyscreamer/yoga/selector/parser/SelectorParser.java:68-75 | these two facts determine the result: a Composite of both when there is a parsed selector, the bare MapSelector otherwise |
| SelectorParsing.Apply | yoga-core/src/main/java/org/skyscreamer/yoga/selector/parser/SelectorParser.java:78-91 | each setter sets its own configuration field to its argument and leaves the other two unchanged |
| SelectorParsing.OtherSettersKeepField | yoga-core/src/main/java/org/skyscreamer/yoga/selector/parser/SelectorParser.java:78-91 | any series of calls to the other setters leaves a configuration field as it was |
| SelectorParsing.LastSetterCallWins | yoga-core/src/main/java/org/skyscreamer/yoga/selector/parser/SelectorParser.java:78-91 | after any series of setter calls, each field holds the argument of the last call to its own setter |
| SelectorParsing.NullExpressionYieldsNoSelector | yoga-core/src/main/java/org/skyscreamer/yoga/selector/parser/SelectorParser.java:37-40 | a null expression yields no selector, throws nothing, and calls neither the resolver nor parse |
| SelectorParsing.ExplicitSelectorRejectedWhenDisabled | yoga-core/src/main/java/org/skyscreamer/yoga/selector/parser/SelectorParser.java:42-45 | with explicit selectors disabled, an expression not starting with $ throws "Explicit selectors have been disabled" before any collaborator is called |
| SelectorParsing.AliasUnaffectedByPolicy | yoga-core/src/main/java/org/skyscreamer/yoga/selector/parser/SelectorParser.java:42-50 | for an expression starting with $, the outcome and the calls are the same whether explicit selectors are disabled or not, whenever parse agrees under both flag values |
| SelectorParsing.AliasResolvedExactlyOnce | yoga-core/src/main/java/org/skyscreamer/yoga/selector/parser/SelectorParser.java:47-52 | an expression starting with $ is resolved first and only once; the resolved text goes to parse as is, with no second prefix or policy check; a resolver exception ends the run |
| SelectorParsing.AliasExpandsToResolvedText | yoga-core/src/main/java/org/skyscreamer/yoga/selector/parser/SelectorParser.java:47-52 | an alias gives the same result as its resolved text given as a literal with explicit selectors allowed, when that text does not start with $ and parse agrees under both flag values |
| SelectorParsing.LiteralParsedUnchanged | yoga-core/src/main/java/org/skyscreamer/yoga/selector/parser/SelectorParser.java:47-52 | an allowed expression not starting with $ goes to parse unchanged and the resolver is never called |
| SelectorParsing.ParseReachedAtMostOnce | yoga-core/src/main/java/org/skyscreamer/yoga/selector/parser/SelectorParser.java:52 | parse is called at most once per run |
| SelectorParsing.OutcomeDecidedByParse | yoga-core/src/main/java/org/skyscreamer/yoga/selector/parser/SelectorParser.java:52-61 | once parse has had a text, the result is its selector exactly when that is non-null with a non-empty field set, no selector exactly when it is null or empty, and its exception when it throws |
| SelectorParsing.SelectorComesFromParse | yoga-core/src/main/java/org/skyscreamer/yoga/selector/parser/SelectorParser.java:54-57 | every selector returned is one that parse returned for the text it was given, and it has a non-empty field set |
| SelectorParsing.RegistryReachesOnlyParse | yoga-core/src/main/java/org/skyscreamer/yoga/selector/parser/SelectorParser.java:35-62 | this class never reads the registry: two registries on which parse agrees give the same result and the same calls |
| SelectorParsing.SelectorParser.constructor | yoga-core/src/main/java/org/skyscreamer/yoga/selector/parser/SelectorParser.java:25-28 | a new parser has no resolver, explicit selectors enabled and the default registry |
| SelectorParsing.SelectorParser.ParseSelector | yoga-core/src/main/java/org/skyscreamer/yoga/selector/parser/SelectorParser.java:35-62 | the result and the collaborator calls are those of the reference function Run under the parser's current configuration |
| SelectorParsing.SelectorParser.ParseSelectorWithBaseline | yoga-core/src/main/java/org/skyscreamer/yoga/selector/parser/SelectorParser.java:64-76 | an exception from the one-argument call passes through; otherwise the result is WithBaseline of the MapSelector and the one-argument result, so it is never null for a non-null MapSelector |
| SelectorParsing.SelectorParser.SetAliasSelectorResolver | yoga-core/src/main/java/org/skyscreamer/yoga/selector/parser/SelectorParser.java:78-81 | replaces the resolver (possibly by null) and nothing else |
| SelectorParsing.SelectorParser.SetDisableExplicitSelectors | yoga-core/src/main/java/org/skyscreamer/yoga/selector/parser/SelectorParser.java:83-86 | replaces the explicit-selector flag and nothing else |
| SelectorParsing.SelectorParser.SetEntityConfigurationRegistry | yoga-core/src/main/java/org/skyscreamer/yoga/selector/parser/SelectorParser.java:88-91 | replaces the registry and nothing else |
| SelectorParsing.AliasOnlyClient | yoga-core/src/main/java/org/skyscreamer/yoga/selector/parser/SelectorParser.java:42-52 | with explicit selectors disabled and "$summary" resolving to "id,name", the literal "name,href" is refused and "$summary" yields the selector parsed from "id,name" |

## Left out

- The concrete selector grammar behind the abstract `parse`: it is not part of this model, so `parse` is any function from text to a selector, null or an exception.
- `getSelectorJavascriptURL` and `getSelectorType`: abstract metadata accessors with no behaviour here.
- The internals of `FieldSelector`, `MapSelector`, `CompositeSelector`, `AliasSelectorResolver` and `DefaultEntityConfigurationRegistry`: these classes are not part of this model. Selectors and the registry are type parameters; the default registry is a value passed to the constructor.
- The constants `HREF` and `DEFINITION`: declared but not used by the modelled code.
- An alias expression with no resolver set: in Java a NullPointerException. The model excludes it with the precondition `ResolverReady` rather than modelling the exception.
- A resolver that returns null: the model's resolver returns a text or throws.
- Java's RuntimeExceptions from `parse` and the resolver other than `ParseSelectorException`: a `Failure` stands for any exception they throw, and all of them propagate unchanged.
- Failures of `getAllPossibleFields(null)`: it is modelled as a total function returning a set, so an exception it throws, or a null set that would make `isEmpty()` throw a NullPointerException, is not represented.
- A null `MapSelector` argument: Dafny values are never null, so the model does not capture that Java's two-argument `parseSelector` returns null when it is given a null `MapSelector` and there is no parsed selector.
- Object identity: `parseSelector(String, MapSelector)` returns the same `MapSelector` object; the model returns an equal value.
- The demo HTTP test client `TestUtil`: network plumbing, not part of the selector compiler.
