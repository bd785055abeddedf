/**
 * The selector-compile pipeline of SelectorParser: a client's selector
 * expression (possibly absent, possibly an alias reference starting with "$")
 * becomes an explicit FieldSelector, "no selector", or an exception, and can
 * then be combined with a wildcard MapSelector.
 *
 * The collaborators the pipeline calls are function values: the dialect's
 * parse, FieldSelector.getAllPossibleFields(null), and the alias resolver.
 * Both parse and the resolver may throw; that is a Failure here. parse is an
 * instance method of the parser, so it is given the parser's configuration
 * as well as the text. The entity configuration registry is an opaque value
 * of type parameter R.
 */
module SelectorParsing {
  import opened Wrappers
  import opened Selectors

  const AliasSelectorPrefix: string := "$"
  const ExplicitSelectorsDisabled: string := "Explicit selectors have been disabled"

  datatype ParseSelectorException = ParseSelectorException(message: string)

  /** String.startsWith(ALIAS_SELECTOR_PREFIX). */
  predicate IsAlias(selectorExpression: string)
  {
    AliasSelectorPrefix <= selectorExpression
  }

  /** AliasSelectorResolver.resolveSelector. */
  type AliasSelectorResolver = string -> Result<string, ParseSelectorException>

  /** FieldSelector.getAllPossibleFields(null). */
  type FieldNames<-F> = F -> set<string>

  // ---------------------------------------------------------------------------
  // Configuration and its setters
  // ---------------------------------------------------------------------------

  /** The three configuration fields of a parser; a None resolver is Java null. */
  datatype Configuration<+R> = Configuration(
    aliasSelectorResolver: Option<AliasSelectorResolver>,
    disableExplicitSelectors: bool,
    entityConfigurationRegistry: R)

  /**
   * The dialect-specific parse, which may read the parser's configuration;
   * a null FieldSelector is None.
   */
  type Dialect<-R, F> = (Configuration<R>, string) -> Result<Option<F>, ParseSelectorException>

  /** The field initialisers: no resolver, explicit selectors allowed, the default registry. */
  function InitialConfiguration<R>(defaultRegistry: R): (c: Configuration<R>)
    ensures c.aliasSelectorResolver.None? && !c.disableExplicitSelectors
    ensures c.entityConfigurationRegistry == defaultRegistry
  {
    Configuration(None, false, defaultRegistry)
  }

  /** One call to a setter, with its argument. */
  datatype Setting<+R> =
    | SetResolver(resolver: Option<AliasSelectorResolver>)
    | SetDisable(disable: bool)
    | SetRegistry(registry: R)

  /** The effect of one setter: its own field takes the argument, the other two keep their values. */
  function Apply<R>(c: Configuration<R>, s: Setting<R>): (d: Configuration<R>)
    ensures s.SetResolver? ==> d.aliasSelectorResolver == s.resolver
    ensures !s.SetResolver? ==> d.aliasSelectorResolver == c.aliasSelectorResolver
    ensures s.SetDisable? ==> d.disableExplicitSelectors == s.disable
    ensures !s.SetDisable? ==> d.disableExplicitSelectors == c.disableExplicitSelectors
    ensures s.SetRegistry? ==> d.entityConfigurationRegistry == s.registry
    ensures !s.SetRegistry? ==> d.entityConfigurationRegistry == c.entityConfigurationRegistry
  {
    match s
    case SetResolver(r) => c.(aliasSelectorResolver := r)
    case SetDisable(b) => c.(disableExplicitSelectors := b)
    case SetRegistry(g) => c.(entityConfigurationRegistry := g)
  }

  /** The configuration after a series of setter calls, in order. */
  function ApplyAll<R>(c: Configuration<R>, settings: seq<Setting<R>>): (d: Configuration<R>)
    decreases |settings|
  {
    if settings == [] then c else ApplyAll(Apply(c, settings[0]), settings[1..])
  }

  /** True when s and t are calls to the same setter. */
  predicate SameSetter<R>(s: Setting<R>, t: Setting<R>)
  {
    (s.SetResolver? && t.SetResolver?) ||
    (s.SetDisable? && t.SetDisable?) ||
    (s.SetRegistry? && t.SetRegistry?)
  }

  /** True when c and d hold the same value in the field that s sets. */
  ghost predicate AgreeOn<R>(s: Setting<R>, c: Configuration<R>, d: Configuration<R>)
  {
    match s
    case SetResolver(_) => c.aliasSelectorResolver == d.aliasSelectorResolver
    case SetDisable(_) => c.disableExplicitSelectors == d.disableExplicitSelectors
    case SetRegistry(_) => c.entityConfigurationRegistry == d.entityConfigurationRegistry
  }

  /** A series of calls to the other setters leaves a field as it was. */
  lemma {:induction false} OtherSettersKeepField<R>(c: Configuration<R>, settings: seq<Setting<R>>, s: Setting<R>)
    requires forall i :: 0 <= i < |settings| ==> !SameSetter(settings[i], s)
    ensures AgreeOn(s, ApplyAll(c, settings), c)
    decreases |settings|
  {
    if settings != [] {
      OtherSettersKeepField(Apply(c, settings[0]), settings[1..], s);
    }
  }

  /** After any series of setter calls, a field holds the argument of the last call to its own setter. */
  lemma {:induction false} LastSetterCallWins<R>(c: Configuration<R>, before: seq<Setting<R>>, s: Setting<R>,
                                                 after: seq<Setting<R>>)
    requires forall i :: 0 <= i < |after| ==> !SameSetter(after[i], s)
    ensures AgreeOn(s, ApplyAll(c, before + [s] + after), Apply(c, s))
    decreases |before|
  {
    if before == [] {
      assert before + [s] + after == [s] + after;
      assert ([s] + after)[1..] == after;
      OtherSettersKeepField(Apply(c, s), after, s);
    } else {
      assert (before + [s] + after)[1..] == before[1..] + [s] + after;
      LastSetterCallWins(Apply(c, before[0]), before[1..], s, after);
    }
  }

  // ---------------------------------------------------------------------------
  // The pipeline of parseSelector(String), as a reference function
  // ---------------------------------------------------------------------------

  /** A call the pipeline makes into a collaborator. */
  datatype Call =
    | ResolveSelector(selectorExpression: string)
    | Parse(selectorExpression: string)
    | GetAllPossibleFields

  /** What one run of the pipeline returns or throws, and the collaborator calls it made, in order. */
  datatype Outcome<+F> = Outcome(result: Result<Option<F>, ParseSelectorException>, calls: seq<Call>)

  /** An alias expression that reaches resolution needs a resolver to have been set. */
  predicate ResolverReady<R>(c: Configuration<R>, selectorExpression: Option<string>)
  {
    selectorExpression.Some? && IsAlias(selectorExpression.value) ==> c.aliasSelectorResolver.Some?
  }

  /** True when parse gives the same answer for every text under configurations c and d. */
  ghost predicate SameParse<R, F>(parse: Dialect<R, F>, c: Configuration<R>, d: Configuration<R>)
  {
    forall text :: parse(c, text) == parse(d, text)
  }

  /** Parse a text and drop a result that is null or selects no field at all. */
  ghost function ParseAndCheck<R, F>(c: Configuration<R>, parse: Dialect<R, F>, allPossibleFields: FieldNames<F>,
                                     text: string): (o: Outcome<F>)
  {
    match parse(c, text)
    case Failure(x) => Outcome(Failure(x), [Parse(text)])
    case Success(None()) => Outcome(Success(None), [Parse(text)])
    case Success(Some(fs)) =>
      var keep := allPossibleFields(fs) != {};
      Outcome(Success(if keep then Some(fs) else None), [Parse(text), GetAllPossibleFields])
  }

  /** parseSelector(String) under configuration c. */
  ghost function Run<R, F>(c: Configuration<R>, parse: Dialect<R, F>, allPossibleFields: FieldNames<F>,
                           selectorExpression: Option<string>): (o: Outcome<F>)
    requires ResolverReady(c, selectorExpression)
  {
    match selectorExpression
    case None() => Outcome(Success(None), [])
    case Some(expression) =>
      if c.disableExplicitSelectors && !IsAlias(expression) then
        Outcome(Failure(ParseSelectorException(ExplicitSelectorsDisabled)), [])
      else if IsAlias(expression) then
        match c.aliasSelectorResolver.value(expression)
        case Failure(x) => Outcome(Failure(x), [ResolveSelector(expression)])
        case Success(text) =>
          var p := ParseAndCheck(c, parse, allPossibleFields, text);
          Outcome(p.result, [ResolveSelector(expression)] + p.calls)
      else
        ParseAndCheck(c, parse, allPossibleFields, expression)
  }

  // ---------------------------------------------------------------------------
  // What the pipeline promises
  // ---------------------------------------------------------------------------

  /** No expression: no selector, no exception, and no collaborator is called. */
  lemma NullExpressionYieldsNoSelector<R, F>(c: Configuration<R>, parse: Dialect<R, F>,
                                             allPossibleFields: FieldNames<F>)
    ensures Run(c, parse, allPossibleFields, None) == Outcome(Success(None), [])
  {
  }

  /** With explicit selectors disabled, a non-alias expression is rejected before anything is called. */
  lemma ExplicitSelectorRejectedWhenDisabled<R, F>(c: Configuration<R>, parse: Dialect<R, F>,
                                                   allPossibleFields: FieldNames<F>, expression: string)
    requires c.disableExplicitSelectors && !IsAlias(expression)
    ensures Run(c, parse, allPossibleFields, Some(expression))
         == Outcome(Failure(ParseSelectorException(ExplicitSelectorsDisabled)), [])
  {
  }

  /**
   * The policy looks only at the original expression: for an alias, the
   * policy flag changes the outcome only through what parse makes of it.
   */
  lemma AliasUnaffectedByPolicy<R, F>(c: Configuration<R>, parse: Dialect<R, F>, allPossibleFields: FieldNames<F>,
                                      expression: string, disable: bool)
    requires IsAlias(expression) && c.aliasSelectorResolver.Some?
    requires SameParse(parse, c, c.(disableExplicitSelectors := disable))
    ensures Run(c, parse, allPossibleFields, Some(expression))
         == Run(c.(disableExplicitSelectors := disable), parse, allPossibleFields, Some(expression))
  {
  }

  /**
   * An alias is resolved first and exactly once; what the resolver returns is
   * handed to parse as it is, even when it starts with "$" again or the
   * policy would have rejected it; a resolver failure ends the run.
   */
  lemma AliasResolvedExactlyOnce<R, F>(c: Configuration<R>, parse: Dialect<R, F>, allPossibleFields: FieldNames<F>,
                                       expression: string)
    requires IsAlias(expression) && c.aliasSelectorResolver.Some?
    ensures var o := Run(c, parse, allPossibleFields, Some(expression));
      |o.calls| >= 1 && o.calls[0] == ResolveSelector(expression) &&
      (forall i :: 1 <= i < |o.calls| ==> !o.calls[i].ResolveSelector?) &&
      match c.aliasSelectorResolver.value(expression)
      case Failure(x) => o == Outcome(Failure(x), [ResolveSelector(expression)])
      case Success(text) => |o.calls| >= 2 && o.calls[1] == Parse(text)
  {
  }

  /**
   * Alias expansion: an alias behaves as its resolved text would as a literal
   * with explicit selectors allowed, when that text is not itself an alias and
   * parse does not tell the two configurations apart.
   */
  lemma AliasExpandsToResolvedText<R, F>(c: Configuration<R>, parse: Dialect<R, F>,
                                         allPossibleFields: FieldNames<F>, expression: string, text: string)
    requires IsAlias(expression) && c.aliasSelectorResolver.Some?
    requires c.aliasSelectorResolver.value(expression) == Success(text) && !IsAlias(text)
    requires SameParse(parse, c, c.(disableExplicitSelectors := false))
    ensures Run(c, parse, allPossibleFields, Some(expression)).result
         == Run(c.(disableExplicitSelectors := false), parse, allPossibleFields, Some(text)).result
  {
  }

  /** A literal expression that passes the policy goes to parse unchanged and the resolver is never called. */
  lemma LiteralParsedUnchanged<R, F>(c: Configuration<R>, parse: Dialect<R, F>, allPossibleFields: FieldNames<F>,
                                     expression: string)
    requires !IsAlias(expression) && !c.disableExplicitSelectors
    ensures var o := Run(c, parse, allPossibleFields, Some(expression));
      |o.calls| >= 1 && o.calls[0] == Parse(expression) &&
      forall i :: 0 <= i < |o.calls| ==> !o.calls[i].ResolveSelector?
  {
  }

  /** parse is reached at most once per run. */
  lemma ParseReachedAtMostOnce<R, F>(c: Configuration<R>, parse: Dialect<R, F>, allPossibleFields: FieldNames<F>,
                                     selectorExpression: Option<string>)
    requires ResolverReady(c, selectorExpression)
    ensures var o := Run(c, parse, allPossibleFields, selectorExpression);
      forall i, j :: 0 <= i < |o.calls| && 0 <= j < |o.calls| && o.calls[i].Parse? && o.calls[j].Parse? ==> i == j
  {
  }

  /**
   * Once parse has been given a text, the outcome is decided by what parse
   * returned: its selector exactly when that is non-null with a non-empty
   * field set, no selector when it is null or empty, its exception otherwise.
   */
  lemma OutcomeDecidedByParse<R, F>(c: Configuration<R>, parse: Dialect<R, F>, allPossibleFields: FieldNames<F>,
                                    selectorExpression: Option<string>, text: string, fs: F)
    requires ResolverReady(c, selectorExpression)
    requires Parse(text) in Run(c, parse, allPossibleFields, selectorExpression).calls
    ensures var r := Run(c, parse, allPossibleFields, selectorExpression).result;
      var parsed := parse(c, text);
      (r == Success(Some(fs)) <==> parsed == Success(Some(fs)) && allPossibleFields(fs) != {}) &&
      (r == Success(None) <==> parsed.Success? &&
                               (parsed.value.None? || allPossibleFields(parsed.value.value) == {})) &&
      (parsed.Failure? ==> r == Failure(parsed.error))
  {
  }

  /** Every selector handed out is one parse returned, and it selects at least one field. */
  lemma SelectorComesFromParse<R, F>(c: Configuration<R>, parse: Dialect<R, F>, allPossibleFields: FieldNames<F>,
                                     selectorExpression: Option<string>, fs: F)
    requires ResolverReady(c, selectorExpression)
    requires Run(c, parse, allPossibleFields, selectorExpression).result == Success(Some(fs))
    ensures allPossibleFields(fs) != {}
    ensures exists text :: Parse(text) in Run(c, parse, allPossibleFields, selectorExpression).calls
                        && parse(c, text) == Success(Some(fs))
  {
    var o := Run(c, parse, allPossibleFields, selectorExpression);
    var expression := selectorExpression.value;
    var text := if IsAlias(expression) then c.aliasSelectorResolver.value(expression).value else expression;
    assert Parse(text) in o.calls;
  }

  /**
   * The pipeline itself never reads the entity configuration registry: the
   * registry changes the outcome only through what parse makes of it.
   */
  lemma RegistryReachesOnlyParse<R, F>(c: Configuration<R>, parse: Dialect<R, F>, allPossibleFields: FieldNames<F>,
                                       selectorExpression: Option<string>, registry: R)
    requires ResolverReady(c, selectorExpression)
    requires SameParse(parse, c, c.(entityConfigurationRegistry := registry))
    ensures Run(c.(entityConfigurationRegistry := registry), parse, allPossibleFields, selectorExpression)
         == Run(c, parse, allPossibleFields, selectorExpression)
  {
  }

  // ---------------------------------------------------------------------------
  // The parser object
  // ---------------------------------------------------------------------------

  /**
   * A parser for one dialect. parse and allPossibleFields are fixed by the
   * dialect; the three configuration fields change through the setters.
   */
  class SelectorParser<R, F> {
    const parse: Dialect<R, F>
    const allPossibleFields: FieldNames<F>

    var entityConfigurationRegistry: R
    var aliasSelectorResolver: Option<AliasSelectorResolver>
    var disableExplicitSelectors: bool

    function Config(): (c: Configuration<R>)
      reads this
    {
      Configuration(aliasSelectorResolver, disableExplicitSelectors, entityConfigurationRegistry)
    }

    /** defaultRegistry is the DefaultEntityConfigurationRegistry the registry field starts with. */
    constructor (parse: Dialect<R, F>, allPossibleFields: FieldNames<F>, defaultRegistry: R)
      ensures this.parse == parse && this.allPossibleFields == allPossibleFields
      ensures Config() == InitialConfiguration(defaultRegistry)
    {
      this.parse := parse;
      this.allPossibleFields := allPossibleFields;
      entityConfigurationRegistry := defaultRegistry;
      aliasSelectorResolver := None;
      disableExplicitSelectors := false;
    }

    /**
     * parseSelector(String): the selector for an expression, None for "no
     * selector", or the exception thrown on the way. calls records the
     * collaborator calls made.
     */
    method ParseSelector(selectorExpression: Option<string>)
      returns (r: Result<Option<F>, ParseSelectorException>, ghost calls: seq<Call>)
      requires ResolverReady(Config(), selectorExpression)
      ensures r == Run(Config(), parse, allPossibleFields, selectorExpression).result
      ensures calls == Run(Config(), parse, allPossibleFields, selectorExpression).calls
    {
      calls := [];
      if selectorExpression.None? {
        return Success(None), calls;
      }
      var expression := selectorExpression.value;

      if disableExplicitSelectors && !IsAlias(expression) {
        return Failure(ParseSelectorException(ExplicitSelectorsDisabled)), calls;
      }

      if IsAlias(expression) {
        calls := calls + [ResolveSelector(expression)];
        var resolved := aliasSelectorResolver.value(expression);
        if resolved.Failure? {
          return Failure(resolved.error), calls;
        }
        expression := resolved.value;
      }

      calls := calls + [Parse(expression)];
      var parsed := parse(Config(), expression);
      if parsed.Failure? {
        return Failure(parsed.error), calls;
      }
      var fieldSelector := parsed.value;

      if fieldSelector.Some? {
        calls := calls + [GetAllPossibleFields];
      }
      if fieldSelector.Some? && allPossibleFields(fieldSelector.value) != {} {
        r := Success(fieldSelector);
      } else {
        r := Success(None);
      }
    }

    /**
     * parseSelector(String, MapSelector): an exception from the one-argument
     * call passes through; otherwise the result is the CompositeSelector of
     * mapSelector and the parsed selector, or mapSelector alone when there is
     * no parsed selector.
     */
    method ParseSelectorWithBaseline<M>(selectorExpression: Option<string>, mapSelector: M)
      returns (r: Result<Selector<M, F>, ParseSelectorException>)
      requires ResolverReady(Config(), selectorExpression)
      ensures var o := Run(Config(), parse, allPossibleFields, selectorExpression).result;
        (o.Failure? ==> r == Failure(o.error)) &&
        (o.Success? ==> r == Success(WithBaseline(mapSelector, o.value)))
    {
      var fieldSelector, _ := ParseSelector(selectorExpression);
      if fieldSelector.Failure? {
        return Failure(fieldSelector.error);
      }
      r := Success(WithBaseline(mapSelector, fieldSelector.value));
    }

    method SetAliasSelectorResolver(aliasSelectorResolver: Option<AliasSelectorResolver>)
      modifies this
      ensures Config() == Apply(old(Config()), SetResolver(aliasSelectorResolver))
    {
      this.aliasSelectorResolver := aliasSelectorResolver;
    }

    method SetDisableExplicitSelectors(disableExplicitSelectors: bool)
      modifies this
      ensures Config() == Apply(old(Config()), SetDisable(disableExplicitSelectors))
    {
      this.disableExplicitSelectors := disableExplicitSelectors;
    }

    method SetEntityConfigurationRegistry(entityConfigurationRegistry: R)
      modifies this
      ensures Config() == Apply(old(Config()), SetRegistry(entityConfigurationRegistry))
    {
      this.entityConfigurationRegistry := entityConfigurationRegistry;
    }
  }

  /**
   * A deployment that only accepts aliases: "$summary" stands for "id,name".
   * The literal is refused by the policy, the alias is resolved and parsed.
   */
  method AliasOnlyClient() returns (literal: Result<Option<string>, ParseSelectorException>,
                                    aliased: Result<Option<string>, ParseSelectorException>)
    ensures literal == Failure(ParseSelectorException(ExplicitSelectorsDisabled))
    ensures aliased == Success(Some("id,name"))
  {
    var p := new SelectorParser<(), string>((c, s) => Success(if s == "" then None else Some(s)), fs => {fs}, ());
    p.SetAliasSelectorResolver(Some(a => if a == "$summary" then Success("id,name") else Failure(ParseSelectorException(a))));
    p.SetDisableExplicitSelectors(true);
    assert !IsAlias("name,href") by { assert "name,href"[0] != '$'; }
    ghost var calls;
    literal, calls := p.ParseSelector(Some("name,href"));
    aliased, calls := p.ParseSelector(Some("$summary"));
  }
}
