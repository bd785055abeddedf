/**
 * The selectors the parser hands out besides the explicit FieldSelector: the
 * wildcard MapSelector alone, or a CompositeSelector of a MapSelector and a
 * FieldSelector. FieldSelector (type parameter F) and MapSelector (type
 * parameter M) are foreign classes whose internals are not part of this model;
 * only how the parser combines them is.
 */
module Selectors {
  import opened Wrappers

  datatype Selector<+M, +F> =
    | Map(mapSelector: M)
    | Composite(mapSelector: M, fieldSelector: F)

  /** The explicit selector a selector carries, if any. */
  function Override<M, F>(s: Selector<M, F>): (o: Option<F>)
  {
    match s
    case Map(_) => None
    case Composite(_, fs) => Some(fs)
  }

  /**
   * The choice made by parseSelector(String, MapSelector) once the explicit
   * selector is known: a CompositeSelector around both when there is one,
   * otherwise the MapSelector alone. The result always keeps the given
   * MapSelector and carries exactly the explicit selector it was given.
   */
  function WithBaseline<M, F>(mapSelector: M, fieldSelector: Option<F>): (s: Selector<M, F>)
    ensures s.mapSelector == mapSelector
    ensures Override(s) == fieldSelector
  {
    match fieldSelector
    case Some(fs) => Composite(mapSelector, fs)
    case None() => Map(mapSelector)
  }

  /** The two facts WithBaseline promises pin its result down completely. */
  lemma WithBaselineUnique<M, F>(mapSelector: M, fieldSelector: Option<F>, s: Selector<M, F>)
    requires s.mapSelector == mapSelector && Override(s) == fieldSelector
    ensures s == WithBaseline(mapSelector, fieldSelector)
  {
  }
}
