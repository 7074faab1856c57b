/** The four argument-equality comparers declared in `ArgumentEqualityComparerSpecs`: their
    target type, their priority and their `AreEqual` predicate. */
module Comparers {
  import opened Values

  /** The comparer classes, each deriving from `ArgumentEqualityComparer<T>`. */
  datatype Definition = CustomComparer | XComparer | YComparer | ComparerThatThrows

  /** The `T` of `ArgumentEqualityComparer<T>`: every comparer is bound to one type. */
  function TargetType(d: Definition): (t: ArgType)
    ensures t == ClassWithCustomArgumentEqualityComparer <==> d == CustomComparer
    ensures t == ClassWithTwoEligibleArgumentEqualityComparers <==> d == XComparer || d == YComparer
    ensures t == ClassWithEqualityComparerThatThrows <==> d == ComparerThatThrows
  {
    match d
    case CustomComparer => ClassWithCustomArgumentEqualityComparer
    case XComparer => ClassWithTwoEligibleArgumentEqualityComparers
    case YComparer => ClassWithTwoEligibleArgumentEqualityComparers
    case ComparerThatThrows => ClassWithEqualityComparerThatThrows
  }

  /** The priority a comparer gets when it does not override `Priority`. */
  const DefaultPriority: int := 0

  /** Only `XComparer` and `YComparer` override `Priority`, both above the default. */
  function Priority(d: Definition): (p: int)
    ensures p != DefaultPriority <==> d == XComparer || d == YComparer
    ensures p >= DefaultPriority
  {
    match d
    case XComparer => 1
    case YComparer => 2
    case _ => DefaultPriority
  }

  /** What running a predicate produces: a boolean, or a raised exception. */
  datatype PredicateOutcome = Returned(equal: bool) | Threw(exception: Exception)

  /** The exception `ComparerThatThrows` raises: `new Exception("Oops")`. */
  const Oops: Exception := Exception(PlainException, "Oops", None)

  /** C#'s lifted `==` on `int?`: two nulls are equal, a null and a value are not,
      two values compare as integers. */
  function LiftedEquals(a: Option<int>, b: Option<int>): (r: bool)
    ensures r <==> a == b
  {
    match (a, b)
    case (None, None) => true
    case (Some(x), Some(y)) => x == y
    case _ => false
  }

  /** `v?.Value` */
  function ValueOf(v: Option<Instance>): Option<int>
    requires IsOfType(v, ClassWithCustomArgumentEqualityComparer)
  {
    match v
    case None => None
    case Some(i) => Some(i.fields.Value)
  }

  /** `v?.X` */
  function XOf(v: Option<Instance>): Option<int>
    requires IsOfType(v, ClassWithTwoEligibleArgumentEqualityComparers)
  {
    match v
    case None => None
    case Some(i) => Some(i.fields.X)
  }

  /** `v?.Y` */
  function YOf(v: Option<Instance>): Option<int>
    requires IsOfType(v, ClassWithTwoEligibleArgumentEqualityComparers)
  {
    match v
    case None => None
    case Some(i) => Some(i.fields.Y)
  }

  /** The `AreEqual(expectedValue, argumentValue)` override of each comparer;
      both arguments are of the comparer's target type and may be null. */
  function AreEqual(d: Definition, expected: Option<Instance>, actual: Option<Instance>): (r: PredicateOutcome)
    requires IsOfType(expected, TargetType(d)) && IsOfType(actual, TargetType(d))
    ensures r.Threw? <==> d == ComparerThatThrows
    ensures r.Threw? ==> r.exception == Exception(PlainException, "Oops", None)
    ensures d != ComparerThatThrows && expected.None? && actual.None? ==> r == Returned(true)
    ensures d != ComparerThatThrows && expected.None? != actual.None? ==> r == Returned(false)
  {
    match d
    case CustomComparer => Returned(LiftedEquals(ValueOf(expected), ValueOf(actual)))
    case XComparer => Returned(LiftedEquals(XOf(expected), XOf(actual)))
    case YComparer => Returned(LiftedEquals(YOf(expected), YOf(actual)))
    case ComparerThatThrows => Threw(Oops)
  }

  /** `CustomComparer` returns, never throws, and says "equal" exactly when
      the two `Value`s agree under lifted-null semantics; object identity is ignored. */
  lemma CustomComparerComparesValue(e: Option<Instance>, a: Option<Instance>)
    requires IsOfType(e, ClassWithCustomArgumentEqualityComparer)
    requires IsOfType(a, ClassWithCustomArgumentEqualityComparer)
    ensures AreEqual(CustomComparer, e, a).Returned?
    ensures AreEqual(CustomComparer, e, a).equal <==>
      (e.None? && a.None?) || (e.Some? && a.Some? && e.value.fields.Value == a.value.fields.Value)
  {
  }

  /** `XComparer` says "equal" exactly when the `X`s agree under lifted-null semantics. */
  lemma XComparerComparesX(e: Option<Instance>, a: Option<Instance>)
    requires IsOfType(e, ClassWithTwoEligibleArgumentEqualityComparers)
    requires IsOfType(a, ClassWithTwoEligibleArgumentEqualityComparers)
    ensures AreEqual(XComparer, e, a).Returned?
    ensures AreEqual(XComparer, e, a).equal <==>
      (e.None? && a.None?) || (e.Some? && a.Some? && e.value.fields.X == a.value.fields.X)
  {
  }

  /** `YComparer` says "equal" exactly when the `Y`s agree under lifted-null semantics. */
  lemma YComparerComparesY(e: Option<Instance>, a: Option<Instance>)
    requires IsOfType(e, ClassWithTwoEligibleArgumentEqualityComparers)
    requires IsOfType(a, ClassWithTwoEligibleArgumentEqualityComparers)
    ensures AreEqual(YComparer, e, a).Returned?
    ensures AreEqual(YComparer, e, a).equal <==>
      (e.None? && a.None?) || (e.Some? && a.Some? && e.value.fields.Y == a.value.fields.Y)
  {
  }

  /** Of the four predicates, only `ComparerThatThrows` throws, and it throws a
      plain `Exception` with message "Oops" and no inner exception, whatever its arguments. */
  lemma OnlyComparerThatThrowsThrows(d: Definition, e: Option<Instance>, a: Option<Instance>)
    requires IsOfType(e, TargetType(d)) && IsOfType(a, TargetType(d))
    ensures AreEqual(d, e, a).Threw? <==> d == ComparerThatThrows
    ensures AreEqual(d, e, a).Threw? ==>
      AreEqual(d, e, a).exception == Exception(PlainException, "Oops", None)
  {
  }

  /** The type binding: `XComparer` and `YComparer` are the only comparers for
      `ClassWithTwoEligibleArgumentEqualityComparers`, each other type has exactly one. */
  lemma ComparersOfEachType(d: Definition)
    ensures TargetType(d) == ClassWithCustomArgumentEqualityComparer <==> d == CustomComparer
    ensures TargetType(d) == ClassWithTwoEligibleArgumentEqualityComparers <==> d == XComparer || d == YComparer
    ensures TargetType(d) == ClassWithEqualityComparerThatThrows <==> d == ComparerThatThrows
  {
  }

  /** Priorities: `XComparer` overrides with 1, `YComparer` with 2, so `YComparer`
      outranks `XComparer`; the other two keep the default. */
  lemma PrioritiesOfComparers()
    ensures Priority(XComparer) == 1 && Priority(YComparer) == 2
    ensures Priority(XComparer) < Priority(YComparer)
    ensures Priority(CustomComparer) == DefaultPriority && Priority(ComparerThatThrows) == DefaultPriority
  {
  }
}
