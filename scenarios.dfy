/** The faked interface `IFoo`, a configured call on it, and the three scenarios
    of the argument-equality comparer specs. */
module Scenarios {
  import opened Values
  import opened Comparers
  import opened Resolution

  /** The methods of `IFoo`; each takes one argument and returns an `int`. */
  datatype FakedMethod = Bar | Baz | Frob

  function ParameterType(m: FakedMethod): (t: ArgType)
    ensures t == ClassWithCustomArgumentEqualityComparer <==> m == Bar
    ensures t == ClassWithTwoEligibleArgumentEqualityComparers <==> m == Baz
    ensures t == ClassWithEqualityComparerThatThrows <==> m == Frob
  {
    match m
    case Bar => ClassWithCustomArgumentEqualityComparer
    case Baz => ClassWithTwoEligibleArgumentEqualityComparers
    case Frob => ClassWithEqualityComparerThatThrows
  }

  /** Each method of `IFoo` takes a different argument type. */
  lemma ParameterTypesDiffer(m1: FakedMethod, m2: FakedMethod)
    ensures ParameterType(m1) == ParameterType(m2) <==> m1 == m2
  {
  }

  /** A call configured as `A.CallTo(() => fake.M(expected)).Returns(returnValue)`. */
  datatype CallRule = CallRule(target: FakedMethod, expected: Option<Instance>, returnValue: int)

  predicate WellTypedRule(rule: CallRule)
  {
    IsOfType(rule.expected, ParameterType(rule.target))
  }

  /** What a call on the fake does as far as `rule` is concerned. */
  datatype CallOutcome =
    | ReturnsConfigured(value: int)   // the rule matched: its configured value is returned
    | NotMatched                      // the rule does not apply; the fake's other behaviour is not modelled
    | Raises(exception: Exception)    // argument matching failed with an exception

  /** A call `fake.m(actual)` checked against `rule`. */
  function Call(registry: Registry, defaultEquals: (Option<Instance>, Option<Instance>) -> bool,
                rule: CallRule, m: FakedMethod, actual: Option<Instance>): (r: CallOutcome)
    requires WellTypedRule(rule) && IsOfType(actual, ParameterType(m))
    ensures r.ReturnsConfigured? ==> m == rule.target && r.value == rule.returnValue
    ensures r.ReturnsConfigured? <==>
      m == rule.target && Matches(registry, ParameterType(m), defaultEquals, rule.expected, actual) == Ok(true)
    ensures r.Raises? <==>
      m == rule.target && Matches(registry, ParameterType(m), defaultEquals, rule.expected, actual).Err?
    ensures r.Raises? ==> r.exception == Matches(registry, ParameterType(m), defaultEquals, rule.expected, actual).error
  {
    if m != rule.target then NotMatched
    else
      match Matches(registry, ParameterType(m), defaultEquals, rule.expected, actual)
      case Ok(true) => ReturnsConfigured(rule.returnValue)
      case Ok(false) => NotMatched
      case Err(e) => Raises(e)
  }

  /** What a call raises is what matching raised, unchanged: a `UserCallbackException`
      with the fixed message wrapping what the predicate of a comparer for the
      parameter's exact type threw. */
  lemma CallFailureIsWrapped(registry: Registry, defaultEquals: (Option<Instance>, Option<Instance>) -> bool,
                             rule: CallRule, m: FakedMethod, actual: Option<Instance>)
    requires WellTypedRule(rule) && IsOfType(actual, ParameterType(m))
    ensures var r := Call(registry, defaultEquals, rule, m, actual);
      r.Raises? ==> (r.exception.cls == UserCallbackException && r.exception.message == ComparerThrewMessage &&
                     exists c :: c in registry && TargetType(c) == ParameterType(m) &&
                                 AreEqual(c, rule.expected, actual) == Threw(r.exception.inner.value))
  {
    if m == rule.target {
      MatchFailureIsWrapped(registry, ParameterType(m), defaultEquals, rule.expected, actual);
    }
  }

  /** The comparers are found by scanning for `ArgumentEqualityComparer<T>`
      classes; the order found is not known, so the scenarios hold for any
      registry that holds all four of the comparers of `ArgumentEqualityComparerSpecs`. */
  predicate HasAllComparers(registry: Registry)
  {
    forall d: Definition :: d in registry
  }

  /** The only comparers eligible for `Baz`'s parameter are `XComparer` and `YComparer`. */
  lemma BazCandidates(registry: Registry)
    requires HasAllComparers(registry)
    ensures forall c :: c in Lookup(registry, ParameterType(Baz)) <==> c == XComparer || c == YComparer
  {
  }

  /** Scenario `CustomArgumentEqualityComparer`: `Bar` configured with
      `{ Value = 1 }` to return 42, called with a distinct instance whose `Value` is
      also 1, returns 42. */
  lemma CustomArgumentEqualityComparer(registry: Registry, defaultEquals: (Option<Instance>, Option<Instance>) -> bool,
                                       configuredId: nat, calledId: nat)
    requires HasAllComparers(registry)
    requires configuredId != calledId
    ensures Call(registry, defaultEquals,
                 CallRule(Bar, Some(Instance(configuredId, CustomFields(1))), 42),
                 Bar, Some(Instance(calledId, CustomFields(1)))) == ReturnsConfigured(42)
  {
    var e, a := Some(Instance(configuredId, CustomFields(1))), Some(Instance(calledId, CustomFields(1)));
    MatchesUsesHighestPriority(registry, ParameterType(Bar), defaultEquals, e, a, CustomComparer);
    CustomComparerComparesValue(e, a);
  }

  /** Scenario `TwoCustomArgumentEqualityComparers`: `Baz` configured with
      `{ X = 1, Y = 1 }` to return 42, called with `{ X = 0, Y = 1 }`, returns 42,
      because the priority-2 `YComparer` is used instead of the priority-1 `XComparer`,
      which would have said "not equal". */
  lemma TwoCustomArgumentEqualityComparers(registry: Registry, defaultEquals: (Option<Instance>, Option<Instance>) -> bool,
                                           configuredId: nat, calledId: nat)
    requires HasAllComparers(registry)
    requires configuredId != calledId
    ensures ResolveFor(registry, ParameterType(Baz)) == Some(YComparer)
    ensures AreEqual(XComparer, Some(Instance(configuredId, TwoEligibleFields(1, 1))),
                                Some(Instance(calledId, TwoEligibleFields(0, 1)))) == Returned(false)
    ensures Call(registry, defaultEquals,
                 CallRule(Baz, Some(Instance(configuredId, TwoEligibleFields(1, 1))), 42),
                 Baz, Some(Instance(calledId, TwoEligibleFields(0, 1)))) == ReturnsConfigured(42)
  {
    var e, a := Some(Instance(configuredId, TwoEligibleFields(1, 1))), Some(Instance(calledId, TwoEligibleFields(0, 1)));
    ResolvePicksStrictMaximum(Lookup(registry, ParameterType(Baz)), YComparer);
    MatchesUsesHighestPriority(registry, ParameterType(Baz), defaultEquals, e, a, YComparer);
    XComparerComparesX(e, a);
    YComparerComparesY(e, a);
  }

  /** Scenario `ArgumentEqualityComparerThatThrows`: a call to `Frob` raises a
      `UserCallbackException` with the fixed message whose inner exception is a
      plain `Exception` with message "Oops"; no boolean is produced. */
  lemma ArgumentEqualityComparerThatThrows(registry: Registry, defaultEquals: (Option<Instance>, Option<Instance>) -> bool,
                                           configuredId: nat, calledId: nat)
    requires HasAllComparers(registry)
    ensures Call(registry, defaultEquals,
                 CallRule(Frob, Some(Instance(configuredId, ThrowsFields)), 42),
                 Frob, Some(Instance(calledId, ThrowsFields))) ==
            Raises(Exception(UserCallbackException,
                             "Argument Equality Comparer threw an exception. See inner exception for details.",
                             Some(Exception(PlainException, "Oops", None))))
  {
    var e, a := Some(Instance(configuredId, ThrowsFields)), Some(Instance(calledId, ThrowsFields));
    MatchesUsesHighestPriority(registry, ParameterType(Frob), defaultEquals, e, a, ComparerThatThrows);
  }
}
