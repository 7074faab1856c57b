# Argument-equality comparers in FakeItEasy, modelled in Dafny

FakeItEasy matches the arguments of a call on a fake against the arguments a
call was configured with. For argument types that have a custom
`ArgumentEqualityComparer<T>`, that comparer decides whether two arguments are
equal, not the type's own equality. This project models the comparers declared in
`tests/FakeItEasy.Specs/ArgumentEqualityComparerSpecs.cs` and the contract that
file's three scenarios assert:

- the comparer for the argument's exact declared type decides the match
  (`CustomComparer` compares by `Value`, whatever the object identity);
- when two comparers are eligible, the one with the higher priority is used
  (`YComparer`, priority 2, wins over `XComparer`, priority 1);
- an exception thrown by a comparer's predicate never yields a boolean. It comes
  back as a `UserCallbackException` with the message
  "Argument Equality Comparer threw an exception. See inner exception for details.",
  and that exception wraps the original one (`Exception("Oops")`).

Files:

- `values.dfy` (module `Values`): nullable arguments (`Option<Instance>`), the
  argument types, instances with a reference identity (`id`) and their
  properties, and exceptions with class, message and inner exception.
- `comparers.dfy` (module `Comparers`): the four comparer classes as the datatype
  `Definition`, each with its target type, its priority and its `AreEqual`
  predicate. Null handling follows C#'s lifted `?.` and `==`.
- `resolution.dfy` (module `Resolution`): the framework side of the contract.
  `Lookup` finds the comparers registered for an exact type. `Resolve` picks a
  highest-priority one. `Invoke` runs its predicate and wraps a thrown exception.
  `Matches` puts these together.
- `scenarios.dfy` (module `Scenarios`): the faked interface `IFoo`, a configured
  call (`CallRule`: method, expected argument, return value), `Call`, and the
  three scenarios as lemmas. The scenarios are proved for every registry that
  holds all four comparers, in any order, because the order in which comparers
  are discovered is not known.

Tie-break: when several candidates share the top priority, `Resolve` picks the
one registered first (lemma `Resolution.ResolveFirstOfTopPriority`). The source
file never has two comparers with the same priority for one type. This rule is
a choice made for this model, to keep resolution deterministic. It is not
behaviour taken from the source.

## Model

| member | source | states |
|---|---|---|
| `Comparers.LiftedEquals` | tests/FakeItEasy.Specs/ArgumentEqualityComparerSpecs.cs:92 | `==` on two `int?` is true exactly when both are null or both hold the same integer |
| `Comparers.TargetType` | tests/FakeItEasy.Specs/ArgumentEqualityComparerSpecs.cs:86-131 | each comparer is bound to one target type; `CustomComparer` is the only one for `ClassWithCustomArgumentEqualityComparer`, `XComparer` and `YComparer` the only ones for `ClassWithTwoEligibleArgumentEqualityComparers`, `ComparerThatThrows` the only one for `ClassWithEqualityComparerThatThrows` |
| `Comparers.Priority` | tests/FakeItEasy.Specs/ArgumentEqualityComparerSpecs.cs:105-117 | only `XComparer` and `YComparer` override the default priority, and both rank above it |
| `Comparers.AreEqual` | tests/FakeItEasy.Specs/ArgumentEqualityComparerSpecs.cs:88-138 | a predicate throws exactly when it is `ComparerThatThrows`, and then throws a plain `Exception("Oops")` with no inner exception; the other three say equal for two nulls and not equal for one null |
| `Comparers.CustomComparerComparesValue` | tests/FakeItEasy.Specs/ArgumentEqualityComparerSpecs.cs:86-93 | `CustomComparer` returns and does not throw; it says equal exactly when both arguments are null, or both are non-null with equal `Value`; identity is ignored |
| `Comparers.XComparerComparesX` | tests/FakeItEasy.Specs/ArgumentEqualityComparerSpecs.cs:103-112 | `XComparer` says equal exactly when both are null, or both are non-null with equal `X` |
| `Comparers.YComparerComparesY` | tests/FakeItEasy.Specs/ArgumentEqualityComparerSpecs.cs:115-124 | `YComparer` says equal exactly when both are null, or both are non-null with equal `Y` |
| `Comparers.OnlyComparerThatThrowsThrows` | tests/FakeItEasy.Specs/ArgumentEqualityComparerSpecs.cs:131-138 | a predicate throws exactly when it is `ComparerThatThrows`, for any arguments; what it throws is a plain `Exception` with message "Oops" |
| `Comparers.ComparersOfEachType` | tests/FakeItEasy.Specs/ArgumentEqualityComparerSpecs.cs:86-131 | each comparer is bound to one type; `XComparer` and `YComparer` are exactly the comparers of `ClassWithTwoEligibleArgumentEqualityComparers`; each other type has exactly one comparer |
| `Comparers.PrioritiesOfComparers` | tests/FakeItEasy.Specs/ArgumentEqualityComparerSpecs.cs:105-117 | `XComparer` has priority 1 and `YComparer` priority 2, so `YComparer` outranks `XComparer`; the other two have the default priority |
| `Resolution.Lookup` | tests/FakeItEasy.Specs/ArgumentEqualityComparerSpecs.cs:35-36 | the candidates are exactly the registered comparers whose target type equals the requested type |
| `Resolution.LookupAppend` | tests/FakeItEasy.Specs/ArgumentEqualityComparerSpecs.cs:35-36 | the candidates of two registries put together are the first registry's candidates followed by the second's, so lookup keeps registration order |
| `Resolution.Resolve` | tests/FakeItEasy.Specs/ArgumentEqualityComparerSpecs.cs:41-42 | the chosen comparer is one of the candidates, and no candidate has a higher priority |
| `Resolution.ResolveFirstOfTopPriority` | tests/FakeItEasy.Specs/ArgumentEqualityComparerSpecs.cs:41-42 | the chosen candidate has no earlier candidate of the same priority; this first-registered tie-break is the model's own choice, the source never shows a tie |
| `Resolution.ResolvePicksStrictMaximum` | tests/FakeItEasy.Specs/ArgumentEqualityComparerSpecs.cs:41-45 | a candidate whose priority is above every other candidate's is the one chosen |
| `Resolution.ResolveFor` | tests/FakeItEasy.Specs/ArgumentEqualityComparerSpecs.cs:35-42 | there is no comparer for a type exactly when none is registered for it; otherwise the one chosen is registered for that type and has the top priority among them |
| `Resolution.WrapFailure` | tests/FakeItEasy.Specs/ArgumentEqualityComparerSpecs.cs:63-69 | the wrapping exception is a `UserCallbackException` with the fixed message, and the original exception is its inner exception |
| `Resolution.Invoke` | tests/FakeItEasy.Specs/ArgumentEqualityComparerSpecs.cs:60-69 | a boolean comes back exactly when the predicate returns one, and it is the predicate's boolean; otherwise the result is a `UserCallbackException` with the fixed message whose inner exception is the one the predicate threw |
| `Resolution.Matches` | tests/FakeItEasy.Specs/ArgumentEqualityComparerSpecs.cs:41-45 | with no comparer registered for the type, default equality decides; every failure is a `UserCallbackException` with the fixed message |
| `Resolution.MatchesUsesHighestPriority` | tests/FakeItEasy.Specs/ArgumentEqualityComparerSpecs.cs:41-45 | a registered comparer for the type that outranks every other comparer for the type decides the match: its boolean, or its wrapped failure |
| `Resolution.MatchesIgnoresOtherTypes` | tests/FakeItEasy.Specs/ArgumentEqualityComparerSpecs.cs:72-79 | matching is by exact type: registering a comparer for another type changes no match on this type |
| `Resolution.MatchFailureIsWrapped` | tests/FakeItEasy.Specs/ArgumentEqualityComparerSpecs.cs:60-69 | every failed match is a `UserCallbackException` with the fixed message, wrapping what the predicate of a comparer for that exact type threw |
| `Scenarios.ParameterType` | tests/FakeItEasy.Specs/ArgumentEqualityComparerSpecs.cs:74-78 | `Bar` takes `ClassWithCustomArgumentEqualityComparer`, `Baz` `ClassWithTwoEligibleArgumentEqualityComparers` and `Frob` `ClassWithEqualityComparerThatThrows`, and no other method takes each of them |
| `Scenarios.ParameterTypesDiffer` | tests/FakeItEasy.Specs/ArgumentEqualityComparerSpecs.cs:72-79 | `Bar`, `Baz` and `Frob` each take a different argument type |
| `Scenarios.Call` | tests/FakeItEasy.Specs/ArgumentEqualityComparerSpecs.cs:19-26 | a call returns the configured value exactly when it is to the configured method and its argument matches; it raises exactly when matching raises, and what it raises is matching's exception, unchanged |
| `Scenarios.CallFailureIsWrapped` | tests/FakeItEasy.Specs/ArgumentEqualityComparerSpecs.cs:60-69 | what a call raises is a `UserCallbackException` with the fixed message, wrapping what the predicate of a comparer for the parameter's exact type threw |
| `Scenarios.BazCandidates` | tests/FakeItEasy.Specs/ArgumentEqualityComparerSpecs.cs:96-125 | with all comparers registered, `Baz`'s candidates are exactly `XComparer` and `YComparer` |
| `Scenarios.CustomArgumentEqualityComparer` | tests/FakeItEasy.Specs/ArgumentEqualityComparerSpecs.cs:10-27 | `Bar` configured with `{ Value = 1 }` returning 42, and called with a distinct instance with `Value = 1`, returns 42 |
| `Scenarios.TwoCustomArgumentEqualityComparers` | tests/FakeItEasy.Specs/ArgumentEqualityComparerSpecs.cs:29-46 | for `Baz` the chosen comparer is `YComparer`; `XComparer` would say `{X=1,Y=1}` and `{X=0,Y=1}` differ; the call still returns the configured 42 |
| `Scenarios.ArgumentEqualityComparerThatThrows` | tests/FakeItEasy.Specs/ArgumentEqualityComparerSpecs.cs:48-70 | the call to `Frob` raises a `UserCallbackException` with message "Argument Equality Comparer threw an exception. See inner exception for details.", whose inner exception is a plain `Exception` with message "Oops" |

## Left out

- Fake creation and call interception (`A.Fake<IFoo>()`, `A.CallTo(...).Returns(42)`) are proxy machinery outside this file. A configured call is reduced to its method, its expected argument and its return value. A call whose rule does not apply is `NotMatched`; what the fake then returns is not modelled.
- The Xbehave step runner, `.See<T>()`, FluentAssertions and `Record.Exception` are test harness, not behaviour.
- Reflection-based discovery and registration of comparers, and the thread-safety of the process-wide registry, are not modelled. The registry is a sequence given as a parameter.
- Default equality, used when no comparer exists for a type, is a parameter (`defaultEquals`) whose behaviour is not modelled. No scenario uses it.
- The tie-break between comparers of equal top priority is not shown by the source. The model's first-registered rule is its own choice.
- `Priority` is modelled as an `int`. The numeric value of FakeItEasy's default priority is not part of this model; the model takes 0. No scenario depends on that value.
- The generic base class `ArgumentEqualityComparer<T>` is not part of this model: its untyped entry point and its cast to `T` are not shown. The model instead requires both arguments of a predicate to be null or of the comparer's target type, as C#'s static typing guarantees.
- Repeating a call gives the same result by construction, since every operation here is a function. No separate idempotence lemma is stated.
