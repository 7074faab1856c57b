/** How one comparer is found and safely run for an argument: registry lookup by
    exact type, priority resolution, and invocation that wraps predicate failures. */
module Resolution {
  import opened Values
  import opened Comparers

  /** The comparers known to the framework, in registration order. */
  type Registry = seq<Definition>

  /** Every registered comparer whose target type is exactly `t`, in registration order. */
  function Lookup(registry: Registry, t: ArgType): (candidates: seq<Definition>)
    ensures forall c :: c in candidates <==> c in registry && TargetType(c) == t
    ensures |candidates| <= |registry|
  {
    if registry == [] then []
    else (if TargetType(registry[0]) == t then [registry[0]] else []) + Lookup(registry[1..], t)
  }

  /** A highest-priority candidate; among several with the top priority the one
      registered first. */
  function Resolve(candidates: seq<Definition>): (chosen: Definition)
    requires |candidates| > 0
    ensures chosen in candidates
    ensures forall c :: c in candidates ==> Priority(c) <= Priority(chosen)
  {
    if |candidates| == 1 then candidates[0]
    else
      var best := Resolve(candidates[1..]);
      if Priority(candidates[0]) >= Priority(best) then candidates[0] else best
  }

  /** The tie-break chosen for this model: no candidate before the chosen one has
      the same (top) priority. */
  lemma {:induction false} ResolveFirstOfTopPriority(candidates: seq<Definition>)
    requires |candidates| > 0
    ensures exists k :: 0 <= k < |candidates| && candidates[k] == Resolve(candidates) &&
                        (forall j :: 0 <= j < k ==> Priority(candidates[j]) < Priority(Resolve(candidates)))
  {
    if |candidates| > 1 {
      var best := Resolve(candidates[1..]);
      if Priority(candidates[0]) < Priority(best) {
        ResolveFirstOfTopPriority(candidates[1..]);
        var k :| 0 <= k < |candidates[1..]| && candidates[1..][k] == best &&
          forall j :: 0 <= j < k ==> Priority(candidates[1..][j]) < Priority(best);
        assert candidates[k + 1] == Resolve(candidates);
        assert forall j :: 0 <= j < k + 1 ==> Priority(candidates[j]) < Priority(Resolve(candidates)) by {
          forall j | 0 <= j < k + 1 ensures Priority(candidates[j]) < Priority(best) {
            if j > 0 { assert candidates[j] == candidates[1..][j - 1]; }
          }
        }
      } else {
        assert candidates[0] == Resolve(candidates);
      }
    } else {
      assert candidates[0] == Resolve(candidates);
    }
  }

  /** A candidate that strictly outranks every other candidate is the one chosen. */
  lemma ResolvePicksStrictMaximum(candidates: seq<Definition>, c: Definition)
    requires c in candidates
    requires forall o :: o in candidates && o != c ==> Priority(o) < Priority(c)
    ensures Resolve(candidates) == c
  {
  }

  /** The fixed message of the `UserCallbackException` raised for a failing predicate. */
  const ComparerThrewMessage: string := "Argument Equality Comparer threw an exception. See inner exception for details."

  /** The failure raised in place of an exception `cause` thrown by a predicate. */
  function WrapFailure(cause: Exception): (wrapped: Exception)
    ensures wrapped.cls == UserCallbackException
    ensures wrapped.message == ComparerThrewMessage
    ensures wrapped.inner == Some(cause)
  {
    Exception(UserCallbackException, ComparerThrewMessage, Some(cause))
  }

  /** Runs the predicate of `chosen`: its boolean comes back unchanged; any exception
      it throws comes back wrapped in a `UserCallbackException` with the fixed
      message and the original exception as inner exception. */
  function Invoke(chosen: Definition, expected: Option<Instance>, actual: Option<Instance>): (r: Result<bool, Exception>)
    requires IsOfType(expected, TargetType(chosen)) && IsOfType(actual, TargetType(chosen))
    ensures r.Ok? <==> AreEqual(chosen, expected, actual).Returned?
    ensures r.Ok? ==> r.value == AreEqual(chosen, expected, actual).equal
    ensures r.Err? ==> r.error.cls == UserCallbackException && r.error.message == ComparerThrewMessage
    ensures r.Err? ==> r.error.inner == Some(AreEqual(chosen, expected, actual).exception)
  {
    match AreEqual(chosen, expected, actual)
    case Returned(b) => Ok(b)
    case Threw(e) => Err(WrapFailure(e))
  }

  /** The comparer chosen for type `t`, or `None` when no comparer is registered for it. */
  function ResolveFor(registry: Registry, t: ArgType): (outcome: Option<Definition>)
    ensures outcome.None? <==> forall c :: c in registry ==> TargetType(c) != t
    ensures outcome.Some? ==> outcome.value in registry && TargetType(outcome.value) == t
    ensures outcome.Some? ==> forall c :: c in registry && TargetType(c) == t ==> Priority(c) <= Priority(outcome.value)
  {
    var candidates := Lookup(registry, t);
    if |candidates| == 0 then None else Some(Resolve(candidates))
  }

  /** Decides whether `actual` matches `expected` for a parameter of declared type `t`.
      Without a comparer for `t` the framework's default equality `defaultEquals`
      decides; otherwise the chosen comparer is invoked and a wrapped failure is
      passed on to the caller. */
  function Matches(registry: Registry, t: ArgType,
                   defaultEquals: (Option<Instance>, Option<Instance>) -> bool,
                   expected: Option<Instance>, actual: Option<Instance>): (r: Result<bool, Exception>)
    requires IsOfType(expected, t) && IsOfType(actual, t)
    ensures (forall c :: c in registry ==> TargetType(c) != t) ==> r == Ok(defaultEquals(expected, actual))
    ensures r.Err? ==> r.error.cls == UserCallbackException && r.error.message == ComparerThrewMessage
  {
    match ResolveFor(registry, t)
    case None => Ok(defaultEquals(expected, actual))
    case Some(chosen) => Invoke(chosen, expected, actual)
  }

  /** A comparer registered for `t` that outranks every other comparer for `t`
      decides the match: its boolean, or its wrapped failure. */
  lemma MatchesUsesHighestPriority(registry: Registry, t: ArgType,
                                   defaultEquals: (Option<Instance>, Option<Instance>) -> bool,
                                   expected: Option<Instance>, actual: Option<Instance>, c: Definition)
    requires IsOfType(expected, t) && IsOfType(actual, t)
    requires c in registry && TargetType(c) == t
    requires forall o :: o in registry && TargetType(o) == t && o != c ==> Priority(o) < Priority(c)
    ensures Matches(registry, t, defaultEquals, expected, actual) == Invoke(c, expected, actual)
  {
  }

  /** Looking up a concatenation of registrations is concatenating the lookups. */
  lemma {:induction false} LookupAppend(r1: Registry, r2: Registry, t: ArgType)
    ensures Lookup(r1 + r2, t) == Lookup(r1, t) + Lookup(r2, t)
  {
    if r1 == [] {
      assert r1 + r2 == r2;
    } else {
      assert (r1 + r2)[1..] == r1[1..] + r2;
      LookupAppend(r1[1..], r2, t);
    }
  }

  /** Matching is by exact type: registering a comparer for any other type leaves
      every match on `t` unchanged. */
  lemma MatchesIgnoresOtherTypes(registry: Registry, d: Definition, t: ArgType,
                                 defaultEquals: (Option<Instance>, Option<Instance>) -> bool,
                                 expected: Option<Instance>, actual: Option<Instance>)
    requires IsOfType(expected, t) && IsOfType(actual, t)
    requires TargetType(d) != t
    ensures Matches(registry + [d], t, defaultEquals, expected, actual) == Matches(registry, t, defaultEquals, expected, actual)
  {
  }

  /** Every failure of a match is a `UserCallbackException` with the fixed message,
      wrapping an exception thrown by the predicate of a comparer registered for `t`. */
  lemma MatchFailureIsWrapped(registry: Registry, t: ArgType,
                              defaultEquals: (Option<Instance>, Option<Instance>) -> bool,
                              expected: Option<Instance>, actual: Option<Instance>)
    requires IsOfType(expected, t) && IsOfType(actual, t)
    ensures var r := Matches(registry, t, defaultEquals, expected, actual);
      r.Err? ==> (r.error.cls == UserCallbackException && r.error.message == ComparerThrewMessage &&
                  exists c :: c in registry && TargetType(c) == t &&
                              AreEqual(c, expected, actual) == Threw(r.error.inner.value))
  {
  }
}
