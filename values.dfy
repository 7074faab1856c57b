/** Values that flow through argument matching: nullable argument instances,
    the declared argument types of the faked interface, and exceptions. */
module Values {

  /** A nullable reference: `None` is C#'s `null`. */
  datatype Option<+T> = None | Some(value: T)

  /** Either a value or a raised exception. */
  datatype Result<+R, +E> = Ok(value: R) | Err(error: E)

  /** The argument types declared in `ArgumentEqualityComparerSpecs`; each one is the parameter
      type of exactly one method of `IFoo`. */
  datatype ArgType =
    | ClassWithCustomArgumentEqualityComparer
    | ClassWithTwoEligibleArgumentEqualityComparers
    | ClassWithEqualityComparerThatThrows

  /** The public properties of an instance, one variant per argument type. */
  datatype Fields =
    | CustomFields(Value: int)
    | TwoEligibleFields(X: int, Y: int)
    | ThrowsFields

  /** A heap object: `id` is its reference identity, so two instances with equal
      fields and different ids are "distinct but identical". */
  datatype Instance = Instance(id: nat, fields: Fields)

  function TypeOf(i: Instance): ArgType
  {
    match i.fields
    case CustomFields(_) => ClassWithCustomArgumentEqualityComparer
    case TwoEligibleFields(_, _) => ClassWithTwoEligibleArgumentEqualityComparers
    case ThrowsFields => ClassWithEqualityComparerThatThrows
  }

  /** A nullable value may be passed where `t` is declared: null, or an `t` instance. */
  predicate IsOfType(v: Option<Instance>, t: ArgType)
  {
    v.None? || TypeOf(v.value) == t
  }

  /** The exception classes that appear: `PlainException` is `System.Exception`
      itself (not a subclass of it), `UserCallbackException` is FakeItEasy's. */
  datatype ExceptionClass = PlainException | UserCallbackException

  /** An exception object with its class, its message and its inner exception. */
  datatype Exception = Exception(cls: ExceptionClass, message: string, inner: Option<Exception>)
}
