/** The exception taxonomy of `piecrust/exceptions.py`: one constructor per
    declared class, the single-inheritance parent relation, and `IsA`, the
    subclass test that both `isinstance` and an `except C:` clause perform. */
module Exceptions {
  import opened Wrappers

  datatype ErrorKind =
    | PiecrustError
    | Unauthorized
    | ImproperlyConfigured
    | HydrationError
    | NotRegistered
    | NotFound
    | ApiFieldError
    | UnsupportedFormat
    | BadRequest
    | BlueberryFillingFound
    | InvalidFilterError
    | InvalidSortError
    | ImmediateHttpResponse

  /** The declared base class; `PiecrustError` derives from Python's own
      `Exception`, which lies outside the taxonomy. */
  function Parent(k: ErrorKind): (p: Option<ErrorKind>)
    ensures p.None? <==> k == PiecrustError
    ensures p.Some? ==> Depth(p.value) < Depth(k)
  {
    match k
    case PiecrustError => None
    case InvalidFilterError => Some(BadRequest)
    case _ => Some(PiecrustError)
  }

  /** Distance from `PiecrustError` in the class hierarchy. */
  function Depth(k: ErrorKind): nat {
    match k
    case PiecrustError => 0
    case InvalidFilterError => 2
    case _ => 1
  }

  /** `k` is `ancestor` or one of its subclasses. */
  predicate IsA(k: ErrorKind, ancestor: ErrorKind)
    ensures IsA(k, ancestor) ==> k == ancestor || Depth(ancestor) < Depth(k)
    decreases Depth(k)
  {
    k == ancestor || (Parent(k).Some? && IsA(Parent(k).value, ancestor))
  }

  /** Every declared exception is a `PiecrustError`. */
  lemma {:induction false} EveryKindIsPiecrustError(k: ErrorKind)
    ensures IsA(k, PiecrustError)
    decreases Depth(k)
  {
    if k != PiecrustError {
      EveryKindIsPiecrustError(Parent(k).value);
    }
  }

  /** The subclass relation is transitive. */
  lemma {:induction false} IsATransitive(a: ErrorKind, b: ErrorKind, c: ErrorKind)
    requires IsA(a, b) && IsA(b, c)
    ensures IsA(a, c)
    decreases Depth(a)
  {
    if a != b {
      IsATransitive(Parent(a).value, b, c);
    }
  }

  /** The subclass relation is antisymmetric: two distinct kinds are never
      subclasses of each other. */
  lemma IsAAntisymmetric(a: ErrorKind, b: ErrorKind)
    requires IsA(a, b) && IsA(b, a)
    ensures a == b
  {
  }

  /** `InvalidFilterError` is a `BadRequest`; `InvalidSortError` is not:
      it derives from `PiecrustError` directly. */
  lemma FilterAndSortErrors()
    ensures IsA(InvalidFilterError, BadRequest)
    ensures !IsA(InvalidSortError, BadRequest)
    ensures Parent(InvalidSortError) == Some(PiecrustError)
  {
  }

  /** `Unauthorized`, `ImproperlyConfigured` and `NotRegistered` are
      unrelated: none is a subclass of another. */
  lemma ConfigurationKindsUnrelated(a: ErrorKind, b: ErrorKind)
    requires a in {Unauthorized, ImproperlyConfigured, NotRegistered}
    requires b in {Unauthorized, ImproperlyConfigured, NotRegistered}
    requires a != b
    ensures !IsA(a, b)
  {
  }

  /** Kinds raised with a message; `ImmediateHttpResponse` is raised only
      with the response it carries. */
  type MessageKind = k: ErrorKind | k != ImmediateHttpResponse witness PiecrustError

  /** A raised exception. The response type is a parameter so that this
      module does not depend on the response model. */
  datatype Exception<+R> =
    | Exception(kind: MessageKind, message: string)
    | ImmediateResponse(response: R)
  {
    /** The exception's class. */
    function Kind(): ErrorKind {
      match this
      case Exception(k, _) => k
      case ImmediateResponse(_) => ImmediateHttpResponse
    }

    /** What `isinstance(e, c)` and `except c:` test: every exception is
        an instance of its own class and of `PiecrustError`, and of no class
        deeper in the hierarchy than its own. */
    predicate IsInstance(c: ErrorKind)
      ensures c == Kind() || c == PiecrustError ==> IsInstance(c)
      ensures IsInstance(c) ==> c == Kind() || Depth(c) < Depth(Kind())
    {
      EveryKindIsPiecrustError(Kind());
      IsA(Kind(), c)
    }
  }

  /** `ImmediateHttpResponse(response)`: the exception carries exactly the
      response it was built with. */
  function NewImmediateHttpResponse<R>(response: R): (e: Exception<R>)
    ensures e.Kind() == ImmediateHttpResponse && e.IsInstance(PiecrustError)
    ensures e.ImmediateResponse? && e.response == response
  {
    ImmediateResponse(response)
  }
}
