/**
 * The errors the modelled code returns or passes through. Go wraps errors with
 * `fmt.Errorf("...: %w", err)` and combines them with `errors.Join`; both are kept
 * as constructors so that `errors.As`-style inspection can be stated.
 */
module Errors {
  import opened Wrappers

  datatype Error =
    // store answers
    | NotFound
    | AlreadyExists
    | Conflict
    | StoreFailure(operation: string)
    // mutate.go
    | ImmutableFieldChange(field: string)
    | MissingMutateImplementation(typeName: string)
    // SetControllerReference
    | AlreadyOwned
    | CrossNamespaceOwner
    // manifestutils
    | RequiredFieldMissing
    | InvalidReference(image: string)
    // foreign serialisers and parsers
    | ForeignFailure(what: string)
    // a Go runtime panic (nil dereference, index out of range), surfaced as an outcome
    | Panic(reason: string)
    // controllers
    | MissingClusterOwner
    | NotAllComponentsReady
    // combinators
    | Wrapped(context: string, inner: Error)
    | Joined(errs: seq<Error>)

  type Res<T> = Result<T, Error>

  /** `errors.Join`: nil for no errors, otherwise one error holding them all. */
  function Join(errs: seq<Error>): (r: Option<Error>)
    ensures r.None? <==> errs == []
  {
    if errs == [] then None else Some(Joined(errs))
  }

  /** `errors.Join(acc, e)` where `acc` is the running (possibly nil) joined error. */
  function JoinTo(acc: Option<Error>, e: Error): (r: Error)
  {
    match acc
    case None => Joined([e])
    case Some(prev) => Joined([prev, e])
  }

  /** `errors.As(err, &ImmutableChangeErr)`: an ImmutableFieldChange somewhere in the wrap/join tree. */
  predicate IsImmutableChange(e: Error)
  {
    match e
    case ImmutableFieldChange(_) => true
    case Wrapped(_, inner) => IsImmutableChange(inner)
    case Joined(es) => exists i | 0 <= i < |es| :: IsImmutableChange(es[i])
    case _ => false
  }

  /** `apierrors.IsNotFound`. */
  predicate IsNotFound(e: Error)
  {
    e.NotFound?
  }

  /** `apierrors.IsConflict`, the retry condition of `retry.RetryOnConflict`. */
  predicate IsConflict(e: Error)
  {
    e.Conflict?
  }
}
