/**
 * Go error values as the operator meets them, and the `errors.As` search
 * through a chain of wrapped errors.
 *
 * Four shapes occur: the API error of the put.io client library
 * (`*putio.ErrorResponse`, whose `Type` names the failure), the Kubernetes
 * API error (`*apierrors.StatusError`, whose status carries a reason), a
 * plain error (`errors.New`, or `fmt.Errorf` without `%w`), and an error
 * wrapped by `fmt.Errorf("<context>: %w", cause)`.
 */
module Errors {
  import opened Wrappers

  datatype Error =
    | ErrorResponse(kind: string, message: string)
    | StatusError(reason: string, message: string)
    | Plain(text: string)
    | Wrapped(context: string, cause: Error)

  /** The chain `errors.Unwrap` walks: the error itself, then each wrapped cause in turn. */
  function Chain(e: Error): (c: seq<Error>)
    ensures |c| >= 1 && c[0] == e
    ensures !c[|c| - 1].Wrapped?
    ensures forall i :: 0 <= i < |c| - 1 ==> c[i].Wrapped? && c[i].cause == c[i + 1]
  {
    if e.Wrapped? then [e] + Chain(e.cause) else [e]
  }

  /** `errors.As`: the first error along the chain that has the wanted type. */
  function As(e: Error, isTarget: Error -> bool): Option<Error> {
    if isTarget(e) then Some(e)
    else if e.Wrapped? then As(e.cause, isTarget)
    else None
  }

  /** Position i of chain c holds the first error with the wanted type. */
  predicate FirstAt(c: seq<Error>, isTarget: Error -> bool, i: int) {
    0 <= i < |c| && isTarget(c[i]) && forall j :: 0 <= j < i ==> !isTarget(c[j])
  }

  /** No error of chain c has the wanted type. */
  predicate Absent(c: seq<Error>, isTarget: Error -> bool) {
    forall i :: 0 <= i < |c| ==> !isTarget(c[i])
  }

  /** `As` finds nothing exactly when no error of the chain has the wanted type. */
  lemma {:induction false} AsNoneIffAbsent(e: Error, isTarget: Error -> bool)
    ensures As(e, isTarget).None? <==> Absent(Chain(e), isTarget)
  {
    var c := Chain(e);
    if isTarget(e) {
      assert isTarget(c[0]);
    } else if e.Wrapped? {
      AsNoneIffAbsent(e.cause, isTarget);
      var c' := Chain(e.cause);
      assert c == [e] + c';
      if Absent(c, isTarget) {
        forall i | 0 <= i < |c'| ensures !isTarget(c'[i]) {
          assert c'[i] == c[i + 1];
        }
      }
      if Absent(c', isTarget) {
        forall i | 0 <= i < |c| ensures !isTarget(c[i]) {
          if i > 0 { assert c[i] == c'[i - 1]; }
        }
      }
    }
  }

  /** What `As` finds is the first error of the chain with the wanted type. */
  lemma {:induction false} AsFindsFirstInChain(e: Error, isTarget: Error -> bool)
    requires As(e, isTarget).Some?
    ensures exists i :: FirstAt(Chain(e), isTarget, i) && Chain(e)[i] == As(e, isTarget).value
  {
    var c := Chain(e);
    if isTarget(e) {
      assert FirstAt(c, isTarget, 0);
    } else {
      AsFindsFirstInChain(e.cause, isTarget);
      var c' := Chain(e.cause);
      var k :| FirstAt(c', isTarget, k) && c'[k] == As(e, isTarget).value;
      assert c[k + 1] == c'[k];
      assert FirstAt(c, isTarget, k + 1) by {
        forall j | 0 <= j < k + 1 ensures !isTarget(c[j]) {
          if j > 0 { assert c[j] == c'[j - 1]; }
        }
      }
    }
  }

  predicate IsErrorResponse(e: Error) { e.ErrorResponse? }

  predicate IsStatusError(e: Error) { e.StatusError? }

  /** `metav1.StatusReasonNotFound`. */
  const ReasonNotFound: string := "NotFound"

  /**
   * `apierrors.IsNotFound`: the first Kubernetes API error along the chain
   * has reason NotFound.
   */
  predicate KubeIsNotFound(e: Error) {
    match As(e, IsStatusError)
    case Some(s) => s.StatusError? && s.reason == ReasonNotFound
    case None => false
  }

  /** `client.IgnoreNotFound`: a not-found error becomes no error; any other error is kept. */
  function IgnoreNotFound(e: Error): (r: Option<Error>)
    ensures r.None? <==> KubeIsNotFound(e)
    ensures r.Some? ==> r.value == e
  {
    if KubeIsNotFound(e) then None else Some(e)
  }

  /** Wrapping never hides the Kubernetes error underneath. */
  lemma IgnoreNotFoundSeesThroughWrapping(context: string, e: Error)
    ensures IgnoreNotFound(Wrapped(context, e)).None? <==> IgnoreNotFound(e).None?
  {
  }
}
