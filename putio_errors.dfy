/**
 * The error helpers of internal/putio/error.go: recognising put.io's
 * "NotFound" API error anywhere along a chain of wrapped errors, and the
 * message of the invalid-status error type.
 */
module PutioErrors {
  import opened Wrappers
  import opened Fmt
  import opened Errors

  /** The `Type` put.io gives an API error for a missing resource. */
  const NotFound: string := "NotFound"

  /**
   * `IsNotFound`: the first put.io API error along the chain has type
   * NotFound. Errors of other kinds are never not-found, whatever their text.
   */
  predicate IsNotFound(err: Error) {
    match As(err, IsErrorResponse)
    case Some(r) => r.ErrorResponse? && r.kind == NotFound
    case None => false
  }

  /** The classification in terms of the chain: the first put.io API error exists and has type NotFound. */
  lemma IsNotFoundInChain(err: Error)
    ensures IsNotFound(err) <==>
      exists i :: FirstAt(Chain(err), IsErrorResponse, i) && Chain(err)[i].kind == NotFound
  {
    AsNoneIffAbsent(err, IsErrorResponse);
    if As(err, IsErrorResponse).Some? {
      AsFindsFirstInChain(err, IsErrorResponse);
      var k :| FirstAt(Chain(err), IsErrorResponse, k) && Chain(err)[k] == As(err, IsErrorResponse).value;
    }
  }

  /** A put.io API error is not-found exactly when its type is NotFound. */
  lemma IsNotFoundOfResponse(kind: string, message: string)
    ensures IsNotFound(ErrorResponse(kind, message)) <==> kind == NotFound
  {
  }

  /** A plain error is never not-found, not even one whose text is "NotFound". */
  lemma PlainIsNeverNotFound(text: string)
    ensures !IsNotFound(Plain(text))
  {
  }

  /** Wrapping an error with context keeps its classification. */
  lemma IsNotFoundSeesThroughWrapping(context: string, cause: Error)
    ensures IsNotFound(Wrapped(context, cause)) <==> IsNotFound(cause)
  {
  }

  // ---------------------------------------------------------------------------
  // InvalidStatusReceivedError

  datatype InvalidStatusReceivedError = InvalidStatusReceivedError(status: string) {
    /** `Error()`: `invalid "<status>" status received`, the status written with `%q`. */
    function Message(): string {
      "invalid " + Quote(status) + " status received"
    }
  }

  const MessagePrefix: string := "invalid "
  const MessageSuffix: string := " status received"

  /** Reads the status back out of such a message. */
  function StatusOfMessage(m: string): Option<string> {
    if |m| >= |MessagePrefix| + |MessageSuffix| &&
       m[..|MessagePrefix|] == MessagePrefix && m[|m| - |MessageSuffix|..] == MessageSuffix
    then Unquote(m[|MessagePrefix|..|m| - |MessageSuffix|])
    else None
  }

  /** The message names the status exactly: it can be read back, so distinct statuses give distinct messages. */
  lemma MessageNamesStatus(e: InvalidStatusReceivedError)
    ensures StatusOfMessage(e.Message()) == Some(e.status)
  {
    var m := e.Message();
    var q := Quote(e.status);
    assert m == MessagePrefix + q + MessageSuffix;
    assert m[..|MessagePrefix|] == MessagePrefix;
    assert m[|m| - |MessageSuffix|..] == MessageSuffix;
    assert m[|MessagePrefix|..|m| - |MessageSuffix|] == q;
    QuoteRoundTrip(e.status);
  }
}
