/**
 * The world the operator talks to: the Kubernetes API server (reads and
 * writes of Feed resources and Secrets) and the put.io HTTP API. Their
 * answers are not modelled; each call returns whatever the world chooses,
 * and every call is recorded, with its answer, in a ghost log. The
 * controller's contracts are stated over that log: which calls were made,
 * in what order, with which arguments, and what came back.
 */
module Environment {
  import opened Wrappers
  import opened Errors
  import opened FeedApi
  import Putio

  /** One call to the outside world, with the answer it got. */
  datatype Event =
    | FeedRead(key: ObjectKey, feedResult: Result<FeedObject, Error>)
    | SecretRead(key: ObjectKey, secretResult: Result<map<string, string>, Error>)
    | FeedWritten(stored: FeedObject, writeErr: Option<Error>)
    | StatusWritten(stored: FeedObject, writeErr: Option<Error>)
    | Exchange(token: string, request: Putio.Request, reply: Putio.HttpReply)

  class Env {
    ghost var log: seq<Event>

    constructor()
      ensures log == []
    {
      log := [];
    }

    /** `Client.Get` of a Feed: the stored object under that key, or an error. */
    method ReadFeed(key: ObjectKey) returns (r: Result<FeedObject, Error>)
      modifies this
      ensures r.Success? ==> r.value.key == key
      ensures log == old(log) + [FeedRead(key, r)]
    {
      var missing: Result<FeedObject, Error> := Failure(StatusError(ReasonNotFound, []));
      assert !missing.Success?;
      r :| r.Success? ==> r.value.key == key;
      log := log + [FeedRead(key, r)];
    }

    /** `Client.Get` of a Secret: its data, or an error. */
    method ReadSecret(key: ObjectKey) returns (r: Result<map<string, string>, Error>)
      modifies this
      ensures log == old(log) + [SecretRead(key, r)]
    {
      r :| true;
      log := log + [SecretRead(key, r)];
    }

    /** `Client.Update` of a Feed. */
    method WriteFeed(stored: FeedObject) returns (err: Option<Error>)
      modifies this
      ensures log == old(log) + [FeedWritten(stored, err)]
    {
      err :| true;
      log := log + [FeedWritten(stored, err)];
    }

    /** `Client.Status().Update` of a Feed. */
    method WriteStatus(stored: FeedObject) returns (err: Option<Error>)
      modifies this
      ensures log == old(log) + [StatusWritten(stored, err)]
    {
      err :| true;
      log := log + [StatusWritten(stored, err)];
    }

    /** One authenticated put.io request and the reply `Client.Do` decodes from it. */
    method Exchange(token: string, request: Putio.Request) returns (reply: Putio.HttpReply)
      modifies this
      ensures log == old(log) + [Event.Exchange(token, request, reply)]
    {
      reply :| true;
      log := log + [Event.Exchange(token, request, reply)];
    }
  }
}
