/**
 * The Feed reconciler (controllers/feed_controller.go). Each pass reads the
 * Feed and its credentials Secret, then either handles a deletion (delete
 * the put.io feed, then drop the finalizer) or makes sure the finalizer is
 * registered, brings the put.io feed in line with the spec (create it, or
 * update it when the spec's checksum changed, then set its pause state) and
 * records what put.io reports in the Feed's status.
 *
 * Every method is proved to leave in the environment's log a sequence of
 * calls that the matching function of ReconcileSpec reads back to the
 * method's own outcome; the longer functions of the source are split into
 * the stages those functions name.
 */
module Controller {
  import opened Wrappers
  import opened Errors
  import opened Time
  import PutioErrors
  import opened FeedApi
  import Putio
  import opened Environment
  import opened PutioClient
  import opened ReconcileSpec

  class FeedReconciler {
    const env: Env
    /** `json.Marshal` of a spec, the text the checksum is taken of. */
    const marshal: FeedSpec -> string

    constructor(env: Env, marshal: FeedSpec -> string)
      ensures this.env == env && this.marshal == marshal
    {
      this.env := env;
      this.marshal := marshal;
    }

    /** `feedNeedUpdate`: the recorded checksum is not the checksum of the current spec. */
    function FeedNeedUpdate(feed: Feed): (r: bool)
      reads feed
      ensures Annotation(feed.annotations, ChecksumAnnotation) == [] ==> r
      ensures !r <==> Annotation(feed.annotations, ChecksumAnnotation) == SpecChecksum(marshal, feed.spec)
    {
      NeedsUpdate(feed.annotations, SpecChecksum(marshal, feed.spec))
    }

    /** `insertChecksum`: records the checksum of the spec; writing into a nil annotation map panics. */
    method InsertChecksum(feed: Feed) returns (panicked: bool)
      modifies feed`annotations
      ensures panicked <==> old(feed.annotations).None?
      ensures panicked ==> feed.annotations == old(feed.annotations)
      ensures !panicked ==> feed.Snapshot() == WithChecksum(old(feed.Snapshot()), SpecChecksum(marshal, feed.spec))
      ensures !panicked ==> !FeedNeedUpdate(feed)
    {
      ghost var o := feed.Snapshot();
      var checksum := SpecChecksum(marshal, feed.spec);
      if feed.annotations.None? {
        return true;
      }
      feed.annotations := Some(feed.annotations.value[ChecksumAnnotation := checksum]);
      panicked := false;
      assert feed.Snapshot() == WithChecksum(o, checksum);
      assert Annotation(feed.annotations, ChecksumAnnotation) == checksum;
    }

    /** `insertChecksum` followed by `r.Update(ctx, feed)`: `stop` is None when the pass goes on. */
    method RecordChecksum(feed: Feed) returns (stop: Option<SyncOutcome>, ghost events: seq<Event>)
      modifies env, feed`annotations
      ensures env.log == old(env.log) + events
      ensures RecordRun(events, SpecChecksum(marshal, feed.spec), old(feed.Snapshot())) == Some((stop, |events|))
    {
      ghost var o, checksum := feed.Snapshot(), SpecChecksum(marshal, feed.spec);
      var panicked := InsertChecksum(feed);
      if panicked {
        return Some(SyncPanicked(NilMapWrite)), [];
      }
      assert o.annotations.Some? && feed.Snapshot() == WithChecksum(o, checksum);
      var writeErr := env.WriteFeed(feed.Snapshot());
      events := [FeedWritten(feed.Snapshot(), writeErr)];
      assert Wrote(events[0], WithChecksum(o, checksum));
      if writeErr.Some? {
        stop := Some(SyncFailed(Wrapped(ResourceContext, writeErr.value)));
      } else {
        stop := None;
      }
      assert RecordRun(events, checksum, o) == Some((stop, 1));
    }

    /** The Get that reads the put.io feed back once it has been created or updated. */
    method Refresh(client: RssClient, id: nat) returns (out: SyncOutcome, ghost events: seq<Event>)
      requires client.env == env
      modifies env
      ensures env.log == old(env.log) + events
      ensures RefreshRun(events, client.token, id) == Some((out, |events|))
    {
      var refreshed;
      ghost var reply;
      refreshed, reply := client.Get(id);
      events := [Event.Exchange(client.token, Putio.BareRequest(Putio.GetFeed(id)), reply)];
      if refreshed.Failure? {
        out := SyncFailed(Wrapped(RefreshContext, refreshed.error));
      } else {
        out := Synced(refreshed.value);
      }
    }

    /** `deleteFeed`: without a stored id nothing is deleted; otherwise one Delete of that id. */
    method DeleteFeed(feed: Feed, client: RssClient) returns (requeue: Requeue, err: Option<Error>, ghost events: seq<Event>)
      requires client.env == env
      modifies env
      ensures env.log == old(env.log) + events
      ensures feed.status.id.None? ==> events == [] && requeue == NoRequeue && err == Some(Plain(MissingIdText))
      ensures feed.status.id.Some? ==>
        |events| == 1 && Sent(events[0], client.token, Putio.BareRequest(Putio.DeleteFeed(feed.status.id.value))) &&
        requeue == RequeueAfterMinute && err == Putio.DeleteOutcome(events[0].reply)
    {
      if feed.status.id.None? {
        return NoRequeue, Some(Plain(MissingIdText)), [];
      }
      var id := feed.status.id.value;
      ghost var reply;
      err, reply := client.Delete(id);
      requeue := RequeueAfterMinute;
      events := [Event.Exchange(client.token, Putio.BareRequest(Putio.DeleteFeed(id)), reply)];
    }

    /** The `switch feed.Spec.Paused`: Pause or Resume the feed. */
    method SetPauseState(client: RssClient, paused: bool, id: nat) returns (err: Option<Error>, ghost events: seq<Event>)
      requires client.env == env
      modifies env
      ensures env.log == old(env.log) + events
      ensures |events| == 1 && Sent(events[0], client.token, Putio.BareRequest(PauseCall(paused, id)))
      ensures err == Putio.StatusOutcome(events[0].reply)
    {
      ghost var reply;
      if paused {
        err, reply := client.Pause(id);
      } else {
        err, reply := client.Resume(id);
      }
      events := [Event.Exchange(client.token, Putio.BareRequest(PauseCall(paused, id)), reply)];
    }

    /** The create branch once Create returned feed `id`: pause state, checksum, refresh. */
    method AfterCreate(feed: Feed, client: RssClient, id: nat) returns (out: SyncOutcome, ghost events: seq<Event>)
      requires client.env == env
      modifies env, feed`annotations
      ensures env.log == old(env.log) + events
      ensures CreatedRun(events, client.token, SpecChecksum(marshal, feed.spec), old(feed.Snapshot()), id) == Some((out, |events|))
    {
      ghost var o, checksum := feed.Snapshot(), SpecChecksum(marshal, feed.spec);
      var err;
      ghost var pauseEvents;
      err, pauseEvents := SetPauseState(client, IsPaused(feed.spec), id);
      if err.Some? {
        return SyncFailed(Wrapped(PauseContext, err.value)), pauseEvents;
      }
      var stop;
      ghost var recordEvents;
      stop, recordEvents := RecordChecksum(feed);
      Appended(old(env.log), pauseEvents, recordEvents);
      if stop.Some? {
        CreatedRunStopped(pauseEvents, recordEvents, client.token, checksum, o, id, stop.value);
        return stop.value, pauseEvents + recordEvents;
      }
      var refreshed;
      ghost var refreshEvents;
      refreshed, refreshEvents := Refresh(client, id);
      Appended(old(env.log), pauseEvents + recordEvents, refreshEvents);
      CreatedRunRefreshed(pauseEvents, recordEvents, refreshEvents, client.token, checksum, o, id, refreshed);
      if refreshed == Synced(None) {
        // logging the created feed's id reads a field of the null feed
        out := SyncPanicked(NilPointerDereference);
      } else {
        out := refreshed;
      }
      events := pauseEvents + recordEvents + refreshEvents;
    }

    /** The create branch of `createOrUpdateFeed`. */
    method CreateRemote(feed: Feed, client: RssClient) returns (out: SyncOutcome, ghost events: seq<Event>)
      requires client.env == env
      modifies env, feed`annotations
      ensures env.log == old(env.log) + events
      ensures CreateRun(events, client.token, SpecChecksum(marshal, feed.spec), old(feed.Snapshot())) == Some((out, |events|))
    {
      var desired := DesiredFeed(feed.spec);
      var created;
      ghost var reply;
      created, reply := client.Create(desired);
      events := [Event.Exchange(client.token, Putio.CreateRequest(desired), reply)];
      if created.Failure? {
        return SyncFailed(Wrapped(CreateContext, created.error)), events;
      }
      if created.value.None? || created.value.value.id.None? {
        return SyncPanicked(NilPointerDereference), events;
      }
      ghost var o, checksum := feed.Snapshot(), SpecChecksum(marshal, feed.spec);
      ghost var rest;
      out, rest := AfterCreate(feed, client, created.value.value.id.value);
      Appended(old(env.log), events, rest);
      CreateRunContinues(events, rest, client.token, checksum, o, created.value.value.id.value, out);
      events := events + rest;
    }

    /** The update branch once Update succeeded for feed `id`: pause state, refresh, checksum. */
    method AfterUpdate(feed: Feed, client: RssClient, id: nat) returns (out: SyncOutcome, ghost events: seq<Event>)
      requires client.env == env
      modifies env, feed`annotations
      ensures env.log == old(env.log) + events
      ensures UpdatedRun(events, client.token, SpecChecksum(marshal, feed.spec), old(feed.Snapshot()), id) == Some((out, |events|))
    {
      ghost var o, checksum := feed.Snapshot(), SpecChecksum(marshal, feed.spec);
      var err;
      ghost var pauseEvents;
      err, pauseEvents := SetPauseState(client, IsPaused(feed.spec), id);
      if err.Some? {
        return SyncFailed(Wrapped(PauseContext, err.value)), pauseEvents;
      }
      var refreshed;
      ghost var refreshEvents;
      refreshed, refreshEvents := Refresh(client, id);
      Appended(old(env.log), pauseEvents, refreshEvents);
      if !refreshed.Synced? {
        UpdatedRunRefreshFailed(pauseEvents, refreshEvents, client.token, checksum, o, id, refreshed);
        return refreshed, pauseEvents + refreshEvents;
      }
      var stop;
      ghost var recordEvents;
      stop, recordEvents := RecordChecksum(feed);
      Appended(old(env.log), pauseEvents + refreshEvents, recordEvents);
      UpdatedRunRecorded(pauseEvents, refreshEvents, recordEvents, client.token, checksum, o, id, refreshed.remote, stop);
      events := pauseEvents + refreshEvents + recordEvents;
      out := if stop.Some? then stop.value else refreshed;
    }

    /** The update branch of `createOrUpdateFeed`, for the put.io feed the lookup found. */
    method UpdateRemote(feed: Feed, client: RssClient, remote: Putio.Feed) returns (out: SyncOutcome, ghost events: seq<Event>)
      requires client.env == env
      modifies env, feed`annotations
      ensures env.log == old(env.log) + events
      ensures UpdateRun(events, client.token, SpecChecksum(marshal, feed.spec), old(feed.Snapshot()), remote) == Some((out, |events|))
    {
      if remote.id.None? {
        return SyncPanicked(NilPointerDereference), [];
      }
      var id := remote.id.value;
      var desired := DesiredFeed(feed.spec);
      var err;
      ghost var reply;
      err, reply := client.Update(desired, id);
      events := [Event.Exchange(client.token, Putio.UpdateRequest(desired, id), reply)];
      if err.Some? {
        return SyncFailed(Wrapped(UpdateContext, err.value)), events;
      }
      ghost var o, checksum := feed.Snapshot(), SpecChecksum(marshal, feed.spec);
      ghost var rest;
      out, rest := AfterUpdate(feed, client, id);
      Appended(old(env.log), events, rest);
      UpdateRunContinues(events, rest, client.token, checksum, o, remote, out);
      events := events + rest;
    }

    /** `createOrUpdateFeed`: look the feed up by the stored id, then create it, update it or leave it as it is. */
    method CreateOrUpdateFeed(feed: Feed, client: RssClient) returns (out: SyncOutcome, ghost events: seq<Event>)
      requires client.env == env
      modifies env, feed`annotations
      ensures env.log == old(env.log) + events
      ensures SyncRun(events, client.token, SpecChecksum(marshal, feed.spec), old(feed.Snapshot())) == Some((out, |events|))
    {
      if feed.status.id.None? {
        out, events := CreateRemote(feed, client);
        return;
      }
      var found;
      ghost var reply;
      found, reply := client.Get(feed.status.id.value);
      events := [Event.Exchange(client.token, Putio.BareRequest(Putio.GetFeed(feed.status.id.value)), reply)];
      if found.Failure? && !PutioErrors.IsNotFound(found.error) {
        return SyncFailed(Wrapped(ReadContext, found.error)), events;
      }
      ghost var o, checksum := feed.Snapshot(), SpecChecksum(marshal, feed.spec);
      ghost var rest;
      if found.Failure? || found.value.None? {
        out, rest := CreateRemote(feed, client);
      } else if FeedNeedUpdate(feed) {
        out, rest := UpdateRemote(feed, client, found.value.value);
      } else {
        return Synced(found.value), events;
      }
      Appended(old(env.log), events, rest);
      SyncRunContinues(events, rest, client.token, checksum, o, out);
      events := events + rest;
    }

    /** `updateFeedStatus`: replace the status by what put.io reports, then write it; a nil feed panics. */
    method UpdateFeedStatus(feed: Feed, remote: Option<Putio.Feed>) returns (panicked: bool, err: Option<Error>, ghost events: seq<Event>)
      modifies env, feed`status
      ensures env.log == old(env.log) + events
      ensures remote.None? ==> panicked && events == [] && feed.status == old(feed.status)
      ensures remote.Some? ==> !panicked && feed.status == StatusOf(remote.value)
      ensures remote.Some? ==> events == [StatusWritten(feed.Snapshot(), err)]
    {
      if remote.None? {
        return true, None, [];
      }
      var r := remote.value;
      feed.status := FeedStatus(r.id, r.lastError, None, r.failedItemCount, None, None, None);
      if !IsZero(r.lastFetch) {
        feed.status := feed.status.(lastFetch := Some(r.lastFetch));
      }
      if !IsZero(r.pausedAt) {
        feed.status := feed.status.(pausedAt := Some(r.pausedAt));
      }
      if !IsZero(r.createdAt) {
        feed.status := feed.status.(createdAt := Some(r.createdAt));
      }
      if !IsZero(r.updatedAt) {
        feed.status := feed.status.(updatedAt := Some(r.updatedAt));
      }
      err := env.WriteStatus(feed.Snapshot());
      panicked := false;
      events := [StatusWritten(feed.Snapshot(), err)];
    }

    /** The end of `Reconcile`: read the Feed again and record in its status what put.io reported. */
    method ReloadThenStatus(key: ObjectKey, remote: Option<Putio.Feed>) returns (outcome: Outcome, ghost events: seq<Event>)
      modifies env
      ensures env.log == old(env.log) + events
      ensures StatusRun(events, key, remote) == Some((outcome, |events|))
    {
      var reloaded := env.ReadFeed(key);
      events := [FeedRead(key, reloaded)];
      if reloaded.Failure? {
        return Returned(NoRequeue, IgnoreNotFound(reloaded.error)), events;
      }
      var current := new Feed.FromObject(reloaded.value);
      var panicked, err;
      ghost var statusEvents;
      panicked, err, statusEvents := UpdateFeedStatus(current, remote);
      if panicked {
        return Panicked(NilPointerDereference), events;
      }
      events := events + statusEvents;
      outcome := Returned(NoRequeue, err);
    }

    /** The deletion branch of `Reconcile`: delete at put.io, then drop the finalizer. */
    method Finalize(feed: Feed, client: RssClient) returns (outcome: Outcome, ghost events: seq<Event>)
      requires client.env == env
      modifies env, feed`finalizers
      ensures env.log == old(env.log) + events
      ensures DeleteRun(events, client.token, old(feed.Snapshot())) == Some((outcome, |events|))
    {
      events := [];
      if feed.ContainsFinalizer(FinalizerName) {
        var requeue, err;
        requeue, err, events := DeleteFeed(feed, client);
        if err.Some? {
          return Returned(requeue, err), events;
        }
        feed.RemoveFinalizer(FinalizerName);
        err := env.WriteFeed(feed.Snapshot());
        events := events + [FeedWritten(feed.Snapshot(), err)];
        if err.Some? {
          return Returned(NoRequeue, err), events;
        }
      }
      outcome := Returned(NoRequeue, None);
    }

    /** Sync with put.io, then record the status. */
    method SyncThenStatus(feed: Feed, client: RssClient, key: ObjectKey) returns (outcome: Outcome, ghost events: seq<Event>)
      requires client.env == env
      modifies env, feed`annotations
      ensures env.log == old(env.log) + events
      ensures SyncThenStatusRun(events, key, client.token, SpecChecksum(marshal, feed.spec), old(feed.Snapshot())) == Some((outcome, |events|))
    {
      ghost var o, checksum := feed.Snapshot(), SpecChecksum(marshal, feed.spec);
      var sync;
      sync, events := CreateOrUpdateFeed(feed, client);
      if !sync.Synced? {
        SyncThenStatusRunStops(events, key, client.token, checksum, o, sync);
        if sync.SyncFailed? {
          return Returned(NoRequeue, Some(sync.failure)), events;
        }
        return Panicked(sync.panic), events;
      }
      ghost var rest;
      outcome, rest := ReloadThenStatus(key, sync.remote);
      Appended(old(env.log), events, rest);
      SyncThenStatusRunComposes(events, rest, key, client.token, checksum, o, sync.remote, outcome);
      events := events + rest;
    }

    /** The sync branch of `Reconcile`: register the finalizer if it is missing, then sync. */
    method RegisterThenSync(feed: Feed, client: RssClient, key: ObjectKey) returns (outcome: Outcome, ghost events: seq<Event>)
      requires client.env == env
      modifies env, feed`finalizers, feed`annotations
      ensures env.log == old(env.log) + events
      ensures RegisterThenSyncRun(events, key, client.token, SpecChecksum(marshal, feed.spec), old(feed.Snapshot())) == Some((outcome, |events|))
    {
      ghost var o, checksum := feed.Snapshot(), SpecChecksum(marshal, feed.spec);
      if feed.ContainsFinalizer(FinalizerName) {
        outcome, events := SyncThenStatus(feed, client, key);
        RegisterThenSyncRunPresent(events, key, client.token, checksum, o, outcome);
        return;
      }
      feed.AddFinalizer(FinalizerName);
      assert feed.Snapshot() == WithFinalizer(o);
      var err := env.WriteFeed(feed.Snapshot());
      events := [FeedWritten(feed.Snapshot(), err)];
      if err.Some? {
        RegisterThenSyncRunWriteFailed(events, key, client.token, checksum, o);
        return Returned(NoRequeue, err), events;
      }
      ghost var rest;
      outcome, rest := SyncThenStatus(feed, client, key);
      Appended(old(env.log), events, rest);
      RegisterThenSyncRunComposes(events, rest, key, client.token, checksum, o, outcome);
      events := events + rest;
    }

    /** `Reconcile`: one pass over the Feed named by `req`. */
    method Reconcile(req: ObjectKey) returns (outcome: Outcome, ghost events: seq<Event>)
      modifies env
      ensures env.log == old(env.log) + events
      ensures ReconcileRun(events, req, marshal) == Some((outcome, |events|))
    {
      var loaded := env.ReadFeed(req);
      if loaded.Failure? {
        events := [FeedRead(req, loaded)];
        ReconcileRunLoadFailed(events, req, marshal, loaded.error);
        return Returned(NoRequeue, IgnoreNotFound(loaded.error)), events;
      }
      var feed := new Feed.FromObject(loaded.value);
      var ref := feed.spec.authSecretRef;
      var secretKey := ObjectKey(req.namespace, ref.name);
      var secret := env.ReadSecret(secretKey);
      ghost var head := [FeedRead(req, loaded), SecretRead(secretKey, secret)];
      Appended(old(env.log), [FeedRead(req, loaded)], [SecretRead(secretKey, secret)]);
      assert [FeedRead(req, loaded)] + [SecretRead(secretKey, secret)] == head;
      if secret.Failure? {
        ReconcileRunSecretFailed(head, req, marshal, loaded.value, secret.error);
        return Returned(NoRequeue, Some(Wrapped(SecretContext(ref.name), secret.error))), head;
      }
      var client := new RssClient(env, Token(secret.value, ref.key));
      ghost var rest;
      if BeingDeleted(feed.Snapshot()) {
        outcome, rest := Finalize(feed, client);
      } else {
        outcome, rest := RegisterThenSync(feed, client, req);
      }
      Appended(old(env.log), head, rest);
      ReconcileRunContinues(head, rest, req, marshal, loaded.value, secret.value, outcome);
      events := head + rest;
    }

  }
}
