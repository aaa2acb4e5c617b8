/**
 * The put.io calls a pass of the Feed controller makes, read off its log of
 * calls, and what controllers/feed_controller.go promises about them: which
 * operations are sent, how many times, in which order and with which
 * arguments, on each branch the controller can take.
 */
module ReconcileCalls {
  import opened Wrappers
  import opened Errors
  import opened FeedApi
  import Putio
  import opened Environment
  import opened ReconcileSpec

  // ---------------------------------------------------------------------------
  // The put.io operations in a log

  /** The put.io operation an event performs: none unless it is a routed put.io exchange. */
  ghost function CallsOfEvent(e: Event): seq<Putio.RssCall> {
    if e.Exchange? && Putio.CallOf(e.request).Some? then [Putio.CallOf(e.request).value] else []
  }

  /** The put.io operations of a log, in the order they were sent. */
  ghost function CallsIn(L: seq<Event>): seq<Putio.RssCall> {
    if L == [] then [] else CallsOfEvent(L[0]) + CallsIn(L[1..])
  }

  /** A request sent for an operation is read back as that operation. */
  lemma CallsOfSent(e: Event, token: string, call: Putio.RssCall, form: Option<Putio.Form>)
    requires Sent(e, token, Putio.CallRequest(call, form))
    ensures CallsOfEvent(e) == [call]
  {
    Putio.RouteRoundTrip(call);
  }

  /** The operations of two logs in turn are those of the first, then those of the second. */
  lemma {:induction false} CallsInAppend(A: seq<Event>, B: seq<Event>)
    ensures CallsIn(A + B) == CallsIn(A) + CallsIn(B)
  {
    if A != [] {
      assert (A + B)[1..] == A[1..] + B;
      CallsInAppend(A[1..], B);
    } else {
      assert A + B == B;
    }
  }

  /** The operations of the first n events, cut after the first i of them. */
  lemma CallsInCut(L: seq<Event>, i: nat, n: nat)
    requires i <= n <= |L|
    ensures CallsIn(L[..n]) == CallsIn(L[..i]) + CallsIn(L[i..][..n - i])
  {
    assert L[..n] == L[..i] + L[i..][..n - i];
    CallsInAppend(L[..i], L[i..][..n - i]);
  }

  /** The operations of a single event. */
  lemma CallsInOne(L: seq<Event>)
    requires |L| == 1
    ensures CallsIn(L) == CallsOfEvent(L[0])
  {
    assert L[1..] == [];
  }

  // ---------------------------------------------------------------------------
  // The calls of each stage

  /** Exactly one pause state call for feed id, Pause when paused and Resume otherwise, then possibly a Get of it. */
  ghost predicate PauseThenMaybeRefresh(calls: seq<Putio.RssCall>, paused: bool, id: nat) {
    calls == [PauseCall(paused, id)] || calls == [PauseCall(paused, id), Putio.GetFeed(id)]
  }

  /** The feed put.io created, when the reply to the Create carries one with an id. */
  function CreatedId(reply: Putio.HttpReply): Option<nat> {
    match Putio.FeedOutcome(reply)
    case Success(Some(f)) => f.id
    case _ => None
  }

  /** Recording the checksum makes no put.io call. */
  lemma RecordRunCalls(L: seq<Event>, checksum: string, o: FeedObject)
    requires RecordRun(L, checksum, o).Some?
    ensures RecordRun(L, checksum, o).value.1 <= |L|
    ensures CallsIn(L[..RecordRun(L, checksum, o).value.1]) == []
  {
    if RecordRun(L, checksum, o).value.1 == 1 {
      CallsInOne(L[..1]);
    }
  }

  /** The refresh is one Get of the feed. */
  lemma RefreshRunCalls(L: seq<Event>, token: string, id: nat)
    requires RefreshRun(L, token, id).Some?
    ensures RefreshRun(L, token, id).value.1 == 1 <= |L|
    ensures CallsIn(L[..1]) == [Putio.GetFeed(id)]
  {
    CallsInOne(L[..1]);
    CallsOfSent(L[0], token, Putio.GetFeed(id), None);
  }

  /** A pause state call, then k events without a call, then possibly one Get. */
  lemma PauseQuietThenMaybeGet(L: seq<Event>, n: nat, k: nat, token: string, paused: bool, id: nat)
    requires k + 1 <= n <= k + 2 && n <= |L|
    requires Sent(L[0], token, Putio.BareRequest(PauseCall(paused, id)))
    requires CallsIn(L[1..][..k]) == []
    requires n == k + 2 ==> CallsIn(L[1..][k..][..1]) == [Putio.GetFeed(id)]
    ensures PauseThenMaybeRefresh(CallsIn(L[..n]), paused, id)
  {
    CallsOfSent(L[0], token, PauseCall(paused, id), None);
    CallsInOne(L[..1]);
    CallsInCut(L, 1, n);
    if n == k + 2 {
      CallsInCut(L[1..], k, n - 1);
    }
  }

  /** A pause state call, then possibly one Get followed by events without a call. */
  lemma PauseThenMaybeGetQuiet(L: seq<Event>, n: nat, token: string, paused: bool, id: nat)
    requires 1 <= n <= |L|
    requires Sent(L[0], token, Putio.BareRequest(PauseCall(paused, id)))
    requires n > 1 ==> CallsIn(L[1..][..1]) == [Putio.GetFeed(id)] && CallsIn(L[1..][1..][..n - 2]) == []
    ensures PauseThenMaybeRefresh(CallsIn(L[..n]), paused, id)
  {
    CallsOfSent(L[0], token, PauseCall(paused, id), None);
    CallsInOne(L[..1]);
    CallsInCut(L, 1, n);
    if n > 1 {
      CallsInCut(L[1..], 1, n - 1);
    }
  }

  /**
   * After a Create or an Update of feed id: one Pause (when the spec says
   * paused) or one Resume, then possibly the Get that refreshes the feed.
   */
  lemma CreatedRunCalls(L: seq<Event>, token: string, checksum: string, o: FeedObject, id: nat)
    requires CreatedRun(L, token, checksum, o, id).Some?
    ensures var n := CreatedRun(L, token, checksum, o, id).value.1;
      n <= |L| && PauseThenMaybeRefresh(CallsIn(L[..n]), IsPaused(o.spec), id)
  {
    var n := CreatedRun(L, token, checksum, o, id).value.1;
    if n == 1 {
      PauseQuietThenMaybeGet(L, n, 0, token, IsPaused(o.spec), id);
    } else {
      var R := L[1..];
      RecordRunCalls(R, checksum, o);
      var k := RecordRun(R, checksum, o).value.1;
      if RecordRun(R, checksum, o).value.0.None? {
        RefreshRunCalls(R[k..], token, id);
      }
      PauseQuietThenMaybeGet(L, n, k, token, IsPaused(o.spec), id);
    }
  }

  /** The same after an Update: the refresh comes before the checksum, which makes no call. */
  lemma UpdatedRunCalls(L: seq<Event>, token: string, checksum: string, o: FeedObject, id: nat)
    requires UpdatedRun(L, token, checksum, o, id).Some?
    ensures var n := UpdatedRun(L, token, checksum, o, id).value.1;
      n <= |L| && PauseThenMaybeRefresh(CallsIn(L[..n]), IsPaused(o.spec), id)
  {
    var n := UpdatedRun(L, token, checksum, o, id).value.1;
    if n > 1 {
      var R := L[1..];
      RefreshRunCalls(R, token, id);
      if RefreshRun(R, token, id).value.0.Synced? {
        RecordRunCalls(R[1..], checksum, o);
      }
    }
    PauseThenMaybeGetQuiet(L, n, token, IsPaused(o.spec), id);
  }

  /** A mutation put.io accepted for feed id, then its pause state call, then possibly a Get of it. */
  ghost predicate AcceptedThenPause(calls: seq<Putio.RssCall>, mutation: Putio.RssCall, paused: bool, id: nat) {
    calls == [mutation, PauseCall(paused, id)] || calls == [mutation, PauseCall(paused, id), Putio.GetFeed(id)]
  }

  /** A mutation followed by its pause state calls. */
  lemma MutationThenPause(mutation: Putio.RssCall, t: seq<Putio.RssCall>, paused: bool, id: nat)
    requires PauseThenMaybeRefresh(t, paused, id)
    ensures AcceptedThenPause([mutation] + t, mutation, paused, id)
  {
  }

  /** A mutation, then the m events of its pause state stage. */
  lemma MutationCalls(L: seq<Event>, n: nat, m: nat, token: string, mutation: Putio.RssCall, form: Option<Putio.Form>, paused: bool, id: nat)
    requires n == m + 1 && n <= |L| && Sent(L[0], token, Putio.CallRequest(mutation, form))
    requires PauseThenMaybeRefresh(CallsIn(L[1..][..m]), paused, id)
    ensures AcceptedThenPause(CallsIn(L[..n]), mutation, paused, id)
  {
    CallsOfSent(L[0], token, mutation, form);
    CallsInOne(L[..1]);
    CallsInCut(L, 1, n);
    MutationThenPause(mutation, CallsIn(L[1..][..m]), paused, id);
  }

  /** Taking a call list apart after its first call. */
  lemma Cons(x: Putio.RssCall, t: seq<Putio.RssCall>)
    ensures ([x] + t)[0] == x && ([x] + t)[1..] == t
  {
  }

  /**
   * The create branch sends one Create, carrying the spec with the managed
   * title; when put.io answers with a feed id, exactly one pause state call
   * for that id follows, and otherwise nothing more is sent.
   */
  lemma CreateRunCalls(L: seq<Event>, token: string, checksum: string, o: FeedObject)
    requires CreateRun(L, token, checksum, o).Some?
    ensures var n := CreateRun(L, token, checksum, o).value.1;
      1 <= n <= |L| && Sent(L[0], token, Putio.CreateRequest(DesiredFeed(o.spec))) &&
      (CreatedId(L[0].reply).None? ==> n == 1 && CallsIn(L[..n]) == [Putio.CreateFeed]) &&
      (CreatedId(L[0].reply).Some? ==>
        AcceptedThenPause(CallsIn(L[..n]), Putio.CreateFeed, IsPaused(o.spec), CreatedId(L[0].reply).value))
  {
    var n := CreateRun(L, token, checksum, o).value.1;
    var form := Some(Putio.CreateForm(DesiredFeed(o.spec)));
    CallsOfSent(L[0], token, Putio.CreateFeed, form);
    CallsInOne(L[..1]);
    if CreatedId(L[0].reply).Some? {
      var id := CreatedId(L[0].reply).value;
      var R := L[1..];
      assert CreateRun(L, token, checksum, o) == Shift(CreatedRun(R, token, checksum, o, id), 1);
      CreatedRunCalls(R, token, checksum, o, id);
      MutationCalls(L, n, n - 1, token, Putio.CreateFeed, form, IsPaused(o.spec), id);
    }
  }

  /**
   * The update branch: a feed without id panics before any call; otherwise one
   * Update of that id, and, when put.io accepts it, exactly one pause state call.
   */
  lemma UpdateRunCalls(L: seq<Event>, token: string, checksum: string, o: FeedObject, remote: Putio.Feed)
    requires UpdateRun(L, token, checksum, o, remote).Some?
    ensures var n := UpdateRun(L, token, checksum, o, remote).value.1;
      n <= |L| &&
      (remote.id.None? ==> n == 0) &&
      (remote.id.Some? ==>
        1 <= n && Sent(L[0], token, Putio.UpdateRequest(DesiredFeed(o.spec), remote.id.value)) &&
        (Putio.StatusOutcome(L[0].reply).None? ==>
          AcceptedThenPause(CallsIn(L[..n]), Putio.UpdateFeed(remote.id.value), IsPaused(o.spec), remote.id.value)) &&
        (Putio.StatusOutcome(L[0].reply).Some? ==> n == 1 && CallsIn(L[..n]) == [Putio.UpdateFeed(remote.id.value)]))
  {
    if remote.id.Some? {
      var id := remote.id.value;
      var n := UpdateRun(L, token, checksum, o, remote).value.1;
      var form := Some(Putio.UpdateForm(DesiredFeed(o.spec)));
      CallsOfSent(L[0], token, Putio.UpdateFeed(id), form);
      CallsInOne(L[..1]);
      if Putio.StatusOutcome(L[0].reply).None? {
        UpdatedRunCalls(L[1..], token, checksum, o, id);
        MutationCalls(L, n, n - 1, token, Putio.UpdateFeed(id), form, IsPaused(o.spec), id);
      }
    }
  }

  // ---------------------------------------------------------------------------
  // createOrUpdateFeed

  /** With a stored id, a failed lookup other than not-found ends the sync after the Get: no Create, Update, Pause or Resume. */
  lemma SyncRunStopsOnLookupFailure(L: seq<Event>, token: string, checksum: string, o: FeedObject)
    requires SyncRun(L, token, checksum, o).Some? && o.status.id.Some? && |L| > 0
    requires Classify(Putio.FeedOutcome(L[0].reply)).LookupFailed?
    ensures SyncRun(L, token, checksum, o) == Some((SyncFailed(Wrapped(ReadContext, Putio.FeedOutcome(L[0].reply).error)), 1))
    ensures CallsIn(L[..1]) == [Putio.GetFeed(o.status.id.value)]
  {
    CallsInOne(L[..1]);
    CallsOfSent(L[0], token, Putio.GetFeed(o.status.id.value), None);
  }

  /** The calls of the create branch are one Create and no other mutation but the pause state call. */
  lemma CreateCallsOnlyCreate(calls: seq<Putio.RssCall>, created: Option<nat>, paused: bool)
    requires created.None? ==> calls == [Putio.CreateFeed]
    requires created.Some? ==> AcceptedThenPause(calls, Putio.CreateFeed, paused, created.value)
    ensures multiset(calls)[Putio.CreateFeed] == 1
    ensures forall c :: c in calls ==> !c.UpdateFeed? && !c.DeleteFeed? && !c.ListFeeds?
  {
  }

  /**
   * Without a stored id exactly one Create is sent, carrying the spec, and
   * no Update; a pause state call for the new feed follows exactly when
   * put.io answered the Create with a feed id.
   */
  lemma SyncRunCreatesWithoutId(L: seq<Event>, token: string, checksum: string, o: FeedObject)
    requires SyncRun(L, token, checksum, o).Some? && o.status.id.None?
    ensures var n := SyncRun(L, token, checksum, o).value.1;
      1 <= n <= |L| && Sent(L[0], token, Putio.CreateRequest(DesiredFeed(o.spec))) &&
      var calls := CallsIn(L[..n]);
      multiset(calls)[Putio.CreateFeed] == 1 &&
      (forall c :: c in calls ==> !c.UpdateFeed? && !c.DeleteFeed? && !c.ListFeeds?) &&
      (CreatedId(L[0].reply).None? ==> calls == [Putio.CreateFeed]) &&
      (CreatedId(L[0].reply).Some? ==> AcceptedThenPause(calls, Putio.CreateFeed, IsPaused(o.spec), CreatedId(L[0].reply).value))
  {
    var n := SyncRun(L, token, checksum, o).value.1;
    CreateRunCalls(L, token, checksum, o);
    CreateCallsOnlyCreate(CallsIn(L[..n]), CreatedId(L[0].reply), IsPaused(o.spec));
  }

  /** The create branch run after the lookup Get: one Create and no other mutation but the pause state call. */
  lemma CreateRunAfterGet(get: Putio.RssCall, R: seq<Event>, token: string, checksum: string, o: FeedObject)
    requires get.GetFeed? && CreateRun(R, token, checksum, o).Some?
    ensures var m := CreateRun(R, token, checksum, o).value.1;
      1 <= m <= |R| && Sent(R[0], token, Putio.CreateRequest(DesiredFeed(o.spec))) &&
      var calls := [get] + CallsIn(R[..m]);
      |calls| >= 2 && calls[0] == get &&
      multiset(calls)[Putio.CreateFeed] == 1 &&
      (forall c :: c in calls ==> !c.UpdateFeed? && !c.DeleteFeed? && !c.ListFeeds?) &&
      (CreatedId(R[0].reply).None? ==> calls[1..] == [Putio.CreateFeed]) &&
      (CreatedId(R[0].reply).Some? ==> AcceptedThenPause(calls[1..], Putio.CreateFeed, IsPaused(o.spec), CreatedId(R[0].reply).value))
  {
    var m := CreateRun(R, token, checksum, o).value.1;
    CreateRunCalls(R, token, checksum, o);
    var tail := CallsIn(R[..m]);
    CreateCallsOnlyCreate(tail, CreatedId(R[0].reply), IsPaused(o.spec));
    Cons(get, tail);
    assert multiset([get] + tail) == multiset([get]) + multiset(tail);
  }

  /**
   * When put.io does not know the stored id, the Get is followed by exactly
   * one Create, carrying the spec, and no Update; a pause state call for the
   * new feed follows exactly when put.io answered the Create with a feed id.
   */
  lemma SyncRunCreatesWhenAbsent(L: seq<Event>, token: string, checksum: string, o: FeedObject)
    requires SyncRun(L, token, checksum, o).Some? && o.status.id.Some? && |L| > 0
    requires Classify(Putio.FeedOutcome(L[0].reply)).Absent?
    ensures var n := SyncRun(L, token, checksum, o).value.1;
      2 <= n <= |L| && Sent(L[1], token, Putio.CreateRequest(DesiredFeed(o.spec))) &&
      var calls := CallsIn(L[..n]);
      |calls| >= 2 && calls[0] == Putio.GetFeed(o.status.id.value) &&
      multiset(calls)[Putio.CreateFeed] == 1 &&
      (forall c :: c in calls ==> !c.UpdateFeed? && !c.DeleteFeed? && !c.ListFeeds?) &&
      (CreatedId(L[1].reply).None? ==> calls[1..] == [Putio.CreateFeed]) &&
      (CreatedId(L[1].reply).Some? ==> AcceptedThenPause(calls[1..], Putio.CreateFeed, IsPaused(o.spec), CreatedId(L[1].reply).value))
  {
    var n := SyncRun(L, token, checksum, o).value.1;
    var get := Putio.GetFeed(o.status.id.value);
    var R := L[1..];
    var m := CreateRun(R, token, checksum, o).value.1;
    assert n == m + 1 by {
      assert SyncRun(L, token, checksum, o) == Shift(CreateRun(R, token, checksum, o), 1);
    }
    CreateRunAfterGet(get, R, token, checksum, o);
    assert CallsIn(L[..n]) == [get] + CallsIn(R[..m]) by {
      CallsInOne(L[..1]);
      CallsOfSent(L[0], token, get, None);
      CallsInCut(L, 1, n);
    }
  }

  /** When the recorded checksum is that of the spec, nothing is changed at put.io and the feed is returned as fetched. */
  lemma SyncRunLeavesUnchanged(L: seq<Event>, token: string, checksum: string, o: FeedObject)
    requires SyncRun(L, token, checksum, o).Some? && o.status.id.Some? && |L| > 0
    requires Classify(Putio.FeedOutcome(L[0].reply)).Found? && !NeedsUpdate(o.annotations, checksum)
    ensures SyncRun(L, token, checksum, o) == Some((Synced(Some(Classify(Putio.FeedOutcome(L[0].reply)).remote)), 1))
    ensures CallsIn(L[..1]) == [Putio.GetFeed(o.status.id.value)]
  {
    CallsInOne(L[..1]);
    CallsOfSent(L[0], token, Putio.GetFeed(o.status.id.value), None);
  }

  /** A changed spec for a feed put.io reports without id: the update branch panics before any further call. */
  lemma SyncRunPanicsOnFeedWithoutId(L: seq<Event>, token: string, checksum: string, o: FeedObject)
    requires SyncRun(L, token, checksum, o).Some? && o.status.id.Some? && |L| > 0
    requires Classify(Putio.FeedOutcome(L[0].reply)).Found? && NeedsUpdate(o.annotations, checksum)
    requires Classify(Putio.FeedOutcome(L[0].reply)).remote.id.None?
    ensures SyncRun(L, token, checksum, o) == Some((SyncPanicked(NilPointerDereference), 1))
    ensures CallsIn(L[..1]) == [Putio.GetFeed(o.status.id.value)]
  {
    CallsInOne(L[..1]);
    CallsOfSent(L[0], token, Putio.GetFeed(o.status.id.value), None);
  }

  /**
   * When the recorded checksum is not that of the spec, the feed put.io
   * found is updated once and nothing is created; a pause state call follows
   * exactly when put.io accepts the Update.
   */
  lemma SyncRunUpdatesChanged(L: seq<Event>, token: string, checksum: string, o: FeedObject)
    requires SyncRun(L, token, checksum, o).Some? && o.status.id.Some? && |L| > 0
    requires Classify(Putio.FeedOutcome(L[0].reply)).Found? && NeedsUpdate(o.annotations, checksum)
    requires Classify(Putio.FeedOutcome(L[0].reply)).remote.id.Some?
    ensures var id := Classify(Putio.FeedOutcome(L[0].reply)).remote.id.value;
      var n := SyncRun(L, token, checksum, o).value.1;
      2 <= n <= |L| && Sent(L[1], token, Putio.UpdateRequest(DesiredFeed(o.spec), id)) &&
      var calls := CallsIn(L[..n]);
      |calls| >= 2 && calls[0] == Putio.GetFeed(o.status.id.value) &&
      (Putio.StatusOutcome(L[1].reply).None? ==> AcceptedThenPause(calls[1..], Putio.UpdateFeed(id), IsPaused(o.spec), id)) &&
      (Putio.StatusOutcome(L[1].reply).Some? ==> calls[1..] == [Putio.UpdateFeed(id)])
  {
    var n := SyncRun(L, token, checksum, o).value.1;
    var remote := Classify(Putio.FeedOutcome(L[0].reply)).remote;
    var get := Putio.GetFeed(o.status.id.value);
    var R := L[1..];
    var m := UpdateRun(R, token, checksum, o, remote).value.1;
    assert SyncRun(L, token, checksum, o) == Shift(UpdateRun(R, token, checksum, o, remote), 1);
    assert n == m + 1;
    UpdateRunCalls(R, token, checksum, o, remote);
    var tail := CallsIn(R[..m]);
    assert CallsIn(L[..n]) == [get] + tail by {
      CallsInOne(L[..1]);
      CallsOfSent(L[0], token, get, None);
      CallsInCut(L, 1, n);
    }
    Cons(get, tail);
  }

  /** The calls of an accepted Update, after the lookup, neither delete nor list. */
  lemma UpdateCallsNeverDelete(calls: seq<Putio.RssCall>, paused: bool, id: nat)
    requires |calls| >= 2 && calls[0].GetFeed?
    requires AcceptedThenPause(calls[1..], Putio.UpdateFeed(id), paused, id) || calls[1..] == [Putio.UpdateFeed(id)]
    ensures forall c :: c in calls ==> !c.DeleteFeed? && !c.ListFeeds?
  {
    assert calls == [calls[0]] + calls[1..];
  }

  /** A changed spec for a feed put.io found: neither a Delete nor a List. */
  lemma SyncRunFoundNeverDeletes(L: seq<Event>, token: string, checksum: string, o: FeedObject)
    requires SyncRun(L, token, checksum, o).Some? && o.status.id.Some? && |L| > 0
    requires Classify(Putio.FeedOutcome(L[0].reply)).Found?
    ensures var n := SyncRun(L, token, checksum, o).value.1;
      n <= |L| && forall c :: c in CallsIn(L[..n]) ==> !c.DeleteFeed? && !c.ListFeeds?
  {
    var n := SyncRun(L, token, checksum, o).value.1;
    var remote := Classify(Putio.FeedOutcome(L[0].reply)).remote;
    if !NeedsUpdate(o.annotations, checksum) {
      SyncRunLeavesUnchanged(L, token, checksum, o);
    } else if remote.id.None? {
      SyncRunPanicsOnFeedWithoutId(L, token, checksum, o);
    } else {
      SyncRunUpdatesChanged(L, token, checksum, o);
      UpdateCallsNeverDelete(CallsIn(L[..n]), IsPaused(o.spec), remote.id.value);
    }
  }

  /** Whatever branch it takes, the sync never deletes a feed and never lists feeds. */
  lemma SyncRunNeverDeletes(L: seq<Event>, token: string, checksum: string, o: FeedObject)
    requires SyncRun(L, token, checksum, o).Some?
    ensures var n := SyncRun(L, token, checksum, o).value.1;
      n <= |L| && forall c :: c in CallsIn(L[..n]) ==> !c.DeleteFeed? && !c.ListFeeds?
  {
    if o.status.id.None? {
      SyncRunCreatesWithoutId(L, token, checksum, o);
    } else {
      var lookup := Classify(Putio.FeedOutcome(L[0].reply));
      if lookup.LookupFailed? {
        SyncRunStopsOnLookupFailure(L, token, checksum, o);
      } else if lookup.Absent? {
        SyncRunCreatesWhenAbsent(L, token, checksum, o);
      } else {
        SyncRunFoundNeverDeletes(L, token, checksum, o);
      }
    }
  }

  /** Reading the Feed again and writing its status make no put.io call. */
  lemma StatusRunCalls(L: seq<Event>, key: ObjectKey, remote: Option<Putio.Feed>)
    requires StatusRun(L, key, remote).Some?
    ensures var n := StatusRun(L, key, remote).value.1;
      n <= |L| && CallsIn(L[..n]) == []
  {
    NoExchangeNoCall(L, StatusRun(L, key, remote).value.1);
  }

  /** After the sync, recording the status adds no put.io call. */
  lemma SyncThenStatusRunNeverDeletes(L: seq<Event>, key: ObjectKey, token: string, checksum: string, o: FeedObject)
    requires SyncThenStatusRun(L, key, token, checksum, o).Some?
    ensures var n := SyncThenStatusRun(L, key, token, checksum, o).value.1;
      n <= |L| && forall c :: c in CallsIn(L[..n]) ==> !c.DeleteFeed? && !c.ListFeeds?
  {
    var n := SyncThenStatusRun(L, key, token, checksum, o).value.1;
    SyncRunNeverDeletes(L, token, checksum, o);
    var (sync, k) := SyncRun(L, token, checksum, o).value;
    if sync.Synced? {
      StatusRunCalls(L[k..], key, sync.remote);
      CallsInCut(L, k, n);
    }
  }

  /** Registering the finalizer first adds no put.io call either. */
  lemma RegisterThenSyncRunNeverDeletes(L: seq<Event>, key: ObjectKey, token: string, checksum: string, o: FeedObject)
    requires RegisterThenSyncRun(L, key, token, checksum, o).Some?
    ensures var n := RegisterThenSyncRun(L, key, token, checksum, o).value.1;
      n <= |L| && forall c :: c in CallsIn(L[..n]) ==> !c.DeleteFeed? && !c.ListFeeds?
  {
    var n := RegisterThenSyncRun(L, key, token, checksum, o).value.1;
    if FinalizerName in o.finalizers {
      SyncThenStatusRunNeverDeletes(L, key, token, checksum, o);
    } else if L[0].writeErr.Some? {
      NoExchangeNoCall(L, 1);
    } else {
      SyncThenStatusRunNeverDeletes(L[1..], key, token, checksum, WithFinalizer(o));
      NoExchangeNoCall(L, 1);
      CallsInCut(L, 1, n);
    }
  }

  // ---------------------------------------------------------------------------
  // Reconcile

  /** Up to two reads and writes of Kubernetes objects make no put.io call. */
  lemma NoExchangeNoCall(L: seq<Event>, n: nat)
    requires n <= 2 && n <= |L| && forall i :: 0 <= i < n ==> !L[i].Exchange?
    ensures CallsIn(L[..n]) == []
  {
    if n == 1 {
      CallsInOne(L[..1]);
    } else if n == 2 {
      CallsInOne(L[..1]);
      CallsInOne(L[1..][..1]);
      CallsInCut(L, 1, 2);
    }
  }

  /**
   * A Feed that cannot be read ends the pass, with no error when it is not
   * found; a Secret that cannot be read ends it with an error. Either way no
   * put.io call is made and nothing is written.
   */
  lemma ReconcileStopsBeforeBranching(L: seq<Event>, key: ObjectKey, marshal: FeedSpec -> string)
    requires ReconcileRun(L, key, marshal).Some? && |L| > 0 && L[0].FeedRead?
    requires L[0].feedResult.Failure? || (|L| > 1 && L[1].SecretRead? && L[1].secretResult.Failure?)
    ensures var (out, n) := ReconcileRun(L, key, marshal).value;
      n <= 2 && n <= |L| && CallsIn(L[..n]) == [] &&
      (forall i :: 0 <= i < n ==> L[i].FeedRead? || L[i].SecretRead?) &&
      (L[0].feedResult.Failure? ==> out == Returned(NoRequeue, IgnoreNotFound(L[0].feedResult.error))) &&
      (L[0].feedResult.Success? ==> out.Returned? && out.requeue == NoRequeue && out.err.Some?)
  {
    var n := ReconcileRun(L, key, marshal).value.1;
    NoExchangeNoCall(L, n);
  }

  /** Once the resource and its Secret are read, a Feed not being deleted goes to the sync branch. */
  lemma ReconcileRunSyncs(L: seq<Event>, key: ObjectKey, marshal: FeedSpec -> string)
    requires ReconcileRun(L, key, marshal).Some? && |L| >= 2
    requires L[0].FeedRead? && L[0].feedResult.Success? && L[1].SecretRead? && L[1].secretResult.Success?
    requires !BeingDeleted(L[0].feedResult.value)
    ensures var o := L[0].feedResult.value;
      var token := Token(L[1].secretResult.value, o.spec.authSecretRef.key);
      ReconcileRun(L, key, marshal) == Shift(RegisterThenSyncRun(L[2..], key, token, SpecChecksum(marshal, o.spec), o), 2)
  {
  }

  /** Without the finalizer, the first step of the sync branch is writing it. */
  lemma RegisterRunWritesFirst(R: seq<Event>, key: ObjectKey, token: string, checksum: string, o: FeedObject)
    requires RegisterThenSyncRun(R, key, token, checksum, o).Some? && FinalizerName !in o.finalizers
    ensures var (out, n) := RegisterThenSyncRun(R, key, token, checksum, o).value;
      1 <= n <= |R| && R[0].FeedWritten? && R[0].stored == WithFinalizer(o) &&
      (R[0].writeErr.Some? ==> n == 1 && out == Returned(NoRequeue, R[0].writeErr))
  {
    if R[0].writeErr.None? {
      SyncThenStatusRunNeverDeletes(R[1..], key, token, checksum, WithFinalizer(o));
    }
  }

  /** Three reads and writes of Kubernetes objects make no put.io call either. */
  lemma ThreeNoExchangeNoCall(L: seq<Event>)
    requires |L| >= 3 && !L[0].Exchange? && !L[1].Exchange? && !L[2].Exchange?
    ensures CallsIn(L[..3]) == []
  {
    NoExchangeNoCall(L, 2);
    NoExchangeNoCall(L[2..], 1);
    CallsInCut(L, 2, 3);
  }

  /** The calls after the two reads are all the calls. */
  lemma CallsAfterReads(L: seq<Event>, n: nat)
    requires 2 <= n <= |L| && !L[0].Exchange? && !L[1].Exchange?
    ensures CallsIn(L[..n]) == CallsIn(L[2..][..n - 2])
  {
    NoExchangeNoCall(L, 2);
    CallsInCut(L, 2, n);
  }

  /** Reads before the sync branch add no Delete and no List. */
  lemma NoDeleteAfterReads(L: seq<Event>, m: nat)
    requires m + 2 <= |L| && !L[0].Exchange? && !L[1].Exchange?
    requires forall c :: c in CallsIn(L[2..][..m]) ==> !c.DeleteFeed? && !c.ListFeeds?
    ensures forall c :: c in CallsIn(L[..m + 2]) ==> !c.DeleteFeed? && !c.ListFeeds?
  {
    CallsAfterReads(L, m + 2);
  }

  /**
   * A Feed not being deleted that lacks the finalizer gets it, written back
   * with nothing else changed, before any put.io call; when that write fails
   * the pass ends with its error and put.io is not called at all.
   */
  lemma ReconcileRegistersFinalizerFirst(L: seq<Event>, key: ObjectKey, marshal: FeedSpec -> string)
    requires ReconcileRun(L, key, marshal).Some? && |L| >= 2
    requires L[0].FeedRead? && L[0].feedResult.Success? && L[1].SecretRead? && L[1].secretResult.Success?
    requires !BeingDeleted(L[0].feedResult.value) && FinalizerName !in L[0].feedResult.value.finalizers
    ensures var o := L[0].feedResult.value;
      var (out, n) := ReconcileRun(L, key, marshal).value;
      3 <= n <= |L| && L[2].FeedWritten? && L[2].stored == WithFinalizer(o) &&
      L[2].stored.(finalizers := o.finalizers) == o && CallsIn(L[..3]) == [] &&
      (L[2].writeErr.Some? ==> n == 3 && out == Returned(NoRequeue, L[2].writeErr))
  {
    var o := L[0].feedResult.value;
    var token := Token(L[1].secretResult.value, o.spec.authSecretRef.key);
    ReconcileRunSyncs(L, key, marshal);
    RegisterRunWritesFirst(L[2..], key, token, SpecChecksum(marshal, o.spec), o);
    ThreeNoExchangeNoCall(L);
  }

  /** Once the resource and its Secret are read, a Feed being deleted goes to the delete branch. */
  lemma ReconcileRunDeletes(L: seq<Event>, key: ObjectKey, marshal: FeedSpec -> string)
    requires ReconcileRun(L, key, marshal).Some? && |L| >= 2
    requires L[0].FeedRead? && L[0].feedResult.Success? && L[1].SecretRead? && L[1].secretResult.Success?
    requires BeingDeleted(L[0].feedResult.value)
    ensures var o := L[0].feedResult.value;
      ReconcileRun(L, key, marshal) == Shift(DeleteRun(L[2..], Token(L[1].secretResult.value, o.spec.authSecretRef.key), o), 2)
  {
  }

  /** The branches of `deleteFeed`, one event at a time. */
  lemma DeleteRunSteps(R: seq<Event>, token: string, o: FeedObject)
    requires DeleteRun(R, token, o).Some?
    ensures var (out, n) := DeleteRun(R, token, o).value;
      n <= |R| &&
      (FinalizerName !in o.finalizers ==> n == 0 && out == Returned(NoRequeue, None)) &&
      (FinalizerName in o.finalizers && o.status.id.None? ==> n == 0 && out == Returned(NoRequeue, Some(Plain(MissingIdText)))) &&
      (FinalizerName in o.finalizers && o.status.id.Some? ==>
        1 <= n <= 2 && Sent(R[0], token, Putio.BareRequest(Putio.DeleteFeed(o.status.id.value))) &&
        (n == 2 <==> Putio.DeleteOutcome(R[0].reply).None?) &&
        (n == 1 ==> out == Returned(RequeueAfterMinute, Putio.DeleteOutcome(R[0].reply))) &&
        (n == 2 ==> R[1].FeedWritten? && R[1].stored == o.(finalizers := Without(o.finalizers, FinalizerName)) &&
                    out == Returned(NoRequeue, R[1].writeErr)))
  {
  }

  /** The Delete is the one put.io call among the reads and the final write. */
  lemma DeleteCallsAfterReads(L: seq<Event>, n: nat, token: string, id: nat)
    requires 3 <= n <= 4 && n <= |L| && !L[0].Exchange? && !L[1].Exchange?
    requires Sent(L[2], token, Putio.BareRequest(Putio.DeleteFeed(id)))
    requires n == 4 ==> !L[3].Exchange?
    ensures CallsIn(L[..n]) == [Putio.DeleteFeed(id)]
  {
    var M := L[2..];
    CallsAfterReads(L, n);
    CallsOfSent(M[0], token, Putio.DeleteFeed(id), None);
    CallsInOne(M[..1]);
    if n == 4 {
      NoExchangeNoCall(M[1..], 1);
      CallsInCut(M, 1, 2);
    }
  }

  /**
   * A Feed being deleted never syncs: with the finalizer and a stored id,
   * the only put.io call is one Delete of that id, and the finalizer is
   * written away only after put.io accepted it; without the finalizer, or
   * without an id, put.io is not called.
   */
  lemma ReconcileDeletes(L: seq<Event>, key: ObjectKey, marshal: FeedSpec -> string)
    requires ReconcileRun(L, key, marshal).Some? && |L| >= 2
    requires L[0].FeedRead? && L[0].feedResult.Success? && L[1].SecretRead? && L[1].secretResult.Success?
    requires BeingDeleted(L[0].feedResult.value)
    ensures var o := L[0].feedResult.value;
      var (out, n) := ReconcileRun(L, key, marshal).value;
      2 <= n <= |L| &&
      (FinalizerName !in o.finalizers ==> n == 2 && out == Returned(NoRequeue, None)) &&
      (FinalizerName in o.finalizers && o.status.id.None? ==> n == 2 && out == Returned(NoRequeue, Some(Plain(MissingIdText)))) &&
      (n == 2 ==> CallsIn(L[..n]) == []) &&
      (FinalizerName in o.finalizers && o.status.id.Some? ==>
        3 <= n && CallsIn(L[..n]) == [Putio.DeleteFeed(o.status.id.value)] &&
        (n == 4 <==> Putio.DeleteOutcome(L[2].reply).None?) &&
        (n == 3 ==> out == Returned(RequeueAfterMinute, Putio.DeleteOutcome(L[2].reply))) &&
        (n == 4 ==> L[3].FeedWritten? && L[3].stored == o.(finalizers := Without(o.finalizers, FinalizerName)) &&
                    out == Returned(NoRequeue, L[3].writeErr)))
  {
    var o := L[0].feedResult.value;
    var token := Token(L[1].secretResult.value, o.spec.authSecretRef.key);
    ReconcileRunDeletes(L, key, marshal);
    DeleteRunSteps(L[2..], token, o);
    var n := ReconcileRun(L, key, marshal).value.1;
    NoExchangeNoCall(L, 2);
    if n > 2 {
      DeleteCallsAfterReads(L, n, token, o.status.id.value);
    }
  }

  /** A Feed not being deleted is never deleted at put.io, and feeds are never listed. */
  lemma ReconcileSyncNeverDeletes(L: seq<Event>, key: ObjectKey, marshal: FeedSpec -> string)
    requires ReconcileRun(L, key, marshal).Some? && |L| >= 2
    requires L[0].FeedRead? && L[0].feedResult.Success? && L[1].SecretRead? && L[1].secretResult.Success?
    requires !BeingDeleted(L[0].feedResult.value)
    ensures var n := ReconcileRun(L, key, marshal).value.1;
      n <= |L| && forall c :: c in CallsIn(L[..n]) ==> !c.DeleteFeed? && !c.ListFeeds?
  {
    var o := L[0].feedResult.value;
    var token := Token(L[1].secretResult.value, o.spec.authSecretRef.key);
    ReconcileRunSyncs(L, key, marshal);
    var checksum := SpecChecksum(marshal, o.spec);
    RegisterThenSyncRunNeverDeletes(L[2..], key, token, checksum, o);
    NoDeleteAfterReads(L, RegisterThenSyncRun(L[2..], key, token, checksum, o).value.1);
  }
}
