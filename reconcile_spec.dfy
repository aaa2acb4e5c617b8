/**
 * What one pass of the Feed controller (controllers/feed_controller.go) does,
 * stated as a reading of the calls it makes. Each `...Run` function reads a
 * log of calls to the outside world from its start: it follows the decisions
 * the controller takes on the answers already received, checks that each
 * further call is the one the controller makes at that point, and gives the
 * outcome of the pass together with the number of calls it made (None when
 * the log does not start with such a pass). The controller methods are
 * proved to produce logs these functions accept; the lemmas at the end
 * derive the controller's promises from them.
 */
module ReconcileSpec {
  import opened Wrappers
  import opened Fmt
  import opened Errors
  import opened Time
  import CS = Checksum
  import PutioErrors
  import opened FeedApi
  import Putio
  import opened Environment

  const FinalizerName: string := "feed.skynewz.dev/finalizer"
  const ChecksumAnnotation: string := "feed.skynewz.dev/checksum"
  /** Appended to the title of every feed the operator creates or updates at put.io. */
  const TitleSuffix: string := " (managed by Kubernetes/putio-operator)"

  // The context each failure is wrapped with.
  const ReadContext: string := "unable to read Put.io feed"
  const CreateContext: string := "unable to create feed to Put.io"
  const PauseContext: string := "unable to update pause status to Put.io"
  const ResourceContext: string := "unable to update Feed resource"
  const RefreshContext: string := "unable to refresh feed details from Put.io"
  const UpdateContext: string := "unable to update feed to Put.io"
  const MissingIdText: string := "cannot delete Feed without its ID"

  function SecretContext(name: string): string {
    "cannot get secret " + Quote(name)
  }

  /** Go runtime panics the controller can run into. */
  datatype PanicReason = NilPointerDereference | NilMapWrite

  /** The `ctrl.Result` returned: nothing, or `RequeueAfter: time.Minute`. */
  datatype Requeue = NoRequeue | RequeueAfterMinute

  /** How a pass ends: it returns a result and an error, or it panics. */
  datatype Outcome = Returned(requeue: Requeue, err: Option<Error>) | Panicked(reason: PanicReason)

  /** How `createOrUpdateFeed` ends: the put.io feed (possibly nil), an error, or a panic. */
  datatype SyncOutcome = Synced(remote: Option<Putio.Feed>) | SyncFailed(failure: Error) | SyncPanicked(panic: PanicReason)

  // ---------------------------------------------------------------------------
  // Pure decisions

  /** The token in the credentials Secret: a missing key reads as the empty string. */
  function Token(data: map<string, string>, key: string): string {
    if key in data then data[key] else []
  }

  /** `Spec.Paused`; a missing flag (which the webhook never lets through) reads as false. */
  predicate IsPaused(s: FeedSpec) {
    s.paused == Some(true)
  }

  /** The feed as the controller describes it to put.io on Create and Update. */
  function DesiredFeed(s: FeedSpec): (f: Putio.Feed)
    ensures f.title == s.title + TitleSuffix
  {
    Putio.Feed(
      id := None,
      title := s.title + TitleSuffix,
      rssSourceUrl := s.rssSourceUrl,
      parentDirId := s.parentDirId,
      deleteOldFiles := s.deleteOldFiles.GetOr(false),
      dontProcessWholeFeed := s.dontProcessWholeFeed.GetOr(false),
      keyword := s.keyword,
      unwantedKeywords := s.unwantedKeywords,
      paused := false,
      extract := false,
      failedItemCount := 0,
      lastError := [],
      lastFetch := 0,
      createdAt := 0,
      pausedAt := 0,
      startAt := 0,
      updatedAt := 0)
  }

  /**
   * The Create form carries the spec: the title with the managed suffix, the
   * URL, the keywords, the flags, the parent folder, and `paused` false
   * whatever the spec says; the Update form the same without `paused`.
   */
  lemma DesiredFormsCarrySpec(s: FeedSpec)
    ensures Putio.DecodeForm(Putio.CreateForm(DesiredFeed(s))) == Some(Putio.FormFields(
      s.title + TitleSuffix, s.rssSourceUrl, s.keyword, s.unwantedKeywords,
      s.deleteOldFiles.GetOr(false), s.dontProcessWholeFeed.GetOr(false), Some(false), s.parentDirId))
    ensures Putio.DecodeForm(Putio.UpdateForm(DesiredFeed(s))) == Some(Putio.FormFields(
      s.title + TitleSuffix, s.rssSourceUrl, s.keyword, s.unwantedKeywords,
      s.deleteOldFiles.GetOr(false), s.dontProcessWholeFeed.GetOr(false), None, s.parentDirId))
  {
    Putio.CreateFormRoundTrip(DesiredFeed(s));
    Putio.UpdateFormRoundTrip(DesiredFeed(s));
  }

  /** The pause state call for a feed: Pause when the spec says paused, Resume otherwise. */
  function PauseCall(paused: bool, id: nat): Putio.RssCall {
    if paused then Putio.PauseFeed(id) else Putio.ResumeFeed(id)
  }

  /** The checksum of a spec: that of its JSON encoding, `marshal`. */
  function SpecChecksum(marshal: FeedSpec -> string, s: FeedSpec): (r: string)
    ensures |r| == 8
  {
    CS.Checksum(marshal(s))
  }

  /** `feedNeedUpdate`: the recorded checksum differs from the checksum of the current spec. */
  predicate NeedsUpdate(annotations: Option<map<string, string>>, checksum: string) {
    Annotation(annotations, ChecksumAnnotation) != checksum
  }

  /** A resource without the annotation (or without any annotation) always needs an update. */
  lemma MissingChecksumNeedsUpdate(annotations: Option<map<string, string>>, spec: string)
    requires annotations.None? || ChecksumAnnotation !in annotations.value
    ensures NeedsUpdate(annotations, CS.Checksum(spec))
  {
  }

  /** The stored object once `insertChecksum` has recorded the checksum. */
  function WithChecksum(o: FeedObject, checksum: string): FeedObject
    requires o.annotations.Some?
  {
    o.(annotations := Some(o.annotations.value[ChecksumAnnotation := checksum]))
  }

  /**
   * Recording the checksum changes the checksum annotation and nothing else:
   * every other annotation and every other part of the object is kept, and
   * the recorded checksum no longer calls for an update.
   */
  lemma WithChecksumChangesOnlyChecksum(o: FeedObject, checksum: string)
    requires o.annotations.Some?
    ensures WithChecksum(o, checksum).annotations.Some?
    ensures !NeedsUpdate(WithChecksum(o, checksum).annotations, checksum)
    ensures forall k :: k != ChecksumAnnotation ==> Annotation(WithChecksum(o, checksum).annotations, k) == Annotation(o.annotations, k)
    ensures WithChecksum(o, checksum).annotations.value.Keys == o.annotations.value.Keys + {ChecksumAnnotation}
    ensures WithChecksum(o, checksum).(annotations := o.annotations) == o
  {
  }

  /** A remote timestamp as the status records it: only a non-zero one is set. */
  function NonZero(t: Instant): (r: Option<Instant>)
    ensures r.Some? <==> !IsZero(t)
    ensures r.Some? ==> r.value == t
  {
    if IsZero(t) then None else Some(t)
  }

  /** `updateFeedStatus`: the status is replaced as a whole by what put.io reports. */
  function StatusOf(remote: Putio.Feed): (s: FeedStatus)
    ensures s.id == remote.id && s.lastError == remote.lastError && s.failedItemCount == remote.failedItemCount
    ensures s.lastFetch == NonZero(remote.lastFetch) && s.pausedAt == NonZero(remote.pausedAt)
    ensures s.createdAt == NonZero(remote.createdAt) && s.updatedAt == NonZero(remote.updatedAt)
  {
    FeedStatus(remote.id, remote.lastError, NonZero(remote.lastFetch), remote.failedItemCount,
      NonZero(remote.pausedAt), NonZero(remote.createdAt), NonZero(remote.updatedAt))
  }

  /** What the lookup by stored id decides. */
  datatype Lookup = Absent | Found(remote: Putio.Feed) | LookupFailed(err: Error)

  /** A not-found error and a null feed both mean "create it"; any other error aborts. */
  function Classify(r: Result<Option<Putio.Feed>, Error>): (l: Lookup)
    ensures l.LookupFailed? <==> r.Failure? && !PutioErrors.IsNotFound(r.error)
    ensures l.Found? <==> r.Success? && r.value.Some?
  {
    match r
    case Failure(e) => if PutioErrors.IsNotFound(e) then Absent else LookupFailed(Wrapped(ReadContext, e))
    case Success(None) => Absent
    case Success(Some(f)) => Found(f)
  }

  // ---------------------------------------------------------------------------
  // Reading the call log

  /** The event is the put.io request given, sent with the token given. */
  ghost predicate Sent(e: Event, token: string, request: Putio.Request) {
    e.Exchange? && e.token == token && e.request == request
  }

  /** The event writes back the Feed resource given. */
  ghost predicate Wrote(e: Event, o: FeedObject) {
    e.FeedWritten? && e.stored == o
  }

  /** A run that made k calls before handing over to the next stage, which made n more. */
  function Shift<T>(r: Option<(T, nat)>, k: nat): Option<(T, nat)> {
    match r
    case None => None
    case Some((o, n)) => Some((o, n + k))
  }

  /** `insertChecksum` then `r.Update(feed)`: None when the pass goes on, else how it stops. */
  ghost function RecordRun(L: seq<Event>, checksum: string, o: FeedObject): Option<(Option<SyncOutcome>, nat)> {
    if o.annotations.None? then Some((Some(SyncPanicked(NilMapWrite)), 0))
    else if |L| == 0 || !Wrote(L[0], WithChecksum(o, checksum)) then None
    else match L[0].writeErr
    case Some(e) => Some((Some(SyncFailed(Wrapped(ResourceContext, e))), 1))
    case None => Some((None, 1))
  }

  /** The Get that reads the feed back after a Create or an Update. */
  ghost function RefreshRun(L: seq<Event>, token: string, id: nat): Option<(SyncOutcome, nat)> {
    if |L| == 0 || !Sent(L[0], token, Putio.BareRequest(Putio.GetFeed(id))) then None
    else match Putio.FeedOutcome(L[0].reply)
    case Failure(e) => Some((SyncFailed(Wrapped(RefreshContext, e)), 1))
    case Success(refreshed) => Some((Synced(refreshed), 1))
  }

  /**
   * The create branch logs the refreshed feed's id before returning it, which
   * dereferences the feed: a null feed panics there, and a created feed is
   * never handed on as null.
   */
  function LoggedCreated(refreshed: SyncOutcome): (r: SyncOutcome)
    ensures refreshed == Synced(None) ==> r == SyncPanicked(NilPointerDereference)
    ensures refreshed != Synced(None) ==> r == refreshed
    ensures r != Synced(None)
  {
    if refreshed == Synced(None) then SyncPanicked(NilPointerDereference) else refreshed
  }

  /** After the Create of feed id: its pause state, then the checksum, then the refresh. */
  ghost function CreatedRun(L: seq<Event>, token: string, checksum: string, o: FeedObject, id: nat): Option<(SyncOutcome, nat)> {
    if |L| == 0 || !Sent(L[0], token, Putio.BareRequest(PauseCall(IsPaused(o.spec), id))) then None
    else match Putio.StatusOutcome(L[0].reply)
    case Some(e) => Some((SyncFailed(Wrapped(PauseContext, e)), 1))
    case None =>
      var R := L[1..];
      match RecordRun(R, checksum, o)
      case None => None
      case Some((Some(stop), k)) => Some((stop, k + 1))
      case Some((None, k)) =>
        if |R| < k then None
        else match RefreshRun(R[k..], token, id)
        case None => None
        case Some((refreshed, j)) => Some((LoggedCreated(refreshed), j + k + 1))
  }

  /** The create branch of `createOrUpdateFeed`, on the resource as it was when the branch started. */
  ghost function CreateRun(L: seq<Event>, token: string, checksum: string, o: FeedObject): Option<(SyncOutcome, nat)> {
    if |L| == 0 || !Sent(L[0], token, Putio.CreateRequest(DesiredFeed(o.spec))) then None
    else match Putio.FeedOutcome(L[0].reply)
    case Failure(e) => Some((SyncFailed(Wrapped(CreateContext, e)), 1))
    case Success(created) =>
      if created.None? || created.value.id.None? then Some((SyncPanicked(NilPointerDereference), 1))
      else Shift(CreatedRun(L[1..], token, checksum, o, created.value.id.value), 1)
  }

  /** After the Update of feed id: its pause state, then the refresh, then the checksum. */
  ghost function UpdatedRun(L: seq<Event>, token: string, checksum: string, o: FeedObject, id: nat): Option<(SyncOutcome, nat)> {
    if |L| == 0 || !Sent(L[0], token, Putio.BareRequest(PauseCall(IsPaused(o.spec), id))) then None
    else match Putio.StatusOutcome(L[0].reply)
    case Some(e) => Some((SyncFailed(Wrapped(PauseContext, e)), 1))
    case None =>
      var R := L[1..];
      match RefreshRun(R, token, id)
      case None => None
      case Some((SyncFailed(e), k)) => Some((SyncFailed(e), k + 1))
      case Some((SyncPanicked(p), k)) => Some((SyncPanicked(p), k + 1))
      case Some((Synced(refreshed), k)) =>
        if |R| < k then None
        else match RecordRun(R[k..], checksum, o)
        case None => None
        case Some((Some(stop), j)) => Some((stop, j + k + 1))
        case Some((None, j)) => Some((Synced(refreshed), j + k + 1))
  }

  /** The update branch of `createOrUpdateFeed`, for the put.io feed the lookup found. */
  ghost function UpdateRun(L: seq<Event>, token: string, checksum: string, o: FeedObject, remote: Putio.Feed): Option<(SyncOutcome, nat)> {
    if remote.id.None? then Some((SyncPanicked(NilPointerDereference), 0))
    else
      var id := remote.id.value;
      if |L| == 0 || !Sent(L[0], token, Putio.UpdateRequest(DesiredFeed(o.spec), id)) then None
      else match Putio.StatusOutcome(L[0].reply)
      case Some(e) => Some((SyncFailed(Wrapped(UpdateContext, e)), 1))
      case None => Shift(UpdatedRun(L[1..], token, checksum, o, id), 1)
  }

  /** `createOrUpdateFeed`: look the feed up by its stored id, then create it, update it, or leave it. */
  ghost function SyncRun(L: seq<Event>, token: string, checksum: string, o: FeedObject): Option<(SyncOutcome, nat)> {
    match o.status.id
    case None => CreateRun(L, token, checksum, o)
    case Some(n) =>
      if |L| == 0 || !Sent(L[0], token, Putio.BareRequest(Putio.GetFeed(n))) then None
      else match Classify(Putio.FeedOutcome(L[0].reply))
      case LookupFailed(e) => Some((SyncFailed(e), 1))
      case Absent => Shift(CreateRun(L[1..], token, checksum, o), 1)
      case Found(remote) =>
        if NeedsUpdate(o.annotations, checksum) then Shift(UpdateRun(L[1..], token, checksum, o, remote), 1)
        else Some((Synced(Some(remote)), 1))
  }

  /** The deletion branch of `Reconcile`, with `deleteFeed`. */
  ghost function DeleteRun(L: seq<Event>, token: string, o: FeedObject): Option<(Outcome, nat)> {
    if FinalizerName !in o.finalizers then Some((Returned(NoRequeue, None), 0))
    else match o.status.id
    case None => Some((Returned(NoRequeue, Some(Plain(MissingIdText))), 0))
    case Some(n) =>
      if |L| == 0 || !Sent(L[0], token, Putio.BareRequest(Putio.DeleteFeed(n))) then None
      else match Putio.DeleteOutcome(L[0].reply)
      case Some(e) => Some((Returned(RequeueAfterMinute, Some(e)), 1))
      case None =>
        if |L| < 2 || !Wrote(L[1], o.(finalizers := Without(o.finalizers, FinalizerName))) then None
        else Some((Returned(NoRequeue, L[1].writeErr), 2))
  }

  /** Reading the Feed again and recording what put.io reported in its status. */
  ghost function StatusRun(L: seq<Event>, key: ObjectKey, remote: Option<Putio.Feed>): Option<(Outcome, nat)> {
    if |L| == 0 || !(L[0].FeedRead? && L[0].key == key) then None
    else match L[0].feedResult
    case Failure(e) => Some((Returned(NoRequeue, IgnoreNotFound(e)), 1))
    case Success(current) =>
      if remote.None? then Some((Panicked(NilPointerDereference), 1))
      else if |L| < 2 || !(L[1].StatusWritten? && L[1].stored == current.(status := StatusOf(remote.value))) then None
      else Some((Returned(NoRequeue, L[1].writeErr), 2))
  }

  /** The rest of `Reconcile` once the finalizer is in place: sync, read the resource again, record the status. */
  ghost function SyncThenStatusRun(L: seq<Event>, key: ObjectKey, token: string, checksum: string, o: FeedObject): Option<(Outcome, nat)> {
    match SyncRun(L, token, checksum, o)
    case None => None
    case Some((SyncFailed(e), n)) => Some((Returned(NoRequeue, Some(e)), n))
    case Some((SyncPanicked(p), n)) => Some((Panicked(p), n))
    case Some((Synced(remote), n)) => if |L| < n then None else Shift(StatusRun(L[n..], key, remote), n)
  }

  /** The resource with the finalizer registered. */
  function WithFinalizer(o: FeedObject): (r: FeedObject)
    ensures FinalizerName in r.finalizers
    ensures r == o.(finalizers := r.finalizers)
  {
    o.(finalizers := o.finalizers + [FinalizerName])
  }

  /** The sync branch of `Reconcile`: register the finalizer if it is missing, then sync. */
  ghost function RegisterThenSyncRun(L: seq<Event>, key: ObjectKey, token: string, checksum: string, o: FeedObject): Option<(Outcome, nat)> {
    if FinalizerName in o.finalizers then SyncThenStatusRun(L, key, token, checksum, o)
    else if |L| == 0 || !Wrote(L[0], WithFinalizer(o)) then None
    else match L[0].writeErr
    case Some(e) => Some((Returned(NoRequeue, Some(e)), 1))
    case None => Shift(SyncThenStatusRun(L[1..], key, token, checksum, WithFinalizer(o)), 1)
  }

  /** One pass of `Reconcile` for the Feed under `key`; `marshal` is the JSON encoding of a spec. */
  ghost function ReconcileRun(L: seq<Event>, key: ObjectKey, marshal: FeedSpec -> string): Option<(Outcome, nat)> {
    if |L| == 0 || !(L[0].FeedRead? && L[0].key == key) then None
    else match L[0].feedResult
    case Failure(e) => Some((Returned(NoRequeue, IgnoreNotFound(e)), 1))
    case Success(o) =>
      var ref := o.spec.authSecretRef;
      if |L| < 2 || !(L[1].SecretRead? && L[1].key == ObjectKey(key.namespace, ref.name)) then None
      else match L[1].secretResult
      case Failure(e) => Some((Returned(NoRequeue, Some(Wrapped(SecretContext(ref.name), e))), 2))
      case Success(data) =>
        var token := Token(data, ref.key);
        if BeingDeleted(o) then Shift(DeleteRun(L[2..], token, o), 2)
        else Shift(RegisterThenSyncRun(L[2..], key, token, SpecChecksum(marshal, o.spec), o), 2)
  }

  // ---------------------------------------------------------------------------
  // A stage reads only the calls it counts: calls after them do not change its reading.

  /** Appending two pieces to a log in turn appends their concatenation. */
  lemma Appended(L: seq<Event>, A: seq<Event>, B: seq<Event>)
    ensures L + A + B == L + (A + B)
  {
  }

  /** A concatenation splits back into its two pieces. */
  lemma Split(A: seq<Event>, B: seq<Event>)
    ensures (A + B)[..|A|] == A && (A + B)[|A|..] == B
  {
  }

  lemma PrefixRead(S: seq<Event>, M: seq<Event>, i: nat)
    requires i <= |S|
    ensures (S + M)[i..] == S[i..] + M
    ensures i < |S| ==> (S + M)[i] == S[i]
  {
  }

  lemma RecordRunReadsPrefix(S: seq<Event>, M: seq<Event>, checksum: string, o: FeedObject)
    requires RecordRun(S, checksum, o).Some? && RecordRun(S, checksum, o).value.1 == |S|
    ensures RecordRun(S + M, checksum, o) == RecordRun(S, checksum, o)
  {
    if |S| > 0 { PrefixRead(S, M, 0); }
  }

  lemma RefreshRunReadsPrefix(S: seq<Event>, M: seq<Event>, token: string, id: nat)
    requires RefreshRun(S, token, id).Some? && RefreshRun(S, token, id).value.1 == |S|
    ensures RefreshRun(S + M, token, id) == RefreshRun(S, token, id)
  {
    PrefixRead(S, M, 0);
  }

  lemma CreatedRunReadsPrefix(S: seq<Event>, M: seq<Event>, token: string, checksum: string, o: FeedObject, id: nat)
    requires CreatedRun(S, token, checksum, o, id).Some? && CreatedRun(S, token, checksum, o, id).value.1 == |S|
    ensures CreatedRun(S + M, token, checksum, o, id) == CreatedRun(S, token, checksum, o, id)
  {
    PrefixRead(S, M, 0);
    PrefixRead(S, M, 1);
    if Putio.StatusOutcome(S[0].reply).None? {
      var R := S[1..];
      var k := RecordRun(R, checksum, o).value.1;
      if RecordRun(R, checksum, o).value.0.Some? {
        RecordRunReadsPrefix(R, M, checksum, o);
      } else {
        Split(R[..k], R[k..]);
        assert R == R[..k] + R[k..];
        RecordRunReadsPrefix(R[..k], R[k..] + M, checksum, o);
        Appended(R[..k], R[k..], M);
        Split(R[..k], R[k..] + M);
        RefreshRunReadsPrefix(R[k..], M, token, id);
      }
    }
  }

  lemma CreateRunReadsPrefix(S: seq<Event>, M: seq<Event>, token: string, checksum: string, o: FeedObject)
    requires CreateRun(S, token, checksum, o).Some? && CreateRun(S, token, checksum, o).value.1 == |S|
    ensures CreateRun(S + M, token, checksum, o) == CreateRun(S, token, checksum, o)
  {
    PrefixRead(S, M, 0);
    PrefixRead(S, M, 1);
    var created := Putio.FeedOutcome(S[0].reply);
    if created.Success? && created.value.Some? && created.value.value.id.Some? {
      CreatedRunReadsPrefix(S[1..], M, token, checksum, o, created.value.value.id.value);
    }
  }

  lemma UpdatedRunReadsPrefix(S: seq<Event>, M: seq<Event>, token: string, checksum: string, o: FeedObject, id: nat)
    requires UpdatedRun(S, token, checksum, o, id).Some? && UpdatedRun(S, token, checksum, o, id).value.1 == |S|
    ensures UpdatedRun(S + M, token, checksum, o, id) == UpdatedRun(S, token, checksum, o, id)
  {
    PrefixRead(S, M, 0);
    PrefixRead(S, M, 1);
    if Putio.StatusOutcome(S[0].reply).None? {
      var R := S[1..];
      if RefreshRun(R, token, id).value.0.Synced? {
        Split(R[..1], R[1..]);
        assert R == R[..1] + R[1..];
        RefreshRunReadsPrefix(R[..1], R[1..] + M, token, id);
        Appended(R[..1], R[1..], M);
        Split(R[..1], R[1..] + M);
        RecordRunReadsPrefix(R[1..], M, checksum, o);
      } else {
        RefreshRunReadsPrefix(R, M, token, id);
      }
    }
  }

  lemma UpdateRunReadsPrefix(S: seq<Event>, M: seq<Event>, token: string, checksum: string, o: FeedObject, remote: Putio.Feed)
    requires UpdateRun(S, token, checksum, o, remote).Some? && UpdateRun(S, token, checksum, o, remote).value.1 == |S|
    ensures UpdateRun(S + M, token, checksum, o, remote) == UpdateRun(S, token, checksum, o, remote)
  {
    if remote.id.Some? {
      PrefixRead(S, M, 0);
      PrefixRead(S, M, 1);
      if Putio.StatusOutcome(S[0].reply).None? {
        UpdatedRunReadsPrefix(S[1..], M, token, checksum, o, remote.id.value);
      }
    }
  }

  lemma SyncRunReadsPrefix(S: seq<Event>, M: seq<Event>, token: string, checksum: string, o: FeedObject)
    requires SyncRun(S, token, checksum, o).Some? && SyncRun(S, token, checksum, o).value.1 == |S|
    ensures SyncRun(S + M, token, checksum, o) == SyncRun(S, token, checksum, o)
  {
    if o.status.id.None? {
      CreateRunReadsPrefix(S, M, token, checksum, o);
    } else {
      PrefixRead(S, M, 0);
      PrefixRead(S, M, 1);
      var lookup := Classify(Putio.FeedOutcome(S[0].reply));
      if lookup.Absent? {
        CreateRunReadsPrefix(S[1..], M, token, checksum, o);
      } else if lookup.Found? && NeedsUpdate(o.annotations, checksum) {
        UpdateRunReadsPrefix(S[1..], M, token, checksum, o, lookup.remote);
      }
    }
  }

  // ---------------------------------------------------------------------------
  // A stage run after another reads as the composition of the two.

  /** The pause call of feed id was sent and succeeded. */
  ghost predicate PauseSucceeded(P: seq<Event>, token: string, o: FeedObject, id: nat) {
    |P| == 1 && Sent(P[0], token, Putio.BareRequest(PauseCall(IsPaused(o.spec), id))) && Putio.StatusOutcome(P[0].reply).None?
  }

  lemma CreatedRunStopped(P: seq<Event>, C: seq<Event>, token: string, checksum: string, o: FeedObject, id: nat, stop: SyncOutcome)
    requires PauseSucceeded(P, token, o, id)
    requires RecordRun(C, checksum, o) == Some((Some(stop), |C|))
    ensures CreatedRun(P + C, token, checksum, o, id) == Some((stop, |P + C|))
  {
    Split(P, C);
  }

  lemma CreatedRunRefreshed(P: seq<Event>, C: seq<Event>, F: seq<Event>, token: string, checksum: string, o: FeedObject, id: nat, out: SyncOutcome)
    requires PauseSucceeded(P, token, o, id)
    requires RecordRun(C, checksum, o) == Some((None, |C|))
    requires RefreshRun(F, token, id) == Some((out, |F|))
    ensures CreatedRun(P + C + F, token, checksum, o, id) == Some((LoggedCreated(out), |P + C + F|))
  {
    Appended(P, C, F);
    Split(P, C + F);
    Split(C, F);
    RecordRunReadsPrefix(C, F, checksum, o);
  }

  /** The create branch never hands on a null feed: reading the refreshed feed's id panics first. */
  lemma CreateRunNeverSyncsNull(L: seq<Event>, token: string, checksum: string, o: FeedObject)
    requires CreateRun(L, token, checksum, o).Some?
    ensures CreateRun(L, token, checksum, o).value.0 != Synced(None)
  {
  }

  lemma CreateRunContinues(X: seq<Event>, R: seq<Event>, token: string, checksum: string, o: FeedObject, id: nat, out: SyncOutcome)
    requires |X| == 1 && Sent(X[0], token, Putio.CreateRequest(DesiredFeed(o.spec)))
    requires var created := Putio.FeedOutcome(X[0].reply);
      created.Success? && created.value.Some? && created.value.value.id == Some(id)
    requires CreatedRun(R, token, checksum, o, id) == Some((out, |R|))
    ensures CreateRun(X + R, token, checksum, o) == Some((out, |X + R|))
  {
    Split(X, R);
  }

  lemma UpdatedRunRefreshFailed(P: seq<Event>, F: seq<Event>, token: string, checksum: string, o: FeedObject, id: nat, out: SyncOutcome)
    requires PauseSucceeded(P, token, o, id)
    requires RefreshRun(F, token, id) == Some((out, |F|)) && !out.Synced?
    ensures UpdatedRun(P + F, token, checksum, o, id) == Some((out, |P + F|))
  {
    Split(P, F);
  }

  lemma UpdatedRunRecorded(P: seq<Event>, F: seq<Event>, C: seq<Event>, token: string, checksum: string, o: FeedObject, id: nat,
                           refreshed: Option<Putio.Feed>, stop: Option<SyncOutcome>)
    requires PauseSucceeded(P, token, o, id)
    requires RefreshRun(F, token, id) == Some((Synced(refreshed), |F|))
    requires RecordRun(C, checksum, o) == Some((stop, |C|))
    ensures UpdatedRun(P + F + C, token, checksum, o, id) ==
      Some((if stop.Some? then stop.value else Synced(refreshed), |P + F + C|))
  {
    Appended(P, F, C);
    Split(P, F + C);
    Split(F, C);
    RefreshRunReadsPrefix(F, C, token, id);
  }

  lemma UpdateRunContinues(X: seq<Event>, R: seq<Event>, token: string, checksum: string, o: FeedObject, remote: Putio.Feed, out: SyncOutcome)
    requires remote.id.Some?
    requires |X| == 1 && Sent(X[0], token, Putio.UpdateRequest(DesiredFeed(o.spec), remote.id.value))
    requires Putio.StatusOutcome(X[0].reply).None?
    requires UpdatedRun(R, token, checksum, o, remote.id.value) == Some((out, |R|))
    ensures UpdateRun(X + R, token, checksum, o, remote) == Some((out, |X + R|))
  {
    Split(X, R);
  }

  lemma SyncRunContinues(X: seq<Event>, R: seq<Event>, token: string, checksum: string, o: FeedObject, out: SyncOutcome)
    requires o.status.id.Some?
    requires |X| == 1 && Sent(X[0], token, Putio.BareRequest(Putio.GetFeed(o.status.id.value)))
    requires var lookup := Classify(Putio.FeedOutcome(X[0].reply));
      (lookup.Absent? && CreateRun(R, token, checksum, o) == Some((out, |R|))) ||
      (lookup.Found? && NeedsUpdate(o.annotations, checksum) && UpdateRun(R, token, checksum, o, lookup.remote) == Some((out, |R|)))
    ensures SyncRun(X + R, token, checksum, o) == Some((out, |X + R|))
  {
    Split(X, R);
  }

  lemma SyncThenStatusRunStops(S: seq<Event>, key: ObjectKey, token: string, checksum: string, o: FeedObject, out: SyncOutcome)
    requires SyncRun(S, token, checksum, o) == Some((out, |S|)) && !out.Synced?
    ensures SyncThenStatusRun(S, key, token, checksum, o) ==
      Some((if out.SyncFailed? then Returned(NoRequeue, Some(out.failure)) else Panicked(out.panic), |S|))
  {
  }

  lemma SyncThenStatusRunComposes(S: seq<Event>, R: seq<Event>, key: ObjectKey, token: string, checksum: string, o: FeedObject,
                                  remote: Option<Putio.Feed>, outcome: Outcome)
    requires SyncRun(S, token, checksum, o) == Some((Synced(remote), |S|))
    requires StatusRun(R, key, remote) == Some((outcome, |R|))
    ensures SyncThenStatusRun(S + R, key, token, checksum, o) == Some((outcome, |S + R|))
  {
    SyncRunReadsPrefix(S, R, token, checksum, o);
    Split(S, R);
    StatusAfterSync(S + R, |S|, key, token, checksum, o, remote, outcome);
  }

  lemma StatusAfterSync(L: seq<Event>, n: nat, key: ObjectKey, token: string, checksum: string, o: FeedObject,
                        remote: Option<Putio.Feed>, outcome: Outcome)
    requires n <= |L| && SyncRun(L, token, checksum, o) == Some((Synced(remote), n))
    requires StatusRun(L[n..], key, remote) == Some((outcome, |L| - n))
    ensures SyncThenStatusRun(L, key, token, checksum, o) == Some((outcome, |L|))
  {
  }

  lemma RegisterThenSyncRunComposes(W: seq<Event>, R: seq<Event>, key: ObjectKey, token: string, checksum: string, o: FeedObject, outcome: Outcome)
    requires FinalizerName !in o.finalizers
    requires |W| == 1 && Wrote(W[0], WithFinalizer(o)) && W[0].writeErr.None?
    requires SyncThenStatusRun(R, key, token, checksum, WithFinalizer(o)) == Some((outcome, |R|))
    ensures RegisterThenSyncRun(W + R, key, token, checksum, o) == Some((outcome, |W + R|))
  {
    Split(W, R);
  }

  lemma RegisterThenSyncRunPresent(R: seq<Event>, key: ObjectKey, token: string, checksum: string, o: FeedObject, outcome: Outcome)
    requires FinalizerName in o.finalizers
    requires SyncThenStatusRun(R, key, token, checksum, o) == Some((outcome, |R|))
    ensures RegisterThenSyncRun(R, key, token, checksum, o) == Some((outcome, |R|))
  {
  }

  lemma RegisterThenSyncRunWriteFailed(W: seq<Event>, key: ObjectKey, token: string, checksum: string, o: FeedObject)
    requires FinalizerName !in o.finalizers
    requires |W| == 1 && Wrote(W[0], WithFinalizer(o)) && W[0].writeErr.Some?
    ensures RegisterThenSyncRun(W, key, token, checksum, o) == Some((Returned(NoRequeue, W[0].writeErr), 1))
  {
  }

  lemma ReconcileRunContinues(H: seq<Event>, R: seq<Event>, key: ObjectKey, marshal: FeedSpec -> string,
                              o: FeedObject, data: map<string, string>, outcome: Outcome)
    requires |H| == 2 && H[0] == FeedRead(key, Success(o))
    requires H[1] == SecretRead(ObjectKey(key.namespace, o.spec.authSecretRef.name), Success(data))
    requires var token := Token(data, o.spec.authSecretRef.key);
      if BeingDeleted(o) then DeleteRun(R, token, o) == Some((outcome, |R|))
      else RegisterThenSyncRun(R, key, token, SpecChecksum(marshal, o.spec), o) == Some((outcome, |R|))
    ensures ReconcileRun(H + R, key, marshal) == Some((outcome, |H + R|))
  {
    Split(H, R);
    PrefixRead(H, R, 0);
    PrefixRead(H, R, 1);
  }

  lemma ReconcileRunLoadFailed(H: seq<Event>, key: ObjectKey, marshal: FeedSpec -> string, e: Error)
    requires H == [FeedRead(key, Failure(e))]
    ensures ReconcileRun(H, key, marshal) == Some((Returned(NoRequeue, IgnoreNotFound(e)), 1))
  {
  }

  lemma ReconcileRunSecretFailed(H: seq<Event>, key: ObjectKey, marshal: FeedSpec -> string, o: FeedObject, e: Error)
    requires H == [FeedRead(key, Success(o)), SecretRead(ObjectKey(key.namespace, o.spec.authSecretRef.name), Failure(e))]
    ensures ReconcileRun(H, key, marshal) == Some((Returned(NoRequeue, Some(Wrapped(SecretContext(o.spec.authSecretRef.name), e))), 2))
  {
  }
}
