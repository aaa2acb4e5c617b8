# putio-operator in Dafny

A model of the Feed controller of putio-operator, a Kubernetes operator. Each `Feed` custom resource
describes an RSS feed that the operator keeps in sync with a put.io account. On each reconcile pass
the controller:

- loads the Feed and the Secret that holds the put.io token;
- adds its finalizer, or, when the Feed is being deleted, deletes the remote feed and removes the
  finalizer;
- otherwise looks the remote feed up by the id stored in the status;
- creates it, or updates it when the spec checksum recorded in an annotation is stale, or leaves it
  alone;
- sets its pause state and reads it back;
- records the checksum and the remote feed's status.

The model also covers the helpers this depends on:

- the checksum of `controllers/common.go`: whitespace trimming, collapsing of newline runs,
  CRC-32 (IEEE) and `%08x`;
- the not-found classification and the invalid-status message of the put.io error types;
- the endpoints, request forms and status checks of the put.io RSS client;
- the admission webhook's defaulting and validation of a Feed spec. This includes the part of
  Go's `url.ParseRequestURI` that the validation relies on.

Modules, one per file:

| file | module | models |
|---|---|---|
| wrappers.dfy | Wrappers | `Option` and `Result` |
| fmt.dfy | Fmt | `%d`/`strconv.Itoa`, `%08x`, `%t`, `%q`, each with its inverse |
| time.dfy | Time | instants and `IsZero` |
| errors.dfy | Errors | Go error chains, `errors.As`, `client.IgnoreNotFound` |
| putio_errors.dfy | PutioErrors | `IsNotFound`, `InvalidStatusReceivedError` |
| putio.dfy | Putio | the put.io feed record, endpoints, forms, reply checks |
| checksum.dfy | Checksum | `Checksum` of common.go |
| request_uri.dfy | RequestUri | `url.ParseRequestURI` |
| feed_api.dfy | FeedApi | the Feed resource, finalizer list edits, `Default`, the `Validate*` webhooks |
| environment.dfy | Environment | the Kubernetes API and put.io as a world that answers arbitrarily and logs every call |
| putio_client.dfy | PutioClient | the `rssService` methods over that world |
| reconcile_spec.dfy | ReconcileSpec | one reconcile pass as a reading of the call log |
| controller.dfy | Controller | `FeedReconciler` and its methods, proved to produce logs that reading accepts |
| reconcile_calls.dfy | ReconcileCalls | which put.io calls a pass makes, in which order |

**How the controller is specified.**
- Every call to the outside world appends an `Event`, with the answer it got, to a ghost log kept by
  `Environment.Env`. Those calls are Feed reads, Secret reads, Feed and status writes, and put.io
  exchanges.
- Each controller method returns the events it added. It ensures that the matching `...Run` function
  of `ReconcileSpec` reads those events back as a pass that ends with the method's outcome.
- The `...Run` functions follow the branches of `controllers/feed_controller.go` one by one.
  They cover the early returns, the wrapped error messages, the `RequeueAfter` of a failed delete
  and the Go panics on nil pointers and nil maps, including the log line of the create branch that
  reads the id of the refreshed feed and so panics when put.io answers the refresh with a null feed.
- The lemmas of `ReconcileCalls` derive the promises of the controller from those functions:
  which put.io operations a pass sends, how many, and in which order.

**Where the specification and the code differ, the model follows the code:**
- `FeedSpec` carries its optional fields as `Option`. The webhook treats them as nullable pointers;
  the type file declares some of them as plain values. The controller reads a missing `paused` as false.
- The controller's Create request always sends `paused=false`; the pause state is set by the
  Pause or Resume call that follows.
- Update, Pause and Resume reject a status other than "OK" with a plain `fmt.Errorf` message
  (`put.io: invalid status received "<status>"`). They do not use the `InvalidStatusReceivedError`
  type. Both are modelled.
- Change detection is the checksum annotation. The unit tests in controllers/feed_controller_test.go
  call title and generation helpers that the controller does not define; they are not modelled.

## Model

| member | source | states |
|---|---|---|
| Controller.FeedReconciler.Reconcile | controllers/feed_controller.go:65-158 | the events a pass adds to the log are read by `ReconcileRun` as a complete pass ending in the returned outcome, including a panic on a null feed refreshed after a Create |
| ReconcileSpec.ReconcileRunLoadFailed | controllers/feed_controller.go:77-80 | a Feed that cannot be loaded ends the pass after one read, with no error if it is not found and the error otherwise |
| ReconcileSpec.ReconcileRunSecretFailed | controllers/feed_controller.go:84-89 | an unreadable Secret ends the pass after two reads with the error wrapped as `cannot get secret "<name>"` |
| ReconcileSpec.ReconcileRunContinues | controllers/feed_controller.go:90-134 | after the two reads the pass is the deletion branch when the Feed is being deleted, otherwise the register-then-sync branch, using the token under the referenced key |
| ReconcileCalls.ReconcileStopsBeforeBranching | controllers/feed_controller.go:77-89 | a failed load or Secret read makes at most the two reads, no put.io call and no write, and returns without requeue |
| ReconcileCalls.ReconcileRegistersFinalizerFirst | controllers/feed_controller.go:93-105 | with the finalizer missing, the third call writes the Feed with the finalizer added and nothing else changed, before any put.io call; a failed write ends the pass with that error |
| ReconcileCalls.RegisterRunWritesFirst | controllers/feed_controller.go:97-103 | the register step's first call writes the Feed with the finalizer; a failed write stops with that error |
| ReconcileCalls.ReconcileDeletes | controllers/feed_controller.go:106-132 | a Feed being deleted: no finalizer means done with no call; finalizer but no id means the missing-id error with no call; otherwise exactly one put.io call, Delete of the stored id; the finalizer is removed (and the Feed written) iff Delete succeeded, and a failed Delete requeues after a minute |
| ReconcileCalls.ReconcileSyncNeverDeletes | controllers/feed_controller.go:93-157 | a Feed not being deleted never causes a Delete or a List at put.io |
| ReconcileCalls.DeleteRunSteps | controllers/feed_controller.go:106-132 | the deletion branch step by step: requeue and error of each exit, and the finalizer list written back without the finalizer |
| Controller.FeedReconciler.Finalize | controllers/feed_controller.go:106-132 | the deletion branch produces the log `DeleteRun` reads, ending in the returned outcome |
| Controller.FeedReconciler.DeleteFeed | controllers/feed_controller.go:170-185 | no id: no call, no requeue, the missing-id error; an id: exactly one Delete request for that id, requeue after a minute, and the Delete error |
| Controller.FeedReconciler.RegisterThenSync | controllers/feed_controller.go:93-157 | register the finalizer when missing, then sync and record the status, as `RegisterThenSyncRun` reads it |
| ReconcileSpec.RegisterThenSyncRunComposes | controllers/feed_controller.go:97-134 | a successful finalizer write followed by the sync branch on the updated Feed is one register-then-sync run |
| ReconcileSpec.RegisterThenSyncRunPresent | controllers/feed_controller.go:97-134 | with the finalizer already present nothing is written before the sync |
| ReconcileSpec.RegisterThenSyncRunWriteFailed | controllers/feed_controller.go:99-103 | a failed finalizer write ends the pass with that error after one call |
| Controller.FeedReconciler.SyncThenStatus | controllers/feed_controller.go:134-157 | sync with put.io, then reload the Feed and write its status, as `SyncThenStatusRun` reads it |
| ReconcileSpec.SyncThenStatusRunStops | controllers/feed_controller.go:134-139 | a sync that fails or panics ends the pass with that error or panic, with no reload |
| ReconcileSpec.SyncThenStatusRunComposes | controllers/feed_controller.go:134-157 | a successful sync followed by the reload-and-status step is one run ending in that step's outcome |
| ReconcileCalls.SyncThenStatusRunNeverDeletes | controllers/feed_controller.go:134-157 | sync plus status never sends Delete or List |
| ReconcileCalls.RegisterThenSyncRunNeverDeletes | controllers/feed_controller.go:93-157 | register plus sync plus status never sends Delete or List |
| Controller.FeedReconciler.ReloadThenStatus | controllers/feed_controller.go:143-153 | reload the Feed (not found is no error) and write its status from the remote feed, as `StatusRun` reads it |
| ReconcileCalls.StatusRunCalls | controllers/feed_controller.go:143-153 | reloading and recording the status makes no put.io call |
| Controller.FeedReconciler.UpdateFeedStatus | controllers/feed_controller.go:310-345 | a nil remote feed panics without writing; otherwise the status becomes `StatusOf(remote)` and is written once |
| ReconcileSpec.StatusOf | controllers/feed_controller.go:318-342 | the status is replaced whole: id, last error and failed-item count copied, each timestamp set exactly when the remote one is non-zero |
| ReconcileSpec.NonZero | controllers/feed_controller.go:324-342 | a timestamp is kept iff it is not Go's zero time |
| Controller.FeedReconciler.CreateOrUpdateFeed | controllers/feed_controller.go:187-308 | look up, then create, update or leave the remote feed, as `SyncRun` reads it |
| ReconcileSpec.Classify | controllers/feed_controller.go:198-208 | a Get that fails with a non-not-found error aborts; a not-found error or a nil feed means create; a feed means found |
| ReconcileCalls.SyncRunStopsOnLookupFailure | controllers/feed_controller.go:198-205 | a failed lookup other than not-found ends the sync after the one Get, with the error wrapped as `unable to read Put.io feed`, and no Create, Update, Pause or Resume |
| ReconcileCalls.SyncRunCreatesWithoutId | controllers/feed_controller.go:198-257 | without a stored id the first call is the Create with the desired feed; exactly one Create is sent, never Update, Delete or List; a created feed gets one pause state call and possibly the refresh |
| ReconcileCalls.SyncRunCreatesWhenAbsent | controllers/feed_controller.go:198-257 | a Get that finds nothing is followed by exactly one Create, then the pause state calls, and no Update, Delete or List |
| ReconcileCalls.SyncRunLeavesUnchanged | controllers/feed_controller.go:260-307 | a found feed whose checksum annotation is current is returned as fetched, after the Get alone: no Update, Pause or Resume |
| ReconcileCalls.SyncRunUpdatesChanged | controllers/feed_controller.go:260-304 | a found feed with a stale checksum gets one Update of its id with the desired feed; if accepted, exactly one pause state call then possibly the refresh; if refused, nothing more |
| ReconcileCalls.SyncRunPanicsOnFeedWithoutId | controllers/feed_controller.go:260-262 | a found feed with a stale checksum but no id panics on the nil id after the Get |
| ReconcileCalls.SyncRunNeverDeletes | controllers/feed_controller.go:187-308 | `createOrUpdateFeed` never sends Delete or List |
| ReconcileCalls.CreateRunCalls | controllers/feed_controller.go:208-257 | the create branch sends the Create first; a reply without a feed id ends it; otherwise Create, then Pause iff the spec says paused (else Resume), then possibly the refresh Get of the new id |
| ReconcileCalls.UpdateRunCalls | controllers/feed_controller.go:260-304 | the update branch: no id panics with no call; a refused Update sends nothing more; an accepted one is followed by Pause iff paused (else Resume) and possibly the refresh Get |
| ReconcileCalls.CreatedRunCalls | controllers/feed_controller.go:230-256 | after a Create: one pause state call, then possibly the refresh Get of the same id, and nothing else at put.io |
| ReconcileCalls.UpdatedRunCalls | controllers/feed_controller.go:278-303 | after an Update: one pause state call, then possibly the refresh Get of the same id, and nothing else at put.io |
| ReconcileCalls.CreateCallsOnlyCreate | controllers/feed_controller.go:208-257 | the calls of the create branch hold exactly one Create and no Update, Delete or List |
| ReconcileCalls.UpdateCallsNeverDelete | controllers/feed_controller.go:260-304 | the calls of the update branch hold no Delete or List |
| ReconcileCalls.SyncRunFoundNeverDeletes | controllers/feed_controller.go:260-307 | after a Get that finds the feed, no Delete or List follows |
| ReconcileCalls.RecordRunCalls | controllers/feed_controller.go:242-246 | recording the checksum makes no put.io call |
| ReconcileCalls.RefreshRunCalls | controllers/feed_controller.go:290-295 | the refresh is exactly one Get of the feed's id |
| Controller.FeedReconciler.CreateRemote | controllers/feed_controller.go:208-257 | the create branch produces the log `CreateRun` reads |
| Controller.FeedReconciler.AfterCreate | controllers/feed_controller.go:230-256 | pause state, checksum, then refresh, as `CreatedRun` reads it; a null refreshed feed panics at the log line instead of being returned |
| Controller.FeedReconciler.UpdateRemote | controllers/feed_controller.go:260-277 | the update branch produces the log `UpdateRun` reads |
| Controller.FeedReconciler.AfterUpdate | controllers/feed_controller.go:278-303 | pause state, refresh, then checksum, as `UpdatedRun` reads it |
| Controller.FeedReconciler.SetPauseState | controllers/feed_controller.go:230-240 | exactly one request: Pause of the id when the spec says paused, Resume otherwise; its error is the reply's status check |
| Controller.FeedReconciler.Refresh | controllers/feed_controller.go:248-253 | one Get of the id; its error wrapped as `unable to refresh feed details from Put.io` |
| Controller.FeedReconciler.RecordChecksum | controllers/feed_controller.go:242-246 | insert the checksum, then write the Feed, as `RecordRun` reads it; a nil annotations map panics before any write |
| ReconcileSpec.CreatedRunStopped | controllers/feed_controller.go:238-246 | a successful pause state call followed by a checksum step that stops is one after-create run ending there |
| ReconcileSpec.CreatedRunRefreshed | controllers/feed_controller.go:230-256 | pause state, checksum recorded, then the refresh compose into one after-create run ending in the refresh's outcome as `LoggedCreated` passes it on: a null refreshed feed becomes a nil-pointer panic |
| ReconcileSpec.LoggedCreated | controllers/feed_controller.go:255-256 | logging the refreshed feed's id panics on a null feed and passes any other refresh outcome on, so the result is never a null feed |
| ReconcileSpec.CreateRunNeverSyncsNull | controllers/feed_controller.go:208-256 | the create branch never hands a null feed on to the status stage |
| ReconcileSpec.CreateRunContinues | controllers/feed_controller.go:214-230 | a Create whose reply names a feed id continues with the after-create steps for that id |
| ReconcileSpec.UpdatedRunRefreshFailed | controllers/feed_controller.go:290-295 | a failed refresh after an Update ends the branch without recording the checksum |
| ReconcileSpec.UpdatedRunRecorded | controllers/feed_controller.go:278-303 | pause state, refresh, then the checksum step compose into one after-update run, returning the refreshed feed unless the checksum step stops |
| ReconcileSpec.UpdateRunContinues | controllers/feed_controller.go:266-278 | an accepted Update continues with the after-update steps for the feed's id |
| ReconcileSpec.SyncRunContinues | controllers/feed_controller.go:198-304 | after the Get by stored id, an absent feed continues with the create branch and a found stale one with the update branch |
| Controller.FeedReconciler.FeedNeedUpdate | controllers/feed_controller.go:347-354 | an update is needed iff the recorded checksum annotation differs from the checksum of the current spec; a missing annotation always needs one |
| Controller.FeedReconciler.InsertChecksum | controllers/feed_controller.go:356-366 | a nil annotations map panics and changes nothing; otherwise only the checksum annotation changes, after which no update is needed |
| ReconcileSpec.WithChecksumChangesOnlyChecksum | controllers/feed_controller.go:356-366 | recording the checksum sets that one annotation, keeps every other annotation and every other part of the Feed, and makes `feedNeedUpdate` false |
| ReconcileSpec.MissingChecksumNeedsUpdate | controllers/feed_controller.go:347-354 | a Feed without the checksum annotation always needs an update |
| ReconcileSpec.DesiredFeed | controllers/feed_controller.go:213-221 | the title sent is the spec's title followed by ` (managed by Kubernetes/putio-operator)` |
| ReconcileSpec.DesiredFormsCarrySpec | controllers/feed_controller.go:213-222 | decoded, the Create form carries the suffixed title, URL, keywords, flags, parent folder and `paused=false`; the Update form the same without `paused` |
| ReconcileSpec.SpecChecksum | controllers/feed_controller.go:351-352 | the checksum of a spec is eight characters |
| ReconcileSpec.WithFinalizer | controllers/feed_controller.go:97-98 | the finalizer is present afterwards and nothing but the finalizer list changes |
| Checksum.Checksum | controllers/common.go:13-17 | always exactly eight lower-case hex digits |
| Checksum.ChecksumIsCrc | controllers/common.go:17 | the digits spell the CRC-32 (IEEE) of the UTF-8 bytes of the normalised text |
| Checksum.ChecksumsAgreeIffCrcsAgree | controllers/common.go:17 | two checksums are equal iff the CRCs of the normalised texts are equal |
| Checksum.ChecksumIgnoresAddedSpace | controllers/common.go:13-17 | leading and trailing white space do not affect the checksum |
| Checksum.ChecksumOfTrimmed | controllers/common.go:13-17 | the checksum of the trimmed text is the checksum of the text |
| Checksum.TrimSpaceIdempotent | controllers/common.go:17 | trimming twice is trimming once |
| Checksum.TrimSpaceTrims | controllers/common.go:17 | the trimmed text neither starts nor ends with white space |
| Checksum.TrimmedIsFixpoint | controllers/common.go:17 | a text without outer white space is left as is |
| Checksum.TrimLeftSuffix | controllers/common.go:17 | trimming the left keeps a suffix that does not start with white space |
| Checksum.TrimRightPrefix | controllers/common.go:17 | trimming the right keeps a prefix that does not end with white space |
| Checksum.NormalizeIdempotent | controllers/common.go:11-17 | the normalised text has no line feed, and normalising it again leaves it unchanged |
| Checksum.CollapseRemovesLineFeeds | controllers/common.go:11-17 | after the replacement no line feed is left |
| Checksum.CollapseWithoutLineFeed | controllers/common.go:11-17 | a text without line feed is not changed by the replacement |
| Checksum.ChecksumRunsAlike | controllers/common.go:10-17 | any two runs of LF / CRLF units in the same place give the same checksum |
| Checksum.NormalizeRunsAlike | controllers/common.go:10-17 | any two runs of LF / CRLF units in the same place normalise alike |
| Checksum.BlankLinesAndCrlfCollapseAlike | controllers/common.go:10-17 | `p\n\nq`, `p\r\nq` and `p\nq` have the same checksum |
| Checksum.LineFeedCollidesWithEscape | controllers/common.go:17 | a real line feed and the two characters backslash and `n` give the same checksum |
| Checksum.NormalizeLineFeedAsEscape | controllers/common.go:17 | a line feed between two trimmed lines normalises to backslash-`n`, as does that escape itself |
| Checksum.CollapseCopiesPrefix | controllers/common.go:11-17 | text before the first line break is copied unchanged |
| Checksum.CollapseKeepsLast | controllers/common.go:11-17 | a text not ending in a line break keeps its last character |
| Checksum.SkipBreaksSuffix | controllers/common.go:11 | a maximal run of CR and LF is removed from the head, and no line break starts the rest |
| Checksum.TrimLeftConcat | controllers/common.go:17 | trimming the left of a concatenation trims into the second part only when the first is all white space |
| Checksum.TrimRightConcat | controllers/common.go:17 | trimming the right of a concatenation trims into the first part only when the second is all white space |
| Checksum.TrimOverRun | controllers/common.go:17 | trimming around an inner run of white space keeps it unless it is at an end |
| Fmt.Hex8 | controllers/common.go:17 | `%08x` of a uint32 is exactly eight lower-case hex digits whose value is the number |
| Fmt.Hex8Injective | controllers/common.go:17 | two registers print alike iff they are equal |
| Fmt.DecimalRoundTrip | internal/putio/putio.go:122 | the decimal text of a number reads back as that number |
| Fmt.DecimalInjective | internal/putio/putio.go:122 | distinct numbers have distinct decimal texts |
| Fmt.FormatBoolRoundTrip | internal/putio/putio.go:237-239 | `%t` prints `true` or `false` and reads back as the boolean |
| Fmt.QuoteRoundTrip | internal/putio/error.go:24 | `%q` of a text can be read back as exactly that text |
| Fmt.QuoteInjective | internal/putio/error.go:24 | distinct texts quote differently |
| Fmt.EscapeCharRoundTrip | internal/putio/error.go:24 | each escape `%q` writes for a character reads back as that character |
| PutioErrors.MessageNamesStatus | internal/putio/error.go:23-25 | the message `invalid "<status>" status received` names its status exactly |
| PutioErrors.IsNotFoundOfResponse | internal/putio/error.go:27-31 | a put.io API error is not-found iff its type is `NotFound` |
| PutioErrors.PlainIsNeverNotFound | internal/putio/error.go:27-31 | an error that is not a put.io API error is never not-found, whatever its text |
| PutioErrors.IsNotFoundSeesThroughWrapping | internal/putio/error.go:30 | wrapping an error does not change whether it is not-found |
| PutioErrors.IsNotFoundInChain | internal/putio/error.go:27-31 | not-found iff the first put.io API error of the chain has type `NotFound` |
| Errors.AsNoneIffAbsent | internal/putio/error.go:30 | `errors.As` finds nothing iff no error of the chain has the wanted type |
| Errors.AsFindsFirstInChain | internal/putio/error.go:30 | `errors.As` finds the first error of the chain with the wanted type |
| Errors.IgnoreNotFound | controllers/feed_controller.go:79 | a Kubernetes not-found error becomes no error; any other error is kept as is |
| Errors.IgnoreNotFoundSeesThroughWrapping | controllers/feed_controller.go:146 | wrapping does not hide a not-found error from `IgnoreNotFound` |
| Putio.RouteRoundTrip | internal/putio/putio.go:46-217 | each operation's method and path route back to exactly that operation and id: GET `/v2/rss/list`, GET `/v2/rss/{id}`, POST `/v2/rss/create`, `/v2/rss/{id}`, `/v2/rss/{id}/delete`, `/pause`, `/resume` |
| Putio.EndpointsDistinct | internal/putio/putio.go:46-217 | no two operations share a method and path |
| Putio.ParseDecimalRoundTrip | internal/putio/putio.go:92 | the id in a path reads back as the id |
| Putio.CreateFormKeys | internal/putio/putio.go:111-123 | Create sends title, rss_source_url, keyword, unwanted_keywords, delete_old_files, dont_process_whole_feed and paused, plus parent_dir_id exactly when one is set |
| Putio.UpdateFormKeys | internal/putio/putio.go:149-160 | Update sends the same keys without paused, and otherwise the same form as Create |
| Putio.CreateFormRoundTrip | internal/putio/putio.go:111-123 | the Create form decodes back to the feed's fields, booleans as `true`/`false` and the parent folder in decimal |
| Putio.UpdateFormRoundTrip | internal/putio/putio.go:149-160 | the Update form decodes back to the feed's fields, with no paused value |
| Putio.CheckStatusNamesStatus | internal/putio/putio.go:176-178 | the status check fails iff the status is not `OK`, and its error names the status |
| Putio.StatusOutcome | internal/putio/putio.go:172-178 | a transport error is returned before any status check; otherwise the result is an error iff the status is not `OK` |
| Putio.DeleteOutcome | internal/putio/putio.go:97-101 | Delete fails exactly on a transport or API error |
| PutioClient.RssClient.List | internal/putio/putio.go:41-60 | one GET of `/v2/rss/list`; the reply's feeds, or its error |
| PutioClient.RssClient.Get | internal/putio/putio.go:62-83 | one GET of `/v2/rss/{id}`; the reply's feed, or its error |
| PutioClient.RssClient.Delete | internal/putio/putio.go:85-102 | one POST of `/v2/rss/{id}/delete`; fails iff the exchange fails |
| PutioClient.RssClient.Create | internal/putio/putio.go:104-140 | one POST of `/v2/rss/create` with the Create form; the reply's feed, or its error |
| PutioClient.RssClient.Update | internal/putio/putio.go:142-181 | one POST of `/v2/rss/{id}` with the Update form; the transport error, else the status check |
| PutioClient.RssClient.Pause | internal/putio/putio.go:183-208 | one POST of `/v2/rss/{id}/pause`; the transport error, else the status check |
| PutioClient.RssClient.Resume | internal/putio/putio.go:210-235 | one POST of `/v2/rss/{id}/resume`; the transport error, else the status check |
| FeedApi.WithDefaults | api/v1alpha1/feed_webhook.go:38-77 | a missing parent folder becomes 0 and missing flags become false; present fields and every other field are kept |
| FeedApi.DefaultsIdempotent | api/v1alpha1/feed_webhook.go:62-77 | a defaulted spec is left unchanged, so defaulting twice is defaulting once |
| FeedApi.Feed.Default | api/v1alpha1/feed_webhook.go:55-78 | the spec becomes `WithDefaults` of the old spec |
| FeedApi.ValidateFeedSpec | api/v1alpha1/feed_webhook.go:114-127 | the spec is accepted iff its RSS source URL parses as a request URI; otherwise the error is `spec.rss_source_url` invalid with `invalid URL provided` |
| FeedApi.ValidationSeesOnlyUrl | api/v1alpha1/feed_webhook.go:114-120 | two specs with the same URL validate alike |
| FeedApi.ValidateAcceptsHttpsUrl | api/v1alpha1/feed_webhook.go:122-127 | `https://google.fr` is accepted |
| FeedApi.ValidateRejectsFooBar | api/v1alpha1/feed_webhook.go:122-127 | `foo bar` is rejected with the field error |
| FeedApi.Feed.ValidateCreate | api/v1alpha1/feed_webhook.go:85-92 | the same check as `validateFeedSpec` |
| FeedApi.Feed.ValidateUpdate | api/v1alpha1/feed_webhook.go:95-102 | the same check as `validateFeedSpec`; the old object is ignored |
| FeedApi.Feed.ValidateDelete | api/v1alpha1/feed_webhook.go:105-112 | always accepts |
| FeedApi.Feed.AddFinalizer | controllers/feed_controller.go:97-98 | the finalizer is appended once and is present afterwards |
| FeedApi.Feed.RemoveFinalizer | controllers/feed_controller.go:122 | every occurrence of the finalizer is removed and every other entry kept |
| FeedApi.WithoutRemovesOnly | controllers/feed_controller.go:122 | removal takes out the finalizer and keeps every other entry |
| FeedApi.AddThenRemove | controllers/feed_controller.go:98-122 | adding then removing a missing finalizer gives back the original list |
| FeedApi.Annotation | controllers/feed_controller.go:353 | a nil map or a missing key reads as the empty string |
| RequestUri.ParseRequestUri | api/v1alpha1/feed_webhook.go:123 | an accepted URL is non-empty and has no control character |
| RequestUri.ParseRoundTrip | api/v1alpha1/feed_webhook.go:123 | an accepted URL prints back to its text with the scheme in lower case |
| RequestUri.SchemelessNeedsSlash | api/v1alpha1/feed_webhook.go:123 | without a scheme only `*` or an absolute path is accepted |
| RequestUri.RelativeRejected | api/v1alpha1/feed_webhook.go:123 | a relative reference without colon or leading slash is rejected |
| RequestUri.AcceptsPlainUrl | api/v1alpha1/feed_webhook.go:123 | a scheme, `://`, a plain host and a plain path are accepted as such |
| RequestUri.AcceptsHttpsUrl | api/v1alpha1/feed_webhook.go:123 | `https://google.fr` parses as scheme `https` and host `google.fr` |
| RequestUri.RejectsFooBar | api/v1alpha1/feed_webhook.go:123 | `foo bar` is not a request URI |
| RequestUri.RejectsEmpty | api/v1alpha1/feed_webhook.go:123 | the empty text is refused |
| RequestUri.CutQuery | api/v1alpha1/feed_webhook.go:123 | the text is the part before the first `?`, then the query |
| RequestUri.ParseAuthority | api/v1alpha1/feed_webhook.go:123 | an accepted authority prints back to its text |

## Left out

- HTTP and JSON: `NewRequest`, `Do`, the bearer-token transport and JSON decoding are not modelled. Each put.io exchange returns an arbitrary reply: a transport or API error, or a decoded body.
  The failure of `NewRequest` itself (a request never sent) is not modelled; it reaches the caller the same way as a failed exchange.
  Form encoding (`url.Values.Encode`) is modelled as the map of parameters, without its percent-encoded text.
- The Kubernetes client: `Get`, `Update` and `Status().Update` answer arbitrarily through the environment and are logged. Optimistic-concurrency conflicts are just one kind of write error.
- Event recording, tracing, logging, Sentry and process start-up are left out: they never decide the control flow.
- `json.Marshal(feed.Spec)` is a parameter of the reconciler (`marshal`), an uninterpreted deterministic function.
- Time: instants are integers with Go's zero time as 0; parsing of `putio.Time` and the `metav1.Time` conversion are not modelled.
- Requeue timing and the work queue: the result is a tag, `NoRequeue` or `RequeueAfterMinute`.
- Integer widths: feed ids (`uint`) and the parent folder id (`uint32`) are unbounded naturals. `strconv.Itoa(int(id))` overflow on ids above 2^63 is not modelled.
- `url.ParseRequestURI`: the checks made are the control-character test, the scheme, the query cut, the leading slash, the `%` escapes, the user information, the bracket of an IPv6 literal and the digits of a port. The IPv6 literal grammar and the range of a port are not checked further, and the path is kept as written rather than percent-decoded.
- Checksum.LineFeedCollidesWithEscape: stated for text around the line feed that has no outer white space, no other line feed and no carriage return before it (the example `a\nb`). It is not stated for every text.
- Fmt.IsPrint: Go's `strconv.IsPrint` is table-driven and also rejects every code point Unicode leaves unassigned (U+0378, for one). This predicate accepts those, so `%q` of such a character writes it raw where Go writes a `\u` escape. White space, control, format, private-use, non-character and tag code points are escaped as in Go. The round trip through `%q` holds either way.
- SetupWithManager, SetupWebhookWithManager, makePutioClient and the generated deep copies are not modelled; the put.io client is a `PutioClient.RssClient` holding the token.
- The Ginkgo tests need a live cluster or put.io account. The unit tests in controllers/feed_controller_test.go call functions the controller does not define; they are not modelled.

