/**
 * The Feed custom resource (api/v1alpha1/feed_types.go) and its admission
 * webhook (api/v1alpha1/feed_webhook.go): defaulting of the optional spec
 * fields and validation of the RSS source URL. The resource is a `Feed`
 * object whose spec, status, finalizers and annotations the webhook and the
 * controller change in place; `FeedObject` is its value as the API server
 * stores it.
 */
module FeedApi {
  import opened Wrappers
  import opened Fmt
  import opened Time
  import opened RequestUri

  /** A reference to the Secret key holding the put.io token. */
  datatype AuthSecretReference = AuthSecretReference(name: string, key: string)

  /**
   * The desired state of a feed. The three flags and the parent folder are
   * nullable: the webhook defaults them when they are missing.
   */
  datatype FeedSpec = FeedSpec(
    title: string,
    rssSourceUrl: string,
    parentDirId: Option<nat>,
    deleteOldFiles: Option<bool>,
    dontProcessWholeFeed: Option<bool>,
    keyword: string,
    unwantedKeywords: string,
    paused: Option<bool>,
    authSecretRef: AuthSecretReference)

  /** The observed state: the put.io feed id and what put.io last reported about it. */
  datatype FeedStatus = FeedStatus(
    id: Option<nat>,
    lastError: string,
    lastFetch: Option<Instant>,
    failedItemCount: nat,
    pausedAt: Option<Instant>,
    createdAt: Option<Instant>,
    updatedAt: Option<Instant>)

  /** The namespace and name that identify an object. */
  datatype ObjectKey = ObjectKey(namespace: string, name: string)

  /** A Feed resource as stored; `annotations` is None for Go's nil map. */
  datatype FeedObject = FeedObject(
    key: ObjectKey,
    finalizers: seq<string>,
    annotations: Option<map<string, string>>,
    deletionTimestamp: Option<Instant>,
    spec: FeedSpec,
    status: FeedStatus)

  /** `DeletionTimestamp.IsZero()` is false: a nil timestamp and the zero time both mean "not being deleted". */
  predicate BeingDeleted(o: FeedObject) {
    o.deletionTimestamp.Some? && !IsZero(o.deletionTimestamp.value)
  }

  /** Reading an annotation: a nil map and a missing key both give the empty string. */
  function Annotation(annotations: Option<map<string, string>>, name: string): (v: string)
    ensures annotations.Some? && name in annotations.value ==> v == annotations.value[name]
    ensures (annotations.None? || name !in annotations.value) ==> v == []
  {
    match annotations
    case Some(m) => if name in m then m[name] else []
    case None => []
  }

  // ---------------------------------------------------------------------------
  // Finalizer lists

  /** The list without any occurrence of f, the others kept in order. */
  function Without(s: seq<string>, f: string): seq<string> {
    if s == [] then []
    else Without(s[..|s| - 1], f) + (if s[|s| - 1] == f then [] else [s[|s| - 1]])
  }

  /** Removing f removes it entirely and keeps every other element. */
  lemma {:induction false} WithoutRemovesOnly(s: seq<string>, f: string)
    ensures f !in Without(s, f)
    ensures forall x :: x != f ==> (x in Without(s, f) <==> x in s)
    ensures |Without(s, f)| <= |s|
  {
    if s != [] {
      var init := s[..|s| - 1];
      WithoutRemovesOnly(init, f);
      assert s == init + [s[|s| - 1]];
    }
  }

  /** A list without f is left as it is. */
  lemma {:induction false} WithoutAbsent(s: seq<string>, f: string)
    requires f !in s
    ensures Without(s, f) == s
  {
    if s != [] {
      var init := s[..|s| - 1];
      assert s == init + [s[|s| - 1]];
      WithoutAbsent(init, f);
    }
  }

  /** Adding a finalizer that was absent and removing it again gives back the original list. */
  lemma AddThenRemove(s: seq<string>, f: string)
    requires f !in s
    ensures Without(s + [f], f) == s
  {
    assert (s + [f])[..|s|] == s;
    WithoutAbsent(s, f);
  }

  // ---------------------------------------------------------------------------
  // Defaulting

  /** `defaultParentDirID`: the root folder of the put.io account. */
  const DefaultParentDirId: nat := 0

  /** The four optional fields are all present. */
  predicate Defaulted(s: FeedSpec) {
    s.parentDirId.Some? && s.deleteOldFiles.Some? && s.dontProcessWholeFeed.Some? && s.paused.Some?
  }

  /** The spec after defaulting: each missing optional field takes its default; everything else is kept. */
  function WithDefaults(s: FeedSpec): (r: FeedSpec)
    ensures Defaulted(r)
    ensures s.parentDirId.Some? ==> r.parentDirId == s.parentDirId
    ensures s.parentDirId.None? ==> r.parentDirId == Some(DefaultParentDirId)
    ensures s.deleteOldFiles.Some? ==> r.deleteOldFiles == s.deleteOldFiles
    ensures s.deleteOldFiles.None? ==> r.deleteOldFiles == Some(false)
    ensures s.dontProcessWholeFeed.Some? ==> r.dontProcessWholeFeed == s.dontProcessWholeFeed
    ensures s.dontProcessWholeFeed.None? ==> r.dontProcessWholeFeed == Some(false)
    ensures s.paused.Some? ==> r.paused == s.paused
    ensures s.paused.None? ==> r.paused == Some(false)
    ensures r.title == s.title && r.rssSourceUrl == s.rssSourceUrl && r.keyword == s.keyword
    ensures r.unwantedKeywords == s.unwantedKeywords && r.authSecretRef == s.authSecretRef
  {
    s.(parentDirId := Some(s.parentDirId.GetOr(DefaultParentDirId)),
       deleteOldFiles := Some(s.deleteOldFiles.GetOr(false)),
       dontProcessWholeFeed := Some(s.dontProcessWholeFeed.GetOr(false)),
       paused := Some(s.paused.GetOr(false)))
  }

  /** A spec whose optional fields are all present is left unchanged, so defaulting twice is defaulting once. */
  lemma DefaultsIdempotent(s: FeedSpec)
    ensures Defaulted(s) ==> WithDefaults(s) == s
    ensures WithDefaults(WithDefaults(s)) == WithDefaults(s)
  {
  }

  // ---------------------------------------------------------------------------
  // Validation

  /** `field.Invalid`: the path of the field, the value refused and why. */
  datatype FieldError = FieldError(field: string, badValue: string, detail: string) {
    /** The text of the error, as the API server reports it. */
    function Message(): string {
      field + ": Invalid value: " + Quote(badValue) + ": " + detail
    }
  }

  const RssSourceUrlField: string := "spec.rss_source_url"
  const InvalidUrlDetail: string := "invalid URL provided"

  /** `validateFeedSpec`: the RSS source URL must parse as a request URI. */
  function ValidateFeedSpec(s: FeedSpec): (r: Option<FieldError>)
    ensures r.None? <==> ParseRequestUri(s.rssSourceUrl).Success?
    ensures r.Some? ==> r.value == FieldError(RssSourceUrlField, s.rssSourceUrl, InvalidUrlDetail)
  {
    if ParseRequestUri(s.rssSourceUrl).Success? then None
    else Some(FieldError(RssSourceUrlField, s.rssSourceUrl, InvalidUrlDetail))
  }

  /** Validation looks at the RSS source URL and nothing else. */
  lemma ValidationSeesOnlyUrl(a: FeedSpec, b: FeedSpec)
    requires a.rssSourceUrl == b.rssSourceUrl
    ensures ValidateFeedSpec(a) == ValidateFeedSpec(b)
  {
  }

  /** An https URL is accepted. */
  lemma ValidateAcceptsHttpsUrl(s: FeedSpec)
    requires s.rssSourceUrl == "https://google.fr"
    ensures ValidateFeedSpec(s) == None
  {
    AcceptsHttpsUrl();
  }

  /** Two words are refused, with the field error naming the field, the value and the reason. */
  lemma ValidateRejectsFooBar(s: FeedSpec)
    requires s.rssSourceUrl == "foo bar"
    ensures ValidateFeedSpec(s) == Some(FieldError("spec.rss_source_url", "foo bar", "invalid URL provided"))
  {
    RejectsFooBar();
  }

  // ---------------------------------------------------------------------------
  // The resource object

  class Feed {
    var key: ObjectKey
    var finalizers: seq<string>
    var annotations: Option<map<string, string>>
    var deletionTimestamp: Option<Instant>
    var spec: FeedSpec
    var status: FeedStatus

    /** A fresh object filled from its stored value, as `Client.Get` fills `new(Feed)`. */
    constructor FromObject(o: FeedObject)
      ensures Snapshot() == o
    {
      key := o.key;
      finalizers := o.finalizers;
      annotations := o.annotations;
      deletionTimestamp := o.deletionTimestamp;
      spec := o.spec;
      status := o.status;
    }

    /** The value this object would be stored as. */
    function Snapshot(): FeedObject
      reads this
    {
      FeedObject(key, finalizers, annotations, deletionTimestamp, spec, status)
    }

    /** `controllerutil.ContainsFinalizer`. */
    predicate ContainsFinalizer(f: string)
      reads this
    {
      f in finalizers
    }

    /** `controllerutil.AddFinalizer`: appended unless already present. */
    method AddFinalizer(f: string)
      modifies this`finalizers
      ensures f in finalizers
      ensures finalizers == if f in old(finalizers) then old(finalizers) else old(finalizers) + [f]
    {
      if f !in finalizers {
        finalizers := finalizers + [f];
      }
    }

    /** `controllerutil.RemoveFinalizer`: every occurrence is dropped, the rest kept in order. */
    method RemoveFinalizer(f: string)
      modifies this`finalizers
      ensures finalizers == Without(old(finalizers), f)
      ensures f !in finalizers
      ensures forall x :: x != f ==> (x in finalizers <==> x in old(finalizers))
    {
      var kept: seq<string> := [];
      var i := 0;
      while i < |finalizers|
        invariant 0 <= i <= |finalizers|
        invariant kept == Without(finalizers[..i], f)
      {
        assert finalizers[..i + 1][..i] == finalizers[..i];
        if finalizers[i] != f {
          kept := kept + [finalizers[i]];
        }
        i := i + 1;
      }
      assert finalizers[..i] == finalizers;
      WithoutRemovesOnly(finalizers, f);
      finalizers := kept;
    }

    /** The mutating webhook: each missing optional field of the spec is set to its default. */
    method Default()
      modifies this`spec
      ensures spec == WithDefaults(old(spec))
    {
      if spec.parentDirId.None? {
        spec := spec.(parentDirId := Some(DefaultParentDirId));
      }
      if spec.deleteOldFiles.None? {
        spec := spec.(deleteOldFiles := Some(false));
      }
      if spec.dontProcessWholeFeed.None? {
        spec := spec.(dontProcessWholeFeed := Some(false));
      }
      if spec.paused.None? {
        spec := spec.(paused := Some(false));
      }
    }

    /** Admission of a new Feed: refused exactly when its RSS source URL does not parse. */
    function ValidateCreate(): (r: Option<FieldError>)
      reads this
      ensures r.None? <==> ParseRequestUri(spec.rssSourceUrl).Success?
      ensures r.Some? ==> r.value == FieldError(RssSourceUrlField, spec.rssSourceUrl, InvalidUrlDetail)
    {
      ValidateFeedSpec(spec)
    }

    /** Admission of a change: the same check on the new spec; the previous object plays no part. */
    function ValidateUpdate(previous: FeedObject): (r: Option<FieldError>)
      reads this
      ensures r.None? <==> ParseRequestUri(spec.rssSourceUrl).Success?
      ensures r.Some? ==> r.value == FieldError(RssSourceUrlField, spec.rssSourceUrl, InvalidUrlDetail)
    {
      ValidateFeedSpec(spec)
    }

    /** Admission of a deletion: always allowed. */
    function ValidateDelete(): (r: Option<FieldError>)
      reads this
      ensures r.None?
    {
      None
    }
  }
}
