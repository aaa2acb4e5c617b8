/**
 * The deterministic half of the put.io RSS client (internal/putio/putio.go
 * and internal/putio/feed.go): the feed record, the endpoint each RSS
 * operation calls, the form each mutation sends, and the check of the
 * `status` field in a reply. Every encoder comes with a decoder that inverts
 * it, so the lemmas below show the requests carry exactly what the operator
 * means to send.
 */
module Putio {
  import opened Wrappers
  import opened Fmt
  import opened Errors
  import opened Time

  /** `putio.Feed`, as put.io reports an RSS feed and as the operator describes one to send. */
  datatype Feed = Feed(
    id: Option<nat>,
    title: string,
    rssSourceUrl: string,
    parentDirId: Option<nat>,
    deleteOldFiles: bool,
    dontProcessWholeFeed: bool,
    keyword: string,
    unwantedKeywords: string,
    paused: bool,
    extract: bool,
    failedItemCount: nat,
    lastError: string,
    lastFetch: Instant,
    createdAt: Instant,
    pausedAt: Instant,
    startAt: Instant,
    updatedAt: Instant)

  // ---------------------------------------------------------------------------
  // Endpoints

  datatype Method = MethodGet | MethodPost

  /** The RSS operations of `rssService`, with the feed id each one names. */
  datatype RssCall =
    | ListFeeds
    | GetFeed(id: nat)
    | CreateFeed
    | UpdateFeed(id: nat)
    | DeleteFeed(id: nat)
    | PauseFeed(id: nat)
    | ResumeFeed(id: nat)

  const RssBase: string := "/v2/rss/"

  /** Reads are GET requests, every mutation a POST. */
  function MethodOf(call: RssCall): Method {
    if call.ListFeeds? || call.GetFeed? then MethodGet else MethodPost
  }

  function PathOf(call: RssCall): string {
    match call
    case ListFeeds => RssBase + "list"
    case GetFeed(id) => RssBase + Decimal(id)
    case CreateFeed => RssBase + "create"
    case UpdateFeed(id) => RssBase + Decimal(id)
    case DeleteFeed(id) => RssBase + Decimal(id) + "/delete"
    case PauseFeed(id) => RssBase + Decimal(id) + "/pause"
    case ResumeFeed(id) => RssBase + Decimal(id) + "/resume"
  }

  /** The number of decimal digits at the head of s. */
  function DigitRun(s: string): (n: nat)
    ensures n <= |s|
    ensures forall i :: 0 <= i < n ==> IsDecimalDigit(s[i])
    ensures n < |s| ==> !IsDecimalDigit(s[n])
  {
    if s != [] && IsDecimalDigit(s[0]) then 1 + DigitRun(s[1..]) else 0
  }

  /** A non-empty string of decimal digits, read as a number. */
  function ParseDecimal(s: string): Option<nat> {
    if s != [] && forall i :: 0 <= i < |s| ==> IsDecimalDigit(s[i]) then Some(ValueInBase(s, 10)) else None
  }

  /** Which RSS operation a request line names, if any: the router put.io applies. */
  function Route(verb: Method, path: string): Option<RssCall> {
    if |path| < |RssBase| || path[..|RssBase|] != RssBase then None
    else
      var rest := path[|RssBase|..];
      if rest == "list" then (if verb == MethodGet then Some(ListFeeds) else None)
      else if rest == "create" then (if verb == MethodPost then Some(CreateFeed) else None)
      else
        var n := DigitRun(rest);
        match ParseDecimal(rest[..n])
        case None => None
        case Some(id) =>
          var action := rest[n..];
          if action == "" then Some(if verb == MethodGet then GetFeed(id) else UpdateFeed(id))
          else if verb == MethodGet then None
          else if action == "/delete" then Some(DeleteFeed(id))
          else if action == "/pause" then Some(PauseFeed(id))
          else if action == "/resume" then Some(ResumeFeed(id))
          else None
  }

  lemma ParseDecimalRoundTrip(n: nat)
    ensures ParseDecimal(Decimal(n)) == Some(n)
  {
    DecimalRoundTrip(n);
  }

  /** The digits of an id stop where the action suffix starts. */
  lemma {:induction false} DigitRunOfDecimal(d: string, action: string)
    requires forall i :: 0 <= i < |d| ==> IsDecimalDigit(d[i])
    requires action == [] || !IsDecimalDigit(action[0])
    ensures DigitRun(d + action) == |d|
  {
    if d == [] {
      assert d + action == action;
    } else {
      assert (d + action)[0] == d[0];
      assert (d + action)[1..] == d[1..] + action;
      DigitRunOfDecimal(d[1..], action);
    }
  }

  /** After the base, an id path is the id's digits and then the action suffix. */
  lemma IdRestParts(id: nat, action: string)
    requires action == [] || !IsDecimalDigit(action[0])
    ensures var rest := Decimal(id) + action;
      rest != "list" && rest != "create" && DigitRun(rest) <= |rest| &&
      ParseDecimal(rest[..DigitRun(rest)]) == Some(id) && rest[DigitRun(rest)..] == action
  {
    var d := Decimal(id);
    var rest := d + action;
    assert IsDecimalDigit(rest[0]);
    DigitRunOfDecimal(d, action);
    assert rest[..|d|] == d && rest[|d|..] == action;
    ParseDecimalRoundTrip(id);
  }

  /** The path of an operation on feed id: the base, the id's digits, then the action suffix. */
  lemma IdPathParts(id: nat, action: string)
    requires action == [] || !IsDecimalDigit(action[0])
    ensures var path := RssBase + Decimal(id) + action;
      |path| >= |RssBase| && path[..|RssBase|] == RssBase &&
      var rest := path[|RssBase|..];
      rest != "list" && rest != "create" && DigitRun(rest) <= |rest| &&
      ParseDecimal(rest[..DigitRun(rest)]) == Some(id) && rest[DigitRun(rest)..] == action
  {
    var path := RssBase + Decimal(id) + action;
    assert path[..|RssBase|] == RssBase;
    assert path[|RssBase|..] == Decimal(id) + action;
    IdRestParts(id, action);
  }

  /** Every operation has its own endpoint: routing the request line recovers the operation and its id. */
  lemma RouteRoundTrip(call: RssCall)
    ensures Route(MethodOf(call), PathOf(call)) == Some(call)
  {
    var path := PathOf(call);
    if call.ListFeeds? || call.CreateFeed? {
      assert path[..|RssBase|] == RssBase;
      assert path[|RssBase|..] == if call.ListFeeds? then "list" else "create";
    } else {
      var action := if call.GetFeed? || call.UpdateFeed? then ""
        else if call.DeleteFeed? then "/delete" else if call.PauseFeed? then "/pause" else "/resume";
      assert path == RssBase + Decimal(call.id) + action;
      IdPathParts(call.id, action);
    }
  }

  /** Distinct operations never share a request line. */
  lemma EndpointsDistinct(a: RssCall, b: RssCall)
    requires MethodOf(a) == MethodOf(b) && PathOf(a) == PathOf(b)
    ensures a == b
  {
    RouteRoundTrip(a);
    RouteRoundTrip(b);
  }

  // ---------------------------------------------------------------------------
  // Forms

  /** `url.Values` where every key was given one value with `Set`. */
  type Form = map<string, string>

  const TitleKey: string := "title"
  const RssSourceUrlKey: string := "rss_source_url"
  const KeywordKey: string := "keyword"
  const UnwantedKeywordsKey: string := "unwanted_keywords"
  const DeleteOldFilesKey: string := "delete_old_files"
  const DontProcessWholeFeedKey: string := "dont_process_whole_feed"
  const PausedKey: string := "paused"
  const ParentDirIdKey: string := "parent_dir_id"

  /** The keys both Create and Update always send. */
  const CommonKeys: set<string> :=
    {TitleKey, RssSourceUrlKey, KeywordKey, UnwantedKeywordsKey, DeleteOldFilesKey, DontProcessWholeFeedKey}

  function ParentKeys(feed: Feed): set<string> {
    if feed.parentDirId.Some? then {ParentDirIdKey} else {}
  }

  /** The form of `Create`: the six common fields, `paused`, and `parent_dir_id` when one is set. */
  function CreateForm(feed: Feed): Form {
    var params := map[
      TitleKey := feed.title,
      RssSourceUrlKey := feed.rssSourceUrl,
      KeywordKey := feed.keyword,
      UnwantedKeywordsKey := feed.unwantedKeywords,
      DeleteOldFilesKey := FormatBool(feed.deleteOldFiles),
      DontProcessWholeFeedKey := FormatBool(feed.dontProcessWholeFeed),
      PausedKey := FormatBool(feed.paused)];
    if feed.parentDirId.Some? then params[ParentDirIdKey := Decimal(feed.parentDirId.value)] else params
  }

  /** The form of `Update`: as for Create, without `paused`. */
  function UpdateForm(feed: Feed): Form {
    var params := map[
      TitleKey := feed.title,
      RssSourceUrlKey := feed.rssSourceUrl,
      KeywordKey := feed.keyword,
      UnwantedKeywordsKey := feed.unwantedKeywords,
      DeleteOldFilesKey := FormatBool(feed.deleteOldFiles),
      DontProcessWholeFeedKey := FormatBool(feed.dontProcessWholeFeed)];
    if feed.parentDirId.Some? then params[ParentDirIdKey := Decimal(feed.parentDirId.value)] else params
  }

  /** What a feed form says, read back field by field. */
  datatype FormFields = FormFields(
    title: string,
    rssSourceUrl: string,
    keyword: string,
    unwantedKeywords: string,
    deleteOldFiles: bool,
    dontProcessWholeFeed: bool,
    paused: Option<bool>,
    parentDirId: Option<nat>)

  /** The fields of feed a form is meant to carry; `paused` only where the form sends it. */
  function FieldsOf(feed: Feed, paused: Option<bool>): FormFields {
    FormFields(feed.title, feed.rssSourceUrl, feed.keyword, feed.unwantedKeywords,
      feed.deleteOldFiles, feed.dontProcessWholeFeed, paused, feed.parentDirId)
  }

  /** Reads a feed form; None unless every common key is there with a well-formed value and no unknown key is. */
  function DecodeForm(form: Form): Option<FormFields> {
    if !(CommonKeys <= form.Keys) || !(form.Keys <= CommonKeys + {PausedKey, ParentDirIdKey}) then None
    else
      var deleteOld := ParseBool(form[DeleteOldFilesKey]);
      var dontProcess := ParseBool(form[DontProcessWholeFeedKey]);
      var paused := if PausedKey in form then ParseBool(form[PausedKey]) else None;
      var parent := if ParentDirIdKey in form then ParseDecimal(form[ParentDirIdKey]) else None;
      if deleteOld.None? || dontProcess.None? then None
      else if PausedKey in form && paused.None? then None
      else if ParentDirIdKey in form && parent.None? then None
      else Some(FormFields(form[TitleKey], form[RssSourceUrlKey], form[KeywordKey], form[UnwantedKeywordsKey],
        deleteOld.value, dontProcess.value, paused, parent))
  }

  /** Create sends the common keys and `paused`, plus `parent_dir_id` exactly when the feed has one. */
  lemma CreateFormKeys(feed: Feed)
    ensures CreateForm(feed).Keys == CommonKeys + {PausedKey} + ParentKeys(feed)
  {
  }

  /** Update sends the same keys as Create except `paused`: an update never changes the pause state. */
  lemma UpdateFormKeys(feed: Feed)
    ensures UpdateForm(feed).Keys == CommonKeys + ParentKeys(feed)
    ensures PausedKey !in UpdateForm(feed)
    ensures UpdateForm(feed) == CreateForm(feed) - {PausedKey}
  {
    assert UpdateForm(feed).Keys == CommonKeys + ParentKeys(feed);
    assert (CreateForm(feed) - {PausedKey}).Keys == UpdateForm(feed).Keys;
  }

  /** The Create form reads back as the feed's fields, its pause state included. */
  lemma CreateFormRoundTrip(feed: Feed)
    ensures DecodeForm(CreateForm(feed)) == Some(FieldsOf(feed, Some(feed.paused)))
  {
    CreateFormKeys(feed);
    FormatBoolRoundTrip(feed.deleteOldFiles);
    FormatBoolRoundTrip(feed.dontProcessWholeFeed);
    FormatBoolRoundTrip(feed.paused);
    if feed.parentDirId.Some? {
      ParseDecimalRoundTrip(feed.parentDirId.value);
    }
  }

  /** The Update form reads back as the feed's fields, with no pause state. */
  lemma UpdateFormRoundTrip(feed: Feed)
    ensures DecodeForm(UpdateForm(feed)) == Some(FieldsOf(feed, None))
  {
    UpdateFormKeys(feed);
    FormatBoolRoundTrip(feed.deleteOldFiles);
    FormatBoolRoundTrip(feed.dontProcessWholeFeed);
    if feed.parentDirId.Some? {
      ParseDecimalRoundTrip(feed.parentDirId.value);
    }
  }

  // ---------------------------------------------------------------------------
  // Requests

  /** A request as the client sends it: method, path, and the form-encoded body if there is one. */
  datatype Request = Request(verb: Method, path: string, form: Option<Form>)

  function CallRequest(call: RssCall, form: Option<Form>): Request {
    Request(MethodOf(call), PathOf(call), form)
  }

  function CreateRequest(feed: Feed): Request {
    CallRequest(CreateFeed, Some(CreateForm(feed)))
  }

  function UpdateRequest(feed: Feed, id: nat): Request {
    CallRequest(UpdateFeed(id), Some(UpdateForm(feed)))
  }

  /** Requests without a body: List, Get, Delete, Pause and Resume. */
  function BareRequest(call: RssCall): Request {
    CallRequest(call, None)
  }

  /** The operation a logged request performs. */
  function CallOf(r: Request): Option<RssCall> {
    Route(r.verb, r.path)
  }

  // ---------------------------------------------------------------------------
  // Replies

  /** The JSON body of a reply, decoded: `feeds`, `feed` and `status`, each as Go leaves it when absent. */
  datatype Body = Body(feeds: seq<Option<Feed>>, feed: Option<Feed>, status: string)

  /** `Client.Do`: a transport or API error, or a decoded body. */
  datatype HttpReply = HttpFailure(err: Error) | HttpSuccess(body: Body)

  const StatusOk: string := "OK"
  const InvalidStatusPrefix: string := "put.io: invalid status received "

  /** The `r.Status != "OK"` check of Update, Pause and Resume. */
  function CheckStatus(status: string): Option<Error> {
    if status == StatusOk then None else Some(Plain(InvalidStatusPrefix + Quote(status)))
  }

  /** Reads the status back out of the error CheckStatus builds. */
  function StatusNamedBy(err: Error): Option<string> {
    if err.Plain? && |err.text| >= |InvalidStatusPrefix| && err.text[..|InvalidStatusPrefix|] == InvalidStatusPrefix
    then Unquote(err.text[|InvalidStatusPrefix|..])
    else None
  }

  /** The check fails exactly on a status other than "OK", and its error names that status. */
  lemma CheckStatusNamesStatus(status: string)
    ensures CheckStatus(status).None? <==> status == StatusOk
    ensures CheckStatus(status).Some? ==> StatusNamedBy(CheckStatus(status).value) == Some(status)
  {
    if status != StatusOk {
      var t := InvalidStatusPrefix + Quote(status);
      assert t[..|InvalidStatusPrefix|] == InvalidStatusPrefix;
      assert t[|InvalidStatusPrefix|..] == Quote(status);
      QuoteRoundTrip(status);
    }
  }

  /** Update, Pause and Resume: a transport error first, else the status check. */
  function StatusOutcome(reply: HttpReply): (r: Option<Error>)
    ensures reply.HttpFailure? ==> r == Some(reply.err)
    ensures reply.HttpSuccess? ==> (r.None? <==> reply.body.status == StatusOk)
  {
    match reply
    case HttpFailure(e) => Some(e)
    case HttpSuccess(body) => CheckStatus(body.status)
  }

  /** Get and Create: the `feed` field of the body, which may be null. */
  function FeedOutcome(reply: HttpReply): Result<Option<Feed>, Error> {
    match reply
    case HttpFailure(e) => Failure(e)
    case HttpSuccess(body) => Success(body.feed)
  }

  /** List: the `feeds` field of the body. */
  function FeedsOutcome(reply: HttpReply): Result<seq<Option<Feed>>, Error> {
    match reply
    case HttpFailure(e) => Failure(e)
    case HttpSuccess(body) => Success(body.feeds)
  }

  /** Delete: only a transport or API error counts; the body is not read. */
  function DeleteOutcome(reply: HttpReply): (r: Option<Error>)
    ensures r.None? <==> reply.HttpSuccess?
  {
    match reply
    case HttpFailure(e) => Some(e)
    case HttpSuccess(_) => None
  }
}
