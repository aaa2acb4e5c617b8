/**
 * The RSS service of the put.io client (internal/putio/putio.go): each
 * operation builds its request (method, endpoint and, for Create and Update,
 * a form filled key by key), sends it through the environment with the
 * account's token, and reads the reply. Sending and decoding are the
 * environment's; the client decides what is sent and how the reply is read.
 */
module PutioClient {
  import opened Wrappers
  import opened Fmt
  import opened Errors
  import opened Putio
  import Environment

  class RssClient {
    const env: Environment.Env
    /** The OAuth token of the account, from the Feed's credentials Secret. */
    const token: string

    /** `makePutioClient`: a client for one account. */
    constructor(env: Environment.Env, token: string)
      ensures this.env == env && this.token == token
    {
      this.env := env;
      this.token := token;
    }

    /** `List`: GET /v2/rss/list, then the `feeds` of the reply. */
    method List() returns (r: Result<seq<Option<Feed>>, Error>, ghost reply: HttpReply)
      modifies env
      ensures env.log == old(env.log) + [Environment.Exchange(token, BareRequest(ListFeeds), reply)]
      ensures reply.HttpFailure? ==> r == Failure(reply.err)
      ensures reply.HttpSuccess? ==> r == Success(reply.body.feeds)
    {
      var request := Request(MethodGet, "/v2/rss/list", None);
      assert request.path == RssBase + "list" by {
        forall i | 0 <= i < |request.path| ensures request.path[i] == (RssBase + "list")[i] {}
      }
      var answer := env.Exchange(token, request);
      reply := answer;
      r := FeedsOutcome(answer);
    }

    /** `Get`: GET /v2/rss/{id}, then the `feed` of the reply, which may be null. */
    method Get(id: nat) returns (r: Result<Option<Feed>, Error>, ghost reply: HttpReply)
      modifies env
      ensures env.log == old(env.log) + [Environment.Exchange(token, BareRequest(GetFeed(id)), reply)]
      ensures reply.HttpFailure? ==> r == Failure(reply.err)
      ensures reply.HttpSuccess? ==> r == Success(reply.body.feed)
    {
      var request := Request(MethodGet, "/v2/rss/" + Decimal(id), None);
      var answer := env.Exchange(token, request);
      reply := answer;
      r := FeedOutcome(answer);
    }

    /** `Delete`: POST /v2/rss/{id}/delete; only a transport or API error fails it. */
    method Delete(id: nat) returns (err: Option<Error>, ghost reply: HttpReply)
      modifies env
      ensures env.log == old(env.log) + [Environment.Exchange(token, BareRequest(DeleteFeed(id)), reply)]
      ensures err.None? <==> reply.HttpSuccess?
      ensures reply.HttpFailure? ==> err == Some(reply.err)
    {
      var request := Request(MethodPost, "/v2/rss/" + Decimal(id) + "/delete", None);
      var answer := env.Exchange(token, request);
      reply := answer;
      err := DeleteOutcome(answer);
    }

    /** `Create`: the form is filled key by key, then POSTed to /v2/rss/create; the reply's `feed` is the new feed. */
    method Create(feed: Feed) returns (r: Result<Option<Feed>, Error>, ghost reply: HttpReply)
      modifies env
      ensures env.log == old(env.log) + [Environment.Exchange(token, CreateRequest(feed), reply)]
      ensures reply.HttpFailure? ==> r == Failure(reply.err)
      ensures reply.HttpSuccess? ==> r == Success(reply.body.feed)
    {
      var params: Form := map[];
      params := params[TitleKey := feed.title];
      params := params[RssSourceUrlKey := feed.rssSourceUrl];
      params := params[KeywordKey := feed.keyword];
      params := params[UnwantedKeywordsKey := feed.unwantedKeywords];
      params := params[DeleteOldFilesKey := FormatBool(feed.deleteOldFiles)];
      params := params[DontProcessWholeFeedKey := FormatBool(feed.dontProcessWholeFeed)];
      params := params[PausedKey := FormatBool(feed.paused)];
      if feed.parentDirId.Some? {
        params := params[ParentDirIdKey := Decimal(feed.parentDirId.value)];
      }
      var request := Request(MethodPost, "/v2/rss/create", Some(params));
      assert request == CreateRequest(feed);
      var answer := env.Exchange(token, request);
      reply := answer;
      r := FeedOutcome(answer);
    }

    /** `Update`: the form without `paused`, POSTed to /v2/rss/{id}; the reply's status must be "OK". */
    method Update(feed: Feed, id: nat) returns (err: Option<Error>, ghost reply: HttpReply)
      modifies env
      ensures env.log == old(env.log) + [Environment.Exchange(token, UpdateRequest(feed, id), reply)]
      ensures reply.HttpFailure? ==> err == Some(reply.err)
      ensures reply.HttpSuccess? ==> err == CheckStatus(reply.body.status)
    {
      var params: Form := map[];
      params := params[TitleKey := feed.title];
      params := params[RssSourceUrlKey := feed.rssSourceUrl];
      params := params[KeywordKey := feed.keyword];
      params := params[UnwantedKeywordsKey := feed.unwantedKeywords];
      params := params[DeleteOldFilesKey := FormatBool(feed.deleteOldFiles)];
      params := params[DontProcessWholeFeedKey := FormatBool(feed.dontProcessWholeFeed)];
      if feed.parentDirId.Some? {
        params := params[ParentDirIdKey := Decimal(feed.parentDirId.value)];
      }
      var request := Request(MethodPost, "/v2/rss/" + Decimal(id), Some(params));
      assert request == UpdateRequest(feed, id);
      var answer := env.Exchange(token, request);
      reply := answer;
      err := StatusOutcome(answer);
    }

    /** `Pause`: POST /v2/rss/{id}/pause; the reply's status must be "OK". */
    method Pause(id: nat) returns (err: Option<Error>, ghost reply: HttpReply)
      modifies env
      ensures env.log == old(env.log) + [Environment.Exchange(token, BareRequest(PauseFeed(id)), reply)]
      ensures reply.HttpFailure? ==> err == Some(reply.err)
      ensures reply.HttpSuccess? ==> err == CheckStatus(reply.body.status)
    {
      var request := Request(MethodPost, "/v2/rss/" + Decimal(id) + "/pause", None);
      var answer := env.Exchange(token, request);
      reply := answer;
      err := StatusOutcome(answer);
    }

    /** `Resume`: POST /v2/rss/{id}/resume; the reply's status must be "OK". */
    method Resume(id: nat) returns (err: Option<Error>, ghost reply: HttpReply)
      modifies env
      ensures env.log == old(env.log) + [Environment.Exchange(token, BareRequest(ResumeFeed(id)), reply)]
      ensures reply.HttpFailure? ==> err == Some(reply.err)
      ensures reply.HttpSuccess? ==> err == CheckStatus(reply.body.status)
    {
      var request := Request(MethodPost, "/v2/rss/" + Decimal(id) + "/resume", None);
      var answer := env.Exchange(token, request);
      reply := answer;
      err := StatusOutcome(answer);
    }
  }
}
