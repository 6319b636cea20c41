/**
 * The Feishu bitable client: the record and response shapes, the configuration
 * read from the environment and its validation, the tenant-access-token cache
 * and the paginated fetch of every record of one table.
 *
 * The remote service is data here: each call's reply is a parameter, and the
 * requests the client would send are returned so that contracts can speak of
 * them. The clock is injected as integer milliseconds.
 */
module Feishu {
  import opened Wrappers

  // ---------------------------------------------------------------------------
  // Records and responses
  // ---------------------------------------------------------------------------

  /** One element of a list-valued field: a plain string or a text run. */
  datatype ListItem = ItemString(s: string) | ItemText(text: string)

  /** The value of one field of a record. */
  datatype FieldValue =
    | Str(s: string)
    | Num(n: int)
    | Bool(b: bool)
    | Url(link: string, text: string)
    | Text(text: string)
    | List(items: seq<ListItem>)

  /** A table record; a field name absent from `fields` reads as `undefined`. */
  datatype Record = Record(recordId: string, fields: map<string, FieldValue>)

  datatype PageData = PageData(hasMore: bool, items: seq<Record>, total: int, pageToken: Option<string>)

  /** Body of a records-listing reply. */
  datatype TableResponse = TableResponse(code: int, data: PageData, msg: string)

  /** Body of an authentication reply; `expire` is the lifetime in seconds. */
  datatype TokenResponse = TokenResponse(code: int, tenantAccessToken: string, expire: int, msg: string)

  /** What a network call yields: a parsed body, or a failure of the transport or of parsing. */
  datatype Reply<T> = Delivered(body: T) | Unreachable(reason: string)

  /** The errors the client throws. */
  datatype Error =
    | AuthFailed(msg: string)
    | FetchFailed(msg: string)
    | TransportFailed(reason: string)
  {
    /** The message of the thrown `Error`; it ends with what the server said. */
    function Message(): (m: string)
      ensures AuthFailed? ==> |m| >= |msg| && m[|m| - |msg|..] == msg
      ensures FetchFailed? ==> |m| >= |msg| && m[|m| - |msg|..] == msg
      ensures AuthFailed? || FetchFailed? ==> m != msg
    {
      match this
      case AuthFailed(msg) => "Failed to get access token: " + msg
      case FetchFailed(msg) => "Failed to fetch table records: " + msg
      case TransportFailed(reason) => reason
    }
  }

  // ---------------------------------------------------------------------------
  // Configuration
  // ---------------------------------------------------------------------------

  datatype Config = Config(
    appId: string,
    appSecret: string,
    tableAppToken: string,
    tableId: string,
    apiEndpoint: string)

  const DefaultEndpoint: string := "https://open.feishu.cn"

  /** `env[name] || fallback` */
  function EnvOr(env: map<string, string>, name: string, fallback: string): string
  {
    if name in env && env[name] != "" then env[name] else fallback
  }

  /** The settings as read once from the environment. */
  function ConfigFromEnv(env: map<string, string>): (c: Config)
    ensures c.appId == "" <==> "FEISHU_APP_ID" !in env || env["FEISHU_APP_ID"] == ""
    ensures c.appId != "" ==> c.appId == env["FEISHU_APP_ID"]
    ensures c.tableId == "" <==> "FEISHU_TABLE_ID" !in env || env["FEISHU_TABLE_ID"] == ""
    ensures c.apiEndpoint != ""
    ensures "FEISHU_API_ENDPOINT" !in env ==> c.apiEndpoint == DefaultEndpoint
    ensures "FEISHU_API_ENDPOINT" in env && env["FEISHU_API_ENDPOINT"] != "" ==> c.apiEndpoint == env["FEISHU_API_ENDPOINT"]
    ensures "FEISHU_API_ENDPOINT" in env && env["FEISHU_API_ENDPOINT"] == "" ==> c.apiEndpoint == DefaultEndpoint
    ensures forall i :: 0 <= i < |RequiredNames| ==>
      RequiredValues(c)[i] == (if RequiredNames[i] in env then env[RequiredNames[i]] else "")
  {
    Config(
      EnvOr(env, "FEISHU_APP_ID", ""),
      EnvOr(env, "FEISHU_APP_SECRET", ""),
      EnvOr(env, "FEISHU_TABLE_APP_TOKEN", ""),
      EnvOr(env, "FEISHU_TABLE_ID", ""),
      EnvOr(env, "FEISHU_API_ENDPOINT", DefaultEndpoint))
  }

  /** The names of the required settings, in the order they are reported. */
  const RequiredNames: seq<string> :=
    ["FEISHU_APP_ID", "FEISHU_APP_SECRET", "FEISHU_TABLE_APP_TOKEN", "FEISHU_TABLE_ID"]

  function RequiredValues(c: Config): seq<string>
  {
    [c.appId, c.appSecret, c.tableAppToken, c.tableId]
  }

  /** `a` is `b` with some elements left out, the rest in their order. */
  predicate IsSubsequence(a: seq<string>, b: seq<string>)
  {
    || |a| == 0
    || (&& |b| > 0
        && ((a[0] == b[0] && IsSubsequence(a[1..], b[1..])) || IsSubsequence(a, b[1..])))
  }

  /** The names whose value is empty, in the order of `names`. */
  function MissingNames(names: seq<string>, values: seq<string>): (m: seq<string>)
    requires |names| == |values|
    ensures IsSubsequence(m, names)
    ensures forall i :: 0 <= i < |names| && values[i] == "" ==> names[i] in m
    ensures forall x :: x in m ==> exists i :: 0 <= i < |names| && names[i] == x && values[i] == ""
  {
    if |names| == 0 then []
    else
      var rest := MissingNames(names[1..], values[1..]);
      assert forall x :: x in rest ==> exists i :: 0 <= i < |names| && names[i] == x && values[i] == "" by {
        forall x | x in rest ensures exists i :: 0 <= i < |names| && names[i] == x && values[i] == "" {
          var j :| 0 <= j < |names[1..]| && names[1..][j] == x && values[1..][j] == "";
          assert names[j + 1] == x && values[j + 1] == "";
        }
      }
      if values[0] == "" then
        assert ([names[0]] + rest)[1..] == rest;
        [names[0]] + rest
      else rest
  }

  datatype Validation = Validation(valid: bool, missing: seq<string>)

  /** Which required settings are empty, and whether none is. */
  function ValidateConfig(c: Config): (v: Validation)
    ensures v.valid <==> v.missing == []
    ensures v.valid <==> c.appId != "" && c.appSecret != "" && c.tableAppToken != "" && c.tableId != ""
    ensures forall i :: 0 <= i < |RequiredNames| ==> (RequiredNames[i] in v.missing <==> RequiredValues(c)[i] == "")
    ensures IsSubsequence(v.missing, RequiredNames)
  {
    var values := RequiredValues(c);
    var missing := MissingNames(RequiredNames, values);
    assert values[0] == c.appId && values[1] == c.appSecret && values[2] == c.tableAppToken && values[3] == c.tableId;
    assert forall i, j :: 0 <= i < j < |RequiredNames| ==> |RequiredNames[i]| != |RequiredNames[j]|;
    assert forall i :: 0 <= i < |RequiredNames| ==> (RequiredNames[i] in missing <==> values[i] == "");
    assert missing != [] ==> c.appId == "" || c.appSecret == "" || c.tableAppToken == "" || c.tableId == "" by {
      if missing != [] {
        assert missing[0] in missing;
        var i :| 0 <= i < |RequiredNames| && RequiredNames[i] == missing[0] && values[i] == "";
        assert i == 0 || i == 1 || i == 2 || i == 3;
      }
    }
    assert missing == [] ==> c.appId != "" && c.appSecret != "" && c.tableAppToken != "" && c.tableId != "" by {
      if missing == [] {
        assert RequiredNames[0] !in missing && RequiredNames[1] !in missing;
        assert RequiredNames[2] !in missing && RequiredNames[3] !in missing;
      }
    }
    Validation(|missing| == 0, missing)
  }

  // ---------------------------------------------------------------------------
  // Requests
  // ---------------------------------------------------------------------------

  /** The safety margin, in seconds, taken off the token's lifetime. */
  const TokenMarginSeconds: int := 600

  /** `page_size` of every listing request. */
  const PageSize: int := 500

  /** POST .../auth/v3/tenant_access_token/internal with the app's identity. */
  datatype AuthRequest = AuthRequest(endpoint: string, appId: string, appSecret: string)

  /** GET .../apps/{appToken}/tables/{tableId}/records with bearer `bearer`. */
  datatype PageRequest = PageRequest(
    endpoint: string,
    appToken: string,
    tableId: string,
    pageSize: int,
    pageToken: Option<string>,
    bearer: string)

  function AuthRequestFor(c: Config): AuthRequest
  {
    AuthRequest(c.apiEndpoint, c.appId, c.appSecret)
  }

  /** A JavaScript `string | null | undefined` used as a condition. */
  predicate IsTruthy(s: Option<string>)
  {
    s.Some? && s.value != ""
  }

  /** The listing request sent while holding `pageToken`: an empty token is not sent. */
  function PageRequestFor(c: Config, bearer: string, pageToken: Option<string>): (q: PageRequest)
    ensures q.pageToken == None || q.pageToken.value != ""
    ensures IsTruthy(pageToken) ==> q.pageToken == pageToken
    ensures !IsTruthy(pageToken) ==> q.pageToken == None
    ensures q.endpoint == c.apiEndpoint && q.appToken == c.tableAppToken && q.tableId == c.tableId
    ensures q.bearer == bearer && q.pageSize == PageSize
  {
    PageRequest(c.apiEndpoint, c.tableAppToken, c.tableId, PageSize,
                if IsTruthy(pageToken) then pageToken else None, bearer)
  }

  /** The outcome of an authentication reply. */
  function AuthOutcome(reply: Reply<TokenResponse>): Result<string, Error>
  {
    match reply
    case Unreachable(reason) => Err(TransportFailed(reason))
    case Delivered(body) =>
      if body.code != 0 then Err(AuthFailed(body.msg)) else Ok(body.tenantAccessToken)
  }

  // ---------------------------------------------------------------------------
  // The pagination protocol
  // ---------------------------------------------------------------------------

  /** A reply after which the client asks for another page. */
  predicate Continues(p: Reply<TableResponse>)
  {
    p.Delivered? && p.body.code == 0 && p.body.data.hasMore
  }

  /**
   * The replies the server gives to successive listing requests, up to the one
   * that ends the walk: every reply but the last continues, the last does not
   * (it reports `has_more == false`, or an error).
   */
  predicate IsCompleteScript(pages: seq<Reply<TableResponse>>)
  {
    && |pages| > 0
    && (forall k :: 0 <= k < |pages| - 1 ==> Continues(pages[k]))
    && !Continues(pages[|pages| - 1])
  }

  function ItemsOf(p: Reply<TableResponse>): seq<Record>
  {
    if p.Delivered? then p.body.data.items else []
  }

  /** Every page's items, page by page, in order. */
  function AllItems(pages: seq<Reply<TableResponse>>): seq<Record>
  {
    if |pages| == 0 then [] else ItemsOf(pages[0]) + AllItems(pages[1..])
  }

  /** Collecting one more page appends its items after all earlier ones. */
  lemma {:induction false} AllItemsSnoc(pages: seq<Reply<TableResponse>>, p: Reply<TableResponse>)
    ensures AllItems(pages + [p]) == AllItems(pages) + ItemsOf(p)
  {
    if |pages| == 0 {
      assert ([] + [p])[1..] == [];
    } else {
      assert (pages + [p])[1..] == pages[1..] + [p];
      AllItemsSnoc(pages[1..], p);
    }
  }

  /** The page token held when asking for page `k`: none for the first page. */
  function TokenBefore(pages: seq<Reply<TableResponse>>, k: int): Option<string>
    requires 0 <= k <= |pages|
  {
    if k == 0 || !pages[k - 1].Delivered? then None else pages[k - 1].body.data.pageToken
  }

  /** The listing requests a complete walk over `pages` sends, one per page. */
  function ExpectedRequests(c: Config, bearer: string, pages: seq<Reply<TableResponse>>): (qs: seq<PageRequest>)
    ensures |qs| == |pages|
  {
    seq(|pages|, k requires 0 <= k < |pages| => PageRequestFor(c, bearer, TokenBefore(pages, k)))
  }

  /** The error a reply that ends the walk unsuccessfully stands for. */
  function PageError(p: Reply<TableResponse>): Option<Error>
  {
    match p
    case Unreachable(reason) => Some(TransportFailed(reason))
    case Delivered(body) => if body.code != 0 then Some(FetchFailed(body.msg)) else None
  }

  /** All records, or the error of the last page: never a partial list. */
  function ExpectedResult(pages: seq<Reply<TableResponse>>): Result<seq<Record>, Error>
    requires |pages| > 0
  {
    match PageError(pages[|pages| - 1])
    case Some(e) => Err(e)
    case None => Ok(AllItems(pages))
  }

  /**
   * The loop of `getTableRecords`: one listing request per reply, each carrying
   * the previous reply's page token, items appended until a reply reports no
   * more pages; an error reply aborts with that error.
   */
  method FetchAllPages(c: Config, bearer: string, pages: seq<Reply<TableResponse>>)
    returns (r: Result<seq<Record>, Error>, sent: seq<PageRequest>)
    requires IsCompleteScript(pages)
    ensures sent == ExpectedRequests(c, bearer, pages)
    ensures r == ExpectedResult(pages)
  {
    var allRecords: seq<Record> := [];
    var pageToken: Option<string> := None;
    var hasMore := true;
    var k := 0;
    sent := [];
    while hasMore
      invariant 0 <= k <= |pages|
      invariant hasMore <==> k < |pages|
      invariant pageToken == TokenBefore(pages, k)
      invariant sent == ExpectedRequests(c, bearer, pages)[..k]
      invariant allRecords == AllItems(pages[..k])
      invariant k > 0 ==> PageError(pages[k - 1]).None?
      decreases |pages| - k
    {
      sent := sent + [PageRequestFor(c, bearer, pageToken)];
      var reply := pages[k];
      if !Continues(reply) {
        assert k == |pages| - 1;
        assert sent == ExpectedRequests(c, bearer, pages);
      }
      if reply.Unreachable? {
        r := Err(TransportFailed(reply.reason));
        return;
      }
      var data := reply.body;
      if data.code != 0 {
        r := Err(FetchFailed(data.msg));
        return;
      }
      assert pages[..k + 1] == pages[..k] + [reply];
      AllItemsSnoc(pages[..k], reply);
      allRecords := allRecords + data.data.items;
      hasMore := data.data.hasMore;
      pageToken := data.data.pageToken;
      k := k + 1;
    }
    assert pages[..k] == pages;
    r := Ok(allRecords);
  }

  // ---------------------------------------------------------------------------
  // The client: process-wide token cache
  // ---------------------------------------------------------------------------

  /** The module state of the client: the configuration and the cached token. */
  class FeishuClient {
    const config: Config
    var cachedToken: Option<string>
    /** Instant, in milliseconds, from which the cached token is no longer used. */
    var tokenExpiry: int

    constructor (config: Config)
      ensures this.config == config && cachedToken == None && tokenExpiry == 0
    {
      this.config := config;
      cachedToken := None;
      tokenExpiry := 0;
    }

    /** The cache answers at instant `now`: a non-empty token, not yet expired. */
    predicate HasValidToken(now: int)
      reads this
    {
      IsTruthy(cachedToken) && now < tokenExpiry
    }

    /**
     * A token for the next requests: the cached one while valid at `now`;
     * otherwise one authentication request whose `reply` arrives at `replyTime`.
     * A successful reply is cached until `replyTime + (expire - 600) * 1000`;
     * a failed one leaves the cache as it was.
     */
    method GetTenantAccessToken(now: int, replyTime: int, reply: Reply<TokenResponse>)
      returns (r: Result<string, Error>, sentAuth: Option<AuthRequest>)
      modifies this
      ensures old(HasValidToken(now)) ==>
        && r == Ok(old(cachedToken).value)
        && sentAuth == None
        && unchanged(this)
      ensures !old(HasValidToken(now)) ==>
        && sentAuth == Some(AuthRequestFor(config))
        && r == AuthOutcome(reply)
      ensures !old(HasValidToken(now)) && r.Ok? ==>
        && cachedToken == Some(reply.body.tenantAccessToken)
        && tokenExpiry == replyTime + (reply.body.expire - TokenMarginSeconds) * 1000
        && (reply.body.expire <= TokenMarginSeconds ==> forall t :: replyTime <= t ==> !HasValidToken(t))
      ensures r.Err? ==> unchanged(this)
    {
      if IsTruthy(cachedToken) && now < tokenExpiry {
        return Ok(cachedToken.value), None;
      }
      sentAuth := Some(AuthRequestFor(config));
      if reply.Unreachable? {
        return Err(TransportFailed(reply.reason)), sentAuth;
      }
      var data := reply.body;
      if data.code != 0 {
        return Err(AuthFailed(data.msg)), sentAuth;
      }
      cachedToken := Some(data.tenantAccessToken);
      tokenExpiry := replyTime + (data.expire - TokenMarginSeconds) * 1000;
      if data.expire <= TokenMarginSeconds {
        assert (data.expire - TokenMarginSeconds) * 1000 <= 0;
      }
      r := Ok(data.tenantAccessToken);
    }

    /**
     * Every record of the configured table: a token obtained once, before the
     * first page, then the paginated walk with that one token.
     */
    method GetTableRecords(now: int, replyTime: int, authReply: Reply<TokenResponse>,
                           pages: seq<Reply<TableResponse>>)
      returns (r: Result<seq<Record>, Error>, sentAuth: Option<AuthRequest>, sentPages: seq<PageRequest>)
      requires IsCompleteScript(pages)
      modifies this
      ensures old(HasValidToken(now)) ==>
        && sentAuth == None
        && unchanged(this)
        && sentPages == ExpectedRequests(config, old(cachedToken).value, pages)
        && r == ExpectedResult(pages)
      ensures !old(HasValidToken(now)) ==> sentAuth == Some(AuthRequestFor(config))
      ensures !old(HasValidToken(now)) && AuthOutcome(authReply).Err? ==>
        && r == Err(AuthOutcome(authReply).error)
        && sentPages == []
        && unchanged(this)
      ensures !old(HasValidToken(now)) && AuthOutcome(authReply).Ok? ==>
        && cachedToken == Some(authReply.body.tenantAccessToken)
        && tokenExpiry == replyTime + (authReply.body.expire - TokenMarginSeconds) * 1000
        && sentPages == ExpectedRequests(config, authReply.body.tenantAccessToken, pages)
        && r == ExpectedResult(pages)
    {
      var token;
      token, sentAuth := GetTenantAccessToken(now, replyTime, authReply);
      if token.Err? {
        return Err(token.error), sentAuth, [];
      }
      r, sentPages := FetchAllPages(config, token.value, pages);
    }
  }

  // ---------------------------------------------------------------------------
  // Properties of the walk
  // ---------------------------------------------------------------------------

  /**
   * On success every page was asked for exactly once, the first request carries
   * no page token and each later one the previous reply's non-empty token, all
   * with the same bearer, and the result is all items in page order.
   */
  lemma WalkRequests(c: Config, bearer: string, pages: seq<Reply<TableResponse>>)
    requires IsCompleteScript(pages)
    ensures var qs := ExpectedRequests(c, bearer, pages);
      && qs[0].pageToken == None
      && (forall k :: 0 < k < |pages| ==>
            qs[k].pageToken == (if IsTruthy(pages[k - 1].body.data.pageToken) then pages[k - 1].body.data.pageToken else None))
      && (forall k :: 0 <= k < |pages| ==> qs[k].bearer == bearer && qs[k].pageSize == PageSize)
  {
  }

  /** A walk ends in an error exactly when its last reply is an error. */
  lemma WalkFailsOnlyOnLastPage(pages: seq<Reply<TableResponse>>)
    requires IsCompleteScript(pages)
    ensures ExpectedResult(pages).Err? <==> PageError(pages[|pages| - 1]).Some?
    ensures ExpectedResult(pages).Ok? ==> pages[|pages| - 1].Delivered? && !pages[|pages| - 1].body.data.hasMore
  {
  }

  /** Two pages, `[A, B]` with token "T1", then `[C]`: the walk returns `[A, B, C]`. */
  lemma {:induction false} TwoPageScenario(c: Config, bearer: string, a: Record, b: Record, d: Record)
    ensures var pages := [
        Delivered(TableResponse(0, PageData(true, [a, b], 3, Some("T1")), "success")),
        Delivered(TableResponse(0, PageData(false, [d], 3, None), "success"))];
      && IsCompleteScript(pages)
      && ExpectedResult(pages) == Ok([a, b, d])
      && ExpectedRequests(c, bearer, pages)[0].pageToken == None
      && ExpectedRequests(c, bearer, pages)[1].pageToken == Some("T1")
  {
    var pages := [
        Delivered(TableResponse(0, PageData(true, [a, b], 3, Some("T1")), "success")),
        Delivered(TableResponse(0, PageData(false, [d], 3, None), "success"))];
    assert pages[1..] == [pages[1]] && pages[1..][1..] == [];
    assert AllItems(pages[1..]) == [d];
    assert AllItems(pages) == [a, b] + [d];
    assert PageError(pages[1]) == None;
    assert ExpectedResult(pages) == Ok(AllItems(pages));
    assert [a, b] + [d] == [a, b, d];
  }
}
