/**
 * The fetch client: backend payload shapes, the endpoint strings, the query
 * builder of the article list, and the decision ladder `request` applies to a
 * response. The network (`fetch`) and `JSON.parse` are parameters.
 */
module Api {

  import opened Wrappers
  import opened JsText

  // ------------------------------------------------------------ payloads

  /**
   * A story of the aggregate endpoint (also the core of an article detail).
   * A text field that is `None` was missing or null; `publishDate` is `None`
   * when it was missing or empty.
   */
  datatype ApiStory = ApiStory(
    id: Text,
    title: Option<Text>,
    url: Option<Text>,
    strategicTakeaway: Option<Text>,
    importanceScore: Option<real>,
    impactAnalysis: Option<Text>,
    timingAnalysis: Option<Text>,
    playersAnalysis: Option<Text>,
    precedentAnalysis: Option<Text>,
    publishDate: Option<int>,
    importanceLevel: Option<Text>)

  /** One pairwise connection of the aggregate payload's `strategic_threads`. */
  datatype ThreadRecord = ThreadRecord(
    primaryTitle: Text,
    connectedTitle: Text,
    relationshipStrength: real,
    connectionType: Option<Text>)

  datatype RecentAnalysis = RecentAnalysis(id: Text, title: Text, importanceLevel: Text)

  /** `last_update` is in seconds since the epoch. */
  datatype ProcessingStatus = ProcessingStatus(activeSessions: int, articlesInPipeline: int, lastUpdate: int)

  /** The body of `GET /api/dashboard`; any of its members may be missing. */
  datatype DashboardPayload = DashboardPayload(
    topStories: Option<seq<ApiStory>>,
    strategicThreads: Option<seq<ThreadRecord>>,
    recentAnalysis: Option<seq<RecentAnalysis>>,
    processingStatus: Option<ProcessingStatus>)

  datatype DetailConnection = DetailConnection(
    connectedTitle: Text,
    connectedId: Text,
    relationshipStrength: real,
    connectionType: Text)

  /** The body of `GET /api/articles/{id}`: the story fields plus its connections. */
  datatype ArticleDetail = ArticleDetail(article: ApiStory, connections: Option<seq<DetailConnection>>)

  // ------------------------------------------------------------ base URL

  const MISSING_BASE_URL: Text := Lit("VITE_BACKEND_URL environment variable is not defined")

  /** Loading the module: it throws unless the configured base URL is a non-empty string. */
  function LoadBaseUrl(env: Option<Text>): (r: Result<Text, Text>)
    ensures r.Ok? <==> Truthy(env)
    ensures r.Ok? ==> r.value == env.value && r.value != []
    ensures r.Err? ==> r.error == MISSING_BASE_URL
  {
    if !Truthy(env) then Err(MISSING_BASE_URL) else Ok(env.value)
  }

  // ------------------------------------------------------------ request

  /** What the network layer hands back: a transport failure, or a status and a body. */
  datatype Transport = Unreachable(message: Text) | Response(status: int, body: Text)

  /** What `request` throws. */
  datatype ApiError =
    | NetworkError(message: Text)
    | HttpError(status: int, body: Text)
    | HtmlInsteadOfJson
    | InvalidJson(message: Text)

  /** `response.ok`: a status in the 2xx range. */
  predicate IsOk(status: int)
  {
    200 <= status <= 299
  }

  const DOCTYPE_PREFIX: Text := Lit("<!DOCTYPE")
  const HTML_PREFIX: Text := Lit("<html")

  /** The HTML sniff: after trimming, the body starts with `<!DOCTYPE` or `<html`, case-sensitively. */
  predicate LooksLikeHtml(body: Text)
    ensures LooksLikeHtml(body) ==> LeadingSpaces(body) < |body| && body[LeadingSpaces(body)] == Unit('<')
  {
    StartsWith(Trim(body), DOCTYPE_PREFIX) || StartsWith(Trim(body), HTML_PREFIX)
  }

  /**
   * `request(endpoint)`: fetches `baseUrl + endpoint` and walks the ladder
   * non-2xx status, HTML sniff, JSON parse. A step is reached only when every
   * earlier step let the response through, so a failing status is never
   * sniffed and an HTML body is never parsed.
   */
  method Request<J>(baseUrl: Text, endpoint: Text, fetch: Text -> Transport, parse: Text -> Result<J, Text>)
    returns (url: Text, r: Result<J, ApiError>)
    requires baseUrl != []
    ensures url == baseUrl + endpoint
    ensures fetch(url).Unreachable? ==> r == Err(NetworkError(fetch(url).message))
    ensures fetch(url).Response? && !IsOk(fetch(url).status) ==>
              r == Err(HttpError(fetch(url).status, fetch(url).body))
    ensures fetch(url).Response? && IsOk(fetch(url).status) && LooksLikeHtml(fetch(url).body) ==>
              r == Err(HtmlInsteadOfJson)
    ensures fetch(url).Response? && IsOk(fetch(url).status) && !LooksLikeHtml(fetch(url).body) ==>
              r == match parse(fetch(url).body)
                   case Ok(v) => Ok(v)
                   case Err(m) => Err(InvalidJson(m))
  {
    url := baseUrl + endpoint;
    var response := fetch(url);
    if response.Unreachable? {
      return url, Err(NetworkError(response.message));
    }
    if !IsOk(response.status) {
      var errorText := response.body;
      return url, Err(HttpError(response.status, errorText));
    }
    var responseText := response.body;
    if StartsWith(Trim(responseText), DOCTYPE_PREFIX) || StartsWith(Trim(responseText), HTML_PREFIX) {
      return url, Err(HtmlInsteadOfJson);
    }
    var data := parse(responseText);
    if data.Err? {
      return url, Err(InvalidJson(data.error));
    }
    r := Ok(data.value);
  }

  /** Leading white space never hides an HTML body, nor makes one of a body that is not. */
  lemma {:induction false} HtmlSniffSkipsLeadingSpace(ws: Text, body: Text)
    requires forall i :: 0 <= i < |ws| ==> IsJsSpace(ws[i])
    ensures LooksLikeHtml(ws + body) <==> LooksLikeHtml(body)
  {
    TrimStartSkipsSpace(ws, body);
  }

  lemma {:induction false} TrimStartSkipsSpace(ws: Text, body: Text)
    requires forall i :: 0 <= i < |ws| ==> IsJsSpace(ws[i])
    ensures TrimStart(ws + body) == TrimStart(body)
    decreases |ws|
  {
    if ws != [] {
      assert (ws + body)[1..] == ws[1..] + body;
      TrimStartSkipsSpace(ws[1..], body);
    } else {
      assert ws + body == body;
    }
  }

  /** A text with no white space at either end is its own trim. */
  lemma TrimUnchanged(t: Text)
    requires t != [] && !IsJsSpace(t[0]) && !IsJsSpace(t[|t| - 1])
    ensures Trim(t) == t
  {
    assert TrimStart(t) == t;
  }

  /** A text that opens with `<` and closes with `>` has nothing to trim. */
  lemma BracketedIsTrimmed(t: Text)
    requires |t| >= 2 && t[0] == Unit('<') && t[|t| - 1] == Unit('>')
    ensures Trim(t) == t
  {
    assert !IsJsSpace(t[0]) && !IsJsSpace(t[|t| - 1]);
    TrimUnchanged(t);
  }

  /** The sniff is case-sensitive: an upper-case `<HTML>` document goes on to the JSON parser. */
  lemma HtmlSniffIsCaseSensitive()
    ensures !LooksLikeHtml(Lit("<HTML>"))
    ensures LooksLikeHtml(Lit("<html>"))
  {
    UpperCaseHtmlNotSniffed();
    LowerCaseHtmlSniffed();
  }

  lemma UpperCaseHtmlNotSniffed()
    ensures !LooksLikeHtml(Lit("<HTML>"))
  {
    var upper := Lit("<HTML>");
    assert upper[0] == Unit('<') && upper[5] == Unit('>');
    BracketedIsTrimmed(upper);
    assert |upper| < |DOCTYPE_PREFIX|;
    assert upper[1] == Unit('H') != Unit('h') == HTML_PREFIX[1];
    assert upper[..5] != HTML_PREFIX by {
      assert upper[..5][1] != HTML_PREFIX[1];
    }
  }

  lemma LowerCaseHtmlSniffed()
    ensures LooksLikeHtml(Lit("<html>"))
  {
    var lower := Lit("<html>");
    assert lower[0] == Unit('<') && lower[5] == Unit('>');
    BracketedIsTrimmed(lower);
    assert "<html>"[..5] == "<html";
    LitPrefix("<html>", 5);
  }

  /** A body whose trimmed text opens with `{` or `[` (a JSON object or array) is never taken for HTML. */
  lemma JsonBodyIsNotHtml(body: Text)
    requires Trim(body) != [] && (Trim(body)[0] == Unit('{') || Trim(body)[0] == Unit('['))
    ensures !LooksLikeHtml(body)
  {
    var t := Trim(body);
    assert DOCTYPE_PREFIX[0] == HTML_PREFIX[0] == Unit('<');
    assert |t| < |DOCTYPE_PREFIX| || t[..|DOCTYPE_PREFIX|][0] != DOCTYPE_PREFIX[0];
    assert |t| < |HTML_PREFIX| || t[..|HTML_PREFIX|][0] != HTML_PREFIX[0];
  }

  // ------------------------------------------------------------ endpoints

  const DASHBOARD_ENDPOINT: Text := Lit("/api/dashboard")
  const CATEGORIES_ENDPOINT: Text := Lit("/api/categories")
  const ARTICLES_PATH: Text := Lit("/api/articles")
  const ARTICLE_DETAIL_PREFIX: Text := Lit("/api/articles/")
  const CONNECTIONS_PREFIX: Text := Lit("/api/stories/connections/")
  const PROCESSING_STATUS_PATH: Text := Lit("/api/processing/status")
  const SESSION_ID_QUERY: Text := Lit("?session_id=")

  /** The optional filters of `getArticles`; an absent member is `None`. */
  datatype ArticleQuery = ArticleQuery(
    importance: Option<Text>,
    category: Option<Text>,
    status: Option<Text>,
    limit: Option<int>,
    offset: Option<int>)

  /** One `name=value` entry of a `URLSearchParams`, before encoding. */
  datatype QueryParam = QueryParam(name: Text, value: Text)

  /** The five parameter names, in the order `getArticles` appends them. */
  function ParamNames(): (names: seq<Text>)
    ensures |names| == 5
  {
    [Lit("importance"), Lit("category"), Lit("status"), Lit("limit"), Lit("offset")]
  }

  /** A numeric filter is truthy when present and not 0. */
  predicate TruthyNumber(o: Option<int>)
  {
    o.Some? && o.value != 0
  }

  /** The value each of the five candidates would carry, or `None` when it is falsy. */
  function Candidate(q: ArticleQuery, k: nat): Option<Text>
    requires k < 5
  {
    match k
    case 0 => if Truthy(q.importance) then q.importance else None
    case 1 => if Truthy(q.category) then q.category else None
    case 2 => if Truthy(q.status) then q.status else None
    case 3 => if TruthyNumber(q.limit) then Some(SignedDecimal(q.limit.value)) else None
    case _ => if TruthyNumber(q.offset) then Some(SignedDecimal(q.offset.value)) else None
  }

  /** The appended entries, as a filter of the five candidates in their fixed order. */
  function QueryParams(q: ArticleQuery): (ps: seq<QueryParam>)
    ensures |ps| <= 5
    ensures ps == [] <==> forall m :: 0 <= m < 5 ==> Candidate(q, m).None?
  {
    CandidatesEmptyIff(q, 0);
    CandidatesFrom(q, 0)
  }

  /** No entry is appended from position k on exactly when no candidate from k on is present. */
  lemma {:induction false} CandidatesEmptyIff(q: ArticleQuery, k: nat)
    requires k <= 5
    ensures CandidatesFrom(q, k) == [] <==> forall m :: k <= m < 5 ==> Candidate(q, m).None?
    decreases 5 - k
  {
    if k < 5 {
      CandidatesEmptyIff(q, k + 1);
    }
  }

  function CandidatesFrom(q: ArticleQuery, k: nat): (ps: seq<QueryParam>)
    requires k <= 5
    ensures |ps| <= 5 - k
    decreases 5 - k
  {
    if k == 5 then []
    else (match Candidate(q, k)
          case Some(v) => [QueryParam(ParamNames()[k], v)]
          case None => []) + CandidatesFrom(q, k + 1)
  }

  /** The position of a name in the fixed order (5 for any other name). */
  function Rank(name: Text): nat
  {
    if name == ParamNames()[0] then 0
    else if name == ParamNames()[1] then 1
    else if name == ParamNames()[2] then 2
    else if name == ParamNames()[3] then 3
    else if name == ParamNames()[4] then 4
    else 5
  }

  lemma RanksOfNames()
    ensures forall k :: 0 <= k < 5 ==> Rank(ParamNames()[k]) == k
  {
    var n := ParamNames();
    assert n[0][0] != n[1][0] && n[0][0] != n[2][0] && n[0][0] != n[3][0] && n[0][0] != n[4][0];
    assert n[1][0] != n[2][0] && n[1][0] != n[3][0] && n[1][0] != n[4][0];
    assert n[2][0] != n[3][0] && n[2][0] != n[4][0];
    assert n[3][0] != n[4][0];
  }

  /** Every appended entry is a truthy candidate at or after position k, with its value. */
  lemma {:induction false} CandidatesSound(q: ArticleQuery, k: nat)
    requires k <= 5
    requires forall m :: 0 <= m < 5 ==> Rank(ParamNames()[m]) == m
    ensures var ps := CandidatesFrom(q, k);
      && |ps| <= 5 - k
      && (forall i :: 0 <= i < |ps| ==> k <= Rank(ps[i].name) < 5 && Candidate(q, Rank(ps[i].name)) == Some(ps[i].value))
    decreases 5 - k
  {
    if k < 5 {
      CandidatesSound(q, k + 1);
    }
  }

  /** The appended entries come in strictly increasing position of their names. */
  lemma {:induction false} CandidatesOrdered(q: ArticleQuery, k: nat)
    requires k <= 5
    requires forall m :: 0 <= m < 5 ==> Rank(ParamNames()[m]) == m
    ensures var ps := CandidatesFrom(q, k);
      forall i, j :: 0 <= i < j < |ps| ==> Rank(ps[i].name) < Rank(ps[j].name)
    decreases 5 - k
  {
    if k < 5 {
      CandidatesOrdered(q, k + 1);
      CandidatesSound(q, k + 1);
    }
  }

  /** Some entry of ps carries the name at position m of the fixed order. */
  predicate HasParamAt(ps: seq<QueryParam>, m: nat)
  {
    exists i :: 0 <= i < |ps| && Rank(ps[i].name) == m
  }

  /** Every truthy candidate at or after position k is appended. */
  lemma {:induction false} CandidatesComplete(q: ArticleQuery, k: nat)
    requires k <= 5
    requires forall m :: 0 <= m < 5 ==> Rank(ParamNames()[m]) == m
    ensures forall m :: k <= m < 5 && Candidate(q, m).Some? ==> HasParamAt(CandidatesFrom(q, k), m)
    decreases 5 - k
  {
    if k < 5 {
      CandidatesComplete(q, k + 1);
      var rest := CandidatesFrom(q, k + 1);
      var ps := CandidatesFrom(q, k);
      var head := if Candidate(q, k).Some? then [QueryParam(ParamNames()[k], Candidate(q, k).value)] else [];
      assert ps == head + rest;
      forall m | k <= m < 5 && Candidate(q, m).Some?
        ensures HasParamAt(ps, m)
      {
        if m == k {
          assert Rank(ps[0].name) == m;
        } else {
          assert HasParamAt(rest, m);
          var i :| 0 <= i < |rest| && Rank(rest[i].name) == m;
          assert ps[|head| + i] == rest[i];
        }
      }
    }
  }

  /**
   * The entries that appear are exactly the truthy filters, with their values,
   * in the fixed order importance, category, status, limit, offset.
   */
  lemma QueryParamsSpec(q: ArticleQuery)
    ensures var ps := QueryParams(q);
      && |ps| <= 5
      && (forall i :: 0 <= i < |ps| ==> Rank(ps[i].name) < 5 && Candidate(q, Rank(ps[i].name)) == Some(ps[i].value))
      && (forall i, j :: 0 <= i < j < |ps| ==> Rank(ps[i].name) < Rank(ps[j].name))
      && (forall m :: 0 <= m < 5 && Candidate(q, m).Some? ==> HasParamAt(ps, m))
  {
    RanksOfNames();
    CandidatesSound(q, 0);
    CandidatesOrdered(q, 0);
    CandidatesComplete(q, 0);
  }

  /** Queries whose candidates agree from position k on append the same entries from k on. */
  lemma {:induction false} CandidatesAgree(q: ArticleQuery, q': ArticleQuery, k: nat)
    requires k <= 5 && forall m :: k <= m < 5 ==> Candidate(q, m) == Candidate(q', m)
    ensures CandidatesFrom(q, k) == CandidatesFrom(q', k)
    decreases 5 - k
  {
    if k < 5 {
      CandidatesAgree(q, q', k + 1);
    }
  }

  /** A limit or offset of 0 is omitted, just like an absent one, whatever the other filters hold. */
  lemma ZeroLimitOmitted(q: ArticleQuery)
    ensures QueryParams(q.(limit := Some(0))) == QueryParams(q.(limit := None))
    ensures QueryParams(q.(offset := Some(0))) == QueryParams(q.(offset := None))
  {
    CandidatesAgree(q.(limit := Some(0)), q.(limit := None), 0);
    CandidatesAgree(q.(offset := Some(0)), q.(offset := None), 0);
  }

  /** `URLSearchParams.toString()`: encoded `name=value` entries joined by `&`. */
  function Serialize(ps: seq<QueryParam>, encode: Text -> Text): (t: Text)
    ensures t == [] <==> ps == []
  {
    if ps == [] then []
    else
      var entry := encode(ps[|ps| - 1].name) + Lit("=") + encode(ps[|ps| - 1].value);
      if |ps| == 1 then entry else Serialize(ps[..|ps| - 1], encode) + Lit("&") + entry
  }

  /** The entry candidate k contributes: one parameter when it is truthy, none otherwise. */
  function Entry(q: ArticleQuery, k: nat): seq<QueryParam>
    requires k < 5
  {
    match Candidate(q, k)
    case Some(v) => [QueryParam(ParamNames()[k], v)]
    case None => []
  }

  /** The entries of the first k candidates, as appended so far. */
  ghost function EntriesUpTo(q: ArticleQuery, k: nat): seq<QueryParam>
    requires k <= 5
  {
    if k == 0 then [] else EntriesUpTo(q, k - 1) + Entry(q, k - 1)
  }

  /** The entries appended so far followed by the candidates still to come are the whole query. */
  lemma {:induction false} EntriesSplit(q: ArticleQuery, k: nat)
    requires k <= 5
    ensures EntriesUpTo(q, k) + CandidatesFrom(q, k) == CandidatesFrom(q, 0)
  {
    if k > 0 {
      var p := k - 1;
      EntriesSplit(q, p);
      var before, entry, after := EntriesUpTo(q, p), Entry(q, p), CandidatesFrom(q, k);
      assert CandidatesFrom(q, p) == entry + after;
      assert EntriesUpTo(q, k) == before + entry;
      assert (before + entry) + after == before + (entry + after);
    }
  }

  /**
   * `getArticles`: appends each truthy filter in turn to a `URLSearchParams`
   * and adds `?` and the serialized query only when something was appended.
   */
  method ArticlesEndpoint(params: ArticleQuery, encode: Text -> Text) returns (endpoint: Text)
    ensures QueryParams(params) == [] ==> endpoint == ARTICLES_PATH
    ensures QueryParams(params) != [] ==> endpoint == ARTICLES_PATH + Lit("?") + Serialize(QueryParams(params), encode)
  {
    var searchParams: seq<QueryParam> := [];
    if Truthy(params.importance) {
      searchParams := searchParams + [QueryParam(Lit("importance"), params.importance.value)];
    }
    assert searchParams == EntriesUpTo(params, 1);
    if Truthy(params.category) {
      searchParams := searchParams + [QueryParam(Lit("category"), params.category.value)];
    }
    assert searchParams == EntriesUpTo(params, 2);
    if Truthy(params.status) {
      searchParams := searchParams + [QueryParam(Lit("status"), params.status.value)];
    }
    assert searchParams == EntriesUpTo(params, 3);
    if TruthyNumber(params.limit) {
      searchParams := searchParams + [QueryParam(Lit("limit"), SignedDecimal(params.limit.value))];
    }
    assert searchParams == EntriesUpTo(params, 4);
    if TruthyNumber(params.offset) {
      searchParams := searchParams + [QueryParam(Lit("offset"), SignedDecimal(params.offset.value))];
    }
    assert searchParams == EntriesUpTo(params, 5);
    EntriesSplit(params, 5);
    assert searchParams == QueryParams(params);
    var query := Serialize(searchParams, encode);
    if query != [] {
      endpoint := ARTICLES_PATH + Lit("?") + query;
    } else {
      endpoint := ARTICLES_PATH;
    }
  }

  /** `getProcessingStatus(sessionId)`: the raw id is appended, unencoded, only when it is non-empty. */
  function ProcessingStatusEndpoint(sessionId: Option<Text>): (endpoint: Text)
    ensures !Truthy(sessionId) ==> endpoint == PROCESSING_STATUS_PATH
    ensures Truthy(sessionId) ==> StartsWith(endpoint, PROCESSING_STATUS_PATH + SESSION_ID_QUERY)
    ensures Truthy(sessionId) ==> endpoint[|PROCESSING_STATUS_PATH + SESSION_ID_QUERY|..] == sessionId.value
  {
    PROCESSING_STATUS_PATH + (if Truthy(sessionId) then SESSION_ID_QUERY + sessionId.value else [])
  }

  /** `getArticleDetail(articleId)`. */
  function ArticleDetailEndpoint(articleId: Text): (endpoint: Text)
    ensures StartsWith(endpoint, ARTICLE_DETAIL_PREFIX) && endpoint[|ARTICLE_DETAIL_PREFIX|..] == articleId
  {
    ARTICLE_DETAIL_PREFIX + articleId
  }

  /** `getArticleConnections(articleId)`. */
  function ArticleConnectionsEndpoint(articleId: Text): (endpoint: Text)
    ensures StartsWith(endpoint, CONNECTIONS_PREFIX) && endpoint[|CONNECTIONS_PREFIX|..] == articleId
  {
    CONNECTIONS_PREFIX + articleId
  }

}
