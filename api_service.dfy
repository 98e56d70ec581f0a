/**
 * The HTTP client helpers (frontend/src/lib/apiService.tsx): request headers, the choice of error
 * message for a failed response, the sign-in URL, the list queries of `pdiService.getAll` and
 * `feedbackService.getAll`, and the per-id endpoint paths.
 *
 * `fetch` itself is not modelled: a response is the value `HttpResponse`, and a JSON body is read
 * as the string-valued properties of an object (`None` when the body is not JSON).
 */
module ApiService {
  import opened Wrappers
  import Text

  const LOGIN_BASE_URL_DEFAULT := "http://localhost:8081"
  /** `http://localhost:8081/api`, written as the sign-in default plus its path segment. */
  const API_BASE_URL_DEFAULT := LOGIN_BASE_URL_DEFAULT + "/api"
  const LOGIN_ENDPOINT := "/auth/login"
  const UNKNOWN_API_ERROR := "Ocorreu um erro desconhecido na API."
  const STATUS_PREFIX := "Erro na API: "
  const CONTENT_TYPE := "Content-Type"
  const AUTHORIZATION := "Authorization"

  // ---------------------------------------------------------------------------------------------
  // Base URLs
  // ---------------------------------------------------------------------------------------------

  /** `process.env.NEXT_PUBLIC_API_BASE_URL || fallback`: an unset or empty variable is replaced. */
  function EnvOr(env: Option<string>, fallback: string): (r: string)
    ensures env.Some? && env.value != "" ==> r == env.value
    ensures env.None? || env.value == "" ==> r == fallback
  {
    if env.Some? && env.value != "" then env.value else fallback
  }

  /** The URL every `apiClient` call goes to: the base URL followed by the endpoint. */
  function ApiUrl(env: Option<string>, endpoint: string): (url: string)
    ensures Text.StartsWith(url, EnvOr(env, API_BASE_URL_DEFAULT)) && url[|EnvOr(env, API_BASE_URL_DEFAULT)|..] == endpoint
  {
    var base := EnvOr(env, API_BASE_URL_DEFAULT);
    assert (base + endpoint)[..|base|] == base;
    base + endpoint
  }

  // ---------------------------------------------------------------------------------------------
  // getAuthHeaders
  // ---------------------------------------------------------------------------------------------

  /**
   * The headers of every `apiClient` request: always the JSON content type, and a bearer token when
   * a window exists and session storage holds a non-empty `authToken`.
   */
  method GetAuthHeaders(windowDefined: bool, sessionStorage: map<string, string>) returns (headers: map<string, string>)
    ensures CONTENT_TYPE in headers && headers[CONTENT_TYPE] == "application/json"
    ensures AUTHORIZATION in headers <==>
      windowDefined && "authToken" in sessionStorage && sessionStorage["authToken"] != ""
    ensures AUTHORIZATION in headers ==> headers[AUTHORIZATION] == "Bearer " + sessionStorage["authToken"]
    ensures headers.Keys <= {CONTENT_TYPE, AUTHORIZATION}
  {
    headers := map[CONTENT_TYPE := "application/json"];
    if windowDefined {
      var token := if "authToken" in sessionStorage then Some(sessionStorage["authToken"]) else None;
      if token.Some? && token.value != "" {
        headers := headers[AUTHORIZATION := "Bearer " + token.value];
      }
    }
  }

  // ---------------------------------------------------------------------------------------------
  // handleResponse
  // ---------------------------------------------------------------------------------------------

  /** A response as `handleResponse` reads it. */
  datatype HttpResponse = HttpResponse(ok: bool, status: int, statusText: string, body: Option<map<string, string>>)

  /** How the promise returned by `handleResponse` settles. */
  datatype Outcome =
    | Resolved(value: Option<map<string, string>>)   // `null` for 204, the parsed body otherwise
    | Rejected(message: string)                      // `throw new Error(message)`
    | BodyNotJson                                    // `response.json()` rejects on a success status

  /** The object standing in for an unreadable error body. */
  function StatusMessage(r: HttpResponse): string {
    STATUS_PREFIX + Text.IntToDecimal(r.status) + " " + r.statusText
  }

  /** `errorData.message` is truthy. */
  predicate HasMessage(body: map<string, string>) {
    "message" in body && body["message"] != ""
  }

  /**
   * A failed response rejects with the body's message, with the status line when the body is not
   * JSON, or with the generic text when the JSON body has no message; a success resolves to `null`
   * for 204 and to the body otherwise.
   */
  function HandleResponse(r: HttpResponse): (o: Outcome)
    ensures !r.ok ==> o.Rejected? && o.message != ""
    ensures !r.ok && r.body.None? ==> o.message == StatusMessage(r)
    ensures !r.ok && r.body.Some? && HasMessage(r.body.value) ==> o.message == r.body.value["message"]
    ensures !r.ok && r.body.Some? && !HasMessage(r.body.value) ==> o.message == UNKNOWN_API_ERROR
    ensures r.ok && r.status == 204 ==> o == Resolved(None)
    ensures r.ok && r.status != 204 ==> o == (if r.body.Some? then Resolved(r.body) else BodyNotJson)
  {
    if !r.ok then
      var errorData := match r.body
        case Some(b) => b
        case None => map["message" := StatusMessage(r)];
      Rejected(if HasMessage(errorData) then errorData["message"] else UNKNOWN_API_ERROR)
    else if r.status == 204 then Resolved(None)
    else if r.body.Some? then Resolved(r.body)
    else BodyNotJson
  }

  /**
   * A failed response whose body is not JSON rejects with the status line, never the generic text:
   * the message carries the fixed prefix, and the status code parses back from what follows it.
   */
  lemma UnreadableBodyGetsStatusLine(r: HttpResponse)
    requires !r.ok && r.body.None?
    ensures var m := HandleResponse(r).message;
            m != UNKNOWN_API_ERROR && Text.StartsWith(m, STATUS_PREFIX) &&
            Text.ParseInt10(m[|STATUS_PREFIX|..]) == Some(r.status)
  {
    var m := StatusMessage(r);
    assert m[0] == 'E' && UNKNOWN_API_ERROR[0] == 'O';
    var rest := " " + r.statusText;
    assert m[..|STATUS_PREFIX|] == STATUS_PREFIX;
    assert m[|STATUS_PREFIX|..] == Text.IntToDecimal(r.status) + rest;
    Text.ParseIntOfDecimalThen(r.status, rest);
  }

  // ---------------------------------------------------------------------------------------------
  // The sign-in URL
  // ---------------------------------------------------------------------------------------------

  /** `authService.login`'s URL: the base with its FIRST `/api` removed, then `/auth/login`. */
  function LoginUrl(env: Option<string>): (url: string)
    ensures var base := EnvOr(env, LOGIN_BASE_URL_DEFAULT);
      !Text.Contains(base, "/api") ==> url == base + LOGIN_ENDPOINT
    ensures var base := EnvOr(env, LOGIN_BASE_URL_DEFAULT);
      forall i {:trigger Text.OccursAt(base, "/api", i)} ::
        Text.OccursAt(base, "/api", i) && (forall j :: 0 <= j < i ==> !Text.OccursAt(base, "/api", j)) ==>
          url == base[..i] + base[i + 4..] + LOGIN_ENDPOINT
  {
    Text.ReplaceFirst(EnvOr(env, LOGIN_BASE_URL_DEFAULT), "/api", "") + LOGIN_ENDPOINT
  }

  /** `/api` cannot occur in the first `k` characters when none of them is an `i`. */
  lemma NoApiWithoutI(s: string, k: nat)
    requires k <= |s| && 'i' !in s[..k]
    ensures forall j :: 0 <= j && j + 4 <= k ==> !Text.OccursAt(s, "/api", j)
  {
    forall j | 0 <= j && j + 4 <= k ensures !Text.OccursAt(s, "/api", j) {
      assert s[..k][j + 3] == s[j + 3];
    }
  }

  /** A base URL whose host name begins with `api.`. */
  const API_HOST := "http://api.example.com"
  const API_HOST_BASE := API_HOST + "/api"

  /** For such a base the first `/api` is the one after `http:/`, so the host is cut, not the path. */
  lemma LoginUrlBreaksApiHost()
    ensures LoginUrl(Some(API_HOST_BASE)) == "http:/" + ".example.com/api" + LOGIN_ENDPOINT
  {
    var s := API_HOST_BASE;
    assert Text.OccursAt(s, "/api", 6) by { assert s[6..10] == "/api"; }
    assert s[..9] == "http://ap";
    NoApiWithoutI(s, 9);
    assert s[..6] == "http:/" && s[10..] == ".example.com/api";
  }

  /** The corrected URL keeps the host and drops the path segment. */
  lemma LoginUrlCorrectedKeepsApiHost()
    ensures LoginUrlCorrected(Some(API_HOST_BASE)) == API_HOST + LOGIN_ENDPOINT
  {
    assert API_HOST_BASE == API_HOST + "/api";
    LoginUrlCorrectedDropsTrailingApi(API_HOST);
  }

  /** On such a base the written URL and the corrected one differ. */
  lemma LoginUrlsDifferOnApiHost()
    ensures LoginUrl(Some(API_HOST_BASE)) != LoginUrlCorrected(Some(API_HOST_BASE))
  {
    LoginUrlCorrectedKeepsApiHost();
    LoginUrlBreaksApiHost();
    SeventhCharDiffers(LoginUrl(Some(API_HOST_BASE)), LoginUrlCorrected(Some(API_HOST_BASE)));
  }

  /** The written URL has `.` where the corrected one keeps the host's `/`. */
  lemma SeventhCharDiffers(wrong: string, right: string)
    requires wrong == "http:/" + ".example.com/api" + LOGIN_ENDPOINT
    requires right == API_HOST + LOGIN_ENDPOINT
    ensures wrong != right
  {
    assert wrong[6] == '.';
    assert right[6] == '/';
  }

  predicate EndsWith(s: string, suffix: string) {
    |suffix| <= |s| && s[|s| - |suffix|..] == suffix
  }

  /**
   * The sign-in URL as evidently intended: only a TRAILING `/api` path segment is dropped, so the URL
   * is always the base without that suffix, followed by `/auth/login`.
   */
  function LoginUrlCorrected(env: Option<string>): (url: string)
    ensures EndsWith(url, LOGIN_ENDPOINT)
    ensures var base := EnvOr(env, LOGIN_BASE_URL_DEFAULT);
      EndsWith(base, "/api") ==> url[..|url| - |LOGIN_ENDPOINT|] + "/api" == base
    ensures var base := EnvOr(env, LOGIN_BASE_URL_DEFAULT);
      !EndsWith(base, "/api") ==> url[..|url| - |LOGIN_ENDPOINT|] == base
  {
    var base := EnvOr(env, LOGIN_BASE_URL_DEFAULT);
    var origin := if EndsWith(base, "/api") then base[..|base| - 4] else base;
    assert EndsWith(base, "/api") ==> origin + "/api" == base;
    var url := origin + LOGIN_ENDPOINT;
    assert url[..|origin|] == origin && url[|origin|..] == LOGIN_ENDPOINT;
    url
  }

  /** For a base `origin + "/api"` the corrected URL is `origin + "/auth/login"`, whatever the origin. */
  lemma LoginUrlCorrectedDropsTrailingApi(origin: string)
    ensures LoginUrlCorrected(Some(origin + "/api")) == origin + LOGIN_ENDPOINT
  {
    var base := origin + "/api";
    assert EndsWith(base, "/api") by { assert base[|base| - 4..] == "/api"; }
    var url := LoginUrlCorrected(Some(base));
    assert url[..|url| - |LOGIN_ENDPOINT|] == origin;
    assert url == url[..|url| - |LOGIN_ENDPOINT|] + url[|url| - |LOGIN_ENDPOINT|..];
  }

  /** As written, the default base gives `http://localhost:8081/auth/login`... */
  lemma LoginUrlOfDefaultBase()
    ensures LoginUrl(None) == LOGIN_BASE_URL_DEFAULT + LOGIN_ENDPOINT
  {
    var plain := LOGIN_BASE_URL_DEFAULT;
    assert plain[..21] == plain;
    NoApiWithoutI(plain, 21);
  }

  /** ...and so does the API's own default base, whose only `/api` is the trailing one. */
  lemma LoginUrlOfDefaultApiBase()
    ensures LoginUrl(Some(API_BASE_URL_DEFAULT)) == LOGIN_BASE_URL_DEFAULT + LOGIN_ENDPOINT
  {
    var withApi := API_BASE_URL_DEFAULT;
    assert Text.OccursAt(withApi, "/api", 21) by { assert withApi[21..25] == "/api"; }
    assert withApi[..24] == "http://localhost:8081/ap";
    NoApiWithoutI(withApi, 24);
    assert withApi[..21] == LOGIN_BASE_URL_DEFAULT && withApi[25..] == "";
  }

  /** The correction changes nothing on the default base... */
  lemma LoginUrlsAgreeOnDefaultBase()
    ensures LoginUrlCorrected(None) == LoginUrl(None)
  {
    LoginUrlOfDefaultBase();
    var plain := LOGIN_BASE_URL_DEFAULT;
    assert !EndsWith(plain, "/api") by { assert plain[|plain| - 4] == '8'; }
    var u := LoginUrlCorrected(None);
    assert u == u[..|u| - |LOGIN_ENDPOINT|] + u[|u| - |LOGIN_ENDPOINT|..];
  }

  /** ...nor on the API's default base. */
  lemma LoginUrlsAgreeOnDefaultApiBase()
    ensures LoginUrlCorrected(Some(API_BASE_URL_DEFAULT)) == LoginUrl(Some(API_BASE_URL_DEFAULT))
  {
    LoginUrlOfDefaultApiBase();
    LoginUrlCorrectedDropsTrailingApi(LOGIN_BASE_URL_DEFAULT);
  }

  // ---------------------------------------------------------------------------------------------
  // List queries
  // ---------------------------------------------------------------------------------------------

  /** A filter value is sent when it is truthy: present and not zero. */
  function Param(key: string, value: Option<int>): (ps: seq<(string, string)>)
    ensures |ps| <= 1
    ensures ps != [] <==> value.Some? && value.value != 0
    ensures ps != [] ==> ps[0].0 == key && Text.ParseInt10(ps[0].1) == value
  {
    if value.Some? && value.value != 0 then
      Text.ParseIntOfDecimal(value.value);
      [(key, Text.IntToDecimal(value.value))]
    else []
  }

  /** `query` is `''` for no parameters and otherwise `?` followed by text that reads back as `params`. */
  predicate EncodesParams(query: string, params: seq<(string, string)>) {
    if params == [] then query == ""
    else |query| > 0 && query[0] == '?' && Text.ParseParams(query[1..]) == params
  }

  datatype PdiFilters = PdiFilters(colaboradorId: Option<int>)
  datatype FeedbackFilters = FeedbackFilters(destinatarioId: Option<int>, autorId: Option<int>)

  /** The parameters `pdiService.getAll` sends. */
  function PdiParams(filters: Option<PdiFilters>): seq<(string, string)> {
    match filters
    case None => []
    case Some(f) => Param("colaboradorId", f.colaboradorId)
  }

  /** The parameters `feedbackService.getAll` sends: the recipient's before the author's. */
  function FeedbackParams(filters: Option<FeedbackFilters>): seq<(string, string)> {
    match filters
    case None => []
    case Some(f) => Param("destinatarioId", f.destinatarioId) + Param("autorId", f.autorId)
  }

  /** The query text of a list of clean filters, as built from `URLSearchParams`. */
  method QueryOf(cleanFilters: seq<(string, string)>) returns (query: string)
    requires forall i :: 0 <= i < |cleanFilters| ==> Text.UrlSafe(cleanFilters[i].0) && Text.UrlSafe(cleanFilters[i].1)
    ensures EncodesParams(query, cleanFilters)
  {
    query := "";
    var params := Text.SerializeParams(cleanFilters);
    if params != "" {
      query := "?" + params;
      Text.ParseSerializedParams(cleanFilters);
      assert query[1..] == params;
    }
  }

  /** The endpoint of `pdiService.getAll`: `/pdis`, then the query for a non-zero collaborator id. */
  method PdiListEndpoint(filters: Option<PdiFilters>) returns (endpoint: string)
    ensures Text.StartsWith(endpoint, "/pdis") && EncodesParams(endpoint[5..], PdiParams(filters))
    ensures endpoint == "/pdis" <==> filters.None? || filters.value.colaboradorId.None? || filters.value.colaboradorId.value == 0
  {
    var query := "";
    if filters.Some? {
      var cleanFilters: seq<(string, string)> := [];
      var id := filters.value.colaboradorId;
      if id.Some? && id.value != 0 {
        Text.DecimalIsUrlSafe(id.value);
        cleanFilters := cleanFilters + [("colaboradorId", Text.IntToDecimal(id.value))];
      }
      query := QueryOf(cleanFilters);
    }
    endpoint := "/pdis" + query;
    assert endpoint[..5] == "/pdis" && endpoint[5..] == query;
  }

  /** The endpoint of `feedbackService.getAll`: `/feedbacks`, then recipient and author filters. */
  method FeedbackListEndpoint(filters: Option<FeedbackFilters>) returns (endpoint: string)
    ensures Text.StartsWith(endpoint, "/feedbacks") && EncodesParams(endpoint[10..], FeedbackParams(filters))
    ensures endpoint == "/feedbacks" <==> FeedbackParams(filters) == []
  {
    var query := "";
    if filters.Some? {
      var cleanFilters: seq<(string, string)> := [];
      var recipient := filters.value.destinatarioId;
      var author := filters.value.autorId;
      if recipient.Some? && recipient.value != 0 {
        cleanFilters := cleanFilters + [("destinatarioId", Text.IntToDecimal(recipient.value))];
      }
      assert cleanFilters == Param("destinatarioId", recipient);
      if author.Some? && author.value != 0 {
        cleanFilters := cleanFilters + [("autorId", Text.IntToDecimal(author.value))];
      }
      assert cleanFilters == FeedbackParams(filters);
      ParamsAreUrlSafe(filters.value);
      query := QueryOf(cleanFilters);
    }
    endpoint := "/feedbacks" + query;
    assert endpoint[..10] == "/feedbacks" && endpoint[10..] == query;
  }

  /** Filter keys are plain words and values are numerals, so the serialiser escapes nothing. */
  lemma ParamsAreUrlSafe(f: FeedbackFilters)
    ensures var ps := FeedbackParams(Some(f));
      forall i :: 0 <= i < |ps| ==> Text.UrlSafe(ps[i].0) && Text.UrlSafe(ps[i].1)
  {
    if f.destinatarioId.Some? { Text.DecimalIsUrlSafe(f.destinatarioId.value); }
    if f.autorId.Some? { Text.DecimalIsUrlSafe(f.autorId.value); }
    assert Text.UrlSafe("destinatarioId") && Text.UrlSafe("autorId");
  }

  /** Both filters set: the recipient comes first, and each value reads back as its id. */
  lemma FeedbackParamsOrder(recipient: int, author: int)
    requires recipient != 0 && author != 0
    ensures var ps := FeedbackParams(Some(FeedbackFilters(Some(recipient), Some(author))));
            |ps| == 2 && ps[0].0 == "destinatarioId" && ps[1].0 == "autorId"
            && Text.ParseInt10(ps[0].1) == Some(recipient) && Text.ParseInt10(ps[1].1) == Some(author)
  {
  }

  // ---------------------------------------------------------------------------------------------
  // Per-id endpoints
  // ---------------------------------------------------------------------------------------------

  /** `/usuarios/${id}`: the collection path, then a numeral that reads back as `id`. */
  function UserEndpoint(id: int): (endpoint: string)
    ensures Text.StartsWith(endpoint, "/usuarios/") && Text.ParseInt10(endpoint[10..]) == Some(id)
  {
    var e := "/usuarios/" + Text.IntToDecimal(id);
    assert e[..10] == "/usuarios/" && e[10..] == Text.IntToDecimal(id);
    Text.ParseIntOfDecimal(id);
    e
  }

  /** `/pdis/${id}`. */
  function PdiEndpoint(id: int): (endpoint: string)
    ensures Text.StartsWith(endpoint, "/pdis/") && Text.ParseInt10(endpoint[6..]) == Some(id)
  {
    var e := "/pdis/" + Text.IntToDecimal(id);
    assert e[..6] == "/pdis/" && e[6..] == Text.IntToDecimal(id);
    Text.ParseIntOfDecimal(id);
    e
  }
}
