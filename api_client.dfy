/** The front ends' request helper (services/owner-frontend/src/hooks/useApi.js):
    which backend to call, how a path becomes a URL, the headers and
    options of a request, and the response object callers read. The
    environment (the `window.__API_BASE` override, the build variables,
    the page's host name, the stored tokens) is passed in, and `fetch`
    itself is left to the caller: only what goes in and comes out of it
    is modelled. */
module ApiClient {
  import opened Wrappers
  import opened Text

  const LocalBackend := "http://localhost:3000"
  const ProductionBackend := "https://whatsapp-saas-frontend1.onrender.com"

  /** `.replace(/\/$/, "")`: one trailing slash goes. */
  function StripSlash(s: string): (r: string)
    ensures EndsWith(s, "/") ==> r + "/" == s
    ensures !EndsWith(s, "/") ==> r == s
  {
    if |s| > 0 && s[|s| - 1] == '/' then s[..|s| - 1] else s
  }

  /** A configured value: present and not only white space. */
  predicate Configured(s: string) { s != "" && Trim(s) != "" }

  /** `VITE_API_URL || REACT_APP_API_URL || VITE_PUBLIC_API_URL || ""`. */
  function FirstSet(urls: seq<string>): (r: string)
    ensures r == "" <==> forall k :: 0 <= k < |urls| ==> urls[k] == ""
    ensures r != "" ==> exists k :: 0 <= k < |urls| && urls[k] == r && forall j :: 0 <= j < k ==> urls[j] == ""
  {
    if urls == [] then ""
    else if urls[0] != "" then urls[0]
    else
      var r := FirstSet(urls[1..]);
      assert r != "" ==> exists k :: 1 <= k < |urls| && urls[k] == r && forall j :: 1 <= j < k ==> urls[j] == "" by {
        if r != "" {
          var k :| 0 <= k < |urls[1..]| && urls[1..][k] == r && forall j :: 0 <= j < k ==> urls[1..][j] == "";
          assert urls[k + 1] == r;
          assert forall j :: 1 <= j < k + 1 ==> urls[j] == urls[1..][j - 1];
        }
      }
      r
  }

  /** `getApiBase`: the `window.__API_BASE` override, then the first build
      variable that is set, then the local server when the page is served
      from this machine, then the production backend. */
  function GetApiBase(windowBase: string, envUrls: seq<string>, hostname: string): (r: string)
    ensures Configured(windowBase) && EndsWith(windowBase, "/") ==> r + "/" == windowBase
    ensures Configured(windowBase) && !EndsWith(windowBase, "/") ==> r == windowBase
    ensures !Configured(windowBase) && Configured(FirstSet(envUrls)) ==> StripSlash(FirstSet(envUrls)) == r
    ensures !Configured(windowBase) && !Configured(FirstSet(envUrls)) ==>
              r == (if hostname == "localhost" || hostname == "127.0.0.1" then LocalBackend else ProductionBackend)
  {
    if Configured(windowBase) then StripSlash(windowBase)
    else
      var envUrl := FirstSet(envUrls);
      if Configured(envUrl) then StripSlash(envUrl)
      else if hostname == "localhost" || hostname == "127.0.0.1" then LocalBackend
      else ProductionBackend
  }

  /** The URL of a request: an absolute `http...` path as it is, otherwise
      the base and the path with one slash between them when the path has
      none. */
  function JoinUrl(base: string, path: string): (r: string)
    ensures StartsWith(path, "http") ==> r == path
    ensures !StartsWith(path, "http") ==> StartsWith(r, base)
  {
    if StartsWith(path, "http") then path
    else if StartsWith(path, "/") then base + path
    else base + "/" + path
  }

  /** A path with or without its leading slash reaches the same URL. */
  lemma JoinUrlLeadingSlash(base: string, path: string)
    requires !StartsWith(path, "http") && !StartsWith(path, "/")
    ensures JoinUrl(base, "/" + path) == JoinUrl(base, path)
  {
    assert ("/" + path)[..1] == "/";
    assert !StartsWith("/" + path, "http") by {
      assert ("/" + path)[0] == '/';
    }
  }

  /** A base from `getApiBase` and a relative path meet with exactly one
      slash: the URL is the base, `/`, and the path without its slash. */
  lemma JoinUrlOneSlash(base: string, path: string)
    requires !StartsWith(path, "http")
    ensures StartsWith(path, "/") ==> JoinUrl(base, path) == base + "/" + path[1..]
    ensures !StartsWith(path, "/") ==> JoinUrl(base, path) == base + "/" + path
  {
    if StartsWith(path, "/") {
      assert path == "/" + path[1..];
    }
  }

  type Headers = map<string, string>

  /** `buildHeaders`: a copy of the headers with `Content-Type` set to JSON
      when it is missing or empty; the caller's object is not changed. */
  method BuildHeaders(headers: Headers) returns (h: Headers)
    ensures "Content-Type" in h && h["Content-Type"] != ""
    ensures "Content-Type" in headers && headers["Content-Type"] != "" ==> h == headers
    ensures !("Content-Type" in headers && headers["Content-Type"] != "") ==>
              h == headers["Content-Type" := "application/json"]
  {
    h := headers;
    if "Content-Type" !in h || h["Content-Type"] == "" {
      h := h["Content-Type" := "application/json"];
    }
  }

  /** The body a request carries: none, a raw value, or a value to be
      serialised as JSON (`JSON.stringify` is not modelled). */
  datatype Body = NoBody | Raw(text: string) | Json(value: string)

  /** The options `apiFetch` is called with; empty strings are missing. */
  datatype RequestOptions = RequestOptions(verb: string, headers: Headers, body: Option<string>, rawBody: bool)

  /** The options passed on to `fetch`. */
  datatype FetchOptions = FetchOptions(verb: string, headers: Headers, body: Body)

  /** The token a request carries: the merchant's, else the customer's. */
  function Token(merchantToken: string, customerToken: string): (t: string)
    ensures merchantToken != "" ==> t == merchantToken
    ensures merchantToken == "" ==> t == customerToken
  {
    if merchantToken != "" then merchantToken else customerToken
  }

  /** The `headers` and `fetchOpts` of `apiFetch`, built field by field. */
  method FetchOptionsOf(opts: RequestOptions, merchantToken: string, customerToken: string) returns (f: FetchOptions)
    ensures f.verb == Upper(if opts.verb != "" then opts.verb else "GET")
    // the caller's headers, Content-Type and, with a token, Authorization; nothing else
    ensures f.headers.Keys == opts.headers.Keys + {"Content-Type"} +
                              (if Token(merchantToken, customerToken) != "" then {"Authorization"} else {})
    ensures "Content-Type" in opts.headers && opts.headers["Content-Type"] != "" ==>
              f.headers["Content-Type"] == opts.headers["Content-Type"]
    ensures !("Content-Type" in opts.headers && opts.headers["Content-Type"] != "") ==>
              f.headers["Content-Type"] == "application/json"
    ensures var t := Token(merchantToken, customerToken);
            (t != "" ==> f.headers["Authorization"] == "Bearer " + t) &&
            (t == "" && "Authorization" in opts.headers ==> f.headers["Authorization"] == opts.headers["Authorization"])
    ensures forall k :: k in opts.headers && k != "Content-Type" && k != "Authorization" ==>
              k in f.headers && f.headers[k] == opts.headers[k]
    ensures opts.rawBody ==> f.body == (if opts.body.Some? then Raw(opts.body.value) else NoBody)
    ensures !opts.rawBody ==> f.body == (if opts.body.Some? then Json(opts.body.value) else NoBody)
  {
    var headers := BuildHeaders(opts.headers);
    var token := Token(merchantToken, customerToken);
    if token != "" {
      headers := headers["Authorization" := "Bearer " + token];
    }
    var verb := Upper(if opts.verb != "" then opts.verb else "GET");
    var body := NoBody;
    if opts.rawBody {
      body := if opts.body.Some? then Raw(opts.body.value) else NoBody;
    } else if opts.body.Some? {
      body := Json(opts.body.value);
    }
    f := FetchOptions(verb, headers, body);
  }

  /** The response object `apiFetch` returns; `error` is null when ok. */
  datatype ApiResponse = ApiResponse(ok: bool, status: int, url: string, error: Option<string>)

  /** A `fetch` that throws: not ok, status 0, the error's message. */
  function NetworkFailure(url: string, message: string): (r: ApiResponse)
    ensures !r.ok && r.status == 0 && r.url == url && r.error == Some(message)
  {
    ApiResponse(false, 0, url, Some(message))
  }

  /** A response that arrived. `parsedError` is the `error` field of the
      body read as JSON, `None` when there is none or it is empty. */
  function Received(url: string, status: int, ok: bool, rawText: string, parsedError: Option<string>): (r: ApiResponse)
    ensures r.ok == ok && r.status == status && r.url == url
    ensures ok <==> r.error.None?
    ensures !ok ==> r.error.value != ""
    ensures !ok && parsedError.Some? && parsedError.value != "" ==> r.error == parsedError
    ensures !ok && (parsedError.None? || parsedError.value == "") && rawText != "" ==> r.error == Some(rawText)
    ensures !ok && (parsedError.None? || parsedError.value == "") && rawText == "" ==>
              r.error == Some("HTTP " + IntToString(status))
  {
    if ok then ApiResponse(ok, status, url, None)
    else if parsedError.Some? && parsedError.value != "" then ApiResponse(ok, status, url, parsedError)
    else if rawText != "" then ApiResponse(ok, status, url, Some(rawText))
    else ApiResponse(ok, status, url, Some("HTTP " + IntToString(status)))
  }

  /** A failed request always carries a message, and a network failure is
      told apart from any HTTP answer by its status 0. */
  lemma FailuresAreExplained(url: string, status: int, ok: bool, rawText: string, parsedError: Option<string>, message: string)
    requires 100 <= status <= 599
    ensures var r := Received(url, status, ok, rawText, parsedError);
            (!r.ok ==> r.error.Some? && r.error.value != "") &&
            r.status != NetworkFailure(url, message).status
  {
  }
}
