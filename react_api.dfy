/** The React example's API helpers (`examples/koa-react-ts/src/lib/api.ts`): the
    query string, the request `fetchApi` hands to `fetch` for a path and its
    options, the error it throws on a failed response, and the method wrappers.
    `encodeURIComponent` is a parameter; `String(value)` and `JSON.stringify`
    appear through the texts they produce. */
module ReactApi {
  import opened Wrappers
  import opened Js

  // ---------------------------------------------------------------------------
  // buildQueryString
  // ---------------------------------------------------------------------------

  /** A parameter value as the filter sees it: `null`, `undefined`, or any other
      value, given by its `String(value)` text. */
  datatype ParamValue = Null | Undefined | Shown(text: string)

  /** `Object.entries(params)`, in the object's key order. */
  type Params = seq<(string, ParamValue)>

  /** The entries that pass `value !== null && value !== undefined`, with their
      `String(value)` texts. */
  function Kept(params: Params): seq<(string, string)> {
    if params == [] then []
    else if params[0].1.Shown? then [(params[0].0, params[0].1.text)] + Kept(params[1..])
    else Kept(params[1..])
  }

  /** `${enc(key)}=${enc(String(value))}` for each kept entry, in order. */
  function Rendered(enc: string -> string, kept: seq<(string, string)>): (r: seq<string>)
    ensures |r| == |kept|
    ensures forall i :: 0 <= i < |kept| ==> r[i] == enc(kept[i].0) + "=" + enc(kept[i].1)
  {
    if kept == [] then []
    else [enc(kept[0].0) + "=" + enc(kept[0].1)] + Rendered(enc, kept[1..])
  }

  /** `buildQueryString(params)`. */
  function BuildQueryString(params: Params, enc: string -> string): string {
    var entries := Rendered(enc, Kept(params));
    if |entries| > 0 then "?" + Join(entries, '&') else ""
  }

  /** An entry is kept, with its text, exactly when its value is neither null nor
      undefined. */
  lemma {:induction false} KeptIff(params: Params, key: string, text: string)
    ensures (key, text) in Kept(params) <==> (key, Shown(text)) in params
  {
    if params != [] {
      KeptIff(params[1..], key, text);
      assert params == [params[0]] + params[1..];
    }
  }

  /** Filtering keeps entry order: the kept entries of two runs of entries are the
      kept entries of the first followed by those of the second. */
  lemma {:induction false} KeptConcat(a: Params, b: Params)
    ensures Kept(a + b) == Kept(a) + Kept(b)
  {
    if a == [] {
      assert a + b == b;
    } else {
      assert (a + b)[0] == a[0];
      assert (a + b)[1..] == a[1..] + b;
      KeptConcat(a[1..], b);
    }
  }

  /** No entries are kept exactly when every value is null or undefined. */
  lemma {:induction false} KeptEmptyIff(params: Params)
    ensures Kept(params) == [] <==> forall i :: 0 <= i < |params| ==> !params[i].1.Shown?
  {
    if params != [] {
      KeptEmptyIff(params[1..]);
      assert forall i :: 1 <= i < |params| ==> params[i] == params[1..][i - 1];
    }
  }

  /** The query string is empty exactly when every value is null or undefined,
      and starts with `?` otherwise. */
  lemma QueryEmptyIff(params: Params, enc: string -> string)
    ensures var q := BuildQueryString(params, enc);
      && (q == "" <==> forall i :: 0 <= i < |params| ==> !params[i].1.Shown?)
      && (q != "" ==> q[0] == '?')
  {
    KeptEmptyIff(params);
  }

  /** With an encoder that never produces `&` or `=` (as `encodeURIComponent`
      escapes both), the query string parses back: after the `?`, splitting at
      `&` gives one piece per kept entry, in order, and splitting a piece at `=`
      gives its encoded key and value. */
  lemma QueryParsesBack(params: Params, enc: string -> string)
    requires forall s :: '&' !in enc(s) && '=' !in enc(s)
    ensures var q, kept := BuildQueryString(params, enc), Kept(params);
      kept != [] ==>
        && q != [] && q[0] == '?'
        && var pieces := Split(q[1..], '&');
        && |pieces| == |kept|
        && forall i :: 0 <= i < |kept| ==> Split(pieces[i], '=') == [enc(kept[i].0), enc(kept[i].1)]
  {
    var kept := Kept(params);
    if kept != [] {
      var entries := Rendered(enc, kept);
      forall i | 0 <= i < |entries|
        ensures '&' !in entries[i]
      {
        assert entries[i] == enc(kept[i].0) + "=" + enc(kept[i].1);
      }
      SplitJoin(entries, '&');
      var q := BuildQueryString(params, enc);
      assert q[1..] == Join(entries, '&');
      forall i | 0 <= i < |kept|
        ensures Split(entries[i], '=') == [enc(kept[i].0), enc(kept[i].1)]
      {
        var pair := [enc(kept[i].0), enc(kept[i].1)];
        assert Join(pair, '=') == entries[i];
        SplitJoin(pair, '=');
      }
    }
  }

  // ---------------------------------------------------------------------------
  // fetchApi: URL, options and headers
  // ---------------------------------------------------------------------------

  /** `path.startsWith('/') ? path : '/' + path`. */
  function SlashedPath(path: string): (p: string)
    ensures StartsWith(p, "/")
    ensures StartsWith(path, "/") ==> p == path
    ensures !StartsWith(path, "/") ==> p == "/" + path
  {
    if StartsWith(path, "/") then path else "/" + path
  }

  /** The URL `fetchApi` requests: `/api`, the path with a leading `/`, then the
      query string when `params` is given (an object is always truthy). */
  function FetchUrl(path: string, params: Option<Params>, enc: string -> string): (url: string)
    ensures StartsWith(url, "/api/")
    ensures params.None? ==> url == "/api" + SlashedPath(path)
    ensures params.Some? ==> url == "/api" + SlashedPath(path) + BuildQueryString(params.value, enc)
  {
    var url := "/api" + SlashedPath(path);
    assert url[..5] == "/api" + SlashedPath(path)[..1];
    if params.Some? then
      assert (url + BuildQueryString(params.value, enc))[..5] == url[..5];
      url + BuildQueryString(params.value, enc)
    else url
  }

  /** A leading `/` on the path makes no difference to the URL. */
  lemma SlashOptional(path: string, params: Option<Params>, enc: string -> string)
    requires !StartsWith(path, "/")
    ensures FetchUrl("/" + path, params, enc) == FetchUrl(path, params, enc)
  {
    assert ("/" + path)[..1] == "/";
  }

  /** Without params, or with params whose values are all null or undefined, no
      query string is added. */
  lemma NoQueryWithoutValues(path: string, params: Option<Params>, enc: string -> string)
    requires params.Some? ==> forall i :: 0 <= i < |params.value| ==> !params.value[i].1.Shown?
    ensures FetchUrl(path, params, enc) == "/api" + SlashedPath(path)
  {
    if params.Some? {
      QueryEmptyIff(params.value, enc);
    }
  }

  type Headers = map<string, string>

  /** The options `fetchApi` reads: `params` and the `RequestInit` keys the
      wrappers set. A key absent from the object is `None`. */
  datatype FetchOptions = FetchOptions(httpMethod: Option<string>, headers: Option<Headers>,
                                       body: Option<string>, params: Option<Params>)

  const NoOptions := FetchOptions(None, None, None, None)

  /** What `fetchApi` passes to `fetch`. */
  datatype Request = Request(url: string, httpMethod: Option<string>, headers: Headers, body: Option<string>)

  const JsonContentType: Headers := map["Content-Type" := "application/json"]

  /** The `headers` key of `{headers: {'Content-Type': …, ...fetchOptions.headers},
      ...fetchOptions}`: the merged headers are spread first, then the caller's
      own `headers` key, when present, replaces them. */
  function FinalHeaders(callerHeaders: Option<Headers>): Headers {
    var merged := JsonContentType + callerHeaders.GetOr(map[]);
    Spread(callerHeaders, Some(merged)).value
  }

  /** The request `fetchApi(path, options)` sends. */
  function FetchRequest(path: string, options: FetchOptions, enc: string -> string): Request {
    Request(FetchUrl(path, options.params, enc), options.httpMethod, FinalHeaders(options.headers), options.body)
  }

  /** Caller headers replace the merged ones entirely: the JSON `Content-Type` is
      sent exactly when the caller gives no headers or gives it themselves. The
      method and body are passed through. */
  lemma CallerHeadersReplace(path: string, options: FetchOptions, enc: string -> string)
    ensures var r := FetchRequest(path, options, enc);
      && (options.headers.Some? ==> r.headers == options.headers.value)
      && (options.headers.None? ==> r.headers == JsonContentType)
      && ("Content-Type" in r.headers <==> options.headers.None? || "Content-Type" in options.headers.value)
      && r.httpMethod == options.httpMethod && r.body == options.body
  {
  }

  // ---------------------------------------------------------------------------
  // fetchApi: the response
  // ---------------------------------------------------------------------------

  /** The message of the error thrown for a response that is not ok:
      `errorData.error`, or else `API error: <statusText> (<status>)`. It is
      never empty. */
  function ErrorMessage(errorField: Option<string>, statusText: string, status: int): (m: string)
    ensures m != ""
    ensures StrTruthy(errorField) ==> m == errorField.value
    ensures !StrTruthy(errorField) ==> StartsWith(m, "API error: ") && EndsWith(m, ")")
  {
    var fallback := "API error: " + statusText + " (" + IntToString(status) + ")";
    assert fallback[..11] == "API error: ";
    OrStr(errorField, Some(fallback)).value
  }

  /** The settled promise, given what `response.json()` gives (`json`, `None`
      when the body is not JSON). A response that is not ok reads
      `errorData.error`, where `errorData` is the parsed body or, when the body
      does not parse, `{}` (`.catch(() => ({}))`): a `null` body throws a
      `TypeError` there, and otherwise `ErrorMessage` is thrown. An ok response
      gives the parsed body, `null` included, or rejects with its `SyntaxError`
      when the body is not JSON. */
  function FetchOutcome<T>(ok: bool, status: int, statusText: string, json: Option<JsonValue<T>>): (r: Result<JsonValue<T>, Thrown>)
    ensures r.Success? <==> ok && json.Some?
    ensures r.Success? ==> r.value == json.value
    ensures ok && json.None? ==> r == Failure(SyntaxError)
    ensures !ok && json == Some(JsonNull) ==> r == Failure(TypeError)
    ensures !ok && json.None? ==> r == Failure(Error(ErrorMessage(None, statusText, status)))
    ensures !ok && json.Some? && json.value.Parsed? ==>
      r == Failure(Error(ErrorMessage(json.value.errorKey, statusText, status)))
  {
    if !ok then
      match json
      case None => Failure(Error(ErrorMessage(None, statusText, status)))
      case Some(JsonNull) => Failure(TypeError)
      case Some(Parsed(_, e)) => Failure(Error(ErrorMessage(e, statusText, status)))
    else if json.None? then Failure(SyntaxError)
    else Success(json.value)
  }

  // ---------------------------------------------------------------------------
  // The method wrappers
  // ---------------------------------------------------------------------------

  /** `{...base, ...options}`. */
  function SpreadOptions(base: FetchOptions, options: FetchOptions): FetchOptions {
    FetchOptions(Spread(options.httpMethod, base.httpMethod), Spread(options.headers, base.headers),
                 Spread(options.body, base.body), Spread(options.params, base.params))
  }

  /** `get(path, params)`: `{method: 'GET', params}`. */
  function GetOptions(params: Option<Params>): FetchOptions {
    FetchOptions(Some("GET"), None, None, params)
  }

  /** `post`/`put`/`patch`: `{method, body: JSON.stringify(body), ...options}`,
      where `bodyJson` is what `JSON.stringify` gives (`None` for an undefined body). */
  function BodyOptions(verb: string, bodyJson: Option<string>, options: FetchOptions): FetchOptions {
    SpreadOptions(FetchOptions(Some(verb), None, bodyJson, None), options)
  }

  /** `del(path, options)`: `{method: 'DELETE', ...options}`. */
  function DeleteOptions(options: FetchOptions): FetchOptions {
    SpreadOptions(FetchOptions(Some("DELETE"), None, None, None), options)
  }

  /** `get` sends a GET without a body and with the JSON content type; the query
      string is added exactly when `params` is given. */
  lemma GetRequest(path: string, params: Option<Params>, enc: string -> string)
    ensures var r := FetchRequest(path, GetOptions(params), enc);
      && r.httpMethod == Some("GET") && r.body.None? && r.headers == JsonContentType
      && r.url == FetchUrl(path, params, enc)
  {
  }

  /** A body-sending wrapper uses its own method unless the options name another
      one, and sends the stringified body (the options cannot carry a body). */
  lemma BodyRequest(verb: string, path: string, bodyJson: Option<string>, options: FetchOptions, enc: string -> string)
    requires options.body.None?
    ensures var r := FetchRequest(path, BodyOptions(verb, bodyJson, options), enc);
      && r.httpMethod == Some(options.httpMethod.GetOr(verb))
      && r.body == bodyJson
      && r.url == FetchUrl(path, options.params, enc)
      && r.headers == FinalHeaders(options.headers)
  {
  }

  /** `post(path, body, options)`; `{method: 'PUT'}` in the options turns it into a PUT. */
  lemma PostRequest(path: string, bodyJson: Option<string>, options: FetchOptions, enc: string -> string)
    requires options.body.None?
    ensures var r := FetchRequest(path, BodyOptions("POST", bodyJson, options), enc);
      && (options.httpMethod.None? ==> r.httpMethod == Some("POST"))
      && (options.httpMethod.Some? ==> r.httpMethod == options.httpMethod)
      && r.body == bodyJson
  {
    BodyRequest("POST", path, bodyJson, options, enc);
  }

  lemma PutRequest(path: string, bodyJson: Option<string>, options: FetchOptions, enc: string -> string)
    requires options.body.None?
    ensures var r := FetchRequest(path, BodyOptions("PUT", bodyJson, options), enc);
      && (options.httpMethod.None? ==> r.httpMethod == Some("PUT"))
      && (options.httpMethod.Some? ==> r.httpMethod == options.httpMethod)
      && r.body == bodyJson
  {
    BodyRequest("PUT", path, bodyJson, options, enc);
  }

  lemma PatchRequest(path: string, bodyJson: Option<string>, options: FetchOptions, enc: string -> string)
    requires options.body.None?
    ensures var r := FetchRequest(path, BodyOptions("PATCH", bodyJson, options), enc);
      && (options.httpMethod.None? ==> r.httpMethod == Some("PATCH"))
      && (options.httpMethod.Some? ==> r.httpMethod == options.httpMethod)
      && r.body == bodyJson
  {
    BodyRequest("PATCH", path, bodyJson, options, enc);
  }

  /** `del(path, options)` sends a DELETE unless the options name another method,
      and passes every other option through. */
  lemma DeleteRequest(path: string, options: FetchOptions, enc: string -> string)
    ensures var r := FetchRequest(path, DeleteOptions(options), enc);
      && r.httpMethod == Some(options.httpMethod.GetOr("DELETE"))
      && r.body == options.body
      && r.url == FetchUrl(path, options.params, enc)
      && r.headers == FinalHeaders(options.headers)
  {
  }
}
