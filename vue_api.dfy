/** The Vue example's API client (`examples/koa-vue-ts/src/lib/api.ts`): the
    request `ApiClient.request` builds, how it settles on the response, the four
    method helpers and the `userApi` endpoints. `fetch` and `response.json()`
    are inputs (the latter `None` when the body is not JSON); `JSON.stringify(data)` appears as the text it produces. The
    client object has no state of its own, so its members are module-level
    methods. */
module VueApi {
  import opened Wrappers
  import opened Js

  /** `API_BASE_URL`. */
  const ApiBaseUrl := "/api"

  type Headers = map<string, string>

  const JsonContentType: Headers := map["Content-Type" := "application/json"]

  /** The `data` argument: a falsy value (undefined, null, `0`, `''`, `false`) or
      a truthy one, given by its `JSON.stringify` text. */
  datatype Data = Falsy | Truthy(json: string)

  /** The `RequestInit` object. */
  datatype RequestInit = RequestInit(httpMethod: string, headers: Headers, body: Option<string>)

  /** What `request` passes to `fetch`. */
  datatype Call = Call(url: string, init: RequestInit)

  /** The first half of `request`: the URL is the base and the path with nothing
      inserted between them, and `options.body` is set on the local options
      object exactly when `data` is truthy and the method is not GET. */
  method Request(httpMethod: string, path: string, data: Data) returns (call: Call)
    ensures call.url == ApiBaseUrl + path
    ensures call.init.httpMethod == httpMethod && call.init.headers == JsonContentType
    ensures call.init.body.Some? <==> data.Truthy? && httpMethod != "GET"
    ensures call.init.body.Some? ==> call.init.body.value == data.json
  {
    var url := ApiBaseUrl + path;
    var options := RequestInit(httpMethod, JsonContentType, None);
    if data.Truthy? && httpMethod != "GET" {
      options := options.(body := Some(data.json));
    }
    call := Call(url, options);
  }

  /** The response as `request` reads it: its status, `ok`, and what
      `response.json()` gives: `None` when the body is not JSON. */
  datatype Reply<T> = Reply(status: int, ok: bool, json: Option<JsonValue<T>>)

  /** `{data: undefined}` for a 204, or the parsed JSON of an ok response, which
      may be `null`. */
  datatype Answer<T> = NoContent | Json(value: JsonValue<T>)

  /** The second half of `request`: a 204 settles with no data before the body is
      read; a body that is not JSON rejects with the parser's `SyntaxError`,
      whatever the status. Otherwise a response that is not ok reads
      `json.error`, which throws a `TypeError` on `null`, and throws it, or else
      `Request failed`; an ok response gives the parsed JSON. */
  function Settle<T>(reply: Reply<T>): (r: Result<Answer<T>, Thrown>)
    ensures reply.status == 204 ==> r == Success(NoContent)
    ensures reply.status != 204 && reply.json.None? ==> r == Failure(SyntaxError)
    ensures reply.status != 204 && !reply.ok && reply.json == Some(JsonNull) ==> r == Failure(TypeError)
    ensures reply.status != 204 && !reply.ok && reply.json.Some? && reply.json.value.Parsed? ==>
      r.Failure? && r.error.Error? && r.error.message != ""
    ensures reply.status != 204 && !reply.ok && reply.json.Some? && reply.json.value.Parsed? ==>
      var e := reply.json.value.errorKey;
      r == Failure(Error(if StrTruthy(e) then e.value else "Request failed"))
    ensures reply.status != 204 && reply.json.Some? && reply.ok ==> r == Success(Json(reply.json.value))
  {
    if reply.status == 204 then Success(NoContent)
    else if reply.json.None? then Failure(SyntaxError)
    else if !reply.ok then
      match reply.json.value
      case JsonNull => Failure(TypeError)
      case Parsed(_, e) => Failure(Error(OrStr(e, Some("Request failed")).value))
    else Success(Json(reply.json.value))
  }

  /** A request settles successfully exactly when the status is 204, or the body
      parses and the response is ok; only a 204 settles without data; the
      parser's error surfaces exactly when a non-204 body is not JSON, and the
      `TypeError` exactly when a failed response's body is `null`. */
  lemma SettleSucceedsIff<T>(reply: Reply<T>)
    ensures Settle(reply).Success? <==> reply.status == 204 || (reply.json.Some? && reply.ok)
    ensures Settle(reply) == Success(NoContent) <==> reply.status == 204
    ensures Settle(reply) == Failure(SyntaxError) <==> reply.status != 204 && reply.json.None?
    ensures Settle(reply) == Failure(TypeError) <==> reply.status != 204 && !reply.ok && reply.json == Some(JsonNull)
  {
  }

  // ---------------------------------------------------------------------------
  // get / post / put / delete
  // ---------------------------------------------------------------------------

  /** `api.get(path)`: never a body. */
  method Get(path: string) returns (call: Call)
    ensures call == Call(ApiBaseUrl + path, RequestInit("GET", JsonContentType, None))
  {
    call := Request("GET", path, Falsy);
  }

  /** `api.post(path, data)`: a body exactly when `data` is truthy. */
  method Post(path: string, data: Data) returns (call: Call)
    ensures call.url == ApiBaseUrl + path && call.init.httpMethod == "POST"
    ensures call.init.body == (if data.Truthy? then Some(data.json) else None)
  {
    call := Request("POST", path, data);
  }

  /** `api.put(path, data)`: a body exactly when `data` is truthy. */
  method Put(path: string, data: Data) returns (call: Call)
    ensures call.url == ApiBaseUrl + path && call.init.httpMethod == "PUT"
    ensures call.init.body == (if data.Truthy? then Some(data.json) else None)
  {
    call := Request("PUT", path, data);
  }

  /** `api.delete(path)`: never a body. */
  method Delete(path: string) returns (call: Call)
    ensures call == Call(ApiBaseUrl + path, RequestInit("DELETE", JsonContentType, None))
  {
    call := Request("DELETE", path, Falsy);
  }

  // ---------------------------------------------------------------------------
  // userApi
  // ---------------------------------------------------------------------------

  /** `/users/${id}` for an integer id. */
  function UserPath(id: int): (p: string)
    ensures StartsWith(p, "/users/") && p[7..] == IntToString(id)
  {
    var p := "/users/" + IntToString(id);
    assert p[..7] == "/users/";
    p
  }

  /** Different ids name different users. */
  lemma UserPathInjective(a: int, b: int)
    requires UserPath(a) == UserPath(b)
    ensures a == b
  {
    assert IntToString(a) == UserPath(a)[7..];
    IntToStringInjective(a, b);
  }

  /** `userApi.getAll()`: GET `/api/users`. */
  method GetAllUsers() returns (call: Call)
    ensures call.url == "/api/users" && call.init.httpMethod == "GET" && call.init.body.None?
  {
    call := Get("/users");
  }

  /** `userApi.getById(id)`: GET `/api/users/<id>`. */
  method GetUserById(id: int) returns (call: Call)
    ensures call.url == ApiBaseUrl + UserPath(id) && call.init.httpMethod == "GET" && call.init.body.None?
  {
    call := Get(UserPath(id));
  }

  /** `userApi.create(data)`: POST `/api/users` with the user as the body (an
      object is truthy). */
  method CreateUser(dataJson: string) returns (call: Call)
    ensures call.url == "/api/users" && call.init.httpMethod == "POST" && call.init.body == Some(dataJson)
  {
    call := Post("/users", Truthy(dataJson));
  }

  /** `userApi.update(id, data)`: PUT `/api/users/<id>` with the changes as the body. */
  method UpdateUser(id: int, dataJson: string) returns (call: Call)
    ensures call.url == ApiBaseUrl + UserPath(id) && call.init.httpMethod == "PUT"
    ensures call.init.body == Some(dataJson)
  {
    call := Put(UserPath(id), Truthy(dataJson));
  }

  /** `userApi.delete(id)`: DELETE `/api/users/<id>` without a body. */
  method DeleteUser(id: int) returns (call: Call)
    ensures call.url == ApiBaseUrl + UserPath(id) && call.init.httpMethod == "DELETE" && call.init.body.None?
  {
    call := Delete(UserPath(id));
  }
}
