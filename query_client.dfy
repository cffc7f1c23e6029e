/** The front end's fetch layer: url joining, the error message a failed
    response is turned into, the 401 behaviour of queries and the request
    headers. The fetch itself is left out; a response arrives as a value. */
module QueryClient {
  import opened Wrappers
  import opened Text

  /** `getUrl(path)` against the configured base url: absolute `http…`
      paths pass through; otherwise the path is joined with exactly one
      slash added when it lacks its own. */
  function GetUrl(base: string, path: string): (r: string)
    ensures StartsWith(path, "http") ==> r == path
    ensures !StartsWith(path, "http") ==> StartsWith(r, base) && (r == base + path <==> StartsWith(path, "/"))
    ensures !StartsWith(path, "http") && !StartsWith(path, "/") ==> r == base + "/" + path
    ensures |path| <= |r| && r[|r| - |path|..] == path
  {
    if StartsWith(path, "http") then path
    else
      var cleanPath := if StartsWith(path, "/") then path else "/" + path;
      assert (base + cleanPath)[..|base|] == base;
      base + cleanPath
  }

  /** With an absolute base, joining is idempotent: a joined url is left alone. */
  lemma GetUrlIdempotent(base: string, path: string)
    requires StartsWith(base, "http")
    ensures GetUrl(base, GetUrl(base, path)) == GetUrl(base, path)
  {
    var r := GetUrl(base, path);
    if !StartsWith(path, "http") {
      assert r[..4] == r[..|base|][..4] == base[..4];
    }
  }

  /** What `JSON.parse` makes of a response body: no JSON at all, `null`
      (whose `.message` throws), or a value whose `message` field is a
      string or missing. */
  datatype ParsedBody = NotJson | NullJson | Json(message: Option<string>)

  /** A received response: `ok` is a 2xx status. */
  datatype Response = Response(status: int, statusText: string, text: string, parsed: ParsedBody)

  predicate IsOk(res: Response) {
    200 <= res.status <= 299
  }

  /** JavaScript's `a || b` on strings. */
  function Or(a: string, b: string): (r: string)
    ensures r == (if a != "" then a else b)
  {
    if a != "" then a else b
  }

  /** The error text: the JSON `message` when non-empty, else the body
      text; for a body that is not a JSON object, the body text or else the
      status text. */
  function ErrorText(res: Response): (r: string)
    ensures res.parsed.Json? && res.parsed.message.Some? && res.parsed.message.value != "" ==> r == res.parsed.message.value
    ensures (res.parsed.Json? ==> res.parsed.message.None? || res.parsed.message.value == "") && res.text != "" ==> r == res.text
    ensures !res.parsed.Json? && res.text == "" ==> r == res.statusText
    ensures r == "" <==> res.text == "" && (res.parsed.Json? || res.statusText == "") &&
                         (res.parsed.Json? ==> res.parsed.message.None? || res.parsed.message.value == "")
  {
    match res.parsed
    case Json(message) => Or(message.GetOr(""), res.text)
    case _ => Or(res.text, res.statusText)
  }

  /** The five statuses with a fixed label, and each one's fallback text. */
  function Label(status: int): (r: Option<(string, string)>)
    ensures r.Some? <==> status in {401, 403, 404, 500, 503}
  {
    if status == 401 then Some(("Unauthorized", "Session expired"))
    else if status == 403 then Some(("Forbidden", "You don't have permission"))
    else if status == 404 then Some(("Not Found", "Resource not found"))
    else if status == 500 then Some(("Server Error", "Backend server error"))
    else if status == 503 then Some(("Service Unavailable", "Backend is temporarily down"))
    else None
  }

  /** The detail part of a message: the error text, or the fallback when it is empty. */
  function Detail(status: int, errorText: string, statusText: string): (r: string)
    ensures errorText != "" ==> r == errorText
    ensures errorText == "" && Label(status).Some? ==> r == Label(status).value.1
    ensures errorText == "" && Label(status).None? ==> r == statusText
  {
    match Label(status)
    case Some((_, fallback)) => Or(errorText, fallback)
    case None => Or(errorText, statusText)
  }

  /** `throwIfResNotOk(res)`: nothing for an ok response, otherwise the
      message of the thrown error, `"<status>: "` then, for a labelled
      status, the label and `" - "`, then the detail. */
  function ThrowIfResNotOk(res: Response): (r: Option<string>)
    ensures r.None? <==> IsOk(res)
    ensures r.Some? ==> StartsWith(r.value, IntToString(res.status) + ": ")
    ensures r.Some? && Label(res.status).Some? ==>
              StartsWith(r.value, IntToString(res.status) + ": " + Label(res.status).value.0 + " - ")
    ensures r.Some? ==> var d := Detail(res.status, ErrorText(res), res.statusText);
                        |d| <= |r.value| && r.value[|r.value| - |d|..] == d
    ensures r.Some? ==> |r.value| == |IntToString(res.status)| + 2
                                     + (if Label(res.status).Some? then |Label(res.status).value.0| + 3 else 0)
                                     + |Detail(res.status, ErrorText(res), res.statusText)|
  {
    if IsOk(res) then None
    else
      var prefix := IntToString(res.status) + ": ";
      var d := Detail(res.status, ErrorText(res), res.statusText);
      var m := if Label(res.status).Some? then prefix + Label(res.status).value.0 + " - " + d else prefix + d;
      assert m[..|prefix|] == prefix;
      Some(m)
  }

  lemma FirstColonAfter(p: string, rest: string)
    requires ':' !in p
    ensures StartsWith(rest, ":") ==> IndexOf(p + rest, ":") == Some(|p|)
  {
    if StartsWith(rest, ":") {
      var m := p + rest;
      assert OccursAt(m, ":", |p|);
      forall j | 0 <= j < |p|
        ensures !OccursAt(m, ":", j)
      {
        assert m[j..j + 1][0] == p[j];
      }
      IndexOfIsFirst(m, ":", |p|);
    }
  }

  /** In a message that opens with `digits + ": "` and `digits` has no
      colon, the first colon is the one after the digits. */
  lemma ColonEndsDigits(m: string, digits: string)
    requires StartsWith(m, digits + ": ") && ':' !in digits
    ensures IndexOf(m, ":") == Some(|digits|)
  {
    var rest := m[|digits|..];
    assert m == digits + rest;
    assert StartsWith(rest, ":") by {
      assert rest[0] == m[|digits|] == (digits + ": ")[|digits|];
    }
    FirstColonAfter(digits, rest);
  }

  /** The status can be read back from a message: its first `:` ends the
      status digits. */
  lemma StatusIsRecoverable(res: Response)
    requires !IsOk(res)
    ensures var m := ThrowIfResNotOk(res).value;
            IndexOf(m, ":") == Some(|IntToString(res.status)|)
  {
    IntToStringHasNoSigils(res.status);
    ColonEndsDigits(ThrowIfResNotOk(res).value, IntToString(res.status));
  }

  /** What a query does on a 401: give null, or throw. */
  datatype On401 = ReturnNull | Throw

  /** The outcome of a query: null, a thrown error with its message, or the parsed body. */
  datatype QueryResult = NullResult | Failure(message: string) | Data(body: ParsedBody)

  /** The query function of `getQueryFn({ on401 })` once the response is in. */
  function RunQuery(on401: On401, res: Response): (r: QueryResult)
    ensures on401 == ReturnNull && res.status == 401 ==> r == NullResult
    ensures r.NullResult? ==> on401 == ReturnNull && res.status == 401
    ensures r.Failure? <==> !(on401 == ReturnNull && res.status == 401) && !IsOk(res)
    ensures r.Failure? ==> Some(r.message) == ThrowIfResNotOk(res)
    ensures r.Data? ==> IsOk(res) && r.body == res.parsed
  {
    if on401 == ReturnNull && res.status == 401 then NullResult
    else match ThrowIfResNotOk(res)
         case Some(m) => Failure(m)
         case None => Data(res.parsed)
  }

  /** The url a query fetches: its key joined by `/`, then `getUrl`. */
  function JoinKey(key: seq<string>): (r: string)
    ensures key == [] ==> r == ""
    ensures |key| == 1 ==> r == key[0]
  {
    if key == [] then ""
    else if |key| == 1 then key[0]
    else JoinKey(key[..|key| - 1]) + "/" + key[|key| - 1]
  }

  /** The JavaScript values a request may carry as its data. */
  datatype JsValue = Undefined | Null | Bool(b: bool) | Number(x: real) | NaN | Text(s: string) | Object(json: string)

  predicate Truthy(v: JsValue) {
    match v
    case Undefined => false
    case Null => false
    case Bool(b) => b
    case Number(x) => x != 0.0
    case NaN => false
    case Text(s) => s != ""
    case Object(_) => true
  }

  /** The options `apiRequest` passes to fetch. */
  datatype FetchInit = FetchInit(verb: string, headers: seq<(string, string)>, body: Option<JsValue>, includeCredentials: bool)

  /** `apiRequest(method, url, data)` with `verb` the method: the JSON content type and the body go
      together, and only with truthy data; credentials are always included. */
  function RequestInit(verb: string, data: JsValue): (r: FetchInit)
    ensures r.verb == verb && r.includeCredentials
    ensures r.body.Some? <==> Truthy(data)
    ensures r.body.Some? ==> r.body.value == data
    ensures r.headers == (if r.body.Some? then [("Content-Type", "application/json")] else [])
  {
    if Truthy(data) then FetchInit(verb, [("Content-Type", "application/json")], Some(data), true)
    else FetchInit(verb, [], None, true)
  }

  /** Falsy data such as `0` or `""` is sent as no body at all. */
  lemma FalsyDataIsDropped(verb: string)
    ensures RequestInit(verb, Number(0.0)).body.None?
    ensures RequestInit(verb, Text("")).body.None?
    ensures RequestInit(verb, Object("{}")).body == Some(Object("{}"))
  {
  }
}
