/** The HTTP client every thunk goes through (lib/api.ts): URL building,
    query strings, the header decisions of `apiFetch`, and how a response
    becomes a value or an error message. The environment variables are
    parameters; so is the percent-encoding `URLSearchParams` applies. */
module Api {
  import opened Util

  predicate StartsWith(s: string, prefix: string) {
    prefix <= s
  }

  /** `if (token)`: a token that is present and non-empty. */
  predicate HasToken(token: Option<string>) {
    token.Some? && token.value != ""
  }

  /** What a thunk's `apiFetch` call settled to: the decoded body, or the
      message of the error it threw. */
  datatype ApiResult<+T> = Success(value: T) | Failure(message: string)

  /** `error?.message || fallback`: the thunks' rejection value. */
  function RejectMessage(message: string, fallback: string): (r: string)
    ensures message != "" ==> r == message
    ensures message == "" ==> r == fallback
  {
    if message != "" then message else fallback
  }

  /** How a createAsyncThunk settles: its payload, or the value given to
      rejectWithValue. */
  datatype Settled<+T> = Fulfilled(payload: T) | Rejected(error: string)

  /** The common thunk body: `try { return f(await apiFetch(..)) } catch
      (error) { return rejectWithValue(error?.message || fallback) }`. */
  function Attempt<T, U>(response: ApiResult<T>, onSuccess: T -> U, fallback: string): (s: Settled<U>)
    ensures response.Success? <==> s.Fulfilled?
    ensures response.Success? ==> s.payload == onSuccess(response.value)
    ensures response.Failure? ==> s.error == RejectMessage(response.message, fallback)
    ensures fallback != "" && s.Rejected? ==> s.error != ""
  {
    match response
    case Success(v) => Fulfilled(onSuccess(v))
    case Failure(m) => Rejected(RejectMessage(m, fallback))
  }

  // ---------------------------------------------------------------------
  // Base URL and prefix

  const LocalBase := "http://localhost:8000"
  const DefaultPrefix := "/api/v1"

  /** The configured base URL with one trailing "/" removed, or the local
      server when that leaves nothing. */
  function DefaultBase(configured: Option<string>): (base: string)
    ensures configured.None? ==> base == LocalBase
    ensures configured.Some? && configured.value != "" && configured.value != "/" ==>
              base + (if configured.value[|configured.value| - 1] == '/' then "/" else "") == configured.value
    ensures configured.Some? && (configured.value == "" || configured.value == "/") ==> base == LocalBase
    ensures base != ""
  {
    match configured
    case None => LocalBase
    case Some(url) =>
      var trimmed := if |url| > 0 && url[|url| - 1] == '/' then url[..|url| - 1] else url;
      if trimmed == "" then LocalBase else trimmed
  }

  function ApiPrefix(configured: Option<string>): (prefix: string)
    ensures configured.Some? && configured.value != "" ==> prefix == configured.value
    ensures configured.None? || configured.value == "" ==> prefix == DefaultPrefix
  {
    if configured.Some? && configured.value != "" then configured.value else DefaultPrefix
  }

  /** buildUrl: absolute URLs pass through, "/api/" paths go to the base,
      everything else gets the prefix and exactly one separating "/". */
  function BuildUrl(base: string, prefix: string, path: string): (url: string)
    ensures StartsWith(path, "http") ==> url == path
    ensures !StartsWith(path, "http") && StartsWith(path, "/api/") ==> url == base + path
    ensures !StartsWith(path, "http") && !StartsWith(path, "/api/") ==>
              url == base + prefix + (if StartsWith(path, "/") then "" else "/") + path
  {
    if StartsWith(path, "http") then path
    else
      var normalizedPath := if StartsWith(path, "/api/") then path
                            else prefix + (if StartsWith(path, "/") then "" else "/") + path;
      base + normalizedPath
  }

  /** Whatever the branch, the URL ends with the path itself. */
  lemma BuildUrlEndsWithPath(base: string, prefix: string, path: string)
    ensures var url := BuildUrl(base, prefix, path);
            |path| <= |url| && url[|url| - |path|..] == path
  {
    var url := BuildUrl(base, prefix, path);
    if !StartsWith(path, "http") {
      var sep := if StartsWith(path, "/") then "" else "/";
      var head := if StartsWith(path, "/api/") then base else base + prefix + sep;
      assert url == head + path;
    }
  }

  // ---------------------------------------------------------------------
  // buildQueryString

  datatype QueryValue = QStr(s: string) | QNum(n: int) | QBool(b: bool) | QUndefined

  /** `String(value)` */
  function ValueString(v: QueryValue): string
    requires !v.QUndefined?
  {
    match v
    case QStr(s) => s
    case QNum(n) => IntToString(n)
    case QBool(b) => if b then "true" else "false"
  }

  /** `pair` is the stringified form of one entry with a defined value. */
  predicate FromDefinedEntry(entries: seq<(string, QueryValue)>, pair: (string, string)) {
    exists i :: 0 <= i < |entries| && !entries[i].1.QUndefined? && pair == (entries[i].0, ValueString(entries[i].1))
  }

  lemma FromDefinedEntryPrefix(entries: seq<(string, QueryValue)>, n: nat)
    requires n <= |entries|
    ensures forall pair :: FromDefinedEntry(entries[..n], pair) ==> FromDefinedEntry(entries, pair)
  {
    forall pair | FromDefinedEntry(entries[..n], pair) ensures FromDefinedEntry(entries, pair) {
      var i :| 0 <= i < n && !entries[..n][i].1.QUndefined? && pair == (entries[..n][i].0, ValueString(entries[..n][i].1));
      assert entries[..n][i] == entries[i];
    }
  }

  /** The entries that reach the URLSearchParams, in entry order: those
      whose value is not undefined, stringified. */
  function KeptPairs(entries: seq<(string, QueryValue)>): (r: seq<(string, string)>)
    ensures |r| <= |entries|
    ensures forall i :: 0 <= i < |entries| && !entries[i].1.QUndefined? ==>
              (entries[i].0, ValueString(entries[i].1)) in r
    ensures forall j :: 0 <= j < |r| ==> FromDefinedEntry(entries, r[j])
    decreases |entries|
  {
    if |entries| == 0 then []
    else
      var n := |entries| - 1;
      var rest := KeptPairs(entries[..n]);
      assert forall i :: 0 <= i < n ==> entries[..n][i] == entries[i];
      FromDefinedEntryPrefix(entries, n);
      if entries[n].1.QUndefined? then rest else rest + [(entries[n].0, ValueString(entries[n].1))]
  }

  /** One more entry adds its pair at the end when its value is defined and
      nothing otherwise: URLSearchParams keeps insertion order and repeats. */
  lemma KeptPairsStep(entries: seq<(string, QueryValue)>, entry: (string, QueryValue))
    ensures KeptPairs(entries + [entry])
            == KeptPairs(entries) + (if entry.1.QUndefined? then [] else [(entry.0, ValueString(entry.1))])
  {
    assert (entries + [entry])[..|entries|] == entries;
  }

  /** The pairs of two consecutive runs of entries are the pairs of the
      first followed by the pairs of the second. */
  lemma {:induction false} KeptPairsAppend(front: seq<(string, QueryValue)>, back: seq<(string, QueryValue)>)
    ensures KeptPairs(front + back) == KeptPairs(front) + KeptPairs(back)
    decreases |back|
  {
    if |back| == 0 {
      assert front + back == front;
    } else {
      var n := |back| - 1;
      KeptPairsAppend(front, back[..n]);
      KeptPairsStep(front + back[..n], back[n]);
      KeptPairsStep(back[..n], back[n]);
      assert front + back == (front + back[..n]) + [back[n]];
      assert back == back[..n] + [back[n]];
    }
  }

  /** `params.toString()`, given the form encoding of one component. */
  function Serialize(pairs: seq<(string, string)>, escape: string -> string): string {
    Join(seq(|pairs|, i requires 0 <= i < |pairs| => escape(pairs[i].0) + "=" + escape(pairs[i].1)), "&")
  }

  /** buildQueryString as a value. */
  function QueryString(query: Option<seq<(string, QueryValue)>>, escape: string -> string): string {
    match query
    case None => ""
    case Some(entries) =>
      var qs := Serialize(KeptPairs(entries), escape);
      if qs == "" then "" else "?" + qs
  }

  lemma {:induction false} JoinNonEmpty(lines: seq<string>, sep: string)
    requires forall i :: 0 <= i < |lines| ==> lines[i] != ""
    ensures Join(lines, sep) == "" <==> |lines| == 0
    decreases |lines|
  {
    if |lines| > 1 {
      JoinNonEmpty(lines[1..], sep);
    }
  }

  /** The query string is empty exactly when there is no query or every
      value is undefined; otherwise it starts with "?". */
  lemma QueryStringShape(query: Option<seq<(string, QueryValue)>>, escape: string -> string)
    ensures var r := QueryString(query, escape);
            && (r == "" <==> query.None? || KeptPairs(query.value) == [])
            && (r != "" ==> r[0] == '?')
            && (r != "" ==>
                  var pairs := KeptPairs(query.value);
                  r == "?" + Join(seq(|pairs|, i requires 0 <= i < |pairs| =>
                                        escape(pairs[i].0) + "=" + escape(pairs[i].1)), "&"))
  {
    if query.Some? {
      var pairs := KeptPairs(query.value);
      var parts := seq(|pairs|, i requires 0 <= i < |pairs| => escape(pairs[i].0) + "=" + escape(pairs[i].1));
      JoinNonEmpty(parts, "&");
    }
  }

  lemma AllUndefinedGivesEmpty(entries: seq<(string, QueryValue)>, escape: string -> string)
    requires forall i :: 0 <= i < |entries| ==> entries[i].1.QUndefined?
    ensures QueryString(Some(entries), escape) == ""
  {
  }

  /** buildQueryString: the forEach over the entries appends each defined
      one to the parameters, then the parameters are serialised. */
  method BuildQueryString(query: Option<seq<(string, QueryValue)>>, escape: string -> string) returns (r: string)
    ensures r == QueryString(query, escape)
  {
    if query.None? {
      return "";
    }
    var entries := query.value;
    var params: seq<(string, string)> := [];
    for i := 0 to |entries|
      invariant params == KeptPairs(entries[..i])
    {
      assert entries[..i + 1][..i] == entries[..i];
      var (key, value) := entries[i];
      if value.QUndefined? {
        continue;
      }
      params := params + [(key, ValueString(value))];
    }
    assert entries[..|entries|] == entries;
    var qs := Serialize(params, escape);
    r := if qs != "" then "?" + qs else "";
  }

  // ---------------------------------------------------------------------
  // apiFetch: headers

  /** A request body: absent, a string, or a FormData upload. */
  datatype RequestBody = NoBody | TextBody(text: string) | FormBody

  const AuthorizationHeader := "authorization"
  const ContentTypeHeader := "content-type"

  /** The headers apiFetch sends. Header names are kept lower-cased, as the
      Headers object stores them. */
  method FinalHeaders(headers: map<string, string>, token: Option<string>, body: RequestBody)
    returns (h: map<string, string>)
    ensures HasToken(token) ==> AuthorizationHeader in h && h[AuthorizationHeader] == "Bearer " + token.value
    ensures !HasToken(token) ==> (AuthorizationHeader in h <==> AuthorizationHeader in headers)
    ensures ContentTypeHeader in headers ==> ContentTypeHeader in h && h[ContentTypeHeader] == headers[ContentTypeHeader]
    ensures ContentTypeHeader !in headers ==>
              && (ContentTypeHeader in h <==> body.TextBody? && body.text != "")
              && (ContentTypeHeader in h ==> h[ContentTypeHeader] == "application/json")
    ensures forall k :: k in headers ==> k in h
    ensures forall k :: k in h ==> k in headers || k == AuthorizationHeader || k == ContentTypeHeader
    ensures forall k :: k in headers && (k != AuthorizationHeader || !HasToken(token)) ==> h[k] == headers[k]
  {
    h := headers;
    if HasToken(token) {
      h := h[AuthorizationHeader := "Bearer " + token.value];
    }
    var hasBody := body.FormBody? || (body.TextBody? && body.text != "");
    if hasBody && ContentTypeHeader !in h && !body.FormBody? {
      h := h[ContentTypeHeader := "application/json"];
    }
  }

  // ---------------------------------------------------------------------
  // apiFetch: the response

  /** The two fields apiFetch reads from a parsed body; the rest of the
      JSON value is opaque here. */
  datatype JsonBody = JsonBody(detail: Option<string>, message: Option<string>)

  /** The decoded body: nothing, parsed JSON, or the raw text. */
  datatype Data = NullData | JsonData(json: JsonBody) | TextData(text: string)

  datatype HttpResponse = HttpResponse(ok: bool, statusText: string, text: string)

  /** An empty body gives null, valid JSON its value, anything else the text. */
  function Decode(text: string, parse: string -> Outcome<JsonBody>): (d: Data)
    ensures text == "" <==> d.NullData?
    ensures text != "" && parse(text).Ok? ==> d == JsonData(parse(text).value)
    ensures text != "" && parse(text).Fail? ==> d == TextData(text)
  {
    if text == "" then NullData
    else match parse(text)
      case Ok(v) => JsonData(v)
      case Fail => TextData(text)
  }

  /** `data?.detail || data?.message || response.statusText` */
  function ErrorMessage(data: Data, statusText: string): (m: string)
    ensures data.JsonData? && data.json.detail.Some? && data.json.detail.value != "" ==> m == data.json.detail.value
    ensures (data.JsonData? && !(data.json.detail.Some? && data.json.detail.value != "")
             && data.json.message.Some? && data.json.message.value != "") ==> m == data.json.message.value
    ensures (data.JsonData? && !(data.json.detail.Some? && data.json.detail.value != "")
             && !(data.json.message.Some? && data.json.message.value != "")) ==> m == statusText
    ensures !data.JsonData? ==> m == statusText
  {
    if data.JsonData? && data.json.detail.Some? && data.json.detail.value != "" then data.json.detail.value
    else if data.JsonData? && data.json.message.Some? && data.json.message.value != "" then data.json.message.value
    else statusText
  }

  /** How apiFetch settles: a 2xx response resolves to its decoded body,
      any other throws with the error message. */
  function Settle(response: HttpResponse, parse: string -> Outcome<JsonBody>): (r: ApiResult<Data>)
    ensures response.ok <==> r.Success?
    ensures response.ok ==> r.value == Decode(response.text, parse)
    ensures !response.ok ==> r.message == ErrorMessage(Decode(response.text, parse), response.statusText)
  {
    var data := Decode(response.text, parse);
    if response.ok then Success(data) else Failure(ErrorMessage(data, response.statusText))
  }

  /** A failed response whose body is not JSON (an HTML error page, say)
      reports only the status text. */
  lemma PlainTextErrorUsesStatus(statusText: string, text: string, parse: string -> Outcome<JsonBody>)
    requires text == "" || parse(text).Fail?
    ensures Settle(HttpResponse(false, statusText, text), parse) == Failure(statusText)
  {
  }
}
