/** The agent's helpers (agent/utils.py): `api_request`, seen from what the HTTP layer
    did, and the simple keyword parser `parse_rfm_response`. */
module Utils {
  import opened Wrappers
  import opened Strings
  import opened Numbers

  /** A decoded JSON value, as `response.json()` returns it. */
  datatype Json =
    | JNull
    | JBool(b: bool)
    | JNum(n: real)
    | JStr(s: string)
    | JList(items: seq<Json>)
    | JObj(fields: map<string, Json>)

  /** Python's `bool(x)` of a decoded value. */
  predicate Truthy(j: Json) {
    match j
    case JNull => false
    case JBool(b) => b
    case JNum(n) => n != 0.0
    case JStr(s) => s != ""
    case JList(items) => items != []
    case JObj(fields) => fields != map[]
  }

  /** What the HTTP layer did with one request: it got a response (whose body may not be
      JSON), it failed with a `requests.RequestException` (no connection, a timeout, ...),
      or something else was raised. */
  datatype Transport =
    | Responded(status: int, body: Option<Json>)
    | RequestFailed(reason: string)
    | Crashed(error: string)

  /** What `api_request` did: returned a decoded value or raised. */
  datatype ApiResult = Returned(json: Json) | Raised(error: string)

  predicate Supported(verb: string) {
    verb == "GET" || verb == "POST" || verb == "PUT"
  }

  /** `raise_for_status()` raises for client and server errors. */
  predicate HttpError(status: int) {
    400 <= status < 600
  }

  /** `api_request(verb, endpoint, data)` when the request ends as `reply`. */
  function ApiRequest(verb: string, reply: Transport): ApiResult {
    if !Supported(verb) then Raised("Unsupported method: " + verb)
    else
      match reply
      case Crashed(e) => Raised(e)
      case RequestFailed(_) => Returned(JObj(map[]))
      case Responded(status, body) =>
        if HttpError(status) then Returned(JObj(map[]))
        else
          match body
          case None => Returned(JObj(map[]))
          case Some(j) => Returned(j)
  }

  /** An unsupported verb raises `ValueError` before any request; otherwise only an
      exception other than a `RequestException` escapes, and a failed request or an error
      status gives an empty dict. */
  lemma ApiRequestCases(verb: string, reply: Transport)
    ensures !Supported(verb) ==> ApiRequest(verb, reply) == Raised("Unsupported method: " + verb)
    ensures ApiRequest(verb, reply).Raised? <==> !Supported(verb) || reply.Crashed?
    ensures Supported(verb) && reply.RequestFailed? ==> ApiRequest(verb, reply) == Returned(JObj(map[]))
    ensures Supported(verb) && reply.Responded? && HttpError(reply.status) ==> ApiRequest(verb, reply) == Returned(JObj(map[]))
  {
  }

  /** A supported request returns the response body exactly when the server answered
      without an error status and the body is JSON; in every other non-raising case
      the caller sees an empty, falsy dict. */
  lemma ApiRequestReturns(verb: string, reply: Transport)
    requires Supported(verb) && !reply.Crashed?
    ensures ApiRequest(verb, reply).Returned?
    ensures var j := ApiRequest(verb, reply).json;
      if reply.Responded? && !HttpError(reply.status) && reply.body.Some? then j == reply.body.value
      else j == JObj(map[]) && !Truthy(j)
  {
  }

  /** Errors the keyword parser can raise. */
  datatype PyError = IndexError | ValueError

  /** The keys of the result, in the order the loop visits them. */
  const RfmKeys: seq<string> := ["recency", "frequency", "monetary"]

  /** The keys have different lengths, so updating one leaves the others alone. */
  lemma KeyLengths()
    ensures |RfmKeys[0]| == 7 && |RfmKeys[1]| == 9 && |RfmKeys[2]| == 8
  {
  }

  /** `float(response.split(key)[1].split()[0])`: the first whitespace-separated token after
      the first occurrence of `key`, read as a float. */
  function ValueAfter(response: string, key: string): Result<Float, PyError>
    requires |key| > 0
  {
    var parts := Split(response, key);
    if |parts| < 2 then Err(IndexError)
    else
      var words := Words(parts[1]);
      if words == [] then Err(IndexError)
      else
        match ParseFloat(words[0])
        case None => Err(ValueError)
        case Some(v) => Ok(v)
  }

  /** What one turn of the loop does for `key`: keep the default 0.0 when the key does not
      occur in the lower-cased response, otherwise read the value after it. */
  function KeyValue(response: string, key: string): Result<Float, PyError>
    requires |key| > 0
  {
    if Contains(Lower(response), key) then ValueAfter(response, key) else Ok(Finite(0.0))
  }

  /** The loop raises at key `k`: every earlier key was read and this one fails. */
  predicate FailsAt(response: string, k: nat)
    requires k < |RfmKeys|
  {
    && KeyValue(response, RfmKeys[k]).Err?
    && forall x :: 0 <= x < k ==> KeyValue(response, RfmKeys[x]).Ok?
  }

  /** The dict the loop starts from. */
  const Defaults: map<string, Float> := map["recency" := Finite(0.0), "frequency" := Finite(0.0), "monetary" := Finite(0.0)]

  /** The dict after the loop has handled the first `n` keys, or the error it raised. */
  function ParsedKeys(response: string, n: nat): Result<map<string, Float>, PyError>
    requires n <= |RfmKeys|
  {
    if n == 0 then Ok(Defaults)
    else
      match ParsedKeys(response, n - 1)
      case Err(e) => Err(e)
      case Ok(rfm) =>
        var key := RfmKeys[n - 1];
        if !Contains(Lower(response), key) then Ok(rfm)
        else
          match ValueAfter(response, key)
          case Err(e) => Err(e)
          case Ok(v) => Ok(rfm[key := v])
  }

  /** After the first `n` keys the loop has raised exactly when one of them could not be
      read, and then with the first such key's error. */
  lemma {:induction false} ParsedKeysFail(response: string, n: nat)
    requires n <= |RfmKeys|
    ensures ParsedKeys(response, n).Ok? <==> forall k :: 0 <= k < n ==> KeyValue(response, RfmKeys[k]).Ok?
    ensures ParsedKeys(response, n).Err? ==>
      exists k :: 0 <= k < n && FailsAt(response, k) && ParsedKeys(response, n).error == KeyValue(response, RfmKeys[k]).error
  {
    if n > 0 {
      ParsedKeysFail(response, n - 1);
      if ParsedKeys(response, n - 1).Ok? && KeyValue(response, RfmKeys[n - 1]).Err? {
        assert FailsAt(response, n - 1);
      }
    }
  }

  /** When the loop has not raised, every key is present, the keys handled hold the value
      read for them and the others still hold 0.0. */
  lemma {:induction false} ParsedKeysValues(response: string, n: nat)
    requires n <= |RfmKeys| && ParsedKeys(response, n).Ok?
    ensures ParsedKeys(response, n).value.Keys == {"recency", "frequency", "monetary"}
    ensures forall k :: 0 <= k < n ==> KeyValue(response, RfmKeys[k]) == Ok(ParsedKeys(response, n).value[RfmKeys[k]])
    ensures forall k :: n <= k < |RfmKeys| ==> ParsedKeys(response, n).value[RfmKeys[k]] == Finite(0.0)
  {
    if n > 0 {
      ErrorSticks(response, n - 1, n);
      ParsedKeysValues(response, n - 1);
      KeyLengths();
      var before := ParsedKeys(response, n - 1).value;
      var after := ParsedKeys(response, n).value;
      forall k | 0 <= k < |RfmKeys| && k != n - 1
        ensures after[RfmKeys[k]] == before[RfmKeys[k]]
      {
        assert RfmKeys[k] != RfmKeys[n - 1];
      }
    }
  }

  /** Once the loop has raised, the later keys change nothing. */
  lemma {:induction false} ErrorSticks(response: string, n: nat, m: nat)
    requires n <= m <= |RfmKeys|
    ensures ParsedKeys(response, n).Err? ==> ParsedKeys(response, m) == ParsedKeys(response, n)
    decreases m
  {
    if m > n {
      ErrorSticks(response, n, m - 1);
    }
  }

  /** `parse_rfm_response(claude_response)`: starts from the three keys at 0.0 and
      overwrites each key the response mentions with the value after it. */
  method ParseRfmResponse(claudeResponse: string) returns (r: Result<map<string, Float>, PyError>)
    ensures r == ParsedKeys(claudeResponse, |RfmKeys|)
    ensures r.Ok? <==> forall k :: 0 <= k < |RfmKeys| ==> KeyValue(claudeResponse, RfmKeys[k]).Ok?
    ensures r.Ok? ==> r.value.Keys == {"recency", "frequency", "monetary"}
    ensures r.Ok? ==> forall k :: 0 <= k < |RfmKeys| ==> KeyValue(claudeResponse, RfmKeys[k]) == Ok(r.value[RfmKeys[k]])
    ensures r.Err? ==> exists k :: 0 <= k < |RfmKeys| && FailsAt(claudeResponse, k) && r.error == KeyValue(claudeResponse, RfmKeys[k]).error
  {
    var rfm := map["recency" := Finite(0.0), "frequency" := Finite(0.0), "monetary" := Finite(0.0)];
    var lowered := Lower(claudeResponse);
    var i := 0;
    while i < |RfmKeys|
      invariant i <= |RfmKeys|
      invariant ParsedKeys(claudeResponse, i) == Ok(rfm)
    {
      var key := RfmKeys[i];
      if Contains(lowered, key) {
        var value := ValueAfter(claudeResponse, key);
        if value.Err? {
          ErrorSticks(claudeResponse, i + 1, |RfmKeys|);
          ParsedKeysFail(claudeResponse, |RfmKeys|);
          return Err(value.error);
        }
        rfm := rfm[key := value.value];
      }
      i := i + 1;
    }
    ParsedKeysFail(claudeResponse, |RfmKeys|);
    ParsedKeysValues(claudeResponse, |RfmKeys|);
    return Ok(rfm);
  }

  /** A key the lower-cased response does not mention keeps its default. */
  lemma AbsentKeyDefaults(response: string, key: string)
    requires |key| > 0 && !Contains(Lower(response), key)
    ensures KeyValue(response, key) == Ok(Finite(0.0))
  {
  }

  /** A key that occurs only in another case (`"Recency 5"`) passes the presence check but
      the split finds no occurrence, so the lookup of the second piece raises. */
  lemma OtherCaseRaises(response: string, key: string)
    requires |key| > 0 && Contains(Lower(response), key) && !Contains(response, key)
    ensures KeyValue(response, key) == Err(IndexError)
  {
    SplitCount(response, key);
  }

  /** Nothing but whitespace after the key: the token lookup raises. */
  lemma NoTokenRaises(response: string, key: string)
    requires |key| > 0 && Contains(Lower(response), key) && Contains(response, key)
    requires AllSpace(Split(response, key)[1])
    ensures KeyValue(response, key) == Err(IndexError)
  {
    SplitCount(response, key);
    WordsEmpty(Split(response, key)[1]);
  }

  /** When the key occurs as written, its value is the first token after it, and the
      lookup raises `ValueError` exactly when that token is not a number (as for
      `"recency: 15"`, whose token is `":"`). */
  lemma PresentKeyValue(response: string, key: string)
    requires |key| > 0 && Lower(key) == key && Contains(response, key)
    requires Words(Split(response, key)[1]) != []
    ensures Contains(Lower(response), key)
    ensures var token := Words(Split(response, key)[1])[0];
      KeyValue(response, key) == if ParseFloat(token).None? then Err(ValueError) else Ok(ParseFloat(token).value)
  {
    var i := Find(response, key, 0).value;
    LowerOccurs(response, key, i);
  }

  /** An occurrence of a lower-case word is also an occurrence in the lower-cased text. */
  lemma LowerOccurs(s: string, key: string, i: nat)
    requires OccursAt(s, key, i) && Lower(key) == key
    ensures Contains(Lower(s), key)
  {
    var l := Lower(s);
    assert l[i..i + |key|] == key by {
      forall x | 0 <= x < |key| ensures l[i..i + |key|][x] == key[x] {
        assert s[i + x] == key[x];
      }
    }
    ContainsAt(l, key, i);
  }
}
