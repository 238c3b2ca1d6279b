/** The `TgChecker` client of Tgchecker/client.py: a key check at construction, the strict
    number validator, the request parameters shared by the blocking and the non-blocking
    call, and the response normaliser. The HTTP transport is a function parameter. */
module TgClient {
  import opened Wrappers
  import opened Text
  import opened Json

  /** The service endpoint both call paths send to. */
  const BaseUrl: string := "http://api.irbots.com"

  /** The `timeout` a client gets when none is given, in seconds. */
  const DefaultTimeout: int := 10

  /** The `api_key` argument: a `str`, or any value that is not one (such as `None`). */
  datatype KeyArg = KeyText(text: string) | KeyNotText

  /** A constructed client; its fields are never reassigned after construction. */
  datatype Client = Client(apiKey: string, timeout: int)

  /** The `numbers` argument: one string or a list of strings. */
  datatype NumbersArg = Single(number: string) | Many(numbers: seq<string>)

  /** The three `ValueError`s of the validator, in the order it checks for them. */
  datatype NumbersError = EmptyNumbers | NotDigits | TooShort

  /** Which call path raised an `APIRequestError`; only its message differs. */
  datatype CallPath = Sync | Async

  datatype ClientError =
    | InvalidAPIKey                              // InvalidAPIKeyError
    | InvalidNumbers(kind: NumbersError)         // ValueError from the validator
    | APIRequest(path: CallPath, reason: string) // APIRequestError wrapping the transport's error
    | APIStatus(status: int, text: string)       // APIResponseError: status other than 200
    | APIUndecodable                             // APIResponseError: body is not JSON
    | BodyNotObject                              // AttributeError: decoded JSON is not an object

  /** The fields of a `CheckResult`, exactly as looked up in the decoded body. */
  datatype CheckResult = CheckResult(data: JsonValue, timeTaken: JsonValue, errors: JsonValue, status: JsonValue)

  /** An HTTP response: its status, its raw text, and its body as JSON (`None` when undecodable). */
  datatype HttpResponse = HttpResponse(statusCode: int, text: string, json: Option<JsonValue>)

  /** What the transport is asked to do: a GET of `url` with these query parameters. */
  datatype Request = Request(url: string, params: map<string, string>, timeout: int)

  /** What the transport delivers: a request error (connection, timeout, ...) or a response. */
  datatype TransportOutcome = RequestError(reason: string) | Responded(response: HttpResponse)

  /** Every client that construction returns has a non-empty key. */
  predicate ValidClient(c: Client) {
    c.apiKey != []
  }

  /** `TgChecker.__init__`: the key must be a non-empty string; key and timeout are kept as given. */
  function NewClient(apiKey: KeyArg, timeout: int): (r: Result<Client, ClientError>)
    ensures r.Success? <==> apiKey.KeyText? && apiKey.text != []
    ensures r.Success? ==> ValidClient(r.value) && r.value.apiKey == apiKey.text && r.value.timeout == timeout
    ensures r.Failure? ==> r.error == InvalidAPIKey
  {
    match apiKey
    case KeyNotText => Failure(InvalidAPIKey)
    case KeyText(k) => if k == [] then Failure(InvalidAPIKey) else Success(Client(k, timeout))
  }

  /** `TgChecker(api_key)` with the timeout argument left out: the default of 10 seconds. */
  function NewClientDefault(apiKey: KeyArg): (r: Result<Client, ClientError>)
    ensures r.Success? <==> apiKey.KeyText? && apiKey.text != []
    ensures r.Success? ==> r.value.apiKey == apiKey.text && r.value.timeout == 10
    ensures r.Failure? ==> r.error == InvalidAPIKey
  {
    NewClient(apiKey, DefaultTimeout)
  }

  /** The numbers an argument stands for, in order. */
  function Elements(n: NumbersArg): seq<string> {
    match n
    case Single(s) => [s]
    case Many(xs) => xs
  }

  /** The digit test on one number: after all leading `+`, a non-empty run of digits. */
  predicate DigitsAfterPlus(s: string) {
    IsDigitString(LStripPlus(s))
  }

  /** The length test on one number: at least five characters after all leading `+`. */
  predicate LongEnough(s: string) {
    |LStripPlus(s)| >= 5
  }

  predicate ValidNumber(s: string) {
    DigitsAfterPlus(s) && LongEnough(s)
  }

  /** `numbers == ''` or `numbers == []`. */
  predicate IsEmptyArg(n: NumbersArg) {
    n == Single([]) || n == Many([])
  }

  predicate AllDigitsAfterPlus(xs: seq<string>) {
    forall i :: 0 <= i < |xs| ==> DigitsAfterPlus(xs[i])
  }

  predicate AllLongEnough(xs: seq<string>) {
    forall i :: 0 <= i < |xs| ==> LongEnough(xs[i])
  }

  predicate AllValid(xs: seq<string>) {
    forall i :: 0 <= i < |xs| ==> ValidNumber(xs[i])
  }

  /** `_prepare_numbers`: the wire form of the numbers, or the first check that fails,
      where the checks run in the order empty, digits (on every number), length (on every number). */
  function PrepareNumbers(n: NumbersArg): (r: Result<string, NumbersError>)
    ensures r.Success? <==> Elements(n) != [] && AllValid(Elements(n))
    ensures r == Failure(EmptyNumbers) <==> IsEmptyArg(n)
    ensures r == Failure(NotDigits) <==> !IsEmptyArg(n) && !AllDigitsAfterPlus(Elements(n))
    ensures r == Failure(TooShort) <==>
      !IsEmptyArg(n) && AllDigitsAfterPlus(Elements(n)) && !AllLongEnough(Elements(n))
    ensures r.Success? && n.Single? ==> r.value == n.number
    ensures r.Success? && n.Many? ==> r.value == Join(n.numbers, ',')
  {
    assert n.Single? ==> Elements(n) == [n.number] && Elements(n)[0] == n.number;
    if IsEmptyArg(n) then
      Failure(EmptyNumbers)
    else if n.Single? && !DigitsAfterPlus(n.number) then
      Failure(NotDigits)
    else if n.Many? && !AllDigitsAfterPlus(n.numbers) then
      Failure(NotDigits)
    else if n.Single? && !LongEnough(n.number) then
      Failure(TooShort)
    else if n.Many? && !AllLongEnough(n.numbers) then
      Failure(TooShort)
    else
      match n
      case Single(s) => Success(s)
      case Many(xs) => Success(Join(xs, ','))
  }

  /** The number format the validator accepts, stated without `lstrip`:
      some plus signs, then at least five digits. */
  predicate StrictFormat(s: string) {
    exists k :: 0 <= k <= |s| && AllPlus(s[..k]) && |s| - k >= 5 && AllDigits(s[k..])
  }

  /** The validator's per-number test is exactly the format "plus signs, then five or more digits". */
  lemma {:induction false} ValidNumberIffStrictFormat(s: string)
    ensures ValidNumber(s) <==> StrictFormat(s)
  {
    LStripPlusShape(s);
    if ValidNumber(s) {
      var m := |s| - |LStripPlus(s)|;
      assert s[m..] == LStripPlus(s);
    }
    if StrictFormat(s) {
      var k :| 0 <= k <= |s| && AllPlus(s[..k]) && |s| - k >= 5 && AllDigits(s[k..]);
      assert IsDigit(s[k..][0]) && s[k..][0] == s[k];
      LStripPlusStopsAt(s, k);
    }
  }

  /** All leading plus signs are removed before the digit test, so "++12345" is accepted as it is. */
  lemma RepeatedPlusAccepted()
    ensures LStripPlus("++12345") == "12345"
    ensures ValidNumber("++12345")
    ensures PrepareNumbers(Single("++12345")) == Success("++12345")
  {
    var s := "++12345";
    assert s[..2] == "++";
    LStripPlusStopsAt(s, 2);
    assert s[2..] == "12345";
  }

  /** A number made only of plus signs (such as "+") leaves the empty string, which is not
      a digit string, so it fails the digit test rather than the length test. */
  lemma {:induction false} OnlyPlusNotDigits(s: string)
    requires s != [] && AllPlus(s)
    ensures PrepareNumbers(Single(s)) == Failure(NotDigits)
  {
    assert s[..|s|] == s;
    LStripPlusStopsAt(s, |s|);
  }

  /** A letter inside the digits fails the digit test. */
  lemma LetterNotDigits()
    ensures PrepareNumbers(Single("12a45")) == Failure(NotDigits)
  {
    var s := "12a45";
    assert s[..0] == [];
    LStripPlusStopsAt(s, 0);
    assert !IsDigit(s[2]);
  }

  /** In a list the digit test runs on every number before any length test:
      a short first number does not hide a malformed second one. */
  lemma ListDigitTestFirst()
    ensures PrepareNumbers(Many(["123", "12a45"])) == Failure(NotDigits)
  {
    var xs := ["123", "12a45"];
    assert xs[1][..0] == [];
    LStripPlusStopsAt(xs[1], 0);
    assert !IsDigit(xs[1][2]);
    assert !DigitsAfterPlus(xs[1]);
  }

  /** No accepted number contains a comma. */
  lemma {:induction false} ValidNumberHasNoComma(s: string)
    requires ValidNumber(s)
    ensures ',' !in s
  {
    LStripPlusShape(s);
    var r := LStripPlus(s);
    var m := |s| - |r|;
    forall i | 0 <= i < |s|
      ensures s[i] == '+' || IsDigit(s[i])
    {
      if i < m {
        assert s[i] == s[..m][i];
      } else {
        assert s[i] == r[i - m];
      }
    }
  }

  /** The joined wire form of an accepted list splits back into the list. */
  lemma {:induction false} PrepareManySplitsBack(xs: seq<string>)
    requires PrepareNumbers(Many(xs)).Success?
    ensures Split(PrepareNumbers(Many(xs)).value, ',') == xs
  {
    forall i | 0 <= i < |xs|
      ensures ',' !in xs[i]
    {
      ValidNumberHasNoComma(xs[i]);
    }
    SplitJoin(xs, ',');
  }

  /** The request a check sends: the client's key, the wire-form numbers and the fixed target. */
  predicate IsCheckerRequest(req: Request, c: Client, prepared: string) {
    req.url == BaseUrl && req.timeout == c.timeout
    && req.params.Keys == {"key", "numbers", "target"}
    && req.params["key"] == c.apiKey
    && req.params["numbers"] == prepared
    && req.params["target"] == "checker"
  }

  /** The request `check_sync` hands to `httpx.get`, when validation passes. */
  function SyncRequest(c: Client, prepared: string): (req: Request)
    ensures IsCheckerRequest(req, c, prepared)
  {
    Request(BaseUrl, map["key" := c.apiKey, "numbers" := prepared, "target" := "checker"], c.timeout)
  }

  /** The request `check_async` hands to the asynchronous client, when validation passes. */
  function AsyncRequest(c: Client, prepared: string): (req: Request)
    ensures IsCheckerRequest(req, c, prepared)
  {
    Request(BaseUrl, map["key" := c.apiKey, "numbers" := prepared, "target" := "checker"], c.timeout)
  }

  /** Both call paths build the very same request from the same inputs. */
  lemma {:induction false} SameRequest(c: Client, prepared: string)
    ensures SyncRequest(c, prepared) == AsyncRequest(c, prepared)
  {
    var s, a := SyncRequest(c, prepared), AsyncRequest(c, prepared);
    assert s.params.Keys == a.params.Keys;
    assert forall k :: k in s.params ==> s.params[k] == a.params[k];
  }

  /** `_parse_response`: the status check, then decoding, then field lookups with defaults. */
  function ParseResponse(resp: HttpResponse): (r: Result<CheckResult, ClientError>)
    ensures r.Success? <==> resp.statusCode == 200 && resp.json.Some? && resp.json.value.JObject?
    ensures resp.statusCode != 200 ==> r == Failure(APIStatus(resp.statusCode, resp.text))
    ensures resp.statusCode == 200 && resp.json.None? ==> r == Failure(APIUndecodable)
    ensures resp.statusCode == 200 && resp.json.Some? && !resp.json.value.JObject? ==> r == Failure(BodyNotObject)
  {
    if resp.statusCode != 200 then
      Failure(APIStatus(resp.statusCode, resp.text))
    else
      match resp.json
      case None => Failure(APIUndecodable)
      case Some(body) =>
        match body
        case JObject(fields) =>
          Success(CheckResult(
            Get(fields, "data", JObject(map[])),
            Get(fields, "Time taken", JInt(0)),
            Get(fields, "errors", JInt(0)),
            Get(fields, "status", JString("unknown"))))
        case _ => Failure(BodyNotObject)
  }

  /** The four keys the normaliser reads. */
  const ResultKeys: set<string> := {"data", "Time taken", "errors", "status"}

  /** A field that is present is taken as it is; an absent one takes its default. */
  lemma {:induction false} ParseFieldLookup(fields: map<string, JsonValue>, text: string)
    ensures var r := ParseResponse(HttpResponse(200, text, Some(JObject(fields))));
      && r.Success?
      && r.value.data == (if "data" in fields then fields["data"] else JObject(map[]))
      && r.value.timeTaken == (if "Time taken" in fields then fields["Time taken"] else JInt(0))
      && r.value.errors == (if "errors" in fields then fields["errors"] else JInt(0))
      && r.value.status == (if "status" in fields then fields["status"] else JString("unknown"))
  {
  }

  /** An empty object normalises to the defaults, without failing. */
  lemma {:induction false} ParseEmptyObject(text: string)
    ensures ParseResponse(HttpResponse(200, text, Some(JObject(map[]))))
      == Success(CheckResult(JObject(map[]), JInt(0), JInt(0), JString("unknown")))
  {
  }

  /** Keys other than the four the normaliser reads do not affect the result. */
  lemma {:induction false} ParseIgnoresOtherKeys(fields: map<string, JsonValue>, extra: map<string, JsonValue>, text: string)
    requires extra.Keys !! ResultKeys
    ensures ParseResponse(HttpResponse(200, text, Some(JObject(fields + extra))))
      == ParseResponse(HttpResponse(200, text, Some(JObject(fields))))
  {
    var a, b := fields + extra, fields;
    assert forall k :: k in ResultKeys ==> (k in a <==> k in b);
    assert forall k :: k in ResultKeys && k in a ==> a[k] == b[k];
  }

  /** `check_sync`: validate, build the request, send it once, parse the response. */
  function CheckSync(c: Client, numbers: NumbersArg, send: Request -> TransportOutcome): (r: Result<CheckResult, ClientError>)
    ensures PrepareNumbers(numbers).Failure? ==> r == Failure(InvalidNumbers(PrepareNumbers(numbers).error))
    ensures PrepareNumbers(numbers).Success? ==>
      var outcome := send(SyncRequest(c, PrepareNumbers(numbers).value));
      && (outcome.RequestError? ==> r == Failure(APIRequest(Sync, outcome.reason)))
      && (outcome.Responded? ==> r == ParseResponse(outcome.response))
    ensures r.Success? ==> Elements(numbers) != [] && AllValid(Elements(numbers))
  {
    match PrepareNumbers(numbers)
    case Failure(e) => Failure(InvalidNumbers(e))
    case Success(prepared) =>
      match send(SyncRequest(c, prepared))
      case RequestError(reason) => Failure(APIRequest(Sync, reason))
      case Responded(resp) => ParseResponse(resp)
  }

  /** `check_async`: the same steps through the asynchronous client. */
  function CheckAsync(c: Client, numbers: NumbersArg, send: Request -> TransportOutcome): (r: Result<CheckResult, ClientError>)
    ensures PrepareNumbers(numbers).Failure? ==> r == Failure(InvalidNumbers(PrepareNumbers(numbers).error))
    ensures PrepareNumbers(numbers).Success? ==>
      var outcome := send(AsyncRequest(c, PrepareNumbers(numbers).value));
      && (outcome.RequestError? ==> r == Failure(APIRequest(Async, outcome.reason)))
      && (outcome.Responded? ==> r == ParseResponse(outcome.response))
    ensures r.Success? ==> Elements(numbers) != [] && AllValid(Elements(numbers))
  {
    match PrepareNumbers(numbers)
    case Failure(e) => Failure(InvalidNumbers(e))
    case Success(prepared) =>
      match send(AsyncRequest(c, prepared))
      case RequestError(reason) => Failure(APIRequest(Async, reason))
      case Responded(resp) => ParseResponse(resp)
  }

  /** A result with the call path forgotten: the two paths differ in nothing else. */
  function ForgetPath(r: Result<CheckResult, ClientError>): Result<CheckResult, ClientError> {
    match r
    case Failure(APIRequest(_, reason)) => Failure(APIRequest(Sync, reason))
    case _ => r
  }

  /** Validation happens before any request: invalid numbers give the same error whatever the transport does. */
  lemma {:induction false} ValidationBeforeRequest(c: Client, numbers: NumbersArg, send1: Request -> TransportOutcome, send2: Request -> TransportOutcome)
    requires PrepareNumbers(numbers).Failure?
    ensures CheckSync(c, numbers, send1) == CheckSync(c, numbers, send2)
    ensures CheckAsync(c, numbers, send1) == CheckAsync(c, numbers, send2)
  {
  }

  /** A check depends on the transport only through its answer to the one request it builds. */
  lemma {:induction false} OnlyTheBuiltRequestMatters(c: Client, numbers: NumbersArg, send1: Request -> TransportOutcome, send2: Request -> TransportOutcome)
    requires PrepareNumbers(numbers).Success?
    requires send1(SyncRequest(c, PrepareNumbers(numbers).value)) == send2(SyncRequest(c, PrepareNumbers(numbers).value))
    ensures CheckSync(c, numbers, send1) == CheckSync(c, numbers, send2)
    ensures CheckAsync(c, numbers, send1) == CheckAsync(c, numbers, send2)
  {
    SameRequest(c, PrepareNumbers(numbers).value);
  }

  /** The blocking and the non-blocking call agree on every input and transport,
      up to the call path named in a request error. */
  lemma {:induction false} SyncAsyncAgree(c: Client, numbers: NumbersArg, send: Request -> TransportOutcome)
    ensures ForgetPath(CheckSync(c, numbers, send)) == ForgetPath(CheckAsync(c, numbers, send))
    ensures !CheckSync(c, numbers, send).Failure? || !CheckSync(c, numbers, send).error.APIRequest?
      ==> CheckSync(c, numbers, send) == CheckAsync(c, numbers, send)
  {
    if PrepareNumbers(numbers).Success? {
      SameRequest(c, PrepareNumbers(numbers).value);
    }
  }
}
