/** The `TelegramChecker` client of telegram_checker.py: a settable API key, the lenient
    phone-number cleaner, and the guards and parameters of a single check. The HTTP
    transport is a function parameter. */
module Checker {
  import opened Wrappers
  import opened Text
  import opened Json

  /** The endpoint every check is sent to. */
  const BaseUrl: string := "https://irbots.com/TG-Number-Analyzer/api.php"

  /** The fixed timeout, in seconds, of every request. */
  const RequestTimeout: int := 30

  /** Why a request failed, as the `APIRequestError` message reports it. */
  datatype RequestFault =
    | HttpError(code: int, reason: string)   // "HTTP Error {code}: {reason}"
    | UrlError(reason: string)               // "URL Error: {reason}"
    | BadJson                                // "Failed to parse API response: ..."
    | TimedOut                               // "Request timed out"

  datatype CheckerError =
    | APIKeyError                            // the key is unset, empty or blank
    | InvalidPhoneNumber                     // ValueError: nothing left after cleaning
    | APIRequestError(fault: RequestFault)
    | Uncaught(name: string)                 // an exception no handler of check_number catches

  /** What the transport is asked to do: a GET of `url` with these query parameters. */
  datatype Request = Request(url: string, params: map<string, string>, timeout: int)

  /** What the transport delivers: one of the caught exceptions, an exception none of the
      handlers catches (a `UnicodeDecodeError` from decoding a body that is not UTF-8, an
      `http.client` error that urllib does not wrap), or a UTF-8 body as decoded JSON
      (`None` when it is not JSON). */
  datatype Fetch =
    | RaisedHttpError(code: int, reason: string)
    | RaisedUrlError(reason: string)
    | RaisedTimeout
    | RaisedOther(name: string)
    | Body(json: Option<JsonValue>)

  /** `startswith("+")`. */
  predicate StartsWithPlus(s: string) {
    |s| > 0 && s[0] == '+'
  }

  /** `_clean_phone_number`: strip whitespace, note a leading `+`, keep only the digits,
      and put the `+` back in front when there is at least one digit. */
  function CleanPhoneNumber(phone: string): (cleaned: string)
    ensures cleaned == [] || IsDigitString(cleaned) || (cleaned[0] == '+' && IsDigitString(cleaned[1..]))
  {
    if phone == [] then
      []
    else
      var stripped := Strip(phone);
      var hasPlus := StartsWithPlus(stripped);
      var digits := Digits(stripped);
      if digits == [] then [] else if hasPlus then ['+'] + digits else digits
  }

  /** The cleaner as one expression over the stripped input. */
  lemma {:induction false} CleanUnfold(phone: string)
    ensures CleanPhoneNumber(phone) ==
      if Digits(Strip(phone)) == [] then []
      else (if StartsWithPlus(Strip(phone)) then "+" else "") + Digits(Strip(phone))
  {
    if phone == [] {
      assert Strip(phone) == [];
    }
  }

  /** The cleaner gives the empty string exactly when the input holds no digit. */
  lemma {:induction false} CleanEmptyIff(phone: string)
    ensures CleanPhoneNumber(phone) == [] <==> !HasDigit(phone)
  {
    DigitsOfStrip(phone);
    DigitsEmptyIff(phone);
  }

  /** A non-empty cleaned number is an optional `+` followed by the input's digits, in order;
      every other character of the input is dropped. */
  lemma {:induction false} CleanKeepsDigits(phone: string)
    requires HasDigit(phone)
    ensures CleanPhoneNumber(phone) == (if StartsWithPlus(Strip(phone)) then "+" else "") + Digits(phone)
    ensures Digits(CleanPhoneNumber(phone)) == Digits(phone)
  {
    DigitsOfStrip(phone);
    DigitsEmptyIff(phone);
    CleanUnfold(phone);
    var pre: string := if StartsWithPlus(Strip(phone)) then "+" else "";
    var d := Digits(phone);
    assert CleanPhoneNumber(phone) == pre + d;
    assert Digits(pre) == [];
    DigitsAppend(pre, d);
    DigitsOfDigits(d);
  }

  /** The cleaned number starts with `+` exactly when the stripped input does and holds a digit. */
  lemma {:induction false} CleanPlusIff(phone: string)
    ensures StartsWithPlus(CleanPhoneNumber(phone)) <==> StartsWithPlus(Strip(phone)) && HasDigit(phone)
  {
    CleanEmptyIff(phone);
    if HasDigit(phone) {
      CleanKeepsDigits(phone);
    }
  }

  /** An optional `+` followed by digits is left as it is by the cleaner. */
  lemma {:induction false} CleanCanonical(plus: bool, digits: string)
    requires IsDigitString(digits)
    ensures CleanPhoneNumber((if plus then "+" else "") + digits) == (if plus then "+" else "") + digits
  {
    var pre: string := if plus then "+" else "";
    var c := pre + digits;
    assert c[0] == (if plus then '+' else digits[0]);
    assert c[|c| - 1] == digits[|digits| - 1];
    StripUnchanged(c);
    assert Digits(pre) == [];
    DigitsAppend(pre, digits);
    DigitsOfDigits(digits);
    assert Strip(c) == c && Digits(c) == digits;
    assert StartsWithPlus(c) == plus;
    CleanUnfold(c);
  }

  /** Cleaning an already cleaned number changes nothing. */
  lemma {:induction false} CleanIdempotent(phone: string)
    ensures CleanPhoneNumber(CleanPhoneNumber(phone)) == CleanPhoneNumber(phone)
  {
    var c := CleanPhoneNumber(phone);
    if c != [] {
      if c[0] == '+' {
        assert c == "+" + c[1..];
        CleanCanonical(true, c[1..]);
      } else {
        assert c == "" + c;
        CleanCanonical(false, c);
      }
    }
  }

  /** The `TelegramChecker` object: its one piece of state is the API key. */
  class TelegramChecker {
    var apiKey: Option<string>

    /** `__init__`: the key is stored exactly as given, without validation. */
    constructor (apiKey: Option<string>)
      ensures this.apiKey == apiKey
    {
      this.apiKey := apiKey;
    }

    /** `is_configured`: a key is stored and it is not the empty string. */
    predicate IsConfigured()
      reads this
    {
      apiKey.Some? && apiKey.value != []
    }

    /** `__repr__`: names the class and whether it is configured. */
    function ReprText(): (text: string)
      reads this
      ensures text == "TelegramChecker(configured)" <==> IsConfigured()
      ensures text == "TelegramChecker(not configured)" <==> !IsConfigured()
    {
      "TelegramChecker(" + (if IsConfigured() then "configured" else "not configured") + ")"
    }

    /** `set_api_key`: a missing, empty or all-whitespace key raises `APIKeyError` and keeps
        the stored key; any other key is stored with surrounding whitespace removed. */
    method SetApiKey(key: Option<string>) returns (outcome: Outcome<CheckerError>)
      modifies this
      ensures outcome.Fail? <==> key.None? || AllSpace(key.value)
      ensures outcome.Fail? ==> outcome.error == APIKeyError && apiKey == old(apiKey)
      ensures outcome.Pass? ==> apiKey == Some(Strip(key.value))
      ensures outcome.Pass? ==>
        IsConfigured() && !IsSpace(apiKey.value[0]) && !IsSpace(apiKey.value[|apiKey.value| - 1])
    {
      if key.Some? {
        StripEmptyIff(key.value);
      }
      if key.None? || key.value == [] || Strip(key.value) == [] {
        outcome := Fail(APIKeyError);
        return;
      }
      apiKey := Some(Strip(key.value));
      outcome := Pass;
    }

    /** `check_number`: the key guard, then the number guard, then exactly one request
        carrying the stored key and the cleaned number. */
    method CheckNumber(phone: string, send: Request -> Fetch) returns (r: Result<JsonValue, CheckerError>)
      ensures !IsConfigured() ==> r == Failure(APIKeyError)
      ensures IsConfigured() && CleanPhoneNumber(phone) == [] ==> r == Failure(InvalidPhoneNumber)
      ensures IsConfigured() && CleanPhoneNumber(phone) != [] ==>
        r == Deliver(send(CheckRequest(apiKey.value, CleanPhoneNumber(phone))))
    {
      if apiKey.None? || apiKey.value == [] {
        return Failure(APIKeyError);
      }
      var cleaned := CleanPhoneNumber(phone);
      if cleaned == [] {
        return Failure(InvalidPhoneNumber);
      }
      var params := map["api_key" := apiKey.value, "phone" := cleaned];
      var fetched := send(Request(BaseUrl, params, RequestTimeout));
      r := Deliver(fetched);
    }
  }

  /** The request of a check: exactly the two parameters `api_key` and `phone`. */
  function CheckRequest(key: string, cleaned: string): (req: Request)
    ensures req.url == BaseUrl && req.timeout == RequestTimeout
    ensures req.params.Keys == {"api_key", "phone"}
    ensures req.params["api_key"] == key && req.params["phone"] == cleaned
  {
    Request(BaseUrl, map["api_key" := key, "phone" := cleaned], RequestTimeout)
  }

  /** The transport's result as `check_number` returns or wraps it: the decoded body as it is,
      an `APIRequestError` for each caught exception and for a body that is not JSON, and any
      other exception passed on as it was raised. */
  function Deliver(fetched: Fetch): (r: Result<JsonValue, CheckerError>)
    ensures r.Success? <==> fetched.Body? && fetched.json.Some?
    ensures fetched.Body? && fetched.json.Some? ==> r == Success(fetched.json.value)
    ensures fetched.RaisedHttpError? ==> r == Failure(APIRequestError(HttpError(fetched.code, fetched.reason)))
    ensures fetched.RaisedUrlError? ==> r == Failure(APIRequestError(UrlError(fetched.reason)))
    ensures fetched.RaisedTimeout? ==> r == Failure(APIRequestError(TimedOut))
    ensures fetched == Body(None) ==> r == Failure(APIRequestError(BadJson))
    ensures fetched.RaisedOther? ==> r == Failure(Uncaught(fetched.name))
    ensures r.Failure? ==> (r.error.APIRequestError? <==> !fetched.RaisedOther?)
  {
    match fetched
    case RaisedHttpError(code, reason) => Failure(APIRequestError(HttpError(code, reason)))
    case RaisedUrlError(reason) => Failure(APIRequestError(UrlError(reason)))
    case RaisedTimeout => Failure(APIRequestError(TimedOut))
    case RaisedOther(name) => Failure(Uncaught(name))
    case Body(None) => Failure(APIRequestError(BadJson))
    case Body(Some(value)) => Success(value)
  }

  /** `check_telegram_number`: a fresh checker holding `apiKey` unvalidated, then one check.
      A blank key therefore passes the key guard and is sent as it is. */
  method CheckTelegramNumber(phone: string, apiKey: Option<string>, send: Request -> Fetch)
    returns (r: Result<JsonValue, CheckerError>)
    ensures apiKey.None? || apiKey.value == [] ==> r == Failure(APIKeyError)
    ensures apiKey.Some? && apiKey.value != [] && CleanPhoneNumber(phone) == [] ==> r == Failure(InvalidPhoneNumber)
    ensures apiKey.Some? && apiKey.value != [] && CleanPhoneNumber(phone) != [] ==>
      r == Deliver(send(CheckRequest(apiKey.value, CleanPhoneNumber(phone))))
  {
    var checker := new TelegramChecker(apiKey);
    r := checker.CheckNumber(phone, send);
  }

  /** A blank key is accepted by the constructor, which does not validate it, and refused
      by `set_api_key`, which strips it first. */
  method BlankKeyPolicies() returns (viaConstructor: bool, viaSetter: bool)
    ensures viaConstructor && !viaSetter
  {
    var constructed := new TelegramChecker(Some("  "));
    viaConstructor := constructed.IsConfigured();
    var updated := new TelegramChecker(None);
    var outcome := updated.SetApiKey(Some("  "));
    viaSetter := updated.IsConfigured();
  }
}
