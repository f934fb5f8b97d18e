/** `fetchSubscriptions`: one authenticated POST to the subscription endpoint,
    guarded by a fixed chain of early failures. The network, the timer and the
    `AbortController` are replaced by the outcome the awaited `fetch` delivers
    and by a record of the side effects the call performs. */
module Api {
  import opened Wrappers
  import opened JsValues

  const BaseUrl: string := "https://www.88code.org"
  const SubEndpoint: string := "/api/subscription"
  /** Delay of the timer that aborts the request. */
  const TimeoutMs: nat := 8000

  const MsgKeyMissing: string := "API key missing"
  const MsgNoFetch: string := "fetch is not available in this environment"
  const MsgInvalidResponse: string := "Invalid response"
  const MsgInvalidBody: string := "Invalid response body"

  /** A thrown `Error`, identified by its message. */
  datatype Error = Error(message: string)

  /** What `await res.json()` does: resolve with the parsed body or reject. */
  datatype BodyOutcome = Parsed(value: Value) | BodyRejected(reason: string)

  /** The value the awaited `fetch` resolves with: a falsy value, or an object
      whose `ok` may be any value, whose `status` is a number or absent
      (`null`/`undefined`), and whose `json()` gives the body. */
  datatype Response = Falsy | Resp(ok: Value, status: Option<int>, body: BodyOutcome)

  /** What the awaited `fetch` does: resolve, or reject (a network failure, or
      the abort triggered when the timer fires first). */
  datatype FetchOutcome = Resolved(response: Response) | Rejected(reason: string)

  datatype Request = Request(httpMethod: string, url: string, authorization: string, contentType: string)

  /** The side effects of one call, in order. */
  datatype Effect = TimerStarted(delayMs: nat) | RequestIssued(request: Request) | TimerCleared

  /** `!apiKey` for a string argument that may also be absent. */
  predicate KeyMissing(apiKey: Option<string>)
    ensures KeyMissing(apiKey) <==> apiKey == None || apiKey == Some("")
  {
    apiKey.None? || apiKey.value == ""
  }

  /** The number a string of decimal digits denotes, most significant first. */
  function DigitsValue(s: string): int {
    if |s| == 0 then 0 else DigitsValue(s[..|s| - 1]) * 10 + (s[|s| - 1] as int - '0' as int)
  }

  /** The number an optionally signed decimal string denotes. */
  function SignedValue(s: string): int {
    if |s| > 0 && s[0] == '-' then -DigitsValue(s[1..]) else DigitsValue(s)
  }

  /** An optional minus sign followed by at least one decimal digit, the
      first of which is a zero only when it is the only digit. */
  predicate IsSignedDecimal(s: string) {
    var start := if |s| > 0 && s[0] == '-' then 1 else 0;
    && start < |s|
    && (forall i :: start <= i < |s| ==> '0' <= s[i] <= '9')
    && (|s| - start > 1 ==> s[start] != '0')
  }

  /** Decimal text of a non-negative integer, without leading zeros. */
  function NatToString(n: nat): (r: string)
    ensures |r| >= 1
    ensures forall i :: 0 <= i < |r| ==> '0' <= r[i] <= '9'
    ensures DigitsValue(r) == n
    ensures |r| > 1 ==> r[0] != '0'
  {
    var digit := ['0' + (n % 10) as char];
    if n < 10 then
      assert digit[..0] == [];
      digit
    else
      var prefix := NatToString(n / 10);
      assert (prefix + digit)[..|prefix|] == prefix;
      prefix + digit
  }

  /** The text of an integer status: a minus sign exactly for negative
      values, then the decimal digits. This is how JavaScript writes an
      integer of magnitude below 10^21; larger ones it writes in exponent
      form (`1e+21`), which is not modelled. */
  function IntToString(n: int): (r: string)
    ensures |r| >= 1
    ensures (r[0] == '-') <==> n < 0
    ensures IsSignedDecimal(r)
    ensures SignedValue(r) == n
  {
    if n < 0 then
      var digits := NatToString(-n);
      assert ("-" + digits)[1..] == digits;
      "-" + digits
    else NatToString(n)
  }

  /** The status as it appears in the failure message: its decimal text, or
      "unknown" when the response carries none. */
  function StatusText(status: Option<int>): (r: string)
    ensures status.None? ==> r == "unknown"
    ensures status.Some? ==> IsSignedDecimal(r) && SignedValue(r) == status.value
    ensures status.Some? ==> ((r[0] == '-') <==> status.value < 0)
  {
    match status
    case None => "unknown"
    case Some(code) => IntToString(code)
  }

  /** The checks run on the resolved response, in the order `fetchSubscriptions`
      runs them: the response's shape, then `ok`, then the body. */
  function ValidateResponse(res: Response): (r: Result<seq<Value>, Error>)
    ensures r.Success? <==>
      res.Resp? && res.ok == Bool(true) && res.body.Parsed? && res.body.value.Arr?
    ensures r.Success? ==> r.value == res.body.value.items
    ensures (res.Falsy? || !res.ok.Bool?) ==> r == Failure(Error("Invalid response"))
  {
    if res.Falsy? || !res.ok.Bool? then Failure(Error(MsgInvalidResponse))
    else if !res.ok.b then Failure(Error("HTTP " + StatusText(res.status)))
    else match res.body
      case BodyRejected(reason) => Failure(Error(reason))
      case Parsed(body) =>
        if !IsArray(body) then Failure(Error(MsgInvalidBody)) else Success(body.items)
  }

  /** The outcome of `fetchSubscriptions(apiKey)` when `fetch` is available
      or not, and the network delivers `outcome`. */
  function FetchResult(apiKey: Option<string>, fetchAvailable: bool, outcome: FetchOutcome)
    : (r: Result<seq<Value>, Error>)
    ensures KeyMissing(apiKey) ==> r == Failure(Error("API key missing"))
    ensures r.Success? <==>
      !KeyMissing(apiKey) && fetchAvailable && outcome.Resolved?
      && ValidateResponse(outcome.response).Success?
    ensures !KeyMissing(apiKey) && fetchAvailable && outcome.Resolved? ==>
      r == ValidateResponse(outcome.response)
  {
    if KeyMissing(apiKey) then Failure(Error(MsgKeyMissing))
    else if !fetchAvailable then Failure(Error(MsgNoFetch))
    else match outcome
      case Rejected(reason) => Failure(Error(reason))
      case Resolved(res) => ValidateResponse(res)
  }

  /** `fetchSubscriptions` with its side effects: the result is `FetchResult`;
      nothing happens unless both guards pass, and then the timer is started,
      exactly one request is issued and the timer is cleared on every exit
      path, the successful one included. */
  method FetchSubscriptions(apiKey: Option<string>, fetchAvailable: bool, outcome: FetchOutcome)
    returns (r: Result<seq<Value>, Error>, effects: seq<Effect>)
    ensures r == FetchResult(apiKey, fetchAvailable, outcome)
    ensures KeyMissing(apiKey) || !fetchAvailable ==> effects == []
    ensures !KeyMissing(apiKey) && fetchAvailable ==>
      effects == [TimerStarted(8000),
                  RequestIssued(Request("POST", "https://www.88code.org/api/subscription",
                                        "Bearer " + apiKey.value, "application/json")),
                  TimerCleared]
  {
    effects := [];
    if KeyMissing(apiKey) {
      r := Failure(Error(MsgKeyMissing));
      return;
    }
    if !fetchAvailable {
      r := Failure(Error(MsgNoFetch));
      return;
    }
    effects := effects + [TimerStarted(TimeoutMs)];
    assert BaseUrl + SubEndpoint == "https://www.88code.org/api/subscription";
    // try
    var request := Request("POST", BaseUrl + SubEndpoint, "Bearer " + apiKey.value, "application/json");
    effects := effects + [RequestIssued(request)];
    match outcome {
      case Rejected(reason) =>
        r := Failure(Error(reason));
      case Resolved(res) =>
        r := ValidateResponse(res);
    }
    // finally
    effects := effects + [TimerCleared];
  }

  // ---------------------------------------------------------------------------
  // Properties of the validation chain
  // ---------------------------------------------------------------------------

  /** A missing or empty key fails first, whatever the environment and the
      network would have done. */
  lemma MissingKeyFailsFirst(apiKey: Option<string>, fetchAvailable: bool, outcome: FetchOutcome)
    requires apiKey == None || apiKey == Some("")
    ensures FetchResult(apiKey, fetchAvailable, outcome) == Failure(Error("API key missing"))
  {
  }

  /** Without `fetch` the call fails before any request. */
  lemma NoFetchFails(key: string, outcome: FetchOutcome)
    requires key != ""
    ensures FetchResult(Some(key), false, outcome)
      == Failure(Error("fetch is not available in this environment"))
  {
  }

  /** A falsy response, or one whose `ok` is not a boolean, is invalid. */
  lemma InvalidResponse(key: string, res: Response)
    requires key != ""
    requires res.Falsy? || !res.ok.Bool?
    ensures FetchResult(Some(key), true, Resolved(res)) == Failure(Error("Invalid response"))
  {
  }

  /** `ok == false` fails with the status, or "unknown", before the body is
      looked at. */
  lemma HttpFailureBeforeBody(key: string, status: Option<int>, body: BodyOutcome, other: BodyOutcome)
    requires key != ""
    ensures FetchResult(Some(key), true, Resolved(Resp(Bool(false), status, body)))
      == FetchResult(Some(key), true, Resolved(Resp(Bool(false), status, other)))
    ensures status.None? ==>
      FetchResult(Some(key), true, Resolved(Resp(Bool(false), status, body)))
      == Failure(Error("HTTP unknown"))
    ensures status.Some? ==>
      FetchResult(Some(key), true, Resolved(Resp(Bool(false), status, body)))
      == Failure(Error("HTTP " + IntToString(status.value)))
  {
    assert "HTTP " + "unknown" == "HTTP unknown";
  }

  /** Status 404 reads "HTTP 404". */
  lemma HttpStatusExample(key: string, body: BodyOutcome)
    requires key != ""
    ensures FetchResult(Some(key), true, Resolved(Resp(Bool(false), Some(404), body)))
      == Failure(Error("HTTP 404"))
  {
    assert NatToString(4) == "4";
    assert NatToString(40) == "40";
    assert NatToString(404) == "404";
    assert "HTTP " + "404" == "HTTP 404";
  }

  /** A parsed body that is not an array is rejected. */
  lemma BodyNotArray(key: string, status: Option<int>, body: Value)
    requires key != ""
    requires !body.Arr?
    ensures FetchResult(Some(key), true, Resolved(Resp(Bool(true), status, Parsed(body))))
      == Failure(Error("Invalid response body"))
  {
  }

  /** A rejected `fetch` or `json()` surfaces its own error. */
  lemma RejectionPropagates(key: string, reason: string, status: Option<int>)
    requires key != ""
    ensures FetchResult(Some(key), true, Rejected(reason)) == Failure(Error(reason))
    ensures FetchResult(Some(key), true, Resolved(Resp(Bool(true), status, BodyRejected(reason))))
      == Failure(Error(reason))
  {
  }

  /** The call succeeds exactly when every guard passes, and then returns the
      parsed array itself: same length, same elements, same order. */
  lemma SuccessIff(apiKey: Option<string>, fetchAvailable: bool, outcome: FetchOutcome)
    ensures FetchResult(apiKey, fetchAvailable, outcome).Success? <==>
      && apiKey.Some? && apiKey.value != ""
      && fetchAvailable
      && outcome.Resolved? && outcome.response.Resp?
      && outcome.response.ok == Bool(true)
      && outcome.response.body.Parsed? && outcome.response.body.value.Arr?
    ensures FetchResult(apiKey, fetchAvailable, outcome).Success? ==>
      var items := outcome.response.body.value.items;
      var got := FetchResult(apiKey, fetchAvailable, outcome).value;
      |got| == |items| && forall i :: 0 <= i < |items| ==> got[i] == items[i]
  {
  }
}
