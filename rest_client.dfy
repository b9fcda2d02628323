/** The deterministic parts of the REST client
    (src/services/DeltaRestClient.ts): how a failed request becomes an error
    message (`handleError`), which text is signed (`signRequest`), how the
    option-chain request is built (`getOptionChain`), and the rate-limit retry
    rule of `getProducts` and `getTickerBySymbol`. The HTTP calls, the waiting
    and HMAC-SHA256 are outside the model; the HMAC is a function parameter. */
module RestClient {
  import opened Text

  // ---------------------------------------------------------------------------
  // Failures and their messages

  /** The body of an error response: `data.message` ("" when absent or
      falsy) and `JSON.stringify(data)`. */
  datatype ResponseData = ResponseData(message: string, json: string)

  /** What a request can fail with, as `handleError` tells them apart. */
  datatype Failure =
    | Response(status: nat, data: ResponseData, retryAfter: string) // an axios error with a response; `retryAfter` is "" when the header is absent
    | NoResponse(message: string)   // an axios error with a request but no response
    | RequestSetup(message: string) // an axios error without a request
    | NonAxios(message: string)     // any other thrown value

  /** `data?.message || JSON.stringify(data)`: the text every check looks at. */
  function ErrorMessage(data: ResponseData): (r: string)
    ensures data.message != "" ==> r == data.message
    ensures data.message == "" ==> r == data.json
  {
    if data.message != "" then data.message else data.json
  }

  /** The statuses of the request-error branch. */
  predicate IsRequestStatus(status: nat)
  {
    status == 400 || status == 404 || status == 405 || status == 406
    || status == 409 || status == 412 || status == 422
  }

  /** The order-error codes' labels; both post-only codes share one. */
  datatype OrderLabel =
    | InsufficientMargin | OrderSizeExceedsAvailable | RiskLimitsBreached | InvalidContract
    | ImmediateLiquidation | OutOfBankruptcy | PostOnlyViolation

  /** Which error `handleError` builds: one constructor per message shape,
      holding what the message is built from. */
  datatype ErrorKind =
    | SignatureExpired
    | InvalidApiKey
    | IpNotWhitelisted
    | AuthenticationError(status: nat, message: string)
    | RateLimitExceeded(status: nat, message: string, retryAfter: string)
    | OrderError(reason: OrderLabel, message: string)
    | BadRequest(status: nat, message: string)
    | ServerError(status: nat, message: string)
    | OtherStatus(status: nat, message: string)
    | NoResponseError(message: string)
    | RequestSetupError(message: string)
    | UnexpectedError(message: string)

  /** The 401/403 checks of `handleError`, first match first. */
  function AuthCheck(status: nat, msg: string): (e: ErrorKind)
    ensures e.SignatureExpired? || e.InvalidApiKey? || e.IpNotWhitelisted? || e == AuthenticationError(status, msg)
  {
    if Contains(msg, "signature expired") then SignatureExpired
    else if Contains(msg, "Invalid API Key") then InvalidApiKey
    else if Contains(msg, "IP not whitelisted") then IpNotWhitelisted
    else AuthenticationError(status, msg)
  }

  /** The order-code checks of the 400/404/405/406/409/412/422 branch, first
      match first. */
  function OrderCheck(status: nat, msg: string): (e: ErrorKind)
    ensures e.OrderError? || e.BadRequest?
    ensures e.message == msg && (e.BadRequest? ==> e.status == status)
  {
    if Contains(msg, "insufficient_margin") then OrderError(InsufficientMargin, msg)
    else if Contains(msg, "order_size_exceed_available") then OrderError(OrderSizeExceedsAvailable, msg)
    else if Contains(msg, "risk_limits_breached") then OrderError(RiskLimitsBreached, msg)
    else if Contains(msg, "invalid_contract") then OrderError(InvalidContract, msg)
    else if Contains(msg, "immediate_liquidation") then OrderError(ImmediateLiquidation, msg)
    else if Contains(msg, "out_of_bankruptcy") then OrderError(OutOfBankruptcy, msg)
    else if Contains(msg, "immediate_execution_post_only") || Contains(msg, "self_matching_disrupted_post_only") then
      OrderError(PostOnlyViolation, msg)
    else BadRequest(status, msg)
  }

  /** The decisions of `handleError`: the switch on the status, then the
      checks of the branch it selects. */
  function Classify(f: Failure): ErrorKind
  {
    match f
    case NonAxios(m) => UnexpectedError(m)
    case NoResponse(m) => NoResponseError(m)
    case RequestSetup(m) => RequestSetupError(m)
    case Response(status, data, retryAfter) =>
      var msg := ErrorMessage(data);
      if status == 401 || status == 403 then AuthCheck(status, msg)
      else if status == 429 then RateLimitExceeded(status, msg, retryAfter)
      else if IsRequestStatus(status) then OrderCheck(status, msg)
      else if status == 500 then ServerError(status, msg)
      else OtherStatus(status, msg)
  }

  function LabelText(reason: OrderLabel): string
  {
    match reason
    case InsufficientMargin => "Insufficient Margin"
    case OrderSizeExceedsAvailable => "Order Size Exceeds Available"
    case RiskLimitsBreached => "Risk Limits Breached"
    case InvalidContract => "Invalid Contract"
    case ImmediateLiquidation => "Immediate Liquidation"
    case OutOfBankruptcy => "Out of Bankruptcy"
    case PostOnlyViolation => "Post Only Violation"
  }

  /** The message an error quotes: the server's message or the failure's
      own; the three fixed authentication texts quote nothing. */
  function Quoted(e: ErrorKind): string
  {
    if e.SignatureExpired? || e.InvalidApiKey? || e.IpNotWhitelisted? then "" else e.message
  }

  /** The text before the quoted message. */
  function Head(e: ErrorKind): string
  {
    match e
    case SignatureExpired => "Delta API Error: Signature Expired. Please check your system time."
    case InvalidApiKey => "Delta API Error: Invalid API Key. Please check your DELTA_API_KEY."
    case IpNotWhitelisted => "Delta API Error: IP Not Whitelisted. Please configure your IP in Delta Exchange settings."
    case AuthenticationError(status, _) => "Delta API Authentication Error: Status " + NatToDecimal(status) + ", Message: "
    case RateLimitExceeded(status, _, _) => "Delta API Rate Limit Exceeded: Status " + NatToDecimal(status) + ", Message: "
    case OrderError(reason, _) => "Delta API Order Error: " + LabelText(reason) + ". Message: "
    case BadRequest(status, _) => "Delta API Request Error: Status " + NatToDecimal(status) + ", Message: "
    case ServerError(status, _) => "Delta API Server Error: Status " + NatToDecimal(status) + ", Message: "
    case OtherStatus(status, _) => "Delta API Error: Status " + NatToDecimal(status) + ", Message: "
    case NoResponseError(_) => "Delta API No Response: "
    case RequestSetupError(_) => "Delta API Request Error: "
    case UnexpectedError(_) => "An unexpected error occurred: "
  }

  /** `${retryAfter || 'some time'}`: the wait the rate-limit error names. */
  function Wait(retryAfter: string): string
  {
    if retryAfter != "" then retryAfter else "some time"
  }

  /** The text after the quoted message: only the rate-limit error has one. */
  function Tail(e: ErrorKind): string
  {
    if e.RateLimitExceeded? then ". Please retry after " + Wait(e.retryAfter) + " seconds." else ""
  }

  /** The text of the `Error` that `handleError` returns. */
  function Render(e: ErrorKind): string
  {
    Head(e) + Quoted(e) + Tail(e)
  }

  /** `handleError(error).message` */
  function HandleError(f: Failure): string
  {
    Render(Classify(f))
  }

  // ---------------------------------------------------------------------------
  // The same decisions as tables

  /** A rule: the code looked for in the message and what it leads to. */
  datatype Rule<T> = Rule(code: string, outcome: T)

  /** The 401/403 checks, in order. */
  const AuthRules: seq<Rule<ErrorKind>> := [
    Rule("signature expired", SignatureExpired),
    Rule("Invalid API Key", InvalidApiKey),
    Rule("IP not whitelisted", IpNotWhitelisted)]

  /** The order-error codes, in order; both post-only codes lead to the same label. */
  const OrderRules: seq<Rule<OrderLabel>> := [
    Rule("insufficient_margin", InsufficientMargin),
    Rule("order_size_exceed_available", OrderSizeExceedsAvailable),
    Rule("risk_limits_breached", RiskLimitsBreached),
    Rule("invalid_contract", InvalidContract),
    Rule("immediate_liquidation", ImmediateLiquidation),
    Rule("out_of_bankruptcy", OutOfBankruptcy),
    Rule("immediate_execution_post_only", PostOnlyViolation),
    Rule("self_matching_disrupted_post_only", PostOnlyViolation)]

  /** The first rule from index `k` on whose code the message contains. */
  function FirstMatchFrom<T>(rules: seq<Rule<T>>, msg: string, k: nat): (r: Option<T>)
    decreases |rules| - k
    ensures r.Some? ==>
      (exists i :: k <= i < |rules| && rules[i].outcome == r.value && Contains(msg, rules[i].code)
         && forall j :: k <= j < i ==> !Contains(msg, rules[j].code))
    ensures r.None? ==> forall i :: k <= i < |rules| ==> !Contains(msg, rules[i].code)
  {
    if k >= |rules| then None
    else if Contains(msg, rules[k].code) then Some(rules[k].outcome)
    else FirstMatchFrom(rules, msg, k + 1)
  }

  /** The first rule whose code the message contains. */
  function FirstMatch<T>(rules: seq<Rule<T>>, msg: string): Option<T>
  {
    FirstMatchFrom(rules, msg, 0)
  }

  /** The reference classification: the status picks a table, the table's
      first match picks the error, and no match gives the branch's generic
      error. */
  function ClassifyByTable(f: Failure): ErrorKind
  {
    match f
    case NonAxios(m) => UnexpectedError(m)
    case NoResponse(m) => NoResponseError(m)
    case RequestSetup(m) => RequestSetupError(m)
    case Response(status, data, retryAfter) =>
      var msg := ErrorMessage(data);
      if status == 401 || status == 403 then
        match FirstMatch(AuthRules, msg)
        case Some(kind) => kind
        case None => AuthenticationError(status, msg)
      else if status == 429 then RateLimitExceeded(status, msg, retryAfter)
      else if IsRequestStatus(status) then
        match FirstMatch(OrderRules, msg)
        case Some(reason) => OrderError(reason, msg)
        case None => BadRequest(status, msg)
      else if status == 500 then ServerError(status, msg)
      else OtherStatus(status, msg)
  }

  /** The 401/403 checks are the first match in `AuthRules`. */
  lemma AuthTable(msg: string)
    ensures FirstMatch(AuthRules, msg) ==
      if Contains(msg, "signature expired") then Some(SignatureExpired)
      else if Contains(msg, "Invalid API Key") then Some(InvalidApiKey)
      else if Contains(msg, "IP not whitelisted") then Some(IpNotWhitelisted)
      else None
  {
    var r := AuthRules;
    assert FirstMatchFrom(r, msg, 3) == None;
  }

  /** The order-code checks are the first match in `OrderRules`. */
  lemma OrderTable(msg: string)
    ensures FirstMatch(OrderRules, msg) ==
      if Contains(msg, "insufficient_margin") then Some(InsufficientMargin)
      else if Contains(msg, "order_size_exceed_available") then Some(OrderSizeExceedsAvailable)
      else if Contains(msg, "risk_limits_breached") then Some(RiskLimitsBreached)
      else if Contains(msg, "invalid_contract") then Some(InvalidContract)
      else if Contains(msg, "immediate_liquidation") then Some(ImmediateLiquidation)
      else if Contains(msg, "out_of_bankruptcy") then Some(OutOfBankruptcy)
      else if Contains(msg, "immediate_execution_post_only") || Contains(msg, "self_matching_disrupted_post_only") then
        Some(PostOnlyViolation)
      else None
  {
    var r := OrderRules;
    assert FirstMatchFrom(r, msg, 8) == None;
    assert FirstMatchFrom(r, msg, 7) == if Contains(msg, r[7].code) then Some(r[7].outcome) else FirstMatchFrom(r, msg, 8);
    assert FirstMatchFrom(r, msg, 6) == if Contains(msg, r[6].code) then Some(r[6].outcome) else FirstMatchFrom(r, msg, 7);
    assert FirstMatchFrom(r, msg, 5) == if Contains(msg, r[5].code) then Some(r[5].outcome) else FirstMatchFrom(r, msg, 6);
    assert FirstMatchFrom(r, msg, 4) == if Contains(msg, r[4].code) then Some(r[4].outcome) else FirstMatchFrom(r, msg, 5);
    assert FirstMatchFrom(r, msg, 3) == if Contains(msg, r[3].code) then Some(r[3].outcome) else FirstMatchFrom(r, msg, 4);
    assert FirstMatchFrom(r, msg, 2) == if Contains(msg, r[2].code) then Some(r[2].outcome) else FirstMatchFrom(r, msg, 3);
    assert FirstMatchFrom(r, msg, 1) == if Contains(msg, r[1].code) then Some(r[1].outcome) else FirstMatchFrom(r, msg, 2);
  }

  /** `handleError` decides as the tables do: for 401/403 the first of
      `signature expired`, `Invalid API Key`, `IP not whitelisted` found in
      the message wins, for the request statuses the first order code found
      wins, and every other case has a single outcome. */
  lemma ClassifyMatchesTable(f: Failure)
    ensures Classify(f) == ClassifyByTable(f)
  {
    if f.Response? {
      var msg := ErrorMessage(f.data);
      if f.status == 401 || f.status == 403 {
        AuthCheckByTable(f.status, msg);
      } else if f.status != 429 && IsRequestStatus(f.status) {
        OrderCheckByTable(f.status, msg);
      }
    }
  }

  lemma AuthCheckByTable(status: nat, msg: string)
    ensures AuthCheck(status, msg) ==
      match FirstMatch(AuthRules, msg)
      case Some(kind) => kind
      case None => AuthenticationError(status, msg)
  {
    AuthTable(msg);
  }

  lemma OrderCheckByTable(status: nat, msg: string)
    ensures OrderCheck(status, msg) ==
      match FirstMatch(OrderRules, msg)
      case Some(reason) => OrderError(reason, msg)
      case None => BadRequest(status, msg)
  {
    OrderTable(msg);
  }

  // ---------------------------------------------------------------------------
  // What the messages say

  /** The branches of the switch on the status. */
  datatype Branch = AuthBranch | RateLimitBranch | RequestBranch | ServerBranch | DefaultBranch

  /** The branch the switch takes for a status. */
  function StatusBranch(status: nat): Branch
  {
    if status == 401 || status == 403 then AuthBranch
    else if status == 429 then RateLimitBranch
    else if IsRequestStatus(status) then RequestBranch
    else if status == 500 then ServerBranch
    else DefaultBranch
  }

  /** The branch an error can only have come from; `None` for the failures
      without a response. */
  function BranchOf(e: ErrorKind): Option<Branch>
  {
    match e
    case SignatureExpired | InvalidApiKey | IpNotWhitelisted | AuthenticationError(_, _) => Some(AuthBranch)
    case RateLimitExceeded(_, _, _) => Some(RateLimitBranch)
    case OrderError(_, _) | BadRequest(_, _) => Some(RequestBranch)
    case ServerError(_, _) => Some(ServerBranch)
    case OtherStatus(_, _) => Some(DefaultBranch)
    case NoResponseError(_) | RequestSetupError(_) | UnexpectedError(_) => None
  }

  /** A response is classified within the branch its status selects, and
      the error it gets quotes `ErrorMessage(data)` and, where it names a
      status, names the response's. A failure without a response keeps its
      kind and its message. */
  lemma ClassifyByStatus(f: Failure)
    ensures var e := Classify(f);
      match f
      case Response(status, data, _) =>
        BranchOf(e) == Some(StatusBranch(status))
        && (e.AuthenticationError? || e.RateLimitExceeded? || e.BadRequest? || e.ServerError? || e.OtherStatus? ==>
              e.status == status)
        && Quoted(e) == (if BranchOf(e) == Some(AuthBranch) && !e.AuthenticationError? then "" else ErrorMessage(data))
      case NoResponse(m) => e == NoResponseError(m)
      case RequestSetup(m) => e == RequestSetupError(m)
      case NonAxios(m) => e == UnexpectedError(m)
  {
  }

  /** Every error but the three fixed authentication texts quotes the
      message it was classified on. */
  lemma RenderQuotesMessage(e: ErrorKind)
    requires !(e.SignatureExpired? || e.InvalidApiKey? || e.IpNotWhitelisted?)
    ensures Contains(Render(e), e.message)
  {
    ContainsPiece(Head(e), e.message, Tail(e));
  }

  /** The rate-limit error names the wait: the `retry-after` value, or
      `some time` when there is none. */
  lemma RateLimitNamesWait(status: nat, msg: string, retryAfter: string)
    ensures Contains(Render(RateLimitExceeded(status, msg, retryAfter)),
                     if retryAfter != "" then retryAfter else "some time")
  {
    var e := RateLimitExceeded(status, msg, retryAfter);
    ContainsPiece(". Please retry after ", Wait(retryAfter), " seconds.");
    ContainsInSuffix(Head(e) + Quoted(e), Tail(e), Wait(retryAfter));
  }

  /** The rejected call of the client's test: a 401 whose message is
      `Invalid API Key`. */
  lemma InvalidApiKeyExample(json: string)
    ensures HandleError(Response(401, ResponseData("Invalid API Key", json), ""))
      == "Delta API Error: Invalid API Key. Please check your DELTA_API_KEY."
  {
    var msg := "Invalid API Key";
    assert !Contains(msg, "signature expired");
    assert OccursAt(msg, "Invalid API Key", 0);
  }

  // ---------------------------------------------------------------------------
  // Signing

  /** The HTTP methods the client signs. */
  predicate IsMethod(m: string)
  {
    m == "GET" || m == "POST" || m == "PUT" || m == "DELETE"
  }

  /** `signatureData` of `signRequest`: verb, the timestamp in decimal
      seconds, path, query and payload, concatenated. */
  function SignedText(verb: string, timestamp: nat, path: string, query: string, payload: string): string
  {
    verb + NatToDecimal(timestamp) + path + query + payload
  }

  /** `signRequest`: the HMAC-SHA256 hex digest of the signed text under the
      API secret; `hmac(key, text)` stands for the digest. */
  function Signature(hmac: (string, string) -> string, secret: string,
                     verb: string, path: string, query: string, payload: string, timestamp: nat): string
  {
    hmac(secret, SignedText(verb, timestamp, path, query, payload))
  }

  lemma MethodLetters(verb: string)
    requires IsMethod(verb)
    ensures |verb| >= 1 && forall i :: 0 <= i < |verb| ==> IsUpperLetter(verb[i])
  {
  }

  /** Capital letters, then digits, then a text not starting with a digit:
      the two runs give the three pieces back. */
  lemma RunsSplit(letters: string, digits: string, rest: string)
    requires forall i :: 0 <= i < |letters| ==> IsUpperLetter(letters[i])
    requires |digits| >= 1 && AllDigits(digits)
    requires rest == [] || !IsDigit(rest[0])
    ensures var s := letters + (digits + rest);
      var m := Span(s, IsUpperLetter);
      var d := Span(s[m..], IsDigit);
      s[..m] == letters && s[m..][..d] == digits && s[m..][d..] == rest
  {
    var s := letters + (digits + rest);
    SpanOf(letters, digits + rest, IsUpperLetter);
    assert s[|letters|..] == digits + rest;
    SpanOf(digits, rest, IsDigit);
  }

  /** The signed text can be read back: its method is the leading run of
      capital letters, its timestamp the run of digits after it (a path
      starts with `/`), and the rest is path, query and payload. */
  lemma SignedTextParts(verb: string, timestamp: nat, path: string, query: string, payload: string)
    requires IsMethod(verb) && StartsWith(path, "/")
    ensures var s := SignedText(verb, timestamp, path, query, payload);
      var m := Span(s, IsUpperLetter);
      var d := Span(s[m..], IsDigit);
      s[..m] == verb && s[m..][..d] == NatToDecimal(timestamp) && s[m..][d..] == path + query + payload
  {
    var digits := NatToDecimal(timestamp);
    var rest := path + query + payload;
    assert rest[0] == path[0] == '/';
    assert SignedText(verb, timestamp, path, query, payload) == verb + (digits + rest);
    MethodLetters(verb);
    RunsSplit(verb, digits, rest);
  }

  /** Two signed texts are equal only when they sign the same verb, the
      same second and the same path, query and payload text. */
  lemma SignedTextInjective(m1: string, t1: nat, p1: string, q1: string, b1: string,
                            m2: string, t2: nat, p2: string, q2: string, b2: string)
    requires IsMethod(m1) && StartsWith(p1, "/") && IsMethod(m2) && StartsWith(p2, "/")
    requires SignedText(m1, t1, p1, q1, b1) == SignedText(m2, t2, p2, q2, b2)
    ensures m1 == m2 && t1 == t2 && p1 + q1 + b1 == p2 + q2 + b2
  {
    SignedTextParts(m1, t1, p1, q1, b1);
    SignedTextParts(m2, t2, p2, q2, b2);
    NatToDecimalInjective(t1, t2);
  }

  // ---------------------------------------------------------------------------
  // The option-chain request

  const OptionChainPath: string := "/v2/tickers"

  /** The query `getOptionChain` builds, written as its fields joined by
      `&`; `expiry` is "" when absent or falsy. */
  function OptionChainQuery(underlyingAsset: string, expiry: string): string
  {
    "product_type=option" + "&" + ("underlying_asset=" + underlyingAsset)
    + (if expiry != "" then "&" + ("expiry=" + expiry) else "")
  }

  /** A signed request as the client sends it: the URL relative to the base
      URL and the three authentication headers. */
  datatype SignedRequest = SignedRequest(url: string, apiKey: string, signature: string, timestamp: nat)

  /** `getOptionChain(underlyingAsset, expiry)` at `nowMillis`: the request
      it sends. */
  function OptionChainRequest(hmac: (string, string) -> string, apiKey: string, secret: string,
                              underlyingAsset: string, expiry: string, nowMillis: nat): SignedRequest
  {
    var timestamp := nowMillis / 1000;
    var query := OptionChainQuery(underlyingAsset, expiry);
    SignedRequest(OptionChainPath + "?" + query, apiKey,
                  Signature(hmac, secret, "GET", OptionChainPath, query, "", timestamp), timestamp)
  }

  lemma FieldNamesClean()
    ensures '&' !in "product_type=option" && '&' !in "underlying_asset=" && '&' !in "expiry="
  {
  }

  /** The query's fields: the option product type, the underlying asset and,
      only for a non-empty expiry, the expiry (values without `&`). */
  lemma OptionChainQueryFields(underlyingAsset: string, expiry: string)
    requires '&' !in underlyingAsset && '&' !in expiry
    ensures Split(OptionChainQuery(underlyingAsset, expiry), '&') ==
      ["product_type=option", "underlying_asset=" + underlyingAsset]
      + (if expiry != "" then ["expiry=" + expiry] else [])
  {
    FieldNamesClean();
    NotInConcat("underlying_asset=", underlyingAsset, '&');
    if expiry == "" {
      QueryWithoutExpiry(underlyingAsset);
    } else {
      NotInConcat("expiry=", expiry, '&');
      QueryWithExpiry(underlyingAsset, expiry);
    }
  }

  lemma QueryWithoutExpiry(underlyingAsset: string)
    requires '&' !in "product_type=option" && '&' !in "underlying_asset=" + underlyingAsset
    ensures Split(OptionChainQuery(underlyingAsset, ""), '&') ==
      ["product_type=option", "underlying_asset=" + underlyingAsset]
  {
    var a := "product_type=option";
    var b := "underlying_asset=" + underlyingAsset;
    assert OptionChainQuery(underlyingAsset, "") == a + ['&'] + b;
    SplitTwo(a, b, '&');
  }

  lemma QueryWithExpiry(underlyingAsset: string, expiry: string)
    requires expiry != ""
    requires '&' !in "product_type=option" && '&' !in "underlying_asset=" + underlyingAsset
    requires '&' !in "expiry=" + expiry
    ensures Split(OptionChainQuery(underlyingAsset, expiry), '&') ==
      ["product_type=option", "underlying_asset=" + underlyingAsset, "expiry=" + expiry]
  {
    SplitThree("product_type=option", "underlying_asset=" + underlyingAsset, "expiry=" + expiry, '&');
  }

  /** The query after `?` in the URL is the very query that is signed, with
      an empty payload, at the timestamp sent in the headers. */
  lemma OptionChainSignsItsQuery(hmac: (string, string) -> string, apiKey: string, secret: string,
                                 underlyingAsset: string, expiry: string, nowMillis: nat)
    ensures var r := OptionChainRequest(hmac, apiKey, secret, underlyingAsset, expiry, nowMillis);
      var n := |OptionChainPath| + 1;
      n <= |r.url| && r.url[..n] == OptionChainPath + "?"
      && r.signature == hmac(secret, "GET" + NatToDecimal(r.timestamp) + OptionChainPath + r.url[n..])
      && r.timestamp == nowMillis / 1000 && r.apiKey == apiKey
  {
    var r := OptionChainRequest(hmac, apiKey, secret, underlyingAsset, expiry, nowMillis);
    var query := OptionChainQuery(underlyingAsset, expiry);
    assert r.url == (OptionChainPath + "?") + query;
    assert r.url[|OptionChainPath| + 1..] == query;
    assert SignedText("GET", r.timestamp, OptionChainPath, query, "")
      == "GET" + NatToDecimal(r.timestamp) + OptionChainPath + query;
  }

  /** The client's test: the chain of `BTC` without an expiry is requested
      at `/v2/tickers?product_type=option&underlying_asset=BTC`. */
  lemma OptionChainExample(hmac: (string, string) -> string, apiKey: string, secret: string, nowMillis: nat)
    ensures OptionChainRequest(hmac, apiKey, secret, "BTC", "", nowMillis).url
      == "/v2/tickers?product_type=option&underlying_asset=BTC"
  {
    var query := OptionChainQuery("BTC", "");
    assert OptionChainRequest(hmac, apiKey, secret, "BTC", "", nowMillis).url == OptionChainPath + "?" + query;
    BtcQuery();
    BtcUrl(query);
    assert OptionChainPath + "?" == "/v2/tickers?";
  }

  /** The query of the test's request. */
  lemma BtcQuery()
    ensures OptionChainQuery("BTC", "") == "product_type=option&underlying_asset=BTC"
  {
    assert "underlying_asset=" + "BTC" == "underlying_asset=BTC";
    assert "product_type=option" + "&" == "product_type=option&";
    assert "product_type=option&" + "underlying_asset=BTC" == "product_type=option&underlying_asset=BTC";
  }

  /** The URL of the test's request, from its query. */
  lemma BtcUrl(query: string)
    requires query == "product_type=option&underlying_asset=BTC"
    ensures "/v2/tickers?" + query == "/v2/tickers?product_type=option&underlying_asset=BTC"
  {
  }

  // ---------------------------------------------------------------------------
  // The rate-limit retry

  predicate IsHexDigit(c: char)
  {
    IsDigit(c) || 'a' <= c <= 'f' || 'A' <= c <= 'F'
  }

  function HexDigitValue(c: char): nat
    requires IsHexDigit(c)
  {
    if IsDigit(c) then DigitValue(c)
    else if 'a' <= c <= 'f' then c as int - 'a' as int + 10
    else c as int - 'A' as int + 10
  }

  /** The value of a string of hexadecimal digits. */
  function HexValue(s: string): nat
    requires forall i :: 0 <= i < |s| ==> IsHexDigit(s[i])
  {
    if s == [] then 0 else HexValue(s[..|s| - 1]) * 16 + HexDigitValue(s[|s| - 1])
  }

  /** The digits at the head of `u`, after the optional sign: hexadecimal
      after `0x`/`0X`, decimal otherwise; `None` when there is no digit. */
  function Magnitude(u: string): (r: Option<nat>)
  {
    if |u| >= 2 && u[0] == '0' && (u[1] == 'x' || u[1] == 'X') then
      var n := Span(u[2..], IsHexDigit);
      if n == 0 then None else Some(HexValue(u[2..][..n]))
    else
      var n := Span(u, IsDigit);
      if n == 0 then None else Some(DecimalValue(u[..n]))
  }

  /** `parseInt(s)` without a radix, on the exact integers: leading white
      space is skipped, one sign is read, and the digits after it are the
      magnitude. `None` is `NaN`, when there is no digit. */
  function ParseInt(s: string): (r: Option<int>)
  {
    Signed(s[Span(s, IsWhiteSpace)..])
  }

  /** The sign and magnitude after the white space. */
  function Signed(t: string): Option<int>
  {
    var negative := |t| > 0 && t[0] == '-';
    var u := if |t| > 0 && (t[0] == '-' || t[0] == '+') then t[1..] else t;
    match Magnitude(u)
    case None => None
    case Some(m) => Some(if negative then -(m as int) else m)
  }

  /** A decimal numeral followed by anything that is not a digit nor an
      `x` reads back as its number. */
  lemma MagnitudeDecimal(n: nat, rest: string)
    requires rest == [] || !(IsDigit(rest[0]) || rest[0] == 'x' || rest[0] == 'X')
    ensures Magnitude(NatToDecimal(n) + rest) == Some(n)
  {
    var d := NatToDecimal(n);
    var u := d + rest;
    assert u[0] == d[0];
    if |d| >= 2 {
      assert u[1] == d[1];
    } else if rest != [] {
      assert u[1] == rest[0];
    }
    SpanOf(d, rest, IsDigit);
    assert u[..|d|] == d;
    DecimalRoundTrip(n);
  }

  /** White space before a string that does not start with white space is
      skipped whole. */
  lemma SkipSpace(space: string, t: string)
    requires forall i :: 0 <= i < |space| ==> IsWhiteSpace(space[i])
    requires t == [] || !IsWhiteSpace(t[0])
    ensures ParseInt(space + t) == Signed(t)
  {
    SpanOf(space, t, IsWhiteSpace);
    assert (space + t)[|space|..] == t;
  }

  /** `(retryAfter ? parseInt(retryAfter) : 5) * 1000`: an absent or empty
      `retry-after` header waits five seconds; `None` is a `NaN` delay. */
  function RetryDelay(retryAfter: string): (r: Option<int>)
    ensures retryAfter == "" ==> r == Some(5000)
  {
    if retryAfter == "" then Some(5 * 1000)
    else match ParseInt(retryAfter)
      case Some(seconds) => Some(seconds * 1000)
      case None => None
  }

  /** A header holding a number of seconds in decimal, after any white
      space and before anything that is not a digit, is read back exactly. */
  lemma ParseIntDecimal(space: string, n: nat, rest: string)
    requires forall i :: 0 <= i < |space| ==> IsWhiteSpace(space[i])
    requires rest == [] || !(IsDigit(rest[0]) || rest[0] == 'x' || rest[0] == 'X')
    ensures ParseInt(space + NatToDecimal(n) + rest) == Some(n)
  {
    var t := NatToDecimal(n) + rest;
    assert ParseInt(space + NatToDecimal(n) + rest) == Signed(t) by {
      assert space + NatToDecimal(n) + rest == space + t;
      assert t[0] == NatToDecimal(n)[0];
      SkipSpace(space, t);
    }
    assert Signed(t) == Some(n) by {
      assert t[0] == NatToDecimal(n)[0];
      MagnitudeDecimal(n, rest);
    }
  }

  /** A minus sign negates the magnitude after it. */
  lemma SignedNegative(u: string, m: nat)
    requires Magnitude(u) == Some(m)
    ensures Signed(['-'] + u) == Some(-(m as int))
  {
    assert (['-'] + u)[1..] == u;
  }

  /** A minus sign before the numeral negates it. */
  lemma ParseIntNegative(space: string, n: nat, rest: string)
    requires forall i :: 0 <= i < |space| ==> IsWhiteSpace(space[i])
    requires rest == [] || !(IsDigit(rest[0]) || rest[0] == 'x' || rest[0] == 'X')
    ensures ParseInt(space + ['-'] + NatToDecimal(n) + rest) == Some(-(n as int))
  {
    var u := NatToDecimal(n) + rest;
    assert ParseInt(space + ['-'] + NatToDecimal(n) + rest) == Signed(['-'] + u) by {
      assert space + ['-'] + NatToDecimal(n) + rest == space + (['-'] + u);
      SkipSpace(space, ['-'] + u);
    }
    assert Signed(['-'] + u) == Some(-(n as int)) by {
      MagnitudeDecimal(n, rest);
      SignedNegative(u, n);
    }
  }

  /** Text without any digit has no magnitude, whatever its sign. */
  lemma SignedNoDigit(t: string)
    requires forall i :: 0 <= i < |t| ==> !IsDigit(t[i])
    ensures Signed(t) == None
  {
    var u := if |t| > 0 && (t[0] == '-' || t[0] == '+') then t[1..] else t;
    assert forall i :: 0 <= i < |u| ==> u[i] == t[|t| - |u| + i];
  }

  /** A header without any digit is not a number, so the delay is `NaN`. */
  lemma RetryDelayNaN(retryAfter: string)
    requires retryAfter != ""
    requires forall i :: 0 <= i < |retryAfter| ==> !IsDigit(retryAfter[i])
    ensures RetryDelay(retryAfter) == None
  {
    var k := Span(retryAfter, IsWhiteSpace);
    var t := retryAfter[k..];
    assert forall i :: 0 <= i < |t| ==> t[i] == retryAfter[k + i];
    SignedNoDigit(t);
  }

  /** `retry-after: N` waits N thousand milliseconds. */
  lemma RetryDelaySeconds(n: nat)
    ensures RetryDelay(NatToDecimal(n)) == Some(n * 1000)
  {
    ParseIntDecimal("", n, "");
    assert "" + NatToDecimal(n) + "" == NatToDecimal(n);
  }

  /** The client's operations. */
  datatype Operation =
    | GetProducts | GetTickerBySymbol(symbol: string)
    | PlaceOrder | CancelOrder | EditOrder | CreateBatchOrders | EditBatchOrders | DeleteBatchOrders
    | PlaceBracketOrder | EditBracketOrder | CancelAllOrders | GetPositions | SetOrderLeverage
    | GetOptionChain | GetBalances | GetOrderbook | GetOrderHistory | GetUserFills
    | GetWalletTransactions | CloseAllPositions | CreateHeartbeat | AckHeartbeat | GetHeartbeat
    | UpdateMmp | ResetMmp

  /** What a failed call does next. */
  datatype Outcome = RetryAfter(delay: Option<int>) | Throw(message: string)

  /** The `catch` of each operation: `getProducts` and `getTickerBySymbol`
      wait and retry a rate-limited (429) response; everything else throws
      `handleError(error)`. */
  function OnFailure(op: Operation, f: Failure): Outcome
  {
    if (op.GetProducts? || op.GetTickerBySymbol?) && f.Response? && f.status == 429 then
      RetryAfter(RetryDelay(f.retryAfter))
    else Throw(HandleError(f))
  }

  /** Only the two read operations retry, only on 429, after the header's
      delay; every other failure throws the classified message. */
  lemma OnFailureRetriesOnlyRateLimits(op: Operation, f: Failure)
    ensures OnFailure(op, f).RetryAfter? <==>
      (op == GetProducts || op.GetTickerBySymbol?) && f.Response? && f.status == 429
    ensures OnFailure(op, f).RetryAfter? ==> OnFailure(op, f).delay == RetryDelay(f.retryAfter)
    ensures OnFailure(op, f).Throw? ==> OnFailure(op, f).message == Render(Classify(f))
  {
  }

  /** A rate-limited read waits the header's number of seconds, or five
      seconds without the header: `retry-after: N` retries after N thousand
      milliseconds. */
  lemma OnFailureWaits(op: Operation, f: Failure, n: nat)
    requires (op.GetProducts? || op.GetTickerBySymbol?) && f.Response? && f.status == 429
    ensures f.retryAfter == NatToDecimal(n) ==> OnFailure(op, f) == RetryAfter(Some(n * 1000))
    ensures f.retryAfter == "" ==> OnFailure(op, f) == RetryAfter(Some(5000))
  {
    RetryDelaySeconds(n);
  }
}
