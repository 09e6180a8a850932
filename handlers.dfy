/**
 * The gateway client: the transactions URL, the `Authorization` header, the
 * retrying `callAPI`, the bodies and endpoints of every gateway operation,
 * and the two ways of initiating a transaction (MIT: a direct authorization;
 * CIT: a payment-page initialisation with redirect and webhook URLs).
 *
 * The transport is an input: a call is given the sequence of outcomes its
 * successive attempts would meet, and returns the result, the number of
 * attempts made and the delays waited between them.
 */
module Handlers {
  import opened Common
  import opened Strings
  import opened Json
  import opened Config
  import Base64

  const BaseUrl: string := "https://api.sandbox.datatrans.com/v1/transactions"
  const DefaultRetries: nat := 5
  const DefaultBackoff: nat := 1000

  // ---------------------------------------------------------------- URL and header

  /** The URL `callAPI` targets: the transactions base, then `/endpoint` unless the endpoint is empty. */
  function TransactionUrl(endpoint: string): (url: string)
    ensures StartsWith(url, BaseUrl)
    ensures endpoint == "" <==> url == BaseUrl
    ensures endpoint != "" ==> |url| == |BaseUrl| + 1 + |endpoint| && url[|BaseUrl|] == '/'
  {
    BaseUrl + (if endpoint != "" then "/" + endpoint else "")
  }

  /** Recovers the endpoint from a transactions URL: the base alone, or the base, `/` and the endpoint. */
  function EndpointOf(url: string): Option<string>
    requires StartsWith(url, BaseUrl)
  {
    if |url| == |BaseUrl| then Some("")
    else if url[|BaseUrl|] == '/' then Some(url[|BaseUrl| + 1..])
    else None
  }

  /** Different endpoints are sent to different URLs: the URL names its endpoint. */
  lemma TransactionUrlRoundTrip(endpoint: string)
    ensures EndpointOf(TransactionUrl(endpoint)) == Some(endpoint)
  {
    if endpoint != "" {
      var url := TransactionUrl(endpoint);
      assert url[|BaseUrl| + 1..] == endpoint;
    }
  }

  /** `Basic ` followed by the Base64 of the UTF-8 bytes of `merchantId:password`. */
  function AuthHeader(merchantId: string, password: string): (h: string)
    ensures StartsWith(h, "Basic ")
  {
    "Basic " + Base64.Encode(Base64.Utf8(merchantId + ":" + password))
  }

  /** The header carries exactly the credential bytes (section 2 of RFC 7617). */
  lemma AuthHeaderCarriesCredentials(merchantId: string, password: string)
    ensures var h := AuthHeader(merchantId, password);
            Base64.Decode(h[6..]) == Some(Base64.Utf8(merchantId + ":" + password))
  {
    var bytes := Base64.Utf8(merchantId + ":" + password);
    assert AuthHeader(merchantId, password)[6..] == Base64.Encode(bytes);
    Base64.DecodeEncode(bytes);
  }

  // ---------------------------------------------------------------- callAPI

  /** What the code reads of a gateway response: status, `data.transactionId`, `headers.location`. */
  datatype Response = Response(status: int, transactionId: Option<string>, location: Option<string>)

  /** A thrown error: the HTTP response if there was one (`error.response`), and `error.message`. */
  datatype ApiError = ApiError(response: Option<Response>, message: string)

  /** What one attempt meets: a resolved (2xx) response, or a rejection. */
  datatype Attempt = Resolved(response: Response) | Rejected(error: ApiError)

  /** The result of `callAPI`, with the attempts it made and the delays it waited. */
  datatype Call = Call(result: Result<Response, ApiError>, attempts: nat, delays: seq<nat>)

  /** A rejection that `callAPI` returns as a response: HTTP 400 on the `authorize` endpoint. */
  predicate IsDecline(endpoint: string, e: ApiError) {
    e.response.Some? && e.response.value.status == 400 && endpoint == "authorize"
  }

  /** An attempt after which `callAPI` retries, if budget remains. */
  predicate Retryable(endpoint: string, a: Attempt) {
    a.Rejected? && !IsDecline(endpoint, a.error)
  }

  /** What a call returns when it stops at attempt `a`. */
  function Settled(endpoint: string, a: Attempt): Result<Response, ApiError> {
    match a
    case Resolved(resp) => Ok(resp)
    case Rejected(e) => if IsDecline(endpoint, e) then Ok(e.response.value) else Err(e)
  }

  function Pow2(n: nat): (p: nat)
    ensures p >= 1
  {
    if n == 0 then 1 else 2 * Pow2(n - 1)
  }

  /** The waits before `n` retries that start at `backoff` and double each time. */
  function Delays(backoff: nat, n: nat): (d: seq<nat>)
    ensures |d| == n
    decreases n
  {
    if n == 0 then [] else [backoff] + Delays(backoff * 2, n - 1)
  }

  /** The wait before retry i + 1 is `backoff * 2^i`. */
  lemma {:induction false} DelaysAt(backoff: nat, n: nat, i: nat)
    requires i < n
    ensures Delays(backoff, n)[i] == backoff * Pow2(i)
    decreases i
  {
    if i > 0 {
      DelaysAt(backoff * 2, n - 1, i - 1);
      var p := Pow2(i - 1);
      assert Pow2(i) == 2 * p;
      assert Delays(backoff, n)[i] == Delays(backoff * 2, n - 1)[i - 1];
      assert (backoff * 2) * p == backoff * (2 * p);
    }
  }

  /**
   * `callAPI(…, retries, backoff)`: the first attempt that resolves, or is an
   * `authorize` decline, ends the call; any other rejection is retried after
   * `backoff` ms with the budget one smaller and the backoff doubled, and
   * rethrown once the budget is spent. `outcomes[i]` is what attempt i meets.
   */
  function CallApi(endpoint: string, outcomes: seq<Attempt>, retries: nat, backoff: nat): (c: Call)
    requires |outcomes| > retries
    decreases retries
    ensures 1 <= c.attempts <= retries + 1
    ensures forall i :: 0 <= i < c.attempts - 1 ==> Retryable(endpoint, outcomes[i])
    ensures c.attempts <= retries ==> !Retryable(endpoint, outcomes[c.attempts - 1])
    ensures c.result == Settled(endpoint, outcomes[c.attempts - 1])
    ensures c.delays == Delays(backoff, c.attempts - 1)
  {
    match outcomes[0]
    case Resolved(resp) => Call(Ok(resp), 1, [])
    case Rejected(e) =>
      if IsDecline(endpoint, e) then Call(Ok(e.response.value), 1, [])
      else if retries == 0 then Call(Err(e), 1, [])
      else
        var rest := CallApi(endpoint, outcomes[1..], retries - 1, backoff * 2);
        Call(rest.result, rest.attempts + 1, [backoff] + rest.delays)
  }

  /** A call errs only after spending the whole budget on retryable failures, and rethrows the last. */
  lemma CallApiErrs(endpoint: string, outcomes: seq<Attempt>, retries: nat, backoff: nat)
    requires |outcomes| > retries
    ensures var c := CallApi(endpoint, outcomes, retries, backoff);
            c.result.Err? <==> (forall i :: 0 <= i <= retries ==> Retryable(endpoint, outcomes[i]))
    ensures var c := CallApi(endpoint, outcomes, retries, backoff);
            c.result.Err? ==> c.attempts == retries + 1 && c.result.error == outcomes[retries].error
  {
    var c := CallApi(endpoint, outcomes, retries, backoff);
    if forall i :: 0 <= i <= retries ==> Retryable(endpoint, outcomes[i]) {
      assert Retryable(endpoint, outcomes[c.attempts - 1]);
    }
  }

  /** With the defaults: six attempts, then the last failure, after waits of 1, 2, 4, 8 and 16 seconds. */
  lemma DefaultScheduleWhenAllFail(endpoint: string, outcomes: seq<Attempt>)
    requires |outcomes| > DefaultRetries
    requires forall i :: 0 <= i <= DefaultRetries ==> Retryable(endpoint, outcomes[i])
    ensures var c := CallApi(endpoint, outcomes, DefaultRetries, DefaultBackoff);
            && c.attempts == 6
            && c.delays == [1000, 2000, 4000, 8000, 16000]
            && outcomes[5].Rejected? && c.result == Err(outcomes[5].error)
  {
    CallApiErrs(endpoint, outcomes, DefaultRetries, DefaultBackoff);
    assert Delays(1000, 5) == [1000, 2000, 4000, 8000, 16000];
  }

  /** A 400 on `authorize` is returned at once as the response, whatever budget remains. */
  lemma AuthorizeDeclineNotRetried(outcomes: seq<Attempt>, retries: nat, backoff: nat, r: Response)
    requires |outcomes| > retries && r.status == 400
    requires outcomes[0].Rejected? && outcomes[0].error.response == Some(r)
    ensures CallApi("authorize", outcomes, retries, backoff) == Call(Ok(r), 1, [])
  {
  }

  /** A 400 on any other endpoint is retried like every other failure. */
  lemma OtherBadRequestRetried(endpoint: string, outcomes: seq<Attempt>, retries: nat, backoff: nat)
    requires |outcomes| > retries && retries > 0 && endpoint != "authorize"
    requires outcomes[0].Rejected? && outcomes[0].error.response.Some?
    requires outcomes[0].error.response.value.status == 400
    ensures CallApi(endpoint, outcomes, retries, backoff).attempts >= 2
    ensures CallApi(endpoint, outcomes, retries, backoff).delays[..1] == [backoff]
  {
  }

  // ---------------------------------------------------------------- dependent operations

  /** The operations on an authorised transaction that the flows issue. */
  datatype Operation =
    | Capture(amount: real, refNo: string)
    | Cancel
    | Credit(amount: real, refNo: string)
    | Increase(amount: real, refNo: string)

  /** A request: the endpoint below the transactions URL and the JSON body. */
  datatype Request = Request(endpoint: string, body: Json)

  /** How a template literal prints a possibly undefined string. */
  function Text(s: Option<string>): string {
    if s.Some? then s.value else "undefined"
  }

  function OptStr(s: Option<string>): Option<Json> {
    if s.Some? then Some(JStr(s.value)) else None
  }

  function Action(op: Operation): string {
    match op
    case Capture(_, _) => "settle"
    case Cancel => "cancel"
    case Credit(_, _) => "credit"
    case Increase(_, _) => "increase"
  }

  /** `{amount, currency, refno}`; an undefined currency is dropped when serialised. */
  function AmountBody(amount: real, currency: Option<string>, refNo: string): Json {
    JObj(PutDefined(map["amount" := JNum(amount), "refno" := JStr(refNo)], "currency", OptStr(currency)))
  }

  /** The request `capture`, `cancel`, `credit` or `increase` posts for the transaction. */
  function OperationRequest(transactionId: Option<string>, currency: Option<string>, op: Operation): (r: Request)
    ensures r.endpoint == Text(transactionId) + "/" + Action(op)
    ensures op.Cancel? ==> r.body == JObj(map[])
    ensures !op.Cancel? ==> r.body.JObj?
                            && r.body.fields.Keys == {"amount", "refno"} + (if currency.Some? then {"currency"} else {})
                            && r.body.fields["amount"] == JNum(op.amount)
                            && r.body.fields["refno"] == JStr(op.refNo)
                            && (currency.Some? ==> r.body.fields["currency"] == JStr(currency.value))
  {
    var endpoint := Text(transactionId) + "/" + Action(op);
    match op
    case Cancel => Request(endpoint, JObj(map[]))
    case Capture(amount, refNo) => Request(endpoint, AmountBody(amount, currency, refNo))
    case Credit(amount, refNo) => Request(endpoint, AmountBody(amount, currency, refNo))
    case Increase(amount, refNo) => Request(endpoint, AmountBody(amount, currency, refNo))
  }

  /** The request names its operation: two operations on one transaction never send the same request. */
  lemma OperationRequestInjective(transactionId: Option<string>, currency: Option<string>, a: Operation, b: Operation)
    requires OperationRequest(transactionId, currency, a) == OperationRequest(transactionId, currency, b)
    ensures a == b
  {
    var p := Text(transactionId) + "/";
    var ra := OperationRequest(transactionId, currency, a);
    var rb := OperationRequest(transactionId, currency, b);
    assert ra.endpoint[|p|..] == Action(a) && rb.endpoint[|p|..] == Action(b);
    if !a.Cancel? && !b.Cancel? {
      assert ra.body.fields["amount"] == rb.body.fields["amount"];
      assert ra.body.fields["refno"] == rb.body.fields["refno"];
    }
  }

  // ---------------------------------------------------------------- initiation

  /** `initiateFlow` sends flow types starting with `CIT` to `initCIT`, the others to `authorizeMIT`. */
  predicate IsCustomerInitiated(flowType: string) {
    StartsWith(flowType, "CIT")
  }

  /** MIT `autoSettle`: the flow type mentions `autocapture` (any case) and the instrument is a card. */
  predicate MitAutoSettle(flowType: string, pm: PaymentMethod) {
    Includes(ToLower(flowType), "autocapture") && pm.kind == "card"
  }

  /** CIT `autoSettle`: the flow type mentions `autocapture` (any case). */
  predicate CitAutoSettle(flowType: string) {
    Includes(ToLower(flowType), "autocapture")
  }

  /** The two routes agree except that MIT settles automatically only for cards. */
  lemma AutoSettleRoutes(flowType: string, pm: PaymentMethod)
    ensures MitAutoSettle(flowType, pm) <==> CitAutoSettle(flowType) && pm.kind == "card"
  {
  }

  /** The payload entries of an instrument, as they stand. */
  function PayloadEntries(pm: PaymentMethod): Option<map<string, Json>>
    reads if pm.payload.Some? then {pm.payload.value} else {}
  {
    if pm.payload.Some? then Some(pm.payload.value.entries) else None
  }

  /** The payment-method object of the MIT body: the alias, a card's expiry, and the payload if any. */
  function MitInstrument(pm: PaymentMethod, payload: Option<map<string, Json>>): (inner: map<string, Json>)
    ensures inner.Keys == {"alias"} + (if pm.kind == "card" then {"expiryMonth", "expiryYear"} else {})
                          + (if payload.Some? then {"payload"} else {})
    ensures inner["alias"] == JStr(pm.alias)
    ensures pm.kind == "card" ==> inner["expiryMonth"] == JStr(pm.expiryMonth) && inner["expiryYear"] == JStr(pm.expiryYear)
    ensures payload.Some? ==> inner["payload"] == JObj(payload.value)
  {
    var card := if pm.kind == "card"
                then map["expiryMonth" := JStr(pm.expiryMonth), "expiryYear" := JStr(pm.expiryYear)]
                else map[];
    var inner := map["alias" := JStr(pm.alias)] + card;
    if payload.Some? then inner["payload" := JObj(payload.value)] else inner
  }

  /**
   * The `authorizeMIT` body: `refno`, `amount`, `currency`, `autoSettle`, then
   * under the key named by the instrument type its alias, the card expiry for
   * cards and the instrument's payload when it has one.
   */
  function MitBody(refNo: string, amount: int, currency: Option<string>, pm: PaymentMethod,
                   flowType: string, payload: Option<map<string, Json>>): (b: Json)
    ensures b.JObj? && pm.kind in b.fields && b.fields[pm.kind] == JObj(MitInstrument(pm, payload))
    ensures b.fields.Keys == {"refno", "amount", "autoSettle", pm.kind} + (if currency.Some? then {"currency"} else {})
    ensures pm.kind !in {"refno", "amount", "currency", "autoSettle"} ==>
            && b.fields["refno"] == JStr(refNo)
            && b.fields["amount"] == JNum(amount as real)
            && b.fields["autoSettle"] == JBool(MitAutoSettle(flowType, pm))
            && (currency.Some? ==> b.fields["currency"] == JStr(currency.value))
  {
    var fields := map["refno" := JStr(refNo), "amount" := JNum(amount as real)];
    var fields := PutDefined(fields, "currency", OptStr(currency));
    var fields := fields["autoSettle" := JBool(MitAutoSettle(flowType, pm))];
    JObj(fields[pm.kind := JObj(MitInstrument(pm, payload))])
  }

  /** What `authorizeMIT` returns: `response.data` (even for a decline), or `null`. */
  datatype Authorization = Null | Data(status: int, transactionId: Option<string>)

  /** What `authorizeMIT` posts, and what it answers. */
  datatype MitCall = MitCall(sent: Request, answer: Result<Authorization, ApiError>)

  /**
   * `authorizeMIT`: posts the MIT body to `authorize`; returns the response's
   * data, a decline's included; turns a thrown 400 into `null`; rethrows the rest.
   */
  function AuthorizeMit(refNo: string, amount: int, currency: Option<string>, pm: PaymentMethod,
                        flowType: string, outcomes: seq<Attempt>): (c: MitCall)
    requires |outcomes| > DefaultRetries
    reads if pm.payload.Some? then {pm.payload.value} else {}
    ensures c.sent == Request("authorize", MitBody(refNo, amount, currency, pm, flowType, PayloadEntries(pm)))
    ensures var call := CallApi("authorize", outcomes, DefaultRetries, DefaultBackoff);
            && (c.answer.Ok? && c.answer.value.Data? <==> call.result.Ok?)
            && (call.result.Ok? ==> c.answer.value == Data(call.result.value.status, call.result.value.transactionId))
            && (c.answer.Err? ==> call.result == Err(c.answer.error) && !IsDecline("authorize", c.answer.error))
            && (call.result.Err? && IsDecline("authorize", call.result.error) ==> c.answer == Ok(Null))
            && (call.result.Err? && !IsDecline("authorize", call.result.error) ==> c.answer == Err(call.result.error))
  {
    var body := MitBody(refNo, amount, currency, pm, flowType, PayloadEntries(pm));
    var call := CallApi("authorize", outcomes, DefaultRetries, DefaultBackoff);
    var answer :=
      match call.result
      case Ok(resp) => Ok(Data(resp.status, resp.transactionId))
      case Err(e) =>
        if e.response.Some? && e.response.value.status == 400 then Ok(Null)
        else Err(e);
    MitCall(Request("authorize", body), answer)
  }

  /**
   * The `null` branch of `authorizeMIT` is dead: `callAPI` already returns a
   * 400 on `authorize` as a response, so no thrown error has status 400.
   * A declined authorisation comes back as data with status 400.
   */
  lemma AuthorizeMitNeverNull(refNo: string, amount: int, currency: Option<string>, pm: PaymentMethod,
                              flowType: string, outcomes: seq<Attempt>)
    requires |outcomes| > DefaultRetries
    ensures AuthorizeMit(refNo, amount, currency, pm, flowType, outcomes).answer != Ok(Null)
    ensures outcomes[0].Rejected? && outcomes[0].error.response.Some?
            && outcomes[0].error.response.value.status == 400 ==>
            AuthorizeMit(refNo, amount, currency, pm, flowType, outcomes).answer
              == Ok(Data(400, outcomes[0].error.response.value.transactionId))
  {
    var c := CallApi("authorize", outcomes, DefaultRetries, DefaultBackoff);
    if c.result.Err? {
      assert Retryable("authorize", outcomes[c.attempts - 1]);
    }
  }

  datatype RedirectUrls = RedirectUrls(successUrl: string, errorUrl: string, cancelUrl: string)

  /** The redirect URLs with the first `:refNo` of each replaced by the reference. */
  function CitRedirects(urls: Urls, refNo: string): RedirectUrls {
    RedirectUrls(ReplaceFirst(urls.success, ":refNo", refNo),
                 ReplaceFirst(urls.error, ":refNo", refNo),
                 ReplaceFirst(urls.cancel, ":refNo", refNo))
  }

  /** The webhook URL with its first `:refNo` replaced by the reference. */
  function CitWebhook(urls: Urls, refNo: string): string {
    ReplaceFirst(urls.webhook, ":refNo", refNo)
  }

  /** A URL template keeps everything around its first `:refNo`, which becomes the reference. */
  lemma RefNoSubstituted(template: string, refNo: string)
    requires Includes(template, ":refNo")
    ensures exists i: nat :: && OccursAt(template, ":refNo", i)
                             && (forall j: nat :: j < i ==> !OccursAt(template, ":refNo", j))
                             && ReplaceFirst(template, ":refNo", refNo) == template[..i] + refNo + template[i + 6..]
  {
  }

  /** The body holds `v` under `key`, unless the payload spread over it has its own `key`. */
  predicate Unless(fields: map<string, Json>, payload: Option<map<string, Json>>, key: string, v: Json) {
    payload.None? || key !in payload.value ==> key in fields && fields[key] == v
  }

  /**
   * The `initCIT` body: currency, reference, the one payment method (the card
   * brand for cards, the type otherwise), redirect and webhook URLs, amount
   * and `autoSettle`, with the instrument's payload spread over them (a
   * payload key overrides a fixed one of the same name).
   */
  function CitBody(currency: Option<string>, refNo: string, amount: int, pm: PaymentMethod,
                   redirect: RedirectUrls, webhook: string, flowType: string,
                   payload: Option<map<string, Json>>): (b: Json)
    ensures b.JObj?
    ensures b.fields.Keys == {"refno", "paymentMethods", "redirect", "webhook", "amount", "autoSettle"}
                             + (if currency.Some? then {"currency"} else {})
                             + (if payload.Some? then payload.value.Keys else {})
    ensures payload.Some? ==> forall k :: k in payload.value ==> b.fields[k] == payload.value[k]
    ensures Unless(b.fields, payload, "refno", JStr(refNo))
    ensures Unless(b.fields, payload, "amount", JNum(amount as real))
    ensures currency.Some? ==> Unless(b.fields, payload, "currency", JStr(currency.value))
    ensures Unless(b.fields, payload, "paymentMethods", JArr([JStr(if pm.kind == "card" then pm.brand else pm.kind)]))
    ensures Unless(b.fields, payload, "redirect", JObj(map["successUrl" := JStr(redirect.successUrl),
                                                           "errorUrl" := JStr(redirect.errorUrl),
                                                           "cancelUrl" := JStr(redirect.cancelUrl)]))
    ensures Unless(b.fields, payload, "webhook", JStr(webhook))
    ensures Unless(b.fields, payload, "autoSettle", JBool(CitAutoSettle(flowType)))
  {
    var fixed := CitFixedFields(currency, refNo, amount, pm, redirect, webhook, flowType);
    JObj(if payload.Some? then fixed + payload.value else fixed)
  }

  /** The fields of the `initCIT` body before the payload is spread over them. */
  function CitFixedFields(currency: Option<string>, refNo: string, amount: int, pm: PaymentMethod,
                          redirect: RedirectUrls, webhook: string, flowType: string): (f: map<string, Json>)
    ensures f.Keys == {"refno", "paymentMethods", "redirect", "webhook", "amount", "autoSettle"}
                      + (if currency.Some? then {"currency"} else {})
    ensures f["refno"] == JStr(refNo) && f["amount"] == JNum(amount as real)
    ensures currency.Some? ==> f["currency"] == JStr(currency.value)
    ensures f["paymentMethods"] == JArr([JStr(if pm.kind == "card" then pm.brand else pm.kind)])
    ensures f["redirect"] == JObj(map["successUrl" := JStr(redirect.successUrl),
                                      "errorUrl" := JStr(redirect.errorUrl),
                                      "cancelUrl" := JStr(redirect.cancelUrl)])
    ensures f["webhook"] == JStr(webhook) && f["autoSettle"] == JBool(CitAutoSettle(flowType))
  {
    var fixed := map[
      "refno" := JStr(refNo),
      "paymentMethods" := JArr([JStr(if pm.kind == "card" then pm.brand else pm.kind)]),
      "redirect" := JObj(map["successUrl" := JStr(redirect.successUrl),
                             "errorUrl" := JStr(redirect.errorUrl),
                             "cancelUrl" := JStr(redirect.cancelUrl)]),
      "webhook" := JStr(webhook),
      "amount" := JNum(amount as real),
      "autoSettle" := JBool(CitAutoSettle(flowType))];
    PutDefined(fixed, "currency", OptStr(currency))
  }

  // ---------------------------------------------------------------- article prices

  /** One article after `article.price = amount`; None when the article is `null` (a TypeError). */
  function Priced(article: Json, amount: int): Option<Json> {
    match article
    case JNull => None
    case JObj(f) => Some(JObj(f["price" := JNum(amount as real)]))
    case _ => Some(article)
  }

  /**
   * The articles after the `forEach` reached index `n`: those before it
   * priced, the rest untouched.
   */
  function PricedUpTo(articles: seq<Json>, amount: int, n: nat): (r: seq<Json>)
    requires n <= |articles|
    requires forall i :: 0 <= i < n ==> articles[i] != JNull
    ensures |r| == |articles|
    ensures forall i :: 0 <= i < n ==> Some(r[i]) == Priced(articles[i], amount)
    ensures forall i :: n <= i < |articles| ==> r[i] == articles[i]
  {
    seq(|articles|, i requires 0 <= i < |articles| =>
      if i < n then Priced(articles[i], amount).value else articles[i])
  }

  /** The index of the first `null` article, or the number of articles. */
  function FirstNull(articles: seq<Json>): (n: nat)
    ensures n <= |articles|
    ensures forall i :: 0 <= i < n ==> articles[i] != JNull
    ensures n < |articles| ==> articles[n] == JNull
  {
    if articles == [] then 0
    else if articles[0] == JNull then 0
    else 1 + FirstNull(articles[1..])
  }

  /** `payload.order` is set to something truthy, so `initCIT` rewrites its articles. */
  predicate HasOrder(entries: map<string, Json>) {
    "order" in entries && Truthy(entries["order"])
  }

  /** `payload.order.articles` is an array. */
  predicate HasArticles(entries: map<string, Json>) {
    HasOrder(entries) && entries["order"].JObj? && "articles" in entries["order"].fields
    && entries["order"].fields["articles"].JArr?
  }

  function Articles(entries: map<string, Json>): seq<Json>
    requires HasArticles(entries)
  {
    entries["order"].fields["articles"].items
  }

  function WithArticles(entries: map<string, Json>, articles: seq<Json>): (r: map<string, Json>)
    requires HasArticles(entries)
    ensures HasArticles(r) && Articles(r) == articles
    ensures r.Keys == entries.Keys
    ensures forall k :: k in entries && k != "order" ==> r[k] == entries[k]
    ensures r["order"].fields.Keys == entries["order"].fields.Keys
    ensures forall k :: k in entries["order"].fields && k != "articles" ==>
              r["order"].fields[k] == entries["order"].fields[k]
  {
    var order := entries["order"].fields;
    entries["order" := JObj(order["articles" := JArr(articles)])]
  }

  /** The payload entries after the `forEach` of `initCIT` has run (or thrown). */
  function PricesRewritten(entries: map<string, Json>, amount: int): (r: map<string, Json>)
    requires HasOrder(entries)
  {
    if !HasArticles(entries) then entries
    else
      var articles := Articles(entries);
      WithArticles(entries, PricedUpTo(articles, amount, FirstNull(articles)))
  }

  /**
   * The TypeError of `order.articles.forEach` when `articles` is no array:
   * it is undefined (the order is no object or has no such field), `null`,
   * or a value without a `forEach` method.
   */
  function ForEachError(order: Json): string {
    if !order.JObj? || "articles" !in order.fields then "Cannot read properties of undefined (reading 'forEach')"
    else if order.fields["articles"].JNull? then "Cannot read properties of null (reading 'forEach')"
    else "paymentMethod.payload.order.articles.forEach is not a function"
  }

  const NullArticleError := "Cannot set properties of null (setting 'price')"

  /** The message of the TypeError the rewrite throws. */
  function RewriteError(entries: map<string, Json>): string
    requires HasOrder(entries)
  {
    if !HasArticles(entries) then ForEachError(entries["order"]) else NullArticleError
  }

  /** The `forEach` throws: there is no articles array, or one article is `null`. */
  predicate RewriteThrows(entries: map<string, Json>)
    requires HasOrder(entries)
  {
    !HasArticles(entries) || FirstNull(Articles(entries)) < |Articles(entries)|
  }

  /**
   * When the rewrite completes, every article object has `price == amount`
   * and nothing else of the payload changed: the other keys, the other
   * fields of the order and of each article, the non-object articles.
   */
  lemma ArticlePricesRewritten(entries: map<string, Json>, amount: int)
    requires HasOrder(entries) && !RewriteThrows(entries)
    ensures var r := PricesRewritten(entries, amount);
            var (before, after) := (Articles(entries), Articles(r));
            && r.Keys == entries.Keys
            && (forall k :: k in entries && k != "order" ==> r[k] == entries[k])
            && (forall k :: k in entries["order"].fields && k != "articles" ==>
                  k in r["order"].fields && r["order"].fields[k] == entries["order"].fields[k])
            && |after| == |before|
            && (forall i :: 0 <= i < |before| && before[i].JObj? ==>
                  after[i] == JObj(before[i].fields["price" := JNum(amount as real)]))
            && (forall i :: 0 <= i < |before| && !before[i].JObj? ==> after[i] == before[i])
  {
    var before := Articles(entries);
    var after := Articles(PricesRewritten(entries, amount));
    forall i | 0 <= i < |before|
      ensures before[i].JObj? ==> after[i] == JObj(before[i].fields["price" := JNum(amount as real)])
      ensures !before[i].JObj? ==> after[i] == before[i]
    {
      assert Some(after[i]) == Priced(before[i], amount);
    }
  }

  /**
   * The `forEach` of `initCIT` over `payload.order.articles`: each article's
   * price becomes `amount`, in place. A `null` article throws, leaving the
   * articles before it already rewritten; an order without an articles array
   * throws before any is.
   */
  method RewriteArticlePrices(p: MethodPayload, amount: int) returns (error: Option<string>)
    requires HasOrder(p.entries)
    modifies p
    ensures p.entries == PricesRewritten(old(p.entries), amount)
    ensures error.Some? <==> RewriteThrows(old(p.entries))
    ensures error.Some? ==> error.value == RewriteError(old(p.entries))
  {
    if !HasArticles(p.entries) {
      return Some(ForEachError(p.entries["order"]));
    }
    var articles := Articles(p.entries);
    var original := p.entries;
    var order := original["order"].fields;
    assert order["articles" := JArr(articles)] == order;
    assert original["order" := JObj(order)] == original;
    var i := 0;
    while i < |articles|
      invariant 0 <= i <= |articles| && |articles| == |Articles(original)|
      invariant forall j :: 0 <= j < i ==> Articles(original)[j] != JNull
      invariant articles == PricedUpTo(Articles(original), amount, i)
      invariant p.entries == WithArticles(original, articles)
    {
      var priced := Priced(articles[i], amount);
      if priced.None? {
        assert FirstNull(Articles(original)) == i;
        return Some(NullArticleError);
      }
      articles := articles[i := priced.value];
      p.entries := WithArticles(original, articles);
      i := i + 1;
    }
    assert FirstNull(Articles(original)) == |articles|;
    error := None;
  }

  // ---------------------------------------------------------------- initCIT and initiateFlow

  /** What `initCIT` returns. */
  datatype CitInit = CitInit(transactionId: Option<string>, paymentPageUrl: Option<string>, redirectUrls: RedirectUrls)

  /** The objects an instrument's initiation may change: its payload. */
  function PayloadFrame(pm: PaymentMethod): set<object> {
    if pm.payload.Some? then {pm.payload.value} else {}
  }

  /** `initCIT`'s answer once the body has been posted. */
  function CitResult(redirect: RedirectUrls, outcomes: seq<Attempt>): Result<CitInit, ApiError>
    requires |outcomes| > DefaultRetries
  {
    match CallApi("", outcomes, DefaultRetries, DefaultBackoff).result
    case Ok(resp) => Ok(CitInit(resp.transactionId, resp.location, redirect))
    case Err(e) => Err(e)
  }

  /**
   * `initCIT`: builds the redirect and webhook URLs, rewrites the prices of
   * the order's articles in the instrument's payload in place, and posts the
   * CIT body to the transactions URL. An error of the rewrite propagates
   * before anything is posted; `sent` is the body posted, if any.
   */
  method InitCit(m: MerchantConfig, refNo: string, amount: int, currency: Option<string>, pm: PaymentMethod,
                 flowType: string, outcomes: seq<Attempt>) returns (r: Result<CitInit, ApiError>, sent: Option<Json>)
    requires |outcomes| > DefaultRetries
    modifies PayloadFrame(pm)
    ensures pm.payload.None? || !HasOrder(old(pm.payload.value.entries)) ==> unchanged(PayloadFrame(pm))
    ensures pm.payload.Some? && HasOrder(old(pm.payload.value.entries)) ==>
              pm.payload.value.entries == PricesRewritten(old(pm.payload.value.entries), amount)
    ensures pm.payload.Some? && HasOrder(old(pm.payload.value.entries)) && RewriteThrows(old(pm.payload.value.entries)) ==>
              r == Err(ApiError(None, RewriteError(old(pm.payload.value.entries)))) && sent.None?
    ensures sent.Some? ==>
              && sent.value == CitBody(currency, refNo, amount, pm, CitRedirects(m.urls, refNo),
                                       CitWebhook(m.urls, refNo), flowType, PayloadEntries(pm))
              && r == CitResult(CitRedirects(m.urls, refNo), outcomes)
    ensures sent.None? ==> pm.payload.Some? && HasOrder(old(pm.payload.value.entries))
                           && RewriteThrows(old(pm.payload.value.entries))
  {
    var redirect := CitRedirects(m.urls, refNo);
    var webhook := CitWebhook(m.urls, refNo);
    if pm.payload.Some? && HasOrder(pm.payload.value.entries) {
      var error := RewriteArticlePrices(pm.payload.value, amount);
      if error.Some? {
        return Err(ApiError(None, error.value)), None;
      }
    }
    var body := CitBody(currency, refNo, amount, pm, redirect, webhook, flowType, PayloadEntries(pm));
    sent := Some(body);
    r := CitResult(redirect, outcomes);
  }

  /** What `initiateFlow` returns, by route. */
  datatype Initiated = Customer(init: Result<CitInit, ApiError>) | Merchant(auth: Result<Authorization, ApiError>)

  /**
   * `initiateFlow`: `CIT…` flow types go through `initCIT`, all others through
   * `authorizeMIT`; `sent` is the request posted, if any.
   */
  method InitiateFlow(m: MerchantConfig, flowType: string, refNo: string, amount: int, currency: Option<string>,
                      pm: PaymentMethod, outcomes: seq<Attempt>) returns (r: Initiated, sent: Option<Request>)
    requires |outcomes| > DefaultRetries
    modifies PayloadFrame(pm)
    ensures r.Customer? <==> IsCustomerInitiated(flowType)
    ensures !IsCustomerInitiated(flowType) ==>
              && unchanged(PayloadFrame(pm))
              && r == Merchant(AuthorizeMit(refNo, amount, currency, pm, flowType, outcomes).answer)
              && sent == Some(AuthorizeMit(refNo, amount, currency, pm, flowType, outcomes).sent)
    ensures IsCustomerInitiated(flowType) && (pm.payload.None? || !HasOrder(old(pm.payload.value.entries))) ==>
              unchanged(PayloadFrame(pm))
    ensures IsCustomerInitiated(flowType) && pm.payload.Some? && HasOrder(old(pm.payload.value.entries)) ==>
              pm.payload.value.entries == PricesRewritten(old(pm.payload.value.entries), amount)
    ensures IsCustomerInitiated(flowType) && pm.payload.Some? && HasOrder(old(pm.payload.value.entries))
            && RewriteThrows(old(pm.payload.value.entries)) ==>
              r.init == Err(ApiError(None, RewriteError(old(pm.payload.value.entries)))) && sent.None?
    ensures IsCustomerInitiated(flowType) && sent.Some? ==>
              && sent.value == Request("", CitBody(currency, refNo, amount, pm, CitRedirects(m.urls, refNo),
                                                   CitWebhook(m.urls, refNo), flowType, PayloadEntries(pm)))
              && r.init == CitResult(CitRedirects(m.urls, refNo), outcomes)
    ensures IsCustomerInitiated(flowType) && sent.None? ==>
              pm.payload.Some? && HasOrder(old(pm.payload.value.entries)) && RewriteThrows(old(pm.payload.value.entries))
  {
    if IsCustomerInitiated(flowType) {
      var init, body := InitCit(m, refNo, amount, currency, pm, flowType, outcomes);
      r := Customer(init);
      sent := if body.Some? then Some(Request("", body.value)) else None;
    } else {
      var call := AuthorizeMit(refNo, amount, currency, pm, flowType, outcomes);
      r := Merchant(call.answer);
      sent := Some(call.sent);
    }
  }
}
