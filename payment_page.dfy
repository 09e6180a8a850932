/**
 * The decisions of the hosted payment page session: which checkout handler
 * an instrument gets, what a card handler types, which one-time code answers
 * a 3-D Secure challenge, and whether the page the browser ends on is one of
 * the merchant's redirect URLs. Driving the browser is not part of this model.
 */
module PaymentPage {
  import opened Common
  import opened Strings
  import opened Config
  import opened Handlers

  /** The checkout handlers. */
  datatype Checkout = Cards | PayPal | Klarna | PostFinanceCard

  const SessionPrefix := "Error during browser session: "

  /** The switch on the upper-cased instrument type; any other type is unsupported. */
  function Dispatch(kind: string): (r: Result<Checkout, string>)
    ensures r == Ok(Cards) <==> ToUpper(kind) == "CARD"
    ensures r == Ok(PayPal) <==> ToUpper(kind) == "PAP"
    ensures r == Ok(Klarna) <==> ToUpper(kind) == "KLN"
    ensures r == Ok(PostFinanceCard) <==> ToUpper(kind) == "PFC"
    ensures r.Err? ==> r.error == "Unsupported payment method: " + kind
  {
    var key := ToUpper(kind);
    if key == "CARD" then Ok(Cards)
    else if key == "PAP" then Ok(PayPal)
    else if key == "KLN" then Ok(Klarna)
    else if key == "PFC" then Ok(PostFinanceCard)
    else Err("Unsupported payment method: " + kind)
  }

  /** The dispatch ignores the case of the type: `card`, `Card` and `CARD` all reach the card handler. */
  lemma DispatchIgnoresCase(a: string, b: string)
    requires |a| == |b| && forall i :: 0 <= i < |a| ==> UpperChar(a[i]) == UpperChar(b[i])
    ensures Dispatch(a).Ok? ==> Dispatch(a) == Dispatch(b)
    ensures Dispatch(a).Err? <==> Dispatch(b).Err?
  {
    assert ToUpper(a) == ToUpper(b);
  }

  /** The saved type `card` reaches the card handler. */
  lemma CardTypeDispatched()
    ensures Dispatch("card") == Ok(Cards)
  {
    var u := ToUpper("card");
    assert u[0] == 'C' && u[1] == 'A' && u[2] == 'R' && u[3] == 'D';
    assert u == "CARD";
  }

  /** The fields the card handler types, in order: number, expiry, and the CVV unless the brand is CUP. */
  function CardEntries(pm: PaymentMethod): (entries: seq<(string, string)>)
    ensures |entries| == if pm.brand == "CUP" then 2 else 3
    ensures entries[..2] == [("#cardNumber", pm.number), ("#expiry", pm.expiryMonth + pm.expiryYear)]
    ensures ("#cvv", pm.cvv) in entries <==> pm.brand != "CUP"
  {
    [("#cardNumber", pm.number), ("#expiry", pm.expiryMonth + pm.expiryYear)]
    + (if pm.brand != "CUP" then [("#cvv", pm.cvv)] else [])
  }

  /** The card handler answers a 3-D Secure challenge when the page it lands on is the challenge page. */
  predicate ChallengeShown(url: string) {
    Includes(url, "/acs/challenge")
  }

  /**
   * The one-time code typed into the challenge: the instrument's error code
   * for the flow type `decline3DS` exactly, its success code otherwise. An
   * instrument without codes fails the challenge.
   */
  function Otp(flowType: string, codes: Option<ThreeDS>): (r: Result<string, string>)
    ensures codes.Some? && flowType == "decline3DS" ==> r == Ok(codes.value.errorCode)
    ensures codes.Some? && flowType != "decline3DS" ==> r == Ok(codes.value.successCode)
    ensures codes.None? ==> r.Err? && StartsWith(r.error, "3DS challenge failed: ")
  {
    match codes
    case None =>
      var field := if flowType == "decline3DS" then "errorCode" else "successCode";
      var prefix := "3DS challenge failed: ";
      var message := prefix + ("Cannot read properties of undefined (reading '" + field + "')");
      assert message[..|prefix|] == prefix;
      Err(message)
    case Some(c) => Ok(if flowType == "decline3DS" then c.errorCode else c.successCode)
  }

  /**
   * The `CIT-decline3DS` flow type that selects the do-nothing flow handler
   * is not the `decline3DS` that selects the error code, so that flow answers
   * its challenge with the success code.
   */
  lemma DeclineFlowAnswersWithSuccessCode(codes: ThreeDS)
    ensures Otp("CIT-decline3DS", Some(codes)) == Ok(codes.successCode)
  {
    assert "CIT-decline3DS" != "decline3DS" by {
      assert |"CIT-decline3DS"| != |"decline3DS"|;
    }
  }

  /** Whether the final URL contains the part before the first `?` of some pattern. */
  predicate Matches(finalUrl: string, patterns: seq<string>) {
    exists i :: 0 <= i < |patterns| && Includes(finalUrl, BeforeFirst(patterns[i], '?'))
  }

  /**
   * `verifyFinalRedirect`: the final URL, unchanged, when it contains the
   * query-less part of some redirect pattern; the validation error otherwise.
   */
  function VerifyFinalRedirect(finalUrl: string, patterns: seq<string>): (r: Result<string, string>)
    ensures r.Ok? <==> Matches(finalUrl, patterns)
    ensures r.Ok? ==> r.value == finalUrl
    ensures r.Err? ==> r.error == "Final URL validation failed. Actual URL: " + finalUrl
  {
    if Matches(finalUrl, patterns) then Ok(finalUrl)
    else Err("Final URL validation failed. Actual URL: " + finalUrl)
  }

  /** The patterns are the values of the redirect URLs `initCIT` built: success, error and cancel. */
  function RedirectPatterns(redirect: RedirectUrls): seq<string> {
    [redirect.successUrl, redirect.errorUrl, redirect.cancelUrl]
  }

  /** No pattern: every final URL fails. An empty pattern: every final URL passes. */
  lemma RedirectEdgeCases(finalUrl: string, patterns: seq<string>)
    ensures VerifyFinalRedirect(finalUrl, []).Err?
    ensures "" in patterns ==> VerifyFinalRedirect(finalUrl, patterns) == Ok(finalUrl)
  {
    if "" in patterns {
      var i :| 0 <= i < |patterns| && patterns[i] == "";
      IncludesEmpty(finalUrl);
      assert BeforeFirst("", '?') == "";
    }
  }

  /**
   * Landing on any of the redirect URLs, with whatever query the gateway
   * appends, passes: the final URL then starts with that URL's query-less part.
   */
  lemma LandingOnRedirectPasses(finalUrl: string, redirect: RedirectUrls, i: nat)
    requires i < 3 && StartsWith(finalUrl, BeforeFirst(RedirectPatterns(redirect)[i], '?'))
    ensures VerifyFinalRedirect(finalUrl, RedirectPatterns(redirect)) == Ok(finalUrl)
  {
    var p := BeforeFirst(RedirectPatterns(redirect)[i], '?');
    assert OccursAt(finalUrl, p, 0);
    IncludesIff(finalUrl, p);
  }

  /**
   * The card handler's 3-D Secure step fails: the page after the form
   * submission is the challenge page and the instrument has no codes to read.
   */
  predicate ChallengeFails(pm: PaymentMethod, flowType: string, challengeUrl: string) {
    Dispatch(pm.kind) == Ok(Cards) && ChallengeShown(challengeUrl) && Otp(flowType, pm.threeDS).Err?
  }

  /**
   * The session's decisions together: an unsupported type fails before any
   * page is checked; a card whose 3-D Secure challenge cannot be answered
   * fails inside the card handler; otherwise the final URL is verified.
   * Every error is reported inside the session's own message. `challengeUrl`
   * is the page a card handler is on when it looks for the challenge.
   */
  function SessionOutcome(pm: PaymentMethod, flowType: string, challengeUrl: string, finalUrl: string,
                          redirect: RedirectUrls): (r: Result<string, string>)
    ensures Dispatch(pm.kind).Err? ==> r == Err(SessionPrefix + ("Unsupported payment method: " + pm.kind))
    ensures ChallengeFails(pm, flowType, challengeUrl) ==>
              r == Err(SessionPrefix + ("Card payment failed: " + Otp(flowType, pm.threeDS).error))
    ensures r.Ok? <==> Dispatch(pm.kind).Ok? && !ChallengeFails(pm, flowType, challengeUrl)
                       && Matches(finalUrl, RedirectPatterns(redirect))
    ensures r.Ok? ==> r.value == finalUrl
    ensures r.Err? ==> StartsWith(r.error, SessionPrefix)
  {
    match Dispatch(pm.kind)
    case Err(msg) => Err(Wrapped(msg))
    case Ok(checkout) =>
      if checkout == Cards && ChallengeShown(challengeUrl) && Otp(flowType, pm.threeDS).Err? then
        Err(Wrapped("Card payment failed: " + Otp(flowType, pm.threeDS).error))
      else
        match VerifyFinalRedirect(finalUrl, RedirectPatterns(redirect))
        case Ok(url) => Ok(url)
        case Err(msg) => Err(Wrapped(msg))
  }

  /** An error as the session reports it: behind the session's prefix. */
  function Wrapped(msg: string): (w: string)
    ensures w == SessionPrefix + msg && StartsWith(w, SessionPrefix)
  {
    assert (SessionPrefix + msg)[..|SessionPrefix|] == SessionPrefix;
    SessionPrefix + msg
  }

  /**
   * A card without 3-D Secure codes that meets the challenge fails the
   * session, even when the browser ends on the merchant's success URL.
   */
  lemma MissingCodesFailSession(pm: PaymentMethod, flowType: string, challengeUrl: string, redirect: RedirectUrls)
    requires pm.kind == "card" && pm.threeDS.None? && ChallengeShown(challengeUrl)
    ensures SessionOutcome(pm, flowType, challengeUrl, redirect.successUrl, redirect).Err?
  {
    CardTypeDispatched();
  }
}
