/**
 * The flow handlers: what each flow type does with an authorised
 * transaction, as the ordered operations it issues with their amounts and
 * reference numbers. The handlers with loops (several refunds, several
 * top-ups) are methods proved equal to recursive specifications; the
 * straight-line handlers are functions.
 */
module Flows {
  import opened Common
  import opened Strings
  import opened Helpers
  import opened Handlers

  /** The entries of the handler table. */
  datatype FlowKind =
    | BaseCapture | BaseCancel | BaseCredit
    | Decline3DS | AuthorizeAutoCapture | AuthorizeNoCapture | Decline
    | AuthorizeCancel | AuthorizeCapture | AuthorizeCaptureRefund
    | AuthorizeCaptureRefundPartial | AuthorizeCapturePartialRefund
    | AuthorizeAutoCaptureRefundMany
    | AuthorizeTopUp | AuthorizeTopUpCapture | AuthorizeTopUpCaptureRefund
    | AuthorizeTopUpManyCapture

  /** The key of each handler in the table. */
  function Name(k: FlowKind): string {
    match k
    case BaseCapture => "_capture"
    case BaseCancel => "_cancel"
    case BaseCredit => "_credit"
    case Decline3DS => "CIT-decline3DS"
    case AuthorizeAutoCapture => "authorizeAutoCapture"
    case AuthorizeNoCapture => "authorizeNoCapture"
    case Decline => "decline"
    case AuthorizeCancel => "authorizeCancel"
    case AuthorizeCapture => "authorizeCapture"
    case AuthorizeCaptureRefund => "authorizeCaptureRefund"
    case AuthorizeCaptureRefundPartial => "authorizeCaptureRefundPartial"
    case AuthorizeCapturePartialRefund => "authorizeCapturePartialRefund"
    case AuthorizeAutoCaptureRefundMany => "authorizeAutoCaptureRefundMany"
    case AuthorizeTopUp => "authorizeTopUp"
    case AuthorizeTopUpCapture => "authorizeTopUpCapture"
    case AuthorizeTopUpCaptureRefund => "authorizeTopUpCaptureRefund"
    case AuthorizeTopUpManyCapture => "authorizeTopUpManyCapture"
  }

  const AllKinds: seq<FlowKind> := [
    BaseCapture, BaseCancel, BaseCredit, Decline3DS, AuthorizeAutoCapture, AuthorizeNoCapture,
    Decline, AuthorizeCancel, AuthorizeCapture, AuthorizeCaptureRefund,
    AuthorizeCaptureRefundPartial, AuthorizeCapturePartialRefund, AuthorizeAutoCaptureRefundMany,
    AuthorizeTopUp, AuthorizeTopUpCapture, AuthorizeTopUpCaptureRefund, AuthorizeTopUpManyCapture]

  function Find(name: string, kinds: seq<FlowKind>): (r: Option<FlowKind>)
    ensures r.Some? ==> r.value in kinds && Name(r.value) == name
    ensures r.None? ==> forall k :: k in kinds ==> Name(k) != name
  {
    if kinds == [] then None
    else if Name(kinds[0]) == name then Some(kinds[0])
    else Find(name, kinds[1..])
  }

  /** `flowHandlers[flowType]`: the handler stored under that exact key, if any. */
  function HandlerFor(flowType: string): (r: Option<FlowKind>)
    ensures r.Some? ==> Name(r.value) == flowType
  {
    Find(flowType, AllKinds)
  }

  lemma NamesDistinct(a: FlowKind, b: FlowKind)
    requires Name(a) == Name(b)
    ensures a == b
  {
  }

  /** Every handler is found under its own key, and only there. */
  lemma HandlerForName(k: FlowKind)
    ensures HandlerFor(Name(k)) == Some(k)
  {
    assert k in AllKinds;
    var r := HandlerFor(Name(k));
    if r.Some? {
      NamesDistinct(r.value, k);
    }
  }

  // ---------------------------------------------------------------- derived amounts

  /** `Math.floor(amt * 0.7)`, on exact reals. */
  function SeventyPercent(amt: int): int {
    ((amt as real) * 0.7).Floor
  }

  /** The reference number of a follow-up operation: `${ref}-ref${i}`, `${ref}-inc${i}`. */
  function RefNo(ref: string, tag: string, n: nat): string {
    ref + tag + NatToString(n)
  }

  /** `Math.floor(remaining * 0.3)`, on exact reals. */
  function ThirtyPercent(remaining: int): int {
    ((remaining as real) * 0.3).Floor
  }

  /** `Math.floor(amt * 0.2)`, the top of the range each of several top-ups is drawn from. */
  function TwentyPercent(amt: int): int {
    ((amt as real) * 0.2).Floor
  }

  lemma ShareBounds(x: int, share: real)
    requires x >= 0 && 0.0 <= share <= 1.0
    ensures 0 <= ((x as real) * share).Floor <= x
  {
    assert 0.0 <= (x as real) * share <= x as real;
  }

  /** `Math.min(amt * topUp / 100, amt)`: the top-up of the single-top-up flows. */
  function TopUpDelta(amt: int, topUpLimit: int): (d: real)
    ensures d <= amt as real
    ensures amt >= 0 && topUpLimit >= 0 ==> d >= 0.0
  {
    var share := (amt as real) * (topUpLimit as real) / 100.0;
    if share < amt as real then share else amt as real
  }

  // ---------------------------------------------------------------- several refunds

  /** The credits `i..k` of a refund-many flow that has `remaining` left to refund. */
  function RefundSplits(remaining: int, i: nat, k: nat, ref: string): seq<Operation>
    decreases k + 1 - i
  {
    if i > k then []
    else if i == k then [Credit(remaining as real, RefNo(ref, "-ref", i))]
    else
      var part := ThirtyPercent(remaining);
      [Credit(part as real, RefNo(ref, "-ref", i))] + RefundSplits(remaining - part, i + 1, k, ref)
  }

  /** The number of refunds or top-ups: `getRandomNumber(2, 4)`. */
  function Count(r: Random): (k: int)
    ensures 2 <= k <= 4
  {
    GetRandomNumber(2, 4, r)
  }

  /**
   * `authorizeAutoCaptureRefundMany`: k credits; each but the last refunds
   * 30% (rounded down) of what is left, the last refunds all that is left.
   */
  method RefundMany(amt: int, ref: string, r: Random) returns (ops: seq<Operation>)
    ensures ops == RefundSplits(amt, 1, Count(r), ref)
  {
    var numRefunds := GetRandomNumber(2, 4, r);
    var remaining := amt;
    ops := [];
    for i := 1 to numRefunds + 1
      invariant ops + RefundSplits(remaining, i, numRefunds, ref) == RefundSplits(amt, 1, numRefunds, ref)
    {
      var refundAmt := if i == numRefunds then remaining else ThirtyPercent(remaining);
      ghost var before := ops + RefundSplits(remaining, i, numRefunds, ref);
      RefundSplitsStep(ops, remaining, i, numRefunds, ref);
      ops := ops + [Credit(refundAmt as real, RefNo(ref, "-ref", i))];
      remaining := remaining - refundAmt;
      assert before == ops + RefundSplits(remaining, i + 1, numRefunds, ref);
    }
    RefundSplitsEnd(remaining, numRefunds, ref);
  }

  /** One step of `RefundSplits`: the credit of split `i`, then the splits after it. */
  lemma RefundSplitsStep(done: seq<Operation>, remaining: int, i: nat, k: nat, ref: string)
    requires i <= k
    ensures var part := if i == k then remaining else ThirtyPercent(remaining);
            done + RefundSplits(remaining, i, k, ref)
              == (done + [Credit(part as real, RefNo(ref, "-ref", i))]) + RefundSplits(remaining - part, i + 1, k, ref)
  {
    var part := if i == k then remaining else ThirtyPercent(remaining);
    var head := [Credit(part as real, RefNo(ref, "-ref", i))];
    var rest := RefundSplits(remaining - part, i + 1, k, ref);
    assert RefundSplits(remaining, i, k, ref) == head + rest;
    AppendAssoc(done, head, rest);
  }

  lemma RefundSplitsEnd(remaining: int, k: nat, ref: string)
    ensures RefundSplits(remaining, k + 1, k, ref) == []
  {
  }

  /** The total amount of the operations of one kind. */
  function Credited(ops: seq<Operation>): real {
    if ops == [] then 0.0 else (if ops[0].Credit? then ops[0].amount else 0.0) + Credited(ops[1..])
  }

  function Captured(ops: seq<Operation>): real {
    if ops == [] then 0.0 else (if ops[0].Capture? then ops[0].amount else 0.0) + Captured(ops[1..])
  }

  function Increased(ops: seq<Operation>): real {
    if ops == [] then 0.0 else (if ops[0].Increase? then ops[0].amount else 0.0) + Increased(ops[1..])
  }

  lemma {:induction false} TotalsAppend(a: seq<Operation>, b: seq<Operation>)
    ensures Credited(a + b) == Credited(a) + Credited(b)
    ensures Captured(a + b) == Captured(a) + Captured(b)
    ensures Increased(a + b) == Increased(a) + Increased(b)
  {
    if a != [] {
      var ab := a + b;
      assert ab[0] == a[0] && ab[1..] == a[1..] + b;
      TotalsAppend(a[1..], b);
      assert Credited(ab) == (if a[0].Credit? then a[0].amount else 0.0) + Credited(a[1..] + b);
      assert Captured(ab) == (if a[0].Capture? then a[0].amount else 0.0) + Captured(a[1..] + b);
      assert Increased(ab) == (if a[0].Increase? then a[0].amount else 0.0) + Increased(a[1..] + b);
    } else {
      assert a + b == b;
    }
  }

  lemma Totals1(o: Operation)
    ensures Credited([o]) == (if o.Credit? then o.amount else 0.0)
    ensures Captured([o]) == (if o.Capture? then o.amount else 0.0)
    ensures Increased([o]) == (if o.Increase? then o.amount else 0.0)
  {
    assert [o][1..] == [];
  }

  lemma Totals2(a: Operation, b: Operation)
    ensures Credited([a, b]) == Credited([a]) + Credited([b])
    ensures Captured([a, b]) == Captured([a]) + Captured([b])
    ensures Increased([a, b]) == Increased([a]) + Increased([b])
  {
    TotalsAppend([a], [b]);
    assert [a] + [b] == [a, b];
  }

  /**
   * The refunds `i..k` are `k - i + 1` credits with references `ref-refi`
   * … `ref-refk`; they refund exactly `remaining` and, when `remaining` is
   * not negative, none is negative or above `remaining`.
   */
  lemma RefundSplitsSpec(remaining: int, i: nat, k: nat, ref: string)
    requires 1 <= i <= k
    ensures var ops := RefundSplits(remaining, i, k, ref);
            && |ops| == k - i + 1
            && (forall j :: 0 <= j < |ops| ==> ops[j].Credit? && ops[j].refNo == RefNo(ref, "-ref", i + j))
            && Credited(ops) == remaining as real
            && Captured(ops) == 0.0 && Increased(ops) == 0.0
            && (remaining >= 0 ==> forall j :: 0 <= j < |ops| ==> 0.0 <= ops[j].amount <= remaining as real)
  {
    RefundSplitsShape(remaining, i, k, ref);
    RefundSplitsTotals(remaining, i, k, ref);
    if remaining >= 0 {
      RefundSplitsBounds(remaining, i, k, ref);
    }
  }

  lemma {:induction false} RefundSplitsShape(remaining: int, i: nat, k: nat, ref: string)
    requires i <= k
    ensures var ops := RefundSplits(remaining, i, k, ref);
            && |ops| == k - i + 1
            && forall j :: 0 <= j < |ops| ==> ops[j].Credit? && ops[j].refNo == RefNo(ref, "-ref", i + j)
    decreases k - i
  {
    if i < k {
      var part := ThirtyPercent(remaining);
      RefundSplitsShape(remaining - part, i + 1, k, ref);
      var ops := RefundSplits(remaining, i, k, ref);
      var rest := RefundSplits(remaining - part, i + 1, k, ref);
      assert ops == [Credit(part as real, RefNo(ref, "-ref", i))] + rest;
      forall j | 1 <= j < |ops|
        ensures ops[j].Credit? && ops[j].refNo == RefNo(ref, "-ref", i + j)
      {
        assert ops[j] == rest[j - 1];
      }
    }
  }

  lemma {:induction false} RefundSplitsTotals(remaining: int, i: nat, k: nat, ref: string)
    requires i <= k
    ensures var ops := RefundSplits(remaining, i, k, ref);
            Credited(ops) == remaining as real && Captured(ops) == 0.0 && Increased(ops) == 0.0
    decreases k - i
  {
    var ops := RefundSplits(remaining, i, k, ref);
    if i < k {
      var part := ThirtyPercent(remaining);
      var rest := RefundSplits(remaining - part, i + 1, k, ref);
      RefundSplitsTotals(remaining - part, i + 1, k, ref);
      assert ops[0].Credit? && ops[0].amount == part as real && ops[1..] == rest;
    } else {
      assert ops[0].Credit? && ops[0].amount == remaining as real && ops[1..] == [];
    }
  }


  /** Every operation of `ops` is a credit of at most `bound`. */
  predicate CreditsWithin(ops: seq<Operation>, bound: real)
  {
    forall j :: 0 <= j < |ops| ==> ops[j].Credit? && 0.0 <= ops[j].amount <= bound
  }

  lemma {:induction false} RefundSplitsBounds(remaining: int, i: nat, k: nat, ref: string)
    requires i <= k && remaining >= 0
    ensures CreditsWithin(RefundSplits(remaining, i, k, ref), remaining as real)
    decreases k - i
  {
    if i < k {
      var part := ThirtyPercent(remaining);
      ShareBounds(remaining, 0.3);
      var rest := RefundSplits(remaining - part, i + 1, k, ref);
      RefundSplitsBounds(remaining - part, i + 1, k, ref);
      assert CreditsWithin(rest, (remaining - part) as real);
      var head := Credit(part as real, RefNo(ref, "-ref", i));
      assert RefundSplits(remaining, i, k, ref) == [head] + rest;
      CreditsWithinCons(head, rest, (remaining - part) as real, remaining as real);
    }
  }

  lemma CreditsWithinCons(head: Operation, rest: seq<Operation>, b: real, bound: real)
    requires CreditsWithin(rest, b) && b <= bound
    requires head.Credit? && 0.0 <= head.amount <= bound
    ensures CreditsWithin([head] + rest, bound)
  {
    var ops := [head] + rest;
    forall j | 0 <= j < |ops|
      ensures ops[j].Credit? && 0.0 <= ops[j].amount <= bound
    {
      if j > 0 { assert ops[j] == rest[j - 1]; }
    }
  }

  // ---------------------------------------------------------------- several top-ups

  /** One of several top-ups: `getRandomNumber(50, Math.floor(amt * 0.2))`. */
  function TopUpDraw(amt: int, r: Random): (t: int)
    ensures amt >= 0 ==> t >= 1
    ensures TwentyPercent(amt) >= 50 ==> 50 <= t <= TwentyPercent(amt)
  {
    if amt >= 0 then
      ShareBounds(amt, 0.2);
      GetRandomNumber(50, TwentyPercent(amt), r)
    else
      GetRandomNumber(50, TwentyPercent(amt), r)
  }

  /** The sizes of the first `k` top-ups, one draw each. */
  function TopUpSizes(amt: int, draws: seq<Random>, k: nat): (sizes: seq<int>)
    requires k <= |draws|
    ensures |sizes| == k
    ensures forall j :: 0 <= j < k ==> sizes[j] == TopUpDraw(amt, draws[j])
  {
    seq(k, j requires 0 <= j < k => TopUpDraw(amt, draws[j]))
  }

  /**
   * The operations from top-up `i` (counted from 0) on: the increases of
   * `sizes[i..]`, then the capture of the running `total` with each of
   * them added.
   */
  function TopUpSteps(sizes: seq<int>, i: nat, total: int, ref: string): seq<Operation>
    decreases |sizes| - i
  {
    if i >= |sizes| then [Capture(total as real, ref)]
    else [Increase(sizes[i] as real, RefNo(ref, "-inc", i + 1))] + TopUpSteps(sizes, i + 1, total + sizes[i], ref)
  }

  /** The random choices a flow handler makes: how many steps, and each top-up's draw. */
  datatype Draws = Draws(count: Random, topUps: seq<Random>)

  /**
   * `authorizeTopUpManyCapture`: k increases of drawn sizes with references
   * `ref-inc1` … `ref-inck`, then one capture of the amount plus every increase.
   */
  method TopUpManyCapture(amt: int, ref: string, d: Draws) returns (ops: seq<Operation>)
    requires |d.topUps| >= 4
    ensures ops == TopUpSteps(TopUpSizes(amt, d.topUps, Count(d.count)), 0, amt, ref)
  {
    var numTopUps := GetRandomNumber(2, 4, d.count);
    ghost var sizes := TopUpSizes(amt, d.topUps, numTopUps);
    var total := amt;
    ops := [];
    for i := 1 to numTopUps + 1
      invariant ops + TopUpSteps(sizes, i - 1, total, ref) == TopUpSteps(sizes, 0, amt, ref)
    {
      var topUp := GetRandomNumber(50, TwentyPercent(amt), d.topUps[i - 1]);
      assert topUp == sizes[i - 1];
      ghost var before := ops + TopUpSteps(sizes, i - 1, total, ref);
      TopUpStepsStep(ops, sizes, i, total, ref);
      ops := ops + [Increase(topUp as real, RefNo(ref, "-inc", i))];
      total := total + topUp;
      assert before == ops + TopUpSteps(sizes, i, total, ref);
    }
    assert TopUpSteps(sizes, numTopUps, total, ref) == [Capture(total as real, ref)];
    ops := ops + [Capture(total as real, ref)];
  }

  /** One step of `TopUpSteps`: the increase of top-up `n` (counted from 1), then the steps after it. */
  lemma TopUpStepsStep(done: seq<Operation>, sizes: seq<int>, n: nat, total: int, ref: string)
    requires 1 <= n <= |sizes|
    ensures done + TopUpSteps(sizes, n - 1, total, ref)
              == (done + [Increase(sizes[n - 1] as real, RefNo(ref, "-inc", n))])
                 + TopUpSteps(sizes, n, total + sizes[n - 1], ref)
  {
    var head := [Increase(sizes[n - 1] as real, RefNo(ref, "-inc", n))];
    var rest := TopUpSteps(sizes, n, total + sizes[n - 1], ref);
    assert TopUpSteps(sizes, n - 1, total, ref) == head + rest;
    AppendAssoc(done, head, rest);
  }

  /**
   * From top-up `i` on: one increase per remaining size with references
   * `ref-inc(i+1)` …, then one capture of `total` plus everything they increase.
   */
  lemma TopUpStepsSpec(sizes: seq<int>, i: nat, total: int, ref: string)
    requires i <= |sizes|
    ensures var ops := TopUpSteps(sizes, i, total, ref);
            && |ops| == |sizes| - i + 1
            && (forall j :: 0 <= j < |ops| - 1 ==>
                  ops[j] == Increase(sizes[i + j] as real, RefNo(ref, "-inc", i + j + 1)))
            && ops[|ops| - 1] == Capture(total as real + Increased(ops), ref)
            && Credited(ops) == 0.0
  {
    TopUpStepsShape(sizes, i, total, ref);
    TopUpStepsTotals(sizes, i, total, ref);
  }

  lemma {:induction false} TopUpStepsShape(sizes: seq<int>, i: nat, total: int, ref: string)
    requires i <= |sizes|
    ensures var ops := TopUpSteps(sizes, i, total, ref);
            && |ops| == |sizes| - i + 1
            && (forall j :: 0 <= j < |ops| - 1 ==>
                  ops[j] == Increase(sizes[i + j] as real, RefNo(ref, "-inc", i + j + 1)))
    decreases |sizes| - i
  {
    if i < |sizes| {
      TopUpStepsShape(sizes, i + 1, total + sizes[i], ref);
      var ops := TopUpSteps(sizes, i, total, ref);
      var rest := TopUpSteps(sizes, i + 1, total + sizes[i], ref);
      assert ops == [Increase(sizes[i] as real, RefNo(ref, "-inc", i + 1))] + rest;
      forall j | 1 <= j < |ops| - 1
        ensures ops[j] == Increase(sizes[i + j] as real, RefNo(ref, "-inc", i + j + 1))
      {
        assert ops[j] == rest[j - 1];
      }
    }
  }

  lemma {:induction false} TopUpStepsTotals(sizes: seq<int>, i: nat, total: int, ref: string)
    requires i <= |sizes|
    ensures var ops := TopUpSteps(sizes, i, total, ref);
            && |ops| >= 1
            && ops[|ops| - 1] == Capture(total as real + Increased(ops), ref)
            && Credited(ops) == 0.0
    decreases |sizes| - i
  {
    if i < |sizes| {
      TopUpStepsTotals(sizes, i + 1, total + sizes[i], ref);
      var head := Increase(sizes[i] as real, RefNo(ref, "-inc", i + 1));
      var rest := TopUpSteps(sizes, i + 1, total + sizes[i], ref);
      var ops := TopUpSteps(sizes, i, total, ref);
      assert ops == [head] + rest;
      assert ops[|ops| - 1] == rest[|rest| - 1];
      TotalsAppend([head], rest);
      Totals1(head);
      assert Increased(ops) == sizes[i] as real + Increased(rest);
    } else {
      Totals1(Capture(total as real, ref));
    }
  }

  // ---------------------------------------------------------------- the handler table

  /**
   * The operations the handler of `kind` issues for a transaction of amount
   * `amt` with reference `ref`, given the merchant's top-up limit and the draws.
   */
  function FlowOperations(kind: FlowKind, amt: int, topUpLimit: int, ref: string, d: Draws): (ops: seq<Operation>)
    requires |d.topUps| >= 4
    ensures |ops| <= 5
    ensures ops == [] <==> kind in {Decline3DS, AuthorizeAutoCapture, AuthorizeNoCapture, Decline}
  {
    match kind
    case BaseCapture => [Capture(amt as real, ref)]
    case BaseCancel => [Cancel]
    case BaseCredit => [Credit(amt as real, ref)]
    case Decline3DS => []
    case AuthorizeAutoCapture => []
    case AuthorizeNoCapture => []
    case Decline => []
    case AuthorizeCancel => [Cancel]
    case AuthorizeCapture => [Capture(amt as real, ref)]
    case AuthorizeCaptureRefund => [Capture(amt as real, ref), Credit(amt as real, ref + "-ref")]
    case AuthorizeCaptureRefundPartial =>
      [Capture(amt as real, ref), Credit(SeventyPercent(amt) as real, ref + "-ref")]
    case AuthorizeCapturePartialRefund =>
      [Capture(SeventyPercent(amt) as real, ref), Credit(SeventyPercent(amt) as real, ref + "-ref")]
    case AuthorizeAutoCaptureRefundMany =>
      RefundSplitsSpec(amt, 1, Count(d.count), ref);
      RefundSplits(amt, 1, Count(d.count), ref)
    case AuthorizeTopUp => [Increase(TopUpDelta(amt, topUpLimit), ref + "-inc")]
    case AuthorizeTopUpCapture =>
      var delta := TopUpDelta(amt, topUpLimit);
      [Increase(delta, ref + "-inc"), Capture(amt as real + delta, ref)]
    case AuthorizeTopUpCaptureRefund =>
      var delta := TopUpDelta(amt, topUpLimit);
      [Increase(delta, ref + "-inc"), Capture(amt as real + delta, ref), Credit(amt as real + delta, ref + "-ref")]
    case AuthorizeTopUpManyCapture =>
      TopUpStepsSpec(TopUpSizes(amt, d.topUps, Count(d.count)), 0, amt, ref);
      TopUpSteps(TopUpSizes(amt, d.topUps, Count(d.count)), 0, amt, ref)
  }



  /**
   * Capture and refund flows: the partial amount is 70% of the amount
   * rounded down, never above the amount, and a refund never exceeds the capture.
   */
  lemma CaptureRefundFlows(amt: int, topUpLimit: int, ref: string, d: Draws)
    requires |d.topUps| >= 4 && amt >= 0
    ensures FlowOperations(AuthorizeCancel, amt, topUpLimit, ref, d) == [Cancel]
    ensures FlowOperations(AuthorizeCapture, amt, topUpLimit, ref, d) == [Capture(amt as real, ref)]
    ensures FlowOperations(AuthorizeCaptureRefund, amt, topUpLimit, ref, d)
            == [Capture(amt as real, ref), Credit(amt as real, ref + "-ref")]
    ensures FlowOperations(AuthorizeCaptureRefundPartial, amt, topUpLimit, ref, d)
            == [Capture(amt as real, ref), Credit(SeventyPercent(amt) as real, ref + "-ref")]
    ensures FlowOperations(AuthorizeCapturePartialRefund, amt, topUpLimit, ref, d)
            == [Capture(SeventyPercent(amt) as real, ref), Credit(SeventyPercent(amt) as real, ref + "-ref")]
    ensures 0 <= SeventyPercent(amt) <= amt
    ensures (amt as real) * 0.7 - 1.0 < SeventyPercent(amt) as real <= (amt as real) * 0.7
  {
    ShareBounds(amt, 0.7);
  }

  /** An amount of 1000 is captured in full and refunded for 700. */
  lemma PartialRefundOfThousand(topUpLimit: int, ref: string, d: Draws)
    requires |d.topUps| >= 4
    ensures FlowOperations(AuthorizeCaptureRefundPartial, 1000, topUpLimit, ref, d)
            == [Capture(1000.0, ref), Credit(700.0, ref + "-ref")]
  {
    assert (1000 as real) * 0.7 == 700.0;
  }

  /**
   * Several refunds: two to four credits `ref-ref1` … `ref-refk` that refund
   * the amount exactly, each within `[0, amt]` when the amount is not negative.
   */
  lemma RefundManyFlow(amt: int, topUpLimit: int, ref: string, d: Draws)
    requires |d.topUps| >= 4
    ensures var ops := FlowOperations(AuthorizeAutoCaptureRefundMany, amt, topUpLimit, ref, d);
            && 2 <= |ops| <= 4
            && (forall j :: 0 <= j < |ops| ==> ops[j].Credit? && ops[j].refNo == RefNo(ref, "-ref", j + 1))
            && Credited(ops) == amt as real
            && (amt >= 0 ==> forall j :: 0 <= j < |ops| ==> 0.0 <= ops[j].amount <= amt as real)
  {
    RefundSplitsSpec(amt, 1, Count(d.count), ref);
  }

  /**
   * The single-top-up flows: increase Δ = min(amt·limit/100, amt) ≤ amt
   * under `ref-inc` first, then capture and refund `amt + Δ`.
   */
  lemma TopUpFlows(amt: int, topUpLimit: int, ref: string, d: Draws)
    requires |d.topUps| >= 4
    ensures var delta := TopUpDelta(amt, topUpLimit);
            && delta <= amt as real
            && FlowOperations(AuthorizeTopUp, amt, topUpLimit, ref, d) == [Increase(delta, ref + "-inc")]
            && FlowOperations(AuthorizeTopUpCapture, amt, topUpLimit, ref, d)
               == [Increase(delta, ref + "-inc"), Capture(amt as real + delta, ref)]
            && FlowOperations(AuthorizeTopUpCaptureRefund, amt, topUpLimit, ref, d)
               == [Increase(delta, ref + "-inc"), Capture(amt as real + delta, ref), Credit(amt as real + delta, ref + "-ref")]
  {
  }

  /**
   * Several top-ups: two to four increases `ref-inc1` … `ref-inck`, then one
   * capture of exactly the amount plus all of them.
   */
  lemma TopUpManyFlow(amt: int, topUpLimit: int, ref: string, d: Draws)
    requires |d.topUps| >= 4
    ensures var ops := FlowOperations(AuthorizeTopUpManyCapture, amt, topUpLimit, ref, d);
            3 <= |ops| <= 5 && TopUpManyShaped(ops, amt, ref)
  {
    var k := Count(d.count);
    var sizes := TopUpSizes(amt, d.topUps, k);
    assert 2 <= k <= 4 && |sizes| == k;
    TopUpSizesBounds(amt, d.topUps, k);
    TopUpManyOps(sizes, amt, ref);
    assert FlowOperations(AuthorizeTopUpManyCapture, amt, topUpLimit, ref, d) == TopUpSteps(sizes, 0, amt, ref);
  }

  /**
   * The shape of a top-up-many flow: increases `ref-inc1`, `ref-inc2`, …
   * within the bounds of their draws, then one capture of exactly the amount
   * plus all of them.
   */
  predicate TopUpManyShaped(ops: seq<Operation>, amt: int, ref: string)
  {
    && |ops| >= 1
    && (forall j :: 0 <= j < |ops| - 1 ==> ops[j].Increase? && ops[j].refNo == RefNo(ref, "-inc", j + 1))
    && ops[|ops| - 1] == Capture(amt as real + Increased(ops), ref)
    && (amt >= 0 ==> forall j :: 0 <= j < |ops| - 1 ==> ops[j].amount >= 1.0)
    && (TwentyPercent(amt) >= 50 ==> forall j :: 0 <= j < |ops| - 1 ==>
          50.0 <= ops[j].amount <= TwentyPercent(amt) as real)
  }

  /** `TopUpManyFlow` for given sizes. */
  lemma TopUpManyOps(sizes: seq<int>, amt: int, ref: string)
    requires amt >= 0 ==> forall j :: 0 <= j < |sizes| ==> sizes[j] >= 1
    requires TwentyPercent(amt) >= 50 ==> forall j :: 0 <= j < |sizes| ==> 50 <= sizes[j] <= TwentyPercent(amt)
    ensures var ops := TopUpSteps(sizes, 0, amt, ref);
            |ops| == |sizes| + 1 && TopUpManyShaped(ops, amt, ref)
  {
    var ops := TopUpSteps(sizes, 0, amt, ref);
    TopUpStepsTotals(sizes, 0, amt, ref);
    assert ops[|ops| - 1] == Capture(amt as real + Increased(ops), ref);
    TopUpStepsShape(sizes, 0, amt, ref);
    IncreasesWithin(ops, sizes, ref, amt);
  }

  /** The increases of a top-up-many flow carry the references and the bounds of their draws. */
  lemma IncreasesWithin(ops: seq<Operation>, sizes: seq<int>, ref: string, amt: int)
    requires |ops| == |sizes| + 1
    requires forall j :: 0 <= j < |ops| - 1 ==> ops[j] == Increase(sizes[0 + j] as real, RefNo(ref, "-inc", 0 + j + 1))
    requires amt >= 0 ==> forall j :: 0 <= j < |sizes| ==> sizes[j] >= 1
    requires TwentyPercent(amt) >= 50 ==> forall j :: 0 <= j < |sizes| ==> 50 <= sizes[j] <= TwentyPercent(amt)
    ensures forall j :: 0 <= j < |ops| - 1 ==> ops[j].Increase? && ops[j].refNo == RefNo(ref, "-inc", j + 1)
    ensures amt >= 0 ==> forall j :: 0 <= j < |ops| - 1 ==> ops[j].amount >= 1.0
    ensures TwentyPercent(amt) >= 50 ==> forall j :: 0 <= j < |ops| - 1 ==>
              50.0 <= ops[j].amount <= TwentyPercent(amt) as real
  {
    forall j | 0 <= j < |ops| - 1
      ensures ops[j].Increase? && ops[j].refNo == RefNo(ref, "-inc", j + 1)
      ensures (amt >= 0 ==> ops[j].amount >= 1.0)
      ensures (TwentyPercent(amt) >= 50 ==> 50.0 <= ops[j].amount <= TwentyPercent(amt) as real)
    {
      assert ops[j] == Increase(sizes[j] as real, RefNo(ref, "-inc", j + 1));
    }
  }

  lemma TopUpSizesBounds(amt: int, draws: seq<Random>, k: nat)
    requires k <= |draws|
    ensures var sizes := TopUpSizes(amt, draws, k);
            && (amt >= 0 ==> forall j :: 0 <= j < k ==> sizes[j] >= 1)
            && (TwentyPercent(amt) >= 50 ==> forall j :: 0 <= j < k ==> 50 <= sizes[j] <= TwentyPercent(amt))
  {
    var sizes := TopUpSizes(amt, draws, k);
    forall j | 0 <= j < k
      ensures amt >= 0 ==> sizes[j] >= 1
      ensures TwentyPercent(amt) >= 50 ==> 50 <= sizes[j] <= TwentyPercent(amt)
    {
      var t := TopUpDraw(amt, draws[j]);
    }
  }

  /** Nothing is captured beyond the amount plus what the flow increased it by. */
  lemma CapturedWithinAmount(kind: FlowKind, amt: int, topUpLimit: int, ref: string, d: Draws)
    requires |d.topUps| >= 4 && amt >= 0 && topUpLimit >= 0
    ensures var ops := FlowOperations(kind, amt, topUpLimit, ref, d);
            Captured(ops) <= amt as real + Increased(ops)
  {
    match kind {
      case AuthorizeAutoCaptureRefundMany =>
        RefundSplitsTotals(amt, 1, Count(d.count), ref);
      case AuthorizeTopUpManyCapture =>
        TopUpManyConsistent(TopUpSizes(amt, d.topUps, Count(d.count)), amt, ref);
      case AuthorizeCaptureRefund =>
        PairConsistent(Capture(amt as real, ref), Credit(amt as real, ref + "-ref"));
      case AuthorizeCaptureRefundPartial =>
        ShareBounds(amt, 0.7);
        PairConsistent(Capture(amt as real, ref), Credit(SeventyPercent(amt) as real, ref + "-ref"));
      case AuthorizeCapturePartialRefund =>
        ShareBounds(amt, 0.7);
        PairConsistent(Capture(SeventyPercent(amt) as real, ref), Credit(SeventyPercent(amt) as real, ref + "-ref"));
      case AuthorizeTopUpCapture =>
        var delta := TopUpDelta(amt, topUpLimit);
        PairConsistent(Increase(delta, ref + "-inc"), Capture(amt as real + delta, ref));
      case AuthorizeTopUpCaptureRefund =>
        var delta := TopUpDelta(amt, topUpLimit);
        TripleConsistent(Increase(delta, ref + "-inc"), Capture(amt as real + delta, ref), Credit(amt as real + delta, ref + "-ref"));
      case BaseCapture => Totals1(Capture(amt as real, ref));
      case AuthorizeCapture => Totals1(Capture(amt as real, ref));
      case BaseCancel => Totals1(Cancel);
      case AuthorizeCancel => Totals1(Cancel);
      case BaseCredit => Totals1(Credit(amt as real, ref));
      case AuthorizeTopUp => Totals1(Increase(TopUpDelta(amt, topUpLimit), ref + "-inc"));
      case Decline3DS =>
      case AuthorizeAutoCapture =>
      case AuthorizeNoCapture =>
      case Decline =>
    }
  }

  /** Nothing is refunded beyond what was captured, except by the bare credit and the auto-captured refund-many. */
  lemma CreditedWithinCaptured(kind: FlowKind, amt: int, topUpLimit: int, ref: string, d: Draws)
    requires |d.topUps| >= 4 && amt >= 0 && topUpLimit >= 0
    ensures var ops := FlowOperations(kind, amt, topUpLimit, ref, d);
            kind != BaseCredit ==>
              Credited(ops) <= Captured(ops) + (if kind == AuthorizeAutoCaptureRefundMany then amt as real else 0.0)
  {
    match kind {
      case AuthorizeAutoCaptureRefundMany =>
        RefundSplitsTotals(amt, 1, Count(d.count), ref);
      case AuthorizeTopUpManyCapture =>
        TopUpManyConsistent(TopUpSizes(amt, d.topUps, Count(d.count)), amt, ref);
      case AuthorizeCaptureRefund =>
        PairConsistent(Capture(amt as real, ref), Credit(amt as real, ref + "-ref"));
      case AuthorizeCaptureRefundPartial =>
        ShareBounds(amt, 0.7);
        PairConsistent(Capture(amt as real, ref), Credit(SeventyPercent(amt) as real, ref + "-ref"));
      case AuthorizeCapturePartialRefund =>
        ShareBounds(amt, 0.7);
        PairConsistent(Capture(SeventyPercent(amt) as real, ref), Credit(SeventyPercent(amt) as real, ref + "-ref"));
      case AuthorizeTopUpCapture =>
        var delta := TopUpDelta(amt, topUpLimit);
        PairConsistent(Increase(delta, ref + "-inc"), Capture(amt as real + delta, ref));
      case AuthorizeTopUpCaptureRefund =>
        var delta := TopUpDelta(amt, topUpLimit);
        TripleConsistent(Increase(delta, ref + "-inc"), Capture(amt as real + delta, ref), Credit(amt as real + delta, ref + "-ref"));
      case BaseCapture => Totals1(Capture(amt as real, ref));
      case AuthorizeCapture => Totals1(Capture(amt as real, ref));
      case BaseCancel => Totals1(Cancel);
      case AuthorizeCancel => Totals1(Cancel);
      case BaseCredit => Totals1(Credit(amt as real, ref));
      case AuthorizeTopUp => Totals1(Increase(TopUpDelta(amt, topUpLimit), ref + "-inc"));
      case Decline3DS =>
      case AuthorizeAutoCapture =>
      case AuthorizeNoCapture =>
      case Decline =>
    }
  }

  lemma PairConsistent(a: Operation, b: Operation)
    ensures Credited([a, b]) == Credited([a]) + Credited([b])
    ensures Captured([a, b]) == Captured([a]) + Captured([b])
    ensures Increased([a, b]) == Increased([a]) + Increased([b])
    ensures Credited([a]) == (if a.Credit? then a.amount else 0.0)
    ensures Captured([a]) == (if a.Capture? then a.amount else 0.0)
    ensures Increased([a]) == (if a.Increase? then a.amount else 0.0)
    ensures Credited([b]) == (if b.Credit? then b.amount else 0.0)
    ensures Captured([b]) == (if b.Capture? then b.amount else 0.0)
    ensures Increased([b]) == (if b.Increase? then b.amount else 0.0)
  {
    Totals2(a, b);
    Totals1(a);
    Totals1(b);
  }

  lemma TripleConsistent(a: Operation, b: Operation, c: Operation)
    ensures Credited([a, b, c]) == Credited([a]) + Credited([b]) + Credited([c])
    ensures Captured([a, b, c]) == Captured([a]) + Captured([b]) + Captured([c])
    ensures Increased([a, b, c]) == Increased([a]) + Increased([b]) + Increased([c])
    ensures Credited([a]) == (if a.Credit? then a.amount else 0.0)
    ensures Captured([a]) == (if a.Capture? then a.amount else 0.0)
    ensures Increased([a]) == (if a.Increase? then a.amount else 0.0)
    ensures Credited([b]) == (if b.Credit? then b.amount else 0.0)
    ensures Captured([b]) == (if b.Capture? then b.amount else 0.0)
    ensures Increased([b]) == (if b.Increase? then b.amount else 0.0)
    ensures Credited([c]) == (if c.Credit? then c.amount else 0.0)
    ensures Captured([c]) == (if c.Capture? then c.amount else 0.0)
    ensures Increased([c]) == (if c.Increase? then c.amount else 0.0)
  {
    TotalsAppend([a], [b, c]);
    assert [a] + [b, c] == [a, b, c];
    PairConsistent(b, c);
    Totals1(a);
  }

  /** The several-top-ups flow captures exactly the amount plus its increases. */
  lemma TopUpManyConsistent(sizes: seq<int>, amt: int, ref: string)
    ensures var ops := TopUpSteps(sizes, 0, amt, ref);
            Captured(ops) == amt as real + Increased(ops) && Credited(ops) == 0.0
            && ((forall j :: 0 <= j < |sizes| ==> sizes[j] >= 0) ==> Increased(ops) >= 0.0)
  {
    var ops := TopUpSteps(sizes, 0, amt, ref);
    TopUpStepsSpec(sizes, 0, amt, ref);
    var n := |ops|;
    TotalsAppend(ops[..n - 1], [ops[n - 1]]);
    assert ops[..n - 1] + [ops[n - 1]] == ops;
    CapturedNone(ops[..n - 1]);
    Totals1(ops[n - 1]);
    if forall j :: 0 <= j < |sizes| ==> sizes[j] >= 0 {
      IncreasedNonNegative(sizes, 0, amt, ref);
    }
  }

  lemma {:induction false} IncreasedNonNegative(sizes: seq<int>, i: nat, total: int, ref: string)
    requires forall j :: i <= j < |sizes| ==> sizes[j] >= 0
    ensures Increased(TopUpSteps(sizes, i, total, ref)) >= 0.0
    decreases |sizes| - i
  {
    var ops := TopUpSteps(sizes, i, total, ref);
    if i < |sizes| {
      IncreasedNonNegative(sizes, i + 1, total + sizes[i], ref);
      var head := Increase(sizes[i] as real, RefNo(ref, "-inc", i + 1));
      TotalsAppend([head], TopUpSteps(sizes, i + 1, total + sizes[i], ref));
      Totals1(head);
    } else {
      Totals1(Capture(total as real, ref));
    }
  }

  lemma {:induction false} CapturedNone(ops: seq<Operation>)
    requires forall j :: 0 <= j < |ops| ==> ops[j].Increase?
    ensures Captured(ops) == 0.0
  {
    if ops != [] {
      CapturedNone(ops[1..]);
    }
  }
}
