/**
 * The executor: each task of the shuffled pool picks a currency, an
 * instrument, an amount and a reference, is counted, is authorised, and runs
 * its flow's operations; a thrown error appends one failure record. The
 * statistics table and the failure list are the state of a `Run`.
 *
 * Every random draw, the UUID, the answer of the authorisation step and the
 * attempt outcomes of every gateway call are inputs (`TaskDraws`).
 */
module Executor {
  import opened Common
  import opened Strings
  import opened Config
  import opened Helpers
  import opened Handlers
  import opened Flows
  import opened Selection

  /** What the authorisation step answers: `null`, the response data, or a thrown error. */
  datatype AuthResult = AuthNull | AuthData(transactionId: Option<string>) | AuthThrows(error: ApiError)

  /** The outside world as one task sees it. */
  datatype TaskDraws = TaskDraws(
    currency: Random,
    instrument: Random,
    amount: Random,
    success: Random,
    refLength: Random,
    uuid: Uuid,
    auth: AuthResult,
    flow: Draws,
    calls: seq<seq<Attempt>>)   // the attempt outcomes of each operation's call, in order

  /** Enough draws for any flow: four top-ups, five calls of six attempts each. */
  predicate Fits(o: TaskDraws) {
    && |o.flow.topUps| >= 4
    && |o.calls| >= 5
    && forall i :: 0 <= i < |o.calls| ==> |o.calls[i]| > DefaultRetries
  }

  /** One entry of the failure list. */
  datatype FailureRecord = FailureRecord(flowType: string, refNo: string, transactionId: string, error: string)

  const NotAvailable := "N/A"

  /** `refNo || 'N/A'`: an undefined or empty reference is recorded as `N/A`. */
  function RecordedRefNo(refNo: Option<string>): (s: string)
    ensures s != ""
    ensures refNo.Some? && refNo.value != "" ==> s == refNo.value
    ensures refNo.None? || refNo.value == "" ==> s == NotAvailable
  {
    if refNo.Some? && refNo.value != "" then refNo.value else NotAvailable
  }

  /** The transaction id of the error's response data when it has a non-empty one, else `N/A`. */
  function RecordedTransactionId(e: ApiError): (s: string)
    ensures s != ""
    ensures e.response.Some? && e.response.value.transactionId.Some? && e.response.value.transactionId.value != "" ==>
              s == e.response.value.transactionId.value
    ensures e.response.None? || e.response.value.transactionId.None? || e.response.value.transactionId.value == "" ==>
              s == NotAvailable
  {
    if e.response.Some? && e.response.value.transactionId.Some? && e.response.value.transactionId.value != "" then
      e.response.value.transactionId.value
    else NotAvailable
  }

  function Record(flowType: string, refNo: Option<string>, e: ApiError): FailureRecord {
    FailureRecord(flowType, RecordedRefNo(refNo), RecordedTransactionId(e), e.message)
  }

  /**
   * How a task ends. `counted` says whether the counters were raised before
   * the error; `sent` lists the operation requests issued, the failing one included.
   */
  datatype Disposition =
    | Skipped
    | Failed(counted: bool, record: FailureRecord, sent: seq<Request>)
    | Declined
    | NotAuthorized
    | Completed(sent: seq<Request>)

  /** Whether a task raised `totalTests` and its flow type's `executed`. */
  predicate Counted(d: Disposition) {
    !d.Skipped? && !(d.Failed? && !d.counted)
  }

  /** Whether a task is among the successful ones of the summary. */
  predicate Succeeded(d: Disposition) {
    d.Declined? || d.NotAuthorized? || d.Completed?
  }

  /** What one operation's call ends with once its retries are spent. */
  function Outcome(req: Request, outcomes: seq<Attempt>): Result<Response, ApiError>
    requires |outcomes| > DefaultRetries
  {
    CallApi(req.endpoint, outcomes, DefaultRetries, DefaultBackoff).result
  }

  /** What each operation's call ends with, in the order they are issued. */
  function Outcomes(reqs: seq<Request>, calls: seq<seq<Attempt>>): (rs: seq<Result<Response, ApiError>>)
    requires |calls| >= |reqs|
    requires forall i :: 0 <= i < |calls| ==> |calls[i]| > DefaultRetries
    ensures |rs| == |reqs|
    ensures forall i :: 0 <= i < |reqs| ==> rs[i] == Outcome(reqs[i], calls[i])
  {
    seq(|reqs|, i requires 0 <= i < |reqs| => Outcome(reqs[i], calls[i]))
  }

  /** The first failing result, with its index: the one that stops the flow. */
  function FirstError(rs: seq<Result<Response, ApiError>>): (r: Option<(nat, ApiError)>)
    ensures r.None? <==> forall i :: 0 <= i < |rs| ==> rs[i].Ok?
    ensures r.Some? ==>
              && r.value.0 < |rs|
              && (forall i :: 0 <= i < r.value.0 ==> rs[i].Ok?)
              && rs[r.value.0] == Err(r.value.1)
  {
    if rs == [] then None
    else if rs[0].Err? then Some((0, rs[0].error))
    else
      var rest := FirstError(rs[1..]);
      assert forall i :: 1 <= i < |rs| ==> rs[i] == rs[1..][i - 1];
      if rest.None? then None else Some((rest.value.0 + 1, rest.value.1))
  }

  /**
   * Issue the requests in order; the first call that fails after its retries
   * stops the flow. `None` when every call succeeds, else the index and error
   * of the failing one.
   */
  function Perform(reqs: seq<Request>, calls: seq<seq<Attempt>>): (r: Option<(nat, ApiError)>)
    requires |calls| >= |reqs|
    requires forall i :: 0 <= i < |calls| ==> |calls[i]| > DefaultRetries
    ensures r.None? <==> forall i :: 0 <= i < |reqs| ==> Outcome(reqs[i], calls[i]).Ok?
    ensures r.Some? ==>
              && r.value.0 < |reqs|
              && (forall i :: 0 <= i < r.value.0 ==> Outcome(reqs[i], calls[i]).Ok?)
              && Outcome(reqs[r.value.0], calls[r.value.0]) == Err(r.value.1)
  {
    FirstError(Outcomes(reqs, calls))
  }

  /** The operations a task's flow handler issues; a flow type without a handler issues none. */
  function HandlerOperations(flowType: string, amount: int, topUpLimit: int, refNo: string, d: Draws)
    : (ops: seq<Operation>)
    requires |d.topUps| >= 4
    ensures |ops| <= 5
    ensures HandlerFor(flowType).None? ==> ops == []
  {
    match HandlerFor(flowType)
    case None => []
    case Some(k) =>
      FlowOperations(k, amount, topUpLimit, refNo, d)
  }

  function Requests(transactionId: Option<string>, currency: Option<string>, ops: seq<Operation>)
    : (reqs: seq<Request>)
    ensures |reqs| == |ops|
    ensures forall i :: 0 <= i < |ops| ==> reqs[i] == OperationRequest(transactionId, currency, ops[i])
  {
    seq(|ops|, i requires 0 <= i < |ops| => OperationRequest(transactionId, currency, ops[i]))
  }

  /** The requests of a flow on one transaction: its handler's operations, in order. */
  function FlowRequests(flowType: string, transactionId: Option<string>, currency: Option<string>, amount: int,
                        topUpLimit: int, refNo: string, d: Draws): (reqs: seq<Request>)
    requires |d.topUps| >= 4
    ensures |reqs| <= 5
  {
    Requests(transactionId, currency, HandlerOperations(flowType, amount, topUpLimit, refNo, d))
  }

  /** A task's currency: `getRandomElement(currencies)`, undefined when the list is empty. */
  function TaskCurrency(t: Task, o: TaskDraws): Option<string> {
    GetRandomElement(t.merchant.currencies, o.currency)
  }

  /** The amount of a task whose instrument is chosen: the configured draw, then the success range. */
  function TaskAmount(t: Task, pm: PaymentMethod, o: TaskDraws): Result<int, string> {
    match GetTransactionAmount(t.merchant, pm, t.flowType, o.amount)
    case Err(msg) => Err(msg)
    case Ok(a) => Ok(if t.flowType != "decline" then AdjustAmountForSuccess(pm, a, o.success) else a)
  }

  function TaskRefNo(t: Task, o: TaskDraws): string {
    GenerateRefNo(t.merchant.referenceNumber, o.uuid, o.refLength)
  }

  /**
   * One iteration of the executor's loop, from a task and its draws to how it
   * ends. A task is skipped, without being counted, exactly when no saved
   * instrument is eligible; every failure record names its task's flow type
   * and has non-empty reference and transaction fields.
   */
  function Dispose(t: Task, methods: seq<PaymentMethod>, o: TaskDraws): (d: Disposition)
    requires Fits(o)
    ensures d.Skipped? <==> forall i :: 0 <= i < |methods| ==> !Eligible(methods[i], TaskCurrency(t, o), t.flowType)
    ensures d.Failed? ==> d.record.flowType == t.flowType && d.record.refNo != "" && d.record.transactionId != ""
  {
    match GetPaymentMethod(methods, TaskCurrency(t, o), t.flowType, o.instrument)
    case None => Skipped
    case Some(pm) => Priced(t, pm, o)
  }

  /** A task that found an instrument: its amount, then its authorisation. */
  function Priced(t: Task, pm: PaymentMethod, o: TaskDraws): (d: Disposition)
    requires Fits(o)
    ensures !d.Skipped?
    ensures TaskAmount(t, pm, o).Err? ==>
              d == Failed(false, FailureRecord(t.flowType, NotAvailable, NotAvailable, TaskAmount(t, pm, o).error), [])
    ensures TaskAmount(t, pm, o).Ok? ==>
              d == Authorised(t, TaskCurrency(t, o), TaskAmount(t, pm, o).value, TaskRefNo(t, o), o)
  {
    match TaskAmount(t, pm, o)
    case Err(msg) => Failed(false, Record(t.flowType, None, ApiError(None, msg)), [])
    case Ok(amount) => Authorised(t, TaskCurrency(t, o), amount, TaskRefNo(t, o), o)
  }

  /** A priced task: the authorisation's answer decides whether its flow runs. */
  function Authorised(t: Task, currency: Option<string>, amount: int, refNo: string, o: TaskDraws): (d: Disposition)
    requires Fits(o)
    ensures !d.Skipped? && (d.Failed? ==> d.counted)
    ensures d.Failed? ==> d.record.flowType == t.flowType && d.record.refNo != "" && d.record.transactionId != ""
    ensures t.flowType == "decline" ==> !d.Completed? && !d.NotAuthorized? && (d.Failed? ==> d.sent == [])
    ensures o.auth.AuthThrows? ==> d == Failed(true, Record(t.flowType, Some(refNo), o.auth.error), [])
    ensures !o.auth.AuthThrows? && t.flowType == "decline" ==> d == Declined
    ensures o.auth.AuthNull? && t.flowType != "decline" ==> d == NotAuthorized
    ensures o.auth.AuthData? && t.flowType != "decline" ==>
              d == Operated(t.flowType, refNo, FlowRequests(t.flowType, o.auth.transactionId, currency, amount,
                                                            t.merchant.topUpLimit, refNo, o.flow), o.calls)
  {
    match o.auth
    case AuthThrows(e) => Failed(true, Record(t.flowType, Some(refNo), e), [])
    case AuthNull => if t.flowType == "decline" then Declined else NotAuthorized
    case AuthData(transactionId) =>
      if t.flowType == "decline" then Declined
      else Operated(t.flowType, refNo, FlowRequests(t.flowType, transactionId, currency, amount,
                                                    t.merchant.topUpLimit, refNo, o.flow), o.calls)
  }

  /**
   * An authorised task issuing its flow's requests in order: it completes
   * having sent them all, or fails counted at the first failing one, which
   * is the last request sent and whose error is recorded.
   */
  function Operated(flowType: string, refNo: string, reqs: seq<Request>, calls: seq<seq<Attempt>>): (d: Disposition)
    requires |calls| >= |reqs|
    requires forall i :: 0 <= i < |calls| ==> |calls[i]| > DefaultRetries
    ensures d.Completed? || d.Failed?
    ensures d.Failed? ==> d.counted && d.record.flowType == flowType && d.record.refNo != "" && d.record.transactionId != ""
    ensures Perform(reqs, calls).None? <==> d == Completed(reqs)
    ensures Perform(reqs, calls).Some? ==>
              d == Failed(true, Record(flowType, Some(refNo), Perform(reqs, calls).value.1),
                          reqs[..Perform(reqs, calls).value.0 + 1])
  {
    match Perform(reqs, calls)
    case None => Completed(reqs)
    case Some((i, e)) => Failed(true, Record(flowType, Some(refNo), e), reqs[..i + 1])
  }

  // ---------------------------------------------------------------- per-task properties


  /** A `decline` task never reaches a flow handler: it issues no capture, credit, increase or cancel. */
  lemma DeclineNeverOperates(t: Task, methods: seq<PaymentMethod>, o: TaskDraws)
    requires Fits(o) && t.flowType == "decline"
    ensures var d := Dispose(t, methods, o);
            !d.Completed? && !d.NotAuthorized? && (d.Failed? ==> d.sent == [])
  {
  }

  /**
   * A task fails without being counted exactly when the merchant's amount
   * policy raises its error, and then its record carries `N/A` for both ids.
   */
  lemma UncountedFailureIsAmountError(t: Task, methods: seq<PaymentMethod>, o: TaskDraws)
    requires Fits(o)
    ensures var d := Dispose(t, methods, o);
            d.Failed? && !d.counted ==>
              && !ValidAmounts(t.merchant)
              && d.record == FailureRecord(t.flowType, NotAvailable, NotAvailable, AmountsError)
    ensures ValidAmounts(t.merchant) ==> (Counted(Dispose(t, methods, o)) <==> !Dispose(t, methods, o).Skipped?)
  {
  }

  /**
   * With an authorisation that answers data, a non-decline task whose calls
   * all succeed completes, having sent exactly its flow's operations, in
   * order, to `<transactionId>/<action>`.
   */
  lemma DisposeCompletesFlow(t: Task, methods: seq<PaymentMethod>, o: TaskDraws, pm: PaymentMethod, amount: int)
    requires Fits(o) && t.flowType != "decline" && o.auth.AuthData?
    requires GetPaymentMethod(methods, TaskCurrency(t, o), t.flowType, o.instrument) == Some(pm)
    requires TaskAmount(t, pm, o) == Ok(amount)
    requires forall i :: 0 <= i < |o.calls| ==> o.calls[i][0].Resolved?
    ensures var ops := HandlerOperations(t.flowType, amount, t.merchant.topUpLimit, TaskRefNo(t, o), o.flow);
            var d := Dispose(t, methods, o);
            && d == Completed(Requests(o.auth.transactionId, TaskCurrency(t, o), ops))
            && |d.sent| == |ops|
            && (forall i :: 0 <= i < |ops| ==>
                  d.sent[i].endpoint == Text(o.auth.transactionId) + "/" + Action(ops[i]))
  {
    var ops := HandlerOperations(t.flowType, amount, t.merchant.topUpLimit, TaskRefNo(t, o), o.flow);
    var reqs := Requests(o.auth.transactionId, TaskCurrency(t, o), ops);
    forall i | 0 <= i < |reqs|
      ensures Outcome(reqs[i], o.calls[i]).Ok?
    {
      assert o.calls[i][0].Resolved?;
    }
  }


  /** The error `main.js` meets by calling `transactionOperations.authorize`, which does not exist. */
  const MissingAuthorize := AuthThrows(ApiError(None, "transactionOperations.authorize is not a function"))

  /**
   * As written, authorisation always throws, so every counted task (a
   * `decline` included) fails before any operation, with transaction id `N/A`.
   */
  lemma AsWrittenEveryCountedTaskFails(t: Task, methods: seq<PaymentMethod>, o: TaskDraws)
    requires Fits(o) && o.auth == MissingAuthorize
    ensures var d := Dispose(t, methods, o);
            Counted(d) ==>
              && d.Failed? && d.sent == []
              && d.record.transactionId == NotAvailable
              && d.record.error == "transactionOperations.authorize is not a function"
  {
  }

  /**
   * What `initiateFlow` answers, as the authorisation step's result:
   * `initCIT`'s transaction id, `authorizeMIT`'s data or null, or the error.
   */
  function AuthOf(i: Initiated): (a: AuthResult)
    ensures i.Merchant? && i.auth.Ok? && i.auth.value.Data? ==> a == AuthData(i.auth.value.transactionId)
    ensures i.Customer? && i.init.Ok? ==> a == AuthData(i.init.value.transactionId)
    ensures a.AuthThrows? <==> (i.Customer? && i.init.Err?) || (i.Merchant? && i.auth.Err?)
    ensures a.AuthNull? <==> i.Merchant? && i.auth == Ok(Null)
  {
    match i
    case Customer(Ok(init)) => AuthData(init.transactionId)
    case Customer(Err(e)) => AuthThrows(e)
    case Merchant(Ok(Null)) => AuthNull
    case Merchant(Ok(Data(_, id))) => AuthData(id)
    case Merchant(Err(e)) => AuthThrows(e)
  }

  /**
   * The authorisation step wired to `initiateFlow` with the argument order it
   * declares. A merchant-initiated authorisation never answers null, so the
   * executor's `!authResult` skip only matters for other authorisers.
   */
  method Authorize(t: Task, refNo: string, amount: int, currency: Option<string>, pm: PaymentMethod,
                   outcomes: seq<Attempt>) returns (a: AuthResult)
    requires |outcomes| > DefaultRetries
    modifies PayloadFrame(pm)
    ensures !IsCustomerInitiated(t.flowType) ==>
              a == AuthOf(Merchant(AuthorizeMit(refNo, amount, currency, pm, t.flowType, outcomes).answer)) && !a.AuthNull?
  {
    var i, _ := InitiateFlow(t.merchant, t.flowType, refNo, amount, currency, pm, outcomes);
    a := AuthOf(i);
    if !IsCustomerInitiated(t.flowType) {
      AuthorizeMitNeverNull(refNo, amount, currency, pm, t.flowType, outcomes);
    }
  }

  // ---------------------------------------------------------------- a whole run

  function Dispositions(tasks: seq<Task>, methods: seq<PaymentMethod>, oracles: seq<TaskDraws>)
    : (ds: seq<Disposition>)
    requires |oracles| == |tasks| && forall i :: 0 <= i < |oracles| ==> Fits(oracles[i])
    ensures |ds| == |tasks|
    ensures forall i :: 0 <= i < |tasks| ==> ds[i] == Dispose(tasks[i], methods, oracles[i])
  {
    seq(|tasks|, i requires 0 <= i < |tasks| => Dispose(tasks[i], methods, oracles[i]))
  }

  /** What one task adds to `totalTests`: one when it is counted. */
  function CountOf(d: Disposition): (n: nat)
    ensures n == 1 <==> Counted(d)
    ensures n <= 1
  {
    if Counted(d) then 1 else 0
  }

  /** What one task appends to the failure list: its record when it failed. */
  function RecordOf(d: Disposition): (rs: seq<FailureRecord>)
    ensures d.Failed? ==> rs == [d.record]
    ensures !d.Failed? <==> rs == []
  {
    if d.Failed? then [d.record] else []
  }

  /** How many tasks were counted, as `totalTests` grows. */
  function CountedTasks(ds: seq<Disposition>): nat {
    if ds == [] then 0 else CountedTasks(ds[..|ds| - 1]) + CountOf(ds[|ds| - 1])
  }

  /** The failure list, in task order. */
  function Records(ds: seq<Disposition>): seq<FailureRecord> {
    if ds == [] then [] else Records(ds[..|ds| - 1]) + RecordOf(ds[|ds| - 1])
  }

  function SucceededTasks(ds: seq<Disposition>): nat {
    if ds == [] then 0 else SucceededTasks(ds[..|ds| - 1]) + (if Succeeded(ds[|ds| - 1]) then 1 else 0)
  }

  function UncountedFailures(ds: seq<Disposition>): nat {
    if ds == [] then 0 else UncountedFailures(ds[..|ds| - 1]) + (if ds[|ds| - 1].Failed? && !ds[|ds| - 1].counted then 1 else 0)
  }

  /** How many tasks of the flow type were counted, as its `executed` grows. */
  function ExecutedOf(tasks: seq<Task>, ds: seq<Disposition>, ft: string): nat
    requires |ds| == |tasks|
  {
    if ds == [] then 0
    else ExecutedOf(tasks[..|tasks| - 1], ds[..|ds| - 1], ft)
         + (if tasks[|tasks| - 1].flowType == ft && Counted(ds[|ds| - 1]) then 1 else 0)
  }

  /**
   * The summary's `Successful = totalTests − failed`: it is the number of
   * succeeded tasks less the failures raised before counting.
   */
  lemma {:induction false} SummaryArithmetic(ds: seq<Disposition>)
    ensures CountedTasks(ds) - |Records(ds)| == SucceededTasks(ds) - UncountedFailures(ds)
  {
    if ds != [] {
      SummaryArithmetic(ds[..|ds| - 1]);
    }
  }

  lemma {:induction false} NoUncountedFailures(tasks: seq<Task>, methods: seq<PaymentMethod>, oracles: seq<TaskDraws>, n: nat)
    requires |oracles| == |tasks| && forall i :: 0 <= i < |oracles| ==> Fits(oracles[i])
    requires forall i :: 0 <= i < |tasks| ==> ValidAmounts(tasks[i].merchant)
    requires n <= |tasks|
    ensures UncountedFailures(Dispositions(tasks, methods, oracles)[..n]) == 0
  {
    var ds := Dispositions(tasks, methods, oracles);
    if n > 0 {
      NoUncountedFailures(tasks, methods, oracles, n - 1);
      assert ds[..n][..n - 1] == ds[..n - 1];
      UncountedFailureIsAmountError(tasks[n - 1], methods, oracles[n - 1]);
    }
  }

  /**
   * When every merchant's amount policy is valid, the summary's Successful
   * count is never negative: it is exactly the number of declined,
   * unauthorised and completed tasks.
   */
  lemma SuccessfulIsSucceeded(tasks: seq<Task>, methods: seq<PaymentMethod>, oracles: seq<TaskDraws>)
    requires |oracles| == |tasks| && forall i :: 0 <= i < |oracles| ==> Fits(oracles[i])
    requires forall i :: 0 <= i < |tasks| ==> ValidAmounts(tasks[i].merchant)
    ensures var ds := Dispositions(tasks, methods, oracles);
            CountedTasks(ds) - |Records(ds)| == SucceededTasks(ds) >= 0
  {
    var ds := Dispositions(tasks, methods, oracles);
    SummaryArithmetic(ds);
    NoUncountedFailures(tasks, methods, oracles, |tasks|);
    assert ds[..|tasks|] == ds;
  }

  /**
   * A merchant with neither specific amounts nor a two-bound range fails
   * every task that finds an instrument without counting it, so the
   * summary's Successful count drops below zero.
   */
  lemma InvalidAmountsMakeSuccessfulNegative(t: Task, methods: seq<PaymentMethod>, o: TaskDraws)
    requires Fits(o) && !ValidAmounts(t.merchant) && t.flowType != "decline"
    requires GetPaymentMethod(methods, TaskCurrency(t, o), t.flowType, o.instrument).Some?
    ensures var ds := Dispositions([t], methods, [o]);
            CountedTasks(ds) - |Records(ds)| == -1
  {
    var ds := Dispositions([t], methods, [o]);
    assert ds[..0] == [];
  }

  lemma {:induction false} ExecutedWithinCount(tasks: seq<Task>, ds: seq<Disposition>, ft: string)
    requires |ds| == |tasks|
    ensures ExecutedOf(tasks, ds, ft) <= FlowTypeCount(tasks, ft)
  {
    if ds != [] {
      var n := |tasks|;
      ExecutedWithinCount(tasks[..n - 1], ds[..n - 1], ft);
      assert tasks == tasks[..n - 1] + [tasks[n - 1]];
      FlowTypeCountAppend(tasks[..n - 1], [tasks[n - 1]], ft);
      assert [tasks[n - 1]][1..] == [];
    }
  }

  /**
   * For any shuffle of the pool, no flow type is executed more often than its
   * planned count, summed over the merchants that configure it.
   */
  lemma ExecutedWithinPlanned(configs: seq<MerchantConfig>, tasks: seq<Task>, ds: seq<Disposition>, ft: string)
    requires multiset(tasks) == multiset(Pool(configs)) && |ds| == |tasks|
    ensures ExecutedOf(tasks, ds, ft) <= PlannedCount(configs, ft)
  {
    ExecutedWithinCount(tasks, ds, ft);
    FlowTypeCountPermutation(tasks, Pool(configs), ft);
    PoolFlowTypeCount(configs, ft);
  }

  /** What one more task adds to each running total. */
  lemma TallyStep(tasks: seq<Task>, ds: seq<Disposition>, i: nat)
    requires |ds| == |tasks| && i < |tasks|
    ensures CountedTasks(ds[..i + 1]) == CountedTasks(ds[..i]) + CountOf(ds[i])
    ensures Records(ds[..i + 1]) == Records(ds[..i]) + RecordOf(ds[i])
    ensures forall ft :: ExecutedOf(tasks[..i + 1], ds[..i + 1], ft)
                         == ExecutedOf(tasks[..i], ds[..i], ft) + (if tasks[i].flowType == ft && Counted(ds[i]) then 1 else 0)
  {
    assert ds[..i + 1][..i] == ds[..i] && tasks[..i + 1][..i] == tasks[..i];
  }

  /** The table after one task: a counted task raises its flow type's `executed` by one, nothing else changes. */
  function Bump(table: map<string, FlowStats>, ft: string, counted: bool): (t: map<string, FlowStats>)
    requires ft in table
    ensures t.Keys == table.Keys
    ensures forall k :: k in t ==>
              t[k] == if counted && k == ft then FlowStats(table[k].planned, table[k].executed + 1) else table[k]
  {
    if counted then table[ft := FlowStats(table[ft].planned, table[ft].executed + 1)] else table
  }

  /** The table `base` with each row's `executed` raised by how many tasks of its flow type were counted. */
  function Executed(base: map<string, FlowStats>, tasks: seq<Task>, ds: seq<Disposition>): (t: map<string, FlowStats>)
    requires |ds| == |tasks|
    ensures t.Keys == base.Keys
    ensures forall ft :: ft in t ==> t[ft] == FlowStats(base[ft].planned, base[ft].executed + ExecutedOf(tasks, ds, ft))
  {
    map ft | ft in base :: FlowStats(base[ft].planned, base[ft].executed + ExecutedOf(tasks, ds, ft))
  }

  /** Tallying task `i` moves the table from its counts over `tasks[..i]` to its counts over `tasks[..i + 1]`. */
  lemma TableStep(base: map<string, FlowStats>, tasks: seq<Task>, ds: seq<Disposition>, i: nat)
    requires |ds| == |tasks| && i < |tasks| && tasks[i].flowType in base
    ensures Bump(Executed(base, tasks[..i], ds[..i]), tasks[i].flowType, Counted(ds[i]))
            == Executed(base, tasks[..i + 1], ds[..i + 1])
  {
    TallyStep(tasks, ds, i);
    var before := Executed(base, tasks[..i], ds[..i]);
    var after := Bump(before, tasks[i].flowType, Counted(ds[i]));
    var next := Executed(base, tasks[..i + 1], ds[..i + 1]);
    forall ft | ft in after
      ensures after[ft] == next[ft]
    {
      assert ft in before;
    }
  }

  /** The state of one execution: the statistics table and the failure list. */
  class Run {
    var totalTests: nat
    var flows: map<string, FlowStats>
    var failed: seq<FailureRecord>

    /** Fills the table from the configurations, summing each flow type's counts. */
    constructor (configs: seq<MerchantConfig>)
      ensures totalTests == 0 && failed == [] && flows == InitialStatistics(configs)
    {
      totalTests := 0;
      failed := [];
      var stats: map<string, FlowStats> := map[];
      for i := 0 to |configs|
        invariant AddConfigs(stats, configs[i..]) == InitialStatistics(configs)
      {
        var entries := configs[i].transactionFlows;
        assert configs[i..][0] == configs[i] && configs[i..][1..] == configs[i + 1..];
        for j := 0 to |entries|
          invariant AddConfigs(AddEntries(stats, entries[j..]), configs[i + 1..]) == InitialStatistics(configs)
        {
          var e := entries[j];
          assert entries[j..][0] == e && entries[j..][1..] == entries[j + 1..];
          var planned := if e.flowType in stats then stats[e.flowType].planned else 0;
          stats := stats[e.flowType := FlowStats(planned + e.count, 0)];
        }
        assert entries[|entries|..] == [];
      }
      assert configs[|configs|..] == [];
      flows := stats;
    }

    /** The bookkeeping of one task: the counters, then the failure list. */
    method Tally(flowType: string, d: Disposition)
      requires flowType in flows
      modifies this
      ensures totalTests == old(totalTests) + CountOf(d)
      ensures flows == Bump(old(flows), flowType, Counted(d))
      ensures failed == old(failed) + RecordOf(d)
    {
      if Counted(d) {
        totalTests := totalTests + 1;
        flows := flows[flowType := FlowStats(flows[flowType].planned, flows[flowType].executed + 1)];
      }
      if d.Failed? {
        failed := failed + [d.record];
      }
    }

    /** One task of the executor's loop: how it ends, then its bookkeeping. */
    method RunTask(t: Task, methods: seq<PaymentMethod>, o: TaskDraws)
      requires Fits(o) && t.flowType in flows
      modifies this
      ensures totalTests == old(totalTests) + CountOf(Dispose(t, methods, o))
      ensures flows == Bump(old(flows), t.flowType, Counted(Dispose(t, methods, o)))
      ensures failed == old(failed) + RecordOf(Dispose(t, methods, o))
    {
      var d := Dispose(t, methods, o);
      Tally(t.flowType, d);
    }

    /** The executor's loop over the shuffled pool. */
    method ExecuteTasks(tasks: seq<Task>, methods: seq<PaymentMethod>, oracles: seq<TaskDraws>)
      requires |oracles| == |tasks| && forall i :: 0 <= i < |oracles| ==> Fits(oracles[i])
      requires forall i :: 0 <= i < |tasks| ==> tasks[i].flowType in flows
      modifies this
      ensures var ds := Dispositions(tasks, methods, oracles);
              && totalTests == old(totalTests) + CountedTasks(ds)
              && failed == old(failed) + Records(ds)
              && flows.Keys == old(flows).Keys
              && forall ft :: ft in flows ==>
                   flows[ft] == FlowStats(old(flows)[ft].planned, old(flows)[ft].executed + ExecutedOf(tasks, ds, ft))
    {
      ghost var ds := Dispositions(tasks, methods, oracles);
      for i := 0 to |tasks|
        invariant totalTests == old(totalTests) + CountedTasks(ds[..i])
        invariant failed == old(failed) + Records(ds[..i])
        invariant flows == Executed(old(flows), tasks[..i], ds[..i])
      {
        TallyStep(tasks, ds, i);
        assert ds[i] == Dispose(tasks[i], methods, oracles[i]);
        AppendAssoc(old(failed), Records(ds[..i]), RecordOf(ds[i]));
        TableStep(old(flows), tasks, ds, i);
        RunTask(tasks[i], methods, oracles[i]);
      }
      assert ds[..|tasks|] == ds && tasks[..|tasks|] == tasks;
    }
  }

  /**
   * `executeFlows` on a shuffle of the pool: the table starts from the
   * configurations, every task is tallied, and the failures are listed in order.
   */
  method ExecuteFlows(configs: seq<MerchantConfig>, methods: seq<PaymentMethod>, shuffled: seq<Task>,
                      oracles: seq<TaskDraws>) returns (run: Run)
    requires multiset(shuffled) == multiset(Pool(configs))
    requires |oracles| == |shuffled| && forall i :: 0 <= i < |oracles| ==> Fits(oracles[i])
    ensures fresh(run)
    ensures var ds := Dispositions(shuffled, methods, oracles);
            && run.totalTests == CountedTasks(ds)
            && run.failed == Records(ds)
            && run.flows.Keys == FlowTypes(configs)
            && forall ft :: ft in run.flows ==>
                 run.flows[ft].planned == PlannedCount(configs, ft)
                 && run.flows[ft].executed == ExecutedOf(shuffled, ds, ft) <= run.flows[ft].planned
  {
    run := new Run(configs);
    InitialStatisticsKeys(configs);
    ShuffledTypesInTable(configs, shuffled);
    run.ExecuteTasks(shuffled, methods, oracles);
    ghost var ds := Dispositions(shuffled, methods, oracles);
    forall ft | ft in run.flows
      ensures run.flows[ft].planned == PlannedCount(configs, ft)
      ensures run.flows[ft].executed == ExecutedOf(shuffled, ds, ft) <= run.flows[ft].planned
    {
      InitialStatisticsSpec(map[], configs, ft);
      ExecutedWithinPlanned(configs, shuffled, ds, ft);
    }
  }

  /** Every task of a shuffled pool has a row in the initial table. */
  lemma ShuffledTypesInTable(configs: seq<MerchantConfig>, shuffled: seq<Task>)
    requires multiset(shuffled) == multiset(Pool(configs))
    ensures forall i :: 0 <= i < |shuffled| ==> shuffled[i].flowType in InitialStatistics(configs)
  {
    forall i | 0 <= i < |shuffled|
      ensures shuffled[i].flowType in InitialStatistics(configs)
    {
      assert shuffled[i] in multiset(Pool(configs));
      PoolFlowTypes(configs, shuffled[i]);
      InitialStatisticsSpec(map[], configs, shuffled[i].flowType);
    }
  }
}
