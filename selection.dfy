/**
 * The executor's selection logic: which saved instrument a task may use,
 * where its amount comes from, how a task pool is built from the merchant
 * configurations, and the planned counts of the statistics table.
 */
module Selection {
  import opened Common
  import opened Strings
  import opened Config
  import opened Helpers

  // ---------------------------------------------------------------- instruments

  function Where(s: seq<PaymentMethod>, keep: PaymentMethod -> bool): (r: seq<PaymentMethod>)
    ensures forall i :: 0 <= i < |r| ==> r[i] in s && keep(r[i])
    ensures forall i :: 0 <= i < |s| && keep(s[i]) ==> s[i] in r
  {
    if s == [] then []
    else (if keep(s[0]) then [s[0]] else []) + Where(s[1..], keep)
  }

  /** No currency list at all, or one that includes the chosen currency (an undefined one is in no list). */
  predicate AcceptsCurrency(pm: PaymentMethod, currency: Option<string>) {
    pm.currencies.None? || (currency.Some? && currency.value in pm.currencies.value)
  }

  /** What makes an instrument usable for a task. */
  predicate Eligible(pm: PaymentMethod, currency: Option<string>, flowType: string) {
    && AcceptsCurrency(pm, currency)
    && (flowType == "decline" ==> pm.declineRange.Some?)
    && (Includes(flowType, "TopUp") ==> pm.kind == "card")
  }

  /** The three successive filters of `getPaymentMethod`. */
  function Candidates(methods: seq<PaymentMethod>, currency: Option<string>, flowType: string)
    : (valid: seq<PaymentMethod>)
    ensures forall i :: 0 <= i < |valid| ==> valid[i] in methods && Eligible(valid[i], currency, flowType)
    ensures forall i :: 0 <= i < |methods| && Eligible(methods[i], currency, flowType) ==> methods[i] in valid
  {
    var byCurrency := Where(methods, (x: PaymentMethod) => AcceptsCurrency(x, currency));
    var byDecline := if flowType == "decline" then Where(byCurrency, (x: PaymentMethod) => x.declineRange.Some?)
                     else byCurrency;
    if Includes(flowType, "TopUp") then Where(byDecline, (x: PaymentMethod) => x.kind == "card") else byDecline
  }

  /**
   * `getPaymentMethod`: keep the instruments that accept the currency; for
   * `decline` only those with a decline range; for a flow type containing
   * `TopUp` only cards; then pick one at random.
   */
  function GetPaymentMethod(methods: seq<PaymentMethod>, currency: Option<string>, flowType: string, r: Random)
    : (pm: Option<PaymentMethod>)
    ensures pm.Some? ==> pm.value in methods && Eligible(pm.value, currency, flowType)
    ensures pm.None? <==> forall i :: 0 <= i < |methods| ==> !Eligible(methods[i], currency, flowType)
  {
    GetRandomElement(Candidates(methods, currency, flowType), r)
  }

  /** Every eligible instrument is picked by some draw. */
  lemma GetPaymentMethodReaches(methods: seq<PaymentMethod>, currency: Option<string>, flowType: string,
                                pm: PaymentMethod)
    requires pm in methods && Eligible(pm, currency, flowType)
    ensures exists r: Random :: GetPaymentMethod(methods, currency, flowType, r) == Some(pm)
  {
    var valid := Candidates(methods, currency, flowType);
    var k :| 0 <= k < |valid| && valid[k] == pm;
    GetRandomElementReaches(valid, k);
    var r: Random :| GetRandomElement(valid, r) == Some(valid[k]);
    assert GetPaymentMethod(methods, currency, flowType, r) == Some(pm);
  }

  // ---------------------------------------------------------------- amounts

  const AmountsError := "Invalid or missing amounts configuration"

  /** Whether the amount comes from the instrument's decline range. */
  predicate UsesDeclineRange(pm: PaymentMethod, flowType: string) {
    flowType == "decline" && pm.declineRange.Some?
  }

  /**
   * `getTransactionAmount`: the decline range for a decline with one, else a
   * member of `specific` when that is non-empty, else a draw from a
   * two-bound `range`, else the configuration error.
   */
  function GetTransactionAmount(m: MerchantConfig, pm: PaymentMethod, flowType: string, r: Random)
    : (a: Result<int, string>)
    ensures a.Err? <==> !UsesDeclineRange(pm, flowType) && m.amounts.specific == [] && |m.amounts.range| != 2
    ensures a.Err? ==> a.error == AmountsError
    ensures UsesDeclineRange(pm, flowType) && pm.declineRange.value.min <= pm.declineRange.value.max ==>
              pm.declineRange.value.min <= a.value <= pm.declineRange.value.max
    ensures !UsesDeclineRange(pm, flowType) && m.amounts.specific != [] ==> a.Ok? && a.value in m.amounts.specific
    ensures !UsesDeclineRange(pm, flowType) && m.amounts.specific == [] && |m.amounts.range| == 2
            && m.amounts.range[0] <= m.amounts.range[1] ==>
              a.Ok? && m.amounts.range[0] <= a.value <= m.amounts.range[1]
  {
    if UsesDeclineRange(pm, flowType) then
      Ok(GetRandomNumber(pm.declineRange.value.min, pm.declineRange.value.max, r))
    else if |m.amounts.specific| > 0 then
      Ok(GetRandomElement(m.amounts.specific, r).value)
    else if |m.amounts.range| == 2 then
      Ok(GetRandomNumber(m.amounts.range[0], m.amounts.range[1], r))
    else
      Err(AmountsError)
  }

  /** `adjustAmountForSuccess`: a success range replaces the amount with a draw from it. */
  function AdjustAmountForSuccess(pm: PaymentMethod, amount: int, r: Random): (a: int)
    ensures pm.successRange.None? ==> a == amount
    ensures pm.successRange.Some? && pm.successRange.value.min <= pm.successRange.value.max ==>
              pm.successRange.value.min <= a <= pm.successRange.value.max
  {
    if pm.successRange.Some? then GetRandomNumber(pm.successRange.value.min, pm.successRange.value.max, r)
    else amount
  }

  /** A merchant whose amount policy never raises the configuration error. */
  predicate ValidAmounts(m: MerchantConfig) {
    m.amounts.specific != [] || |m.amounts.range| == 2
  }

  // ---------------------------------------------------------------- the pool

  /** One entry of the flow pool: a merchant and a flow type. */
  datatype Task = Task(merchant: MerchantConfig, flowType: string)

  function EntryTasks(m: MerchantConfig, e: FlowEntry): (ts: seq<Task>)
    ensures |ts| == e.count
  {
    seq(e.count, _ => Task(m, e.flowType))
  }

  function MerchantTasks(m: MerchantConfig, entries: seq<FlowEntry>): seq<Task> {
    if entries == [] then [] else EntryTasks(m, entries[0]) + MerchantTasks(m, entries[1..])
  }

  /**
   * The flow pool before shuffling: `count` copies of each configured
   * (merchant, flow type), in order, as many tasks as all counts together.
   */
  function Pool(configs: seq<MerchantConfig>): (ts: seq<Task>)
    ensures |ts| == TotalCount(configs)
  {
    if configs == [] then []
    else
      MerchantTasksSize(configs[0], configs[0].transactionFlows);
      MerchantTasks(configs[0], configs[0].transactionFlows) + Pool(configs[1..])
  }

  function EntriesCount(entries: seq<FlowEntry>): nat {
    if entries == [] then 0 else entries[0].count + EntriesCount(entries[1..])
  }

  /** The sum of all configured counts. */
  function TotalCount(configs: seq<MerchantConfig>): nat {
    if configs == [] then 0 else EntriesCount(configs[0].transactionFlows) + TotalCount(configs[1..])
  }

  /** The flow types some merchant configures. */
  function FlowTypes(configs: seq<MerchantConfig>): set<string> {
    set i, j | 0 <= i < |configs| && 0 <= j < |configs[i].transactionFlows| :: configs[i].transactionFlows[j].flowType
  }

  lemma {:induction false} MerchantTasksSize(m: MerchantConfig, entries: seq<FlowEntry>)
    ensures |MerchantTasks(m, entries)| == EntriesCount(entries)
  {
    if entries != [] {
      MerchantTasksSize(m, entries[1..]);
    }
  }

  lemma {:induction false} MerchantTasksMembers(m: MerchantConfig, entries: seq<FlowEntry>, t: Task)
    ensures t in MerchantTasks(m, entries) <==>
              t.merchant == m && exists j :: 0 <= j < |entries| && entries[j].flowType == t.flowType && entries[j].count > 0
  {
    if entries != [] {
      MerchantTasksMembers(m, entries[1..], t);
      if t.merchant == m && entries[0].flowType == t.flowType && entries[0].count > 0 {
        assert EntryTasks(m, entries[0])[0] == t;
      }
      assert forall j :: 1 <= j < |entries| ==> entries[j] == entries[1..][j - 1];
    }
  }

  /**
   * A task is in the pool exactly when its merchant is configured with a
   * positive count for its flow type.
   */
  lemma PoolMembers(configs: seq<MerchantConfig>, t: Task)
    ensures t in Pool(configs) <==>
              exists i, j :: 0 <= i < |configs| && 0 <= j < |configs[i].transactionFlows|
                             && configs[i] == t.merchant && configs[i].transactionFlows[j].flowType == t.flowType
                             && configs[i].transactionFlows[j].count > 0
  {
    PoolMerchants(configs, t);
    if t in Pool(configs) {
      var i :| 0 <= i < |configs| && configs[i] == t.merchant && Configures(configs[i].transactionFlows, t.flowType);
      var j :| 0 <= j < |configs[i].transactionFlows| && configs[i].transactionFlows[j].flowType == t.flowType
               && configs[i].transactionFlows[j].count > 0;
    } else {
      forall i, j | 0 <= i < |configs| && 0 <= j < |configs[i].transactionFlows| && configs[i] == t.merchant
                    && configs[i].transactionFlows[j].flowType == t.flowType
        ensures configs[i].transactionFlows[j].count == 0
      {
        assert !Configures(configs[i].transactionFlows, t.flowType);
      }
    }
  }

  /** Some entry configures the flow type with a positive count. */
  predicate Configures(entries: seq<FlowEntry>, ft: string) {
    exists j :: 0 <= j < |entries| && entries[j].flowType == ft && entries[j].count > 0
  }

  lemma {:induction false} PoolMerchants(configs: seq<MerchantConfig>, t: Task)
    ensures t in Pool(configs) <==>
              exists i :: 0 <= i < |configs| && configs[i] == t.merchant && Configures(configs[i].transactionFlows, t.flowType)
  {
    if configs != [] {
      PoolMerchants(configs[1..], t);
      MerchantTasksMembers(configs[0], configs[0].transactionFlows, t);
      assert Pool(configs) == MerchantTasks(configs[0], configs[0].transactionFlows) + Pool(configs[1..]);
      if t in Pool(configs[1..]) {
        var i :| 0 <= i < |configs[1..]| && configs[1..][i] == t.merchant
                 && Configures(configs[1..][i].transactionFlows, t.flowType);
        assert configs[i + 1] == configs[1..][i];
      }
      if exists i :: 0 <= i < |configs| && configs[i] == t.merchant && Configures(configs[i].transactionFlows, t.flowType) {
        var i :| 0 <= i < |configs| && configs[i] == t.merchant && Configures(configs[i].transactionFlows, t.flowType);
        if i > 0 {
          assert configs[1..][i - 1] == configs[i];
        }
      }
    }
  }

  /** Every pooled task's flow type is a configured one. */
  lemma PoolFlowTypes(configs: seq<MerchantConfig>, t: Task)
    requires t in Pool(configs)
    ensures t.flowType in FlowTypes(configs)
  {
    PoolMembers(configs, t);
  }

  /** The pool built by nested loops, one push per configured copy. */
  method BuildPool(configs: seq<MerchantConfig>) returns (pool: seq<Task>)
    ensures pool == Pool(configs)
  {
    pool := [];
    for i := 0 to |configs|
      invariant pool + Pool(configs[i..]) == Pool(configs)
    {
      var m := configs[i];
      ghost var before := pool;
      PoolStep(configs, i);
      for j := 0 to |m.transactionFlows|
        invariant pool + MerchantTasks(m, m.transactionFlows[j..]) == before + MerchantTasks(m, m.transactionFlows)
      {
        var e := m.transactionFlows[j];
        ghost var start := pool;
        for k := 0 to e.count
          invariant pool == start + EntryTasks(m, e)[..k]
        {
          EntryTasksPrefix(m, e, k);
          AppendAssoc(start, EntryTasks(m, e)[..k], [Task(m, e.flowType)]);
          pool := pool + [Task(m, e.flowType)];
        }
        assert EntryTasks(m, e)[..e.count] == EntryTasks(m, e);
        MerchantTasksStep(m, m.transactionFlows, j);
        AppendAssoc(start, EntryTasks(m, e), MerchantTasks(m, m.transactionFlows[j + 1..]));
      }
      assert m.transactionFlows[|m.transactionFlows|..] == [];
      assert pool == before + MerchantTasks(m, m.transactionFlows);
      AppendAssoc(before, MerchantTasks(m, m.transactionFlows), Pool(configs[i + 1..]));
    }
    assert configs[|configs|..] == [];
  }

  lemma EntryTasksPrefix(m: MerchantConfig, e: FlowEntry, k: nat)
    requires k < e.count
    ensures EntryTasks(m, e)[..k + 1] == EntryTasks(m, e)[..k] + [Task(m, e.flowType)]
  {
    assert EntryTasks(m, e)[k] == Task(m, e.flowType);
  }

  lemma MerchantTasksStep(m: MerchantConfig, entries: seq<FlowEntry>, j: nat)
    requires j < |entries|
    ensures MerchantTasks(m, entries[j..]) == EntryTasks(m, entries[j]) + MerchantTasks(m, entries[j + 1..])
  {
    assert entries[j..][0] == entries[j] && entries[j..][1..] == entries[j + 1..];
  }

  lemma PoolStep(configs: seq<MerchantConfig>, i: nat)
    requires i < |configs|
    ensures Pool(configs[i..]) == MerchantTasks(configs[i], configs[i].transactionFlows) + Pool(configs[i + 1..])
  {
    assert configs[i..][0] == configs[i] && configs[i..][1..] == configs[i + 1..];
  }

  // ---------------------------------------------------------------- planned counts

  /** How many of those tasks have the flow type. */
  function FlowTypeCount(tasks: seq<Task>, ft: string): nat {
    if tasks == [] then 0 else (if tasks[0].flowType == ft then 1 else 0) + FlowTypeCount(tasks[1..], ft)
  }

  lemma {:induction false} FlowTypeCountAppend(a: seq<Task>, b: seq<Task>, ft: string)
    ensures FlowTypeCount(a + b, ft) == FlowTypeCount(a, ft) + FlowTypeCount(b, ft)
  {
    if a != [] {
      assert (a + b)[0] == a[0] && (a + b)[1..] == a[1..] + b;
      FlowTypeCountAppend(a[1..], b, ft);
    } else {
      assert a + b == b;
    }
  }

  /** Shuffling the pool does not change how many tasks each flow type has. */
  lemma {:induction false} FlowTypeCountPermutation(a: seq<Task>, b: seq<Task>, ft: string)
    requires multiset(a) == multiset(b)
    ensures FlowTypeCount(a, ft) == FlowTypeCount(b, ft)
    decreases |a|
  {
    if a != [] {
      assert a[0] in multiset(b);
      var k :| 0 <= k < |b| && b[k] == a[0];
      MultisetRemove(a, b, k);
      FlowTypeCountPermutation(a[1..], b[..k] + b[k + 1..], ft);
      FlowTypeCountRemove(b, k, ft);
      assert FlowTypeCount(a, ft) == (if a[0].flowType == ft then 1 else 0) + FlowTypeCount(a[1..], ft);
    } else {
      assert |b| == |multiset(b)| == 0;
    }
  }

  lemma MultisetRemove(a: seq<Task>, b: seq<Task>, k: nat)
    requires multiset(a) == multiset(b) && a != [] && k < |b| && b[k] == a[0]
    ensures multiset(a[1..]) == multiset(b[..k] + b[k + 1..])
  {
    assert a == [a[0]] + a[1..];
    assert b == b[..k] + [b[k]] + b[k + 1..];
    assert multiset(a) == multiset{a[0]} + multiset(a[1..]);
    assert multiset(b) == multiset(b[..k]) + multiset{b[k]} + multiset(b[k + 1..]);
    assert multiset(b[..k] + b[k + 1..]) == multiset(b[..k]) + multiset(b[k + 1..]);
    assert multiset(a[1..]) == multiset(a) - multiset{a[0]};
  }

  /** Taking one task out of a sequence lowers its flow type's count by one. */
  lemma FlowTypeCountRemove(b: seq<Task>, k: nat, ft: string)
    requires k < |b|
    ensures FlowTypeCount(b, ft) == FlowTypeCount(b[..k] + b[k + 1..], ft) + (if b[k].flowType == ft then 1 else 0)
  {
    assert b == b[..k] + ([b[k]] + b[k + 1..]);
    FlowTypeCountAppend(b[..k], [b[k]] + b[k + 1..], ft);
    FlowTypeCountAppend(b[..k], b[k + 1..], ft);
    assert ([b[k]] + b[k + 1..])[1..] == b[k + 1..];
  }

  /** The configured count of a flow type, summed over the merchant's entries. */
  function EntriesPlanned(entries: seq<FlowEntry>, ft: string): nat {
    if entries == [] then 0 else (if entries[0].flowType == ft then entries[0].count else 0) + EntriesPlanned(entries[1..], ft)
  }

  /** The configured count of a flow type, summed over every merchant. */
  function PlannedCount(configs: seq<MerchantConfig>, ft: string): nat {
    if configs == [] then 0 else EntriesPlanned(configs[0].transactionFlows, ft) + PlannedCount(configs[1..], ft)
  }

  lemma {:induction false} MerchantTasksCount(m: MerchantConfig, entries: seq<FlowEntry>, ft: string)
    ensures FlowTypeCount(MerchantTasks(m, entries), ft) == EntriesPlanned(entries, ft)
  {
    if entries != [] {
      var e := entries[0];
      FlowTypeCountAppend(EntryTasks(m, e), MerchantTasks(m, entries[1..]), ft);
      EntryTasksCount(m, e, ft, e.count);
      assert EntryTasks(m, e)[..e.count] == EntryTasks(m, e);
      MerchantTasksCount(m, entries[1..], ft);
    }
  }

  lemma {:induction false} EntryTasksCount(m: MerchantConfig, e: FlowEntry, ft: string, n: nat)
    requires n <= e.count
    ensures FlowTypeCount(EntryTasks(m, e)[..n], ft) == if e.flowType == ft then n else 0
  {
    if n > 0 {
      var ts := EntryTasks(m, e);
      EntryTasksCount(m, e, ft, n - 1);
      assert ts[..n] == ts[..n - 1] + [ts[n - 1]];
      FlowTypeCountAppend(ts[..n - 1], [ts[n - 1]], ft);
      assert FlowTypeCount([ts[n - 1]], ft) == if e.flowType == ft then 1 else 0 by {
        assert [ts[n - 1]][1..] == [];
      }
    } else {
      assert EntryTasks(m, e)[..0] == [];
    }
  }

  /** The pool holds, for each flow type, exactly its configured count summed over merchants. */
  lemma {:induction false} PoolFlowTypeCount(configs: seq<MerchantConfig>, ft: string)
    ensures FlowTypeCount(Pool(configs), ft) == PlannedCount(configs, ft)
  {
    if configs != [] {
      FlowTypeCountAppend(MerchantTasks(configs[0], configs[0].transactionFlows), Pool(configs[1..]), ft);
      MerchantTasksCount(configs[0], configs[0].transactionFlows, ft);
      PoolFlowTypeCount(configs[1..], ft);
    }
  }

  // ---------------------------------------------------------------- the statistics table

  /** One row of the statistics table. */
  datatype FlowStats = FlowStats(planned: int, executed: int)

  function Planned(stats: map<string, FlowStats>, ft: string): int {
    if ft in stats then stats[ft].planned else 0
  }

  /** One entry added to the table: its count joins the flow type's planned total. */
  function AddEntry(stats: map<string, FlowStats>, e: FlowEntry): map<string, FlowStats> {
    stats[e.flowType := FlowStats(Planned(stats, e.flowType) + e.count, 0)]
  }

  function AddEntries(stats: map<string, FlowStats>, entries: seq<FlowEntry>): map<string, FlowStats>
    decreases |entries|
  {
    if entries == [] then stats else AddEntries(AddEntry(stats, entries[0]), entries[1..])
  }

  function AddConfigs(stats: map<string, FlowStats>, configs: seq<MerchantConfig>): map<string, FlowStats>
    decreases |configs|
  {
    if configs == [] then stats else AddConfigs(AddEntries(stats, configs[0].transactionFlows), configs[1..])
  }

  /** The table before any task runs: every configured flow type, planned counts summed, nothing executed. */
  function InitialStatistics(configs: seq<MerchantConfig>): map<string, FlowStats> {
    AddConfigs(map[], configs)
  }

  function EntryTypes(entries: seq<FlowEntry>): set<string> {
    set j | 0 <= j < |entries| :: entries[j].flowType
  }

  lemma {:induction false} AddEntriesSpec(stats: map<string, FlowStats>, entries: seq<FlowEntry>, ft: string)
    ensures var r := AddEntries(stats, entries);
            && (ft in r <==> ft in stats || ft in EntryTypes(entries))
            && Planned(r, ft) == Planned(stats, ft) + EntriesPlanned(entries, ft)
            && (ft in r && ft !in EntryTypes(entries) ==> r[ft] == stats[ft])
            && (ft in EntryTypes(entries) ==> r[ft].executed == 0)
    decreases |entries|
  {
    if entries != [] {
      AddEntriesSpec(AddEntry(stats, entries[0]), entries[1..], ft);
      assert EntryTypes(entries) == {entries[0].flowType} + EntryTypes(entries[1..]) by {
        assert forall j :: 1 <= j < |entries| ==> entries[j] == entries[1..][j - 1];
      }
    } else {
      assert EntryTypes(entries) == {};
    }
  }

  /**
   * The table has a row for every configured flow type and no other; each
   * row's planned count is the sum of that flow type's counts over every
   * merchant, which is how many of its tasks the pool holds, and nothing is
   * executed yet.
   */
  lemma {:induction false} InitialStatisticsSpec(stats: map<string, FlowStats>, configs: seq<MerchantConfig>, ft: string)
    ensures var r := AddConfigs(stats, configs);
            && (ft in r <==> ft in stats || ft in FlowTypes(configs))
            && Planned(r, ft) == Planned(stats, ft) + PlannedCount(configs, ft)
            && (ft in r && ft !in FlowTypes(configs) ==> r[ft] == stats[ft])
            && (ft in FlowTypes(configs) ==> r[ft].executed == 0)
    decreases |configs|
  {
    if configs != [] {
      var next := AddEntries(stats, configs[0].transactionFlows);
      AddEntriesSpec(stats, configs[0].transactionFlows, ft);
      InitialStatisticsSpec(next, configs[1..], ft);
      assert FlowTypes(configs) == EntryTypes(configs[0].transactionFlows) + FlowTypes(configs[1..]) by {
        FlowTypesCons(configs);
      }
    } else {
      assert FlowTypes(configs) == {};
    }
  }

  /** The initial table has a row for exactly the flow types some merchant configures. */
  lemma InitialStatisticsKeys(configs: seq<MerchantConfig>)
    ensures InitialStatistics(configs).Keys == FlowTypes(configs)
  {
    forall ft
      ensures ft in InitialStatistics(configs) <==> ft in FlowTypes(configs)
    {
      InitialStatisticsSpec(map[], configs, ft);
    }
  }

  lemma FlowTypesCons(configs: seq<MerchantConfig>)
    requires configs != []
    ensures FlowTypes(configs) == EntryTypes(configs[0].transactionFlows) + FlowTypes(configs[1..])
  {
    forall ft | ft in FlowTypes(configs)
      ensures ft in EntryTypes(configs[0].transactionFlows) + FlowTypes(configs[1..])
    {
      var i, j :| 0 <= i < |configs| && 0 <= j < |configs[i].transactionFlows| && configs[i].transactionFlows[j].flowType == ft;
      if i > 0 {
        assert configs[1..][i - 1] == configs[i];
      }
    }
    forall ft | ft in FlowTypes(configs[1..])
      ensures ft in FlowTypes(configs)
    {
      var i, j :| 0 <= i < |configs[1..]| && 0 <= j < |configs[1..][i].transactionFlows| && configs[1..][i].transactionFlows[j].flowType == ft;
      assert configs[i + 1] == configs[1..][i];
    }
  }

  /** `entries[j]` is the last entry of the flow type `ft`. */
  predicate LastEntry(entries: seq<FlowEntry>, ft: string, j: int) {
    && 0 <= j < |entries| && entries[j].flowType == ft
    && forall k :: j < k < |entries| ==> entries[k].flowType != ft
  }

  /** `configs[i]` is the last merchant that configures `ft`, and its entry `j` the last of that type. */
  predicate LastSetter(configs: seq<MerchantConfig>, ft: string, i: int, j: int) {
    && 0 <= i < |configs| && LastEntry(configs[i].transactionFlows, ft, j)
    && forall k :: i < k < |configs| ==> ft !in EntryTypes(configs[k].transactionFlows)
  }

  /** `r` is `stats` with each flow type of `entries` set to its last entry's count, nothing executed. */
  ghost predicate Overwritten(stats: map<string, FlowStats>, entries: seq<FlowEntry>, r: map<string, FlowStats>) {
    && r.Keys == stats.Keys + EntryTypes(entries)
    && (forall ft :: ft in r && ft !in EntryTypes(entries) ==> r[ft] == stats[ft])
    && (forall ft :: ft in EntryTypes(entries) ==>
          exists j :: LastEntry(entries, ft, j) && r[ft] == FlowStats(entries[j].count, 0))
  }

  /** `r` is `stats` with each configured flow type set to the count of its last setter, nothing executed. */
  ghost predicate OverwrittenBy(stats: map<string, FlowStats>, configs: seq<MerchantConfig>, r: map<string, FlowStats>) {
    && r.Keys == stats.Keys + FlowTypes(configs)
    && (forall ft :: ft in r && ft !in FlowTypes(configs) ==> r[ft] == stats[ft])
    && (forall ft :: ft in FlowTypes(configs) ==> SetByLast(configs, ft, r))
  }

  /** The row of `ft` in `r` holds the count of the last entry of `ft` across `configs`, nothing executed. */
  ghost predicate SetByLast(configs: seq<MerchantConfig>, ft: string, r: map<string, FlowStats>) {
    exists i, j :: LastSetter(configs, ft, i, j) && ft in r && r[ft] == FlowStats(configs[i].transactionFlows[j].count, 0)
  }

  /**
   * The statistics table as the source fills it: each entry SETS its flow
   * type's planned count, so a flow type configured by several merchants
   * keeps only the count of the last one to configure it.
   */
  function AsWrittenStatistics(stats: map<string, FlowStats>, configs: seq<MerchantConfig>): (r: map<string, FlowStats>)
    ensures OverwrittenBy(stats, configs, r)
    decreases |configs|
  {
    if configs == [] then
      assert FlowTypes(configs) == {};
      stats
    else
      var first := AsWrittenEntries(stats, configs[0].transactionFlows);
      var r := AsWrittenStatistics(first, configs[1..]);
      OverwrittenByStep(stats, configs, first, r);
      r
  }

  /** One merchant's entries as the source applies them: each sets its flow type's row. */
  function AsWrittenEntries(stats: map<string, FlowStats>, entries: seq<FlowEntry>): (r: map<string, FlowStats>)
    ensures Overwritten(stats, entries, r)
    decreases |entries|
  {
    if entries == [] then
      assert EntryTypes(entries) == {};
      stats
    else
      var r := AsWrittenEntries(stats[entries[0].flowType := FlowStats(entries[0].count, 0)], entries[1..]);
      OverwrittenStep(stats, entries, r);
      r
  }

  lemma OverwrittenStep(stats: map<string, FlowStats>, entries: seq<FlowEntry>, r: map<string, FlowStats>)
    requires entries != []
    requires Overwritten(stats[entries[0].flowType := FlowStats(entries[0].count, 0)], entries[1..], r)
    ensures Overwritten(stats, entries, r)
  {
    var e := entries[0];
    var rest := entries[1..];
    assert forall k :: 1 <= k < |entries| ==> entries[k] == rest[k - 1];
    assert EntryTypes(entries) == {e.flowType} + EntryTypes(rest) by {
      assert entries[0].flowType in EntryTypes(entries);
    }
    forall ft | ft in EntryTypes(entries)
      ensures exists j :: LastEntry(entries, ft, j) && r[ft] == FlowStats(entries[j].count, 0)
    {
      if ft in EntryTypes(rest) {
        var j :| LastEntry(rest, ft, j) && r[ft] == FlowStats(rest[j].count, 0);
        assert LastEntry(entries, ft, j + 1);
      } else {
        forall k | 0 < k < |entries|
          ensures entries[k].flowType != ft
        {
          assert rest[k - 1].flowType in EntryTypes(rest);
        }
        assert LastEntry(entries, ft, 0);
      }
    }
  }

  lemma OverwrittenByStep(stats: map<string, FlowStats>, configs: seq<MerchantConfig>,
                          first: map<string, FlowStats>, r: map<string, FlowStats>)
    requires configs != []
    requires Overwritten(stats, configs[0].transactionFlows, first)
    requires OverwrittenBy(first, configs[1..], r)
    ensures OverwrittenBy(stats, configs, r)
  {
    FlowTypesCons(configs);
    RowsStep(stats, first, r, EntryTypes(configs[0].transactionFlows), FlowTypes(configs[1..]));
    SetByLastStep(configs, first, r);
  }

  /** Rows set by two rounds in turn: those set by neither keep their value. */
  lemma RowsStep(stats: map<string, FlowStats>, first: map<string, FlowStats>, r: map<string, FlowStats>,
                 firstSet: set<string>, laterSet: set<string>)
    requires first.Keys == stats.Keys + firstSet
    requires forall ft :: ft in first && ft !in firstSet ==> first[ft] == stats[ft]
    requires r.Keys == first.Keys + laterSet
    requires forall ft :: ft in r && ft !in laterSet ==> r[ft] == first[ft]
    ensures r.Keys == stats.Keys + (firstSet + laterSet)
    ensures forall ft :: ft in r && ft !in firstSet + laterSet ==> r[ft] == stats[ft]
  {
  }

  lemma SetByLastStep(configs: seq<MerchantConfig>, first: map<string, FlowStats>, r: map<string, FlowStats>)
    requires configs != []
    requires FlowTypes(configs) == EntryTypes(configs[0].transactionFlows) + FlowTypes(configs[1..])
    requires forall ft :: ft in EntryTypes(configs[0].transactionFlows) ==>
               exists j :: LastEntry(configs[0].transactionFlows, ft, j) && ft in first && first[ft] == FlowStats(configs[0].transactionFlows[j].count, 0)
    requires forall ft :: ft in first && ft !in FlowTypes(configs[1..]) ==> ft in r && r[ft] == first[ft]
    requires forall ft :: ft in FlowTypes(configs[1..]) ==> SetByLast(configs[1..], ft, r)
    ensures forall ft :: ft in FlowTypes(configs) ==> SetByLast(configs, ft, r)
  {
    forall ft | ft in FlowTypes(configs)
      ensures SetByLast(configs, ft, r)
    {
      if ft in FlowTypes(configs[1..]) {
        LaterSetByLast(configs, ft, r);
      } else {
        FirstSetByLast(configs, ft, first, r);
      }
    }
  }

  lemma LaterSetByLast(configs: seq<MerchantConfig>, ft: string, r: map<string, FlowStats>)
    requires configs != [] && SetByLast(configs[1..], ft, r)
    ensures SetByLast(configs, ft, r)
  {
    var i, j :| LastSetter(configs[1..], ft, i, j) && ft in r && r[ft] == FlowStats(configs[1..][i].transactionFlows[j].count, 0);
    LaterSetter(configs, ft, i, j);
  }

  lemma FirstSetByLast(configs: seq<MerchantConfig>, ft: string, first: map<string, FlowStats>, r: map<string, FlowStats>)
    requires configs != [] && ft !in FlowTypes(configs[1..]) && ft in r && ft in first && r[ft] == first[ft]
    requires exists j :: LastEntry(configs[0].transactionFlows, ft, j) && first[ft] == FlowStats(configs[0].transactionFlows[j].count, 0)
    ensures SetByLast(configs, ft, r)
  {
    var j :| LastEntry(configs[0].transactionFlows, ft, j) && first[ft] == FlowStats(configs[0].transactionFlows[j].count, 0);
    FirstSetter(configs, ft, j);
  }

  lemma LaterSetter(configs: seq<MerchantConfig>, ft: string, i: int, j: int)
    requires configs != [] && LastSetter(configs[1..], ft, i, j)
    ensures LastSetter(configs, ft, i + 1, j) && configs[i + 1] == configs[1..][i]
  {
    assert forall k :: 1 <= k < |configs| ==> configs[k] == configs[1..][k - 1];
  }

  lemma FirstSetter(configs: seq<MerchantConfig>, ft: string, j: int)
    requires configs != [] && LastEntry(configs[0].transactionFlows, ft, j) && ft !in FlowTypes(configs[1..])
    ensures LastSetter(configs, ft, 0, j)
  {
    forall k, m | 0 < k < |configs| && 0 <= m < |configs[k].transactionFlows|
      ensures configs[k].transactionFlows[m].flowType != ft
    {
      assert configs[1..][k - 1] == configs[k];
      assert configs[1..][k - 1].transactionFlows[m].flowType in FlowTypes(configs[1..]);
    }
  }

  /**
   * Two merchants both running `authorizeCapture`, twice and three times:
   * the pool holds five such tasks, but the table as written plans three,
   * while the summed table plans five.
   */
  lemma AsWrittenPlannedUndercounts(m1: MerchantConfig, m2: MerchantConfig)
    requires m1.transactionFlows == [FlowEntry("authorizeCapture", 2)]
    requires m2.transactionFlows == [FlowEntry("authorizeCapture", 3)]
    ensures var asWritten := AsWrittenStatistics(map[], [m1, m2]);
            "authorizeCapture" in asWritten && asWritten["authorizeCapture"].planned == 3
    ensures FlowTypeCount(Pool([m1, m2]), "authorizeCapture") == 5
    ensures var summed := InitialStatistics([m1, m2]);
            "authorizeCapture" in summed && summed["authorizeCapture"].planned == 5
  {
    var ft := "authorizeCapture";
    var configs := [m1, m2];
    assert configs[1..] == [m2] && [m2][1..] == [];
    assert m1.transactionFlows[1..] == [] && m2.transactionFlows[1..] == [];
    var first := AsWrittenEntries(map[], m1.transactionFlows);
    assert first == AsWrittenEntries(map[][ft := FlowStats(2, 0)], m1.transactionFlows[1..]);
    assert first == map[ft := FlowStats(2, 0)];
    assert AsWrittenEntries(first, m2.transactionFlows) == first[ft := FlowStats(3, 0)];
    assert AsWrittenStatistics(map[], configs) == AsWrittenStatistics(AsWrittenEntries(first, m2.transactionFlows), []);
    PoolFlowTypeCount(configs, ft);
    assert EntriesPlanned(m2.transactionFlows, ft) == 3;
    assert PlannedCount([m2], ft) == 3;
    InitialStatisticsSpec(map[], configs, ft);
    assert ft in FlowTypes(configs) by {
      assert configs[0].transactionFlows[0].flowType == ft;
    }
  }
}
