/** The `/cashflow` report: per-category inflows, outflows and net over an
    inclusive date range for one company, their total change, and the
    company's closing balance at the end of the range. The query recomputes
    each row's category from account and note and applies no
    cash-transaction filter. */
module CashFlow {
  import opened Common
  import opened Text
  import opened Ledger

  /** The `activity_type` CASE expression of the report query, which repeats
      the backfill's rule instead of reading `cashflow_category`. */
  function ActivityType(e: Entry): Category {
    if e.account in OperatingAccounts then Operating
    else if Or(Lift(e.account == "Bank Loan"), NoteILike(e.note, "%" + CapitalContribution + "%")) == Yes then Financing
    else Investing
  }

  /** The report's inline rule and the backfill's rule agree on every row. */
  lemma ActivityTypeIsClassify(e: Entry)
    ensures ActivityType(e) == Classify(e.account, e.note)
  {
  }

  /** A row of the `cash_flows` subquery, as far as the grouping reads it. */
  datatype FlowRow = FlowRow(activityType: Category, netCash: Option<int>)

  /** The `cash_flows` subquery over the rows the report selects. */
  function CashFlows(rows: seq<Entry>): seq<FlowRow> {
    seq(|rows|, i requires 0 <= i < |rows| => FlowRow(ActivityType(rows[i]), NetCash(rows[i])))
  }

  lemma CashFlowsTail(rows: seq<Entry>)
    requires rows != []
    ensures CashFlows(rows)[1..] == CashFlows(rows[1..])
  {
  }

  /** One category of the report. */
  datatype Bucket = Bucket(inflows: int, outflows: int, net: int)

  const Zero: Bucket := Bucket(0, 0, 0)

  /** `CASE WHEN net_cash > 0 THEN net_cash ELSE 0 END` */
  function Inflow(x: int): int {
    if x > 0 then x else 0
  }

  /** `CASE WHEN net_cash < 0 THEN ABS(net_cash) ELSE 0 END` */
  function Outflow(x: int): int {
    if x < 0 then -x else 0
  }

  /** The three `SUM`s of one `activity_type` group. An all-NULL `SUM` reads
      back as 0 through `Number`, so it is 0 here too. */
  function Aggregate(flows: seq<FlowRow>, c: Category): (b: Bucket)
    ensures b.inflows >= 0 && b.outflows >= 0
    ensures b.net == b.inflows - b.outflows
  {
    if flows == [] then Zero
    else
      var rest := Aggregate(flows[1..], c);
      if flows[0].activityType == c then
        var x := Counted(flows[0].netCash);
        Bucket(rest.inflows + Inflow(x), rest.outflows + Outflow(x), rest.net + x)
      else rest
  }

  /** Some row falls in category `c`, so the query returns a group for it. */
  predicate Occurs(flows: seq<FlowRow>, c: Category) {
    exists i :: 0 <= i < |flows| && flows[i].activityType == c
  }

  /** A category without rows aggregates to zeros. */
  lemma {:induction false} AbsentIsZero(flows: seq<FlowRow>, c: Category)
    requires !Occurs(flows, c)
    ensures Aggregate(flows, c) == Zero
  {
    if flows != [] {
      assert flows[0].activityType != c;
      assert !Occurs(flows[1..], c) by {
        forall i | 0 <= i < |flows| - 1 ensures flows[1..][i].activityType != c {
          assert flows[1..][i] == flows[i + 1];
        }
      }
      AbsentIsZero(flows[1..], c);
    }
  }

  /** Proof step: `Aggregate` unfolded at a row put in front. */
  lemma AggregateCons(x: FlowRow, rest: seq<FlowRow>, c: Category)
    ensures var b, own := Aggregate(rest, c), x.activityType == c;
      Aggregate([x] + rest, c)
      == Bucket(b.inflows + (if own then Inflow(Counted(x.netCash)) else 0),
                b.outflows + (if own then Outflow(Counted(x.netCash)) else 0),
                b.net + (if own then Counted(x.netCash) else 0))
  {
    assert ([x] + rest)[0] == x;
    assert ([x] + rest)[1..] == rest;
  }

  /** Two buckets added field by field. */
  function Combined(a: Bucket, b: Bucket): Bucket {
    Bucket(a.inflows + b.inflows, a.outflows + b.outflows, a.net + b.net)
  }

  /** The sums of a table split in two are the sums of its parts. */
  lemma {:induction false} AggregateAppend(a: seq<FlowRow>, b: seq<FlowRow>, c: Category)
    ensures Aggregate(a + b, c) == Combined(Aggregate(a, c), Aggregate(b, c))
  {
    if a == [] {
      assert a + b == b;
    } else {
      assert (a + b)[0] == a[0];
      assert (a + b)[1..] == a[1..] + b;
      AggregateAppend(a[1..], b, c);
    }
  }

  /** Each row's net lands in exactly one category, so the three category
      nets add up to the total over all rows. */
  lemma {:induction false} NetsPartitionTotal(rows: seq<Entry>)
    ensures var flows := CashFlows(rows);
      Aggregate(flows, Operating).net + Aggregate(flows, Investing).net + Aggregate(flows, Financing).net
      == Total(rows)
  {
    if rows != [] {
      NetsPartitionTotal(rows[1..]);
      CashFlowsTail(rows);
    }
  }

  /** The rows the report aggregates: `companyid = $1 AND date BETWEEN $2 AND $3`. */
  predicate InPeriod(e: Entry, companyId: int, fromDate: Date, toDate: Date) {
    e.companyId == companyId && fromDate <= e.date && e.date <= toDate
  }

  function Period(table: seq<Entry>, companyId: int, fromDate: Date, toDate: Date): seq<Entry> {
    Where(table, e => InPeriod(e, companyId, fromDate, toDate))
  }

  /** The rows of the closing-balance query: `companyid = $1 AND date <= $2`. */
  predicate UpTo(e: Entry, companyId: int, toDate: Date) {
    e.companyId == companyId && e.date <= toDate
  }

  /** The rows before the range, which the closing balance also counts. */
  predicate Before(e: Entry, companyId: int, fromDate: Date) {
    e.companyId == companyId && e.date < fromDate
  }

  function ClosingBalance(table: seq<Entry>, companyId: int, toDate: Date): int {
    Total(Where(table, e => UpTo(e, companyId, toDate)))
  }

  function OpeningBalance(table: seq<Entry>, companyId: int, fromDate: Date): int {
    Total(Where(table, e => Before(e, companyId, fromDate)))
  }

  /** The JSON body of a successful report. */
  datatype Report = Report(operating: Bucket, investing: Bucket, financing: Bucket,
                           netChange: int, closingBalance: int)

  /** The report the handler sends for valid parameters. */
  function CashFlowReport(table: seq<Entry>, companyId: int, fromDate: Date, toDate: Date): Report {
    var flows := CashFlows(Period(table, companyId, fromDate, toDate));
    var operating, investing, financing := Aggregate(flows, Operating), Aggregate(flows, Investing), Aggregate(flows, Financing);
    Report(operating, investing, financing, operating.net + investing.net + financing.net,
           ClosingBalance(table, companyId, toDate))
  }

  // ---------------------------------------------------------------------
  // The query's result rows and the response object built from them

  /** One result row of the grouped query. */
  datatype GroupRow = GroupRow(activityType: string, bucket: Bucket)

  /** The grouped query's result: one row per category that occurs, in the
      order `order` lists the categories (SQL fixes no order). The database
      returns each group once, so a caller lists each category once; a
      repeated category would repeat its row, whose second merge rewrites
      the same bucket. */
  function GroupBy(flows: seq<FlowRow>, order: seq<Category>): seq<GroupRow>
    decreases |order|
  {
    if order == [] then []
    else
      var c := order[|order| - 1];
      GroupBy(flows, order[..|order| - 1])
        + (if Occurs(flows, c) then [GroupRow(CategoryName(c), Aggregate(flows, c))] else [])
  }

  /** The key of a category in the response object. */
  function ResponseKey(c: Category): string {
    match c
    case Operating => "operating"
    case Investing => "investing"
    case Financing => "financing"
  }

  /** The response object before any result row is merged. */
  function InitialResponse(): map<string, Bucket> {
    map["operating" := Zero, "investing" := Zero, "financing" := Zero]
  }

  /** The response object after merging the result rows one after another:
      each row overwrites the entry under its lower-cased activity type. */
  function Merged(groups: seq<GroupRow>): map<string, Bucket>
    decreases |groups|
  {
    if groups == [] then InitialResponse()
    else
      var g := groups[|groups| - 1];
      Merged(groups[..|groups| - 1])[Lower(g.activityType) := g.bucket]
  }

  /** The `forEach` over the result rows. */
  method MergeGroups(groups: seq<GroupRow>) returns (response: map<string, Bucket>)
    ensures response == Merged(groups)
  {
    response := InitialResponse();
    var i := 0;
    while i < |groups|
      invariant 0 <= i <= |groups|
      invariant response == Merged(groups[..i])
    {
      assert groups[..i + 1][..i] == groups[..i];
      response := response[Lower(groups[i].activityType) := groups[i].bucket];
      i := i + 1;
    }
    assert groups[..|groups|] == groups;
  }

  /** Proof step: a category's name, lower-cased, is its response key. */
  lemma LowerCategoryName(c: Category)
    ensures Lower(CategoryName(c)) == ResponseKey(c)
  {
  }

  /** Proof step: `Merged` unfolded at its last result row. */
  lemma MergedAppend(groups: seq<GroupRow>, g: GroupRow)
    ensures Merged(groups + [g]) == Merged(groups)[Lower(g.activityType) := g.bucket]
  {
    assert (groups + [g])[..|groups|] == groups;
  }

  /** Merging the grouped result for one more listed category overwrites
      that category's key when the category occurs, and nothing otherwise. */
  lemma MergedGroupByStep(flows: seq<FlowRow>, order: seq<Category>)
    requires order != []
    ensures var front, last := order[..|order| - 1], order[|order| - 1];
      Merged(GroupBy(flows, order))
      == if Occurs(flows, last) then Merged(GroupBy(flows, front))[ResponseKey(last) := Aggregate(flows, last)]
         else Merged(GroupBy(flows, front))
  {
    var front, last := order[..|order| - 1], order[|order| - 1];
    var before := GroupBy(flows, front);
    if Occurs(flows, last) {
      var g := GroupRow(CategoryName(last), Aggregate(flows, last));
      assert GroupBy(flows, order) == before + [g];
      MergedAppend(before, g);
      LowerCategoryName(last);
    } else {
      assert GroupBy(flows, order) == before + [];
      assert before + [] == before;
    }
  }

  /** Merging the grouped result keeps exactly the three keys. */
  lemma {:induction false} MergedGroupByKeys(flows: seq<FlowRow>, order: seq<Category>)
    ensures Merged(GroupBy(flows, order)).Keys == InitialResponse().Keys
    decreases |order|
  {
    if order != [] {
      MergedGroupByKeys(flows, order[..|order| - 1]);
      MergedGroupByStep(flows, order);
    }
  }

  /** Proof step: membership in a non-empty sequence, split at its last element. */
  lemma ListedInFrontOrLast(order: seq<Category>, c: Category)
    requires order != []
    ensures c in order <==> c in order[..|order| - 1] || c == order[|order| - 1]
  {
    assert order == order[..|order| - 1] + [order[|order| - 1]];
  }

  /** After merging the grouped result, a category's key holds its aggregate
      when the category is listed and occurs, and zeros otherwise. */
  lemma {:induction false} MergedGroupByAt(flows: seq<FlowRow>, order: seq<Category>, c: Category)
    ensures ResponseKey(c) in Merged(GroupBy(flows, order))
    ensures Merged(GroupBy(flows, order))[ResponseKey(c)]
            == if c in order && Occurs(flows, c) then Aggregate(flows, c) else Zero
    decreases |order|
  {
    if order != [] {
      var front, last := order[..|order| - 1], order[|order| - 1];
      MergedGroupByAt(flows, front, c);
      MergedGroupByStep(flows, order);
      ListedInFrontOrLast(order, c);
      var m := Merged(GroupBy(flows, front));
      if Occurs(flows, last) {
        assert Merged(GroupBy(flows, order)) == m[ResponseKey(last) := Aggregate(flows, last)];
        if c != last {
          assert ResponseKey(c) != ResponseKey(last);
        }
      } else {
        assert Merged(GroupBy(flows, order)) == m;
      }
    }
  }

  /** When `order` lists every category, the merged response holds each
      category's aggregate under its key, occurring or not. */
  lemma MergedResponse(flows: seq<FlowRow>, order: seq<Category>, c: Category)
    requires forall c: Category :: c in order
    ensures ResponseKey(c) in Merged(GroupBy(flows, order))
    ensures Merged(GroupBy(flows, order))[ResponseKey(c)] == Aggregate(flows, c)
  {
    MergedGroupByAt(flows, order, c);
    if !Occurs(flows, c) {
      AbsentIsZero(flows, c);
    }
  }

  /** The response object holding each category's aggregate under its key. */
  function AggregatedResponse(flows: seq<FlowRow>): map<string, Bucket> {
    map["operating" := Aggregate(flows, Operating),
        "investing" := Aggregate(flows, Investing),
        "financing" := Aggregate(flows, Financing)]
  }

  /** When `order` lists every category, merging the grouped result gives
      exactly the three keys, each holding its category's aggregate. */
  lemma MergedIsAggregated(flows: seq<FlowRow>, order: seq<Category>)
    requires forall c: Category :: c in order
    ensures Merged(GroupBy(flows, order)) == AggregatedResponse(flows)
  {
    var m, a := Merged(GroupBy(flows, order)), AggregatedResponse(flows);
    MergedGroupByKeys(flows, order);
    MergedResponse(flows, order, Operating);
    MergedResponse(flows, order, Investing);
    MergedResponse(flows, order, Financing);
    assert m.Keys == a.Keys;
    forall k | k in m.Keys ensures m[k] == a[k] {
      assert k == ResponseKey(Operating) || k == ResponseKey(Investing) || k == ResponseKey(Financing);
    }
  }

  /** The `/cashflow` handler. A parameter that is absent or the empty string
      (falsy in the handler's test) is `None`; a present one is its number or
      date. The database's group order is the parameter `order`, which lists
      each category exactly once. */
  method HandleCashFlow(table: seq<Entry>, companyId: Option<int>, fromDate: Option<Date>, toDate: Option<Date>,
                        order: seq<Category>)
    returns (r: Response<Report>)
    requires |order| == 3 && forall c: Category :: c in order
    ensures companyId.None? || fromDate.None? || toDate.None? ==> r == BadRequest(MissingParams)
    ensures companyId.Some? && fromDate.Some? && toDate.Some? ==>
      r == Ok(CashFlowReport(table, companyId.value, fromDate.value, toDate.value))
  {
    if companyId.None? || fromDate.None? || toDate.None? {
      return BadRequest(MissingParams);
    }
    var cid, from, to := companyId.value, fromDate.value, toDate.value;
    var flows := CashFlows(Period(table, cid, from, to));
    var response := MergeGroups(GroupBy(flows, order));
    MergedIsAggregated(flows, order);
    var operating, investing, financing := response["operating"], response["investing"], response["financing"];
    assert operating == Aggregate(flows, Operating);
    assert investing == Aggregate(flows, Investing);
    assert financing == Aggregate(flows, Financing);
    var netChange := operating.net + investing.net + financing.net;
    var closingBalance := ClosingBalance(table, cid, to);
    r := Ok(Report(operating, investing, financing, netChange, closingBalance));
    assert Report(operating, investing, financing, netChange, closingBalance) == CashFlowReport(table, cid, from, to);
  }

  // ---------------------------------------------------------------------
  // Properties of the report

  /** The net change is the sum of `debit - credit` over every row in the
      range, whatever its category. */
  lemma NetChangeIsPeriodTotal(table: seq<Entry>, companyId: int, fromDate: Date, toDate: Date)
    ensures CashFlowReport(table, companyId, fromDate, toDate).netChange
            == Total(Period(table, companyId, fromDate, toDate))
  {
    NetsPartitionTotal(Period(table, companyId, fromDate, toDate));
  }

  /** The report aggregates exactly the company's rows dated within the
      range, both ends included, whatever their cash flag or cached category. */
  lemma PeriodRowsAre(table: seq<Entry>, companyId: int, fromDate: Date, toDate: Date, e: Entry)
    ensures multiset(Period(table, companyId, fromDate, toDate))[e]
            == if e.companyId == companyId && fromDate <= e.date <= toDate then multiset(table)[e] else 0
  {
  }

  /** A range whose start is after its end selects no row. */
  lemma ReversedRangeIsEmpty(table: seq<Entry>, companyId: int, fromDate: Date, toDate: Date)
    requires fromDate > toDate
    ensures Period(table, companyId, fromDate, toDate) == []
  {
  }

  /** A range that selects no row gives three zero categories and no change. */
  lemma EmptyPeriodReport(table: seq<Entry>, companyId: int, fromDate: Date, toDate: Date)
    requires Period(table, companyId, fromDate, toDate) == [] || fromDate > toDate
    ensures var r := CashFlowReport(table, companyId, fromDate, toDate);
      r.operating == Zero && r.investing == Zero && r.financing == Zero && r.netChange == 0
  {
    if fromDate > toDate {
      ReversedRangeIsEmpty(table, companyId, fromDate, toDate);
    }
    assert CashFlows(Period(table, companyId, fromDate, toDate)) == [];
  }

  /** The closing balance has no lower date bound: it is the balance before
      the range plus the range's net change. */
  lemma ClosingIsOpeningPlusNetChange(table: seq<Entry>, companyId: int, fromDate: Date, toDate: Date)
    requires fromDate <= toDate
    ensures CashFlowReport(table, companyId, fromDate, toDate).closingBalance
            == OpeningBalance(table, companyId, fromDate) + CashFlowReport(table, companyId, fromDate, toDate).netChange
  {
    NetChangeIsPeriodTotal(table, companyId, fromDate, toDate);
    TotalSplit(table, e => UpTo(e, companyId, toDate), e => Before(e, companyId, fromDate),
               e => InPeriod(e, companyId, fromDate, toDate));
  }

  /** The subquery reads no helper column. */
  lemma CashFlowsSameFacts(t1: seq<Entry>, t2: seq<Entry>)
    requires SameFacts(t1, t2)
    ensures CashFlows(t1) == CashFlows(t2)
  {
    forall i | 0 <= i < |t1| ensures CashFlows(t1)[i] == CashFlows(t2)[i] {
      assert Facts(t1[i]) == Facts(t2[i]);
      assert ActivityType(t1[i]) == ActivityType(Facts(t1[i]));
      assert ActivityType(t2[i]) == ActivityType(Facts(t2[i]));
    }
  }

  /** The period's subquery rows never depend on the cached helper columns. */
  lemma PeriodFlowsSameFacts(t1: seq<Entry>, t2: seq<Entry>, companyId: int, fromDate: Date, toDate: Date)
    requires SameFacts(t1, t2)
    ensures CashFlows(Period(t1, companyId, fromDate, toDate)) == CashFlows(Period(t2, companyId, fromDate, toDate))
  {
    var inPeriod := e => InPeriod(e, companyId, fromDate, toDate);
    forall i | 0 <= i < |t1| ensures inPeriod(t1[i]) == inPeriod(t2[i]) {
      assert Facts(t1[i]) == Facts(t2[i]);
    }
    WhereSameFacts(t1, t2, inPeriod);
    CashFlowsSameFacts(Period(t1, companyId, fromDate, toDate), Period(t2, companyId, fromDate, toDate));
  }

  /** The closing balance never depends on the cached helper columns. */
  lemma ClosingBalanceSameFacts(t1: seq<Entry>, t2: seq<Entry>, companyId: int, toDate: Date)
    requires SameFacts(t1, t2)
    ensures ClosingBalance(t1, companyId, toDate) == ClosingBalance(t2, companyId, toDate)
  {
    var upTo := e => UpTo(e, companyId, toDate);
    forall i | 0 <= i < |t1| ensures upTo(t1[i]) == upTo(t2[i]) {
      assert Facts(t1[i]) == Facts(t2[i]);
    }
    WhereSameFacts(t1, t2, upTo);
    TotalSameFacts(Where(t1, upTo), Where(t2, upTo));
  }

  /** The report never reads the cached helper columns: neither
      `is_cash_transaction` nor `cashflow_category` can change it. */
  lemma ReportIgnoresCachedColumns(t1: seq<Entry>, t2: seq<Entry>, companyId: int, fromDate: Date, toDate: Date)
    requires SameFacts(t1, t2)
    ensures CashFlowReport(t1, companyId, fromDate, toDate) == CashFlowReport(t2, companyId, fromDate, toDate)
  {
    PeriodFlowsSameFacts(t1, t2, companyId, fromDate, toDate);
    ClosingBalanceSameFacts(t1, t2, companyId, toDate);
  }

  // ---------------------------------------------------------------------
  // The report over the seeded sample data

  /** Proof step: the seeded subquery rows in two halves, each aggregated
      row by row below. */
  function SeedEarly(): seq<FlowRow> {
    [ FlowRow(Financing, Some(10000)),
      FlowRow(Operating, Some(-2000)),
      FlowRow(Operating, Some(-3000)),
      FlowRow(Operating, Some(-8000)) ]
  }

  function SeedLate(): seq<FlowRow> {
    [ FlowRow(Investing, Some(8000)),
      FlowRow(Operating, Some(-500)),
      FlowRow(Financing, Some(-7000)),
      FlowRow(Investing, Some(7000)),
      FlowRow(Operating, Some(-500)) ]
  }

  /** The subquery's rows for the seeded table (stated by `SeedCashFlows`).
      Kept a literal rather than `SeedEarly() + SeedLate()`: as a
      concatenation the per-category lemmas make the verifier unfold
      `Aggregate` too far. */
  function SeedFlows(): seq<FlowRow> {
    [ FlowRow(Financing, Some(10000)), FlowRow(Operating, Some(-2000)), FlowRow(Operating, Some(-3000)),
      FlowRow(Operating, Some(-8000)), FlowRow(Investing, Some(8000)), FlowRow(Operating, Some(-500)),
      FlowRow(Financing, Some(-7000)), FlowRow(Investing, Some(7000)), FlowRow(Operating, Some(-500)) ]
  }

  /** Proof step: the two halves make up the seeded rows. */
  lemma SeedSplit()
    ensures SeedFlows() == SeedEarly() + SeedLate()
  {
  }

  lemma SeedEarlyOperating()
    ensures Aggregate(SeedEarly(), Operating) == Bucket(0, 13000, -13000)
  {
    var s4: seq<FlowRow> := [];
    var s3 := [FlowRow(Operating, Some(-8000))] + s4;
    AggregateCons(FlowRow(Operating, Some(-8000)), s4, Operating);
    assert Aggregate(s3, Operating) == Bucket(0, 8000, -8000);
    var s2 := [FlowRow(Operating, Some(-3000))] + s3;
    AggregateCons(FlowRow(Operating, Some(-3000)), s3, Operating);
    assert Aggregate(s2, Operating) == Bucket(0, 11000, -11000);
    var s1 := [FlowRow(Operating, Some(-2000))] + s2;
    AggregateCons(FlowRow(Operating, Some(-2000)), s2, Operating);
    assert Aggregate(s1, Operating) == Bucket(0, 13000, -13000);
    var s0 := [FlowRow(Financing, Some(10000))] + s1;
    AggregateCons(FlowRow(Financing, Some(10000)), s1, Operating);
    assert Aggregate(s0, Operating) == Bucket(0, 13000, -13000);
    assert s0 == SeedEarly();
  }

  lemma SeedLateOperating()
    ensures Aggregate(SeedLate(), Operating) == Bucket(0, 1000, -1000)
  {
    var s9: seq<FlowRow> := [];
    var s8 := [FlowRow(Operating, Some(-500))] + s9;
    AggregateCons(FlowRow(Operating, Some(-500)), s9, Operating);
    assert Aggregate(s8, Operating) == Bucket(0, 500, -500);
    var s7 := [FlowRow(Investing, Some(7000))] + s8;
    AggregateCons(FlowRow(Investing, Some(7000)), s8, Operating);
    assert Aggregate(s7, Operating) == Bucket(0, 500, -500);
    var s6 := [FlowRow(Financing, Some(-7000))] + s7;
    AggregateCons(FlowRow(Financing, Some(-7000)), s7, Operating);
    assert Aggregate(s6, Operating) == Bucket(0, 500, -500);
    var s5 := [FlowRow(Operating, Some(-500))] + s6;
    AggregateCons(FlowRow(Operating, Some(-500)), s6, Operating);
    assert Aggregate(s5, Operating) == Bucket(0, 1000, -1000);
    var s4 := [FlowRow(Investing, Some(8000))] + s5;
    AggregateCons(FlowRow(Investing, Some(8000)), s5, Operating);
    assert Aggregate(s4, Operating) == Bucket(0, 1000, -1000);
    assert s4 == SeedLate();
  }

  lemma SeedEarlyInvesting()
    ensures Aggregate(SeedEarly(), Investing) == Bucket(0, 0, 0)
  {
    var s4: seq<FlowRow> := [];
    var s3 := [FlowRow(Operating, Some(-8000))] + s4;
    AggregateCons(FlowRow(Operating, Some(-8000)), s4, Investing);
    assert Aggregate(s3, Investing) == Bucket(0, 0, 0);
    var s2 := [FlowRow(Operating, Some(-3000))] + s3;
    AggregateCons(FlowRow(Operating, Some(-3000)), s3, Investing);
    assert Aggregate(s2, Investing) == Bucket(0, 0, 0);
    var s1 := [FlowRow(Operating, Some(-2000))] + s2;
    AggregateCons(FlowRow(Operating, Some(-2000)), s2, Investing);
    assert Aggregate(s1, Investing) == Bucket(0, 0, 0);
    var s0 := [FlowRow(Financing, Some(10000))] + s1;
    AggregateCons(FlowRow(Financing, Some(10000)), s1, Investing);
    assert Aggregate(s0, Investing) == Bucket(0, 0, 0);
    assert s0 == SeedEarly();
  }

  lemma SeedLateInvesting()
    ensures Aggregate(SeedLate(), Investing) == Bucket(15000, 0, 15000)
  {
    var s9: seq<FlowRow> := [];
    var s8 := [FlowRow(Operating, Some(-500))] + s9;
    AggregateCons(FlowRow(Operating, Some(-500)), s9, Investing);
    assert Aggregate(s8, Investing) == Bucket(0, 0, 0);
    var s7 := [FlowRow(Investing, Some(7000))] + s8;
    AggregateCons(FlowRow(Investing, Some(7000)), s8, Investing);
    assert Aggregate(s7, Investing) == Bucket(7000, 0, 7000);
    var s6 := [FlowRow(Financing, Some(-7000))] + s7;
    AggregateCons(FlowRow(Financing, Some(-7000)), s7, Investing);
    assert Aggregate(s6, Investing) == Bucket(7000, 0, 7000);
    var s5 := [FlowRow(Operating, Some(-500))] + s6;
    AggregateCons(FlowRow(Operating, Some(-500)), s6, Investing);
    assert Aggregate(s5, Investing) == Bucket(7000, 0, 7000);
    var s4 := [FlowRow(Investing, Some(8000))] + s5;
    AggregateCons(FlowRow(Investing, Some(8000)), s5, Investing);
    assert Aggregate(s4, Investing) == Bucket(15000, 0, 15000);
    assert s4 == SeedLate();
  }

  lemma SeedEarlyFinancing()
    ensures Aggregate(SeedEarly(), Financing) == Bucket(10000, 0, 10000)
  {
    var s4: seq<FlowRow> := [];
    var s3 := [FlowRow(Operating, Some(-8000))] + s4;
    AggregateCons(FlowRow(Operating, Some(-8000)), s4, Financing);
    assert Aggregate(s3, Financing) == Bucket(0, 0, 0);
    var s2 := [FlowRow(Operating, Some(-3000))] + s3;
    AggregateCons(FlowRow(Operating, Some(-3000)), s3, Financing);
    assert Aggregate(s2, Financing) == Bucket(0, 0, 0);
    var s1 := [FlowRow(Operating, Some(-2000))] + s2;
    AggregateCons(FlowRow(Operating, Some(-2000)), s2, Financing);
    assert Aggregate(s1, Financing) == Bucket(0, 0, 0);
    var s0 := [FlowRow(Financing, Some(10000))] + s1;
    AggregateCons(FlowRow(Financing, Some(10000)), s1, Financing);
    assert Aggregate(s0, Financing) == Bucket(10000, 0, 10000);
    assert s0 == SeedEarly();
  }

  lemma SeedLateFinancing()
    ensures Aggregate(SeedLate(), Financing) == Bucket(0, 7000, -7000)
  {
    var s9: seq<FlowRow> := [];
    var s8 := [FlowRow(Operating, Some(-500))] + s9;
    AggregateCons(FlowRow(Operating, Some(-500)), s9, Financing);
    assert Aggregate(s8, Financing) == Bucket(0, 0, 0);
    var s7 := [FlowRow(Investing, Some(7000))] + s8;
    AggregateCons(FlowRow(Investing, Some(7000)), s8, Financing);
    assert Aggregate(s7, Financing) == Bucket(0, 0, 0);
    var s6 := [FlowRow(Financing, Some(-7000))] + s7;
    AggregateCons(FlowRow(Financing, Some(-7000)), s7, Financing);
    assert Aggregate(s6, Financing) == Bucket(0, 7000, -7000);
    var s5 := [FlowRow(Operating, Some(-500))] + s6;
    AggregateCons(FlowRow(Operating, Some(-500)), s6, Financing);
    assert Aggregate(s5, Financing) == Bucket(0, 7000, -7000);
    var s4 := [FlowRow(Investing, Some(8000))] + s5;
    AggregateCons(FlowRow(Investing, Some(8000)), s5, Financing);
    assert Aggregate(s4, Financing) == Bucket(0, 7000, -7000);
    assert s4 == SeedLate();
  }

  /** The seeded flows per category: the two halves' sums added. */
  lemma SeedOperating()
    ensures Aggregate(SeedFlows(), Operating) == Bucket(0, 14000, -14000)
  {
    SeedSplit();
    SeedEarlyOperating();
    SeedLateOperating();
    AggregateAppend(SeedEarly(), SeedLate(), Operating);
  }

  lemma SeedInvesting()
    ensures Aggregate(SeedFlows(), Investing) == Bucket(15000, 0, 15000)
  {
    SeedSplit();
    SeedEarlyInvesting();
    SeedLateInvesting();
    AggregateAppend(SeedEarly(), SeedLate(), Investing);
  }

  lemma SeedFinancing()
    ensures Aggregate(SeedFlows(), Financing) == Bucket(10000, 7000, 3000)
  {
    SeedSplit();
    SeedEarlyFinancing();
    SeedLateFinancing();
    AggregateAppend(SeedEarly(), SeedLate(), Financing);
  }

  /** The seeded rows as the subquery sees them: the three `Cash` receipts
      are Financing (the capital contribution) and Investing (the other two). */
  lemma SeedCashFlows()
    ensures CashFlows(SeedRows()) == SeedFlows()
  {
    var s := SeedRows();
    ActivityTypeIsClassify(s[0]);
    PhraseNoteIsFinancing("Cash", "Capital Contribution");
    ActivityTypeIsClassify(s[4]);
    CashReceiptIsInvesting("Payment received");
    ActivityTypeIsClassify(s[7]);
    CashReceiptIsInvesting("Loan deposit");
  }

  /** Every seeded row is company 1's and dated in January 2025. */
  lemma SeedRowsAreJanuary()
    ensures forall i :: 0 <= i < |SeedRows()| ==> InPeriod(SeedRows()[i], 1, 20250101, 20250131)
  {
  }

  /** When every row of a table is in the range, both queries select the
      whole table. */
  lemma AllInPeriodSelected(table: seq<Entry>, companyId: int, fromDate: Date, toDate: Date)
    requires forall i :: 0 <= i < |table| ==> InPeriod(table[i], companyId, fromDate, toDate)
    ensures Period(table, companyId, fromDate, toDate) == table
    ensures Where(table, e => UpTo(e, companyId, toDate)) == table
  {
    WhereKeepsAll(table, e => InPeriod(e, companyId, fromDate, toDate));
    WhereKeepsAll(table, e => UpTo(e, companyId, toDate));
  }

  /** The seeded rows net to 4000. */
  lemma SeedTotal()
    ensures Total(SeedRows()) == 4000
  {
  }

  /** The January 2025 report of the seeded company. */
  lemma SeedJanuaryReport()
    ensures CashFlowReport(SeedRows(), 1, 20250101, 20250131)
            == Report(Bucket(0, 14000, -14000), Bucket(15000, 0, 15000), Bucket(10000, 7000, 3000), 4000, 4000)
  {
    SeedRowsAreJanuary();
    AllInPeriodSelected(SeedRows(), 1, 20250101, 20250131);
    SeedCashFlows();
    SeedOperating();
    SeedInvesting();
    SeedFinancing();
    SeedTotal();
  }
}
