/** The AccountingLedgerEntry table: its rows, the classification rule
    that derives the two helper columns, and `initDb`'s backfill that
    writes them and its seeding of an empty table. */
module Ledger {
  import opened Common
  import opened Text

  /** A calendar date written as the number yyyymmdd, so that integer
      order is calendar order. */
  type Date = int

  datatype Category = Operating | Investing | Financing

  /** The text stored in `cashflow_category` and returned as `activity_type`. */
  function CategoryName(c: Category): string {
    match c
    case Operating => "Operating"
    case Investing => "Investing"
    case Financing => "Financing"
  }

  /** One row. Columns the schema lets be NULL are options; amounts are in
      the smallest currency unit. The surrogate `id` is not modelled. */
  datatype Entry = Entry(
    date: Date,
    account: string,
    debit: Option<int>,
    credit: Option<int>,
    party: Option<string>,
    note: Option<string>,
    bankAccount: Option<string>,
    reference: Option<string>,
    reconciled: Option<bool>,
    companyId: int,
    cashflowCategory: Option<string>,
    isCashTransaction: Option<bool>)

  /** `debit - credit`, NULL when either side is NULL. */
  function NetCash(e: Entry): (r: Option<int>)
    ensures r.Some? <==> e.debit.Some? && e.credit.Some?
    ensures r.Some? ==> r.value + e.credit.value == e.debit.value
  {
    if e.debit.Some? && e.credit.Some? then Some(e.debit.value - e.credit.value) else None
  }

  /** What a nullable amount adds to a `SUM`: NULL is skipped, and an
      all-NULL sum is read back as 0, so NULL counts as 0 everywhere. */
  function Counted(amount: Option<int>): int {
    match amount
    case Some(x) => x
    case None => 0
  }

  /** What a row adds to `SUM(debit - credit)`. */
  function NetValue(e: Entry): int {
    Counted(NetCash(e))
  }

  /** `SUM(debit - credit)` over some rows, 0 when there are none. */
  function Total(rows: seq<Entry>): int {
    if rows == [] then 0 else NetValue(rows[0]) + Total(rows[1..])
  }

  /** The rows a `WHERE` clause keeps, in table order. */
  function Where(rows: seq<Entry>, keep: Entry -> bool): (sel: seq<Entry>)
    ensures |sel| <= |rows|
    ensures forall e :: multiset(sel)[e] == if keep(e) then multiset(rows)[e] else 0
  {
    if rows == [] then []
    else
      assert rows == [rows[0]] + rows[1..];
      (if keep(rows[0]) then [rows[0]] else []) + Where(rows[1..], keep)
  }

  /** Splitting a condition into two disjoint cases splits the sum. */
  lemma {:induction false} TotalSplit(rows: seq<Entry>, both: Entry -> bool, left: Entry -> bool, right: Entry -> bool)
    requires forall e :: both(e) == (left(e) || right(e))
    requires forall e :: !(left(e) && right(e))
    ensures Total(Where(rows, both)) == Total(Where(rows, left)) + Total(Where(rows, right))
  {
    if rows != [] {
      TotalSplit(rows[1..], both, left, right);
      TotalWhereHead(rows, both);
      TotalWhereHead(rows, left);
      TotalWhereHead(rows, right);
    }
  }

  /** Proof step: the sum over a filtered table, with its first row taken apart. */
  lemma TotalWhereHead(rows: seq<Entry>, keep: Entry -> bool)
    requires rows != []
    ensures Total(Where(rows, keep)) == (if keep(rows[0]) then NetValue(rows[0]) else 0) + Total(Where(rows[1..], keep))
  {
    var rest := Where(rows[1..], keep);
    if keep(rows[0]) {
      assert Where(rows, keep) == [rows[0]] + rest;
      assert ([rows[0]] + rest)[1..] == rest;
    } else {
      assert Where(rows, keep) == rest;
    }
  }

  /** A row without its two cached helper columns: what it records, as
      opposed to what has been derived from it. */
  function Facts(e: Entry): Entry {
    e.(cashflowCategory := None, isCashTransaction := None)
  }

  /** Two tables that differ at most in the cached helper columns. */
  predicate SameFacts(t1: seq<Entry>, t2: seq<Entry>) {
    |t1| == |t2| && forall i :: 0 <= i < |t1| ==> Facts(t1[i]) == Facts(t2[i])
  }

  /** Proof step: `SameFacts` taken apart at the first rows. */
  lemma SameFactsTail(t1: seq<Entry>, t2: seq<Entry>)
    requires SameFacts(t1, t2) && t1 != []
    ensures SameFacts(t1[1..], t2[1..]) && Facts(t1[0]) == Facts(t2[0])
  {
    forall i | 0 <= i < |t1| - 1 ensures Facts(t1[1..][i]) == Facts(t2[1..][i]) {
      assert Facts(t1[i + 1]) == Facts(t2[i + 1]);
    }
  }

  /** Proof step: `SameFacts` built up from the first rows. */
  lemma SameFactsCons(a: Entry, b: Entry, r1: seq<Entry>, r2: seq<Entry>)
    requires Facts(a) == Facts(b) && SameFacts(r1, r2)
    ensures SameFacts([a] + r1, [b] + r2)
  {
    forall i | 0 <= i < |r1| + 1 ensures Facts(([a] + r1)[i]) == Facts(([b] + r2)[i]) {
      if i > 0 {
        assert ([a] + r1)[i] == r1[i - 1] && ([b] + r2)[i] == r2[i - 1];
      }
    }
  }

  /** A condition every row meets keeps the whole table. */
  lemma {:induction false} WhereKeepsAll(rows: seq<Entry>, keep: Entry -> bool)
    requires forall i :: 0 <= i < |rows| ==> keep(rows[i])
    ensures Where(rows, keep) == rows
  {
    if rows != [] {
      assert keep(rows[0]);
      WhereKeepsAll(rows[1..], keep);
      assert [rows[0]] + rows[1..] == rows;
    }
  }

  /** Proof step: `Where` unfolded at the first row. */
  lemma WhereHead(rows: seq<Entry>, keep: Entry -> bool)
    requires rows != []
    ensures Where(rows, keep) == (if keep(rows[0]) then [rows[0]] + Where(rows[1..], keep) else Where(rows[1..], keep))
  {
  }

  /** A condition that treats corresponding rows of two such tables alike
      keeps them alike. */
  lemma {:induction false} WhereSameFacts(t1: seq<Entry>, t2: seq<Entry>, keep: Entry -> bool)
    requires SameFacts(t1, t2)
    requires forall i :: 0 <= i < |t1| ==> keep(t1[i]) == keep(t2[i])
    ensures SameFacts(Where(t1, keep), Where(t2, keep))
  {
    if t1 != [] {
      SameFactsTail(t1, t2);
      assert keep(t1[0]) == keep(t2[0]);
      forall i | 0 <= i < |t1| - 1 ensures keep(t1[1..][i]) == keep(t2[1..][i]) {
        assert keep(t1[i + 1]) == keep(t2[i + 1]);
      }
      WhereSameFacts(t1[1..], t2[1..], keep);
      WhereHead(t1, keep);
      WhereHead(t2, keep);
      if keep(t1[0]) {
        SameFactsCons(t1[0], t2[0], Where(t1[1..], keep), Where(t2[1..], keep));
      }
    }
  }

  /** The sum reads no helper column. */
  lemma {:induction false} TotalSameFacts(t1: seq<Entry>, t2: seq<Entry>)
    requires SameFacts(t1, t2)
    ensures Total(t1) == Total(t2)
  {
    if t1 != [] {
      SameFactsTail(t1, t2);
      TotalSameFacts(t1[1..], t2[1..]);
      assert NetValue(t1[0]) == NetValue(Facts(t1[0])) && NetValue(t2[0]) == NetValue(Facts(t2[0]));
    }
  }

  // ---------------------------------------------------------------------
  // Classification (the two CASE expressions of the backfill)

  const OperatingAccounts: set<string> :=
    {"Sales", "Office Rent", "Utilities Expense", "Inventory", "Bank Charges"}

  /** The phrase the Financing test looks for in the note. */
  const CapitalContribution: string := "Capital Contribution"

  /** `note ILIKE pattern` on a nullable note: unknown when the note is NULL. */
  function NoteILike(note: Option<string>, pattern: string): Tri {
    match note
    case None => Null
    case Some(n) => Lift(ILike(n, pattern))
  }

  /** `account IN ('Bank Loan') OR note ILIKE '%Capital Contribution%'`. */
  function FinancingTest(account: string, note: Option<string>): Tri {
    Or(Lift(account == "Bank Loan"), NoteILike(note, "%" + CapitalContribution + "%"))
  }

  /** The first-match `cashflow_category` rule. */
  function Classify(account: string, note: Option<string>): Category {
    if account in OperatingAccounts then Operating
    else if FinancingTest(account, note) == Yes then Financing
    else Investing
  }

  /** The `is_cash_transaction` rule. */
  function IsCash(account: string, bankAccount: Option<string>): bool {
    account == "Cash" || bankAccount.Some?
  }

  /** The note test of the Financing rule, stated without patterns. */
  predicate MentionsCapitalContribution(note: Option<string>) {
    note.Some? && Contains(Lower(note.value), Lower(CapitalContribution))
  }

  /** The classification is a first-match partition: Operating by account
      name alone, then Financing by loan account or note, else Investing. */
  lemma ClassifyRule(account: string, note: Option<string>)
    ensures Classify(account, note) == Operating <==> account in OperatingAccounts
    ensures Classify(account, note) == Financing <==>
      account !in OperatingAccounts && (account == "Bank Loan" || MentionsCapitalContribution(note))
    ensures Classify(account, note) == Investing <==>
      account !in OperatingAccounts && account != "Bank Loan" && !MentionsCapitalContribution(note)
  {
    FinancingTestRule(account, note);
  }

  lemma FinancingTestRule(account: string, note: Option<string>)
    ensures FinancingTest(account, note) == Yes <==> account == "Bank Loan" || MentionsCapitalContribution(note)
  {
    if note.Some? {
      assert Literal(CapitalContribution);
      ILikeInfix(note.value, CapitalContribution);
      assert NoteILike(note, "%" + CapitalContribution + "%") == Yes <==> MentionsCapitalContribution(note);
    }
  }

  /** A NULL note never makes a row Financing: only the loan account does. */
  lemma NullNoteClassify(account: string)
    ensures Classify(account, None) == Financing <==> account !in OperatingAccounts && account == "Bank Loan"
    ensures Classify(account, None) == Investing <==> account !in OperatingAccounts && account != "Bank Loan"
  {
  }

  /** A note that is the phrase, in any letter case, makes a row Financing. */
  lemma PhraseNoteIsFinancing(account: string, note: string)
    requires account !in OperatingAccounts
    requires Lower(note) == Lower(CapitalContribution)
    ensures Classify(account, Some(note)) == Financing
  {
    PhraseIsMention(note);
    MentionPassesFinancingTest(account, Some(note));
  }

  lemma PhraseIsMention(note: string)
    requires Lower(note) == Lower(CapitalContribution)
    ensures MentionsCapitalContribution(Some(note))
  {
  }

  lemma MentionPassesFinancingTest(account: string, note: Option<string>)
    requires MentionsCapitalContribution(note)
    ensures FinancingTest(account, note) == Yes
  {
    FinancingTestRule(account, note);
  }

  // ---------------------------------------------------------------------
  // Backfill of the helper columns

  /** The backfill's `WHERE cashflow_category = 'Operating' AND
      is_cash_transaction = FALSE`: the row still holds the column defaults. */
  predicate AtDefaults(e: Entry) {
    And(Equals(e.cashflowCategory, "Operating"), Equals(e.isCashTransaction, false)) == Yes
  }

  /** One row after the backfill `UPDATE`. */
  function Reclassified(e: Entry): Entry {
    if AtDefaults(e) then
      e.(cashflowCategory := Some(CategoryName(Classify(e.account, e.note))),
         isCashTransaction := Some(IsCash(e.account, e.bankAccount)))
    else e
  }

  /** The whole table after the backfill `UPDATE`. */
  function BackfillAll(rows: seq<Entry>): (r: seq<Entry>)
    ensures |r| == |rows|
  {
    seq(|rows|, i requires 0 <= i < |rows| => Reclassified(rows[i]))
  }

  /** The backfill rewrites only rows at the defaults, only in the two helper
      columns, and there it writes what the rule derives. */
  lemma BackfillEffect(rows: seq<Entry>, i: int)
    requires 0 <= i < |rows|
    ensures var old_, new_ := rows[i], BackfillAll(rows)[i];
      && (!(old_.cashflowCategory == Some("Operating") && old_.isCashTransaction == Some(false)) ==> new_ == old_)
      && new_ == old_.(cashflowCategory := new_.cashflowCategory, isCashTransaction := new_.isCashTransaction)
      && (old_.cashflowCategory == Some("Operating") && old_.isCashTransaction == Some(false) ==>
            && new_.cashflowCategory == Some(CategoryName(Classify(old_.account, old_.note)))
            && new_.isCashTransaction == Some(old_.account == "Cash" || old_.bankAccount.Some?))
  {
  }

  /** Running the backfill twice is the same as running it once. */
  lemma BackfillIdempotent(rows: seq<Entry>)
    ensures BackfillAll(BackfillAll(rows)) == BackfillAll(rows)
  {
    var once := BackfillAll(rows);
    forall i | 0 <= i < |rows| ensures BackfillAll(once)[i] == once[i] {
      var e := rows[i];
      if AtDefaults(e) && AtDefaults(once[i]) {
        assert once[i].account == e.account && once[i].note == e.note && once[i].bankAccount == e.bankAccount;
      }
    }
  }

  // ---------------------------------------------------------------------
  // Seeding

  /** A seeded row of company 1, with the helper columns given explicitly. */
  function SeedRow(date: Date, account: string, debit: int, credit: int, party: string, note: string,
                   bankAccount: Option<string>, reference: Option<string>, reconciled: Option<bool>,
                   category: string, isCash: bool): Entry
  {
    Entry(date, account, Some(debit), Some(credit), Some(party), Some(note), bankAccount, reference,
          reconciled, 1, Some(category), Some(isCash))
  }

  /** The nine sample rows inserted into an empty table. */
  function SeedRows(): seq<Entry> {
    var bank := Some("MainBank");
    [ SeedRow(20250102, "Cash", 10000, 0, "Investor", "Capital Contribution", bank, Some("DEP001"), Some(true), "Financing", true),
      SeedRow(20250105, "Office Rent", 0, 2000, "Landlord Ltd.", "January rent", bank, Some("CHQ101"), Some(true), "Operating", true),
      SeedRow(20250110, "Inventory", 0, 3000, "Supplier A", "Purchase inventory", bank, Some("CHQ102"), Some(false), "Operating", true),
      SeedRow(20250115, "Sales", 0, 8000, "Customer B", "Sales Invoice", None, None, None, "Operating", false),
      SeedRow(20250116, "Cash", 8000, 0, "Customer B", "Payment received", bank, Some("DEP002"), Some(true), "Operating", true),
      SeedRow(20250120, "Utilities Expense", 0, 500, "Power Co", "Electricity bill", bank, Some("CHQ103"), Some(true), "Operating", true),
      SeedRow(20250125, "Bank Loan", 0, 7000, "BigBank", "Loan received", bank, Some("DEP003"), Some(true), "Financing", true),
      SeedRow(20250126, "Cash", 7000, 0, "BigBank", "Loan deposit", bank, Some("DEP003"), Some(true), "Financing", true),
      SeedRow(20250128, "Bank Charges", 0, 500, "BigBank", "Monthly service charge", bank, Some("CHQ104"), Some(false), "Operating", true) ]
  }

  /** The seeded helper columns are not all what the rule derives: the two
      cash receipts are stored as Operating and Financing, while the rule
      puts both in Investing. The backfill never repairs them, because
      their `is_cash_transaction` is already TRUE. */
  lemma SeedCacheDisagreesWithRule()
    ensures SeedRows()[4].cashflowCategory == Some("Operating")
    ensures Classify(SeedRows()[4].account, SeedRows()[4].note) == Investing
    ensures SeedRows()[7].cashflowCategory == Some("Financing")
    ensures Classify(SeedRows()[7].account, SeedRows()[7].note) == Investing
    ensures !AtDefaults(SeedRows()[4]) && !AtDefaults(SeedRows()[7])
  {
    var s := SeedRows();
    assert s[4] == SeedRow(20250116, "Cash", 8000, 0, "Customer B", "Payment received", Some("MainBank"), Some("DEP002"), Some(true), "Operating", true);
    assert s[7] == SeedRow(20250126, "Cash", 7000, 0, "BigBank", "Loan deposit", Some("MainBank"), Some("DEP003"), Some(true), "Financing", true);
    CashReceiptIsInvesting("Payment received");
    CashReceiptIsInvesting("Loan deposit");
  }

  /** A `Cash` row whose note is too short to hold the phrase is Investing. */
  lemma CashReceiptIsInvesting(note: string)
    requires |note| < |CapitalContribution|
    ensures Classify("Cash", Some(note)) == Investing
  {
    ShortNoteNotFinancing(note);
  }

  lemma ShortNoteNotFinancing(note: string)
    requires |note| < |CapitalContribution|
    ensures FinancingTest("Cash", Some(note)) != Yes
  {
    ContainsNeedsRoom(Lower(note), Lower(CapitalContribution));
    FinancingTestRule("Cash", Some(note));
  }

  /** Backfilling the seeded table changes nothing, so a second call of
      `initDb` after seeding leaves the table as it was. */
  lemma BackfillKeepsSeed()
    ensures BackfillAll(SeedRows()) == SeedRows()
  {
    var s := SeedRows();
    forall i | 0 <= i < |s| ensures BackfillAll(s)[i] == s[i] {
      if i == 3 {
        assert Classify(s[3].account, s[3].note) == Operating;
      }
    }
  }

  /** The ledger table as `initDb` sees it. */
  class LedgerTable {
    var rows: seq<Entry>

    constructor (initial: seq<Entry>)
      ensures rows == initial
    {
      rows := initial;
    }

    /** The backfill `UPDATE`, row by row. */
    method Backfill()
      modifies this
      ensures rows == BackfillAll(old(rows))
    {
      var i := 0;
      while i < |rows|
        invariant 0 <= i <= |rows| == |old(rows)|
        invariant forall k :: 0 <= k < i ==> rows[k] == Reclassified(old(rows)[k])
        invariant forall k :: i <= k < |rows| ==> rows[k] == old(rows)[k]
      {
        if AtDefaults(rows[i]) {
          rows := rows[i := Reclassified(rows[i])];
        }
        i := i + 1;
      }
    }

    /** Insert the sample rows when `COUNT(*)` is 0; otherwise leave the table alone. */
    method SeedIfEmpty()
      modifies this
      ensures old(rows) == [] ==> rows == SeedRows()
      ensures old(rows) != [] ==> rows == old(rows)
    {
      var count := |rows|;
      if count == 0 {
        rows := rows + SeedRows();
      }
    }

    /** `initDb`: backfill the helper columns, then seed an empty table. */
    method InitDb()
      modifies this
      ensures old(rows) == [] ==> rows == SeedRows()
      ensures old(rows) != [] ==> rows == BackfillAll(old(rows))
    {
      Backfill();
      SeedIfEmpty();
    }
  }
}
