/** The `/reconciliation` report for one bank account of one company: the
    ledger balance of the account, the bank statement balance, the
    unreconciled rows as reconciling items, and the bank balance adjusted
    by those items. */
module Reconciliation {
  import opened Common
  import opened Text
  import opened Ledger

  /** The bank statement balance; the handler has it as a constant. */
  const BankBalance: int := 19000

  /** The text whose presence in a note marks an unrecorded bank charge. */
  const BankChargeMarker: string := "Bank charge"
  const BankChargeNotRecorded: string := "bank charge not recorded"
  const OutstandingCheque: string := "outstanding cheque"

  /** One reconciling item. */
  datatype Item = Item(reference: Option<string>, amount: int, kind: string)

  /** The JSON body of a successful report. */
  datatype Report = Report(ledgerBalance: int, bankBalance: int, reconcilingItems: seq<Item>, adjustedBalance: int)

  /** `companyid = $1 AND bankaccount = $2` */
  predicate OnAccount(e: Entry, companyId: int, bankAccount: string) {
    And(Lift(e.companyId == companyId), Equals(e.bankAccount, bankAccount)) == Yes
  }

  /** `companyid = $1 AND bankaccount = $2 AND reconciled = FALSE` */
  predicate Outstanding(e: Entry, companyId: int, bankAccount: string) {
    And(And(Lift(e.companyId == companyId), Equals(e.bankAccount, bankAccount)), Equals(e.reconciled, false)) == Yes
  }

  /** A row of the account whose `reconciled` is TRUE or NULL. */
  predicate Settled(e: Entry, companyId: int, bankAccount: string) {
    OnAccount(e, companyId, bankAccount) && e.reconciled != Some(false)
  }

  function LedgerBalance(table: seq<Entry>, companyId: int, bankAccount: string): int {
    Total(Where(table, e => OnAccount(e, companyId, bankAccount)))
  }

  function OutstandingRows(table: seq<Entry>, companyId: int, bankAccount: string): seq<Entry> {
    Where(table, e => Outstanding(e, companyId, bankAccount))
  }

  /** The item type: a case-sensitive `note.includes("Bank charge")`. */
  function ItemKind(note: string): string {
    if Contains(note, BankChargeMarker) then BankChargeNotRecorded else OutstandingCheque
  }

  /** The `map` from result rows to items. Reading `includes` off a NULL
      note throws, which the model gives as `None`. */
  function ToItems(rows: seq<Entry>): (r: Option<seq<Item>>)
    ensures r.None? <==> exists i :: 0 <= i < |rows| && rows[i].note.None?
    ensures r.Some? ==> |r.value| == |rows|
    ensures r.Some? ==> forall i :: 0 <= i < |rows| ==>
      && r.value[i].reference == rows[i].reference
      && r.value[i].amount == NetValue(rows[i])
      && (r.value[i].kind == BankChargeNotRecorded <==> Contains(rows[i].note.value, BankChargeMarker))
      && (r.value[i].kind == OutstandingCheque <==> !Contains(rows[i].note.value, BankChargeMarker))
  {
    if rows == [] then Some([])
    else
      match rows[0].note
      case None => None
      case Some(note) =>
        match ToItems(rows[1..])
        case None => None
        case Some(rest) => Some([Item(rows[0].reference, NetValue(rows[0]), ItemKind(note))] + rest)
  }

  /** The `reduce` that adds up the item amounts, left to right from 0. */
  function SumAmounts(items: seq<Item>): int {
    if items == [] then 0 else SumAmounts(items[..|items| - 1]) + items[|items| - 1].amount
  }

  lemma {:induction false} SumAmountsCons(item: Item, rest: seq<Item>)
    ensures SumAmounts([item] + rest) == item.amount + SumAmounts(rest)
    decreases |rest|
  {
    if rest != [] {
      var front := rest[..|rest| - 1];
      SumAmountsCons(item, front);
      assert ([item] + rest)[..|rest|] == [item] + front;
    } else {
      assert [item] + rest == [item];
      assert [item][..0] == [];
    }
  }

  /** The items' amounts add up to the net of the rows they come from. */
  lemma {:induction false} SumOfItemsIsTotal(rows: seq<Entry>)
    requires ToItems(rows).Some?
    ensures SumAmounts(ToItems(rows).value) == Total(rows)
  {
    if rows != [] {
      SumOfItemsIsTotal(rows[1..]);
      var rest := ToItems(rows[1..]).value;
      SumAmountsCons(Item(rows[0].reference, NetValue(rows[0]), ItemKind(rows[0].note.value)), rest);
    }
  }

  /** The `/reconciliation` handler. */
  function HandleReconciliation(table: seq<Entry>, companyId: Option<int>, bankAccount: Option<string>)
    : (r: Response<Report>)
    ensures r.BadRequest? <==> companyId.None? || Missing(bankAccount)
    ensures r.BadRequest? ==> r.error == MissingParams
    ensures r.ServerError? <==>
      && !(companyId.None? || Missing(bankAccount))
      && exists i :: 0 <= i < |OutstandingRows(table, companyId.value, bankAccount.value)|
                     && OutstandingRows(table, companyId.value, bankAccount.value)[i].note.None?
    ensures r.ServerError? ==> r.error == InternalError
    ensures r.Ok? ==>
      var rows := OutstandingRows(table, companyId.value, bankAccount.value);
      && r.body.ledgerBalance == LedgerBalance(table, companyId.value, bankAccount.value)
      && r.body.bankBalance == BankBalance
      && ToItems(rows) == Some(r.body.reconcilingItems)
      && r.body.adjustedBalance == BankBalance + Total(rows)
  {
    if companyId.None? || Missing(bankAccount) then BadRequest(MissingParams)
    else
      var cid, bank := companyId.value, bankAccount.value;
      var ledgerBalance := LedgerBalance(table, cid, bank);
      var rows := OutstandingRows(table, cid, bank);
      match ToItems(rows)
      case None => ServerError(InternalError)
      case Some(items) =>
        SumOfItemsIsTotal(rows);
        Ok(Report(ledgerBalance, BankBalance, items, BankBalance + SumAmounts(items)))
  }

  // ---------------------------------------------------------------------
  // Properties of the report

  /** The items are exactly the account's rows with `reconciled = FALSE`;
      a NULL `reconciled` does not make a row outstanding. */
  lemma OutstandingRowsAre(table: seq<Entry>, companyId: int, bankAccount: string, e: Entry)
    ensures multiset(OutstandingRows(table, companyId, bankAccount))[e]
            == if e.companyId == companyId && e.bankAccount == Some(bankAccount) && e.reconciled == Some(false)
               then multiset(table)[e] else 0
  {
  }

  /** A request with both parameters whose unreconciled rows all have a
      note is answered with a report. */
  lemma ValidRequestSucceeds(table: seq<Entry>, companyId: int, bankAccount: string)
    requires bankAccount != ""
    requires forall i :: 0 <= i < |OutstandingRows(table, companyId, bankAccount)| ==>
      OutstandingRows(table, companyId, bankAccount)[i].note.Some?
    ensures HandleReconciliation(table, Some(companyId), Some(bankAccount)).Ok?
  {
  }

  /** The ledger balance counts every row of the account, outstanding or
      not, so it is the outstanding rows' net plus the settled rows' net. */
  lemma LedgerIsOutstandingPlusSettled(table: seq<Entry>, companyId: int, bankAccount: string)
    ensures LedgerBalance(table, companyId, bankAccount)
            == Total(OutstandingRows(table, companyId, bankAccount))
               + Total(Where(table, e => Settled(e, companyId, bankAccount)))
  {
    TotalSplit(table, e => OnAccount(e, companyId, bankAccount),
               e => Outstanding(e, companyId, bankAccount), e => Settled(e, companyId, bankAccount));
  }

  /** The adjusted balance equals the ledger balance exactly when the
      settled rows of the account net to the bank balance. */
  lemma AdjustedMatchesLedger(table: seq<Entry>, companyId: int, bankAccount: string)
    requires HandleReconciliation(table, Some(companyId), Some(bankAccount)).Ok?
    ensures var r := HandleReconciliation(table, Some(companyId), Some(bankAccount)).body;
      r.adjustedBalance == r.ledgerBalance
      <==> Total(Where(table, e => Settled(e, companyId, bankAccount))) == BankBalance
  {
    LedgerIsOutstandingPlusSettled(table, companyId, bankAccount);
  }

  /** The type test is case-sensitive: a lower-case "bank charge" is
      typed as an outstanding cheque. */
  lemma BankChargeTestIsCaseSensitive()
    ensures ItemKind("bank charge") == OutstandingCheque
    ensures ItemKind("Bank charge") == BankChargeNotRecorded
  {
    assert !IsPrefix(BankChargeMarker, "bank charge") by {
      assert "bank charge"[0] != BankChargeMarker[0];
    }
    ContainsNeedsRoom("bank charge"[1..], BankChargeMarker);
    assert IsPrefix(BankChargeMarker, "Bank charge");
  }

  /** A note without the capital 'B' of "Bank charge" is typed as an
      outstanding cheque. */
  lemma NoMarkerInitialIsCheque(note: string)
    requires BankChargeMarker[0] !in note
    ensures ItemKind(note) == OutstandingCheque
  {
    ContainsNeedsFirst(note, BankChargeMarker);
  }

  /** The two seeded rows with `reconciled = FALSE`, the inventory purchase
      and the bank charge ("Monthly service charge"), are both typed as
      outstanding cheques. */
  lemma SeedItemKinds()
    ensures ItemKind(SeedRows()[2].note.value) == OutstandingCheque
    ensures ItemKind(SeedRows()[8].note.value) == OutstandingCheque
  {
    NoMarkerInitialIsCheque(SeedRows()[2].note.value);
    NoMarkerInitialIsCheque(SeedRows()[8].note.value);
  }
}
