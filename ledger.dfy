/** The double-entry ledger behind `/accounting`: posting a balanced journal
    transaction, which moves each named account's running balance, and
    deleting one, which moves the balances back. Amounts are cents. */
module Ledger {
  import opened Common

  datatype AccountType = Asset | Liability | Equity | Revenue | Expense

  /** A row of `accounts`, reduced to what posting reads and writes. */
  datatype Account = Account(kind: AccountType, balance: int)

  /** One line of a posting request; `debit` or `credit` may be left out. */
  datatype Entry = Entry(accountId: int, debit: Option<int>, credit: Option<int>)

  /** A row of `transaction_entries`. */
  datatype EntryRow = EntryRow(txId: int, accountId: int, debit: int, credit: int)

  /** A row of `transactions`. */
  datatype TxRow = TxRow(date: string, description: string, reference: string, createdBy: int)

  function TotalDebit(es: seq<Entry>): int {
    if es == [] then 0 else OrZero(es[0].debit) + TotalDebit(es[1..])
  }

  function TotalCredit(es: seq<Entry>): int {
    if es == [] then 0 else OrZero(es[0].credit) + TotalCredit(es[1..])
  }

  /** Debits and credits agree to within one cent. */
  predicate Balanced(es: seq<Entry>) {
    Abs(TotalDebit(es) - TotalCredit(es)) <= 1
  }

  /** Accounts whose balance grows with credits. */
  predicate CreditNormal(k: AccountType) {
    k == Liability || k == Equity || k == Revenue
  }

  /** The change a posted line makes to an account of kind `k`. */
  function Change(k: AccountType, debit: int, credit: int): int {
    if CreditNormal(k) then credit - debit else debit - credit
  }

  /** `UPDATE accounts SET balance = balance + delta WHERE id = id`. */
  function AddToBalance(accounts: map<int, Account>, id: int, delta: int): (r: map<int, Account>)
    ensures r.Keys == accounts.Keys
    ensures forall a :: a in accounts && a != id ==> r[a] == accounts[a]
    ensures id in accounts ==> r[id] == accounts[id].(balance := accounts[id].balance + delta)
  {
    if id in accounts then accounts[id := accounts[id].(balance := accounts[id].balance + delta)]
    else accounts
  }

  /** The balances after posting line `e`: its account, when it exists,
      moves by the line's change; absent amounts count as 0. */
  function Apply(accounts: map<int, Account>, e: Entry): map<int, Account> {
    if e.accountId in accounts
    then AddToBalance(accounts, e.accountId, Change(accounts[e.accountId].kind, OrZero(e.debit), OrZero(e.credit)))
    else accounts
  }

  /** The balances after posting the lines of `es` in order. */
  function Posted(accounts: map<int, Account>, es: seq<Entry>): map<int, Account> {
    if es == [] then accounts
    else Apply(Posted(accounts, es[..|es| - 1]), es[|es| - 1])
  }

  /** The balances after the deletion loop has reversed the rows `rows`. */
  function Reversed(accounts: map<int, Account>, rows: seq<EntryRow>): map<int, Account> {
    if rows == [] then accounts
    else
      var before := Reversed(accounts, rows[..|rows| - 1]);
      var r := rows[|rows| - 1];
      if r.accountId in before
      then AddToBalance(before, r.accountId, -Change(before[r.accountId].kind, r.debit, r.credit))
      else before
  }

  /** The total change the lines of `es` make to account `id` of kind `k`. */
  function Net(es: seq<Entry>, id: int, k: AccountType): int {
    if es == [] then 0
    else
      var e := es[|es| - 1];
      Net(es[..|es| - 1], id, k) + (if e.accountId == id then Change(k, OrZero(e.debit), OrZero(e.credit)) else 0)
  }

  /** The total change the rows `rows` record for account `id` of kind `k`. */
  function RowNet(rows: seq<EntryRow>, id: int, k: AccountType): int {
    if rows == [] then 0
    else
      var r := rows[|rows| - 1];
      RowNet(rows[..|rows| - 1], id, k) + (if r.accountId == id then Change(k, r.debit, r.credit) else 0)
  }

  /** The entry rows a posting stores for transaction `txId`: absent amounts
      are stored as 0. */
  function RowsOf(txId: int, es: seq<Entry>): (rows: seq<EntryRow>)
    ensures |rows| == |es|
  {
    if es == [] then []
    else RowsOf(txId, es[..|es| - 1]) + [EntryRow(txId, es[|es| - 1].accountId, OrZero(es[|es| - 1].debit), OrZero(es[|es| - 1].credit))]
  }

  /** Row `i` of a posting records line `i`, absent amounts as 0. */
  lemma {:induction false} RowsOfAt(txId: int, es: seq<Entry>)
    ensures forall i :: 0 <= i < |es| ==>
      RowsOf(txId, es)[i] == EntryRow(txId, es[i].accountId, OrZero(es[i].debit), OrZero(es[i].credit))
  {
    if es != [] {
      RowsOfAt(txId, es[..|es| - 1]);
    }
  }

  /** The rows of `rows` that belong to transaction `txId`. */
  function RowsFor(rows: seq<EntryRow>, txId: int): seq<EntryRow> {
    if rows == [] then []
    else (if rows[0].txId == txId then [rows[0]] else []) + RowsFor(rows[1..], txId)
  }

  /** What the deletion's `JOIN accounts` reads: the transaction's rows whose
      account exists. */
  function Joined(rows: seq<EntryRow>, txId: int, accounts: map<int, Account>): seq<EntryRow> {
    if rows == [] then []
    else (if rows[0].txId == txId && rows[0].accountId in accounts then [rows[0]] else [])
         + Joined(rows[1..], txId, accounts)
  }

  /** The rows that survive `DELETE FROM transaction_entries WHERE transaction_id = txId`. */
  function RowsWithout(rows: seq<EntryRow>, txId: int): seq<EntryRow> {
    if rows == [] then []
    else (if rows[0].txId == txId then [] else [rows[0]]) + RowsWithout(rows[1..], txId)
  }

  /** The transaction insert binds the body's `date`, `description` and
      `reference`; an absent one binds `undefined`, which the driver
      refuses. An explicit empty text is given. */
  predicate HeadingGiven(date: Option<string>, description: Option<string>, reference: Option<string>) {
    date.Some? && description.Some? && reference.Some?
  }

  /** The index of the first line whose account does not exist, or `|es|`. */
  function FirstMissing(accounts: map<int, Account>, es: seq<Entry>): (k: nat)
    ensures k <= |es|
    ensures forall i :: 0 <= i < k ==> es[i].accountId in accounts
    ensures k < |es| ==> es[k].accountId !in accounts
  {
    FirstOutside(es, accounts.Keys, EntryAccount)
  }

  function EntryAccount(e: Entry): int {
    e.accountId
  }

  /** Up to the first missing account, line `i` is the first missing one
      exactly when its account does not exist. */
  lemma FirstMissingAt(accounts: map<int, Account>, es: seq<Entry>, i: nat)
    requires i <= FirstMissing(accounts, es) && i < |es|
    ensures es[i].accountId in accounts <==> i < FirstMissing(accounts, es)
  {
  }

  /** Account ids come from an `AUTO_INCREMENT` column, so none is below 1. */
  predicate ChartIds(accounts: map<int, Account>) {
    forall a :: a in accounts ==> a >= 1
  }

  predicate AccountsExist(accounts: map<int, Account>, es: seq<Entry>) {
    forall i :: 0 <= i < |es| ==> es[i].accountId in accounts
  }

  // ---------------------------------------------------------------------
  // Laws of the specification functions

  /** Posting never adds or removes accounts. */
  lemma {:induction false} PostedKeys(accounts: map<int, Account>, es: seq<Entry>)
    ensures Posted(accounts, es).Keys == accounts.Keys
  {
    if es != [] {
      PostedKeys(accounts, es[..|es| - 1]);
    }
  }

  /** Posting never adds or removes accounts nor changes their kind; each
      account's balance moves by exactly the net change of the lines naming
      it, so an account no line names keeps its balance and several lines
      against one account add up. */
  lemma {:induction false} PostedAt(accounts: map<int, Account>, es: seq<Entry>, id: int)
    ensures Posted(accounts, es).Keys == accounts.Keys
    ensures id in accounts ==>
      Posted(accounts, es)[id] == Account(accounts[id].kind, accounts[id].balance + Net(es, id, accounts[id].kind))
  {
    if es != [] {
      var init := es[..|es| - 1];
      PostedAt(accounts, init, id);
      var e := es[|es| - 1];
      PostedAt(accounts, init, e.accountId);
    }
  }

  /** Posting one more line is posting that line after the others. */
  lemma PostedStep(accounts: map<int, Account>, es: seq<Entry>, i: nat)
    requires i < |es|
    ensures Posted(accounts, es[..i + 1]) == Apply(Posted(accounts, es[..i]), es[i])
  {
    assert es[..i + 1][..i] == es[..i];
  }

  /** Storing one more line appends its row. */
  lemma RowsOfStep(txId: int, es: seq<Entry>, i: nat)
    requires i < |es|
    ensures RowsOf(txId, es[..i + 1]) ==
      RowsOf(txId, es[..i]) + [EntryRow(txId, es[i].accountId, OrZero(es[i].debit), OrZero(es[i].credit))]
  {
    assert es[..i + 1][..i] == es[..i];
  }

  /** The deletion loop moves each account back by the net change its rows record. */
  lemma {:induction false} ReversedAt(accounts: map<int, Account>, rows: seq<EntryRow>, id: int)
    ensures Reversed(accounts, rows).Keys == accounts.Keys
    ensures id in accounts ==>
      Reversed(accounts, rows)[id] == Account(accounts[id].kind, accounts[id].balance - RowNet(rows, id, accounts[id].kind))
  {
    if rows != [] {
      var init := rows[..|rows| - 1];
      ReversedAt(accounts, init, id);
      var r := rows[|rows| - 1];
      ReversedAt(accounts, init, r.accountId);
    }
  }

  /** The stored rows record exactly the change the posting made. */
  lemma {:induction false} RowNetOfRows(txId: int, es: seq<Entry>, id: int, k: AccountType)
    ensures RowNet(RowsOf(txId, es), id, k) == Net(es, id, k)
  {
    if es != [] {
      var init := es[..|es| - 1];
      assert RowsOf(txId, es)[..|es| - 1] == RowsOf(txId, init);
      RowNetOfRows(txId, init, id, k);
    }
  }

  /** Round trip: reversing the rows of a posting restores every balance. */
  lemma PostThenReverse(accounts: map<int, Account>, txId: int, es: seq<Entry>)
    ensures Reversed(Posted(accounts, es), RowsOf(txId, es)) == accounts
  {
    var p := Posted(accounts, es);
    var r := Reversed(p, RowsOf(txId, es));
    forall id | id in accounts
      ensures id in r && r[id] == accounts[id]
    {
      PostedAt(accounts, es, id);
      ReversedAt(p, RowsOf(txId, es), id);
      RowNetOfRows(txId, es, id, accounts[id].kind);
    }
    PostedAt(accounts, es, 0);
    ReversedAt(p, RowsOf(txId, es), 0);
  }

  lemma {:induction false} JoinedAppend(a: seq<EntryRow>, b: seq<EntryRow>, txId: int, accounts: map<int, Account>)
    ensures Joined(a + b, txId, accounts) == Joined(a, txId, accounts) + Joined(b, txId, accounts)
  {
    if a == [] {
      assert a + b == b;
    } else {
      assert (a + b)[0] == a[0];
      assert (a + b)[1..] == a[1..] + b;
      JoinedAppend(a[1..], b, txId, accounts);
      var h := if a[0].txId == txId && a[0].accountId in accounts then [a[0]] else [];
      calc {
        Joined(a + b, txId, accounts);
        h + Joined(a[1..] + b, txId, accounts);
        h + (Joined(a[1..], txId, accounts) + Joined(b, txId, accounts));
        (h + Joined(a[1..], txId, accounts)) + Joined(b, txId, accounts);
      }
    }
  }

  lemma {:induction false} RowsWithoutAppend(a: seq<EntryRow>, b: seq<EntryRow>, txId: int)
    ensures RowsWithout(a + b, txId) == RowsWithout(a, txId) + RowsWithout(b, txId)
  {
    if a == [] {
      assert a + b == b;
    } else {
      assert (a + b)[0] == a[0];
      assert (a + b)[1..] == a[1..] + b;
      RowsWithoutAppend(a[1..], b, txId);
      var h := if a[0].txId == txId then [] else [a[0]];
      calc {
        RowsWithout(a + b, txId);
        h + RowsWithout(a[1..] + b, txId);
        h + (RowsWithout(a[1..], txId) + RowsWithout(b, txId));
        (h + RowsWithout(a[1..], txId)) + RowsWithout(b, txId);
      }
    }
  }

  /** Rows of other transactions are untouched by the deletion of `txId`. */
  lemma {:induction false} OtherRows(rows: seq<EntryRow>, txId: int, accounts: map<int, Account>)
    requires forall i :: 0 <= i < |rows| ==> rows[i].txId != txId
    ensures Joined(rows, txId, accounts) == []
    ensures RowsWithout(rows, txId) == rows
    ensures RowsFor(rows, txId) == []
  {
    if rows != [] {
      OtherRows(rows[1..], txId, accounts);
    }
  }

  /** The rows a posting stores are all read back by the deletion, and all removed by it. */
  lemma {:induction false} OwnRows(txId: int, es: seq<Entry>, accounts: map<int, Account>)
    requires AccountsExist(accounts, es)
    ensures Joined(RowsOf(txId, es), txId, accounts) == RowsOf(txId, es)
    ensures RowsWithout(RowsOf(txId, es), txId) == []
  {
    if es != [] {
      var rows := RowsOf(txId, es);
      RowsOfAt(txId, es);
      RowsOfAt(txId, es[1..]);
      assert rows[1..] == RowsOf(txId, es[1..]);
      OwnRows(txId, es[1..], accounts);
    }
  }

  // ---------------------------------------------------------------------
  // The tables and the two request handlers

  class LedgerStore {
    var accounts: map<int, Account>
    var transactions: map<int, TxRow>
    var entryRows: seq<EntryRow>
    /** The next value of the `transactions.id` auto-increment counter. */
    var nextTxId: int

    ghost predicate Valid()
      reads this
    {
      && ChartIds(accounts)
      && (forall t :: t in transactions ==> t < nextTxId)
      && (forall r :: r in entryRows ==> r.txId < nextTxId)
    }

    constructor (chart: map<int, Account>)
      requires ChartIds(chart)
      ensures Valid()
      ensures accounts == chart && transactions == map[] && entryRows == [] && nextTxId == 1
    {
      accounts := chart;
      transactions := map[];
      entryRows := [];
      nextTxId := 1;
    }

    /** POST /transactions. An unbalanced request is refused before any
        write. Otherwise the transaction row is inserted and each line is
        stored and applied in turn; a line naming an account that does not
        exist fails the request, because the foreign key on
        `transaction_entries.account_id` refuses its row, leaving the
        transaction row and the earlier lines in place (no rollback). A body
        without `date`, `description` or `reference` fails the transaction
        insert, with nothing written. */
    method Post(date: Option<string>, description: Option<string>, reference: Option<string>,
                es: seq<Entry>, caller: Caller)
      returns (status: Status, id: Option<int>)
      requires Valid()
      modifies this
      ensures Valid()
      ensures !Balanced(es) ==>
        status == BadRequest && id == None &&
        accounts == old(accounts) && transactions == old(transactions) &&
        entryRows == old(entryRows) && nextTxId == old(nextTxId)
      ensures Balanced(es) && !HeadingGiven(date, description, reference) ==>
        status == ServerError && id == None &&
        accounts == old(accounts) && transactions == old(transactions) &&
        entryRows == old(entryRows) && nextTxId == old(nextTxId)
      ensures Balanced(es) && HeadingGiven(date, description, reference) ==>
        var k := FirstMissing(old(accounts), es);
        var t := old(nextTxId);
        && nextTxId == t + 1
        && transactions == old(transactions)[t := TxRow(date.value, description.value, reference.value, caller.id)]
        && accounts == Posted(old(accounts), es[..k])
        && (k == |es| ==> status == Created && id == Some(t) && entryRows == old(entryRows) + RowsOf(t, es))
        && (k < |es| ==> status == ServerError && id == None && entryRows == old(entryRows) + RowsOf(t, es[..k]))
    {
      if !Balanced(es) {
        return BadRequest, None;
      }
      if !HeadingGiven(date, description, reference) {
        // the transaction insert binds `undefined`, which the driver refuses
        return ServerError, None;
      }
      var t := nextTxId;
      transactions := transactions[t := TxRow(date.value, description.value, reference.value, caller.id)];
      nextTxId := t + 1;
      var ok := StoreLines(t, es);
      if !ok {
        return ServerError, None;
      }
      assert es[..|es|] == es;
      return Created, Some(t);
    }

    /** The posting loop: each line is stored and applied in turn, up to
        the first line whose account does not exist, whose row is refused;
        `false` when there is such a line. */
    method StoreLines(t: int, es: seq<Entry>) returns (ok: bool)
      requires Valid() && t < nextTxId
      modifies this
      ensures Valid()
      ensures transactions == old(transactions) && nextTxId == old(nextTxId)
      ensures var k := FirstMissing(old(accounts), es);
        && accounts == Posted(old(accounts), es[..k])
        && (ok <==> k == |es|)
        && entryRows == old(entryRows) + RowsOf(t, es[..k])
    {
      ghost var k := FirstMissing(accounts, es);
      ghost var a0, r0 := accounts, entryRows;
      var i := 0;
      while i < |es|
        invariant 0 <= i <= k
        invariant Valid() && transactions == old(transactions) && nextTxId == old(nextTxId)
        invariant entryRows == r0 + RowsOf(t, es[..i])
        invariant accounts == Posted(a0, es[..i])
      {
        ok := StoreNext(t, es, i, a0, r0);
        if !ok {
          // `account.type` of a missing account throws
          return;
        }
        i := i + 1;
      }
      assert es[..i] == es;
      return true;
    }

    /** The turn of the posting loop for line `i`, stated on the rows and
        balances the loop has reached: `false`, with nothing written, exactly
        at the first missing account. */
    method StoreNext(t: int, es: seq<Entry>, i: nat, ghost a0: map<int, Account>, ghost r0: seq<EntryRow>)
        returns (ok: bool)
      requires Valid() && t < nextTxId
      requires i < |es| && i <= FirstMissing(a0, es)
      requires entryRows == r0 + RowsOf(t, es[..i]) && accounts == Posted(a0, es[..i])
      modifies this
      ensures Valid()
      ensures transactions == old(transactions) && nextTxId == old(nextTxId)
      ensures ok <==> i < FirstMissing(a0, es)
      ensures ok ==> entryRows == r0 + RowsOf(t, es[..i + 1]) && accounts == Posted(a0, es[..i + 1])
      ensures !ok ==> entryRows == old(entryRows) && accounts == old(accounts)
    {
      PostedStep(a0, es, i);
      RowsOfStep(t, es, i);
      PostedKeys(a0, es[..i]);
      FirstMissingAt(a0, es, i);
      ok := StoreLine(t, es[i]);
    }

    /** One turn of the posting loop: the line's row is stored, then its
        account's balance moves; `false`, with nothing stored, when the
        account does not exist, where the foreign key refuses the row. */
    method StoreLine(t: int, e: Entry) returns (ok: bool)
      requires Valid() && t < nextTxId
      modifies this
      ensures Valid()
      ensures transactions == old(transactions) && nextTxId == old(nextTxId)
      ensures ok <==> e.accountId in old(accounts)
      ensures ok ==> entryRows == old(entryRows) + [EntryRow(t, e.accountId, OrZero(e.debit), OrZero(e.credit))]
      ensures !ok ==> entryRows == old(entryRows)
      ensures accounts == Apply(old(accounts), e)
    {
      if e.accountId !in accounts {
        // the insert breaks `FOREIGN KEY (account_id) REFERENCES accounts(id)`
        return false;
      }
      entryRows := entryRows + [EntryRow(t, e.accountId, OrZero(e.debit), OrZero(e.credit))];
      var change := Change(accounts[e.accountId].kind, OrZero(e.debit), OrZero(e.credit));
      accounts := AddToBalance(accounts, e.accountId, change);
      return true;
    }

    /** POST /transactions as written: the new id is read from
        `result.lastID`, a field the MySQL driver's insert result does not
        carry, so the id is absent. The transaction row is inserted, but the
        first entry insert binds the absent id and fails, so no line is
        stored or applied. A body without `date`, `description` or
        `reference` fails already at the transaction insert. */
    method PostAsWritten(date: Option<string>, description: Option<string>, reference: Option<string>,
                         es: seq<Entry>, caller: Caller)
      returns (status: Status, id: Option<int>)
      requires Valid()
      modifies this
      ensures Valid()
      ensures accounts == old(accounts) && entryRows == old(entryRows) && id == None
      ensures !Balanced(es) ==> status == BadRequest && transactions == old(transactions) && nextTxId == old(nextTxId)
      ensures Balanced(es) && !HeadingGiven(date, description, reference) ==>
        status == ServerError && transactions == old(transactions) && nextTxId == old(nextTxId)
      ensures Balanced(es) && HeadingGiven(date, description, reference) ==>
        && nextTxId == old(nextTxId) + 1
        && transactions == old(transactions)[old(nextTxId) := TxRow(date.value, description.value, reference.value, caller.id)]
        && status == (if es == [] then Created else ServerError)
    {
      if !Balanced(es) {
        return BadRequest, None;
      }
      if !HeadingGiven(date, description, reference) {
        return ServerError, None;
      }
      var t := nextTxId;
      transactions := transactions[t := TxRow(date.value, description.value, reference.value, caller.id)];
      nextTxId := t + 1;
      var lastId: Option<int> := None;
      if |es| > 0 && lastId.None? {
        // the entry loop's first insert binds the undefined id, which the driver refuses
        return ServerError, None;
      }
      return Created, lastId;
    }

    /** DELETE /transactions/:id. Reads the transaction's rows joined with
        their accounts, moves each balance back, deletes the rows and then
        the transaction. An unknown id reads no rows and still succeeds. */
    method Delete(txId: int) returns (status: Status)
      requires Valid()
      modifies this
      ensures Valid()
      ensures status == Ok
      ensures accounts == Reversed(old(accounts), Joined(old(entryRows), txId, old(accounts)))
      ensures entryRows == RowsWithout(old(entryRows), txId)
      ensures transactions == old(transactions) - {txId}
      ensures nextTxId == old(nextTxId)
    {
      var rows := Joined(entryRows, txId, accounts);
      ReverseRows(rows);
      RowsWithoutShrinks(entryRows, txId);
      entryRows := RowsWithout(entryRows, txId);
      transactions := transactions - {txId};
      status := Ok;
    }

    /** The deletion loop: each row read moves its account's balance back
        by the change it recorded. */
    method ReverseRows(rows: seq<EntryRow>)
      modifies this
      ensures accounts == Reversed(old(accounts), rows)
      ensures accounts.Keys == old(accounts).Keys
      ensures transactions == old(transactions) && entryRows == old(entryRows) && nextTxId == old(nextTxId)
    {
      var i := 0;
      while i < |rows|
        invariant 0 <= i <= |rows|
        invariant accounts == Reversed(old(accounts), rows[..i])
        invariant accounts.Keys == old(accounts).Keys
        invariant transactions == old(transactions) && entryRows == old(entryRows) && nextTxId == old(nextTxId)
      {
        var r := rows[i];
        assert rows[..i + 1][..i] == rows[..i];
        if r.accountId in accounts {
          accounts := AddToBalance(accounts, r.accountId, -Change(accounts[r.accountId].kind, r.debit, r.credit));
        }
        i := i + 1;
      }
      assert rows[..i] == rows;
    }
  }

  lemma {:induction false} RowsWithoutShrinks(rows: seq<EntryRow>, txId: int)
    ensures forall r :: r in RowsWithout(rows, txId) ==> r in rows
  {
    if rows != [] {
      RowsWithoutShrinks(rows[1..], txId);
    }
  }

  lemma UpdateThenRemove<K, V>(m: map<K, V>, k: K, v: V)
    requires k !in m
    ensures m[k := v] - {k} == m
  {
    assert (m[k := v] - {k}).Keys == m.Keys;
  }

  /** Posting a balanced transaction over existing accounts and then deleting
      it leaves every balance, every transaction and every entry row as it
      was. */
  method PostThenDelete(store: LedgerStore, date: string, description: string, reference: string,
                        es: seq<Entry>, caller: Caller)
    requires store.Valid()
    requires Balanced(es) && AccountsExist(store.accounts, es)
    modifies store
    ensures store.Valid()
    ensures store.accounts == old(store.accounts)
    ensures store.transactions == old(store.transactions)
    ensures store.entryRows == old(store.entryRows)
  {
    ghost var a0, t0, r0 := store.accounts, store.transactions, store.entryRows;
    ghost var t := store.nextTxId;
    assert FirstMissing(a0, es) == |es|;
    assert es[..|es|] == es;
    var status, id := store.Post(Some(date), Some(description), Some(reference), es, caller);
    ghost var a1 := store.accounts;
    assert a1 == Posted(a0, es);
    assert id == Some(t);
    assert store.entryRows == r0 + RowsOf(t, es);
    PostedAt(a0, es, 0);
    assert AccountsExist(a1, es);
    assert forall i :: 0 <= i < |r0| ==> r0[i] in r0;
    OtherRows(r0, t, a1);
    OwnRows(t, es, a1);
    JoinedAppend(r0, RowsOf(t, es), t, a1);
    RowsWithoutAppend(r0, RowsOf(t, es), t);
    assert Joined(store.entryRows, t, a1) == RowsOf(t, es) by {
      assert [] + RowsOf(t, es) == RowsOf(t, es);
    }
    assert RowsWithout(store.entryRows, t) == r0 by {
      assert r0 + [] == r0;
    }
    ghost var t1 := store.transactions;
    assert t !in t0;
    UpdateThenRemove(t0, t, TxRow(date, description, reference, caller.id));
    status := store.Delete(id.value);
    assert store.accounts == Reversed(a1, RowsOf(t, es));
    PostThenReverse(a0, t, es);
  }

  /** Deleting an id that has no transaction and no rows still succeeds and
      changes no balance, transaction or row. */
  method DeleteUnknown(store: LedgerStore, txId: int) returns (status: Status)
    requires store.Valid()
    requires txId !in store.transactions && forall r :: r in store.entryRows ==> r.txId != txId
    modifies store
    ensures status == Ok
    ensures store.accounts == old(store.accounts)
    ensures store.transactions == old(store.transactions)
    ensures store.entryRows == old(store.entryRows)
  {
    ghost var rows := store.entryRows;
    assert forall i :: 0 <= i < |rows| ==> rows[i] in rows;
    OtherRows(rows, txId, store.accounts);
    ghost var txs := store.transactions;
    status := store.Delete(txId);
    assert store.transactions == txs by {
      assert store.transactions.Keys == txs.Keys;
    }
  }

  /** A chart with a cash account and a revenue account, both at 0. */
  const ScenarioChart: map<int, Account> := map[1 := Account(Asset, 0), 2 := Account(Revenue, 0)]

  /** Cash debited and revenue credited with 100.00. */
  const ScenarioEntries: seq<Entry> := [Entry(1, Some(10000), None), Entry(2, None, Some(10000))]

  /** The scenario's request is balanced, names only existing accounts, and
      posting it brings both balances to 100.00. */
  lemma ScenarioPosting()
    ensures Balanced(ScenarioEntries)
    ensures FirstMissing(ScenarioChart, ScenarioEntries) == |ScenarioEntries|
    ensures ScenarioEntries[..|ScenarioEntries|] == ScenarioEntries
    ensures Posted(ScenarioChart, ScenarioEntries) == map[1 := Account(Asset, 10000), 2 := Account(Revenue, 10000)]
  {
    var es := ScenarioEntries;
    assert es[1..][1..] == [];
    assert es[..|es|] == es;
    assert es[..1] == [es[0]] && [es[0]][..0] == [];
    assert Net(es[..1], 1, Asset) == 10000;
    assert Net(es, 1, Asset) == 10000;
    assert Net(es[..1], 2, Revenue) == 0;
    assert Net(es, 2, Revenue) == 10000;
    PostedAt(ScenarioChart, es, 1);
    PostedAt(ScenarioChart, es, 2);
  }

  /** The scenario of a cash account debited and a revenue account credited
      with 100.00: as written the request fails and no balance moves; with
      the id of the inserted row both balances become 100.00, and deleting
      the transaction returns both to 0. */
  method LastIdDiscrepancy() returns (asWritten: Status, corrected: Status, cash: int, sales: int, cashAfterDelete: int)
    ensures asWritten == ServerError && corrected == Created
    ensures cash == 10000 && sales == 10000 && cashAfterDelete == 0
  {
    var es := ScenarioEntries;
    var caller := Caller(1, true);
    ScenarioPosting();
    var s1 := new LedgerStore(ScenarioChart);
    var id1;
    asWritten, id1 := s1.PostAsWritten(Some("2024-01-01"), Some("Venta"), Some(""), es, caller);
    var s2 := new LedgerStore(ScenarioChart);
    var id2;
    corrected, id2 := s2.Post(Some("2024-01-01"), Some("Venta"), Some(""), es, caller);
    cash := s2.accounts[1].balance;
    sales := s2.accounts[2].balance;
    ghost var a1 := s2.accounts;
    assert [] + RowsOf(1, es) == RowsOf(1, es);
    assert AccountsExist(a1, es);
    OwnRows(1, es, a1);
    var st := s2.Delete(id2.value);
    PostThenReverse(ScenarioChart, 1, es);
    cashAfterDelete := s2.accounts[1].balance;
  }
}
