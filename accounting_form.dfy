/** The journal-entry form of the accounting page: a list of lines edited in
    place, the balance indicator that enables the submit button, and the
    balance check of the submit handler. Amounts are cents. */
module AccountingForm {
  import opened Common
  import Ledger

  /** A line of the form; `accountId` is absent while no account is chosen. */
  datatype FormEntry = FormEntry(accountId: Option<int>, debit: int, credit: int)

  /** An edit of one field; an amount is absent when the typed text is not a number. */
  datatype Edit = SetAccount(id: Option<int>) | SetDebit(amount: Option<int>) | SetCredit(amount: Option<int>)

  const ZeroEntry := FormEntry(None, 0, 0)

  /** The form opens, and is reset after a successful post, with two zero lines. */
  const InitialEntries := [ZeroEntry, ZeroEntry]

  function TotalDebit(es: seq<FormEntry>): int {
    if es == [] then 0 else es[0].debit + TotalDebit(es[1..])
  }

  function TotalCredit(es: seq<FormEntry>): int {
    if es == [] then 0 else es[0].credit + TotalCredit(es[1..])
  }

  /** The indicator and the submit button: strictly less than one cent apart. */
  predicate IsBalanced(es: seq<FormEntry>) {
    Abs(TotalDebit(es) - TotalCredit(es)) < 1
  }

  /** The submit handler posts unless the totals are more than one cent apart. */
  predicate SubmitAccepts(es: seq<FormEntry>) {
    !(Abs(TotalDebit(es) - TotalCredit(es)) > 1)
  }

  /** The line an edit produces: the account is stored as given, an amount as
      the parsed number or 0. */
  function Edited(e: FormEntry, edit: Edit): FormEntry {
    match edit
    case SetAccount(id) => e.(accountId := id)
    case SetDebit(amount) => e.(debit := OrZero(amount))
    case SetCredit(amount) => e.(credit := OrZero(amount))
  }

  /** The request body's lines as the server reads them. An unchosen account
      is sent as the empty string, which the database refuses at its line
      (strict mode) or reads as id 0, which the foreign key refuses; it
      stands here as id 0. */
  function ToRequest(es: seq<FormEntry>): (r: seq<Ledger.Entry>)
    ensures |r| == |es|
    ensures forall i :: 0 <= i < |es| ==>
      r[i] == Ledger.Entry(OrZero(es[i].accountId), Some(es[i].debit), Some(es[i].credit))
  {
    if es == [] then []
    else [Ledger.Entry(OrZero(es[0].accountId), Some(es[0].debit), Some(es[0].credit))] + ToRequest(es[1..])
  }

  /** An unchosen account is refused at its line: id 0 is in no chart
      (`Ledger.ChartIds`), so the posting stops at or before that line with
      500. */
  lemma UnchosenMissesChart(accounts: map<int, Ledger.Account>, es: seq<FormEntry>, i: int)
    requires forall a :: a in accounts ==> a >= 1
    requires 0 <= i < |es| && es[i].accountId.None?
    ensures ToRequest(es)[i].accountId !in accounts
    ensures Ledger.FirstMissing(accounts, ToRequest(es)) <= i
  {
  }

  lemma {:induction false} TotalsAgree(es: seq<FormEntry>)
    ensures Ledger.TotalDebit(ToRequest(es)) == TotalDebit(es)
    ensures Ledger.TotalCredit(ToRequest(es)) == TotalCredit(es)
  {
    if es != [] {
      assert ToRequest(es)[1..] == ToRequest(es[1..]);
      TotalsAgree(es[1..]);
    }
  }

  /** The client's submit check and the server's balance check agree, so a
      form the client sends is never refused for imbalance. */
  lemma SubmitAgreesWithServer(es: seq<FormEntry>)
    ensures SubmitAccepts(es) <==> Ledger.Balanced(ToRequest(es))
  {
    TotalsAgree(es);
  }

  /** The button is stricter than the handler: an enabled button implies the
      handler accepts, and in cents it is enabled exactly when the totals are
      equal. */
  lemma ButtonStricterThanHandler(es: seq<FormEntry>)
    ensures IsBalanced(es) ==> SubmitAccepts(es)
    ensures IsBalanced(es) <==> TotalDebit(es) == TotalCredit(es)
  {
  }

  /** At a gap of exactly one cent the handler would accept but the button is
      disabled. */
  lemma OneCentGap()
    ensures SubmitAccepts([FormEntry(Some(1), 101, 0), FormEntry(Some(2), 0, 100)])
    ensures !IsBalanced([FormEntry(Some(1), 101, 0), FormEntry(Some(2), 0, 100)])
  {
    var es := [FormEntry(Some(1), 101, 0), FormEntry(Some(2), 0, 100)];
    assert es[1..][1..] == [];
  }

  lemma InitialIsBalanced()
    ensures IsBalanced(InitialEntries) && |InitialEntries| == 2
  {
    var one := [ZeroEntry];
    assert one[1..] == [];
    assert TotalDebit(one) == 0 && TotalCredit(one) == 0;
    assert InitialEntries[1..] == one;
  }

  class Form {
    var entries: seq<FormEntry>

    /** The remove button is rendered only while more than two lines exist,
        so the form never has fewer than two. */
    ghost predicate Valid()
      reads this
    {
      |entries| >= 2
    }

    constructor ()
      ensures Valid() && entries == InitialEntries
    {
      entries := InitialEntries;
    }

    /** `addEntry`: appends one zero line. */
    method AddEntry()
      requires Valid()
      modifies this
      ensures Valid()
      ensures entries == old(entries) + [ZeroEntry]
    {
      entries := entries + [ZeroEntry];
    }

    /** `removeEntry(i)`, offered only when more than two lines exist: drops
        line `i` and keeps the others in order. */
    method RemoveEntry(i: int)
      requires Valid() && |entries| > 2 && 0 <= i < |entries|
      modifies this
      ensures Valid()
      ensures entries == old(entries)[..i] + old(entries)[i + 1..]
    {
      entries := RemoveAt(entries, i);
    }

    /** `updateEntry(i, field, value)`: changes one field of line `i` only. */
    method UpdateEntry(i: int, edit: Edit)
      requires Valid() && 0 <= i < |entries|
      modifies this
      ensures Valid()
      ensures |entries| == |old(entries)|
      ensures entries[i] == Edited(old(entries)[i], edit)
      ensures forall j :: 0 <= j < |entries| && j != i ==> entries[j] == old(entries)[j]
    {
      entries := entries[i := Edited(entries[i], edit)];
    }

    /** `handleSubmit`: sends the lines unless they are more than a cent
        apart; after the server accepts (`accepted`), the form is reset. */
    method HandleSubmit(accepted: bool) returns (sent: Option<seq<FormEntry>>)
      requires Valid()
      modifies this
      ensures Valid()
      ensures sent.Some? <==> SubmitAccepts(old(entries))
      ensures sent.Some? ==> sent.value == old(entries)
      ensures entries == if sent.Some? && accepted then InitialEntries else old(entries)
    {
      if !SubmitAccepts(entries) {
        return None;
      }
      sent := Some(entries);
      if accepted {
        entries := InitialEntries;
      }
    }
  }
}
