/** The transaction screen (src/pages/admin/transactions.jsx): a local list
    seeded with three sample transactions and an add form in a modal. The add
    appends whatever the draft holds, with no check. Nothing here talks to a
    server. */
module Transactions {

  /** One row. `kind` is the source's `type` field; `amount` is the text the
      source hands to `Number`. */
  datatype Transaction = Transaction(id: int, user: string, kind: string, amount: string, date: string)

  /** The modal's draft, `newTransaction`. */
  datatype TransactionDraft = TransactionDraft(user: string, kind: string, amount: string, date: string)

  /** The inputs of the modal, by their `name` attribute. */
  datatype TransactionField = User | Kind | Amount | Date

  const EmptyDraft: TransactionDraft := TransactionDraft("", "", "", "")

  /** The sample list the screen starts from. */
  const InitialTransactions: seq<Transaction> := [
    Transaction(1, "John Doe", "Deposit", "200", "2024-03-20"),
    Transaction(2, "Alice Smith", "Withdrawal", "150", "2024-03-21"),
    Transaction(3, "Bob Johnson", "Deposit", "300", "2024-03-22")
  ]

  function FieldOf(d: TransactionDraft, f: TransactionField): string
  {
    match f
    case User => d.user
    case Kind => d.kind
    case Amount => d.amount
    case Date => d.date
  }

  /** `{ ...newTransaction, [name]: value }`: the named field takes the value
      and the other three are kept. */
  function WithField(d: TransactionDraft, f: TransactionField, value: string): (r: TransactionDraft)
    ensures FieldOf(r, f) == value
    ensures forall g :: g != f ==> FieldOf(r, g) == FieldOf(d, g)
  {
    match f
    case User => d.(user := value)
    case Kind => d.(kind := value)
    case Amount => d.(amount := value)
    case Date => d.(date := value)
  }

  /** Item i carries id i + 1. */
  predicate IdsAreIndices(list: seq<Transaction>)
  {
    forall i :: 0 <= i < |list| ==> list[i].id == i + 1
  }

  /** `[...data, { id: data.length + 1, ...newTransaction }]` */
  function Appended(list: seq<Transaction>, d: TransactionDraft): seq<Transaction>
  {
    list + [Transaction(|list| + 1, d.user, d.kind, d.amount, d.date)]
  }

  /** The append puts the draft, numbered one past the old length, at the end
      and leaves every earlier entry where it was, whatever the draft holds. */
  lemma AppendedShape(list: seq<Transaction>, d: TransactionDraft)
    ensures |Appended(list, d)| == |list| + 1
    ensures forall i :: 0 <= i < |list| ==> Appended(list, d)[i] == list[i]
    ensures var last := Appended(list, d)[|list|];
      last.id == |list| + 1 && last.user == d.user && last.kind == d.kind
      && last.amount == d.amount && last.date == d.date
  {
  }

  /** Appending keeps the numbering, so ids stay distinct. */
  lemma AppendKeepsIds(list: seq<Transaction>, d: TransactionDraft)
    requires IdsAreIndices(list)
    ensures IdsAreIndices(Appended(list, d))
    ensures forall i, j :: 0 <= i < j < |Appended(list, d)| ==> Appended(list, d)[i].id != Appended(list, d)[j].id
  {
  }

  class TransactionScreen {
    var data: seq<Transaction>
    var open: bool
    var newTransaction: TransactionDraft

    ghost predicate Valid()
      reads this
    {
      IdsAreIndices(data)
    }

    constructor ()
      ensures Valid()
      ensures data == InitialTransactions && !open && newTransaction == EmptyDraft
    {
      data := InitialTransactions;
      open := false;
      newTransaction := EmptyDraft;
    }

    method HandleOpen()
      modifies this`open
      ensures open
    {
      open := true;
    }

    method HandleClose()
      modifies this`open
      ensures !open
    {
      open := false;
    }

    /** handleChange: one field of the draft takes the typed value. */
    method HandleChange(field: TransactionField, value: string)
      modifies this`newTransaction
      ensures newTransaction == WithField(old(newTransaction), field, value)
    {
      newTransaction := WithField(newTransaction, field, value);
    }

    /** addTransaction: the draft is appended unconditionally, the modal
      closed and the draft blanked. */
    method AddTransaction()
      requires Valid()
      modifies this`data, this`open, this`newTransaction
      ensures Valid()
      ensures data == Appended(old(data), old(newTransaction))
      ensures !open && newTransaction == EmptyDraft
    {
      AppendKeepsIds(data, newTransaction);
      data := Appended(data, newTransaction);
      HandleClose();
      newTransaction := EmptyDraft;
    }
  }
}
