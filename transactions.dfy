/**
 * The transactions slice: the seven seeded ledger entries and the reducers
 * that edit the list in place, with the `selectTransactionById` lookup.
 */
module Transactions {
  import opened Wrappers
  import opened Records
  import KeyedList
  import Categories
  import Accounts

  /**
   * A ledger entry: `userId`, `amount` in cents, `type`, `currency`, `categoryId`,
   * `rootCategoryId`, `accountId`, optional `toAccountId`, the exclusion flags,
   * `status`, optional `refundStatus` and `relatedTransactionId`, the `date`,
   * `createdAt` and `updatedAt` instants, `note`, `tags` and `images`.
   */
  type Transaction = Record

  /** A seeded expense of the demo user on the default account, in the food category, at a local date and time. */
  function DemoExpense(id: Id, amount: int, date: string, time: string): (t: Transaction)
    ensures t.id == id && WellFormed(t)
    ensures StringProp(t, "categoryId") == Some("cat_food")
    ensures StringProp(t, "accountId") == Some("acc_default_cny")
    ensures "amount" in t.fields && t.fields["amount"] == Num(amount)
  {
    Record(id, map[
      "userId" := Str("demo-user"),
      "amount" := Num(amount),
      "type" := Str("EXPENSE"),
      "currency" := Str("CNY"),
      "categoryId" := Str("cat_food"),
      "rootCategoryId" := Str("cat_food"),
      "accountId" := Str("acc_default_cny"),
      "isExcludeFromStats" := Bool(false),
      "isExcludeFromBudget" := Bool(false),
      "status" := Str("COMPLETED"),
      "refundStatus" := Str("NONE"),
      "date" := LocalTime(date, time),
      "createdAt" := LocalTime(date, time),
      "updatedAt" := LocalTime(date, time),
      "note" := Str(""),
      "tags" := StrList([]),
      "images" := StrList([])])
  }

  /** One line of the seed table: id, amount in cents, local date and time. */
  datatype SeedRow = SeedRow(id: Id, amount: int, date: string, time: string)

  /** The initial state's ledger entries, in order. */
  const SeedRows: seq<SeedRow> := [
    SeedRow("tx_1", 663400, "2026-02-26", "13:50"),
    SeedRow("tx_2", 64700, "2026-02-26", "13:50"),
    SeedRow("tx_3", 8500, "2026-02-26", "13:50"),
    SeedRow("tx_4", 300, "2026-02-26", "13:50"),
    SeedRow("tx_5", 500, "2026-02-26", "21:15"),
    SeedRow("tx_6", 500, "2026-02-27", "10:37"),
    SeedRow("tx_7", 5800, "2026-02-26", "13:50")
  ]

  /** The initial state's list of transactions, built from the seed table. */
  const Seed: seq<Transaction> :=
    seq(|SeedRows|, i requires 0 <= i < |SeedRows| =>
      DemoExpense(SeedRows[i].id, SeedRows[i].amount, SeedRows[i].date, SeedRows[i].time))

  /** The seed holds seven entries with pairwise distinct ids and positive amounts. */
  lemma SeedShape()
    ensures |Seed| == 7 && KeyedList.DistinctIds(Seed)
    ensures forall i :: 0 <= i < |Seed| ==> "amount" in Seed[i].fields && Seed[i].fields["amount"].Num? && Seed[i].fields["amount"].n > 0
  {
    assert forall i, j :: 0 <= i < j < |SeedRows| ==> SeedRows[i].id != SeedRows[j].id;
  }

  /** Every seeded entry names a category of the categories seed and an account of the accounts seed. */
  lemma SeedReferencesResolve()
    ensures forall i :: 0 <= i < |Seed| ==>
      && StringProp(Seed[i], "categoryId").Some?
      && KeyedList.HasId(Categories.Seed, StringProp(Seed[i], "categoryId").value)
      && StringProp(Seed[i], "accountId").Some?
      && KeyedList.HasId(Accounts.Seed, StringProp(Seed[i], "accountId").value)
  {
    assert Categories.Seed[0].id == "cat_food";
    Accounts.SeedShape();
  }

  /** The transactions slice's state: `state.items`, edited in place by the reducers. */
  class TransactionsStore {
    var items: seq<Transaction>

    /** The store starts from the initial state. */
    constructor ()
      ensures items == Seed
    {
      items := Seed;
    }

    /** `setTransactions`: the payload becomes the whole list. */
    method SetTransactions(payload: seq<Transaction>)
      modifies this
      ensures items == payload
    {
      items := payload;
    }

    /** `addTransaction`: `push` the payload; no check for an id that is already present. */
    method AddTransaction(transaction: Transaction)
      modifies this
      ensures items == old(items) + [transaction]
      ensures KeyedList.DistinctIds(items) <==>
              KeyedList.DistinctIds(old(items)) && !KeyedList.HasId(old(items), transaction.id)
    {
      KeyedList.DistinctAfterAppend(items, transaction);
      items := items + [transaction];
    }

    /** `addTransactions`: `push(...payload)`, the whole payload appended in its order. */
    method AddTransactions(payload: seq<Transaction>)
      modifies this
      ensures items == old(items) + payload
      ensures |items| == |old(items)| + |payload|
      ensures items[..|old(items)|] == old(items) && items[|old(items)|..] == payload
      ensures KeyedList.DistinctIds(items) <==>
              KeyedList.DistinctIds(old(items)) && KeyedList.DistinctIds(payload) &&
              forall x :: x in payload ==> !KeyedList.HasId(old(items), x.id)
    {
      KeyedList.DistinctAfterAppendAll(items, payload);
      items := items + payload;
    }

    /** `upsertTransaction`: replace the first element with the same id, or `push` when there is none. */
    method UpsertTransaction(next: Transaction)
      modifies this
      ensures items == KeyedList.Upserted(old(items), next)
      ensures KeyedList.Find(items, next.id) == Some(next)
      ensures KeyedList.DistinctIds(old(items)) ==> KeyedList.DistinctIds(items)
    {
      KeyedList.FindAfterUpsert(items, next);
      if KeyedList.DistinctIds(items) {
        KeyedList.DistinctAfterUpsert(items, next);
      }
      var index := KeyedList.FirstIndexOf(items, next.id);
      if index == -1 {
        items := items + [next];
        return;
      }
      items := items[index := next];
    }

    /** `updateTransaction`: merge the changes into the first match, keeping its id; an unknown id does nothing. */
    method UpdateTransaction(id: Id, changes: Changes)
      modifies this
      ensures items == KeyedList.Updated(old(items), id, changes)
      ensures KeyedList.Ids(items) == KeyedList.Ids(old(items))
      ensures KeyedList.DistinctIds(old(items)) ==> KeyedList.DistinctIds(items)
    {
      KeyedList.UpdatedIds(items, id, changes);
      if KeyedList.DistinctIds(items) {
        KeyedList.DistinctAfterUpdate(items, id, changes);
      }
      var index := KeyedList.FirstIndexOf(items, id);
      if index == -1 {
        return;
      }
      items := items[index := Merge(items[index], changes)];
    }

    /** `removeTransaction`: keep, in order, every element whose id differs. */
    method RemoveTransaction(id: Id)
      modifies this
      ensures items == KeyedList.Removed(old(items), id)
      ensures !KeyedList.HasId(items, id)
      ensures KeyedList.DistinctIds(old(items)) ==> KeyedList.DistinctIds(items)
    {
      if KeyedList.DistinctIds(items) {
        KeyedList.DistinctAfterRemove(items, id);
      }
      items := KeyedList.Removed(items, id);
    }

    /** `clearTransactions`: the state goes back to the initial state, so the list is the seven seeded entries, not empty. */
    method ClearTransactions()
      modifies this
      ensures items == Seed && |items| == 7 && KeyedList.DistinctIds(items)
    {
      SeedShape();
      items := Seed;
    }

    /** `selectTransactionById(id)`: the first transaction whose id matches, or none. */
    function SelectTransactionById(id: Id): (r: Option<Transaction>)
      reads this
      ensures r.None? <==> !KeyedList.HasId(items, id)
      ensures r.Some? ==> r.value == items[KeyedList.FirstIndexOf(items, id)]
    {
      KeyedList.FindIsAtFirstIndex(items, id);
      KeyedList.Find(items, id)
    }
  }
}
