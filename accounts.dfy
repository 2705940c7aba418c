/**
 * The accounts slice: the one seeded account and the reducers that edit the
 * list in place, with the `selectAccountById` lookup.
 */
module Accounts {
  import opened Wrappers
  import opened Records
  import KeyedList

  /** An account: `userId`, `currency`, `balance` and `initialBalance` in cents, `accountType`, `excludeFromTotal`, `isActive`. */
  type Account = Record

  /** The default account of the initial state; its display name, icon and colour are not modelled. */
  const DefaultAccount: Account := Record("acc_default_cny", map[
    "userId" := Str("demo-user"),
    "currency" := Str("CNY"),
    "balance" := Num(0),
    "initialBalance" := Num(0),
    "accountType" := Str("DEBIT"),
    "excludeFromTotal" := Bool(false),
    "isActive" := Bool(true)])

  /** The initial state's list of accounts. */
  const Seed: seq<Account> := [DefaultAccount]

  /** The seed holds the single default account, and it is well formed. */
  lemma SeedShape()
    ensures |Seed| == 1 && KeyedList.DistinctIds(Seed) && WellFormed(Seed[0])
    ensures KeyedList.HasId(Seed, "acc_default_cny")
  {
  }

  /** The accounts slice's state: `state.items`, edited in place by the reducers. */
  class AccountsStore {
    var items: seq<Account>

    /** The store starts from the initial state. */
    constructor ()
      ensures items == Seed
    {
      items := Seed;
    }

    /** `setAccounts`: the payload becomes the whole list. */
    method SetAccounts(payload: seq<Account>)
      modifies this
      ensures items == payload
    {
      items := payload;
    }

    /** `addAccount`: `push` the payload; no check for an id that is already present. */
    method AddAccount(account: Account)
      modifies this
      ensures items == old(items) + [account]
      ensures KeyedList.DistinctIds(items) <==>
              KeyedList.DistinctIds(old(items)) && !KeyedList.HasId(old(items), account.id)
    {
      KeyedList.DistinctAfterAppend(items, account);
      items := items + [account];
    }

    /** `upsertAccount`: replace the first element with the same id, or `push` when there is none. */
    method UpsertAccount(next: Account)
      modifies this
      ensures items == KeyedList.Upserted(old(items), next)
      ensures KeyedList.Find(items, next.id) == Some(next)
      ensures KeyedList.DistinctIds(old(items)) ==> KeyedList.DistinctIds(items)
    {
      KeyedList.FindAfterUpsert(items, next);
      if KeyedList.DistinctIds(items) {
        KeyedList.DistinctAfterUpsert(items, next);
      }
      var index := KeyedList.FirstIndexOf(items, next.id);
      if index == -1 {
        items := items + [next];
        return;
      }
      items := items[index := next];
    }

    /** `updateAccount`: merge the changes into the first match, keeping its id; an unknown id does nothing. */
    method UpdateAccount(id: Id, changes: Changes)
      modifies this
      ensures items == KeyedList.Updated(old(items), id, changes)
      ensures KeyedList.Ids(items) == KeyedList.Ids(old(items))
      ensures KeyedList.DistinctIds(old(items)) ==> KeyedList.DistinctIds(items)
    {
      KeyedList.UpdatedIds(items, id, changes);
      if KeyedList.DistinctIds(items) {
        KeyedList.DistinctAfterUpdate(items, id, changes);
      }
      var index := KeyedList.FirstIndexOf(items, id);
      if index == -1 {
        return;
      }
      items := items[index := Merge(items[index], changes)];
    }

    /** `removeAccount`: keep, in order, every element whose id differs. */
    method RemoveAccount(id: Id)
      modifies this
      ensures items == KeyedList.Removed(old(items), id)
      ensures !KeyedList.HasId(items, id)
      ensures KeyedList.DistinctIds(old(items)) ==> KeyedList.DistinctIds(items)
    {
      if KeyedList.DistinctIds(items) {
        KeyedList.DistinctAfterRemove(items, id);
      }
      items := KeyedList.Removed(items, id);
    }

    /** `clearAccounts`: the list becomes empty (this slice has no reset to the seed). */
    method ClearAccounts()
      modifies this
      ensures items == []
    {
      items := [];
    }

    /** `selectAccountById(id)`: the first account whose id matches, or none. */
    function SelectAccountById(id: Id): (r: Option<Account>)
      reads this
      ensures r.None? <==> !KeyedList.HasId(items, id)
      ensures r.Some? ==> r.value == items[KeyedList.FirstIndexOf(items, id)]
    {
      KeyedList.FindIsAtFirstIndex(items, id);
      KeyedList.Find(items, id)
    }
  }
}
