# Ledger stores: a Dafny model of the keyed-collection slices

The ledger app keeps three Redux Toolkit slices: categories, transactions and accounts.
Each holds `items`, a list of records keyed by a string `id`.
Each also has reducers that set, add, upsert, update, remove and clear that list, plus a `select…ById` lookup.
This project models those three slices and proves what their reducers do to the list.

- `records.dfy`: `Records` models a record as its `id` plus every other property by name (`map<string, Value>`).
  For a well-formed record (one with no `id` among its other properties), `Merge` states object spread (`{ ...current, ...changes, id: current.id }`) exactly, up to property order.
  It also holds `Wrappers.Option`, the result of `find`.
- `keyed_list.dfy`: `KeyedList` holds the table operations the three slices share, as functions of the old list.
  These are `findIndex` (`FirstIndexOf`), `find` (`Find`), the upsert (`Upserted`), the merging update (`Updated`) and the filtering remove (`Removed`).
  Beside them are the lemmas about them: positions, order, what a later lookup returns, and id distinctness.
- `categories.dfy`, `transactions.dfy`, `accounts.dfy`: one module per slice with its seed data.
  Each has one class whose `items` field the reducer methods update in place.
  `push` becomes `items := items + [x]` and `items[index] = …` becomes `items := items[index := …]`.
  A filter or a new array reassigns the field.
  Every method states the whole new list as a function of the old one.
  The add, bulk add, upsert, update and remove methods also say whether distinct ids stay distinct.

The three slices have the same upsert, update, remove and select code.
The shared functions and lemmas cite whichever slice's copy of those lines they state; the per-slice methods cite their own file.
The per-slice methods are kept as three classes, as the source keeps three slices.
Each has its own seed and its own clear or reset behaviour, and each method states its result through the one shared function.

Nothing in the code keeps ids unique: `add…` pushes without looking.
`DistinctAfterAppend` proves that an append keeps ids distinct exactly when the new id is absent.
`DistinctAfterAppendAll` proves the same for a bulk append: the payload's ids must be distinct and absent from the list.
The upsert, update and remove lemmas prove that those three always keep distinct ids distinct.

## Model

| member | source | states |
|---|---|---|
| Records.Merge | features/categories/categoriesSlice.ts:369-373 | The merged record keeps the current id. Its properties are the current ones plus those named in the changes other than `id`. A named property takes the value from the changes, every other keeps its value, and, when the current record is well formed, no `id` property appears among them. Property order is not modelled. |
| Records.MergeIgnoresChangedId | features/categories/categoriesSlice.ts:372 | Whatever `id` the changes carry, the merge comes out the same. |
| KeyedList.FirstIndexOf | features/categories/categoriesSlice.ts:349 | `findIndex` by id: -1 exactly when no element has the id. Otherwise it is a position holding the id, and no earlier position holds it. |
| KeyedList.Find | features/categories/categoriesSlice.ts:400 | `find` by id: none exactly when no element has the id. Otherwise it returns an element of the list with that id. |
| KeyedList.FindIsAtFirstIndex | features/accounts/accountsSlice.ts:105 | `find` returns the element at the position `findIndex` reports, or none when it reports -1. |
| KeyedList.Upserted | features/categories/categoriesSlice.ts:347-357 | With the id absent, the result is the old list with the record appended. With the id present, the length is unchanged, the first matching position holds the record and every other position is untouched. |
| KeyedList.UpsertedIds | features/transactions/transactionsSlice.ts:204-214 | After an upsert the id list is unchanged when the id was present, and has the new id appended when it was absent. |
| KeyedList.FindAfterUpsert | features/accounts/accountsSlice.ts:54-64 | After an upsert, looking up the record's id yields exactly that record. |
| KeyedList.FindOtherAfterUpsert | features/transactions/transactionsSlice.ts:205-213 | After an upsert, every other id looks up to what it did before. |
| KeyedList.UpsertIdempotent | features/accounts/accountsSlice.ts:55-63 | Upserting the same record twice equals upserting it once. |
| KeyedList.DistinctAfterUpsert | features/categories/categoriesSlice.ts:348-356 | Distinct ids before an upsert stay distinct after it. |
| KeyedList.DistinctAfterAppend | features/categories/categoriesSlice.ts:344-346 | After a `push`, ids are distinct exactly when they were distinct before and the new id was absent. |
| KeyedList.DistinctAfterAppendAll | features/transactions/transactionsSlice.ts:201-203 | After `push(...payload)`, ids are distinct exactly when the old ids are distinct, the payload's ids are distinct and no payload id is already stored. |
| KeyedList.AppendMayDuplicate | features/transactions/transactionsSlice.ts:198-200 | Pushing a record whose id is already stored leaves a duplicate id: add gives no uniqueness guarantee. |
| KeyedList.Updated | features/categories/categoriesSlice.ts:358-374 | The length is unchanged. An unknown id leaves the list as it was. Otherwise the first matching position holds the merge of its record with the changes, and every other position is untouched. |
| KeyedList.UpdatedIds | features/transactions/transactionsSlice.ts:226-230 | An update leaves the list's ids, position by position, exactly as they were. |
| KeyedList.UpdateIgnoresChangedId | features/accounts/accountsSlice.ts:76-80 | An `id` carried in the changes has no effect on the updated list. |
| KeyedList.DistinctAfterUpdate | features/categories/categoriesSlice.ts:362-373 | Distinct ids before an update stay distinct after it. |
| KeyedList.FindAfterUpdate | features/transactions/transactionsSlice.ts:219-230 | After an update, the id looks up to the merge of its old record with the changes, or to none if it was absent. |
| KeyedList.Removed | features/categories/categoriesSlice.ts:375-377 | After a filter, no element has the id and the list is no longer. Every record with another id keeps its number of occurrences, and records with the id have none. |
| KeyedList.RemovedConcat | features/transactions/transactionsSlice.ts:232-234 | The filter distributes over concatenation, so the survivors keep their relative order. |
| KeyedList.RemovedSingle | features/accounts/accountsSlice.ts:83 | A one-element list survives exactly when its id differs from the removed one. |
| KeyedList.RemovedAbsent | features/categories/categoriesSlice.ts:376 | Removing an id that is not present leaves the list unchanged. |
| KeyedList.RemovedSubset | features/transactions/transactionsSlice.ts:233 | Every survivor of a removal was in the list. |
| KeyedList.DistinctCons | features/accounts/accountsSlice.ts:82-84 | A record whose id is absent from a list with distinct ids can be put in front and the ids stay distinct. This step is used for removal. |
| KeyedList.DistinctAfterRemove | features/categories/categoriesSlice.ts:375-377 | Distinct ids before a removal stay distinct after it. |
| KeyedList.FindAfterRemove | features/accounts/accountsSlice.ts:82-84 | After a removal the id looks up to none, and every other id looks up to what it did before. |
| Categories.SystemCategory | features/categories/categoriesSlice.ts:23-33 | A seed category has the given id and parent, `userId` `SYSTEM`, a `parentId` property that is `null` when there is no parent, and no `id` among its other properties. |
| Categories.SeedIdsDistinct | features/categories/categoriesSlice.ts:21-335 | The seed has 27 categories with pairwise distinct ids. |
| Categories.SeedRowParentsAreRoots | features/categories/categoriesSlice.ts:22-334 | In the seed table, every named parent is a row of its own with no parent. |
| Categories.SeedParentsAreRoots | features/categories/categoriesSlice.ts:6 | Every non-null `parentId` in the seed names a seed category whose own `parentId` property is present and `null`. |
| Categories.CategoriesStore.constructor | features/categories/categoriesSlice.ts:337-339 | The slice starts from the seed list. |
| Categories.CategoriesStore.SetCategories | features/categories/categoriesSlice.ts:341-343 | The list becomes the payload. |
| Categories.CategoriesStore.AddCategory | features/categories/categoriesSlice.ts:344-346 | The payload is appended as the new last element. Ids stay distinct exactly when it brings a new id. |
| Categories.CategoriesStore.UpsertCategory | features/categories/categoriesSlice.ts:347-357 | The list becomes the upsert of the old list. The record's id then looks up to the record, and distinct ids stay distinct. |
| Categories.CategoriesStore.UpdateCategory | features/categories/categoriesSlice.ts:358-374 | The list becomes the merging update of the old list. All ids stay as they were, and distinct ids stay distinct. |
| Categories.CategoriesStore.RemoveCategory | features/categories/categoriesSlice.ts:375-377 | The list becomes the filter of the old list. No element has the id, and distinct ids stay distinct. |
| Categories.CategoriesStore.ClearCategories | features/categories/categoriesSlice.ts:378-380 | The list becomes empty. |
| Categories.CategoriesStore.ResetCategories | features/categories/categoriesSlice.ts:381 | The list becomes exactly the seed: 27 categories with distinct ids. |
| Categories.CategoriesStore.SelectCategoryById | features/categories/categoriesSlice.ts:398-400 | None exactly when no category has the id. Otherwise it is the category at the first matching position. |
| Transactions.DemoExpense | features/transactions/transactionsSlice.ts:48-67 | A seeded entry has the given id and amount, names `cat_food` and `acc_default_cny`, and has no `id` among its other properties. |
| Transactions.SeedShape | features/transactions/transactionsSlice.ts:46-189 | The seed has 7 entries with pairwise distinct ids and positive amounts. |
| Transactions.SeedReferencesResolve | features/transactions/transactionsSlice.ts:54-56 | Every seeded entry's `categoryId` and `accountId` name a seed category and the seed account. |
| Transactions.TransactionsStore.constructor | features/transactions/transactionsSlice.ts:191-193 | The slice starts from the seed list. |
| Transactions.TransactionsStore.SetTransactions | features/transactions/transactionsSlice.ts:195-197 | The list becomes the payload. |
| Transactions.TransactionsStore.AddTransaction | features/transactions/transactionsSlice.ts:198-200 | The payload is appended as the new last element. Ids stay distinct exactly when it brings a new id. |
| Transactions.TransactionsStore.AddTransactions | features/transactions/transactionsSlice.ts:201-203 | The list becomes the old list followed by the payload in order, and its length grows by the payload's length. Ids stay distinct exactly when the payload's ids are distinct and all new. |
| Transactions.TransactionsStore.UpsertTransaction | features/transactions/transactionsSlice.ts:204-214 | The list becomes the upsert of the old list. The record's id then looks up to the record, and distinct ids stay distinct. |
| Transactions.TransactionsStore.UpdateTransaction | features/transactions/transactionsSlice.ts:215-231 | The list becomes the merging update of the old list. All ids stay as they were, and distinct ids stay distinct. |
| Transactions.TransactionsStore.RemoveTransaction | features/transactions/transactionsSlice.ts:232-234 | The list becomes the filter of the old list. No element has the id, and distinct ids stay distinct. |
| Transactions.TransactionsStore.ClearTransactions | features/transactions/transactionsSlice.ts:235 | The list becomes the seed, not empty: 7 entries with distinct ids. |
| Transactions.TransactionsStore.SelectTransactionById | features/transactions/transactionsSlice.ts:253-255 | None exactly when no entry has the id. Otherwise it is the entry at the first matching position. |
| Accounts.SeedShape | features/accounts/accountsSlice.ts:26-42 | The seed is the one default account `acc_default_cny`, with no `id` among its other properties. |
| Accounts.AccountsStore.constructor | features/accounts/accountsSlice.ts:44-46 | The slice starts from the seed list. |
| Accounts.AccountsStore.SetAccounts | features/accounts/accountsSlice.ts:48-50 | The list becomes the payload. |
| Accounts.AccountsStore.AddAccount | features/accounts/accountsSlice.ts:51-53 | The payload is appended as the new last element. Ids stay distinct exactly when it brings a new id. |
| Accounts.AccountsStore.UpsertAccount | features/accounts/accountsSlice.ts:54-64 | The list becomes the upsert of the old list. The record's id then looks up to the record, and distinct ids stay distinct. |
| Accounts.AccountsStore.UpdateAccount | features/accounts/accountsSlice.ts:65-81 | The list becomes the merging update of the old list. All ids stay as they were, and distinct ids stay distinct. |
| Accounts.AccountsStore.RemoveAccount | features/accounts/accountsSlice.ts:82-84 | The list becomes the filter of the old list. No element has the id, and distinct ids stay distinct. |
| Accounts.AccountsStore.ClearAccounts | features/accounts/accountsSlice.ts:85-87 | The list becomes empty. This slice has no reset to its seed. |
| Accounts.AccountsStore.SelectAccountById | features/accounts/accountsSlice.ts:103-105 | None exactly when no account has the id. Otherwise it is the account at the first matching position. |

## Left out

- The amount-entry calculator and the day-grouped sections with expense subtotals: no file of this source implements them (`screens/LedgerScreen.tsx` is static layout), so there is nothing to model.
- Screens, navigation and `App.tsx`: layout only. `screens/StatisticsScreen.tsx` just dispatches `clearTransactions` and `resetCategories`.
- `store/index.ts`: redux-persist/AsyncStorage wiring is asynchronous I/O through a foreign library. `store/rootReducer.ts` only combines the reducers.
- `createSlice`, the generated action creators and Immer's draft proxies. Each reducer is modelled as a direct update of the slice's `items` field.
- `selectCategories`, `selectTransactions`, `selectAccounts`: each only reads `items`.
- Aliasing: `set…` stores the payload array itself, and `resetCategories`/`clearTransactions` hand back the shared initial state object. Lists are values here, so later sharing of those arrays is not modelled.
- `toTimestamp`: its value depends on JavaScript `Date` parsing in the local time zone, so a seeded instant is kept as the unevaluated `LocalTime(date, time)`.
- Display names, icons and colours of the seed records are not modelled.
- Property types: the TypeScript compiler restricts which properties a `Partial<T>` may name and what they hold. Here a change may name any property with any `Value`, and numbers are unbounded integers, not IEEE doubles.
- `AddTransactions`: does not model the `RangeError` that `push(...payload)` can throw for a payload larger than the engine's argument limit.
