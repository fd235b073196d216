# Bank ledger model

A Dafny model of the in-memory ledger behind the bank API in `index.js`.
The store maps a user name to an account. Each account has a user, a
currency, a description, a balance and an ordered list of transactions.
Each transaction has an id, a date, an object (a free-text label) and an
amount. The five route handlers are modelled as methods of one class, with
the HTTP transport stripped off:

- create an account;
- get an account;
- delete an account;
- add a transaction;
- remove a transaction.

Each method answers with the response the route sends (201, 200, 204, 400,
404 or 409, with the route's error text). It updates the store's map as
the handler does, apart from the cases listed under "Left out". The main
one is that adding a transaction uses the corrected amount check
described under Findings.

Files and modules:

- `jsvalues.dfy`, module `JsValues`: request-body values, JavaScript
  truthiness, and the numeric coercion of `balance` and `amount`. This
  module also holds the as-written and corrected versions of the amount
  check (see Findings).
- `accounts.dfy`, module `Accounts`: the `Transaction` and `Account`
  datatypes and the seed data. It models the two searches the handlers
  run, `some` as `HasId` and `findIndex` as `FindIndex`, and `splice` as
  `RemoveAt`. It defines the sum of amounts and the store invariant, and
  holds the lemmas about them.
- `bank.dfy`, module `Bank`: the `Ledger` class, whose `accounts` field is
  the mutable store. Its constructor installs the seed, and there is one
  method per handler. The module also holds the transaction-id scheme and
  `ResubmissionScenario`, a client of the methods. That client shows from
  the contracts alone four things:
  - a new account starts at 0;
  - resubmitting an identical transaction is refused with 409 and leaves
    the balance alone;
  - a second delete answers 404;
  - a get after the delete answers 404.

  A second client, `RemoveTwiceScenario`, removes a seed transaction: the
  first removal answers 204 and the second answers 404.

Modelling choices:

- The string fields of a request are plain strings, with `""` standing for
  both a missing field and an empty one. These fields are user, currency,
  description, date and object. Every handler tests them for truthiness
  first, so a missing field and an empty one behave alike.
- `balance` and `amount` can arrive as a number or as text, and the code
  treats the two differently, so both are a `Value` (`Undefined`, `Str` or
  `Num`). A JSON number cannot be NaN, so `Num` holds a real.
- Truthiness follows JavaScript. A numeric `0` amount is falsy, so it is
  rejected as "Missing parameters". The text `"0"` is truthy and is
  accepted with amount 0.
- Amounts and balances are reals. MD5, `parseFloat` and number-to-text
  conversion are opaque functions given to the `Ledger` constructor as
  `hash`, `parse` and `show`. `parse` returns `None` where `parseFloat`
  gives NaN. Nothing is assumed about `hash`, not even injectivity.
- The store invariant, `Ledger.Valid()`, says two things: every account is
  filed under its own user name, and its transaction ids are pairwise
  distinct. The seed satisfies it. Every method keeps it: add refuses a
  duplicate id, and remove only deletes.
- An account's drift is its balance minus the sum of its transaction
  amounts. Add keeps the drift. Remove leaves the balance unchanged, as
  the code does, so remove raises the drift by the removed amount.
- Two behaviours that one might expect otherwise follow the code:
  - a numeric 0 amount counts as missing (index.js:165), so it is
    rejected with 400;
  - remove leaves the balance unchanged (index.js:226-229).
- Where the model departs from the code, "Left out" says so. The largest
  departure is the amount check of index.js:176.
  `Bank.Ledger.AddTransaction` uses the corrected check
  `JsValues.CoerceAmount`, not the code's. The code as written is
  `JsValues.AmountAsWritten` (see Findings). The other departures are
  prototype keys such as `constructor` and non-string JSON values.
- The id is the hash of `date + object + amount text`, with no separator.
  So two different submissions can get the same id, and the second is
  refused as a duplicate (`SubmissionsShareId`). The source uses this id
  to refuse a resubmitted transaction (the comment at index.js:186 and the
  409 at line 188), so the model keeps the scheme as it is.

## Model

| member | source | states |
|---|---|---|
| `Accounts.Seed` | index.js:25-49 | The seed store holds exactly the accounts `test` and `jondoe`. Each is filed under its own user name and holds three transactions with pairwise distinct ids. |
| `Bank.Ledger.constructor` | index.js:25-49 | The store starts as the seed data, which satisfies the store invariant. |
| `JsValues.Truthy` | index.js:102 | A `Value` is falsy exactly when it is `undefined`, the empty string or the number 0. This test decides the balance at lines 102 and 114 and the amount at lines 165 and 171. The string fields (user and currency at line 91, date and object at line 165) are tested as `== ""` in the methods. The truthiness of the coerced amount at line 176 is decided inside `JsValues.AmountAsWritten`, which works on a number that may be NaN. |
| `JsValues.CoerceBalance` | index.js:100-107 | The balance is rejected exactly when it is truthy text that does not parse. A falsy balance gives 0, a number is kept, and parsed text gives the parsed value. |
| `Bank.Ledger.CreateAccount` | index.js:89-120 | Behaviour by case: (1) an empty user or currency gives 400 before the duplicate check; (2) an existing user gives 409; (3) an unparsable balance gives 400. All three leave the store unchanged. Otherwise the result is 201 and the new account has the coerced balance, no transactions and the description `<user>'s budget` when none is given. Exactly one key is added and every other account is unchanged. |
| `Bank.Ledger.GetAccount` | index.js:125-134 | Returns 200 with the stored account, or 404 when the user is absent. The method has no modifies clause, so the store is untouched. |
| `Bank.Ledger.DeleteAccount` | index.js:139-151 | Returns 404 with no change for a missing user. Otherwise returns 204 and removes only that key. The user is absent afterwards, so a second delete gives 404. |
| `JsValues.AmountAsWritten` | index.js:169-178 | The code as written never rejects a truthy amount. The result is NaN exactly when the amount is text that does not parse. |
| `JsValues.UnparsableAmountAccepted` | index.js:176-178 | The amount text `"abc"`, which does not parse, passes the check as written with the value NaN. |
| `JsValues.CoerceAmount` | index.js:169-178 | The corrected amount check rejects exactly where the code as written produces NaN. Everywhere else it gives the same finite value. |
| `Bank.Ledger.AddTransaction` | index.js:156-204 | Behaviour by case: (1) a missing account gives 404 before any field is checked; (2) an empty date or object, or a falsy amount (numeric 0 included), gives 400; (3) an unparsable amount gives 400, by the corrected check of the Findings table; (4) an id already on the account gives 409. All four leave the store unchanged. Otherwise the result is 201 and exactly one transaction is appended at the end, so earlier ones are untouched. Its id is `hash(date + object + original amount text)`. The balance rises by the coerced amount, the drift is kept and the ids stay distinct. |
| `Accounts.SumAppend` | index.js:198-201 | Appending a transaction adds exactly its amount to the sum of amounts, which matches the balance increment. |
| `Accounts.DistinctAppend` | index.js:186-198 | Appending a transaction whose id is not yet present keeps the ids pairwise distinct. |
| `Accounts.HasId` | index.js:187 | The scan holds exactly when some position of the transaction list carries the id. |
| `Bank.SameTextSameId` | index.js:181-184 | For every hash function, the transaction id (`Bank.TransactionId`) of two submissions whose date, object and amount text concatenate to the same string is the same. So the id depends on nothing else, in particular not on the coerced amount. |
| `Bank.SubmissionsShareId` | index.js:181-184 | Some two submissions with different dates and objects get the same id for every hash function, because the fields are joined without a separator. The lemma exhibits one such pair. |
| `Accounts.FindIndex` | index.js:217-224 | Returns -1 exactly when no transaction has the id. Otherwise it returns the first position holding the id. |
| `Accounts.RemoveAt` | index.js:227 | The list loses exactly the element at the given position, and the other elements keep their order. |
| `Accounts.SumRemoveAt` | index.js:227 | Removing the transaction at a position takes exactly its amount out of the sum. |
| `Accounts.DistinctRemoveAt` | index.js:227 | Removing a transaction keeps the ids pairwise distinct. |
| `Accounts.RemovedIdGone` | index.js:217-227 | With distinct ids, removing the transaction at a position leaves no transaction with its id behind. |
| `Bank.Ledger.RemoveTransaction` | index.js:209-230 | Returns 404 with no change when the account or the id is missing. Otherwise returns 204 and removes exactly the first transaction with that id, keeping the others in order. The balance is unchanged, so the drift rises by the removed amount. The ids stay distinct, and after a 204 no transaction with that id remains, so a second removal answers 404. |

## Left out

- Express setup, routing, the `/api` prefix, the `/`, `/mymessage` and `/api` text routes, CORS and body parsing (index.js:52-85, 235): these are transport, not ledger logic.
- Logging through winston and the console, and `app.listen` (index.js:17-22, 70-75, 238-246): these are I/O.
- The MD5 algorithm, `parseFloat` and number-to-string conversion: these are foreign calls, so the model takes them as parameters of the `Ledger` constructor.
- IEEE floating point: amounts and balances are exact reals. So rounding, infinities, NaN and `-0` are not modelled.
- Bank.Ledger.AddTransaction: uses the corrected amount check. So it does not model the code as written for an amount text that does not parse. There the handler pushes a transaction with amount NaN (index.js:192-198), turns the balance into NaN (line 201) and answers 201. The same request sent again then answers 409, because its id is already present. The model answers 400 "Amount must be a number" and leaves the store unchanged.
- Non-string JSON values (numbers, booleans, `null`, arrays, objects) in the user, currency, description, date or object fields are not modelled. JavaScript would turn them into object keys or concatenate them as text.
- JsValues.CoerceBalance and JsValues.CoerceAmount: `balance` and `amount` are modelled only as absent, text or a number. JSON `true`, `false`, `null`, arrays and objects sent there are not modelled. Most of them act like absent or like their text, but not all: an empty array `[]` is truthy, and `parseFloat` gives NaN for it, so the source refuses it as a balance with 400 (index.js:102-105). No modelled value behaves that way.
- Bank.Ledger.CreateAccount: the store is a plain map. So a user name such as `constructor`, which the source's JavaScript object finds through its prototype and answers with 409, is accepted here as a new user.
- Bank.Ledger.GetAccount, Bank.Ledger.DeleteAccount, Bank.Ledger.AddTransaction and Bank.Ledger.RemoveTransaction: the same plain-map choice applies. For a prototype key such as `constructor`, `db[user]` is truthy in the source (index.js:129, 143, 160, 213). So the source answers GET with 200 and DELETE with 204. On the transaction routes `account.transactions` is `undefined`. So `.some` (index.js:187, reached once the fields pass line 165) and `.findIndex` (index.js:217) throw a TypeError, and Express answers 500. The model answers 404 in all four cases.
- Aliasing: `res.json(account)` serialises the account, so no caller keeps a reference into the store; the model returns account values.

## Findings

| source | as written | input that shows it | evidently intended | confidence | as-written member | corrected member |
|---|---|---|---|---|---|---|
| index.js:176 | `if (amount && isNaN(amount))` can never hold, because NaN is falsy. So an amount that does not parse passes the check with the value NaN (what the handler then does with it is listed under Left out). | amount `"abc"` on an existing account with a date and an object | answer 400 "Amount must be a number" whenever the coerced amount is NaN | high; not executed | `JsValues.AmountAsWritten` (with `JsValues.UnparsableAmountAccepted`) | `JsValues.CoerceAmount`, used by `Bank.Ledger.AddTransaction` |
