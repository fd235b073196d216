/** The ledger's data: accounts, their transactions, the searches the
    handlers run over a transaction list, and the seed data the store
    starts with (index.js:25-49). */
module Accounts {

  /** A transaction; `obj` holds the `object` field (a reserved word here). */
  datatype Transaction = Transaction(id: string, date: string, obj: string, amount: real)

  datatype Account = Account(
    user: string,
    currency: string,
    description: string,
    balance: real,
    transactions: seq<Transaction>)

  /** The sum of the amounts of a transaction list. */
  function Sum(ts: seq<Transaction>): (total: real) {
    if ts == [] then 0.0 else ts[0].amount + Sum(ts[1..])
  }

  /** The part of an account's balance that its transactions do not
      explain: the opening balance, as long as no transaction was removed. */
  function Drift(a: Account): (drift: real) {
    a.balance - Sum(a.transactions)
  }

  /** `transactions.some(t => t.id === id)` (index.js:187): a scan from
      the front that stops at the first match.  It holds exactly when some
      position of the list carries that id. */
  predicate HasId(ts: seq<Transaction>, id: string)
    ensures HasId(ts, id) <==> exists i :: 0 <= i < |ts| && ts[i].id == id
  {
    ts != [] && (ts[0].id == id || HasId(ts[1..], id))
  }

  /** `transactions.findIndex(t => t.id === id)` (index.js:217-219): the
      first position holding that id, or -1 when there is none. */
  function FindIndex(ts: seq<Transaction>, id: string): (i: int)
    ensures -1 <= i < |ts|
    ensures i == -1 <==> !HasId(ts, id)
    ensures 0 <= i ==> ts[i].id == id && forall j :: 0 <= j < i ==> ts[j].id != id
  {
    if ts == [] then -1
    else if ts[0].id == id then 0
    else
      var k := FindIndex(ts[1..], id);
      assert forall j :: 1 <= j < |ts| ==> ts[j] == ts[1..][j - 1];
      if k == -1 then -1 else k + 1
  }

  /** `transactions.splice(i, 1)` (index.js:227): the list without its
      element at i, the others kept in order. */
  function RemoveAt(ts: seq<Transaction>, i: nat): (r: seq<Transaction>)
    requires i < |ts|
    ensures |r| == |ts| - 1
    ensures forall j :: 0 <= j < i ==> r[j] == ts[j]
    ensures forall j :: i <= j < |r| ==> r[j] == ts[j + 1]
  {
    ts[..i] + ts[i + 1..]
  }

  /** No two transactions of a list share an id. */
  predicate DistinctIds(ts: seq<Transaction>) {
    forall i, j :: 0 <= i < j < |ts| ==> ts[i].id != ts[j].id
  }

  /** What the store keeps true of every account: it is filed under its
      own user name, and its transaction ids are pairwise distinct. */
  predicate StoreValid(db: map<string, Account>) {
    forall u :: u in db ==> db[u].user == u && DistinctIds(db[u].transactions)
  }

  /** The accounts the store holds at start-up (index.js:25-49). */
  function Seed(): (db: map<string, Account>)
    ensures StoreValid(db)
    ensures db.Keys == {"test", "jondoe"}
    ensures forall u :: u in db ==> |db[u].transactions| == 3
  {
    map[
      "test" := Account("test", "$", "Test account", 75.0, [
        Transaction("1", "2020-10-01", "Pocket money", 50.0),
        Transaction("2", "2020-10-03", "Book", -10.0),
        Transaction("3", "2020-10-04", "Sandwich", -5.0)]),
      "jondoe" := Account("jondoe", "$", "Second test account", 150.0, [
        Transaction("1", "2022-10-01", "Gum", -2.0),
        Transaction("2", "2022-10-03", "Book", -10.0),
        Transaction("3", "2022-10-04", "Restaurant", -45.0)])]
  }

  /** Appending a transaction adds its amount to the sum. */
  lemma {:induction false} SumAppend(ts: seq<Transaction>, t: Transaction)
    ensures Sum(ts + [t]) == Sum(ts) + t.amount
  {
    if ts == [] {
      assert ts + [t] == [t];
    } else {
      assert (ts + [t])[1..] == ts[1..] + [t];
      SumAppend(ts[1..], t);
    }
  }

  /** Removing the transaction at i takes its amount out of the sum. */
  lemma {:induction false} SumRemoveAt(ts: seq<Transaction>, i: nat)
    requires i < |ts|
    ensures Sum(RemoveAt(ts, i)) == Sum(ts) - ts[i].amount
  {
    if i == 0 {
      assert RemoveAt(ts, 0) == ts[1..];
    } else {
      var r := RemoveAt(ts, i);
      assert r[0] == ts[0];
      assert r[1..] == RemoveAt(ts[1..], i - 1);
      SumRemoveAt(ts[1..], i - 1);
    }
  }

  /** A transaction whose id is new keeps the ids distinct. */
  lemma DistinctAppend(ts: seq<Transaction>, t: Transaction)
    requires DistinctIds(ts) && !HasId(ts, t.id)
    ensures DistinctIds(ts + [t])
  {
  }

  /** With distinct ids, removing the transaction at i leaves no
      transaction with its id behind. */
  lemma RemovedIdGone(ts: seq<Transaction>, i: nat)
    requires DistinctIds(ts) && i < |ts|
    ensures !HasId(RemoveAt(ts, i), ts[i].id)
  {
  }

  /** Removing a transaction keeps the ids distinct. */
  lemma DistinctRemoveAt(ts: seq<Transaction>, i: nat)
    requires DistinctIds(ts) && i < |ts|
    ensures DistinctIds(RemoveAt(ts, i))
  {
  }
}
