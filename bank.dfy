/** The in-memory ledger behind the five account and transaction routes of
    index.js.  Each handler is a method of `Ledger` that reads and updates
    the store's map and answers with one of the responses the routes send. */
module Bank {
  import opened JsValues
  import opened Accounts

  /** The responses the routes send: 201, 200, 204, 400, 404 and 409. */
  datatype Response<T> =
    | Created(body: T)
    | Ok(body: T)
    | NoContent
    | BadRequest(error: string)
    | NotFound(error: string)
    | Conflict(error: string)
  {
    function Status(): (code: int) {
      match this
      case Created(_) => 201
      case Ok(_) => 200
      case NoContent => 204
      case BadRequest(_) => 400
      case NotFound(_) => 404
      case Conflict(_) => 409
    }
  }

  const MissingParameters := "Missing parameters"
  const UserExists := "User already exists"
  const BalanceNotNumber := "Balance must be a number"
  const UserMissing := "User does not exist"
  const AmountNotNumber := "Amount must be a number"
  const TransactionExists := "Transaction already exists"
  const TransactionMissing := "Transaction does not exist"

  /** The description an account gets when none is supplied (index.js:113). */
  function DefaultDescription(user: string): (d: string) {
    user + "'s budget"
  }

  /** The id of a new transaction (index.js:181-184): the hex digest of
      date, the `object` field and the amount exactly as the request carried it,
      concatenated in that order. */
  function TransactionId(hash: string -> string, show: real -> string,
                         date: string, obj: string, amount: Value): (id: string)
  {
    hash(date + obj + Text(amount, show))
  }

  /** The id depends on nothing but the concatenated text of date, object
      and the original amount: two submissions whose texts concatenate to
      the same string get the same id, whatever the hash function. */
  lemma SameTextSameId(hash: string -> string, show: real -> string,
                       d1: string, o1: string, a1: Value,
                       d2: string, o2: string, a2: Value)
    requires d1 + o1 + Text(a1, show) == d2 + o2 + Text(a2, show)
    ensures TransactionId(hash, show, d1, o1, a1) == TransactionId(hash, show, d2, o2, a2)
  {
  }

  /** The three fields are concatenated with no separator, so two
      different submissions can share an id, and the second one is then
      refused as a duplicate of the first, whatever the hash function. */
  lemma SubmissionsShareId(hash: string -> string, show: real -> string)
    ensures TransactionId(hash, show, "2020-10-0", "1Book", Str("5"))
         == TransactionId(hash, show, "2020-10-01", "Book", Str("5"))
  {
    assert "2020-10-0" + "1Book" + "5" == "2020-10-01" + "Book" + "5";
    SameTextSameId(hash, show, "2020-10-0", "1Book", Str("5"), "2020-10-01", "Book", Str("5"));
  }

  class Ledger {
    /** The store (index.js:25): accounts by user name. */
    var accounts: map<string, Account>
    /** MD5 as a hex string (index.js:181-184). */
    const hash: string -> string
    /** parseFloat, None standing for NaN (index.js:103, 172). */
    const parse: string -> Option<real>
    /** Number-to-text conversion, as `+` applies it to a numeric amount. */
    const show: real -> string

    ghost predicate Valid()
      reads this
    {
      StoreValid(accounts)
    }

    /** The store with its seed accounts (index.js:25-49). */
    constructor (hash: string -> string, parse: string -> Option<real>, show: real -> string)
      ensures Valid() && accounts == Seed()
      ensures this.hash == hash && this.parse == parse && this.show == show
    {
      this.hash := hash;
      this.parse := parse;
      this.show := show;
      accounts := Seed();
    }

    /** POST /accounts (index.js:89-120).  The checks run in the handler's
        order: required fields, then an existing account, then the balance.
        Every rejection leaves the store as it was; a success adds exactly
        one key and keeps every other account. */
    method CreateAccount(user: string, currency: string, description: string, balance: Value)
      returns (r: Response<Account>)
      requires Valid()
      modifies this
      ensures Valid()
      ensures user == "" || currency == "" ==>
        r == BadRequest(MissingParameters) && accounts == old(accounts)
      ensures user != "" && currency != "" && user in old(accounts) ==>
        r == Conflict(UserExists) && accounts == old(accounts)
      ensures user != "" && currency != "" && user !in old(accounts) ==>
        match CoerceBalance(balance, parse)
        case None => r == BadRequest(BalanceNotNumber) && accounts == old(accounts)
        case Some(b) =>
          var a := Account(user, currency,
                           if description != "" then description else DefaultDescription(user),
                           b, []);
          r == Created(a) && accounts == old(accounts)[user := a]
      ensures r.Created? ==>
        accounts.Keys == old(accounts).Keys + {user} && user !in old(accounts) &&
        forall u :: u in old(accounts) ==> accounts[u] == old(accounts)[u]
    {
      if user == "" || currency == "" {
        return BadRequest(MissingParameters);
      }
      if user in accounts {
        return Conflict(UserExists);
      }
      var b := CoerceBalance(balance, parse);
      if b.None? {
        return BadRequest(BalanceNotNumber);
      }
      var account := Account(user, currency,
                             if description != "" then description else DefaultDescription(user),
                             b.value, []);
      accounts := accounts[user := account];
      r := Created(account);
    }

    /** GET /accounts/:user (index.js:125-134); the store is not touched. */
    method GetAccount(user: string) returns (r: Response<Account>)
      ensures user in accounts ==> r == Ok(accounts[user])
      ensures user !in accounts ==> r == NotFound(UserMissing)
    {
      if user !in accounts {
        return NotFound(UserMissing);
      }
      r := Ok(accounts[user]);
    }

    /** DELETE /accounts/:user (index.js:139-151): removes that one key and
        the account's transactions with it.  The user is gone afterwards,
        so a second delete answers 404. */
    method DeleteAccount(user: string) returns (r: Response<()>)
      requires Valid()
      modifies this
      ensures Valid()
      ensures user in old(accounts) ==> r == NoContent && accounts == old(accounts) - {user}
      ensures user !in old(accounts) ==> r == NotFound(UserMissing) && accounts == old(accounts)
      ensures user !in accounts
    {
      if user !in accounts {
        return NotFound(UserMissing);
      }
      accounts := accounts - {user};
      r := NoContent;
    }

    /** POST /accounts/:user/transactions (index.js:156-204).  The account is
        looked up before any field is checked; then the fields, the amount,
        and the id, whose duplicate is refused.  A success appends exactly
        one transaction at the end and raises the balance by its amount,
        so the account's drift (balance minus the sum of its amounts) is
        kept.  Text that does not parse as a number is refused here (see
        AmountAsWritten for the code as written, which lets it through). */
    method AddTransaction(user: string, date: string, obj: string, amount: Value)
      returns (r: Response<Transaction>)
      requires Valid()
      modifies this
      ensures Valid()
      ensures user !in old(accounts) ==>
        r == NotFound(UserMissing) && accounts == old(accounts)
      ensures user in old(accounts) && (date == "" || obj == "" || !Truthy(amount)) ==>
        r == BadRequest(MissingParameters) && accounts == old(accounts)
      ensures user in old(accounts) && date != "" && obj != "" && Truthy(amount) ==>
        var acct := old(accounts)[user];
        var id := TransactionId(hash, show, date, obj, amount);
        match CoerceAmount(amount, parse)
        case None => r == BadRequest(AmountNotNumber) && accounts == old(accounts)
        case Some(x) =>
          if HasId(acct.transactions, id) then
            r == Conflict(TransactionExists) && accounts == old(accounts)
          else
            var t := Transaction(id, date, obj, x);
            r == Created(t) &&
            accounts == old(accounts)[user := acct.(balance := acct.balance + x,
                                                    transactions := acct.transactions + [t])]
      ensures r.Created? ==>
        user in old(accounts) && user in accounts &&
        Drift(accounts[user]) == Drift(old(accounts)[user])
    {
      if user !in accounts {
        return NotFound(UserMissing);
      }
      if date == "" || obj == "" || !Truthy(amount) {
        return BadRequest(MissingParameters);
      }
      var coerced := CoerceAmount(amount, parse);
      if coerced.None? {
        return BadRequest(AmountNotNumber);
      }
      var id := TransactionId(hash, show, date, obj, amount);
      var account := accounts[user];
      if HasId(account.transactions, id) {
        return Conflict(TransactionExists);
      }
      var t := Transaction(id, date, obj, coerced.value);
      DistinctAppend(account.transactions, t);
      SumAppend(account.transactions, t);
      // push, then the balance update
      account := account.(transactions := account.transactions + [t]);
      account := account.(balance := account.balance + t.amount);
      accounts := accounts[user := account];
      r := Created(t);
    }

    /** DELETE /accounts/:user/transactions/:id (index.js:209-230): takes
        out the first transaction with that id and keeps the order of the
        others.  The balance is left as it was, so the account's drift
        grows by the removed amount. */
    method RemoveTransaction(user: string, id: string) returns (r: Response<()>)
      requires Valid()
      modifies this
      ensures Valid()
      ensures user !in old(accounts) ==>
        r == NotFound(UserMissing) && accounts == old(accounts)
      ensures user in old(accounts) && !HasId(old(accounts)[user].transactions, id) ==>
        r == NotFound(TransactionMissing) && accounts == old(accounts)
      ensures user in old(accounts) && HasId(old(accounts)[user].transactions, id) ==>
        var acct := old(accounts)[user];
        var i := FindIndex(acct.transactions, id);
        r == NoContent &&
        accounts == old(accounts)[user := acct.(transactions := RemoveAt(acct.transactions, i))] &&
        Drift(accounts[user]) == Drift(acct) + acct.transactions[i].amount
      ensures r == NoContent ==> user in accounts && !HasId(accounts[user].transactions, id)
    {
      if user !in accounts {
        return NotFound(UserMissing);
      }
      var account := accounts[user];
      var i := FindIndex(account.transactions, id);
      if i == -1 {
        return NotFound(TransactionMissing);
      }
      DistinctRemoveAt(account.transactions, i);
      RemovedIdGone(account.transactions, i);
      SumRemoveAt(account.transactions, i);
      account := account.(transactions := RemoveAt(account.transactions, i));
      accounts := accounts[user := account];
      r := NoContent;
    }
  }

  /** The resubmission scenario: a new account "alice" starts at 0 with no
      transactions, one coffee takes it to -3, and the identical second
      submission is refused as a duplicate without touching the balance.
      Deleting the account twice answers 204, then 404. */
  method ResubmissionScenario(hash: string -> string, parse: string -> Option<real>, show: real -> string)
  {
    var ledger := new Ledger(hash, parse, show);
    var created := ledger.CreateAccount("alice", "$", "", Undefined);
    assert created.Status() == 201;
    assert ledger.accounts["alice"].balance == 0.0 && ledger.accounts["alice"].transactions == [];
    assert ledger.accounts["alice"].description == "alice's budget";

    ghost var id := TransactionId(hash, show, "2023-01-01", "Coffee", Num(-3.0));
    var first := ledger.AddTransaction("alice", "2023-01-01", "Coffee", Num(-3.0));
    assert first.Status() == 201;
    assert ledger.accounts["alice"].balance == -3.0 && |ledger.accounts["alice"].transactions| == 1;

    assert ledger.accounts["alice"].transactions == [Transaction(id, "2023-01-01", "Coffee", -3.0)];
    assert HasId(ledger.accounts["alice"].transactions, id);
    var again := ledger.AddTransaction("alice", "2023-01-01", "Coffee", Num(-3.0));
    assert again.Status() == 409;
    assert ledger.accounts["alice"].balance == -3.0;

    var gone := ledger.DeleteAccount("alice");
    assert gone.Status() == 204;
    var twice := ledger.DeleteAccount("alice");
    assert twice.Status() == 404;
    var lookup := ledger.GetAccount("alice");
    assert lookup.Status() == 404;
  }

  /** Removing the seed transaction "1" of account "test" answers 204; the
      same removal again answers 404. */
  method RemoveTwiceScenario(hash: string -> string, parse: string -> Option<real>, show: real -> string)
  {
    var ledger := new Ledger(hash, parse, show);
    assert ledger.accounts["test"].transactions[0].id == "1";
    var removed := ledger.RemoveTransaction("test", "1");
    assert removed.Status() == 204;
    var removedAgain := ledger.RemoveTransaction("test", "1");
    assert removedAgain.Status() == 404;
  }
}
