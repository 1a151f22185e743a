/**
  The REST API server (backend/server.js): the `users`, `transactions` and
  `stocks` collections and the route handlers over them. Each handler is one
  atomic step: the routes that write are methods of `Store`, the routes that
  only read are functions of the collections they read.
 */
module Server {
  import opened Wrappers
  import opened StockBars

  /** A stored password: bcrypt's output, idealised as the secret and the salt it was hashed with. */
  datatype Hash = Hash(secret: string, salt: nat)

  /** A document of the `users` collection, keyed by email; balance in cents. */
  datatype User = User(name: string, password: Hash, balance: int)

  /** A document of the `transactions` collection (it has no BUY/SELL type field; its default `date` is not modelled). */
  datatype Transaction = Transaction(userEmail: string, symbol: string, price: int, quantity: int)

  /** A JSON request field: a number, or anything for which `typeof` is not 'number'. */
  datatype Input = Num(value: int) | NotNum

  /** The `{ name, balance }` view of a user that some routes answer with. */
  datatype ProfileInfo = ProfileInfo(name: string, balance: int)

  /** A route's answer: a payload with status 200/201, or an error status and message. */
  datatype Reply<+T> = Ok(value: T) | Error(status: int, message: string)

  const InvalidCredentials := "Invalid email or password."
  const UserNotFound := "User not found"
  const RegisterFailed := "Error registering user"
  const WrongCurrentPassword := "Current password is incorrect"
  const InvalidAmount := "Invalid amount. Please enter a positive number."
  const InsufficientBalance := "Insufficient balance to complete the purchase."
  const StockNotFound := "Stock not found"
  const TransactionFailed := "Error processing transaction"

  /** bcrypt.compare: does the plain password match the stored hash? */
  predicate Compare(password: string, hash: Hash)
  {
    hash.secret == password
  }

  /** The login check: the email the session token is signed for, or one generic error. */
  function CheckLogin(users: map<string, User>, email: string, password: string): (r: Reply<string>)
    ensures r.Ok? <==> email in users && Compare(password, users[email].password)
    ensures r.Ok? ==> r.value == email
    ensures r.Error? ==> r == Error(400, InvalidCredentials)
  {
    if email !in users then Error(400, InvalidCredentials)
    else if !Compare(password, users[email].password) then Error(400, InvalidCredentials)
    else Ok(email)
  }

  /** The caller cannot tell an unknown email from a wrong password. */
  lemma LoginFailuresIndistinguishable(users: map<string, User>, unknown: string, p1: string, known: string, p2: string)
    requires unknown !in users
    requires known in users && !Compare(p2, users[known].password)
    ensures CheckLogin(users, unknown, p1) == CheckLogin(users, known, p2)
  {
  }

  /** GET /api/users/:email */
  function GetUser(users: map<string, User>, email: string): (r: Reply<ProfileInfo>)
    ensures r.Ok? <==> email in users
    ensures r.Ok? ==> r.value.name == users[email].name && r.value.balance == users[email].balance
    ensures r.Error? ==> r == Error(404, UserNotFound)
  {
    if email in users then Ok(ProfileInfo(users[email].name, users[email].balance))
    else Error(404, UserNotFound)
  }

  /** GET /api/users/:email/balance */
  function GetBalance(users: map<string, User>, email: string): (r: Reply<int>)
    ensures r.Ok? <==> email in users
    ensures r.Ok? ==> r.value == users[email].balance
    ensures r.Error? ==> r == Error(404, UserNotFound)
  {
    if email in users then Ok(users[email].balance) else Error(404, UserNotFound)
  }

  /** The filter of GET /api/stocks: `{ symbol, date: { $gte: startDate } }`. */
  predicate InRange(b: StockBar, symbol: string, startDate: string)
  {
    b.symbol == symbol && DateLe(startDate, b.date)
  }

  /** The stored bars that match the filter, in stored order. */
  function FilterRange(stocks: seq<StockBar>, symbol: string, startDate: string): seq<StockBar>
  {
    if stocks == [] then []
    else (if InRange(stocks[0], symbol, startDate) then [stocks[0]] else [])
         + FilterRange(stocks[1..], symbol, startDate)
  }

  /** GET /api/stocks with the start date already derived from the range selector. */
  function StocksInRange(stocks: seq<StockBar>, symbol: string, startDate: string): seq<StockBar>
  {
    SortByDate(FilterRange(stocks, symbol, startDate))
  }

  lemma {:induction false} FilterRangeExact(stocks: seq<StockBar>, symbol: string, startDate: string)
    ensures forall b :: multiset(FilterRange(stocks, symbol, startDate))[b] ==
                        if InRange(b, symbol, startDate) then multiset(stocks)[b] else 0
  {
    if stocks != [] {
      FilterRangeExact(stocks[1..], symbol, startDate);
      assert stocks == [stocks[0]] + stocks[1..];
    }
  }

  /** The range query returns exactly the matching bars (with multiplicity), ascending by date. */
  lemma StocksInRangeCorrect(stocks: seq<StockBar>, symbol: string, startDate: string)
    ensures SortedByDate(StocksInRange(stocks, symbol, startDate))
    ensures forall b :: multiset(StocksInRange(stocks, symbol, startDate))[b] ==
                        if InRange(b, symbol, startDate) then multiset(stocks)[b] else 0
    ensures forall b :: b in StocksInRange(stocks, symbol, startDate) <==>
                        b in stocks && InRange(b, symbol, startDate)
  {
    var f := FilterRange(stocks, symbol, startDate);
    SortByDateCorrect(f);
    FilterRangeExact(stocks, symbol, startDate);
    forall b
      ensures b in StocksInRange(stocks, symbol, startDate) <==> b in stocks && InRange(b, symbol, startDate)
    {
      assert b in StocksInRange(stocks, symbol, startDate) <==> b in multiset(StocksInRange(stocks, symbol, startDate));
      assert b in stocks <==> b in multiset(stocks);
    }
  }

  /**
    GET /api/stock/:symbol: `findOne({ symbol })` with no sort, i.e. some bar of the
    symbol (here the first in stored order), not necessarily the latest one.
   */
  function StockBySymbol(stocks: seq<StockBar>, symbol: string): (r: Reply<StockBar>)
    ensures r.Ok? <==> exists i :: 0 <= i < |stocks| && stocks[i].symbol == symbol
    ensures r.Ok? ==> r.value in stocks && r.value.symbol == symbol
    ensures r.Error? ==> r == Error(404, StockNotFound)
  {
    if stocks == [] then Error(404, StockNotFound)
    else if stocks[0].symbol == symbol then Ok(stocks[0])
    else
      var r := StockBySymbol(stocks[1..], symbol);
      assert forall i :: 0 < i < |stocks| ==> stocks[i] == stocks[1..][i - 1];
      r
  }

  /** No user has a negative balance. */
  ghost predicate NonNegativeBalances(users: map<string, User>)
  {
    forall e :: e in users ==> users[e].balance >= 0
  }

  /** The database behind the API server. */
  class Store {
    var users: map<string, User>
    var transactions: seq<Transaction>
    var stocks: seq<StockBar>

    /** Every transaction belongs to a registered user; bar keys are unique. */
    ghost predicate Valid()
      reads this
    {
      && (forall t :: t in transactions ==> t.userEmail in users)
      && UniqueKeys(stocks)
    }

    constructor ()
      ensures Valid()
      ensures users == map[] && transactions == [] && stocks == []
    {
      users, transactions, stocks := map[], [], [];
    }

    /** POST /api/register: the unique index on email rejects a second account. */
    method Register(name: string, email: string, password: string, salt: nat) returns (r: Reply<()>)
      requires Valid()
      modifies this
      ensures Valid()
      ensures email in old(users) ==> r == Error(400, RegisterFailed) && users == old(users)
      ensures email !in old(users) ==> r == Ok(()) && users == old(users)[email := User(name, Hash(password, salt), 0)]
      ensures NonNegativeBalances(old(users)) ==> NonNegativeBalances(users)
      ensures transactions == old(transactions) && stocks == old(stocks)
    {
      if email in users {
        return Error(400, RegisterFailed);
      }
      users := users[email := User(name, Hash(password, salt), 0)];
      r := Ok(());
    }

    /** PATCH /api/users/update: `if (name)` and `typeof balance === 'number'` guard each field. */
    method UpdateUser(email: string, name: Option<string>, balance: Input) returns (r: Reply<ProfileInfo>)
      requires Valid()
      modifies this
      ensures Valid()
      ensures email !in old(users) ==> r == Error(404, UserNotFound) && users == old(users)
      ensures email in old(users) ==>
        var u := old(users)[email];
        var u' := User(if name.Some? && name.value != "" then name.value else u.name,
                       u.password,
                       if balance.Num? then balance.value else u.balance);
        users == old(users)[email := u'] && r == Ok(ProfileInfo(u'.name, u'.balance))
      ensures transactions == old(transactions) && stocks == old(stocks)
    {
      if email !in users {
        return Error(404, UserNotFound);
      }
      var user := users[email];
      if name.Some? && name.value != "" {
        user := user.(name := name.value);
      }
      if balance.Num? {
        user := user.(balance := balance.value);
      }
      users := users[email := user];
      r := Ok(ProfileInfo(user.name, user.balance));
    }

    /** POST /api/users/change-password: verify the current password, then store the new hash. */
    method ChangePassword(email: string, currentPassword: string, newPassword: string, salt: nat)
      returns (r: Reply<()>)
      requires Valid()
      modifies this
      ensures Valid()
      ensures email !in old(users) ==> r == Error(404, UserNotFound) && users == old(users)
      ensures email in old(users) && !Compare(currentPassword, old(users)[email].password) ==>
        r == Error(400, WrongCurrentPassword) && users == old(users)
      ensures email in old(users) && Compare(currentPassword, old(users)[email].password) ==>
        r == Ok(()) && users == old(users)[email := old(users)[email].(password := Hash(newPassword, salt))]
      ensures NonNegativeBalances(old(users)) ==> NonNegativeBalances(users)
      ensures transactions == old(transactions) && stocks == old(stocks)
    {
      if email !in users {
        return Error(404, UserNotFound);
      }
      var user := users[email];
      if !Compare(currentPassword, user.password) {
        return Error(400, WrongCurrentPassword);
      }
      users := users[email := user.(password := Hash(newPassword, salt))];
      r := Ok(());
    }

    /** POST /api/users/update-balance: the amount is checked before the user is looked up. */
    method UpdateBalance(email: string, amount: Input) returns (r: Reply<int>)
      requires Valid()
      modifies this
      ensures Valid()
      ensures (amount.NotNum? || amount.value <= 0) ==>
        r == Error(400, InvalidAmount) && users == old(users)
      ensures amount.Num? && amount.value > 0 && email !in old(users) ==>
        r == Error(404, UserNotFound) && users == old(users)
      ensures amount.Num? && amount.value > 0 && email in old(users) ==>
        var b := old(users)[email].balance + amount.value;
        r == Ok(b) && users == old(users)[email := old(users)[email].(balance := b)]
      ensures NonNegativeBalances(old(users)) ==> NonNegativeBalances(users)
      ensures transactions == old(transactions) && stocks == old(stocks)
    {
      if amount.NotNum? || amount.value <= 0 {
        return Error(400, InvalidAmount);
      }
      if email !in users {
        return Error(404, UserNotFound);
      }
      var user := users[email];
      user := user.(balance := user.balance + amount.value);
      users := users[email := user];
      r := Ok(user.balance);
    }

    /**
      POST /api/transactions/buy: funds check, debit, then one appended transaction.
      The schema marks `userEmail` and `symbol` as required, and a required
      string may not be empty: for an empty one the debit is saved, the
      transaction's save is rejected, and the reply is a 500.
     */
    method Buy(userEmail: string, symbol: string, price: int, quantity: int) returns (r: Reply<int>)
      requires Valid()
      modifies this
      ensures Valid()
      ensures userEmail !in old(users) ==>
        r == Error(404, UserNotFound) && users == old(users) && transactions == old(transactions)
      ensures userEmail in old(users) && old(users)[userEmail].balance < price * quantity ==>
        r == Error(400, InsufficientBalance) && users == old(users) && transactions == old(transactions)
      ensures userEmail in old(users) && old(users)[userEmail].balance >= price * quantity ==>
        var b := old(users)[userEmail].balance - price * quantity;
        && b >= 0
        && users == old(users)[userEmail := old(users)[userEmail].(balance := b)]
        && if userEmail == "" || symbol == "" then
             r == Error(500, TransactionFailed) && transactions == old(transactions)
           else
             r == Ok(b) && transactions == old(transactions) + [Transaction(userEmail, symbol, price, quantity)]
      ensures NonNegativeBalances(old(users)) ==> NonNegativeBalances(users)
      ensures stocks == old(stocks)
    {
      if userEmail !in users {
        return Error(404, UserNotFound);
      }
      var user := users[userEmail];
      var totalCost := price * quantity;
      if user.balance < totalCost {
        return Error(400, InsufficientBalance);
      }
      user := user.(balance := user.balance - totalCost);
      users := users[userEmail := user];
      if userEmail == "" || symbol == "" {
        return Error(500, TransactionFailed);
      }
      transactions := transactions + [Transaction(userEmail, symbol, price, quantity)];
      r := Ok(user.balance);
    }
  }

  /** After a successful change of password the new one logs in, and a different old one no longer does. */
  lemma LoginAfterPasswordChange(users: map<string, User>, email: string, oldPassword: string, newPassword: string, salt: nat)
    requires email in users
    ensures var users' := users[email := users[email].(password := Hash(newPassword, salt))];
            && CheckLogin(users', email, newPassword) == Ok(email)
            && (oldPassword != newPassword ==> CheckLogin(users', email, oldPassword) == Error(400, InvalidCredentials))
  {
  }

  /** A newly registered account logs in with its password and starts with balance 0. */
  lemma LoginAfterRegister(users: map<string, User>, name: string, email: string, password: string, salt: nat)
    requires email !in users
    ensures var users' := users[email := User(name, Hash(password, salt), 0)];
            && CheckLogin(users', email, password) == Ok(email)
            && GetBalance(users', email) == Ok(0)
  {
  }

  /** Register, deposit 1000.00, buy 5 shares at 100.00: 500.00 left and one transaction; a second buy of 6 shares then fails; a buy with an empty symbol is debited but answered 500 with no record. */
  method RegisterDepositBuyScenario()
  {
    var store := new Store();
    var registered := store.Register("Ann", "ann@example.com", "pw", 7);
    assert registered == Ok(());
    var deposit := store.UpdateBalance("ann@example.com", Num(100000));
    assert deposit == Ok(100000);
    var bought := store.Buy("ann@example.com", "AAPL", 10000, 5);
    assert bought == Ok(50000);
    assert store.transactions == [Transaction("ann@example.com", "AAPL", 10000, 5)];
    var again := store.Buy("ann@example.com", "AAPL", 10000, 6);
    assert again == Error(400, InsufficientBalance);
    assert store.users["ann@example.com"].balance == 50000;
    var unnamed := store.Buy("ann@example.com", "", 10000, 1);
    assert unnamed == Error(500, TransactionFailed);
    assert store.users["ann@example.com"].balance == 40000;
    assert |store.transactions| == 1;
    var login := CheckLogin(store.users, "ann@example.com", "pw");
    assert login == Ok("ann@example.com");
  }
}
