/**
  The portfolio page of the client (frontend/src/components/MyPortfolio.jsx):
  it keeps the BUY entries of the user's transaction list, fetches a quote per
  symbol from the modelled `stock/:symbol` route, and sells a chosen quantity
  of a selected entry. The sell sequence first posts the sale amount to the
  modelled `update-balance` route, then posts to a sell route and re-reads
  the transaction list, neither of which the shown backend has: their
  replies are parameters.
 */
module Portfolio {
  import opened Wrappers
  import opened StockBars
  import opened Server

  /** An entry of the user's transaction list as the client reads it; `kind` is its `type`. */
  datatype Investment = Investment(id: string, symbol: string, price: int, quantity: int, kind: string)

  /** The body of the sell request. */
  datatype SellRequest = SellRequest(userEmail: string, symbol: string, quantity: int, currentPrice: int, transactionId: string)

  /** How handleSell ended. */
  datatype SellOutcome =
    | InvalidQuantity                 // the alert, nothing sent
    | CreditRefused(status: int)      // update-balance answered an error; the sell was not sent
    | SellFailed(request: SellRequest) // balance credited, then the sell or the re-read failed
    | Sold(request: SellRequest)       // everything answered; selection cleared

  const Buy := "BUY"

  /** `filter(investment => investment.type === "BUY")`. */
  function BuyInvestments(s: seq<Investment>): (r: seq<Investment>)
    ensures forall x :: x in r <==> x in s && x.kind == Buy
    ensures |r| <= |s|
  {
    if s == [] then []
    else (if s[0].kind == Buy then [s[0]] else []) + BuyInvestments(s[1..])
  }

  /** The filter keeps the relative order: it distributes over concatenation. */
  lemma {:induction false} BuyInvestmentsAppend(a: seq<Investment>, b: seq<Investment>)
    ensures BuyInvestments(a + b) == BuyInvestments(a) + BuyInvestments(b)
  {
    if a == [] {
      assert a + b == b;
    } else {
      assert (a + b)[0] == a[0];
      assert (a + b)[1..] == a[1..] + b;
      BuyInvestmentsAppend(a[1..], b);
    }
  }

  /** Filtering twice is filtering once. */
  lemma {:induction false} BuyInvestmentsIdempotent(s: seq<Investment>)
    ensures BuyInvestments(BuyInvestments(s)) == BuyInvestments(s)
  {
    if s != [] {
      BuyInvestmentsIdempotent(s[1..]);
      BuyInvestmentsAppend(if s[0].kind == Buy then [s[0]] else [], BuyInvestments(s[1..]));
    }
  }

  /** handleSell's guard: a selection, and 0 < quantity <= the selected entry's quantity. */
  predicate ValidSell(selected: Option<Investment>, quantity: int)
  {
    selected.Some? && 0 < quantity <= selected.value.quantity
  }

  /** `stockData[symbol] ? stockData[symbol].close : 0`. */
  function CurrentPrice(stockData: map<string, StockBar>, symbol: string): int
  {
    if symbol in stockData then stockData[symbol].close else 0
  }

  /** `currentPrice * sellQuantity`. */
  function SaleAmount(stockData: map<string, StockBar>, symbol: string, quantity: int): int
  {
    CurrentPrice(stockData, symbol) * quantity
  }

  /** With no quote the price defaults to 0, and so does the sale amount, whatever the quantity. */
  lemma NoQuoteNoSale(stockData: map<string, StockBar>, inv: Investment, quantity: int)
    requires inv.symbol !in stockData
    ensures SaleAmount(stockData, inv.symbol, quantity) == 0
  {
  }

  /** Choosing a row: the guard then passes exactly when the entry holds at least one share. */
  lemma SelectThenGuard(inv: Investment)
    ensures ValidSell(Some(inv), 1) <==> inv.quantity >= 1
    ensures !ValidSell(None, 1) && !ValidSell(Some(inv), 0)
  {
  }

  /** The state of the portfolio component. */
  class PortfolioView {
    const userEmail: string
    var investments: seq<Investment>
    var stockData: map<string, StockBar>
    var sellQuantity: int
    var selectedInvestment: Option<Investment>

    /** Only BUY entries are ever listed. */
    ghost predicate Valid()
      reads this
    {
      forall x :: x in investments ==> x.kind == Buy
    }

    constructor (email: string)
      ensures Valid()
      ensures userEmail == email && investments == [] && stockData == map[]
      ensures sellQuantity == 0 && selectedInvestment == None
    {
      userEmail := email;
      investments, stockData := [], map[];
      sellQuantity, selectedInvestment := 0, None;
    }

    /** fetchAllStockData: one `stock/:symbol` lookup per listed entry; a 404 leaves the map alone. */
    method FetchAllStockData(list: seq<Investment>, stocks: seq<StockBar>)
      modifies this
      ensures forall s :: s in stockData <==>
        s in old(stockData) || ((exists x :: x in list && x.symbol == s) && StockBySymbol(stocks, s).Ok?)
      ensures forall s :: s in stockData ==>
        stockData[s] == if (exists x :: x in list && x.symbol == s) && StockBySymbol(stocks, s).Ok?
                        then StockBySymbol(stocks, s).value else old(stockData)[s]
      ensures investments == old(investments) && sellQuantity == old(sellQuantity)
      ensures selectedInvestment == old(selectedInvestment)
    {
      var i := 0;
      while i < |list|
        invariant 0 <= i <= |list|
        invariant forall s :: s in stockData <==>
          s in old(stockData) || ((exists x :: x in list[..i] && x.symbol == s) && StockBySymbol(stocks, s).Ok?)
        invariant forall s :: s in stockData ==>
          stockData[s] == if (exists x :: x in list[..i] && x.symbol == s) && StockBySymbol(stocks, s).Ok?
                          then StockBySymbol(stocks, s).value else old(stockData)[s]
        invariant investments == old(investments) && sellQuantity == old(sellQuantity)
        invariant selectedInvestment == old(selectedInvestment)
      {
        var investment := list[i];
        assert list[..i + 1] == list[..i] + [investment];
        var response := StockBySymbol(stocks, investment.symbol);
        if response.Ok? {
          stockData := stockData[investment.symbol := response.value];
        }
        i := i + 1;
      }
      assert list[..i] == list;
    }

    /** fetchInvestments: keep the BUY entries, then fetch their quotes. */
    method LoadInvestments(response: seq<Investment>, stocks: seq<StockBar>)
      modifies this
      ensures Valid()
      ensures investments == BuyInvestments(response)
      ensures forall s :: s in stockData <==>
        s in old(stockData) || ((exists x :: x in investments && x.symbol == s) && StockBySymbol(stocks, s).Ok?)
      ensures forall s :: s in stockData ==>
        stockData[s] == if (exists x :: x in investments && x.symbol == s) && StockBySymbol(stocks, s).Ok?
                        then StockBySymbol(stocks, s).value else old(stockData)[s]
      ensures sellQuantity == old(sellQuantity) && selectedInvestment == old(selectedInvestment)
    {
      investments := BuyInvestments(response);
      FetchAllStockData(investments, stocks);
    }

    /** The "Select to Sell" button of a row. */
    method Select(investment: Investment)
      modifies this
      ensures selectedInvestment == Some(investment) && sellQuantity == 1
      ensures investments == old(investments) && stockData == old(stockData)
    {
      selectedInvestment := Some(investment);
      sellQuantity := 1;
    }

    /** The quantity input's onChange. */
    method SetSellQuantity(quantity: int)
      modifies this
      ensures sellQuantity == quantity
      ensures investments == old(investments) && stockData == old(stockData)
      ensures selectedInvestment == old(selectedInvestment)
    {
      sellQuantity := quantity;
    }

    /**
      handleSell. `sellAccepted` is the sell route's answer and `refreshed` the
      re-read transaction list (`None` when that request failed).
     */
    method HandleSell(store: Store, sellAccepted: bool, refreshed: Option<seq<Investment>>) returns (outcome: SellOutcome)
      requires Valid() && store.Valid()
      modifies this, store
      ensures Valid() && store.Valid()
      ensures store.transactions == old(store.transactions) && store.stocks == old(store.stocks)
      ensures stockData == old(stockData)
      ensures !ValidSell(old(selectedInvestment), old(sellQuantity)) ==>
        && outcome == InvalidQuantity
        && store.users == old(store.users)
        && investments == old(investments) && sellQuantity == old(sellQuantity)
        && selectedInvestment == old(selectedInvestment)
      ensures ValidSell(old(selectedInvestment), old(sellQuantity)) ==>
        var inv := old(selectedInvestment).value;
        var price := CurrentPrice(old(stockData), inv.symbol);
        var amount := price * old(sellQuantity);
        var request := SellRequest(userEmail, inv.symbol, old(sellQuantity), price, inv.id);
        if amount <= 0 || userEmail !in old(store.users) then
          && outcome == CreditRefused(if amount <= 0 then 400 else 404)
          && store.users == old(store.users)
          && investments == old(investments) && sellQuantity == old(sellQuantity)
          && selectedInvestment == old(selectedInvestment)
        else
          && store.users == old(store.users)[userEmail := old(store.users)[userEmail].(balance := old(store.users)[userEmail].balance + amount)]
          && if sellAccepted && refreshed.Some? then
               && outcome == Sold(request)
               && investments == BuyInvestments(refreshed.value)
               && sellQuantity == 0 && selectedInvestment == None
             else
               && outcome == SellFailed(request)
               && investments == old(investments) && sellQuantity == old(sellQuantity)
               && selectedInvestment == old(selectedInvestment)
    {
      if selectedInvestment.None? || sellQuantity <= 0 || sellQuantity > selectedInvestment.value.quantity {
        return InvalidQuantity;
      }
      var inv := selectedInvestment.value;
      var currentPrice := CurrentPrice(stockData, inv.symbol);
      var totalSaleAmount := currentPrice * sellQuantity;
      var credit := store.UpdateBalance(userEmail, Num(totalSaleAmount));
      if credit.Error? {
        return CreditRefused(credit.status);
      }
      var request := SellRequest(userEmail, inv.symbol, sellQuantity, currentPrice, inv.id);
      if !sellAccepted || refreshed.None? {
        return SellFailed(request);
      }
      investments := BuyInvestments(refreshed.value);
      sellQuantity := 0;
      selectedInvestment := None;
      outcome := Sold(request);
    }
  }
}
