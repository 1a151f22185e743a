# Stock portfolio ledger — a Dafny model

This project models the trading ledger of a small stock-portfolio web
application and the client-side arithmetic built on it:

- **The API server** (`backend/server.js`): a `users` collection keyed by
  email (name, bcrypt password hash, cash balance), an append-only
  `transactions` collection, and the `stocks` collection of daily price bars.
  Its routes register, log in, read and patch a profile, change a password,
  deposit money (`update-balance`), buy shares, query bars of a symbol from a
  start date, and look one bar up by symbol. `Server.Store` is the database:
  each writing route is one of its methods, run as one atomic step; the
  reading routes are functions of the collections.
- **The ingest server** (`backend/server1.js`): for each symbol of a fixed
  watch-list of 23 symbols (its comments say 25), it walks the provider's
  daily series and stores a bar only when no bar with the same
  (symbol, date) is stored yet. `Ingest` runs these loops against the
  same `Server.Store`.
- **The profile page** (`frontend/src/components/MyProfile.jsx`): profit as
  SELL totals minus BUY totals over the activity log, 5-per-page pagination,
  the per-label BUY/SELL bucketing behind the bar chart, and the add-money
  form, whose request goes to the modelled `update-balance` route.
- **The portfolio page** (`frontend/src/components/MyPortfolio.jsx`): it keeps
  the BUY entries, takes quotes from the modelled `stock/:symbol` route, and
  runs the sell sequence: guard, credit through `update-balance`, sell
  request, re-read, then reset of the selection.

Modelling choices:

- Money is `int` cents.
- Dates are `YYYY-MM-DD` strings. The database compares them character by
  character (`StockBars.DateLe`). That order is proved total, antisymmetric
  and transitive.
- bcrypt is idealised as `Hash(secret, salt)`, and `bcrypt.compare` as
  equality of the secret. The salt is a parameter, because it is randomness.
- A JSON field tested with `typeof … === 'number'` is `Server.Input`:
  `Num(n)` or `NotNum`.
- Some routes the client calls are absent from the shown backend: the sell
  route, the transaction list and the activity log. Their replies are
  parameters.

Four behaviours of the code worth noting:
- `GET /api/stock/:symbol` returns some bar of the symbol, not the latest one.
- Ingest never overwrites a stored bar. It inserts only when the key is
  absent.
- Transaction documents carry no BUY/SELL type.
- `PATCH /api/users/update` can set any balance, negative included. So
  "balances are never negative" is preserved by every other write route (each
  one's `NonNegativeBalances` clause) but not by this one.

## Model

| member | source | states |
|---|---|---|
| `Server.CheckLogin` | backend/server.js:72-86 | login succeeds exactly when the email is registered and the password matches its hash; success names that email; every failure is the same 400 "Invalid email or password." |
| `Server.LoginFailuresIndistinguishable` | backend/server.js:75-79 | an unknown email and a wrong password for a known email produce identical replies |
| `Server.LoginAfterRegister` | backend/server.js:59-65 | a freshly registered account logs in with its password and has balance 0 |
| `Server.LoginAfterPasswordChange` | backend/server.js:126-133 | after the hash is replaced the new password logs in and a different old password is refused |
| `Server.GetUser` | backend/server.js:89-99 | answers the user's name and balance exactly when the email is registered, else 404 "User not found" |
| `Server.GetBalance` | backend/server.js:140-150 | answers the stored balance exactly when the email is registered, else 404 |
| `Server.FilterRangeExact` | backend/server.js:200 | the filter keeps every bar of the symbol dated on or after the start date, with its multiplicity, and nothing else |
| `Server.StocksInRangeCorrect` | backend/server.js:199-201 | the range query returns exactly the matching bars (same multiset), sorted ascending by date |
| `Server.StockBySymbol` | backend/server.js:238-251 | answers a stored bar of that symbol exactly when one exists, else 404 "Stock not found" |
| `Server.Store.Register` | backend/server.js:59-68 | a new email gets a user with balance 0 and the hashed password; an existing email is a 400 and leaves the store unchanged |
| `Server.Store.UpdateUser` | backend/server.js:102-118 | unknown email is a 404 with no change; otherwise name is overwritten only by a non-empty name, balance only by a number, and the new name and balance are answered |
| `Server.Store.ChangePassword` | backend/server.js:121-137 | unknown email is a 404, wrong current password a 400, both with the hash unchanged; otherwise only that user's hash is replaced |
| `Server.Store.UpdateBalance` | backend/server.js:153-173 | a non-number or non-positive amount is a 400 whatever the email, with nothing changed; an unknown email a 404; otherwise balance grows by the amount and the new balance is answered |
| `Server.Store.Buy` | backend/server.js:208-235 | unknown user is a 404 and balance below price×quantity a 400, both with balance and transactions unchanged; otherwise balance becomes old − price×quantity (so ≥ 0) and no other user changes; then exactly one record is appended and the new balance answered, except that an empty `userEmail` or `symbol` (required schema fields, server.js:37-38) leaves the debit in place, appends nothing and answers 500 |
| `StockBars.SortByDateCorrect` | backend/server.js:201 | `sort({ date: 1 })` yields a date-ascending permutation of its input |
| `StockBars.InsertByDateSorted` | backend/server.js:201 | inserting one bar into a date-sorted list keeps it sorted |
| `StockBars.DateLeTotal` | backend/server.js:200 | any two date strings are comparable |
| `StockBars.DateLeTransitive` | backend/server.js:200 | the date comparison is transitive |
| `StockBars.DateLeAntisymmetric` | backend/server.js:200 | two dates each on or before the other are equal |
| `Ingest.FetchAndStoreHistoricData` | backend/server1.js:36-87 | an absent series leaves the store unchanged; otherwise the loop's result is the insert-if-absent fold, old rows are a prefix, every date of the series has a bar, keys stay unique, users and transactions untouched |
| `Ingest.LoadTopStocks` | backend/server1.js:90-96 | the watch-list is processed symbol by symbol in list order, keeping keys unique |
| `Ingest.StoreSeriesAppends` | backend/server1.js:63-81 | rows are only appended: the bars before a run are a prefix of the bars after it |
| `Ingest.StoreSeriesAddsOnlySeries` | backend/server1.js:66-76 | every appended row is the symbol's bar for some day of the series |
| `Ingest.StoreSeriesKeepsUnique` | backend/server1.js:63-81 | unique (symbol, date) keys before a run are unique after it |
| `Ingest.StoreSeriesCoversSeries` | backend/server1.js:63-77 | after a run every date of the series has a stored bar for (symbol, date) |
| `Ingest.ExistingBarsUntouched` | backend/server1.js:65-80 | a bar whose key was already stored keeps its position and value and gets no duplicate |
| `Ingest.LoadAllInOrder` | backend/server1.js:92-94 | loading a list of symbols is loading a first part and then the rest: one symbol at a time, in order |
| `Ingest.LoadAllKeepsUnique` | backend/server1.js:92-94 | loading the watch-list keeps keys unique |
| `Ingest.LoadAllAppends` | backend/server1.js:92-94 | loading the watch-list only appends rows |
| `Profile.CalculateProfit` | frontend/src/components/MyProfile.jsx:239-251 | the accumulated profit equals SELL totals minus BUY totals over the whole log |
| `Profile.ProfitAppend` | frontend/src/components/MyProfile.jsx:240-248 | profit of a concatenation is the sum of the parts' profits |
| `Profile.ProfitOfEntry` | frontend/src/components/MyProfile.jsx:242-248 | one entry adds its total if SELL, subtracts it if BUY, and is ignored for any other type |
| `Profile.ProfilePage.SetStockLogs` | frontend/src/components/MyProfile.jsx:238-256 | profit is recomputed for a non-empty log and otherwise keeps its previous value |
| `Profile.ProfilePage.constructor` | frontend/src/components/MyProfile.jsx:19-30 | the page starts with balance 0 and no logs (lines 19, 30), page 0 (line 213) and profit 0 (line 235) |
| `Profile.PageCount` | frontend/src/components/MyProfile.jsx:217 | totalPages is the least count of 5-item pages holding all logs (ceil(len/5)); 0 exactly for no logs |
| `Profile.PageSliceContents` | frontend/src/components/MyProfile.jsx:220 | page p holds the logs at indices [5p, 5p+5) clamped to the length: at most 5, and non-empty exactly for p < totalPages |
| `Profile.EveryLogOnItsPage` | frontend/src/components/MyProfile.jsx:214-220 | log i is shown on page i/5 at slot i%5 |
| `Profile.NavigationStaysInRange` | frontend/src/components/MyProfile.jsx:222-232 | Next advances by one only when page < totalPages−1, Previous retreats only when page > 0; from a page ≥ 0 neither goes below 0, and Next never leaves [0, totalPages) |
| `Profile.ProfilePage.HandleNextPage` | frontend/src/components/MyProfile.jsx:222-226 | the page index becomes the Next index and stays ≥ 0; nothing else changes |
| `Profile.ProfilePage.HandlePreviousPage` | frontend/src/components/MyProfile.jsx:228-232 | the page index becomes the Previous index and stays ≥ 0; nothing else changes |
| `Profile.ChartLabelsDistinct` | frontend/src/components/MyProfile.jsx:96-98 | chart labels are pairwise distinct |
| `Profile.ChartLabelsMembers` | frontend/src/components/MyProfile.jsx:87-98 | the chart labels are exactly the labels of the entries |
| `Profile.ChartLabelsPrefix` | frontend/src/components/MyProfile.jsx:96-98 | first-occurrence order: the labels of any prefix of the entries are a prefix of the labels |
| `Profile.IndexOf` | frontend/src/components/MyProfile.jsx:102 | `labels.indexOf` gives the first position holding the label |
| `Profile.SlotStep` | frontend/src/components/MyProfile.jsx:101-107 | one entry keeps a slot map equal, label by label, to the per-label BUY (or SELL) sums, with a slot exactly for labels touched by a BUY or SELL entry |
| `Profile.RenderChart` | frontend/src/components/MyProfile.jsx:82-108 | labels are the distinct labels in first-occurrence order; for each label touched by a BUY or SELL entry both slots are defined, the BUY slot holding that label's BUY sum and the SELL slot its SELL sum; untouched labels have no slot |
| `Profile.ProfilePage.HandleAddMoney` | frontend/src/components/MyProfile.jsx:164-186 | a non-number or ≤ 0 amount changes nothing; otherwise the deposit reaches the store and the page shows the server's new balance, or keeps the optimistic old+amount when the server refuses |
| `Portfolio.BuyInvestments` | frontend/src/components/MyPortfolio.jsx:18 | exactly the entries of type BUY are kept |
| `Portfolio.BuyInvestmentsAppend` | frontend/src/components/MyPortfolio.jsx:18 | the filter keeps the entries' relative order |
| `Portfolio.BuyInvestmentsIdempotent` | frontend/src/components/MyPortfolio.jsx:72 | filtering an already filtered list changes nothing |
| `Portfolio.NoQuoteNoSale` | frontend/src/components/MyPortfolio.jsx:55-56 | with no quote the price is 0 and so is the sale amount |
| `Portfolio.SelectThenGuard` | frontend/src/components/MyPortfolio.jsx:48 | the guard rejects no selection and quantity 0; after selecting, quantity 1 passes exactly when the entry holds a share |
| `Portfolio.PortfolioView.constructor` | frontend/src/components/MyPortfolio.jsx:6-12 | no investments, no quotes, quantity 0, nothing selected |
| `Portfolio.PortfolioView.FetchAllStockData` | frontend/src/components/MyPortfolio.jsx:31-44 | after the lookups each listed symbol that has a bar maps to the route's answer; other entries are kept |
| `Portfolio.PortfolioView.LoadInvestments` | frontend/src/components/MyPortfolio.jsx:14-29 | the list becomes the BUY entries; each listed symbol with a stored bar gets the route's answer, and every other quote keeps its old value (none added, none dropped) |
| `Portfolio.PortfolioView.Select` | frontend/src/components/MyPortfolio.jsx:115-118 | selecting a row selects it and sets the quantity to 1 |
| `Portfolio.PortfolioView.SetSellQuantity` | frontend/src/components/MyPortfolio.jsx:138 | the input sets the sell quantity only |
| `Portfolio.PortfolioView.HandleSell` | frontend/src/components/MyPortfolio.jsx:47-80 | no selection or a quantity ≤ 0 or above the entry's sends nothing and changes nothing; otherwise the credit is price (quote close or 0) × quantity; a refused credit stops there; an accepted one is followed by a request with the selected id and quantity, and only a fully answered sequence lists the refreshed BUY entries, resets the quantity to 0 and clears the selection |

## Left out

- Express routing, CORS, the MongoDB driver and mongoose schema casting: collections are in-memory maps and sequences, and each handler is one atomic step.
- Storage failures and the 500 replies they cause. For example, a buy debits the balance and then saves the transaction in a second write; a database failure between the two is not modelled. (The one failure a request causes by itself, an empty required field of the transaction, is modelled by `Server.Store.Buy`.)
- The transaction's `date` field, which the schema fills from the clock (backend/server.js:41), is not modelled: a `Transaction` carries user, symbol, price and quantity only.
- Concurrency between requests, including the client's credit-then-sell race: each call runs to completion before the next one starts.
- bcrypt hashing and comparison are idealised. Salts are parameters, and no collisions are assumed. The JWT, which the source signs over the user's document id (backend/server.js:81), is not modelled: a successful login answers the account's key (its email) in place of the token.
- The contact route (backend/server.js:176-184) is not part of this model. It is an unconditional insert into an unrelated collection.
- Turning the `range` selector into a start date (backend/server.js:189-197) needs calendar arithmetic and is left out. The start date is an input.
- The provider's HTTP request, its API key, and the `parseFloat`/`parseInt` of its strings are left out. The provider's answer per symbol is a parameter: `None` when it has no daily series or the request failed. The ingest logs go too.
- JavaScript floating point, `NaN` and non-integer quantities are left out. A request that omits `price` in a buy, or a NaN sell quantity, is not modelled.
- Server.Store.UpdateUser: a `name` that is not a string (which mongoose would cast) is not modelled. The name is either a string or absent.
- Server.StockBySymbol: the database's natural order decides which bar `findOne` returns. The model picks the first stored bar, and the contract promises only some bar of the symbol, as the route does.
- The client's requests to the modelled routes always get an answer; network failures of those requests are not modelled.
- Behaviour of the sell, transaction-list, activity-log, profit and delete routes, which the shown backend lacks. Their answers are parameters.
- Date formatting with `toLocaleString` is left out: a chart entry carries its formatted label. Chart.js rendering is left out too.
- Profile-page plumbing is left out: `fetchUserData`, `handleChangePassword`, and the form and visibility state.
- The older copies under `src/` are not modelled. They repeat the add-money check; their portfolio lists every transaction unfiltered and drops a sold entry by its id.
