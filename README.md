# StockTracker backend, modelled in Dafny

StockTracker shows a watchlist of stock symbols. Its Flask backend keeps the
watchlist in one SQLite table, `tracked_stock`. Each row holds an integer id,
a unique symbol, the current price, the market capitalisation and the
currency. The backend's routes change or read this table:

- `/track` validates a symbol and upper-cases it. It looks the symbol up and
  rejects incomplete data. Otherwise it adds or updates the symbol's row.
- `/refresh` looks every row up again. It overwrites the price and the market
  cap when the new price is truthy.
- `DELETE /tracked/<id>` removes a row by id, or answers 404.
  An id above 2^63-1 cannot be bound as an SQLite parameter; the overflow is
  not caught, so Flask answers 500.
- `/tracked` lists the rows with the market cap formatted.
- `/ping` reports whether the database answers.

The model has five modules:

- `Schema` (`schema.dfy`) holds the row, the quote returned by the market-data
  lookup, and the table invariant. The invariant is that ids strictly increase
  in scan order and symbols are unique. It also holds lookup by key, SQLite's
  choice of a new rowid, and ASCII upper-casing.
- `MarketCapFormat` (`market_cap.dfy`) models `format_market_cap`: its tier
  choice, and the decimal text of small values, which reads back as the value.
- `TableOps` (`table.dfy`) holds each route's effect on the rows as a function:
  add-or-update, removal by id, the per-row refresh and the listing. Lemmas
  relate these functions to each other and to the invariant.
- `Health` (`health.dfy`) models `/ping`.
- `Routes` (`routes.dfy`) holds `StockDb`, a class over the row sequence. Its
  methods are the table routes. `RefreshAll` is a loop that patches rows in
  place, as the route does. Each method's `ensures` ties the new table to the
  `TableOps` functions of the old one.

The market-data lookup (yfinance) is a parameter, `lookup: string -> Fetch`.
A `Fetch` either raised (`LookupError`) or holds three optional values.
The database probe of `/ping` is also a parameter, `Probe`.

A successful `/track` answers 201. Tracking a symbol that is already tracked
updates its row in place and keeps its id. Deleting an unknown id answers 404.
A lookup that raises inside `/track` is not caught, so Flask answers 500.

`TrackedStock.query.all()` has no `ORDER BY`. SQLite then scans the table in
rowid order, and the model takes that order as table order. A new row gets
the largest rowid plus one, or 1 in an empty table. This is SQLite's rule for
an integer primary key declared without AUTOINCREMENT.

## Model

| member | source | states |
|---|---|---|
| Schema.Find | backend/app.py:140 | the index returned is the first row matching the symbol or id; None exactly when no row matches |
| Schema.MaxId | backend/app.py:141-142 | bounds every id in the table and is attained by some row; 0 for an empty table |
| Schema.NextId | backend/app.py:141-149 | the id a new row gets exceeds every id in use; 1 in an empty table |
| Schema.UpperAscii | backend/app.py:120 | same length, no lower-case ASCII letter left, lower-case letters shifted to upper case and every other character kept |
| Schema.UpperAsciiIdempotent | backend/app.py:120 | upper-casing an already upper-cased symbol changes nothing |
| MarketCapFormat.FormatMarketCap | backend/app.py:27-38 | None maps to None; values of at least 10^12, in [10^9, 10^12) and in [10^6, 10^9) get suffix T, B, M and an amount that times the unit gives the value, in [1, 1000) for B and M; smaller values, negatives included, get plain decimal text that reads back as the value |
| MarketCapFormat.Digits | backend/app.py:38 | at least one character, all decimal digits, and no leading zero except for 0 itself |
| MarketCapFormat.DigitsRoundTrip | backend/app.py:38 | the digit string of a natural number reads back as that number |
| MarketCapFormat.DecimalTextRoundTrip | backend/app.py:37-38 | the text of any integer is well-formed decimal (optional minus sign, no leading zero) and parses back to the integer |
| Health.ErrorEntryUnhealthy | backend/app.py:63-66 | no exception text turns an "error: ..." database entry into a healthy value |
| Health.Ping | backend/app.py:53-68 | the server entry is always "online"; the status is 200 exactly when the probe succeeded and 503 exactly when it failed; the database entry is "connected" or "error: " followed by the exception text |
| TableOps.Upsert | backend/app.py:140-149 | the table grows by at most one row; some row carries the symbol with the fetched price, market cap and currency; every row with another symbol is unchanged |
| TableOps.UpsertExisting | backend/app.py:140-149 | tracking a symbol already present overwrites that row in place with the quote, keeps its id and leaves every other row unchanged |
| TableOps.UpsertNew | backend/app.py:141-149 | tracking a new symbol appends one row with the quote, keeps the old rows as a prefix, and gives it an id no existing row has |
| TableOps.UpsertWellFormed | backend/app.py:140-149 | add-or-update keeps ids increasing and symbols unique |
| TableOps.UpsertSingleRow | backend/app.py:140-150 | afterwards exactly one row carries the symbol, and it holds the fetched price, market cap and currency |
| TableOps.UpsertIdempotent | backend/app.py:140-149 | repeating a track with the same quote leaves the table as the first track left it |
| TableOps.Remove | backend/app.py:96-100 | no row with the deleted id remains and the table never grows |
| TableOps.RemoveMembers | backend/app.py:96-100 | after removal a row is present exactly when it was present before and its id differs from the deleted id |
| TableOps.RemoveAbsent | backend/app.py:96 | removing an id no row has leaves the table unchanged |
| TableOps.RemoveAt | backend/app.py:96-100 | removing the id of row i cuts out exactly row i and keeps the rest in order |
| TableOps.CutWellFormed | backend/app.py:99-100 | cutting out one row keeps ids increasing and symbols unique |
| TableOps.RemoveWellFormed | backend/app.py:96-100 | removal by id keeps the table well formed |
| TableOps.TrackThenDelete | backend/app.py:94-150 | deleting the id that tracking a new symbol created restores the previous table |
| TableOps.RefreshRow | backend/app.py:79-81 | id, symbol and currency never change; price and market cap take the fetched values (a None market cap included) exactly when the lookup succeeded with a truthy price; otherwise the row is untouched |
| TableOps.Listing | backend/app.py:156-165 | one entry per row, in table order, each the row's symbol, price, formatted market cap and currency |
| TableOps.ListingIgnoresIds | backend/app.py:157-163 | tables that differ only in ids give the same listing, so the listing carries no id |
| Routes.Missing | backend/app.py:127-130 | a key is listed exactly when its value is None; keys appear in the order price, market cap, currency; the list is empty exactly when all three are present |
| Routes.TrackStatus | backend/app.py:117-150 | 201 exactly for a tracked symbol, 500 exactly for a raising lookup, 400 exactly for a missing symbol or incomplete data |
| Routes.DeleteStatus | backend/app.py:94-101 | 200 exactly when the row was deleted, 404 exactly when the id is unknown, 500 exactly when the id is too large to bind |
| Routes.StockDb.constructor | backend/app.py:168-170 | the table of a freshly created database: empty and well formed |
| Routes.StockDb.Track | backend/app.py:115-150 | a missing or empty symbol gives NoSymbol (400); a raising lookup gives 500; a quote with a None value gives 400 with the missing keys; every such case leaves the table unchanged; otherwise the answer is 201 with the quote and the table is the add-or-update of the upper-cased symbol; the table stays well formed |
| Routes.StockDb.RefreshAll | backend/app.py:71-86 | the reported count is the number of rows; the row count stays the same; each row becomes its own per-row refresh by the lookup of its own symbol, so a failed lookup skips only that row; the table stays well formed |
| Routes.StockDb.DeleteStock | backend/app.py:94-101 | Unbindable (500) exactly when the id exceeds 2^63-1, and then the table is unchanged; NotFound (404) exactly when a bindable id is carried by no row, and then the table is unchanged; otherwise exactly that row is removed and the other rows stay in order; the table stays well formed |
| Routes.StockDb.ListTracked | backend/app.py:154-165 | one entry per row in table order, with the row's symbol, price, formatted market cap and currency; the listed symbols are distinct |

## Left out

- MarketCapFormat.FormatMarketCap: gives the exact quotient of the value by the tier's unit. It does not model the two-decimal floating-point text (`:.2f`) that the source prints.
- The `/stock` route (backend/app.py:88-92) is left out. It only passes one lookup through, with "AAPL" as the default symbol, and makes no decision of its own.
- The yfinance lookup (backend/app.py:40-48) is the parameter `lookup`, not behaviour. It is a function of the symbol, so two lookups of one symbol within a request agree.
- Request parsing is left out: a body that is not JSON, or not an object, and a symbol that is not a string. The symbol is `Option<string>`, where None means absent or null.
- The database commit and session are left out, including the commit-failure branch of delete (backend/app.py:102-103). The model treats every commit as successful.
- Health.Ping: the probe's exception text is an opaque string. The "disconnected" placeholder is never observable, because the probe always overwrites it.
- Prices are `real`. A price is truthy when it is present and non-zero. NaN, which Python counts as truthy, is not modelled.
- Column widths are not modelled: the 64-bit range of `market_cap` (BigInteger) and the length 10 of `symbol` and `currency`. SQLite does not enforce declared string lengths anyway.
- SQLite's fallback to a random rowid once the largest rowid reaches 2^63-1 is not modelled. Ids in the model are unbounded, so the model admits rows with ids above 2^63-1, which SQLite never stores.
- Upper-casing covers ASCII letters only; Unicode case mapping is not modelled.
- Debug output and the unused `tracked_symbols` global (backend/app.py:10, 77, 83) are left out.
- Concurrent requests are not modelled; each route runs to completion on the table.
- The frontend is not modelled: its rendering components, and the data hook `useStockData` that it imports (frontend/src/App.jsx:12). The hook's source is not part of this model.
