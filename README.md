# cryptoplus: a verified model of the live-price dashboard

This project models the core of a cryptocurrency dashboard. It has two parts.

**The relay** (`backend/server.js`):
- It keeps one socket to an exchange's ticker stream.
- It filters each batch of ticker records down to ten tracked USDT pairs, the universe.
- It records the latest price per symbol in an insertion-ordered live-state map.
- It fans each filtered batch out to the subscribers whose socket is OPEN.
- A new subscriber is sent a snapshot of the live state first.
- When the upstream socket opens, every tracked symbol is reset to a zero sentinel.
- When the upstream socket closes, a reconnect is scheduled five seconds later.
- It also serves a history endpoint. The endpoint checks the symbol, then forwards the query or answers with a 400 or 500 error.

**The browser client:**
- The page (`client/src/app/page.tsx`) turns each accepted batch into table rows. The rows are sorted favourites first, then by universe index. The page also keeps the favourite list and the per-symbol history flags, and it produces a CSV report.
- The live-price context (`LiveDataContext.tsx`) merges every batch into a shared price map.
- The sparkline (`CryptoChart.tsx`) replaces its last point when a different live price arrives.
- The enlarged chart (`ChartModal.tsx`) overwrites its last point on every truthy live price and re-stamps it.

## How the model is built

JavaScript values are modelled explicitly in `JsValues`:
- A number is NaN, a signed infinity or a finite real. `Sub`, `Div`, `===` and truthiness follow the IEEE and JavaScript rules for NaN, infinities and zero.
- An absent field is `None`.
- A parsed socket message (`Wire.Message`) is unparseable, not an array, or an array of items. An item is `null` or a record with optional `s`, `c` and `P` strings.
- `parseFloat`, `toLocaleString`, `toFixed`, time labels and clocks are function or value parameters.

Each core file takes its own form:
- State the source updates in place becomes classes with fields, `modifies` clauses and loops:
  - `Relay.Relay` holds the live-state map, its key order, the client registry and the log of sends.
  - `LivePrices.LiveDataStore` holds the shared price map.
  - `Dashboard.Page`, `CryptoChart.Chart` and `ChartModal.Modal` hold the component state.
- Each method is proved against a specification function on values (`Applied`, `Inserted`, `Deliveries`, `SnapshotOf`, `BatchPrices`, `RowsOf`, `Updated`, …). The source's promises are lemmas about those functions.
- The comparator passed to `Array.prototype.sort` becomes `Ordering.Compare`. It is proved to order rows exactly as a natural-number rank does. The sort itself is a stable insertion sort, `StableSort.SortByRank`, proved to be a permutation, ascending and stable.

## Behaviour of the code worth knowing

- **Bitcoin's place.** The tie-break key is `orderMap.get(symbol) || Infinity`. `BTCUSDT` has index 0, and 0 is falsy, so its key is Infinity. `BTCUSDT` therefore sorts last within its favourite group (`Ordering.BitcoinLastInGroup`). With `SOLUSDT` the only favourite, the rows for BTC, ETH and SOL are shown as SOL, ETH, BTC (`Ordering.FavoriteExample`). Rows are filtered to the universe beforehand, so the "unknown symbol" case of the key never occurs in the table.
- **Prices on reconnect.** The open handler overwrites every tracked symbol with a zero sentinel. Every price known before a reconnect reads zero afterwards (`Relay.ResetErases`).
- **Upstream lifecycle.** The lifecycle has four states: connecting, connected, closing after an error, and waiting for the reconnect delay. An error closes the socket, and only the resulting `close` schedules the reconnect (`Reconnect.ErrorThenRetry`).
- **History endpoint.** The symbol check is a suffix test only. Any symbol ending in USDT is forwarded, tracked or not, and the bare symbol `usdt` is accepted (`Klines.BareQuoteAccepted`).
- **Price history.** `fetchPriceHistory` (client/src/app/page.tsx:63-84) is modelled by `Dashboard.Page.BeginHistoryFetch`, `Dashboard.Page.CompleteHistoryFetch` and `Dashboard.TableWithHistory`. Its only caller is the commented-out button at page.tsx:273-286, so in the page as shipped no row ever gains a history.
- **Subscribers.** A subscriber leaves the registry only through its own `close` event, never through a failed send.

## Model

| member | source | states |
|---|---|---|
| JsValues.Sub | client/src/components/CryptoChart.tsx:82 | subtraction of finite numbers is real subtraction; NaN in either operand gives NaN |
| JsValues.Div | client/src/components/CryptoChart.tsx:82 | division of finite numbers by a non-zero finite number is real division; 0/0 and NaN operands give NaN |
| JsValues.Scale | client/src/components/CryptoChart.tsx:82 | multiplying a finite number by a positive constant stays finite and scales its value |
| JsValues.PercentChange | client/src/components/CryptoChart.tsx:80-82 | over a finite non-zero open, the change is 100·(close−open)/open; a zero-to-zero history gives NaN |
| JsValues.PercentChangeSign | client/src/components/CryptoChart.tsx:80-83 | over a positive open, the percentage is positive exactly when close > open |
| JsValues.PercentChangeFlat | client/src/components/CryptoChart.tsx:80-83 | an unchanged finite price never gives a positive percentage, zero included |
| JsValues.StrictEqReflexive | client/src/components/CryptoChart.tsx:40 | `===` is reflexive on every number except NaN |
| JsStrings.ToUpper | client/src/app/page.tsx:133-134 | upper-casing keeps the length and maps each character independently |
| JsStrings.ToUpperIdempotent | client/src/app/page.tsx:133-134 | upper-casing twice is upper-casing once |
| JsStrings.ReplaceFirst | client/src/app/page.tsx:90 | the result is the string itself, or it has one occurrence of the pattern exchanged for the replacement |
| JsStrings.ReplaceFirstSplits | client/src/app/page.tsx:90 | `replace` with a string pattern rewrites only the first occurrence and keeps the text before and after it |
| JsStrings.ReplaceFirstAbsent | client/src/app/page.tsx:90 | without an occurrence of the pattern the string is unchanged |
| JsStrings.RemoveChar | client/src/app/page.tsx:90 | a global one-character replace by "" leaves no such character and adds none |
| JsStrings.RemoveCharKeepsOthers | client/src/app/page.tsx:90 | the removal keeps every other character with its multiplicity |
| JsStrings.Join | client/src/app/page.tsx:89-91 | the joined text starts with the first line, with one separator between every two lines |
| JsStrings.Split | client/src/app/page.tsx:89-91 | a split has at least one part, and a string without the separator is its own single part |
| JsStrings.SplitJoin | client/src/app/page.tsx:89-91 | `split` undoes `join` when no line holds the separator |
| Wire.ParseField | client/src/app/page.tsx:135-137 | an absent field parses to NaN; a present one to `parseFloat` of its text |
| Wire.CandlesToPoints | client/src/components/CryptoChart.tsx:73-76 | one point per candle, in order, with the close price and the open-time label |
| Universe.IndexOf | client/src/app/page.tsx:154 | the index is defined exactly for the tracked symbols and points back at the symbol |
| Universe.UniverseShape | backend/server.js:7-10 | every tracked symbol ends in USDT, has no U in its base asset, is not a leveraged token and is already upper case |
| Universe.UniverseDistinct | backend/server.js:7-10 | the ten tracked symbols are pairwise distinct |
| Reconnect.Step | backend/server.js:57-102 | the live state is reset exactly on `open` of a connecting socket; `close()` is called exactly on `error` of a live socket; a reconnect is scheduled exactly on `close` of a live socket, after 5000 ms; a socket is opened exactly when the delay elapses; no effect means no state change |
| Reconnect.RunAlternates | backend/server.js:94-102 | over any event sequence, scheduled reconnects and opened sockets strictly alternate |
| Reconnect.RunEndsConsistently | backend/server.js:94-102 | after any event sequence a socket is alive exactly when the last lifecycle effect opened one (or none happened and one was alive) |
| Reconnect.ErrorThenRetry | backend/server.js:94-102 | an error on a live socket closes it, its `close` schedules one reconnect and the delay opens a new socket |
| Relay.Kept | backend/server.js:72-77 | a kept record has a symbol that passes `Tradable` (tracked, ends in USDT, no UP or DOWN), so that symbol is tracked |
| Relay.KeptIsUniverseMembership | backend/server.js:72-77 | for this universe, the filter keeps a record exactly when its symbol is tracked |
| Relay.KeepAll | backend/server.js:72-77 | every record kept passes the filter, and the batch does not grow |
| Relay.KeepAllAppend | backend/server.js:72-77 | filtering works record by record: the filter of a concatenation is the concatenation of the filters |
| Relay.KeepAllCounts | backend/server.js:72-77 | a passing record is kept as often as it occurs; any other record is dropped |
| Relay.Inbound | backend/server.js:70-77 | a message is dropped exactly when it is not an array or holds `null`; otherwise the filtered batch |
| Relay.TickOf | backend/server.js:80-84 | the written entry carries the clock reading; an absent price or change parses to NaN |
| Relay.Applied | backend/server.js:80-86 | a batch never removes an entry of the live-state map |
| Relay.Symbols | backend/server.js:80-86 | the symbols of a filtered batch, one per record, in order |
| Relay.AppliedKeys | backend/server.js:80-86 | a batch adds exactly its own symbols to the live-state map |
| Relay.AppliedLastWins | backend/server.js:80-86 | the last record of a symbol in a batch decides its entry |
| Relay.AppliedUntouched | backend/server.js:80-86 | a symbol the batch does not mention keeps its entry or its absence |
| Relay.Reset | backend/server.js:59-65 | the reset removes no entry and adds only the reset symbols |
| Relay.ResetAt | backend/server.js:60-66 | the reset symbols hold the sentinel; every other key is kept unchanged |
| Relay.ResetErases | backend/server.js:57-66 | a reconnect overwrites every known price with the zero sentinel |
| Relay.InsertKey | backend/server.js:80-86 | `set` lists its key, keeps the old order as a prefix and adds at most one key |
| Relay.Inserted | backend/server.js:80-86 | a run of `set` calls keeps every old key and adds at most one key per call |
| Relay.InsertedMembers | backend/server.js:80-86 | the keys after a run of `set` calls are the old keys and the set ones, nothing else |
| Relay.InsertedPrefix | backend/server.js:80-86 | setting keys never moves an existing key: the old key order is a prefix |
| Relay.InsertedIntoEmpty | backend/server.js:60-66 | distinct keys set on an empty map iterate in the order they were set |
| Relay.InsertedPresent | backend/server.js:60-66 | setting only present keys leaves the key order alone |
| Relay.InsertedDistinct | backend/server.js:119-123 | the key order never lists a key twice |
| Relay.Deliveries | backend/server.js:106-112 | every send of a broadcast carries the payload, and there are no more sends than clients |
| Relay.DeliveriesReachOpen | backend/server.js:106-112 | a broadcast reaches a subscriber exactly when it is registered and OPEN |
| Relay.DeliveriesRegistered | backend/server.js:106-112 | a broadcast only reaches registered subscribers |
| Relay.DeliveriesDistinctTargets | backend/server.js:106-112 | with distinct subscriber identities, no subscriber is sent the same broadcast twice |
| Relay.Sends | backend/server.js:107-111 | the `forEach` loop sends to exactly the OPEN clients, in registry order |
| Relay.SnapshotOf | backend/server.js:119-123 | one snapshot record per live-state entry, in key order |
| Relay.SnapshotAfterReset | backend/server.js:119-125 | after the upstream opens, a snapshot holds one zero-price record per tracked symbol |
| Relay.Relay.constructor | backend/server.js:45-49 | the server starts with empty live state and no subscribers, and connecting upstream |
| Relay.Relay.Put | backend/server.js:80-86 | `liveData.set` updates the map and appends a new key at the end of the order |
| Relay.Relay.OnUpstreamEvent | backend/server.js:57-102 | the upstream state moves as the lifecycle prescribes, and only an open event rewrites the live state |
| Relay.Relay.OnOpen | backend/server.js:57-66 | after the open handler every tracked symbol holds the sentinel |
| Relay.Relay.OnMessage | backend/server.js:69-91 | an accepted batch is written to the live state and broadcast; a dropped message changes nothing |
| Relay.Relay.ApplyAll | backend/server.js:80-86 | the write loop leaves the live state as `Applied` and the key order as `Inserted` say |
| Relay.Relay.Broadcast | backend/server.js:106-112 | the sends are exactly one per OPEN client, in registry order |
| Relay.Relay.Snapshot | backend/server.js:119-123 | the snapshot is the live state in key order |
| Relay.Relay.Connect | backend/server.js:115-125 | a new subscriber joins as OPEN and its snapshot is the first message it receives |
| Relay.Relay.SetReadyState | backend/server.js:108 | only the named subscriber's socket state changes |
| Relay.Survivors | backend/server.js:127-129 | the client set after a socket closes is the old set without that socket, in the old order |
| Relay.RegistryOkFilter | backend/server.js:127-129 | dropping subscribers keeps the remaining identities distinct and connected |
| Relay.Relay.Remove | backend/server.js:127-129 | the close handler only logs; the `ws` server then drops the closed socket from its client set, so the registry becomes the old one without that subscriber, in order, and stays well formed |
| Relay.Relay.SnapshotComesFirst | backend/server.js:115-125 | no subscriber receives anything before its snapshot |
| Klines.AcceptedSymbol | backend/server.js:26 | an accepted symbol is present and at least four characters long |
| Klines.Validate | backend/server.js:24-36 | a query is accepted exactly when its upper-cased symbol ends in USDT; the forwarded symbol is the upper-cased query symbol; defaults 1h and 24 apply to absent parameters |
| Klines.Handle | backend/server.js:23-43 | 400 exactly for a rejected symbol, 500 exactly for an accepted one whose upstream request fails, otherwise the upstream body |
| Klines.RejectionIgnoresUpstream | backend/server.js:26-28 | a rejected query is answered 400 without regard to the upstream |
| Klines.ValidateIgnoresCase | backend/server.js:26-33 | the symbol check and the forwarded parameters ignore the symbol's case |
| Klines.BareQuoteAccepted | backend/server.js:24-28 | the bare symbol "usdt" passes the suffix check and is forwarded as "USDT" with the defaults |
| LivePrices.Contributes | client/src/components/LiveDataContext.tsx:24 | a record passes the test only with a present, non-empty symbol and price |
| LivePrices.Sets | client/src/components/LiveDataContext.tsx:24-25 | a passing record stores a key, except that the symbol `__proto__` never does |
| LivePrices.BatchPrices | client/src/components/LiveDataContext.tsx:22-27 | the batch's prices never hold the key `__proto__` or the empty symbol |
| LivePrices.BatchPricesKeys | client/src/components/LiveDataContext.tsx:22-27 | a batch sets exactly the symbols of its records with a truthy symbol and price, `__proto__` excepted |
| LivePrices.NonContributingIgnored | client/src/components/LiveDataContext.tsx:24 | a record with a falsy symbol or price contributes nothing |
| LivePrices.BatchPricesLastWins | client/src/components/LiveDataContext.tsx:22-26 | the last record for a symbol in a batch decides its price |
| LivePrices.Merge | client/src/components/LiveDataContext.tsx:28 | the new prices override; every other known price is kept |
| LivePrices.Received | client/src/components/LiveDataContext.tsx:19-32 | a message never removes a known price and never adds `__proto__`; a value that is not an array changes nothing |
| LivePrices.ProtoIgnored | client/src/components/LiveDataContext.tsx:25 | a record for `__proto__` leaves the price map as it was |
| LivePrices.ReceivedAcceptsAnySymbol | client/src/components/LiveDataContext.tsx:23-26 | a record for any symbol other than `__proto__`, tracked or not, sets that symbol's price |
| LivePrices.CollectPrices | client/src/components/LiveDataContext.tsx:22-27 | the loop fails exactly on a `null` element; otherwise it yields the batch's prices |
| LivePrices.LiveDataStore.constructor | client/src/components/LiveDataContext.tsx:13 | the store starts empty |
| LivePrices.LiveDataStore.OnMessage | client/src/components/LiveDataContext.tsx:18-33 | the store after a message is the merge of the old prices and the batch's |
| Rows.Listed | client/src/app/page.tsx:132 | a listed record has a present symbol whose upper case is tracked |
| Rows.ColorOf | client/src/app/page.tsx:136 | green exactly for a non-negative change |
| Rows.FractionDigits | client/src/app/page.tsx:144 | four fraction digits exactly below one dollar, else two |
| Rows.RowOf | client/src/app/page.tsx:133-149 | the row of a listed record: upper-cased tracked symbol, parsed price and change, formatted strings, no history |
| Rows.RowsOf | client/src/app/page.tsx:130-151 | the table from a batch has tracked symbols only, no history, and no more rows than records |
| Rows.RowsOfAppend | client/src/app/page.tsx:132-151 | rows are built record by record and keep batch order |
| Rows.RowsOfSound | client/src/app/page.tsx:132-151 | every row comes from a listed record of the batch |
| Rows.RowsOfComplete | client/src/app/page.tsx:132-151 | every listed record of the batch gives a row |
| Rows.LowerCaseListed | client/src/app/page.tsx:133-134 | symbols are matched case-insensitively and shown upper-cased |
| Rows.RowsKeepDuplicates | client/src/app/page.tsx:132-151 | a record repeated in a batch gives a row each time |
| Rows.BuildRows | client/src/app/page.tsx:130-151 | the loop builds exactly the rows of the batch |
| Rows.AttachHistory | client/src/app/page.tsx:76-78 | the history goes to the rows of the symbol; every other row is kept |
| Rows.AttachToOneRow | client/src/app/page.tsx:76-78 | with one row per symbol, exactly that row gains the history and nothing else changes |
| Favorites.Without | client/src/app/page.tsx:57 | removal leaves no occurrence of the symbol and never grows the list |
| Favorites.WithoutMembers | client/src/app/page.tsx:57 | a symbol survives removal exactly when it was listed and is not the one removed |
| Favorites.WithoutAppend | client/src/app/page.tsx:57 | removal keeps the remaining entries in order |
| Favorites.WithoutCounts | client/src/app/page.tsx:57 | removal drops exactly the occurrences of the symbol |
| Favorites.WithoutAbsent | client/src/app/page.tsx:57 | removing an absent symbol changes nothing |
| Favorites.Toggled | client/src/app/page.tsx:54-60 | after a toggle the symbol is a favourite exactly when it was not one, and the list grows by at most one |
| Favorites.ToggleFlips | client/src/app/page.tsx:54-60 | toggling flips the symbol's membership and no other symbol's |
| Favorites.ToggleShape | client/src/app/page.tsx:54-60 | toggling removes every occurrence of a favourite, or appends a new symbol at the end |
| Favorites.ToggleTwiceRestores | client/src/app/page.tsx:55-59 | toggling a non-favourite twice restores the list |
| Favorites.ToggleTwiceMovesToEnd | client/src/app/page.tsx:55-59 | toggling a favourite twice moves it to the end |
| StableSort.SortByRank | client/src/app/page.tsx:155-165 | the sort keeps the number of elements |
| StableSort.SortPermutation | client/src/app/page.tsx:155-165 | the sort rearranges its input |
| StableSort.SortAscending | client/src/app/page.tsx:155-165 | the sort leaves ranks ascending |
| StableSort.SortStable | client/src/app/page.tsx:155-165 | elements of equal rank keep their input order |
| StableSort.StratumMembers | client/src/app/page.tsx:155-165 | a rank class holds exactly the elements of that rank |
| StableSort.InsertStratum | client/src/app/page.tsx:155-165 | inserting an element changes no rank class but its own, and puts it last there |
| StableSort.SortThreeFalling | client/src/app/page.tsx:155-165 | three elements of strictly falling rank come out reversed |
| Ordering.KeyOf | client/src/app/page.tsx:162-163 | the tie-break key is a universe index from 1 to 9, or Infinity |
| Ordering.Rank | client/src/app/page.tsx:155-164 | favourites rank 0 to 10 and all others 11 to 21 |
| Ordering.KeyDifference | client/src/app/page.tsx:162-164 | the sign of `aIndex - bIndex` agrees with the key ranks, and Infinity − Infinity has no sign |
| Ordering.Compare | client/src/app/page.tsx:155-165 | two rows of the same symbol compare as a tie: 0, or NaN when both keys are Infinity |
| Ordering.CompareAgreesWithRank | client/src/app/page.tsx:155-165 | the comparator is negative or positive exactly as the ranks are ordered |
| Ordering.Sorted | client/src/app/page.tsx:155 | the sort keeps the number of rows |
| Ordering.SortedPermutation | client/src/app/page.tsx:155 | the sorted table holds the same rows |
| Ordering.SortedAscending | client/src/app/page.tsx:155-165 | after the sort, no pair of rows is out of comparator order |
| Ordering.SortedStable | client/src/app/page.tsx:155-165 | rows that compare equal keep their batch order |
| Ordering.FavoritesFirst | client/src/app/page.tsx:156-160 | every favourite row comes before every other row |
| Ordering.BitcoinLastInGroup | client/src/app/page.tsx:162-164 | within a favourite group, rows follow the universe order except that BTCUSDT comes last |
| Ordering.GroupOrder | client/src/app/page.tsx:162-164 | two tracked rows of one group in rank order are in universe order, BTCUSDT last |
| Ordering.KeyInUniverse | client/src/app/page.tsx:154-163 | a tracked symbol's key is Infinity exactly for BTCUSDT and its index otherwise |
| Ordering.FavoriteExample | client/src/app/page.tsx:155-165 | with SOLUSDT the only favourite, BTC, ETH, SOL are shown as SOL, ETH, BTC |
| Report.Fields | client/src/app/page.tsx:90 | four cells; the price cell holds no comma; the last cell is "Yes" exactly for a favourite |
| Report.CsvLine | client/src/app/page.tsx:90 | a line starts with its symbol cell, followed by at least the three separators |
| Report.Csv | client/src/app/page.tsx:88-91 | the file starts with the header line |
| Report.CsvLines | client/src/app/page.tsx:89-91 | one report line per row, in table order |
| Report.ReplaceFirstChars | client/src/app/page.tsx:90 | the symbol cell adds no character that the symbol or the replacement lacks |
| Report.BaseAsset | client/src/app/page.tsx:90 | a symbol without U in its base asset loses exactly its USDT suffix |
| Report.UniverseBaseAsset | client/src/app/page.tsx:90 | every tracked symbol is reported by its base asset, and appending USDT restores it |
| Report.EmptyReport | client/src/app/page.tsx:88-91 | an empty table gives the header line alone |
| Report.LineColumns | client/src/app/page.tsx:90 | a line splits back into its four cells, the last "Yes" exactly for a favourite |
| Report.ReportLines | client/src/app/page.tsx:88-91 | the file splits back into the header and one line per row |
| Charts.FetchedData | client/src/components/CryptoChart.tsx:73-78 | a history array replaces the buffer point for point; a failed request or error body keeps it |
| Charts.FetchedChange | client/src/components/CryptoChart.tsx:78-83 | a non-empty history sets the open-to-close percentage; otherwise the old one stays |
| Charts.ChangeOfBuffer | client/src/components/CryptoChart.tsx:73-83 | after a non-empty history, the percentage is that of the new buffer's first and last points |
| Charts.ReferenceLine | client/src/components/CryptoChart.tsx:130-141 | the line is drawn once a percentage is known, green exactly when it is positive |
| Charts.RisingWhenCloseAboveOpen | client/src/components/CryptoChart.tsx:80-83 | over a positive open, the line is green exactly when the last close is higher |
| Charts.FlatHistoryIsRed | client/src/components/CryptoChart.tsx:130-141 | a flat history draws a red line, zero price included |
| CryptoChart.Fresh | client/src/components/CryptoChart.tsx:40 | an absent price is never fresh, NaN always is, and a repeat of the last taken price (NaN aside) never is |
| CryptoChart.LiveReplaced | client/src/components/CryptoChart.tsx:44-58 | only the last point changes, and only when the live price differs from it |
| CryptoChart.Updated | client/src/components/CryptoChart.tsx:39-62 | a fresh live price is remembered and replaces the last point; anything else changes nothing |
| CryptoChart.Ticked | client/src/components/CryptoChart.tsx:98-105 | the timer updates only a non-empty buffer |
| CryptoChart.Fetched | client/src/components/CryptoChart.tsx:65-90 | the history fetch sets buffer and percentage and keeps the last live price |
| CryptoChart.UpdateIdempotent | client/src/components/CryptoChart.tsx:39-62 | a repeated price (other than NaN) changes nothing |
| CryptoChart.NaNAlwaysTaken | client/src/components/CryptoChart.tsx:40-60 | a NaN live price is always taken, since NaN equals nothing |
| CryptoChart.EarlyPriceSwallowed | client/src/components/CryptoChart.tsx:39-62 | a price arriving before the history is remembered but never drawn |
| CryptoChart.Chart.constructor | client/src/components/CryptoChart.tsx:28-31 | empty buffer, no percentage, no price taken |
| CryptoChart.Chart.UpdateLivePrice | client/src/components/CryptoChart.tsx:39-62 | the component state moves as `Updated` says |
| CryptoChart.Chart.Tick | client/src/components/CryptoChart.tsx:98-105 | the component state moves as `Ticked` says |
| CryptoChart.Chart.OnHistory | client/src/components/CryptoChart.tsx:65-90 | the component state moves as `Fetched` says |
| ChartModal.Applies | client/src/components/ChartModal.tsx:35 | an applied price is present and neither 0 nor NaN, over a non-empty buffer |
| ChartModal.Updated | client/src/components/ChartModal.tsx:34-53 | a truthy price over a non-empty buffer overwrites the last point and re-stamps; the stamp changes only then |
| ChartModal.Fetched | client/src/components/ChartModal.tsx:56-81 | the history fetch sets buffer and percentage and keeps the stamp |
| ChartModal.UpdateIdempotent | client/src/components/ChartModal.tsx:88-92 | of two updates with the same price, the later one alone decides the state |
| ChartModal.ZeroSkipped | client/src/components/ChartModal.tsx:35 | a zero or absent price is skipped |
| ChartModal.UnchangedPriceRestamps | client/src/components/ChartModal.tsx:39-51 | an unchanged price still re-stamps the point and the update time |
| ChartModal.EmptyBufferIgnoresLive | client/src/components/ChartModal.tsx:35 | before the history arrives, every update is skipped |
| ChartModal.Modal.constructor | client/src/components/ChartModal.tsx:29-31 | empty buffer, no percentage, stamped with the creation time |
| ChartModal.Modal.UpdateLivePrice | client/src/components/ChartModal.tsx:34-53 | the component state moves as `Updated` says |
| ChartModal.Modal.OnHistory | client/src/components/ChartModal.tsx:56-81 | the component state moves as `Fetched` says |
| Dashboard.TableAfter | client/src/app/page.tsx:111-173 | an accepted batch gives no more rows than records; a value that is not an array keeps the table |
| Dashboard.TableWithHistory | client/src/app/page.tsx:65-78 | the table keeps its length and its symbols; rows of other symbols are unchanged |
| Dashboard.NewTableFromBatch | client/src/app/page.tsx:130-167 | an accepted batch gives exactly its listed rows, favourites first |
| Dashboard.NewTableHasNoHistory | client/src/app/page.tsx:167 | no row of a new table carries a history |
| Dashboard.RejectedKeepsTable | client/src/app/page.tsx:111-173 | an unparseable, non-array or `null`-holding message keeps the table |
| Dashboard.HistoryLostOnNextBatch | client/src/app/page.tsx:130-167 | an attached history does not survive the next accepted batch |
| Dashboard.FailedHistoryKeepsTable | client/src/app/page.tsx:65-83 | a failed history request leaves the table as it was |
| Dashboard.Page.constructor | client/src/app/page.tsx:33-45 | the page starts with the saved favourites (or none), an empty table and disconnected |
| Dashboard.Page.ToggleFavorite | client/src/app/page.tsx:54-60 | the favourites move as `Toggled` says |
| Dashboard.Page.OnOpen | client/src/app/page.tsx:106-109 | the page shows itself connected |
| Dashboard.Page.OnCloseOrError | client/src/app/page.tsx:175-183 | the page shows itself disconnected |
| Dashboard.Page.OnMessage | client/src/app/page.tsx:111-173 | an accepted batch merges prices, replaces the table and stamps the time; anything else changes nothing |
| Dashboard.Page.BeginHistoryFetch | client/src/app/page.tsx:64 | the symbol's loading flag is set |
| Dashboard.Page.CompleteHistoryFetch | client/src/app/page.tsx:65-83 | the history is attached on success, and the flag is cleared whatever happened |
| Dashboard.Page.DownloadReport | client/src/app/page.tsx:87-91 | the report text is the header followed by one line per row |

## Left out

- Sockets, HTTP, express, axios, CORS and `fetch` are not modelled. Their inputs and outcomes are parameters: a parsed `Message`, a `FetchResult`, a fetch function for the endpoint.
- Floating-point rounding and signed zero are not modelled. Finite numbers are reals, and `parseFloat`, `toString`, `toFixed` and `toLocaleString` are parameters.
- Case mapping covers ASCII letters only.
- Record fields are modelled as optional strings. Numeric or object-valued fields are left out, and so is a truthy non-string `s`, for which `toUpperCase` throws.
- Repeated query-string parameters, which would arrive as arrays, are left out.
- `localStorage` is left out. The saved favourites are a constructor parameter, and the save effect is not modelled.
- The relay's unused `historicalData` map is left out.
- The theme toggle and all rendering are left out, except the reference line's colour. The selected chart and the modal's open and close state are also left out.
- React scheduling and effect re-runs are left out; each handler is modelled as one call on the current state:
  - The page's socket effect depends on `TOP_CRYPTOS`, an array literal created afresh by every render (client/src/app/page.tsx:28-31, 190). Every render therefore closes the socket if it is OPEN and opens a new one, so the page reconnects after every accepted batch and receives a fresh relay snapshot each time. A socket still connecting is not closed (page.tsx:186-188) and keeps its handlers, so several page sockets can be live at once, each writing the connection flag, the table and the prices.
  - In the enlarged chart, `updateLivePrice` depends on `data` (client/src/components/ChartModal.tsx:53), and the effect that calls it re-runs whenever it changes (lines 84-86). With a truthy price and a non-empty buffer it keeps overwriting and re-stamping the last point. `ChartModal.Updated` models one invocation.
  - The lag of the chart's reference to its data is left out.
- Clocks and time labels are parameters.
- Blob messages are left out. The page reads a Blob as text and parses it like a string (client/src/app/page.tsx:114-115). The live-price context calls `JSON.parse` on the event data directly (client/src/components/LiveDataContext.tsx:20), so a Blob message throws there and is dropped.
- Ordering.Sorted: defined by its result, a stable sort by rank, rather than by the engine's in-place algorithm.
- The CSV download itself is left out: the Blob, the object URL and the file name.
- Concurrency between the client sockets is left out. Each handler runs to completion.
- The `ws` library's client set is modelled as a sequence of identities and socket states.
- Relay.Relay.Connect: the subscriber joins the registry as OPEN and receives its snapshot in the same step. The handshake before OPEN is not modelled.
