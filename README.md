# Crypto dashboard client logic, in Dafny

This project models the client-side logic of a React cryptocurrency dashboard and
proves properties of it. The logic sits on top of a public market-data REST API and
has three parts:

- **The portfolio ledger** (`src/components/Portfolio.tsx`), in module `Portfolio`.
  It is a list of held assets keyed by coin id, with three operations.
  - `handleAddAsset` checks its three form fields. It merges a repeated purchase into
    the existing entry at a quantity-weighted average cost, and appends a first purchase.
  - `handleRemoveAsset` drops the entries with an id.
  - `updatePrices` revalues every entry against a fetched price table and sums the
    value and profit totals.

  The component's state is the class `Portfolio.Ledger`.
- **The market table** (`src/components/CryptoTable.tsx`), in module `CryptoTable`.
  It covers:
  - the case-insensitive search over name and symbol;
  - the three-way comparator and the stable sort it drives;
  - the `requestSort` column toggle;
  - the favourites toggle.

  The component's state is the class `CryptoTable.MarketTable`. As in the source, only
  a sort request sorts. A fresh snapshot or a new search term shows the search result
  in snapshot order.
- **The favourites card** (`src/components/crypto/FavoriteCryptos.tsx`), in module
  `FavoriteCryptos`. It selects the market entries whose id is a favourite, and shows
  the empty-state message exactly when there are no favourite ids.

Supporting modules:

- `JsText` holds the JavaScript built-ins the logic calls: `trim` with ECMAScript's
  white-space set, `toLowerCase`, `includes` and `parseFloat`.
- `Sequences` holds the subsequence relation that every `Array.prototype.filter` in the
  source establishes.
- `Wrappers` holds `Option`.

A few modelling choices:

- Amounts are Dafny `real`s.
- Network responses are parameters. `None` stands for a failed fetch.
- Values that come from `localStorage` are constructor parameters.

## Model

| member | source | states |
|---|---|---|
| JsText.TrimStart | src/components/CryptoTable.tsx:72 | `Trim` (first half): the result is a suffix of the text, every removed character is white space, and the result does not start with white space |
| JsText.TrimEnd | src/components/CryptoTable.tsx:72 | `Trim` (second half): the result is a prefix of the text, every removed character is white space, and the result does not end with white space |
| JsText.TrimEmptyIff | src/components/CryptoTable.tsx:72 | `Trim`: `term.trim() === ''` exactly when every character of the term is white space |
| JsText.ToLower | src/components/CryptoTable.tsx:77-78 | same length; each character is lower-cased (ASCII letters), the rest kept |
| JsText.ToLowerIdempotent | src/components/CryptoTable.tsx:77-78 | lower-casing twice is lower-casing once |
| JsText.IncludesIff | src/components/CryptoTable.tsx:77-78 | `Includes`: `hay.includes(needle)` holds exactly when the needle occurs at some index of the hay |
| JsText.PaddedNeedleNotIncluded | src/components/CryptoTable.tsx:77-78 | a lower-cased needle starting with white space is never found in a lower-cased text without white space |
| JsText.ParseFloatDecimalText | src/components/Portfolio.tsx:171-172 | `ParseFloat`: `parseFloat` reads the decimal text of every natural number back as that number |
| JsText.ParseFloatNegative | src/components/Portfolio.tsx:171-172 | `ParseFloat`: a leading minus sign negates the literal after it |
| JsText.ParseFloatStartsWithDigit | src/components/Portfolio.tsx:171-172 | `ParseFloat`: a text starting with a digit is read as an unsigned literal, with nothing skipped |
| JsText.ParseFloatNoDigit | src/components/Portfolio.tsx:171-172 | `ParseFloat`: in the model a text with no digit reads as NaN (`None`); the source differs on the spellings of infinity, see Left out |
| JsText.ParseFloatIncompleteExponent | src/components/Portfolio.tsx:171-172 | `ParseFloat`: an exponent marker without digits is ignored: `"1e"` reads as 1 |
| JsText.ParseFloatSignedExponent | src/components/Portfolio.tsx:171-172 | `ParseFloat`: sign, fraction and exponent are applied and trailing text ignored: `"-1.5e2 x"` reads as -150 |
| Portfolio.FindQuote | src/components/Portfolio.tsx:160 | `find` gives no quote exactly when no quote has the id; otherwise it gives the first quote with the id |
| Portfolio.FindIndex | src/components/Portfolio.tsx:183 | `findIndex` gives -1 exactly when no entry has the id; otherwise it gives the first index holding it |
| Portfolio.ParseAmounts | src/components/Portfolio.tsx:171-174 | both amounts are accepted exactly when both parse and both are positive, and then they are the parsed values |
| Portfolio.MergePurchase | src/components/Portfolio.tsx:189-200 | quantities add; total cost is conserved (new quantity times average equals old cost plus new cost); the average lies between the old and the new price; identity and cached current price are kept; value/profit/percentage are recomputed from them |
| Portfolio.WeightedAverageBetween | src/components/Portfolio.tsx:189-191 | `totalCost / totalQuantity` times the quantity is the cost, and lies between the two prices |
| Portfolio.NewAsset | src/components/Portfolio.tsx:210-225 | the new entry takes identity and current price from the quote, quantity and purchase price from the form, and consistent derived fields |
| Portfolio.AddPurchaseRejections | src/components/Portfolio.tsx:151-181 | `AddPurchase`: each of the three refusals (missing information, coin not found, invalid input) happens exactly under its own condition, checked in that order |
| Portfolio.FindIndexOfHeld | src/components/Portfolio.tsx:183 | with at most one entry per id, `findIndex` finds the entry that holds the id |
| Portfolio.AddPurchaseMergesAt | src/components/Portfolio.tsx:185-200 | a valid purchase at the index `findIndex` returns replaces that entry by the merged one and leaves length and all other entries as they were |
| Portfolio.AddPurchaseMerges | src/components/Portfolio.tsx:183-200 | `AddPurchase`: a valid purchase of a held coin merges into that entry: same length, same index, all other entries unchanged |
| Portfolio.FindQuoteFirst | src/components/Portfolio.tsx:160 | the first quote carrying the id is the one `find` returns |
| Portfolio.AddPurchaseAppendsWith | src/components/Portfolio.tsx:209-227 | with no entry for the id, the result is the old list plus the new entry |
| Portfolio.AddPurchaseAppends | src/components/Portfolio.tsx:209-227 | `AddPurchase`: a valid first purchase appends exactly one entry at the end, with the typed quantity and price and the quote's current price and consistent value/profit; the prefix is the old list |
| Portfolio.MergeKeepsInvariant | src/components/Portfolio.tsx:186-200 | overwriting one entry by its merge keeps one entry per id and positive holdings |
| Portfolio.AppendKeepsInvariant | src/components/Portfolio.tsx:227 | appending an entry with a new id and positive amounts keeps the invariant |
| Portfolio.AddPurchasePreservesInvariant | src/components/Portfolio.tsx:183-227 | every accepted purchase keeps at most one entry per id and positive holdings |
| Portfolio.MergeTwice | src/components/Portfolio.tsx:189-191 | two merges in a row give the total quantity and the average over all three lots |
| Portfolio.MergeOrderIndependent | src/components/Portfolio.tsx:189-200 | two purchases of the same coin give the same entry in either order |
| Portfolio.FoldAdds | src/components/Portfolio.tsx:183-200 | for any merge step that adds a lot's share to a measure of an entry, a series of purchases adds the series total of that share |
| Portfolio.TotalPermutation | src/components/Portfolio.tsx:189-191 | a total over a series of purchases does not depend on their order |
| Portfolio.FoldPermutation | src/components/Portfolio.tsx:183-200 | for a step that keeps the coin, adds quantities and costs and recomputes the derived fields, the entry after a series depends only on the multiset of purchases |
| Portfolio.MergeLotAddsCost | src/components/Portfolio.tsx:189-191 | each accepted merge adds the lot's quantity times price to the entry's quantity times average price |
| Portfolio.AddPurchaseIsMergeLot | src/components/Portfolio.tsx:183-200 | a valid purchase of a held coin replaces that coin's entry by one `MergeLot` step on the typed lot and keeps every other entry, so `MergeAll` is `handleAddAsset` repeated |
| Portfolio.MergeAllQuantity | src/components/Portfolio.tsx:183-200 | `MergeAll`, repeated `handleAddAsset` on a held coin: the final quantity is the first plus every purchase's quantity |
| Portfolio.MergeAllCost | src/components/Portfolio.tsx:189-191 | `MergeAll`: the final quantity times the final average price is the first cost plus every purchase's quantity times price |
| Portfolio.MergeAllPermutation | src/components/Portfolio.tsx:183-200 | `MergeAll`: any reordering of the same purchases gives the same entry |
| Portfolio.MergeExample | src/components/Portfolio.tsx:189-196 | 2 coins at 100, then 2 at 200, give 4 coins at 150 |
| Portfolio.RemoveMembers | src/components/Portfolio.tsx:244 | `Remove`: the result holds exactly the entries whose id differs, each as often as before, as a subsequence in the original order; with no such id it is the list itself |
| Portfolio.RemoveLeavesNoEntry | src/components/Portfolio.tsx:244 | after a removal no entry carries the removed id |
| Portfolio.RemovePreservesInvariant | src/components/Portfolio.tsx:244 | removal keeps one entry per id and positive holdings |
| Portfolio.AddAfterRemove | src/components/Portfolio.tsx:209-227 | buying a coin back after removing it appends a fresh entry with no trace of the old average |
| Portfolio.PriceMap | src/components/Portfolio.tsx:109-111 | the map's keys are exactly the listed ids, and each id maps to the price of its last entry |
| Portfolio.RevalueAsset | src/components/Portfolio.tsx:113-126 | `QuotedPrice` and `RevalueAsset`: the current price becomes the quoted one when it is present and non-zero, and stays the cached one otherwise; identity, quantity and purchase price are kept; the derived fields are consistent |
| Portfolio.Revalue | src/components/Portfolio.tsx:113-126 | same length; entry i of the result is entry i revalued |
| Portfolio.RevalueAssetIdempotent | src/components/Portfolio.tsx:113-126 | revaluing one entry twice with the same prices is revaluing it once |
| Portfolio.RevalueIdempotent | src/components/Portfolio.tsx:113-126 | revaluing the list twice with the same prices is revaluing it once |
| Portfolio.RevaluePreservesInvariant | src/components/Portfolio.tsx:113-126 | revaluation keeps one entry per id and positive holdings |
| Portfolio.RevalueRemoveCommute | src/components/Portfolio.tsx:113-126 | removing a coin and revaluing give the same list in either order |
| Portfolio.TotalProfitIsValueLessCost | src/components/Portfolio.tsx:130-131 | `SumValue` and `SumProfit`: over consistent entries, the profit total is the value total less the cost basis |
| Portfolio.RemoveDropsValue | src/components/Portfolio.tsx:130-131 | `SumValue` and `SumProfit`: after a removal both totals drop by exactly the removed entry's value and profit |
| Portfolio.RevalueExample | src/components/Portfolio.tsx:113-126 | 4 coins bought at 150, quoted at 180, are worth 720 at a profit of 120, or 20% |
| Portfolio.Ledger.constructor | src/components/Portfolio.tsx:55-86 | the component starts from the stored assets (loaded at mount), an empty listing and zero totals |
| Portfolio.Ledger.ReceiveListing | src/components/Portfolio.tsx:72-75 | a successful listing fetch replaces the coin listing; a failed one keeps it; the assets and the ledger invariant are untouched |
| Portfolio.Ledger.AddAsset | src/components/Portfolio.tsx:150-241 | the step-by-step handler returns what `AddPurchase` specifies, stores its list unless refused, and keeps the invariant |
| Portfolio.Ledger.RemoveAsset | src/components/Portfolio.tsx:243-246 | the assets become the old ones without the id, and the invariant is kept |
| Portfolio.Ledger.UpdatePrices | src/components/Portfolio.tsx:92-134 | an empty portfolio zeroes both totals; a failed fetch changes nothing; otherwise the assets are revalued against the response's price map and the totals become the sums of value and profit |
| CryptoTable.InitialSortConfig | src/components/CryptoTable.tsx:50-53 | the table starts sorted by market-cap rank, ascending |
| CryptoTable.Compare | src/components/CryptoTable.tsx:87-95 | `KeyValue` and `Compare`: for `asc`: negative iff a's key is smaller, positive iff larger; for `desc` the signs swap; zero iff the keys are equal |
| CryptoTable.CompareAntisymmetric | src/components/CryptoTable.tsx:87-95 | swapping the arguments negates the comparator |
| CryptoTable.SortedMonotone | src/components/CryptoTable.tsx:87-97 | `KeyValue`: a list sorted by the comparator never decreases in the key for `asc` and never increases for `desc` |
| CryptoTable.Insert | src/components/CryptoTable.tsx:87-97 | insertion adds exactly that one element |
| CryptoTable.InsertSorted | src/components/CryptoTable.tsx:87-97 | inserting into a sorted list keeps it sorted |
| CryptoTable.SortBy | src/components/CryptoTable.tsx:87-97 | the sort returns a permutation of the visible list that is sorted by the comparator |
| CryptoTable.InsertStable | src/components/CryptoTable.tsx:87-97 | insertion puts the new element in front of all elements with its key and changes nothing else among them |
| CryptoTable.SortStable | src/components/CryptoTable.tsx:87-97 | stability: for every key value, the elements with that key appear in the same relative order before and after sorting |
| CryptoTable.SortEffect | src/components/CryptoTable.tsx:84-99 | the effect permutes the list; with no sort key it leaves it as it is; with a key the result is sorted |
| CryptoTable.FilterByTerm | src/components/CryptoTable.tsx:75-80 | `MatchesTerm` and `FilterByTerm`: the result holds exactly the entries whose lower-cased name or symbol contains the lower-cased term, as a subsequence in snapshot order, each as often as in the snapshot |
| CryptoTable.FilterByTermIdempotent | src/components/CryptoTable.tsx:75-80 | filtering the result again with the same term changes nothing |
| CryptoTable.ApplySearch | src/components/CryptoTable.tsx:70-82 | the visible list is a subsequence of the snapshot; for a non-blank term it holds exactly the matching entries, each as often as in the snapshot |
| CryptoTable.BlankTermShowsSnapshot | src/components/CryptoTable.tsx:72-73 | a term of white space only (the empty term among them) shows the whole snapshot, in snapshot order |
| CryptoTable.PaddedTermMatchesNothing | src/components/CryptoTable.tsx:75-79 | a non-blank term is not trimmed: with a leading space it misses an entry whose name and symbol have no white space |
| CryptoTable.ApplySearchIdempotent | src/components/CryptoTable.tsx:70-82 | searching the search result with the same term changes nothing |
| CryptoTable.NextSortConfig | src/components/CryptoTable.tsx:124-132 | `requestSort(k)` sets key k; the direction is `desc` exactly when k already was the key and the direction was `asc` |
| CryptoTable.RequestSortTimes | src/components/CryptoTable.tsx:124-132 | after one or more clicks on a column, that column is the key |
| CryptoTable.SameColumnAlternates | src/components/CryptoTable.tsx:124-132 | a second click on the same column always flips the direction |
| CryptoTable.RequestSortParity | src/components/CryptoTable.tsx:124-132 | after n clicks on one column, the direction is the first click's for odd n and the opposite for even n |
| CryptoTable.OtherColumnStartsAscending | src/components/CryptoTable.tsx:124-132 | from the initial state, a click on any column other than rank sorts ascending |
| CryptoTable.RankColumnTurnsDescending | src/components/CryptoTable.tsx:124-132 | from the initial state, a click on rank switches to descending |
| CryptoTable.WithoutMembers | src/components/CryptoTable.tsx:150 | `Without`: the result holds exactly the other ids, each as often as in the list, as a subsequence in order; with the id absent it is the list itself |
| CryptoTable.WithoutConcat | src/components/CryptoTable.tsx:150 | removing the id from a concatenation removes it from each part |
| CryptoTable.ToggleFavorite | src/components/CryptoTable.tsx:146-155 | membership of the id flips; every other id keeps its membership; the other ids keep their order; an absent id is appended at the end |
| CryptoTable.ToggleTwiceSameSet | src/components/CryptoTable.tsx:149-153 | toggling the same id twice restores the set of favourites |
| CryptoTable.ToggleTwiceAbsent | src/components/CryptoTable.tsx:149-153 | starting from an id that is not a favourite, toggling twice restores the list exactly |
| CryptoTable.ToggleTwiceDuplicate | src/components/CryptoTable.tsx:149-153 | a favourite stored twice comes back once after two toggles, so the list itself is not always restored |
| CryptoTable.MarketTable.constructor | src/components/CryptoTable.tsx:45-61 | the table starts with no data, an empty term, the stored favourites and the initial sort configuration |
| CryptoTable.MarketTable.ReceiveSnapshot | src/components/CryptoTable.tsx:101-122 | a fetched snapshot replaces the data, and the visible list becomes its search result unsorted; a failed fetch changes nothing |
| CryptoTable.MarketTable.SetSearchTerm | src/components/CryptoTable.tsx:70-82 | a new term shows the snapshot's search result unsorted; the same term again leaves the list alone |
| CryptoTable.MarketTable.RequestSort | src/components/CryptoTable.tsx:84-99 | the configuration takes one toggle step, and the visible list is sorted by the new key and direction; the visible list stays a permutation of the search result |
| CryptoTable.MarketTable.ToggleFavoriteId | src/components/CryptoTable.tsx:146-157 | the favourites become the toggled list, and the table invariant (visible list = search result) is kept |
| CryptoTable.SnapshotIsNotResorted | src/components/CryptoTable.tsx:113-114 | a snapshot arriving out of rank order is shown out of rank order under the initial configuration |
| CryptoTable.SortExample | src/components/CryptoTable.tsx:87-97 | ranks 2, 1, 2 sort to 1, 2, 2, with the two rank-2 coins in their original order |
| FavoriteCryptos.FavoriteEntries | src/components/crypto/FavoriteCryptos.tsx:15 | the result holds exactly the market entries whose id is a favourite, each as often as in the market list, as a subsequence of it, no longer than it; no favourites give no entries |
| FavoriteCryptos.Render | src/components/crypto/FavoriteCryptos.tsx:17-33 | the empty-state message is shown exactly when the favourite ids are empty; otherwise the card lists the favourite entries |
| FavoriteCryptos.FavoriteEntriesBySet | src/components/crypto/FavoriteCryptos.tsx:15 | the entries depend only on which ids are favourites, not on their order or repetition |
| FavoriteCryptos.FavoritesAfterToggle | src/components/crypto/FavoriteCryptos.tsx:15 | the card computed from the toggled favourites list gains or loses exactly the entries with that id (the dashboard passes the toggled list only after it re-reads storage, see Left out) |
| FavoriteCryptos.ToggleTwiceSameEntries | src/components/crypto/FavoriteCryptos.tsx:15 | the card computed from a list toggled twice at the same id equals the card of the original list |
| FavoriteCryptos.UnknownFavoriteShowsEmptyList | src/components/crypto/FavoriteCryptos.tsx:17-33 | a favourite id missing from the market data shows an empty list, not the message |
| FavoriteCryptos.EntriesFollowMarketOrder | src/components/crypto/FavoriteCryptos.tsx:15 | the entries follow market order, not the order in which the ids were starred |

## Left out

- Network I/O is left out: the `fetch` calls, the response status and the JSON decoding. A response is a parameter, and `None` is a failed fetch.
  - `null` fields in a response are not modelled. A `null` price would reach the `||` fallback in `updatePrices`. A `null` column value, such as a missing `market_cap_rank`, compares as 0 in the table's comparator (src/components/CryptoTable.tsx:88-91). Every field of the model's records is a number.
- Timers are left out, namely the one- and two-minute `setInterval` refreshes.
- React's effect scheduling is left out. The model states the net effect of each user action and each response.
  - The `updatePrices` effect runs again after its own `setAssets`. That second run is a further `UpdatePrices` call.
  - The ledger totals change only in `UpdatePrices`. After an add or a remove, the effect re-run recomputes them.
- `localStorage` and `JSON.parse` are left out. A stored value is a constructor parameter, and writes are not modelled.
- Toasts, the dialog, resetting the form fields, the loading and refreshing flags, and all rendering and formatting are left out.
- IEEE-754 doubles are left out. Amounts are exact reals, so there is no rounding, overflow, NaN or Infinity.
  - A literal too large for a double, such as `1e309`, is read by the source's `parseFloat` as Infinity, and the purchase is accepted with an infinite quantity or price. The model reads it as a finite positive real.
- JsText.ParseFloatNoDigit: holds of the model's `ParseFloat` only. JavaScript's `parseFloat` reads the spelling `Infinity`, after optional white space and a sign, as an infinity although it has no digit; the model reads it as NaN. The form cannot send that text: quantity and price are number inputs (src/components/Portfolio.tsx:307-323), whose value is the empty string for any text that is not a valid floating-point number, so a typed `Infinity` reaches the "missing information" refusal in the source and in the model alike.
- Portfolio.AddPurchase: requires every held quantity and purchase price to be positive. The component's own writes guarantee this, because every purchase is checked to be positive. A stored portfolio edited by hand is not modelled.
- Portfolio.Ledger.constructor: requires the stored list to have one entry per id and positive amounts, for the same reason.
- Portfolio.Revalue: requires non-zero purchase prices. The percentage divides by the purchase price, and the source would produce Infinity or NaN there.
- JsText.ToLower: lower-cases ASCII letters only. Full Unicode case mapping is not modelled.
- CryptoTable.SortKey: covers the six numeric columns only. The page requests sorts on price, 24h change and market cap. Sorting on the string fields is not modelled.
- CryptoTable.SortBy: the sort is modelled on a sequence value. The source sorts a fresh copy in place, so no other reference can observe the intermediate states. The stable insertion sort gives the order that a stable `Array.prototype.sort` must produce with this comparator.
- The favourites card's input lag is left out. The dashboard keeps its own `favorites` state and re-reads it from `localStorage` only when the coin query changes (src/pages/Dashboard.tsx:26-38), so a star toggled in the table reaches the card only after the next coin refresh. The card lemmas are stated about the list the card is given.
- Portfolio.Ledger.UpdatePrices: applies a price response atomically to the current assets. In the source, `updatePrices` revalues the `assets` captured when the effect started (src/components/Portfolio.tsx:93-128), so an add or a remove that lands while the fetch is pending is overwritten at line 128 when that fetch resolves. The run that line 128 triggers (the effect depends on `[assets]`, line 148) revalues that stale list again and does not bring the change back. The change returns only when the fetch started by the add or remove itself resolves, and each resolved fetch starts another run, so the stale and the fresh chains of fetches keep alternating. That race is not modelled.
- `getSortIcon` and the star highlight in the table are rendering only and are not modelled.
- Navigation from a favourite entry, and the chart, the details page and authentication, are not part of this model.
