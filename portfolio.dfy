/**
 * The portfolio ledger of src/components/Portfolio.tsx: a list of held assets keyed
 * by coin id, with purchases merged at a quantity-weighted average cost, removal by
 * id, and revaluation against the prices of a market response.
 * Amounts are exact reals; the source's IEEE doubles are not modelled.
 */
module Portfolio {
  import opened Wrappers
  import opened JsText
  import opened Sequences

  /** One held position, as the source stores it (the last five fields are derived). */
  datatype Asset = Asset(
    id: string,
    name: string,
    symbol: string,
    image: string,
    quantity: real,
    purchasePrice: real,
    currentPrice: real,
    value: real,
    profit: real,
    profitPercentage: real)

  /** An entry of the market listing, with the fields the ledger reads. */
  datatype Quote = Quote(id: string, name: string, symbol: string, image: string, currentPrice: real)

  /** Why a purchase was refused; each is a separate toast in the source. */
  datatype AddError = MissingInformation | NotFound | InvalidInput

  /** "Asset updated" (merged into an existing entry), "Asset added" (appended), or refused. */
  datatype AddResult = Updated(assets: seq<Asset>) | Added(assets: seq<Asset>) | Rejected(error: AddError)

  function Min(x: real, y: real): real { if x <= y then x else y }
  function Max(x: real, y: real): real { if x <= y then y else x }

  /** `((current - purchase) / purchase) * 100`. */
  function ProfitPercentage(current: real, purchase: real): real
    requires purchase != 0.0
  {
    ((current - purchase) / purchase) * 100.0
  }

  // ---------------------------------------------------------------------------
  // Ledger invariants
  // ---------------------------------------------------------------------------

  /** At most one entry per coin id. */
  ghost predicate UniqueIds(assets: seq<Asset>)
  {
    forall i, j :: 0 <= i < j < |assets| ==> assets[i].id != assets[j].id
  }

  /** Every position holds a positive quantity bought at a positive price. */
  ghost predicate PositiveHoldings(assets: seq<Asset>)
  {
    forall i :: 0 <= i < |assets| ==> assets[i].quantity > 0.0 && assets[i].purchasePrice > 0.0
  }

  ghost predicate LedgerInvariant(assets: seq<Asset>)
  {
    UniqueIds(assets) && PositiveHoldings(assets)
  }

  /** The derived fields agree with quantity, purchase price and current price. */
  ghost predicate Consistent(a: Asset)
  {
    && a.purchasePrice != 0.0
    && a.value == a.quantity * a.currentPrice
    && a.profit == a.value - a.quantity * a.purchasePrice
    && a.profitPercentage == ProfitPercentage(a.currentPrice, a.purchasePrice)
  }

  /** Entry `k` of `r` is entry `k` of `assets` after a purchase of `quantity` at `price`, and nothing else differs. */
  ghost predicate MergedAt(assets: seq<Asset>, r: seq<Asset>, k: nat, quantity: real, price: real)
  {
    && k < |assets| && |r| == |assets|
    && assets[k].quantity > 0.0 && assets[k].purchasePrice > 0.0 && quantity > 0.0 && price > 0.0
    && r[k] == MergePurchase(assets[k], quantity, price)
    && forall j :: 0 <= j < |assets| && j != k ==> r[j] == assets[j]
  }

  ghost predicate HasId(assets: seq<Asset>, id: string)
  {
    exists i :: 0 <= i < |assets| && assets[i].id == id
  }

  // ---------------------------------------------------------------------------
  // Adding a purchase (handleAddAsset)
  // ---------------------------------------------------------------------------

  /** `cryptocurrencies.find(crypto => crypto.id === id)`: the first quote with that id. */
  function FindQuote(quotes: seq<Quote>, id: string): (r: Option<Quote>)
    ensures r.None? <==> forall i :: 0 <= i < |quotes| ==> quotes[i].id != id
    ensures r.Some? ==> exists i :: 0 <= i < |quotes| && quotes[i] == r.value && r.value.id == id
                                    && forall j :: 0 <= j < i ==> quotes[j].id != id
  {
    if quotes == [] then None
    else if quotes[0].id == id then Some(quotes[0])
    else
      var r := FindQuote(quotes[1..], id);
      assert r.Some? ==> exists i :: 0 <= i < |quotes[1..]| && quotes[1..][i] == r.value && r.value.id == id
                                     && forall j :: 0 <= j < i ==> quotes[1..][j].id != id;
      assert r.Some? ==> exists i :: 0 <= i < |quotes| && quotes[i] == r.value && r.value.id == id
                                     && forall j :: 0 <= j < i ==> quotes[j].id != id by {
        if r.Some? {
          var i :| 0 <= i < |quotes[1..]| && quotes[1..][i] == r.value && r.value.id == id
                   && forall j :: 0 <= j < i ==> quotes[1..][j].id != id;
          assert quotes[i + 1] == r.value;
          assert forall j :: 0 <= j < i + 1 ==> quotes[j].id != id by {
            forall j | 0 <= j < i + 1 ensures quotes[j].id != id {
              if j > 0 { assert quotes[j] == quotes[1..][j - 1]; }
            }
          }
        }
      }
      r
  }

  /** `assets.findIndex(asset => asset.id === id)`: the first index with that id, or -1. */
  function FindIndex(assets: seq<Asset>, id: string): (r: int)
    ensures -1 <= r < |assets|
    ensures r == -1 <==> !HasId(assets, id)
    ensures r >= 0 ==> assets[r].id == id && forall j :: 0 <= j < r ==> assets[j].id != id
  {
    if assets == [] then -1
    else if assets[0].id == id then 0
    else
      var k := FindIndex(assets[1..], id);
      assert HasId(assets[1..], id) ==> HasId(assets, id) by {
        if HasId(assets[1..], id) {
          var i :| 0 <= i < |assets[1..]| && assets[1..][i].id == id;
          assert assets[i + 1].id == id;
        }
      }
      assert HasId(assets, id) ==> HasId(assets[1..], id) by {
        if HasId(assets, id) {
          var i :| 0 <= i < |assets| && assets[i].id == id;
          assert assets[1..][i - 1].id == id;
        }
      }
      if k == -1 then -1 else k + 1
  }

  /**
   * The quantity and price of a purchase, after `parseFloat`; `None` when either is
   * NaN or not positive.
   */
  function ParseAmounts(quantityText: string, priceText: string): (r: Option<(real, real)>)
    ensures r.Some? <==> (&& ParseFloat(quantityText).Some? && ParseFloat(priceText).Some?
                          && ParseFloat(quantityText).value > 0.0 && ParseFloat(priceText).value > 0.0)
    ensures r.Some? ==> r.value == (ParseFloat(quantityText).value, ParseFloat(priceText).value)
  {
    match (ParseFloat(quantityText), ParseFloat(priceText))
    case (Some(q), Some(p)) => if q <= 0.0 || p <= 0.0 then None else Some((q, p))
    case _ => None
  }

  /**
   * A repeated purchase of `a`: quantities add up and the purchase price becomes the
   * quantity-weighted average of the two prices; the cached current price is kept.
   */
  function MergePurchase(a: Asset, quantity: real, price: real): (r: Asset)
    requires a.quantity > 0.0 && a.purchasePrice > 0.0 && quantity > 0.0 && price > 0.0
    ensures r.quantity == a.quantity + quantity
    ensures r.quantity * r.purchasePrice == a.quantity * a.purchasePrice + quantity * price
    ensures Min(a.purchasePrice, price) <= r.purchasePrice <= Max(a.purchasePrice, price)
    ensures r.quantity > 0.0 && r.purchasePrice > 0.0
    ensures r.id == a.id && r.name == a.name && r.symbol == a.symbol && r.image == a.image
    ensures r.currentPrice == a.currentPrice
    ensures Consistent(r)
  {
    var totalQuantity := a.quantity + quantity;
    var totalCost := a.quantity * a.purchasePrice + quantity * price;
    var average := totalCost / totalQuantity;
    WeightedAverageBetween(a.quantity, a.purchasePrice, quantity, price);
    assert Min(a.purchasePrice, price) <= average <= Max(a.purchasePrice, price);
    assert average > 0.0;
    a.(quantity := totalQuantity,
       purchasePrice := average,
       value := totalQuantity * a.currentPrice,
       profit := totalQuantity * a.currentPrice - totalQuantity * average,
       profitPercentage := ProfitPercentage(a.currentPrice, average))
  }

  /** A weighted average of two positive prices with positive weights lies between them. */
  lemma WeightedAverageBetween(q1: real, p1: real, q2: real, p2: real)
    requires q1 > 0.0 && p1 > 0.0 && q2 > 0.0 && p2 > 0.0
    ensures var avg := (q1 * p1 + q2 * p2) / (q1 + q2);
            && (q1 + q2) * avg == q1 * p1 + q2 * p2
            && Min(p1, p2) <= avg <= Max(p1, p2)
  {
    var avg := (q1 * p1 + q2 * p2) / (q1 + q2);
    assert (q1 + q2) * avg == q1 * p1 + q2 * p2;
    var lo, hi := Min(p1, p2), Max(p1, p2);
    assert q1 * lo <= q1 * p1 && q2 * lo <= q2 * p2;
    assert q1 * p1 <= q1 * hi && q2 * p2 <= q2 * hi;
    assert (q1 + q2) * lo <= (q1 + q2) * avg <= (q1 + q2) * hi;
  }

  /** The first purchase of a coin: bought at `price`, valued at the quote's price. */
  function NewAsset(quote: Quote, quantity: real, price: real): (r: Asset)
    requires quantity > 0.0 && price > 0.0
    ensures r.id == quote.id && r.name == quote.name && r.symbol == quote.symbol && r.image == quote.image
    ensures r.quantity == quantity && r.purchasePrice == price && r.currentPrice == quote.currentPrice
    ensures Consistent(r)
  {
    var value := quantity * quote.currentPrice;
    Asset(quote.id, quote.name, quote.symbol, quote.image, quantity, price, quote.currentPrice,
          value, value - quantity * price, ProfitPercentage(quote.currentPrice, price))
  }

  /**
   * `handleAddAsset` on the form's three text fields: checked for emptiness, then
   * for a listed coin, then for positive numbers; merged into the entry with that
   * id if there is one, appended otherwise.
   */
  function AddPurchase(assets: seq<Asset>, quotes: seq<Quote>, coinId: string,
                       quantityText: string, priceText: string): AddResult
    requires PositiveHoldings(assets)
  {
    if coinId == "" || quantityText == "" || priceText == "" then Rejected(MissingInformation)
    else match FindQuote(quotes, coinId)
      case None => Rejected(NotFound)
      case Some(quote) =>
        match ParseAmounts(quantityText, priceText)
        case None => Rejected(InvalidInput)
        case Some((quantity, price)) =>
          var i := FindIndex(assets, coinId);
          if i != -1 then Updated(assets[i := MergePurchase(assets[i], quantity, price)])
          else Added(assets + [NewAsset(quote, quantity, price)])
  }

  /** The three refusals, each exactly under its own condition. */
  lemma AddPurchaseRejections(assets: seq<Asset>, quotes: seq<Quote>, coinId: string,
                              quantityText: string, priceText: string)
    requires PositiveHoldings(assets)
    ensures var r := AddPurchase(assets, quotes, coinId, quantityText, priceText);
            && (r == Rejected(MissingInformation) <==> coinId == "" || quantityText == "" || priceText == "")
            && (r == Rejected(NotFound) <==>
                  coinId != "" && quantityText != "" && priceText != ""
                  && forall i :: 0 <= i < |quotes| ==> quotes[i].id != coinId)
            && (r == Rejected(InvalidInput) <==>
                  && coinId != "" && quantityText != "" && priceText != ""
                  && (exists i :: 0 <= i < |quotes| && quotes[i].id == coinId)
                  && !(&& ParseFloat(quantityText).Some? && ParseFloat(priceText).Some?
                       && ParseFloat(quantityText).value > 0.0 && ParseFloat(priceText).value > 0.0))
  {
    var r := AddPurchase(assets, quotes, coinId, quantityText, priceText);
    var found := FindQuote(quotes, coinId);
    var amounts := ParseAmounts(quantityText, priceText);
    if coinId == "" || quantityText == "" || priceText == "" {
      assert r == Rejected(MissingInformation);
    } else if found.None? {
      assert r == Rejected(NotFound);
    } else if amounts.None? {
      assert r == Rejected(InvalidInput);
    } else {
      assert !r.Rejected?;
    }
  }

  /** Under the at-most-one invariant, an entry with the id is the one findIndex finds. */
  lemma FindIndexOfHeld(assets: seq<Asset>, id: string, k: nat)
    requires UniqueIds(assets) && k < |assets| && assets[k].id == id
    ensures FindIndex(assets, id) == k
  {
  }

  /** The merge branch, at the index findIndex returns. */
  lemma AddPurchaseMergesAt(assets: seq<Asset>, quotes: seq<Quote>, coinId: string,
                            quantityText: string, priceText: string, k: nat)
    requires PositiveHoldings(assets)
    requires k < |assets| && FindIndex(assets, coinId) == k
    requires FindQuote(quotes, coinId).Some?
    requires coinId != "" && quantityText != "" && priceText != "" && ParseAmounts(quantityText, priceText).Some?
    ensures var r := AddPurchase(assets, quotes, coinId, quantityText, priceText);
            var amounts := ParseAmounts(quantityText, priceText).value;
            r.Updated? && MergedAt(assets, r.assets, k, amounts.0, amounts.1)
  {
  }

  /**
   * A valid purchase of a held coin merges into that entry: same length, same index,
   * every other entry untouched.
   */
  lemma AddPurchaseMerges(assets: seq<Asset>, quotes: seq<Quote>, coinId: string,
                          quantityText: string, priceText: string, k: nat)
    requires LedgerInvariant(assets)
    requires k < |assets| && assets[k].id == coinId
    requires exists i :: 0 <= i < |quotes| && quotes[i].id == coinId
    requires coinId != "" && quantityText != "" && priceText != "" && ParseAmounts(quantityText, priceText).Some?
    ensures var r := AddPurchase(assets, quotes, coinId, quantityText, priceText);
            var amounts := ParseAmounts(quantityText, priceText).value;
            r.Updated? && MergedAt(assets, r.assets, k, amounts.0, amounts.1)
  {
    FindIndexOfHeld(assets, coinId, k);
    AddPurchaseMergesAt(assets, quotes, coinId, quantityText, priceText, k);
  }

  /** An entry that is the first with its id is the one find returns. */
  lemma FindQuoteFirst(quotes: seq<Quote>, id: string, k: nat)
    requires k < |quotes| && quotes[k].id == id && forall j :: 0 <= j < k ==> quotes[j].id != id
    ensures FindQuote(quotes, id) == Some(quotes[k])
  {
    var found := FindQuote(quotes, id);
    var i :| 0 <= i < |quotes| && quotes[i] == found.value && found.value.id == id
             && forall j :: 0 <= j < i ==> quotes[j].id != id;
    assert !(i < k) && !(k < i);
  }

  /** The append branch, with the quote find returns. */
  lemma AddPurchaseAppendsWith(assets: seq<Asset>, quotes: seq<Quote>, coinId: string,
                               quantityText: string, priceText: string, quote: Quote)
    requires PositiveHoldings(assets)
    requires FindIndex(assets, coinId) == -1 && FindQuote(quotes, coinId) == Some(quote)
    requires coinId != "" && quantityText != "" && priceText != "" && ParseAmounts(quantityText, priceText).Some?
    ensures var amounts := ParseAmounts(quantityText, priceText).value;
            AddPurchase(assets, quotes, coinId, quantityText, priceText)
              == Added(assets + [NewAsset(quote, amounts.0, amounts.1)])
  {
  }

  /**
   * A valid first purchase appends exactly one entry, bought at the typed price and
   * valued at the listed price of the first quote with that id.
   */
  lemma AddPurchaseAppends(assets: seq<Asset>, quotes: seq<Quote>, coinId: string,
                           quantityText: string, priceText: string, k: nat)
    requires PositiveHoldings(assets)
    requires !HasId(assets, coinId)
    requires k < |quotes| && quotes[k].id == coinId && forall j :: 0 <= j < k ==> quotes[j].id != coinId
    requires coinId != "" && quantityText != "" && priceText != "" && ParseAmounts(quantityText, priceText).Some?
    ensures var r := AddPurchase(assets, quotes, coinId, quantityText, priceText);
            var amounts := ParseAmounts(quantityText, priceText).value;
            && r.Added?
            && |r.assets| == |assets| + 1 && r.assets[..|assets|] == assets
            && var last := r.assets[|assets|];
               && last.id == coinId && last.quantity == amounts.0 && last.purchasePrice == amounts.1
               && last.currentPrice == quotes[k].currentPrice
               && Consistent(last)
  {
    FindQuoteFirst(quotes, coinId, k);
    assert FindIndex(assets, coinId) == -1;
    AddPurchaseAppendsWith(assets, quotes, coinId, quantityText, priceText, quotes[k]);
    var amounts := ParseAmounts(quantityText, priceText).value;
    var last := NewAsset(quotes[k], amounts.0, amounts.1);
    var r := AddPurchase(assets, quotes, coinId, quantityText, priceText);
    assert r.assets == assets + [last];
    assert r.assets[..|assets|] == assets;
    assert r.assets[|assets|] == last;
  }

  lemma MergeKeepsInvariant(assets: seq<Asset>, k: nat, quantity: real, price: real)
    requires LedgerInvariant(assets) && k < |assets| && quantity > 0.0 && price > 0.0
    ensures LedgerInvariant(assets[k := MergePurchase(assets[k], quantity, price)])
  {
  }

  lemma AppendKeepsInvariant(assets: seq<Asset>, a: Asset)
    requires LedgerInvariant(assets) && !HasId(assets, a.id) && a.quantity > 0.0 && a.purchasePrice > 0.0
    ensures LedgerInvariant(assets + [a])
  {
    var r := assets + [a];
    forall i, j | 0 <= i < j < |r| ensures r[i].id != r[j].id {
      if j == |assets| {
        assert r[i] == assets[i];
      }
    }
  }

  /** Every accepted purchase keeps at most one entry per id and positive holdings. */
  lemma AddPurchasePreservesInvariant(assets: seq<Asset>, quotes: seq<Quote>, coinId: string,
                                      quantityText: string, priceText: string)
    requires LedgerInvariant(assets)
    ensures var r := AddPurchase(assets, quotes, coinId, quantityText, priceText);
            !r.Rejected? ==> LedgerInvariant(r.assets)
  {
    if coinId != "" && quantityText != "" && priceText != ""
       && FindQuote(quotes, coinId).Some? && ParseAmounts(quantityText, priceText).Some?
    {
      var amounts := ParseAmounts(quantityText, priceText).value;
      var i := FindIndex(assets, coinId);
      if i != -1 {
        AddPurchaseMergesAt(assets, quotes, coinId, quantityText, priceText, i);
        MergeKeepsInvariant(assets, i, amounts.0, amounts.1);
        var r := AddPurchase(assets, quotes, coinId, quantityText, priceText);
        assert r.assets == assets[i := MergePurchase(assets[i], amounts.0, amounts.1)];
      } else {
        var quote := FindQuote(quotes, coinId).value;
        AddPurchaseAppendsWith(assets, quotes, coinId, quantityText, priceText, quote);
        AppendKeepsInvariant(assets, NewAsset(quote, amounts.0, amounts.1));
      }
    }
  }

  lemma QuotientUnique(q: real, p: real, c: real)
    requires q > 0.0 && q * p == c
    ensures p == c / q
  {
  }

  /** Two cost-conserving steps in a row conserve the cost of all three lots. */
  lemma AverageOfThree(a: Asset, x1: Asset, x: Asset, q1: real, p1: real, q2: real, p2: real)
    requires x1.quantity * x1.purchasePrice == a.quantity * a.purchasePrice + q1 * p1
    requires x.quantity * x.purchasePrice == x1.quantity * x1.purchasePrice + q2 * p2
    requires x.quantity == a.quantity + q1 + q2 && x.quantity > 0.0
    ensures x.purchasePrice == (a.quantity * a.purchasePrice + q1 * p1 + q2 * p2) / (a.quantity + q1 + q2)
  {
    QuotientUnique(x.quantity, x.purchasePrice, a.quantity * a.purchasePrice + q1 * p1 + q2 * p2);
  }

  /** Two purchases in a row average over all three lots. */
  lemma MergeTwice(a: Asset, q1: real, p1: real, q2: real, p2: real)
    requires a.quantity > 0.0 && a.purchasePrice > 0.0
    requires q1 > 0.0 && p1 > 0.0 && q2 > 0.0 && p2 > 0.0
    ensures var x := MergePurchase(MergePurchase(a, q1, p1), q2, p2);
            && x.quantity == a.quantity + q1 + q2
            && x.purchasePrice == (a.quantity * a.purchasePrice + q1 * p1 + q2 * p2) / (a.quantity + q1 + q2)
  {
    var x1 := MergePurchase(a, q1, p1);
    AverageOfThree(a, x1, MergePurchase(x1, q2, p2), q1, p1, q2, p2);
  }

  /** The order of two purchases of the same coin does not matter. */
  lemma MergeOrderIndependent(a: Asset, q1: real, p1: real, q2: real, p2: real)
    requires a.quantity > 0.0 && a.purchasePrice > 0.0
    requires q1 > 0.0 && p1 > 0.0 && q2 > 0.0 && p2 > 0.0
    ensures MergePurchase(MergePurchase(a, q1, p1), q2, p2) == MergePurchase(MergePurchase(a, q2, p2), q1, p1)
  {
    MergeTwice(a, q1, p1, q2, p2);
    MergeTwice(a, q2, p2, q1, p1);
    var x := MergePurchase(MergePurchase(a, q1, p1), q2, p2);
    var y := MergePurchase(MergePurchase(a, q2, p2), q1, p1);
    assert x.quantity == y.quantity;
    assert x.purchasePrice == y.purchasePrice;
    ConsistentDeterminedBy(x, y);
  }

  // ---------------------------------------------------------------------------
  // A series of purchases of one held coin
  // ---------------------------------------------------------------------------

  /** One purchase of a coin already held: how many units, at what price. */
  datatype Lot = Lot(quantity: real, price: real)

  /** A purchase the form accepts: both amounts positive. */
  predicate Bought(l: Lot)
  {
    l.quantity > 0.0 && l.price > 0.0
  }

  ghost predicate PositiveLots(lots: seq<Lot>)
  {
    forall i :: 0 <= i < |lots| ==> Bought(lots[i])
  }

  /** An entry as the ledger keeps it: positive quantity and average purchase price. */
  predicate Held(x: Asset)
  {
    x.quantity > 0.0 && x.purchasePrice > 0.0
  }

  function AssetQuantity(x: Asset): real
  {
    x.quantity
  }

  /** What the units of an entry cost in total: quantity times average purchase price. */
  function AssetCost(x: Asset): real
  {
    x.quantity * x.purchasePrice
  }

  function LotQuantity(l: Lot): real
  {
    l.quantity
  }

  function LotCost(l: Lot): real
  {
    l.quantity * l.price
  }

  /** `f` summed over a series of purchases, first to last. */
  function Total(lots: seq<Lot>, f: Lot -> real): real
  {
    if lots == [] then 0.0 else Total(lots[..|lots| - 1], f) + f(lots[|lots| - 1])
  }

  /**
   * `handleAddAsset` for a coin already held, given the parsed amounts: a purchase
   * the form refuses leaves the entry as it is, an accepted one is merged.
   */
  function MergeLot(a: Asset, l: Lot): (r: Asset)
    ensures Held(a) && Bought(l) ==> r == MergePurchase(a, l.quantity, l.price)
    ensures !(Held(a) && Bought(l)) ==> r == a
  {
    if Held(a) && Bought(l) then MergePurchase(a, l.quantity, l.price) else a
  }

  /** The entry after the purchases `lots`, applied one after the other by `step`. */
  function FoldLots(a: Asset, lots: seq<Lot>, step: (Asset, Lot) -> Asset): Asset
  {
    if lots == [] then a else step(FoldLots(a, lots[..|lots| - 1], step), lots[|lots| - 1])
  }

  /** A series of purchases of a held coin, each merged by `handleAddAsset` in turn. */
  function MergeAll(a: Asset, lots: seq<Lot>): Asset
  {
    FoldLots(a, lots, MergeLot)
  }

  // Properties of one step that carry over to a whole series.

  ghost predicate KeepsHeld(step: (Asset, Lot) -> Asset)
  {
    forall x: Asset, l: Lot :: Held(x) && Bought(l) ==> Held(step(x, l))
  }

  /** Each accepted purchase adds `c` of the lot to the measure `m` of the entry. */
  ghost predicate Adds(step: (Asset, Lot) -> Asset, m: Asset -> real, c: Lot -> real)
  {
    forall x: Asset, l: Lot :: Held(x) && Bought(l) ==> m(step(x, l)) == m(x) + c(l)
  }

  /** Same coin, same cached price. */
  predicate SameCoin(x: Asset, y: Asset)
  {
    x.id == y.id && x.name == y.name && x.symbol == y.symbol && x.image == y.image
    && x.currentPrice == y.currentPrice
  }

  ghost predicate KeepsCoin(step: (Asset, Lot) -> Asset)
  {
    forall x: Asset, l: Lot :: SameCoin(step(x, l), x)
  }

  ghost predicate MakesConsistent(step: (Asset, Lot) -> Asset)
  {
    forall x: Asset, l: Lot :: Held(x) && Bought(l) ==> Consistent(step(x, l))
  }

  lemma {:induction false} FoldHeld(a: Asset, lots: seq<Lot>, step: (Asset, Lot) -> Asset)
    requires Held(a) && PositiveLots(lots) && KeepsHeld(step)
    ensures Held(FoldLots(a, lots, step))
  {
    if lots != [] {
      FoldHeld(a, lots[..|lots| - 1], step);
    }
  }

  /** A step that adds `c` to `m` adds the total of `c` over the series. */
  lemma {:induction false} FoldAdds(a: Asset, lots: seq<Lot>, step: (Asset, Lot) -> Asset,
                                    m: Asset -> real, c: Lot -> real)
    requires Held(a) && PositiveLots(lots) && KeepsHeld(step) && Adds(step, m, c)
    ensures m(FoldLots(a, lots, step)) == m(a) + Total(lots, c)
  {
    if lots != [] {
      var init := lots[..|lots| - 1];
      FoldHeld(a, init, step);
      FoldAdds(a, init, step, m, c);
    }
  }

  lemma {:induction false} FoldKeepsCoin(a: Asset, lots: seq<Lot>, step: (Asset, Lot) -> Asset)
    requires KeepsCoin(step)
    ensures SameCoin(FoldLots(a, lots, step), a)
  {
    if lots != [] {
      FoldKeepsCoin(a, lots[..|lots| - 1], step);
    }
  }

  lemma FoldConsistent(a: Asset, lots: seq<Lot>, step: (Asset, Lot) -> Asset)
    requires Held(a) && PositiveLots(lots) && lots != [] && KeepsHeld(step) && MakesConsistent(step)
    ensures Consistent(FoldLots(a, lots, step))
  {
    FoldHeld(a, lots[..|lots| - 1], step);
  }

  /** Taking lot `k` out of the series takes its share out of the total. */
  lemma {:induction false} TotalRemoveAt(lots: seq<Lot>, f: Lot -> real, k: nat)
    requires k < |lots|
    ensures Total(lots, f) == f(lots[k]) + Total(lots[..k] + lots[k + 1..], f)
  {
    var n := |lots|;
    var init := lots[..n - 1];
    if k == n - 1 {
      assert lots[..k] + lots[k + 1..] == init;
    } else {
      TotalRemoveAt(init, f, k);
      var rest := lots[..k] + lots[k + 1..];
      assert lots[..k] == init[..k];
      assert lots[k + 1..] == init[k + 1..] + [lots[n - 1]];
      assert rest == (init[..k] + init[k + 1..]) + [lots[n - 1]];
      assert rest[..|rest| - 1] == init[..k] + init[k + 1..];
    }
  }

  /** A total depends only on the multiset of lots, not on their order. */
  lemma {:induction false} TotalPermutation(l1: seq<Lot>, l2: seq<Lot>, f: Lot -> real)
    requires multiset(l1) == multiset(l2)
    ensures Total(l1, f) == Total(l2, f)
    decreases |l1|
  {
    if l1 == [] {
      assert |l2| == |multiset(l2)| == 0;
    } else {
      var k := MatchHead(l1, l2);
      TotalRemoveAt(l1, f, 0);
      assert l1[..0] + l1[1..] == l1[1..];
      TotalRemoveAt(l2, f, k);
      TotalPermutation(l1[1..], l2[..k] + l2[k + 1..], f);
    }
  }

  lemma PositiveLotsPermutation(l1: seq<Lot>, l2: seq<Lot>)
    requires PositiveLots(l1) && multiset(l1) == multiset(l2)
    ensures PositiveLots(l2)
  {
    forall i | 0 <= i < |l2|
      ensures Bought(l2[i])
    {
      assert l2[i] in multiset(l1);
      var j :| 0 <= j < |l1| && l1[j] == l2[i];
    }
  }

  /** Two entries with the same positive quantity and the same cost have the same average. */
  lemma SameAverage(x: Asset, y: Asset)
    requires x.quantity > 0.0 && x.quantity == y.quantity && AssetCost(x) == AssetCost(y)
    ensures x.purchasePrice == y.purchasePrice
  {
    assert x.quantity * x.purchasePrice == x.quantity * y.purchasePrice;
  }

  /** A consistent entry is fixed by its coin, quantity, average and current price. */
  lemma ConsistentDeterminedBy(x: Asset, y: Asset)
    requires Consistent(x) && Consistent(y) && SameCoin(x, y)
    requires x.quantity == y.quantity && x.purchasePrice == y.purchasePrice
    ensures x == y
  {
  }

  /** The measure `m` after a series depends only on the multiset of lots. */
  lemma FoldSameMeasure(a: Asset, l1: seq<Lot>, l2: seq<Lot>, step: (Asset, Lot) -> Asset,
                        m: Asset -> real, c: Lot -> real)
    requires Held(a) && PositiveLots(l1) && PositiveLots(l2) && multiset(l1) == multiset(l2)
    requires KeepsHeld(step) && Adds(step, m, c)
    ensures m(FoldLots(a, l1, step)) == m(FoldLots(a, l2, step))
  {
    TotalPermutation(l1, l2, c);
    FoldAdds(a, l1, step, m, c);
    FoldAdds(a, l2, step, m, c);
  }

  /**
   * For a step that keeps quantity and cost as sums, keeps the coin and recomputes
   * the derived fields, the result of a series depends only on the multiset of lots.
   */
  lemma FoldPermutation(a: Asset, l1: seq<Lot>, l2: seq<Lot>, step: (Asset, Lot) -> Asset)
    requires Held(a) && PositiveLots(l1) && multiset(l1) == multiset(l2)
    requires KeepsHeld(step) && KeepsCoin(step) && MakesConsistent(step)
    requires Adds(step, AssetQuantity, LotQuantity) && Adds(step, AssetCost, LotCost)
    ensures FoldLots(a, l1, step) == FoldLots(a, l2, step)
  {
    PositiveLotsPermutation(l1, l2);
    if l1 == [] {
      assert |l2| == |multiset(l2)| == 0;
    } else {
      assert l2 != [] by { assert |l2| == |multiset(l1)| == |l1|; }
      var x, y := FoldLots(a, l1, step), FoldLots(a, l2, step);
      FoldSameMeasure(a, l1, l2, step, AssetQuantity, LotQuantity);
      FoldSameMeasure(a, l1, l2, step, AssetCost, LotCost);
      FoldHeld(a, l1, step);
      SameAverage(x, y);
      FoldKeepsCoin(a, l1, step);
      FoldKeepsCoin(a, l2, step);
      FoldConsistent(a, l1, step);
      FoldConsistent(a, l2, step);
      ConsistentDeterminedBy(x, y);
    }
  }

  // The merge step has each of these properties.

  lemma MergeLotKeepsHeld()
    ensures KeepsHeld(MergeLot)
  {
  }

  lemma MergeLotKeepsCoin()
    ensures KeepsCoin(MergeLot)
  {
  }

  lemma MergeLotMakesConsistent()
    ensures MakesConsistent(MergeLot)
  {
  }

  lemma MergeLotAddsQuantity()
    ensures Adds(MergeLot, AssetQuantity, LotQuantity)
  {
  }

  /** One accepted merge adds the lot's cost to the entry's cost. */
  lemma MergeLotCost(x: Asset, l: Lot)
    requires Held(x) && Bought(l)
    ensures AssetCost(MergeLot(x, l)) == AssetCost(x) + LotCost(l)
  {
    var r := MergePurchase(x, l.quantity, l.price);
    assert r.quantity * r.purchasePrice == x.quantity * x.purchasePrice + l.quantity * l.price;
  }

  lemma MergeLotAddsCost()
    ensures Adds(MergeLot, AssetCost, LotCost)
  {
    var step: (Asset, Lot) -> Asset, m: Asset -> real, c: Lot -> real := MergeLot, AssetCost, LotCost;
    forall x: Asset, l: Lot | Held(x) && Bought(l)
      ensures m(step(x, l)) == m(x) + c(l)
    {
      MergeLotCost(x, l);
    }
  }

  /**
   * One accepted purchase of a held coin is one `MergeLot` step: `handleAddAsset`
   * overwrites that coin's entry by `MergeLot` of the typed lot and keeps the rest.
   */
  lemma AddPurchaseIsMergeLot(assets: seq<Asset>, quotes: seq<Quote>, coinId: string,
                              quantityText: string, priceText: string, k: nat)
    requires LedgerInvariant(assets)
    requires k < |assets| && assets[k].id == coinId
    requires exists i :: 0 <= i < |quotes| && quotes[i].id == coinId
    requires coinId != "" && quantityText != "" && priceText != "" && ParseAmounts(quantityText, priceText).Some?
    ensures var r := AddPurchase(assets, quotes, coinId, quantityText, priceText);
            var amounts := ParseAmounts(quantityText, priceText).value;
            r.Updated? && r.assets == assets[k := MergeLot(assets[k], Lot(amounts.0, amounts.1))]
  {
    AddPurchaseMerges(assets, quotes, coinId, quantityText, priceText, k);
  }

  /** Across a series of purchases of a held coin the quantities add up. */
  lemma MergeAllQuantity(a: Asset, lots: seq<Lot>)
    requires Held(a) && PositiveLots(lots)
    ensures MergeAll(a, lots).quantity == a.quantity + Total(lots, LotQuantity)
  {
    MergeLotKeepsHeld();
    MergeLotAddsQuantity();
    FoldAdds(a, lots, MergeLot, AssetQuantity, LotQuantity);
  }

  /**
   * Across a series of purchases of a held coin the total cost is conserved: the
   * final quantity times the final average is the first cost plus every lot's cost.
   */
  lemma MergeAllCost(a: Asset, lots: seq<Lot>)
    requires Held(a) && PositiveLots(lots)
    ensures AssetCost(MergeAll(a, lots)) == AssetCost(a) + Total(lots, LotCost)
  {
    MergeLotKeepsHeld();
    MergeLotAddsCost();
    FoldAdds(a, lots, MergeLot, AssetCost, LotCost);
  }

  /** The merged entry does not depend on the order of the purchases. */
  lemma MergeAllPermutation(a: Asset, l1: seq<Lot>, l2: seq<Lot>)
    requires Held(a) && PositiveLots(l1) && multiset(l1) == multiset(l2)
    ensures MergeAll(a, l1) == MergeAll(a, l2)
  {
    MergeLotKeepsHeld();
    MergeLotKeepsCoin();
    MergeLotMakesConsistent();
    MergeLotAddsQuantity();
    MergeLotAddsCost();
    FoldPermutation(a, l1, l2, MergeLot);
  }

  /** Two coins at 100, then two at 200: four coins at an average of 150. */
  lemma MergeExample(a: Asset)
    requires a.quantity == 2.0 && a.purchasePrice == 100.0
    ensures MergePurchase(a, 2.0, 200.0).quantity == 4.0
    ensures MergePurchase(a, 2.0, 200.0).purchasePrice == 150.0
  {
  }

  // ---------------------------------------------------------------------------
  // Removing (handleRemoveAsset)
  // ---------------------------------------------------------------------------

  /** `assets.filter(asset => asset.id !== id)`. */
  function Remove(assets: seq<Asset>, id: string): seq<Asset>
  {
    if assets == [] then []
    else if assets[0].id != id then [assets[0]] + Remove(assets[1..], id)
    else Remove(assets[1..], id)
  }

  /**
   * Removal keeps exactly the entries with another id, as a subsequence in their
   * order; with no entry for the id it is the list itself.
   */
  lemma {:induction false} RemoveMembers(assets: seq<Asset>, id: string)
    ensures forall a :: a in Remove(assets, id) <==> a in assets && a.id != id
    ensures forall a :: multiset(Remove(assets, id))[a] == if a.id != id then multiset(assets)[a] else 0
    ensures IsSubsequence(Remove(assets, id), assets)
    ensures !HasId(assets, id) ==> Remove(assets, id) == assets
  {
    if assets != [] {
      var rest := Remove(assets[1..], id);
      RemoveMembers(assets[1..], id);
      assert assets == [assets[0]] + assets[1..];
      assert !HasId(assets, id) ==> !HasId(assets[1..], id) by {
        if HasId(assets[1..], id) {
          var i :| 0 <= i < |assets[1..]| && assets[1..][i].id == id;
          assert assets[i + 1].id == id;
        }
      }
      if assets[0].id != id {
        assert ([assets[0]] + rest)[1..] == rest;
      } else {
        SubsequenceWeaken(rest, assets);
      }
    }
  }

  /** Removal keeps the invariant: a subsequence of a valid ledger is valid. */
  lemma {:induction false} RemovePreservesInvariant(assets: seq<Asset>, id: string)
    requires LedgerInvariant(assets)
    ensures LedgerInvariant(Remove(assets, id))
  {
    if assets != [] {
      RemovePreservesInvariant(assets[1..], id);
      RemoveMembers(assets[1..], id);
      var rest := Remove(assets[1..], id);
      if assets[0].id != id {
        var r := [assets[0]] + rest;
        forall j | 0 < j < |r| ensures r[0].id != r[j].id {
          assert r[j] in rest;
        }
      }
    }
  }

  /** After removal no entry carries the id. */
  lemma {:induction false} RemoveLeavesNoEntry(assets: seq<Asset>, id: string)
    ensures !HasId(Remove(assets, id), id)
  {
    if assets != [] {
      RemoveLeavesNoEntry(assets[1..], id);
      var rest := Remove(assets[1..], id);
      if assets[0].id != id {
        var r := [assets[0]] + rest;
        forall i | 0 <= i < |r| ensures r[i].id != id {
          if i > 0 { assert r[i] == rest[i - 1]; }
        }
      }
    }
  }

  /** Buying back a removed coin starts afresh: no residual averaging from the old entry. */
  lemma AddAfterRemove(assets: seq<Asset>, quotes: seq<Quote>, coinId: string,
                       quantityText: string, priceText: string)
    requires LedgerInvariant(assets)
    requires coinId != "" && quantityText != "" && priceText != ""
    requires FindQuote(quotes, coinId).Some? && ParseAmounts(quantityText, priceText).Some?
    ensures LedgerInvariant(Remove(assets, coinId))
    ensures var kept := Remove(assets, coinId);
            var (q, p) := ParseAmounts(quantityText, priceText).value;
            AddPurchase(kept, quotes, coinId, quantityText, priceText)
              == Added(kept + [NewAsset(FindQuote(quotes, coinId).value, q, p)])
  {
    var kept := Remove(assets, coinId);
    RemoveLeavesNoEntry(assets, coinId);
    RemovePreservesInvariant(assets, coinId);
    AddPurchaseAppendsWith(kept, quotes, coinId, quantityText, priceText, FindQuote(quotes, coinId).value);
  }

  // ---------------------------------------------------------------------------
  // Revaluation (the body of updatePrices)
  // ---------------------------------------------------------------------------

  /**
   * `new Map(data.map(coin => [coin.id, coin.current_price]))`: every listed id, with the
   * price of its last entry (a later duplicate overwrites an earlier one).
   */
  function PriceMap(data: seq<Quote>): (m: map<string, real>)
    ensures forall id :: id in m <==> exists i :: 0 <= i < |data| && data[i].id == id
    ensures forall i :: 0 <= i < |data| && (forall j :: i < j < |data| ==> data[j].id != data[i].id)
                        ==> data[i].id in m && m[data[i].id] == data[i].currentPrice
  {
    if data == [] then map[]
    else
      var prefix, last := data[..|data| - 1], data[|data| - 1];
      assert data == prefix + [last];
      var prev := PriceMap(prefix);
      PriceMapStep(prefix, last, prev);
      prev[last.id := last.currentPrice]
  }

  /** The inductive step of PriceMap: the last entry is written over the map of the others. */
  lemma PriceMapStep(prefix: seq<Quote>, last: Quote, prev: map<string, real>)
    requires forall id :: id in prev <==> exists i :: 0 <= i < |prefix| && prefix[i].id == id
    requires forall i :: 0 <= i < |prefix| && (forall j :: i < j < |prefix| ==> prefix[j].id != prefix[i].id)
                         ==> prefix[i].id in prev && prev[prefix[i].id] == prefix[i].currentPrice
    ensures var data, m := prefix + [last], prev[last.id := last.currentPrice];
            && (forall id :: id in m <==> exists i :: 0 <= i < |data| && data[i].id == id)
            && (forall i :: 0 <= i < |data| && (forall j :: i < j < |data| ==> data[j].id != data[i].id)
                            ==> data[i].id in m && m[data[i].id] == data[i].currentPrice)
  {
    var data, m := prefix + [last], prev[last.id := last.currentPrice];
    var n := |prefix|;
    forall id ensures id in m <==> exists i :: 0 <= i < |data| && data[i].id == id {
      if id == last.id {
        assert data[n].id == id;
      } else if id in prev {
        var i :| 0 <= i < n && prefix[i].id == id;
        assert data[i].id == id;
      } else {
        forall i | 0 <= i < |data| ensures data[i].id != id {
          if i < n { assert data[i] == prefix[i]; }
        }
      }
    }
    forall i | 0 <= i < |data| && (forall j :: i < j < |data| ==> data[j].id != data[i].id)
      ensures data[i].id in m && m[data[i].id] == data[i].currentPrice
    {
      if i < n {
        assert data[i] == prefix[i];
        assert data[n] == last;
        forall j | i < j < n ensures prefix[j].id != prefix[i].id {
          assert data[j] == prefix[j];
        }
      }
    }
  }

  /** `priceMap.get(asset.id) || asset.currentPrice`: a missing or zero price keeps the cached one. */
  function QuotedPrice(prices: map<string, real>, a: Asset): real
  {
    if a.id in prices && prices[a.id] != 0.0 then prices[a.id] else a.currentPrice
  }

  /** One entry revalued: only the current price and the fields derived from it change. */
  function RevalueAsset(a: Asset, prices: map<string, real>): (r: Asset)
    requires a.purchasePrice != 0.0
    ensures r.id == a.id && r.name == a.name && r.symbol == a.symbol && r.image == a.image
    ensures r.quantity == a.quantity && r.purchasePrice == a.purchasePrice
    ensures a.id in prices && prices[a.id] != 0.0 ==> r.currentPrice == prices[a.id]
    ensures !(a.id in prices && prices[a.id] != 0.0) ==> r.currentPrice == a.currentPrice
    ensures Consistent(r)
  {
    var currentPrice := QuotedPrice(prices, a);
    var value := a.quantity * currentPrice;
    a.(currentPrice := currentPrice,
       value := value,
       profit := value - a.quantity * a.purchasePrice,
       profitPercentage := ProfitPercentage(currentPrice, a.purchasePrice))
  }

  ghost predicate NonZeroCost(assets: seq<Asset>)
  {
    forall i :: 0 <= i < |assets| ==> assets[i].purchasePrice != 0.0
  }

  /** `assets.map(...)`: every entry revalued, in place and in order. */
  function Revalue(assets: seq<Asset>, prices: map<string, real>): (r: seq<Asset>)
    requires NonZeroCost(assets)
    ensures |r| == |assets|
    ensures forall i :: 0 <= i < |assets| ==> r[i] == RevalueAsset(assets[i], prices)
  {
    if assets == [] then [] else [RevalueAsset(assets[0], prices)] + Revalue(assets[1..], prices)
  }

  /** Revaluing twice with the same prices is revaluing once. */
  lemma RevalueIdempotent(assets: seq<Asset>, prices: map<string, real>)
    requires NonZeroCost(assets)
    ensures NonZeroCost(Revalue(assets, prices))
    ensures Revalue(Revalue(assets, prices), prices) == Revalue(assets, prices)
  {
    var once := Revalue(assets, prices);
    forall i | 0 <= i < |assets| ensures RevalueAsset(once[i], prices) == once[i] {
      RevalueAssetIdempotent(assets[i], prices);
    }
  }

  lemma RevalueAssetIdempotent(a: Asset, prices: map<string, real>)
    requires a.purchasePrice != 0.0
    ensures RevalueAsset(RevalueAsset(a, prices), prices) == RevalueAsset(a, prices)
  {
  }

  /** Revaluation keeps ids, quantities and purchase prices, hence the invariant. */
  lemma RevaluePreservesInvariant(assets: seq<Asset>, prices: map<string, real>)
    requires LedgerInvariant(assets)
    ensures LedgerInvariant(Revalue(assets, prices))
  {
  }

  /** Removing and revaluing commute. */
  lemma {:induction false} RevalueRemoveCommute(assets: seq<Asset>, prices: map<string, real>, id: string)
    requires NonZeroCost(assets)
    ensures NonZeroCost(Remove(assets, id))
    ensures Revalue(Remove(assets, id), prices) == Remove(Revalue(assets, prices), id)
  {
    var kept := Remove(assets, id);
    RemoveMembers(assets, id);
    assert NonZeroCost(kept) by {
      forall i | 0 <= i < |kept| ensures kept[i].purchasePrice != 0.0 {
        assert kept[i] in assets;
      }
    }
    if assets != [] {
      RevalueRemoveCommute(assets[1..], prices, id);
      assert Revalue(assets, prices)[1..] == Revalue(assets[1..], prices);
    }
  }

  // ---------------------------------------------------------------------------
  // Totals
  // ---------------------------------------------------------------------------

  /** `assets.reduce((sum, asset) => sum + asset.value, 0)`. */
  function SumValue(assets: seq<Asset>): real
  {
    if assets == [] then 0.0 else assets[0].value + SumValue(assets[1..])
  }

  /** `assets.reduce((sum, asset) => sum + asset.profit, 0)`. */
  function SumProfit(assets: seq<Asset>): real
  {
    if assets == [] then 0.0 else assets[0].profit + SumProfit(assets[1..])
  }

  /** What the holdings cost: the sum of quantity times average purchase price. */
  function CostBasis(assets: seq<Asset>): real
  {
    if assets == [] then 0.0 else assets[0].quantity * assets[0].purchasePrice + CostBasis(assets[1..])
  }

  /** Over consistent entries the total profit is the total value less the cost basis. */
  lemma {:induction false} TotalProfitIsValueLessCost(assets: seq<Asset>)
    requires forall i :: 0 <= i < |assets| ==> Consistent(assets[i])
    ensures SumProfit(assets) == SumValue(assets) - CostBasis(assets)
  {
    if assets != [] {
      TotalProfitIsValueLessCost(assets[1..]);
    }
  }

  /** A removed coin contributes nothing to the totals any more. */
  lemma {:induction false} RemoveDropsValue(assets: seq<Asset>, k: nat)
    requires UniqueIds(assets) && k < |assets|
    ensures SumValue(Remove(assets, assets[k].id)) == SumValue(assets) - assets[k].value
    ensures SumProfit(Remove(assets, assets[k].id)) == SumProfit(assets) - assets[k].profit
  {
    var id := assets[k].id;
    if k == 0 {
      forall j | 0 <= j < |assets[1..]| ensures assets[1..][j].id != id {
        assert assets[1..][j] == assets[j + 1];
      }
      RemoveMembers(assets[1..], id);
    } else {
      RemoveDropsValue(assets[1..], k - 1);
      assert assets[1..][k - 1] == assets[k];
    }
  }

  /** The worked example: four coins at 150, quoted at 180, are worth 720 at a 120 profit (20%). */
  lemma RevalueExample(a: Asset)
    requires a.id == "x" && a.quantity == 4.0 && a.purchasePrice == 150.0
    ensures var r := RevalueAsset(a, map["x" := 180.0]);
            r.value == 720.0 && r.profit == 120.0 && r.profitPercentage == 20.0
  {
  }

  // ---------------------------------------------------------------------------
  // The component's state
  // ---------------------------------------------------------------------------

  /**
   * The `assets`, `cryptocurrencies`, `totalValue` and `totalProfit` state of the
   * Portfolio component. Network responses are passed in; `None` is a failed fetch.
   */
  class Ledger {
    var assets: seq<Asset>
    var cryptocurrencies: seq<Quote>
    var totalValue: real
    var totalProfit: real

    ghost predicate Valid()
      reads this
    {
      LedgerInvariant(assets)
    }

    /** Mounting with the stored portfolio (the empty list when nothing is stored). */
    constructor(saved: seq<Asset>)
      requires LedgerInvariant(saved)
      ensures Valid()
      ensures assets == saved && cryptocurrencies == [] && totalValue == 0.0 && totalProfit == 0.0
    {
      assets := saved;
      cryptocurrencies := [];
      totalValue := 0.0;
      totalProfit := 0.0;
    }

    /** The listing fetched for the coin picker; a failed fetch keeps the old one. */
    method ReceiveListing(fetched: Option<seq<Quote>>)
      requires Valid()
      modifies this`cryptocurrencies
      ensures Valid()
      ensures cryptocurrencies == if fetched.Some? then fetched.value else old(cryptocurrencies)
    {
      if fetched.Some? {
        cryptocurrencies := fetched.value;
      }
    }

    /**
     * handleAddAsset, step by step: three early refusals, then the entry with the
     * coin's id is overwritten in a copy of the list, or a new entry is appended.
     * A refused purchase leaves the assets as they were.
     */
    method AddAsset(coinId: string, quantityText: string, priceText: string) returns (result: AddResult)
      requires Valid()
      modifies this`assets
      ensures Valid()
      ensures result == AddPurchase(old(assets), cryptocurrencies, coinId, quantityText, priceText)
      ensures assets == if result.Rejected? then old(assets) else result.assets
    {
      AddPurchasePreservesInvariant(assets, cryptocurrencies, coinId, quantityText, priceText);
      if coinId == "" || quantityText == "" || priceText == "" {
        return Rejected(MissingInformation);
      }
      var selected := FindQuote(cryptocurrencies, coinId);
      if selected.None? {
        return Rejected(NotFound);
      }
      var quantity := ParseFloat(quantityText);
      var price := ParseFloat(priceText);
      if quantity.None? || price.None? || quantity.value <= 0.0 || price.value <= 0.0 {
        return Rejected(InvalidInput);
      }
      var existing := FindIndex(assets, coinId);
      if existing != -1 {
        var updated := assets;
        updated := updated[existing := MergePurchase(updated[existing], quantity.value, price.value)];
        assets := updated;
        result := Updated(updated);
      } else {
        assets := assets + [NewAsset(selected.value, quantity.value, price.value)];
        result := Added(assets);
      }
    }

    /** handleRemoveAsset. */
    method RemoveAsset(id: string)
      requires Valid()
      modifies this`assets
      ensures Valid()
      ensures assets == Remove(old(assets), id)
    {
      RemovePreservesInvariant(assets, id);
      assets := Remove(assets, id);
    }

    /**
     * updatePrices: an empty portfolio zeroes the totals without fetching; otherwise
     * a successful response revalues every entry and recomputes both totals, and a
     * failed one changes nothing.
     */
    method UpdatePrices(fetched: Option<seq<Quote>>)
      requires Valid()
      modifies this`assets, this`totalValue, this`totalProfit
      ensures Valid()
      ensures old(assets) == [] ==> assets == [] && totalValue == 0.0 && totalProfit == 0.0
      ensures old(assets) != [] && fetched.None? ==>
                assets == old(assets) && totalValue == old(totalValue) && totalProfit == old(totalProfit)
      ensures old(assets) != [] && fetched.Some? ==>
                && assets == Revalue(old(assets), PriceMap(fetched.value))
                && totalValue == SumValue(assets)
                && totalProfit == SumProfit(assets)
    {
      if |assets| == 0 {
        totalValue := 0.0;
        totalProfit := 0.0;
        return;
      }
      if fetched.Some? {
        RevaluePreservesInvariant(assets, PriceMap(fetched.value));
        var updated := Revalue(assets, PriceMap(fetched.value));
        assets := updated;
        totalValue := SumValue(updated);
        totalProfit := SumProfit(updated);
      }
    }
  }
}
