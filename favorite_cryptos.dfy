/**
 * The favourites card of src/components/crypto/FavoriteCryptos.tsx: the market
 * entries whose id is among the favourite ids, and the empty-state message.
 */
module FavoriteCryptos {
  import opened Sequences
  import opened CryptoTable

  /** `cryptocurrencies.filter(crypto => favorites.includes(crypto.id))`. */
  function FavoriteEntries(favorites: seq<string>, cryptos: seq<Cryptocurrency>): (r: seq<Cryptocurrency>)
    ensures forall c :: c in r <==> c in cryptos && c.id in favorites
    ensures forall c :: multiset(r)[c] == if c.id in favorites then multiset(cryptos)[c] else 0
    ensures IsSubsequence(r, cryptos)
    ensures |r| <= |cryptos|
    ensures favorites == [] ==> r == []
  {
    if cryptos == [] then
      []
    else
      var rest := FavoriteEntries(favorites, cryptos[1..]);
      FilterStep(cryptos, rest, (c: Cryptocurrency) => c.id in favorites);
      if cryptos[0].id in favorites then [cryptos[0]] + rest else rest
  }

  /** What the card shows: the hint when there are no favourite ids, the list otherwise. */
  datatype FavoritesView = NoFavoritesMessage | Listing(entries: seq<Cryptocurrency>)

  /** The message is chosen by the favourite ids alone, not by what the filter finds. */
  function Render(favorites: seq<string>, cryptos: seq<Cryptocurrency>): (v: FavoritesView)
    ensures v.NoFavoritesMessage? <==> favorites == []
    ensures v.Listing? ==> v.entries == FavoriteEntries(favorites, cryptos)
  {
    if |favorites| == 0 then NoFavoritesMessage else Listing(FavoriteEntries(favorites, cryptos))
  }

  /** The result depends only on which ids are favourites, not on their order or repetition. */
  lemma {:induction false} FavoriteEntriesBySet(f: seq<string>, g: seq<string>, cryptos: seq<Cryptocurrency>)
    requires forall x :: x in f <==> x in g
    ensures FavoriteEntries(f, cryptos) == FavoriteEntries(g, cryptos)
  {
    if cryptos != [] {
      FavoriteEntriesBySet(f, g, cryptos[1..]);
    }
  }

  /** After a star is toggled, the card gains or loses exactly that coin's entries. */
  lemma FavoritesAfterToggle(favorites: seq<string>, id: string, cryptos: seq<Cryptocurrency>)
    ensures forall c :: c in FavoriteEntries(ToggleFavorite(favorites, id), cryptos)
                        <==> c in cryptos && (if c.id == id then id !in favorites else c.id in favorites)
  {
  }

  /** Toggling the same star twice gives back the same card, even when the id was stored twice. */
  lemma ToggleTwiceSameEntries(favorites: seq<string>, id: string, cryptos: seq<Cryptocurrency>)
    ensures FavoriteEntries(ToggleFavorite(ToggleFavorite(favorites, id), id), cryptos)
            == FavoriteEntries(favorites, cryptos)
  {
    ToggleTwiceSameSet(favorites, id);
    FavoriteEntriesBySet(ToggleFavorite(ToggleFavorite(favorites, id), id), favorites, cryptos);
  }

  /** A favourite id that is not in the market data leaves an empty list, not the message. */
  lemma UnknownFavoriteShowsEmptyList()
    ensures Render(["gone"], [Coin("btc", 1)]) == Listing([])
  {
    var c := Coin("btc", 1);
    assert [c][1..] == [];
    assert "btc" != "gone";
  }

  /** Entries come in market order, not in the order the ids were starred. */
  lemma EntriesFollowMarketOrder()
    ensures FavoriteEntries(["eth", "btc"], [Coin("btc", 1), Coin("eth", 2)]) == [Coin("btc", 1), Coin("eth", 2)]
  {
    var b, e := Coin("btc", 1), Coin("eth", 2);
    assert [b, e][1..] == [e];
    assert [e][1..] == [];
    assert "btc" in ["eth", "btc"] && "eth" in ["eth", "btc"];
  }
}
