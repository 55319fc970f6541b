/**
 * The view logic of the market table in src/components/CryptoTable.tsx: the search
 * filter over the latest market snapshot, the three-way comparator and the stable
 * sort it drives, the sort-column toggle, and the list of favourite coin ids.
 */
module CryptoTable {
  import opened Wrappers
  import opened JsText
  import opened Sequences

  /** One row of the market snapshot. */
  datatype Cryptocurrency = Cryptocurrency(
    id: string,
    name: string,
    symbol: string,
    image: string,
    currentPrice: real,
    priceChangePercentage24h: real,
    marketCap: real,
    totalVolume: real,
    circulatingSupply: real,
    marketCapRank: int)

  /** The numeric columns a sort can be requested on. */
  datatype SortKey =
    | CurrentPrice
    | PriceChangePercentage24h
    | MarketCap
    | TotalVolume
    | CirculatingSupply
    | MarketCapRank

  datatype Direction = Asc | Desc

  /** The sort column (`None` for no column) and its direction. */
  datatype SortConfig = SortConfig(key: Option<SortKey>, direction: Direction)

  /** The state the table starts in: by market-cap rank, ascending. */
  function InitialSortConfig(): (r: SortConfig)
    ensures r.key == Some(MarketCapRank) && r.direction == Asc
  {
    SortConfig(Some(MarketCapRank), Asc)
  }

  function KeyValue(c: Cryptocurrency, key: SortKey): real
  {
    match key
    case CurrentPrice => c.currentPrice
    case PriceChangePercentage24h => c.priceChangePercentage24h
    case MarketCap => c.marketCap
    case TotalVolume => c.totalVolume
    case CirculatingSupply => c.circulatingSupply
    case MarketCapRank => c.marketCapRank as real
  }

  // ---------------------------------------------------------------------------
  // The comparator and the sort
  // ---------------------------------------------------------------------------

  /**
   * The comparator handed to `Array.prototype.sort`: for `Asc` it is negative exactly
   * when `a`'s key is smaller and positive exactly when it is larger; `Desc` swaps them.
   */
  function Compare(a: Cryptocurrency, b: Cryptocurrency, key: SortKey, dir: Direction): (r: int)
    ensures -1 <= r <= 1
    ensures dir == Asc ==> (r < 0 <==> KeyValue(a, key) < KeyValue(b, key))
    ensures dir == Asc ==> (r > 0 <==> KeyValue(a, key) > KeyValue(b, key))
    ensures dir == Desc ==> (r < 0 <==> KeyValue(a, key) > KeyValue(b, key))
    ensures dir == Desc ==> (r > 0 <==> KeyValue(a, key) < KeyValue(b, key))
    ensures r == 0 <==> KeyValue(a, key) == KeyValue(b, key)
  {
    if KeyValue(a, key) < KeyValue(b, key) then
      (if dir == Asc then -1 else 1)
    else if KeyValue(a, key) > KeyValue(b, key) then
      (if dir == Asc then 1 else -1)
    else
      0
  }

  /** Swapping the arguments negates the comparator. */
  lemma CompareAntisymmetric(a: Cryptocurrency, b: Cryptocurrency, key: SortKey, dir: Direction)
    ensures Compare(a, b, key, dir) == -Compare(b, a, key, dir)
  {
  }

  /** Every earlier element compares at most equal to every later one. */
  ghost predicate SortedBy(s: seq<Cryptocurrency>, key: SortKey, dir: Direction)
  {
    forall i, j :: 0 <= i < j < |s| ==> Compare(s[i], s[j], key, dir) <= 0
  }

  /** Sorted ascending means the key never decreases; descending means it never increases. */
  lemma SortedMonotone(s: seq<Cryptocurrency>, key: SortKey, dir: Direction)
    requires SortedBy(s, key, dir)
    ensures dir == Asc ==> forall i, j :: 0 <= i < j < |s| ==> KeyValue(s[i], key) <= KeyValue(s[j], key)
    ensures dir == Desc ==> forall i, j :: 0 <= i < j < |s| ==> KeyValue(s[i], key) >= KeyValue(s[j], key)
  {
  }

  /** Inserts `x` in front of the first element it does not compare above. */
  function Insert(x: Cryptocurrency, s: seq<Cryptocurrency>, key: SortKey, dir: Direction): (r: seq<Cryptocurrency>)
    ensures multiset(r) == multiset(s) + multiset{x}
    ensures |r| == |s| + 1
  {
    if s == [] || Compare(x, s[0], key, dir) <= 0 then
      [x] + s
    else
      assert s == [s[0]] + s[1..];
      [s[0]] + Insert(x, s[1..], key, dir)
  }

  /** `p` compares at most equal to every element of `t`. */
  ghost predicate AllAbove(p: Cryptocurrency, t: seq<Cryptocurrency>, key: SortKey, dir: Direction)
  {
    forall k :: 0 <= k < |t| ==> Compare(p, t[k], key, dir) <= 0
  }

  /** A head below a sorted tail gives a sorted list. */
  lemma SortedCons(h: Cryptocurrency, t: seq<Cryptocurrency>, key: SortKey, dir: Direction)
    requires AllAbove(h, t, key, dir) && SortedBy(t, key, dir)
    ensures SortedBy([h] + t, key, dir)
  {
    var r := [h] + t;
    forall i, j | 0 <= i < j < |r| ensures Compare(r[i], r[j], key, dir) <= 0 {
      assert r[j] == t[j - 1];
      if i > 0 {
        assert r[i] == t[i - 1];
      }
    }
  }

  /** In a sorted list the head is below the tail, and the tail is sorted. */
  lemma SortedUncons(s: seq<Cryptocurrency>, key: SortKey, dir: Direction)
    requires s != [] && SortedBy(s, key, dir)
    ensures AllAbove(s[0], s[1..], key, dir) && SortedBy(s[1..], key, dir)
  {
    var t := s[1..];
    forall k | 0 <= k < |t| ensures Compare(s[0], t[k], key, dir) <= 0 {
      assert t[k] == s[k + 1];
    }
    forall i, j | 0 <= i < j < |t| ensures Compare(t[i], t[j], key, dir) <= 0 {
      assert t[i] == s[i + 1] && t[j] == s[j + 1];
    }
  }

  /** Inserting an element above `p` into a list above `p` gives a list above `p`. */
  lemma {:induction false} InsertAllAbove(p: Cryptocurrency, x: Cryptocurrency, u: seq<Cryptocurrency>,
                                          key: SortKey, dir: Direction)
    requires AllAbove(p, u, key, dir) && Compare(p, x, key, dir) <= 0
    ensures AllAbove(p, Insert(x, u, key, dir), key, dir)
  {
    if u == [] || Compare(x, u[0], key, dir) <= 0 {
      var r := [x] + u;
      forall k | 0 <= k < |r| ensures Compare(p, r[k], key, dir) <= 0 {
        if k > 0 { assert r[k] == u[k - 1]; }
      }
    } else {
      assert AllAbove(p, u[1..], key, dir) by {
        forall k | 0 <= k < |u[1..]| ensures Compare(p, u[1..][k], key, dir) <= 0 {
          assert u[1..][k] == u[k + 1];
        }
      }
      InsertAllAbove(p, x, u[1..], key, dir);
      var t := Insert(x, u[1..], key, dir);
      var r := [u[0]] + t;
      forall k | 0 <= k < |r| ensures Compare(p, r[k], key, dir) <= 0 {
        if k > 0 { assert r[k] == t[k - 1]; }
      }
    }
  }

  /** Inserting into a sorted list keeps it sorted. */
  lemma {:induction false} InsertSorted(x: Cryptocurrency, s: seq<Cryptocurrency>, key: SortKey, dir: Direction)
    requires SortedBy(s, key, dir)
    ensures SortedBy(Insert(x, s, key, dir), key, dir)
  {
    if s == [] || Compare(x, s[0], key, dir) <= 0 {
      assert AllAbove(x, s, key, dir) by {
        forall k | 0 <= k < |s| ensures Compare(x, s[k], key, dir) <= 0 {
          if k > 0 { assert Compare(s[0], s[k], key, dir) <= 0; }
        }
      }
      SortedCons(x, s, key, dir);
    } else {
      SortedUncons(s, key, dir);
      InsertSorted(x, s[1..], key, dir);
      InsertAllAbove(s[0], x, s[1..], key, dir);
      SortedCons(s[0], Insert(x, s[1..], key, dir), key, dir);
    }
  }

  /**
   * The sort of the visible list: a stable insertion sort, which is what a stable
   * `Array.prototype.sort` with this comparator returns.
   */
  function SortBy(s: seq<Cryptocurrency>, key: SortKey, dir: Direction): (r: seq<Cryptocurrency>)
    ensures multiset(r) == multiset(s) && |r| == |s|
    ensures SortedBy(r, key, dir)
  {
    if s == [] then
      []
    else
      assert s == [s[0]] + s[1..];
      InsertSorted(s[0], SortBy(s[1..], key, dir), key, dir);
      Insert(s[0], SortBy(s[1..], key, dir), key, dir)
  }

  /** The elements of `s` whose key is `v`, in their order in `s`. */
  function WithKey(s: seq<Cryptocurrency>, key: SortKey, v: real): seq<Cryptocurrency>
  {
    if s == [] then []
    else (if KeyValue(s[0], key) == v then [s[0]] else []) + WithKey(s[1..], key, v)
  }

  lemma WithKeyCons(c: Cryptocurrency, t: seq<Cryptocurrency>, key: SortKey, v: real)
    ensures WithKey([c] + t, key, v) == (if KeyValue(c, key) == v then [c] else []) + WithKey(t, key, v)
  {
    assert ([c] + t)[1..] == t;
  }

  /** One step of the stability proof: `x` moves past an element of another key. */
  lemma InsertStableStep(x: Cryptocurrency, s: seq<Cryptocurrency>, key: SortKey, dir: Direction, v: real)
    requires s != [] && Compare(x, s[0], key, dir) > 0
    requires WithKey(Insert(x, s[1..], key, dir), key, v)
             == (if KeyValue(x, key) == v then [x] else []) + WithKey(s[1..], key, v)
    ensures WithKey(Insert(x, s, key, dir), key, v)
            == (if KeyValue(x, key) == v then [x] else []) + WithKey(s, key, v)
  {
    var t := Insert(x, s[1..], key, dir);
    var rest := WithKey(s[1..], key, v);
    assert Insert(x, s, key, dir) == [s[0]] + t;
    WithKeyCons(s[0], t, key, v);
    assert WithKey(s, key, v) == (if KeyValue(s[0], key) == v then [s[0]] else []) + rest;
    if KeyValue(x, key) == v {
      assert KeyValue(s[0], key) != v;
      assert WithKey(s, key, v) == rest;
      assert WithKey([s[0]] + t, key, v) == [x] + rest;
    } else {
      assert WithKey(t, key, v) == rest;
    }
  }

  lemma {:induction false} InsertStable(x: Cryptocurrency, s: seq<Cryptocurrency>, key: SortKey, dir: Direction, v: real)
    ensures WithKey(Insert(x, s, key, dir), key, v)
            == (if KeyValue(x, key) == v then [x] else []) + WithKey(s, key, v)
    decreases |s|
  {
    if s == [] || Compare(x, s[0], key, dir) <= 0 {
      WithKeyCons(x, s, key, v);
    } else {
      InsertStable(x, s[1..], key, dir, v);
      InsertStableStep(x, s, key, dir, v);
    }
  }

  /** Stability: elements with equal keys keep their relative order. */
  lemma {:induction false} SortStable(s: seq<Cryptocurrency>, key: SortKey, dir: Direction, v: real)
    ensures WithKey(SortBy(s, key, dir), key, v) == WithKey(s, key, v)
  {
    if s != [] {
      SortStable(s[1..], key, dir, v);
      InsertStable(s[0], SortBy(s[1..], key, dir), key, dir, v);
    }
  }

  /** The sort effect: with no column chosen the list is left as it is. */
  function SortEffect(s: seq<Cryptocurrency>, config: SortConfig): (r: seq<Cryptocurrency>)
    ensures multiset(r) == multiset(s) && |r| == |s|
    ensures config.key.None? ==> r == s
    ensures config.key.Some? ==> SortedBy(r, config.key.value, config.direction)
  {
    if config.key.Some? then SortBy(s, config.key.value, config.direction) else s
  }

  // ---------------------------------------------------------------------------
  // The search filter
  // ---------------------------------------------------------------------------

  /** The lower-cased name or symbol contains the lower-cased term. */
  predicate MatchesTerm(c: Cryptocurrency, term: string)
  {
    Includes(ToLower(c.name), ToLower(term)) || Includes(ToLower(c.symbol), ToLower(term))
  }

  function FilterByTerm(s: seq<Cryptocurrency>, term: string): (r: seq<Cryptocurrency>)
    ensures forall c :: multiset(r)[c] == if MatchesTerm(c, term) then multiset(s)[c] else 0
    ensures forall c :: c in r <==> c in s && MatchesTerm(c, term)
    ensures |r| <= |s|
    ensures IsSubsequence(r, s)
  {
    if s == [] then
      []
    else
      var rest := FilterByTerm(s[1..], term);
      FilterStep(s, rest, c => MatchesTerm(c, term));
      if MatchesTerm(s[0], term) then [s[0]] + rest else rest
  }

  /** Filtering a filtered list with the same term changes nothing. */
  lemma {:induction false} FilterByTermIdempotent(s: seq<Cryptocurrency>, term: string)
    ensures FilterByTerm(FilterByTerm(s, term), term) == FilterByTerm(s, term)
  {
    if s != [] {
      FilterByTermIdempotent(s[1..], term);
      var rest := FilterByTerm(s[1..], term);
      if MatchesTerm(s[0], term) {
        assert ([s[0]] + rest)[1..] == rest;
      }
    }
  }

  /** The filter effect: a term that is blank after trimming shows the whole snapshot. */
  function ApplySearch(snapshot: seq<Cryptocurrency>, term: string): (r: seq<Cryptocurrency>)
    ensures IsSubsequence(r, snapshot)
    ensures Trim(term) != [] ==> forall c :: c in r <==> c in snapshot && MatchesTerm(c, term)
    ensures Trim(term) != [] ==>
              forall c :: multiset(r)[c] == if MatchesTerm(c, term) then multiset(snapshot)[c] else 0
  {
    if Trim(term) == [] then
      SubsequenceReflexive(snapshot);
      snapshot
    else
      FilterByTerm(snapshot, term)
  }

  /** A term of white space only (the empty term included) leaves the snapshot as it is. */
  lemma BlankTermShowsSnapshot(snapshot: seq<Cryptocurrency>, term: string)
    requires forall i :: 0 <= i < |term| ==> IsJsWhitespace(term[i])
    ensures ApplySearch(snapshot, term) == snapshot
  {
    TrimEmptyIff(term);
  }

  /**
   * The filter does not trim a term that is not blank: with a leading space it
   * misses every entry whose name and symbol have no white space.
   */
  lemma PaddedTermMatchesNothing(c: Cryptocurrency, term: string)
    requires |term| > 0 && IsJsWhitespace(term[0]) && Trim(term) != []
    requires forall i :: 0 <= i < |c.name| ==> !IsJsWhitespace(c.name[i])
    requires forall i :: 0 <= i < |c.symbol| ==> !IsJsWhitespace(c.symbol[i])
    ensures c !in ApplySearch([c], term)
  {
    PaddedNeedleNotIncluded(c.name, term);
    PaddedNeedleNotIncluded(c.symbol, term);
  }

  /** Searching the search result again with the same term changes nothing. */
  lemma ApplySearchIdempotent(snapshot: seq<Cryptocurrency>, term: string)
    ensures ApplySearch(ApplySearch(snapshot, term), term) == ApplySearch(snapshot, term)
  {
    if Trim(term) != [] {
      FilterByTermIdempotent(snapshot, term);
    }
  }

  // ---------------------------------------------------------------------------
  // The sort-column toggle
  // ---------------------------------------------------------------------------

  /** `requestSort`: descending exactly when the same column is clicked while ascending. */
  function NextSortConfig(config: SortConfig, key: SortKey): (r: SortConfig)
    ensures r.key == Some(key)
    ensures r.direction == Desc <==> config.key == Some(key) && config.direction == Asc
  {
    if config.key == Some(key) && config.direction == Asc then SortConfig(Some(key), Desc)
    else SortConfig(Some(key), Asc)
  }

  function Flip(d: Direction): Direction
  {
    if d == Asc then Desc else Asc
  }

  /** `requestSort(key)` called `n` times in a row. */
  function RequestSortTimes(config: SortConfig, key: SortKey, n: nat): (r: SortConfig)
    ensures n > 0 ==> r.key == Some(key)
  {
    if n == 0 then config else NextSortConfig(RequestSortTimes(config, key, n - 1), key)
  }

  /** Clicking the same column again always flips the direction. */
  lemma SameColumnAlternates(config: SortConfig, key: SortKey)
    ensures NextSortConfig(NextSortConfig(config, key), key).direction == Flip(NextSortConfig(config, key).direction)
  {
  }

  /** After the first click, odd and even numbers of clicks alternate the direction. */
  lemma {:induction false} RequestSortParity(config: SortConfig, key: SortKey, n: nat)
    requires n >= 1
    ensures var first := NextSortConfig(config, key).direction;
            RequestSortTimes(config, key, n).direction == if n % 2 == 1 then first else Flip(first)
  {
    if n > 1 {
      RequestSortParity(config, key, n - 1);
      SameColumnAlternates(RequestSortTimes(config, key, n - 2), key);
    }
  }

  /** From the initial state, clicking a column other than rank starts ascending. */
  lemma OtherColumnStartsAscending(key: SortKey)
    requires key != MarketCapRank
    ensures NextSortConfig(InitialSortConfig(), key) == SortConfig(Some(key), Asc)
  {
  }

  /** From the initial state, clicking rank switches to descending. */
  lemma RankColumnTurnsDescending()
    ensures NextSortConfig(InitialSortConfig(), MarketCapRank) == SortConfig(Some(MarketCapRank), Desc)
  {
  }

  // ---------------------------------------------------------------------------
  // Favourites
  // ---------------------------------------------------------------------------

  /** `favorites.filter(favId => favId !== id)`. */
  function Without(s: seq<string>, id: string): seq<string>
  {
    if s == [] then []
    else if s[0] != id then [s[0]] + Without(s[1..], id)
    else Without(s[1..], id)
  }

  /**
   * The filter keeps exactly the other ids, as a subsequence in their order; with the
   * id absent it is the list itself.
   */
  lemma {:induction false} WithoutMembers(s: seq<string>, id: string)
    ensures forall x :: x in Without(s, id) <==> x in s && x != id
    ensures forall x :: multiset(Without(s, id))[x] == if x != id then multiset(s)[x] else 0
    ensures IsSubsequence(Without(s, id), s)
    ensures id !in s ==> Without(s, id) == s
  {
    if s != [] {
      var rest := Without(s[1..], id);
      WithoutMembers(s[1..], id);
      assert s == [s[0]] + s[1..];
      if s[0] != id {
        assert ([s[0]] + rest)[1..] == rest;
      } else {
        SubsequenceWeaken(rest, s);
      }
    }
  }

  /** One step of the filter: the head is kept unless it is the id. */
  lemma WithoutCons(c: string, t: seq<string>, id: string)
    ensures Without([c] + t, id) == (if c != id then [c] else []) + Without(t, id)
  {
    assert ([c] + t)[0] == c && ([c] + t)[1..] == t;
  }

  lemma {:induction false} WithoutConcat(a: seq<string>, b: seq<string>, id: string)
    ensures Without(a + b, id) == Without(a, id) + Without(b, id)
  {
    if a == [] {
      assert a + b == b;
    } else {
      var c, rest := a[0], a[1..];
      assert a == [c] + rest;
      assert a + b == [c] + (rest + b);
      WithoutCons(c, rest + b, id);
      WithoutCons(c, rest, id);
      WithoutConcat(rest, b, id);
      var head := if c != id then [c] else [];
      assert head + (Without(rest, id) + Without(b, id)) == (head + Without(rest, id)) + Without(b, id);
    }
  }

  /**
   * `toggleFavorite`: a present id is removed everywhere, an absent one appended.
   * Either way its membership flips and the other ids keep their order.
   */
  function ToggleFavorite(favorites: seq<string>, id: string): (r: seq<string>)
    ensures id in r <==> id !in favorites
    ensures forall x :: x != id ==> (x in r <==> x in favorites)
    ensures Without(r, id) == Without(favorites, id)
    ensures id !in favorites ==> r == favorites + [id]
  {
    WithoutMembers(favorites, id);
    if id in favorites then
      WithoutMembers(Without(favorites, id), id);
      Without(favorites, id)
    else
      WithoutConcat(favorites, [id], id);
      assert Without([id], id) == [];
      favorites + [id]
  }

  /** Toggling the same id twice gives back the same set of favourites. */
  lemma ToggleTwiceSameSet(favorites: seq<string>, id: string)
    ensures forall x :: x in ToggleFavorite(ToggleFavorite(favorites, id), id) <==> x in favorites
  {
  }

  /** Starting from an id that is not a favourite, toggling twice restores the list exactly. */
  lemma ToggleTwiceAbsent(favorites: seq<string>, id: string)
    requires id !in favorites
    ensures ToggleFavorite(ToggleFavorite(favorites, id), id) == favorites
  {
    WithoutConcat(favorites, [id], id);
    WithoutMembers(favorites, id);
    assert Without([id], id) == [];
  }

  /** Starting from a favourite that occurs twice, toggling twice keeps only one copy. */
  lemma ToggleTwiceDuplicate()
    ensures ToggleFavorite(ToggleFavorite(["btc", "btc"], "btc"), "btc") == ["btc"]
  {
    assert Without(["btc"], "btc") == [];
    assert Without(["btc", "btc"], "btc") == [];
  }

  // ---------------------------------------------------------------------------
  // The component state
  // ---------------------------------------------------------------------------

  /**
   * The state of the market table. Only a sort request sorts: a new snapshot or a
   * new search term shows the search result in snapshot order.
   */
  class MarketTable {
    var cryptocurrencies: seq<Cryptocurrency>
    var filtered: seq<Cryptocurrency>
    var searchTerm: string
    var favorites: seq<string>
    var sortConfig: SortConfig

    /** The visible list always holds the search result, in some order. */
    ghost predicate Valid()
      reads this
    {
      multiset(filtered) == multiset(ApplySearch(cryptocurrencies, searchTerm))
    }

    /** Mounting, with the favourites stored earlier (the empty list when none are). */
    constructor(savedFavorites: seq<string>)
      ensures Valid()
      ensures cryptocurrencies == [] && filtered == [] && searchTerm == ""
      ensures favorites == savedFavorites && sortConfig == InitialSortConfig()
    {
      cryptocurrencies := [];
      filtered := [];
      searchTerm := "";
      favorites := savedFavorites;
      sortConfig := InitialSortConfig();
    }

    /** A fetched snapshot replaces the data and shows its search result unsorted; a failed fetch changes nothing. */
    method ReceiveSnapshot(fetched: Option<seq<Cryptocurrency>>)
      requires Valid()
      modifies this`cryptocurrencies, this`filtered
      ensures Valid()
      ensures fetched.Some? ==>
                cryptocurrencies == fetched.value && filtered == ApplySearch(fetched.value, searchTerm)
      ensures fetched.None? ==> cryptocurrencies == old(cryptocurrencies) && filtered == old(filtered)
    {
      if fetched.Some? {
        cryptocurrencies := fetched.value;
        filtered := ApplySearch(fetched.value, searchTerm);
      }
    }

    /** Typing in the search box; the same term again does not re-run the filter. */
    method SetSearchTerm(term: string)
      requires Valid()
      modifies this`searchTerm, this`filtered
      ensures Valid()
      ensures searchTerm == term
      ensures filtered == if term == old(searchTerm) then old(filtered) else ApplySearch(cryptocurrencies, term)
    {
      if term != searchTerm {
        searchTerm := term;
        filtered := ApplySearch(cryptocurrencies, term);
      }
    }

    /** Clicking a sortable column header: toggle the configuration, then sort the visible list. */
    method RequestSort(key: SortKey)
      requires Valid()
      modifies this`sortConfig, this`filtered
      ensures Valid()
      ensures sortConfig == NextSortConfig(old(sortConfig), key)
      ensures filtered == SortBy(old(filtered), key, sortConfig.direction)
    {
      sortConfig := NextSortConfig(sortConfig, key);
      filtered := SortEffect(filtered, sortConfig);
    }

    /** Clicking a row's star. */
    method ToggleFavoriteId(id: string)
      requires Valid()
      modifies this`favorites
      ensures Valid()
      ensures favorites == ToggleFavorite(old(favorites), id)
    {
      favorites := ToggleFavorite(favorites, id);
    }
  }

  // ---------------------------------------------------------------------------
  // Examples
  // ---------------------------------------------------------------------------

  function Coin(id: string, rank: int): Cryptocurrency
  {
    Cryptocurrency(id, id, id, "", 1.0, 0.0, 1.0, 1.0, 1.0, rank)
  }

  /**
   * A snapshot arriving in the API's order is shown in that order, even when the
   * sort configuration says otherwise: the filter effect does not sort.
   */
  lemma SnapshotIsNotResorted()
    ensures var data := [Coin("b", 2), Coin("a", 1)];
            && ApplySearch(data, "") == data
            && !SortedBy(data, MarketCapRank, Asc)
  {
    var data := [Coin("b", 2), Coin("a", 1)];
    assert Trim("") == [];
    assert Compare(data[0], data[1], MarketCapRank, Asc) == 1;
  }

  lemma InsertBeforeEqual(x: Cryptocurrency, z: Cryptocurrency)
    requires x.marketCapRank == z.marketCapRank
    ensures Insert(x, [z], MarketCapRank, Asc) == [x, z]
  {
  }

  lemma SortSingle(z: Cryptocurrency)
    ensures SortBy([z], MarketCapRank, Asc) == [z]
  {
    assert [z][1..] == [];
  }

  lemma SortSortedPair(y: Cryptocurrency, z: Cryptocurrency)
    requires y.marketCapRank < z.marketCapRank
    ensures SortBy([y, z], MarketCapRank, Asc) == [y, z]
  {
    assert [y, z][1..] == [z];
    SortSingle(z);
  }

  lemma InsertAfterSmaller(x: Cryptocurrency, y: Cryptocurrency, z: Cryptocurrency)
    requires y.marketCapRank < x.marketCapRank == z.marketCapRank
    ensures Insert(x, [y, z], MarketCapRank, Asc) == [y, x, z]
  {
    assert [y, z][1..] == [z];
    InsertBeforeEqual(x, z);
  }

  /** Two coins of equal rank stay in snapshot order; the higher-ranked one goes first. */
  lemma SortExample()
    ensures SortBy([Coin("x", 2), Coin("y", 1), Coin("z", 2)], MarketCapRank, Asc)
            == [Coin("y", 1), Coin("x", 2), Coin("z", 2)]
  {
    var x, y, z := Coin("x", 2), Coin("y", 1), Coin("z", 2);
    assert [x, y, z][1..] == [y, z];
    SortSortedPair(y, z);
    InsertAfterSmaller(x, y, z);
  }
}
