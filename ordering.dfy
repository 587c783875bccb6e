/** The favourite-first order of the dashboard table: the comparator passed to
    `newData.sort`, the rank it induces, and the result of the (stable) sort. */
module Ordering {
  import opened JsValues
  import opened Universe
  import opened Rows
  import opened StableSort

  /** `orderMap.get(symbol) || Infinity`: the universe index, except that an
      unknown symbol and index 0 (which is falsy) both become `Infinity`. */
  datatype SortKey = At(n: nat) | Infinite

  function KeyOf(symbol: string): (k: SortKey)
    ensures k.At? ==> 1 <= k.n < 10
  {
    match IndexOf(symbol)
    case None => Infinite
    case Some(n) => if n == 0 then Infinite else At(n)
  }

  /** A sort key as a JavaScript number. */
  function KeyNum(k: SortKey): Num
  {
    match k
    case At(n) => Finite(n as real)
    case Infinite => Infinity(false)
  }

  /** The comparator: favourites first, then `aIndex - bIndex`. A negative
      result puts `a` first, a positive one `b`; zero and NaN (from
      `Infinity - Infinity`) leave the pair in input order. */
  function Compare(a: Row, b: Row, favs: seq<string>): (r: Num)
    ensures a.symbol == b.symbol ==> r == Finite(0.0) || r == NaN
  {
    var aFav := a.symbol in favs;
    var bFav := b.symbol in favs;
    if aFav && !bFav then Finite(-1.0)
    else if !aFav && bFav then Finite(1.0)
    else Sub(KeyNum(KeyOf(a.symbol)), KeyNum(KeyOf(b.symbol)))
  }

  const MaxRank: nat := 21

  /** A key's place in the order, `Infinity` counting as 10. */
  function KeyRank(k: SortKey): nat
  {
    match k
    case At(n) => n
    case Infinite => 10
  }

  /** The position class of a row: favourites take 0 to 10, the others 11 to
      21, and within each group the key decides. */
  function Rank(r: Row, favs: seq<string>): (k: nat)
    ensures k <= MaxRank
    ensures r.symbol in favs <==> k <= 10
  {
    (if r.symbol in favs then 0 else 11) + KeyRank(KeyOf(r.symbol))
  }

  /** `Rank` for one favourite list, as the rank the sort uses. */
  function RankBy(favs: seq<string>): Row -> nat
  {
    (r: Row) => Rank(r, favs)
  }

  /** Subtracting two keys below 10 agrees with their key ranks, `Infinity`
      above every index and `Infinity - Infinity` (NaN) neither sign. */
  lemma KeyDifference(ka: SortKey, kb: SortKey)
    requires ka.At? ==> ka.n < 10
    requires kb.At? ==> kb.n < 10
    ensures Negative(Sub(KeyNum(ka), KeyNum(kb))) <==> KeyRank(ka) < KeyRank(kb)
    ensures Positive(Sub(KeyNum(ka), KeyNum(kb))) <==> KeyRank(ka) > KeyRank(kb)
  {
    if ka.At? && kb.At? {
      assert Sub(KeyNum(ka), KeyNum(kb)) == Finite(ka.n as real - kb.n as real);
    }
  }

  /** The comparator orders two rows exactly as their ranks do. */
  lemma CompareAgreesWithRank(a: Row, b: Row, favs: seq<string>)
    ensures Negative(Compare(a, b, favs)) <==> Rank(a, favs) < Rank(b, favs)
    ensures Positive(Compare(a, b, favs)) <==> Rank(a, favs) > Rank(b, favs)
  {
    KeyDifference(KeyOf(a.symbol), KeyOf(b.symbol));
  }

  /** `newData.sort(comparator)`: a stable sort by the comparator's rank. */
  function Sorted(rows: seq<Row>, favs: seq<string>): (r: seq<Row>)
    ensures |r| == |rows|
  {
    SortByRank(rows, RankBy(favs))
  }

  /** The sort is a permutation of the table. */
  lemma SortedPermutation(rows: seq<Row>, favs: seq<string>)
    ensures multiset(Sorted(rows, favs)) == multiset(rows)
  {
    SortPermutation(rows, RankBy(favs));
  }

  /** After the sort, ranks never decrease: no pair is out of comparator order. */
  lemma SortedAscending(rows: seq<Row>, favs: seq<string>)
    ensures var s := Sorted(rows, favs);
            forall i, j :: 0 <= i < j < |s| ==> Rank(s[i], favs) <= Rank(s[j], favs) && !Positive(Compare(s[i], s[j], favs))
  {
    SortAscending(rows, RankBy(favs));
    var s := Sorted(rows, favs);
    assert Ascending(s, RankBy(favs));
    forall i, j | 0 <= i < j < |s|
      ensures Rank(s[i], favs) <= Rank(s[j], favs) && !Positive(Compare(s[i], s[j], favs))
    {
      assert RankBy(favs)(s[i]) <= RankBy(favs)(s[j]);
      CompareAgreesWithRank(s[i], s[j], favs);
    }
  }

  /** Rows of equal rank keep their relative input order. */
  lemma SortedStable(rows: seq<Row>, favs: seq<string>, k: nat)
    ensures Stratum(Sorted(rows, favs), RankBy(favs), k) == Stratum(rows, RankBy(favs), k)
  {
    SortStable(rows, RankBy(favs), k);
  }

  /** Every favourite row comes before every other row. */
  lemma FavoritesFirst(rows: seq<Row>, favs: seq<string>)
    ensures var s := Sorted(rows, favs);
            forall i, j :: 0 <= i < j < |s| && s[j].symbol in favs ==> s[i].symbol in favs
  {
    SortedAscending(rows, favs);
  }

  /** Within one favourite group, `BTCUSDT` comes after every other tracked
      symbol, and the other tracked symbols follow the universe order. */
  lemma BitcoinLastInGroup(rows: seq<Row>, favs: seq<string>)
    requires forall i :: 0 <= i < |rows| ==> rows[i].symbol in TopCryptos
    ensures var s := Sorted(rows, favs);
            forall i, j :: 0 <= i < j < |s| && (s[i].symbol in favs <==> s[j].symbol in favs) ==>
              s[i].symbol in TopCryptos && s[j].symbol in TopCryptos &&
              (s[i].symbol == "BTCUSDT" ==> s[j].symbol == "BTCUSDT") &&
              (s[j].symbol != "BTCUSDT" ==> IndexOf(s[i].symbol).value <= IndexOf(s[j].symbol).value)
  {
    SortedAscending(rows, favs);
    SortedPermutation(rows, favs);
    var s := Sorted(rows, favs);
    forall i, j | 0 <= i < j < |s| && (s[i].symbol in favs <==> s[j].symbol in favs)
      ensures s[i].symbol in TopCryptos && s[j].symbol in TopCryptos
      ensures s[i].symbol == "BTCUSDT" ==> s[j].symbol == "BTCUSDT"
      ensures s[j].symbol != "BTCUSDT" ==> IndexOf(s[i].symbol).value <= IndexOf(s[j].symbol).value
    {
      assert s[i] in multiset(rows) && s[j] in multiset(rows);
      InUniverse(rows, s[i]);
      InUniverse(rows, s[j]);
      GroupOrder(s[i], s[j], favs);
    }
  }

  /** Two tracked rows of one favourite group in rank order are in universe
      order, with `BTCUSDT` last. */
  lemma GroupOrder(a: Row, b: Row, favs: seq<string>)
    requires a.symbol in TopCryptos && b.symbol in TopCryptos
    requires a.symbol in favs <==> b.symbol in favs
    requires Rank(a, favs) <= Rank(b, favs)
    ensures a.symbol == "BTCUSDT" ==> b.symbol == "BTCUSDT"
    ensures b.symbol != "BTCUSDT" ==> IndexOf(a.symbol).value <= IndexOf(b.symbol).value
  {
    KeyInUniverse(a.symbol);
    KeyInUniverse(b.symbol);
  }

  lemma InUniverse(rows: seq<Row>, x: Row)
    requires forall i :: 0 <= i < |rows| ==> rows[i].symbol in TopCryptos
    requires x in multiset(rows)
    ensures x.symbol in TopCryptos
  {
    var i :| 0 <= i < |rows| && rows[i] == x;
  }

  /** The key of a tracked symbol: `Infinity` exactly for `BTCUSDT`, else its index. */
  lemma KeyInUniverse(symbol: string)
    requires symbol in TopCryptos
    ensures KeyOf(symbol).Infinite? <==> symbol == "BTCUSDT"
    ensures KeyOf(symbol).At? ==> KeyOf(symbol).n == IndexOf(symbol).value
    ensures symbol == "BTCUSDT" ==> IndexOf(symbol).value == 0
  {
    UniverseDistinct();
  }

  lemma ExampleKeys()
    ensures KeyOf("BTCUSDT") == Infinite && KeyOf("ETHUSDT") == At(1) && KeyOf("SOLUSDT") == At(3)
  {
    assert TopCryptos[0] == "BTCUSDT" && TopCryptos[1] == "ETHUSDT" && TopCryptos[3] == "SOLUSDT";
    UniverseDistinct();
  }

  /** With `SOLUSDT` the only favourite, a batch of `BTCUSDT`, `ETHUSDT` and
      `SOLUSDT` is shown as `SOLUSDT`, `ETHUSDT`, `BTCUSDT`: the favourite
      first, and `BTCUSDT` after `ETHUSDT` although its index is lower. */
  lemma FavoriteExample(btc: Row, eth: Row, sol: Row)
    requires btc.symbol == "BTCUSDT" && eth.symbol == "ETHUSDT" && sol.symbol == "SOLUSDT"
    ensures Sorted([btc, eth, sol], ["SOLUSDT"]) == [sol, eth, btc]
  {
    ExampleKeys();
    var rank := RankBy(["SOLUSDT"]);
    assert rank(btc) == 21 && rank(eth) == 12 && rank(sol) == 3;
    SortThreeFalling(btc, eth, sol, rank);
  }
}
