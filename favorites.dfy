/** The favourite list of the dashboard and its toggle. */
module Favorites {
  import opened SeqFilter

  /** `prev.filter(s => s !== symbol)`. */
  function Without(favs: seq<string>, symbol: string): (r: seq<string>)
    ensures symbol !in r
    ensures |r| <= |favs|
  {
    Filter(favs, (s: string) => s != symbol)
  }

  /** Removal keeps every other symbol and drops `symbol`. */
  lemma WithoutMembers(favs: seq<string>, symbol: string, x: string)
    ensures x in Without(favs, symbol) <==> x in favs && x != symbol
  {
    FilterMembers(favs, (s: string) => s != symbol, x);
  }

  /** Removal keeps every other entry, in order and with its multiplicity. */
  lemma WithoutAppend(a: seq<string>, b: seq<string>, symbol: string)
    ensures Without(a + b, symbol) == Without(a, symbol) + Without(b, symbol)
  {
    FilterAppend(a, b, (s: string) => s != symbol);
  }

  /** Removal drops exactly the occurrences of `symbol`. */
  lemma WithoutCounts(favs: seq<string>, symbol: string)
    ensures multiset(Without(favs, symbol)) == multiset(favs)[symbol := 0]
  {
    forall x
      ensures multiset(Without(favs, symbol))[x] == multiset(favs)[symbol := 0][x]
    {
      FilterCounts(favs, (s: string) => s != symbol, x);
    }
  }

  /** Removing an absent symbol changes nothing. */
  lemma {:induction false} WithoutAbsent(favs: seq<string>, symbol: string)
    requires symbol !in favs
    ensures Without(favs, symbol) == favs
  {
    if |favs| > 0 {
      assert symbol !in favs[1..];
      WithoutAbsent(favs[1..], symbol);
      assert favs == [favs[0]] + favs[1..];
    }
  }

  /** `toggleFavorite`: remove every occurrence of a favourite, or append a
      symbol that is not one. */
  function Toggled(favs: seq<string>, symbol: string): (r: seq<string>)
    ensures symbol in r <==> symbol !in favs
    ensures |r| <= |favs| + 1
  {
    if symbol in favs then Without(favs, symbol) else favs + [symbol]
  }

  /** Toggling flips the symbol's membership and leaves every other symbol's. */
  lemma ToggleFlips(favs: seq<string>, symbol: string, x: string)
    ensures x in Toggled(favs, symbol) <==> (if x == symbol then symbol !in favs else x in favs)
  {
    WithoutMembers(favs, symbol, x);
  }

  /** Toggling a favourite removes all its occurrences and keeps the others in
      order; toggling anything else appends it at the end. */
  lemma ToggleShape(favs: seq<string>, symbol: string)
    ensures symbol in favs ==> multiset(Toggled(favs, symbol)) == multiset(favs)[symbol := 0]
    ensures symbol !in favs ==> Toggled(favs, symbol) == favs + [symbol]
  {
    if symbol in favs {
      WithoutCounts(favs, symbol);
    }
  }

  /** Toggling an absent symbol twice gives back the original list. */
  lemma ToggleTwiceRestores(favs: seq<string>, symbol: string)
    requires symbol !in favs
    ensures Toggled(Toggled(favs, symbol), symbol) == favs
  {
    WithoutAppend(favs, [symbol], symbol);
    WithoutAbsent(favs, symbol);
    assert Without([symbol], symbol) == [];
  }

  /** Toggling a favourite off and on again moves it to the end of the list. */
  lemma ToggleTwiceMovesToEnd(favs: seq<string>, symbol: string)
    requires symbol in favs
    ensures Toggled(Toggled(favs, symbol), symbol) == Without(favs, symbol) + [symbol]
  {
  }
}
