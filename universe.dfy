/** The fixed, ordered list of tracked instruments (`TOP_CRYPTOS`), which the
    relay and the dashboard both declare with the same ten symbols. */
module Universe {
  import opened JsValues
  import opened JsStrings

  const TopCryptos: seq<string> := [
    "BTCUSDT", "ETHUSDT", "BNBUSDT", "SOLUSDT", "XRPUSDT",
    "ADAUSDT", "DOGEUSDT", "AVAXUSDT", "DOTUSDT", "LINKUSDT"
  ]

  /** `TOP_CRYPTOS.indexOf(s)`, or `None` when `s` is not tracked. */
  function IndexOf(s: string): (r: Option<nat>)
    ensures r.Some? ==> r.value < |TopCryptos| && TopCryptos[r.value] == s
    ensures r.None? <==> s !in TopCryptos
  {
    IndexFrom(s, 0)
  }

  function IndexFrom(s: string, k: nat): (r: Option<nat>)
    requires k <= |TopCryptos|
    ensures r.Some? ==> k <= r.value < |TopCryptos| && TopCryptos[r.value] == s
    ensures r.None? <==> s !in TopCryptos[k..]
    decreases |TopCryptos| - k
  {
    if k == |TopCryptos| then None
    else if TopCryptos[k] == s then Some(k)
    else
      assert TopCryptos[k..] == [TopCryptos[k]] + TopCryptos[k + 1..];
      IndexFrom(s, k + 1)
  }

  /** A pattern one of whose characters is missing from `s` does not occur in `s`. */
  lemma MissingCharNotIncluded(s: string, p: string, k: nat)
    requires k < |p| && p[k] !in s
    ensures !Includes(s, p)
  {
    forall i | 0 <= i <= |s| - |p|
      ensures !OccursAt(s, p, i)
    {
      assert s[i..i + |p|][k] == s[i + k];
    }
  }

  /** A two-character pattern whose first character is never followed by its
      second one in `s` does not occur in `s`. */
  lemma PairNotIncluded(s: string, p: string)
    requires |p| == 2
    requires forall i :: 0 <= i < |s| - 1 && s[i] == p[0] ==> s[i + 1] != p[1]
    ensures !Includes(s, p)
  {
    forall i | 0 <= i <= |s| - |p|
      ensures !OccursAt(s, p, i)
    {
      assert s[i..i + 2][0] == s[i] && s[i..i + 2][1] == s[i + 1];
    }
  }

  /** Quoted in USDT, with no `U` in its base asset, not a leveraged token,
      already upper case. */
  predicate SymbolShaped(s: string)
  {
    EndsWith(s, "USDT") && 'U' !in s[..|s| - 4] &&
    !Includes(s, "UP") && !Includes(s, "DOWN") && ToUpper(s) == s
  }

  /** One tracked symbol's shape, from facts about its characters. */
  lemma SymbolShape(s: string)
    requires |s| >= 4 && s[|s| - 4..] == "USDT"
    requires 'U' !in s[..|s| - 4]
    requires 'W' !in s
    requires forall i :: 0 <= i < |s| - 1 && s[i] == 'U' ==> s[i + 1] == 'S'
    requires forall i :: 0 <= i < |s| ==> 'A' <= s[i] <= 'Z'
    ensures SymbolShaped(s)
  {
    MissingCharNotIncluded(s, "DOWN", 2);
    PairNotIncluded(s, "UP");
    UpperFixed(s);
  }

  /** Every tracked symbol is quoted in USDT with a base asset free of `U`, is
      not a leveraged token, and is already upper case. */
  lemma UniverseShape(s: string)
    requires s in TopCryptos
    ensures EndsWith(s, "USDT") && 'U' !in s[..|s| - 4]
    ensures !Includes(s, "UP") && !Includes(s, "DOWN")
    ensures ToUpper(s) == s
  {
    ShapeBtc(); ShapeEth(); ShapeBnb(); ShapeSol(); ShapeXrp();
    ShapeAda(); ShapeDoge(); ShapeAvax(); ShapeDot(); ShapeLink();
    assert SymbolShaped(s);
  }

  // One tracked symbol at a time, to keep each proof small.
  lemma ShapeBtc()
    ensures SymbolShaped("BTCUSDT")
  {
    SymbolShape("BTCUSDT");
  }

  lemma ShapeEth()
    ensures SymbolShaped("ETHUSDT")
  {
    SymbolShape("ETHUSDT");
  }

  lemma ShapeBnb()
    ensures SymbolShaped("BNBUSDT")
  {
    SymbolShape("BNBUSDT");
  }

  lemma ShapeSol()
    ensures SymbolShaped("SOLUSDT")
  {
    SymbolShape("SOLUSDT");
  }

  lemma ShapeXrp()
    ensures SymbolShaped("XRPUSDT")
  {
    SymbolShape("XRPUSDT");
  }

  lemma ShapeAda()
    ensures SymbolShaped("ADAUSDT")
  {
    SymbolShape("ADAUSDT");
  }

  lemma ShapeDoge()
    ensures SymbolShaped("DOGEUSDT")
  {
    SymbolShape("DOGEUSDT");
  }

  lemma ShapeAvax()
    ensures SymbolShaped("AVAXUSDT")
  {
    SymbolShape("AVAXUSDT");
  }

  lemma ShapeDot()
    ensures SymbolShaped("DOTUSDT")
  {
    SymbolShape("DOTUSDT");
  }

  lemma ShapeLink()
    ensures SymbolShaped("LINKUSDT")
  {
    SymbolShape("LINKUSDT");
  }

  /** A string without lower-case ASCII letters is its own upper case. */
  lemma UpperFixed(s: string)
    requires forall i :: 0 <= i < |s| ==> !('a' <= s[i] <= 'z')
    ensures ToUpper(s) == s
  {
  }

  /** The tracked symbols are pairwise distinct. */
  lemma UniverseDistinct()
    ensures forall i, j :: 0 <= i < j < |TopCryptos| ==> TopCryptos[i] != TopCryptos[j]
  {
  }
}
