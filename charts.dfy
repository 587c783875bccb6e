/** What the two chart components share: loading the one-hour history of a
    symbol into a point buffer and its open-to-close percentage, and the
    colour of the reference line that shows that percentage. */
module Charts {
  import opened JsValues
  import opened Wire

  /** The buffer after the history fetch. A failed request or a body that is
      not an array (`raw.map` throws) leaves it as it was; an array replaces
      it, even an empty one. */
  function FetchedData(prev: seq<PricePoint>, res: FetchResult, timeLabel: int -> string, parse: string -> Num): (r: seq<PricePoint>)
    ensures !res.CandleArray? ==> r == prev
    ensures res.CandleArray? ==> |r| == |res.candles|
    ensures res.CandleArray? ==> forall i :: 0 <= i < |r| ==>
              r[i] == PricePoint(timeLabel(res.candles[i].openTime), parse(res.candles[i].close))
  {
    if res.CandleArray? then CandlesToPoints(res.candles, timeLabel, parse) else prev
  }

  /** The percentage after the history fetch: set from the first and last
      close of a non-empty array, and left as it was otherwise (for an empty
      array `formatted[0].price` throws after the buffer was set). */
  function FetchedChange(prev: Option<Num>, res: FetchResult, parse: string -> Num): (r: Option<Num>)
    ensures !(res.CandleArray? && |res.candles| > 0) ==> r == prev
    ensures res.CandleArray? && |res.candles| > 0 ==>
              r == Some(PercentChange(parse(res.candles[0].close), parse(res.candles[|res.candles| - 1].close)))
  {
    match res
    case CandleArray(cs) =>
      if |cs| == 0 then prev
      else Some(PercentChange(parse(cs[0].close), parse(cs[|cs| - 1].close)))
    case _ => prev
  }

  /** After a fetch that yields candles, the percentage is that of the buffer's
      own first and last points. */
  lemma ChangeOfBuffer(prevData: seq<PricePoint>, prevChange: Option<Num>, res: FetchResult,
                       timeLabel: int -> string, parse: string -> Num)
    requires res.CandleArray? && |res.candles| > 0
    ensures var d := FetchedData(prevData, res, timeLabel, parse);
            |d| > 0 && FetchedChange(prevChange, res, parse) == Some(PercentChange(d[0].price, d[|d| - 1].price))
  {
    var d := FetchedData(prevData, res, timeLabel, parse);
    assert d[0].price == parse(res.candles[0].close);
    assert d[|d| - 1].price == parse(res.candles[|d| - 1].close);
  }

  /** The colour of the reference line. */
  datatype Stroke = Rising | Falling

  /** The reference line: drawn only once a percentage is known, green when
      it is above zero and red otherwise (zero and NaN included). */
  function ReferenceLine(pct: Option<Num>): (r: Option<Stroke>)
    ensures r.Some? <==> pct.Some?
    ensures r == Some(Rising) <==> pct.Some? && Positive(pct.value)
  {
    match pct
    case None => None
    case Some(p) => if Positive(p) then Some(Rising) else Some(Falling)
  }

  /** Over a finite positive opening price, the line is green exactly when
      the last close is above the first. */
  lemma RisingWhenCloseAboveOpen(prev: Option<Num>, cs: seq<Candle>, parse: string -> Num)
    requires |cs| > 0
    requires parse(cs[0].close).Finite? && parse(cs[0].close).v > 0.0
    requires parse(cs[|cs| - 1].close).Finite?
    ensures ReferenceLine(FetchedChange(prev, CandleArray(cs), parse)) == Some(Rising) <==>
              parse(cs[|cs| - 1].close).v > parse(cs[0].close).v
  {
    PercentChangeSign(parse(cs[0].close).v, parse(cs[|cs| - 1].close).v);
  }

  /** A flat history draws a red line, at any finite price, zero included
      (where the percentage is NaN). */
  lemma FlatHistoryIsRed(prev: Option<Num>, cs: seq<Candle>, parse: string -> Num)
    requires |cs| > 0 && parse(cs[0].close) == parse(cs[|cs| - 1].close)
    requires parse(cs[0].close).Finite?
    ensures ReferenceLine(FetchedChange(prev, CandleArray(cs), parse)) == Some(Falling)
  {
    PercentChangeFlat(parse(cs[0].close));
  }
}
