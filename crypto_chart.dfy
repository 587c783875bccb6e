/** The sparkline of one table row (`CryptoChart.tsx`): a buffer of points
    loaded from the history endpoint whose last point follows the live price.
    A live price is taken only when it differs (`!==`) from the last one
    taken, and it then overwrites the last point only when it differs from
    that point's price. */
module CryptoChart {
  import opened JsValues
  import opened Wire
  import opened Charts

  /** The component's state: the buffer, the percentage (`null` is `None`)
      and the last live price taken (`lastLivePriceRef`, `null` is `None`). */
  datatype View = View(data: seq<PricePoint>, changePercent: Option<Num>, lastLive: Option<Num>)

  /** `livePrice !== undefined && livePrice !== lastLivePriceRef.current`. */
  predicate Fresh(live: Option<Num>, lastLive: Option<Num>)
    ensures live.None? ==> !Fresh(live, lastLive)
    ensures live == Some(NaN) ==> Fresh(live, lastLive)
    ensures live.Some? && live.value != NaN && lastLive == live ==> !Fresh(live, lastLive)
  {
    live.Some? && (lastLive.None? || !StrictEq(live.value, lastLive.value))
  }

  /** The buffer after a taken live price `p` stamped `time`. */
  function LiveReplaced(prev: seq<PricePoint>, p: Num, time: string): (r: seq<PricePoint>)
    ensures |r| == |prev|
    ensures forall i :: 0 <= i < |prev| - 1 ==> r[i] == prev[i]
    ensures |prev| > 0 && p != NaN ==> StrictEq(r[|r| - 1].price, p)
    ensures |prev| == 0 || StrictEq(prev[|prev| - 1].price, p) ==> r == prev
    ensures |prev| > 0 && !StrictEq(prev[|prev| - 1].price, p) ==> r[|r| - 1] == PricePoint(time, p)
  {
    if |prev| == 0 then prev
    else if StrictEq(prev[|prev| - 1].price, p) then prev
    else prev[|prev| - 1 := PricePoint(time, p)]
  }

  /** `updateLivePrice`: the state after a live-price notification. */
  function Updated(v: View, live: Option<Num>, time: string): (r: View)
    ensures r.changePercent == v.changePercent
    ensures !Fresh(live, v.lastLive) ==> r == v
    ensures Fresh(live, v.lastLive) ==> r.lastLive == live && r.data == LiveReplaced(v.data, live.value, time)
  {
    if Fresh(live, v.lastLive) then View(LiveReplaced(v.data, live.value, time), v.changePercent, live)
    else v
  }

  /** The five-second timer: an update, but only over a non-empty buffer. */
  function Ticked(v: View, live: Option<Num>, time: string): (r: View)
    ensures |v.data| == 0 ==> r == v
    ensures |v.data| > 0 ==> r == Updated(v, live, time)
  {
    if |v.data| > 0 then Updated(v, live, time) else v
  }

  /** The history fetch; the last live price taken is kept. */
  function Fetched(v: View, res: FetchResult, timeLabel: int -> string, parse: string -> Num): (r: View)
    ensures r.lastLive == v.lastLive
    ensures r.data == FetchedData(v.data, res, timeLabel, parse)
    ensures r.changePercent == FetchedChange(v.changePercent, res, parse)
  {
    View(FetchedData(v.data, res, timeLabel, parse), FetchedChange(v.changePercent, res, parse), v.lastLive)
  }

  /** A second notification of the same price changes nothing, unless the
      price is NaN. */
  lemma UpdateIdempotent(v: View, p: Num, t1: string, t2: string)
    requires p != NaN
    ensures Updated(Updated(v, Some(p), t1), Some(p), t2) == Updated(v, Some(p), t1)
  {
    StrictEqReflexive(p);
  }

  /** NaN is never equal to the last price taken, so a NaN live price is taken
      on every notification and re-stamps the last point each time. */
  lemma NaNAlwaysTaken(v: View, time: string)
    requires |v.data| > 0
    ensures Updated(v, Some(NaN), time).data[|v.data| - 1] == PricePoint(time, NaN)
    ensures Updated(v, Some(NaN), time).lastLive == Some(NaN)
  {
  }

  /** A live price that arrives before the history is swallowed: it is
      recorded as taken while the buffer is empty, so after the fetch the same
      price is not taken again and the last point keeps the historical close. */
  lemma EarlyPriceSwallowed(p: Num, t1: string, t2: string, cs: seq<Candle>,
                            timeLabel: int -> string, parse: string -> Num)
    requires p != NaN && |cs| > 0
    ensures var v1 := Updated(View([], None, None), Some(p), t1);
            var v2 := Fetched(v1, CandleArray(cs), timeLabel, parse);
            v1.data == [] && v1.lastLive == Some(p) &&
            Updated(v2, Some(p), t2) == v2 && Ticked(v2, Some(p), t2) == v2 &&
            v2.data[|v2.data| - 1].price == parse(cs[|cs| - 1].close)
  {
    StrictEqReflexive(p);
  }

  /** The component instance. */
  class Chart {
    var data: seq<PricePoint>
    var changePercent: Option<Num>
    var lastLivePrice: Option<Num>

    function State(): View
      reads this
    {
      View(data, changePercent, lastLivePrice)
    }

    constructor ()
      ensures State() == View([], None, None)
    {
      data := [];
      changePercent := None;
      lastLivePrice := None;
    }

    /** `updateLivePrice`, with `live` the context's price for the symbol and
        `time` the clock label of the call. */
    method UpdateLivePrice(live: Option<Num>, time: string)
      modifies this
      ensures State() == Updated(old(State()), live, time)
    {
      if live.Some? && (lastLivePrice.None? || !StrictEq(live.value, lastLivePrice.value)) {
        var p := live.value;
        if |data| > 0 {
          var n := |data| - 1;
          var lastPoint := data[n];
          if !StrictEq(lastPoint.price, p) {
            data := data[n := PricePoint(time, p)];
          }
        }
        lastLivePrice := live;
      }
    }

    /** The interval callback. */
    method Tick(live: Option<Num>, time: string)
      modifies this
      ensures State() == Ticked(old(State()), live, time)
    {
      if |data| > 0 {
        UpdateLivePrice(live, time);
      }
    }

    /** `fetchData`, with the outcome of the request as `res`. */
    method OnHistory(res: FetchResult, timeLabel: int -> string, parse: string -> Num)
      modifies this
      ensures State() == Fetched(old(State()), res, timeLabel, parse)
    {
      if res.CandleArray? {
        var formatted := CandlesToPoints(res.candles, timeLabel, parse);
        data := formatted;
        if |formatted| > 0 {
          var open := formatted[0].price;
          var close := formatted[|formatted| - 1].price;
          changePercent := Some(PercentChange(open, close));
        }
      }
    }
  }
}
