/** The enlarged chart (`ChartModal.tsx`): the same history buffer as the
    sparkline, but every truthy live price overwrites the last point and
    re-stamps the time of the last live update, whether or not the price
    changed. */
module ChartModal {
  import opened JsValues
  import opened Wire
  import opened Charts

  /** The component's state; `lastLiveUpdate` is a clock reading in ms. */
  datatype View = View(data: seq<PricePoint>, changePercent: Option<Num>, lastLiveUpdate: int)

  /** `livePrice && data.length > 0`: 0, NaN and an absent price are skipped. */
  predicate Applies(live: Option<Num>, data: seq<PricePoint>)
    ensures Applies(live, data) ==> live.Some? && live.value != NaN && live.value != Finite(0.0)
    ensures Applies(live, data) ==> |data| > 0
  {
    TruthyOpt(live) && |data| > 0
  }

  /** `updateLivePrice` at clock `now` with clock label `time`. */
  function Updated(v: View, live: Option<Num>, time: string, now: int): (r: View)
    ensures r.changePercent == v.changePercent
    ensures |r.data| == |v.data|
    ensures forall i :: 0 <= i < |v.data| - 1 ==> r.data[i] == v.data[i]
    ensures Applies(live, v.data) ==> r.data[|r.data| - 1] == PricePoint(time, live.value)
    ensures Applies(live, v.data) ==> r.lastLiveUpdate == now
    ensures r.lastLiveUpdate != v.lastLiveUpdate ==> Applies(live, v.data)
    ensures !Applies(live, v.data) ==> r == v
  {
    if Applies(live, v.data) then
      View(v.data[|v.data| - 1 := PricePoint(time, live.value)], v.changePercent, now)
    else v
  }

  /** The history fetch; the clock stamp is kept. */
  function Fetched(v: View, res: FetchResult, timeLabel: int -> string, parse: string -> Num): (r: View)
    ensures r.lastLiveUpdate == v.lastLiveUpdate
    ensures r.data == FetchedData(v.data, res, timeLabel, parse)
    ensures r.changePercent == FetchedChange(v.changePercent, res, parse)
  {
    View(FetchedData(v.data, res, timeLabel, parse), FetchedChange(v.changePercent, res, parse), v.lastLiveUpdate)
  }

  /** A repeated update (the five-second timer) keeps the price and only
      re-stamps: the later of two updates with the same live price decides
      the state alone, so with the same stamps the repeat changes nothing. */
  lemma UpdateIdempotent(v: View, live: Option<Num>, t1: string, n1: int, t2: string, n2: int)
    ensures Updated(Updated(v, live, t1, n1), live, t2, n2) == Updated(v, live, t2, n2)
    ensures Updated(Updated(v, live, t1, n1), live, t1, n1) == Updated(v, live, t1, n1)
  {
    var r := Updated(v, live, t1, n1);
    if Applies(live, v.data) {
      assert r.data[|r.data| - 1 := PricePoint(t2, live.value)] == v.data[|v.data| - 1 := PricePoint(t2, live.value)];
      assert r.data[|r.data| - 1 := PricePoint(t1, live.value)] == r.data;
    }
  }

  /** A price of zero is skipped, like an absent one. */
  lemma ZeroSkipped(v: View, time: string, now: int)
    ensures Updated(v, Some(Finite(0.0)), time, now) == v
    ensures Updated(v, None, time, now) == v
  {
  }

  /** Unlike the sparkline, an unchanged price still re-stamps the last point
      and the update time, on every notification and every tick. */
  lemma UnchangedPriceRestamps(v: View, p: Num, time: string, now: int)
    requires |v.data| > 0 && Truthy(p) && v.data[|v.data| - 1].price == p
    ensures Updated(v, Some(p), time, now).data[|v.data| - 1].time == time
    ensures Updated(v, Some(p), time, now).lastLiveUpdate == now
  {
  }

  /** Nothing before the history arrives: over an empty buffer every update is
      skipped. */
  lemma EmptyBufferIgnoresLive(changePercent: Option<Num>, stamp: int, live: Option<Num>, time: string, now: int)
    ensures Updated(View([], changePercent, stamp), live, time, now) == View([], changePercent, stamp)
  {
  }

  /** The component instance, created at clock `now`. */
  class Modal {
    var data: seq<PricePoint>
    var changePercent: Option<Num>
    var lastLiveUpdate: int

    function State(): View
      reads this
    {
      View(data, changePercent, lastLiveUpdate)
    }

    constructor (now: int)
      ensures State() == View([], None, now)
    {
      data := [];
      changePercent := None;
      lastLiveUpdate := now;
    }

    /** `updateLivePrice`, run on each live-price change and, unguarded, by the
        five-second interval. */
    method UpdateLivePrice(live: Option<Num>, time: string, now: int)
      modifies this
      ensures State() == Updated(old(State()), live, time, now)
    {
      if live.Some? && Truthy(live.value) && |data| > 0 {
        var n := |data| - 1;
        data := data[n := PricePoint(time, live.value)];
        lastLiveUpdate := now;
      }
    }

    /** `fetchData`, with the outcome of the request as `res`. */
    method OnHistory(res: FetchResult, timeLabel: int -> string, parse: string -> Num)
      modifies this
      ensures State() == Fetched(old(State()), res, timeLabel, parse)
    {
      if res.CandleArray? {
        var formatted := CandlesToPoints(res.candles, timeLabel, parse);
        data := formatted;
        if |formatted| > 0 {
          changePercent := Some(PercentChange(formatted[0].price, formatted[|formatted| - 1].price));
        }
      }
    }
  }
}
