/** The shapes of data that cross a socket or an HTTP response.

    A ticker record carries the short field names of the exchange feed:
    `s` (symbol), `c` (last price) and `P` (24-hour percent change), each a
    string or absent. Elements that are numbers, strings or booleans behave
    like a record whose fields are all absent; only `null` makes a field
    access throw, which is modelled by `NullItem`. */
module Wire {
  import opened JsValues

  datatype Item = NullItem | Record(s: Option<string>, c: Option<string>, P: Option<string>)

  /** One inbound socket message after `JSON.parse`. */
  datatype Message = Unparseable | NotAnArray | Array(items: seq<Item>)

  /** Truthiness of an optional string field: absent and `""` are falsy. */
  predicate TruthyStr(o: Option<string>)
  {
    o.Some? && o.value != ""
  }

  /** `parseFloat(field)`, with `parse` standing for `parseFloat` on strings;
      `parseFloat(undefined)` is NaN. */
  function ParseField(parse: string -> Num, o: Option<string>): (r: Num)
    ensures o.None? ==> r == NaN
    ensures o.Some? ==> r == parse(o.value)
  {
    match o
    case None => NaN
    case Some(t) => parse(t)
  }

  /** One candle of the history endpoint; only slot 0 (open time, ms) and
      slot 4 (close price, a decimal string) are read. */
  datatype Candle = Candle(openTime: int, close: string)

  /** The outcome of fetching and decoding the history endpoint on the client:
      a network or decoding failure, a JSON body that is not an array (the
      400 and 500 error objects), or an array of candles. */
  datatype FetchResult = FetchFailed | NotAnArrayBody | CandleArray(candles: seq<Candle>)

  /** One point of a chart buffer. */
  datatype PricePoint = PricePoint(time: string, price: Num)

  /** `raw.map(item => ({ time: timeLabel(item[0]), price: parseFloat(item[4]) }))`:
      one point per candle, in candle order. */
  function CandlesToPoints(cs: seq<Candle>, timeLabel: int -> string, parse: string -> Num): (r: seq<PricePoint>)
    ensures |r| == |cs|
    ensures forall i :: 0 <= i < |cs| ==> r[i].price == parse(cs[i].close)
    ensures forall i :: 0 <= i < |cs| ==> r[i].time == timeLabel(cs[i].openTime)
  {
    seq(|cs|, i requires 0 <= i < |cs| => PricePoint(timeLabel(cs[i].openTime), parse(cs[i].close)))
  }
}
