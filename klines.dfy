/** The history endpoint (`GET /api/klines`) of the relay: it validates the
    query, forwards it to the exchange's candle endpoint and passes the
    exchange's body through unchanged, or answers with an error object. */
module Klines {
  import opened JsValues
  import opened JsStrings
  import opened Wire

  const DefaultInterval: string := "1h"
  const DefaultLimit: nat := 24

  /** The query-string parameters; an absent parameter is `None`, an empty
      one (`?symbol=`) is `Some("")`. */
  datatype Query = Query(symbol: Option<string>, interval: Option<string>, limit: Option<string>)

  /** `limit` is the number 24 by default and otherwise the query's text. */
  datatype Limit = LimitNumber(n: nat) | LimitText(text: string)

  /** The parameters of the upstream request. */
  datatype Params = Params(symbol: string, interval: string, limit: Limit)

  /** The endpoint's answer: a JSON error object with its status, or the
      upstream body passed through with status 200. */
  datatype Response<D> = Failure(status: nat, error: string) | Forwarded(body: D)

  /** The symbol check: present, non-empty, and ending in "USDT" once upper-cased. */
  predicate AcceptedSymbol(symbol: Option<string>)
    ensures AcceptedSymbol(symbol) ==> symbol.Some? && |symbol.value| >= 4
  {
    TruthyStr(symbol) && EndsWith(ToUpper(symbol.value), "USDT")
  }

  /** The upstream parameters of an accepted query, with the destructuring defaults. */
  function Validate(q: Query): (r: Option<Params>)
    ensures r.None? <==> !AcceptedSymbol(q.symbol)
    ensures r.Some? ==> r.value.symbol == ToUpper(q.symbol.value)
    ensures r.Some? ==> EndsWith(r.value.symbol, "USDT") && ToUpper(r.value.symbol) == r.value.symbol
    ensures r.Some? ==> r.value.interval == (if q.interval.Some? then q.interval.value else DefaultInterval)
    ensures r.Some? ==> r.value.limit == (if q.limit.Some? then LimitText(q.limit.value) else LimitNumber(DefaultLimit))
  {
    if !AcceptedSymbol(q.symbol) then None
    else
      ToUpperIdempotent(q.symbol.value);
      Some(Params(
        ToUpper(q.symbol.value),
        if q.interval.Some? then q.interval.value else DefaultInterval,
        if q.limit.Some? then LimitText(q.limit.value) else LimitNumber(DefaultLimit)))
  }

  /** The handler, with `fetch` standing for the upstream request (`None` when
      it throws). A rejected query never reaches the upstream. */
  function Handle<D>(q: Query, fetch: Params -> Option<D>): (r: Response<D>)
    ensures r.Failure? ==> (r.status == 400 || r.status == 500)
    ensures r == Failure(400, "Invalid symbol format") <==> !AcceptedSymbol(q.symbol)
    ensures r == Failure(500, "Failed to fetch Binance data") <==>
              AcceptedSymbol(q.symbol) && fetch(Validate(q).value).None?
    ensures r.Forwarded? <==> AcceptedSymbol(q.symbol) && fetch(Validate(q).value).Some?
    ensures r.Forwarded? ==> r.body == fetch(Validate(q).value).value
  {
    match Validate(q)
    case None => Failure(400, "Invalid symbol format")
    case Some(p) =>
      match fetch(p)
      case None => Failure(500, "Failed to fetch Binance data")
      case Some(body) => Forwarded(body)
  }

  /** The response status code. */
  function Status<D>(r: Response<D>): nat
  {
    if r.Failure? then r.status else 200
  }

  /** A rejected query gets the same answer whatever the upstream would do. */
  lemma RejectionIgnoresUpstream<D>(q: Query, f: Params -> Option<D>, g: Params -> Option<D>)
    requires !AcceptedSymbol(q.symbol)
    ensures Handle(q, f) == Handle(q, g) && Status(Handle(q, f)) == 400
  {
  }

  /** The symbol check ignores case: a query and the same query with its symbol
      upper-cased get identical upstream parameters. */
  lemma ValidateIgnoresCase(q: Query)
    requires q.symbol.Some?
    ensures Validate(q.(symbol := Some(ToUpper(q.symbol.value)))) == Validate(q)
  {
    ToUpperIdempotent(q.symbol.value);
  }

  /** The symbol "USDT" alone is accepted: the check is a suffix test only. */
  lemma BareQuoteAccepted()
    ensures Validate(Query(Some("usdt"), None, None)) == Some(Params("USDT", "1h", LimitNumber(24)))
  {
    assert ToUpper("usdt") == "USDT";
  }
}
