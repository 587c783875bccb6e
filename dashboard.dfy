/** The dashboard page (`page.tsx`): the table of tracked symbols with their
    prices, the favourites, the connection flag, the per-symbol history
    loading flags and the CSV report. */
module Dashboard {
  import opened JsValues
  import opened JsStrings
  import opened Wire
  import opened Rows
  import opened LivePrices
  import opened Ordering
  import opened Favorites
  import opened Report

  /** The table after an inbound message: an accepted batch replaces it
      wholesale by its sorted rows; anything else keeps it. */
  function TableAfter(rows: seq<Row>, favs: seq<string>, msg: Message, fmt: Formats): (r: seq<Row>)
    ensures msg.Array? && NullItem !in msg.items ==> |r| <= |msg.items|
    ensures !msg.Array? ==> r == rows
  {
    if msg.Array? && NullItem !in msg.items then Sorted(RowsOf(msg.items, fmt), favs) else rows
  }

  /** `fetchPriceHistory`'s table update: only an array body attaches a series. */
  function TableWithHistory(rows: seq<Row>, symbol: string, res: FetchResult,
                            timeLabel: int -> string, parse: string -> Num): (r: seq<Row>)
    ensures |r| == |rows|
    ensures forall i :: 0 <= i < |rows| ==> r[i].symbol == rows[i].symbol
    ensures forall i :: 0 <= i < |rows| && rows[i].symbol != symbol ==> r[i] == rows[i]
  {
    if res.CandleArray? then AttachHistory(rows, symbol, CandlesToPoints(res.candles, timeLabel, parse)) else rows
  }

  /** An accepted batch gives exactly its listed rows, favourites first. */
  lemma NewTableFromBatch(rows: seq<Row>, favs: seq<string>, items: seq<Item>, fmt: Formats)
    requires NullItem !in items
    ensures multiset(TableAfter(rows, favs, Array(items), fmt)) == multiset(RowsOf(items, fmt))
    ensures var t := TableAfter(rows, favs, Array(items), fmt);
            forall i, j :: 0 <= i < j < |t| && t[j].symbol in favs ==> t[i].symbol in favs
  {
    SortedPermutation(RowsOf(items, fmt), favs);
    FavoritesFirst(RowsOf(items, fmt), favs);
  }

  /** No row of a new table carries a history: series attached earlier are
      dropped. */
  lemma NewTableHasNoHistory(rows: seq<Row>, favs: seq<string>, items: seq<Item>, fmt: Formats)
    requires NullItem !in items
    ensures var t := TableAfter(rows, favs, Array(items), fmt);
            forall i :: 0 <= i < |t| ==> t[i].history.None?
  {
    var built := RowsOf(items, fmt);
    var t := TableAfter(rows, favs, Array(items), fmt);
    NewTableFromBatch(rows, favs, items, fmt);
    forall i | 0 <= i < |t|
      ensures t[i].history.None?
    {
      assert t[i] in multiset(built);
      NoHistoryIn(built, t[i]);
    }
  }

  /** A row of a table none of whose rows has a history has none. */
  lemma NoHistoryIn(built: seq<Row>, x: Row)
    requires forall i :: 0 <= i < |built| ==> built[i].history.None?
    requires x in multiset(built)
    ensures x.history.None?
  {
    var i :| 0 <= i < |built| && built[i] == x;
  }

  /** A rejected message (unparseable, not an array, or holding `null`)
      leaves the table as it was. */
  lemma RejectedKeepsTable(rows: seq<Row>, favs: seq<string>, msg: Message, fmt: Formats)
    requires !msg.Array? || NullItem in msg.items
    ensures TableAfter(rows, favs, msg, fmt) == rows
  {
  }

  /** A history attached to a row does not survive the next accepted batch. */
  lemma HistoryLostOnNextBatch(rows: seq<Row>, favs: seq<string>, symbol: string, cs: seq<Candle>,
                               timeLabel: int -> string, parse: string -> Num, items: seq<Item>, fmt: Formats)
    requires NullItem !in items
    ensures var t := TableAfter(TableWithHistory(rows, symbol, CandleArray(cs), timeLabel, parse), favs, Array(items), fmt);
            forall i :: 0 <= i < |t| ==> t[i].history.None?
  {
    NewTableHasNoHistory(TableWithHistory(rows, symbol, CandleArray(cs), timeLabel, parse), favs, items, fmt);
  }

  /** A failed history request, or an error body, leaves the table as it was. */
  lemma FailedHistoryKeepsTable(rows: seq<Row>, symbol: string, res: FetchResult,
                                timeLabel: int -> string, parse: string -> Num)
    requires !res.CandleArray?
    ensures TableWithHistory(rows, symbol, res, timeLabel, parse) == rows
  {
  }

  /** The page's state. */
  class Page {
    var favorites: seq<string>
    var rows: seq<Row>
    var livePrices: map<string, Num>
    var lastUpdate: string
    var isConnected: bool
    var loadingHistory: map<string, bool>

    /** The page as first rendered, with the favourites read back from storage
        (`None` when nothing is stored). */
    constructor (saved: Option<seq<string>>)
      ensures favorites == (if saved.Some? then saved.value else [])
      ensures rows == [] && livePrices == map[] && lastUpdate == ""
      ensures !isConnected && loadingHistory == map[]
    {
      favorites := if saved.Some? then saved.value else [];
      rows := [];
      livePrices := map[];
      lastUpdate := "";
      isConnected := false;
      loadingHistory := map[];
    }

    /** `toggleFavorite`. */
    method ToggleFavorite(symbol: string)
      modifies this`favorites
      ensures favorites == Toggled(old(favorites), symbol)
    {
      if symbol in favorites {
        favorites := Without(favorites, symbol);
      } else {
        favorites := favorites + [symbol];
      }
    }

    /** `socket.onopen`. */
    method OnOpen()
      modifies this`isConnected
      ensures isConnected
    {
      isConnected := true;
    }

    /** `socket.onclose` and `socket.onerror`. */
    method OnCloseOrError()
      modifies this`isConnected
      ensures !isConnected
    {
      isConnected := false;
    }

    /** `socket.onmessage`, with `clock` standing for the local time label of
        the call. An accepted batch merges its prices, replaces the table and
        stamps the update time; anything else changes nothing. */
    method OnMessage(msg: Message, fmt: Formats, clock: string)
      modifies this`livePrices, this`rows, this`lastUpdate
      ensures livePrices == Received(old(livePrices), msg, fmt.parse)
      ensures rows == TableAfter(old(rows), favorites, msg, fmt)
      ensures lastUpdate == if msg.Array? && NullItem !in msg.items then clock else old(lastUpdate)
    {
      if msg.Array? {
        var np := CollectPrices(msg.items, fmt.parse);
        if np.Some? {
          livePrices := Merge(livePrices, np.value);
          var built := BuildRows(msg.items, fmt);
          rows := Sorted(built, favorites);
          lastUpdate := clock;
        }
      }
    }

    /** The start of `fetchPriceHistory`. */
    method BeginHistoryFetch(symbol: string)
      modifies this`loadingHistory
      ensures loadingHistory == old(loadingHistory)[symbol := true]
    {
      loadingHistory := loadingHistory[symbol := true];
    }

    /** The end of `fetchPriceHistory`, with the outcome of the request as
        `res`: the flag is cleared whatever happened. */
    method CompleteHistoryFetch(symbol: string, res: FetchResult, timeLabel: int -> string, parse: string -> Num)
      modifies this`rows, this`loadingHistory
      ensures rows == TableWithHistory(old(rows), symbol, res, timeLabel, parse)
      ensures loadingHistory == old(loadingHistory)[symbol := false]
    {
      if res.CandleArray? {
        var history := CandlesToPoints(res.candles, timeLabel, parse);
        rows := AttachHistory(rows, symbol, history);
      }
      loadingHistory := loadingHistory[symbol := false];
    }

    /** `downloadReport`: the text of the file. */
    method DownloadReport() returns (text: string)
      ensures text == Csv(rows, favorites)
    {
      var lines := CsvLines(rows, favorites);
      text := Header + Join(lines, '\n');
    }
  }
}
