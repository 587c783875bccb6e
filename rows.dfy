/** The rows of the dashboard table (`CryptoData` in `page.tsx`) and how a
    batch of ticker records becomes rows. */
module Rows {
  import opened JsValues
  import opened JsStrings
  import opened Wire
  import opened Universe

  /** `changeColor`: green for a non-negative 24-hour change, red otherwise. */
  datatype Color = Green | Red

  /** One table row. `price` and `change24h` are display strings. */
  datatype Row = Row(
    symbol: string,
    price: string,
    change24h: string,
    changeColor: Color,
    livePrice: Num,
    history: Option<seq<PricePoint>>)

  /** The formatting functions the row builder calls: `parseFloat`,
      `toLocaleString` in US-dollar currency style with the given minimum
      number of fraction digits, and `toFixed(2)`. */
  datatype Formats = Formats(
    parse: string -> Num,
    currency: (Num, nat) -> string,
    fixed2: Num -> string)

  /** `item.s && TOP_CRYPTOS.includes(item.s.toUpperCase())`. */
  predicate Listed(item: Item)
    ensures Listed(item) ==> item.Record? && item.s.Some? && ToUpper(item.s.value) in TopCryptos
  {
    item.Record? && TruthyStr(item.s) && ToUpper(item.s.value) in TopCryptos
  }

  /** `changeColor` of a 24-hour change. */
  function ColorOf(pct: Num): (c: Color)
    ensures c == Green <==> AtLeastZero(pct)
  {
    if AtLeastZero(pct) then Green else Red
  }

  /** Minimum fraction digits of the price: four below one dollar, else two. */
  function FractionDigits(live: Num): (d: nat)
    ensures d == 4 <==> BelowOne(live)
    ensures d == 2 || d == 4
  {
    if BelowOne(live) then 4 else 2
  }

  /** The row pushed for one listed record. */
  function RowOf(item: Item, fmt: Formats): (r: Row)
    requires Listed(item)
    ensures r.symbol == ToUpper(item.s.value) && r.symbol in TopCryptos
    ensures r.livePrice == ParseField(fmt.parse, item.c)
    ensures r.price == fmt.currency(r.livePrice, FractionDigits(r.livePrice))
    ensures r.change24h == fmt.fixed2(ParseField(fmt.parse, item.P)) + "%"
    ensures r.changeColor == Green <==> AtLeastZero(ParseField(fmt.parse, item.P))
    ensures r.history.None?
  {
    var pct := ParseField(fmt.parse, item.P);
    var live := ParseField(fmt.parse, item.c);
    Row(ToUpper(item.s.value), fmt.currency(live, FractionDigits(live)), fmt.fixed2(pct) + "%",
        ColorOf(pct), live, None)
  }

  /** `newData` after the loop over `items`: one row per listed record, in
      batch order, duplicates included. */
  function RowsOf(items: seq<Item>, fmt: Formats): (rows: seq<Row>)
    ensures |rows| <= |items|
    ensures forall i :: 0 <= i < |rows| ==> rows[i].symbol in TopCryptos && rows[i].history.None?
    decreases |items|
  {
    if |items| == 0 then []
    else
      var last := items[|items| - 1];
      RowsOf(items[..|items| - 1], fmt) + (if Listed(last) then [RowOf(last, fmt)] else [])
  }

  /** Rows are built record by record: the rows of a concatenation are the rows
      of its parts, in order. */
  lemma {:induction false} RowsOfAppend(a: seq<Item>, b: seq<Item>, fmt: Formats)
    ensures RowsOf(a + b, fmt) == RowsOf(a, fmt) + RowsOf(b, fmt)
    decreases |b|
  {
    if |b| == 0 {
      assert a + b == a;
    } else {
      var n := |b| - 1;
      RowsOfAppend(a, b[..n], fmt);
      assert (a + b)[..|a + b| - 1] == a + b[..n];
      assert (a + b)[|a + b| - 1] == b[n];
    }
  }

  /** Every row comes from a listed record of the batch. */
  lemma {:induction false} RowsOfSound(items: seq<Item>, fmt: Formats, r: Row)
    requires r in RowsOf(items, fmt)
    ensures exists i :: 0 <= i < |items| && Listed(items[i]) && r == RowOf(items[i], fmt)
    decreases |items|
  {
    var n := |items| - 1;
    var tail := if Listed(items[n]) then [RowOf(items[n], fmt)] else [];
    assert RowsOf(items, fmt) == RowsOf(items[..n], fmt) + tail;
    if r in RowsOf(items[..n], fmt) {
      RowsOfSound(items[..n], fmt, r);
      var i :| 0 <= i < n && Listed(items[..n][i]) && r == RowOf(items[..n][i], fmt);
      assert items[i] == items[..n][i];
    } else {
      assert Listed(items[n]) && r == RowOf(items[n], fmt);
    }
  }

  /** Every listed record of the batch yields a row. */
  lemma RowsOfComplete(items: seq<Item>, fmt: Formats, i: nat)
    requires i < |items| && Listed(items[i])
    ensures RowOf(items[i], fmt) in RowsOf(items, fmt)
  {
    assert items == items[..i] + [items[i]] + items[i + 1..];
    RowsOfAppend(items[..i] + [items[i]], items[i + 1..], fmt);
    RowsOfAppend(items[..i], [items[i]], fmt);
    assert [items[i]][..0] == [];
  }

  /** Symbols are matched case-insensitively and shown upper-cased. */
  lemma LowerCaseListed(item: Item, fmt: Formats)
    requires Listed(item)
    ensures ToUpper(RowOf(item, fmt).symbol) == RowOf(item, fmt).symbol
    ensures Listed(item.(s := Some(ToUpper(item.s.value))))
    ensures RowOf(item.(s := Some(ToUpper(item.s.value))), fmt) == RowOf(item, fmt)
  {
    ToUpperIdempotent(item.s.value);
  }

  /** A record repeated in a batch gives a row each time. */
  lemma RowsKeepDuplicates(x: Item, fmt: Formats)
    requires Listed(x)
    ensures RowsOf([x, x], fmt) == [RowOf(x, fmt), RowOf(x, fmt)]
  {
    assert [x, x][..1] == [x];
    assert [x][..0] == [];
  }

  /** The row-building loop of the message handler. It runs after the price
      loop, which has already thrown on a `null` element. */
  method BuildRows(items: seq<Item>, fmt: Formats) returns (rows: seq<Row>)
    requires NullItem !in items
    ensures rows == RowsOf(items, fmt)
  {
    rows := [];
    var i := 0;
    while i < |items|
      invariant 0 <= i <= |items|
      invariant rows == RowsOf(items[..i], fmt)
    {
      var item := items[i];
      assert items[..i + 1][..i] == items[..i];
      if item.s.Some? && item.s.value != "" && ToUpper(item.s.value) in TopCryptos {
        var symbol := ToUpper(item.s.value);
        var priceChangePercent := ParseField(fmt.parse, item.P);
        var changeColor := if AtLeastZero(priceChangePercent) then Green else Red;
        var livePrice := ParseField(fmt.parse, item.c);
        var digits := if BelowOne(livePrice) then 4 else 2;
        rows := rows + [Row(symbol, fmt.currency(livePrice, digits), fmt.fixed2(priceChangePercent) + "%",
                            changeColor, livePrice, None)];
      }
      i := i + 1;
    }
    assert items[..i] == items;
  }

  /** `prev.map(crypto => crypto.symbol === symbol ? { ...crypto, history } : crypto)`. */
  function AttachHistory(rows: seq<Row>, symbol: string, h: seq<PricePoint>): (r: seq<Row>)
    ensures |r| == |rows|
    ensures forall i :: 0 <= i < |rows| && rows[i].symbol != symbol ==> r[i] == rows[i]
    ensures forall i :: 0 <= i < |rows| && rows[i].symbol == symbol ==> r[i] == rows[i].(history := Some(h))
  {
    seq(|rows|, i requires 0 <= i < |rows| =>
      if rows[i].symbol == symbol then rows[i].(history := Some(h)) else rows[i])
  }

  /** With one row per symbol, exactly one row receives the history, and the
      others are untouched. */
  lemma AttachToOneRow(rows: seq<Row>, i: nat, h: seq<PricePoint>)
    requires i < |rows|
    requires forall j :: 0 <= j < |rows| && j != i ==> rows[j].symbol != rows[i].symbol
    ensures AttachHistory(rows, rows[i].symbol, h)[i].history == Some(h)
    ensures forall j :: 0 <= j < |rows| && j != i ==> AttachHistory(rows, rows[i].symbol, h)[j] == rows[j]
    ensures AttachHistory(rows, rows[i].symbol, h)[i].(history := rows[i].history) == rows[i]
  {
  }
}
