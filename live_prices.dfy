/** The live-price store shared by the charts (`LiveDataContext.tsx`), whose
    merge the dashboard page repeats for its own copy: every record with a
    truthy symbol and a truthy price sets `symbol -> parseFloat(price)`. */
module LivePrices {
  import opened JsValues
  import opened Wire

  /** The one symbol that an assignment into a plain object literal does not
      store: `newPrices["__proto__"] = n` goes to the prototype setter, which
      ignores a number. */
  const ProtoKey: string := "__proto__"

  /** `item.s && item.c`: the record passes the loop's test. */
  predicate Contributes(item: Item)
    ensures Contributes(item) ==> item.Record? && item.s.Some? && item.c.Some?
    ensures Contributes(item) ==> |item.s.value| > 0 && |item.c.value| > 0
  {
    item.Record? && TruthyStr(item.s) && TruthyStr(item.c)
  }

  /** The record passes the test and its assignment stores a key. */
  predicate Sets(item: Item)
    ensures Sets(item) ==> Contributes(item)
    ensures item.Record? && item.s == Some(ProtoKey) ==> !Sets(item)
  {
    Contributes(item) && item.s.value != ProtoKey
  }

  /** `newPrices` after the loop over `items`, in order. */
  function BatchPrices(items: seq<Item>, parse: string -> Num): (r: map<string, Num>)
    ensures ProtoKey !in r
    ensures "" !in r
    decreases |items|
  {
    if |items| == 0 then map[]
    else
      var last := items[|items| - 1];
      var prev := BatchPrices(items[..|items| - 1], parse);
      if Sets(last) then prev[last.s.value := parse(last.c.value)] else prev
  }

  /** The batch sets exactly the symbols of its contributing records other
      than `__proto__`: no universe filtering is applied. */
  lemma {:induction false} BatchPricesKeys(items: seq<Item>, parse: string -> Num, k: string)
    ensures k in BatchPrices(items, parse) <==>
              exists i :: 0 <= i < |items| && Sets(items[i]) && items[i].s.value == k
    decreases |items|
  {
    if |items| > 0 {
      var n := |items| - 1;
      BatchPricesKeys(items[..n], parse, k);
      if exists i :: 0 <= i < n && Sets(items[..n][i]) && items[..n][i].s.value == k {
        var i :| 0 <= i < n && Sets(items[..n][i]) && items[..n][i].s.value == k;
        assert items[i] == items[..n][i];
      }
      if exists i :: 0 <= i < |items| && Sets(items[i]) && items[i].s.value == k {
        var i :| 0 <= i < |items| && Sets(items[i]) && items[i].s.value == k;
        if i < n {
          assert items[..n][i] == items[i];
        }
      }
    }
  }

  /** A record with a falsy symbol or price, or with the symbol `__proto__`,
      contributes nothing, wherever it stands in the batch. */
  lemma {:induction false} NonContributingIgnored(x: Item, items: seq<Item>, parse: string -> Num)
    requires !Sets(x)
    ensures BatchPrices([x] + items, parse) == BatchPrices(items, parse)
    decreases |items|
  {
    if |items| > 0 {
      var n := |items| - 1;
      NonContributingIgnored(x, items[..n], parse);
      assert ([x] + items)[..|items|] == [x] + items[..n];
      assert ([x] + items)[|items|] == items[n];
    } else {
      assert ([x] + items)[..0] == [];
    }
  }

  /** Within one batch the last contributing record for a symbol wins. */
  lemma {:induction false} BatchPricesLastWins(items: seq<Item>, parse: string -> Num, i: nat)
    requires i < |items| && Sets(items[i])
    requires forall j :: i < j < |items| && Sets(items[j]) ==> items[j].s != items[i].s
    ensures items[i].s.value in BatchPrices(items, parse)
    ensures BatchPrices(items, parse)[items[i].s.value] == parse(items[i].c.value)
    decreases |items|
  {
    var n := |items| - 1;
    if i < n {
      BatchPricesLastWins(items[..n], parse, i);
    }
  }

  /** `{ ...prev, ...newPrices }`: the new prices override, every other key keeps
      its value, and no key is removed. */
  function Merge(prev: map<string, Num>, np: map<string, Num>): (r: map<string, Num>)
    ensures forall k :: k in r <==> k in prev || k in np
    ensures forall k :: k in np ==> r[k] == np[k]
    ensures forall k :: k in prev && k !in np ==> r[k] == prev[k]
  {
    prev + np
  }

  /** The price map after one inbound message. An unparseable message, a value
      that is not an array, or a `null` element (on which `item.s` throws)
      leaves the map as it was. */
  function Received(prev: map<string, Num>, msg: Message, parse: string -> Num): (r: map<string, Num>)
    ensures prev.Keys <= r.Keys
    ensures ProtoKey in r ==> ProtoKey in prev
    ensures !msg.Array? ==> r == prev
  {
    if msg.Array? && NullItem !in msg.items then Merge(prev, BatchPrices(msg.items, parse)) else prev
  }

  /** A record for `__proto__` never reaches the price map. */
  lemma ProtoIgnored(prev: map<string, Num>, c: string, p: Option<string>, parse: string -> Num)
    ensures Received(prev, Array([Record(Some(ProtoKey), Some(c), p)]), parse) == prev
  {
    var items := [Record(Some(ProtoKey), Some(c), p)];
    assert items[..0] == [];
    assert BatchPrices(items, parse) == map[];
  }

  /** A record for any symbol, tracked or not, sets that symbol's price. */
  lemma ReceivedAcceptsAnySymbol(prev: map<string, Num>, s: string, c: string, p: Option<string>, parse: string -> Num)
    requires s != "" && c != "" && s != ProtoKey
    ensures Received(prev, Array([Record(Some(s), Some(c), p)]), parse) == prev[s := parse(c)]
  {
    var items := [Record(Some(s), Some(c), p)];
    assert items[..0] == [];
    assert BatchPrices(items, parse) == map[s := parse(c)];
  }

  /** The loop that fills `newPrices`; `None` when an element is `null`. */
  method CollectPrices(items: seq<Item>, parse: string -> Num) returns (np: Option<map<string, Num>>)
    ensures np.None? <==> NullItem in items
    ensures np.Some? ==> np.value == BatchPrices(items, parse)
  {
    var prices: map<string, Num> := map[];
    var i := 0;
    while i < |items|
      invariant 0 <= i <= |items|
      invariant NullItem !in items[..i]
      invariant prices == BatchPrices(items[..i], parse)
    {
      var item := items[i];
      assert items[..i + 1][..i] == items[..i];
      if item.NullItem? {
        return None;
      }
      if TruthyStr(item.s) && TruthyStr(item.c) && item.s.value != ProtoKey {
        prices := prices[item.s.value := parse(item.c.value)];
      }
      i := i + 1;
    }
    assert items[..i] == items;
    np := Some(prices);
  }

  /** The context's store of live prices. */
  class LiveDataStore {
    var livePrices: map<string, Num>

    constructor ()
      ensures livePrices == map[]
    {
      livePrices := map[];
    }

    /** `socket.onmessage`: merge the batch's prices into the store. */
    method OnMessage(msg: Message, parse: string -> Num)
      modifies this
      ensures livePrices == Received(old(livePrices), msg, parse)
    {
      if msg.Array? {
        var np := CollectPrices(msg.items, parse);
        if np.Some? {
          livePrices := Merge(livePrices, np.value);
        }
      }
    }
  }
}
