/** The relay of `backend/server.js`: it filters the upstream ticker batches to
    the tracked universe, keeps the latest tick per symbol in a live-state map,
    fans each filtered batch out to the open subscribers and greets every new
    subscriber with a snapshot of the live-state map. */
module Relay {
  import opened SeqFilter
  import opened JsValues
  import opened JsStrings
  import opened Wire
  import opened Universe
  import Reconnect

  /** A live-state entry: the latest price and 24-hour change, and when it was written. */
  datatype Tick = Tick(price: Num, change24h: Num, timestamp: int)

  /** The entry written for every tracked symbol when the upstream socket opens. */
  function Sentinel(now: int): Tick
  {
    Tick(Finite(0.0), Finite(0.0), now)
  }

  // ---------------------------------------------------------------------------
  // The universe filter
  // ---------------------------------------------------------------------------

  /** A record that carries a symbol. */
  predicate Named(item: Item)
  {
    item.Record? && item.s.Some?
  }

  /** The filter predicate: a tracked symbol that ends with "USDT" and names no
      leveraged token ("UP" or "DOWN"). An absent symbol is not tracked. */
  predicate Kept(item: Item)
    ensures Kept(item) ==> item.Record? && item.s.Some? && item.s.value in TopCryptos
  {
    Named(item) && Tradable(item.s.value)
  }

  /** The symbol test of the filter. */
  predicate Tradable(sym: string)
  {
    && sym in TopCryptos
    && EndsWith(sym, "USDT")
    && !Includes(sym, "UP")
    && !Includes(sym, "DOWN")
  }

  /** For the fixed universe, the suffix and leverage checks add nothing: the
      filter keeps exactly the records whose symbol is tracked. */
  lemma KeptIsUniverseMembership(item: Item)
    ensures Kept(item) <==> item.Record? && item.s.Some? && item.s.value in TopCryptos
  {
    if item.Record? && item.s.Some? && item.s.value in TopCryptos {
      UniverseShape(item.s.value);
    }
  }

  /** `parsedData.filter(...)` over an array without `null` elements. */
  function KeepAll(items: seq<Item>): (r: seq<Item>)
    ensures forall i :: 0 <= i < |r| ==> Kept(r[i])
    ensures |r| <= |items|
  {
    Filter(items, Kept)
  }

  /** Filtering works element by element: the kept records of a batch are the
      kept records of its first part followed by those of the rest, so the
      filter keeps the batch's order. */
  lemma KeepAllAppend(a: seq<Item>, b: seq<Item>)
    ensures KeepAll(a + b) == KeepAll(a) + KeepAll(b)
  {
    FilterAppend(a, b, Kept);
  }

  /** Filtering keeps every kept record as often as it occurs, and drops the rest. */
  lemma KeepAllCounts(items: seq<Item>, x: Item)
    ensures multiset(KeepAll(items))[x] == if Kept(x) then multiset(items)[x] else 0
  {
    FilterCounts(items, Kept, x);
  }

  /** The message handler's view of an inbound message: the filtered batch, or
      `None` when `JSON.parse` throws, the value is not an array, or an element
      is `null` (reading `item.s` then throws). */
  function Inbound(msg: Message): (r: Option<seq<Item>>)
    ensures r.None? <==> !msg.Array? || NullItem in msg.items
    ensures r.Some? ==> r.value == KeepAll(msg.items)
  {
    match msg
    case Array(items) => if NullItem in items then None else Some(KeepAll(items))
    case _ => None
  }

  // ---------------------------------------------------------------------------
  // The live-state map and its insertion order
  // ---------------------------------------------------------------------------

  /** The symbol of a kept record. */
  function Sym(item: Item): string
    requires Named(item)
  {
    item.s.value
  }

  /** The symbols of a filtered batch, in batch order. */
  function Symbols(items: seq<Item>): (r: seq<string>)
    requires forall i :: 0 <= i < |items| ==> Named(items[i])
    ensures |r| == |items|
    ensures forall i :: 0 <= i < |items| ==> r[i] == Sym(items[i])
  {
    seq(|items|, i requires 0 <= i < |items| => Sym(items[i]))
  }

  /** The tick written for one filtered record. */
  function TickOf(item: Item, now: int, parse: string -> Num): (t: Tick)
    requires item.Record?
    ensures t.timestamp == now
    ensures item.c.None? ==> t.price == NaN
    ensures item.P.None? ==> t.change24h == NaN
  {
    Tick(ParseField(parse, item.c), ParseField(parse, item.P), now)
  }

  /** The live-state map after `liveData.set` for each record of a batch, in order. */
  function Applied(m: map<string, Tick>, items: seq<Item>, now: int, parse: string -> Num): (r: map<string, Tick>)
    requires forall i :: 0 <= i < |items| ==> Named(items[i])
    ensures m.Keys <= r.Keys
    decreases |items|
  {
    if |items| == 0 then m
    else
      var last := items[|items| - 1];
      Applied(m, items[..|items| - 1], now, parse)[Sym(last) := TickOf(last, now, parse)]
  }

  /** One more record of a batch: one more `liveData.set`, one more symbol. */
  lemma AppliedStep(m: map<string, Tick>, items: seq<Item>, i: nat, now: int, parse: string -> Num)
    requires forall j :: 0 <= j < |items| ==> Named(items[j])
    requires i < |items|
    ensures Applied(m, items[..i + 1], now, parse) == Applied(m, items[..i], now, parse)[Sym(items[i]) := TickOf(items[i], now, parse)]
    ensures Symbols(items[..i + 1]) == Symbols(items[..i]) + [Sym(items[i])]
  {
    assert items[..i + 1][..i] == items[..i];
  }

  /** A batch adds exactly its own symbols to the map. */
  lemma {:induction false} AppliedKeys(m: map<string, Tick>, items: seq<Item>, now: int, parse: string -> Num)
    requires forall i :: 0 <= i < |items| ==> Named(items[i])
    ensures forall k :: k in Applied(m, items, now, parse) <==> k in m || k in Symbols(items)
    decreases |items|
  {
    if |items| > 0 {
      var n := |items| - 1;
      AppliedKeys(m, items[..n], now, parse);
      assert Symbols(items) == Symbols(items[..n]) + [Sym(items[n])];
    }
  }

  /** Within one batch the last record for a symbol wins. */
  lemma {:induction false} AppliedLastWins(m: map<string, Tick>, items: seq<Item>, now: int, parse: string -> Num, i: nat)
    requires forall j :: 0 <= j < |items| ==> Named(items[j])
    requires i < |items|
    requires forall j :: i < j < |items| ==> Sym(items[j]) != Sym(items[i])
    ensures Sym(items[i]) in Applied(m, items, now, parse)
    ensures Applied(m, items, now, parse)[Sym(items[i])] == TickOf(items[i], now, parse)
    decreases |items|
  {
    var n := |items| - 1;
    if i < n {
      AppliedLastWins(m, items[..n], now, parse, i);
    }
  }

  /** A symbol absent from the batch keeps its entry (or its absence). */
  lemma {:induction false} AppliedUntouched(m: map<string, Tick>, items: seq<Item>, now: int, parse: string -> Num, k: string)
    requires forall j :: 0 <= j < |items| ==> Named(items[j])
    requires forall j :: 0 <= j < |items| ==> Sym(items[j]) != k
    ensures k in Applied(m, items, now, parse) <==> k in m
    ensures k in m ==> Applied(m, items, now, parse)[k] == m[k]
    decreases |items|
  {
    if |items| > 0 {
      AppliedUntouched(m, items[..|items| - 1], now, parse, k);
    }
  }

  /** The map after the open handler's `liveData.set(symbol, sentinel)` for each of `syms`. */
  function Reset(m: map<string, Tick>, syms: seq<string>, now: int): (r: map<string, Tick>)
    ensures m.Keys <= r.Keys
    ensures forall k :: k in r ==> k in m || k in syms
    decreases |syms|
  {
    if |syms| == 0 then m
    else Reset(m, syms[..|syms| - 1], now)[syms[|syms| - 1] := Sentinel(now)]
  }

  /** One more symbol of the reset. */
  lemma ResetStep(m: map<string, Tick>, keys: seq<string>, syms: seq<string>, i: nat, now: int)
    requires i < |syms|
    ensures Reset(m, syms[..i + 1], now) == Reset(m, syms[..i], now)[syms[i] := Sentinel(now)]
    ensures Inserted(keys, syms[..i + 1]) == InsertKey(Inserted(keys, syms[..i]), syms[i])
  {
    assert syms[..i + 1][..i] == syms[..i];
  }

  /** Every tracked symbol maps to the sentinel. */
  function Sentinels(now: int): map<string, Tick>
  {
    map s | s in TopCryptos :: Sentinel(now)
  }

  /** Resetting a map with prefix `syms` of the universe: those symbols hold the
      sentinel, the others keep their entry. */
  lemma {:induction false} ResetAt(m: map<string, Tick>, syms: seq<string>, now: int, k: string)
    ensures k in syms ==> k in Reset(m, syms, now) && Reset(m, syms, now)[k] == Sentinel(now)
    ensures k !in syms ==> (k in Reset(m, syms, now) <==> k in m)
    ensures k !in syms && k in m ==> Reset(m, syms, now)[k] == m[k]
    decreases |syms|
  {
    if |syms| > 0 {
      var n := |syms| - 1;
      ResetAt(m, syms[..n], now, k);
      assert syms == syms[..n] + [syms[n]];
    }
  }

  /** A live-state map whose keys are tracked symbols is entirely overwritten
      by the reset: previously known prices are lost. */
  lemma ResetErases(m: map<string, Tick>, now: int)
    requires forall k :: k in m ==> k in TopCryptos
    ensures Reset(m, TopCryptos, now) == Sentinels(now)
  {
    forall k
      ensures (k in Reset(m, TopCryptos, now) <==> k in Sentinels(now))
      ensures k in Sentinels(now) ==> Reset(m, TopCryptos, now)[k] == Sentinels(now)[k]
    {
      ResetAt(m, TopCryptos, now, k);
    }
  }

  /** `Map.set` on the key order: a new key goes to the end, an existing one stays. */
  function InsertKey(keys: seq<string>, k: string): (r: seq<string>)
    ensures k in r
    ensures |keys| <= |r| <= |keys| + 1 && r[..|keys|] == keys
  {
    if k in keys then keys else keys + [k]
  }

  /** The key order after setting each of `ks`, in order. */
  function Inserted(keys: seq<string>, ks: seq<string>): (r: seq<string>)
    ensures |keys| <= |r| <= |keys| + |ks|
    decreases |ks|
  {
    if |ks| == 0 then keys
    else InsertKey(Inserted(keys, ks[..|ks| - 1]), ks[|ks| - 1])
  }

  /** The keys after setting `ks` are the old keys and `ks`, nothing else. */
  lemma {:induction false} InsertedMembers(keys: seq<string>, ks: seq<string>, k: string)
    ensures k in Inserted(keys, ks) <==> k in keys || k in ks
    decreases |ks|
  {
    if |ks| > 0 {
      var n := |ks| - 1;
      InsertedMembers(keys, ks[..n], k);
      assert ks == ks[..n] + [ks[n]];
    }
  }

  /** Setting keys never moves an existing key: the old order is a prefix. */
  lemma {:induction false} InsertedPrefix(keys: seq<string>, ks: seq<string>)
    ensures |keys| <= |Inserted(keys, ks)| && Inserted(keys, ks)[..|keys|] == keys
    decreases |ks|
  {
    if |ks| > 0 {
      var n := |ks| - 1;
      InsertedPrefix(keys, ks[..n]);
      var r := Inserted(keys, ks[..n]);
      if ks[n] !in r {
        assert (r + [ks[n]])[..|keys|] == r[..|keys|];
      }
    }
  }

  predicate Distinct<T(==)>(xs: seq<T>)
  {
    forall i, j :: 0 <= i < j < |xs| ==> xs[i] != xs[j]
  }

  /** Setting distinct keys on an empty map lists them in the order they were set. */
  lemma {:induction false} InsertedIntoEmpty(ks: seq<string>)
    requires Distinct(ks)
    ensures Inserted([], ks) == ks
    decreases |ks|
  {
    if |ks| > 0 {
      var n := |ks| - 1;
      FrontDistinct(ks);
      InsertedIntoEmpty(ks[..n]);
      AppendNewKey(ks[..n], ks[n]);
      assert ks[..n] + [ks[n]] == ks;
    }
  }

  /** Setting one more key is one more `InsertKey`. */
  lemma InsertedSnoc(keys: seq<string>, ks: seq<string>, k: string)
    ensures Inserted(keys, ks + [k]) == InsertKey(Inserted(keys, ks), k)
  {
    assert (ks + [k])[..|ks|] == ks;
  }

  /** A key set on an empty map after keys it is new among goes to the end. */
  lemma AppendNewKey(front: seq<string>, k: string)
    requires Inserted([], front) == front
    requires k !in front
    ensures Inserted([], front + [k]) == front + [k]
  {
    InsertedSnoc([], front, k);
  }

  /** Dropping the last entry keeps a sequence duplicate-free, and that entry
      does not occur before it. */
  lemma FrontDistinct<T>(xs: seq<T>)
    requires |xs| > 0 && Distinct(xs)
    ensures Distinct(xs[..|xs| - 1]) && xs[|xs| - 1] !in xs[..|xs| - 1]
  {
    var n := |xs| - 1;
    forall i | 0 <= i < n
      ensures xs[..n][i] != xs[n]
    {
      assert xs[..n][i] == xs[i];
    }
  }

  /** Setting keys that are already present leaves the order alone. */
  lemma {:induction false} InsertedPresent(keys: seq<string>, ks: seq<string>)
    requires forall k :: k in ks ==> k in keys
    ensures Inserted(keys, ks) == keys
    decreases |ks|
  {
    if |ks| > 0 {
      InsertedPresent(keys, ks[..|ks| - 1]);
    }
  }

  /** Setting keys keeps the key order free of duplicates. */
  lemma {:induction false} InsertedDistinct(keys: seq<string>, ks: seq<string>)
    requires Distinct(keys)
    ensures Distinct(Inserted(keys, ks))
    decreases |ks|
  {
    if |ks| > 0 {
      InsertedDistinct(keys, ks[..|ks| - 1]);
    }
  }

  /** A duplicate-free sequence has as many distinct elements as entries. */
  lemma {:induction false} DistinctCard(xs: seq<string>)
    requires Distinct(xs)
    ensures |set x | x in xs| == |xs|
    decreases |xs|
  {
    if |xs| > 0 {
      var n := |xs| - 1;
      DistinctCard(xs[..n]);
      assert xs[n] !in xs[..n];
      assert (set x | x in xs) == (set x | x in xs[..n]) + {xs[n]};
    }
  }

  // ---------------------------------------------------------------------------
  // Subscribers
  // ---------------------------------------------------------------------------

  /** The `readyState` of a subscriber socket. */
  datatype ReadyState = CONNECTING | OPEN | CLOSING | CLOSED

  /** A registered subscriber: its identity and its socket state. */
  datatype Client = Client(id: nat, state: ReadyState)

  /** Every subscriber but `id`: the ws server's client set once socket `id` closes. */
  function OtherThan(id: nat): Client -> bool
  {
    (c: Client) => c.id != id
  }

  /** One `client.send(message)`: who received which array of records. */
  datatype Delivery = Delivery(to: nat, payload: seq<Item>)

  /** The sends of one broadcast, in registry order: one per OPEN client. */
  function Deliveries(cs: seq<Client>, payload: seq<Item>): (ds: seq<Delivery>)
    ensures |ds| <= |cs|
    ensures forall d :: d in ds ==> d.payload == payload
    decreases |cs|
  {
    if |cs| == 0 then []
    else
      var last := cs[|cs| - 1];
      Deliveries(cs[..|cs| - 1], payload) + (if last.state == OPEN then [Delivery(last.id, payload)] else [])
  }

  /** One more client of a broadcast. */
  lemma DeliveriesStep(cs: seq<Client>, payload: seq<Item>, i: nat)
    requires i < |cs|
    ensures Deliveries(cs[..i + 1], payload) ==
              Deliveries(cs[..i], payload) + (if cs[i].state == OPEN then [Delivery(cs[i].id, payload)] else [])
  {
    assert cs[..i + 1][..i] == cs[..i];
  }

  /** A broadcast reaches a subscriber exactly when it is OPEN. */
  lemma {:induction false} DeliveriesReachOpen(cs: seq<Client>, payload: seq<Item>, id: nat)
    ensures Delivery(id, payload) in Deliveries(cs, payload) <==>
              exists i :: 0 <= i < |cs| && cs[i].id == id && cs[i].state == OPEN
    decreases |cs|
  {
    if |cs| > 0 {
      var n := |cs| - 1;
      DeliveriesReachOpen(cs[..n], payload, id);
      if exists i :: 0 <= i < n && cs[..n][i].id == id && cs[..n][i].state == OPEN {
        var i :| 0 <= i < n && cs[..n][i].id == id && cs[..n][i].state == OPEN;
        assert cs[i] == cs[..n][i];
      }
      if exists i :: 0 <= i < |cs| && cs[i].id == id && cs[i].state == OPEN {
        var i :| 0 <= i < |cs| && cs[i].id == id && cs[i].state == OPEN;
        if i < n {
          assert cs[..n][i] == cs[i];
        }
      }
    }
  }

  /** The `forEach` of `broadcastToClients`: one send per OPEN client, in
      registry order. */
  method Sends(cs: seq<Client>, payload: seq<Item>) returns (out: seq<Delivery>)
    ensures out == Deliveries(cs, payload)
  {
    out := [];
    var i := 0;
    while i < |cs|
      invariant 0 <= i <= |cs|
      invariant out == Deliveries(cs[..i], payload)
    {
      DeliveriesStep(cs, payload, i);
      if cs[i].state == OPEN {
        out := out + [Delivery(cs[i].id, payload)];
      }
      i := i + 1;
    }
    assert cs[..i] == cs;
  }

  /** The client set after socket `id` closes, built one client at a time. */
  method Survivors(cs: seq<Client>, id: nat) returns (kept: seq<Client>)
    ensures kept == Filter(cs, OtherThan(id))
  {
    kept := [];
    var i := 0;
    while i < |cs|
      invariant 0 <= i <= |cs|
      invariant kept == Filter(cs[..i], OtherThan(id))
    {
      assert cs[..i + 1] == cs[..i] + [cs[i]];
      FilterAppend(cs[..i], [cs[i]], OtherThan(id));
      if cs[i].id != id {
        kept := kept + [cs[i]];
      }
      i := i + 1;
    }
    assert cs[..i] == cs;
  }

  /** A broadcast only reaches registered subscribers. */
  lemma {:induction false} DeliveriesRegistered(cs: seq<Client>, payload: seq<Item>, ids: set<nat>)
    requires forall i :: 0 <= i < |cs| ==> cs[i].id in ids
    ensures forall j :: 0 <= j < |Deliveries(cs, payload)| ==> Deliveries(cs, payload)[j].to in ids
    decreases |cs|
  {
    if |cs| > 0 {
      var n := |cs| - 1;
      DeliveriesRegistered(cs[..n], payload, ids);
      DeliveriesStep(cs, payload, n);
      assert cs[..n + 1] == cs;
    }
  }

  /** With distinct identities in the registry, no subscriber is sent the same
      broadcast twice. */
  lemma {:induction false} DeliveriesDistinctTargets(cs: seq<Client>, payload: seq<Item>)
    requires forall i, j :: 0 <= i < j < |cs| ==> cs[i].id != cs[j].id
    ensures forall i, j :: 0 <= i < j < |Deliveries(cs, payload)| ==>
              Deliveries(cs, payload)[i].to != Deliveries(cs, payload)[j].to
    decreases |cs|
  {
    if |cs| > 0 {
      var n := |cs| - 1;
      var front := cs[..n];
      var ids := set i | 0 <= i < n :: cs[i].id;
      assert forall i :: 0 <= i < n ==> front[i] == cs[i];
      DeliveriesDistinctTargets(front, payload);
      DeliveriesRegistered(front, payload, ids);
      DeliveriesStep(cs, payload, n);
      assert cs[..n + 1] == cs;
      assert cs[n].id !in ids;
    }
  }

  /** The snapshot record of one entry: `{ s, c: price.toString(), P: change24h.toString() }`. */
  function SnapshotRecord(sym: string, t: Tick, show: Num -> string): Item
  {
    Record(Some(sym), Some(show(t.price)), Some(show(t.change24h)))
  }

  /** `Array.from(liveData.entries()).map(...)`: one record per entry, in the
      map's insertion order. */
  function SnapshotOf(keys: seq<string>, m: map<string, Tick>, show: Num -> string): (r: seq<Item>)
    requires forall k :: k in keys ==> k in m
    ensures |r| == |keys|
    ensures forall i :: 0 <= i < |keys| ==> r[i] == SnapshotRecord(keys[i], m[keys[i]], show)
  {
    seq(|keys|, i requires 0 <= i < |keys| => SnapshotRecord(keys[i], m[keys[i]], show))
  }

  /** After the upstream has opened, a snapshot holds exactly one record per
      tracked symbol, each with the sentinel values rendered by `show`. */
  lemma SnapshotAfterReset(keys: seq<string>, now: int, show: Num -> string)
    requires Distinct(keys)
    requires forall k :: k in keys <==> k in TopCryptos
    ensures |SnapshotOf(keys, Sentinels(now), show)| == |TopCryptos|
    ensures forall i :: 0 <= i < |keys| ==>
              SnapshotOf(keys, Sentinels(now), show)[i] == Record(Some(keys[i]), Some(show(Finite(0.0))), Some(show(Finite(0.0))))
  {
    DistinctCard(keys);
    UniverseDistinct();
    DistinctCard(TopCryptos);
    assert (set x | x in keys) == (set x | x in TopCryptos);
  }

  /** The key order lists each key of the live-state map once, and only
      tracked symbols are keys. */
  ghost predicate LiveStateOk(keys: seq<string>, m: map<string, Tick>)
  {
    && Distinct(keys)
    && (forall k :: k in m <==> k in keys)
    && (forall k :: k in keys ==> k in TopCryptos)
  }

  /** Registered subscribers have distinct identities, each already connected. */
  ghost predicate RegistryOk(cs: seq<Client>, at: map<nat, nat>)
  {
    && (forall i, j :: 0 <= i < j < |cs| ==> cs[i].id != cs[j].id)
    && (forall i :: 0 <= i < |cs| ==> cs[i].id in at)
  }

  /** Dropping subscribers keeps their identities distinct and connected. */
  lemma {:induction false} RegistryOkFilter(cs: seq<Client>, at: map<nat, nat>, keep: Client -> bool)
    requires RegistryOk(cs, at)
    ensures RegistryOk(Filter(cs, keep), at)
    decreases |cs|
  {
    if |cs| > 0 {
      var rest := cs[1..];
      assert forall i :: 0 <= i < |rest| ==> rest[i] == cs[i + 1];
      RegistryOkFilter(rest, at, keep);
      var tail := Filter(rest, keep);
      forall c | c in tail
        ensures c.id != cs[0].id
      {
        FilterMembers(rest, keep, c);
        var k :| 0 <= k < |rest| && rest[k] == c;
      }
      if keep(cs[0]) {
        var r := [cs[0]] + tail;
        assert Filter(cs, keep) == r;
        forall i, j | 0 <= i < j < |r|
          ensures r[i].id != r[j].id
        {
          assert r[j] == tail[j - 1];
          if i > 0 {
            assert r[i] == tail[i - 1];
          }
        }
      } else {
        assert Filter(cs, keep) == tail;
      }
    }
  }

  /** Every subscriber `id` connected so far has its snapshot at position
      `at[id]` of the send log, and nothing was sent to it before. */
  ghost predicate SnapshotsFirst(sent: seq<Delivery>, at: map<nat, nat>, nextId: nat)
  {
    && (forall id :: id in at ==> id < nextId && at[id] < |sent| && sent[at[id]].to == id)
    && (forall i :: 0 <= i < |sent| ==> sent[i].to in at && at[sent[i].to] <= i)
  }

  /** Later sends to connected subscribers keep every snapshot first. */
  lemma SnapshotsFirstExtend(sent: seq<Delivery>, at: map<nat, nat>, nextId: nat, ds: seq<Delivery>)
    requires SnapshotsFirst(sent, at, nextId)
    requires forall j :: 0 <= j < |ds| ==> ds[j].to in at
    ensures SnapshotsFirst(sent + ds, at, nextId)
  {
    var r := sent + ds;
    forall i | 0 <= i < |r|
      ensures r[i].to in at && at[r[i].to] <= i
    {
      if i >= |sent| {
        assert r[i] == ds[i - |sent|];
      }
    }
  }

  /** A new subscriber whose first message is appended now. */
  lemma SnapshotsFirstConnect(sent: seq<Delivery>, at: map<nat, nat>, nextId: nat, cs: seq<Client>, d: Delivery)
    requires SnapshotsFirst(sent, at, nextId) && RegistryOk(cs, at) && d.to == nextId
    ensures nextId !in at
    ensures SnapshotsFirst(sent + [d], at[nextId := |sent|], nextId + 1)
    ensures RegistryOk(cs + [Client(nextId, OPEN)], at[nextId := |sent|])
  {
  }

  // ---------------------------------------------------------------------------
  // The relay process
  // ---------------------------------------------------------------------------

  class Relay {
    /** The insertion order of `liveData`'s keys (a JavaScript `Map` iterates in it). */
    var keys: seq<string>
    /** `liveData`: the latest tick per tracked symbol. */
    var liveData: map<string, Tick>
    /** The state of the single upstream socket. */
    var upstream: Reconnect.State
    /** `wss.clients`, in iteration order. */
    var clients: seq<Client>
    /** Every message sent to a subscriber so far, in order. */
    var sent: seq<Delivery>
    /** The identity the next subscriber connection receives. */
    var nextId: nat
    /** For each subscriber ever connected, the position in `sent` of its snapshot. */
    ghost var snapshotAt: map<nat, nat>

    ghost predicate Valid()
      reads this
    {
      && LiveStateOk(keys, liveData)
      && RegistryOk(clients, snapshotAt)
      && SnapshotsFirst(sent, snapshotAt, nextId)
    }

    /** Server start: empty live state, no subscribers, and `connectToBinance()`
        has created the first upstream socket. */
    constructor ()
      ensures Valid()
      ensures keys == [] && liveData == map[] && clients == [] && sent == []
      ensures upstream == Reconnect.Connecting
    {
      keys := [];
      liveData := map[];
      upstream := Reconnect.Connecting;
      clients := [];
      sent := [];
      nextId := 0;
      snapshotAt := map[];
    }

    /** `liveData.set(k, t)`. */
    method Put(k: string, t: Tick)
      requires Valid() && k in TopCryptos
      modifies this`keys, this`liveData
      ensures Valid()
      ensures liveData == old(liveData)[k := t]
      ensures keys == InsertKey(old(keys), k)
    {
      liveData := liveData[k := t];
      keys := InsertKey(keys, k);
    }

    /** An upstream lifecycle event (`open`, `error`, `close`, or the reconnect
        timer). The open handler writes the sentinel for every tracked symbol. */
    method OnUpstreamEvent(e: Reconnect.Event, now: int) returns (effect: Reconnect.Effect)
      requires Valid()
      modifies this`upstream, this`keys, this`liveData
      ensures Valid()
      ensures (upstream, effect) == Reconnect.Step(old(upstream), e)
      ensures effect == Reconnect.InitLiveData ==>
                liveData == Sentinels(now) && keys == Inserted(old(keys), TopCryptos)
      ensures effect != Reconnect.InitLiveData ==> liveData == old(liveData) && keys == old(keys)
    {
      var step := Reconnect.Step(upstream, e);
      upstream, effect := step.0, step.1;
      if effect == Reconnect.InitLiveData {
        OnOpen(now);
      }
    }

    /** The open handler: the sentinel for every tracked symbol, in order. */
    method OnOpen(now: int)
      requires Valid()
      modifies this`keys, this`liveData
      ensures Valid()
      ensures liveData == Sentinels(now)
      ensures keys == Inserted(old(keys), TopCryptos)
    {
      var i := 0;
      while i < |TopCryptos|
        invariant 0 <= i <= |TopCryptos|
        invariant Valid()
        invariant liveData == Reset(old(liveData), TopCryptos[..i], now)
        invariant keys == Inserted(old(keys), TopCryptos[..i])
      {
        ResetStep(old(liveData), old(keys), TopCryptos, i, now);
        Put(TopCryptos[i], Sentinel(now));
        i := i + 1;
      }
      assert TopCryptos[..i] == TopCryptos;
      ResetErases(old(liveData), now);
    }

    /** The upstream `message` handler: parse, filter, write each kept record
        into the live state, then broadcast the filtered array, even when empty.
        When parsing or filtering throws, nothing changes and nothing is sent. */
    method OnMessage(msg: Message, now: int, parse: string -> Num) returns (broadcast: Option<seq<Item>>)
      requires Valid()
      modifies this`keys, this`liveData, this`sent
      ensures Valid()
      ensures broadcast == Inbound(msg)
      ensures broadcast.None? ==> keys == old(keys) && liveData == old(liveData) && sent == old(sent)
      ensures broadcast.Some? ==>
                && liveData == Applied(old(liveData), broadcast.value, now, parse)
                && keys == Inserted(old(keys), Symbols(broadcast.value))
                && sent == old(sent) + Deliveries(clients, broadcast.value)
    {
      broadcast := Inbound(msg);
      if broadcast.Some? {
        ApplyAll(broadcast.value, now, parse);
        Broadcast(broadcast.value);
      }
    }

    /** The loop of the message handler that writes each kept record, in order. */
    method ApplyAll(filtered: seq<Item>, now: int, parse: string -> Num)
      requires Valid()
      requires forall i :: 0 <= i < |filtered| ==> Named(filtered[i]) && filtered[i].s.value in TopCryptos
      modifies this`keys, this`liveData
      ensures Valid()
      ensures liveData == Applied(old(liveData), filtered, now, parse)
      ensures keys == Inserted(old(keys), Symbols(filtered))
    {
      var i := 0;
      while i < |filtered|
        invariant 0 <= i <= |filtered|
        invariant Valid()
        invariant liveData == Applied(old(liveData), filtered[..i], now, parse)
        invariant keys == Inserted(old(keys), Symbols(filtered[..i]))
      {
        AppliedStep(old(liveData), filtered, i, now, parse);
        Put(Sym(filtered[i]), TickOf(filtered[i], now, parse));
        i := i + 1;
      }
      assert filtered[..i] == filtered;
    }

    /** `broadcastToClients`: send to every registered client whose state is OPEN. */
    method Broadcast(payload: seq<Item>)
      requires Valid()
      modifies this`sent
      ensures Valid()
      ensures sent == old(sent) + Deliveries(clients, payload)
    {
      var out := Sends(clients, payload);
      DeliveriesRegistered(clients, payload, snapshotAt.Keys);
      SnapshotsFirstExtend(sent, snapshotAt, nextId, out);
      sent := sent + out;
    }

    /** The snapshot of the live state, one record per entry in insertion order. */
    method Snapshot(show: Num -> string) returns (initial: seq<Item>)
      requires Valid()
      ensures initial == SnapshotOf(keys, liveData, show)
    {
      initial := [];
      var i := 0;
      while i < |keys|
        invariant 0 <= i <= |keys|
        invariant |initial| == i
        invariant forall j :: 0 <= j < i ==> initial[j] == SnapshotRecord(keys[j], liveData[keys[j]], show)
      {
        initial := initial + [SnapshotRecord(keys[i], liveData[keys[i]], show)];
        i := i + 1;
      }
    }

    /** A new subscriber connection: it joins the registry as OPEN and its first
        message is the snapshot of the live state. */
    method Connect(show: Num -> string) returns (id: nat)
      requires Valid()
      modifies this`clients, this`sent, this`nextId, this`snapshotAt
      ensures Valid()
      ensures id == old(nextId) && nextId == id + 1
      ensures clients == old(clients) + [Client(id, OPEN)]
      ensures sent == old(sent) + [Delivery(id, SnapshotOf(keys, liveData, show))]
      ensures forall j :: 0 <= j < |old(sent)| ==> sent[j].to != id
      ensures snapshotAt == old(snapshotAt)[id := |old(sent)|]
    {
      id := nextId;
      var initial := Snapshot(show);
      SnapshotsFirstConnect(sent, snapshotAt, nextId, clients, Delivery(id, initial));
      sent := sent + [Delivery(id, initial)];
      snapshotAt := snapshotAt[id := |sent| - 1];
      clients := clients + [Client(id, OPEN)];
      nextId := nextId + 1;
    }

    /** The subscriber socket of `id` changes its ready state. */
    method SetReadyState(id: nat, st: ReadyState)
      requires Valid()
      modifies this`clients
      ensures Valid()
      ensures |clients| == |old(clients)|
      ensures forall i :: 0 <= i < |clients| ==>
                clients[i] == if old(clients)[i].id == id then Client(id, st) else old(clients)[i]
    {
      var cs := clients;
      clients := seq(|cs|, i requires 0 <= i < |cs| => if cs[i].id == id then Client(id, st) else cs[i]);
      assert forall i :: 0 <= i < |clients| ==> clients[i].id == cs[i].id;
    }

    /** A closed subscriber socket leaves the ws server's client set; the
        others keep their order. */
    method Remove(id: nat)
      requires Valid()
      modifies this`clients
      ensures Valid()
      ensures clients == Filter(old(clients), OtherThan(id))
      ensures forall c :: c in clients <==> c in old(clients) && c.id != id
    {
      var kept := Survivors(clients, id);
      RegistryOkFilter(clients, snapshotAt, OtherThan(id));
      forall c
        ensures c in kept <==> c in clients && c.id != id
      {
        FilterMembers(clients, OtherThan(id), c);
      }
      clients := kept;
    }

    /** No subscriber receives anything before its snapshot. */
    lemma SnapshotComesFirst(id: nat, j: nat)
      requires Valid()
      requires j < |sent| && sent[j].to == id
      ensures id in snapshotAt && snapshotAt[id] <= j && sent[snapshotAt[id]].to == id
    {
    }
  }
}
