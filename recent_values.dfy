/**
 * RecentValuesListener: keeps the most recent reading of every sensor in a
 * dict and serves that dict, one text line per sensor, to every client that
 * connects to its TCP port. The server is started lazily: the constructor
 * tries once, and every delivered reading tries again until a start succeeds.
 */
module RecentValues {
  import opened Wrappers
  import opened Text
  import opened Readings

  // ---------------------------------------------------------------------------
  // Configuration of the listening socket

  datatype Address = Address(host: Param, port: int)

  const DefaultHost: Param := Str("localhost")
  const DefaultPort: Param := Int(4711)

  /**
   * `host=params.get('host','localhost')`, `port=params.get('port',4711)` and
   * `int(port)`; None when `int(port)` raises, which aborts the start.
   */
  function ListenAddress(params: Params): (r: Option<Address>)
    ensures r.None? <==> "port" in params && params["port"].Str? && ParseInt(params["port"].text).None?
    ensures r.Some? ==> r.value.host == (if "host" in params then params["host"] else Str("localhost"))
    ensures "port" !in params ==> r.Some? && r.value.port == 4711
    ensures "port" in params && params["port"].Int? ==> r.Some? && r.value.port == params["port"].number
    ensures "port" in params && params["port"].Str? && r.Some? ==> r.value.port == ParseInt(params["port"].text).value
  {
    var host := Get(params, "host", DefaultHost);
    var port := Get(params, "port", DefaultPort);
    match ToInt(port)
    case Some(p) => Some(Address(host, p))
    case None => None
  }

  // ---------------------------------------------------------------------------
  // The dict of latest readings

  predicate Distinct(s: seq<int>) {
    forall i, j :: 0 <= i < j < |s| ==> s[i] != s[j]
  }

  /** Every key listed has an entry. */
  predicate Listed(keys: seq<int>, entries: map<int, Reading>) {
    forall i :: 0 <= i < |keys| ==> keys[i] in entries
  }

  /**
   * A Python dict from sensor id to reading. `keys` lists the ids in insertion
   * order, which is the order in which the dict's `items()` yields them.
   */
  class Table {
    var keys: seq<int>
    var entries: map<int, Reading>

    ghost predicate Valid()
      reads this
    {
      Distinct(keys) && Listed(keys, entries) && (forall k :: k in entries ==> k in keys)
    }

    /** `{}` */
    constructor ()
      ensures Valid()
      ensures keys == [] && entries == map[]
    {
      keys, entries := [], map[];
    }

    /** `self[k] = v`: replaces the value in place, or appends a new key. */
    method Put(k: int, v: Reading)
      requires Valid()
      modifies this
      ensures Valid()
      ensures entries == old(entries)[k := v]
      ensures keys == if k in old(entries) then old(keys) else old(keys) + [k]
    {
      if k !in entries {
        keys := keys + [k];
      }
      entries := entries[k := v];
    }
  }

  // ---------------------------------------------------------------------------
  // The query response

  /** The columns of a query line, in the order `'%d,%f %s,%d,%s,%s,%s\n'` writes them. */
  function QueryColumns(sid: int, d: Reading): (cols: seq<string>)
    ensures |cols| == 6
    ensures PlainReading(d) ==> forall i :: 0 <= i < |cols| ==> PlainText(cols[i])
  {
    [DecimalText(sid), d.cookedText + " " + d.unit, DecimalText(d.timestamp),
     SignalText(d.signal), d.sensorType, d.sensorName]
  }

  /** One line of the response: the columns separated by commas, then a newline. */
  function QueryLine(sid: int, d: Reading): string {
    Join(QueryColumns(sid, d), ',') + "\n"
  }

  /** A query line starts with the id and a comma, and ends with its newline. */
  lemma QueryLineFrame(sid: int, d: Reading)
    ensures var line := QueryLine(sid, d);
      && |line| > |DecimalText(sid)| && line[|line| - 1] == '\n'
      && line[..|DecimalText(sid)| + 1] == DecimalText(sid) + ","
  {
    var cols := QueryColumns(sid, d);
    assert Join(cols, ',') == cols[0] + [','] + Join(cols[1..], ',');
  }

  /**
   * `values.items()`: the (id, reading) pairs in the dict's key order. Each
   * pair holds its key's current value, and when the order lists every key
   * once, every entry of the dict appears exactly once.
   */
  function Items(keys: seq<int>, entries: map<int, Reading>): (items: seq<(int, Reading)>)
    requires Listed(keys, entries)
    ensures |items| == |keys|
    ensures forall i :: 0 <= i < |items| ==> items[i].0 == keys[i]
    ensures forall i :: 0 <= i < |items| ==> items[i].0 in entries && items[i].1 == entries[items[i].0]
    ensures (forall k :: k in entries ==> k in keys) ==>
              forall k :: k in entries <==> exists i :: 0 <= i < |items| && items[i].0 == k
    ensures Distinct(keys) ==> forall i, j :: 0 <= i < j < |items| ==> items[i].0 != items[j].0
  {
    seq(|keys|, i requires 0 <= i < |keys| => (keys[i], entries[keys[i]]))
  }

  /** The response for the table's items: their lines, one after another. */
  function Render(items: seq<(int, Reading)>): (r: string)
    ensures r == "" <==> items == []
  {
    if items == [] then ""
    else
      var last := items[|items| - 1];
      Render(items[..|items| - 1]) + QueryLine(last.0, last.1)
  }

  /**
   * With plain columns, a query line holds one newline, at its end, and the
   * text before it splits at the commas back into the reading's columns.
   */
  lemma QueryLineColumns(sid: int, d: Reading)
    requires PlainReading(d)
    ensures Split(Join(QueryColumns(sid, d), ','), ',') == QueryColumns(sid, d)
    ensures '\n' !in Join(QueryColumns(sid, d), ',')
    ensures Count('\n', QueryLine(sid, d)) == 1
  {
    var cols := QueryColumns(sid, d);
    SplitJoin(cols, ',');
    JoinAbsent(cols, ',', '\n');
    CountAbsent('\n', Join(cols, ','));
    CountConcat('\n', Join(cols, ','), "\n");
  }

  /**
   * A sample reading: its query line has six comma-separated
   * columns, the cooked value and the unit sharing the second, split by a space.
   */
  lemma QueryLineExample()
    ensures var d := Reading(3, 0, "21.400000", "°C", 1700000000, None, "kitchen", "DS18B20");
      && QueryLine(3, d) == Join(["3", "21.400000 °C", "1700000000", "-", "DS18B20", "kitchen"], ',') + "\n"
      && Split(Join(QueryColumns(3, d), ','), ',') == ["3", "21.400000 °C", "1700000000", "-", "DS18B20", "kitchen"]
  {
    var d := Reading(3, 0, "21.400000", "°C", 1700000000, None, "kitchen", "DS18B20");
    QueryColumnsExample(d);
    ExampleIsPlain(d);
    QueryLineColumns(3, d);
  }

  lemma QueryColumnsExample(d: Reading)
    requires d == Reading(3, 0, "21.400000", "°C", 1700000000, None, "kitchen", "DS18B20")
    ensures QueryColumns(3, d) == ["3", "21.400000 °C", "1700000000", "-", "DS18B20", "kitchen"]
  {
    DecimalExample();
    assert d.cookedText + " " + d.unit == "21.400000 °C";
  }

  lemma ExampleIsPlain(d: Reading)
    requires d == Reading(3, 0, "21.400000", "°C", 1700000000, None, "kitchen", "DS18B20")
    ensures PlainReading(d)
  {
    PlainLiteral(d.cookedText + " " + d.unit, "21.400000 °C");
    PlainLiteral(SignalText(d.signal), "-");
    PlainLiteral(d.sensorName, "kitchen");
    PlainLiteral(d.sensorType, "DS18B20");
  }

  /** Helper for the sample reading: each of its text columns is plain. */
  lemma PlainLiteral(s: string, literal: string)
    requires s == literal
    requires literal == "21.400000 °C" || literal == "-" || literal == "kitchen" || literal == "DS18B20"
    ensures PlainText(s)
  {
  }

  lemma DecimalExample()
    ensures DecimalText(3) == "3"
    ensures DecimalText(1700000000) == "1700000000"
  {
    assert Digits(1) == "1";
    assert Digits(17) == "17";
    assert Digits(170) == "170";
    assert Digits(1700) == "1700";
    assert Digits(17000) == "17000";
    assert Digits(170000) == "170000";
    assert Digits(1700000) == "1700000";
    assert Digits(17000000) == "17000000";
    assert Digits(170000000) == "170000000";
  }

  lemma {:induction false} RenderAppend(a: seq<(int, Reading)>, b: seq<(int, Reading)>)
    ensures Render(a + b) == Render(a) + Render(b)
    decreases |b|
  {
    if b == [] {
      assert a + b == a;
    } else {
      var b', last := b[..|b| - 1], b[|b| - 1];
      var line := QueryLine(last.0, last.1);
      RenderAppend(a, b');
      DropLastOfAppend(a, b);
      AppendAssoc(Render(a), Render(b'), line);
    }
  }

  /** The response is the lines before an entry, that entry's line, and the lines after it. */
  lemma RenderAt(items: seq<(int, Reading)>, i: nat)
    requires i < |items|
    ensures Render(items) == Render(items[..i]) + QueryLine(items[i].0, items[i].1) + Render(items[i + 1..])
  {
    var before, x, after := items[..i], items[i], items[i + 1..];
    SplitAround(items, i);
    RenderAppend(before + [x], after);
    assert (before + [x])[..i] == before;
  }

  /** Assigning to a key the dict does not hold yet appends one (key, value) pair. */
  lemma ItemsPutNew(keys: seq<int>, entries: map<int, Reading>, k: int, v: Reading)
    requires Listed(keys, entries)
    requires k !in keys
    ensures Items(keys + [k], entries[k := v]) == Items(keys, entries) + [(k, v)]
  {
  }

  /** Assigning to a key the dict holds replaces its pair in place. */
  lemma ItemsPutExisting(keys: seq<int>, entries: map<int, Reading>, i: nat, v: Reading)
    requires Listed(keys, entries)
    requires Distinct(keys) && i < |keys|
    ensures Items(keys, entries[keys[i] := v]) == Items(keys, entries)[i := (keys[i], v)]
  {
  }

  /** After a reading for a new id, the response gains that reading's line at its end. */
  lemma RenderPutNew(keys: seq<int>, entries: map<int, Reading>, k: int, v: Reading)
    requires Listed(keys, entries)
    requires k !in keys
    ensures Render(Items(keys + [k], entries[k := v])) == Render(Items(keys, entries)) + QueryLine(k, v)
  {
    ItemsPutNew(keys, entries, k, v);
    var items := Items(keys, entries);
    assert (items + [(k, v)])[..|items|] == items;
  }

  /** After a reading for a known id, its line is replaced where it stood and nothing else moves. */
  lemma RenderPutExisting(keys: seq<int>, entries: map<int, Reading>, i: nat, v: Reading)
    requires Listed(keys, entries)
    requires Distinct(keys) && i < |keys|
    ensures var items := Items(keys, entries);
      Render(Items(keys, entries[keys[i] := v]))
        == Render(items[..i]) + QueryLine(keys[i], v) + Render(items[i + 1..])
  {
    var items := Items(keys, entries);
    var items' := items[i := (keys[i], v)];
    ItemsPutExisting(keys, entries, i, v);
    RenderAt(items', i);
    assert items'[..i] == items[..i];
    assert items'[i + 1..] == items[i + 1..];
  }

  /** With plain columns, the response holds exactly one newline per table entry. */
  lemma {:induction false} RenderLineCount(items: seq<(int, Reading)>)
    requires forall i :: 0 <= i < |items| ==> PlainReading(items[i].1)
    ensures Count('\n', Render(items)) == |items|
  {
    if items != [] {
      var prefix, last := items[..|items| - 1], items[|items| - 1];
      RenderLineCount(prefix);
      QueryLineColumns(last.0, last.1);
      CountConcat('\n', Render(prefix), QueryLine(last.0, last.1));
    }
  }

  // ---------------------------------------------------------------------------
  // The table as a function of the readings delivered so far

  /** The dict after `values[d['sensorid']] = d` for each reading of h in turn. */
  function Latest(h: seq<Reading>): map<int, Reading> {
    if h == [] then map[]
    else
      var d := h[|h| - 1];
      Latest(h[..|h| - 1])[d.sensorId := d]
  }

  /** The dict's key order after the same assignments: ids by first delivery. */
  function FirstSeen(h: seq<Reading>): seq<int> {
    if h == [] then []
    else
      var ids := FirstSeen(h[..|h| - 1]);
      var id := h[|h| - 1].sensorId;
      if id in ids then ids else ids + [id]
  }

  /** The table holds an entry for exactly the ids some delivered reading carried, with no id twice in its order. */
  lemma {:induction false} LatestDomain(h: seq<Reading>)
    ensures forall k :: k in Latest(h) <==> (exists i :: 0 <= i < |h| && h[i].sensorId == k)
    ensures forall k :: k in FirstSeen(h) <==> k in Latest(h)
    ensures Distinct(FirstSeen(h))
  {
    if h != [] {
      var p := h[..|h| - 1];
      LatestDomain(p);
      forall k | k in Latest(h)
        ensures exists i :: 0 <= i < |h| && h[i].sensorId == k
      {
        if k != h[|h| - 1].sensorId {
          assert k in Latest(p);
          var i :| 0 <= i < |p| && p[i].sensorId == k;
          assert h[i] == p[i];
        }
      }
      forall k | exists i :: 0 <= i < |h| && h[i].sensorId == k
        ensures k in Latest(h)
      {
        var i :| 0 <= i < |h| && h[i].sensorId == k;
        if i < |p| {
          assert p[i] == h[i];
        }
      }
    }
  }

  /**
   * Last write wins by arrival: the entry for a reading's id is that reading
   * when no later reading carried the same id, whatever the timestamps.
   */
  lemma {:induction false} LatestWins(h: seq<Reading>, i: nat)
    requires i < |h|
    requires forall j :: i < j < |h| ==> h[j].sensorId != h[i].sensorId
    ensures h[i].sensorId in Latest(h) && Latest(h)[h[i].sensorId] == h[i]
  {
    if i < |h| - 1 {
      var p := h[..|h| - 1];
      assert p[i] == h[i];
      forall j | i < j < |p| ensures p[j].sensorId != p[i].sensorId {
        assert p[j] == h[j];
      }
      LatestWins(p, i);
    }
  }

  /** Every entry is a delivered reading, filed under its own id, and no later reading carried that id. */
  lemma {:induction false} LatestIsDelivered(h: seq<Reading>, k: int)
    requires k in Latest(h)
    ensures exists i :: 0 <= i < |h| && h[i] == Latest(h)[k] && h[i].sensorId == k
                        && (forall j :: i < j < |h| ==> h[j].sensorId != k)
  {
    var p := h[..|h| - 1];
    var d := h[|h| - 1];
    if d.sensorId == k {
      assert h[|h| - 1] == Latest(h)[k];
    } else {
      LatestIsDelivered(p, k);
      var i :| 0 <= i < |p| && p[i] == Latest(p)[k] && p[i].sensorId == k
               && (forall j :: i < j < |p| ==> p[j].sensorId != k);
      assert h[i] == p[i];
      forall j | i < j < |h| ensures h[j].sensorId != k {
        if j < |p| { assert h[j] == p[j]; }
      }
    }
  }

  /**
   * After the readings h, the query response shows the last reading of each
   * id as that id's line, at the place n where the id was first seen.
   */
  lemma ResponseShowsLastReading(h: seq<Reading>, i: nat, n: nat)
    requires i < |h|
    requires forall j :: i < j < |h| ==> h[j].sensorId != h[i].sensorId
    requires n < |FirstSeen(h)| && FirstSeen(h)[n] == h[i].sensorId
    ensures Listed(FirstSeen(h), Latest(h))
    ensures var items := Items(FirstSeen(h), Latest(h));
      && items[n] == (h[i].sensorId, h[i])
      && Render(items) == Render(items[..n]) + QueryLine(h[i].sensorId, h[i]) + Render(items[n + 1..])
  {
    LatestDomain(h);
    LatestWins(h, i);
    var keys, m := FirstSeen(h), Latest(h);
    forall j | 0 <= j < |keys| ensures keys[j] in m {
      assert keys[j] in keys;
    }
    var items := Items(keys, m);
    assert items[n] == (h[i].sensorId, h[i]);
    RenderAt(items, n);
  }

  /** Every id first seen in h has a place in the key order. */
  lemma FirstSeenPlace(h: seq<Reading>, i: nat) returns (n: nat)
    requires i < |h|
    ensures n < |FirstSeen(h)| && FirstSeen(h)[n] == h[i].sensorId
  {
    LatestDomain(h);
    var k := h[i].sensorId;
    assert k in Latest(h) by {
      assert 0 <= i < |h| && h[i].sensorId == k;
    }
    assert k in FirstSeen(h);
    n :| 0 <= n < |FirstSeen(h)| && FirstSeen(h)[n] == k;
  }

  // ---------------------------------------------------------------------------
  // The server and the listener

  /**
   * The TCP server `openListeningPort` starts. Its request handler class was
   * defined over the listener's own `values` dict, so it reads the live table.
   */
  class QueryServer {
    const values: Table
    const address: Address

    constructor (values: Table, address: Address)
      ensures this.values == values && this.address == address
    {
      this.values := values;
      this.address := address;
    }

    /** The handler's `setup` for one accepted connection: the response it sends. */
    method Setup() returns (response: string)
      requires values.Valid()
      ensures response == Render(Items(values.keys, values.entries))
    {
      var items := Items(values.keys, values.entries);
      response := "";
      for i := 0 to |items|
        invariant response == Render(items[..i])
      {
        var (sid, data) := items[i];
        assert items[..i + 1][..i] == items[..i];
        response := response + QueryLine(sid, data);
      }
      assert items[..|items|] == items;
    }
  }

  class RecentValuesListener {
    const params: Params
    const values: Table
    var ready: bool
    /** The server the daemon thread runs, once a start has succeeded. */
    var server: QueryServer?
    /** Every reading delivered so far, in order. */
    ghost var history: seq<Reading>
    /** How many times `openListeningPort` has run. */
    ghost var startAttempts: nat

    ghost predicate Valid()
      reads this, values
    {
      && values.Valid()
      && values.entries == Latest(history)
      && values.keys == FirstSeen(history)
      && (ready <==> server != null)
      && (server != null ==> server.values == values)
    }

    /** `__init__`: an empty table, not ready, then one attempt to start the server. */
    constructor (params: Params, bindOk: bool)
      ensures Valid() && fresh(values)
      ensures this.params == params
      ensures history == [] && values.entries == map[] && values.keys == []
      ensures startAttempts == 1
      ensures ready == (ListenAddress(params).Some? && bindOk)
      ensures ready ==> server != null && fresh(server) && server.address == ListenAddress(params).value
    {
      this.params := params;
      values := new Table();
      ready := false;
      server := null;
      history := [];
      startAttempts := 0;
      new;
      OpenListeningPort(bindOk);
    }

    /**
     * `openListeningPort`: one attempt to start the server on `ListenAddress(params)`.
     * `bindOk` says whether creating the server and starting its thread succeed;
     * on failure nothing but the attempt count changes.
     */
    method OpenListeningPort(bindOk: bool)
      requires Valid()
      modifies this
      ensures Valid()
      ensures history == old(history)
      ensures startAttempts == old(startAttempts) + 1
      ensures ready == (old(ready) || (ListenAddress(params).Some? && bindOk))
      ensures ListenAddress(params).Some? && bindOk ==>
                fresh(server) && server.address == ListenAddress(params).value
      ensures !(ListenAddress(params).Some? && bindOk) ==> server == old(server)
    {
      startAttempts := startAttempts + 1;
      var address := ListenAddress(params);
      if address.Some? && bindOk {
        server := new QueryServer(values, address.value);
        ready := true;
      }
    }

    /** `onNewData`: store the reading under its id, then retry the start if not ready. */
    method OnNewData(d: Reading, bindOk: bool)
      requires Valid()
      modifies this, values
      ensures Valid()
      ensures history == old(history) + [d]
      ensures values.entries == old(values.entries)[d.sensorId := d]
      ensures values.keys == if d.sensorId in old(values.entries) then old(values.keys)
                             else old(values.keys) + [d.sensorId]
      ensures d.sensorId in values.entries && values.entries[d.sensorId] == d
      ensures forall k :: k in old(values.entries) ==> k in values.entries
      ensures forall k :: k in old(values.entries) && k != d.sensorId ==>
                values.entries[k] == old(values.entries)[k]
      ensures startAttempts == old(startAttempts) + (if old(ready) then 0 else 1)
      ensures ready == (old(ready) || (ListenAddress(params).Some? && bindOk))
      ensures old(ready) ==> server == old(server)
      ensures !old(ready) && ListenAddress(params).Some? && bindOk ==>
                fresh(server) && server.address == ListenAddress(params).value
    {
      values.Put(d.sensorId, d);
      history := history + [d];
      if !ready {
        OpenListeningPort(bindOk);
      }
    }
  }

  /**
   * Two readings of one sensor, the second with the older timestamp: a query
   * afterwards shows the second.
   */
  method LastWriteWinsScenario(r1: Reading, r2: Reading)
    requires r1.sensorId == r2.sensorId && r2.timestamp < r1.timestamp
  {
    var listener := new RecentValuesListener(map[], true);
    assert listener.ready;
    var before := listener.server.Setup();
    assert before == "";
    listener.OnNewData(r1, true);
    listener.OnNewData(r2, true);
    var response := listener.server.Setup();
    assert listener.values.keys == [r2.sensorId];
    var items := Items(listener.values.keys, listener.values.entries);
    assert items == [(r2.sensorId, r2)];
    assert items[..0] == [];
    assert response == QueryLine(r2.sensorId, r2);
  }
}
