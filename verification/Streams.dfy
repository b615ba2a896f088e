/** src/queue.rs: decoding the nested stream replies; src/main.rs: applying one ingest
    batch to the pool. */
module Streams {
  import opened Base
  import opened Optimizer
  import opened Buckets
  import opened MatchPool

  type byte = x: nat | x < 256

  type Bytes = seq<byte>

  /** A reply value as the client library hands it over. */
  datatype Value = Array(items: seq<Value>) | BulkString(bytes: Bytes) | Nil | Int(n: int)

  /** The ASCII letters of "data". */
  const DATA: Bytes := [100, 97, 116, 97]

  datatype Decoded<T> = Decoded(id: Bytes, value: T)

  // ---- What a reply means ----

  predicate IsDataPair(fields: seq<Value>, i: nat) {
    i + 1 < |fields| && fields[i] == BulkString(DATA) && fields[i + 1].BulkString?
  }

  /** The value of the last "data" field among the name-value pairs from position `i` on. */
  function LastData(fields: seq<Value>, i: nat): Option<Bytes>
    decreases |fields| - i
  {
    if i + 1 >= |fields| then None else
    var later := LastData(fields, i + 2);
    if later.Some? then later
    else if IsDataPair(fields, i) then Some(fields[i + 1].bytes) else None
  }

  function EntryOf<T>(v: Value, parse: Bytes -> Option<T>): Option<Decoded<T>> {
    if v.Array? && |v.items| == 2 && v.items[0].BulkString? && v.items[1].Array? then
      var payload := LastData(v.items[1].items, 0);
      if payload.None? then None else
      var value := parse(payload.value);
      if value.None? then None else Some(Decoded(v.items[0].bytes, value.value))
    else None
  }

  function Readable<T>(v: Value, parse: Bytes -> Option<T>): seq<Decoded<T>> {
    match EntryOf(v, parse)
    case Some(e) => [e]
    case None => []
  }

  /** The payload of a list of fields is the string after the last "data" at an even place. */
  ghost predicate PayloadAt(fields: seq<Value>, j: nat) {
    j % 2 == 0 && IsDataPair(fields, j) && forall k: nat :: j < k && k % 2 == 0 ==> !IsDataPair(fields, k)
  }

  lemma PayloadIff(fields: seq<Value>, bytes: Bytes)
    ensures LastData(fields, 0) == Some(bytes) <==> exists j: nat :: PayloadAt(fields, j) && fields[j + 1].bytes == bytes
  {
    LastDataIsLast(fields, 0);
    if LastData(fields, 0).Some? {
      var j: nat :| j % 2 == 0 && IsDataPair(fields, j) && LastData(fields, 0).value == fields[j + 1].bytes
                    && forall k: nat :: j < k && k % 2 == 0 ==> !IsDataPair(fields, k);
      assert PayloadAt(fields, j);
      forall i: nat | PayloadAt(fields, i) ensures i == j {
        assert i < j || j < i || i == j;
      }
    }
  }

  /** An entry is read exactly when it is a pair of an id and a list of fields whose payload
      parses. */
  lemma EntryIff<T>(v: Value, parse: Bytes -> Option<T>, e: Decoded<T>)
    ensures EntryOf(v, parse) == Some(e) <==>
              exists fields: seq<Value>, j: nat :: v == Array([BulkString(e.id), Array(fields)])
                && PayloadAt(fields, j) && parse(fields[j + 1].bytes) == Some(e.value)
  {
    if EntryOf(v, parse) == Some(e) {
      var fields := v.items[1].items;
      PayloadIff(fields, LastData(fields, 0).value);
      assert v.items == [BulkString(e.id), Array(fields)];
    }
    if fields: seq<Value>, j: nat :| (v == Array([BulkString(e.id), Array(fields)])
                                      && PayloadAt(fields, j) && parse(fields[j + 1].bytes) == Some(e.value)) {
      PayloadIff(fields, fields[j + 1].bytes);
    }
  }

  /** The readable entries, in order; the rest are skipped. */
  function EntriesOf<T>(vs: seq<Value>, parse: Bytes -> Option<T>): seq<Decoded<T>> {
    if vs == [] then [] else Readable(vs[0], parse) + EntriesOf(vs[1..], parse)
  }

  function StreamOf<T>(v: Value, parse: Bytes -> Option<T>): seq<Decoded<T>> {
    if v.Array? && |v.items| == 2 && v.items[1].Array? then EntriesOf(v.items[1].items, parse) else []
  }

  function StreamsOf<T>(vs: seq<Value>, parse: Bytes -> Option<T>): seq<Decoded<T>> {
    if vs == [] then [] else StreamOf(vs[0], parse) + StreamsOf(vs[1..], parse)
  }

  function ReplyOf<T>(reply: Option<Value>, parse: Bytes -> Option<T>): seq<Decoded<T>> {
    match reply
    case Some(Array(vs)) => StreamsOf(vs, parse)
    case _ => []
  }

  lemma {:induction false} EntriesConcat<T>(x: seq<Value>, y: seq<Value>, parse: Bytes -> Option<T>)
    ensures EntriesOf(x + y, parse) == EntriesOf(x, parse) + EntriesOf(y, parse)
  {
    hide Readable;
    if x == [] {
      assert x + y == y;
    } else {
      assert (x + y)[1..] == x[1..] + y;
      EntriesConcat(x[1..], y, parse);
    }
  }

  lemma {:induction false} StreamsConcat<T>(x: seq<Value>, y: seq<Value>, parse: Bytes -> Option<T>)
    ensures StreamsOf(x + y, parse) == StreamsOf(x, parse) + StreamsOf(y, parse)
  {
    hide StreamOf;
    if x == [] {
      assert x + y == y;
    } else {
      assert (x + y)[1..] == x[1..] + y;
      StreamsConcat(x[1..], y, parse);
    }
  }

  lemma EntriesNext<T>(vs: seq<Value>, k: nat, parse: Bytes -> Option<T>)
    requires k < |vs|
    ensures EntriesOf(vs[..k + 1], parse)
         == EntriesOf(vs[..k], parse) + Readable(vs[k], parse)
  {
    hide Readable;
    assert vs[..k + 1] == vs[..k] + [vs[k]];
    EntriesConcat(vs[..k], [vs[k]], parse);
  }

  lemma StreamsNext<T>(vs: seq<Value>, k: nat, parse: Bytes -> Option<T>)
    requires k < |vs|
    ensures StreamsOf(vs[..k + 1], parse) == StreamsOf(vs[..k], parse) + StreamOf(vs[k], parse)
  {
    assert vs[..k + 1] == vs[..k] + [vs[k]];
    StreamsConcat(vs[..k], [vs[k]], parse);
  }

  /** A stream of the reply is a pair whose second part lists its entries; anything else
      yields none. */
  lemma StreamIs<T>(name: Value, entries: seq<Value>, v: Value, parse: Bytes -> Option<T>)
    ensures StreamsOf([Array([name, Array(entries)])], parse) == EntriesOf(entries, parse)
    ensures (forall n, es :: v != Array([n, Array(es)])) ==> StreamsOf([v], parse) == []
    ensures EntriesOf([v], parse) == if EntryOf(v, parse).Some? then [EntryOf(v, parse).value] else []
    ensures ReplyOf(None, parse) == ReplyOf(Some(Nil), parse) == []
  {
    var s := Array([name, Array(entries)]);
    assert StreamsOf([s], parse) == StreamOf(s, parse) + StreamsOf([s][1..], parse);
    assert StreamsOf([v], parse) == StreamOf(v, parse) + StreamsOf([v][1..], parse);
    assert EntriesOf([v], parse) == Readable(v, parse) + EntriesOf([v][1..], parse);
    if v.Array? && |v.items| == 2 && v.items[1].Array? {
      assert v == Array([v.items[0], Array(v.items[1].items)]);
    }
  }

  // ---- The parser ----

  method FindPayload(fields: seq<Value>) returns (payload: Option<Bytes>)
    ensures payload == LastData(fields, 0)
  {
    payload := None;
    var i := 0;
    while i + 1 < |fields|
      invariant i <= |fields| + 1
      invariant LastData(fields, 0) == if LastData(fields, i).Some? then LastData(fields, i) else payload
    {
      if fields[i].BulkString? && fields[i + 1].BulkString? {
        if fields[i].bytes == DATA {
          payload := Some(fields[i + 1].bytes);
        }
      }
      i := i + 2;
    }
  }

  method ParseEntries<T>(entries: seq<Value>, parse: Bytes -> Option<T>) returns (out: seq<Decoded<T>>)
    ensures out == EntriesOf(entries, parse)
  {
    out := [];
    for k := 0 to |entries|
      invariant out == EntriesOf(entries[..k], parse)
    {
      EntriesNext(entries, k, parse);
      var entry := entries[k];
      if !entry.Array? || |entry.items| != 2 {
        continue;
      }
      if !entry.items[0].BulkString? || !entry.items[1].Array? {
        continue;
      }
      var payload := FindPayload(entry.items[1].items);
      if payload.Some? {
        var value := parse(payload.value);
        if value.Some? {
          out := out + [Decoded(entry.items[0].bytes, value.value)];
        }
      }
    }
    assert entries[..|entries|] == entries;
  }

  /** Decode a whole reply, skipping whatever is not shaped as expected. */
  method ParseReply<T>(reply: Option<Value>, parse: Bytes -> Option<T>) returns (out: seq<Decoded<T>>)
    ensures out == ReplyOf(reply, parse)
  {
    out := [];
    if reply.None? || !reply.value.Array? {
      return;
    }
    var streams := reply.value.items;
    for k := 0 to |streams|
      invariant out == StreamsOf(streams[..k], parse)
    {
      StreamsNext(streams, k, parse);
      var pair := streams[k];
      if !pair.Array? || |pair.items| != 2 {
        continue;
      }
      if !pair.items[1].Array? {
        continue;
      }
      var more := ParseEntries(pair.items[1].items, parse);
      out := out + more;
    }
    assert streams[..|streams|] == streams;
  }

  // ---- Round trip ----

  /** A stream entry as the publisher adds it: one "data" field. */
  function Encoded<T>(e: Decoded<T>, render: T -> Bytes): Value {
    Array([BulkString(e.id), Array([BulkString(DATA), BulkString(render(e.value))])])
  }

  function EncodedAll<T>(es: seq<Decoded<T>>, render: T -> Bytes): (vs: seq<Value>)
    ensures |vs| == |es|
  {
    seq(|es|, i requires 0 <= i < |es| => Encoded(es[i], render))
  }

  function Reply<T>(stream: Bytes, es: seq<Decoded<T>>, render: T -> Bytes): Value {
    Array([Array([BulkString(stream), Array(EncodedAll(es, render))])])
  }

  lemma EncodedEntry<T>(e: Decoded<T>, render: T -> Bytes, parse: Bytes -> Option<T>)
    requires parse(render(e.value)) == Some(e.value)
    ensures EntryOf(Encoded(e, render), parse) == Some(e)
  {
    var fields := [BulkString(DATA), BulkString(render(e.value))];
    assert LastData(fields, 2) == None;
    assert IsDataPair(fields, 0);
  }

  lemma {:induction false} EncodedEntries<T>(es: seq<Decoded<T>>, render: T -> Bytes, parse: Bytes -> Option<T>)
    requires forall i :: 0 <= i < |es| ==> parse(render(es[i].value)) == Some(es[i].value)
    ensures EntriesOf(EncodedAll(es, render), parse) == es
  {
    if es != [] {
      EncodedEntry(es[0], render, parse);
      assert EncodedAll(es, render)[1..] == EncodedAll(es[1..], render);
      EncodedEntries(es[1..], render, parse);
    }
  }

  /** Everything published in a parseable form is read back, in order and under its id. */
  lemma ReplyRoundTrip<T>(stream: Bytes, es: seq<Decoded<T>>, render: T -> Bytes, parse: Bytes -> Option<T>)
    requires forall i :: 0 <= i < |es| ==> parse(render(es[i].value)) == Some(es[i].value)
    ensures ReplyOf(Some(Reply(stream, es, render)), parse) == es
  {
    EncodedEntries(es, render, parse);
    var v := Array([BulkString(stream), Array(EncodedAll(es, render))]);
    assert StreamsOf([v], parse) == StreamOf(v, parse) + StreamsOf([v][1..], parse);
  }

  /** Entries the parser cannot read neither appear nor disturb the others. */
  lemma UnreadableAreSkipped<T>(x: seq<Value>, bad: Value, y: seq<Value>, parse: Bytes -> Option<T>)
    requires EntryOf(bad, parse) == None
    ensures EntriesOf(x + [bad] + y, parse) == EntriesOf(x + y, parse)
  {
    assert EntriesOf([bad], parse) == [] by {
      assert Readable(bad, parse) == [] && EntriesOf([bad][1..], parse) == [];
    }
    hide *;
    EntriesConcat(x + [bad], y, parse);
    EntriesConcat(x, [bad], parse);
    EntriesConcat(x, y, parse);
  }

  /** A batch decodes to nothing exactly when none of its entries can be read; the read
      cursor then stays where it was, so the same entries are asked for again. */
  lemma {:induction false} NothingReadableIff<T>(vs: seq<Value>, parse: Bytes -> Option<T>)
    ensures EntriesOf(vs, parse) == [] <==> forall i :: 0 <= i < |vs| ==> EntryOf(vs[i], parse).None?
  {
    if vs != [] {
      NothingReadableIff(vs[1..], parse);
      assert forall i :: 1 <= i < |vs| ==> vs[i] == vs[1..][i - 1];
      assert EntryOf(vs[0], parse).None? || EntriesOf(vs, parse) != [];
    }
  }

  /** The payload found is that of the last "data" name with a string value. */
  lemma {:induction false} LastDataIsLast(fields: seq<Value>, i: nat)
    requires i % 2 == 0
    ensures LastData(fields, i) == None <==> forall j: nat :: i <= j && j % 2 == 0 ==> !IsDataPair(fields, j)
    ensures LastData(fields, i).Some? ==>
              exists j: nat :: i <= j && j % 2 == 0 && IsDataPair(fields, j) && LastData(fields, i).value == fields[j + 1].bytes
                && forall k: nat :: j < k && k % 2 == 0 ==> !IsDataPair(fields, k)
    decreases |fields| - i
  {
    if i + 1 < |fields| {
      LastDataIsLast(fields, i + 2);
      assert forall j: nat :: i <= j && j % 2 == 0 ==> j == i || i + 2 <= j;
    }
  }

  // ---- One ingest batch ----

  datatype IngestEvent = IngestEvent(id: int, rating: int)

  const I32_MAX: int := 0x7FFF_FFFF

  /** A negative rating is clamped to zero. */
  function Clamp(rating: int): (r: u32)
    requires rating <= I32_MAX
    ensures r == rating || (rating < 0 && r == 0)
  {
    if rating < 0 then 0 else rating
  }

  /** The players a batch enqueues, in the order of the stream. */
  function Arrivals(batch: seq<Decoded<IngestEvent>>, now: nat, token: nat, event: nat): (r: seq<Player>)
    requires forall i :: 0 <= i < |batch| ==> batch[i].value.rating <= I32_MAX
    ensures |r| == |batch|
  {
    seq(|batch|, i requires 0 <= i < |batch| =>
      Player(batch[i].value.id, Clamp(batch[i].value.rating), now, token + i, event + i))
  }

  /** Who a batch puts behind bucket `b`: the users of the events whose clamped rating names it,
      in stream order, their wait starting now. */
  lemma ArrivalsAre(g: Grid, batch: seq<Decoded<IngestEvent>>, now: nat, token: nat, event: nat, b: nat) returns (at: seq<nat>)
    requires forall i :: 0 <= i < |batch| ==> batch[i].value.rating <= I32_MAX
    ensures var r := From(g, Arrivals(batch, now, token, event), b);
            && |at| == |r|
            && (forall k :: 0 <= k < |at| ==>
                  && at[k] < |batch| && r[k].id == batch[at[k]].value.id && r[k].enqueuedAt == now && r[k].event == event + at[k]
                  && r[k].rating == if batch[at[k]].value.rating < 0 then 0 else batch[at[k]].value.rating)
    ensures forall j, k :: 0 <= j < k < |at| ==> at[j] < at[k]
    ensures forall i :: 0 <= i < |batch| ==>
              (BucketIndex(g, if batch[i].value.rating < 0 then 0 else batch[i].value.rating) == b <==> i in at)
  {
    hide BucketIndex;
    at := FromPlaces(g, Arrivals(batch, now, token, event), b);
    hide From;
    var all: seq<Player> := Arrivals(batch, now, token, event);
    assert forall i :: 0 <= i < |batch| ==> all[i].rating == Clamp(batch[i].value.rating);
  }

  /** Enqueue a batch read after `last` and return the cursor to publish: the id of the
      last entry read, or `last` itself when nothing could be read. */
  method IngestBatch(pool: Pool, last: Bytes, batch: seq<Decoded<IngestEvent>>, now: nat, token: nat, event: nat)
    returns (newest: Bytes)
    requires pool.Valid() && forall i :: 0 <= i < |batch| ==> batch[i].value.rating <= I32_MAX
    modifies pool.buckets
    ensures pool.Valid()
    ensures newest == if batch == [] then last else batch[|batch| - 1].id
    ensures forall b :: 0 <= b < pool.buckets.Length ==>
              pool.buckets[b] == old(pool.buckets[b]) + From(pool.grid, Arrivals(batch, now, token, event), b)
  {
    hide From;
    newest := last;
    ghost var all, was := Arrivals(batch, now, token, event), pool.buckets[..];
    FromNone(pool.grid, all);
    for i := 0 to |batch|
      invariant pool.Valid()
      invariant newest == if i == 0 then last else batch[i - 1].id
      invariant forall b :: 0 <= b < pool.buckets.Length ==>
                  pool.buckets[..][b] == was[b] + From(pool.grid, all[..i], b)
    {
      var p := Player(batch[i].value.id, Clamp(batch[i].value.rating), now, token + i, event + i);
      assert all[i] == p;
      AppendNext(pool.grid, was, pool.buckets[..], all, i);
      pool.Enqueue(p);
      newest := batch[i].id;
    }
    assert all[..|batch|] == all;
  }
}
