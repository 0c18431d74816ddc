/**
 * The wire form of the table: `RestoreInProgress(StreamInput)` and `writeTo`.
 * A table is written as a count and its entries, in whatever order the
 * entry map is iterated; each entry as uuid, snapshot, state byte, the quiet
 * flag (only on a stream whose version supports it), the index list and the
 * shard map (again in iteration order).
 */
module TableCodec {
  import opened Wrappers
  import opened Wire
  import opened RestoreState
  import opened Collaborators
  import opened PairMaps
  import opened ShardStatus
  import opened RestoreEntry
  import opened RestoreTable

  type ShardPair = (ShardId, ShardRestoreStatus)

  /** One entry as written: the entry, and the order its shard map was iterated in. */
  datatype EntryLayout = EntryLayout(entry: Entry, shardOrder: seq<ShardPair>)

  // ---------------------------------------------------------------------
  // Shard maps: `writeMap(shards)` and `readImmutableMap(ShardId::new, ...)`

  function PairTokens(p: ShardPair): seq<Token>
  {
    WriteShardId(p.0) + WriteStatus(p.1)
  }

  /** `writeMap`'s output for one iteration order: the size, then the pairs. */
  function ShardMapTokens(ps: seq<ShardPair>): seq<Token>
  {
    [TVInt(|ps|)] + WriteList(PairTokens, ps)
  }

  /** A shard id, then its status. */
  function ReadPair(s: Stream): Decoded<ShardPair>
  {
    var id :- ReadShardId(s);
    var status :- ReadStatus(id.rest);
    Ok(Parsed((id.value, status.value), status.rest))
  }

  /** `readImmutableMap(ShardId::new, ShardRestoreStatus::readShardRestoreStatus)`: a count, then that many pairs, put into a map in order. */
  function ReadShardMap(s: Stream): Decoded<map<ShardId, ShardRestoreStatus>>
  {
    var n :- ReadVInt(s);
    var ps :- ReadList(ReadPair, n.rest, n.value);
    Ok(Parsed(PairsToMap(ps.value), ps.rest))
  }

  /**
   * `writeMap`: the size, then every binding once, in an order this model
   * leaves open (HashMap iteration order).
   */
  method WriteMap(m: map<ShardId, ShardRestoreStatus>) returns (out: seq<Token>, ghost order: seq<ShardPair>)
    ensures Enumerates(order, m)
    ensures out == ShardMapTokens(order)
    ensures forall rest :: ReadShardMap(Feed(out, rest)) == Ok(Parsed(m, rest))
  {
    var remaining := m.Keys;
    var body: seq<Token> := [];
    order := [];
    while remaining != {}
      invariant remaining <= m.Keys
      invariant EnumeratesPart(order, m, m.Keys - remaining)
      invariant body == WriteList(PairTokens, order)
      decreases remaining
    {
      var k :| k in remaining;
      WriteListAppend(PairTokens, order, (k, m[k]));
      EnumeratesNext(order, m, remaining, k);
      body := body + PairTokens((k, m[k]));
      order := order + [(k, m[k])];
      remaining := remaining - {k};
    }
    EnumeratesAll(order, m, remaining);
    out := [TVInt(|m|)] + body;
    WrittenMapReads(m, order);
  }

  /** The map written in any enumeration order reads back as the map itself. */
  lemma WrittenMapReads(m: map<ShardId, ShardRestoreStatus>, order: seq<ShardPair>)
    requires Enumerates(order, m)
    ensures forall rest :: ReadShardMap(Feed(ShardMapTokens(order), rest)) == Ok(Parsed(m, rest))
  {
    EnumeratedMap(order, m);
    forall rest ensures ReadShardMap(Feed(ShardMapTokens(order), rest)) == Ok(Parsed(m, rest)) {
      ShardMapRoundTrip(order, rest);
    }
  }

  lemma PairRoundTrip(p: ShardPair, rest: Stream)
    ensures ReadPair(Feed(PairTokens(p), rest)) == Ok(Parsed(p, rest))
  {
    FeedAppend(WriteShardId(p.0), WriteStatus(p.1), rest);
    ShardIdRoundTrip(p.0, Feed(WriteStatus(p.1), rest));
    StatusRoundTrip(p.1, rest);
  }

  lemma PairsReadBack(ps: seq<ShardPair>)
    ensures ReadsBack(ReadPair, PairTokens, ps, ps)
  {
    forall i, t | 0 <= i < |ps| ensures ReadPair(Feed(PairTokens(ps[i]), t)) == Ok(Parsed(ps[i], t)) {
      PairRoundTrip(ps[i], t);
    }
  }

  /** A count, then that many pairs, read back as the map of the pairs put in order. */
  lemma ShardMapOf(s: Stream, n: nat, s1: Stream, ps: seq<ShardPair>, rest: Stream)
    requires ReadVInt(s) == Ok(Parsed(n, s1))
    requires ReadList(ReadPair, s1, n) == Ok(Parsed(ps, rest))
    ensures ReadShardMap(s) == Ok(Parsed(PairsToMap(ps), rest))
  {
  }

  /** readImmutableMap after writeMap: the pairs, put in the order written. */
  lemma ShardMapRoundTrip(ps: seq<ShardPair>, rest: Stream)
    ensures ReadShardMap(Feed(ShardMapTokens(ps), rest)) == Ok(Parsed(PairsToMap(ps), rest))
  {
    CountPrefix(|ps|, WriteList(PairTokens, ps), rest);
    PairsReadBack(ps);
    ReadListRoundTrip(ReadPair, PairTokens, ps, ps, rest);
    ShardMapOf(Feed(ShardMapTokens(ps), rest), |ps|, Feed(WriteList(PairTokens, ps), rest), ps, rest);
  }

  // ---------------------------------------------------------------------
  // Entries

  /** uuid, snapshot and state byte: the first fields of an entry. */
  function WriteHead(e: Entry): seq<Token>
  {
    [TString(e.uuid)] + WriteSnapshot(e.snapshot) + [TByte(Value(e.state))]
  }

  /** The quiet flag, present only on a stream whose version has it. */
  function QuietTokens(v: Version, e: Entry): seq<Token>
  {
    if SupportsQuiet(v) then [TBool(e.quiet)] else []
  }

  /** What `writeTo` emits for an entry before its shard map. */
  function EntryHeader(v: Version, e: Entry): seq<Token>
  {
    WriteHead(e) + QuietTokens(v, e) + WriteStringCollection(e.indices)
  }

  function EncodeEntry(v: Version, l: EntryLayout): seq<Token>
  {
    EntryHeader(v, l.entry) + ShardMapTokens(l.shardOrder)
  }

  /** The per-entry writer `writeTo` hands to `writeCollection`, at stream version `v`. */
  function EntryWriter(v: Version): EntryLayout -> seq<Token>
  {
    l => EncodeEntry(v, l)
  }

  /** `writeCollection(entries.values(), ...)`: the count, then each entry. */
  function EncodeTable(v: Version, ls: seq<EntryLayout>): seq<Token>
  {
    [TVInt(|ls|)] + WriteList(EntryWriter(v), ls)
  }

  /** uuid, snapshot and state, failing on an unknown state byte. */
  function ReadHead(s: Stream): Decoded<(string, Snapshot, State)>
  {
    var uuid :- ReadString(s);
    var snapshot :- ReadSnapshot(uuid.rest);
    var code :- ReadByte(snapshot.rest);
    var state :- FromValue(code.value);
    Ok(Parsed((uuid.value, snapshot.value, state), code.rest))
  }

  /**
   * The quiet flag: read at a version that has it, `true` on an older stream.
   * Streams from before the flag existed therefore decode as quiet, so those
   * restores log their start and completion at DEBUG.
   */
  function ReadQuiet(v: Version, s: Stream): Decoded<bool>
  {
    if SupportsQuiet(v) then ReadBoolean(s) else Ok(Parsed(true, s))
  }

  /**
   * One turn of the decoding loop: uuid, snapshot, state byte, quiet flag,
   * indices, shards.
   */
  function ReadEntry(v: Version, s: Stream): Decoded<Entry>
  {
    var head :- ReadHead(s);
    var quiet :- ReadQuiet(v, head.rest);
    var indices :- ReadStringList(quiet.rest);
    var shards :- ReadShardMap(indices.rest);
    Ok(Parsed(Entry(head.value.0, head.value.1, head.value.2, quiet.value, indices.value, shards.value), shards.rest))
  }

  /** One turn of the decoding loop as a reader, at stream version `v`. */
  function EntryReader(v: Version): Stream -> Decoded<Entry>
  {
    s => ReadEntry(v, s)
  }

  /** Each entry paired with the uuid it is put under. */
  function ByUuid(es: seq<Entry>): (ps: seq<(string, Entry)>)
    ensures |ps| == |es|
    ensures forall i :: 0 <= i < |es| ==> ps[i] == (es[i].uuid, es[i])
  {
    seq(|es|, i requires 0 <= i < |es| => (es[i].uuid, es[i]))
  }

  /**
   * The decoding loop's map: each entry `put` under its uuid, in stream order.
   * It equals `PairsToMap(ByUuid(es))` (PutAllPairs); it is kept separate because
   * this form, without PairsToMap's contract, keeps the proofs about decoding cheap.
   */
  function PutAll(es: seq<Entry>): map<string, Entry>
  {
    if es == [] then map[] else PutAll(es[..|es| - 1])[es[|es| - 1].uuid := es[|es| - 1]]
  }

  /** PutAll is the pairs of ByUuid put into a map. */
  lemma {:induction false} PutAllPairs(es: seq<Entry>)
    ensures PutAll(es) == PairsToMap(ByUuid(es))
  {
    if es != [] {
      var init, last := es[..|es| - 1], es[|es| - 1];
      PutAllPairs(init);
      assert ByUuid(es) == ByUuid(init) + [(last.uuid, last)];
      PairsToMapSnoc(ByUuid(init), (last.uuid, last));
    }
  }

  /** Entries put under their own uuids, in any order, give a table keyed by uuid. */
  lemma PutByUuid(es: seq<Entry>)
    ensures KeyedByUuid(PutAll(es))
  {
    PutAllPairs(es);
    var ps := ByUuid(es);
    var m := PairsToMap(ps);
    forall u | u in m ensures m[u].uuid == u {
      var i :| 0 <= i < |ps| && ps[i] == (u, m[u]);
    }
  }

  /** `new RestoreInProgress(in)`: a count, then that many entries, put by uuid in order. */
  function DecodeTable(v: Version, s: Stream): Decoded<Table>
  {
    var n :- ReadVInt(s);
    var es :- ReadList(EntryReader(v), n.rest, n.value);
    PutByUuid(es.value);
    Ok(Parsed(RestoreInProgress(PutAll(es.value)), es.rest))
  }

  /** The decoding constructor composed from its count and its entries. */
  lemma DecodeTableOf(v: Version, s: Stream, n: nat, s1: Stream, es: seq<Entry>, rest: Stream)
    requires ReadVInt(s) == Ok(Parsed(n, s1))
    requires ReadList(EntryReader(v), s1, n) == Ok(Parsed(es, rest))
    ensures DecodeTable(v, s) == Ok(Parsed(RestoreInProgress(PutAll(es)), rest))
  {
  }

  /** The decoding constructor fails with the error of the first entry that fails to read. */
  lemma DecodeFailsAtEntries(v: Version, s: Stream, n: nat, s1: Stream)
    requires ReadVInt(s) == Ok(Parsed(n, s1))
    requires ReadList(EntryReader(v), s1, n).Err?
    ensures DecodeTable(v, s) == Err(ReadList(EntryReader(v), s1, n).error)
  {
  }

  /**
   * What the decoding loop knows after `i` of the `count` entries: they are
   * `read`, put into `entries`, and the stream is at `rest`.
   */
  ghost predicate ReadFromInv(v: Version, s: Stream, count: nat, start: Stream, i: nat,
                              read: seq<Entry>, rest: Stream, entries: map<string, Entry>)
  {
    && ReadVInt(s) == Ok(Parsed(count, start))
    && i <= count
    && entries == PutAll(read)
    && ReadList(EntryReader(v), start, count) == Prepend(read, ReadList(EntryReader(v), rest, count - i))
  }

  lemma ReadFromStart(v: Version, s: Stream, count: nat, start: Stream)
    requires ReadVInt(s) == Ok(Parsed(count, start))
    ensures ReadFromInv(v, s, count, start, 0, [], start, map[])
  {
    PrependNothing(ReadList(EntryReader(v), start, count));
  }

  /** Reading and putting one more entry keeps the loop invariant. */
  lemma ReadFromStep(v: Version, s: Stream, count: nat, start: Stream, i: nat,
                     read: seq<Entry>, rest: Stream, entries: map<string, Entry>, e: Entry, next: Stream)
    requires ReadFromInv(v, s, count, start, i, read, rest, entries)
    requires i < count
    requires ReadEntry(v, rest) == Ok(Parsed(e, next))
    ensures ReadFromInv(v, s, count, start, i + 1, read + [e], next, entries[e.uuid := e])
  {
    ReadListStep(EntryReader(v), start, count, i, read, rest, e, next);
    PutLast(read, e);
  }

  /** An entry that fails to read fails the decoding with its error. */
  lemma ReadFromFails(v: Version, s: Stream, count: nat, start: Stream, i: nat,
                      read: seq<Entry>, rest: Stream, entries: map<string, Entry>)
    requires ReadFromInv(v, s, count, start, i, read, rest, entries)
    requires i < count
    requires ReadEntry(v, rest).Err?
    ensures DecodeTable(v, s) == Err(ReadEntry(v, rest).error)
  {
    ReadListUnfold(EntryReader(v), rest, count - i);
    DecodeFailsAtEntries(v, s, count, start);
  }

  /** After the last entry, the map read is the decoded table. */
  lemma ReadFromDone(v: Version, s: Stream, count: nat, start: Stream,
                     read: seq<Entry>, rest: Stream, entries: map<string, Entry>)
    requires ReadFromInv(v, s, count, start, count, read, rest, entries)
    ensures KeyedByUuid(entries)
    ensures DecodeTable(v, s) == Ok(Parsed(RestoreInProgress(entries), rest))
  {
    assert read + [] == read;
    DecodeTableOf(v, s, count, start, read, rest);
    PutByUuid(read);
  }


  /** The decoding constructor: reads the count, then reads and puts one entry per turn. */
  method ReadFrom(v: Version, s: Stream) returns (r: Decoded<Table>)
    ensures r == DecodeTable(v, s)
  {
    var countRead := ReadVInt(s);
    if countRead.Err? {
      return Err(countRead.error);
    }
    var count := countRead.value.value;
    ghost var start := countRead.value.rest;
    var rest: Stream := countRead.value.rest;
    var entries: map<string, Entry> := map[];
    ghost var read: seq<Entry> := [];
    var i := 0;
    ReadFromStart(v, s, count, start);
    while i < count
      invariant ReadFromInv(v, s, count, start, i, read, rest, entries)
    {
      var entry := ReadEntry(v, rest);
      if entry.Err? {
        ReadFromFails(v, s, count, start, i, read, rest, entries);
        return Err(entry.error);
      }
      var e := entry.value.value;
      ReadFromStep(v, s, count, start, i, read, rest, entries, e, entry.value.rest);
      entries := entries[e.uuid := e];
      read := read + [e];
      rest := entry.value.rest;
      i := i + 1;
    }
    ReadFromDone(v, s, count, start, read, rest, entries);
    r := Ok(Parsed(RestoreInProgress(entries), rest));
  }


  /** Putting one more entry read from the stream. */
  lemma PutLast(es: seq<Entry>, e: Entry)
    ensures PutAll(es + [e]) == PutAll(es)[e.uuid := e]
  {
    assert (es + [e])[..|es|] == es;
  }

  // ---------------------------------------------------------------------
  // Writing a table

  /** The (uuid, entry) pairs of a layout. */
  function EntryPairs(ls: seq<EntryLayout>): (ps: seq<(string, Entry)>)
    ensures |ps| == |ls|
    ensures forall i :: 0 <= i < |ls| ==> ps[i] == (ls[i].entry.uuid, ls[i].entry)
  {
    seq(|ls|, i requires 0 <= i < |ls| => (ls[i].entry.uuid, ls[i].entry))
  }

  /**
   * `layout` lists every entry of `t` once, each with an order that lists
   * every binding of its shard map once: one possible iteration of the maps.
   */
  ghost predicate Covers(layout: seq<EntryLayout>, t: Table)
  {
    && Enumerates(EntryPairs(layout), t.entries)
    && (forall i :: 0 <= i < |layout| ==> Enumerates(layout[i].shardOrder, layout[i].entry.shards))
  }

  lemma EntryPairsAppend(ls: seq<EntryLayout>, l: EntryLayout)
    ensures EntryPairs(ls + [l]) == EntryPairs(ls) + [(l.entry.uuid, l.entry)]
  {
    assert forall i :: 0 <= i < |ls| ==> (ls + [l])[i] == ls[i];
  }

  /** The body of `writeTo`'s per-entry writer. */
  method WriteEntry(v: Version, e: Entry) returns (out: seq<Token>, ghost order: seq<ShardPair>)
    ensures Enumerates(order, e.shards)
    ensures out == EncodeEntry(v, EntryLayout(e, order))
    ensures forall rest :: ReadEntry(v, Feed(out, rest)) == Ok(Parsed(e.(quiet := if SupportsQuiet(v) then e.quiet else true), rest))
  {
    out := [TString(e.uuid)] + WriteSnapshot(e.snapshot) + [TByte(Value(e.state))];
    if SupportsQuiet(v) {
      out := out + [TBool(e.quiet)];
    }
    out := out + WriteStringCollection(e.indices);
    var shardTokens;
    shardTokens, order := WriteMap(e.shards);
    out := out + shardTokens;
    WrittenEntryReads(v, e, order);
  }

  /** An entry written with any enumeration of its shard map reads back, quiet below the quiet version. */
  lemma WrittenEntryReads(v: Version, e: Entry, order: seq<ShardPair>)
    requires Enumerates(order, e.shards)
    ensures forall rest :: ReadEntry(v, Feed(EncodeEntry(v, EntryLayout(e, order)), rest))
                        == Ok(Parsed(e.(quiet := if SupportsQuiet(v) then e.quiet else true), rest))
  {
    EnumeratedMap(order, e.shards);
    forall rest ensures ReadEntry(v, Feed(EncodeEntry(v, EntryLayout(e, order)), rest))
                     == Ok(Parsed(e.(quiet := if SupportsQuiet(v) then e.quiet else true), rest)) {
      EntryRoundTrip(v, EntryLayout(e, order), rest);
    }
  }

  /** What `writeTo`'s loop has written once the keys in `remaining` are still to come. */
  ghost predicate WriteToInv(v: Version, t: Table, layout: seq<EntryLayout>, remaining: set<string>, body: seq<Token>)
  {
    && remaining <= t.entries.Keys
    && EnumeratesPart(EntryPairs(layout), t.entries, t.entries.Keys - remaining)
    && (forall i :: 0 <= i < |layout| ==> Enumerates(layout[i].shardOrder, layout[i].entry.shards))
    && body == WriteList(EntryWriter(v), layout)
  }

  /** The tokens of one more entry, appended to those of the entries before it. */
  lemma WriteToTokens(v: Version, layout: seq<EntryLayout>, l: EntryLayout, body: seq<Token>, entryTokens: seq<Token>)
    requires body == WriteList(EntryWriter(v), layout)
    requires entryTokens == EncodeEntry(v, l)
    ensures body + entryTokens == WriteList(EntryWriter(v), layout + [l])
  {
    WriteListAppend(EntryWriter(v), layout, l);
  }

  /** One more entry whose shard order enumerates its shard map. */
  lemma WriteToShards(layout: seq<EntryLayout>, l: EntryLayout)
    requires forall i :: 0 <= i < |layout| ==> Enumerates(layout[i].shardOrder, layout[i].entry.shards)
    requires Enumerates(l.shardOrder, l.entry.shards)
    ensures forall i :: 0 <= i < |layout + [l]| ==> Enumerates((layout + [l])[i].shardOrder, (layout + [l])[i].entry.shards)
  {
    forall i | 0 <= i < |layout + [l]| ensures Enumerates((layout + [l])[i].shardOrder, (layout + [l])[i].entry.shards) {
      if i < |layout| {
        assert (layout + [l])[i] == layout[i];
      }
    }
  }

  /** Writing the entry under one more key keeps the loop invariant. */
  lemma WriteToStep(v: Version, t: Table, layout: seq<EntryLayout>, remaining: set<string>, body: seq<Token>,
                    u: string, order: seq<ShardPair>, entryTokens: seq<Token>)
    requires WriteToInv(v, t, layout, remaining, body)
    requires u in remaining
    requires Enumerates(order, t.entries[u].shards)
    requires entryTokens == EncodeEntry(v, EntryLayout(t.entries[u], order))
    ensures WriteToInv(v, t, layout + [EntryLayout(t.entries[u], order)], remaining - {u}, body + entryTokens)
  {
    var l := EntryLayout(t.entries[u], order);
    WriteToTokens(v, layout, l, body, entryTokens);
    EnumeratesNext(EntryPairs(layout), t.entries, remaining, u);
    EntryPairsAppend(layout, l);
    WriteToShards(layout, l);
  }

  /** Once every key is written, the layout covers the table. */
  lemma WriteToDone(v: Version, t: Table, layout: seq<EntryLayout>, body: seq<Token>)
    requires WriteToInv(v, t, layout, {}, body)
    ensures Covers(layout, t)
    ensures [TVInt(|t.entries|)] + body == EncodeTable(v, layout)
  {
    EnumeratesAll(EntryPairs(layout), t.entries, {});
  }

  /** `writeTo`: the entry count, then every entry once, in the map's iteration order. */
  method WriteTo(v: Version, t: Table) returns (out: seq<Token>, ghost layout: seq<EntryLayout>)
    ensures Covers(layout, t)
    ensures out == EncodeTable(v, layout)
    ensures forall rest :: DecodeTable(v, Feed(out, rest)) == Ok(Parsed(Expected(v, t), rest))
    ensures QuietFlags(out) == if SupportsQuiet(v) then |t.entries| else 0
  {
    var remaining := t.entries.Keys;
    var body: seq<Token> := [];
    layout := [];
    while remaining != {}
      invariant WriteToInv(v, t, layout, remaining, body)
      decreases remaining
    {
      var u :| u in remaining;
      var entryTokens;
      ghost var order;
      entryTokens, order := WriteEntry(v, t.entries[u]);
      WriteToStep(v, t, layout, remaining, body, u, order, entryTokens);
      body := body + entryTokens;
      layout := layout + [EntryLayout(t.entries[u], order)];
      remaining := remaining - {u};
    }
    WriteToDone(v, t, layout, body);
    out := [TVInt(|t.entries|)] + body;
    WrittenTableReads(v, t, layout);
  }

  /** What writeTo emits for a covering layout decodes to the expected table and carries one quiet flag per entry, or none. */
  lemma WrittenTableReads(v: Version, t: Table, layout: seq<EntryLayout>)
    requires Covers(layout, t)
    ensures forall rest :: DecodeTable(v, Feed(EncodeTable(v, layout), rest)) == Ok(Parsed(Expected(v, t), rest))
    ensures QuietFlags(EncodeTable(v, layout)) == if SupportsQuiet(v) then |t.entries| else 0
  {
    forall rest ensures DecodeTable(v, Feed(EncodeTable(v, layout), rest)) == Ok(Parsed(Expected(v, t), rest)) {
      TableRoundTrip(v, t, layout, rest);
    }
    QuietFlagsOfTable(v, layout);
    EnumeratesLength(EntryPairs(layout), t.entries);
  }


  // ---------------------------------------------------------------------
  // Reading back what was written

  /** The entry read back from `l` at version `v`: the quiet flag is `true` below the quiet version. */
  function AsRead(v: Version, l: EntryLayout): Entry
  {
    l.entry.(quiet := if SupportsQuiet(v) then l.entry.quiet else true, shards := PairsToMap(l.shardOrder))
  }

  /** The entries read back from `ls`, in stream order. */
  function ReadBack(v: Version, ls: seq<EntryLayout>): (es: seq<Entry>)
    ensures |es| == |ls|
    ensures forall i :: 0 <= i < |ls| ==> es[i] == AsRead(v, ls[i])
  {
    seq(|ls|, i requires 0 <= i < |ls| => AsRead(v, ls[i]))
  }

  /** Every entry read from the stream, with the quiet flag set as an old stream implies. */
  function Quieted(t: Table): (q: Table)
    ensures q.entries.Keys == t.entries.Keys
    ensures forall u :: u in t.entries ==> q.entries[u] == t.entries[u].(quiet := true)
  {
    RestoreInProgress(map u | u in t.entries :: t.entries[u].(quiet := true))
  }

  lemma HeadRoundTrip(e: Entry, rest: Stream)
    ensures ReadHead(Feed(WriteHead(e), rest)) == Ok(Parsed((e.uuid, e.snapshot, e.state), rest))
  {
    var stateTok := [TByte(Value(e.state))];
    FeedAppend([TString(e.uuid)] + WriteSnapshot(e.snapshot), stateTok, rest);
    FeedAppend([TString(e.uuid)], WriteSnapshot(e.snapshot), Feed(stateTok, rest));
    FeedOne(TString(e.uuid), Feed(WriteSnapshot(e.snapshot), Feed(stateTok, rest)));
    FeedOne(TByte(Value(e.state)), rest);
    SnapshotRoundTrip(e.snapshot, Feed(stateTok, rest));
    FromValueOfValue(e.state);
  }

  lemma QuietRoundTrip(v: Version, e: Entry, rest: Stream)
    ensures ReadQuiet(v, Feed(QuietTokens(v, e), rest)) == Ok(Parsed(if SupportsQuiet(v) then e.quiet else true, rest))
  {
    if SupportsQuiet(v) {
      FeedOne(TBool(e.quiet), rest);
    }
  }

  /** The stream positioned at an entry, split at its fields. */
  lemma FeedEntry(v: Version, l: EntryLayout, rest: Stream)
    ensures Feed(EncodeEntry(v, l), rest)
      == Feed(WriteHead(l.entry), Feed(QuietTokens(v, l.entry), Feed(WriteStringCollection(l.entry.indices), Feed(ShardMapTokens(l.shardOrder), rest))))
  {
    var e := l.entry;
    FeedAppend(EntryHeader(v, e), ShardMapTokens(l.shardOrder), rest);
    var s3 := Feed(ShardMapTokens(l.shardOrder), rest);
    FeedAppend(WriteHead(e) + QuietTokens(v, e), WriteStringCollection(e.indices), s3);
    FeedAppend(WriteHead(e), QuietTokens(v, e), Feed(WriteStringCollection(e.indices), s3));
  }

  /** ReadEntry composed from the reads of its fields. */
  lemma ReadEntryOf(v: Version, s: Stream, head: (string, Snapshot, State), quiet: bool, indices: seq<string>,
                    shards: map<ShardId, ShardRestoreStatus>, s1: Stream, s2: Stream, s3: Stream, rest: Stream)
    requires ReadHead(s) == Ok(Parsed(head, s1))
    requires ReadQuiet(v, s1) == Ok(Parsed(quiet, s2))
    requires ReadStringList(s2) == Ok(Parsed(indices, s3))
    requires ReadShardMap(s3) == Ok(Parsed(shards, rest))
    ensures ReadEntry(v, s) == Ok(Parsed(Entry(head.0, head.1, head.2, quiet, indices, shards), rest))
  {
  }

  /** An entry written at version `v` reads back as AsRead at the same version. */
  lemma EntryRoundTrip(v: Version, l: EntryLayout, rest: Stream)
    ensures ReadEntry(v, Feed(EncodeEntry(v, l), rest)) == Ok(Parsed(AsRead(v, l), rest))
  {
    var e := l.entry;
    var s3 := Feed(ShardMapTokens(l.shardOrder), rest);
    var s2 := Feed(WriteStringCollection(e.indices), s3);
    var s1 := Feed(QuietTokens(v, e), s2);
    FeedEntry(v, l, rest);
    HeadRoundTrip(e, s1);
    QuietRoundTrip(v, e, s2);
    ReadStringListRoundTrip(e.indices, s3);
    ShardMapRoundTrip(l.shardOrder, rest);
    ReadEntryOf(v, Feed(EncodeEntry(v, l), rest), (e.uuid, e.snapshot, e.state), if SupportsQuiet(v) then e.quiet else true,
                e.indices, PairsToMap(l.shardOrder), s1, s2, s3, rest);
  }

  /** Every entry written at version `v` reads back as AsRead at that version, whatever follows it. */
  lemma EntriesReadBack(v: Version, ls: seq<EntryLayout>)
    ensures ReadsBack(EntryReader(v), EntryWriter(v), ls, ReadBack(v, ls))
  {
    forall i, t | 0 <= i < |ls| ensures EntryReader(v)(Feed(EntryWriter(v)(ls[i]), t)) == Ok(Parsed(ReadBack(v, ls)[i], t)) {
      EntryRoundTrip(v, ls[i], t);
    }
  }

  /** Decoding what was written from any layout puts the read-back entries by uuid, in stream order. */
  lemma DecodeWritten(v: Version, ls: seq<EntryLayout>, rest: Stream)
    ensures DecodeTable(v, Feed(EncodeTable(v, ls), rest)) == Ok(Parsed(RestoreInProgress(PutAll(ReadBack(v, ls))), rest))
  {
    CountPrefix(|ls|, WriteList(EntryWriter(v), ls), rest);
    EntriesReadBack(v, ls);
    ReadListRoundTrip(EntryReader(v), EntryWriter(v), ls, ReadBack(v, ls), rest);
    DecodeTableOf(v, Feed(EncodeTable(v, ls), rest), |ls|, Feed(WriteList(EntryWriter(v), ls), rest), ReadBack(v, ls), rest);
  }

  /** The table `decode` gives back for `t`: `t` itself, or with every quiet flag `true` below the quiet version. */
  function Expected(v: Version, t: Table): Table
  {
    if SupportsQuiet(v) then t else Quieted(t)
  }

  /** Each entry of a covering layout reads back as the table's entry under its uuid, quieted below the quiet version. */
  lemma ReadBackEntry(v: Version, t: Table, layout: seq<EntryLayout>, i: nat)
    requires Covers(layout, t)
    requires i < |layout|
    ensures layout[i].entry.uuid in t.entries
    ensures AsRead(v, layout[i]) == Expected(v, t).entries[layout[i].entry.uuid]
  {
    assert EntryPairs(layout)[i] == (layout[i].entry.uuid, layout[i].entry);
    EnumeratedMap(layout[i].shardOrder, layout[i].entry.shards);
  }

  /** The entries a covering layout reads back are those of the table, quieted below the quiet version. */
  lemma ReadBackIsTable(v: Version, t: Table, layout: seq<EntryLayout>)
    requires Covers(layout, t)
    ensures PutAll(ReadBack(v, layout)) == Expected(v, t).entries
  {
    var back := ByUuid(ReadBack(v, layout));
    var pairs := EntryPairs(layout);
    forall i | 0 <= i < |pairs| ensures back[i] == (pairs[i].0, Expected(v, t).entries[pairs[i].0]) {
      ReadBackEntry(v, t, layout, i);
    }
    EnumeratesRekeyed(pairs, t.entries, back, Expected(v, t).entries);
    EnumeratedMap(back, Expected(v, t).entries);
    PutAllPairs(ReadBack(v, layout));
  }

  /**
   * The table round trip: decoding what writeTo emitted, at the same stream
   * version, gives an equal table, with every quiet flag `true` on a stream
   * older than the quiet version. Holds for every iteration order.
   */
  lemma TableRoundTrip(v: Version, t: Table, layout: seq<EntryLayout>, rest: Stream)
    requires Covers(layout, t)
    ensures DecodeTable(v, Feed(EncodeTable(v, layout), rest)) == Ok(Parsed(Expected(v, t), rest))
  {
    DecodeWritten(v, layout, rest);
    ReadBackIsTable(v, t, layout);
  }

  /**
   * A uuid repeated in the stream: the decoded table keeps its last entry,
   * and holds exactly the uuids that were written.
   */
  lemma RepeatedUuidKeepsLast(v: Version, ls: seq<EntryLayout>, i: nat, rest: Stream)
    requires i < |ls|
    requires forall j :: i < j < |ls| ==> ls[j].entry.uuid != ls[i].entry.uuid
    ensures DecodeTable(v, Feed(EncodeTable(v, ls), rest)).Ok?
    ensures DecodeTable(v, Feed(EncodeTable(v, ls), rest)).value.value.Get(ls[i].entry.uuid) == Some(AsRead(v, ls[i]))
    ensures DecodeTable(v, Feed(EncodeTable(v, ls), rest)).value.value.entries.Keys == set j | 0 <= j < |ls| :: ls[j].entry.uuid
  {
    DecodeWritten(v, ls, rest);
    LastWins(ByUuid(ReadBack(v, ls)), i);
    PutAllPairs(ReadBack(v, ls));
    WrittenUuids(v, ls);
  }

  /** The uuids of the entries read back are the uuids written. */
  lemma WrittenUuids(v: Version, ls: seq<EntryLayout>)
    ensures PutAll(ReadBack(v, ls)).Keys == set j | 0 <= j < |ls| :: ls[j].entry.uuid
  {
    var ps := ByUuid(ReadBack(v, ls));
    PutAllPairs(ReadBack(v, ls));
    forall u | u in PairsToMap(ps) ensures exists j :: 0 <= j < |ls| && ls[j].entry.uuid == u {
      var j :| 0 <= j < |ps| && ps[j] == (u, PairsToMap(ps)[u]);
      assert ls[j].entry.uuid == u;
    }
    forall j | 0 <= j < |ls| ensures ls[j].entry.uuid in PairsToMap(ps) {
      assert ps[j].0 == ls[j].entry.uuid;
    }
  }

  // ---------------------------------------------------------------------
  // The version gate and failing reads

  /** The number of boolean tokens, which in this format are only quiet flags. */
  function QuietFlags(ts: seq<Token>): nat
  {
    if ts == [] then 0 else (if ts[0].TBool? then 1 else 0) + QuietFlags(ts[1..])
  }

  lemma {:induction false} QuietFlagsConcat(a: seq<Token>, b: seq<Token>)
    ensures QuietFlags(a + b) == QuietFlags(a) + QuietFlags(b)
  {
    if a != [] {
      assert (a + b)[0] == a[0] && (a + b)[1..] == a[1..] + b;
      QuietFlagsConcat(a[1..], b);
    } else {
      assert a + b == b;
    }
  }

  lemma {:induction false} NoFlags(ts: seq<Token>)
    requires forall i :: 0 <= i < |ts| ==> !ts[i].TBool?
    ensures QuietFlags(ts) == 0
  {
    if ts != [] {
      NoFlags(ts[1..]);
    }
  }

  /** Items that each carry `k` flags carry `k` flags apiece when written in a row. */
  lemma {:induction false} FlagsOfList<T>(write: T -> seq<Token>, xs: seq<T>, k: nat)
    requires forall i :: 0 <= i < |xs| ==> QuietFlags(write(xs[i])) == k
    ensures QuietFlags(WriteList(write, xs)) == k * |xs|
  {
    if xs != [] {
      QuietFlagsConcat(write(xs[0]), WriteList(write, xs[1..]));
      FlagsOfList(write, xs[1..], k);
      assert QuietFlags(WriteList(write, xs)) == k + k * (|xs| - 1);
      assert k + k * (|xs| - 1) == k * |xs|;
    }
  }

  lemma EntryQuietFlags(v: Version, l: EntryLayout)
    ensures QuietFlags(EncodeEntry(v, l)) == if SupportsQuiet(v) then 1 else 0
  {
    var e := l.entry;
    QuietFlagsConcat(EntryHeader(v, e), ShardMapTokens(l.shardOrder));
    QuietFlagsConcat(WriteHead(e) + QuietTokens(v, e), WriteStringCollection(e.indices));
    QuietFlagsConcat(WriteHead(e), QuietTokens(v, e));
    QuietFlagsConcat([TVInt(|e.indices|)], WriteList(StringToken, e.indices));
    QuietFlagsConcat([TVInt(|l.shardOrder|)], WriteList(PairTokens, l.shardOrder));
    NoFlags(WriteHead(e));
    forall i | 0 <= i < |e.indices| ensures QuietFlags(StringToken(e.indices[i])) == 0 {
      NoFlags(StringToken(e.indices[i]));
    }
    FlagsOfList(StringToken, e.indices, 0);
    forall i | 0 <= i < |l.shardOrder| ensures QuietFlags(PairTokens(l.shardOrder[i])) == 0 {
      NoFlags(PairTokens(l.shardOrder[i]));
    }
    FlagsOfList(PairTokens, l.shardOrder, 0);
  }

  /**
   * The quiet flag is written once per entry at a version that has it, and
   * never below that version.
   */
  lemma QuietFlagsOfTable(v: Version, ls: seq<EntryLayout>)
    ensures QuietFlags(EncodeTable(v, ls)) == if SupportsQuiet(v) then |ls| else 0
  {
    var k := if SupportsQuiet(v) then 1 else 0;
    QuietFlagsConcat([TVInt(|ls|)], WriteList(EntryWriter(v), ls));
    forall i | 0 <= i < |ls| ensures QuietFlags(EntryWriter(v)(ls[i])) == k {
      EntryQuietFlags(v, ls[i]);
    }
    FlagsOfList(EntryWriter(v), ls, k);
  }

  /** An entry whose state byte is outside 0..3 fails to read, with that byte. */
  lemma EntryRejectsUnknownState(v: Version, uuid: string, snapshot: Snapshot, code: Byte, rest: Stream)
    requires code < 0 || code > 3
    ensures ReadEntry(v, Next(TString(uuid), Feed(WriteSnapshot(snapshot), Next(TByte(code), rest)))) == Err(UnknownState(code))
  {
    SnapshotRoundTrip(snapshot, Next(TByte(code), rest));
  }

  /** A shard map whose pairs after some good ones hold a failing status fails with the status's error. */
  lemma ShardMapFails(good: seq<ShardPair>, more: nat, bad: Stream)
    requires ReadPair(bad).Err?
    ensures ReadShardMap(Next(TVInt(|good| + 1 + more), Feed(WriteList(PairTokens, good), bad))) == Err(ReadPair(bad).error)
  {
    PairsReadBack(good);
    ReadListFailsAfter(ReadPair, PairTokens, good, good, bad, more);
  }

  /** ReadEntry fails with its shard map's error when every field before the map reads. */
  lemma ReadEntryFailsAtShards(v: Version, s: Stream, s1: Stream, s2: Stream, s3: Stream)
    requires ReadHead(s).Ok? && ReadHead(s).value.rest == s1
    requires ReadQuiet(v, s1).Ok? && ReadQuiet(v, s1).value.rest == s2
    requires ReadStringList(s2).Ok? && ReadStringList(s2).value.rest == s3
    requires ReadShardMap(s3).Err?
    ensures ReadEntry(v, s) == Err(ReadShardMap(s3).error)
  {
  }

  /**
   * An entry whose shard map holds, after some well-formed pairs, a status
   * with a state byte outside 0..3 fails to read, with that byte.
   */
  lemma EntryRejectsUnknownShardState(
    v: Version, e: Entry, good: seq<ShardPair>, more: nat,
    id: ShardId, nodeId: Option<string>, code: Byte, rest: Stream)
    requires code < 0 || code > 3
    ensures ReadEntry(v, Feed(EntryHeader(v, e), Next(TVInt(|good| + 1 + more),
              Feed(WriteList(PairTokens, good), Feed(WriteShardId(id), Next(TOptString(nodeId), Next(TByte(code), rest)))))))
            == Err(UnknownState(code))
  {
    var statusPart := Next(TOptString(nodeId), Next(TByte(code), rest));
    var bad := Feed(WriteShardId(id), statusPart);
    ShardIdRoundTrip(id, statusPart);
    StatusRejectsUnknownState(nodeId, code, rest);
    ShardMapFails(good, more, bad);
    var s3 := Next(TVInt(|good| + 1 + more), Feed(WriteList(PairTokens, good), bad));
    var s2 := Feed(WriteStringCollection(e.indices), s3);
    var s1 := Feed(QuietTokens(v, e), s2);
    FeedAppend(WriteHead(e) + QuietTokens(v, e), WriteStringCollection(e.indices), s3);
    FeedAppend(WriteHead(e), QuietTokens(v, e), s2);
    HeadRoundTrip(e, s1);
    QuietRoundTrip(v, e, s2);
    ReadStringListRoundTrip(e.indices, s3);
    ReadEntryFailsAtShards(v, Feed(EntryHeader(v, e), s3), s1, s2, s3);
  }

  /** An entry that fails to read, after entries that read back, fails the list of entries with its error. */
  lemma EntriesFail(v: Version, ls: seq<EntryLayout>, s: Stream, more: nat)
    requires ReadEntry(v, s).Err?
    ensures ReadList(EntryReader(v), Feed(WriteList(EntryWriter(v), ls), s), |ls| + 1 + more) == Err(ReadEntry(v, s).error)
  {
    EntriesReadBack(v, ls);
    ReadListFailsAfter(EntryReader(v), EntryWriter(v), ls, ReadBack(v, ls), s, more);
  }

  /** A count, then entries of which one fails to read: the decoding fails with that error. */
  lemma DecodeFailsAfterCount(v: Version, n: nat, s: Stream, err: DecodeError)
    requires ReadList(EntryReader(v), s, n) == Err(err)
    ensures DecodeTable(v, Next(TVInt(n), s)) == Err(err)
  {
  }

  /** An entry that fails to read, after any number of good ones, fails the whole table with its error. */
  lemma FailingEntryFailsTable(v: Version, ls: seq<EntryLayout>, s: Stream, more: nat)
    requires ReadEntry(v, s).Err?
    ensures DecodeTable(v, Next(TVInt(|ls| + 1 + more), Feed(WriteList(EntryWriter(v), ls), s))) == Err(ReadEntry(v, s).error)
  {
    EntriesFail(v, ls, s, more);
    DecodeFailsAfterCount(v, |ls| + 1 + more, Feed(WriteList(EntryWriter(v), ls), s), ReadEntry(v, s).error);
  }
}
