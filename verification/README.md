# RestoreInProgress, modelled in Dafny

`RestoreInProgress` is the piece of Elasticsearch cluster state that records which
snapshot restores are running. It is an immutable map from restore uuid to `Entry`.
Each entry holds:

- the snapshot;
- the overall `State`;
- the `quiet` logging flag;
- the restored indices;
- a map from `ShardId` to `ShardRestoreStatus`.

This project models the class, its `Builder` and its binary wire form, and proves what the
code promises about them:

- `State.fromValue` inverts `State.value` and rejects every other byte.
- A shard status and a whole table read back what was written.
- The `quiet` flag is written only on streams whose version has it, and reads as `true` on
  older ones.
- A bad state byte anywhere fails the whole decoding.
- A repeated uuid in the stream keeps its last entry.
- The builder overwrites by uuid and returns the shared `EMPTY` exactly when it holds
  nothing.

Modules, in dependency order:

- `Wrappers`: `Option` and `Result`.
- `Wire`: the stream that `StreamInput`/`StreamOutput` read and write, one token per
  primitive write. It also has the primitive readers, the generic reader of `n` items `ReadList`
  (which the `readImmutableList` models call after reading the count) with its round-trip
  lemmas, and the string collection.
- `Collaborators`: `Snapshot` and `ShardId`, each with a three-token layout that stands in
  for its real codec. Their round trips are proved for these stand-in layouts. For the real
  `Snapshot` and `ShardId` classes, whose codecs are not part of this model, the round trip
  remains an assumption.
- `RestoreState`: the `State` enum (`state.dfy`).
- `ShardStatus`: `ShardRestoreStatus` and its codec.
- `RestoreEntry`: the `Entry` record and its null-checking constructor.
- `PairMaps`: maps built by putting pairs in order (last one wins), and enumerations of a
  map, which stand for an unspecified iteration order.
- `RestoreTable`: the table (`get`, `isEmpty`, `equals`, `EMPTY`) and the `Builder` class.
- `TableCodec`: the decoding constructor and `writeTo`. Each is given twice:
  - as a specification function (`DecodeTable`, `EncodeTable`);
  - as a method with the source's loop (`ReadFrom`, `WriteTo`, `WriteMap`), proved against
    that function.

`HashMap` iteration order is left open. The writers pick each next key with `:|` and return
the order they used as a ghost layout, and the round trip is proved for every layout that
enumerates the maps.

The stream version is a parameter, compared with one named threshold,
`QuietParameterVersion`. In the code, the writer tests `out.getVersion()` and the reader tests
`in.getVersion()`: both sides of one connection use the same negotiated version, and the model
uses one version `v` for both. Writing at a version that has the flag and reading at one that
does not is therefore not a supported pairing in the code, and the model makes no claim about
it. A reader without the flag would take the boolean for the start of the index list.

## Model

| member | source | states |
|---|---|---|
| RestoreState.Value | server/src/main/java/org/elasticsearch/cluster/RestoreInProgress.java:274-306 | every state's code is a byte in 0..3 |
| RestoreState.FromValue | server/src/main/java/org/elasticsearch/cluster/RestoreInProgress.java:323-331 | succeeds exactly on bytes 0..3; on success, the state's code is the byte; any other byte fails with `UnknownState` of that byte, never defaulting |
| RestoreState.Completed | server/src/main/java/org/elasticsearch/cluster/RestoreInProgress.java:313-315 | completed holds exactly for the states whose code is 2 or 3 (SUCCESS, FAILURE) |
| RestoreState.FromValueOfValue | server/src/main/java/org/elasticsearch/cluster/RestoreInProgress.java:274-331 | fromValue(value(s)) gives back s for every state |
| RestoreState.ValueInjective | server/src/main/java/org/elasticsearch/cluster/RestoreInProgress.java:274-306 | two states have the same code exactly when they are the same state |
| ShardStatus.WithState | server/src/main/java/org/elasticsearch/cluster/RestoreInProgress.java:169-171 | the two-argument constructor keeps node id and state and has no reason |
| ShardStatus.Initializing | server/src/main/java/org/elasticsearch/cluster/RestoreInProgress.java:159-161 | the one-argument constructor gives state INIT, no reason, and a status that is not completed |
| ShardStatus.Equals | server/src/main/java/org/elasticsearch/cluster/RestoreInProgress.java:249-258 | field-wise equality over state, node id and reason holds exactly when the statuses are equal values |
| ShardStatus.WriteStatus | server/src/main/java/org/elasticsearch/cluster/RestoreInProgress.java:242-246 | no contract of its own: StatusRoundTrip and ReadStatusConsumesEncoding state that it and ReadStatus are inverse |
| ShardStatus.ReadStatus | server/src/main/java/org/elasticsearch/cluster/RestoreInProgress.java:230-234 | no contract of its own: StatusRoundTrip (reads back every encoding), ReadStatusConsumesEncoding (accepts only encodings) and StatusRejectsUnknownState (a bad state byte fails with that byte) state its properties |
| ShardStatus.ReadShardRestoreStatus | server/src/main/java/org/elasticsearch/cluster/RestoreInProgress.java:219-234 | reading node id, state byte and reason one after the other: whatever it accepts is writeTo of its result followed by the rest; every writeTo output reads back as the status written; a state byte outside 0..3 fails it with that byte |
| ShardStatus.StatusRoundTrip | server/src/main/java/org/elasticsearch/cluster/RestoreInProgress.java:230-246 | readFrom after writeTo gives back the same status and leaves the following stream untouched |
| ShardStatus.ReadStatusConsumesEncoding | server/src/main/java/org/elasticsearch/cluster/RestoreInProgress.java:230-234 | whatever readFrom accepts is exactly writeTo of its result, followed by the rest |
| ShardStatus.StatusRejectsUnknownState | server/src/main/java/org/elasticsearch/cluster/RestoreInProgress.java:232 | a state byte outside 0..3 fails readFrom with that byte |
| RestoreEntry.NewEntry | server/src/main/java/org/elasticsearch/cluster/RestoreInProgress.java:127-141 | succeeds exactly when uuid, snapshot, state and indices are present, and otherwise fails naming the first absent one in that order; keeps every field; a null shard map becomes the empty map |
| RestoreTable.RestoreInProgress.Get | server/src/main/java/org/elasticsearch/cluster/RestoreInProgress.java:72-74 | an entry exactly for the uuids held, namely the one held; in a table keyed by uuid it carries the uuid asked for |
| RestoreTable.RestoreInProgress.IsEmpty | server/src/main/java/org/elasticsearch/cluster/RestoreInProgress.java:76-78 | empty exactly when get finds no entry for any uuid |
| RestoreTable.RestoreInProgress.Equals | server/src/main/java/org/elasticsearch/cluster/RestoreInProgress.java:51-56 | two tables are equal exactly when they are the same value |
| RestoreTable.Builder.constructor | server/src/main/java/org/elasticsearch/cluster/RestoreInProgress.java:89 | a new builder holds no entries |
| RestoreTable.Builder.FromTable | server/src/main/java/org/elasticsearch/cluster/RestoreInProgress.java:91-93 | a seeded builder holds exactly the table's entries |
| RestoreTable.Builder.Add | server/src/main/java/org/elasticsearch/cluster/RestoreInProgress.java:95-98 | stores the entry under its uuid, replacing any entry there; every entry stays under its own uuid |
| RestoreTable.Builder.Build | server/src/main/java/org/elasticsearch/cluster/RestoreInProgress.java:100-102 | empty exactly when the builder is; EMPTY when it holds nothing; otherwise get answers with the builder's entries |
| RestoreTable.AddSameUuidTwice | server/src/main/java/org/elasticsearch/cluster/RestoreInProgress.java:95-102 | a second add under the same uuid replaces the first: the built table holds only the second entry and is not empty |
| RestoreTable.AddToSeeded | server/src/main/java/org/elasticsearch/cluster/RestoreInProgress.java:91-102 | after seeding from a table and adding one entry, every other uuid answers as in the seed table |
| RestoreTable.Rebuild | server/src/main/java/org/elasticsearch/cluster/RestoreInProgress.java:91-102 | a builder seeded from a table and built at once gives an equal table, EMPTY when the seed is empty |
| RestoreTable.EmptyIsTheEmptyTable | server/src/main/java/org/elasticsearch/cluster/RestoreInProgress.java:38 | EMPTY holds no entry, and a table is empty exactly when it equals EMPTY |
| RestoreTable.BuildNothing | server/src/main/java/org/elasticsearch/cluster/RestoreInProgress.java:89-102 | a fresh builder builds EMPTY, which is empty |
| Collaborators.SnapshotRoundTrip | server/src/main/java/org/elasticsearch/cluster/RestoreInProgress.java:357 | the snapshot read back is the snapshot written |
| Collaborators.ShardIdRoundTrip | server/src/main/java/org/elasticsearch/cluster/RestoreInProgress.java:375 | the shard id read back is the shard id written |
| Collaborators.ReadSnapshotConsumesEncoding | server/src/main/java/org/elasticsearch/cluster/RestoreInProgress.java:357 | a fact about the stand-in layout: its snapshot reader accepts only an encoded snapshot |
| Collaborators.ReadShardIdConsumesEncoding | server/src/main/java/org/elasticsearch/cluster/RestoreInProgress.java:375 | a fact about the stand-in layout: its shard id reader accepts only an encoded shard id |
| Wire.WriteStringCollection | server/src/main/java/org/elasticsearch/cluster/RestoreInProgress.java:391 | no contract of its own: ReadStringListRoundTrip states that ReadStringList reads it back |
| Wire.ReadStringList | server/src/main/java/org/elasticsearch/cluster/RestoreInProgress.java:366 | no contract of its own: ReadStringListRoundTrip states that it reads back what WriteStringCollection wrote |
| Wire.ReadStringListRoundTrip | server/src/main/java/org/elasticsearch/cluster/RestoreInProgress.java:366 | readImmutableList(readString) after writeStringCollection gives back the same list, in order |
| Wire.ReadListRoundTrip | server/src/main/java/org/elasticsearch/cluster/RestoreInProgress.java:366 | reading items written one after the other gives them back when each one reads back on its own |
| Wire.ReadListFailsAfter | server/src/main/java/org/elasticsearch/cluster/RestoreInProgress.java:354-378 | after items that read back, an item that fails to read fails the whole list with its error |
| PairMaps.PairsToMap | server/src/main/java/org/elasticsearch/cluster/RestoreInProgress.java:367-377 | every key put is in the map, and every binding of the map is one of the pairs put |
| PairMaps.LastWins | server/src/main/java/org/elasticsearch/cluster/RestoreInProgress.java:367-377 | a key put several times maps to its last value |
| PairMaps.EnumeratedMap | server/src/main/java/org/elasticsearch/cluster/RestoreInProgress.java:375 | putting the bindings of any enumeration of a map rebuilds that map |
| TableCodec.WriteMap | server/src/main/java/org/elasticsearch/cluster/RestoreInProgress.java:392 | writeMap writes the size, then every binding of the map once, in an order that enumerates the map; what it writes reads back as the map itself, whatever follows |
| TableCodec.ShardMapTokens | server/src/main/java/org/elasticsearch/cluster/RestoreInProgress.java:392 | no contract of its own: WriteMap's output is ShardMapTokens of an enumeration of the map, and ShardMapRoundTrip reads it back |
| TableCodec.ReadShardMap | server/src/main/java/org/elasticsearch/cluster/RestoreInProgress.java:375 | no contract of its own: ShardMapRoundTrip (reads back the pairs, last one winning), WriteMap (reads back the written map) and ShardMapFails (a failing pair fails the map) state its properties |
| TableCodec.PairRoundTrip | server/src/main/java/org/elasticsearch/cluster/RestoreInProgress.java:375 | a shard id and its status read back as written |
| TableCodec.ShardMapRoundTrip | server/src/main/java/org/elasticsearch/cluster/RestoreInProgress.java:375 | readImmutableMap after writeMap gives the pairs put in the order written |
| TableCodec.HeadRoundTrip | server/src/main/java/org/elasticsearch/cluster/RestoreInProgress.java:355-358 | uuid, snapshot and state read back as written |
| TableCodec.QuietRoundTrip | server/src/main/java/org/elasticsearch/cluster/RestoreInProgress.java:359-365 | the quiet flag reads back as written at a version that has it, and as `true` below it |
| TableCodec.EncodeEntry | server/src/main/java/org/elasticsearch/cluster/RestoreInProgress.java:384-393 | no contract of its own: EntryRoundTrip reads it back, EntryQuietFlags counts its quiet flags, WriteEntry emits it |
| TableCodec.ReadEntry | server/src/main/java/org/elasticsearch/cluster/RestoreInProgress.java:355-377 | no contract of its own: EntryRoundTrip (version-gated read-back), EntryRejectsUnknownState and EntryRejectsUnknownShardState (a bad state byte fails with that byte) and ReadEntryFailsAtShards state its properties |
| TableCodec.EntryRoundTrip | server/src/main/java/org/elasticsearch/cluster/RestoreInProgress.java:355-377 | an entry reads back with every field as written, except quiet, which is `true` below the quiet version |
| TableCodec.PutByUuid | server/src/main/java/org/elasticsearch/cluster/RestoreInProgress.java:367-368 | putting decoded entries under their own uuids gives a map whose every entry carries its key |
| TableCodec.EncodeTable | server/src/main/java/org/elasticsearch/cluster/RestoreInProgress.java:383-394 | no contract of its own: WriteTo emits it, TableRoundTrip decodes it back, QuietFlagsOfTable counts its quiet flags |
| TableCodec.DecodeTable | server/src/main/java/org/elasticsearch/cluster/RestoreInProgress.java:351-380 | no contract of its own: ReadFrom computes it; TableRoundTrip, RepeatedUuidKeepsLast and FailingEntryFailsTable state its properties |
| TableCodec.ReadFrom | server/src/main/java/org/elasticsearch/cluster/RestoreInProgress.java:351-380 | the decoding loop (count, then read and put one entry per turn) returns exactly the specification's decoding, failing with the first failing read |
| TableCodec.WriteEntry | server/src/main/java/org/elasticsearch/cluster/RestoreInProgress.java:384-393 | the per-entry writer writes an entry's fields in order for some enumeration of its shard map; what it writes reads back as the entry, with quiet `true` below the quiet version |
| TableCodec.WriteTo | server/src/main/java/org/elasticsearch/cluster/RestoreInProgress.java:383-394 | writeTo writes the count, then every entry of the table exactly once, in an order that enumerates the table; its output decodes, at the same version, to the table (quiet flags `true` below the quiet version) and carries one quiet flag per entry at or after that version, none below it |
| TableCodec.DecodeWritten | server/src/main/java/org/elasticsearch/cluster/RestoreInProgress.java:351-394 | decoding what was written puts each written entry, as read back, under its uuid in stream order |
| TableCodec.ReadBackIsTable | server/src/main/java/org/elasticsearch/cluster/RestoreInProgress.java:367-379 | for any layout writeTo can choose, putting the entries read back rebuilds the table, with quiet set to `true` below the quiet version |
| TableCodec.TableRoundTrip | server/src/main/java/org/elasticsearch/cluster/RestoreInProgress.java:351-394 | decoding writeTo's output at the same version gives an equal table whatever the iteration order, including for zero entries; below the quiet version only the quiet flags change, to `true` |
| TableCodec.RepeatedUuidKeepsLast | server/src/main/java/org/elasticsearch/cluster/RestoreInProgress.java:367-377 | when a uuid is written more than once, the decoded table holds its last entry; the decoded table holds exactly the uuids written |
| TableCodec.EntryQuietFlags | server/src/main/java/org/elasticsearch/cluster/RestoreInProgress.java:384-393 | an entry's encoding holds one boolean at a version that has the flag, and none below it |
| TableCodec.QuietFlagsOfTable | server/src/main/java/org/elasticsearch/cluster/RestoreInProgress.java:388-390 | writeTo emits the quiet flag once per entry at or after the quiet version, and never below it |
| TableCodec.EntryRejectsUnknownState | server/src/main/java/org/elasticsearch/cluster/RestoreInProgress.java:358 | an entry whose state byte is outside 0..3 fails to read with that byte |
| TableCodec.ShardMapFails | server/src/main/java/org/elasticsearch/cluster/RestoreInProgress.java:375 | a shard pair that fails to read, after good ones, fails the shard map with its error |
| TableCodec.EntryRejectsUnknownShardState | server/src/main/java/org/elasticsearch/cluster/RestoreInProgress.java:375 | a shard status with a state byte outside 0..3, after good pairs, fails the entry with that byte |
| TableCodec.FailingEntryFailsTable | server/src/main/java/org/elasticsearch/cluster/RestoreInProgress.java:354-378 | an entry that fails to read, after any number of good ones, fails the whole decoding with its error |

## Left out

- `toXContent`, `toString`, `hashCode`, `getWriteableName`, `getMinimalSupportedVersion`,
  `readDiffFrom` and `iterator`:
  - `toXContent` and `toString` render the fragment, and `hashCode` hashes it.
  - `getWriteableName` names it. `getMinimalSupportedVersion` versions it and reads
    `Version.CURRENT`.
  - `readDiffFrom` reads diffs through `AbstractNamedDiffable`.
  - `iterator` iterates the entries.

  None of them is part of the builder or codec behaviour modelled here.
- The byte layout of `StreamInput`/`StreamOutput` primitives: vint, string and optional
  string. The model uses one token per primitive write.
- `Snapshot` and `ShardId`:
  - their own source files are not part of this model;
  - the three-token layouts given to them here stand for their `writeTo` and stream
    constructors.
- `ReadShardMap`: `readImmutableMap` of `StreamInput` is not part of this model. It is taken
  to `put` pairs in stream order, so a repeated shard id keeps its last status.
- `ReadStringList`: the count is a `nat`. A negative vint count, and Java's `int`
  overflow of counts and shard numbers, are not modelled.
- `RestoreEntry.NewEntry`: null contents are not modelled, because the model's maps and
  sequences hold no nulls. Two cases are lost:
  - A shard map with a null key or a null value. `Map.copyOf` rejects it in the constructor
    with a null pointer exception.
  - An index list with a null element. The constructor accepts it, and `writeTo` fails on
    it later in `writeStringCollection`.
- `ShardStatus.ShardRestoreStatus`: the state is never null. A status built with a null
  state, which `writeTo` would reject with a null pointer exception, is not modelled.
- `ShardStatus.ReadShardRestoreStatus`: returns a status value instead of assigning the
  fields of an object made by the private no-argument constructor. That matches the one
  caller in this file, `readShardRestoreStatus`, which calls `readFrom` on a fresh object.
- `readFrom` on an existing status is not modelled. `readFrom` is public and the status fields
  are not final, so calling it on a status already in use changes that status in place.
- A half-updated status is not modelled. When the state byte is bad, `readFrom` has already
  overwritten `nodeId` before `fromValue` throws. The model returns an error and no status.
- `RestoreTable.Builder.Build`: equality with `EMPTY` is value equality. Reference
  identity of the shared instance is not modelled. A decoded table with no entries is a
  fresh instance in the code and an equal value here.
- `RestoreTable.Builder.Build`: `Collections.unmodifiableMap` makes the built table a view of
  the builder's map, so a later `add` on the same builder would show through it. The model
  copies the map when it builds. `Map.copyOf` in the entry constructor is a value copy here
  too.
- `QuietParameterVersion`: the constant is the id of release 7.7.0. The request class that
  defines `VERSION_SUPPORTING_QUIET_PARAMETER` is not part of this model. Every proof uses
  only the comparison `SupportsQuiet`.
- `TableCodec.WriteTo`: the `HashMap` iteration order is not modelled, only that it
  enumerates each map once. The round trip is proved for every such order.
- Thread safety of the shared `EMPTY` instance.
