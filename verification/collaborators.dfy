/**
 * The snapshot reference and the shard id, which the restore record only
 * stores and passes to their own stream codecs. Both are values; the token
 * layout given here stands in for their own writeTo/readFrom.
 */
module Collaborators {
  import opened Wrappers
  import opened Wire

  datatype SnapshotId = SnapshotId(name: string, uuid: string)

  /** A snapshot within a repository. */
  datatype Snapshot = Snapshot(repository: string, snapshotId: SnapshotId)

  datatype Index = Index(name: string, uuid: string)

  /** A shard: its index and its number within the index. */
  datatype ShardId = ShardId(index: Index, id: nat)

  function WriteSnapshot(sn: Snapshot): seq<Token>
  {
    [TString(sn.repository), TString(sn.snapshotId.name), TString(sn.snapshotId.uuid)]
  }

  /** `new Snapshot(in)`: repository, snapshot name, snapshot uuid. */
  function ReadSnapshot(s: Stream): Decoded<Snapshot>
  {
    var repository :- ReadString(s);
    var name :- ReadString(repository.rest);
    var uuid :- ReadString(name.rest);
    Ok(Parsed(Snapshot(repository.value, SnapshotId(name.value, uuid.value)), uuid.rest))
  }

  function WriteShardId(id: ShardId): seq<Token>
  {
    [TString(id.index.name), TString(id.index.uuid), TVInt(id.id)]
  }

  /** `new ShardId(in)`: index name, index uuid, shard number. */
  function ReadShardId(s: Stream): Decoded<ShardId>
  {
    var name :- ReadString(s);
    var uuid :- ReadString(name.rest);
    var id :- ReadVInt(uuid.rest);
    Ok(Parsed(ShardId(Index(name.value, uuid.value), id.value), id.rest))
  }

  lemma SnapshotRoundTrip(sn: Snapshot, rest: Stream)
    ensures ReadSnapshot(Feed(WriteSnapshot(sn), rest)) == Ok(Parsed(sn, rest))
  {
    FeedThree(TString(sn.repository), TString(sn.snapshotId.name), TString(sn.snapshotId.uuid), rest);
  }

  lemma ShardIdRoundTrip(id: ShardId, rest: Stream)
    ensures ReadShardId(Feed(WriteShardId(id), rest)) == Ok(Parsed(id, rest))
  {
    FeedThree(TString(id.index.name), TString(id.index.uuid), TVInt(id.id), rest);
  }

  /** A fact about the stand-in layout: ReadSnapshot accepts nothing but an encoded snapshot. */
  lemma ReadSnapshotConsumesEncoding(s: Stream)
    requires ReadSnapshot(s).Ok?
    ensures s == Feed(WriteSnapshot(ReadSnapshot(s).value.value), ReadSnapshot(s).value.rest)
  {
    var sn := ReadSnapshot(s).value.value;
    FeedThree(TString(sn.repository), TString(sn.snapshotId.name), TString(sn.snapshotId.uuid), ReadSnapshot(s).value.rest);
  }

  /** A fact about the stand-in layout: ReadShardId accepts nothing but an encoded shard id. */
  lemma ReadShardIdConsumesEncoding(s: Stream)
    requires ReadShardId(s).Ok?
    ensures s == Feed(WriteShardId(ReadShardId(s).value.value), ReadShardId(s).value.rest)
  {
    var id := ReadShardId(s).value.value;
    FeedThree(TString(id.index.name), TString(id.index.uuid), TVInt(id.id), ReadShardId(s).value.rest);
  }
}
