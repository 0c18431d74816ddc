/** `RestoreInProgress.Entry`: the record of one running restore. */
module RestoreEntry {
  import opened Wrappers
  import opened RestoreState
  import opened Collaborators
  import opened ShardStatus

  datatype Entry = Entry(
    uuid: string,
    snapshot: Snapshot,
    state: State,
    quiet: bool,
    indices: seq<string>,
    shards: map<ShardId, ShardRestoreStatus>)

  /** The required constructor arguments, in the order they are checked. */
  datatype RequiredField = UuidField | SnapshotField | StateField | IndicesField

  /** `Objects.requireNonNull` failing on the named argument. */
  datatype ConstructionError = NullArgument(field: RequiredField)

  /**
   * The canonical constructor: a null uuid, snapshot, state or index list
   * fails (on the first of them), a null shard map is taken as empty.
   * Maps and sequences here hold no nulls, so null contents cannot arise.
   */
  function NewEntry(
    uuid: Option<string>,
    snapshot: Option<Snapshot>,
    state: Option<State>,
    quiet: bool,
    indices: Option<seq<string>>,
    shards: Option<map<ShardId, ShardRestoreStatus>>): (r: Result<Entry, ConstructionError>)
    ensures r.Ok? <==> uuid.Some? && snapshot.Some? && state.Some? && indices.Some?
    ensures r.Ok? ==>
      && r.value.uuid == uuid.value && r.value.snapshot == snapshot.value
      && r.value.state == state.value && r.value.quiet == quiet
      && r.value.indices == indices.value
    ensures r.Ok? ==> r.value.shards == (if shards.Some? then shards.value else map[])
    ensures uuid.None? ==> r == Err(NullArgument(UuidField))
    ensures uuid.Some? && snapshot.None? ==> r == Err(NullArgument(SnapshotField))
    ensures uuid.Some? && snapshot.Some? && state.None? ==> r == Err(NullArgument(StateField))
    ensures uuid.Some? && snapshot.Some? && state.Some? && indices.None? ==> r == Err(NullArgument(IndicesField))
  {
    if uuid.None? then Err(NullArgument(UuidField))
    else if snapshot.None? then Err(NullArgument(SnapshotField))
    else if state.None? then Err(NullArgument(StateField))
    else if indices.None? then Err(NullArgument(IndicesField))
    else
      var copied := if shards.Some? then shards.value else map[];
      Ok(Entry(uuid.value, snapshot.value, state.value, quiet, indices.value, copied))
  }
}
