/** `RestoreInProgress.ShardRestoreStatus`: the restore status of one shard. */
module ShardStatus {
  import opened Wrappers
  import opened Wire
  import opened RestoreState

  /**
   * The node restoring the shard (absent while unassigned), its state and a
   * failure reason. Nothing ties `reason` to `state == Failure`.
   */
  datatype ShardRestoreStatus = ShardRestoreStatus(nodeId: Option<string>, state: State, reason: Option<string>)

  /** `new ShardRestoreStatus(nodeId, state)`: no failure reason. */
  function WithState(nodeId: Option<string>, state: State): (st: ShardRestoreStatus)
    ensures st.nodeId == nodeId && st.state == state && st.reason.None?
  {
    ShardRestoreStatus(nodeId, state, None)
  }

  /** `new ShardRestoreStatus(nodeId)`: a shard that is initialising, so not yet completed. */
  function Initializing(nodeId: Option<string>): (st: ShardRestoreStatus)
    ensures st.nodeId == nodeId && st.state == Init && st.reason.None?
    ensures !Completed(st.state)
  {
    WithState(nodeId, Init)
  }

  /** `equals`: field by field over state, node id and reason, which is value equality. */
  function Equals(a: ShardRestoreStatus, b: ShardRestoreStatus): (r: bool)
    ensures r <==> a == b
  {
    a.state == b.state && a.nodeId == b.nodeId && a.reason == b.reason
  }

  /** `writeTo`: node id, state byte, reason. */
  function WriteStatus(st: ShardRestoreStatus): seq<Token>
  {
    [TOptString(st.nodeId), TByte(Value(st.state)), TOptString(st.reason)]
  }

  /**
   * `readFrom`: node id, state byte, reason, in that order; an unknown state
   * byte fails the read.
   */
  function ReadStatus(s: Stream): Decoded<ShardRestoreStatus>
  {
    var nodeId :- ReadOptionalString(s);
    var code :- ReadByte(nodeId.rest);
    var state :- FromValue(code.value);
    var reason :- ReadOptionalString(code.rest);
    Ok(Parsed(ShardRestoreStatus(nodeId.value, state, reason.value), reason.rest))
  }

  /**
   * `readShardRestoreStatus`: a fresh status whose `readFrom` assigns node id,
   * state and reason one after the other, stopping at the first failing read.
   * It accepts exactly the encodings `writeTo` produces, and a state byte
   * outside 0..3 fails it with that byte.
   */
  method ReadShardRestoreStatus(s: Stream) returns (r: Decoded<ShardRestoreStatus>)
    ensures r.Ok? ==> s == Feed(WriteStatus(r.value.value), r.value.rest)
    ensures forall st, rest :: s == Feed(WriteStatus(st), rest) ==> r == Ok(Parsed(st, rest))
    ensures forall nodeId, code: Byte, rest :: s == Next(TOptString(nodeId), Next(TByte(code), rest)) && (code < 0 || code > 3)
              ==> r == Err(UnknownState(code))
  {
    var nodeId := ReadOptionalString(s);
    if nodeId.Err? {
      r := Err(nodeId.error);
    } else {
      var code := ReadByte(nodeId.value.rest);
      if code.Err? {
        r := Err(code.error);
      } else {
        var state := FromValue(code.value.value);
        if state.Err? {
          r := Err(state.error);
        } else {
          var reason := ReadOptionalString(code.value.rest);
          if reason.Err? {
            r := Err(reason.error);
          } else {
            r := Ok(Parsed(ShardRestoreStatus(nodeId.value.value, state.value, reason.value.value), reason.value.rest));
          }
        }
      }
    }
    assert r == ReadStatus(s);
    if r.Ok? {
      ReadStatusConsumesEncoding(s);
    }
    forall st, rest | s == Feed(WriteStatus(st), rest) ensures r == Ok(Parsed(st, rest)) {
      StatusRoundTrip(st, rest);
    }
    forall nodeId, code: Byte, rest | s == Next(TOptString(nodeId), Next(TByte(code), rest)) && (code < 0 || code > 3)
      ensures r == Err(UnknownState(code))
    {
      StatusRejectsUnknownState(nodeId, code, rest);
    }
  }

  /** readFrom after writeTo gives back an equal status and leaves the rest of the stream. */
  lemma StatusRoundTrip(st: ShardRestoreStatus, rest: Stream)
    ensures ReadStatus(Feed(WriteStatus(st), rest)) == Ok(Parsed(st, rest))
  {
    FeedThree(TOptString(st.nodeId), TByte(Value(st.state)), TOptString(st.reason), rest);
    FromValueOfValue(st.state);
  }

  /** ReadStatus accepts nothing but an encoded status: what it consumed is WriteStatus of its result. */
  lemma ReadStatusConsumesEncoding(s: Stream)
    requires ReadStatus(s).Ok?
    ensures s == Feed(WriteStatus(ReadStatus(s).value.value), ReadStatus(s).value.rest)
  {
    var st := ReadStatus(s).value.value;
    FeedThree(TOptString(st.nodeId), TByte(Value(st.state)), TOptString(st.reason), ReadStatus(s).value.rest);
  }

  /** A state byte outside 0..3 fails the read with that byte, whatever follows it. */
  lemma StatusRejectsUnknownState(nodeId: Option<string>, code: Byte, rest: Stream)
    requires code < 0 || code > 3
    ensures ReadStatus(Next(TOptString(nodeId), Next(TByte(code), rest))) == Err(UnknownState(code))
  {
  }
}
