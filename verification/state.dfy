/** The restore state of a whole restore or of one shard, with its wire byte. */
module RestoreState {
  import opened Wrappers
  import opened Wire

  datatype State = Init | Started | Success | Failure

  /** `State.value()`: the fixed byte code of each state. */
  function Value(s: State): (b: Byte)
    ensures 0 <= b <= 3
  {
    match s
    case Init => 0
    case Started => 1
    case Success => 2
    case Failure => 3
  }

  /**
   * `State.fromValue(byte)`: the state whose code is `b`; every other byte
   * is rejected, never mapped to a default.
   */
  function FromValue(b: Byte): (r: Result<State, DecodeError>)
    ensures r.Ok? <==> 0 <= b <= 3
    ensures r.Ok? ==> Value(r.value) == b
    ensures r.Err? ==> r.error == UnknownState(b)
  {
    if b == 0 then Ok(Init)
    else if b == 1 then Ok(Started)
    else if b == 2 then Ok(Success)
    else if b == 3 then Ok(Failure)
    else Err(UnknownState(b))
  }

  /** `State.completed()`: the terminal states, which are the two with the highest codes. */
  predicate Completed(s: State)
    ensures Completed(s) <==> Value(s) >= 2
  {
    s == Success || s == Failure
  }

  /** fromValue inverts value on every state. */
  lemma FromValueOfValue(s: State)
    ensures FromValue(Value(s)) == Ok(s)
  {
  }

  /** value is injective, so the byte codes name the states one to one. */
  lemma ValueInjective(s: State, t: State)
    ensures Value(s) == Value(t) <==> s == t
  {
  }
}
