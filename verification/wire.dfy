/**
 * The abstract stream that StreamInput and StreamOutput read and write.
 * A stream is a sequence of tokens, one per primitive write; the byte
 * layout of each primitive (vint, string, optional string) is below this model.
 */
module Wire {
  import opened Wrappers

  /** A Java `byte`. */
  type Byte = b: int | -128 <= b < 128

  /** A transport version, by its numeric id; later releases have larger ids. */
  type Version = nat

  /** Id of release 7.7.0, the first whose restore request carries the quiet flag. */
  const QuietParameterVersion: Version := 7_07_00_99

  /** `version.onOrAfter(VERSION_SUPPORTING_QUIET_PARAMETER)` */
  predicate SupportsQuiet(v: Version) {
    v >= QuietParameterVersion
  }

  datatype Token =
    | TString(str: string)
    | TOptString(opt: Option<string>)
    | TByte(byte: Byte)
    | TBool(flag: bool)
    | TVInt(count: nat)

  /** Why a read fails: the stream ended, held another kind of token, or named no state. */
  datatype DecodeError =
    | EndOfStream
    | UnexpectedToken(found: Token)
    | UnknownState(code: Byte)

  /** What is left to read of a StreamInput: the tokens in the order they were written. */
  datatype Stream = End | Next(token: Token, rest: Stream)

  /** A value read from the front of a stream, and what is left of the stream. */
  datatype Parsed<+T> = Parsed(value: T, rest: Stream)

  type Decoded<+T> = Result<Parsed<T>, DecodeError>

  /** The stream a reader sees when it is positioned at the tokens `ts`, written before `rest`. */
  function Feed(ts: seq<Token>, rest: Stream): Stream
  {
    if ts == [] then rest else Next(ts[0], Feed(ts[1..], rest))
  }

  /** Tokens written one after the other are read one after the other. */
  lemma {:induction false} FeedAppend(a: seq<Token>, b: seq<Token>, rest: Stream)
    ensures Feed(a + b, rest) == Feed(a, Feed(b, rest))
  {
    if a == [] {
      assert a + b == b;
    } else {
      assert (a + b)[0] == a[0] && (a + b)[1..] == a[1..] + b;
      FeedAppend(a[1..], b, rest);
    }
  }

  lemma FeedOne(t: Token, rest: Stream)
    ensures Feed([t], rest) == Next(t, rest)
  {
    assert [t][1..] == [];
  }

  lemma FeedThree(a: Token, b: Token, c: Token, rest: Stream)
    ensures Feed([a, b, c], rest) == Next(a, Next(b, Next(c, rest)))
  {
    assert [a, b, c][1..] == [b, c];
    assert [b, c][1..] == [c];
    FeedOne(c, rest);
  }

  function ReadString(s: Stream): Decoded<string>
  {
    match s
    case End => Err(EndOfStream)
    case Next(t, rest) => if t.TString? then Ok(Parsed(t.str, rest)) else Err(UnexpectedToken(t))
  }

  function ReadOptionalString(s: Stream): Decoded<Option<string>>
  {
    match s
    case End => Err(EndOfStream)
    case Next(t, rest) => if t.TOptString? then Ok(Parsed(t.opt, rest)) else Err(UnexpectedToken(t))
  }

  function ReadByte(s: Stream): Decoded<Byte>
  {
    match s
    case End => Err(EndOfStream)
    case Next(t, rest) => if t.TByte? then Ok(Parsed(t.byte, rest)) else Err(UnexpectedToken(t))
  }

  function ReadBoolean(s: Stream): Decoded<bool>
  {
    match s
    case End => Err(EndOfStream)
    case Next(t, rest) => if t.TBool? then Ok(Parsed(t.flag, rest)) else Err(UnexpectedToken(t))
  }

  function ReadVInt(s: Stream): Decoded<nat>
  {
    match s
    case End => Err(EndOfStream)
    case Next(t, rest) => if t.TVInt? then Ok(Parsed(t.count, rest)) else Err(UnexpectedToken(t))
  }

  /** Adds the values already read in front of a further read. */
  function Prepend<T>(xs: seq<T>, r: Decoded<seq<T>>): Decoded<seq<T>>
  {
    if r.Ok? then Ok(Parsed(xs + r.value.value, r.value.rest)) else r
  }

  lemma PrependNothing<T>(r: Decoded<seq<T>>)
    ensures Prepend([], r) == r
  {
    if r.Ok? {
      assert [] + r.value.value == r.value.value;
    }
  }

  lemma PrependTwice<T>(xs: seq<T>, ys: seq<T>, r: Decoded<seq<T>>)
    ensures Prepend(xs, Prepend(ys, r)) == Prepend(xs + ys, r)
  {
    if r.Ok? {
      assert xs + (ys + r.value.value) == (xs + ys) + r.value.value;
    }
  }

  lemma PrependCons<T>(xs: seq<T>, r: Decoded<seq<T>>)
    requires xs != []
    ensures Prepend([xs[0]], Prepend(xs[1..], r)) == Prepend(xs, r)
  {
    PrependTwice([xs[0]], xs[1..], r);
    assert [xs[0]] + xs[1..] == xs;
  }

  /** The items of a collection, each written by `write`, one after the other (without the count). */
  function WriteList<T>(write: T -> seq<Token>, xs: seq<T>): seq<Token>
  {
    if xs == [] then [] else write(xs[0]) + WriteList(write, xs[1..])
  }

  lemma {:induction false} WriteListAppend<T>(write: T -> seq<Token>, xs: seq<T>, x: T)
    ensures WriteList(write, xs + [x]) == WriteList(write, xs) + write(x)
  {
    if xs == [] {
      assert xs + [x] == [x] && [x][1..] == [];
    } else {
      assert (xs + [x])[0] == xs[0] && (xs + [x])[1..] == xs[1..] + [x];
      WriteListAppend(write, xs[1..], x);
    }
  }

  /** Reads `n` items with `read`, one after the other; the first failing read fails the list. */
  function ReadList<T>(read: Stream -> Decoded<T>, s: Stream, n: nat): (r: Decoded<seq<T>>)
    ensures r.Ok? ==> |r.value.value| == n
    decreases n
  {
    if n == 0 then Ok(Parsed([], s))
    else
      var x :- read(s);
      var xs :- ReadList(read, x.rest, n - 1);
      Ok(Parsed([x.value] + xs.value, xs.rest))
  }

  /** ReadList unfolded once: an item, then the others after it. */
  lemma ReadListUnfold<T>(read: Stream -> Decoded<T>, s: Stream, n: nat)
    requires n > 0
    ensures read(s).Err? ==> ReadList(read, s, n) == Err(read(s).error)
    ensures read(s).Ok? ==> ReadList(read, s, n) == Prepend([read(s).value.value], ReadList(read, read(s).value.rest, n - 1))
  {
  }

  /** One more item read by a loop that reads `n` items one at a time. */
  lemma ReadListStep<T>(read: Stream -> Decoded<T>, start: Stream, n: nat, i: nat, done: seq<T>, s: Stream, x: T, rest: Stream)
    requires i < n
    requires ReadList(read, start, n) == Prepend(done, ReadList(read, s, n - i))
    requires read(s) == Ok(Parsed(x, rest))
    ensures ReadList(read, start, n) == Prepend(done + [x], ReadList(read, rest, n - (i + 1)))
  {
    ReadListUnfold(read, s, n - i);
    PrependTwice(done, [x], ReadList(read, rest, n - i - 1));
  }

  lemma SameCount<T>(read: Stream -> Decoded<T>, s: Stream, a: nat, b: nat)
    requires a == b
    ensures ReadList(read, s, a) == ReadList(read, s, b)
  {
  }

  /** `read` gives back `values[i]` from what `write` made of `written[i]`, whatever follows it. */
  ghost predicate ReadsBack<T, U>(read: Stream -> Decoded<T>, write: U -> seq<Token>, written: seq<U>, values: seq<T>)
  {
    && |written| == |values|
    && forall i, t :: 0 <= i < |written| ==> read(Feed(write(written[i]), t)) == Ok(Parsed(values[i], t))
  }

  /** Dropping the first item keeps the read-back property. */
  lemma ReadsBackTail<T, U>(read: Stream -> Decoded<T>, write: U -> seq<Token>, written: seq<U>, values: seq<T>)
    requires ReadsBack(read, write, written, values)
    requires written != []
    ensures ReadsBack(read, write, written[1..], values[1..])
  {
    forall i, t | 0 <= i < |written[1..]|
      ensures read(Feed(write(written[1..][i]), t)) == Ok(Parsed(values[1..][i], t))
    {
      assert written[1..][i] == written[i + 1] && values[1..][i] == values[i + 1];
    }
  }

  /**
   * Reading items written one after the other: when `read` gives back
   * `values[i]` from what `write` made of `written[i]`, reading the list gives
   * back `values`, then reads on from whatever followed.
   */
  lemma {:induction false} ReadListAfter<T, U>(
    read: Stream -> Decoded<T>, write: U -> seq<Token>, written: seq<U>, values: seq<T>, s: Stream, m: nat)
    requires ReadsBack(read, write, written, values)
    ensures ReadList(read, Feed(WriteList(write, written), s), |written| + m) == Prepend(values, ReadList(read, s, m))
  {
    if written == [] {
      PrependNothing(ReadList(read, s, m));
    } else {
      var tail := Feed(WriteList(write, written[1..]), s);
      FeedAppend(write(written[0]), WriteList(write, written[1..]), s);
      assert read(Feed(write(written[0]), tail)) == Ok(Parsed(values[0], tail));
      ReadListUnfold(read, Feed(write(written[0]), tail), |written| + m);
      SameCount(read, tail, |written| + m - 1, |written[1..]| + m);
      ReadsBackTail(read, write, written, values);
      ReadListAfter(read, write, written[1..], values[1..], s, m);
      PrependCons(values, ReadList(read, s, m));
    }
  }

  /** Reading exactly the items written gives them back and stops where they end. */
  lemma ReadListRoundTrip<T, U>(read: Stream -> Decoded<T>, write: U -> seq<Token>, written: seq<U>, values: seq<T>, s: Stream)
    requires ReadsBack(read, write, written, values)
    ensures ReadList(read, Feed(WriteList(write, written), s), |written|) == Ok(Parsed(values, s))
  {
    ReadListAfter(read, write, written, values, s, 0);
    assert values + [] == values;
  }

  /** A count written in front of some tokens reads back, leaving those tokens. */
  lemma CountPrefix(n: nat, ts: seq<Token>, rest: Stream)
    ensures ReadVInt(Feed([TVInt(n)] + ts, rest)) == Ok(Parsed(n, Feed(ts, rest)))
  {
    FeedAppend([TVInt(n)], ts, rest);
    FeedOne(TVInt(n), Feed(ts, rest));
  }

  /** An item that fails to read, after items that read back, fails the list with its error. */
  lemma ReadListFailsAfter<T, U>(
    read: Stream -> Decoded<T>, write: U -> seq<Token>, written: seq<U>, values: seq<T>, s: Stream, more: nat)
    requires ReadsBack(read, write, written, values)
    requires read(s).Err?
    ensures ReadList(read, Feed(WriteList(write, written), s), |written| + 1 + more) == Err(read(s).error)
  {
    ReadListAfter(read, write, written, values, s, 1 + more);
    ReadListUnfold(read, s, 1 + more);
  }

  /** A string of a string collection: one token. */
  function StringToken(x: string): seq<Token>
  {
    [TString(x)]
  }

  /** `writeStringCollection`: the count, then the strings. */
  function WriteStringCollection(xs: seq<string>): seq<Token>
  {
    [TVInt(|xs|)] + WriteList(StringToken, xs)
  }

  /** `readImmutableList(StreamInput::readString)`: a count, then that many strings. */
  function ReadStringList(s: Stream): Decoded<seq<string>>
  {
    var n :- ReadVInt(s);
    ReadList(ReadString, n.rest, n.value)
  }

  lemma StringsReadBack(xs: seq<string>)
    ensures ReadsBack(ReadString, StringToken, xs, xs)
  {
    forall i, t | 0 <= i < |xs| ensures ReadString(Feed(StringToken(xs[i]), t)) == Ok(Parsed(xs[i], t)) {
      FeedOne(TString(xs[i]), t);
    }
  }

  lemma ReadStringListRoundTrip(xs: seq<string>, rest: Stream)
    ensures ReadStringList(Feed(WriteStringCollection(xs), rest)) == Ok(Parsed(xs, rest))
  {
    CountPrefix(|xs|, WriteList(StringToken, xs), rest);
    StringsReadBack(xs);
    ReadListRoundTrip(ReadString, StringToken, xs, xs, rest);
  }
}
