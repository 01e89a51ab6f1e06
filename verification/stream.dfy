/**
 * The binary transport stream, abstracted to a sequence of typed tokens: one token per
 * `writeInt`/`writeString` call. The byte layout of each token belongs to the stream codec.
 */
module Stream {
  import opened JavaInt
  import opened Wrappers

  datatype Token = I32(i: Int32) | S(s: string)

  /** Why a read failed: nothing left, or the next token is not of the requested kind. */
  datatype StreamError = EndOfStream | Malformed

  /** The write side: everything written so far, in order. */
  class StreamOutput {
    var tokens: seq<Token>

    constructor ()
      ensures tokens == []
    {
      tokens := [];
    }

    method WriteInt(v: Int32)
      modifies this
      ensures tokens == old(tokens) + [I32(v)]
    {
      tokens := tokens + [I32(v)];
    }

    method WriteString(s: string)
      modifies this
      ensures tokens == old(tokens) + [S(s)]
    {
      tokens := tokens + [S(s)];
    }
  }

  /** The read side: a fixed token sequence and a read position. */
  class StreamInput {
    const tokens: seq<Token>
    var pos: nat

    ghost predicate Valid()
      reads this
    {
      pos <= |tokens|
    }

    constructor (ts: seq<Token>)
      ensures tokens == ts && pos == 0 && Valid()
    {
      tokens := ts;
      pos := 0;
    }

    method ReadInt() returns (r: Result<Int32, StreamError>)
      requires Valid()
      modifies this
      ensures Valid()
      ensures old(pos) == |tokens| ==> r == Err(EndOfStream) && pos == old(pos)
      ensures old(pos) < |tokens| && tokens[old(pos)].I32? ==> r == Ok(tokens[old(pos)].i) && pos == old(pos) + 1
      ensures old(pos) < |tokens| && !tokens[old(pos)].I32? ==> r == Err(Malformed) && pos == old(pos)
    {
      if pos == |tokens| {
        r := Err(EndOfStream);
      } else if tokens[pos].I32? {
        r := Ok(tokens[pos].i);
        pos := pos + 1;
      } else {
        r := Err(Malformed);
      }
    }

    method ReadString() returns (r: Result<string, StreamError>)
      requires Valid()
      modifies this
      ensures Valid()
      ensures old(pos) == |tokens| ==> r == Err(EndOfStream) && pos == old(pos)
      ensures old(pos) < |tokens| && tokens[old(pos)].S? ==> r == Ok(tokens[old(pos)].s) && pos == old(pos) + 1
      ensures old(pos) < |tokens| && !tokens[old(pos)].S? ==> r == Err(Malformed) && pos == old(pos)
    {
      if pos == |tokens| {
        r := Err(EndOfStream);
      } else if tokens[pos].S? {
        r := Ok(tokens[pos].s);
        pos := pos + 1;
      } else {
        r := Err(Malformed);
      }
    }
  }
}
