/** A blocking byte source over a finite input: the `Read` collaborator of
    the decoder, with the two operations the decoder uses on it. */
module Reader {
  import opened Binary
  import opened Outcomes

  class ByteReader {
    /** Everything the source will ever deliver. */
    const data: seq<Byte>
    /** How many bytes have been consumed so far. */
    var pos: nat

    ghost predicate Valid()
      reads this
    {
      pos <= |data|
    }

    /** The bytes not yet consumed. */
    function Unread(): (s: seq<Byte>)
      reads this
      requires Valid()
      ensures |s| == |data| - pos
    {
      data[pos..]
    }

    constructor (data: seq<Byte>)
      ensures Valid() && this.data == data && pos == 0
    {
      this.data := data;
      pos := 0;
    }

    /** `read_exact`: exactly the next `n` bytes, or a failure when fewer
        remain. A failed read consumes what was left. */
    method ReadExact(n: nat) returns (r: Option<seq<Byte>>)
      requires Valid()
      modifies this
      ensures Valid()
      ensures old(pos) + n <= |data| ==> r == Some(data[old(pos)..old(pos) + n]) && pos == old(pos) + n
      ensures old(pos) + n > |data| ==> r == None && pos == |data|
    {
      if pos + n <= |data| {
        r := Some(data[pos..pos + n]);
        pos := pos + n;
      } else {
        r := None;
        pos := |data|;
      }
    }

    /** `io::copy(take(n), sink())`: discard up to `n` bytes. Running out of
        input stops the copy early and is not an error. */
    method Skip(n: nat)
      requires Valid()
      modifies this
      ensures Valid()
      ensures pos == Min(old(pos) + n, |data|)
    {
      pos := Min(pos + n, |data|);
    }
  }
}
