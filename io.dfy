/**
  The part of Go's io package the validator depends on: a reader that hands
  out a fixed sequence of bytes and then ends, either normally (io.EOF) or
  with a read error, and io.CopyN over it.
 */
module IO {
  import opened Wrappers

  newtype byte = x: int | 0 <= x < 256

  /** The error a Read returns once the bytes are exhausted. */
  datatype ReadError = EOF | Failed(message: string) {
    /** err.Error() */
    function Message(): string {
      match this
      case EOF => "EOF"
      case Failed(m) => m
    }
  }

  /**
    Everything a reader will ever deliver: `data`, then `end` on every
    later Read.
   */
  datatype Stream = Stream(data: seq<byte>, end: ReadError)

  /** What io.CopyN writes to its destination, and the error it returns. */
  datatype Copied = Copied(chunk: seq<byte>, err: Option<ReadError>)

  /**
    io.CopyN(dst, src, n) on a reader that has already handed out `pos`
    bytes: it copies n bytes if that many remain (error nil); otherwise it
    copies what is left and reports how the reader ended, io.EOF included.
    A non-positive n copies nothing and reports nil.
   */
  function CopyOutcome(s: Stream, pos: nat, n: int): (r: Copied)
    requires pos <= |s.data|
    ensures pos + |r.chunk| <= |s.data| && r.chunk == s.data[pos..pos + |r.chunk|]
    ensures n > 0 ==> |r.chunk| <= n
    ensures r.err.None? <==> (n <= 0 || pos + n <= |s.data|)
    ensures r.err.None? ==> |r.chunk| == if n <= 0 then 0 else n
    ensures r.err.Some? ==> r.err.value == s.end && pos + |r.chunk| == |s.data|
  {
    if n <= 0 then Copied([], None)
    else if pos + n <= |s.data| then Copied(s.data[pos..pos + n], None)
    else Copied(s.data[pos..], Some(s.end))
  }

  /** An io.Reader over a Stream, with the number of bytes it has handed out. */
  class Reader {
    const stream: Stream
    var pos: nat

    ghost predicate Valid()
      reads this
    {
      pos <= |stream.data|
    }

    constructor (s: Stream)
      ensures Valid() && stream == s && pos == 0
    {
      stream := s;
      pos := 0;
    }

    /** io.CopyN(dst, r, n), returning the bytes written to dst. */
    method CopyN(n: int) returns (chunk: seq<byte>, err: Option<ReadError>)
      requires Valid()
      modifies this
      ensures Valid()
      ensures Copied(chunk, err) == CopyOutcome(stream, old(pos), n)
      ensures pos == old(pos) + |chunk|
    {
      if n <= 0 {
        chunk, err := [], None;
      } else if pos + n <= |stream.data| {
        chunk, err := stream.data[pos..pos + n], None;
      } else {
        chunk, err := stream.data[pos..], Some(stream.end);
      }
      pos := pos + |chunk|;
    }
  }
}
