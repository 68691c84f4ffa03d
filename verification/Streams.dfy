/** The two ends of a byte stream, as the Go code sees them through io.Reader and io.Writer. */
module Streams {
  import opened Basics

  /** A consumed reader: `rest` is what has not been read yet; its end is end of file. */
  class Reader {
    var rest: Bytes

    constructor (rest: Bytes)
      ensures this.rest == rest
    {
      this.rest := rest;
    }

    /** io.ByteReader: the next byte, or None at end of file. */
    method ReadByte() returns (b: Option<byte>)
      modifies this
      ensures b == if old(rest) == [] then None else Some(old(rest)[0])
      ensures rest == if old(rest) == [] then [] else old(rest)[1..]
    {
      if rest == [] {
        return None;
      }
      b := Some(rest[0]);
      rest := rest[1..];
    }

    /** io.ReadFull into `buf[..n]`: all `n` bytes or an error, which consumes what was left. */
    method ReadFull(buf: array<byte>, n: nat) returns (ok: bool)
      requires n <= buf.Length
      modifies this, buf
      ensures ok == (n <= |old(rest)|)
      ensures rest == if ok then old(rest)[n..] else []
      ensures ok ==> buf[..n] == old(rest)[..n]
    {
      var m := Min(n, |rest|);
      forall i | 0 <= i < m {
        buf[i] := rest[i];
      }
      ok := m == n;
      rest := rest[m..];
    }

    /** io.CopyN into io.Discard. */
    method Discard(n: nat) returns (ok: bool)
      modifies this
      ensures ok == (n <= |old(rest)|)
      ensures rest == if ok then old(rest)[n..] else []
    {
      ok := n <= |rest|;
      rest := rest[Min(n, |rest|)..];
    }
  }

  /** A writer that accepts `room` more bytes and then fails: a failing Write keeps the bytes
      that fitted and makes every later non-empty Write fail. */
  class Writer {
    var written: Bytes
    var room: nat

    constructor (room: nat)
      ensures written == [] && this.room == room
    {
      written, this.room := [], room;
    }

    method Write(p: Bytes) returns (ok: bool)
      modifies this
      ensures ok == (|p| <= old(room))
      ensures written == old(written) + p[..Min(|p|, old(room))]
      ensures room == old(room) - Min(|p|, old(room))
    {
      var n := Min(|p|, room);
      written := written + p[..n];
      room := room - n;
      ok := n == |p|;
    }
  }
}
