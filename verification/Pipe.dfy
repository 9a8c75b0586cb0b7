/** The byte buffer of a pipe: a stretch of unread bytes inside a buffer that is reused from
    the start when it runs empty and replaced by a bigger one when a write does not fit. */
module Pipe {
  type Byte = bv8

  /** buffer, buffer_ptr - buffer and num_chars_available. */
  datatype PipeBuffer = PipeBuffer(cells: seq<Byte>, offset: nat, available: nat) {
    predicate Valid() {
      offset + available <= |cells|
    }

    function Unread(): seq<Byte>
      requires Valid()
    {
      cells[offset..offset + available]
    }

    /** PipeSpotsRemaining. */
    function Spots(): int {
      |cells| - available - offset
    }
  }

  const EMPTY_PIPE := PipeBuffer([], 0, 0)

  /** Overwrites the cells from `at` on with `data`. */
  function Patch(cells: seq<Byte>, at: nat, data: seq<Byte>): (r: seq<Byte>)
    requires at + |data| <= |cells|
    ensures |r| == |cells|
    ensures r[..at] == cells[..at] && r[at..at + |data|] == data && r[at + |data|..] == cells[at + |data|..]
  {
    cells[..at] + data + cells[at + |data|..]
  }

  function ReadBuffer(b: PipeBuffer, len: nat): PipeBuffer
    requires b.Valid() && len <= b.available
  {
    var rest := b.available - len;
    PipeBuffer(b.cells, if rest == 0 then 0 else b.offset + len, rest)
  }

  /** The buffer KernelPipeWrite copies `n` bytes into: the old one, or a bigger one with the unread
      bytes at its start. */
  function MakeRoom(b: PipeBuffer, n: nat): PipeBuffer
    requires b.Valid()
  {
    if n > b.Spots() then PipeBuffer(b.Unread() + seq(n, _ => 0), 0, b.available) else b
  }

  function WriteBuffer(b: PipeBuffer, data: seq<Byte>): PipeBuffer
    requires b.Valid()
  {
    if |data| > b.Spots() then PipeBuffer(b.Unread() + data, 0, b.available + |data|)
    else PipeBuffer(Patch(b.cells, b.offset + b.available, data), b.offset, b.available + |data|)
  }

  /** A read takes the oldest bytes and keeps the rest, whether or not the pointer is reset. */
  lemma ReadTakesOldest(b: PipeBuffer, len: nat)
    requires b.Valid() && len <= b.available
    ensures ReadBuffer(b, len).Valid() && b.Unread() == b.Unread()[..len] + ReadBuffer(b, len).Unread()
  {
  }

  /** A write appends, whether or not the buffer has to grow; it grows only when it must. */
  lemma WriteAppends(b: PipeBuffer, data: seq<Byte>)
    requires b.Valid()
    ensures WriteBuffer(b, data).Valid() && WriteBuffer(b, data).Unread() == b.Unread() + data
    ensures |WriteBuffer(b, data).cells| > |b.cells| ==> b.offset + b.available + |data| > |b.cells|
  {
    var c := WriteBuffer(b, data);
    if |data| <= b.Spots() {
      var at := b.offset + b.available;
      assert c.cells[..at][b.offset..] == b.cells[..at][b.offset..];
      assert c.cells[b.offset..at + |data|] == c.cells[b.offset..at] + c.cells[at..at + |data|];
    }
  }

  /** Writing the bytes moves nothing that is in the buffer and keeps its size. */
  ghost predicate InPlace(b: PipeBuffer, data: seq<Byte>)
    requires b.Valid()
  {
    var c := WriteBuffer(b, data);
    |c.cells| == |b.cells| && c.offset == b.offset
  }

  lemma FitsInPlace(b: PipeBuffer)
    requires b.Valid()
    ensures forall data :: InPlace(b, data) <==> |data| <= |b.cells| - b.available - b.offset
  {
    forall data ensures InPlace(b, data) <==> |data| <= b.Spots() {
      WriteAppends(b, data);
    }
  }

  /** Making room first and then writing is a write, and the room suffices. */
  lemma RoomMade(b: PipeBuffer, data: seq<Byte>)
    requires b.Valid()
    ensures var room := MakeRoom(b, |data|);
      room.Valid() && |data| <= room.Spots() && WriteBuffer(room, data) == WriteBuffer(b, data)
  {
    var room := MakeRoom(b, |data|);
    if |data| > b.Spots() {
      assert room.cells[..b.available] == b.Unread() && room.cells[b.available + |data|..] == [];
      assert Patch(room.cells, b.available, data) == b.Unread() + data;
    }
  }

  class Pipe {
    var buffer: array<Byte>
    var offset: nat
    var numCharsAvailable: nat

    ghost predicate Valid()
      reads this, buffer
    {
      Abs().Valid()
    }

    ghost function Abs(): PipeBuffer
      reads this, buffer
    {
      PipeBuffer(buffer[..], offset, numCharsAvailable)
    }

    constructor ()
      ensures Valid() && Abs() == EMPTY_PIPE && fresh(buffer)
    {
      buffer := new Byte[0];
      offset, numCharsAvailable := 0, 0;
    }

    /** The bytes that can be written before the buffer has to be replaced. */
    method PipeSpotsRemaining() returns (spots: int)
      requires Valid()
      ensures 0 <= spots && forall data: seq<Byte> :: InPlace(Abs(), data) <==> |data| <= spots
    {
      FitsInPlace(Abs());
      spots := buffer.Length - numCharsAvailable - offset;
    }

    /** memcpy of `len` bytes into the user's buffer, then the pointer moves or is reset. */
    method PipeCopyIntoUserBuffer(user: array<Byte>, len: nat)
      requires Valid() && len <= numCharsAvailable && len <= user.Length && user != buffer
      modifies this, user
      ensures Valid() && buffer == old(buffer) && buffer[..] == old(buffer[..])
      ensures Abs() == ReadBuffer(old(Abs()), len)
      ensures user[..len] == old(Abs().Unread())[..len] && user[len..] == old(user[len..])
    {
      for i := 0 to len
        invariant offset == old(offset) && numCharsAvailable == old(numCharsAvailable) && buffer == old(buffer)
        invariant buffer[..] == old(buffer[..])
        invariant user[..i] == buffer[offset..offset + i] && user[len..] == old(user[len..])
      {
        user[i] := buffer[offset + i];
      }
      offset := offset + len;
      numCharsAvailable := numCharsAvailable - len;
      if numCharsAvailable == 0 {
        offset := 0;
      }
    }

    method PipeCopyIntoPipeBuffer(data: seq<Byte>)
      requires Valid() && |data| <= Abs().Spots()
      modifies this, buffer
      ensures Valid() && buffer == old(buffer) && Abs() == WriteBuffer(old(Abs()), data)
    {
      var at := offset + numCharsAvailable;
      for i := 0 to |data|
        invariant offset == old(offset) && numCharsAvailable == old(numCharsAvailable) && buffer == old(buffer)
        invariant buffer[..at] == old(buffer[..at]) && buffer[at..at + i] == data[..i]
        invariant buffer[at + |data|..] == old(buffer[at + |data|..])
      {
        buffer[at + i] := data[i];
      }
      assert buffer[..] == buffer[..at] + buffer[at..at + |data|] + buffer[at + |data|..];
      assert old(buffer[..])[..at] == old(buffer[..at]) && old(buffer[..])[at + |data|..] == old(buffer[at + |data|..]);
      numCharsAvailable := numCharsAvailable + |data|;
    }

    /** The unread bytes move to the start of a new zeroed buffer with room for `len` more. */
    method Enlarge(len: nat)
      requires Valid() && len > Abs().Spots()
      modifies this
      ensures Valid() && fresh(buffer) && Abs() == MakeRoom(old(Abs()), len)
    {
      var n := numCharsAvailable;
      var bigger := new Byte[n + len](_ => 0);
      for i := 0 to n
        invariant buffer == old(buffer) && offset == old(offset) && numCharsAvailable == n
        invariant buffer[..] == old(buffer[..])
        invariant bigger[..i] == buffer[offset..offset + i] && forall k | i <= k < n + len :: bigger[k] == 0
      {
        bigger[i] := buffer[offset + i];
      }
      buffer, offset := bigger, 0;
      assert buffer[..] == old(Abs().Unread()) + seq(len, _ => 0);
    }

    /** The part of KernelPipeWrite that fills the buffer. */
    method Write(data: seq<Byte>)
      requires Valid()
      modifies this, buffer
      ensures Valid() && Abs() == WriteBuffer(old(Abs()), data)
      ensures buffer == old(buffer) || fresh(buffer)
    {
      RoomMade(Abs(), data);
      FitsInPlace(Abs());
      var spots := PipeSpotsRemaining();
      assert InPlace(Abs(), data) <==> |data| <= spots;
      if |data| > spots {
        Enlarge(|data|);
      }
      assert |data| <= Abs().Spots();
      PipeCopyIntoPipeBuffer(data);
    }
  }
}
