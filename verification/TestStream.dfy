/** The randomised-window input stream over a byte array, and the programs that read through it. */
module TestStream {
  import opened StreamWindow

  type byte = b: int | 0 <= b < 256

  /** `i_realloc`: a buffer of the new size that keeps what fits; the rest is zeroed. */
  method Realloc(old_: array<byte>, newSize: nat) returns (a: array<byte>)
    ensures fresh(a) && a.Length == newSize
    ensures forall i | 0 <= i < newSize :: a[i] == if i < old_.Length then old_[i] else 0
  {
    a := new byte[newSize](i reads old_ => if 0 <= i < old_.Length then old_[i] else 0);
  }

  /** `memcpy`: both ranges must lie inside their buffers. */
  method Copy(dst: array<byte>, offset: nat, src: array<byte>, n: nat)
    requires dst != src && offset + n <= dst.Length && n <= src.Length
    modifies dst
    ensures forall i | 0 <= i < dst.Length :: dst[i] == if offset <= i < offset + n then src[i - offset] else old(dst[i])
  {
    for k := 0 to n
      invariant forall i | 0 <= i < dst.Length ::
                  dst[i] == if offset <= i < offset + k then src[i - offset] else old(dst[i])
    {
      dst[offset + k] := src[k];
    }
  }

  class TestIStream {
    // struct istream_private
    var skip: u64
    var pos: u64
    var wBuffer: array<byte>
    var bufferSize: u64
    var maxBufferSize: u64
    var vOffset: u64
    var eof: bool
    const stSize: DataSize
    // struct test_istream
    const origBuffer: array<byte>
    var skipDiff: u64
    var maxPos: u64
    var allowEof: bool

    /** The offsets, as module `StreamWindow` reasons about them. */
    function Offsets(): Window
      reads this
    {
      Window(skip, pos, maxPos, skipDiff, maxBufferSize, stSize, allowEof, eof)
    }

    /** Everything of `Valid` but the contents of the buffer. */
    ghost predicate Placed()
      reads this
    {
      && wBuffer != origBuffer
      && stSize == origBuffer.Length
      && bufferSize == wBuffer.Length
      && WindowOk(Offsets())
      && vOffset == skip - skipDiff
    }

    /** The window invariant: the offsets are sound, `v_offset` is the logical position, and every
        visible byte is the byte of the data at its logical position. */
    ghost predicate Valid()
      reads this, wBuffer, origBuffer
    {
      && Placed()
      && (skip < pos ==> pos <= bufferSize)
      && (forall i | skip <= i < pos :: wBuffer[i] == origBuffer[i - skipDiff])
    }

    ghost function Cursor(): Cursor
      reads this, wBuffer, origBuffer
      requires Valid()
    {
      View(Offsets())
    }

    /** `test_istream_create_data` */
    constructor (data: array<byte>)
      requires data.Length <= SSIZE_MAX - 127
      ensures Valid() && fresh(wBuffer) && origBuffer == data
      ensures Cursor() == Start(data.Length)
    {
      origBuffer := data;
      stSize := data.Length;
      skip, pos, skipDiff, vOffset, bufferSize := 0, 0, 0, 0, 0;
      maxPos := data.Length;
      maxBufferSize := SIZE_MAX;
      allowEof, eof := true, false;
      wBuffer := new byte[0];
    }

    /** The buffer of `test_read`: exactly `curMax` bytes, the data copied in after the offset. */
    method FillBuffer(curMax: u64)
      requires wBuffer != origBuffer && bufferSize == wBuffer.Length
      requires skipDiff <= curMax <= origBuffer.Length + skipDiff
      modifies this`wBuffer, this`bufferSize, wBuffer
      ensures bufferSize == wBuffer.Length && (wBuffer == old(wBuffer) || fresh(wBuffer))
      ensures wBuffer != origBuffer && (curMax > 0 ==> bufferSize == curMax)
      ensures forall i | skipDiff <= i < curMax :: wBuffer[i] == origBuffer[i - skipDiff]
    {
      if bufferSize != curMax && curMax > 0 {
        wBuffer := Realloc(wBuffer, curMax);
        bufferSize := curMax;
      }
      Copy(wBuffer, skipDiff, origBuffer, Sub(curMax, skipDiff));
    }

    /** Moves every offset to a new place. The buffer is not yet in step with them. */
    method Rebase(newSkipDiff: u64)
      modifies this`skip, this`pos, this`maxPos, this`skipDiff
      ensures Offsets() == Moved(old(Offsets()), newSkipDiff)
    {
      skip := Add(Sub(skip, skipDiff), newSkipDiff);
      pos := Add(Sub(pos, skipDiff), newSkipDiff);
      maxPos := Add(Sub(maxPos, skipDiff), newSkipDiff);
      skipDiff := newSkipDiff;
    }

    /** How far the next read may reach under the cap, with the guard against overflow. */
    method ReadLimit() returns (curMax: u64)
      requires WindowOk(Offsets()) && pos <= maxPos && pos - skip < maxBufferSize
      ensures curMax == CurMax(Offsets())
      ensures skipDiff <= pos <= curMax <= maxPos && curMax - skip <= maxBufferSize
    {
      CurMaxMeaning(Offsets());
      curMax := maxPos;
      if maxBufferSize < SIZE_MAX - skip && curMax > Add(skip, maxBufferSize) {
        curMax := Add(skip, maxBufferSize);
      }
    }

    /** Fills the buffer for a window that has been moved, and shows what the cap allows. */
    method Advance() returns (ret: int)
      requires Placed() && pos <= maxPos && pos - skip < maxBufferSize
      modifies this`pos, this`wBuffer, this`bufferSize, wBuffer
      ensures Valid() && (wBuffer == old(wBuffer) || fresh(wBuffer))
      ensures Offsets() == old(Offsets()).(pos := CurMax(old(Offsets())))
      ensures ret == Signed(Sub(CurMax(old(Offsets())), old(pos)))
    {
      var curMax := ReadLimit();
      FillBuffer(curMax);
      ret := Signed(Sub(curMax, pos));
      pos := curMax;
    }

    /** The branch of `test_read` that moves the window and shows more of the data. */
    method Extend(rand: nat) returns (ret: int)
      requires Valid() && pos <= maxPos && pos - skip < maxBufferSize
      modifies this`skip, this`pos, this`maxPos, this`skipDiff, this`wBuffer, this`bufferSize, wBuffer
      ensures Valid() && (wBuffer == old(wBuffer) || fresh(wBuffer))
      ensures var m := Moved(old(Offsets()), rand % 128);
              Offsets() == m.(pos := CurMax(m)) && ret == Signed(Sub(CurMax(m), m.pos))
    {
      MovedView(Offsets(), rand % 128);
      Rebase(rand % 128);
      ret := Advance();
    }

    /** The end of `test_read`: `got` bytes were added. */
    method Conclude(got: int) returns (ret: int)
      requires Valid()
      modifies this`eof
      ensures Valid() && (Offsets(), ret) == Finish(old(Offsets()), got)
    {
      if got > 0 {
        return got;
      } else if !allowEof || Sub(pos, skipDiff) < stSize {
        return 0;
      } else {
        eof := true;
        return -1;
      }
    }

    /** `test_read`; `rand` is what `i_rand` returns. */
    method Read(rand: nat) returns (ret: int)
      requires Valid()
      modifies this, wBuffer
      ensures Valid() && (wBuffer == old(wBuffer) || fresh(wBuffer))
      ensures (Offsets(), ret) == ReadWindow(old(Offsets()), rand)
      ensures (Cursor(), ret) == CursorRead(old(Cursor()))
    {
      ReadRefinesCursor(Offsets(), rand);
      if Sub(pos, skip) >= maxBufferSize {
        return -2;
      }
      var got := 0;
      if maxPos < pos {
        // the reader has sought past the end
      } else {
        got := Extend(rand);
      }
      ret := Conclude(got);
    }

    /** `test_seek`. Past the range where the hidden offset can be added, the position wraps. */
    method Seek(offset: u64)
      requires Valid()
      modifies this
      ensures Offsets() == SeekWindow(old(Offsets()), offset) && vOffset == offset && wBuffer == old(wBuffer)
      ensures offset + 127 <= SIZE_MAX ==> Valid() && Cursor() == CursorSeek(old(Cursor()), offset)
    {
      vOffset := offset;
      skip := Add(offset, skipDiff);
      pos := skip;
    }

    /** The first `k` bytes of what the reader sees. */
    method Front(k: nat) returns (bytes: seq<byte>)
      requires Valid() && k <= pos - skip
      ensures bytes == Slice(origBuffer[..], Cursor().at, Cursor().at + k)
      ensures k > 0 ==> Cursor().at + k <= origBuffer.Length
    {
      if k == 0 {
        return [];
      }
      bytes := wBuffer[skip..skip + k];
      ghost var at := skip - skipDiff;
      assert forall i | 0 <= i < k :: bytes[i] == origBuffer[at + i];
    }

    /** Everything the reader sees, between `skip` and `pos`. */
    method Visible() returns (bytes: seq<byte>)
      requires Valid()
      ensures bytes == Slice(origBuffer[..], Cursor().at, Cursor().filled)
    {
      bytes := Front(pos - skip);
    }

    /** The reader takes the first `n` visible bytes, or all of them if there are fewer. */
    method Consume(n: nat) returns (bytes: seq<byte>)
      requires Valid()
      modifies this`skip, this`vOffset
      ensures Valid() && Cursor() == CursorConsume(old(Cursor()), n)
      ensures Offsets() == ConsumeWindow(old(Offsets()), n)
      ensures bytes == Slice(origBuffer[..], old(Cursor()).at, Cursor().at)
      ensures old(Cursor()).at < Cursor().at ==> Cursor().at <= origBuffer.Length
    {
      var k := Min(n, pos - skip);
      bytes := Front(k);
      ghost var data := origBuffer[..];
      skip := skip + k;
      vOffset := vOffset + k;
      assert WindowOk(Offsets());
      assert origBuffer[..] == data;
    }

    method SetAllowEof(allow: bool)
      requires Valid()
      modifies this`allowEof
      ensures Valid() && Cursor() == old(Cursor()).(allowEof := allow)
      ensures Offsets() == old(Offsets()).(allowEof := allow)
    {
      allowEof := allow;
    }

    method SetMaxBufferSize(size: u64)
      requires Valid()
      modifies this`maxBufferSize
      ensures Valid() && Cursor() == old(Cursor()).(cap := size)
      ensures Offsets() == old(Offsets()).(cap := size)
    {
      maxBufferSize := size;
    }

    /** A size beyond the data is cut to it; bytes already visible stay visible. */
    method SetSize(size: u64)
      requires Valid()
      modifies this`maxPos
      ensures Valid() && Cursor() == old(Cursor()).(limit := Min(size, origBuffer.Length))
      ensures Offsets() == SetSizeWindow(old(Offsets()), size)
    {
      var s := if size > stSize then stSize else size;
      maxPos := Add(s, skipDiff);
    }
  }

  function Start(size: nat): Cursor {
    StreamWindow.Cursor(0, 0, size, size, SIZE_MAX, true, false)
  }

  function CursorConsume(c: Cursor, n: nat): Cursor
    requires c.at <= c.filled
  {
    c.(at := c.at + Min(n, c.filled - c.at))
  }

  /** The bytes from `lo` to `hi`; nothing when the range is empty, wherever it lies. */
  function Slice(data: seq<byte>, lo: nat, hi: nat): seq<byte> {
    if lo < hi <= |data| then data[lo..hi] else []
  }
}
