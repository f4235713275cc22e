/** The offsets of the test input stream in 64-bit unsigned arithmetic, and the plain cursor they
    stand for. Every read moves the window to a random place in its buffer. */
module StreamWindow {

  const SIZE_MAX: int := 0xFFFF_FFFF_FFFF_FFFF
  const TWO_TO_THE_64: int := 0x1_0000_0000_0000_0000

  /** `size_t` and `uoff_t`. */
  type u64 = x: int | 0 <= x <= SIZE_MAX

  const SSIZE_MAX: int := 0x7FFF_FFFF_FFFF_FFFF

  /** A data size that leaves room for the largest offset of the window in `off_t` and `ssize_t`. */
  type DataSize = x: int | 0 <= x <= SSIZE_MAX - 127

  /** Unsigned addition and subtraction, which wrap around. */
  function Add(a: u64, b: u64): u64 {
    if a + b <= SIZE_MAX then a + b else a + b - TWO_TO_THE_64
  }

  function Sub(a: u64, b: u64): u64 {
    if a >= b then a - b else a - b + TWO_TO_THE_64
  }

  /** A `size_t` difference stored in a `ssize_t`. */
  function Signed(a: u64): int {
    if a <= SSIZE_MAX then a else a - TWO_TO_THE_64
  }

  // ---- The plain cursor

  /** A reader at byte `at` of `size` bytes, of which `limit` may be shown and those up to `filled` have been. */
  datatype Cursor = Cursor(at: nat, filled: nat, limit: nat, size: nat, cap: nat, allowEof: bool, eof: bool)

  ghost predicate CursorOk(c: Cursor) {
    c.at <= c.filled && c.limit <= c.size && (c.at < c.filled ==> c.filled <= c.size)
  }

  function Min(a: int, b: int): int {
    if a <= b then a else b
  }

  function CursorRead(c: Cursor): (Cursor, int) {
    if c.filled - c.at >= c.cap then (c, -2)
    else
      var filled := if c.limit < c.filled then c.filled else Min(c.limit, c.at + c.cap);
      var c' := c.(filled := filled);
      if filled > c.filled then (c', filled - c.filled)
      else if !c.allowEof || filled < c.size then (c', 0)
      else (c'.(eof := true), -1)
  }

  /** Exactly when each outcome occurs. */
  lemma ReadOutcomes(c: Cursor)
    requires CursorOk(c)
    ensures var full, ret := c.filled - c.at >= c.cap, CursorRead(c).1;
            && (ret == -2 <==> full)
            && (ret > 0 <==> !full && c.filled < c.limit)
            && (ret == -1 <==> !full && c.allowEof && c.size <= c.filled)
            && (ret == 0 <==> !full && c.limit <= c.filled && (!c.allowEof || c.filled < c.size))
    ensures CursorOk(CursorRead(c).0)
    ensures CursorRead(c).1 > 0 ==> CursorRead(c).0.filled - c.at <= c.cap
  {
  }

  /** All that a read changes: what has been shown, by as much as it returns, up to the limit or the cap;
      and the end-of-file mark, which only a read that returns -1 sets. */
  lemma ReadEffect(c: Cursor)
    requires CursorOk(c)
    ensures var (c', ret) := CursorRead(c);
            && c' == c.(filled := c'.filled, eof := c.eof || ret == -1)
            && c'.filled == c.filled + (if ret > 0 then ret else 0)
            && (ret > 0 ==> c'.filled <= c.limit && (c'.filled == c.limit || c'.filled - c.at == c.cap))
  {
    ReadOutcomes(c);
  }

  // ---- The window

  datatype Window = Window(skip: u64, pos: u64, maxPos: u64, skipDiff: u64,
                           cap: u64, size: DataSize, allowEof: bool, eof: bool)

  /** No subtraction of `skipDiff` underflows, and what is shown is part of the data. */
  ghost predicate WindowOk(w: Window) {
    && w.skipDiff < 128
    && w.skipDiff <= w.skip <= w.pos
    && w.skipDiff <= w.maxPos <= w.size + w.skipDiff
    && (w.skip < w.pos ==> w.pos <= w.size + w.skipDiff)
  }

  ghost function View(w: Window): Cursor
    requires WindowOk(w)
  {
    Cursor(w.skip - w.skipDiff, w.pos - w.skipDiff, w.maxPos - w.skipDiff, w.size, w.cap, w.allowEof, w.eof)
  }

  /** `cur_max` of a window that has just been moved. */
  function CurMax(w: Window): u64 {
    if w.cap < SIZE_MAX - w.skip && w.maxPos > Add(w.skip, w.cap) then Add(w.skip, w.cap) else w.maxPos
  }

  /** The window moved to offset `d`. */
  function Moved(w: Window, d: u64): Window {
    w.(skip := Add(Sub(w.skip, w.skipDiff), d), pos := Add(Sub(w.pos, w.skipDiff), d),
       maxPos := Add(Sub(w.maxPos, w.skipDiff), d), skipDiff := d)
  }

  /** The outcome of a read that added `ret` bytes. */
  function Finish(w: Window, ret: int): (Window, int) {
    if ret > 0 then (w, ret)
    else if !w.allowEof || Sub(w.pos, w.skipDiff) < w.size then (w, 0)
    else (w.(eof := true), -1)
  }

  /** `test_read` on the offsets; `rand` is the result of `i_rand`. */
  function ReadWindow(w: Window, rand: nat): (Window, int) {
    if Sub(w.pos, w.skip) >= w.cap then (w, -2)
    else if w.maxPos < w.pos then Finish(w, 0)
    else
      var m := Moved(w, rand % 128);
      Finish(m.(pos := CurMax(m)), Signed(Sub(CurMax(m), m.pos)))
  }

  /** `test_seek` on the offsets. */
  function SeekWindow(w: Window, offset: u64): Window {
    w.(skip := Add(offset, w.skipDiff), pos := Add(offset, w.skipDiff))
  }

  /** A reader that takes up to `n` visible bytes. */
  function ConsumeWindow(w: Window, n: nat): Window {
    w.(skip := w.skip + Min(n, w.pos - w.skip))
  }

  /** `test_istream_set_size` on the offsets. */
  function SetSizeWindow(w: Window, size: u64): Window {
    w.(maxPos := Add(Min(size, w.size), w.skipDiff))
  }

  // ---- Refinement

  /** Moving a window changes nothing a reader can see. */
  lemma MovedView(w: Window, d: u64)
    requires WindowOk(w) && d < 128 && w.pos <= w.maxPos
    ensures Moved(w, d) == w.(skip := w.skip - w.skipDiff + d, pos := w.pos - w.skipDiff + d,
                              maxPos := w.maxPos - w.skipDiff + d, skipDiff := d)
    ensures WindowOk(Moved(w, d)) && View(Moved(w, d)) == View(w)
  {
  }

  /** The overflow guard never changes the meaning of the cap. */
  lemma CurMaxMeaning(w: Window)
    requires WindowOk(w) && w.pos <= w.maxPos && w.pos - w.skip < w.cap
    ensures CurMax(w) == Min(w.maxPos, w.skip + w.cap)
    ensures w.skipDiff <= w.pos <= CurMax(w) <= w.maxPos && CurMax(w) - w.skip <= w.cap
  {
  }

  /** The end-of-file test sees the same position in both. */
  lemma FinishMeaning(w: Window, ret: int)
    requires WindowOk(w)
    ensures Finish(w, ret) ==
            if ret > 0 then (w, ret)
            else if !w.allowEof || View(w).filled < w.size then (w, 0)
            else (w.(eof := true), -1)
  {
  }

  /** A read that extends the window, once the window has been moved. */
  lemma ExtendRefinesCursor(m: Window)
    requires WindowOk(m) && m.pos <= m.maxPos && m.pos - m.skip < m.cap
    ensures var r := Finish(m.(pos := CurMax(m)), Signed(Sub(CurMax(m), m.pos)));
            WindowOk(r.0) && (View(r.0), r.1) == CursorRead(View(m))
  {
    CurMaxMeaning(m);
    var m' := m.(pos := CurMax(m));
    assert Signed(Sub(CurMax(m), m.pos)) == m'.pos - m.pos;
    FinishMeaning(m', m'.pos - m.pos);
  }

  /** A read returns what the plain cursor returns, wherever the window was and wherever it goes. */
  lemma ReadRefinesCursor(w: Window, rand: nat)
    requires WindowOk(w)
    ensures WindowOk(ReadWindow(w, rand).0)
    ensures View(ReadWindow(w, rand).0) == CursorRead(View(w)).0
    ensures ReadWindow(w, rand).1 == CursorRead(View(w)).1
  {
    if w.pos - w.skip >= w.cap {
    } else if w.maxPos < w.pos {
      FinishMeaning(w, 0);
    } else {
      MovedView(w, rand % 128);
      ExtendRefinesCursor(Moved(w, rand % 128));
    }
  }

  function CursorSeek(c: Cursor, offset: nat): Cursor {
    c.(at := offset, filled := offset)
  }

  /** After a seek, a read starts at the target: it shows what there is from there, up to the limit or the
      cap, or it finds nothing. A seek leaves the end-of-file mark as it was. */
  lemma SeekThenRead(c: Cursor, offset: nat)
    requires CursorOk(c) && c.cap > 0
    ensures var (c', ret) := CursorRead(CursorSeek(c, offset));
            && c' == c.(at := offset, filled := c'.filled, eof := c.eof || ret == -1)
            && (offset < c.limit ==> ret == Min(c.limit - offset, c.cap) && c'.filled == offset + ret)
            && (c.limit <= offset ==> c'.filled == offset && ret == if c.allowEof && c.size <= offset then -1 else 0)
  {
    ReadEffect(CursorSeek(c, offset));
  }

  lemma SeekRefinesCursor(w: Window, offset: u64)
    requires WindowOk(w) && offset + w.skipDiff <= SIZE_MAX
    ensures WindowOk(SeekWindow(w, offset)) && View(SeekWindow(w, offset)) == CursorSeek(View(w), offset)
  {
  }

  /** A seek so far that adding the hidden offset wraps makes the next read invent data: the reads
      after it agree with the cursor exactly when the addition does not wrap. */
  lemma SeekAgreesExactly(w: Window, offset: u64)
    requires WindowOk(w) && w.cap > 0
    ensures (forall rand: nat :: ReadWindow(SeekWindow(w, offset), rand).1 == CursorRead(CursorSeek(View(w), offset)).1)
       <==> offset + w.skipDiff <= SIZE_MAX
  {
    var s := SeekWindow(w, offset);
    if offset + w.skipDiff <= SIZE_MAX {
      SeekRefinesCursor(w, offset);
      forall rand: nat
        ensures ReadWindow(s, rand).1 == CursorRead(CursorSeek(View(w), offset)).1
      {
        ReadRefinesCursor(s, rand);
      }
    } else {
      WrappedSeekReads(w, offset);
    }
  }

  lemma WrappedSeekReads(w: Window, offset: u64)
    requires WindowOk(w) && w.cap > 0 && offset + w.skipDiff > SIZE_MAX
    ensures ReadWindow(SeekWindow(w, offset), w.skipDiff).1 > 0 >= CursorRead(CursorSeek(View(w), offset)).1
  {
  }

  /** The window of a cursor at offset `d`. */
  function Place(c: Cursor, d: u64): Window
    requires c.filled + 127 <= SIZE_MAX && c.at <= c.filled && c.limit <= c.size && d < 128
    requires c.size <= SSIZE_MAX - 127 && c.cap <= SIZE_MAX
  {
    Window(c.at + d, c.filled + d, c.limit + d, d, c.cap, c.size, c.allowEof, c.eof)
  }

  /** What a read returns after a seek, when the window was at `d` and moves to `rand`. */
  function ReadAfterSeek(c: Cursor, d: u64, offset: u64, rand: nat): int
    requires CursorOk(c) && c.filled + 127 <= SIZE_MAX && c.size <= SSIZE_MAX - 127 && c.cap <= SIZE_MAX && d < 128
  {
    ReadWindow(SeekWindow(Place(c, d), offset), rand).1
  }

  lemma UnwrappedSeekRead(c: Cursor, d: u64, offset: u64, rand: nat)
    requires CursorOk(c) && c.filled + 127 <= SIZE_MAX && c.size <= SSIZE_MAX - 127 && c.cap <= SIZE_MAX && d < 128
    requires offset + d <= SIZE_MAX
    ensures ReadAfterSeek(c, d, offset, rand) == CursorRead(CursorSeek(c, offset)).1
  {
    assert View(Place(c, d)) == c;
    SeekRefinesCursor(Place(c, d), offset);
    ReadRefinesCursor(SeekWindow(Place(c, d), offset), rand);
  }

  /** For a caller, who cannot see the offset: the result of a read after a seek is independent of
      every random choice exactly when 127 can be added to the target. */
  lemma SeekIndependentExactly(c: Cursor, offset: u64)
    requires CursorOk(c) && c.filled + 127 <= SIZE_MAX && c.size <= SSIZE_MAX - 127 && 0 < c.cap <= SIZE_MAX
    ensures (forall d: u64, d': u64, r: nat, r': nat | d < 128 && d' < 128 ::
               ReadAfterSeek(c, d, offset, r) == ReadAfterSeek(c, d', offset, r'))
       <==> offset + 127 <= SIZE_MAX
  {
    if offset + 127 <= SIZE_MAX {
      forall d: u64, d': u64, r: nat, r': nat | d < 128 && d' < 128
        ensures ReadAfterSeek(c, d, offset, r) == ReadAfterSeek(c, d', offset, r')
      {
        UnwrappedSeekRead(c, d, offset, r);
        UnwrappedSeekRead(c, d', offset, r');
      }
    } else {
      assert View(Place(c, 127)) == c;
      WrappedSeekReads(Place(c, 127), offset);
      UnwrappedSeekRead(c, 0, offset, 0);
      assert ReadAfterSeek(c, 127, offset, 127) != ReadAfterSeek(c, 0, offset, 0);
    }
  }
}
