/** Whole programs over the test stream: what they observe does not depend on the random offsets,
    and a reader that keeps reading gets the data. */
module StreamPrograms {
  import opened StreamWindow
  import opened TestStream

  datatype Op =
    | Read
    | Consume(n: nat)
    | Seek(offset: u64)
    | SetSize(size: u64)
    | SetMaxBufferSize(cap: u64)
    | SetAllowEof(allow: bool)

  /** What a program sees after a step: the result of a read, where it is, and the visible bytes. */
  datatype Observation = Observation(ret: int, at: nat, filled: nat, eof: bool, visible: seq<byte>)

  // ---- The same steps on the plain cursor

  function StepCursor(c: Cursor, op: Op): (Cursor, int)
    requires c.at <= c.filled
  {
    match op
    case Read => CursorRead(c)
    case Consume(n) => (CursorConsume(c, n), 0)
    case Seek(offset) => (CursorSeek(c, offset), 0)
    case SetSize(size) => (c.(limit := Min(size, c.size)), 0)
    case SetMaxBufferSize(cap) => (c.(cap := cap), 0)
    case SetAllowEof(allow) => (c.(allowEof := allow), 0)
  }

  function Observe(data: seq<byte>, c: Cursor, ret: int): Observation {
    Observation(ret, c.at, c.filled, c.eof, Slice(data, c.at, c.filled))
  }

  function CursorAfter(c: Cursor, ops: seq<Op>): (r: Cursor)
    requires c.at <= c.filled
    ensures r.at <= r.filled
  {
    if ops == [] then c else StepCursor(CursorAfter(c, ops[..|ops| - 1]), ops[|ops| - 1]).0
  }

  /** The observations of a program that round through a plain cursor. */
  function CursorRun(data: seq<byte>, c: Cursor, ops: seq<Op>): seq<Observation>
    requires c.at <= c.filled
  {
    if ops == [] then []
    else
      var n := |ops| - 1;
      var (c', ret) := StepCursor(CursorAfter(c, ops[..n]), ops[n]);
      CursorRun(data, c, ops[..n]) + [Observe(data, c', ret)]
  }

  /** The first read of a fresh stream shows all the data. */
  lemma FreshRead(size: DataSize)
    ensures var (c, ret) := CursorRead(Start(size));
            && ret == (if size > 0 then size else -1)
            && c == Cursor(0, size, size, size, 0xFFFF_FFFF_FFFF_FFFF, true, size == 0)
  {
    ReadEffect(Start(size));
  }

  /** The window of a fresh stream is never full, until a program sets a cap of its own. */
  lemma {:induction false} NeverFull(size: DataSize, ops: seq<Op>)
    requires forall op | op in ops :: !op.SetMaxBufferSize?
    ensures var c := CursorAfter(Start(size), ops);
            && c.cap == 0xFFFF_FFFF_FFFF_FFFF && c.size == size && c.limit <= size
            && c.filled - c.at <= size && CursorRead(c).1 != -2
  {
    if ops != [] {
      NeverFull(size, ops[..|ops| - 1]);
    }
  }

  // ---- The same steps on the offsets

  function StepWindow(w: Window, op: Op, rand: nat): (Window, int) {
    match op
    case Read => ReadWindow(w, rand)
    case Consume(n) => (ConsumeWindow(w, n), 0)
    case Seek(offset) => (SeekWindow(w, offset), 0)
    case SetSize(size) => (SetSizeWindow(w, size), 0)
    case SetMaxBufferSize(cap) => (w.(cap := cap), 0)
    case SetAllowEof(allow) => (w.(allowEof := allow), 0)
  }

  /** The offsets after a program; `rands(k)` is what `i_rand` returns in step k. */
  function WindowAfter(w: Window, ops: seq<Op>, rands: nat -> nat): Window {
    if ops == [] then w
    else StepWindow(WindowAfter(w, ops[..|ops| - 1], rands), ops[|ops| - 1], rands(|ops| - 1)).0
  }

  predicate InRange(op: Op) {
    op.Seek? ==> op.offset + 127 <= SIZE_MAX
  }

  predicate SeeksInRange(ops: seq<Op>) {
    forall op | op in ops :: InRange(op)
  }

  lemma StepRefinesCursor(w: Window, op: Op, rand: nat)
    requires WindowOk(w) && InRange(op)
    ensures WindowOk(StepWindow(w, op, rand).0)
    ensures (View(StepWindow(w, op, rand).0), StepWindow(w, op, rand).1) == StepCursor(View(w), op)
  {
    match op
    case Read => ReadRefinesCursor(w, rand);
    case Seek(offset) => SeekRefinesCursor(w, offset);
    case _ =>
  }

  /** Window safety over every run: whatever the random choices, no offset underflows, what is shown
      is part of the data, and the window stands for the plain cursor. */
  lemma {:induction false} WindowAlwaysOk(w: Window, ops: seq<Op>, rands: nat -> nat)
    requires WindowOk(w) && SeeksInRange(ops)
    ensures WindowOk(WindowAfter(w, ops, rands))
    ensures View(WindowAfter(w, ops, rands)) == CursorAfter(View(w), ops) && CursorOk(CursorAfter(View(w), ops))
  {
    if ops != [] {
      var n := |ops| - 1;
      WindowAlwaysOk(w, ops[..n], rands);
      StepRefinesCursor(WindowAfter(w, ops[..n], rands), ops[n], rands(n));
    }
  }

  // ---- How far a program may seek

  /** The offsets of a fresh stream. */
  function StartWindow(size: DataSize): Window {
    Window(0, 0, size, 0, SIZE_MAX, size, true, false)
  }

  /** What the operations of a program return, on the offsets. */
  function Results(w: Window, ops: seq<Op>, rands: nat -> nat): (r: seq<int>)
    ensures |r| == |ops|
  {
    if ops == [] then []
    else
      var n := |ops| - 1;
      Results(w, ops[..n], rands) + [StepWindow(WindowAfter(w, ops[..n], rands), ops[n], rands(n)).1]
  }

  /** In range, the results are the same for all random choices. */
  lemma {:induction false} ResultsIndependent(w: Window, ops: seq<Op>, rands: nat -> nat, rands': nat -> nat)
    requires WindowOk(w) && SeeksInRange(ops)
    ensures Results(w, ops, rands) == Results(w, ops, rands')
  {
    if ops != [] {
      var n := |ops| - 1;
      ResultsIndependent(w, ops[..n], rands, rands');
      WindowAlwaysOk(w, ops[..n], rands);
      WindowAlwaysOk(w, ops[..n], rands');
      StepRefinesCursor(WindowAfter(w, ops[..n], rands), ops[n], rands(n));
      StepRefinesCursor(WindowAfter(w, ops[..n], rands'), ops[n], rands'(n));
    }
  }

  function SeekProgram(offset: u64): seq<Op> {
    [Read, Seek(offset), Read]
  }

  /** The last result of that program over a fresh stream. */
  lemma LastRead(size: DataSize, offset: u64, rands: nat -> nat)
    ensures Results(StartWindow(size), SeekProgram(offset), rands)[2]
         == ReadWindow(SeekWindow(ReadWindow(StartWindow(size), rands(0)).0, offset), rands(2)).1
  {
    var w, ops := StartWindow(size), SeekProgram(offset);
    assert ops[..2][..1] == [Read] && ops[..2][1] == Seek(offset);
    assert [Read][..0] == [];
    assert WindowAfter(w, [Read], rands) == ReadWindow(w, rands(0)).0;
    assert WindowAfter(w, ops[..2], rands) == SeekWindow(ReadWindow(w, rands(0)).0, offset);
  }

  /** For a program over a fresh stream: its results are independent of the random choices exactly when
      the largest hidden offset can be added to the target of its seek. */
  lemma SeekRunExactly(size: DataSize, offset: u64)
    ensures var w, ops := StartWindow(size), SeekProgram(offset);
            (forall rands: nat -> nat, rands': nat -> nat :: Results(w, ops, rands) == Results(w, ops, rands'))
            <==> offset + 127 <= SIZE_MAX
  {
    var w, ops := StartWindow(size), SeekProgram(offset);
    if offset + 127 <= SIZE_MAX {
      forall rands: nat -> nat, rands': nat -> nat
        ensures Results(w, ops, rands) == Results(w, ops, rands')
      {
        ResultsIndependent(w, ops, rands, rands');
      }
    } else {
      LastRead(size, offset, k => 127);
      LastRead(size, offset, k => 0);
      FarSeekReads(size, offset);
      assert Results(w, ops, k => 127)[2] != Results(w, ops, k => 0)[2];
    }
  }

  /** A read that may show more leaves the window at the offset it chose. */
  lemma ReadMoves(w: Window, d: nat)
    requires w.skip <= w.pos <= w.maxPos && w.pos - w.skip < w.cap && d < 128
    ensures var w' := ReadWindow(w, d).0;
            w'.skipDiff == d && w'.cap == w.cap && w'.size == w.size
  {
    assert d % 128 == d;
  }

  lemma FirstRead(size: DataSize, d: nat)
    requires d < 128
    ensures var w := ReadWindow(StartWindow(size), d).0;
            WindowOk(w) && w.skipDiff == d && w.cap == SIZE_MAX && w.size == size
  {
    ReadMoves(StartWindow(size), d);
    ReadRefinesCursor(StartWindow(size), d);
  }

  /** Reads past all data find nothing. */
  lemma FarCursorReads(c: Cursor, offset: nat)
    requires c.limit <= c.size && c.size < offset
    ensures CursorRead(CursorSeek(c, offset)).1 <= 0
  {
  }

  lemma FarSeekReads(size: DataSize, offset: u64)
    requires offset + 127 > SIZE_MAX
    ensures ReadWindow(SeekWindow(ReadWindow(StartWindow(size), 127).0, offset), 127).1 > 0
    ensures ReadWindow(SeekWindow(ReadWindow(StartWindow(size), 0).0, offset), 0).1 <= 0
  {
    FirstRead(size, 127);
    WrappedSeekReads(ReadWindow(StartWindow(size), 127).0, offset);
    UnmovedSeekRead(size, offset);
  }

  lemma UnmovedSeekRead(size: DataSize, offset: u64)
    requires size < offset
    ensures ReadWindow(SeekWindow(ReadWindow(StartWindow(size), 0).0, offset), 0).1 <= 0
  {
    FirstRead(size, 0);
    var w := ReadWindow(StartWindow(size), 0).0;
    SeekRefinesCursor(w, offset);
    ReadRefinesCursor(SeekWindow(w, offset), 0);
    FarCursorReads(View(w), offset);
  }

  // ---- Programs over the real stream

  method Step(s: TestIStream, op: Op, rand: nat) returns (ret: int)
    requires s.Valid() && InRange(op)
    modifies s, s.wBuffer
    ensures s.Valid() && (s.wBuffer == old(s.wBuffer) || fresh(s.wBuffer))
    ensures (s.Cursor(), ret) == StepCursor(old(s.Cursor()), op)
    ensures (s.Offsets(), ret) == StepWindow(old(s.Offsets()), op, rand)
  {
    ret := 0;
    match op
    case Read => ret := s.Read(rand);
    case Consume(n) => var _ := s.Consume(n);
    case Seek(offset) => s.Seek(offset);
    case SetSize(size) => s.SetSize(size);
    case SetMaxBufferSize(cap) => s.SetMaxBufferSize(cap);
    case SetAllowEof(allow) => s.SetAllowEof(allow);
  }

  method RunOp(s: TestIStream, op: Op, rand: nat) returns (o: Observation)
    requires s.Valid() && InRange(op)
    modifies s, s.wBuffer
    ensures s.Valid() && (s.wBuffer == old(s.wBuffer) || fresh(s.wBuffer))
    ensures s.Cursor() == StepCursor(old(s.Cursor()), op).0
    ensures o == Observe(s.origBuffer[..], s.Cursor(), StepCursor(old(s.Cursor()), op).1)
  {
    var ret := Step(s, op, rand);
    var visible := s.Visible();
    o := Observation(ret, s.skip - s.skipDiff, s.pos - s.skipDiff, s.eof, visible);
  }

  /** A program over a fresh stream; `rands(k)` is what `i_rand` returns in step k. */
  method Run(data: seq<byte>, ops: seq<Op>, rands: nat -> nat) returns (outs: seq<Observation>)
    requires |data| <= SSIZE_MAX - 127 && SeeksInRange(ops)
    ensures outs == CursorRun(data, Start(|data|), ops)
  {
    var buffer := new byte[|data|](i requires 0 <= i < |data| => data[i]);
    assert buffer[..] == data;
    var s := new TestIStream(buffer);
    outs := [];
    for k := 0 to |ops|
      invariant s.Valid() && s.origBuffer == buffer && buffer[..] == data
      invariant fresh(s) && fresh(s.wBuffer) && fresh(buffer)
      invariant s.Cursor() == CursorAfter(Start(|data|), ops[..k])
      invariant outs == CursorRun(data, Start(|data|), ops[..k])
    {
      assert ops[k] in ops && ops[..k + 1][..k] == ops[..k];
      var o := RunOp(s, ops[k], rands(k));
      outs := outs + [o];
    }
    assert ops[..|ops|] == ops;
  }

  /** Two runs of the same program with different random offsets see the same. */
  method TwoRuns(data: seq<byte>, ops: seq<Op>, rands: nat -> nat, rands': nat -> nat)
    returns (outs: seq<Observation>, outs': seq<Observation>)
    requires |data| <= SSIZE_MAX - 127 && SeeksInRange(ops)
    ensures outs == outs'
  {
    outs := Run(data, ops, rands);
    outs' := Run(data, ops, rands');
  }

  /** One read, after which the reader takes up to `n` of the visible bytes. */
  method ReadSome(s: TestIStream, rand: nat, n: nat) returns (ret: int, bytes: seq<byte>)
    requires s.Valid()
    modifies s, s.wBuffer
    ensures s.Valid() && (s.wBuffer == old(s.wBuffer) || fresh(s.wBuffer))
    ensures var (c, r) := CursorRead(old(s.Cursor()));
            && ret == r && s.Cursor() == CursorConsume(c, n)
            && bytes == Slice(s.origBuffer[..], c.at, s.Cursor().at)
  {
    ret := s.Read(rand);
    bytes := s.Consume(n);
  }

  /** The state of a reader of all the data: `ret` is the result of its last read, which found the end
      only when everything had been shown. */
  ghost predicate Draining(c: Cursor, size: nat, cap: nat, ret: int) {
    && c.limit == c.size == size && c.cap == cap && c.allowEof
    && c.at <= c.filled <= size && (ret == -1 ==> c.filled == size)
  }

  /** Such a reader takes a byte, or it finds the end for the first time. */
  lemma DrainStep(c: Cursor, data: seq<byte>, cap: nat, ret: int, n: nat)
    requires cap > 0 && n > 0 && Draining(c, |data|, cap, ret) && (ret != -1 || c.at < c.filled)
    ensures var (c1, ret') := CursorRead(c);
            var c' := CursorConsume(c1, n);
            && Draining(c', |data|, cap, ret')
            && (c.at < c'.at || (c.at == c'.at && ret != -1 && ret' == -1))
            && data[..c.at] + Slice(data, c1.at, c'.at) == data[..c'.at]
  {
    TakeMore(data, c.at, CursorConsume(CursorRead(c).0, n).at);
  }

  lemma TakeMore(data: seq<byte>, lo: nat, hi: nat)
    requires lo <= hi <= |data|
    ensures data[..lo] + Slice(data, lo, hi) == data[..hi]
  {
  }

  /** One turn of the loop below. */
  method DrainRound(s: TestIStream, data: seq<byte>, cap: u64, ret: int, rand: nat, n: nat)
    returns (ret': int, more: seq<byte>)
    requires s.Valid() && s.origBuffer[..] == data && cap > 0 && n > 0
    requires Draining(s.Cursor(), |data|, cap, ret) && (ret != -1 || s.skip < s.pos)
    modifies s, s.wBuffer
    ensures s.Valid() && (s.wBuffer == old(s.wBuffer) || fresh(s.wBuffer))
    ensures Draining(s.Cursor(), |data|, cap, ret')
    ensures var at, at' := old(s.Cursor()).at, s.Cursor().at;
            && data[..at] + more == data[..at']
            && (at < at' || (at == at' && ret != -1 && ret' == -1))
  {
    DrainStep(s.Cursor(), data, cap, ret, n);
    ret', more := ReadSome(s, rand, n);
  }

  /** A reader that takes at least one visible byte after every read, but no more than it pleases,
      and stops at the end of file, has read exactly the data. */
  method Drain(data: seq<byte>, cap: u64, rands: nat -> nat, appetite: nat -> nat) returns (bytes: seq<byte>)
    requires |data| <= SSIZE_MAX - 127 && cap > 0
    ensures bytes == data
  {
    var buffer := new byte[|data|](i requires 0 <= i < |data| => data[i]);
    assert buffer[..] == data;
    var s := new TestIStream(buffer);
    s.SetMaxBufferSize(cap);
    bytes := [];
    var round := 0;
    var ret := 0;
    while ret != -1 || s.skip < s.pos
      invariant s.Valid() && s.origBuffer == buffer && buffer[..] == data
      invariant fresh(s) && fresh(s.wBuffer) && fresh(buffer)
      invariant Draining(s.Cursor(), |data|, cap, ret) && bytes == data[..s.Cursor().at]
      decreases |data| - (s.skip - s.skipDiff), if ret == -1 then 0 else 1
    {
      var more: seq<byte>;
      ret, more := DrainRound(s, data, cap, ret, rands(round), 1 + appetite(round));
      bytes := bytes + more;
      round := round + 1;
    }
  }
}
