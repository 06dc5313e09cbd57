/**
 The critical sections of the proxy and the cache as code on mutable objects.  Each method performs the
 statements of one critical section and is proved to make exactly the steps the transition system makes for them.
 */
module CacheCode {
  import opened Wrappers
  import opened CacheModel
  import opened Steque

  // ---------- the pool of segments ----------

  class SegmentPool {
    const fldesQueue: Steque<string>
    var fldesQueueSize: int

    /** Holds whenever the pool's lock is free. */
    ghost predicate Valid()
      reads this, fldesQueue, fldesQueue.spine
    {
      fldesQueue.Valid() && fldesQueueSize == |fldesQueue.Contents()|
    }

    /** The pool of the transition system this object stands for. */
    ghost predicate Stands(p: Pool)
      reads this, fldesQueue, fldesQueue.spine
    {
      p.free == fldesQueue.Contents() && p.size == fldesQueueSize
    }

    constructor (q: Steque<string>)
      requires q.Valid()
      ensures fldesQueue == q && fldesQueueSize == |q.Contents()|
    {
      fldesQueue := q;
      new;
      fldesQueueSize := q.Size();
    }

    /** Pop and decrement, once the wait loop has seen a non-empty pool. */
    method Take(ghost h: nat, ghost x: Handler, ghost p: Pool) returns (name: string)
      requires Valid() && fldesQueueSize != 0 && Stands(p) && x.pc == HTakePop
      modifies this`fldesQueueSize, fldesQueue
      ensures Valid() && name == old(fldesQueue.Contents())[0]
      ensures var a := HTakeMove(h, x, p);
        a.Some? && a.value.0.name == name
        && var b := HTakeMove(h, a.value.0, a.value.1);
        b.Some? && b.value.0.pc == HTakeUnlock && Stands(b.value.1)
    {
      var item := fldesQueue.Pop();
      name := item.value;
      fldesQueueSize := fldesQueueSize - 1;
    }

    /** Enqueue and increment, once the wait loop has seen room. */
    method Give(name: string, ghost c: Config, ghost h: nat, ghost x: Handler, ghost p: Pool)
      requires Valid() && Stands(p) && x.pc == HGivePush && x.name == name
      modifies this`fldesQueueSize, fldesQueue, fldesQueue.spine
      ensures Valid() && fldesQueue.Contents() == old(fldesQueue.Contents()) + [name]
      ensures var a := HGiveMove(c, h, x, p);
        a.Some?
        && var b := HGiveMove(c, h, a.value.0, a.value.1);
        b.Some? && b.value.0.pc == HGiveUnlock && Stands(b.value.1)
    {
      fldesQueue.Enqueue(name);
      fldesQueueSize := fldesQueueSize + 1;
    }
  }

  // ---------- the daemon's queue ----------

  class RequestQueue {
    const mqDataQueue: Steque<Msg>
    var steqSize: int

    /** Holds whenever the queue's lock is free. */
    ghost predicate Valid()
      reads this, mqDataQueue, mqDataQueue.spine
    {
      mqDataQueue.Valid() && steqSize == |mqDataQueue.Contents()|
    }

    ghost predicate Stands(d: Daemon)
      reads this, mqDataQueue, mqDataQueue.spine
    {
      d.queue == mqDataQueue.Contents() && d.size == steqSize
    }

    constructor ()
      ensures Valid() && fresh(mqDataQueue) && mqDataQueue.Contents() == []
    {
      mqDataQueue := new Steque();
      steqSize := 0;
    }

    /** A worker's pop and decrement. */
    method Take(ghost w: nat, ghost y: Worker, ghost d: Daemon) returns (m: Msg)
      requires Valid() && steqSize != 0 && Stands(d) && y.pc == WTakePop
      modifies this`steqSize, mqDataQueue
      ensures Valid() && m == old(mqDataQueue.Contents())[0]
      ensures var a := WTakeMove(w, y, d);
        a.Some? && a.value.0.msg == m
        && var b := WTakeMove(w, a.value.0, a.value.1);
        b.Some? && b.value.0.pc == WTakeUnlock && Stands(b.value.1)
    {
      var item := mqDataQueue.Pop();
      m := item.value;
      steqSize := steqSize - 1;
    }

    /** The receiver's enqueue and increment. */
    method Put(m: Msg, ghost s: State)
      requires Valid() && Stands(s.dq) && s.recv.pc == RPutPush && s.recv.slot == m
      modifies this`steqSize, mqDataQueue, mqDataQueue.spine
      ensures Valid() && mqDataQueue.Contents() == old(mqDataQueue.Contents()) + [m]
      ensures var a := RNext(s);
        a.Some?
        && var b := RNext(a.value);
        b.Some? && b.value.recv.pc == RPutUnlock && Stands(b.value.dq)
    {
      mqDataQueue.Enqueue(m);
      steqSize := steqSize + 1;
    }
  }

  // ---------- one shared segment ----------

  /** `n` steps of a handler in its chunk loop. */
  function HDataSteps(c: Config, h: nat, x: Handler, g: Seg, n: nat): Option<(Handler, Seg)>
    decreases n
  {
    if n == 0 then Some((x, g))
    else
      var a := HDataMove(c, h, x, g);
      if a.None? then None else HDataSteps(c, h, a.value.0, a.value.1, n - 1)
  }

  /** `n` steps of a worker in its chunk loop; `pread` returns `b` bytes. */
  function WDataSteps(c: Config, w: nat, y: Worker, g: Seg, b: nat, n: nat): Option<(Worker, Seg)>
    decreases n
  {
    if n == 0 then Some((y, g))
    else
      var a := WDataMove(c, w, y, g, b);
      if a.None? then None else WDataSteps(c, w, a.value.0, a.value.1, b, n - 1)
  }

  /** Sending what is left of the slot takes one step a byte. */
  lemma {:induction false} SendSteps(c: Config, h: nat, x: Handler, g: Seg)
    requires x.pc == HDataSend && 0 <= x.k <= x.rlen <= |g.data|
    ensures HDataSteps(c, h, x, g, x.rlen - x.k)
      == Some((x.(k := x.rlen, body := x.body + g.data[x.k..x.rlen]), g))
    decreases x.rlen - x.k
  {
    if x.k < x.rlen {
      var x' := x.(k := x.k + 1, body := x.body + [g.data[x.k]]);
      SendSteps(c, h, x', g);
      assert x'.body + g.data[x'.k..x.rlen] == x.body + g.data[x.k..x.rlen];
    } else {
      assert x.body + g.data[x.k..x.rlen] == x.body;
    }
  }

  lemma {:induction false} StepsCompose(c: Config, h: nat, x: Handler, g: Seg, m: nat, n: nat)
    ensures HDataSteps(c, h, x, g, m + n) ==
      var a := HDataSteps(c, h, x, g, m); if a.None? then None else HDataSteps(c, h, a.value.0, a.value.1, n)
    decreases m
  {
    if m > 0 {
      var a := HDataMove(c, h, x, g);
      if a.Some? {
        StepsCompose(c, h, a.value.0, a.value.1, m - 1, n);
      }
    }
  }

  lemma {:induction false} WStepsCompose(c: Config, w: nat, y: Worker, g: Seg, b: nat, m: nat, n: nat)
    ensures WDataSteps(c, w, y, g, b, m + n) ==
      var a := WDataSteps(c, w, y, g, b, m); if a.None? then None else WDataSteps(c, w, a.value.0, a.value.1, b, n)
    decreases m
  {
    if m > 0 {
      var a := WDataMove(c, w, y, g, b);
      if a.Some? {
        WStepsCompose(c, w, a.value.0, a.value.1, b, m - 1, n);
      }
    }
  }

  /** Copying what is left of the chunk takes one step a byte. */
  lemma {:induction false} CopySteps(c: Config, w: nat, y: Worker, g: Seg, b: nat, file: seq<Byte>)
    requires y.pc == WCopy && y.k <= y.n <= |g.data| && y.fd.Some? && file == FileOf(c, y.fd.value)
    requires 0 <= y.written && y.written + y.n <= |file|
    ensures WDataSteps(c, w, y, g, b, y.n - y.k) == Some((y.(k := y.n),
      g.(data := g.data[..y.k] + file[y.written + y.k..y.written + y.n] + g.data[y.n..])))
    decreases y.n - y.k
  {
    var filled := g.data[..y.k] + file[y.written + y.k..y.written + y.n] + g.data[y.n..];
    if y.k < y.n {
      var y' := y.(k := y.k + 1);
      var g' := g.(data := g.data[y.k := file[y.written + y.k]]);
      CopySteps(c, w, y', g', b, file);
      assert g'.data[..y'.k] + file[y.written + y'.k..y.written + y.n] + g'.data[y.n..] == filled;
    } else {
      assert filled == g.data;
    }
  }

  /** Read, copy, test the end, publish. */
  lemma FillSteps(c: Config, w: nat, y: Worker, g: Seg, b: nat, file: seq<Byte>)
    requires y.pc == WPread && 1 <= b <= c.cap && b <= |g.data| && y.fd.Some? && file == FileOf(c, y.fd.value)
    requires 0 <= y.written && y.written + b <= y.len <= |file|
    ensures WDataSteps(c, w, y, g, b, b + 3) == Some((y.(pc := WSignal, n := b, k := b),
      g.(bytesWritten := b, data := file[y.written..y.written + b] + g.data[b..])))
  {
    var y1 := y.(pc := WCopy, n := b, k := 0);
    CopySteps(c, w, y1, g, b, file);
    WStepsCompose(c, w, y1, g, b, b, 2);
    var filled := file[y.written..y.written + b] + g.data[b..];
    assert g.data[..0] + file[y.written + 0..y.written + b] + g.data[b..] == filled;
    var y2, g2 := y1.(k := b), g.(data := filled);
    assert WDataSteps(c, w, y2, g2, b, 2) == WDataSteps(c, w, y2.(pc := WPublish), g2, b, 1);
    assert WDataSteps(c, w, y2.(pc := WPublish), g2, b, 1)
      == WDataSteps(c, w, y2.(pc := WSignal), g2.(bytesWritten := b), b, 0);
  }

  /** Read, send, test the end, clear. */
  lemma DrainSteps(c: Config, h: nat, x: Handler, g: Seg)
    requires x.pc == HDataRead && 0 <= g.bytesWritten <= |g.data|
    ensures var b := g.bytesWritten;
      HDataSteps(c, h, x, g, b + 3)
        == Some((x.(pc := HDataUnlock, rlen := b, k := b, body := x.body + g.data[..b]), g.(bytesWritten := 0)))
  {
    var b := g.bytesWritten;
    var x1 := x.(pc := HDataSend, rlen := b, k := 0);
    SendSteps(c, h, x1, g);
    StepsCompose(c, h, x1, g, b, 2);
    var x2 := x1.(k := b, body := x.body + g.data[0..b]);
    assert HDataSteps(c, h, x2, g, 2) == HDataSteps(c, h, x2.(pc := HDataClear), g, 1);
    assert HDataSteps(c, h, x2.(pc := HDataClear), g, 1)
      == HDataSteps(c, h, x2.(pc := HDataUnlock), g.(bytesWritten := 0), 0);
  }

  class Segment {
    var fileLength: int
    var bytesWritten: int
    const data: array<Byte>

    ghost predicate Stands(g: Seg)
      reads this, data
    {
      g.fileLength == fileLength && g.bytesWritten == bytesWritten && g.data == data[..]
    }

    constructor (cap: nat)
      ensures fresh(data) && data.Length == cap && fileLength == 0 && bytesWritten == 0
    {
      data := new Byte[cap](i => '\0');
      fileLength, bytesWritten := 0, 0;
    }

    /** The handler's critical section: read the slot's length, send the slot byte by byte, free it. */
    method Drain(ghost c: Config, ghost h: nat, ghost x: Handler, ghost g: Seg)
        returns (readLen: nat, chunk: seq<Byte>)
      requires 0 <= bytesWritten <= data.Length && Stands(g) && x.pc == HDataRead
      modifies this`bytesWritten
      ensures readLen == old(bytesWritten) && chunk == data[..readLen] && bytesWritten == 0
      ensures var a := HDataSteps(c, h, x, g, readLen + 3);
        a.Some? && a.value.0 == x.(pc := HDataUnlock, rlen := readLen, k := readLen, body := x.body + chunk)
        && Stands(a.value.1)
    {
      readLen := bytesWritten;
      chunk := [];
      while |chunk| < readLen
        invariant |chunk| <= readLen && chunk == data[..|chunk|]
      {
        chunk := chunk + [data[|chunk|]];
      }
      bytesWritten := 0;
      DrainSteps(c, h, x, g);
    }

    /** The worker's critical section: `pread` of `b` bytes into the slot, then their number. */
    method Fill(file: seq<Byte>, written: nat, b: nat, ghost c: Config, ghost w: nat, ghost y: Worker, ghost g: Seg)
      requires 1 <= b <= data.Length == c.cap && written + b <= y.len <= |file| && Stands(g)
      requires y.pc == WPread && y.written == written && y.fd.Some? && file == FileOf(c, y.fd.value)
      modifies this`bytesWritten, data
      ensures bytesWritten == b && data[..] == file[written..written + b] + old(data[b..])
      ensures var a := WDataSteps(c, w, y, g, b, b + 3);
        a.Some? && a.value.0 == y.(pc := WSignal, n := b, k := b) && Stands(a.value.1)
    {
      forall i | 0 <= i < b {
        data[i] := file[written + i];
      }
      bytesWritten := b;
      FillSteps(c, w, y, g, b, file);
    }
  }
}
