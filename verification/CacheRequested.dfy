/**
 Whatever message reaches which worker, only requested files are looked up.  When all of them are empty
 nobody ever gets past the file length.
 */
module CacheRequested {
  import opened Wrappers
  import opened CacheModel
  import opened CacheRuns
  import opened CachePair
  import opened CacheInvariant
  import CacheService
  import CacheTermination

  // ---------- messages and lookups ----------

  /** The worker has looked up the length of a requested file. */
  ghost predicate Looked(c: Config, y: Worker) {
    y.pc.WOpen? || WBound(y.pc) ==> exists p :: p in c.paths && y.len == FileLen(c, p)
  }

  /** Every message in use names a requested file, and so does the daemon's buffer once it is read. */
  ghost predicate Requested(c: Config, s: State) {
    && (forall i :: 0 <= i < |s.mq| ==> s.mq[i].path in c.paths)
    && (forall i :: 0 <= i < |s.dq.queue| ==> s.dq.queue[i].path in c.paths)
    && (RHolds(s.recv.pc) || s.dq.queue != [] ==> s.recv.slot.path in c.paths)
    && (forall w :: 0 <= w < |s.ws| && WReads(s.ws[w].pc) ==>
      s.ws[w].msg.path in c.paths && s.recv.slot.path in c.paths)
    && (forall w :: 0 <= w < |s.ws| ==> Looked(c, s.ws[w]))
  }

  lemma HandlerRequests(c: Config, s: State, h: nat, s': State)
    requires Requested(c, s) && HNext(c, s, h) == Some(s')
    ensures Requested(c, s')
  {
    HandlerAsks(c, s, h, s');
  }

  /** A handler asks for its own path. */
  lemma HandlerAsks(c: Config, s: State, h: nat, s': State)
    requires HNext(c, s, h) == Some(s')
    ensures s'.ws == s.ws && s'.dq == s.dq && s'.recv == s.recv
    ensures s'.mq == s.mq || exists n, i :: s'.mq == s.mq + [Msg(c.paths[h], n, i)]
    ensures h < |c.paths| && c.paths[h] in c.paths
  {
    if s.hs[h].pc.HSend? {
      assert s'.mq == s.mq + [Msg(c.paths[h], s.hs[h].name, h)];
    }
  }

  lemma WorkerLooks(c: Config, s: State, w: nat, n: nat, s': State)
    requires Requested(c, s) && WNext(c, s, w, n) == Some(s')
    ensures Requested(c, s')
  {
    WorkerKeepsBuffer(c, s, w, n, s');
    if s.ws[w].pc.WGet? {
      LooksUp(c, s, w, n, s');
    } else {
      assert Looked(c, s.ws[w]);
    }
  }

  lemma BoundKeepsBuffer(c: Config, s: State, w: nat, n: nat, s': State)
    requires w < |s.ws| && WBound(s.ws[w].pc) && WNext(c, s, w, n) == Some(s')
    ensures |s'.ws| == |s.ws| && s'.ws == s.ws[w := s'.ws[w]]
    ensures s'.mq == s.mq && s'.recv == s.recv && s'.dq == s.dq
    ensures !WReads(s'.ws[w].pc) && s'.ws[w].len == s.ws[w].len
  {
  }

  lemma WorkerKeepsBuffer(c: Config, s: State, w: nat, n: nat, s': State)
    requires WNext(c, s, w, n) == Some(s')
    ensures w < |s.ws| && |s'.ws| == |s.ws| && s'.ws == s.ws[w := s'.ws[w]]
    ensures s'.mq == s.mq && s'.recv.slot == s.recv.slot && s'.recv.pc == s.recv.pc
    ensures s'.dq.queue == s.dq.queue || (s.dq.queue != [] && s'.dq.queue == s.dq.queue[1..])
    ensures WReads(s'.ws[w].pc) ==>
      || (WReads(s.ws[w].pc) && s'.ws[w].msg == s.ws[w].msg)
      || (s.dq.queue != [] && s'.ws[w].msg == s.dq.queue[0])
    ensures (s'.ws[w].pc.WOpen? || WBound(s'.ws[w].pc)) && !s.ws[w].pc.WGet? ==>
      (s.ws[w].pc.WOpen? || WBound(s.ws[w].pc)) && s'.ws[w].len == s.ws[w].len
  {
    if WBound(s.ws[w].pc) {
      BoundKeepsBuffer(c, s, w, n, s');
    }
  }

  lemma LooksUp(c: Config, s: State, w: nat, n: nat, s': State)
    requires Requested(c, s) && w < |s.ws| && s.ws[w].pc.WGet? && WNext(c, s, w, n) == Some(s')
    ensures w < |s'.ws| && Looked(c, s'.ws[w])
  {
    assert Deref(c, s, s.ws[w]).path in c.paths;
  }

  lemma ReceiverRequests(c: Config, s: State, s': State)
    requires Requested(c, s) && RNext(s) == Some(s')
    ensures Requested(c, s')
  {
    CacheService.RShape(s, s');
  }

  lemma StepRequests(c: Config, s: State, t: Step, s': State)
    requires Requested(c, s) && Next(c, s, t) == Some(s')
    ensures Requested(c, s')
  {
    match t
    case HStep(h) => HandlerRequests(c, s, h, s');
    case HShort(h) =>
    case WStep(w, n) => WorkerLooks(c, s, w, n, s');
    case RStep => ReceiverRequests(c, s, s');
    case Spurious(u) => CacheService.SpuriousShape(s, u, s');
  }

  // ---------- nothing but empty files ----------

  /** Every requested file is empty. */
  predicate OnlyEmptyFiles(c: Config) {
    forall i :: 0 <= i < |c.paths| ==> FileLen(c, c.paths[i]) == 0
  }

  /** The handler has not got a length. */
  predicate HEmpty(x: Handler) {
    (CacheTermination.Unsent(x.pc) || x.pc.HLen?) && x.header == NoHeader && x.body == []
  }

  /** The worker has nothing to wait for and nothing to copy. */
  predicate WEmpty(y: Worker) {
    (WTakePc(y.pc) || WLenPc(y.pc) || y.pc.WLoop?) && y.pc != WLen(Wait) && y.pc != WLen(Sleep)
  }

  ghost predicate EmptyInv(s: State) {
    && (forall g :: 0 <= g < |s.segs| ==> s.segs[g].fileLength == 0)
    && (forall h :: 0 <= h < |s.hs| ==> HEmpty(s.hs[h]))
    && (forall w :: 0 <= w < |s.ws| ==> WEmpty(s.ws[w]))
  }

  lemma HLenEmpty(c: Config, h: nat, x: Handler, g: Seg, x': Handler, g': Seg)
    requires HEmpty(x) && g.fileLength == 0 && HLenMove(c, h, x, g) == Some((x', g'))
    ensures HEmpty(x') && g'.fileLength == 0
  {
  }

  lemma HOutsideEmpty(c: Config, s: State, h: nat, s': State)
    requires EmptyInv(s) && h < |s.hs| && !HLenPc(s.hs[h].pc) && HNext(c, s, h) == Some(s')
    ensures EmptyInv(s')
  {
    assert HEmpty(s.hs[h]);
  }

  lemma HandlerEmpty(c: Config, s: State, h: nat, s': State)
    requires EmptyInv(s) && HNext(c, s, h) == Some(s')
    ensures EmptyInv(s')
  {
    var x := s.hs[h];
    if HLenPc(x.pc) {
      var m := HLenMove(c, h, x, s.segs[x.gen]).value;
      HLenEmpty(c, h, x, s.segs[x.gen], m.0, m.1);
    } else {
      HOutsideEmpty(c, s, h, s');
    }
  }

  lemma WSegEmpty(c: Config, w: nat, y: Worker, g: Seg, n: nat, y': Worker, g': Seg)
    requires WEmpty(y) && WBound(y.pc) && y.len == 0 <= y.written && g.fileLength == 0
    requires (if WLenPc(y.pc) then WLenMove(c, w, y, g) else WDataMove(c, w, y, g, n)) == Some((y', g'))
    ensures WEmpty(y') && g'.fileLength == 0
  {
  }

  lemma WorkerEmpty(c: Config, s: State, w: nat, n: nat, s': State)
    requires EmptyInv(s) && OnlyEmptyFiles(c) && Requested(c, s) && CacheTermination.Counters(c, s)
    requires WNext(c, s, w, n) == Some(s')
    ensures EmptyInv(s')
  {
    var y := s.ws[w];
    WorkerLeaves(c, s, w, n, s');
    if WBound(y.pc) {
      assert Looked(c, y) && CacheTermination.WCounts(c, y);
      var m := if WLenPc(y.pc) then WLenMove(c, w, y, s.segs[y.gen]) else WDataMove(c, w, y, s.segs[y.gen], n);
      WSegEmpty(c, w, y, s.segs[y.gen], n, m.value.0, m.value.1);
    }
  }

  /** What a worker's step leaves alone. */
  lemma WorkerLeaves(c: Config, s: State, w: nat, n: nat, s': State)
    requires WNext(c, s, w, n) == Some(s')
    ensures w < |s.ws| && |s'.ws| == |s.ws| && s'.ws == s.ws[w := s'.ws[w]] && |s'.hs| == |s.hs|
    ensures forall h :: 0 <= h < |s.hs| ==> s'.hs[h] == s.hs[h].(loc := s'.hs[h].loc)
    ensures !WBound(s.ws[w].pc) ==> s'.segs == s.segs && (WTakePc(s'.ws[w].pc) || s'.ws[w].pc.WZero?)
  {
  }

  lemma StepEmpty(c: Config, s: State, t: Step, s': State)
    requires EmptyInv(s) && OnlyEmptyFiles(c) && Requested(c, s) && CacheTermination.Counters(c, s)
    requires Next(c, s, t) == Some(s')
    ensures EmptyInv(s')
  {
    match t
    case HStep(h) => HandlerEmpty(c, s, h, s');
    case HShort(h) =>
    case WStep(w, n) => WorkerEmpty(c, s, w, n, s');
    case RStep => CacheService.RShape(s, s');
    case Spurious(u) => CacheService.SpuriousShape(s, u, s');
  }

  // ---------- runs ----------

  lemma {:induction false} ExecRequests(c: Config, ts: seq<Step>, s: State)
    requires Exec(c, Init(c), ts) == Some(s)
    ensures Requested(c, s)
    decreases |ts|
  {
    if ts != [] {
      var front, t := ts[..|ts| - 1], ts[|ts| - 1];
      var m := Exec(c, Init(c), front).value;
      ExecRequests(c, front, m);
      StepRequests(c, m, t, s);
    }
  }

  /** For every configuration: a worker never looks up a file nobody has requested. */
  lemma ReachRequests(c: Config, s: State)
    requires Reach(c, Init(c), s)
    ensures Requested(c, s)
  {
    var ts :| Exec(c, Init(c), ts) == Some(s);
    ExecRequests(c, ts, s);
  }

  lemma {:induction false} ExecEmpty(c: Config, ts: seq<Step>, s: State)
    requires OnlyEmptyFiles(c) && Exec(c, Init(c), ts) == Some(s)
    ensures EmptyInv(s)
    decreases |ts|
  {
    if ts != [] {
      var front, t := ts[..|ts| - 1], ts[|ts| - 1];
      var m := Exec(c, Init(c), front).value;
      ExecEmpty(c, front, m);
      ReachRequests(c, m);
      CacheTermination.ReachCounters(c, m);
      StepEmpty(c, m, t, s);
    }
  }

  /** For every configuration: empty files keep all handlers in front of the length, and all slots untouched. */
  lemma ReachEmpty(c: Config, s: State)
    requires OnlyEmptyFiles(c) && Reach(c, Init(c), s)
    ensures EmptyInv(s)
  {
    var ts :| Exec(c, Init(c), ts) == Some(s);
    ExecEmpty(c, ts, s);
  }
}
