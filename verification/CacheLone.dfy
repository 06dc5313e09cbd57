/**
 One worker, files of at most one byte, one struct layout: no wake-up on a segment is lost, even when the
 daemon's one buffer makes the worker serve the wrong segment, or one segment twice.

 The worker never sleeps on a segment, because it finds every slot empty that it has itself reset.
 */
module CacheLone {
  import opened Wrappers
  import opened CacheModel
  import opened CacheRuns
  import opened CachePair
  import opened CacheWake
  import opened CacheRequested
  import CacheSafety
  import CacheService
  import CacheTermination

  /** No requested file has more than one byte. */
  predicate ShortFiles(c: Config) {
    forall i :: 0 <= i < |c.paths| ==> FileLen(c, c.paths[i]) <= 1
  }

  /** What the worker finds in the segment it has opened. */
  ghost predicate AloneOk(c: Config, y: Worker, g: Seg) {
    && y.len <= 1 && CacheTermination.WCounts(c, y)
    && y.pc != WLen(Wait) && y.pc != WLen(Sleep) && y.pc != WData(Wait) && y.pc != WData(Sleep)
    && (y.pc.WLen? || y.pc.WLenPost? ==> g.fileLength == 0)
    && (y.pc.WLenUnlock? || y.pc.WLenBcast? || y.pc.WData? || WFilling(y.pc) ==> g.bytesWritten == 0)
    && (y.pc.WLoop? ==> y.written >= y.len || g.bytesWritten == 0)
  }

  /** Mutexes, wait sets and wakers of one handler's segment; `v` is the worker if it has opened it. */
  ghost predicate LoneOk(c: Config, h: nat, x: Handler, g: Seg, v: View) {
    LockOk(c, h, x, g, 0, v) && g.cacheWait == {} && WaitsOk(x, g, v) && WakersOk(h, x, g, 0, v)
  }

  /** The worker, if it has opened the generation. */
  function OnSeg(s: State, gen: nat): View {
    if s.ws != [] && WBound(s.ws[0].pc) && s.ws[0].gen == gen then Busy(s.ws[0]) else Over
  }

  ghost predicate LoneAt(c: Config, s: State, h: nat)
    requires h < |s.hs|
  {
    var x := s.hs[h];
    HHasGen(x.pc) ==> x.gen < |s.segs| && LoneOk(c, h, x, s.segs[x.gen], OnSeg(s, x.gen))
  }

  /** Every generation has one owner. */
  ghost predicate GensApart(s: State) {
    && (forall h, i :: 0 <= h < i < |s.hs| && HHasGen(s.hs[h].pc) && HHasGen(s.hs[i].pc) ==> s.hs[h].gen != s.hs[i].gen)
    && (forall n :: n in s.ns ==> s.ns[n] < |s.segs|)
  }

  ghost predicate LoneInv(c: Config, s: State) {
    && |s.ws| == 1 && GensApart(s)
    && (WBound(s.ws[0].pc) ==> s.ws[0].gen < |s.segs| && AloneOk(c, s.ws[0], s.segs[s.ws[0].gen]))
    && (forall h :: 0 <= h < |s.hs| ==> LoneAt(c, s, h))
  }

  // ---------- handlers ----------

  /** A handler in the length section leaves the worker beside it in order. */
  lemma HLenAlone(c: Config, h: nat, x: Handler, g: Seg, y: Worker, x': Handler, g': Seg)
    requires SharedLayout(c.layout) && HLenMove(c, h, x, g) == Some((x', g')) && LoneOk(c, h, x, g, Busy(y))
    requires AloneOk(c, y, g)
    ensures AloneOk(c, y, g')
  {
    MutexExcludes(c, h, x, g, 0, Busy(y));
  }

  lemma HLenLone(c: Config, h: nat, x: Handler, g: Seg, v: View, x': Handler, g': Seg)
    requires SharedLayout(c.layout) && HLenMove(c, h, x, g) == Some((x', g')) && LoneOk(c, h, x, g, v)
    requires v.Busy? ==> AloneOk(c, v.y, g)
    ensures LoneOk(c, h, x', g', v) && (v.Busy? ==> AloneOk(c, v.y, g'))
  {
    HLenLocks(c, h, x, g, 0, v, x', g');
    MutexExcludes(c, h, x, g, 0, v);
    if v.Busy? {
      HLenAlone(c, h, x, g, v.y, x', g');
    }
  }

  lemma HDataLone(c: Config, h: nat, x: Handler, g: Seg, v: View, x': Handler, g': Seg)
    requires SharedLayout(c.layout) && HDataMove(c, h, x, g) == Some((x', g')) && LoneOk(c, h, x, g, v)
    requires v.Busy? ==> AloneOk(c, v.y, g)
    ensures LoneOk(c, h, x', g', v) && (v.Busy? ==> AloneOk(c, v.y, g'))
  {
    HDataLocks(c, h, x, g, 0, v, x', g');
    MutexExcludes(c, h, x, g, 0, v);
  }

  lemma HSegLone(c: Config, s: State, h: nat, s': State)
    requires SharedLayout(c.layout) && LoneInv(c, s) && h < |s.hs| && (HLenPc(s.hs[h].pc) || HDataPc(s.hs[h].pc))
    requires HNext(c, s, h) == Some(s')
    ensures LoneInv(c, s')
  {
    assert LoneAt(c, s, h);
    var x, g := s.hs[h], s.segs[s.hs[h].gen];
    var x', g' := CacheSafety.SegMoveOf(c, s, h, s');
    if HLenPc(x.pc) {
      HLenLone(c, h, x, g, OnSeg(s, x.gen), x', g');
    } else {
      HDataLone(c, h, x, g, OnSeg(s, x.gen), x', g');
    }
    forall i | 0 <= i < |s'.hs|
      ensures LoneAt(c, s', i)
    {
      assert LoneAt(c, s, i);
    }
  }

  /** The step leaves segments alone, and the handler where it holds no mutex and sleeps on no segment. */
  lemma HAsideLone(c: Config, s: State, h: nat, s': State)
    requires LoneInv(c, s) && h < |s.hs| && h < |s'.hs| && s'.hs == s.hs[h := s'.hs[h]]
    requires s'.segs == s.segs && s'.ws == s.ws && GensApart(s')
    requires HHasGen(s'.hs[h].pc) ==> HHasGen(s.hs[h].pc) && s'.hs[h].gen == s.hs[h].gen
    requires !HInLen(s.hs[h].pc) && !HInLen(s'.hs[h].pc) && HInData(s'.hs[h].pc) == HInData(s.hs[h].pc)
    requires s.hs[h].pc != HLen(Sleep) && s.hs[h].pc != HData(Sleep) && s'.hs[h].pc != HLen(Sleep)
    requires s'.hs[h].pc != HData(Sleep) && s'.hs[h].pc != HData(Wait)
    ensures LoneInv(c, s')
  {
    forall i | 0 <= i < |s'.hs|
      ensures LoneAt(c, s', i)
    {
      assert LoneAt(c, s, i);
    }
  }

  lemma HCreateLone(c: Config, s: State, h: nat, s': State)
    requires LoneInv(c, s) && h < |s.hs| && s.hs[h].pc.HCreateOpen? && HNext(c, s, h) == Some(s')
    ensures LoneInv(c, s')
  {
    assert s'.hs == s.hs[h := s'.hs[h]] && s'.hs[h].gen == |s.segs| && s.segs == s'.segs[..|s.segs|];
    forall i | 0 <= i < |s'.hs|
      ensures LoneAt(c, s', i)
    {
      assert LoneAt(c, s, i);
    }
    forall a, b | 0 <= a < b < |s'.hs| && HHasGen(s'.hs[a].pc) && HHasGen(s'.hs[b].pc)
      ensures s'.hs[a].gen != s'.hs[b].gen
    {
      assert LoneAt(c, s, a) && LoneAt(c, s, b);
    }
  }

  lemma HNameShape(c: Config, s: State, h: nat, s': State)
    requires h < |s.hs| && HNext(c, s, h) == Some(s') && HNamePc(s.hs[h].pc) && !s.hs[h].pc.HCreateOpen?
    ensures |s'.hs| == |s.hs| && s'.hs == s.hs[h := s'.hs[h]] && s'.hs[h].gen == s.hs[h].gen
    ensures s'.segs == s.segs && s'.ws == s.ws && forall n :: n in s'.ns ==> n in s.ns && s'.ns[n] == s.ns[n]
    ensures HHasGen(s'.hs[h].pc) == HHasGen(s.hs[h].pc) && !HLenPc(s.hs[h].pc) && !HDataPc(s'.hs[h].pc)
    ensures !HInLen(s'.hs[h].pc) && s'.hs[h].pc != HLen(Sleep)
  {
  }

  lemma HNameLone(c: Config, s: State, h: nat, s': State)
    requires LoneInv(c, s) && h < |s.hs| && HNext(c, s, h) == Some(s')
    requires HNamePc(s.hs[h].pc) && !s.hs[h].pc.HCreateOpen?
    ensures LoneInv(c, s')
  {
    HNameShape(c, s, h, s');
    HAsideLone(c, s, h, s');
  }

  lemma HPoolLone(c: Config, s: State, h: nat, s': State)
    requires LoneInv(c, s) && h < |s.hs| && HNext(c, s, h) == Some(s')
    requires !HLenPc(s.hs[h].pc) && !HDataPc(s.hs[h].pc) && !HNamePc(s.hs[h].pc)
    ensures LoneInv(c, s')
  {
    var x := s.hs[h];
    var (x', p') := (if HTakePc(x.pc) then HTakeMove(h, x, s.pool) else HGiveMove(c, h, x, s.pool)).value;
    HPoolShape(c, h, x, s.pool, x', p');
    HAsideLone(c, s, h, s');
  }

  lemma HPoolShape(c: Config, h: nat, x: Handler, p: Pool, x': Handler, p': Pool)
    requires (if HTakePc(x.pc) then HTakeMove(h, x, p) else HGiveMove(c, h, x, p)) == Some((x', p'))
    ensures HHasGen(x'.pc) == HHasGen(x.pc) && x'.gen == x.gen
    ensures !HLenPc(x.pc) && !HDataPc(x.pc) && !HLenPc(x'.pc) && !HDataPc(x'.pc) && !HInData(x.pc) && !HInData(x'.pc)
  {
  }

  lemma HandlerLone(c: Config, s: State, h: nat, s': State)
    requires SharedLayout(c.layout) && LoneInv(c, s) && HNext(c, s, h) == Some(s')
    ensures LoneInv(c, s')
  {
    var pc := s.hs[h].pc;
    if HLenPc(pc) || HDataPc(pc) {
      HSegLone(c, s, h, s');
    } else if pc.HCreateOpen? {
      HCreateLone(c, s, h, s');
    } else if HNamePc(pc) {
      HNameLone(c, s, h, s');
    } else {
      HPoolLone(c, s, h, s');
    }
  }

  // ---------- the worker ----------

  lemma WLenLone(c: Config, h: nat, x: Handler, y: Worker, g: Seg, y': Worker, g': Seg)
    requires SharedLayout(c.layout) && WLenMove(c, 0, y, g) == Some((y', g'))
    requires LoneOk(c, h, x, g, Busy(y)) && AloneOk(c, y, g)
    ensures LoneOk(c, h, x, g', if y'.pc.WTake? then Over else Busy(y'))
  {
    WLenLocks(c, h, x, g, 0, y, y', g');
    MutexExcludes(c, h, x, g, 0, Busy(y));
  }

  lemma WDataLone(c: Config, h: nat, x: Handler, y: Worker, g: Seg, n: nat, y': Worker, g': Seg)
    requires SharedLayout(c.layout) && WDataMove(c, 0, y, g, n) == Some((y', g'))
    requires LoneOk(c, h, x, g, Busy(y)) && AloneOk(c, y, g)
    ensures LoneOk(c, h, x, g', if y'.pc.WTake? then Over else Busy(y'))
  {
    WDataLocks(c, h, x, g, 0, y, n, y', g');
    MutexExcludes(c, h, x, g, 0, Busy(y));
  }

  lemma WLenAlone(c: Config, y: Worker, g: Seg, y': Worker, g': Seg)
    requires WLenMove(c, 0, y, g) == Some((y', g')) && AloneOk(c, y, g)
    ensures WBound(y'.pc) ==> AloneOk(c, y', g')
  {
  }

  lemma WDataAlone(c: Config, y: Worker, g: Seg, n: nat, y': Worker, g': Seg)
    requires WBound(y.pc) && !WLenPc(y.pc) && WDataMove(c, 0, y, g, n) == Some((y', g')) && AloneOk(c, y, g)
    ensures WBound(y'.pc) ==> AloneOk(c, y', g')
  {
  }

  lemma WSegLone(c: Config, s: State, n: nat, s': State)
    requires SharedLayout(c.layout) && LoneInv(c, s) && CacheTermination.Counters(c, s)
    requires WBound(s.ws[0].pc) && WNext(c, s, 0, n) == Some(s')
    ensures LoneInv(c, s')
  {
    var y', g' := CacheTermination.WSegOf(c, s, 0, n, s');
    var y, g := s.ws[0], s.segs[s.ws[0].gen];
    CacheService.WMoveShape(c, 0, y, g, n, y', g');
    if WLenPc(y.pc) {
      WLenAlone(c, y, g, y', g');
    } else {
      WDataAlone(c, y, g, n, y', g');
    }
    forall i | 0 <= i < |s'.hs|
      ensures LoneAt(c, s', i)
    {
      WSegLoneAt(c, s, n, s', y', g', i);
    }
    assert s'.ns == s.ns;
  }

  lemma WSegLoneAt(c: Config, s: State, n: nat, s': State, y': Worker, g': Seg, i: nat)
    requires SharedLayout(c.layout) && LoneInv(c, s) && WBound(s.ws[0].pc) && i < |s.hs|
    requires s'.ws == s.ws[0 := y'] && s'.segs == s.segs[s.ws[0].gen := g'] && CacheTermination.HandlersStay(s, s')
    requires Some((y', g')) == if WLenPc(s.ws[0].pc) then WLenMove(c, 0, s.ws[0], s.segs[s.ws[0].gen])
      else WDataMove(c, 0, s.ws[0], s.segs[s.ws[0].gen], n)
    requires y'.gen == s.ws[0].gen && (WBound(y'.pc) || y'.pc == WTake(Lock))
    ensures LoneAt(c, s', i)
  {
    assert LoneAt(c, s, i);
    var x, x', y := s.hs[i], s'.hs[i], s.ws[0];
    if HHasGen(x.pc) && x.gen == y.gen {
      if WLenPc(y.pc) {
        WLenLone(c, i, x, y, s.segs[y.gen], y', g');
      } else {
        WDataLone(c, i, x, y, s.segs[y.gen], n, y', g');
      }
      LocLone(c, i, x, x', g', OnSeg(s', x.gen));
    } else if HHasGen(x.pc) {
      LocLone(c, i, x, x', s.segs[x.gen], Over);
    }
  }

  lemma LocLone(c: Config, h: nat, x: Handler, x': Handler, g: Seg, v: View)
    requires LoneOk(c, h, x, g, v) && x' == x.(loc := x'.loc)
    ensures LoneOk(c, h, x', g, v)
  {
  }

  /** A worker that opens a segment holds nothing yet. */
  lemma OpensLone(c: Config, h: nat, x: Handler, g: Seg, y: Worker)
    requires LoneOk(c, h, x, g, Over) && y.pc.WZero?
    ensures LoneOk(c, h, x, g, Busy(y))
  {
  }

  lemma WTakeShape(c: Config, s: State, n: nat, s': State)
    requires |s.ws| == 1 && !WBound(s.ws[0].pc) && WNext(c, s, 0, n) == Some(s')
    ensures |s'.ws| == 1 && s'.segs == s.segs && s'.ns == s.ns && CacheTermination.HandlersStay(s, s')
    ensures WBound(s'.ws[0].pc) ==> s.ws[0].pc.WOpen? && s'.ws[0].pc.WZero? && s'.ws[0].len == s.ws[0].len
    ensures WBound(s'.ws[0].pc) ==> exists name :: name in s.ns && s'.ws[0].gen == s.ns[name]
  {
    if s.ws[0].pc.WOpen? {
      assert Deref(c, s, s.ws[0]).name in s.ns;
    }
  }

  lemma WTakeLone(c: Config, s: State, n: nat, s': State)
    requires LoneInv(c, s) && ShortFiles(c) && Requested(c, s) && CacheTermination.Counters(c, s')
    requires !WBound(s.ws[0].pc) && WNext(c, s, 0, n) == Some(s')
    ensures LoneInv(c, s')
  {
    WTakeShape(c, s, n, s');
    assert Looked(c, s.ws[0]) && CacheTermination.WCounts(c, s'.ws[0]);
    forall i | 0 <= i < |s'.hs|
      ensures LoneAt(c, s', i)
    {
      assert LoneAt(c, s, i);
      var x, x' := s.hs[i], s'.hs[i];
      if HHasGen(x.pc) {
        LocLone(c, i, x, x', s.segs[x.gen], Over);
        if OnSeg(s', x.gen).Busy? {
          OpensLone(c, i, x', s.segs[x.gen], s'.ws[0]);
        }
      }
    }
  }

  // ---------- every step ----------

  lemma ShortLone(c: Config, s: State, h: nat, s': State)
    requires LoneInv(c, s) && HShortNext(c, s, h) == Some(s')
    ensures LoneInv(c, s')
  {
    HAsideLone(c, s, h, s');
  }

  lemma ReceiverLone(c: Config, s: State, s': State)
    requires LoneInv(c, s) && RNext(s) == Some(s')
    ensures LoneInv(c, s')
  {
    CacheService.RShape(s, s');
    forall i | 0 <= i < |s'.hs|
      ensures LoneAt(c, s', i)
    {
      assert LoneAt(c, s, i);
      var x := s.hs[i];
      if HHasGen(x.pc) {
        LocLone(c, i, x, s'.hs[i], s.segs[x.gen], OnSeg(s, x.gen));
      }
    }
  }

  lemma FewerSleepers(c: Config, h: nat, x: Handler, g: Seg, g': Seg, v: View)
    requires LoneOk(c, h, x, g, v) && g' == g.(proxyWait := g'.proxyWait, cacheWait := {})
    requires g'.proxyWait <= g.proxyWait
    ensures LoneOk(c, h, x, g', v)
  {
  }

  lemma SpuriousLone(c: Config, s: State, t: Tid, s': State)
    requires LoneInv(c, s) && SpuriousNext(s, t) == Some(s')
    ensures LoneInv(c, s')
  {
    CacheService.SpuriousShape(s, t, s');
    forall i | 0 <= i < |s'.hs|
      ensures LoneAt(c, s', i)
    {
      assert LoneAt(c, s, i);
      var x := s.hs[i];
      if HHasGen(x.pc) {
        FewerSleepers(c, i, x, s.segs[x.gen], s'.segs[x.gen], OnSeg(s, x.gen));
      }
    }
  }

  lemma StepLone(c: Config, s: State, t: Step, s': State)
    requires SharedLayout(c.layout) && ShortFiles(c) && LoneInv(c, s) && Requested(c, s)
    requires CacheTermination.Counters(c, s) && CacheTermination.Counters(c, s') && Next(c, s, t) == Some(s')
    ensures LoneInv(c, s')
  {
    match t
    case HStep(h) => HandlerLone(c, s, h, s');
    case HShort(h) => ShortLone(c, s, h, s');
    case WStep(w, n) =>
      if WBound(s.ws[0].pc) {
        WSegLone(c, s, n, s');
      } else {
        WTakeLone(c, s, n, s');
      }
    case RStep => ReceiverLone(c, s, s');
    case Spurious(u) => SpuriousLone(c, s, u, s');
  }

  lemma {:induction false} ExecLone(c: Config, ts: seq<Step>, s: State)
    requires SharedLayout(c.layout) && c.nworkers == 1 && ShortFiles(c) && Exec(c, Init(c), ts) == Some(s)
    ensures LoneInv(c, s)
    decreases |ts|
  {
    if ts != [] {
      var front, t := ts[..|ts| - 1], ts[|ts| - 1];
      var m := Exec(c, Init(c), front).value;
      ExecLone(c, front, m);
      assert Reach(c, Init(c), m) && Reach(c, Init(c), s);
      ReachRequests(c, m);
      CacheTermination.ReachCounters(c, m);
      CacheTermination.ReachCounters(c, s);
      StepLone(c, m, t, s);
    }
  }

  lemma ReachLone(c: Config, s: State)
    requires SharedLayout(c.layout) && c.nworkers == 1 && ShortFiles(c) && Reach(c, Init(c), s)
    ensures LoneInv(c, s)
  {
    var ts :| Exec(c, Init(c), ts) == Some(s);
    ExecLone(c, ts, s);
  }

  // ---------- the length a lone worker finds ----------

  /** The worker is between its own reset of the length and its posting. */
  predicate BeforePost(pc: WPc) { pc.WLen? || pc.WLenPost? }

  ghost predicate ZeroInv(s: State) {
    |s.ws| == 1 && (BeforePost(s.ws[0].pc) && s.ws[0].gen < |s.segs| ==> s.segs[s.ws[0].gen].fileLength == 0)
  }

  /** Handlers only ever reset a length. */
  lemma HandlersReset(c: Config, s: State, h: nat, s': State)
    requires HNext(c, s, h) == Some(s')
    ensures s'.ws == s.ws && |s.segs| <= |s'.segs|
    ensures forall g :: 0 <= g < |s'.segs| ==>
      s'.segs[g].fileLength == 0 || (g < |s.segs| && s'.segs[g].fileLength == s.segs[g].fileLength)
  {
  }

  lemma WorkerZero(c: Config, s: State, n: nat, s': State)
    requires ZeroInv(s) && WNext(c, s, 0, n) == Some(s')
    ensures ZeroInv(s')
  {
  }

  lemma StepZero(c: Config, s: State, t: Step, s': State)
    requires ZeroInv(s) && Next(c, s, t) == Some(s')
    ensures ZeroInv(s')
  {
    match t
    case HStep(h) => HandlersReset(c, s, h, s');
    case HShort(h) =>
    case WStep(w, n) => WorkerZero(c, s, n, s');
    case RStep => CacheService.RShape(s, s');
    case Spurious(u) => CacheService.SpuriousShape(s, u, s');
  }

  lemma {:induction false} ExecZero(c: Config, ts: seq<Step>, s: State)
    requires c.nworkers == 1 && Exec(c, Init(c), ts) == Some(s)
    ensures ZeroInv(s)
    decreases |ts|
  {
    if ts != [] {
      var front, t := ts[..|ts| - 1], ts[|ts| - 1];
      ExecZero(c, front, Exec(c, Init(c), front).value);
      StepZero(c, Exec(c, Init(c), front).value, t, s);
    }
  }

  /** Whatever segment it opens, a lone worker posts into a length that is still 0. */
  lemma ReachZero(c: Config, s: State)
    requires c.nworkers == 1 && Reach(c, Init(c), s)
    ensures ZeroInv(s)
  {
    var ts :| Exec(c, Init(c), ts) == Some(s);
    ExecZero(c, ts, s);
  }
}
