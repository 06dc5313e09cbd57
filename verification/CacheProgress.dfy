/** Deadlock freedom: a state in which no thread can move has answered every request. */
module CacheProgress {
  import opened Wrappers
  import opened CacheModel
  import opened CachePair
  import opened CacheInvariant
  import opened CacheWake
  import opened CacheLive
  import CacheService

  /** No thread can take a step of its own. */
  ghost predicate Stuck(c: Config, s: State) {
    && (forall h :: 0 <= h < |s.hs| ==> HNext(c, s, h) == None)
    && (forall w: nat, x: nat :: w < |s.ws| ==> WNext(c, s, w, x) == None)
    && RNext(s) == None
  }

  ghost predicate AllDone(s: State) {
    forall h :: 0 <= h < |s.hs| ==> s.hs[h].pc.HDone?
  }

  /** No requested file is empty; a missing file is allowed. */
  predicate NoEmptyFile(c: Config) {
    forall i :: 0 <= i < |c.paths| ==> FileLen(c, c.paths[i]) != 0
  }

  /** A segment, a worker and room for a byte exist. */
  predicate Equipped(c: Config) {
    c.names != [] && c.nworkers > 0 && c.cap > 0
  }

  /** And `gfs_send` always takes the whole chunk, or there is none to send. */
  predicate CanServe(c: Config) {
    Equipped(c) && (!c.shortSends || NothingToSend(c))
  }

  // ---------- whoever holds a lock can move ----------

  lemma PoolHolderMoves(c: Config, s: State, h: nat)
    requires PoolInv(c, s) && h < |s.hs| && h < |c.paths| && Role(s.hs[h].pc) != Outside
    ensures HNext(c, s, h).Some?
  {
    assert s.hs[h].pc.HTakePop? ==> s.pool.free != [];
  }

  lemma DqHolderMoves(c: Config, s: State, w: nat)
    requires DqInv(s) && w < |s.ws| && WInDq(s.ws[w].pc)
    ensures WNext(c, s, w, 0).Some?
  {
    assert s.ws[w].pc.WTakePop? ==> s.dq.queue != [];
  }

  lemma HMutexHolderMoves(c: Config, path: string, h: nat, x: Handler, g: Seg, v: View)
    requires CountsOk(c, path, x, g, v) && (HInLen(x.pc) || HInData(x.pc)) && !x.pc.HAbandoned?
    ensures if HLenPc(x.pc) then HLenMove(c, h, x, g).Some? else HDataPc(x.pc) && HDataMove(c, h, x, g).Some?
  {
  }

  lemma WMutexHolderMoves(c: Config, path: string, h: nat, x: Handler, g: Seg, w: nat, y: Worker) returns (n: nat)
    requires CountsOk(c, path, x, g, Busy(y)) && (WInLen(y.pc) || WInData(y.pc)) && c.cap > 0
    requires g.proxyWait <= {h}
    ensures if WLenPc(y.pc) then WLenMove(c, w, y, g).Some? else WBound(y.pc) && WDataMove(c, w, y, g, n).Some?
  {
    n := if y.pc.WPread? then 1 else h;
    if g.proxyWait != {} {
      assert g.proxyWait == {h};
    }
  }

  lemma WNoHolder(c: Config, path: string, h: nat, x: Handler, g: Seg, w: nat, y: Worker)
    requires CountsOk(c, path, x, g, Busy(y)) && c.cap > 0 && g.proxyWait <= {h}
    requires if WLenPc(y.pc) then WLenMove(c, w, y, g) == None else forall n: nat :: WDataMove(c, w, y, g, n) == None
    ensures !WInLen(y.pc) && !WInData(y.pc)
  {
    if WInLen(y.pc) || WInData(y.pc) {
      var n := WMutexHolderMoves(c, path, h, x, g, w, y);
      assert false;
    }
  }

  lemma NoPoolLock(c: Config, s: State)
    requires PoolInv(c, s) && PairInv(c, s) && Stuck(c, s)
    ensures s.pool.lock == None
  {
    if s.pool.lock.Some? {
      PoolHolderMoves(c, s, s.pool.lock.value.h);
      assert false;
    }
  }

  lemma NoDqLock(c: Config, s: State)
    requires DqInv(s) && Stuck(c, s)
    ensures s.dq.lock == None
  {
    if s.dq.lock.Some? {
      match s.dq.lock.value
      case W(w) =>
        DqHolderMoves(c, s, w);
        assert false;
      case R =>
        assert false;
    }
  }

  lemma NoMutex(c: Config, s: State, h: nat, first: bool)
    requires PairInv(c, s) && HeldInv(c, s) && PairsLive(c, s) && NoShort(c, s) && Stuck(c, s) && CanServe(c)
    requires h < |s.hs| && HHasGen(s.hs[h].pc)
    ensures s.hs[h].gen < |s.segs| && Mutex(s.segs[s.hs[h].gen], first) == None
  {
    assert PairAt(c, s, h) && LiveAt(c, s, h);
    var x, g := s.hs[h], s.segs[s.hs[h].gen];
    var v := ViewOf(s, x);
    assert MutexOk(c, h, x, g, WorkerOf(x), v, first);
    if Mutex(g, first) == Some(H(h)) {
      assert HNext(c, s, h) == None;
      HMutexHolderMoves(c, c.paths[h], h, x, g, v);
      assert false;
    } else if Mutex(g, first).Some? {
      var w := WorkerOf(x);
      assert WNext(c, s, w, 0) == None;
      forall n: nat
        ensures !WLenPc(v.y.pc) ==> WDataMove(c, w, v.y, g, n) == None
      {
        assert WNext(c, s, w, n) == None;
      }
      WNoHolder(c, c.paths[h], h, x, g, w, v.y);
    }
  }

  // ---------- where a thread can be stuck ----------

  lemma HandlerStuck(c: Config, s: State, h: nat)
    requires Inv(c, s) && LiveInv(c, s) && Stuck(c, s) && CanServe(c) && h < |s.hs|
    ensures var x := s.hs[h];
      || x.pc.HDone?
      || (x.pc == HTake(Sleep) && h in s.pool.readers)
      || (x.pc.HSend? && |s.mq| >= MQ_MAXMSG)
      || ((x.pc == HLen(Sleep) || x.pc == HData(Sleep)) && x.gen < |s.segs| && h in s.segs[x.gen].proxyWait)
  {
    NoPoolLock(c, s);
    assert PairAt(c, s, h);
    if HHasGen(s.hs[h].pc) {
      NoMutex(c, s, h, true);
      NoMutex(c, s, h, false);
      HSegStuck(c, s, h);
    } else {
      HPoolStuck(c, s, h);
    }
  }

  lemma HPoolStuck(c: Config, s: State, h: nat)
    requires PoolInv(c, s) && NameInv(s) && h < |s.hs| && h < |c.paths| && !HHasGen(s.hs[h].pc)
    requires s.pool.lock == None && HNext(c, s, h) == None
    ensures s.hs[h].pc == HTake(Sleep) && h in s.pool.readers
  {
  }

  lemma HLenStuck(c: Config, h: nat, x: Handler, g: Seg)
    requires HLenPc(x.pc) && HLenMove(c, h, x, g) == None && g.m0 == None && g.m1 == None
    ensures x.pc == HLen(Sleep) && h in g.proxyWait
  {
  }

  lemma HDataStuck(c: Config, path: string, h: nat, x: Handler, g: Seg, v: View)
    requires HDataPc(x.pc) && HDataMove(c, h, x, g) == None && g.m0 == None && g.m1 == None
    requires CountsOk(c, path, x, g, v)
    ensures x.pc == HData(Sleep) && h in g.proxyWait
  {
    if x.pc.HDataSend? {
      HMutexHolderMoves(c, path, h, x, g, v);
    }
  }

  lemma HEndStuck(c: Config, h: nat, x: Handler, p: Pool)
    requires HHasGen(x.pc) && !HNamePc(x.pc) && !HLenPc(x.pc) && !HDataPc(x.pc) && !x.pc.HAbandoned?
    requires x.pc != HGive(Wait) && x.pc != HGive(Sleep)
    requires HGiveMove(c, h, x, p) == None && p.lock == None
    ensures x.pc.HDone?
  {
  }

  lemma HSegStuck(c: Config, s: State, h: nat)
    requires PoolCounted(s) && NoShort(c, s) && CanServe(c)
    requires h < |s.hs| && h < |c.paths| && HHasGen(s.hs[h].pc) && PairAt(c, s, h)
    requires s.pool.lock == None && HNext(c, s, h) == None
    requires Mutex(s.segs[s.hs[h].gen], true) == None && Mutex(s.segs[s.hs[h].gen], false) == None
    ensures var x := s.hs[h];
      || x.pc.HDone?
      || (x.pc.HSend? && |s.mq| >= MQ_MAXMSG)
      || ((x.pc == HLen(Sleep) || x.pc == HData(Sleep)) && h in s.segs[x.gen].proxyWait)
  {
    var x := s.hs[h];
    if HLenPc(x.pc) {
      HLenStuck(c, h, x, s.segs[x.gen]);
    } else if HDataPc(x.pc) {
      HDataStuck(c, c.paths[h], h, x, s.segs[x.gen], ViewOf(s, x));
    } else if !HNamePc(x.pc) {
      HEndStuck(c, h, x, s.pool);
    }
  }

  lemma WorkerStuck(c: Config, s: State, w: nat)
    requires Inv(c, s) && LiveInv(c, s) && Stuck(c, s) && CanServe(c) && w < |s.ws|
    ensures var y := s.ws[w];
      || (y.pc == WTake(Sleep) && w in s.dq.idle)
      || (y.pc == WData(Sleep) && y.gen < |s.segs| && w in s.segs[y.gen].cacheWait)
  {
    NoDqLock(c, s);
    var y := s.ws[w];
    assert WNext(c, s, w, 0) == None;
    if WBusy(y.pc) {
      CacheService.OwnerOf(c, s, w);
      var h := y.msg.owner;
      NoMutex(c, s, h, true);
      NoMutex(c, s, h, false);
      assert LiveAt(c, s, h);
      WBusyStuck(c, s, w, h);
    }
  }

  lemma WLenStuck(c: Config, path: string, h: nat, x: Handler, g: Seg, w: nat, y: Worker)
    requires WLenPc(y.pc) && CountsOk(c, path, x, g, Busy(y)) && g.m0 == None && g.m1 == None
    ensures WLenMove(c, w, y, g).Some?
  {
  }

  lemma WDataStuck(c: Config, path: string, h: nat, x: Handler, g: Seg, w: nat, y: Worker)
    requires WBound(y.pc) && !WLenPc(y.pc) && CountsOk(c, path, x, g, Busy(y)) && g.m0 == None && g.m1 == None
    requires c.cap > 0 && g.proxyWait <= {h}
    requires forall n: nat :: WDataMove(c, w, y, g, n) == None
    ensures y.pc == WData(Sleep) && w in g.cacheWait
  {
    assert WDataMove(c, w, y, g, 0) == None;
    if WInData(y.pc) {
      var n := WMutexHolderMoves(c, path, h, x, g, w, y);
      assert false;
    }
  }

  lemma WFindStuck(c: Config, s: State, w: nat)
    requires NameInv(s) && HeldInv(c, s) && PairInv(c, s) && SlotInv(c, s)
    requires w < |s.ws| && WFindPc(s.ws[w].pc)
    ensures WNext(c, s, w, 0).Some?
  {
    CacheService.OwnerOf(c, s, w);
    CacheService.DerefIsMessage(c, s, w);
    assert MsgOk(c, s, s.ws[w].msg, AtWorker(w));
    assert s.ws[w].pc.WOpen? ==> HLive(s.hs[s.ws[w].msg.owner].pc);
  }

  lemma WBusyStuck(c: Config, s: State, w: nat, h: nat)
    requires NameInv(s) && HeldInv(c, s) && PairInv(c, s) && SlotInv(c, s) && CanServe(c)
    requires w < |s.ws| && WBusy(s.ws[w].pc) && h == s.ws[w].msg.owner && h < |s.hs| && s.hs[h].gen < |s.segs|
    requires forall n: nat :: WNext(c, s, w, n) == None
    requires PairOk(c, c.paths[h], s.hs[h], s.segs[s.hs[h].gen], Busy(s.ws[w]))
    requires s.dq.lock == None && s.segs[s.hs[h].gen].m0 == None && s.segs[s.hs[h].gen].m1 == None
    requires s.segs[s.hs[h].gen].proxyWait <= {h}
    ensures s.ws[w].pc == WData(Sleep) && s.ws[w].gen < |s.segs| && w in s.segs[s.ws[w].gen].cacheWait
  {
    var y, x := s.ws[w], s.hs[h];
    var g := s.segs[x.gen];
    assert WNext(c, s, w, 0) == None;
    if WFindPc(y.pc) {
      WFindStuck(c, s, w);
    } else if WBound(y.pc) {
      if WLenPc(y.pc) {
        WLenStuck(c, c.paths[h], h, x, g, w, y);
      } else {
        forall n: nat
          ensures WDataMove(c, w, y, g, n) == None
        {
          assert WNext(c, s, w, n) == None;
        }
        WDataStuck(c, c.paths[h], h, x, g, w, y);
      }
    }
  }

  // ---------- the whole system ----------

  /** A worker asleep on a full slot and its handler asleep on an empty one contradict each other. */
  lemma SlotConflict(c: Config, path: string, h: nat, x: Handler, g: Seg, w: nat, y: Worker)
    requires CountsOk(c, path, x, g, Busy(y)) && WakeOk(h, x, g, w, Busy(y)) && HHasGen(x.pc)
    requires x.pc.HDone? || x.pc.HSend? || ((x.pc == HLen(Sleep) || x.pc == HData(Sleep)) && h in g.proxyWait)
    ensures !(y.pc == WData(Sleep) && w in g.cacheWait)
  {
  }

  /** The handler of a worker that cannot move cannot move either. */
  lemma OwnerStuck(c: Config, s: State, w: nat)
    requires Inv(c, s) && LiveInv(c, s) && SharedLayout(c.layout) && Stuck(c, s) && CanServe(c)
    requires w < |s.ws| && WBusy(s.ws[w].pc) && WBound(s.ws[w].pc)
    ensures s.ws[w].gen < |s.segs| && !(s.ws[w].pc == WData(Sleep) && w in s.segs[s.ws[w].gen].cacheWait)
  {
    var h := s.ws[w].msg.owner;
    CacheService.OwnerOf(c, s, w);
    HandlerStuck(c, s, h);
    OwnerLive(c, s, w, h);
    SlotConflict(c, c.paths[h], h, s.hs[h], s.segs[s.hs[h].gen], w, s.ws[w]);
  }

  /** No worker sleeps on a full slot: its handler would have emptied it. */
  lemma NoWorkerOnSlot(c: Config, s: State, w: nat)
    requires Inv(c, s) && LiveInv(c, s) && SharedLayout(c.layout) && Stuck(c, s) && CanServe(c) && w < |s.ws|
    ensures s.ws[w].pc == WTake(Sleep) && w in s.dq.idle
  {
    WorkerStuck(c, s, w);
    if s.ws[w].pc.WData? {
      OwnerStuck(c, s, w);
    }
  }

  lemma OwnerLive(c: Config, s: State, w: nat, h: nat)
    requires PairsLive(c, s) && SharedLayout(c.layout) && w < |s.ws| && h < |s.hs|
    requires s.hs[h].loc == AtWorker(w) && HHasGen(s.hs[h].pc)
    ensures s.hs[h].gen < |s.segs| && WakeOk(h, s.hs[h], s.segs[s.hs[h].gen], w, Busy(s.ws[w]))
  {
    assert LiveAt(c, s, h);
  }

  /** With all workers idle the daemon has nothing left to do. */
  lemma DaemonEmpty(c: Config, s: State)
    requires Inv(c, s) && LiveInv(c, s) && SharedLayout(c.layout) && Stuck(c, s) && CanServe(c)
    ensures s.mq == [] && s.dq.queue == [] && s.recv.pc.RReceive?
  {
    NoDqLock(c, s);
    forall w | 0 <= w < |s.ws|
      ensures s.ws[w].pc == WTake(Sleep) && w in s.dq.idle
    {
      NoWorkerOnSlot(c, s, w);
    }
    assert 0 in s.dq.idle;
    assert s.dq.size == 0;
  }

  /** A handler whose request nobody holds any more does not sleep on its segment. */
  lemma NoHandlerOnSegment(c: Config, s: State, h: nat)
    requires Inv(c, s) && LiveInv(c, s) && SharedLayout(c.layout) && Stuck(c, s) && CanServe(c) && NoEmptyFile(c)
    requires h < |s.hs|
    ensures s.hs[h].pc.HDone? || (s.hs[h].pc == HTake(Sleep) && h in s.pool.readers)
  {
    HandlerStuck(c, s, h);
    DaemonEmpty(c, s);
    if HHasGen(s.hs[h].pc) {
      NobodyServes(c, s, h);
      LeftAlone(c, s, h);
    }
  }

  lemma NobodyServes(c: Config, s: State, h: nat)
    requires Inv(c, s) && LiveInv(c, s) && SharedLayout(c.layout) && Stuck(c, s) && CanServe(c)
    requires s.mq == [] && s.dq.queue == [] && s.recv.pc.RReceive? && h < |s.hs|
    ensures s.hs[h].loc == NotSent || s.hs[h].loc == Served
  {
    if s.hs[h].loc.AtWorker? {
      NoWorkerOnSlot(c, s, s.hs[h].loc.w);
      assert false;
    }
  }

  lemma LeftAlone(c: Config, s: State, h: nat)
    requires PairInv(c, s) && PairsLive(c, s) && SharedLayout(c.layout) && NoEmptyFile(c)
    requires h < |s.hs| && HHasGen(s.hs[h].pc) && (s.hs[h].loc == NotSent || s.hs[h].loc == Served)
    requires var x := s.hs[h];
      || x.pc.HDone? || x.pc.HSend?
      || ((x.pc == HLen(Sleep) || x.pc == HData(Sleep)) && x.gen < |s.segs| && h in s.segs[x.gen].proxyWait)
    ensures s.hs[h].pc.HDone? || s.hs[h].pc.HSend?
  {
    assert PairAt(c, s, h) && LiveAt(c, s, h);
    var x := s.hs[h];
    ServedConflict(c, c.paths[h], h, x, s.segs[x.gen], WorkerOf(x), ViewOf(s, x));
  }

  lemma ServedConflict(c: Config, path: string, h: nat, x: Handler, g: Seg, w: nat, v: View)
    requires CountsOk(c, path, x, g, v) && WakeOk(h, x, g, w, v) && !v.Busy? && FileLen(c, path) != 0
    requires x.pc == HLen(Sleep) || x.pc == HData(Sleep) ==> v.Over? && h in g.proxyWait
    ensures x.pc != HLen(Sleep) && x.pc != HData(Sleep)
  {
  }

  /** In a stuck state every request has been answered. */
  lemma StuckIsDone(c: Config, s: State)
    requires Inv(c, s) && LiveInv(c, s) && SharedLayout(c.layout) && Stuck(c, s) && CanServe(c) && NoEmptyFile(c)
    ensures AllDone(s)
  {
    forall h | 0 <= h < |s.hs|
      ensures s.hs[h].pc.HDone? || (s.hs[h].pc == HTake(Sleep) && h in s.pool.readers)
    {
      NoHandlerOnSegment(c, s, h);
    }
    NoPoolLock(c, s);
    NobodyWaits(c, s);
  }

  /** Not all segments can be gone while everybody else has finished. */
  lemma NobodyWaits(c: Config, s: State)
    requires PoolInv(c, s) && PoolWake(s) && s.pool.lock == None && c.names != []
    requires forall h :: 0 <= h < |s.hs| ==> s.hs[h].pc.HDone? || (s.hs[h].pc == HTake(Sleep) && h in s.pool.readers)
    ensures AllDone(s)
  {
    if !AllDone(s) {
      PoolHasUser(c, s);
      assert false;
    }
  }

  /** While handlers wait for a segment, somebody has one or is about to wake them. */
  lemma PoolHasUser(c: Config, s: State)
    requires PoolInv(c, s) && PoolWake(s) && s.pool.lock == None && s.pool.readers != {} && c.names != []
    ensures exists h :: 0 <= h < |s.hs| && (HOwns(s.hs[h].pc) || PoolWaker(s.hs[h].pc))
  {
    if s.pool.size == 0 {
      assert s.pool.free == [] && c.names[0] in c.names;
    }
  }
}
