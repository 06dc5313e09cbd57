/**
 Mutexes, wait sets and wake-ups between one handler, its segment and its worker.

 The mutex facts hold for any struct layout.  The wake-up facts need the two programs to agree on
 which mutex is which; `CacheLimits` shows exactly when they fail otherwise.
 */
module CacheWake {
  import opened Wrappers
  import opened CacheModel
  import opened CachePair

  predicate HInLen(pc: HPc) { pc == HLen(Check) || pc == HLen(Wait) || pc.HLenRead? || pc.HLenUnlock? }

  predicate HInData(pc: HPc) {
    || pc == HData(Check) || pc == HData(Wait) || pc.HDataRead? || pc.HDataSend? || pc.HDataClear?
    || pc.HDataUnlock? || pc.HAbandoned?
  }

  predicate WInLen(pc: WPc) {
    pc == WLen(Check) || pc == WLen(Wait) || pc.WLenPost? || pc.WLenReset? || pc.WLenUnlock?
  }

  predicate WInData(pc: WPc) {
    pc == WData(Check) || pc == WData(Wait) || WFilling(pc) || WPublished(pc)
  }

  /** The handler holds the first (second) mutex of its segment. */
  predicate HHolds(c: Config, pc: HPc, first: bool) {
    if first == c.layout.proxyDataFirst then HInData(pc) else HInLen(pc)
  }

  predicate WHolds(c: Config, v: View, first: bool) {
    v.Busy? && if first == c.layout.cacheDataFirst then WInData(v.y.pc) else WInLen(v.y.pc)
  }

  /** Each mutex is held by exactly the thread whose program counter says so. */
  ghost predicate MutexOk(c: Config, h: nat, x: Handler, g: Seg, w: nat, v: View, first: bool) {
    var o := Mutex(g, first);
    && (o.None? || o == Some(H(h)) || o == Some(W(w)))
    && (o == Some(H(h)) <==> HHolds(c, x.pc, first))
    && (o == Some(W(w)) <==> WHolds(c, v, first))
  }

  /** Only the handler waits on `proxy_cond`, only the worker on `cache_cond`, each where it says. */
  ghost predicate SetsOk(h: nat, x: Handler, g: Seg, w: nat, v: View) {
    && g.proxyWait <= {h} && g.cacheWait <= {w}
    && (h in g.proxyWait ==> x.pc == HLen(Sleep) || x.pc == HData(Sleep))
    && (w in g.cacheWait ==> v.Busy? && v.y.pc == WData(Sleep))
  }

  /** A thread that has decided to wait was right, and stays right until it sleeps. */
  ghost predicate WaitsOk(x: Handler, g: Seg, v: View) {
    && (x.pc == HLen(Wait) ==> g.fileLength == 0)
    && (x.pc == HData(Wait) ==> g.bytesWritten == 0)
    && (v.Busy? && v.y.pc == WData(Wait) ==> g.bytesWritten != 0)
  }

  /** A sleeper whose condition has been met has a waker on its way. */
  ghost predicate WakersOk(h: nat, x: Handler, g: Seg, w: nat, v: View) {
    && (x.pc == HLen(Sleep) && h in g.proxyWait && g.fileLength != 0 ==>
      v.Busy? && (v.y.pc.WLenReset? || v.y.pc.WLenUnlock? || v.y.pc.WLenBcast?))
    && (x.pc == HData(Sleep) && h in g.proxyWait && g.bytesWritten != 0 ==> v.Busy? && v.y.pc.WSignal?)
    && (v.Busy? && v.y.pc == WData(Sleep) && w in g.cacheWait && g.bytesWritten == 0 ==>
      x.pc.HDataUnlock? || x.pc.HDataBcast?)
  }

  /** Once the handler knows the length the worker has left the length section for good, and once it
      has taken the last byte the worker is done with the slot. */
  ghost predicate PastOk(x: Handler, v: View) {
    && (HKnows(x.pc) || x.pc.HLenRead? ==> !(v.Busy? && WInLen(v.y.pc)))
    && (HSending(x.pc) && Consumed(x) == x.len ==> v.Over? || (v.Busy? && v.y.pc.WLoop?))
    && (!HOpen(x.pc) && x.len > 0 ==> v.Over? || (v.Busy? && v.y.pc.WLoop?))
  }

  ghost predicate LockOk(c: Config, h: nat, x: Handler, g: Seg, w: nat, v: View) {
    MutexOk(c, h, x, g, w, v, true) && MutexOk(c, h, x, g, w, v, false) && SetsOk(h, x, g, w, v)
  }

  ghost predicate WakeOk(h: nat, x: Handler, g: Seg, w: nat, v: View) {
    WaitsOk(x, g, v) && WakersOk(h, x, g, w, v) && PastOk(x, v)
  }

  // ---------- handler steps ----------

  lemma HLenMonLocks(c: Config, h: nat, x: Handler, g: Seg, w: nat, v: View, x': Handler, g': Seg)
    requires x.pc.HLen?
    requires HLenMove(c, h, x, g) == Some((x', g')) && LockOk(c, h, x, g, w, v)
    ensures LockOk(c, h, x', g', w, v)
  {
  }

  lemma HLenRestLocks(c: Config, h: nat, x: Handler, g: Seg, w: nat, v: View, x': Handler, g': Seg)
    requires !x.pc.HLen?
    requires HLenMove(c, h, x, g) == Some((x', g')) && LockOk(c, h, x, g, w, v)
    ensures LockOk(c, h, x', g', w, v)
  {
  }

  lemma HLenLocks(c: Config, h: nat, x: Handler, g: Seg, w: nat, v: View, x': Handler, g': Seg)
    requires HLenMove(c, h, x, g) == Some((x', g')) && LockOk(c, h, x, g, w, v)
    ensures LockOk(c, h, x', g', w, v)
  {
    if x.pc.HLen? {
      HLenMonLocks(c, h, x, g, w, v, x', g');
    } else {
      HLenRestLocks(c, h, x, g, w, v, x', g');
    }
  }

  lemma HDataMonLocks(c: Config, h: nat, x: Handler, g: Seg, w: nat, v: View, x': Handler, g': Seg)
    requires x.pc.HData?
    requires HDataMove(c, h, x, g) == Some((x', g')) && LockOk(c, h, x, g, w, v)
    ensures LockOk(c, h, x', g', w, v)
  {
  }

  lemma HDataRestLocks(c: Config, h: nat, x: Handler, g: Seg, w: nat, v: View, x': Handler, g': Seg)
    requires !x.pc.HData?
    requires HDataMove(c, h, x, g) == Some((x', g')) && LockOk(c, h, x, g, w, v)
    ensures LockOk(c, h, x', g', w, v)
  {
  }

  lemma HDataLocks(c: Config, h: nat, x: Handler, g: Seg, w: nat, v: View, x': Handler, g': Seg)
    requires HDataMove(c, h, x, g) == Some((x', g')) && LockOk(c, h, x, g, w, v)
    ensures LockOk(c, h, x', g', w, v)
  {
    if x.pc.HData? {
      HDataMonLocks(c, h, x, g, w, v, x', g');
    } else {
      HDataRestLocks(c, h, x, g, w, v, x', g');
    }
  }

  lemma WLenLocks(c: Config, h: nat, x: Handler, g: Seg, w: nat, y: Worker, y': Worker, g': Seg)
    requires WLenMove(c, w, y, g) == Some((y', g')) && LockOk(c, h, x, g, w, Busy(y))
    requires y.pc != WLen(Wait) && y.pc != WLen(Sleep)
    ensures LockOk(c, h, x, g', w, if y'.pc.WTake? then Over else Busy(y'))
  {
  }

  lemma WDataMonLocks(c: Config, h: nat, x: Handler, g: Seg, w: nat, y: Worker, n: nat, y': Worker, g': Seg)
    requires y.pc.WData?
    requires WDataMove(c, w, y, g, n) == Some((y', g')) && LockOk(c, h, x, g, w, Busy(y))
    ensures LockOk(c, h, x, g', w, if y'.pc.WTake? then Over else Busy(y'))
  {
  }

  lemma WDataRestLocks(c: Config, h: nat, x: Handler, g: Seg, w: nat, y: Worker, n: nat, y': Worker, g': Seg)
    requires !y.pc.WData?
    requires WDataMove(c, w, y, g, n) == Some((y', g')) && LockOk(c, h, x, g, w, Busy(y))
    ensures LockOk(c, h, x, g', w, if y'.pc.WTake? then Over else Busy(y'))
  {
  }

  lemma WDataLocks(c: Config, h: nat, x: Handler, g: Seg, w: nat, y: Worker, n: nat, y': Worker, g': Seg)
    requires WDataMove(c, w, y, g, n) == Some((y', g')) && LockOk(c, h, x, g, w, Busy(y))
    ensures LockOk(c, h, x, g', w, if y'.pc.WTake? then Over else Busy(y'))
  {
    if y.pc.WData? {
      WDataMonLocks(c, h, x, g, w, y, n, y', g');
    } else {
      WDataRestLocks(c, h, x, g, w, y, n, y', g');
    }
  }

  // ---------- wake-ups ----------

  /** With one layout the two sides exclude each other in both sections. */
  lemma MutexExcludes(c: Config, h: nat, x: Handler, g: Seg, w: nat, v: View)
    requires SharedLayout(c.layout) && LockOk(c, h, x, g, w, v)
    ensures !(HInLen(x.pc) && v.Busy? && WInLen(v.y.pc))
    ensures !(HInData(x.pc) && v.Busy? && WInData(v.y.pc))
  {
    assert HInLen(x.pc) ==> HHolds(c, x.pc, !c.layout.proxyDataFirst);
    assert HInData(x.pc) ==> HHolds(c, x.pc, c.layout.proxyDataFirst);
  }

  lemma HLenMonWakes(c: Config, path: string, h: nat, x: Handler, g: Seg, w: nat, v: View, x': Handler, g': Seg)
    requires x.pc.HLen?
    requires SharedLayout(c.layout) && HLenMove(c, h, x, g) == Some((x', g'))
    requires CountsOk(c, path, x, g, v) && LockOk(c, h, x, g, w, v) && WakeOk(h, x, g, w, v)
    ensures WakeOk(h, x', g', w, v)
  {
    MutexExcludes(c, h, x, g, w, v);
  }

  lemma HLenRestWakes(c: Config, path: string, h: nat, x: Handler, g: Seg, w: nat, v: View, x': Handler, g': Seg)
    requires !x.pc.HLen?
    requires SharedLayout(c.layout) && HLenMove(c, h, x, g) == Some((x', g'))
    requires CountsOk(c, path, x, g, v) && LockOk(c, h, x, g, w, v) && WakeOk(h, x, g, w, v)
    ensures WakeOk(h, x', g', w, v)
  {
    MutexExcludes(c, h, x, g, w, v);
  }

  lemma HLenWakes(c: Config, path: string, h: nat, x: Handler, g: Seg, w: nat, v: View, x': Handler, g': Seg)
    requires SharedLayout(c.layout) && HLenMove(c, h, x, g) == Some((x', g'))
    requires CountsOk(c, path, x, g, v) && LockOk(c, h, x, g, w, v) && WakeOk(h, x, g, w, v)
    ensures WakeOk(h, x', g', w, v)
  {
    if x.pc.HLen? {
      HLenMonWakes(c, path, h, x, g, w, v, x', g');
    } else {
      HLenRestWakes(c, path, h, x, g, w, v, x', g');
    }
  }

  lemma HDataMonWakes(c: Config, path: string, h: nat, x: Handler, g: Seg, w: nat, v: View, x': Handler, g': Seg)
    requires x.pc.HData?
    requires SharedLayout(c.layout) && HDataMove(c, h, x, g) == Some((x', g'))
    requires CountsOk(c, path, x, g, v) && LockOk(c, h, x, g, w, v) && WakeOk(h, x, g, w, v)
    ensures WakeOk(h, x', g', w, v)
  {
    MutexExcludes(c, h, x, g, w, v);
  }

  lemma HDataRestWakes(c: Config, path: string, h: nat, x: Handler, g: Seg, w: nat, v: View, x': Handler, g': Seg)
    requires !x.pc.HData?
    requires SharedLayout(c.layout) && HDataMove(c, h, x, g) == Some((x', g'))
    requires CountsOk(c, path, x, g, v) && LockOk(c, h, x, g, w, v) && WakeOk(h, x, g, w, v)
    ensures WakeOk(h, x', g', w, v)
  {
    MutexExcludes(c, h, x, g, w, v);
  }

  lemma HDataWakes(c: Config, path: string, h: nat, x: Handler, g: Seg, w: nat, v: View, x': Handler, g': Seg)
    requires SharedLayout(c.layout) && HDataMove(c, h, x, g) == Some((x', g'))
    requires CountsOk(c, path, x, g, v) && LockOk(c, h, x, g, w, v) && WakeOk(h, x, g, w, v)
    ensures WakeOk(h, x', g', w, v)
  {
    if x.pc.HData? {
      HDataMonWakes(c, path, h, x, g, w, v, x', g');
    } else {
      HDataRestWakes(c, path, h, x, g, w, v, x', g');
    }
  }

  lemma WLenWakes(c: Config, path: string, h: nat, x: Handler, g: Seg, w: nat, y: Worker, y': Worker, g': Seg)
    requires SharedLayout(c.layout) && WLenMove(c, w, y, g) == Some((y', g'))
    requires CountsOk(c, path, x, g, Busy(y)) && LockOk(c, h, x, g, w, Busy(y)) && WakeOk(h, x, g, w, Busy(y))
    ensures WakeOk(h, x, g', w, if y'.pc.WTake? then Over else Busy(y'))
  {
    MutexExcludes(c, h, x, g, w, Busy(y));
  }

  lemma WDataMonWakes(c: Config, path: string, h: nat, x: Handler, g: Seg, w: nat, y: Worker, n: nat,
      y': Worker, g': Seg)
    requires y.pc.WData?
    requires SharedLayout(c.layout) && WDataMove(c, w, y, g, n) == Some((y', g'))
    requires CountsOk(c, path, x, g, Busy(y)) && LockOk(c, h, x, g, w, Busy(y)) && WakeOk(h, x, g, w, Busy(y))
    ensures WakeOk(h, x, g', w, if y'.pc.WTake? then Over else Busy(y'))
  {
    MutexExcludes(c, h, x, g, w, Busy(y));
  }

  lemma WDataRestWakes(c: Config, path: string, h: nat, x: Handler, g: Seg, w: nat, y: Worker, n: nat,
      y': Worker, g': Seg)
    requires !y.pc.WData?
    requires SharedLayout(c.layout) && WDataMove(c, w, y, g, n) == Some((y', g'))
    requires CountsOk(c, path, x, g, Busy(y)) && LockOk(c, h, x, g, w, Busy(y)) && WakeOk(h, x, g, w, Busy(y))
    ensures WakeOk(h, x, g', w, if y'.pc.WTake? then Over else Busy(y'))
  {
    MutexExcludes(c, h, x, g, w, Busy(y));
  }

  lemma WDataWakes(c: Config, path: string, h: nat, x: Handler, g: Seg, w: nat, y: Worker, n: nat, y': Worker, g': Seg)
    requires SharedLayout(c.layout) && WDataMove(c, w, y, g, n) == Some((y', g'))
    requires CountsOk(c, path, x, g, Busy(y)) && LockOk(c, h, x, g, w, Busy(y)) && WakeOk(h, x, g, w, Busy(y))
    ensures WakeOk(h, x, g', w, if y'.pc.WTake? then Over else Busy(y'))
  {
    if y.pc.WData? {
      WDataMonWakes(c, path, h, x, g, w, y, n, y', g');
    } else {
      WDataRestWakes(c, path, h, x, g, w, y, n, y', g');
    }
  }
}
