/** Mutexes, wait sets and wake-ups of the whole system, kept by every step. */
module CacheLive {
  import opened Wrappers
  import opened CacheModel
  import opened CachePair
  import opened CacheInvariant
  import opened CacheWake
  import CacheSafety
  import CacheService

  /** The worker that serves a request (any number if none does). */
  function WorkerOf(x: Handler): nat {
    if x.loc.AtWorker? then x.loc.w else 0
  }

  ghost predicate LocalOk(c: Config, h: nat, x: Handler, g: Seg, w: nat, v: View) {
    LockOk(c, h, x, g, w, v) && (SharedLayout(c.layout) ==> WakeOk(h, x, g, w, v))
  }

  ghost predicate LiveAt(c: Config, s: State, h: nat)
    requires h < |s.hs|
  {
    var x := s.hs[h];
    HHasGen(x.pc) ==> x.gen < |s.segs| && LocalOk(c, h, x, s.segs[x.gen], WorkerOf(x), ViewOf(s, x))
  }

  ghost predicate PairsLive(c: Config, s: State) {
    forall h :: 0 <= h < |s.hs| ==> LiveAt(c, s, h)
  }

  predicate PoolWaker(pc: HPc) { pc.HGiveUnlock? || pc.HGiveBcast? }

  /** Handlers asleep on the empty pool: still empty, or a broadcast is due. */
  ghost predicate PoolWake(s: State) {
    && (forall h :: h in s.pool.readers ==> h < |s.hs| && s.hs[h].pc == HTake(Sleep))
    && (forall h :: 0 <= h < |s.hs| && s.hs[h].pc == HTake(Wait) ==> s.pool.size == 0)
    && (s.pool.readers != {} && s.pool.size != 0 ==> exists h :: 0 <= h < |s.hs| && PoolWaker(s.hs[h].pc))
  }

  predicate DqSignaller(pc: WPc) { pc.WTakeUnlock? || pc.WTakeSignal? }

  /** Workers asleep on the empty queue, the receiver asleep on the full one. */
  ghost predicate DqWake(s: State) {
    && (forall w :: w in s.dq.idle ==> w < |s.ws| && s.ws[w].pc == WTake(Sleep))
    && (forall w :: 0 <= w < |s.ws| && s.ws[w].pc == WTake(Wait) ==> s.dq.size == 0)
    && (s.dq.idle != {} && s.dq.size != 0 ==> s.recv.pc.RPutUnlock? || s.recv.pc.RPutBcast?)
    && (s.recv.asleep ==> s.recv.pc == RPut(Sleep))
    && (s.recv.pc == RPut(Wait) ==> s.dq.size == MAX_CACHE_REQUEST_LEN)
    && (s.recv.asleep && s.dq.size != MAX_CACHE_REQUEST_LEN ==> exists w :: 0 <= w < |s.ws| && DqSignaller(s.ws[w].pc))
  }

  /** No requested file has a byte. */
  predicate NothingToSend(c: Config) {
    forall i :: 0 <= i < |c.paths| ==> FileLen(c, c.paths[i]) <= 0
  }

  /** Nobody has been cut short. */
  ghost predicate NoShort(c: Config, s: State) {
    !c.shortSends || NothingToSend(c) ==> forall h :: 0 <= h < |s.hs| ==> !s.hs[h].pc.HAbandoned?
  }

  ghost predicate LiveInv(c: Config, s: State) {
    PairsLive(c, s) && PoolWake(s) && DqWake(s) && NoShort(c, s)
  }

  // ---------- change of point of view ----------

  /** Without a worker on the segment it does not matter which worker is meant. */
  lemma NoWorker(c: Config, h: nat, x: Handler, x': Handler, g: Seg, w: nat, w': nat, v: View, v': View)
    requires LocalOk(c, h, x, g, w, v) && x' == x.(loc := x'.loc)
    requires !(v.Busy? && WBound(v.y.pc)) && !(v'.Busy? && WBound(v'.y.pc)) && (v.Over? ==> v'.Over?)
    requires !v.Over? ==> !HKnows(x.pc) && !x.pc.HLenRead?
    ensures LocalOk(c, h, x', g, w', v')
  {
  }

  lemma LiveFrame(c: Config, s: State, s': State, h: nat)
    requires h < |s.hs| && h < |s'.hs| && LiveAt(c, s, h) && s'.hs[h] == s.hs[h]
    requires HHasGen(s.hs[h].pc) ==>
      && s.hs[h].gen < |s'.segs| && s'.segs[s.hs[h].gen] == s.segs[s.hs[h].gen]
      && ViewOf(s', s.hs[h]) == ViewOf(s, s.hs[h])
    ensures LiveAt(c, s', h)
  {
  }

  // ---------- handler steps ----------

  lemma HSegLive(c: Config, s: State, h: nat, s': State)
    requires Inv(c, s) && PairsLive(c, s) && h < |s.hs| && (HLenPc(s.hs[h].pc) || HDataPc(s.hs[h].pc))
    requires HNext(c, s, h) == Some(s')
    ensures PairsLive(c, s')
  {
    assert PairAt(c, s, h) && LiveAt(c, s, h);
    var x', g' := CacheSafety.HSegPair(c, s, h, s');
    HSegLocal(c, s, h, s', x', g');
    HMovesLive(c, s, h, s', x', g');
  }

  lemma HSegLocal(c: Config, s: State, h: nat, s': State, x': Handler, g': Seg)
    requires h < |s.hs| && h < |c.paths| && PairAt(c, s, h) && LiveAt(c, s, h)
    requires HLenPc(s.hs[h].pc) || HDataPc(s.hs[h].pc)
    requires HNext(c, s, h) == Some(s') && CacheSafety.HMoves(s, h, s', x', g')
    ensures LocalOk(c, h, x', g', WorkerOf(x'), ViewOf(s, s.hs[h]))
  {
    var x, g := s.hs[h], s.segs[s.hs[h].gen];
    var w, v := WorkerOf(x), ViewOf(s, x);
    assert x' == s'.hs[h] && g' == s'.segs[x.gen];
    if HLenPc(x.pc) {
      assert HLenMove(c, h, x, g) == Some((x', g'));
      HLenLocks(c, h, x, g, w, v, x', g');
      if SharedLayout(c.layout) {
        HLenWakes(c, c.paths[h], h, x, g, w, v, x', g');
      }
    } else {
      assert HDataMove(c, h, x, g) == Some((x', g'));
      HDataLocks(c, h, x, g, w, v, x', g');
      if SharedLayout(c.layout) {
        HDataWakes(c, c.paths[h], h, x, g, w, v, x', g');
      }
    }
  }

  lemma HMovesLive(c: Config, s: State, h: nat, s': State, x': Handler, g': Seg)
    requires NameInv(s) && PairsLive(c, s) && CacheSafety.HMoves(s, h, s', x', g')
    requires LocalOk(c, h, x', g', WorkerOf(x'), ViewOf(s, s.hs[h]))
    ensures PairsLive(c, s')
  {
    forall i | 0 <= i < |s'.hs|
      ensures LiveAt(c, s', i)
    {
      assert LiveAt(c, s, i);
      if i != h {
        LiveFrame(c, s, s', i);
      } else {
        assert ViewOf(s', x') == ViewOf(s, s.hs[h]);
      }
    }
  }

  /** A step that leaves segments and servers alone, and whose handler ends without a generation or
      with its own as good as before. */
  lemma HPlainLive(c: Config, s: State, h: nat, s': State)
    requires PairsLive(c, s) && CacheSafety.HPlain(s, h, s') && LiveAt(c, s', h)
    ensures PairsLive(c, s')
  {
    forall i | 0 <= i < |s'.hs|
      ensures LiveAt(c, s', i)
    {
      assert LiveAt(c, s, i);
      if i != h {
        LiveFrame(c, s, s', i);
      }
    }
  }

  /** Program counters after the transfer make no claim on the segment. */
  lemma AfterTransfer(c: Config, h: nat, x: Handler, g: Seg, w: nat, v: View, x': Handler)
    requires LocalOk(c, h, x, g, w, v) && HHasGen(x.pc) && !HOpen(x.pc) && HHasGen(x'.pc) && !HOpen(x'.pc)
    requires x' == x.(pc := x'.pc, header := x'.header)
    ensures LocalOk(c, h, x', g, w, v)
  {
  }

  lemma GiveLive(c: Config, s: State, h: nat, s': State, x': Handler, p': Pool)
    requires PairsLive(c, s) && h < |s.hs|
    requires CacheSafety.HPools(s, h, s', x', p') && HGiveMove(c, h, s.hs[h], s.pool) == Some((x', p'))
    ensures PairsLive(c, s')
  {
    assert LiveAt(c, s, h);
    var x := s.hs[h];
    GiveOnlyPc(c, h, x, s.pool, x', p');
    AfterTransfer(c, h, x, s.segs[x.gen], WorkerOf(x), ViewOf(s, x), x');
    assert ViewOf(s', x') == ViewOf(s, x);
    HPlainLive(c, s, h, s');
  }

  lemma GiveOnlyPc(c: Config, h: nat, x: Handler, p: Pool, x': Handler, p': Pool)
    requires HGiveMove(c, h, x, p) == Some((x', p'))
    ensures HHasGen(x.pc) && !HOpen(x.pc) && HHasGen(x'.pc) && !HOpen(x'.pc)
    ensures x' == x.(pc := x'.pc, header := x'.header)
  {
  }

  lemma FreshLive(c: Config, h: nat, x: Handler, g: Seg, w: nat)
    requires x.pc.HInitLen? && g == Seg(0, 0, g.data, None, None, {}, {})
    ensures LocalOk(c, h, x, g, w, Waiting)
  {
  }

  lemma SentLive(c: Config, h: nat, x: Handler, x': Handler, g: Seg, w: nat, v: View)
    requires LocalOk(c, h, x, g, w, v) && x.pc.HSend? && x' == x.(pc := HLen(Lock), loc := InMq)
    ensures LocalOk(c, h, x', g, w, v)
  {
  }

  lemma NameLive(c: Config, s: State, h: nat, s': State)
    requires PairInv(c, s) && PairsLive(c, s) && h < |s.hs| && HNamePc(s.hs[h].pc) && !s.hs[h].pc.HSend?
    requires HNameNext(c, s, h) == Some(s')
    ensures PairsLive(c, s')
  {
    assert LiveAt(c, s, h) && PairAt(c, s, h);
    var x, x' := s.hs[h], s'.hs[h];
    if x.pc.HCreateOpen? {
      FreshLive(c, h, x', s'.segs[|s.segs|], WorkerOf(x'));
    } else if x.pc.HUnlink? {
      AfterTransfer(c, h, x, s.segs[x.gen], WorkerOf(x), ViewOf(s, x), x');
      assert ViewOf(s', x') == ViewOf(s, x);
    }
    HPlainLive(c, s, h, s');
  }

  lemma SendLive(c: Config, s: State, h: nat, s': State)
    requires PairInv(c, s) && PairsLive(c, s) && h < |s.hs| && s.hs[h].pc.HSend? && HNameNext(c, s, h) == Some(s')
    ensures PairsLive(c, s')
  {
    assert LiveAt(c, s, h) && PairAt(c, s, h);
    var x, x' := s.hs[h], s'.hs[h];
    SentLive(c, h, x, x', s.segs[x.gen], WorkerOf(x), ViewOf(s, x));
    forall i | 0 <= i < |s'.hs|
      ensures LiveAt(c, s', i)
    {
      assert LiveAt(c, s, i);
      if i != h {
        LiveFrame(c, s, s', i);
      } else {
        assert WorkerOf(x) == WorkerOf(x') == 0 && ViewOf(s', x') == ViewOf(s, x) == Waiting;
      }
    }
  }

  lemma HStepLive(c: Config, s: State, h: nat, s': State)
    requires Inv(c, s) && PairsLive(c, s) && HNext(c, s, h) == Some(s')
    ensures PairsLive(c, s')
  {
    var x := s.hs[h];
    assert PairAt(c, s, h);
    if HTakePc(x.pc) {
      var (x', p') := HTakeMove(h, x, s.pool).value;
      CacheSafety.TakeShape(h, x, s.pool, x', p');
      HPlainLive(c, s, h, s');
    } else if x.pc.HSend? {
      SendLive(c, s, h, s');
    } else if HNamePc(x.pc) {
      NameLive(c, s, h, s');
    } else if HLenPc(x.pc) || HDataPc(x.pc) {
      HSegLive(c, s, h, s');
    } else {
      var (x', p') := HGiveMove(c, h, x, s.pool).value;
      GiveLive(c, s, h, s', x', p');
    }
  }

  // ---------- worker steps ----------

  lemma WSegLocal(c: Config, s: State, w: nat, n: nat, s': State)
    returns (y': Worker, g': Seg)
    requires Inv(c, s) && PairsLive(c, s) && w < |s.ws| && WBound(s.ws[w].pc) && WNext(c, s, w, n) == Some(s')
    ensures CacheService.WMoves(s, w, s', y', g') && s.hs[y'.msg.owner].gen == y'.gen
    ensures LocalOk(c, y'.msg.owner, s.hs[y'.msg.owner], g', w, if y'.pc.WTake? then Over else Busy(y'))
  {
    CacheService.OwnerOf(c, s, w);
    var y := s.ws[w];
    var h, g := y.msg.owner, s.segs[y.gen];
    assert LiveAt(c, s, h);
    var m := if WLenPc(y.pc) then WLenMove(c, w, y, g) else WDataMove(c, w, y, g, n);
    y', g' := m.value.0, m.value.1;
    CacheService.WMoveShape(c, w, y, g, n, y', g');
    WSegWakes(c, c.paths[h], h, s.hs[h], g, w, y, n, y', g');
  }

  lemma WSegWakes(c: Config, path: string, h: nat, x: Handler, g: Seg, w: nat, y: Worker, n: nat, y': Worker, g': Seg)
    requires WBound(y.pc) && (if WLenPc(y.pc) then WLenMove(c, w, y, g) else WDataMove(c, w, y, g, n)) == Some((y', g'))
    requires PairOk(c, path, x, g, Busy(y)) && LocalOk(c, h, x, g, w, Busy(y))
    ensures LocalOk(c, h, x, g', w, if y'.pc.WTake? then Over else Busy(y'))
  {
    if WLenPc(y.pc) {
      WLenLocks(c, h, x, g, w, y, y', g');
      if SharedLayout(c.layout) {
        WLenWakes(c, path, h, x, g, w, y, y', g');
      }
    } else {
      WDataLocks(c, h, x, g, w, y, n, y', g');
      if SharedLayout(c.layout) {
        WDataWakes(c, path, h, x, g, w, y, n, y', g');
      }
    }
  }

  /** A worker's step on its segment is not seen from another handler's. */
  lemma WMovesApart(c: Config, s: State, w: nat, s': State, y': Worker, g': Seg, i: nat)
    requires NameInv(s) && CacheService.WMoves(s, w, s', y', g') && s.hs[y'.msg.owner].gen == y'.gen
    requires HHasGen(s.hs[y'.msg.owner].pc)
    requires i < |s.hs| && i != y'.msg.owner && s.hs[i].loc != AtWorker(w) && LiveAt(c, s, i)
    ensures i < |s'.hs| && LiveAt(c, s', i)
  {
    LiveFrame(c, s, s', i);
  }

  lemma WMovesOwn(c: Config, s: State, w: nat, s': State, y': Worker, g': Seg)
    requires CacheService.WMoves(s, w, s', y', g') && s.hs[y'.msg.owner].gen == y'.gen
    requires s.hs[y'.msg.owner].loc == AtWorker(w)
    requires LocalOk(c, y'.msg.owner, s.hs[y'.msg.owner], g', w, if y'.pc.WTake? then Over else Busy(y'))
    ensures y'.msg.owner < |s'.hs| && LiveAt(c, s', y'.msg.owner)
  {
    var h := y'.msg.owner;
    if y'.pc.WTake? {
      NoWorker(c, h, s.hs[h], s'.hs[h], g', w, 0, Over, Over);
    }
  }

  lemma WMovesLive(c: Config, s: State, w: nat, s': State, y': Worker, g': Seg)
    requires Inv(c, s) && PairsLive(c, s) && CacheService.WMoves(s, w, s', y', g')
    requires s.hs[y'.msg.owner].gen == y'.gen
    requires LocalOk(c, y'.msg.owner, s.hs[y'.msg.owner], g', w, if y'.pc.WTake? then Over else Busy(y'))
    ensures PairsLive(c, s')
  {
    CacheService.OwnerOf(c, s, w);
    forall i | 0 <= i < |s'.hs|
      ensures LiveAt(c, s', i)
    {
      if i != y'.msg.owner {
        assert LiveAt(c, s, i) && s.hs[i].loc != AtWorker(w);
        WMovesApart(c, s, w, s', y', g', i);
      } else {
        WMovesOwn(c, s, w, s', y', g');
      }
    }
  }

  /** A worker that has not opened a segment yet. */
  lemma WUnopenedLive(c: Config, s: State, w: nat, s': State)
    requires Inv(c, s) && PairsLive(c, s) && w < |s.ws| && w < |s'.ws| && WTakePc(s.ws[w].pc)
    requires s'.segs == s.segs && s'.ws == s.ws[w := s'.ws[w]] && |s'.hs| == |s.hs|
    requires !WBound(s'.ws[w].pc) || s'.ws[w].pc.WZero?
    requires forall h :: 0 <= h < |s.hs| ==>
      s'.hs[h] == s.hs[h] || (s.hs[h].loc == InDq && s'.hs[h] == s.hs[h].(loc := AtWorker(w)))
    ensures PairsLive(c, s')
  {
    forall i | 0 <= i < |s'.hs|
      ensures LiveAt(c, s', i)
    {
      assert LiveAt(c, s, i) && PairAt(c, s, i);
      var x, x' := s.hs[i], s'.hs[i];
      if x'.loc != AtWorker(w) {
        LiveFrame(c, s, s', i);
      } else if HHasGen(x.pc) {
        UnopenedLive(c, i, x, x', s.segs[x.gen], WorkerOf(x), w, ViewOf(s, x), ViewOf(s', x'));
      }
    }
  }

  lemma UnopenedLive(c: Config, h: nat, x: Handler, x': Handler, g: Seg, w: nat, w': nat, v: View, v': View)
    requires LocalOk(c, h, x, g, w, v) && x' == x.(loc := x'.loc) && !v.Over?
    requires v.Busy? ==> WTakePc(v.y.pc)
    requires v'.Busy? && (WTakePc(v'.y.pc) || v'.y.pc.WZero?)
    requires !HKnows(x.pc) && !x.pc.HLenRead?
    ensures LocalOk(c, h, x', g, w', v')
  {
  }

  lemma WStepLive(c: Config, s: State, w: nat, n: nat, s': State)
    requires Inv(c, s) && PairsLive(c, s) && WNext(c, s, w, n) == Some(s')
    ensures PairsLive(c, s')
  {
    if WBound(s.ws[w].pc) {
      var y', g' := WSegLocal(c, s, w, n, s');
      WMovesLive(c, s, w, s', y', g');
    } else {
      WTakeStep(c, s, w, n, s');
      WUnopenedLive(c, s, w, s');
    }
  }

  lemma WTakeStep(c: Config, s: State, w: nat, n: nat, s': State)
    requires TicketInv(c, s) && w < |s.ws| && !WBound(s.ws[w].pc) && WNext(c, s, w, n) == Some(s')
    ensures s'.segs == s.segs && |s'.ws| == |s.ws| && s'.ws == s.ws[w := s'.ws[w]] && |s'.hs| == |s.hs|
    ensures !WBound(s'.ws[w].pc) || s'.ws[w].pc.WZero?
    ensures forall h :: 0 <= h < |s.hs| ==>
      s'.hs[h] == s.hs[h] || (s.hs[h].loc == InDq && s'.hs[h] == s.hs[h].(loc := AtWorker(w)))
  {
    if s.ws[w].pc.WTakePop? && s.dq.queue != [] {
      assert MsgOk(c, s, s.dq.queue[0], InDq);
    }
  }

  // ---------- receiver and spurious wake-ups ----------

  lemma RStepLive(c: Config, s: State, s': State)
    requires Inv(c, s) && PairsLive(c, s) && RNext(s) == Some(s')
    ensures PairsLive(c, s')
  {
    CacheService.RShape(s, s');
    RLocs(c, s, s');
    forall i | 0 <= i < |s'.hs|
      ensures LiveAt(c, s', i)
    {
      assert LiveAt(c, s, i) && PairAt(c, s, i);
      var x, x' := s.hs[i], s'.hs[i];
      if x' == x {
        LiveFrame(c, s, s', i);
      } else if HHasGen(x.pc) {
        NoWorker(c, i, x, x', s.segs[x.gen], 0, 0, Waiting, Waiting);
      }
    }
  }

  lemma RLocs(c: Config, s: State, s': State)
    requires TicketInv(c, s) && RNext(s) == Some(s')
    ensures |s'.hs| == |s.hs|
    ensures forall h :: 0 <= h < |s.hs| && s'.hs[h] != s.hs[h] ==>
      (s.hs[h].loc == InMq && s'.hs[h].loc == InRecv) || (s.hs[h].loc == InRecv && s'.hs[h].loc == InDq)
  {
    if s.recv.pc.RReceive? && s.mq != [] {
      assert MsgOk(c, s, s.mq[0], InMq);
    }
  }

  lemma SpuriousLive(c: Config, s: State, t: Tid, s': State)
    requires Inv(c, s) && PairsLive(c, s) && SpuriousNext(s, t) == Some(s')
    ensures PairsLive(c, s')
  {
    SpuriousSets(s, t, s');
    CacheService.SpuriousShape(s, t, s');
    forall i | 0 <= i < |s'.hs|
      ensures LiveAt(c, s', i)
    {
      assert LiveAt(c, s, i);
      var x := s.hs[i];
      if HHasGen(x.pc) {
        FewerWaiters(c, i, x, s.segs[x.gen], s'.segs[x.gen], WorkerOf(x), ViewOf(s, x));
      }
    }
  }

  lemma SpuriousSets(s: State, t: Tid, s': State)
    requires SpuriousNext(s, t) == Some(s')
    ensures s'.pool.readers <= s.pool.readers && s'.dq.idle <= s.dq.idle && (s'.recv.asleep ==> s.recv.asleep)
    ensures |s'.segs| == |s.segs|
    ensures forall g :: 0 <= g < |s.segs| ==>
      s'.segs[g].proxyWait <= s.segs[g].proxyWait && s'.segs[g].cacheWait <= s.segs[g].cacheWait
  {
  }

  /** A thread is asleep on one of the condition variables. */
  predicate Asleep(s: State, t: Tid) {
    match t
    case H(h) =>
      h < |s.hs|
      && ((s.hs[h].pc == HTake(Sleep) && h in s.pool.readers) || (s.hs[h].pc == HGive(Sleep) && h in s.pool.writers)
          || ((s.hs[h].pc == HLen(Sleep) || s.hs[h].pc == HData(Sleep))
              && s.hs[h].gen < |s.segs| && h in s.segs[s.hs[h].gen].proxyWait))
    case W(w) =>
      w < |s.ws|
      && ((s.ws[w].pc == WTake(Sleep) && w in s.dq.idle)
          || ((s.ws[w].pc == WLen(Sleep) || s.ws[w].pc == WData(Sleep))
              && s.ws[w].gen < |s.segs| && w in s.segs[s.ws[w].gen].cacheWait))
    case R => s.recv.asleep
  }

  /** Every sleeper, and nobody else, may wake up without a signal. */
  lemma WakesAnyTime(s: State, t: Tid)
    ensures SpuriousNext(s, t).Some? <==> Asleep(s, t)
    ensures SpuriousNext(s, t).Some? ==> !Asleep(SpuriousNext(s, t).value, t)
  {
  }

  lemma FewerWaiters(c: Config, h: nat, x: Handler, g: Seg, g': Seg, w: nat, v: View)
    requires LocalOk(c, h, x, g, w, v)
    requires g' == g.(proxyWait := g'.proxyWait, cacheWait := g'.cacheWait)
    requires g'.proxyWait <= g.proxyWait && g'.cacheWait <= g.cacheWait
    ensures LocalOk(c, h, x, g', w, v)
  {
  }

  // ---------- the pool's sleepers ----------

  lemma PoolWakeFrame(s: State, s': State)
    requires PoolWake(s) && s'.pool.readers <= s.pool.readers && s'.pool.size == s.pool.size && |s'.hs| == |s.hs|
    requires forall h :: 0 <= h < |s.hs| ==>
      s'.hs[h].pc == s.hs[h].pc
      || (!s'.hs[h].pc.HTake? && !s.hs[h].pc.HTake? && (PoolWaker(s.hs[h].pc) ==> PoolWaker(s'.hs[h].pc)))
    ensures PoolWake(s')
  {
    if s'.pool.readers != {} && s'.pool.size != 0 {
      var h :| 0 <= h < |s.hs| && PoolWaker(s.hs[h].pc);
      assert PoolWaker(s'.hs[h].pc);
    }
  }

  lemma TakeWakes(s: State, h: nat, s': State, x': Handler, p': Pool)
    requires PoolCounted(s) && PoolWake(s)
    requires CacheSafety.HPools(s, h, s', x', p') && HTakeMove(h, s.hs[h], s.pool) == Some((x', p'))
    ensures PoolWake(s')
  {
    if s'.pool.readers != {} && s'.pool.size != 0 {
      var i :| 0 <= i < |s.hs| && PoolWaker(s.hs[i].pc);
      assert PoolWaker(s'.hs[i].pc);
    }
  }

  lemma GiveWakes(c: Config, s: State, h: nat, s': State, x': Handler, p': Pool)
    requires PoolLocked(s) && PoolWake(s)
    requires CacheSafety.HPools(s, h, s', x', p') && HGiveMove(c, h, s.hs[h], s.pool) == Some((x', p'))
    ensures PoolWake(s')
  {
    if s'.pool.readers != {} && s'.pool.size != 0 {
      if s.hs[h].pc.HGiveInc? || PoolWaker(x'.pc) {
        assert PoolWaker(s'.hs[h].pc);
      } else {
        var i :| 0 <= i < |s.hs| && PoolWaker(s.hs[i].pc);
        assert PoolWaker(s'.hs[i].pc);
      }
    }
  }

  // ---------- the daemon's sleepers ----------

  lemma DqWakeFrame(s: State, s': State)
    requires DqWake(s) && s'.dq.idle <= s.dq.idle && s'.dq.size == s.dq.size && s'.recv.pc == s.recv.pc
    requires (s'.recv.asleep ==> s.recv.asleep) && |s'.ws| == |s.ws|
    requires forall w :: 0 <= w < |s.ws| ==>
      s'.ws[w].pc == s.ws[w].pc
      || (!s.ws[w].pc.WTake? && (s'.ws[w].pc.WTake? ==> s'.ws[w].pc.m.Lock?) && !DqSignaller(s.ws[w].pc))
    ensures DqWake(s')
  {
    if s'.recv.asleep && s'.dq.size != MAX_CACHE_REQUEST_LEN {
      var w :| 0 <= w < |s.ws| && DqSignaller(s.ws[w].pc);
      assert DqSignaller(s'.ws[w].pc);
    }
  }

  lemma WTakeWakes(s: State, w: nat, s': State, y': Worker, d': Daemon)
    requires DqInv(s) && DqWake(s)
    requires CacheService.WQueues(s, w, s', y', d') && WTakeMove(w, s.ws[w], s.dq) == Some((y', d'))
    ensures DqWake(s')
  {
    if s'.recv.asleep && s'.dq.size != MAX_CACHE_REQUEST_LEN {
      if DqSignaller(y'.pc) {
        assert DqSignaller(s'.ws[w].pc);
      } else {
        var i :| 0 <= i < |s.ws| && DqSignaller(s.ws[i].pc);
        assert DqSignaller(s'.ws[i].pc);
      }
    }
  }

  lemma WFindWakes(c: Config, s: State, w: nat, s': State)
    requires DqWake(s) && w < |s.ws| && WFindPc(s.ws[w].pc) && WFindNext(c, s, w) == Some(s')
    ensures DqWake(s')
  {
    if s'.recv.asleep && s'.dq.size != MAX_CACHE_REQUEST_LEN {
      var i :| 0 <= i < |s.ws| && DqSignaller(s.ws[i].pc);
      assert DqSignaller(s'.ws[i].pc);
    }
  }

  lemma RWakes(s: State, s': State)
    requires DqInv(s) && DqWake(s) && RNext(s) == Some(s')
    ensures DqWake(s')
  {
  }

  // ---------- every step ----------

  lemma HWakes(c: Config, s: State, h: nat, s': State)
    requires PoolInv(c, s) && PoolWake(s) && DqWake(s) && HNext(c, s, h) == Some(s')
    ensures PoolWake(s') && DqWake(s')
  {
    var x := s.hs[h];
    if HTakePc(x.pc) {
      var (x', p') := HTakeMove(h, x, s.pool).value;
      TakeWakes(s, h, s', x', p');
      DqWakeFrame(s, s');
    } else if HNamePc(x.pc) || HLenPc(x.pc) || HDataPc(x.pc) {
      HElsewhere(c, s, h, s');
      PoolWakeFrame(s, s');
      DqWakeFrame(s, s');
    } else {
      var (x', p') := HGiveMove(c, h, x, s.pool).value;
      GiveWakes(c, s, h, s', x', p');
      DqWakeFrame(s, s');
    }
  }

  lemma HElsewhere(c: Config, s: State, h: nat, s': State)
    requires HNext(c, s, h) == Some(s') && (HNamePc(s.hs[h].pc) || HLenPc(s.hs[h].pc) || HDataPc(s.hs[h].pc))
    ensures s'.pool == s.pool && s'.ws == s.ws && s'.dq == s.dq && s'.recv == s.recv
    ensures s'.hs == s.hs[h := s'.hs[h]] && |s'.hs| == |s.hs|
    ensures !s'.hs[h].pc.HTake? && !s.hs[h].pc.HTake? && !PoolWaker(s.hs[h].pc)
  {
  }

  lemma WWakes(c: Config, s: State, w: nat, n: nat, s': State)
    requires DqInv(s) && PoolWake(s) && DqWake(s) && WNext(c, s, w, n) == Some(s')
    ensures PoolWake(s') && DqWake(s')
  {
    WHandlers(c, s, w, n, s');
    PoolWakeFrame(s, s');
    if WDqPc(s.ws[w].pc) {
      var (y', d') := WTakeMove(w, s.ws[w], s.dq).value;
      WTakeWakes(s, w, s', y', d');
    } else if WFindPc(s.ws[w].pc) {
      WFindWakes(c, s, w, s');
    } else {
      WBoundShape(c, s, w, n, s');
      DqWakeFrame(s, s');
    }
  }

  lemma WHandlers(c: Config, s: State, w: nat, n: nat, s': State)
    requires WNext(c, s, w, n) == Some(s')
    ensures s'.pool == s.pool && |s'.hs| == |s.hs|
    ensures forall h :: 0 <= h < |s.hs| ==> s'.hs[h].pc == s.hs[h].pc
  {
  }

  lemma WBoundShape(c: Config, s: State, w: nat, n: nat, s': State)
    requires w < |s.ws| && WBound(s.ws[w].pc) && WNext(c, s, w, n) == Some(s')
    ensures s'.dq == s.dq && s'.recv == s.recv && |s'.ws| == |s.ws| && s'.ws == s.ws[w := s'.ws[w]]
    ensures s'.ws[w].pc.WTake? ==> s'.ws[w].pc.m.Lock?
  {
  }

  lemma InitLive(c: Config)
    ensures LiveInv(c, Init(c))
  {
  }

  lemma ShortLive(c: Config, s: State, h: nat, s': State)
    requires Inv(c, s) && PairsLive(c, s) && HShortNext(c, s, h) == Some(s')
    ensures PairsLive(c, s')
  {
    assert LiveAt(c, s, h) && PairAt(c, s, h);
    var x, g := s.hs[h], s.segs[s.hs[h].gen];
    ShortLocal(c, c.paths[h], h, x, g, WorkerOf(x), ViewOf(s, x));
    assert s'.segs == s'.segs[x.gen := g];
    HMovesLive(c, s, h, s', s'.hs[h], g);
  }

  lemma ShortLocal(c: Config, path: string, h: nat, x: Handler, g: Seg, w: nat, v: View)
    requires x.pc.HDataSend? && PairOk(c, path, x, g, v) && LocalOk(c, h, x, g, w, v)
    ensures LocalOk(c, h, x.(pc := HAbandoned), g, w, v)
  {
  }

  lemma SendsSomething(c: Config, s: State, h: nat)
    requires PairInv(c, s) && h < |s.hs| && s.hs[h].pc.HDataSend?
    ensures FileLen(c, c.paths[h]) > 0
  {
    assert PairAt(c, s, h);
  }

  lemma NoShortKeeps(c: Config, s: State, t: Step, s': State)
    requires NoShort(c, s) && PairInv(c, s) && Next(c, s, t) == Some(s')
    ensures NoShort(c, s')
  {
    match t
    case HStep(h) => HNoShort(c, s, h, s');
    case HShort(h) => SendsSomething(c, s, h);
    case WStep(w, x) => WHandlers(c, s, w, x, s');
    case RStep => CacheService.RShape(s, s');
    case Spurious(t) => CacheService.SpuriousShape(s, t, s');
  }

  lemma HNoShort(c: Config, s: State, h: nat, s': State)
    requires HNext(c, s, h) == Some(s')
    ensures |s'.hs| == |s.hs| && s'.hs == s.hs[h := s'.hs[h]] && !s'.hs[h].pc.HAbandoned?
  {
  }

  /** Every step keeps the wakers of the pool's and the daemon's sleepers on their way, whoever serves whom. */
  lemma StepWakes(c: Config, s: State, t: Step, s': State)
    requires PoolInv(c, s) && DqInv(s) && PoolWake(s) && DqWake(s) && Next(c, s, t) == Some(s')
    ensures PoolWake(s') && DqWake(s')
  {
    match t
    case HStep(h) => HWakes(c, s, h, s');
    case HShort(h) =>
      PoolWakeFrame(s, s');
      DqWakeFrame(s, s');
    case WStep(w, x) => WWakes(c, s, w, x, s');
    case RStep =>
      RWakes(s, s');
      CacheService.RShape(s, s');
      PoolWakeFrame(s, s');
    case Spurious(u) =>
      SpuriousSets(s, u, s');
      CacheService.SpuriousShape(s, u, s');
      PoolWakeFrame(s, s');
      DqWakeFrame(s, s');
  }

  /** Every step keeps mutexes, wait sets and wakers in order. */
  lemma StepLive(c: Config, s: State, t: Step, s': State)
    requires Inv(c, s) && LiveInv(c, s) && Next(c, s, t) == Some(s')
    ensures LiveInv(c, s')
  {
    NoShortKeeps(c, s, t, s');
    StepWakes(c, s, t, s');
    match t
    case HStep(h) => HStepLive(c, s, h, s');
    case HShort(h) => ShortLive(c, s, h, s');
    case WStep(w, x) => WStepLive(c, s, w, x, s');
    case RStep => RStepLive(c, s, s');
    case Spurious(u) => SpuriousLive(c, s, u, s');
  }
}
