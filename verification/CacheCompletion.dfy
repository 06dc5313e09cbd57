/** Wake-ups, quiescence and completion over whole runs. */
module CacheCompletion {
  import opened Wrappers
  import opened Sequences
  import opened CacheModel
  import opened CacheRuns
  import opened CachePair
  import opened CacheInvariant
  import opened CacheWake
  import opened CacheLive
  import opened CacheProgress
  import opened CacheTheorems
  import CacheQueues
  import CacheService
  import CacheTermination

  lemma {:induction false} ExecLive(c: Config, ts: seq<Step>, s: State)
    requires ConfigOk(c) && Exec(c, Init(c), ts) == Some(s)
    ensures LiveInv(c, s)
    decreases |ts|
  {
    if ts == [] {
      InitLive(c);
    } else {
      var front, t := ts[..|ts| - 1], ts[|ts| - 1];
      var m := Exec(c, Init(c), front).value;
      ExecLive(c, front, m);
      ReachInv(c, m);
      StepLive(c, m, t, s);
    }
  }

  lemma ReachLive(c: Config, s: State)
    requires ConfigOk(c) && Reach(c, Init(c), s)
    ensures LiveInv(c, s)
  {
    var ts :| Exec(c, Init(c), ts) == Some(s);
    ExecLive(c, ts, s);
  }

  // ---------- wake-ups ----------

  lemma {:induction false} ExecWakes(c: Config, ts: seq<Step>, s: State)
    requires NoDup(c.names) && Exec(c, Init(c), ts) == Some(s)
    ensures DqInv(s) && PoolWake(s) && DqWake(s)
    decreases |ts|
  {
    if ts != [] {
      var front, t := ts[..|ts| - 1], ts[|ts| - 1];
      var m := Exec(c, Init(c), front).value;
      ExecWakes(c, front, m);
      ExecPool(c, front, m);
      CacheQueues.StepKeepsDq(c, m, t, s);
      StepWakes(c, m, t, s);
    }
  }

  /**
   Whatever message reaches which worker, no wake-up is lost on the pool or on the daemon's queue: a
   handler, worker or receiver asleep there whose condition holds has a thread on its way to signal it.
   */
  lemma QueuesAwaited(c: Config, s: State)
    requires NoDup(c.names) && Reach(c, Init(c), s)
    ensures PoolWake(s) && DqWake(s)
  {
    var ts :| Exec(c, Init(c), ts) == Some(s);
    ExecWakes(c, ts, s);
  }

  /** A handler asleep on its segment's `proxy_cond` has nothing to do, or its worker is about to signal. */
  ghost predicate HandlerAwaited(s: State, h: nat)
    requires h < |s.hs|
  {
    var x := s.hs[h];
    HHasGen(x.pc) && x.gen < |s.segs| && h in s.segs[x.gen].proxyWait ==>
      && (x.pc == HLen(Sleep) || x.pc == HData(Sleep))
      && ((x.pc == HLen(Sleep) && s.segs[x.gen].fileLength != 0)
          || (x.pc == HData(Sleep) && s.segs[x.gen].bytesWritten != 0) ==>
        x.loc.AtWorker? && x.loc.w < |s.ws| && s.ws[x.loc.w].gen == x.gen
        && (var pc := s.ws[x.loc.w].pc; pc.WLenReset? || pc.WLenUnlock? || pc.WLenBcast? || pc.WSignal?))
  }

  /** A worker asleep on `cache_cond` faces a full slot, or its handler is about to broadcast. */
  ghost predicate WorkerAwaited(s: State, w: nat)
    requires w < |s.ws|
  {
    var y := s.ws[w];
    WBound(y.pc) && y.gen < |s.segs| && w in s.segs[y.gen].cacheWait && s.segs[y.gen].bytesWritten == 0 ==>
      y.msg.owner < |s.hs| && (s.hs[y.msg.owner].pc.HDataUnlock? || s.hs[y.msg.owner].pc.HDataBcast?)
  }

  /**
   With one struct layout and messages that reach their workers no wake-up is lost on a segment either:
   every sleeper whose condition holds has the other side on its way to signal it.
   */
  lemma NoLostWakeups(c: Config, s: State)
    requires ConfigOk(c) && SharedLayout(c.layout) && Reach(c, Init(c), s)
    ensures forall h :: 0 <= h < |s.hs| ==> HandlerAwaited(s, h)
    ensures forall w :: 0 <= w < |s.ws| ==> WorkerAwaited(s, w)
  {
    ReachInv(c, s);
    ReachLive(c, s);
    forall h | 0 <= h < |s.hs|
      ensures HandlerAwaited(s, h)
    {
      HandlerAwaitedAt(c, s, h);
    }
    forall w | 0 <= w < |s.ws|
      ensures WorkerAwaited(s, w)
    {
      if WBound(s.ws[w].pc) {
        WorkerAwaitedAt(c, s, w);
      }
    }
  }

  lemma WorkerAwaitedAt(c: Config, s: State, w: nat)
    requires PairInv(c, s) && HeldInv(c, s) && PairsLive(c, s) && SharedLayout(c.layout)
    requires w < |s.ws| && WBound(s.ws[w].pc)
    ensures WorkerAwaited(s, w)
  {
    CacheService.OwnerOf(c, s, w);
    OwnerLive(c, s, w, s.ws[w].msg.owner);
    OwnerSets(c, s, w, s.ws[w].msg.owner);
  }

  lemma HandlerAwaitedAt(c: Config, s: State, h: nat)
    requires PairInv(c, s) && PairsLive(c, s) && SharedLayout(c.layout) && h < |s.hs|
    ensures HandlerAwaited(s, h)
  {
    assert PairAt(c, s, h) && LiveAt(c, s, h);
  }

  lemma OwnerSets(c: Config, s: State, w: nat, h: nat)
    requires PairsLive(c, s) && w < |s.ws| && h < |s.hs|
    requires s.hs[h].loc == AtWorker(w) && HHasGen(s.hs[h].pc)
    ensures s.hs[h].gen < |s.segs| && SetsOk(h, s.hs[h], s.segs[s.hs[h].gen], w, Busy(s.ws[w]))
  {
    assert LiveAt(c, s, h);
  }

  // ---------- quiescence ----------

  /** The worker's next statement stores into the segment. */
  predicate WStores(y: Worker) {
    y.pc.WZero? || y.pc.WLenPost? || y.pc.WLenReset? || (y.pc.WCopy? && y.k < y.n) || y.pc.WPublish?
  }

  /** No worker is about to store into the generation of a handler that has entered `destroy_shm_seg`. */
  ghost predicate Quiet(s: State) {
    forall w, h | 0 <= w < |s.ws| && 0 <= h < |s.hs| && HHasGen(s.hs[h].pc) && !HOpen(s.hs[h].pc)
      && WBound(s.ws[w].pc) && s.ws[w].gen == s.hs[h].gen :: !WStores(s.ws[w])
  }

  lemma QuietPair(c: Config, path: string, h: nat, x: Handler, g: Seg, w: nat, y: Worker)
    requires PairOk(c, path, x, g, Busy(y)) && WakeOk(h, x, g, w, Busy(y))
    requires HHasGen(x.pc) && !HOpen(x.pc) && WBound(y.pc)
    ensures !WStores(y)
  {
  }

  lemma SharedIsQuiet(c: Config, s: State)
    requires ConfigOk(c) && SharedLayout(c.layout) && Reach(c, Init(c), s)
    ensures Quiet(s)
  {
    ReachInv(c, s);
    ReachLive(c, s);
    forall w, h | 0 <= w < |s.ws| && 0 <= h < |s.hs| && HHasGen(s.hs[h].pc) && !HOpen(s.hs[h].pc)
      && WBound(s.ws[w].pc) && s.ws[w].gen == s.hs[h].gen
      ensures !WStores(s.ws[w])
    {
      QuietAt(c, s, w, h);
    }
  }

  lemma QuietAt(c: Config, s: State, w: nat, h: nat)
    requires NameInv(s) && HeldInv(c, s) && PairInv(c, s) && PairsLive(c, s) && SharedLayout(c.layout)
    requires w < |s.ws| && h < |s.hs| && HHasGen(s.hs[h].pc) && !HOpen(s.hs[h].pc)
    requires WBound(s.ws[w].pc) && s.ws[w].gen == s.hs[h].gen
    ensures !WStores(s.ws[w])
  {
    CacheService.OwnerOf(c, s, w);
    var i := s.ws[w].msg.owner;
    assert i == h;
    OwnerLive(c, s, w, h);
    QuietPair(c, c.paths[h], h, s.hs[h], s.segs[s.hs[h].gen], w, s.ws[w]);
  }

  // ---------- completion ----------

  /** Whenever the system comes to rest, every request has been answered. */
  ghost predicate Completes(c: Config) {
    forall s :: Reach(c, Init(c), s) && Stuck(c, s) ==> AllDone(s)
  }

  /** Something a thread can do of its own, with less left to do afterwards. */
  lemma OwnStep(c: Config, s: State) returns (t: Step, m: State)
    requires Reach(c, Init(c), s) && !Stuck(c, s)
    ensures !t.Spurious? && Next(c, s, t) == Some(m) && Reach(c, Init(c), m)
    ensures 0 <= CacheTermination.Measure(c, m) < CacheTermination.Measure(c, s)
  {
    t, m := SomeStep(c, s);
    ReachNext(c, Init(c), s, t, m);
    CacheTermination.ReachCounters(c, s);
    CacheTermination.StepDecreases(c, s, t, m);
  }

  ghost predicate RestsAt(c: Config, s: State, ts: seq<Step>, r: State) {
    Exec(c, s, ts) == Some(r) && (forall i :: 0 <= i < |ts| ==> !ts[i].Spurious?) && Stuck(c, r)
  }

  lemma {:induction false} RestsWithin(c: Config, s: State, n: nat) returns (ts: seq<Step>, r: State)
    requires Reach(c, Init(c), s) && CacheTermination.Measure(c, s) <= n
    ensures RestsAt(c, s, ts, r) && Reach(c, Init(c), r)
    decreases n
  {
    if Stuck(c, s) {
      ts, r := [], s;
    } else {
      var t, m := OwnStep(c, s);
      ts, r := RestsWithin(c, m, n - 1);
      ExecCons(c, s, t, m, ts);
      ts := [t] + ts;
    }
  }

  /** For every configuration: from every reachable state the system comes to rest, by steps of its own. */
  lemma ComesToRest(c: Config, s: State) returns (ts: seq<Step>, r: State)
    requires Reach(c, Init(c), s)
    ensures Exec(c, s, ts) == Some(r) && (forall i :: 0 <= i < |ts| ==> !ts[i].Spurious?)
    ensures Reach(c, s, r) && Reach(c, Init(c), r) && Stuck(c, r)
  {
    CacheTermination.ReachCounters(c, s);
    CacheTermination.MeasureNat(c, s);
    ts, r := RestsWithin(c, s, CacheTermination.Measure(c, s));
  }

  lemma SomeStep(c: Config, s: State) returns (t: Step, m: State)
    requires !Stuck(c, s)
    ensures !t.Spurious? && Next(c, s, t) == Some(m)
  {
    if h :| 0 <= h < |s.hs| && HNext(c, s, h) != None {
      t, m := HStep(h), HNext(c, s, h).value;
    } else if w: nat, x: nat :| w < |s.ws| && WNext(c, s, w, x) != None {
      t, m := WStep(w, x), WNext(c, s, w, x).value;
    } else {
      t, m := RStep, RNext(s).value;
    }
  }

  /** A request for an empty file blocks its handler under any layout. */
  lemma EmptyFileBlocks(c: Config, i: nat)
    requires ConfigOk(c) && i < |c.paths| && FileLen(c, c.paths[i]) == 0
    ensures !Completes(c)
  {
    ReachSelf(c, Init(c));
    var ts, r := ComesToRest(c, Init(c));
    ReachInv(c, r);
    EmptyFileNeverAnswered(c, r, i);
  }

  /**
   With one struct layout, a worker, a segment and full sends: every interleaving ends with every
   request answered if and only if no requested file is empty.
   */
  lemma CompletesIffNoEmptyFile(c: Config)
    requires ConfigOk(c) && CanServe(c) && SharedLayout(c.layout)
    ensures Completes(c) <==> NoEmptyFile(c)
  {
    if NoEmptyFile(c) {
      forall s | Reach(c, Init(c), s) && Stuck(c, s)
        ensures AllDone(s)
      {
        ReachInv(c, s);
        ReachLive(c, s);
        StuckIsDone(c, s);
      }
    } else {
      var i :| 0 <= i < |c.paths| && FileLen(c, c.paths[i]) == 0;
      EmptyFileBlocks(c, i);
    }
  }

  /** At rest, every response is the one an atomic lookup would have given. */
  lemma EveryRequestAnswered(c: Config, s: State, h: nat)
    requires ConfigOk(c) && CanServe(c) && SharedLayout(c.layout) && NoEmptyFile(c)
    requires Reach(c, Init(c), s) && Stuck(c, s) && h < |c.paths|
    ensures h < |s.hs| && Answered(c, c.paths[h], s.hs[h])
  {
    ReachInv(c, s);
    ReachLive(c, s);
    StuckIsDone(c, s);
    ResponsesRefineLookup(c, s, h);
  }

  /**
   Every run, whatever its scheduler does, is finite but for spurious wake-ups, and when it cannot go on
   each request has got the response of an atomic lookup.
   */
  lemma EveryRunAnswers(c: Config, ss: seq<State>, ts: seq<Step>)
    requires ConfigOk(c) && CanServe(c) && SharedLayout(c.layout) && NoEmptyFile(c) && IsRun(c, ss, ts)
    ensures |ts| <= CacheTermination.Measure(c, Init(c)) + 4 * CacheTermination.SpuriousCount(ts)
    ensures |ss[|ts|].hs| == |c.paths|
    ensures Stuck(c, ss[|ts|]) ==> forall h :: 0 <= h < |c.paths| ==> Answered(c, c.paths[h], ss[|ts|].hs[h])
  {
    CacheTermination.RunLength(c, ss, ts);
    RunReaches(c, ss, ts, |ts|);
    ReachInv(c, ss[|ts|]);
    if Stuck(c, ss[|ts|]) {
      forall h | 0 <= h < |c.paths|
        ensures Answered(c, c.paths[h], ss[|ts|].hs[h])
      {
        EveryRequestAnswered(c, ss[|ts|], h);
      }
    }
  }
}
