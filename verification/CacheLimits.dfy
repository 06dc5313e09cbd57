/**
 Where the two programs as written fall short, and for which configurations they do not.

 The daemon queues the address of its one message buffer, and the two programs declare the mutexes
 of the shared struct in opposite order.  Every condition here is about a single configuration.
 */
module CacheLimits {
  import opened Sequences
  import opened CacheModel
  import opened CacheRuns
  import opened CachePair
  import opened CacheInvariant
  import opened CacheWake
  import opened CacheProgress
  import opened CacheTheorems
  import opened CacheCompletion
  import opened CacheCrossed
  import opened CacheServed
  import opened CacheMisdirected
  import opened CacheRequested
  import opened CacheLone
  import opened CacheLive
  import CacheAbandoned
  import CacheAsleep
  import CacheOrphan
  import CacheService
  import CacheTermination

  // ---------- one message buffer ----------

  /** In every reachable state every worker has its sender's generation mapped. */
  ghost predicate AlwaysBound(c: Config) {
    forall s, w :: Reach(c, Init(c), s) && 0 <= w < |s.ws| ==> Bound(s, w)
  }

  /** The second message overwrites the buffer before the first is read. */
  lemma AliasMisbinds(c: Config) returns (s: State)
    requires NoDup(c.names) && |c.names| >= 2 && |c.paths| >= 2 && c.nworkers > 0 && c.alias
    ensures Reach(c, Init(c), s) && |s.ws| > 0 && !Bound(s, 0)
  {
    s := FirstTaken(c, 0, 1);
    assert s.ws[0].msg.owner == 0 && s.ws[0].gen == 1 && s.hs[0].gen == 0;
  }

  /**
   Workers always serve the request they were sent if and only if messages are copied, or there is
   at most one segment, or at most one request.
   */
  lemma BoundIffOneBufferSuffices(c: Config)
    requires NoDup(c.names) && c.nworkers > 0
    ensures AlwaysBound(c) <==> OneBufferSuffices(c)
  {
    if OneBufferSuffices(c) {
      forall s, w | Reach(c, Init(c), s) && 0 <= w < |s.ws|
        ensures Bound(s, w)
      {
        GenerationsAreBound(c, s);
      }
    } else {
      var s := AliasMisbinds(c);
    }
  }

  /**
   The queued address answers a request with another one's file: two segments, two requests for files
   of different lengths, and the second response announces the first file's length.
   */
  lemma AliasMisanswers(c: Config, i: nat, j: nat) returns (s: State)
    requires |c.names| >= 2 && c.nworkers > 0 && c.alias && i < |c.paths| && j < |c.paths| && i != j
    requires FileLen(c, c.paths[i]) > 0 && FileLen(c, c.paths[i]) != FileLen(c, c.paths[j])
    ensures Reach(c, Init(c), s) && j < |s.hs|
    ensures s.hs[j].header == OkHeader(FileLen(c, c.paths[i])) != LookupHeader(c, c.paths[j])
  {
    var s0, t0 := WrongFileServed(c, i, j);
    var t1 := PostsAlone(c, s0, j, t0);
    var t2 := HandlerAnswers(c, s0, j, t1);
    s := With(s0, j, t2);
  }

  /** What has been sent is what an atomic lookup of the handler's own path would send. */
  ghost predicate RightAnswers(c: Config, s: State) {
    forall h :: 0 <= h < |s.hs| && h < |c.paths| ==>
      && (s.hs[h].header != NoHeader ==> s.hs[h].header == LookupHeader(c, c.paths[h]))
      && s.hs[h].body <= FileOf(c, c.paths[h])
  }

  /** A request that is not for an empty file, and another one. */
  lemma TwoRequests(c: Config) returns (i: nat, k: nat)
    requires !OneBufferSuffices(c) && !OnlyEmptyFiles(c) && c.nworkers > 0
    ensures TwoOf(c, i, k) && FileLen(c, c.paths[k]) != 0
  {
    k :| 0 <= k < |c.paths| && FileLen(c, c.paths[k]) != 0;
    i := if k == 0 then 1 else 0;
  }

  /** Two workers on one segment, or one worker on it twice: a wrong header, or a byte too many. */
  lemma OverwrittenMisanswers(c: Config, i: nat, k: nat) returns (s: State)
    requires NoDup(c.names) && TwoOf(c, i, k) && FileLen(c, c.paths[k]) != 0 && (c.cap > 1 || c.nworkers > 1)
    ensures Reach(c, Init(c), s) && !RightAnswers(c, s)
  {
    var s0: State, t: Trio;
    if c.nworkers > 1 {
      s0, t := AnswersZero(c, i, k);
    } else if FileLen(c, c.paths[k]) <= c.cap {
      s0, t := ReadsZero(c, i, k);
    } else {
      s0, t := SendsTooMuch(c, i, k);
    }
    s := With(s0, k, t);
    assert s.hs[k] == t.x;
  }

  /**
   For every configuration: all responses are always right if and only if one buffer suffices or all
   requested files are empty.
   */
  lemma AnswersIff(c: Config)
    requires NoDup(c.names) && c.nworkers > 0 && (c.cap > 1 || c.nworkers > 1)
    ensures (forall s :: Reach(c, Init(c), s) ==> RightAnswers(c, s)) <==> OneBufferSuffices(c) || OnlyEmptyFiles(c)
  {
    if OneBufferSuffices(c) || OnlyEmptyFiles(c) {
      forall s | Reach(c, Init(c), s)
        ensures RightAnswers(c, s)
      {
        AnswersRight(c, s);
      }
    } else {
      var i, k := TwoRequests(c);
      var s := OverwrittenMisanswers(c, i, k);
    }
  }

  lemma AnswersRight(c: Config, s: State)
    requires NoDup(c.names) && (OneBufferSuffices(c) || OnlyEmptyFiles(c)) && Reach(c, Init(c), s)
    ensures RightAnswers(c, s)
  {
    if OnlyEmptyFiles(c) {
      ReachEmpty(c, s);
      assert forall h :: 0 <= h < |s.hs| ==> HEmpty(s.hs[h]);
    } else {
      forall h | 0 <= h < |s.hs| && h < |c.paths|
        ensures s.hs[h].header != NoHeader ==> s.hs[h].header == LookupHeader(c, c.paths[h])
        ensures s.hs[h].body <= FileOf(c, c.paths[h])
      {
        ResponsesRefineLookup(c, s, h);
      }
    }
  }

  // ---------- the worker's own test ----------

  /** A worker that has just reset the length of a segment still finds 0 there. */
  ghost predicate FindsZero(s: State) {
    forall w :: 0 <= w < |s.ws| && s.ws[w].pc == WLen(Lock) && s.ws[w].gen < |s.segs| ==>
      s.segs[s.ws[w].gen].fileLength == 0
  }

  lemma BoundFindsZero(c: Config, s: State, w: nat)
    requires PairInv(c, s) && HeldInv(c, s) && w < |s.ws| && s.ws[w].pc == WLen(Lock)
    ensures s.ws[w].gen < |s.segs| && s.segs[s.ws[w].gen].fileLength == 0
  {
    CacheService.OwnerOf(c, s, w);
  }

  lemma AloneFindsZero(c: Config, s: State)
    requires NoDup(c.names) && Reach(c, Init(c), s)
    requires OneBufferSuffices(c) || OnlyEmptyFiles(c) || c.nworkers == 1
    ensures FindsZero(s)
  {
    if OnlyEmptyFiles(c) {
      ReachEmpty(c, s);
    } else if c.nworkers == 1 {
      ReachZero(c, s);
    } else {
      ReachInv(c, s);
      forall w | 0 <= w < |s.ws| && s.ws[w].pc == WLen(Lock)
        ensures s.ws[w].gen < |s.segs| && s.segs[s.ws[w].gen].fileLength == 0
      {
        BoundFindsZero(c, s, w);
      }
    }
  }

  /**
   For every configuration: the daemon can never exit because a length it has just reset is not 0, if and
   only if one buffer suffices, or all requested files are empty, or there is a single worker.
   */
  lemma NeverExitsIff(c: Config)
    requires NoDup(c.names) && c.nworkers > 0
    ensures (forall s :: Reach(c, Init(c), s) ==> FindsZero(s))
      <==> OneBufferSuffices(c) || OnlyEmptyFiles(c) || c.nworkers == 1
  {
    if OneBufferSuffices(c) || OnlyEmptyFiles(c) || c.nworkers == 1 {
      forall s | Reach(c, Init(c), s)
        ensures FindsZero(s)
      {
        AloneFindsZero(c, s);
      }
    } else {
      var i, k := TwoRequests(c);
      var s0, t := PostedBetween(c, i, k);
      assert With(s0, k, t).ws[1] == t.y && With(s0, k, t).segs[t.y.gen] == t.g;
      assert !FindsZero(With(s0, k, t));
    }
  }

  // ---------- completion ----------

  /** A handler that has lost its wake-up, in the length section or in the data section. */
  lemma WakeupIsLost(c: Config, h: nat) returns (s: State)
    requires c.names != [] && c.nworkers > 0 && c.cap > 0 && !SharedLayout(c.layout)
    requires h < |c.paths| && FileLen(c, c.paths[h]) != 0
    ensures Reach(c, Init(c), s) && CacheAsleep.ForgottenAt(s, h)
  {
    var s0: State, t: Trio;
    if c.paths[h] in c.files {
      s0, t := SleepsOnData(c, h);
    } else {
      s0, t := SleepsOnLength(c, h);
    }
    s := With(s0, h, t);
  }

  /**
   When one buffer does not suffice, some interleaving leaves a request without a worker: however the
   threads go on, spurious wake-ups included, its handler is never answered.
   */
  lemma OverwrittenHangs(c: Config) returns (r: State)
    requires NoDup(c.names) && c.nworkers > 0 && !OneBufferSuffices(c)
    ensures Reach(c, Init(c), r) && Stuck(c, r) && !AllDone(r)
  {
    var s := CacheOrphan.Orphaned(c, 0, 1);
    var ts: seq<Step>;
    ts, r := ComesToRest(c, s);
    CacheOrphan.StaysOrphan(c, s, 0, ts, r);
    assert !r.hs[0].pc.HDone?;
  }

  /** With the mutexes in different order, some interleaving of every workload hangs for good. */
  lemma UnsharedHangs(c: Config, h: nat) returns (r: State)
    requires NoDup(c.names) && Equipped(c) && !SharedLayout(c.layout)
    requires h < |c.paths| && FileLen(c, c.paths[h]) != 0
    ensures Reach(c, Init(c), r) && Stuck(c, r) && !AllDone(r)
  {
    if OneBufferSuffices(c) {
      var s := WakeupIsLost(c, h);
      var ts: seq<Step>;
      ts, r := ComesToRest(c, s);
      CacheAsleep.StaysForgotten(c, s, h, ts, r);
      assert !r.hs[h].pc.HDone?;
    } else {
      r := OverwrittenHangs(c);
    }
  }

  lemma NoRequestsComplete(c: Config)
    requires c.paths == []
    ensures Completes(c)
  {
    forall s | Reach(c, Init(c), s) && Stuck(c, s)
      ensures AllDone(s)
    {
      CacheTermination.ReachCounters(c, s);
    }
  }

  /**
   For every configuration with a worker, a segment and room for a byte: all interleavings end with every
   request answered if and only if no requested file is empty, the two programs agree on the order of the
   mutexes, one message buffer suffices, and no send can be cut short; or there is nothing to do.
   */
  lemma CompletesIff(c: Config)
    requires NoDup(c.names) && Equipped(c)
    ensures Completes(c) <==>
      || c.paths == []
      || (NoEmptyFile(c) && SharedLayout(c.layout) && OneBufferSuffices(c) && (!c.shortSends || NothingToSend(c)))
  {
    if c.paths == [] {
      NoRequestsComplete(c);
    } else if c.shortSends && !NothingToSend(c) {
      var h :| 0 <= h < |c.paths| && FileLen(c, c.paths[h]) > 0;
      var r := CacheAbandoned.ShortHangs(c, h);
    } else if !OneBufferSuffices(c) {
      var r := OverwrittenHangs(c);
    } else if SharedLayout(c.layout) {
      CompletesIffNoEmptyFile(c);
    } else if FileLen(c, c.paths[0]) == 0 {
      EmptyFileBlocks(c, 0);
    } else {
      var r := UnsharedHangs(c, 0);
    }
  }

  // ---------- wake-ups ----------

  /** The worker has stored and is about to signal `proxy_cond`. */
  predicate AboutToSignal(pc: WPc) { pc.WLenReset? || pc.WLenUnlock? || pc.WLenBcast? || pc.WSignal? }

  /** The handler has left a section and is about to broadcast `cache_cond`. */
  predicate AboutToBroadcast(pc: HPc) { pc.HLenUnlock? || pc.HLenBcast? || pc.HDataUnlock? || pc.HDataBcast? }

  /** A handler asleep on its segment whose condition holds has a worker there about to signal. */
  ghost predicate HandlerHasWaker(s: State, h: nat)
    requires h < |s.hs|
  {
    var x := s.hs[h];
    x.gen < |s.segs| && h in s.segs[x.gen].proxyWait
    && ((x.pc == HLen(Sleep) && s.segs[x.gen].fileLength != 0)
        || (x.pc == HData(Sleep) && s.segs[x.gen].bytesWritten != 0)) ==>
      exists w :: 0 <= w < |s.ws| && s.ws[w].gen == x.gen && AboutToSignal(s.ws[w].pc)
  }

  /** A worker asleep on a segment whose condition holds has a handler there about to broadcast. */
  ghost predicate WorkerHasWaker(s: State, w: nat)
    requires w < |s.ws|
  {
    var y := s.ws[w];
    y.gen < |s.segs| && w in s.segs[y.gen].cacheWait
    && ((y.pc == WLen(Sleep) && s.segs[y.gen].fileLength == 0)
        || (y.pc == WData(Sleep) && s.segs[y.gen].bytesWritten == 0)) ==>
      exists h :: 0 <= h < |s.hs| && s.hs[h].gen == y.gen && AboutToBroadcast(s.hs[h].pc)
  }

  /** No sleeper on a segment whose condition holds is without a thread on its way to wake it. */
  ghost predicate AllAwaited(s: State) {
    && (forall h :: 0 <= h < |s.hs| ==> HandlerHasWaker(s, h))
    && (forall w :: 0 <= w < |s.ws| ==> WorkerHasWaker(s, w))
  }

  lemma HandlerWaker(c: Config, s: State, h: nat)
    requires h < |s.hs| && HandlerAwaited(s, h)
    ensures HandlerHasWaker(s, h)
  {
  }

  lemma WorkerWaker(c: Config, s: State, w: nat)
    requires HeldInv(c, s) && PairInv(c, s) && w < |s.ws| && WorkerAwaited(s, w)
    ensures WorkerHasWaker(s, w)
  {
    if WBound(s.ws[w].pc) {
      CacheService.OwnerOf(c, s, w);
      assert s.ws[w].pc != WLen(Sleep) && s.hs[s.ws[w].msg.owner].gen == s.ws[w].gen;
    }
  }

  /** One layout and one buffer that suffices. */
  lemma SharedAwaited(c: Config, s: State)
    requires ConfigOk(c) && SharedLayout(c.layout) && Reach(c, Init(c), s)
    ensures AllAwaited(s)
  {
    NoLostWakeups(c, s);
    ReachInv(c, s);
    forall h | 0 <= h < |s.hs|
      ensures HandlerHasWaker(s, h)
    {
      HandlerWaker(c, s, h);
    }
    forall w | 0 <= w < |s.ws|
      ensures WorkerHasWaker(s, w)
    {
      WorkerWaker(c, s, w);
    }
  }

  /** Only empty files. */
  lemma EmptyAwaited(c: Config, s: State)
    requires OnlyEmptyFiles(c) && Reach(c, Init(c), s)
    ensures AllAwaited(s)
  {
    ReachEmpty(c, s);
    assert forall h :: 0 <= h < |s.hs| ==> HEmpty(s.hs[h]);
    assert forall w :: 0 <= w < |s.ws| ==> WEmpty(s.ws[w]);
  }

  lemma LoneWaker(c: Config, s: State, h: nat)
    requires |s.ws| == 1 && h < |s.hs| && LoneAt(c, s, h)
    ensures HandlerHasWaker(s, h)
  {
    if OnSeg(s, s.hs[h].gen).Busy? {
      assert s.ws[0].gen == s.hs[h].gen;
    }
  }

  lemma LoneNeverSleeps(c: Config, s: State)
    requires |s.ws| == 1
    requires WBound(s.ws[0].pc) ==> s.ws[0].pc != WLen(Sleep) && s.ws[0].pc != WData(Sleep)
    ensures forall w :: 0 <= w < |s.ws| ==> WorkerHasWaker(s, w)
  {
    assert WorkerHasWaker(s, 0);
  }

  /** One layout, one worker, and files of at most one byte. */
  lemma LoneAwaited(c: Config, s: State)
    requires SharedLayout(c.layout) && c.nworkers == 1 && ShortFiles(c) && Reach(c, Init(c), s)
    ensures AllAwaited(s)
  {
    ReachLone(c, s);
    forall h | 0 <= h < |s.hs|
      ensures HandlerHasWaker(s, h)
    {
      LoneWaker(c, s, h);
    }
    LoneNeverSleeps(c, s);
  }

  /** With the mutexes in different order: a sleeper on the length whom nobody is going to wake. */
  lemma LengthSleeperForgotten(c: Config, h: nat) returns (s: State)
    requires c.names != [] && c.nworkers > 0 && !SharedLayout(c.layout)
    requires h < |c.paths| && FileLen(c, c.paths[h]) != 0
    ensures Reach(c, Init(c), s) && !AllAwaited(s)
  {
    var s0, t := SleepsOnLength(c, h);
    s := With(s0, h, t);
    assert forall w :: 0 <= w < |s.ws| ==> !AboutToSignal(s.ws[w].pc);
    assert !HandlerHasWaker(s, h);
  }

  /** With one buffer for two requests: a worker asleep on a segment torn down under it. */
  lemma WorkerForgotten(c: Config, i: nat, k: nat, s0: State, t: Trio)
    requires At(c, s0, k, t) && Others(c, i, k, s0) && t.x.gen == 1 && (t.x.pc.HResetBytes? || t.x.pc.HUnlink?)
    requires t.w in t.g.cacheWait
    requires (t.y.pc == WLen(Sleep) && t.g.fileLength == 0) || (t.y.pc == WData(Sleep) && t.g.bytesWritten == 0)
    ensures !AllAwaited(With(s0, k, t))
  {
    var s := With(s0, k, t);
    assert s.ws[t.w] == t.y && s.segs[1] == t.g && s.hs[k] == t.x;
    assert forall h :: 0 <= h < |s.hs| && s.hs[h].gen == 1 ==> !AboutToBroadcast(s.hs[h].pc);
    assert !WorkerHasWaker(s, t.w);
  }

  lemma OverwrittenForgets(c: Config, i: nat, k: nat) returns (s: State)
    requires NoDup(c.names) && TwoOf(c, i, k) && c.cap > 0
    requires FileLen(c, c.paths[k]) > 1 || (FileLen(c, c.paths[k]) != 0 && c.nworkers > 1)
    ensures Reach(c, Init(c), s) && !AllAwaited(s)
  {
    var s0: State, t: Trio;
    if FileLen(c, c.paths[k]) > 1 {
      s0, t := EmptiedAsleep(c, i, k);
    } else {
      s0, t := ResetAsleep(c, i, k);
    }
    WorkerForgotten(c, i, k, s0, t);
    s := With(s0, k, t);
  }

  /** A request as `OverwrittenForgets` needs it, and another one. */
  lemma LongRequest(c: Config) returns (i: nat, k: nat)
    requires !OneBufferSuffices(c) && !OnlyEmptyFiles(c) && c.nworkers > 0 && (c.nworkers > 1 || !ShortFiles(c))
    ensures TwoOf(c, i, k)
    ensures FileLen(c, c.paths[k]) > 1 || (FileLen(c, c.paths[k]) != 0 && c.nworkers > 1)
  {
    if c.nworkers > 1 {
      i, k := TwoRequests(c);
    } else {
      k :| 0 <= k < |c.paths| && FileLen(c, c.paths[k]) > 1;
      i := if k == 0 then 1 else 0;
    }
  }

  /** The configurations in which no wake-up on a segment can be lost. */
  predicate KeepsWakeups(c: Config) {
    || OnlyEmptyFiles(c)
    || (SharedLayout(c.layout) && (OneBufferSuffices(c) || (c.nworkers == 1 && ShortFiles(c))))
  }

  /**
   For every configuration: no wake-up on a segment is lost if and only if only empty files are requested,
   or the layouts agree and either one buffer suffices or a single worker serves files of at most one byte.
   */
  lemma AwaitedIff(c: Config)
    requires NoDup(c.names) && c.names != [] && c.nworkers > 0 && (OneBufferSuffices(c) || c.cap > 0)
    ensures (forall s :: Reach(c, Init(c), s) ==> AllAwaited(s)) <==> KeepsWakeups(c)
  {
    if KeepsWakeups(c) {
      forall s | Reach(c, Init(c), s)
        ensures AllAwaited(s)
      {
        if OnlyEmptyFiles(c) {
          EmptyAwaited(c, s);
        } else if OneBufferSuffices(c) {
          SharedAwaited(c, s);
        } else {
          LoneAwaited(c, s);
        }
      }
    } else if SharedLayout(c.layout) {
      var i, k := LongRequest(c);
      var s := OverwrittenForgets(c, i, k);
    } else {
      var h :| 0 <= h < |c.paths| && FileLen(c, c.paths[h]) != 0;
      var s := LengthSleeperForgotten(c, h);
    }
  }

  // ---------- quiescence ----------

  /** Every requested file exists. */
  predicate NoMissingFile(c: Config) {
    forall i :: 0 <= i < |c.paths| ==> c.paths[i] in c.files
  }

  /** Under any layout, the worker of a file that exists is past its last store when the tear-down starts. */
  lemma FoundIsQuiet(c: Config, path: string, x: Handler, g: Seg, y: Worker)
    requires CountsOk(c, path, x, g, Busy(y)) && HHasGen(x.pc) && !HOpen(x.pc) && WBound(y.pc) && path in c.files
    ensures !WStores(y)
  {
  }

  lemma PresentIsQuiet(c: Config, s: State)
    requires ConfigOk(c) && NoMissingFile(c) && Reach(c, Init(c), s)
    ensures Quiet(s)
  {
    ReachInv(c, s);
    forall w, h | 0 <= w < |s.ws| && 0 <= h < |s.hs| && HHasGen(s.hs[h].pc) && !HOpen(s.hs[h].pc)
      && WBound(s.ws[w].pc) && s.ws[w].gen == s.hs[h].gen
      ensures !WStores(s.ws[w])
    {
      CacheService.OwnerOf(c, s, w);
      assert s.ws[w].msg.owner == h;
      FoundIsQuiet(c, c.paths[h], s.hs[h], s.segs[s.hs[h].gen], s.ws[w]);
    }
  }

  /** Nobody tears a segment down when only empty files are requested. */
  lemma EmptyIsOpen(c: Config, s: State)
    requires OnlyEmptyFiles(c) && Reach(c, Init(c), s)
    ensures forall h :: 0 <= h < |s.hs| && HHasGen(s.hs[h].pc) ==> HOpen(s.hs[h].pc)
  {
    ReachEmpty(c, s);
    assert forall h :: 0 <= h < |s.hs| ==> HEmpty(s.hs[h]);
  }

  /** For a missing file, a worker is about to store into a segment that is being torn down. */
  lemma StoresAfterDestroy(c: Config, h: nat) returns (s: State)
    requires c.names != [] && c.nworkers > 0 && !SharedLayout(c.layout)
    requires h < |c.paths| && c.paths[h] !in c.files
    ensures Reach(c, Init(c), s) && !Quiet(s)
  {
    var s0, t := TearsDownEarly(c, h);
    s := With(s0, h, t);
    assert WStores(s.ws[0]) && s.ws[0].gen == s.hs[h].gen;
  }

  /** With one buffer for two requests, a worker opens a segment that is being torn down. */
  lemma StoresAgain(c: Config, i: nat, k: nat) returns (s: State)
    requires NoDup(c.names) && TwoOf(c, i, k) && FileLen(c, c.paths[k]) != 0 && c.cap > 0
    ensures Reach(c, Init(c), s) && !Quiet(s)
  {
    var s0, t := OpenedAgain(c, i, k);
    s := With(s0, k, t);
    assert WStores(s.ws[0]) && s.ws[0].gen == s.hs[k].gen;
  }

  /**
   For every configuration: a segment being torn down is always left alone if and only if only empty files
   are requested, or one buffer suffices and either the layouts agree or no requested file is missing.
   */
  lemma QuietIff(c: Config)
    requires NoDup(c.names) && c.names != [] && c.nworkers > 0 && (OneBufferSuffices(c) || c.cap > 0)
    ensures (forall s :: Reach(c, Init(c), s) ==> Quiet(s))
      <==> OnlyEmptyFiles(c) || (OneBufferSuffices(c) && (SharedLayout(c.layout) || NoMissingFile(c)))
  {
    if OnlyEmptyFiles(c) || (OneBufferSuffices(c) && (SharedLayout(c.layout) || NoMissingFile(c))) {
      forall s | Reach(c, Init(c), s)
        ensures Quiet(s)
      {
        if OnlyEmptyFiles(c) {
          EmptyIsOpen(c, s);
        } else if SharedLayout(c.layout) {
          SharedIsQuiet(c, s);
        } else {
          PresentIsQuiet(c, s);
        }
      }
    } else if !OneBufferSuffices(c) {
      var i, k := TwoRequests(c);
      var s := StoresAgain(c, i, k);
    } else {
      var h :| 0 <= h < |c.paths| && c.paths[h] !in c.files;
      var s := StoresAfterDestroy(c, h);
    }
  }

  // ---------- destroyed mutexes and condition variables ----------

  /** The worker's next statement is on a condition variable, or on the mutex the handlers call `data_mutex`. */
  predicate WSyncs(c: Config, pc: WPc) {
    || pc.WLenBcast? || pc.WSignal? || pc == WLen(Wait) || pc == WData(Wait)
    || (if SharedLayout(c.layout) then pc == WData(Lock) || pc == WData(Sleep) || pc.WDataUnlock?
        else pc == WLen(Lock) || pc == WLen(Sleep) || pc.WLenUnlock?)
  }

  /** No worker is about to use what the segment's handler has destroyed. */
  ghost predicate NoUseAfterDestroy(c: Config, s: State) {
    forall w, h | 0 <= w < |s.ws| && 0 <= h < |s.hs| && HHasGen(s.hs[h].pc) && !HOpen(s.hs[h].pc)
      && WBound(s.ws[w].pc) && s.ws[w].gen == s.hs[h].gen :: !WSyncs(c, s.ws[w].pc)
  }

  lemma ClosedPair(c: Config, path: string, h: nat, x: Handler, g: Seg, w: nat, y: Worker)
    requires CountsOk(c, path, x, g, Busy(y)) && WakeOk(h, x, g, w, Busy(y)) && path in c.files
    requires HHasGen(x.pc) && !HOpen(x.pc) && WBound(y.pc)
    ensures y.pc.WLoop?
  {
  }

  lemma FoundIsDone(c: Config, s: State)
    requires ConfigOk(c) && SharedLayout(c.layout) && NoMissingFile(c) && Reach(c, Init(c), s)
    ensures NoUseAfterDestroy(c, s)
  {
    ReachInv(c, s);
    ReachLive(c, s);
    forall w, h | 0 <= w < |s.ws| && 0 <= h < |s.hs| && HHasGen(s.hs[h].pc) && !HOpen(s.hs[h].pc)
      && WBound(s.ws[w].pc) && s.ws[w].gen == s.hs[h].gen
      ensures !WSyncs(c, s.ws[w].pc)
    {
      ClosedAt(c, s, w, h);
    }
  }

  lemma ClosedAt(c: Config, s: State, w: nat, h: nat)
    requires NameInv(s) && HeldInv(c, s) && PairInv(c, s) && PairsLive(c, s) && SharedLayout(c.layout)
    requires NoMissingFile(c) && w < |s.ws| && h < |s.hs| && HHasGen(s.hs[h].pc) && !HOpen(s.hs[h].pc)
    requires WBound(s.ws[w].pc) && s.ws[w].gen == s.hs[h].gen
    ensures s.ws[w].pc.WLoop?
  {
    CacheService.OwnerOf(c, s, w);
    assert s.ws[w].msg.owner == h;
    OwnerLive(c, s, w, h);
    ClosedPair(c, c.paths[h], h, s.hs[h], s.segs[s.hs[h].gen], w, s.ws[w]);
  }

  lemma TooLate(c: Config, s0: State, h: nat, t: Trio)
    requires At(c, s0, h, t) && t.x.pc.HResetLen? && WBound(t.y.pc) && WSyncs(c, t.y.pc)
    ensures !NoUseAfterDestroy(c, With(s0, h, t))
  {
    var s := With(s0, h, t);
    assert s.ws[t.w] == t.y && s.hs[h] == t.x;
  }

  /** One of the three ways to come too late. */
  lemma UsesDestroyed(c: Config) returns (s: State)
    requires NoDup(c.names) && c.names != [] && c.nworkers > 0 && c.cap > 0 && !OnlyEmptyFiles(c)
    requires !(OneBufferSuffices(c) && SharedLayout(c.layout) && NoMissingFile(c))
    ensures Reach(c, Init(c), s) && !NoUseAfterDestroy(c, s)
  {
    var s0: State, t: Trio;
    var h: nat;
    if !NoMissingFile(c) {
      h :| 0 <= h < |c.paths| && c.paths[h] !in c.files;
      s0, t := BroadcastsLate(c, h);
    } else if !OneBufferSuffices(c) {
      var i: nat;
      i, h := TwoRequests(c);
      s0, t := PostsAgain(c, i, h);
    } else {
      h :| 0 <= h < |c.paths| && FileLen(c, c.paths[h]) != 0;
      s0, t := SignalsLate(c, h);
    }
    TooLate(c, s0, h, t);
    s := With(s0, h, t);
  }

  /**
   For every configuration: no worker uses a mutex or condition variable its segment's handler has destroyed
   if and only if only empty files are requested, or one buffer suffices, the layouts agree and no requested
   file is missing.
   */
  lemma DestroyedIff(c: Config)
    requires NoDup(c.names) && c.names != [] && c.nworkers > 0 && c.cap > 0
    ensures (forall s :: Reach(c, Init(c), s) ==> NoUseAfterDestroy(c, s))
      <==> OnlyEmptyFiles(c) || (OneBufferSuffices(c) && SharedLayout(c.layout) && NoMissingFile(c))
  {
    if OnlyEmptyFiles(c) || (OneBufferSuffices(c) && SharedLayout(c.layout) && NoMissingFile(c)) {
      forall s | Reach(c, Init(c), s)
        ensures NoUseAfterDestroy(c, s)
      {
        if OnlyEmptyFiles(c) {
          EmptyIsOpen(c, s);
        } else {
          FoundIsDone(c, s);
        }
      }
    } else {
      var s := UsesDestroyed(c);
    }
  }

  // ---------- the programs as written ----------

  /** With the struct declarations and the queued address of the source: which workloads are safe from what. */
  lemma SourceLayout(c: Config)
    requires NoDup(c.names) && Equipped(c) && c.layout == SOURCE_LAYOUT && c.alias
    ensures Completes(c) <==> c.paths == []
    ensures (forall s :: Reach(c, Init(c), s) ==> AllAwaited(s)) <==> OnlyEmptyFiles(c)
    ensures (forall s :: Reach(c, Init(c), s) ==> NoUseAfterDestroy(c, s)) <==> OnlyEmptyFiles(c)
    ensures (forall s :: Reach(c, Init(c), s) ==> Quiet(s))
      <==> OnlyEmptyFiles(c) || ((|c.names| <= 1 || |c.paths| <= 1) && NoMissingFile(c))
    ensures c.cap > 1 ==> ((forall s :: Reach(c, Init(c), s) ==> RightAnswers(c, s))
      <==> OnlyEmptyFiles(c) || |c.names| <= 1 || |c.paths| <= 1)
  {
    CompletesIff(c);
    AwaitedIff(c);
    DestroyedIff(c);
    QuietIff(c);
    if c.cap > 1 {
      AnswersIff(c);
    }
  }
}
