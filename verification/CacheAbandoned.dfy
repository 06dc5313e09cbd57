/** A send cut short: the handler returns and keeps its segment, its name and its mutex for ever. */
module CacheAbandoned {
  import opened Wrappers
  import opened Sequences
  import opened CacheModel
  import opened CacheRuns
  import opened CachePair
  import opened CacheInvariant
  import opened CacheLive
  import opened CacheProgress
  import opened CacheTheorems
  import opened CacheCompletion
  import opened CacheCrossed
  import opened CacheServed
  import CacheService

  // ---------- for good ----------

  /** Nothing but the place of its message changes. */
  ghost predicate SameHandler(s: State, s': State, h: nat) {
    h < |s.hs| && h < |s'.hs| && s'.hs[h] == s.hs[h].(loc := s'.hs[h].loc)
  }

  lemma HandlerLeaves(c: Config, s: State, i: nat, s': State, h: nat)
    requires HNext(c, s, i) == Some(s') && h < |s.hs| && s.hs[h].pc.HAbandoned?
    ensures SameHandler(s, s', h)
  {
  }

  lemma WorkerLeaves(c: Config, s: State, w: nat, n: nat, s': State, h: nat)
    requires WNext(c, s, w, n) == Some(s') && h < |s.hs|
    ensures SameHandler(s, s', h)
  {
  }

  lemma StepLeaves(c: Config, s: State, t: Step, s': State, h: nat)
    requires Next(c, s, t) == Some(s') && h < |s.hs| && s.hs[h].pc.HAbandoned?
    ensures SameHandler(s, s', h)
  {
    match t
    case HStep(i) => HandlerLeaves(c, s, i, s', h);
    case HShort(i) =>
    case WStep(w, n) => WorkerLeaves(c, s, w, n, s', h);
    case RStep => CacheService.RShape(s, s');
    case Spurious(u) => CacheService.SpuriousShape(s, u, s');
  }

  /** However the threads go on, what the client has got stays all it gets. */
  lemma {:induction false} StaysAbandoned(c: Config, s: State, h: nat, ts: seq<Step>, r: State)
    requires h < |s.hs| && s.hs[h].pc.HAbandoned? && Exec(c, s, ts) == Some(r)
    ensures SameHandler(s, r, h)
    decreases |ts|
  {
    if ts != [] {
      var front, t := ts[..|ts| - 1], ts[|ts| - 1];
      var m := Exec(c, s, front).value;
      StaysAbandoned(c, s, h, front, m);
      StepLeaves(c, m, t, r, h);
    }
  }

  // ---------- what is lost ----------

  ghost predicate CutInv(s: State) {
    forall h :: 0 <= h < |s.hs| && s.hs[h].pc.HAbandoned? ==> s.hs[h].k < s.hs[h].rlen
  }

  lemma StepCuts(c: Config, s: State, t: Step, s': State)
    requires CutInv(s) && Next(c, s, t) == Some(s')
    ensures CutInv(s')
  {
    match t
    case HStep(h) => HNoShort(c, s, h, s');
    case HShort(h) =>
    case WStep(w, n) =>
      forall h | 0 <= h < |s.hs|
        ensures SameHandler(s, s', h)
      {
        WorkerLeaves(c, s, w, n, s', h);
      }
      WHandlers(c, s, w, n, s');
    case RStep => CacheService.RShape(s, s');
    case Spurious(u) => CacheService.SpuriousShape(s, u, s');
  }

  lemma {:induction false} ExecCuts(c: Config, ts: seq<Step>, s: State)
    requires Exec(c, Init(c), ts) == Some(s)
    ensures CutInv(s)
    decreases |ts|
  {
    if ts != [] {
      var front, t := ts[..|ts| - 1], ts[|ts| - 1];
      ExecCuts(c, front, Exec(c, Init(c), front).value);
      StepCuts(c, Exec(c, Init(c), front).value, t, s);
    }
  }

  lemma AbandonedPair(c: Config, path: string, x: Handler, g: Seg, v: View)
    requires PairOk(c, path, x, g, v) && x.pc.HAbandoned? && x.k < x.rlen
    ensures path in c.files && x.header == OkHeader(|c.files[path]|)
    ensures |x.body| < |c.files[path]| && x.body == c.files[path][..|x.body|]
  {
  }

  lemma KeepsMutex(c: Config, s: State, h: nat)
    requires PairsLive(c, s) && h < |s.hs| && s.hs[h].pc.HAbandoned?
    ensures s.hs[h].gen < |s.segs| && Mutex(s.segs[s.hs[h].gen], c.layout.proxyDataFirst) == Some(H(h))
  {
    assert LiveAt(c, s, h);
  }

  /**
   The handler has announced the file and sent a beginning of it, but not all; its segment's name is not in the pool,
   and its data mutex is locked.
   */
  lemma AbandonedKeeps(c: Config, s: State, h: nat)
    requires ConfigOk(c) && Reach(c, Init(c), s) && h < |s.hs| && s.hs[h].pc.HAbandoned?
    ensures c.shortSends && h < |c.paths| && c.paths[h] in c.files
    ensures var x, file := s.hs[h], c.files[c.paths[h]];
      && x.header == OkHeader(|file|) && |x.body| < |file| && x.body == file[..|x.body|]
      && x.name in c.names && x.name !in s.pool.free
      && x.gen < |s.segs| && Mutex(s.segs[x.gen], c.layout.proxyDataFirst) == Some(H(h))
  {
    ReachInv(c, s);
    ReachLive(c, s);
    var ts :| Exec(c, Init(c), ts) == Some(s);
    ExecCuts(c, ts, s);
    assert PairAt(c, s, h) && HOwns(s.hs[h].pc);
    AbandonedPair(c, c.paths[h], s.hs[h], s.segs[s.hs[h].gen], ViewOf(s, s.hs[h]));
    KeepsMutex(c, s, h);
  }

  /** The handler holds this name for ever. */
  ghost predicate Lost(s: State, n: string) {
    exists h :: 0 <= h < |s.hs| && s.hs[h].pc.HAbandoned? && s.hs[h].name == n
  }

  lemma LostIsNotFree(c: Config, s: State, n: string)
    requires Conserved(c, s) && Lost(s, n)
    ensures n !in s.pool.free
    ensures forall i :: 0 <= i < |s.hs| && HOwns(s.hs[i].pc) && s.hs[i].name == n ==> s.hs[i].pc.HAbandoned?
  {
    var h :| 0 <= h < |s.hs| && s.hs[h].pc.HAbandoned? && s.hs[h].name == n;
    assert HOwns(s.hs[h].pc);
  }

  /** Once every segment is lost like this, the pool is empty and no other handler has a segment. */
  lemma AllSegmentsLost(c: Config, s: State)
    requires NoDup(c.names) && Reach(c, Init(c), s) && forall n :: n in c.names ==> Lost(s, n)
    ensures s.pool.free == []
    ensures forall i :: 0 <= i < |s.hs| && !s.hs[i].pc.HAbandoned? ==> !HOwns(s.hs[i].pc)
  {
    SegmentsAreConserved(c, s);
    assert s.pool.free == [] || s.pool.free[0] in c.names;
    forall n | n in c.names
      ensures n !in s.pool.free
      ensures forall i :: 0 <= i < |s.hs| && HOwns(s.hs[i].pc) && s.hs[i].name == n ==> s.hs[i].pc.HAbandoned?
    {
      LostIsNotFree(c, s, n);
    }
  }

  // ---------- exactly when ----------

  /** The client of a file that is not empty takes nothing of the first chunk. */
  lemma CutShort(c: Config, h: nat) returns (s: State)
    requires Equipped(c) && c.shortSends && h < |c.paths| && FileLen(c, c.paths[h]) > 0
    ensures Reach(c, Init(c), s) && h < |s.hs| && s.hs[h].pc.HAbandoned?
  {
    var s0 := Delivered(c, h);
    var t1 := Announces(c, s0, h, Start(c, h));
    var t2 := Fills(c, s0, h, t1, 1);
    var t3 := FindsBytes(c, s0, h, t2);
    var before := With(s0, h, t3);
    s := Next(c, before, HShort(h)).value;
    ReachNext(c, Init(c), before, HShort(h), s);
  }

  /** A send can be cut short if and only if `gfs_send` may do so and a requested file has a byte. */
  lemma AbandonedIff(c: Config)
    requires ConfigOk(c) && Equipped(c)
    ensures (exists s, h :: Reach(c, Init(c), s) && 0 <= h < |s.hs| && s.hs[h].pc.HAbandoned?)
      <==> c.shortSends && !NothingToSend(c)
  {
    if c.shortSends && !NothingToSend(c) {
      var h :| 0 <= h < |c.paths| && FileLen(c, c.paths[h]) > 0;
      var s := CutShort(c, h);
    } else {
      forall s, h | Reach(c, Init(c), s) && 0 <= h < |s.hs|
        ensures !s.hs[h].pc.HAbandoned?
      {
        ReachLive(c, s);
      }
    }
  }

  /** Its request is never answered. */
  lemma ShortHangs(c: Config, h: nat) returns (r: State)
    requires Equipped(c) && c.shortSends && h < |c.paths| && FileLen(c, c.paths[h]) > 0
    ensures Reach(c, Init(c), r) && Stuck(c, r) && !AllDone(r)
  {
    var s := CutShort(c, h);
    var ts: seq<Step>;
    ts, r := ComesToRest(c, s);
    StaysAbandoned(c, s, h, ts, r);
    assert !r.hs[h].pc.HDone?;
  }
}
