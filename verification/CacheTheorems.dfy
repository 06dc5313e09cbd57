/** What every run of the protocol keeps, for any number of handlers, workers and segments. */
module CacheTheorems {
  import opened Wrappers
  import opened Sequences
  import opened CacheModel
  import opened CacheRuns
  import opened CachePair
  import opened CacheInvariant
  import CacheFrames
  import CacheSafety
  import CacheService

  /** `init_proxy` enqueues pairwise different names. */
  ghost predicate ConfigOk(c: Config) {
    NoDup(c.names) && OneBufferSuffices(c)
  }

  lemma InitPool(c: Config)
    requires NoDup(c.names)
    ensures PoolInv(c, Init(c))
  {
  }

  lemma InitMessages(c: Config)
    ensures NameInv(Init(c)) && TicketInv(c, Init(c)) && DqInv(Init(c)) && SlotInv(c, Init(c))
  {
  }

  lemma InitInv(c: Config)
    requires NoDup(c.names)
    ensures Inv(c, Init(c))
  {
    InitPool(c);
    InitMessages(c);
    var s := Init(c);
    forall h | 0 <= h < |s.hs|
      ensures PairAt(c, s, h)
    {
    }
  }

  lemma StepKeeps(c: Config, s: State, t: Step, s': State)
    requires Inv(c, s) && OneBufferSuffices(c) && Next(c, s, t) == Some(s')
    ensures Inv(c, s')
  {
    match t
    case HStep(h) => CacheSafety.HStepKeeps(c, s, h, s');
    case HShort(h) => CacheSafety.HShortKeeps(c, s, h, s');
    case WStep(w, x) => CacheService.WStepKeeps(c, s, w, x, s');
    case RStep => CacheService.RStepKeeps(c, s, s');
    case Spurious(t) => CacheService.SpuriousKeeps(c, s, t, s');
  }

  /** The invariant holds in every state of every run. */
  lemma {:induction false} RunInv(c: Config, ss: seq<State>, ts: seq<Step>, i: nat)
    requires ConfigOk(c) && IsRun(c, ss, ts) && i < |ss|
    ensures Inv(c, ss[i])
  {
    if i == 0 {
      InitInv(c);
    } else {
      RunInv(c, ss, ts, i - 1);
      StepKeeps(c, ss[i - 1], ts[i - 1], ss[i]);
    }
  }

  /** The invariant holds in every reachable state. */
  lemma ReachInv(c: Config, s: State)
    requires ConfigOk(c) && Reach(c, Init(c), s)
    ensures Inv(c, s)
  {
    var ts :| Exec(c, Init(c), ts) == Some(s);
    var ss := ExecIsRun(c, ts, s);
    RunInv(c, ss, ts, |ts|);
  }

  // ---------- responses ----------

  /** What an atomic lookup in the cache directory would have sent. */
  ghost predicate Answered(c: Config, path: string, x: Handler) {
    if path in c.files then x.header == OkHeader(|c.files[path]|) && x.body == c.files[path]
    else x.header == NotFoundHeader && x.body == []
  }

  /**
   In every state of every interleaving the body sent so far is a prefix of the requested file, and
   a returned handler has sent exactly the atomic lookup's response; a header comes before the body, and
   the not-found one only once the segment has been given back.
   */
  lemma ResponsesRefineLookup(c: Config, s: State, h: nat)
    requires ConfigOk(c) && Reach(c, Init(c), s) && h < |s.hs|
    ensures h < |c.paths| && s.hs[h].body <= FileOf(c, c.paths[h])
    ensures s.hs[h].header != NoHeader ==> s.hs[h].header == LookupHeader(c, c.paths[h])
    ensures s.hs[h].pc.HDone? ==> Answered(c, c.paths[h], s.hs[h])
    ensures s.hs[h].header == NotFoundHeader ==> s.hs[h].pc.HDone?
    ensures s.hs[h].body != [] ==> s.hs[h].header.OkHeader?
  {
    ReachInv(c, s);
    assert PairAt(c, s, h);
    if HHasGen(s.hs[h].pc) {
      BodyIsPrefix(c, c.paths[h], s.hs[h], s.segs[s.hs[h].gen], ViewOf(s, s.hs[h]));
    }
  }

  lemma BodyIsPrefix(c: Config, path: string, x: Handler, g: Seg, v: View)
    requires PairOk(c, path, x, g, v) && HHasGen(x.pc)
    ensures x.body <= FileOf(c, path)
    ensures x.header != NoHeader ==> x.header == LookupHeader(c, path)
    ensures x.pc.HDone? ==> Answered(c, path, x)
    ensures (x.header == NotFoundHeader ==> x.pc.HDone?) && (x.body != [] ==> x.header.OkHeader?)
  {
    LenIsKnown(c, path, x, g, v);
    ResponseIsRight(c, path, x);
  }

  lemma LenIsKnown(c: Config, path: string, x: Handler, g: Seg, v: View)
    requires CountsOk(c, path, x, g, v) && HHasGen(x.pc)
    ensures HSending(x.pc) ==> path in c.files
    ensures !HOpen(x.pc) ==> x.len == FileLen(c, path)
  {
  }

  lemma ResponseIsRight(c: Config, path: string, x: Handler)
    requires ResponseOk(c, path, x) && HHasGen(x.pc)
    requires HSending(x.pc) ==> path in c.files
    requires !HOpen(x.pc) ==> x.len == FileLen(c, path)
    ensures x.body <= FileOf(c, path)
    ensures x.header != NoHeader ==> x.header == LookupHeader(c, path)
    ensures x.pc.HDone? ==> Answered(c, path, x)
    ensures (x.header == NotFoundHeader ==> x.pc.HDone?) && (x.body != [] ==> x.header.OkHeader?)
  {
  }

  /** A request for an empty file is never answered: length 0 is the sign for "not posted yet". */
  lemma EmptyFileNeverAnswered(c: Config, s: State, h: nat)
    requires ConfigOk(c) && Reach(c, Init(c), s) && h < |s.hs| && h < |c.paths| && FileLen(c, c.paths[h]) == 0
    ensures s.hs[h].header == NoHeader && !s.hs[h].pc.HDone?
  {
    ReachInv(c, s);
    assert PairAt(c, s, h);
  }

  // ---------- the slot ----------

  /**
   One-slot handoff, for any struct layout: the worker stores only into an empty slot, and what it
   has published is what the handler has consumed plus the pending chunk, which is the next piece
   of the file.
   */
  lemma HandoffIsExact(c: Config, s: State, h: nat)
    requires ConfigOk(c) && Reach(c, Init(c), s) && h < |s.hs| && HOpen(s.hs[h].pc)
    ensures h < |c.paths| && s.hs[h].gen < |s.segs|
    ensures var x, path := s.hs[h], c.paths[h];
      var g, v := s.segs[x.gen], ViewOf(s, x);
      && Published(c, path, v) == Consumed(x) + g.bytesWritten
      && Carries(g.data, FileOf(c, path), Consumed(x), g.bytesWritten)
      && (v.Busy? && WFilling(v.y.pc) ==> g.bytesWritten == 0)
      && (x.pc.HDataSend? || x.pc.HDataClear? ==> x.rlen == g.bytesWritten > 0)
  {
    ReachInv(c, s);
    assert PairAt(c, s, h);
  }

  // ---------- generations ----------

  /** A worker has mapped the generation that the sender of its message created. */
  ghost predicate Bound(s: State, w: nat)
    requires w < |s.ws|
  {
    WBound(s.ws[w].pc) ==>
      && s.ws[w].msg.owner < |s.hs| && HHasGen(s.hs[s.ws[w].msg.owner].pc)
      && s.ws[w].gen == s.hs[s.ws[w].msg.owner].gen
  }

  /** Two workers never have the same generation mapped. */
  lemma WorkersApart(c: Config, s: State, w: nat, i: nat)
    requires HeldInv(c, s) && PairInv(c, s) && NameInv(s)
    requires w < |s.ws| && i < |s.ws| && w != i && WBound(s.ws[w].pc) && WBound(s.ws[i].pc)
    ensures s.ws[w].gen != s.ws[i].gen
  {
    CacheService.OwnerOf(c, s, w);
    CacheService.OwnerOf(c, s, i);
  }

  /**
   Names are unlinked, recreated and reused, yet every worker works on its sender's generation, no
   two workers and no two handlers share one, and a live name leads to its holder's generation.
   */
  lemma GenerationsAreBound(c: Config, s: State)
    requires ConfigOk(c) && Reach(c, Init(c), s)
    ensures forall w :: 0 <= w < |s.ws| ==> Bound(s, w)
    ensures forall w, i :: 0 <= w < i < |s.ws| && WBound(s.ws[w].pc) && WBound(s.ws[i].pc) ==>
      s.ws[w].gen != s.ws[i].gen
    ensures forall h, i :: 0 <= h < i < |s.hs| && HHasGen(s.hs[h].pc) && HHasGen(s.hs[i].pc) ==>
      s.hs[h].gen != s.hs[i].gen
    ensures forall h :: 0 <= h < |s.hs| && HLive(s.hs[h].pc) ==>
      s.hs[h].name in s.ns && s.ns[s.hs[h].name] == s.hs[h].gen
  {
    ReachInv(c, s);
    forall w | 0 <= w < |s.ws|
      ensures Bound(s, w)
    {
      if WBound(s.ws[w].pc) {
        CacheService.OwnerOf(c, s, w);
      }
    }
    forall w, i | 0 <= w < i < |s.ws| && WBound(s.ws[w].pc) && WBound(s.ws[i].pc)
      ensures s.ws[w].gen != s.ws[i].gen
    {
      WorkersApart(c, s, w, i);
    }
  }

  // ---------- segments ----------

  lemma SegStepKeepsPool(c: Config, s: State, h: nat, s': State)
    requires PoolInv(c, s) && h < |s.hs| && (HLenPc(s.hs[h].pc) || HDataPc(s.hs[h].pc)) && HNext(c, s, h) == Some(s')
    ensures PoolInv(c, s')
  {
    var x', g' := CacheSafety.SegMoveOf(c, s, h, s');
    CacheSafety.HMovesPool(c, s, h, s', x', g');
  }

  lemma HandlerKeepsPool(c: Config, s: State, h: nat, s': State)
    requires PoolInv(c, s) && HNext(c, s, h) == Some(s')
    ensures PoolInv(c, s')
  {
    var x := s.hs[h];
    if HTakePc(x.pc) {
      var m := HTakeMove(h, x, s.pool).value;
      CacheSafety.TakePool(c, s, h, s', m.0, m.1);
    } else if x.pc.HUnlink? {
      CacheSafety.UnlinkPool(c, s, h, s');
    } else if HNamePc(x.pc) {
      CacheSafety.QuietPool(c, s, h, s');
    } else if HLenPc(x.pc) || HDataPc(x.pc) {
      SegStepKeepsPool(c, s, h, s');
    } else {
      var m := HGiveMove(c, h, x, s.pool).value;
      CacheSafety.GivePool(c, s, h, s', m.0, m.1);
    }
  }

  /** Steps of the other threads touch neither the pool nor a handler's place in the program. */
  ghost predicate PoolAside(s: State, s': State) {
    && s'.pool == s.pool.(readers := s'.pool.readers, writers := s'.pool.writers) && |s'.hs| == |s.hs|
    && forall h :: 0 <= h < |s.hs| ==>
      s'.hs[h].name == s.hs[h].name
      && (s'.hs[h].pc == s.hs[h].pc || (s.hs[h].pc.HDataSend? && s'.hs[h].pc.HAbandoned?))
  }

  lemma WorkerAside(c: Config, s: State, w: nat, x: nat, s': State)
    requires WNext(c, s, w, x) == Some(s')
    ensures PoolAside(s, s')
  {
  }

  lemma AsideKeepsPool(c: Config, s: State, s': State)
    requires PoolInv(c, s) && PoolAside(s, s')
    ensures PoolInv(c, s')
  {
    CacheFrames.PoolFrame(c, s, s');
  }

  lemma OthersKeepPool(c: Config, s: State, t: Step, s': State)
    requires PoolInv(c, s) && !t.HStep? && Next(c, s, t) == Some(s')
    ensures PoolInv(c, s')
  {
    match t {
      case HShort(h) =>
      case WStep(w, x) => WorkerAside(c, s, w, x, s');
      case RStep => CacheService.RShape(s, s');
      case Spurious(u) => CacheService.SpuriousShape(s, u, s');
    }
    assert PoolAside(s, s');
    AsideKeepsPool(c, s, s');
  }

  lemma {:induction false} ExecPool(c: Config, ts: seq<Step>, s: State)
    requires NoDup(c.names) && Exec(c, Init(c), ts) == Some(s)
    ensures PoolInv(c, s)
    decreases |ts|
  {
    if ts == [] {
      InitPool(c);
    } else {
      var front, t := ts[..|ts| - 1], ts[|ts| - 1];
      var m := Exec(c, Init(c), front).value;
      ExecPool(c, front, m);
      if t.HStep? {
        HandlerKeepsPool(c, m, t.h, s);
      } else {
        OthersKeepPool(c, m, t, s);
      }
    }
  }

  // ---------- linked names ----------

  /** A name is linked only while a handler uses it, and leads to that handler's generation. */
  ghost predicate LinkInv(s: State) {
    forall n :: n in s.ns ==>
      exists h :: 0 <= h < |s.hs| && HLive(s.hs[h].pc) && s.hs[h].name == n && s.hs[h].gen == s.ns[n]
  }

  /** No new name is linked, and whoever uses one that stays linked goes on using it. */
  ghost predicate KeepsLinks(s: State, s': State) {
    && (forall n :: n in s'.ns ==> n in s.ns && s'.ns[n] == s.ns[n])
    && |s'.hs| == |s.hs|
    && forall h :: 0 <= h < |s.hs| && HLive(s.hs[h].pc) && s.hs[h].name in s'.ns ==>
      HLive(s'.hs[h].pc) && s'.hs[h].name == s.hs[h].name && s'.hs[h].gen == s.hs[h].gen
  }

  lemma LinksKept(s: State, s': State)
    requires LinkInv(s) && KeepsLinks(s, s')
    ensures LinkInv(s')
  {
    forall n | n in s'.ns
      ensures exists h :: 0 <= h < |s'.hs| && HLive(s'.hs[h].pc) && s'.hs[h].name == n && s'.hs[h].gen == s'.ns[n]
    {
      var h :| 0 <= h < |s.hs| && HLive(s.hs[h].pc) && s.hs[h].name == n && s.hs[h].gen == s.ns[n];
      assert HLive(s'.hs[h].pc);
    }
  }

  lemma CreateLinks(c: Config, s: State, h: nat, s': State)
    requires LinkInv(s) && h < |s.hs| && s.hs[h].pc.HCreateOpen? && HNext(c, s, h) == Some(s')
    ensures LinkInv(s')
  {
    forall n | n in s'.ns
      ensures exists i :: 0 <= i < |s'.hs| && HLive(s'.hs[i].pc) && s'.hs[i].name == n && s'.hs[i].gen == s'.ns[n]
    {
      if n == s.hs[h].name {
        assert HLive(s'.hs[h].pc);
      } else {
        var i :| 0 <= i < |s.hs| && HLive(s.hs[i].pc) && s.hs[i].name == n && s.hs[i].gen == s.ns[n];
        assert s'.hs[i] == s.hs[i];
      }
    }
  }

  lemma SendLinks(c: Config, s: State, h: nat, s': State)
    requires h < |s.hs| && s.hs[h].pc.HSend? && HNext(c, s, h) == Some(s')
    ensures KeepsLinks(s, s')
  {
  }

  lemma UnlinkLinks(c: Config, s: State, h: nat, s': State)
    requires h < |s.hs| && (s.hs[h].pc.HCreateUnlink? || s.hs[h].pc.HUnlink?) && HNext(c, s, h) == Some(s')
    ensures KeepsLinks(s, s')
  {
  }

  lemma NameStepLinks(c: Config, s: State, h: nat, s': State)
    requires LinkInv(s) && h < |s.hs| && HNamePc(s.hs[h].pc) && HNext(c, s, h) == Some(s')
    ensures LinkInv(s')
  {
    if s.hs[h].pc.HCreateOpen? {
      CreateLinks(c, s, h, s');
    } else {
      if s.hs[h].pc.HSend? {
        SendLinks(c, s, h, s');
      } else {
        UnlinkLinks(c, s, h, s');
      }
      LinksKept(s, s');
    }
  }

  lemma SegStepLinks(c: Config, s: State, h: nat, s': State)
    requires h < |s.hs| && (HLenPc(s.hs[h].pc) || HDataPc(s.hs[h].pc)) && HNext(c, s, h) == Some(s')
    ensures KeepsLinks(s, s')
  {
    var x', g' := CacheSafety.SegMoveOf(c, s, h, s');
  }

  lemma PoolStepLinks(c: Config, s: State, h: nat, s': State)
    requires LinkInv(s) && h < |s.hs| && HNext(c, s, h) == Some(s')
    requires !HNamePc(s.hs[h].pc) && !HLenPc(s.hs[h].pc) && !HDataPc(s.hs[h].pc)
    ensures LinkInv(s')
  {
    assert !HLive(s.hs[h].pc) && s'.ns == s.ns;
    LinksKept(s, s');
  }

  lemma HandlerKeepsLinks(c: Config, s: State, h: nat, s': State)
    requires LinkInv(s) && HNext(c, s, h) == Some(s')
    ensures LinkInv(s')
  {
    var pc := s.hs[h].pc;
    if HLenPc(pc) || HDataPc(pc) {
      SegStepLinks(c, s, h, s');
      LinksKept(s, s');
    } else if HNamePc(pc) {
      NameStepLinks(c, s, h, s');
    } else {
      PoolStepLinks(c, s, h, s');
    }
  }

  /** Steps of the other threads leave names and handlers' generations alone. */
  lemma OthersKeepLinks(c: Config, s: State, t: Step, s': State)
    requires LinkInv(s) && !t.HStep? && Next(c, s, t) == Some(s')
    ensures LinkInv(s')
  {
    match t {
      case HShort(h) =>
      case WStep(w, x) => WorkerKeepsLinks(c, s, w, x, s');
      case RStep => CacheService.RShape(s, s');
      case Spurious(u) => CacheService.SpuriousShape(s, u, s');
    }
    LinksKept(s, s');
  }

  lemma WorkerKeepsLinks(c: Config, s: State, w: nat, x: nat, s': State)
    requires WNext(c, s, w, x) == Some(s')
    ensures KeepsLinks(s, s')
  {
  }

  lemma {:induction false} ExecLinks(c: Config, ts: seq<Step>, s: State)
    requires Exec(c, Init(c), ts) == Some(s)
    ensures LinkInv(s)
    decreases |ts|
  {
    if ts != [] {
      var front, t := ts[..|ts| - 1], ts[|ts| - 1];
      var m := Exec(c, Init(c), front).value;
      ExecLinks(c, front, m);
      if t.HStep? {
        HandlerKeepsLinks(c, m, t.h, s);
      } else {
        OthersKeepLinks(c, m, t, s);
      }
    }
  }

  /** A handler that uses a linked name. */
  lemma UserOf(s: State, n: string) returns (h: nat)
    requires LinkInv(s) && n in s.ns
    ensures h < |s.hs| && HLive(s.hs[h].pc) && s.hs[h].name == n
  {
    h :| 0 <= h < |s.hs| && HLive(s.hs[h].pc) && s.hs[h].name == n && s.hs[h].gen == s.ns[n];
  }

  lemma UsedIsNotFree(c: Config, s: State, h: nat)
    requires Conserved(c, s) && h < |s.hs| && HLive(s.hs[h].pc)
    ensures s.hs[h].name !in s.pool.free
  {
    assert HOwns(s.hs[h].pc);
  }

  lemma FreeIsUnlinked(c: Config, s: State, n: string)
    requires Conserved(c, s) && LinkInv(s) && n in s.pool.free
    ensures n !in s.ns
  {
    if n in s.ns {
      var h := UserOf(s, n);
      UsedIsNotFree(c, s, h);
    }
  }

  /**
   Whatever message reaches which worker: every segment name is in the pool, once, or with exactly one
   handler; a name in the pool has been unlinked, and a linked one leads to the generation of the handler
   that uses it; the counter agrees with the queue whenever the lock is free; and nobody ever waits for
   room in the pool.
   */
  lemma SegmentsAreConserved(c: Config, s: State)
    requires NoDup(c.names) && Reach(c, Init(c), s)
    ensures Conserved(c, s)
    ensures forall n :: n in s.pool.free ==> n !in s.ns
    ensures forall n :: n in s.ns ==>
      exists h :: 0 <= h < |s.hs| && HLive(s.hs[h].pc) && s.hs[h].name == n && s.hs[h].gen == s.ns[n]
    ensures s.pool.lock == None ==> s.pool.size == |s.pool.free|
    ensures forall h :: 0 <= h < |s.hs| ==> s.hs[h].pc != HGive(Wait) && s.hs[h].pc != HGive(Sleep)
  {
    var ts :| Exec(c, Init(c), ts) == Some(s);
    ExecPool(c, ts, s);
    ExecLinks(c, ts, s);
    forall n | n in s.pool.free
      ensures n !in s.ns
    {
      FreeIsUnlinked(c, s, n);
    }
  }

  // ---------- outstanding requests ----------

  /** Handlers whose message is somewhere between `mq_send` and the posting of the length. */
  ghost function Outstanding(s: State): set<nat> {
    set h: nat | h < |s.hs| && s.hs[h].loc != NotSent && !Posted(ViewOf(s, s.hs[h]))
  }

  function NameOf(s: State, h: nat): string {
    if h < |s.hs| then s.hs[h].name else ""
  }

  /** Never more outstanding messages than segments. */
  lemma OutstandingBound(c: Config, s: State)
    requires PairInv(c, s) && Conserved(c, s)
    ensures |Outstanding(s)| <= |c.names|
  {
    var f := h => NameOf(s, h);
    forall h | h in Outstanding(s)
      ensures HOwns(s.hs[h].pc) && f(h) in c.names
    {
      CacheService.OutstandingOwns(c, s, h);
    }
    forall h, i | h in Outstanding(s) && i in Outstanding(s) && f(h) == f(i)
      ensures h == i
    {
      assert HOwns(s.hs[h].pc) && HOwns(s.hs[i].pc);
    }
    InjectionSize(Outstanding(s), f, set n | n in c.names);
    SetSize(c.names);
  }

  function Owners(q: seq<Msg>): seq<nat> { seq(|q|, i requires 0 <= i < |q| => q[i].owner) }

  /** The messages in the kernel queue, in the receiver's hand and in the daemon's queue. */
  function Pending(s: State): seq<nat> {
    Owners(s.mq) + (if RHolds(s.recv.pc) then [s.recv.slot.owner] else []) + Owners(s.dq.queue)
  }

  /** Where the message of each pending request is. */
  lemma PendingAt(c: Config, s: State)
    requires TicketInv(c, s)
    ensures var a := |s.mq|;
      var b := a + if RHolds(s.recv.pc) then 1 else 0;
      forall i :: 0 <= i < |Pending(s)| ==>
        && Pending(s)[i] < |s.hs|
        && s.hs[Pending(s)[i]].loc == (if i < a then InMq else if i < b then InRecv else InDq)
  {
    forall i | 0 <= i < |s.mq|
      ensures MsgOk(c, s, s.mq[i], InMq)
    {
    }
    forall i | 0 <= i < |s.dq.queue|
      ensures MsgOk(c, s, s.dq.queue[i], InDq)
    {
    }
  }

  lemma PendingOutstanding(c: Config, s: State)
    requires TicketInv(c, s) && PairInv(c, s)
    ensures NoDup(Pending(s))
    ensures forall h :: h in Pending(s) ==> h in Outstanding(s) && !s.hs[h].loc.AtWorker?
  {
    PendingAt(c, s);
  }

  /** Workers that have popped a message and not yet posted the length. */
  ghost function Holding(s: State): set<nat> {
    set w: nat | w < |s.ws| && WBusy(s.ws[w].pc) && !WPosted(s.ws[w].pc)
  }

  function OwnerAt(s: State, w: nat): nat {
    if w < |s.ws| then s.ws[w].msg.owner else 0
  }

  lemma HoldingOutstanding(c: Config, s: State)
    requires HeldInv(c, s)
    ensures forall w :: w in Holding(s) ==> OwnerAt(s, w) in Outstanding(s) && s.hs[OwnerAt(s, w)].loc == AtWorker(w)
  {
    forall w | w in Holding(s)
      ensures OwnerAt(s, w) in Outstanding(s) && s.hs[OwnerAt(s, w)].loc == AtWorker(w)
    {
      assert MsgOk(c, s, s.ws[w].msg, AtWorker(w));
    }
  }

  lemma MessagesAddUp(s: State)
    requires NoDup(Pending(s))
    requires forall h :: h in Pending(s) ==> h in Outstanding(s) && !s.hs[h].loc.AtWorker?
    requires forall w :: w in Holding(s) ==> OwnerAt(s, w) in Outstanding(s) && s.hs[OwnerAt(s, w)].loc == AtWorker(w)
    ensures |Pending(s)| + |Holding(s)| <= |Outstanding(s)|
  {
    NoDupSize(Pending(s));
    var waiting := set h | h in Pending(s);
    InjectionSize(Holding(s), w => OwnerAt(s, w), Outstanding(s) - waiting);
    assert Outstanding(s) == waiting + (Outstanding(s) - waiting);
  }

  /**
   Messages in the kernel queue, in the receiver's hand, in the daemon's queue and with workers that
   have not posted the length yet together never exceed the number of segments.
   */
  lemma PendingBound(c: Config, s: State)
    requires PairInv(c, s) && Conserved(c, s) && TicketInv(c, s)
    ensures |s.mq| + (if RHolds(s.recv.pc) then 1 else 0) + |s.dq.queue| + |Holding(s)| <= |c.names|
  {
    OutstandingBound(c, s);
    PendingOutstanding(c, s);
    HoldingOutstanding(c, s);
    MessagesAddUp(s);
  }

  lemma OutstandingNeverExceedSegments(c: Config, s: State)
    requires ConfigOk(c) && Reach(c, Init(c), s)
    ensures |s.mq| + (if RHolds(s.recv.pc) then 1 else 0) + |s.dq.queue| + |Holding(s)| <= |c.names|
    ensures |s.mq| <= MQ_MAXMSG
  {
    ReachInv(c, s);
    PendingBound(c, s);
  }

  lemma RoomAt(c: Config, ss: seq<State>, ts: seq<Step>, i: nat)
    requires ConfigOk(c) && IsRun(c, ss, ts) && i < |ss|
    ensures DqInv(ss[i]) && |ss[i].dq.queue| + (if RHolds(ss[i].recv.pc) then 1 else 0) <= |c.names|
  {
    RunInv(c, ss, ts, i);
    PendingBound(c, ss[i]);
  }

  /** With at most 256 segments the receiver never waits for room in the daemon's queue. */
  lemma {:induction false} QueueNeverFull(c: Config, ss: seq<State>, ts: seq<Step>, i: nat)
    requires ConfigOk(c) && |c.names| <= MAX_CACHE_REQUEST_LEN && IsRun(c, ss, ts) && i < |ss|
    ensures ss[i].recv.pc != RPut(Wait) && ss[i].recv.pc != RPut(Sleep)
  {
    if i > 0 {
      QueueNeverFull(c, ss, ts, i - 1);
      RoomAt(c, ss, ts, i - 1);
      ReceiverRoom(c, ss[i - 1], ts[i - 1], ss[i]);
    }
  }

  lemma ReceiverRoom(c: Config, s: State, t: Step, s': State)
    requires DqInv(s) && |s.dq.queue| + (if RHolds(s.recv.pc) then 1 else 0) <= MAX_CACHE_REQUEST_LEN
    requires s.recv.pc != RPut(Wait) && s.recv.pc != RPut(Sleep) && Next(c, s, t) == Some(s')
    ensures s'.recv.pc != RPut(Wait) && s'.recv.pc != RPut(Sleep)
  {
    if !t.RStep? {
      OthersLeaveReceiver(c, s, t, s');
    }
  }

  lemma OthersLeaveReceiver(c: Config, s: State, t: Step, s': State)
    requires !t.RStep? && Next(c, s, t) == Some(s')
    ensures s'.recv.pc == s.recv.pc
  {
    match t
    case HStep(h) => HandlersLeaveReceiver(c, s, h, s');
    case HShort(h) =>
    case WStep(w, x) => WorkersLeaveReceiver(c, s, w, x, s');
    case Spurious(t) => CacheService.SpuriousShape(s, t, s');
  }

  lemma HandlersLeaveReceiver(c: Config, s: State, h: nat, s': State)
    requires HNext(c, s, h) == Some(s')
    ensures s'.recv == s.recv && s'.ws == s.ws && s'.dq == s.dq
  {
  }

  lemma WorkersLeaveReceiver(c: Config, s: State, w: nat, x: nat, s': State)
    requires WNext(c, s, w, x) == Some(s')
    ensures s'.recv.pc == s.recv.pc
  {
  }
}
