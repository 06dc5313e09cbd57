/**
 Every run is finite, whichever message reaches which worker: a measure decreases on every step but
 spurious wake-ups.

 `Supply` counts what is left to do until the last worker is done with the last message.  `Demand`
 counts what the handlers can do before a worker stores something again: at most one more chunk each.
 `Idle` counts the steps a thread may take inside `lock; while .. cond_wait` loops before one of the
 others gets less.
 */
module CacheTermination {
  import opened Wrappers
  import opened CacheModel
  import opened CacheRuns
  import opened CachePair
  import CacheSafety
  import CacheService

  // ---------- sums ----------

  function Total(q: seq<int>): int {
    if q == [] then 0 else Total(q[..|q| - 1]) + q[|q| - 1]
  }

  lemma {:induction false} TotalUpdate(q: seq<int>, i: nat, v: int)
    requires i < |q|
    ensures Total(q[i := v]) == Total(q) - q[i] + v
  {
    var q' := q[i := v];
    if i == |q| - 1 {
      assert q'[..|q| - 1] == q[..|q| - 1];
    } else {
      TotalUpdate(q[..|q| - 1], i, v);
      assert q'[..|q| - 1] == q[..|q| - 1][i := v];
    }
  }

  lemma {:induction false} TotalBounds(q: seq<int>, m: nat)
    requires forall i :: 0 <= i < |q| ==> 0 <= q[i] <= m
    ensures 0 <= Total(q) <= m * |q|
  {
    if q != [] {
      TotalBounds(q[..|q| - 1], m);
      assert m * |q| == m * (|q| - 1) + m;
    }
  }

  lemma {:induction false} TotalNat(q: seq<int>)
    requires forall i :: 0 <= i < |q| ==> q[i] >= 0
    ensures Total(q) >= 0
  {
    if q != [] {
      TotalNat(q[..|q| - 1]);
    }
  }

  lemma {:induction false} TotalAtMost(q: seq<int>, p: seq<int>)
    requires |q| == |p| && forall i :: 0 <= i < |q| ==> q[i] <= p[i]
    ensures Total(q) <= Total(p)
  {
    if q != [] {
      TotalAtMost(q[..|q| - 1], p[..|p| - 1]);
    }
  }

  /** One summand is smaller and no other larger. */
  lemma TotalLess(q: seq<int>, p: seq<int>, i: nat)
    requires |q| == |p| && i < |p| && q[i] < p[i] && forall j :: 0 <= j < |q| ==> q[j] <= p[j]
    ensures Total(q) < Total(p)
  {
    TotalUpdate(p, i, q[i]);
    TotalAtMost(q, p[i := q[i]]);
  }

  lemma ScaledLess(a: int, b: int, k: nat)
    requires a < b
    ensures a * k + k <= b * k
  {
    assert (a + 1) * k <= b * k;
  }

  // ---------- counters ----------

  /** No file is longer. */
  ghost function Longest(files: map<string, seq<Byte>>): (n: nat)
    ensures forall p :: p in files ==> |files[p]| <= n
    decreases |files|
  {
    if files == map[] then 0
    else
      var p :| p in files;
      var rest := files - {p};
      assert |rest| < |files| by {
        assert rest.Keys < files.Keys;
        SmallerSet(rest.Keys, files.Keys);
      }
      var n := Longest(rest);
      assert forall q :: q in files ==> q == p || (q in rest && rest[q] == files[q]);
      if |files[p]| > n then |files[p]| else n
  }

  lemma SmallerSet(a: set<string>, b: set<string>)
    requires a < b
    ensures |a| < |b|
  {
    var d := b - a;
    assert b == a + d && d != {};
  }

  ghost predicate HCounts(c: Config, x: Handler) {
    x.pc.HDataSend? ==> x.k <= x.rlen <= c.cap
  }

  ghost predicate WCounts(c: Config, y: Worker) {
    && 0 <= y.written && y.len <= Longest(c.files)
    && (y.pc.WData? || WFilling(y.pc) || WPublished(y.pc) ==> y.written < y.len)
    && (y.pc.WCopy? || y.pc.WPublish? || WPublished(y.pc) ==>
      1 <= y.n <= c.cap && y.k <= y.n && y.written + y.n <= y.len)
  }

  ghost predicate SegCounts(c: Config, g: Seg) {
    0 <= g.bytesWritten <= c.cap
  }

  /** The counters are in range; nothing is said about who holds what. */
  ghost predicate Counters(c: Config, s: State) {
    && |s.hs| == |c.paths| && |s.ws| == c.nworkers
    && (forall h :: 0 <= h < |s.hs| ==> HCounts(c, s.hs[h]))
    && (forall w :: 0 <= w < |s.ws| ==> WCounts(c, s.ws[w]))
    && (forall g :: 0 <= g < |s.segs| ==> SegCounts(c, s.segs[g]))
  }

  // ---------- what the workers have left to do ----------

  /** The handler has not sent its request yet. */
  predicate Unsent(pc: HPc) {
    || HTakePc(pc) || pc.HCreateUnlink? || pc.HCreateOpen? || pc.HInitLen? || pc.HInitBytes? || pc.HSend?
  }

  function HSupply(top: nat, x: Handler): int {
    if Unsent(x.pc) then 8 * top + 19 else 0
  }

  function WSupply(top: nat, y: Worker): int {
    var left := 8 * (y.len - y.written);
    match y.pc
    case WTakeDec => 8 * top + 12
    case WTakeUnlock => 8 * top + 11
    case WTakeSignal => 8 * top + 10
    case WGet => 8 * top + 9
    case WOpen => 8 * top + 8
    case WZero => 8 * top + 7
    case WLen(_) => 8 * top + 6
    case WLenPost => 8 * top + 5
    case WLenReset => 8 * top + 4
    case WLenUnlock => 8 * top + 3
    case WLenBcast => 8 * top + 2
    case WLoop => if left > 0 then left + 1 else 1
    case WData(_) => left
    case WPread => left - 1
    case WCopy => left - 2 - y.k
    case WPublish => left - 3 - y.n
    case WSignal => left - 4 - y.n
    case WDataUnlock => left - 5 - y.n
    case WTake(_) | WTakePop => 0
  }

  function RSupply(top: nat, pc: RPc): int {
    match pc
    case RPut(_) | RPutPush => 8 * top + 17
    case RPutInc => 3
    case RPutUnlock => 2
    case RPutBcast => 1
    case RReceive => 0
  }

  function HSupplies(top: nat, s: State): seq<int> {
    seq(|s.hs|, h requires 0 <= h < |s.hs| => HSupply(top, s.hs[h]))
  }

  function WSupplies(top: nat, s: State): seq<int> {
    seq(|s.ws|, w requires 0 <= w < |s.ws| => WSupply(top, s.ws[w]))
  }

  /** Every message costs less at its next place than where it is. */
  function Stored(top: nat, s: State): int {
    |s.mq| * (8 * top + 18) + RSupply(top, s.recv.pc) + |s.dq.queue| * (8 * top + 13)
  }

  ghost function Supply(c: Config, s: State): int {
    var top := Longest(c.files);
    Total(HSupplies(top, s)) + Stored(top, s) + Total(WSupplies(top, s))
  }

  // ---------- what the handlers have left to do ----------

  /** `full` says that there is something in the handler's slot. */
  function HDemand(c: Config, x: Handler, full: bool): int {
    var chunk := c.cap + 8;
    var more := if full then chunk else 0;
    match x.pc
    case HTake(_) => chunk + 40
    case HTakePop => chunk + 39
    case HTakeDec => chunk + 38
    case HTakeUnlock => chunk + 37
    case HTakeBcast => chunk + 36
    case HCreateUnlink => chunk + 35
    case HCreateOpen => chunk + 34
    case HInitLen => chunk + 33
    case HInitBytes => chunk + 32
    case HSend => chunk + 31
    case HLen(_) => chunk + 30
    case HLenRead => chunk + 29
    case HLenUnlock => chunk + 28
    case HLenBcast => chunk + 27
    case HHeader => chunk + 26
    case HLoop => more + 20
    case HData(_) => more + 19
    case HDataRead => chunk + 17
    case HDataSend => 24 + x.rlen - x.k
    case HDataClear => 23
    case HDataUnlock => more + 22
    case HDataBcast => more + 21
    case HResetLen => 9
    case HResetBytes => 8
    case HUnlink => 7
    case HGive(_) => 6
    case HGivePush => 5
    case HGiveInc => 4
    case HGiveUnlock => 3
    case HGiveBcast => 2
    case HNotFound => 1
    case HAbandoned | HDone => 0
  }

  predicate Full(s: State, gen: nat) {
    gen < |s.segs| && s.segs[gen].bytesWritten != 0
  }

  function HDemands(c: Config, s: State): seq<int> {
    seq(|s.hs|, h requires 0 <= h < |s.hs| => HDemand(c, s.hs[h], Full(s, s.hs[h].gen)))
  }

  function Demand(c: Config, s: State): int {
    Total(HDemands(c, s))
  }

  // ---------- steps left in waiting loops ----------

  function MonIdle(m: Mon, asleep: bool): int {
    match m case Lock => 3 case Check => 2 case Wait => 1 case Sleep => if asleep then 0 else 3
  }

  function HIdle(s: State, h: nat): int
    requires h < |s.hs|
  {
    var x := s.hs[h];
    match x.pc
    case HTake(m) => MonIdle(m, h in s.pool.readers)
    case HGive(m) => MonIdle(m, h in s.pool.writers)
    case HLen(m) => MonIdle(m, x.gen < |s.segs| && h in s.segs[x.gen].proxyWait)
    case HData(m) => MonIdle(m, x.gen < |s.segs| && h in s.segs[x.gen].proxyWait)
    case _ => 0
  }

  function WIdle(s: State, w: nat): int
    requires w < |s.ws|
  {
    var y := s.ws[w];
    match y.pc
    case WTake(m) => MonIdle(m, w in s.dq.idle)
    case WLen(m) => MonIdle(m, y.gen < |s.segs| && w in s.segs[y.gen].cacheWait)
    case WData(m) => MonIdle(m, y.gen < |s.segs| && w in s.segs[y.gen].cacheWait)
    case WTakePop => 1
    case _ => 0
  }

  function RIdle(s: State): int {
    match s.recv.pc case RPut(m) => MonIdle(m, s.recv.asleep) case RPutPush => 1 case _ => 0
  }

  function HIdles(s: State): seq<int> { seq(|s.hs|, h requires 0 <= h < |s.hs| => HIdle(s, h)) }

  function WIdles(s: State): seq<int> { seq(|s.ws|, w requires 0 <= w < |s.ws| => WIdle(s, w)) }

  function Idle(s: State): int {
    Total(HIdles(s)) + Total(WIdles(s)) + RIdle(s)
  }

  // ---------- the measure ----------

  /** More than all threads together can idle. */
  function Scale(c: Config): nat { 3 * (|c.paths| + c.nworkers + 1) + 1 }

  /** More than all handlers together can demand. */
  function DemandScale(c: Config): nat { (c.cap + 48) * |c.paths| + 1 }

  ghost function Work(c: Config, s: State): int {
    Supply(c, s) * DemandScale(c) + Demand(c, s)
  }

  ghost function Measure(c: Config, s: State): int {
    Work(c, s) * Scale(c) + Idle(s)
  }

  lemma IdleBounds(c: Config, s: State)
    requires |s.hs| == |c.paths| && |s.ws| == c.nworkers
    ensures 0 <= Idle(s) < Scale(c)
  {
    TotalBounds(HIdles(s), 3);
    TotalBounds(WIdles(s), 3);
  }

  lemma DemandBounds(c: Config, s: State)
    requires Counters(c, s)
    ensures 0 <= Demand(c, s) < DemandScale(c)
  {
    forall h | 0 <= h < |s.hs|
      ensures 0 <= HDemands(c, s)[h] <= c.cap + 48
    {
      assert HCounts(c, s.hs[h]);
    }
    TotalBounds(HDemands(c, s), c.cap + 48);
  }

  lemma SupplyNat(c: Config, s: State)
    requires Counters(c, s)
    ensures Supply(c, s) >= 0
  {
    var top := Longest(c.files);
    TotalNat(HSupplies(top, s));
    forall w | 0 <= w < |s.ws|
      ensures WSupplies(top, s)[w] >= 0
    {
      assert WCounts(c, s.ws[w]);
    }
    TotalNat(WSupplies(top, s));
    assert |s.mq| * (8 * top + 18) >= 0 && |s.dq.queue| * (8 * top + 13) >= 0;
  }

  lemma MeasureNat(c: Config, s: State)
    requires Counters(c, s)
    ensures Measure(c, s) >= 0
  {
    SupplyNat(c, s);
    DemandBounds(c, s);
    IdleBounds(c, s);
    assert Supply(c, s) * DemandScale(c) >= 0;
    assert Work(c, s) * Scale(c) >= 0;
  }

  /** Less supply; or the same and less demand; or both the same and less idling. */
  ghost predicate Closer(c: Config, s: State, s': State) {
    || Supply(c, s') < Supply(c, s)
    || (Supply(c, s') == Supply(c, s)
        && (Demand(c, s') < Demand(c, s) || (Demand(c, s') == Demand(c, s) && Idle(s') < Idle(s))))
  }

  lemma CloserIsLess(c: Config, s: State, s': State)
    requires Counters(c, s) && Counters(c, s') && Closer(c, s, s')
    ensures Measure(c, s') < Measure(c, s)
  {
    DemandBounds(c, s);
    DemandBounds(c, s');
    IdleBounds(c, s);
    IdleBounds(c, s');
    if Supply(c, s') < Supply(c, s) {
      ScaledLess(Supply(c, s'), Supply(c, s), DemandScale(c));
    }
    if Work(c, s') < Work(c, s) {
      ScaledLess(Work(c, s'), Work(c, s), Scale(c));
    }
  }

  // ---------- what a step changes ----------

  /** The queues hold as many messages and the receiver is at the same place. */
  ghost predicate SameStored(s: State, s': State) {
    |s'.mq| == |s.mq| && s'.recv.pc == s.recv.pc && |s'.dq.queue| == |s.dq.queue|
  }

  lemma StoredSame(top: nat, s: State, s': State)
    requires SameStored(s, s')
    ensures Stored(top, s') == Stored(top, s)
  {
  }

  lemma StoredOneMore(top: nat, s: State, s': State)
    requires |s'.mq| == |s.mq| + 1 && s'.recv.pc == s.recv.pc && |s'.dq.queue| == |s.dq.queue|
    ensures Stored(top, s') == Stored(top, s) + (8 * top + 18)
  {
    assert |s'.mq| * (8 * top + 18) == |s.mq| * (8 * top + 18) + (8 * top + 18);
  }

  lemma StoredOneLess(top: nat, s: State, s': State)
    requires |s'.mq| == |s.mq| && s'.recv.pc == s.recv.pc && |s'.dq.queue| == |s.dq.queue| - 1
    ensures Stored(top, s') == Stored(top, s) - (8 * top + 13)
  {
    assert |s.dq.queue| * (8 * top + 13) == |s'.dq.queue| * (8 * top + 13) + (8 * top + 13);
  }

  lemma SupplyKept(c: Config, s: State, s': State)
    requires SameStored(s, s') && |s'.hs| == |s.hs| && |s'.ws| == |s.ws|
    requires forall h :: 0 <= h < |s.hs| ==> Unsent(s'.hs[h].pc) == Unsent(s.hs[h].pc)
    requires forall top: nat, w :: 0 <= w < |s.ws| ==> WSupply(top, s'.ws[w]) == WSupply(top, s.ws[w])
    ensures Supply(c, s') == Supply(c, s)
  {
    var top := Longest(c.files);
    StoredSame(top, s, s');
    assert HSupplies(top, s') == HSupplies(top, s);
    assert WSupplies(top, s') == WSupplies(top, s);
  }

  lemma DemandKept(c: Config, s: State, s': State)
    requires |s'.hs| == |s.hs|
    requires forall h :: 0 <= h < |s.hs| ==>
      HDemand(c, s'.hs[h], Full(s', s'.hs[h].gen)) == HDemand(c, s.hs[h], Full(s, s.hs[h].gen))
    ensures Demand(c, s') == Demand(c, s)
  {
    assert HDemands(c, s') == HDemands(c, s);
  }

  /** One handler goes on; for the others no slot gets full. */
  lemma DemandFalls(c: Config, s: State, h: nat, s': State)
    requires h < |s.hs| && |s'.hs| == |s.hs| && s'.hs == s.hs[h := s'.hs[h]]
    requires forall i :: 0 <= i < |s.hs| && i != h && Full(s', s.hs[i].gen) ==> Full(s, s.hs[i].gen)
    requires HDemand(c, s'.hs[h], Full(s', s'.hs[h].gen)) < HDemand(c, s.hs[h], Full(s, s.hs[h].gen))
    ensures Demand(c, s') < Demand(c, s)
  {
    forall i | 0 <= i < |s.hs|
      ensures HDemands(c, s')[i] <= HDemands(c, s)[i]
    {
      if i != h {
        assert s'.hs[i] == s.hs[i];
      }
    }
    TotalLess(HDemands(c, s'), HDemands(c, s), h);
  }

  lemma IdleOfHandler(s: State, s': State, h: nat)
    requires |s'.hs| == |s.hs| && h < |s.hs|
    requires forall i :: 0 <= i < |s.hs| && i != h ==> HIdle(s', i) == HIdle(s, i)
    requires WIdles(s') == WIdles(s) && RIdle(s') == RIdle(s)
    ensures Idle(s') == Idle(s) - HIdle(s, h) + HIdle(s', h)
  {
    TotalUpdate(HIdles(s), h, HIdle(s', h));
    assert HIdles(s') == HIdles(s)[h := HIdle(s', h)];
  }

  lemma IdleOfWorker(s: State, s': State, w: nat)
    requires |s'.ws| == |s.ws| && w < |s.ws|
    requires forall i :: 0 <= i < |s.ws| && i != w ==> WIdle(s', i) == WIdle(s, i)
    requires HIdles(s') == HIdles(s) && RIdle(s') == RIdle(s)
    ensures Idle(s') == Idle(s) - WIdle(s, w) + WIdle(s', w)
  {
    TotalUpdate(WIdles(s), w, WIdle(s', w));
    assert WIdles(s') == WIdles(s)[w := WIdle(s', w)];
  }

  // ---------- handler steps ----------

  /** A step between two places of one waiting loop. */
  predicate HLoops(x: Handler, x': Handler) {
    || (x.pc.HTake? && x'.pc.HTake?) || (x.pc.HGive? && x'.pc.HGive?)
    || (x.pc.HLen? && x'.pc.HLen?) || (x.pc.HData? && x'.pc.HData?)
  }

  /** What a handler's own step does to it and its segment. */
  ghost predicate HGoesOn(c: Config, x: Handler, full: bool, x': Handler, full': bool) {
    && HCounts(c, x') && Unsent(x'.pc) == Unsent(x.pc)
    && (if HLoops(x, x') then HDemand(c, x', full') == HDemand(c, x, full)
        else HDemand(c, x', full') < HDemand(c, x, full))
  }

  lemma HLenOn(c: Config, h: nat, x: Handler, g: Seg, x': Handler, g': Seg)
    requires HLenMove(c, h, x, g) == Some((x', g')) && HCounts(c, x) && SegCounts(c, g)
    ensures HGoesOn(c, x, g.bytesWritten != 0, x', g'.bytesWritten != 0)
    ensures SegCounts(c, g') && (g'.bytesWritten != 0 ==> g.bytesWritten != 0)
    ensures HLoops(x, x') ==> g'.bytesWritten == g.bytesWritten
  {
  }

  lemma HDataMonOn(c: Config, h: nat, x: Handler, g: Seg, x': Handler, g': Seg)
    requires x.pc.HData?
    requires HDataMove(c, h, x, g) == Some((x', g')) && HCounts(c, x) && SegCounts(c, g)
    ensures HGoesOn(c, x, g.bytesWritten != 0, x', g'.bytesWritten != 0)
    ensures SegCounts(c, g') && (g'.bytesWritten != 0 ==> g.bytesWritten != 0)
    ensures HLoops(x, x') ==> g'.bytesWritten == g.bytesWritten
  {
  }

  lemma HDataRestOn(c: Config, h: nat, x: Handler, g: Seg, x': Handler, g': Seg)
    requires !x.pc.HData?
    requires HDataMove(c, h, x, g) == Some((x', g')) && HCounts(c, x) && SegCounts(c, g)
    ensures HGoesOn(c, x, g.bytesWritten != 0, x', g'.bytesWritten != 0)
    ensures SegCounts(c, g') && (g'.bytesWritten != 0 ==> g.bytesWritten != 0)
    ensures HLoops(x, x') ==> g'.bytesWritten == g.bytesWritten
  {
  }

  lemma HDataOn(c: Config, h: nat, x: Handler, g: Seg, x': Handler, g': Seg)
    requires HDataMove(c, h, x, g) == Some((x', g')) && HCounts(c, x) && SegCounts(c, g)
    ensures HGoesOn(c, x, g.bytesWritten != 0, x', g'.bytesWritten != 0)
    ensures SegCounts(c, g') && (g'.bytesWritten != 0 ==> g.bytesWritten != 0)
    ensures HLoops(x, x') ==> g'.bytesWritten == g.bytesWritten
  {
    if x.pc.HData? {
      HDataMonOn(c, h, x, g, x', g');
    } else {
      HDataRestOn(c, h, x, g, x', g');
    }
  }

  lemma HTakeOn(c: Config, h: nat, x: Handler, p: Pool, x': Handler, p': Pool, full: bool)
    requires HTakeMove(h, x, p) == Some((x', p'))
    ensures HGoesOn(c, x, full, x', full) && x'.gen == x.gen
  {
  }

  lemma HGiveOn(c: Config, h: nat, x: Handler, p: Pool, x': Handler, p': Pool, full: bool)
    requires HGiveMove(c, h, x, p) == Some((x', p'))
    ensures HGoesOn(c, x, full, x', full) && x'.gen == x.gen
  {
  }

  /** The waiting loop of a handler brings it closer to sleep and disturbs no one. */
  lemma HSegIdle(c: Config, s: State, h: nat, s': State, x': Handler, g': Seg)
    requires CacheSafety.HMoves(s, h, s', x', g') && HLoops(s.hs[h], x')
    requires Some((x', g')) == if HLenPc(s.hs[h].pc) then HLenMove(c, h, s.hs[h], s.segs[s.hs[h].gen])
      else HDataMove(c, h, s.hs[h], s.segs[s.hs[h].gen])
    ensures Idle(s') < Idle(s)
  {
    forall i | 0 <= i < |s.hs| && i != h
      ensures HIdle(s', i) == HIdle(s, i)
    {
    }
    assert g'.cacheWait == s.segs[s.hs[h].gen].cacheWait;
    assert forall w :: 0 <= w < |s.ws| ==> WIdle(s', w) == WIdle(s, w);
    assert WIdles(s') == WIdles(s);
    IdleOfHandler(s, s', h);
  }

  lemma HPoolIdle(c: Config, s: State, h: nat, s': State, x': Handler, p': Pool)
    requires CacheSafety.HPools(s, h, s', x', p') && HLoops(s.hs[h], x')
    requires HTakeMove(h, s.hs[h], s.pool) == Some((x', p')) || HGiveMove(c, h, s.hs[h], s.pool) == Some((x', p'))
    ensures Idle(s') < Idle(s)
  {
    forall i | 0 <= i < |s.hs| && i != h
      ensures HIdle(s', i) == HIdle(s, i)
    {
    }
    assert forall w :: 0 <= w < |s.ws| ==> WIdle(s', w) == WIdle(s, w);
    assert WIdles(s') == WIdles(s);
    IdleOfHandler(s, s', h);
  }

  lemma HOneCloser(c: Config, s: State, h: nat, s': State)
    requires h < |s.hs| && |s'.hs| == |s.hs| && s'.hs == s.hs[h := s'.hs[h]] && s'.ws == s.ws && SameStored(s, s')
    requires HGoesOn(c, s.hs[h], Full(s, s.hs[h].gen), s'.hs[h], Full(s', s'.hs[h].gen))
    requires forall i :: 0 <= i < |s.hs| && i != h && Full(s', s.hs[i].gen) ==> Full(s, s.hs[i].gen)
    requires HLoops(s.hs[h], s'.hs[h]) ==>
      Idle(s') < Idle(s) && forall i :: 0 <= i < |s.hs| ==> Full(s', s.hs[i].gen) == Full(s, s.hs[i].gen)
    ensures Closer(c, s, s')
  {
    SupplyKept(c, s, s');
    if HLoops(s.hs[h], s'.hs[h]) {
      DemandKept(c, s, s');
    } else {
      DemandFalls(c, s, h, s');
    }
  }

  lemma HSegCloser(c: Config, s: State, h: nat, s': State)
    requires Counters(c, s) && h < |s.hs| && (HLenPc(s.hs[h].pc) || HDataPc(s.hs[h].pc))
    requires HNext(c, s, h) == Some(s')
    ensures Counters(c, s') && Closer(c, s, s')
  {
    var x, g := s.hs[h], s.segs[s.hs[h].gen];
    var x', g' := CacheSafety.SegMoveOf(c, s, h, s');
    assert HCounts(c, x) && SegCounts(c, g);
    if HLenPc(x.pc) {
      HLenOn(c, h, x, g, x', g');
    } else {
      HDataOn(c, h, x, g, x', g');
    }
    if HLoops(x, x') {
      HSegIdle(c, s, h, s', x', g');
    }
    HOneCloser(c, s, h, s');
  }

  lemma HPoolCloser(c: Config, s: State, h: nat, s': State)
    requires Counters(c, s) && h < |s.hs| && HNext(c, s, h) == Some(s')
    requires !HNamePc(s.hs[h].pc) && !HLenPc(s.hs[h].pc) && !HDataPc(s.hs[h].pc)
    ensures Counters(c, s') && Closer(c, s, s')
  {
    var x := s.hs[h];
    var (x', p') := (if HTakePc(x.pc) then HTakeMove(h, x, s.pool) else HGiveMove(c, h, x, s.pool)).value;
    if HTakePc(x.pc) {
      HTakeOn(c, h, x, s.pool, x', p', Full(s, x.gen));
    } else {
      HGiveOn(c, h, x, s.pool, x', p', Full(s, x.gen));
    }
    if HLoops(x, x') {
      HPoolIdle(c, s, h, s', x', p');
    }
    HOneCloser(c, s, h, s');
  }

  lemma HSends(c: Config, s: State, h: nat, s': State)
    requires h < |s.hs| && s.hs[h].pc.HSend? && HNext(c, s, h) == Some(s')
    ensures s'.hs == s.hs[h := s.hs[h].(pc := HLen(Lock), loc := InMq)] && |s'.mq| == |s.mq| + 1
    ensures s'.recv == s.recv && s'.dq == s.dq && s'.ws == s.ws && s'.segs == s.segs
  {
  }

  lemma HSendCloser(c: Config, s: State, h: nat, s': State)
    requires Counters(c, s) && h < |s.hs| && s.hs[h].pc.HSend? && HNext(c, s, h) == Some(s')
    ensures Counters(c, s') && Closer(c, s, s')
  {
    var top := Longest(c.files);
    HSends(c, s, h, s');
    TotalUpdate(HSupplies(top, s), h, HSupply(top, s'.hs[h]));
    assert HSupplies(top, s') == HSupplies(top, s)[h := HSupply(top, s'.hs[h])];
    assert WSupplies(top, s') == WSupplies(top, s);
    StoredOneMore(top, s, s');
  }

  lemma HNameOn(c: Config, s: State, h: nat, s': State)
    requires Counters(c, s) && h < |s.hs| && HNamePc(s.hs[h].pc) && !s.hs[h].pc.HSend? && HNext(c, s, h) == Some(s')
    ensures Counters(c, s') && s'.hs == s.hs[h := s'.hs[h]] && s'.ws == s.ws && SameStored(s, s')
    ensures HGoesOn(c, s.hs[h], Full(s, s.hs[h].gen), s'.hs[h], Full(s', s'.hs[h].gen)) && !HLoops(s.hs[h], s'.hs[h])
    ensures forall gen: nat :: Full(s', gen) ==> Full(s, gen)
  {
  }

  lemma HNameCloser(c: Config, s: State, h: nat, s': State)
    requires Counters(c, s) && h < |s.hs| && HNamePc(s.hs[h].pc) && !s.hs[h].pc.HSend? && HNext(c, s, h) == Some(s')
    ensures Counters(c, s') && Closer(c, s, s')
  {
    HNameOn(c, s, h, s');
    HOneCloser(c, s, h, s');
  }

  lemma ShortCloser(c: Config, s: State, h: nat, s': State)
    requires Counters(c, s) && HShortNext(c, s, h) == Some(s')
    ensures Counters(c, s') && Closer(c, s, s')
  {
    assert HCounts(c, s.hs[h]);
    HOneCloser(c, s, h, s');
  }

  lemma HCloser(c: Config, s: State, h: nat, s': State)
    requires Counters(c, s) && HNext(c, s, h) == Some(s')
    ensures Counters(c, s') && Closer(c, s, s')
  {
    var pc := s.hs[h].pc;
    if HLenPc(pc) || HDataPc(pc) {
      HSegCloser(c, s, h, s');
    } else if pc.HSend? {
      HSendCloser(c, s, h, s');
    } else if HNamePc(pc) {
      HNameCloser(c, s, h, s');
    } else {
      HPoolCloser(c, s, h, s');
    }
  }

  // ---------- worker steps ----------

  predicate WLoops(y: Worker, y': Worker) {
    || (y.pc.WTake? && (y'.pc.WTake? || y'.pc.WTakePop?))
    || (y.pc.WLen? && y'.pc.WLen?) || (y.pc.WData? && y'.pc.WData?)
  }

  /** What a worker's own step does to it. */
  ghost predicate WGoesOn(c: Config, y: Worker, y': Worker) {
    var top := Longest(c.files);
    && WCounts(c, y')
    && (if WLoops(y, y') then forall n: nat :: WSupply(n, y') == WSupply(n, y) else WSupply(top, y') < WSupply(top, y))
  }

  lemma WLenOn(c: Config, w: nat, y: Worker, g: Seg, y': Worker, g': Seg)
    requires WLenMove(c, w, y, g) == Some((y', g')) && WCounts(c, y) && SegCounts(c, g)
    ensures WGoesOn(c, y, y') && SegCounts(c, g')
    ensures WLoops(y, y') ==> g'.bytesWritten == g.bytesWritten && g'.proxyWait == g.proxyWait
  {
  }

  lemma WDataMonOn(c: Config, w: nat, y: Worker, g: Seg, n: nat, y': Worker, g': Seg)
    requires y.pc.WData?
    requires WDataMove(c, w, y, g, n) == Some((y', g')) && WCounts(c, y) && SegCounts(c, g)
    ensures WGoesOn(c, y, y') && SegCounts(c, g')
    ensures WLoops(y, y') ==> g'.bytesWritten == g.bytesWritten && g'.proxyWait == g.proxyWait
  {
  }

  lemma WDataRestOn(c: Config, w: nat, y: Worker, g: Seg, n: nat, y': Worker, g': Seg)
    requires WBound(y.pc) && !WLenPc(y.pc) && !y.pc.WData?
    requires WDataMove(c, w, y, g, n) == Some((y', g')) && WCounts(c, y) && SegCounts(c, g)
    ensures WGoesOn(c, y, y') && SegCounts(c, g') && !WLoops(y, y')
  {
  }

  lemma WDataOn(c: Config, w: nat, y: Worker, g: Seg, n: nat, y': Worker, g': Seg)
    requires WBound(y.pc) && !WLenPc(y.pc)
    requires WDataMove(c, w, y, g, n) == Some((y', g')) && WCounts(c, y) && SegCounts(c, g)
    ensures WGoesOn(c, y, y') && SegCounts(c, g')
    ensures WLoops(y, y') ==> g'.bytesWritten == g.bytesWritten && g'.proxyWait == g.proxyWait
  {
    if y.pc.WData? {
      WDataMonOn(c, w, y, g, n, y', g');
    } else {
      WDataRestOn(c, w, y, g, n, y', g');
    }
  }

  /** Worker steps leave handlers alone but for where messages are. */
  ghost predicate HandlersStay(s: State, s': State) {
    |s'.hs| == |s.hs| && forall h :: 0 <= h < |s.hs| ==> s'.hs[h] == s.hs[h].(loc := s'.hs[h].loc)
  }

  lemma HandlersKeep(c: Config, s: State, s': State)
    requires HandlersStay(s, s')
    ensures forall top: nat :: HSupplies(top, s') == HSupplies(top, s)
    ensures Counters(c, s) ==> forall h :: 0 <= h < |s'.hs| ==> HCounts(c, s'.hs[h])
  {
    forall top: nat
      ensures HSupplies(top, s') == HSupplies(top, s)
    {
      assert forall h :: 0 <= h < |s.hs| ==> HSupply(top, s'.hs[h]) == HSupply(top, s.hs[h]);
    }
  }

  lemma WOneLess(c: Config, s: State, w: nat, s': State)
    requires w < |s.ws| && |s'.ws| == |s.ws| && s'.ws == s.ws[w := s'.ws[w]] && HandlersStay(s, s') && SameStored(s, s')
    requires WGoesOn(c, s.ws[w], s'.ws[w]) && !WLoops(s.ws[w], s'.ws[w])
    ensures Closer(c, s, s')
  {
    var top := Longest(c.files);
    HandlersKeep(c, s, s');
    StoredSame(top, s, s');
    TotalUpdate(WSupplies(top, s), w, WSupply(top, s'.ws[w]));
    assert WSupplies(top, s') == WSupplies(top, s)[w := WSupply(top, s'.ws[w])];
  }

  lemma WOneIdles(c: Config, s: State, w: nat, s': State)
    requires w < |s.ws| && |s'.ws| == |s.ws| && s'.ws == s.ws[w := s'.ws[w]] && HandlersStay(s, s') && SameStored(s, s')
    requires WGoesOn(c, s.ws[w], s'.ws[w]) && WLoops(s.ws[w], s'.ws[w])
    requires Idle(s') < Idle(s) && forall gen: nat :: Full(s', gen) == Full(s, gen)
    ensures Closer(c, s, s')
  {
    SupplyKept(c, s, s');
    DemandKept(c, s, s');
  }

  /** A worker on its segment. */
  lemma WSegOf(c: Config, s: State, w: nat, n: nat, s': State) returns (y': Worker, g': Seg)
    requires Counters(c, s) && w < |s.ws| && WBound(s.ws[w].pc) && WNext(c, s, w, n) == Some(s')
    ensures s.ws[w].gen < |s.segs| && s'.ws == s.ws[w := y'] && s'.segs == s.segs[s.ws[w].gen := g']
    ensures Some((y', g')) == if WLenPc(s.ws[w].pc) then WLenMove(c, w, s.ws[w], s.segs[s.ws[w].gen])
      else WDataMove(c, w, s.ws[w], s.segs[s.ws[w].gen], n)
    ensures s'.pool == s.pool && s'.dq == s.dq && s'.recv == s.recv && s'.mq == s.mq && HandlersStay(s, s')
  {
    var y := s.ws[w];
    var m := if WLenPc(y.pc) then WLenMove(c, w, y, s.segs[y.gen]) else WDataMove(c, w, y, s.segs[y.gen], n);
    y', g' := m.value.0, m.value.1;
  }

  lemma WSegIdle(c: Config, s: State, w: nat, s': State, n: nat, y': Worker, g': Seg)
    requires w < |s.ws| && s.ws[w].gen < |s.segs| && WLoops(s.ws[w], y') && WBound(s.ws[w].pc)
    requires s'.ws == s.ws[w := y'] && s'.segs == s.segs[s.ws[w].gen := g'] && HandlersStay(s, s')
    requires s'.pool == s.pool && s'.dq == s.dq && s'.recv == s.recv && g'.proxyWait == s.segs[s.ws[w].gen].proxyWait
    requires Some((y', g')) == if WLenPc(s.ws[w].pc) then WLenMove(c, w, s.ws[w], s.segs[s.ws[w].gen])
      else WDataMove(c, w, s.ws[w], s.segs[s.ws[w].gen], n)
    ensures Idle(s') < Idle(s)
  {
    forall i | 0 <= i < |s.ws| && i != w
      ensures WIdle(s', i) == WIdle(s, i)
    {
    }
    assert forall h :: 0 <= h < |s.hs| ==> HIdle(s', h) == HIdle(s, h);
    assert HIdles(s') == HIdles(s);
    IdleOfWorker(s, s', w);
  }

  lemma WSegCloser(c: Config, s: State, w: nat, n: nat, s': State)
    requires Counters(c, s) && w < |s.ws| && WBound(s.ws[w].pc) && WNext(c, s, w, n) == Some(s')
    ensures Counters(c, s') && Closer(c, s, s')
  {
    var y', g' := WSegOf(c, s, w, n, s');
    var y, g := s.ws[w], s.segs[s.ws[w].gen];
    assert WCounts(c, y) && SegCounts(c, g);
    if WLenPc(y.pc) {
      WLenOn(c, w, y, g, y', g');
    } else {
      WDataOn(c, w, y, g, n, y', g');
    }
    HandlersKeep(c, s, s');
    if WLoops(y, y') {
      WSegIdle(c, s, w, s', n, y', g');
      WOneIdles(c, s, w, s');
    } else {
      WOneLess(c, s, w, s');
    }
  }

  lemma WTakeIdle(c: Config, s: State, w: nat, s': State, y': Worker, d': Daemon)
    requires CacheService.WQueues(s, w, s', y', d')
    requires WTakeMove(w, s.ws[w], s.dq) == Some((y', d')) && s.ws[w].pc.WTake?
    ensures Idle(s') < Idle(s) && s'.hs == s.hs && s'.recv == s.recv
  {
    forall i | 0 <= i < |s.ws| && i != w
      ensures WIdle(s', i) == WIdle(s, i)
    {
    }
    assert forall h :: 0 <= h < |s.hs| ==> HIdle(s', h) == HIdle(s, h);
    assert HIdles(s') == HIdles(s);
    IdleOfWorker(s, s', w);
  }

  lemma WIdleCloser(c: Config, s: State, w: nat, n: nat, s': State)
    requires Counters(c, s) && w < |s.ws| && s.ws[w].pc.WTake? && WNext(c, s, w, n) == Some(s')
    ensures Counters(c, s') && Closer(c, s, s')
  {
    var (y', d') := WTakeMove(w, s.ws[w], s.dq).value;
    assert WCounts(c, s.ws[w]);
    WTakeIdle(c, s, w, s', y', d');
    WOneIdles(c, s, w, s');
  }

  lemma WPops(c: Config, s: State, w: nat, n: nat, s': State)
    requires w < |s.ws| && WCounts(c, s.ws[w]) && s.ws[w].pc.WTakePop? && WNext(c, s, w, n) == Some(s')
    ensures |s'.ws| == |s.ws| && s'.ws == s.ws[w := s'.ws[w]] && s'.segs == s.segs && HandlersStay(s, s')
    ensures WCounts(c, s'.ws[w]) && s'.ws[w].pc.WTakeDec?
    ensures s'.mq == s.mq && s'.recv == s.recv && |s'.dq.queue| == |s.dq.queue| - 1
  {
  }

  lemma WPopCloser(c: Config, s: State, w: nat, n: nat, s': State)
    requires Counters(c, s) && w < |s.ws| && s.ws[w].pc.WTakePop? && WNext(c, s, w, n) == Some(s')
    ensures Counters(c, s') && Closer(c, s, s')
  {
    var top := Longest(c.files);
    WPops(c, s, w, n, s');
    HandlersKeep(c, s, s');
    TotalUpdate(WSupplies(top, s), w, WSupply(top, s'.ws[w]));
    assert WSupplies(top, s') == WSupplies(top, s)[w := WSupply(top, s'.ws[w])];
    StoredOneLess(top, s, s');
  }

  lemma WFindOn(c: Config, s: State, w: nat, n: nat, s': State)
    requires w < |s.ws| && WCounts(c, s.ws[w]) && WNext(c, s, w, n) == Some(s')
    requires s.ws[w].pc.WTakeDec? || s.ws[w].pc.WTakeUnlock? || WFindPc(s.ws[w].pc)
    ensures |s'.ws| == |s.ws| && s'.ws == s.ws[w := s'.ws[w]] && s'.hs == s.hs && s'.segs == s.segs && SameStored(s, s')
    ensures WGoesOn(c, s.ws[w], s'.ws[w]) && !WLoops(s.ws[w], s'.ws[w])
  {
  }

  lemma WFindCloser(c: Config, s: State, w: nat, n: nat, s': State)
    requires Counters(c, s) && w < |s.ws| && WNext(c, s, w, n) == Some(s')
    requires s.ws[w].pc.WTakeDec? || s.ws[w].pc.WTakeUnlock? || WFindPc(s.ws[w].pc)
    ensures Counters(c, s') && Closer(c, s, s')
  {
    WFindOn(c, s, w, n, s');
    WOneLess(c, s, w, s');
  }

  lemma WCloser(c: Config, s: State, w: nat, n: nat, s': State)
    requires Counters(c, s) && WNext(c, s, w, n) == Some(s')
    ensures Counters(c, s') && Closer(c, s, s')
  {
    var pc := s.ws[w].pc;
    if WBound(pc) {
      WSegCloser(c, s, w, n, s');
    } else if pc.WTake? {
      WIdleCloser(c, s, w, n, s');
    } else if pc.WTakePop? {
      WPopCloser(c, s, w, n, s');
    } else {
      WFindCloser(c, s, w, n, s');
    }
  }

  // ---------- receiver steps ----------

  lemma RShape(c: Config, s: State, s': State)
    requires Counters(c, s) && RNext(s) == Some(s')
    ensures Counters(c, s') && s'.ws == s.ws && s'.segs == s.segs && s'.pool == s.pool && HandlersStay(s, s')
  {
  }

  /** In its waiting loop the receiver comes closer to sleep or to the push. */
  lemma RWaits(top: nat, s: State, s': State)
    requires s.recv.pc.RPut? && RNext(s) == Some(s')
    ensures s'.hs == s.hs && s'.dq.idle == s.dq.idle && Stored(top, s') == Stored(top, s) && RIdle(s') < RIdle(s)
  {
  }

  lemma RWaitCloser(c: Config, s: State, s': State)
    requires Counters(c, s) && s.recv.pc.RPut? && RNext(s) == Some(s')
    ensures Closer(c, s, s')
  {
    var top := Longest(c.files);
    RShape(c, s, s');
    RWaits(top, s, s');
    assert HSupplies(top, s') == HSupplies(top, s) && WSupplies(top, s') == WSupplies(top, s);
    DemandKept(c, s, s');
    assert HIdles(s') == HIdles(s);
    assert WIdles(s') == WIdles(s);
  }

  lemma RReceives(top: nat, s: State, s': State)
    requires s.recv.pc.RReceive? && RNext(s) == Some(s')
    ensures Stored(top, s') < Stored(top, s)
  {
    assert |s.mq| * (8 * top + 18) == |s'.mq| * (8 * top + 18) + (8 * top + 18);
  }

  lemma RPushes(top: nat, s: State, s': State)
    requires s.recv.pc.RPutPush? && RNext(s) == Some(s')
    ensures Stored(top, s') < Stored(top, s)
  {
    assert |s'.dq.queue| * (8 * top + 13) == |s.dq.queue| * (8 * top + 13) + (8 * top + 13);
  }

  lemma RMovesCloser(c: Config, s: State, s': State)
    requires Counters(c, s) && !s.recv.pc.RPut? && RNext(s) == Some(s')
    ensures Closer(c, s, s')
  {
    var top := Longest(c.files);
    if s.recv.pc.RReceive? {
      RReceives(top, s, s');
    } else if s.recv.pc.RPutPush? {
      RPushes(top, s, s');
    }
    assert Stored(top, s') < Stored(top, s);
    RShape(c, s, s');
    HandlersKeep(c, s, s');
    assert WSupplies(top, s') == WSupplies(top, s);
  }

  lemma RCloser(c: Config, s: State, s': State)
    requires Counters(c, s) && RNext(s) == Some(s')
    ensures Counters(c, s') && Closer(c, s, s')
  {
    RShape(c, s, s');
    if s.recv.pc.RPut? {
      RWaitCloser(c, s, s');
    } else {
      RMovesCloser(c, s, s');
    }
  }

  // ---------- steps ----------

  lemma StepCloser(c: Config, s: State, t: Step, s': State)
    requires Counters(c, s) && !t.Spurious? && Next(c, s, t) == Some(s')
    ensures Counters(c, s') && Closer(c, s, s')
  {
    match t
    case HStep(h) => HCloser(c, s, h, s');
    case HShort(h) => ShortCloser(c, s, h, s');
    case WStep(w, n) => WCloser(c, s, w, n, s');
    case RStep => RCloser(c, s, s');
  }

  /** Every step a thread takes of its own decreases the measure. */
  lemma StepDecreases(c: Config, s: State, t: Step, s': State)
    requires Counters(c, s) && !t.Spurious? && Next(c, s, t) == Some(s')
    ensures Counters(c, s') && 0 <= Measure(c, s') < Measure(c, s)
  {
    StepCloser(c, s, t, s');
    CloserIsLess(c, s, s');
    MeasureNat(c, s');
  }

  /** A spurious wake-up adds no work and at most a round of one waiting loop. */
  lemma SpuriousAdds(c: Config, s: State, t: Tid, s': State)
    requires SpuriousNext(s, t) == Some(s')
    ensures Counters(c, s) ==> Counters(c, s')
    ensures Measure(c, s') <= Measure(c, s) + 3
  {
    CacheService.SpuriousShape(s, t, s');
    SupplyKept(c, s, s');
    DemandKept(c, s, s');
    SpuriousIdle(s, t, s');
  }

  lemma SpuriousIdle(s: State, t: Tid, s': State)
    requires SpuriousNext(s, t) == Some(s')
    ensures Idle(s') <= Idle(s) + 3
  {
    match t
    case H(h) => SpuriousIdleH(s, h, s');
    case W(w) => SpuriousIdleW(s, w, s');
    case R =>
      assert HIdles(s') == HIdles(s);
      assert WIdles(s') == WIdles(s);
  }

  lemma SpuriousIdleH(s: State, h: nat, s': State)
    requires SpuriousNext(s, H(h)) == Some(s')
    ensures Idle(s') <= Idle(s) + 3
  {
    assert forall w :: 0 <= w < |s.ws| ==> WIdle(s', w) == WIdle(s, w);
    assert WIdles(s') == WIdles(s);
    IdleOfHandler(s, s', h);
  }

  lemma SpuriousIdleW(s: State, w: nat, s': State)
    requires SpuriousNext(s, W(w)) == Some(s')
    ensures Idle(s') <= Idle(s) + 3
  {
    assert forall h :: 0 <= h < |s.hs| ==> HIdle(s', h) == HIdle(s, h);
    assert HIdles(s') == HIdles(s);
    IdleOfWorker(s, s', w);
  }

  // ---------- runs ----------

  /** How many steps are spurious wake-ups. */
  function SpuriousCount(ts: seq<Step>): nat {
    if ts == [] then 0
    else SpuriousCount(ts[..|ts| - 1]) + if ts[|ts| - 1].Spurious? then 1 else 0
  }

  lemma StepPays(c: Config, s: State, t: Step, s': State)
    requires Counters(c, s) && Next(c, s, t) == Some(s')
    ensures Counters(c, s')
    ensures Measure(c, s') + 1 <= Measure(c, s) + if t.Spurious? then 4 else 0
  {
    if t.Spurious? {
      SpuriousAdds(c, s, t.t, s');
    } else {
      StepDecreases(c, s, t, s');
    }
  }

  lemma InitCounters(c: Config)
    ensures Counters(c, Init(c))
  {
  }

  lemma {:induction false} PrefixLength(c: Config, ss: seq<State>, ts: seq<Step>, n: nat)
    requires IsRun(c, ss, ts) && n <= |ts|
    ensures Counters(c, ss[n])
    ensures n + Measure(c, ss[n]) <= Measure(c, Init(c)) + 4 * SpuriousCount(ts[..n])
  {
    if n == 0 {
      InitCounters(c);
    } else {
      PrefixLength(c, ss, ts, n - 1);
      StepPays(c, ss[n - 1], ts[n - 1], ss[n]);
      assert ts[..n][..n - 1] == ts[..n - 1];
    }
  }

  lemma ReachCounters(c: Config, s: State)
    requires Reach(c, Init(c), s)
    ensures Counters(c, s)
  {
    var ts :| Exec(c, Init(c), ts) == Some(s);
    var ss := ExecIsRun(c, ts, s);
    PrefixLength(c, ss, ts, |ts|);
  }

  /**
   For every configuration, no run is longer than the measure of its initial state plus four steps for
   every spurious wake-up: every finite workload comes to rest, whatever the scheduler does.
   */
  lemma RunLength(c: Config, ss: seq<State>, ts: seq<Step>)
    requires IsRun(c, ss, ts)
    ensures |ts| <= Measure(c, Init(c)) + 4 * SpuriousCount(ts)
  {
    PrefixLength(c, ss, ts, |ts|);
    assert ts[..|ts|] == ts;
    MeasureNat(c, ss[|ts|]);
  }
}
