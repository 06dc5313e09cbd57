/** What the daemon's one message buffer does to two requests: both pointers lead to the second. */
module CacheMisdirected {
  import opened Wrappers
  import opened Sequences
  import opened CacheModel
  import opened CacheRuns
  import opened CacheScenarios
  import opened CacheCrossed
  import opened CacheServed

  /** The request of handler `h` on segment number `n`. */
  function Request(c: Config, h: nat, n: nat): Msg
    requires h < |c.paths| && n < |c.names|
  {
    Msg(c.paths[h], c.names[n], h)
  }

  /** Two segments, two requests, one buffer. */
  predicate TwoOf(c: Config, i: nat, k: nat) {
    |c.names| >= 2 && i < |c.paths| && k < |c.paths| && i != k && c.nworkers > 0 && c.alias
  }

  /** Both handlers have sent their requests. */
  lemma TwoSent(c: Config, i: nat, k: nat) returns (s: State)
    requires NoDup(c.names) && TwoOf(c, i, k)
    ensures Reach(c, Init(c), s) && s.hs == Init(c).hs[i := Sent(c, 0, InMq)][k := Sent(c, 1, InMq)]
    ensures s.ns == map[c.names[0] := 0, c.names[1] := 1] && s.segs == [FreshSeg(c), FreshSeg(c)]
    ensures s.mq == [Request(c, i, 0), Request(c, k, 1)] && s.ws == Init(c).ws && s.dq == Init(c).dq
    ensures s.recv == Init(c).recv
  {
    var z := Init(c);
    var s2 := RequestSent(c, i);
    var s3 := AfterTake(s2, k);
    TakeAlone(c, s2, k);
    ReachJoin(c, z, s2, s3);
    assert s3.hs[k] == z.hs[k].(pc := HCreateUnlink, name := c.names[1]);
    s := AfterSend(c, s3, k);
    SendAlone(c, s3, k);
    ReachJoin(c, z, s3, s);
    assert s.hs[k] == Sent(c, 1, InMq);
  }

  /** Both are in the daemon's queue, as two pointers to the second. */
  lemma TwoQueued(c: Config, i: nat, k: nat) returns (s: State)
    requires NoDup(c.names) && TwoOf(c, i, k)
    ensures Reach(c, Init(c), s) && s.hs == Init(c).hs[i := Sent(c, 0, InDq)][k := Sent(c, 1, InDq)]
    ensures s.ns == map[c.names[0] := 0, c.names[1] := 1] && s.segs == [FreshSeg(c), FreshSeg(c)]
    ensures s.mq == [] && s.ws == Init(c).ws
    ensures s.dq == Daemon([Request(c, i, 0), Request(c, k, 1)], 2, None, {})
    ensures s.recv == Receiver(RReceive, Request(c, k, 1), false)
  {
    var z := Init(c);
    var s1 := TwoSent(c, i, k);
    var s2 := AfterQueue(s1);
    QueueAlone(c, s1);
    ReachJoin(c, z, s1, s2);
    assert s2.hs[i] == Sent(c, 0, InDq) && s2.mq == [Request(c, k, 1)];
    s := AfterQueue(s2);
    QueueAlone(c, s2);
    ReachJoin(c, z, s2, s);
    assert s.hs[k] == Sent(c, 1, InDq);
  }

  /** The worker as it opens the segment of the second request. */
  function Misled(c: Config, k: nat, m: Msg): Worker
    requires k < |c.paths|
  {
    Worker(WZero, m, 1, Found(c, c.paths[k]), FileLen(c, c.paths[k]), 0, 0, 0)
  }

  /** A worker takes the first pointer and opens the second request's segment. */
  lemma FirstTaken(c: Config, i: nat, k: nat) returns (s: State)
    requires NoDup(c.names) && TwoOf(c, i, k)
    ensures Reach(c, Init(c), s) && s.hs == Init(c).hs[i := Sent(c, 0, AtWorker(0))][k := Sent(c, 1, InDq)]
    ensures s.ns == map[c.names[0] := 0, c.names[1] := 1] && s.segs == [FreshSeg(c), FreshSeg(c)]
    ensures s.ws == Init(c).ws[0 := Misled(c, k, Request(c, i, 0))]
    ensures s.dq == Daemon([Request(c, k, 1)], 1, None, {})
    ensures s.recv == Receiver(RReceive, Request(c, k, 1), false)
  {
    var z := Init(c);
    var s1 := TwoQueued(c, i, k);
    var s2 := AfterPop(s1, 0);
    PopAlone(c, s1, 0);
    ReachJoin(c, z, s1, s2);
    assert s2.hs[i] == Sent(c, 0, AtWorker(0));
    s := AfterOpen(c, s2, 0);
    OpenAlone(c, s2, 0);
    ReachJoin(c, z, s2, s);
    assert s.ws[0] == Misled(c, k, Request(c, i, 0));
  }

  /** The worker in front of the second request's segment. */
  lemma Misdelivered(c: Config, i: nat, k: nat) returns (s: State, t: Trio)
    requires NoDup(c.names) && TwoOf(c, i, k)
    ensures At(c, s, k, t) && t == Trio(Sent(c, 1, InDq), 0, Misled(c, k, Request(c, i, 0)), FreshSeg(c))
    ensures Opened(c, t) && With(s, k, t) == s
    ensures s.hs == Init(c).hs[i := Sent(c, 0, AtWorker(0))][k := Sent(c, 1, InDq)]
    ensures s.ns == map[c.names[0] := 0, c.names[1] := 1] && |s.segs| == 2
    ensures s.ws == Init(c).ws[0 := t.y]
    ensures s.dq == Daemon([Request(c, k, 1)], 1, None, {})
    ensures s.recv == Receiver(RReceive, Request(c, k, 1), false)
  {
    s := FirstTaken(c, i, k);
    t := Trio(s.hs[k], 0, s.ws[0], s.segs[1]);
    assert With(s, k, t) == s;
  }

  /** Worker `w` takes the second pointer, which leads to the same segment. */
  lemma SecondTaken(c: Config, s: State, k: nat, w: nat) returns (s': State, t': Trio)
    requires Reach(c, Init(c), s) && |c.names| >= 2 && k < |s.hs| && k < |c.paths| && c.alias
    requires w < |s.ws| && s.ws[w].pc == WTake(Lock) && s.dq == Daemon([Request(c, k, 1)], 1, None, {})
    requires s.recv.slot == Request(c, k, 1) && c.names[1] in s.ns && s.ns[c.names[1]] == 1
    requires s.hs[k].gen == 1 && |s.segs| == 2
    ensures At(c, s', k, t') && t'.x == s.hs[k].(loc := AtWorker(w)) && t'.w == w && t'.g == s.segs[1]
    ensures t'.y == Misled(c, k, Request(c, k, 1)).(n := t'.y.n, k := t'.y.k)
    ensures s' == s.(hs := s.hs[k := t'.x], ws := s.ws[w := t'.y], dq := s'.dq, recv := s'.recv)
    ensures With(s', k, t') == s'
  {
    var s1 := AfterPop(s, w);
    PopAlone(c, s, w);
    ReachJoin(c, Init(c), s, s1);
    s' := AfterOpen(c, s1, w);
    OpenAlone(c, s1, w);
    ReachJoin(c, Init(c), s1, s');
    t' := Trio(s'.hs[k], w, s'.ws[w], s'.segs[1]);
    assert With(s', k, t') == s';
  }

  // ---------- one request's path, another's segment ----------

  /** Another handler posts its request, and the receiver takes it into the one buffer. */
  lemma BufferOverwritten(c: Config, s: State, j: nat) returns (s': State)
    requires Reach(c, Init(c), s) && j < |c.paths| && j < |s.hs| && s.hs[j] == Init(c).hs[j] && |s.segs| == 1
    requires s.pool.lock == None && s.pool.size != 0 && s.pool.free != [] && s.mq == [] && s.recv.pc.RReceive?
    ensures Reach(c, Init(c), s') && |s'.hs| == |s.hs| && s'.ws == s.ws
    ensures s'.recv.slot == Msg(c.paths[j], s.pool.free[0], j)
    ensures s.pool.free[0] in s'.ns && s'.ns[s.pool.free[0]] == 1
    ensures s'.segs == s.segs + [FreshSeg(c)]
    ensures s'.hs[j].pc == HLen(Lock) && s'.hs[j].gen == 1 && s'.hs[j].transferred == 0
  {
    var i := Init(c);
    var s1 := AfterTake(s, j);
    TakeAlone(c, s, j);
    ReachJoin(c, i, s, s1);
    var s2 := AfterSend(c, s1, j);
    SendAlone(c, s1, j);
    ReachJoin(c, i, s1, s2);
    assert s2.mq == [Msg(c.paths[j], s.pool.free[0], j)];
    s' := Go(c, i, s2, RStep);
  }

  /** The worker has read the path of the first message and not yet its name. */
  lemma PathRead(c: Config, i: nat, j: nat) returns (s: State)
    requires c.names != [] && c.nworkers > 0 && i < |c.paths| && j < |c.paths| && i != j
    ensures Reach(c, Init(c), s) && |s.hs| == |c.paths| && |s.ws| == c.nworkers && |s.segs| == 1
    ensures s.ws[0] == Start(c, i).y.(pc := WOpen, gen := 0)
    ensures s.hs[j] == Init(c).hs[j] && s.mq == [] && s.recv.pc.RReceive?
    ensures s.pool == Pool(c.names[1..], |c.names| - 1, None, {}, {})
  {
    var s1 := RequestTaken(c, i);
    s := Go(c, Init(c), s1, WStep(0, 0));
    assert s == s1.(ws := s.ws);
    assert s.ws[0] == Start(c, i).y.(pc := WOpen, gen := 0);
  }

  /** The worker opens the segment of the second request to serve the file of the first. */
  lemma WrongFileServed(c: Config, i: nat, j: nat) returns (s: State, t: Trio)
    requires |c.names| >= 2 && c.nworkers > 0 && c.alias && i < |c.paths| && j < |c.paths| && i != j
    ensures At(c, s, j, t) && t.g == FreshSeg(c)
    ensures t.y.pc.WZero? && t.y.len == FileLen(c, c.paths[i])
    ensures t.x.pc == HLen(Lock) && t.x.transferred == 0
  {
    var s1 := PathRead(c, i, j);
    var s2 := BufferOverwritten(c, s1, j);
    s := Go(c, Init(c), s2, WStep(0, 0));
    assert s == s2.(ws := s2.ws[0 := s2.ws[0].(pc := WZero, gen := 1)]);
    t := Trio(s.hs[j], 0, s.ws[0], s.segs[1]);
    assert With(s, j, t) == s;
  }

  // ---------- one segment served twice ----------

  /** Everybody but the second request's handler, its segment and the workers stands still. */
  predicate Others(c: Config, i: nat, k: nat, s: State) {
    && |s.hs| == |c.paths| && i < |s.hs| && s.hs[i].gen == 0 && |s.segs| == 2 && |s.ws| == c.nworkers
    && (forall h :: 0 <= h < |s.hs| && h != i && h != k ==> s.hs[h] == Init(c).hs[h])
  }

  /** The segment has been served, is being torn down, and the worker opens it through the second pointer. */
  lemma OpenedAgain(c: Config, i: nat, k: nat) returns (s: State, t: Trio)
    requires NoDup(c.names) && TwoOf(c, i, k) && FileLen(c, c.paths[k]) != 0 && c.cap > 0
    ensures At(c, s, k, t) && Others(c, i, k, s) && t.x.gen == 1 && t.w == 0
    ensures t.x.pc.HResetLen? && t.y.pc.WZero? && t.y.written == 0 && t.y.len == FileLen(c, c.paths[k])
    ensures t.y.fd == Found(c, c.paths[k]) && Calm(t.g) && t.g.bytesWritten == 0 && |t.g.data| == c.cap
  {
    var s0, t0 := Misdelivered(c, i, k);
    var s1, t1 := Serves(c, s0, k, t0);
    s, t := SecondTaken(c, With(s1, k, t1), k, 0);
  }

  /** The worker has posted once more and is about to broadcast on the segment being torn down. */
  lemma PostsAgain(c: Config, i: nat, k: nat) returns (s: State, t: Trio)
    requires NoDup(c.names) && TwoOf(c, i, k) && FileLen(c, c.paths[k]) != 0 && c.cap > 0
    ensures At(c, s, k, t) && Others(c, i, k, s) && t.x.gen == 1 && t.w == 0
    ensures t.x.pc.HResetLen? && t.y.pc.WLenBcast? && t.y.written == 0 && t.y.len == FileLen(c, c.paths[k])
    ensures t.y.fd == Found(c, c.paths[k]) && Calm(t.g) && t.g.bytesWritten == 0 && |t.g.data| == c.cap
  {
    var t0: Trio;
    s, t0 := OpenedAgain(c, i, k);
    t := PostsAlone(c, s, k, t0);
  }

  /** It fills the slot once more. */
  lemma FillsAgain(c: Config, i: nat, k: nat) returns (s: State, t: Trio)
    requires NoDup(c.names) && TwoOf(c, i, k) && FileLen(c, c.paths[k]) > 1 && c.cap > 0
    ensures At(c, s, k, t) && Others(c, i, k, s) && t.x.gen == 1 && t.w == 0
    ensures t.x.pc.HResetLen? && t.y.pc.WLoop? && t.y.written == 1 < t.y.len
    ensures Calm(t.g) && t.g.bytesWritten == 1
  {
    var t0: Trio;
    s, t0 := PostsAgain(c, i, k);
    var t1 := WGoes(c, s, k, t0, 0);
    assert t1 == t0.(y := t0.y.(pc := WLoop));
    t := Fills(c, s, k, t1, 1);
  }

  /** It waits for room in the slot. */
  lemma WaitsForRoom(c: Config, s: State, h: nat, t: Trio) returns (t': Trio)
    requires At(c, s, h, t) && t.y.pc.WLoop? && t.y.written < t.y.len && Calm(t.g) && t.g.bytesWritten != 0
    ensures At(c, s, h, t') && t' == t.(y := t.y.(pc := WData(Sleep)), g := t.g.(cacheWait := {t.w}))
  {
    var t1 := WGoes(c, s, h, t, 0);
    assert t1 == t.(y := t.y.(pc := WData(Lock)));
    var t2 := WGoes(c, s, h, t1, 0);
    var t3 := WGoes(c, s, h, t2, 0);
    assert t3 == t2.(y := t.y.(pc := WData(Wait)));
    t' := WGoes(c, s, h, t3, 0);
  }

  /** The tear-down empties the slot under the sleeping worker and wakes nobody. */
  lemma EmptiedAsleep(c: Config, i: nat, k: nat) returns (s: State, t: Trio)
    requires NoDup(c.names) && TwoOf(c, i, k) && FileLen(c, c.paths[k]) > 1 && c.cap > 0
    ensures At(c, s, k, t) && Others(c, i, k, s) && t.x.gen == 1 && t.w == 0
    ensures t.x.pc.HUnlink? && t.y.pc == WData(Sleep) && t.g.bytesWritten == 0 && 0 in t.g.cacheWait
  {
    var t0: Trio;
    s, t0 := FillsAgain(c, i, k);
    var t1 := WaitsForRoom(c, s, k, t0);
    var t2 := HGoes(c, s, k, t1);
    assert t2 == t1.(x := t1.x.(pc := HResetBytes), g := t1.g.(fileLength := 0));
    t := HGoes(c, s, k, t2);
  }

  // ---------- one segment served by two workers at once ----------

  /** Two workers have opened the second request's segment. */
  lemma BothOpened(c: Config, i: nat, k: nat) returns (s: State, t: Trio)
    requires NoDup(c.names) && TwoOf(c, i, k) && c.nworkers > 1
    ensures At(c, s, k, t) && Others(c, i, k, s) && t.x == Sent(c, 1, AtWorker(1)) && t.w == 1 && t.g == FreshSeg(c)
    ensures t.y.pc.WZero? && t.y.gen == 1 && s.ws[0] == Misled(c, k, Request(c, i, 0))
  {
    var s0, t0 := Misdelivered(c, i, k);
    s, t := SecondTaken(c, s0, k, 1);
  }

  /** The first worker has posted; the handler has tested the length and is about to read it. */
  lemma AboutToRead(c: Config, i: nat, k: nat) returns (s: State, t: Trio)
    requires NoDup(c.names) && TwoOf(c, i, k) && c.nworkers > 1 && FileLen(c, c.paths[k]) != 0
    ensures At(c, s, k, t) && t.w == 0 && t.x.pc.HLenRead? && 1 < |s.ws| && s.ws[1].pc.WZero? && s.ws[1].gen == t.x.gen
  {
    var s1, t1 := BothOpened(c, i, k);
    var t2: Trio;
    s, t2 := OtherWorker(c, s1, k, t1, 0);
    var t3 := PostsAlone(c, s, k, t2);
    t := FindsLength(c, s, k, t3);
  }

  /** Whatever length a handler reads, it announces. */
  lemma Believes(c: Config, s: State, h: nat, t: Trio) returns (t': Trio)
    requires At(c, s, h, t) && t.x.pc.HLenRead? && t.g.fileLength >= 0
    ensures At(c, s, h, t') && t'.x.header == OkHeader(t.g.fileLength)
  {
    var t1 := HGoes(c, s, h, t);
    assert t1 == t.(x := t.x.(pc := HLenUnlock, len := t.g.fileLength));
    var t2 := HGoes(c, s, h, t1);
    assert t2.x == t1.x.(pc := HLenBcast);
    var t3 := HGoes(c, s, h, t2);
    assert t3.x == t1.x.(pc := HHeader);
    t' := HGoes(c, s, h, t3);
  }

  /** The second worker resets the length before the handler reads it. */
  lemma AnswersZero(c: Config, i: nat, k: nat) returns (s: State, t: Trio)
    requires NoDup(c.names) && TwoOf(c, i, k) && c.nworkers > 1 && FileLen(c, c.paths[k]) != 0
    ensures At(c, s, k, t) && t.x.header == OkHeader(0)
  {
    var s1, t1 := AboutToRead(c, i, k);
    var t2: Trio;
    s, t2 := OtherWorker(c, s1, k, t1, 1);
    var t3 := WGoes(c, s, k, t2, 0);
    t := Believes(c, s, k, t3);
  }

  /** The second worker has reset the length and stands before the length section while the first serves. */
  lemma LateForLength(c: Config, i: nat, k: nat) returns (s: State, t: Trio)
    requires NoDup(c.names) && TwoOf(c, i, k) && c.nworkers > 1 && FileLen(c, c.paths[k]) != 0 && c.cap > 0
    ensures At(c, s, k, t) && Others(c, i, k, s) && t.x.gen == 1 && t.w == 1
    ensures t.x.pc.HResetLen? && t.y.pc == WLen(Lock) && t.g.fileLength != 0 && Calm(t.g)
  {
    var s1, t1 := BothOpened(c, i, k);
    var t2 := WGoes(c, s1, k, t1, 0);
    assert t2 == t1.(y := t1.y.(pc := WLen(Lock)));
    var s3, t3 := OtherWorker(c, s1, k, t2, 0);
    var s4, t4 := Serves(c, s3, k, t3);
    s, t := OtherWorker(c, s4, k, t4, 1);
  }

  /** A worker finds a length posted and sleeps until it is taken back. */
  lemma WaitsForReset(c: Config, s: State, h: nat, t: Trio) returns (t': Trio)
    requires At(c, s, h, t) && t.y.pc == WLen(Lock) && t.g.fileLength != 0 && Calm(t.g)
    ensures At(c, s, h, t') && t' == t.(y := t.y.(pc := WLen(Sleep)), g := t.g.(cacheWait := {t.w}))
  {
    var t1 := WGoes(c, s, h, t, 0);
    var t2 := WGoes(c, s, h, t1, 0);
    assert t2 == t1.(y := t.y.(pc := WLen(Wait)));
    t' := WGoes(c, s, h, t2, 0);
  }

  /** The first worker posts behind the back of the second, which has just reset the length. */
  lemma PostedBetween(c: Config, i: nat, k: nat) returns (s: State, t: Trio)
    requires NoDup(c.names) && TwoOf(c, i, k) && c.nworkers > 1 && FileLen(c, c.paths[k]) != 0
    ensures At(c, s, k, t) && t.w == 1 && t.y.pc == WLen(Lock) && t.g.fileLength != 0
  {
    var s1, t1 := BothOpened(c, i, k);
    var t2 := WGoes(c, s1, k, t1, 0);
    assert t2 == t1.(y := t1.y.(pc := WLen(Lock)));
    var s3, t3 := OtherWorker(c, s1, k, t2, 0);
    var t4 := PostsAlone(c, s3, k, t3);
    s, t := OtherWorker(c, s3, k, t4, 1);
  }

  /** It finds a length posted, sleeps, and the tear-down resets the length without waking anybody. */
  lemma ResetAsleep(c: Config, i: nat, k: nat) returns (s: State, t: Trio)
    requires NoDup(c.names) && TwoOf(c, i, k) && c.nworkers > 1 && FileLen(c, c.paths[k]) != 0 && c.cap > 0
    ensures At(c, s, k, t) && Others(c, i, k, s) && t.x.gen == 1 && t.w == 1
    ensures t.x.pc.HResetBytes? && t.y.pc == WLen(Sleep) && t.g.fileLength == 0 && 1 in t.g.cacheWait
  {
    var t0: Trio;
    s, t0 := LateForLength(c, i, k);
    var t1 := WaitsForReset(c, s, k, t0);
    t := HGoes(c, s, k, t1);
  }

  // ---------- wrong answers of a single worker ----------

  /** The worker serves the whole file before the handler looks. */
  lemma ServesAhead(c: Config, i: nat, k: nat) returns (s: State, t: Trio)
    requires NoDup(c.names) && TwoOf(c, i, k) && FileLen(c, c.paths[k]) != 0 && FileLen(c, c.paths[k]) <= c.cap
    ensures At(c, s, k, t) && t.x == Sent(c, 1, InDq) && t.w == 0 && t.y.pc == WTake(Lock)
    ensures t.g.fileLength != 0 && Calm(t.g)
    ensures |s.segs| == 2 && s.ns == map[c.names[0] := 0, c.names[1] := 1]
    ensures s.dq == Daemon([Request(c, k, 1)], 1, None, {}) && s.recv.slot == Request(c, k, 1)
  {
    var s0, t0 := Misdelivered(c, i, k);
    var t1 := PostsAlone(c, s0, k, t0);
    if c.paths[k] in c.files {
      var t2 := WGoes(c, s0, k, t1, 0);
      assert t2 == t1.(y := t0.y.(pc := WLoop));
      var t3 := Fills(c, s0, k, t2, t0.y.len);
      s, t := WLeavesOther(c, s0, k, t3);
    } else {
      s, t := WLeavesOther(c, s0, k, t1);
    }
  }

  /** The handler has tested the length when the worker opens the segment again and takes the length back. */
  lemma ReadsZero(c: Config, i: nat, k: nat) returns (s: State, t: Trio)
    requires NoDup(c.names) && TwoOf(c, i, k) && FileLen(c, c.paths[k]) != 0 && FileLen(c, c.paths[k]) <= c.cap
    ensures At(c, s, k, t) && t.x.header == OkHeader(0)
  {
    var s0, t0 := ServesAhead(c, i, k);
    var t1 := FindsLength(c, s0, k, t0);
    var t2: Trio;
    s, t2 := SecondTaken(c, With(s0, k, t1), k, 0);
    var t3 := WGoes(c, s, k, t2, 0);
    t := Believes(c, s, k, t3);
  }

  /** All but the last byte has been sent, the last one is in the slot, and the worker is gone. */
  lemma LastByteLeft(c: Config, i: nat, k: nat) returns (s: State, t: Trio)
    requires NoDup(c.names) && TwoOf(c, i, k) && FileLen(c, c.paths[k]) > 1 && c.cap > 0
    ensures At(c, s, k, t) && t.w == 0 && t.y.pc == WTake(Lock) && t.x.pc.HLoop? && t.x.gen == 1
    ensures |t.x.body| == t.x.transferred == FileLen(c, c.paths[k]) - 1 == t.x.len - 1
    ensures Calm(t.g) && |t.g.data| == c.cap
    ensures |s.segs| == 2 && s.ns == map[c.names[0] := 0, c.names[1] := 1]
    ensures s.dq == Daemon([Request(c, k, 1)], 1, None, {}) && s.recv.slot == Request(c, k, 1)
  {
    var s0, t0 := Misdelivered(c, i, k);
    var t1 := Announces(c, s0, k, t0);
    var t2 := CopiesUpTo(c, s0, k, t1, t0.y.len - 1);
    var t3 := Fills(c, s0, k, t2, 1);
    s, t := WLeavesOther(c, s0, k, t3);
  }

  /** The worker empties the slot and puts the first two bytes into it; the handler sends one byte too many. */
  lemma SendsTooMuch(c: Config, i: nat, k: nat) returns (s: State, t: Trio)
    requires NoDup(c.names) && TwoOf(c, i, k) && FileLen(c, c.paths[k]) > 1 && c.cap > 1
    ensures At(c, s, k, t) && |t.x.body| > |FileOf(c, c.paths[k])|
  {
    var s0, t0 := LastByteLeft(c, i, k);
    var t1: Trio;
    s, t1 := SecondTaken(c, With(s0, k, t0), k, 0);
    var t2 := PostsAlone(c, s, k, t1);
    var t3 := WGoes(c, s, k, t2, 0);
    assert t3 == t2.(y := t1.y.(pc := WLoop));
    var t4 := Fills(c, s, k, t3, 2);
    t := Takes(c, s, k, t4);
  }
}
