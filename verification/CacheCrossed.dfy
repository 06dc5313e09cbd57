/**
 What the order of the two mutexes in the shared struct decides, for every single configuration.

 The runs here let one handler and one worker go ahead in turns; everybody else stands still.
 */
module CacheCrossed {
  import opened Wrappers
  import opened CacheModel
  import opened CacheRuns
  import opened CachePair
  import opened CacheScenarios

  // ---------- one handler, one worker, one segment ----------

  /** `w` is the worker's number. */
  datatype Trio = Trio(x: Handler, w: nat, y: Worker, g: Seg)

  /** The state with handler `h`, the worker and the handler's generation replaced. */
  function With(s: State, h: nat, t: Trio): State
    requires h < |s.hs| && t.w < |s.ws| && t.x.gen < |s.segs|
  {
    s.(hs := s.hs[h := t.x], ws := s.ws[t.w := t.y], segs := s.segs[t.x.gen := t.g])
  }

  ghost predicate At(c: Config, s: State, h: nat, t: Trio) {
    && h < |s.hs| && h < |c.paths| && t.w < |s.ws| && t.y.gen == t.x.gen < |s.segs|
    && Reach(c, Init(c), With(s, h, t))
  }

  function HMove(c: Config, h: nat, t: Trio): Option<(Handler, Seg)> {
    if HLenPc(t.x.pc) then HLenMove(c, h, t.x, t.g)
    else if HDataPc(t.x.pc) then HDataMove(c, h, t.x, t.g)
    else None
  }

  function WMove(c: Config, t: Trio, n: nat): Option<(Worker, Seg)> {
    if WLenPc(t.y.pc) then WLenMove(c, t.w, t.y, t.g)
    else if WBound(t.y.pc) then WDataMove(c, t.w, t.y, t.g, n)
    else None
  }

  lemma HGoes(c: Config, s: State, h: nat, t: Trio) returns (t': Trio)
    requires At(c, s, h, t) && HMove(c, h, t).Some?
    ensures var m := HMove(c, h, t).value; t' == t.(x := m.0, g := m.1)
    ensures At(c, s, h, t')
  {
    var m := HMove(c, h, t).value;
    t' := t.(x := m.0, g := m.1);
    var before, after := With(s, h, t), With(s, h, t');
    assert before.hs[h] == t.x && before.segs[t.x.gen] == t.g;
    assert after == before.(hs := before.hs[h := m.0], segs := before.segs[t.x.gen := m.1]);
    ReachNext(c, Init(c), before, HStep(h), after);
  }

  lemma WGoes(c: Config, s: State, h: nat, t: Trio, n: nat) returns (t': Trio)
    requires At(c, s, h, t) && WMove(c, t, n).Some? && !WMove(c, t, n).value.0.pc.WTake?
    ensures var m := WMove(c, t, n).value; t' == t.(y := m.0, g := m.1)
    ensures At(c, s, h, t')
  {
    var m := WMove(c, t, n).value;
    t' := t.(y := m.0, g := m.1);
    var before, after := With(s, h, t), With(s, h, t');
    assert before.ws[t.w] == t.y && before.segs[t.x.gen] == t.g;
    assert after == before.(ws := before.ws[t.w := m.0], segs := before.segs[t.x.gen := m.1]);
    ReachNext(c, Init(c), before, WStep(t.w, n), after);
  }

  /** The worker is done with the handler's message. */
  lemma WLeaves(c: Config, s: State, h: nat, t: Trio) returns (t': Trio)
    requires At(c, s, h, t) && WMove(c, t, 0).Some? && WMove(c, t, 0).value.0.pc.WTake? && t.y.msg.owner == h
    ensures var m := WMove(c, t, 0).value; t' == t.(x := t.x.(loc := Served), y := m.0, g := m.1)
    ensures At(c, s, h, t')
  {
    var m := WMove(c, t, 0).value;
    t' := t.(x := t.x.(loc := Served), y := m.0, g := m.1);
    var before, after := With(s, h, t), With(s, h, t');
    assert before.ws[t.w] == t.y && before.segs[t.x.gen] == t.g && before.hs[h] == t.x;
    assert after == before.(ws := before.ws[t.w := m.0], segs := before.segs[t.x.gen := m.1],
                            hs := before.hs[h := t'.x]);
    ReachNext(c, Init(c), before, WStep(t.w, 0), after);
  }

  /** The worker is done with the message of somebody else, whom it never served. */
  lemma WLeavesOther(c: Config, s: State, h: nat, t: Trio) returns (s': State, t': Trio)
    requires At(c, s, h, t) && WMove(c, t, 0).Some? && WMove(c, t, 0).value.0.pc.WTake?
    requires t.y.msg.owner != h && t.y.msg.owner < |s.hs|
    ensures s' == SetLoc(s, t.y.msg.owner, Served)
    ensures var m := WMove(c, t, 0).value; t' == t.(y := m.0, g := m.1)
    ensures At(c, s', h, t')
  {
    var m, i := WMove(c, t, 0).value, t.y.msg.owner;
    s' := SetLoc(s, i, Served);
    t' := t.(y := m.0, g := m.1);
    var before, after := With(s, h, t), With(s', h, t');
    assert before.ws[t.w] == t.y && before.segs[t.x.gen] == t.g && before.hs[i] == s.hs[i];
    assert after == before.(ws := before.ws[t.w := m.0], segs := before.segs[t.x.gen := m.1],
                            hs := before.hs[i := s'.hs[i]]);
    ReachNext(c, Init(c), before, WStep(t.w, 0), after);
  }

  /** Another worker bound to the same generation goes on. */
  lemma OtherWorker(c: Config, s: State, h: nat, t: Trio, w: nat) returns (s': State, t': Trio)
    requires At(c, s, h, t) && w < |s.ws| && w != t.w && s.ws[w].gen == t.x.gen
    ensures s' == With(s, h, t) && t' == Trio(t.x, w, s.ws[w], t.g) && At(c, s', h, t')
  {
    s' := With(s, h, t);
    t' := Trio(t.x, w, s.ws[w], t.g);
    assert With(s', h, t') == s';
  }

  /** A request posted on the segment with number `n`, created as generation `n`. */
  function Sent(c: Config, n: nat, l: Loc): Handler
    requires n < |c.names|
  {
    Handler(HLen(Lock), c.names[n], n, 0, 0, 0, 0, NoHeader, [], l)
  }

  function Found(c: Config, path: string): Option<string> {
    if path in c.files then Some(path) else None
  }

  /** The request of handler `h` as worker 0 is about to serve it. */
  function Start(c: Config, h: nat): Trio
    requires h < |c.paths| && c.names != []
  {
    var path := c.paths[h];
    Trio(Sent(c, 0, AtWorker(0)), 0,
      Worker(WZero, Msg(path, c.names[0], h), 0, Found(c, path), FileLen(c, path), 0, 0, 0), FreshSeg(c))
  }

  lemma RequestSent(c: Config, h: nat) returns (s: State)
    requires c.names != [] && h < |c.paths|
    ensures Reach(c, Init(c), s) && s.hs == Init(c).hs[h := Sent(c, 0, InMq)]
    ensures s.segs == [FreshSeg(c)] && s.ns == map[c.names[0] := 0]
    ensures s.mq == [Msg(c.paths[h], c.names[0], h)] && s.pool == Pool(c.names[1..], |c.names| - 1, None, {}, {})
    ensures s.ws == Init(c).ws && s.dq == Init(c).dq && s.recv == Init(c).recv
  {
    var i := Init(c);
    ReachSelf(c, i);
    var s1 := AfterTake(i, h);
    TakeAlone(c, i, h);
    s := AfterSend(c, s1, h);
    SendAlone(c, s1, h);
    ReachJoin(c, i, s1, s);
    assert s.hs[h] == Sent(c, 0, InMq);
  }

  /** Worker 0 has taken the request off the daemon's queue. */
  lemma RequestTaken(c: Config, h: nat) returns (s: State)
    requires c.names != [] && c.nworkers > 0 && h < |c.paths|
    ensures Reach(c, Init(c), s) && s.hs == Init(c).hs[h := Start(c, h).x]
    ensures s.segs == [FreshSeg(c)] && c.names[0] in s.ns && s.ns[c.names[0]] == 0
    ensures s.ws == Init(c).ws[0 := Init(c).ws[0].(pc := WGet, msg := Msg(c.paths[h], c.names[0], h))]
    ensures s.recv.slot == s.ws[0].msg && s.recv.pc.RReceive? && s.mq == []
    ensures s.pool == Pool(c.names[1..], |c.names| - 1, None, {}, {})
  {
    var i := Init(c);
    var s1 := RequestSent(c, h);
    var s2 := AfterQueue(s1);
    QueueAlone(c, s1);
    ReachJoin(c, i, s1, s2);
    s := AfterPop(s2, 0);
    PopAlone(c, s2, 0);
    ReachJoin(c, i, s2, s);
  }

  lemma Delivered(c: Config, h: nat) returns (s: State)
    requires c.names != [] && c.nworkers > 0 && h < |c.paths|
    ensures At(c, s, h, Start(c, h)) && s.ws == Init(c).ws[0 := Start(c, h).y]
  {
    var s1 := RequestTaken(c, h);
    s := AfterOpen(c, s1, 0);
    OpenAlone(c, s1, 0);
    ReachJoin(c, Init(c), s1, s);
    assert s.hs[h] == Start(c, h).x && s.ws[0] == Start(c, h).y;
    assert With(s, h, Start(c, h)) == s;
  }

  // ---------- the length section ----------

  /** Nobody holds a mutex of the segment and nobody sleeps on it. */
  predicate Calm(g: Seg) {
    g.m0 == None && g.m1 == None && g.proxyWait == {} && g.cacheWait == {}
  }

  /** The worker enters the length section and is about to post. */
  lemma EntersLength(c: Config, s: State, h: nat, t: Trio) returns (t': Trio)
    requires At(c, s, h, t) && t.y.pc.WZero? && Mutex(t.g, !c.layout.cacheDataFirst) == None
    ensures At(c, s, h, t')
    ensures t' == t.(y := t.y.(pc := WLenPost),
                     g := WithMutex(t.g.(fileLength := 0), !c.layout.cacheDataFirst, Some(W(t.w))))
  {
    var t1 := WGoes(c, s, h, t, 0);
    var t2 := WGoes(c, s, h, t1, 0);
    t' := WGoes(c, s, h, t2, 0);
  }

  /** It posts the length, leaves the section and is about to broadcast. */
  lemma Posts(c: Config, s: State, h: nat, t: Trio) returns (t': Trio)
    requires At(c, s, h, t) && t.y.pc.WLenPost?
    ensures At(c, s, h, t')
    ensures t' == t.(y := t.y.(pc := WLenBcast),
                     g := WithMutex(t.g.(fileLength := t.y.len, bytesWritten := 0), !c.layout.cacheDataFirst, None))
  {
    var t1 := WGoes(c, s, h, t, 0);
    var t2 := WGoes(c, s, h, t1, 0);
    t' := WGoes(c, s, h, t2, 0);
  }

  /** The worker alone goes through the length section. */
  lemma PostsAlone(c: Config, s: State, h: nat, t: Trio) returns (t': Trio)
    requires At(c, s, h, t) && t.y.pc.WZero? && Calm(t.g)
    ensures At(c, s, h, t')
    ensures t' == t.(y := t.y.(pc := WLenBcast), g := t.g.(fileLength := t.y.len, bytesWritten := 0))
  {
    var t1 := EntersLength(c, s, h, t);
    t' := Posts(c, s, h, t1);
  }

  /** The handler finds a length posted. */
  lemma FindsLength(c: Config, s: State, h: nat, t: Trio) returns (t': Trio)
    requires At(c, s, h, t) && t.x.pc == HLen(Lock)
    requires t.g.fileLength != 0 && Mutex(t.g, !c.layout.proxyDataFirst) == None
    ensures At(c, s, h, t')
    ensures t' == t.(x := t.x.(pc := HLenRead), g := WithMutex(t.g, !c.layout.proxyDataFirst, Some(H(h))))
  {
    var t1 := HGoes(c, s, h, t);
    t' := HGoes(c, s, h, t1);
  }

  /** It reads it. */
  lemma HandlerReads(c: Config, s: State, h: nat, t: Trio) returns (t': Trio)
    requires At(c, s, h, t) && t.x.pc == HLen(Lock)
    requires t.g.fileLength != 0 && t.g.m0 == None && t.g.m1 == None
    ensures At(c, s, h, t') && t' == t.(x := t.x.(pc := HLenBcast, len := t.g.fileLength))
  {
    var t1 := FindsLength(c, s, h, t);
    var t2 := HGoes(c, s, h, t1);
    assert t2 == t1.(x := t.x.(pc := HLenUnlock, len := t.g.fileLength));
    t' := HGoes(c, s, h, t2);
  }

  /** It sends the header with that length. */
  lemma HandlerAnswers(c: Config, s: State, h: nat, t: Trio) returns (t': Trio)
    requires At(c, s, h, t) && t.x.pc == HLen(Lock) && t.x.transferred == 0
    requires t.g.fileLength > 0 && t.g.m0 == None && t.g.m1 == None
    ensures At(c, s, h, t')
    ensures t' == t.(x := t.x.(pc := HLoop, len := t.g.fileLength, header := OkHeader(t.g.fileLength)),
                     g := t.g.(cacheWait := {}))
  {
    var t1 := HandlerReads(c, s, h, t);
    var t2 := HGoes(c, s, h, t1);
    assert t2.x == t1.x.(pc := HHeader) && t2.g == t.g.(cacheWait := {});
    t' := HGoes(c, s, h, t2);
  }

  /** It finds the file missing and starts to tear down. */
  lemma HandlerGivesUp(c: Config, s: State, h: nat, t: Trio) returns (t': Trio)
    requires At(c, s, h, t) && t.x.pc == HLen(Lock) && t.g.fileLength < 0 && t.g.m0 == None && t.g.m1 == None
    ensures At(c, s, h, t')
    ensures t' == t.(x := t.x.(pc := HResetLen, len := t.g.fileLength), g := t.g.(cacheWait := {}))
  {
    var t1 := HandlerReads(c, s, h, t);
    t' := HGoes(c, s, h, t1);
  }

  // ---------- both sides inside the length section ----------

  /** With the mutexes in different order, both sides are past their tests of the length at once. */
  lemma BothInside(c: Config, h: nat) returns (s: State, t: Trio)
    requires c.names != [] && c.nworkers > 0 && h < |c.paths| && !SharedLayout(c.layout)
    ensures At(c, s, h, t) && s.ws == Init(c).ws[0 := Start(c, h).y]
    ensures var t0 := Start(c, h);
      t == t0.(x := t0.x.(pc := HLen(Check)), y := t0.y.(pc := WLenPost), g := t0.g.(m0 := t.g.m0, m1 := t.g.m1))
  {
    s := Delivered(c, h);
    var t0 := Start(c, h);
    var t1 := HGoes(c, s, h, t0);
    t := EntersLength(c, s, h, t1);
  }

  /** The worker of a missing file broadcasts and is done with it. */
  lemma PostsAndLeaves(c: Config, s: State, h: nat, t: Trio) returns (t': Trio)
    requires At(c, s, h, t) && t.y.pc.WLenPost? && t.y.fd.None? && t.y.msg.owner == h
    ensures At(c, s, h, t') && t'.w == t.w && t'.y.pc == WTake(Lock) && t'.x == t.x.(loc := Served)
    ensures t'.g == WithMutex(t.g.(fileLength := t.y.len, bytesWritten := 0, proxyWait := {}),
                              !c.layout.cacheDataFirst, None)
  {
    var t1 := Posts(c, s, h, t);
    t' := WLeaves(c, s, h, t1);
  }

  /** The handler has tested the length too early and sleeps after the broadcast. */
  lemma SleepsOnLength(c: Config, h: nat) returns (s: State, t: Trio)
    requires c.names != [] && c.nworkers > 0 && h < |c.paths| && !SharedLayout(c.layout)
    ensures At(c, s, h, t) && t.x.pc == HLen(Sleep) && h in t.g.proxyWait && t.g.fileLength == FileLen(c, c.paths[h])
    ensures t.w == 0 && s.ws == Init(c).ws[0 := Start(c, h).y]
    ensures if c.paths[h] in c.files then t.x.loc == AtWorker(0) && t.y.pc.WLoop?
      else t.x.loc == Served && t.y.pc == WTake(Lock)
  {
    var t0: Trio;
    s, t0 := BothInside(c, h);
    var t1 := HGoes(c, s, h, t0);
    assert t1 == t0.(x := t0.x.(pc := HLen(Wait)));
    var t2: Trio;
    if c.paths[h] in c.files {
      var t3 := Posts(c, s, h, t1);
      t2 := WGoes(c, s, h, t3, 0);
    } else {
      t2 := PostsAndLeaves(c, s, h, t1);
    }
    t := HGoes(c, s, h, t2);
  }

  // ---------- a wake-up lost in the data section ----------

  /** The worker has posted and stands before the data section. */
  lemma WorkerAhead(c: Config, h: nat) returns (s: State, t: Trio)
    requires c.names != [] && c.nworkers > 0 && h < |c.paths| && c.paths[h] in c.files && FileLen(c, c.paths[h]) > 0
    ensures At(c, s, h, t)
    ensures var t0 := Start(c, h);
      t == t0.(y := t0.y.(pc := WData(Lock)), g := t0.g.(fileLength := FileLen(c, c.paths[h])))
  {
    s := Delivered(c, h);
    var t1 := PostsAlone(c, s, h, Start(c, h));
    var t2 := WGoes(c, s, h, t1, 0);
    t := WGoes(c, s, h, t2, 0);
  }

  /** The worker enters the data section and asks for `n` bytes. */
  lemma Preads(c: Config, s: State, h: nat, t: Trio, n: nat) returns (t': Trio)
    requires At(c, s, h, t) && t.y.pc == WData(Lock) && 1 <= n <= c.cap && t.y.written + n <= t.y.len
    requires t.g.bytesWritten == 0 && Mutex(t.g, c.layout.cacheDataFirst) == None
    ensures At(c, s, h, t')
    ensures t' == t.(y := t.y.(pc := WCopy, n := n, k := 0), g := WithMutex(t.g, c.layout.cacheDataFirst, Some(W(t.w))))
  {
    var t1 := WGoes(c, s, h, t, 0);
    var t2 := WGoes(c, s, h, t1, 0);
    assert t2 == t1.(y := t.y.(pc := WPread));
    t' := WGoes(c, s, h, t2, n);
  }

  /** The worker reads from the file it has looked up. */
  predicate Reads(c: Config, y: Worker) {
    y.fd.Some? && 0 <= y.written < y.len == |FileOf(c, y.fd.value)|
  }

  /** They arrive one after the other. */
  lemma {:induction false} Copies(c: Config, s: State, h: nat, t: Trio) returns (t': Trio)
    requires At(c, s, h, t) && t.y.pc.WCopy? && Reads(c, t.y)
    requires t.y.k <= t.y.n <= |t.g.data| && t.y.written + t.y.n <= t.y.len
    ensures At(c, s, h, t') && |t'.g.data| == |t.g.data|
    ensures t' == t.(y := t.y.(pc := WPublish, k := t.y.n), g := t.g.(data := t'.g.data))
    decreases t.y.n - t.y.k
  {
    var t1 := WGoes(c, s, h, t, 0);
    if t.y.k < t.y.n {
      t' := Copies(c, s, h, t1);
    } else {
      t' := t1;
    }
  }

  /** It publishes them and is about to signal. */
  lemma Publishes(c: Config, s: State, h: nat, t: Trio, n: nat) returns (t': Trio)
    requires At(c, s, h, t) && t.y.pc == WData(Lock) && Reads(c, t.y) && |t.g.data| == c.cap
    requires 1 <= n <= c.cap && t.y.written + n <= t.y.len
    requires t.g.bytesWritten == 0 && Mutex(t.g, c.layout.cacheDataFirst) == None
    ensures At(c, s, h, t') && |t'.g.data| == c.cap
    ensures t' == t.(y := t.y.(pc := WSignal, n := n, k := n),
                     g := WithMutex(t.g.(data := t'.g.data, bytesWritten := n), c.layout.cacheDataFirst, Some(W(t.w))))
  {
    var t1 := Preads(c, s, h, t, n);
    var t2 := Copies(c, s, h, t1);
    t' := WGoes(c, s, h, t2, 0);
  }

  lemma TestsSlot(c: Config, s: State, h: nat, t: Trio) returns (t': Trio)
    requires At(c, s, h, t) && t.x.pc == HData(Lock) && t.g.bytesWritten == 0
    requires Mutex(t.g, c.layout.proxyDataFirst) == None
    ensures At(c, s, h, t')
    ensures t' == t.(x := t.x.(pc := HData(Wait)), g := WithMutex(t.g, c.layout.proxyDataFirst, Some(H(h))))
  {
    var t1 := HGoes(c, s, h, t);
    t' := HGoes(c, s, h, t1);
  }

  /** The worker signals and nobody is there to hear it. */
  lemma SignalsNobody(c: Config, s: State, h: nat, t: Trio) returns (t': Trio)
    requires At(c, s, h, t) && t.y.pc.WSignal? && t.g.proxyWait == {}
    ensures At(c, s, h, t') && t' == t.(y := t.y.(pc := WDataUnlock))
  {
    t' := WGoes(c, s, h, t, 0);
    assert t'.g == t.g;
  }

  /** The handler has tested the slot before the worker fills it. */
  lemma TestsEarly(c: Config, h: nat) returns (s: State, t: Trio)
    requires c.names != [] && c.nworkers > 0 && h < |c.paths| && !SharedLayout(c.layout)
    requires c.paths[h] in c.files && FileLen(c, c.paths[h]) > 0
    ensures At(c, s, h, t) && t.w == 0 && t.x.pc == HData(Wait) && t.x.loc == AtWorker(0) && t.y.pc == WData(Lock)
    ensures Reads(c, t.y) && t.g.proxyWait == {} && t.g.bytesWritten == 0 && |t.g.data| == c.cap
    ensures Mutex(t.g, c.layout.cacheDataFirst) == None
  {
    var t0: Trio;
    s, t0 := WorkerAhead(c, h);
    var t1 := HandlerAnswers(c, s, h, t0);
    var t2 := HGoes(c, s, h, t1);
    assert t2 == t1.(x := t1.x.(pc := HData(Lock)));
    t := TestsSlot(c, s, h, t2);
  }

  /** The handler has tested the slot too early and sleeps after the signal. */
  lemma SleepsOnData(c: Config, h: nat) returns (s: State, t: Trio)
    requires c.names != [] && c.nworkers > 0 && c.cap > 0 && h < |c.paths| && !SharedLayout(c.layout)
    requires c.paths[h] in c.files && FileLen(c, c.paths[h]) > 0
    ensures At(c, s, h, t) && t.x.pc == HData(Sleep) && h in t.g.proxyWait && t.g.bytesWritten == 1
    ensures t.w == 0 && t.x.loc == AtWorker(0) && t.y.pc.WDataUnlock?
  {
    var t0: Trio;
    s, t0 := TestsEarly(c, h);
    var t1 := Publishes(c, s, h, t0, 1);
    var t2 := SignalsNobody(c, s, h, t1);
    t := HGoes(c, s, h, t2);
  }

  // ---------- a segment written while it is torn down ----------

  /** The handler finds the file missing and starts to tear down while the worker is still inside. */
  lemma TearsDownEarly(c: Config, h: nat) returns (s: State, t: Trio)
    requires c.names != [] && c.nworkers > 0 && h < |c.paths| && !SharedLayout(c.layout)
    requires c.paths[h] !in c.files
    ensures At(c, s, h, t) && t.w == 0 && t.x.pc.HResetLen? && t.y.pc.WLenReset?
  {
    var t0: Trio;
    s, t0 := BothInside(c, h);
    var t1 := WGoes(c, s, h, t0, 0);
    assert t1 == t0.(y := t0.y.(pc := WLenReset), g := t0.g.(fileLength := -1));
    var t2 := HGoes(c, s, h, t1);
    assert t2 == t1.(x := t0.x.(pc := HLenRead));
    var t3 := HGoes(c, s, h, t2);
    assert t3 == t1.(x := t0.x.(pc := HLenUnlock, len := -1));
    var t4 := HGoes(c, s, h, t3);
    assert t4.x == t3.x.(pc := HLenBcast) && t4.y == t3.y;
    t := HGoes(c, s, h, t4);
  }
}
