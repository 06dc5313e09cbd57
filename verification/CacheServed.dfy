/** One request served from the first statement to the last, a byte at a time, by whatever worker. */
module CacheServed {
  import opened Wrappers
  import opened CacheModel
  import opened CacheCrossed

  /** What neither side changes while the file is copied. */
  predicate SameJob(t: Trio, t': Trio) {
    && t'.w == t.w && t'.y.msg == t.y.msg && t'.y.fd == t.y.fd && t'.y.len == t.y.len
    && t'.x.loc == t.x.loc && t'.x.len == t.x.len && t'.x.gen == t.x.gen && t'.g.fileLength == t.g.fileLength
  }

  /** Both sides have copied as many bytes, and the slot is empty. */
  predicate Level(c: Config, t: Trio) {
    && t.x.pc.HLoop? && t.y.pc.WLoop? && t.x.transferred == |t.x.body| == t.y.written && t.x.len == t.y.len
    && t.y.fd.Some? && 0 <= t.y.written <= t.y.len == |FileOf(c, t.y.fd.value)|
    && Calm(t.g) && t.g.bytesWritten == 0 && |t.g.data| == c.cap
  }

  /** The worker puts `n` bytes into the slot and is about to signal. */
  lemma Puts(c: Config, s: State, h: nat, t: Trio, n: nat) returns (t': Trio)
    requires At(c, s, h, t) && t.y.pc.WLoop? && Reads(c, t.y) && |t.g.data| == c.cap
    requires 1 <= n <= c.cap && t.y.written + n <= t.y.len
    requires t.g.bytesWritten == 0 && Mutex(t.g, c.layout.cacheDataFirst) == None
    ensures At(c, s, h, t') && |t'.g.data| == c.cap
    ensures t' == t.(y := t.y.(pc := WSignal, n := n, k := n),
                     g := WithMutex(t.g.(data := t'.g.data, bytesWritten := n), c.layout.cacheDataFirst, Some(W(t.w))))
  {
    var t1 := WGoes(c, s, h, t, 0);
    assert t1 == t.(y := t.y.(pc := WData(Lock)));
    t' := Publishes(c, s, h, t1, n);
  }

  /** It leaves the data section. */
  lemma LeavesSlot(c: Config, s: State, h: nat, t: Trio) returns (t': Trio)
    requires At(c, s, h, t) && t.y.pc.WSignal? && t.g.proxyWait == {}
    ensures At(c, s, h, t')
    ensures t' == t.(y := t.y.(pc := WLoop, written := t.y.written + t.y.n),
                     g := WithMutex(t.g, c.layout.cacheDataFirst, None))
  {
    var t1 := SignalsNobody(c, s, h, t);
    t' := WGoes(c, s, h, t1, 0);
  }

  /** It fills an empty slot that nobody else is using. */
  lemma Fills(c: Config, s: State, h: nat, t: Trio, n: nat) returns (t': Trio)
    requires At(c, s, h, t) && t.y.pc.WLoop? && Reads(c, t.y) && |t.g.data| == c.cap
    requires 1 <= n <= c.cap && t.y.written + n <= t.y.len && t.g.bytesWritten == 0 && Calm(t.g)
    ensures At(c, s, h, t') && |t'.g.data| == c.cap
    ensures t' == t.(y := t.y.(written := t.y.written + n, n := n, k := n),
                     g := t.g.(data := t'.g.data, bytesWritten := n))
  {
    var t1 := Puts(c, s, h, t, n);
    t' := LeavesSlot(c, s, h, t1);
  }

  /** The handler enters the data section and finds something in the slot. */
  lemma FindsBytes(c: Config, s: State, h: nat, t: Trio) returns (t': Trio)
    requires At(c, s, h, t) && t.x.pc.HLoop? && t.x.transferred < t.x.len
    requires Mutex(t.g, c.layout.proxyDataFirst) == None && t.g.bytesWritten != 0
    ensures At(c, s, h, t')
    ensures t' == t.(x := t.x.(pc := HDataSend, rlen := t.g.bytesWritten, k := 0),
                     g := WithMutex(t.g, c.layout.proxyDataFirst, Some(H(h))))
  {
    var t1 := HGoes(c, s, h, t);
    assert t1 == t.(x := t.x.(pc := HData(Lock)));
    var t2 := HGoes(c, s, h, t1);
    var t3 := HGoes(c, s, h, t2);
    assert t3 == t2.(x := t.x.(pc := HDataRead));
    t' := HGoes(c, s, h, t3);
  }

  /** It sends what is left of the chunk. */
  lemma {:induction false} SendsBytes(c: Config, s: State, h: nat, t: Trio) returns (t': Trio)
    requires At(c, s, h, t) && t.x.pc.HDataSend? && t.x.k <= t.x.rlen <= |t.g.data|
    ensures At(c, s, h, t') && |t'.x.body| == |t.x.body| + t.x.rlen - t.x.k
    ensures t' == t.(x := t.x.(pc := HDataClear, k := t.x.rlen, body := t'.x.body))
    decreases t.x.rlen - t.x.k
  {
    var t1 := HGoes(c, s, h, t);
    if t.x.k < t.x.rlen {
      t' := SendsBytes(c, s, h, t1);
    } else {
      t' := t1;
    }
  }

  /** It empties the slot, leaves the section and wakes the worker. */
  lemma Clears(c: Config, s: State, h: nat, t: Trio) returns (t': Trio)
    requires At(c, s, h, t) && t.x.pc.HDataClear?
    ensures At(c, s, h, t')
    ensures t' == t.(x := t.x.(pc := HLoop, transferred := t.x.transferred + t.x.rlen),
                     g := WithMutex(t.g, c.layout.proxyDataFirst, None).(bytesWritten := 0, cacheWait := {}))
  {
    var t1 := HGoes(c, s, h, t);
    assert t1 == t.(x := t.x.(pc := HDataUnlock), g := t.g.(bytesWritten := 0));
    var t2 := HGoes(c, s, h, t1);
    t' := HGoes(c, s, h, t2);
  }

  /** The handler takes the pending chunk, whatever it is. */
  lemma Takes(c: Config, s: State, h: nat, t: Trio) returns (t': Trio)
    requires At(c, s, h, t) && t.x.pc.HLoop? && t.x.transferred < t.x.len
    requires Mutex(t.g, c.layout.proxyDataFirst) == None && 1 <= t.g.bytesWritten <= |t.g.data|
    ensures At(c, s, h, t') && |t'.x.body| == |t.x.body| + t.g.bytesWritten
    ensures t' == t.(x := t'.x, g := t.g.(bytesWritten := 0, cacheWait := {}))
    ensures t'.x == t.x.(rlen := t'.x.rlen, k := t'.x.k, body := t'.x.body,
                         transferred := t.x.transferred + t.g.bytesWritten)
  {
    var t1 := FindsBytes(c, s, h, t);
    var t2 := SendsBytes(c, s, h, t1);
    t' := Clears(c, s, h, t2);
  }

  /** One byte goes from the file to the client. */
  lemma CopiesByte(c: Config, s: State, h: nat, t: Trio) returns (t': Trio)
    requires At(c, s, h, t) && Level(c, t) && t.y.written < t.y.len && c.cap > 0
    ensures At(c, s, h, t') && Level(c, t') && SameJob(t, t') && t'.y.written == t.y.written + 1
  {
    var t1 := Fills(c, s, h, t, 1);
    t' := Takes(c, s, h, t1);
  }

  lemma {:induction false} CopiesUpTo(c: Config, s: State, h: nat, t: Trio, n: int) returns (t': Trio)
    requires At(c, s, h, t) && Level(c, t) && t.y.written <= n <= t.y.len && c.cap > 0
    ensures At(c, s, h, t') && Level(c, t') && SameJob(t, t') && t'.y.written == n
    decreases n - t.y.written
  {
    if t.y.written == n {
      t' := t;
    } else {
      var t1 := CopiesByte(c, s, h, t);
      t' := CopiesUpTo(c, s, h, t1, n);
    }
  }

  /** A worker before its first store into the segment, and the handler waiting for it. */
  predicate Opened(c: Config, t: Trio) {
    && t.x.pc == HLen(Lock) && t.x.transferred == 0 && t.x.body == [] && t.y.pc.WZero? && t.y.written == 0
    && (if t.y.fd.Some? then t.y.len == |FileOf(c, t.y.fd.value)| else t.y.len == -1)
    && Calm(t.g) && |t.g.data| == c.cap
  }

  /** Both sides are through the length section. */
  lemma Announces(c: Config, s: State, h: nat, t: Trio) returns (t': Trio)
    requires At(c, s, h, t) && Opened(c, t) && t.y.len > 0
    ensures At(c, s, h, t') && Level(c, t') && t'.y.written == 0
    ensures t'.w == t.w && t'.y == t.y.(pc := WLoop) && t'.x.gen == t.x.gen && t'.g.fileLength == t.y.len
  {
    var t1 := PostsAlone(c, s, h, t);
    var t2 := WGoes(c, s, h, t1, 0);
    assert t2 == t1.(y := t.y.(pc := WLoop));
    t' := HandlerAnswers(c, s, h, t2);
  }

  /** Where a service ends: the worker is gone, the handler has begun to tear down. */
  predicate Through(c: Config, t: Trio, t': Trio) {
    && t'.w == t.w && t'.x.pc.HResetLen? && t'.x.gen == t.x.gen && t'.y == t'.y.(pc := WTake(Lock), gen := t.y.gen)
    && t'.g.fileLength == t.y.len && t'.g.bytesWritten == 0 && Calm(t'.g) && |t'.g.data| == c.cap
  }

  /** The worker serves the whole file through a message that was not for this handler. */
  lemma ServesFile(c: Config, s: State, h: nat, t: Trio) returns (s': State, t': Trio)
    requires At(c, s, h, t) && Opened(c, t) && t.y.len > 0 && c.cap > 0
    requires t.y.msg.owner != h && t.y.msg.owner < |s.hs|
    ensures s' == SetLoc(s, t.y.msg.owner, Served) && At(c, s', h, t') && Through(c, t, t')
  {
    var t1 := Announces(c, s, h, t);
    var t2 := CopiesUpTo(c, s, h, t1, t.y.len);
    var t3 := HGoes(c, s, h, t2);
    assert t3 == t2.(x := t2.x.(pc := HResetLen));
    s', t' := WLeavesOther(c, s, h, t3);
  }

  lemma ServesMissing(c: Config, s: State, h: nat, t: Trio) returns (s': State, t': Trio)
    requires At(c, s, h, t) && Opened(c, t) && t.y.len < 0
    requires t.y.msg.owner != h && t.y.msg.owner < |s.hs|
    ensures s' == SetLoc(s, t.y.msg.owner, Served) && At(c, s', h, t') && Through(c, t, t')
  {
    var t1 := PostsAlone(c, s, h, t);
    var t2 := HandlerGivesUp(c, s, h, t1);
    s', t' := WLeavesOther(c, s, h, t2);
  }

  lemma Serves(c: Config, s: State, h: nat, t: Trio) returns (s': State, t': Trio)
    requires At(c, s, h, t) && Opened(c, t) && t.y.len != 0 && c.cap > 0
    requires t.y.msg.owner != h && t.y.msg.owner < |s.hs|
    ensures s' == SetLoc(s, t.y.msg.owner, Served) && At(c, s', h, t') && Through(c, t, t')
  {
    if t.y.len > 0 {
      s', t' := ServesFile(c, s, h, t);
    } else {
      s', t' := ServesMissing(c, s, h, t);
    }
  }

  // ---------- the worker's last call comes too late ----------

  /** The handler of a missing file tears its segment down before the worker's broadcast. */
  lemma BroadcastsLate(c: Config, h: nat) returns (s: State, t: Trio)
    requires c.names != [] && c.nworkers > 0 && h < |c.paths| && c.paths[h] !in c.files
    ensures At(c, s, h, t) && t.w == 0 && t.x.pc.HResetLen? && t.y.pc.WLenBcast?
  {
    s := Delivered(c, h);
    var t1 := PostsAlone(c, s, h, Start(c, h));
    t := HandlerGivesUp(c, s, h, t1);
  }

  lemma LastByteTaken(c: Config, s: State, h: nat, t: Trio) returns (t': Trio)
    requires At(c, s, h, t) && Level(c, t) && t.y.written == t.y.len - 1 && c.cap > 0 && !SharedLayout(c.layout)
    ensures At(c, s, h, t') && t'.w == t.w && t'.x.pc.HResetLen? && t'.y.pc.WSignal?
  {
    var t1 := Puts(c, s, h, t, 1);
    var t2 := Takes(c, s, h, t1);
    t' := HGoes(c, s, h, t2);
  }

  /** With the mutexes in different order, the handler takes the last byte before the worker's signal. */
  lemma SignalsLate(c: Config, h: nat) returns (s: State, t: Trio)
    requires c.names != [] && c.nworkers > 0 && c.cap > 0 && h < |c.paths| && !SharedLayout(c.layout)
    requires FileLen(c, c.paths[h]) > 0
    ensures At(c, s, h, t) && t.w == 0 && t.x.pc.HResetLen? && t.y.pc.WSignal?
  {
    s := Delivered(c, h);
    var t1 := Announces(c, s, h, Start(c, h));
    var t2 := CopiesUpTo(c, s, h, t1, t1.y.len - 1);
    t := LastByteTaken(c, s, h, t2);
  }
}
