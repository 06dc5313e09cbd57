/** Stretches of a run in which one thread goes ahead alone. */
module CacheScenarios {
  import opened Wrappers
  import opened CacheModel
  import opened CacheRuns

  /** The state after a step that is enabled. */
  lemma Go(c: Config, s0: State, s: State, t: Step) returns (s': State)
    requires Reach(c, s0, s) && Next(c, s, t).Some?
    ensures Next(c, s, t) == Some(s') && Reach(c, s0, s')
  {
    s' := Next(c, s, t).value;
    ReachNext(c, s0, s, t, s');
  }

  /** The handler takes the first name of the pool. */
  function AfterTake(s: State, h: nat): State
    requires h < |s.hs| && s.pool.free != []
  {
    s.(hs := s.hs[h := s.hs[h].(pc := HCreateUnlink, name := s.pool.free[0])],
       pool := s.pool.(free := s.pool.free[1..], size := s.pool.size - 1, writers := {}))
  }

  lemma TakeAlone(c: Config, s: State, h: nat)
    requires h < |s.hs| && h < |c.paths| && s.hs[h].pc == HTake(Lock)
    requires s.pool.lock == None && s.pool.size != 0 && s.pool.free != []
    ensures Reach(c, s, AfterTake(s, h))
  {
    ReachSelf(c, s);
    var s1 := Go(c, s, s, HStep(h));
    assert s1 == s.(hs := s.hs[h := s.hs[h].(pc := HTake(Check))], pool := s.pool.(lock := Some(H(h))));
    var s2 := Go(c, s, s1, HStep(h));
    assert s2.hs == s.hs[h := s.hs[h].(pc := HTakePop)];
    var s3 := Go(c, s, s2, HStep(h));
    assert s3.hs == s.hs[h := AfterTake(s, h).hs[h].(pc := HTakeDec)];
    var s4 := Go(c, s, s3, HStep(h));
    assert s4.hs == s.hs[h := AfterTake(s, h).hs[h].(pc := HTakeUnlock)];
    var s5 := Go(c, s, s4, HStep(h));
    assert s5.hs == s.hs[h := AfterTake(s, h).hs[h].(pc := HTakeBcast)];
    var s6 := Go(c, s, s5, HStep(h));
    assert s6.hs == AfterTake(s, h).hs;
  }

  function FreshSeg(c: Config): Seg {
    Seg(0, 0, seq(c.cap, i => '\0'), None, None, {}, {})
  }

  /** The handler creates its generation and posts its request. */
  function AfterSend(c: Config, s: State, h: nat): State
    requires h < |s.hs| && h < |c.paths|
  {
    var x := s.hs[h];
    s.(hs := s.hs[h := x.(pc := HLen(Lock), gen := |s.segs|, loc := InMq)],
       ns := (s.ns - {x.name})[x.name := |s.segs|],
       segs := s.segs + [FreshSeg(c)],
       mq := s.mq + [Msg(c.paths[h], x.name, h)])
  }

  lemma CreateAlone(c: Config, s: State, h: nat) returns (s': State)
    requires h < |s.hs| && h < |c.paths| && s.hs[h].pc.HCreateUnlink?
    ensures Reach(c, s, s')
    ensures var x := s.hs[h];
      s' == s.(hs := s.hs[h := x.(pc := HInitLen, gen := |s.segs|)],
               ns := (s.ns - {x.name})[x.name := |s.segs|], segs := s.segs + [FreshSeg(c)])
  {
    ReachSelf(c, s);
    var s1 := Go(c, s, s, HStep(h));
    assert s1 == s.(hs := s.hs[h := s.hs[h].(pc := HCreateOpen)], ns := s.ns - {s.hs[h].name});
    s' := Go(c, s, s1, HStep(h));
    assert s'.hs == s.hs[h := s'.hs[h]];
  }

  lemma SendAlone(c: Config, s: State, h: nat)
    requires h < |s.hs| && h < |c.paths| && s.hs[h].pc.HCreateUnlink? && |s.mq| < MQ_MAXMSG
    ensures Reach(c, s, AfterSend(c, s, h))
  {
    var x := s.hs[h].(gen := |s.segs|);
    var s2 := CreateAlone(c, s, h);
    var s3 := Go(c, s, s2, HStep(h));
    assert s3.hs == s.hs[h := x.(pc := HInitBytes)] && s3.segs == s2.segs;
    var s4 := Go(c, s, s3, HStep(h));
    assert s4.hs == s.hs[h := x.(pc := HSend)] && s4.segs == s2.segs;
    var s5 := Go(c, s, s4, HStep(h));
    assert s5.hs == AfterSend(c, s, h).hs;
  }

  /** The receiver moves one message into the daemon's queue. */
  function AfterQueue(s: State): State
    requires s.mq != [] && s.mq[0].owner < |s.hs|
  {
    var m := s.mq[0];
    s.(recv := s.recv.(slot := m), mq := s.mq[1..],
       dq := s.dq.(queue := s.dq.queue + [m], size := s.dq.size + 1, idle := {}),
       hs := s.hs[m.owner := s.hs[m.owner].(loc := InDq)])
  }

  lemma QueueAlone(c: Config, s: State)
    requires s.recv.pc.RReceive? && s.mq != [] && s.mq[0].owner < |s.hs|
    requires s.dq.lock == None && s.dq.size != MAX_CACHE_REQUEST_LEN
    ensures Reach(c, s, AfterQueue(s))
  {
    var m, r, t := s.mq[0], s.recv, AfterQueue(s);
    ReachSelf(c, s);
    var s1 := Go(c, s, s, RStep);
    var s2 := Go(c, s, s1, RStep);
    var s3 := Go(c, s, s2, RStep);
    assert s3 == s1.(recv := s1.recv.(pc := RPutPush), dq := s.dq.(lock := Some(R)));
    var s4 := Go(c, s, s3, RStep);
    assert s4.hs == t.hs;
    assert s4 == t.(recv := t.recv.(pc := RPutInc), dq := s.dq.(lock := Some(R), queue := t.dq.queue));
    QueueEnds(c, s, s4, t);
  }

  lemma QueueEnds(c: Config, s: State, s4: State, t: State)
    requires Reach(c, s, s4) && t.recv.pc.RReceive?
    requires s4 == t.(recv := t.recv.(pc := RPutInc), dq := s4.dq)
    requires t.dq == s4.dq.(size := s4.dq.size + 1, lock := None, idle := {})
    ensures Reach(c, s, t)
  {
    var s5 := Go(c, s, s4, RStep);
    var s6 := Go(c, s, s5, RStep);
    var s7 := Go(c, s, s6, RStep);
  }

  /** The worker pops a message. */
  function AfterPop(s: State, w: nat): State
    requires w < |s.ws| && s.dq.queue != [] && s.dq.queue[0].owner < |s.hs|
  {
    var m := s.dq.queue[0];
    s.(ws := s.ws[w := s.ws[w].(pc := WGet, msg := m, written := 0)],
       dq := s.dq.(queue := s.dq.queue[1..], size := s.dq.size - 1), recv := s.recv.(asleep := false),
       hs := s.hs[m.owner := s.hs[m.owner].(loc := AtWorker(w))])
  }

  lemma PopAlone(c: Config, s: State, w: nat)
    requires w < |s.ws| && s.ws[w].pc == WTake(Lock) && s.dq.lock == None && s.dq.size != 0
    requires s.dq.queue != [] && s.dq.queue[0].owner < |s.hs|
    ensures Reach(c, s, AfterPop(s, w))
  {
    var t := AfterPop(s, w);
    ReachSelf(c, s);
    var s1 := Go(c, s, s, WStep(w, 0));
    assert s1 == s.(ws := s.ws[w := s.ws[w].(pc := WTake(Check))], dq := s.dq.(lock := Some(W(w))));
    var s2 := Go(c, s, s1, WStep(w, 0));
    assert s2 == s1.(ws := s.ws[w := s.ws[w].(pc := WTakePop)]);
    var s3 := Go(c, s, s2, WStep(w, 0));
    assert s3.ws == s.ws[w := t.ws[w].(pc := WTakeDec)];
    assert s3 == t.(ws := s3.ws, dq := s.dq.(lock := Some(W(w)), queue := t.dq.queue), recv := s.recv);
    PopEnds(c, s, s3, t, w);
  }

  lemma PopEnds(c: Config, s: State, s3: State, t: State, w: nat)
    requires Reach(c, s, s3) && w < |t.ws| && t.ws[w].pc.WGet?
    requires s3 == t.(ws := t.ws[w := t.ws[w].(pc := WTakeDec)], dq := s3.dq, recv := s3.recv)
    requires t.dq == s3.dq.(size := s3.dq.size - 1, lock := None) && t.recv == s3.recv.(asleep := false)
    ensures Reach(c, s, t)
  {
    var s4 := Go(c, s, s3, WStep(w, 0));
    assert s4.ws == t.ws[w := t.ws[w].(pc := WTakeUnlock)];
    var s5 := Go(c, s, s4, WStep(w, 0));
    assert s5.ws == t.ws[w := t.ws[w].(pc := WTakeSignal)];
    var s6 := Go(c, s, s5, WStep(w, 0));
    assert s6.ws == t.ws;
  }

  /** The worker looks the file up and opens the segment its message pointer names. */
  function AfterOpen(c: Config, s: State, w: nat): State
    requires w < |s.ws| && Deref(c, s, s.ws[w]).name in s.ns
  {
    var m := Deref(c, s, s.ws[w]);
    s.(ws := s.ws[w := s.ws[w].(pc := WZero, fd := if m.path in c.files then Some(m.path) else None,
                                len := FileLen(c, m.path), gen := s.ns[m.name])])
  }

  lemma OpenAlone(c: Config, s: State, w: nat)
    requires w < |s.ws| && s.ws[w].pc.WGet? && Deref(c, s, s.ws[w]).name in s.ns
    ensures Reach(c, s, AfterOpen(c, s, w))
  {
    ReachSelf(c, s);
    var s1 := Go(c, s, s, WStep(w, 0));
    var s2 := Go(c, s, s1, WStep(w, 0));
    assert s2.ws == AfterOpen(c, s, w).ws;
  }
}
