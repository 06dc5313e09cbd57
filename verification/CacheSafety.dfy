/** Every step of every thread keeps the safety invariant. */
module CacheSafety {
  import opened Wrappers
  import opened Sequences
  import opened CacheModel
  import opened CachePair
  import opened CacheInvariant
  import opened CacheFrames

  // ---------- steps that touch one segment ----------

  /** Program counters between sending the request and giving the name back. */
  predicate Mid(pc: HPc)
    ensures Mid(pc) ==> Role(pc) == Outside && HOwns(pc) && HHasGen(pc) && HLive(pc)
    ensures Mid(pc) ==> !HTakePc(pc) && !pc.HCreateOpen? && !pc.HGive?
  {
    HLenPc(pc) || HDataPc(pc) || pc.HSend? || pc.HUnlink? || pc.HAbandoned?
  }

  /** The step stays inside one handler's record and segment. */
  ghost predicate HMoves(s: State, h: nat, s': State, x': Handler, g': Seg) {
    && h < |s.hs| && s.hs[h].gen < |s.segs|
    && s' == s.(hs := s.hs[h := x'], segs := s.segs[s.hs[h].gen := g'])
    && Mid(s.hs[h].pc) && Mid(x'.pc)
    && x'.name == s.hs[h].name && x'.gen == s.hs[h].gen && x'.loc == s.hs[h].loc
  }

  lemma HMovesPool(c: Config, s: State, h: nat, s': State, x': Handler, g': Seg)
    requires PoolInv(c, s) && HMoves(s, h, s', x', g')
    ensures PoolInv(c, s')
  {
    PoolFrame(c, s, s');
  }

  lemma HMovesNames(s: State, h: nat, s': State, x': Handler, g': Seg)
    requires NameInv(s) && HMoves(s, h, s', x', g')
    ensures NameInv(s')
  {
    NameFrame(s, s');
  }

  lemma HMovesQueues(c: Config, s: State, h: nat, s': State, x': Handler, g': Seg)
    requires TicketInv(c, s) && DqInv(s) && SlotInv(c, s) && HMoves(s, h, s', x', g')
    ensures TicketInv(c, s') && DqInv(s') && SlotInv(c, s')
  {
    TicketFrame(c, s, s');
    DqFrame(s, s');
    SlotFrame(c, s, s');
  }

  lemma HMovesPairs(c: Config, s: State, h: nat, s': State, x': Handler, g': Seg)
    requires PairInv(c, s) && NameInv(s) && HMoves(s, h, s', x', g')
    requires PairOk(c, c.paths[h], x', g', ViewOf(s, s.hs[h]))
    requires x'.loc == NotSent <==> x'.pc.HInitLen? || x'.pc.HInitBytes? || x'.pc.HSend?
    ensures PairInv(c, s')
  {
    forall i | 0 <= i < |s'.hs|
      ensures PairAt(c, s', i)
    {
      assert PairAt(c, s, i);
      if i != h {
        PairFrame(c, s, s', i);
      } else {
        assert ViewOf(s', x') == ViewOf(s, s.hs[h]);
      }
    }
  }

  lemma HMoveShape(c: Config, h: nat, x: Handler, g: Seg, x': Handler, g': Seg)
    requires HLenPc(x.pc) || HDataPc(x.pc)
    requires (if HLenPc(x.pc) then HLenMove(c, h, x, g) else HDataMove(c, h, x, g)) == Some((x', g'))
    ensures Mid(x'.pc) && x'.name == x.name && x'.gen == x.gen && x'.loc == x.loc
    ensures (x'.pc.HInitLen? || x'.pc.HInitBytes? || x'.pc.HSend?) == (x.pc.HInitLen? || x.pc.HInitBytes?)
  {
  }

  lemma SegMoveOf(c: Config, s: State, h: nat, s': State) returns (x': Handler, g': Seg)
    requires h < |s.hs| && h < |c.paths| && s.hs[h].gen < |s.segs|
    requires HLenPc(s.hs[h].pc) || HDataPc(s.hs[h].pc)
    requires HNext(c, s, h) == Some(s')
    ensures HMoves(s, h, s', x', g')
    ensures var x, g := s.hs[h], s.segs[s.hs[h].gen];
      (if HLenPc(x.pc) then HLenMove(c, h, x, g) else HDataMove(c, h, x, g)) == Some((x', g'))
  {
    var x, g := s.hs[h], s.segs[s.hs[h].gen];
    var m := if HLenPc(x.pc) then HLenMove(c, h, x, g) else HDataMove(c, h, x, g);
    x', g' := m.value.0, m.value.1;
  }

  lemma HSegPair(c: Config, s: State, h: nat, s': State) returns (x': Handler, g': Seg)
    requires h < |s.hs| && h < |c.paths| && PairAt(c, s, h)
    requires HLenPc(s.hs[h].pc) || HDataPc(s.hs[h].pc)
    requires HNext(c, s, h) == Some(s')
    ensures HMoves(s, h, s', x', g') && PairOk(c, c.paths[h], x', g', ViewOf(s, s.hs[h]))
    ensures x'.loc == NotSent <==> x'.pc.HInitLen? || x'.pc.HInitBytes? || x'.pc.HSend?
  {
    var x, g := s.hs[h], s.segs[s.hs[h].gen];
    x', g' := SegMoveOf(c, s, h, s');
    HMoveShape(c, h, x, g, x', g');
    if HLenPc(x.pc) {
      HLenLocal(c, c.paths[h], h, x, g, ViewOf(s, x), x', g');
    } else {
      HDataLocal(c, c.paths[h], h, x, g, ViewOf(s, x), x', g');
    }
  }

  lemma HSegMoveKeeps(c: Config, s: State, h: nat, s': State)
    requires Inv(c, s) && h < |s.hs| && (HLenPc(s.hs[h].pc) || HDataPc(s.hs[h].pc))
    requires HNext(c, s, h) == Some(s')
    ensures Inv(c, s')
  {
    assert PairAt(c, s, h);
    var x', g' := HSegPair(c, s, h, s');
    HMovesPool(c, s, h, s', x', g');
    HMovesNames(s, h, s', x', g');
    HMovesQueues(c, s, h, s', x', g');
    HMovesPairs(c, s, h, s', x', g');
  }

  lemma ShortShape(c: Config, path: string, x: Handler, g: Seg, v: View)
    requires x.pc.HDataSend? && PairOk(c, path, x, g, v)
    ensures PairOk(c, path, x.(pc := HAbandoned), g, v)
  {
  }

  lemma HShortKeeps(c: Config, s: State, h: nat, s': State)
    requires Inv(c, s) && HShortNext(c, s, h) == Some(s')
    ensures Inv(c, s')
  {
    assert PairAt(c, s, h);
    var x, g := s.hs[h], s.segs[s.hs[h].gen];
    assert s'.segs == s'.segs[x.gen := g];
    ShortShape(c, c.paths[h], x, g, ViewOf(s, x));
    HMovesPool(c, s, h, s', s'.hs[h], g);
    HMovesNames(s, h, s', s'.hs[h], g);
    HMovesQueues(c, s, h, s', s'.hs[h], g);
    HMovesPairs(c, s, h, s', s'.hs[h], g);
  }

  // ---------- the pool ----------

  /** The step changes one handler and the pool. */
  ghost predicate HPools(s: State, h: nat, s': State, x': Handler, p': Pool) {
    h < |s.hs| && s' == s.(hs := s.hs[h := x'], pool := p')
  }

  /** Conservation depends only on who owns which name. */
  lemma KeepsOwners(c: Config, s: State, h: nat, s': State, x': Handler, p': Pool)
    requires Conserved(c, s) && HPools(s, h, s', x', p') && p'.free == s.pool.free
    requires HOwns(x'.pc) == HOwns(s.hs[h].pc) && (HOwns(x'.pc) ==> x'.name == s.hs[h].name)
    ensures Conserved(c, s')
  {
    forall n | n in c.names && n !in s'.pool.free
      ensures exists i :: 0 <= i < |s'.hs| && HOwns(s'.hs[i].pc) && s'.hs[i].name == n
    {
      var i :| 0 <= i < |s.hs| && HOwns(s.hs[i].pc) && s.hs[i].name == n;
      assert HOwns(s'.hs[i].pc) && s'.hs[i].name == n;
    }
  }

  /** Popping hands the first name of the queue to one handler. */
  lemma PopConserves(c: Config, s: State, h: nat, s': State, x': Handler, p': Pool)
    requires Conserved(c, s) && HPools(s, h, s', x', p') && s.pool.free != []
    requires p'.free == s.pool.free[1..] && x'.name == s.pool.free[0] && !HOwns(s.hs[h].pc) && HOwns(x'.pc)
    ensures Conserved(c, s')
  {
    assert s.pool.free == [x'.name] + p'.free;
    forall n | n in c.names && n !in s'.pool.free
      ensures exists i :: 0 <= i < |s'.hs| && HOwns(s'.hs[i].pc) && s'.hs[i].name == n
    {
      if n in s.pool.free {
        assert s'.hs[h].name == n;
      } else {
        var i :| 0 <= i < |s.hs| && HOwns(s.hs[i].pc) && s.hs[i].name == n;
        assert s'.hs[i] == s.hs[i];
      }
    }
  }

  /** Enqueueing takes the name back. */
  lemma PushConserves(c: Config, s: State, h: nat, s': State, x': Handler, p': Pool)
    requires Conserved(c, s) && HPools(s, h, s', x', p')
    requires p'.free == s.pool.free + [s.hs[h].name] && HOwns(s.hs[h].pc) && !HOwns(x'.pc)
    ensures Conserved(c, s')
  {
    var name := s.hs[h].name;
    assert p'.free[|s.pool.free|] == name;
    forall n | n in c.names && n !in s'.pool.free
      ensures exists i :: 0 <= i < |s'.hs| && HOwns(s'.hs[i].pc) && s'.hs[i].name == n
    {
      assert n !in s.pool.free && n != name;
      var i :| 0 <= i < |s.hs| && HOwns(s.hs[i].pc) && s.hs[i].name == n;
      assert s'.hs[i] == s.hs[i];
    }
  }

  lemma TakeWaits(s: State, h: nat, s': State, x': Handler, p': Pool)
    requires PoolCounted(s) && HPools(s, h, s', x', p') && HTakeMove(h, s.hs[h], s.pool) == Some((x', p'))
    requires s.hs[h].pc.HTake?
    ensures PoolCounted(s')
  {
  }

  lemma TakeCounts(s: State, h: nat, s': State, x': Handler, p': Pool)
    requires PoolCounted(s) && HPools(s, h, s', x', p') && HTakeMove(h, s.hs[h], s.pool) == Some((x', p'))
    requires !s.hs[h].pc.HTake?
    ensures PoolCounted(s')
  {
  }

  lemma GiveCounts(c: Config, s: State, h: nat, s': State, x': Handler, p': Pool)
    requires PoolCounted(s) && HPools(s, h, s', x', p') && HGiveMove(c, h, s.hs[h], s.pool) == Some((x', p'))
    requires s.hs[h].pc == HGive(Check) ==> |s.pool.free| < |c.names|
    ensures PoolCounted(s')
  {
  }

  /** A handler that returns its name finds the pool not full: the wait on `write_cond` is never taken. */
  lemma PoolNeverFull(c: Config, s: State, h: nat)
    requires Conserved(c, s) && h < |s.hs| && HOwns(s.hs[h].pc)
    ensures |s.pool.free| < |c.names|
  {
    ProperPartIsShorter(s.pool.free, c.names, s.hs[h].name);
  }

  lemma TakePool(c: Config, s: State, h: nat, s': State, x': Handler, p': Pool)
    requires PoolInv(c, s) && HPools(s, h, s', x', p') && HTakeMove(h, s.hs[h], s.pool) == Some((x', p'))
    ensures PoolInv(c, s')
  {
    if s.hs[h].pc.HTake? {
      TakeWaits(s, h, s', x', p');
    } else {
      TakeCounts(s, h, s', x', p');
    }
    if s.hs[h].pc.HTakePop? {
      PopConserves(c, s, h, s', x', p');
    } else {
      KeepsOwners(c, s, h, s', x', p');
    }
  }

  lemma GivePool(c: Config, s: State, h: nat, s': State, x': Handler, p': Pool)
    requires PoolInv(c, s) && HPools(s, h, s', x', p') && HGiveMove(c, h, s.hs[h], s.pool) == Some((x', p'))
    ensures PoolInv(c, s')
  {
    if s.hs[h].pc == HGive(Check) {
      PoolNeverFull(c, s, h);
    }
    GiveCounts(c, s, h, s', x', p');
    if s.hs[h].pc.HGivePush? {
      PushConserves(c, s, h, s', x', p');
    } else {
      KeepsOwners(c, s, h, s', x', p');
    }
  }

  // ---------- steps of a handler outside its segment ----------

  /** The step changes one handler, and besides at most the pool, the name space and new segments. */
  ghost predicate HPlain(s: State, h: nat, s': State) {
    && h < |s.hs| && h < |s'.hs| && s'.hs == s.hs[h := s'.hs[h]]
    && s'.mq == s.mq && s'.dq == s.dq && s'.recv == s.recv && s'.ws == s.ws
    && s.segs <= s'.segs
    && s'.hs[h].loc == s.hs[h].loc
    && (s.hs[h].loc != NotSent ==> s'.hs[h].name == s.hs[h].name)
  }

  lemma HPlainQueues(c: Config, s: State, h: nat, s': State)
    requires TicketInv(c, s) && DqInv(s) && SlotInv(c, s) && HPlain(s, h, s')
    ensures TicketInv(c, s') && DqInv(s') && SlotInv(c, s')
  {
    TicketFrame(c, s, s');
    DqFrame(s, s');
    SlotFrame(c, s, s');
  }

  lemma HPlainPairs(c: Config, s: State, h: nat, s': State)
    requires PairInv(c, s) && HPlain(s, h, s')
    requires h < |c.paths| && PairAt(c, s', h)
    ensures PairInv(c, s')
  {
    forall i | 0 <= i < |s'.hs|
      ensures PairAt(c, s', i)
    {
      assert PairAt(c, s, i);
      if i != h {
        PairFrame(c, s, s', i);
      }
    }
  }

  /** The handler's claim on names and generations is as before. */
  predicate SameClaim(x: Handler, x': Handler) {
    && HHasGen(x'.pc) == HHasGen(x.pc) && x'.gen == x.gen
    && (HLive(x'.pc) ==> HLive(x.pc))
    && (x'.pc.HCreateOpen? ==> x.pc.HCreateOpen?)
    && (!HTakePc(x.pc) ==> x'.name == x.name)
  }

  lemma HPlainNames(s: State, h: nat, s': State)
    requires NameInv(s) && HPlain(s, h, s') && s'.ns == s.ns && s'.segs == s.segs
    requires SameClaim(s.hs[h], s'.hs[h])
    ensures NameInv(s')
  {
    NameFrame(s, s');
  }

  lemma TakeShape(h: nat, x: Handler, p: Pool, x': Handler, p': Pool)
    requires HTakeMove(h, x, p) == Some((x', p')) && FreshOk(x)
    ensures SameClaim(x, x') && FreshOk(x') && !HHasGen(x.pc)
  {
  }

  lemma HTakeKeeps(c: Config, s: State, h: nat, s': State)
    requires Inv(c, s) && h < |s.hs| && HTakePc(s.hs[h].pc)
    requires HNext(c, s, h) == Some(s')
    ensures Inv(c, s')
  {
    assert PairAt(c, s, h);
    var (x', p') := HTakeMove(h, s.hs[h], s.pool).value;
    TakePool(c, s, h, s', x', p');
    TakeShape(h, s.hs[h], s.pool, x', p');
    HPlainQueues(c, s, h, s');
    HPlainPairs(c, s, h, s');
    HPlainNames(s, h, s');
  }

  /** After the transfer only the not-found header is still to be sent. */
  lemma GivePairCounts(c: Config, path: string, h: nat, x: Handler, p: Pool, g: Seg, v: View, x': Handler, p': Pool)
    requires HGiveMove(c, h, x, p) == Some((x', p')) && CountsOk(c, path, x, g, v)
    ensures CountsOk(c, path, x', g, v)
  {
  }

  lemma GivePairBytes(c: Config, path: string, h: nat, x: Handler, p: Pool, g: Seg, v: View, x': Handler, p': Pool)
    requires HGiveMove(c, h, x, p) == Some((x', p')) && CountsOk(c, path, x, g, v) && BytesOk(c, path, x, g, v)
    ensures BytesOk(c, path, x', g, v)
  {
  }

  lemma GiveShape(c: Config, path: string, h: nat, x: Handler, p: Pool, g: Seg, v: View, x': Handler, p': Pool)
    requires HGiveMove(c, h, x, p) == Some((x', p'))
    ensures SameClaim(x, x') && HHasGen(x.pc) && x'.loc == x.loc
    ensures PairOk(c, path, x, g, v) ==> PairOk(c, path, x', g, v)
  {
    if PairOk(c, path, x, g, v) {
      GivePairCounts(c, path, h, x, p, g, v, x', p');
      GivePairBytes(c, path, h, x, p, g, v, x', p');
    }
  }

  lemma HGiveKeeps(c: Config, s: State, h: nat, s': State)
    requires Inv(c, s) && h < |s.hs|
    requires !HTakePc(s.hs[h].pc) && !HNamePc(s.hs[h].pc) && !HLenPc(s.hs[h].pc) && !HDataPc(s.hs[h].pc)
    requires HNext(c, s, h) == Some(s')
    ensures Inv(c, s')
  {
    assert PairAt(c, s, h);
    var x := s.hs[h];
    var (x', p') := HGiveMove(c, h, x, s.pool).value;
    GivePool(c, s, h, s', x', p');
    assert HHasGen(x.pc);
    GiveShape(c, c.paths[h], h, x, s.pool, s.segs[x.gen], ViewOf(s, x), x', p');
    HPlainQueues(c, s, h, s');
    HPlainPairs(c, s, h, s');
    HPlainNames(s, h, s');
  }

  // ---------- names ----------

  /** Unlinking one's own name takes no live name away from another handler. */
  lemma UnlinkNames(c: Config, s: State, h: nat, s': State)
    requires NameInv(s) && Conserved(c, s) && HPlain(s, h, s') && HOwns(s.hs[h].pc)
    requires s'.segs == s.segs && s'.ns == s.ns - {s.hs[h].name}
    requires s'.hs[h].gen == s.hs[h].gen && HHasGen(s'.hs[h].pc) == HHasGen(s.hs[h].pc)
    requires !HLive(s'.hs[h].pc) && s'.hs[h].name == s.hs[h].name
    ensures NameInv(s')
  {
    forall i | 0 <= i < |s'.hs| && HLive(s'.hs[i].pc)
      ensures s'.hs[i].name in s'.ns && s'.ns[s'.hs[i].name] == s'.hs[i].gen
    {
      assert i != h && HOwns(s.hs[i].pc);
    }
  }

  /** A handler opens a new generation under its name. */
  ghost predicate Opens(c: Config, s: State, h: nat, s': State) {
    && HPlain(s, h, s') && s.hs[h].pc.HCreateOpen? && s'.hs[h].pc.HInitLen?
    && |s'.segs| == |s.segs| + 1 && s'.ns == s.ns[s.hs[h].name := |s.segs|]
    && s'.hs[h].gen == |s.segs| && s'.hs[h].name == s.hs[h].name
  }

  lemma OpenOther(c: Config, s: State, h: nat, s': State, i: nat)
    requires NameInv(s) && Conserved(c, s) && Opens(c, s, h, s') && i < |s'.hs| && i != h
    ensures HLive(s'.hs[i].pc) ==> s'.hs[i].name in s'.ns && s'.ns[s'.hs[i].name] == s'.hs[i].gen
    ensures s'.hs[i].pc.HCreateOpen? ==> s'.hs[i].name !in s'.ns
    ensures HHasGen(s'.hs[i].pc) ==> s'.hs[i].gen < |s.segs|
  {
    assert HOwns(s.hs[h].pc) && (HLive(s.hs[i].pc) || s.hs[i].pc.HCreateOpen? ==> HOwns(s.hs[i].pc));
  }

  /** The new generation is bound to the creator's name and to no one else's. */
  lemma OpenNames(c: Config, s: State, h: nat, s': State)
    requires NameInv(s) && Conserved(c, s) && Opens(c, s, h, s')
    ensures NameInv(s')
  {
    forall i | 0 <= i < |s'.hs| && i != h
      ensures HLive(s'.hs[i].pc) ==> s'.hs[i].name in s'.ns && s'.ns[s'.hs[i].name] == s'.hs[i].gen
      ensures s'.hs[i].pc.HCreateOpen? ==> s'.hs[i].name !in s'.ns
      ensures HHasGen(s'.hs[i].pc) ==> s'.hs[i].gen < |s.segs|
    {
      OpenOther(c, s, h, s', i);
    }
  }

  /** A step outside the pool's critical sections that keeps the handler's name. */
  lemma QuietPool(c: Config, s: State, h: nat, s': State)
    requires PoolInv(c, s) && h < |s.hs| && h < |s'.hs| && s'.pool == s.pool && s'.hs == s.hs[h := s'.hs[h]]
    requires Role(s.hs[h].pc) == Role(s'.hs[h].pc) == Outside && !s'.hs[h].pc.HGive?
    requires HOwns(s.hs[h].pc) && HOwns(s'.hs[h].pc) && s'.hs[h].name == s.hs[h].name
    ensures PoolInv(c, s')
  {
    PoolFrame(c, s, s');
  }

  lemma SentIsQueued(c: Config, s: State, h: nat, s': State, i: nat)
    requires TicketInv(c, s) && h < |s.hs| && h < |c.paths| && s.hs[h].pc.HSend?
    requires HNameNext(c, s, h) == Some(s') && i < |s'.hs| && s'.hs[i].loc == InMq
    ensures exists j :: 0 <= j < |s'.mq| && s'.mq[j].owner == i
  {
    assert s'.mq[|s.mq|].owner == h;
    if i != h {
      var j :| 0 <= j < |s.mq| && s.mq[j].owner == i;
      assert s'.mq[j].owner == i;
    }
  }

  lemma HSendTickets(c: Config, s: State, h: nat, s': State)
    requires TicketInv(c, s) && h < |s.hs| && h < |c.paths| && s.hs[h].pc.HSend? && s.hs[h].loc == NotSent
    requires HNameNext(c, s, h) == Some(s')
    ensures TicketInv(c, s')
  {
    forall i | 0 <= i < |s'.hs| && s'.hs[i].loc == InMq
      ensures exists j :: 0 <= j < |s'.mq| && s'.mq[j].owner == i
    {
      SentIsQueued(c, s, h, s', i);
    }
  }

  /** Posting the message changes no counter and no byte. */
  lemma SentCounts(c: Config, path: string, x: Handler, x': Handler, g: Seg)
    requires x.pc.HSend? && x' == x.(pc := HLen(Lock), loc := InMq) && CountsOk(c, path, x, g, Waiting)
    ensures CountsOk(c, path, x', g, Waiting)
  {
  }

  lemma SentBytesKept(c: Config, path: string, x: Handler, x': Handler, g: Seg)
    requires x.pc.HSend? && x' == x.(pc := HLen(Lock), loc := InMq) && BytesOk(c, path, x, g, Waiting)
    ensures BytesOk(c, path, x', g, Waiting)
  {
    assert HSilent(x.pc) && HSilent(x'.pc);
    SilentBytes(c, path, x, g, Waiting, x', g);
  }

  lemma SentParts(c: Config, path: string, x: Handler, x': Handler, g: Seg)
    requires x.pc.HSend? && x' == x.(pc := HLen(Lock), loc := InMq) && PairOk(c, path, x, g, Waiting)
    ensures PairOk(c, path, x', g, Waiting)
  {
    SentCounts(c, path, x, x', g);
    SentBytesKept(c, path, x, x', g);
  }

  lemma SendShape(c: Config, s: State, h: nat, s': State)
    requires h < |s.hs| && h < |c.paths| && s.hs[h].pc.HSend? && HNameNext(c, s, h) == Some(s')
    ensures s'.hs == s.hs[h := s.hs[h].(pc := HLen(Lock), loc := InMq)] && s'.segs == s.segs
  {
  }

  lemma SentPair(c: Config, s: State, h: nat, s': State)
    requires h < |s.hs| && h < |c.paths| && PairAt(c, s, h) && s.hs[h].pc.HSend?
    requires s'.hs == s.hs[h := s.hs[h].(pc := HLen(Lock), loc := InMq)] && s'.segs == s.segs
    ensures PairAt(c, s', h)
  {
    assert s.hs[h].loc == NotSent;
    SentParts(c, c.paths[h], s.hs[h], s'.hs[h], s.segs[s.hs[h].gen]);
  }

  lemma HSendPairs(c: Config, s: State, h: nat, s': State)
    requires PairInv(c, s) && h < |s.hs| && s.hs[h].pc.HSend? && HNameNext(c, s, h) == Some(s')
    ensures PairInv(c, s')
  {
    forall i | 0 <= i < |s'.hs|
      ensures PairAt(c, s', i)
    {
      if i != h {
        assert PairAt(c, s, i);
        PairFrame(c, s, s', i);
      } else {
        assert PairAt(c, s, h);
        SendShape(c, s, h, s');
        SentPair(c, s, h, s');
      }
    }
  }

  lemma HSendPool(c: Config, s: State, h: nat, s': State)
    requires PoolInv(c, s) && h < |s.hs| && s.hs[h].pc.HSend? && HNext(c, s, h) == Some(s')
    ensures PoolInv(c, s') && h < |c.paths| && HNameNext(c, s, h) == Some(s')
  {
    QuietPool(c, s, h, s');
  }

  lemma NotSentYet(c: Config, s: State, h: nat)
    requires PairInv(c, s) && h < |s.hs| && s.hs[h].pc.HSend?
    ensures s.hs[h].loc == NotSent
  {
    assert PairAt(c, s, h);
  }

  lemma HSendKeeps(c: Config, s: State, h: nat, s': State)
    requires Inv(c, s) && h < |s.hs| && s.hs[h].pc.HSend? && HNext(c, s, h) == Some(s')
    ensures Inv(c, s')
  {
    HSendPool(c, s, h, s');
    NotSentYet(c, s, h);
    HSendTickets(c, s, h, s');
    HSendPairs(c, s, h, s');
    HSendRest(c, s, h, s');
  }

  lemma HSendRest(c: Config, s: State, h: nat, s': State)
    requires NameInv(s) && DqInv(s) && SlotInv(c, s)
    requires h < |s.hs| && h < |c.paths| && s.hs[h].pc.HSend? && HNameNext(c, s, h) == Some(s')
    ensures NameInv(s') && DqInv(s') && SlotInv(c, s')
  {
    NameFrame(s, s');
    DqFrame(s, s');
    SlotFrame(c, s, s');
  }

  lemma FreshPair(c: Config, path: string, x: Handler, g: Seg)
    requires FreshOk(x) && x.pc.HInitLen?
    requires g == Seg(0, 0, g.data, None, None, {}, {}) && |g.data| == c.cap
    ensures PairOk(c, path, x, g, Waiting)
  {
  }

  lemma HCreateKeeps(c: Config, s: State, h: nat, s': State)
    requires Inv(c, s) && h < |s.hs| && s.hs[h].pc.HCreateOpen? && HNext(c, s, h) == Some(s')
    ensures Inv(c, s')
  {
    assert PairAt(c, s, h);
    QuietPool(c, s, h, s');
    HPlainQueues(c, s, h, s');
    FreshPair(c, c.paths[h], s'.hs[h], s'.segs[|s.segs|]);
    HPlainPairs(c, s, h, s');
    OpenNames(c, s, h, s');
  }

  lemma ClearShape(x: Handler)
    requires x.pc.HCreateUnlink? && FreshOk(x)
    ensures FreshOk(x.(pc := HCreateOpen)) && !HHasGen(x.pc) && !HHasGen(HCreateOpen)
    ensures Role(x.pc) == Role(HCreateOpen) == Outside && HOwns(x.pc) && HOwns(HCreateOpen) && !HLive(HCreateOpen)
  {
  }

  lemma HClearKeeps(c: Config, s: State, h: nat, s': State)
    requires Inv(c, s) && h < |s.hs| && s.hs[h].pc.HCreateUnlink? && HNext(c, s, h) == Some(s')
    ensures Inv(c, s')
  {
    assert PairAt(c, s, h);
    ClearShape(s.hs[h]);
    QuietPool(c, s, h, s');
    HPlainQueues(c, s, h, s');
    HPlainPairs(c, s, h, s');
    UnlinkNames(c, s, h, s');
  }

  lemma UnlinkIsPlain(c: Config, s: State, h: nat, s': State)
    requires h < |s.hs| && s.hs[h].pc.HUnlink? && HNext(c, s, h) == Some(s')
    ensures HPlain(s, h, s') && s'.hs[h] == s.hs[h].(pc := HGive(Lock)) && s'.pool == s.pool
    ensures s'.segs == s.segs && s'.ns == s.ns - {s.hs[h].name} && h < |c.paths|
  {
  }

  lemma UnlinkPairs(c: Config, s: State, h: nat, s': State)
    requires PairInv(c, s) && HPlain(s, h, s') && s.hs[h].pc.HUnlink? && s'.segs == s.segs
    requires s'.hs[h] == s.hs[h].(pc := HGive(Lock))
    ensures PairInv(c, s')
  {
    assert PairAt(c, s, h);
    var x := s.hs[h];
    UnlinkShape(c, c.paths[h], x, s.segs[x.gen], ViewOf(s, x), s'.hs[h]);
    HPlainPairs(c, s, h, s');
  }

  lemma HUnlinkGroups(c: Config, s: State, h: nat, s': State)
    requires PoolInv(c, s) && NameInv(s) && h < |s.hs| && s.hs[h].pc.HUnlink? && HNext(c, s, h) == Some(s')
    ensures PoolInv(c, s') && NameInv(s') && HPlain(s, h, s') && s'.segs == s.segs
    ensures s'.hs[h] == s.hs[h].(pc := HGive(Lock))
  {
    UnlinkIsPlain(c, s, h, s');
    UnlinkPool(c, s, h, s');
    UnlinkNames(c, s, h, s');
  }

  lemma HUnlinkKeeps(c: Config, s: State, h: nat, s': State)
    requires Inv(c, s) && h < |s.hs| && s.hs[h].pc.HUnlink? && HNext(c, s, h) == Some(s')
    ensures Inv(c, s')
  {
    HUnlinkGroups(c, s, h, s');
    HPlainQueues(c, s, h, s');
    UnlinkPairs(c, s, h, s');
  }

  lemma UnlinkPool(c: Config, s: State, h: nat, s': State)
    requires PoolInv(c, s) && h < |s.hs| && h < |s'.hs| && s'.pool == s.pool && s'.hs == s.hs[h := s'.hs[h]]
    requires s.hs[h].pc.HUnlink? && s'.hs[h] == s.hs[h].(pc := HGive(Lock))
    ensures PoolInv(c, s')
  {
    PoolFrame(c, s, s');
  }

  lemma UnlinkShape(c: Config, path: string, x: Handler, g: Seg, v: View, x': Handler)
    requires x.pc.HUnlink? && x' == x.(pc := HGive(Lock)) && PairOk(c, path, x, g, v)
    ensures PairOk(c, path, x', g, v)
  {
  }

  /** Every handler step keeps the invariant. */
  lemma HStepKeeps(c: Config, s: State, h: nat, s': State)
    requires Inv(c, s) && HNext(c, s, h) == Some(s')
    ensures Inv(c, s')
  {
    var pc := s.hs[h].pc;
    if HTakePc(pc) {
      HTakeKeeps(c, s, h, s');
    } else if pc.HSend? {
      HSendKeeps(c, s, h, s');
    } else if pc.HUnlink? {
      HUnlinkKeeps(c, s, h, s');
    } else if pc.HCreateOpen? {
      HCreateKeeps(c, s, h, s');
    } else if pc.HCreateUnlink? {
      HClearKeeps(c, s, h, s');
    } else if HLenPc(pc) || HDataPc(pc) {
      HSegMoveKeeps(c, s, h, s');
    } else {
      HGiveKeeps(c, s, h, s');
    }
  }
}
