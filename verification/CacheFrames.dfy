/** When a step leaves alone what an invariant group looks at, the group keeps holding. */
module CacheFrames {
  import opened CacheModel
  import opened CachePair
  import opened CacheInvariant

  ghost predicate SamePool(s: State, s': State) {
    && s'.pool.free == s.pool.free && s'.pool.size == s.pool.size && s'.pool.lock == s.pool.lock
    && |s'.hs| == |s.hs|
    && forall h :: 0 <= h < |s.hs| ==>
      && Role(s'.hs[h].pc) == Role(s.hs[h].pc)
      && HOwns(s'.hs[h].pc) == HOwns(s.hs[h].pc)
      && (HOwns(s.hs[h].pc) ==> s'.hs[h].name == s.hs[h].name)
      && s'.hs[h].pc != HGive(Wait) && s'.hs[h].pc != HGive(Sleep)
  }

  lemma PoolFrame(c: Config, s: State, s': State)
    requires PoolInv(c, s) && SamePool(s, s')
    ensures PoolInv(c, s')
  {
    assert PoolLocked(s');
    assert PoolLag(s') == PoolLag(s);
    forall n | n in c.names && n !in s'.pool.free
      ensures exists h :: 0 <= h < |s'.hs| && HOwns(s'.hs[h].pc) && s'.hs[h].name == n
    {
      var h :| 0 <= h < |s.hs| && HOwns(s.hs[h].pc) && s.hs[h].name == n;
      assert HOwns(s'.hs[h].pc) && s'.hs[h].name == n;
    }
  }

  ghost predicate SameNames(s: State, s': State) {
    && s'.ns == s.ns && |s'.segs| == |s.segs| && |s'.hs| == |s.hs|
    && forall h :: 0 <= h < |s.hs| ==>
      && HHasGen(s'.hs[h].pc) == HHasGen(s.hs[h].pc)
      && s'.hs[h].gen == s.hs[h].gen
      && (HLive(s'.hs[h].pc) ==> HLive(s.hs[h].pc))
      && (s'.hs[h].pc.HCreateOpen? ==> s.hs[h].pc.HCreateOpen?)
      && (!HTakePc(s.hs[h].pc) ==> s'.hs[h].name == s.hs[h].name)
  }

  lemma NameFrame(s: State, s': State)
    requires NameInv(s) && SameNames(s, s')
    ensures NameInv(s')
  {
  }

  ghost predicate SameTickets(s: State, s': State) {
    && s'.mq == s.mq && s'.dq.queue == s.dq.queue
    && s'.recv.slot == s.recv.slot && RHolds(s'.recv.pc) == RHolds(s.recv.pc)
    && |s'.hs| == |s.hs| && |s'.ws| == |s.ws|
    && (forall h :: 0 <= h < |s.hs| ==>
      s'.hs[h].loc == s.hs[h].loc && (s.hs[h].loc != NotSent ==> s'.hs[h].name == s.hs[h].name))
    && (forall w :: 0 <= w < |s.ws| ==>
      WBusy(s'.ws[w].pc) == WBusy(s.ws[w].pc) && (WBusy(s.ws[w].pc) ==> s'.ws[w].msg == s.ws[w].msg))
  }

  lemma TicketFrame(c: Config, s: State, s': State)
    requires TicketInv(c, s) && SameTickets(s, s')
    ensures TicketInv(c, s')
  {
  }

  ghost predicate SameDq(s: State, s': State) {
    && s'.dq.queue == s.dq.queue && s'.dq.size == s.dq.size && s'.dq.lock == s.dq.lock
    && RInDq(s'.recv.pc) == RInDq(s.recv.pc) && s'.recv.pc.RPutInc? == s.recv.pc.RPutInc?
    && |s'.ws| == |s.ws|
    && forall w :: 0 <= w < |s.ws| ==>
      && WInDq(s'.ws[w].pc) == WInDq(s.ws[w].pc)
      && s'.ws[w].pc.WTakeDec? == s.ws[w].pc.WTakeDec?
      && s'.ws[w].pc.WTakePop? == s.ws[w].pc.WTakePop?
  }

  lemma DqFrame(s: State, s': State)
    requires DqInv(s) && SameDq(s, s')
    ensures DqInv(s')
  {
  }

  lemma SlotFrame(c: Config, s: State, s': State)
    requires SlotInv(c, s)
    requires s'.dq.queue == s.dq.queue && s'.recv.slot == s.recv.slot && |s'.ws| == |s.ws|
    requires forall w :: 0 <= w < |s.ws| && WReads(s'.ws[w].pc) ==> WReads(s.ws[w].pc) && s'.ws[w].msg == s.ws[w].msg
    ensures SlotInv(c, s')
  {
  }

  /** The pair of a handler that a step does not touch. */
  lemma PairFrame(c: Config, s: State, s': State, h: nat)
    requires h < |s.hs| && h < |s'.hs| && h < |c.paths| && PairAt(c, s, h)
    requires s'.hs[h] == s.hs[h]
    requires HHasGen(s.hs[h].pc) ==>
      && s.hs[h].gen < |s'.segs| && s'.segs[s.hs[h].gen] == s.segs[s.hs[h].gen]
      && ViewOf(s', s.hs[h]) == ViewOf(s, s.hs[h])
    ensures PairAt(c, s', h)
  {
  }
}
