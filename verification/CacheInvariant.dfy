/** The inductive invariant of the protocol's safety, group by group. */
module CacheInvariant {
  import opened Wrappers
  import opened Sequences
  import opened CacheModel
  import opened CachePair

  // ---------- the segment pool ----------

  /** What a handler is doing inside the critical sections of `fldes_mutex`. */
  datatype PoolRole = Outside | Inside | Popping | Popped | Pushed

  function Role(pc: HPc): PoolRole {
    if pc.HTakePop? then Popping
    else if pc.HTakeDec? then Popped
    else if pc.HGiveInc? then Pushed
    else if pc == HTake(Check) || pc == HTake(Wait) || pc.HTakeUnlock?
            || pc == HGive(Check) || pc == HGive(Wait) || pc.HGivePush? || pc.HGiveUnlock? then Inside
    else Outside
  }

  /** `fldes_queue_size` minus the length of `fldes_queue`: nonzero only between their two updates. */
  function PoolLag(s: State): int {
    match s.pool.lock
    case Some(H(h)) =>
      if h >= |s.hs| then 0 else (match Role(s.hs[h].pc) case Popped => 1 case Pushed => -1 case _ => 0)
    case _ => 0
  }

  ghost predicate PoolLocked(s: State) {
    && (s.pool.lock.Some? ==>
      s.pool.lock.value.H? && s.pool.lock.value.h < |s.hs| && Role(s.hs[s.pool.lock.value.h].pc) != Outside)
    && (forall h :: 0 <= h < |s.hs| && Role(s.hs[h].pc) != Outside ==> s.pool.lock == Some(H(h)))
  }

  /** Every segment name is either in the pool, once, or with exactly one handler. */
  ghost predicate Conserved(c: Config, s: State) {
    && NoDup(s.pool.free)
    && (forall n :: n in s.pool.free ==> n in c.names)
    && (forall h :: 0 <= h < |s.hs| && HOwns(s.hs[h].pc) ==> s.hs[h].name in c.names && s.hs[h].name !in s.pool.free)
    && (forall h, i :: 0 <= h < i < |s.hs| && HOwns(s.hs[h].pc) && HOwns(s.hs[i].pc) ==> s.hs[h].name != s.hs[i].name)
    && (forall n :: n in c.names ==>
      n in s.pool.free || exists h :: 0 <= h < |s.hs| && HOwns(s.hs[h].pc) && s.hs[h].name == n)
  }

  /** The counter agrees with the queue wherever the lock is free, and nobody waits for a full pool. */
  ghost predicate PoolCounted(s: State) {
    && PoolLocked(s)
    && s.pool.size == |s.pool.free| + PoolLag(s)
    && (forall h :: 0 <= h < |s.hs| && s.hs[h].pc.HTakePop? ==> s.pool.size != 0)
    && (forall h :: 0 <= h < |s.hs| ==> s.hs[h].pc != HGive(Wait) && s.hs[h].pc != HGive(Sleep))
  }

  ghost predicate PoolInv(c: Config, s: State) {
    PoolCounted(s) && Conserved(c, s)
  }

  // ---------- names and generations ----------

  ghost predicate NameInv(s: State) {
    && (forall h :: 0 <= h < |s.hs| && HHasGen(s.hs[h].pc) ==> s.hs[h].gen < |s.segs|)
    && (forall h, i :: 0 <= h < i < |s.hs| && HHasGen(s.hs[h].pc) && HHasGen(s.hs[i].pc) ==> s.hs[h].gen != s.hs[i].gen)
    && (forall h :: 0 <= h < |s.hs| && HLive(s.hs[h].pc) ==>
      s.hs[h].name in s.ns && s.ns[s.hs[h].name] == s.hs[h].gen)
    && (forall h :: 0 <= h < |s.hs| && s.hs[h].pc.HCreateOpen? ==> s.hs[h].name !in s.ns)
  }

  // ---------- messages ----------

  /** The message is the one its owner sent, and its owner's message is at `l`. */
  ghost predicate MsgOk(c: Config, s: State, m: Msg, l: Loc) {
    && m.owner < |s.hs| && m.owner < |c.paths|
    && s.hs[m.owner].loc == l
    && m.path == c.paths[m.owner] && m.name == s.hs[m.owner].name
  }

  /** `q` holds exactly the messages that are at `l`, each once. */
  ghost predicate Queued(c: Config, s: State, q: seq<Msg>, l: Loc) {
    && (forall i :: 0 <= i < |q| ==> MsgOk(c, s, q[i], l))
    && (forall i, j :: 0 <= i < j < |q| ==> q[i].owner != q[j].owner)
    && (forall h :: 0 <= h < |s.hs| && s.hs[h].loc == l ==> exists i :: 0 <= i < |q| && q[i].owner == h)
  }

  /** The receiver has a message it has not queued yet. */
  predicate RHolds(pc: RPc) { pc.RPut? || pc.RPutPush? }

  ghost predicate HeldInv(c: Config, s: State) {
    && (RHolds(s.recv.pc) ==> MsgOk(c, s, s.recv.slot, InRecv))
    && (forall h :: 0 <= h < |s.hs| && s.hs[h].loc == InRecv ==> RHolds(s.recv.pc) && s.recv.slot.owner == h)
    && (forall w :: 0 <= w < |s.ws| && WBusy(s.ws[w].pc) ==> MsgOk(c, s, s.ws[w].msg, AtWorker(w)))
    && (forall h :: 0 <= h < |s.hs| && s.hs[h].loc.AtWorker? ==>
      s.hs[h].loc.w < |s.ws| && WBusy(s.ws[s.hs[h].loc.w].pc) && s.ws[s.hs[h].loc.w].msg.owner == h)
  }

  ghost predicate TicketInv(c: Config, s: State) {
    && Queued(c, s, s.mq, InMq) && |s.mq| <= MQ_MAXMSG
    && Queued(c, s, s.dq.queue, InDq)
    && HeldInv(c, s)
  }

  // ---------- the daemon's queue ----------

  predicate WInDq(pc: WPc) {
    pc == WTake(Check) || pc == WTake(Wait) || pc.WTakePop? || pc.WTakeDec? || pc.WTakeUnlock?
  }

  predicate RInDq(pc: RPc) {
    pc == RPut(Check) || pc == RPut(Wait) || pc.RPutPush? || pc.RPutInc? || pc.RPutUnlock?
  }

  /** `steq_size` minus the length of `mq_data_queue`. */
  function DqLag(s: State): int {
    match s.dq.lock
    case Some(W(w)) => if w < |s.ws| && s.ws[w].pc.WTakeDec? then 1 else 0
    case Some(R) => if s.recv.pc.RPutInc? then -1 else 0
    case _ => 0
  }

  ghost predicate DqInv(s: State) {
    && (s.dq.lock.Some? ==>
      match s.dq.lock.value
      case H(_) => false
      case W(w) => w < |s.ws| && WInDq(s.ws[w].pc)
      case R => RInDq(s.recv.pc))
    && (forall w :: 0 <= w < |s.ws| && WInDq(s.ws[w].pc) ==> s.dq.lock == Some(W(w)))
    && (RInDq(s.recv.pc) ==> s.dq.lock == Some(R))
    && s.dq.size == |s.dq.queue| + DqLag(s)
    && (forall w :: 0 <= w < |s.ws| && s.ws[w].pc.WTakePop? ==> s.dq.size != 0)
  }

  // ---------- handler, segment and server of every request ----------

  ghost predicate PairAt(c: Config, s: State, h: nat)
    requires h < |s.hs| && h < |c.paths|
  {
    var x := s.hs[h];
    if HHasGen(x.pc) then
      && x.gen < |s.segs| && PairOk(c, c.paths[h], x, s.segs[x.gen], ViewOf(s, x))
      && (x.loc == NotSent <==> x.pc.HInitLen? || x.pc.HInitBytes? || x.pc.HSend?)
    else FreshOk(x)
  }

  ghost predicate PairInv(c: Config, s: State) {
    && |s.hs| == |c.paths| && |s.ws| == c.nworkers
    && forall h :: 0 <= h < |s.hs| ==> PairAt(c, s, h)
  }

  // ---------- the daemon's message buffer ----------

  /** The worker still reads through its message pointer. */
  predicate WReads(pc: WPc) {
    pc.WTakeDec? || pc.WTakeUnlock? || pc.WTakeSignal? || pc.WGet? || pc.WOpen?
  }

  /**
   When the daemon queues the address of its message buffer, the buffer still holds the message of
   every queued and every unread pointer.
   */
  ghost predicate SlotInv(c: Config, s: State) {
    c.alias ==>
      && (forall i :: 0 <= i < |s.dq.queue| ==> s.dq.queue[i] == s.recv.slot)
      && (forall w :: 0 <= w < |s.ws| && WReads(s.ws[w].pc) ==> s.ws[w].msg == s.recv.slot)
  }

  /**
   At most one message can be outstanding: either messages are copied, or there is at most one
   segment, or at most one request.
   */
  predicate OneBufferSuffices(c: Config) {
    !c.alias || |c.names| <= 1 || |c.paths| <= 1
  }

  ghost predicate Inv(c: Config, s: State) {
    && PoolInv(c, s) && NameInv(s) && TicketInv(c, s) && DqInv(s) && PairInv(c, s) && SlotInv(c, s)
  }
}
