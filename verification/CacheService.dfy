/** Every step of a worker and of the receiver keeps the safety invariant. */
module CacheService {
  import opened Wrappers
  import opened CacheModel
  import opened CachePair
  import opened CacheInvariant
  import opened CacheFrames

  /** The handler whose message a busy worker holds. */
  lemma OwnerOf(c: Config, s: State, w: nat)
    requires HeldInv(c, s) && PairInv(c, s) && w < |s.ws| && WBusy(s.ws[w].pc)
    ensures s.ws[w].msg.owner < |s.hs|
    ensures var x := s.hs[s.ws[w].msg.owner];
      && x.loc == AtWorker(w) && HHasGen(x.pc) && x.gen < |s.segs|
      && PairOk(c, c.paths[s.ws[w].msg.owner], x, s.segs[x.gen], Busy(s.ws[w]))
  {
    assert MsgOk(c, s, s.ws[w].msg, AtWorker(w));
    assert PairAt(c, s, s.ws[w].msg.owner);
  }

  // ---------- steps that touch one segment ----------

  /** The step stays inside one worker's record and its owner's segment. */
  ghost predicate WMoves(s: State, w: nat, s': State, y': Worker, g': Seg) {
    && w < |s.ws| && s.ws[w].msg.owner < |s.hs| && s.ws[w].gen < |s.segs|
    && WBound(s.ws[w].pc) && (WBound(y'.pc) || y'.pc == WTake(Lock)) && y'.msg == s.ws[w].msg && y'.gen == s.ws[w].gen
    && s' == (var t := s.(ws := s.ws[w := y'], segs := s.segs[y'.gen := g']);
              if y'.pc.WTake? then SetLoc(t, y'.msg.owner, Served) else t)
  }

  lemma WMovesQuiet(c: Config, s: State, w: nat, s': State, y': Worker, g': Seg)
    requires PoolInv(c, s) && NameInv(s) && WMoves(s, w, s', y', g')
    ensures PoolInv(c, s') && NameInv(s')
  {
    PoolFrame(c, s, s');
    NameFrame(s, s');
  }

  lemma WMovesQueues(c: Config, s: State, w: nat, s': State, y': Worker, g': Seg)
    requires DqInv(s) && SlotInv(c, s) && WMoves(s, w, s', y', g')
    ensures DqInv(s') && SlotInv(c, s')
  {
    DqFrame(s, s');
    SlotFrame(c, s, s');
  }

  lemma WMovesTickets(c: Config, s: State, w: nat, s': State, y': Worker, g': Seg)
    requires TicketInv(c, s) && WMoves(s, w, s', y', g')
    ensures TicketInv(c, s')
  {
    if WBusy(y'.pc) {
      TicketFrame(c, s, s');
    } else {
      LocLeaves(c, s, s', w);
    }
  }

  /** A worker lets go of its message: nobody holds it any more. */
  lemma LocLeaves(c: Config, s: State, s': State, w: nat)
    requires TicketInv(c, s) && w < |s.ws| && WBusy(s.ws[w].pc)
    requires s'.mq == s.mq && s'.dq == s.dq && s'.recv == s.recv
    requires s'.hs == s.hs[s.ws[w].msg.owner := s.hs[s.ws[w].msg.owner].(loc := Served)]
    requires |s'.ws| == |s.ws| && s'.ws == s.ws[w := s'.ws[w]] && !WBusy(s'.ws[w].pc)
    ensures TicketInv(c, s')
  {
    assert MsgOk(c, s, s.ws[w].msg, AtWorker(w));
    QueueKeeps(c, s, s', s.mq, InMq, s.ws[w].msg.owner);
    QueueKeeps(c, s, s', s.dq.queue, InDq, s.ws[w].msg.owner);
  }

  /** A queue does not notice that a message elsewhere moves on. */
  lemma QueueKeeps(c: Config, s: State, s': State, q: seq<Msg>, l: Loc, h: nat)
    requires Queued(c, s, q, l) && h < |s.hs| && s.hs[h].loc != l
    requires |s'.hs| == |s.hs| && s'.hs == s.hs[h := s'.hs[h]] && s'.hs[h].loc != l
    ensures Queued(c, s', q, l)
  {
    forall i | 0 <= i < |s'.hs| && s'.hs[i].loc == l
      ensures exists j :: 0 <= j < |q| && q[j].owner == i
    {
      assert s.hs[i].loc == l;
    }
  }

  lemma WMovesPairs(c: Config, s: State, w: nat, s': State, y': Worker, g': Seg)
    requires PairInv(c, s) && NameInv(s) && HeldInv(c, s) && WMoves(s, w, s', y', g')
    requires s.hs[y'.msg.owner].gen == y'.gen
    requires PairOk(c, c.paths[y'.msg.owner], s.hs[y'.msg.owner], g', if y'.pc.WTake? then Over else Busy(y'))
    ensures PairInv(c, s')
  {
    OwnerOf(c, s, w);
    var h := y'.msg.owner;
    assert PairAt(c, s, h);
    forall i | 0 <= i < |s'.hs|
      ensures PairAt(c, s', i)
    {
      assert PairAt(c, s, i);
      if i != h {
        PairFrame(c, s, s', i);
      } else {
        LocOnly(c, c.paths[h], s.hs[h], s'.hs[h], g', if y'.pc.WTake? then Over else Busy(y'));
      }
    }
  }

  lemma LocCounts(c: Config, path: string, x: Handler, x': Handler, g: Seg, v: View)
    requires x' == x.(loc := x'.loc) && CountsOk(c, path, x, g, v)
    ensures CountsOk(c, path, x', g, v)
  {
  }

  lemma LocBytes(c: Config, path: string, x: Handler, x': Handler, g: Seg, v: View)
    requires x' == x.(loc := x'.loc) && BytesOk(c, path, x, g, v)
    ensures BytesOk(c, path, x', g, v)
  {
  }

  lemma LocOnly(c: Config, path: string, x: Handler, x': Handler, g: Seg, v: View)
    requires x' == x.(loc := x'.loc) && PairOk(c, path, x, g, v)
    ensures PairOk(c, path, x', g, v)
  {
    LocCounts(c, path, x, x', g, v);
    LocBytes(c, path, x, x', g, v);
  }

  lemma WMoveShape(c: Config, w: nat, y: Worker, g: Seg, n: nat, y': Worker, g': Seg)
    requires WBound(y.pc)
    requires (if WLenPc(y.pc) then WLenMove(c, w, y, g) else WDataMove(c, w, y, g, n)) == Some((y', g'))
    ensures WBound(y'.pc) || y'.pc == WTake(Lock)
    ensures y'.msg == y.msg && y'.gen == y.gen
  {
  }

  lemma WSegMoveKeeps(c: Config, s: State, w: nat, n: nat, s': State)
    requires Inv(c, s) && w < |s.ws| && WBound(s.ws[w].pc) && WNext(c, s, w, n) == Some(s')
    ensures Inv(c, s')
  {
    OwnerOf(c, s, w);
    var y := s.ws[w];
    var h, g := y.msg.owner, s.segs[y.gen];
    var m := if WLenPc(y.pc) then WLenMove(c, w, y, g) else WDataMove(c, w, y, g, n);
    var (y', g') := m.value;
    WMoveShape(c, w, y, g, n, y', g');
    if WLenPc(y.pc) {
      WLenLocal(c, c.paths[h], w, s.hs[h], g, y, y', g');
    } else {
      WDataLocal(c, c.paths[h], w, s.hs[h], g, y, n, y', g');
    }
    WMovesQuiet(c, s, w, s', y', g');
    WMovesQueues(c, s, w, s', y', g');
    WMovesTickets(c, s, w, s', y', g');
    WMovesPairs(c, s, w, s', y', g');
  }

  // ---------- the daemon's queue ----------

  /** The step changes one worker, the daemon's queue, and where the popped message is. */
  ghost predicate WQueues(s: State, w: nat, s': State, y': Worker, d': Daemon) {
    && w < |s.ws|
    && s' == (var t := s.(ws := s.ws[w := y'], dq := d');
              if y'.pc.WTakeDec? then SetLoc(t, y'.msg.owner, AtWorker(w)) else t)
  }

  lemma WQueuesQuiet(c: Config, s: State, w: nat, s': State, y': Worker, d': Daemon)
    requires PoolInv(c, s) && NameInv(s) && WQueues(s, w, s', y', d')
    ensures PoolInv(c, s') && NameInv(s')
  {
    PoolFrame(c, s, s');
    NameFrame(s, s');
  }

  lemma WQueuesDq(s: State, w: nat, s': State, y': Worker, d': Daemon)
    requires DqInv(s) && WQueues(s, w, s', y', d') && WTakeMove(w, s.ws[w], s.dq) == Some((y', d'))
    ensures DqInv(s')
  {
  }

  lemma WPopTickets(c: Config, s: State, w: nat, s': State, y': Worker, d': Daemon)
    requires TicketInv(c, s) && WQueues(s, w, s', y', d') && !WBusy(s.ws[w].pc) && y'.pc.WTakeDec?
    requires s.dq.queue != [] && y'.msg == s.dq.queue[0] && d'.queue == s.dq.queue[1..]
    ensures TicketInv(c, s')
  {
    var h := y'.msg.owner;
    assert MsgOk(c, s, s.dq.queue[0], InDq);
    QueueKeeps(c, s, s', s.mq, InMq, h);
    QueuePops(c, s, s', s.dq.queue, InDq);
  }

  /** Taking the first message out of a queue. */
  lemma QueuePops(c: Config, s: State, s': State, q: seq<Msg>, l: Loc)
    requires Queued(c, s, q, l) && q != [] && q[0].owner < |s.hs|
    requires |s'.hs| == |s.hs| && s'.hs == s.hs[q[0].owner := s'.hs[q[0].owner]]
    requires s'.hs[q[0].owner].loc != l
    ensures Queued(c, s', q[1..], l)
  {
    forall i | 0 <= i < |q[1..]|
      ensures MsgOk(c, s', q[1..][i], l)
    {
      assert MsgOk(c, s, q[i + 1], l) && q[0].owner != q[i + 1].owner;
    }
    forall i | 0 <= i < |s'.hs| && s'.hs[i].loc == l
      ensures exists j :: 0 <= j < |q[1..]| && q[1..][j].owner == i
    {
      var j :| 0 <= j < |q| && q[j].owner == i;
      assert j != 0 && q[1..][j - 1].owner == i;
    }
  }

  lemma WPopPairs(c: Config, s: State, w: nat, s': State, y': Worker, d': Daemon)
    requires PairInv(c, s) && TicketInv(c, s) && WQueues(s, w, s', y', d') && !WBusy(s.ws[w].pc) && y'.pc.WTakeDec?
    requires s.dq.queue != [] && y'.msg == s.dq.queue[0] && y'.written == 0
    ensures PairInv(c, s')
  {
    var h := y'.msg.owner;
    assert MsgOk(c, s, s.dq.queue[0], InDq) && PairAt(c, s, h);
    PopShape(c, c.paths[h], s.hs[h], s'.hs[h], s.segs[s.hs[h].gen], y');
    forall i | 0 <= i < |s'.hs|
      ensures PairAt(c, s', i)
    {
      assert PairAt(c, s, i);
      if i != h {
        PairFrame(c, s, s', i);
      }
    }
  }

  lemma PopCounts(c: Config, path: string, x: Handler, x': Handler, g: Seg, y: Worker)
    requires x' == x.(loc := x'.loc) && CountsOk(c, path, x, g, Waiting) && y.pc.WTakeDec? && y.written == 0
    requires !x.pc.HInitLen? && !x.pc.HInitBytes? && !x.pc.HSend?
    ensures CountsOk(c, path, x', g, Busy(y))
  {
  }

  lemma PopBytes(c: Config, path: string, x: Handler, x': Handler, g: Seg, y: Worker)
    requires x' == x.(loc := x'.loc) && BytesOk(c, path, x, g, Waiting) && y.pc.WTakeDec?
    ensures BytesOk(c, path, x', g, Busy(y))
  {
  }

  lemma PopShape(c: Config, path: string, x: Handler, x': Handler, g: Seg, y: Worker)
    requires x' == x.(loc := x'.loc) && PairOk(c, path, x, g, Waiting) && y.pc.WTakeDec? && y.written == 0
    requires !x.pc.HInitLen? && !x.pc.HInitBytes? && !x.pc.HSend?
    ensures PairOk(c, path, x', g, Busy(y))
  {
    PopCounts(c, path, x, x', g, y);
    PopBytes(c, path, x, x', g, y);
  }

  lemma WPopSlot(c: Config, s: State, w: nat, s': State, y': Worker, d': Daemon)
    requires SlotInv(c, s) && WQueues(s, w, s', y', d') && s.dq.queue != []
    requires y'.msg == s.dq.queue[0] && d'.queue == s.dq.queue[1..]
    ensures SlotInv(c, s')
  {
  }

  lemma WPopKeeps(c: Config, s: State, w: nat, n: nat, s': State)
    requires Inv(c, s) && w < |s.ws| && s.ws[w].pc.WTakePop? && WNext(c, s, w, n) == Some(s')
    ensures Inv(c, s')
  {
    var (y', d') := WTakeMove(w, s.ws[w], s.dq).value;
    WQueuesQuiet(c, s, w, s', y', d');
    WQueuesDq(s, w, s', y', d');
    WPopTickets(c, s, w, s', y', d');
    WPopPairs(c, s, w, s', y', d');
    WPopSlot(c, s, w, s', y', d');
  }

  // ---------- steps of a worker that hold on to its message ----------

  /** The step changes one worker, the daemon's lock and counter, and whether the receiver sleeps. */
  ghost predicate WPlain(s: State, w: nat, s': State) {
    && w < |s.ws| && w < |s'.ws|
    && s' == s.(ws := s.ws[w := s'.ws[w]], dq := s'.dq, recv := s'.recv)
    && s'.dq.queue == s.dq.queue && s'.recv.slot == s.recv.slot && s'.recv.pc == s.recv.pc
    && WBusy(s'.ws[w].pc) == WBusy(s.ws[w].pc) && s'.ws[w].msg == s.ws[w].msg
    && (WReads(s'.ws[w].pc) ==> WReads(s.ws[w].pc))
  }

  lemma WPlainFrames(c: Config, s: State, w: nat, s': State)
    requires PoolInv(c, s) && NameInv(s) && TicketInv(c, s) && SlotInv(c, s) && WPlain(s, w, s')
    ensures PoolInv(c, s') && NameInv(s') && TicketInv(c, s') && SlotInv(c, s')
  {
    PoolFrame(c, s, s');
    NameFrame(s, s');
    TicketFrame(c, s, s');
    SlotFrame(c, s, s');
  }

  ghost predicate Serves(c: Config, s: State, y: Worker) {
    && y.msg.owner < |s.hs| && y.msg.owner < |c.paths| && s.hs[y.msg.owner].gen < |s.segs|
    && PairOk(c, c.paths[y.msg.owner], s.hs[y.msg.owner], s.segs[s.hs[y.msg.owner].gen], Busy(y))
  }

  lemma WPlainPairs(c: Config, s: State, w: nat, s': State)
    requires PairInv(c, s) && HeldInv(c, s) && WPlain(s, w, s')
    requires WBusy(s.ws[w].pc) ==> Serves(c, s, s'.ws[w])
    ensures PairInv(c, s')
  {
    forall i | 0 <= i < |s'.hs|
      ensures PairAt(c, s', i)
    {
      assert PairAt(c, s, i);
      if s.hs[i].loc == AtWorker(w) {
        assert s.ws[w].msg.owner == i;
      } else {
        PairFrame(c, s, s', i);
      }
    }
  }

  ghost predicate Unopened(c: Config, path: string, y: Worker, y': Worker) {
    && WTakePc(y.pc) && WTakePc(y'.pc) && WBusy(y'.pc) && y'.written == y.written
    && (y'.pc.WOpen? ==> y'.len == FileLen(c, path) && y'.fd == (if path in c.files then Some(path) else None))
  }

  lemma UnopenedCounts(c: Config, path: string, x: Handler, g: Seg, y: Worker, y': Worker)
    requires CountsOk(c, path, x, g, Busy(y)) && Unopened(c, path, y, y')
    ensures CountsOk(c, path, x, g, Busy(y'))
  {
  }

  lemma UnopenedBytes(c: Config, path: string, x: Handler, g: Seg, y: Worker, y': Worker)
    requires BytesOk(c, path, x, g, Busy(y)) && Unopened(c, path, y, y')
    ensures BytesOk(c, path, x, g, Busy(y'))
  {
  }

  /** While a worker has not opened the segment, its record matters little. */
  lemma UnopenedShape(c: Config, path: string, x: Handler, g: Seg, y: Worker, y': Worker)
    requires PairOk(c, path, x, g, Busy(y)) && Unopened(c, path, y, y')
    ensures PairOk(c, path, x, g, Busy(y'))
  {
    UnopenedCounts(c, path, x, g, y, y');
    UnopenedBytes(c, path, x, g, y, y');
  }

  lemma OpenedShape(c: Config, path: string, x: Handler, g: Seg, y: Worker, y': Worker)
    requires PairOk(c, path, x, g, Busy(y)) && y.pc.WOpen? && y' == y.(pc := WZero, gen := x.gen)
    ensures PairOk(c, path, x, g, Busy(y'))
  {
  }

  lemma WTakeShape(c: Config, s: State, w: nat, n: nat, s': State) returns (y': Worker, d': Daemon)
    requires w < |s.ws| && WDqPc(s.ws[w].pc) && !s.ws[w].pc.WTakePop? && WNext(c, s, w, n) == Some(s')
    ensures WTakeMove(w, s.ws[w], s.dq) == Some((y', d')) && WQueues(s, w, s', y', d')
    ensures WPlain(s, w, s') && s'.ws[w] == y'
    ensures WBusy(s.ws[w].pc) ==>
      WTakePc(s.ws[w].pc) && WTakePc(y'.pc) && !y'.pc.WOpen? && y'.written == s.ws[w].written
  {
    var m := WTakeMove(w, s.ws[w], s.dq).value;
    y', d' := m.0, m.1;
  }

  lemma WTakePairs(c: Config, s: State, w: nat, s': State, y': Worker)
    requires PairInv(c, s) && HeldInv(c, s) && WPlain(s, w, s') && s'.ws[w] == y'
    requires WBusy(s.ws[w].pc) ==>
      WTakePc(s.ws[w].pc) && WTakePc(y'.pc) && !y'.pc.WOpen? && y'.written == s.ws[w].written
    ensures PairInv(c, s')
  {
    if WBusy(s.ws[w].pc) {
      OwnerOf(c, s, w);
      var x := s.hs[s.ws[w].msg.owner];
      UnopenedShape(c, c.paths[s.ws[w].msg.owner], x, s.segs[x.gen], s.ws[w], y');
    }
    WPlainPairs(c, s, w, s');
  }

  lemma WTakeKeeps(c: Config, s: State, w: nat, n: nat, s': State)
    requires Inv(c, s) && w < |s.ws| && WDqPc(s.ws[w].pc) && !s.ws[w].pc.WTakePop? && WNext(c, s, w, n) == Some(s')
    ensures Inv(c, s')
  {
    var y', d' := WTakeShape(c, s, w, n, s');
    WQueuesDq(s, w, s', y', d');
    WPlainFrames(c, s, w, s');
    WTakePairs(c, s, w, s', y');
  }

  /** Through its pointer the worker reads the message its owner sent. */
  lemma DerefIsMessage(c: Config, s: State, w: nat)
    requires SlotInv(c, s) && w < |s.ws| && WReads(s.ws[w].pc)
    ensures Deref(c, s, s.ws[w]) == s.ws[w].msg
  {
  }

  lemma WFindPairs(c: Config, s: State, w: nat, s': State)
    requires PairInv(c, s) && HeldInv(c, s) && NameInv(s) && SlotInv(c, s)
    requires w < |s.ws| && WFindPc(s.ws[w].pc) && WFindNext(c, s, w) == Some(s') && WPlain(s, w, s')
    ensures PairInv(c, s')
  {
    OwnerOf(c, s, w);
    DerefIsMessage(c, s, w);
    var y, h := s.ws[w], s.ws[w].msg.owner;
    var x := s.hs[h];
    assert MsgOk(c, s, y.msg, AtWorker(w));
    if y.pc.WOpen? {
      assert HLive(x.pc);
      OpenedShape(c, c.paths[h], x, s.segs[x.gen], y, s'.ws[w]);
    } else {
      UnopenedShape(c, c.paths[h], x, s.segs[x.gen], y, s'.ws[w]);
    }
    WPlainPairs(c, s, w, s');
  }

  lemma WFindShape(c: Config, s: State, w: nat, s': State)
    requires w < |s.ws| && WFindPc(s.ws[w].pc) && WFindNext(c, s, w) == Some(s')
    ensures WPlain(s, w, s') && s'.dq == s.dq && !WInDq(s.ws[w].pc) && !WInDq(s'.ws[w].pc)
  {
  }

  lemma WFindKept(c: Config, s: State, w: nat, s': State)
    requires Inv(c, s) && w < |s.ws| && WFindPc(s.ws[w].pc) && WFindNext(c, s, w) == Some(s')
    ensures Inv(c, s')
  {
    WFindShape(c, s, w, s');
    WPlainFrames(c, s, w, s');
    DqFrame(s, s');
    WFindPairs(c, s, w, s');
  }

  lemma WFindKeeps(c: Config, s: State, w: nat, n: nat, s': State)
    requires Inv(c, s) && w < |s.ws| && WFindPc(s.ws[w].pc) && WNext(c, s, w, n) == Some(s')
    ensures Inv(c, s')
  {
    WFindKept(c, s, w, s');
  }

  /** Every worker step keeps the invariant. */
  lemma WStepKeeps(c: Config, s: State, w: nat, n: nat, s': State)
    requires Inv(c, s) && WNext(c, s, w, n) == Some(s')
    ensures Inv(c, s')
  {
    var pc := s.ws[w].pc;
    if pc.WTakePop? {
      WPopKeeps(c, s, w, n, s');
    } else if WDqPc(pc) {
      WTakeKeeps(c, s, w, n, s');
    } else if WFindPc(pc) {
      WFindKeeps(c, s, w, n, s');
    } else {
      WSegMoveKeeps(c, s, w, n, s');
    }
  }

  // ---------- the receiver ----------

  /** A message not yet posted about: its handler still waits, holding its segment name. */
  lemma OutstandingOwns(c: Config, s: State, h: nat)
    requires PairInv(c, s) && h < |s.hs| && s.hs[h].loc != NotSent && !Posted(ViewOf(s, s.hs[h]))
    ensures s.hs[h].pc.HLen? && HOwns(s.hs[h].pc)
  {
    assert PairAt(c, s, h);
  }

  /** If at most one message can be outstanding, there is at most one. */
  lemma OneOutstanding(c: Config, s: State, h: nat, i: nat)
    requires PairInv(c, s) && Conserved(c, s) && (|c.names| <= 1 || |c.paths| <= 1)
    requires h < |s.hs| && s.hs[h].loc != NotSent && !Posted(ViewOf(s, s.hs[h]))
    requires i < |s.hs| && s.hs[i].loc != NotSent && !Posted(ViewOf(s, s.hs[i]))
    ensures h == i
  {
    OutstandingOwns(c, s, h);
    OutstandingOwns(c, s, i);
  }

  /** When the receiver overwrites its buffer, no pointer to it is still needed. */
  lemma BufferIsFree(c: Config, s: State)
    requires PairInv(c, s) && Conserved(c, s) && TicketInv(c, s) && s.mq != []
    requires OneBufferSuffices(c) && c.alias
    ensures s.dq.queue == [] && forall w :: 0 <= w < |s.ws| ==> !WReads(s.ws[w].pc)
  {
    assert MsgOk(c, s, s.mq[0], InMq);
    var h := s.mq[0].owner;
    if s.dq.queue != [] {
      assert MsgOk(c, s, s.dq.queue[0], InDq);
      OneOutstanding(c, s, h, s.dq.queue[0].owner);
      assert false;
    }
    forall w | 0 <= w < |s.ws|
      ensures !WReads(s.ws[w].pc)
    {
      if WReads(s.ws[w].pc) {
        assert MsgOk(c, s, s.ws[w].msg, AtWorker(w));
        OneOutstanding(c, s, h, s.ws[w].msg.owner);
        assert false;
      }
    }
  }

  /** The receiver leaves the proxy's side alone but for where messages are. */
  ghost predicate RPlain(s: State, s': State) {
    && s'.pool == s.pool && s'.ns == s.ns && s'.segs == s.segs && s'.ws == s.ws && |s'.hs| == |s.hs|
    && forall h :: 0 <= h < |s.hs| ==> s'.hs[h] == s.hs[h].(loc := s'.hs[h].loc)
  }

  lemma RShape(s: State, s': State)
    requires RNext(s) == Some(s')
    ensures RPlain(s, s')
  {
  }

  lemma RQuiet(c: Config, s: State, s': State)
    requires PoolInv(c, s) && NameInv(s) && RPlain(s, s')
    ensures PoolInv(c, s') && NameInv(s')
  {
    PoolFrame(c, s, s');
    NameFrame(s, s');
  }

  lemma RDq(s: State, s': State)
    requires DqInv(s) && RNext(s) == Some(s')
    ensures DqInv(s')
  {
  }

  /** The message the receiver moves belongs to a handler nobody serves yet. */
  lemma RPairMoved(c: Config, s: State, s': State, i: nat)
    requires PairInv(c, s) && RNext(s) == Some(s') && TicketInv(c, s)
    requires i < |s.hs| && i < |s'.hs| && s'.hs[i] != s.hs[i]
    ensures PairAt(c, s', i)
  {
    assert PairAt(c, s, i);
    if s.recv.pc.RReceive? {
      assert MsgOk(c, s, s.mq[0], InMq);
    } else {
      assert MsgOk(c, s, s.recv.slot, InRecv);
    }
    LocOnly(c, c.paths[i], s.hs[i], s'.hs[i], s.segs[s.hs[i].gen], Waiting);
  }

  lemma RPairs(c: Config, s: State, s': State)
    requires PairInv(c, s) && RNext(s) == Some(s') && TicketInv(c, s)
    ensures PairInv(c, s')
  {
    forall i | 0 <= i < |s'.hs|
      ensures PairAt(c, s', i)
    {
      if s'.hs[i] == s.hs[i] {
        assert PairAt(c, s, i);
        PairFrame(c, s, s', i);
      } else {
        RPairMoved(c, s, s', i);
      }
    }
  }

  lemma RReceiveTickets(c: Config, s: State, s': State)
    requires TicketInv(c, s) && s.recv.pc.RReceive? && RNext(s) == Some(s')
    ensures TicketInv(c, s')
  {
    assert MsgOk(c, s, s.mq[0], InMq);
    QueuePops(c, s, s', s.mq, InMq);
    QueueKeeps(c, s, s', s.dq.queue, InDq, s.mq[0].owner);
  }

  lemma RPushTickets(c: Config, s: State, s': State)
    requires TicketInv(c, s) && s.recv.pc.RPutPush? && RNext(s) == Some(s')
    ensures TicketInv(c, s')
  {
    var h, q := s.recv.slot.owner, s.dq.queue;
    assert MsgOk(c, s, s.recv.slot, InRecv);
    QueueKeeps(c, s, s', s.mq, InMq, h);
    forall i | 0 <= i < |q|
      ensures MsgOk(c, s', q[i], InDq) && q[i].owner != h
    {
      assert MsgOk(c, s, q[i], InDq);
    }
    assert s'.dq.queue[|q|].owner == h;
    forall i | 0 <= i < |s'.hs| && s'.hs[i].loc == InDq
      ensures exists j :: 0 <= j < |s'.dq.queue| && s'.dq.queue[j].owner == i
    {
      if i != h {
        var j :| 0 <= j < |q| && q[j].owner == i;
        assert s'.dq.queue[j].owner == i;
      }
    }
  }

  lemma RTickets(c: Config, s: State, s': State)
    requires TicketInv(c, s) && RNext(s) == Some(s')
    ensures TicketInv(c, s')
  {
    if s.recv.pc.RReceive? {
      RReceiveTickets(c, s, s');
    } else if s.recv.pc.RPutPush? {
      RPushTickets(c, s, s');
    } else {
      TicketFrame(c, s, s');
    }
  }

  lemma RSlot(c: Config, s: State, s': State)
    requires SlotInv(c, s) && RNext(s) == Some(s')
    requires s.recv.pc.RReceive? && c.alias ==>
      s.dq.queue == [] && forall w :: 0 <= w < |s.ws| ==> !WReads(s.ws[w].pc)
    ensures SlotInv(c, s')
  {
  }

  /** Every receiver step keeps the invariant, provided one buffer suffices. */
  lemma RStepKeeps(c: Config, s: State, s': State)
    requires Inv(c, s) && OneBufferSuffices(c) && RNext(s) == Some(s')
    ensures Inv(c, s')
  {
    RShape(s, s');
    RQuiet(c, s, s');
    RDq(s, s');
    RPairs(c, s, s');
    RTickets(c, s, s');
    if s.recv.pc.RReceive? && c.alias {
      BufferIsFree(c, s);
    }
    RSlot(c, s, s');
  }

  // ---------- spurious wake-ups ----------

  lemma SpuriousShape(s: State, t: Tid, s': State)
    requires SpuriousNext(s, t) == Some(s')
    ensures s'.hs == s.hs && s'.ws == s.ws && s'.mq == s.mq && s'.ns == s.ns && |s'.segs| == |s.segs|
    ensures s'.pool == s.pool.(readers := s'.pool.readers, writers := s'.pool.writers)
    ensures s'.dq == s.dq.(idle := s'.dq.idle) && s'.recv == s.recv.(asleep := s'.recv.asleep)
    ensures forall g :: 0 <= g < |s.segs| ==>
      s'.segs[g] == s.segs[g].(proxyWait := s'.segs[g].proxyWait, cacheWait := s'.segs[g].cacheWait)
  {
  }

  lemma WaitSetsOnly(c: Config, path: string, x: Handler, g: Seg, g': Seg, v: View)
    requires g' == g.(proxyWait := g'.proxyWait, cacheWait := g'.cacheWait) && PairOk(c, path, x, g, v)
    ensures PairOk(c, path, x, g', v)
  {
  }

  lemma SpuriousKeeps(c: Config, s: State, t: Tid, s': State)
    requires Inv(c, s) && SpuriousNext(s, t) == Some(s')
    ensures Inv(c, s')
  {
    SpuriousShape(s, t, s');
    SpuriousFrames(c, s, s');
    forall i | 0 <= i < |s'.hs|
      ensures PairAt(c, s', i)
    {
      assert PairAt(c, s, i);
      var x := s.hs[i];
      if HHasGen(x.pc) {
        WaitSetsOnly(c, c.paths[i], x, s.segs[x.gen], s'.segs[x.gen], ViewOf(s, x));
      }
    }
  }

  lemma SpuriousFrames(c: Config, s: State, s': State)
    requires PoolInv(c, s) && NameInv(s) && TicketInv(c, s) && DqInv(s) && SlotInv(c, s)
    requires s'.hs == s.hs && s'.ws == s.ws && s'.mq == s.mq && s'.ns == s.ns && |s'.segs| == |s.segs|
    requires s'.pool == s.pool.(readers := s'.pool.readers, writers := s'.pool.writers)
    requires s'.dq == s.dq.(idle := s'.dq.idle) && s'.recv == s.recv.(asleep := s'.recv.asleep)
    ensures PoolInv(c, s') && NameInv(s') && TicketInv(c, s') && DqInv(s') && SlotInv(c, s')
  {
    PoolFrame(c, s, s');
    NameFrame(s, s');
    TicketFrame(c, s, s');
    DqFrame(s, s');
    SlotFrame(c, s, s');
  }
}
