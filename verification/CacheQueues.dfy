/** The two queues a request goes through: order and bounds, whichever message reaches which worker. */
module CacheQueues {
  import opened Wrappers
  import opened CacheModel
  import opened CacheRuns
  import opened CachePair
  import opened CacheInvariant
  import opened CacheLive
  import opened CacheTheorems
  import CacheFrames
  import CacheService

  // ---------- the daemon's counter ----------

  lemma BoundKeepsDq(c: Config, s: State, w: nat, x: nat, s': State)
    requires DqInv(s) && w < |s.ws| && WBound(s.ws[w].pc) && WNext(c, s, w, x) == Some(s')
    ensures DqInv(s')
  {
    WBoundShape(c, s, w, x, s');
    CacheFrames.DqFrame(s, s');
  }

  /** The daemon's queue is counted right whatever its messages say. */
  lemma WorkerKeepsDq(c: Config, s: State, w: nat, x: nat, s': State)
    requires DqInv(s) && WNext(c, s, w, x) == Some(s')
    ensures DqInv(s')
  {
    if WDqPc(s.ws[w].pc) {
      var (y', d') := WTakeMove(w, s.ws[w], s.dq).value;
      CacheService.WQueuesDq(s, w, s', y', d');
    } else if WFindPc(s.ws[w].pc) {
      CacheService.WFindShape(c, s, w, s');
      CacheFrames.DqFrame(s, s');
    } else {
      BoundKeepsDq(c, s, w, x, s');
    }
  }

  lemma StepKeepsDq(c: Config, s: State, t: Step, s': State)
    requires DqInv(s) && Next(c, s, t) == Some(s')
    ensures DqInv(s')
  {
    match t
    case HStep(h) => HandlersLeaveReceiver(c, s, h, s');
    case HShort(h) =>
    case WStep(w, x) => WorkerKeepsDq(c, s, w, x, s');
    case RStep => CacheService.RDq(s, s');
    case Spurious(u) =>
      CacheService.SpuriousShape(s, u, s');
      CacheFrames.DqFrame(s, s');
  }

  // ---------- the bounds ----------

  /** Neither queue is ever longer than its bound, and the receiver pushes only where there is room. */
  ghost predicate BoundInv(s: State) {
    && DqInv(s) && s.dq.size <= MAX_CACHE_REQUEST_LEN && |s.mq| <= MQ_MAXMSG
    && (s.recv.pc.RPutPush? || s.recv.pc.RPutInc? ==> s.dq.size < MAX_CACHE_REQUEST_LEN)
  }

  lemma HandlerBounds(c: Config, s: State, h: nat, s': State)
    requires |s.mq| <= MQ_MAXMSG && HNext(c, s, h) == Some(s')
    ensures |s'.mq| <= MQ_MAXMSG
  {
  }

  lemma WorkerBounds(c: Config, s: State, w: nat, x: nat, s': State)
    requires WNext(c, s, w, x) == Some(s')
    ensures s'.mq == s.mq && s'.dq.size <= s.dq.size && s'.recv.pc == s.recv.pc
  {
  }

  lemma StepBounds(c: Config, s: State, t: Step, s': State)
    requires BoundInv(s) && Next(c, s, t) == Some(s')
    ensures BoundInv(s')
  {
    StepKeepsDq(c, s, t, s');
    match t
    case HStep(h) =>
      HandlersLeaveReceiver(c, s, h, s');
      HandlerBounds(c, s, h, s');
    case HShort(h) =>
    case WStep(w, x) => WorkerBounds(c, s, w, x, s');
    case RStep => ReceiverBounds(s, s');
    case Spurious(u) => CacheService.SpuriousShape(s, u, s');
  }

  lemma ReceiverBounds(s: State, s': State)
    requires BoundInv(s) && DqInv(s') && RNext(s) == Some(s')
    ensures BoundInv(s')
  {
  }

  lemma {:induction false} ExecBounds(c: Config, ts: seq<Step>, s: State)
    requires Exec(c, Init(c), ts) == Some(s)
    ensures BoundInv(s)
    decreases |ts|
  {
    if ts != [] {
      var front, t := ts[..|ts| - 1], ts[|ts| - 1];
      ExecBounds(c, front, Exec(c, Init(c), front).value);
      StepBounds(c, Exec(c, Init(c), front).value, t, s);
    }
  }

  /** However many segments and requests there are: ten messages at most in one queue, 256 in the other. */
  lemma QueuesAreBounded(c: Config, s: State)
    requires Reach(c, Init(c), s)
    ensures |s.mq| <= 10 && |s.dq.queue| <= 256
    ensures s.dq.lock == None ==> s.dq.size == |s.dq.queue|
  {
    var ts :| Exec(c, Init(c), ts) == Some(s);
    ExecBounds(c, ts, s);
  }

  // ---------- the order ----------

  /** The handler that sends its request with this step, if one does. */
  function Sender(s: State, t: Step): seq<nat> {
    if t.HStep? && t.h < |s.hs| && s.hs[t.h].pc.HSend? then [t.h] else []
  }

  /** The handler whose request a worker takes with this step, if one does. */
  function Served(s: State, t: Step): seq<nat> {
    if t.WStep? && t.w < |s.ws| && s.ws[t.w].pc.WTakePop? && s.dq.queue != [] then [s.dq.queue[0].owner] else []
  }

  /** The handlers that have sent their request, in the order in which they did. */
  function Sends(ss: seq<State>, ts: seq<Step>, n: nat): seq<nat>
    requires n <= |ts| && |ss| == |ts| + 1
  {
    if n == 0 then [] else Sends(ss, ts, n - 1) + Sender(ss[n - 1], ts[n - 1])
  }

  /** The handlers whose request a worker has taken, in the order in which they were taken. */
  function Taken(ss: seq<State>, ts: seq<Step>, n: nat): seq<nat>
    requires n <= |ts| && |ss| == |ts| + 1
  {
    if n == 0 then [] else Taken(ss, ts, n - 1) + Served(ss[n - 1], ts[n - 1])
  }

  /** The requests on their way, the oldest first. */
  function OnTheWay(s: State): seq<nat> {
    Owners(s.dq.queue) + (if RHolds(s.recv.pc) then [s.recv.slot.owner] else []) + Owners(s.mq)
  }

  lemma OwnersAppend(q: seq<Msg>, m: Msg)
    ensures Owners(q + [m]) == Owners(q) + [m.owner]
  {
  }

  lemma OwnersRest(q: seq<Msg>)
    requires q != []
    ensures Owners(q) == [q[0].owner] + Owners(q[1..])
  {
  }

  lemma HandlerOnTheWay(c: Config, s: State, h: nat, s': State)
    requires HNext(c, s, h) == Some(s')
    ensures h < |s.hs| && OnTheWay(s') == OnTheWay(s) + if s.hs[h].pc.HSend? then [h] else []
  {
    HandlersLeaveReceiver(c, s, h, s');
    SendAppends(c, s, h, s');
    if s.hs[h].pc.HSend? {
      OwnersAppend(s.mq, Msg(c.paths[h], s.hs[h].name, h));
    }
  }

  lemma SendAppends(c: Config, s: State, h: nat, s': State)
    requires HNext(c, s, h) == Some(s')
    ensures h < |s.hs| && h < |c.paths|
    ensures s'.mq == s.mq + if s.hs[h].pc.HSend? then [Msg(c.paths[h], s.hs[h].name, h)] else []
  {
  }

  lemma WorkerQueue(c: Config, s: State, w: nat, x: nat, s': State)
    requires WNext(c, s, w, x) == Some(s')
    ensures w < |s.ws| && s'.mq == s.mq && s'.recv.pc == s.recv.pc && s'.recv.slot == s.recv.slot
    ensures if s.ws[w].pc.WTakePop? then s.dq.queue != [] && s'.dq.queue == s.dq.queue[1..]
      else s'.dq.queue == s.dq.queue
  {
  }

  lemma WorkerOnTheWay(c: Config, s: State, w: nat, x: nat, s': State)
    requires WNext(c, s, w, x) == Some(s')
    ensures w < |s.ws| && (s.ws[w].pc.WTakePop? ==> s.dq.queue != [])
    ensures OnTheWay(s) == (if s.ws[w].pc.WTakePop? then [s.dq.queue[0].owner] else []) + OnTheWay(s')
  {
    WorkerQueue(c, s, w, x, s');
    if s.ws[w].pc.WTakePop? {
      OwnersRest(s.dq.queue);
    }
  }

  lemma ReceiverOnTheWay(s: State, s': State)
    requires RNext(s) == Some(s')
    ensures OnTheWay(s') == OnTheWay(s)
  {
    if s.recv.pc.RReceive? {
      OwnersRest(s.mq);
    } else if s.recv.pc.RPutPush? {
      OwnersAppend(s.dq.queue, s.recv.slot);
    }
  }

  lemma StepOnTheWay(c: Config, s: State, t: Step, s': State)
    requires Next(c, s, t) == Some(s')
    ensures OnTheWay(s) + Sender(s, t) == Served(s, t) + OnTheWay(s')
  {
    match t
    case HStep(h) => HandlerOnTheWay(c, s, h, s');
    case HShort(h) =>
    case WStep(w, x) => WorkerOnTheWay(c, s, w, x, s');
    case RStep => ReceiverOnTheWay(s, s');
    case Spurious(u) => CacheService.SpuriousShape(s, u, s');
  }

  lemma Regroup(sends: seq<nat>, taken: seq<nat>, way: seq<nat>, more: seq<nat>, served: seq<nat>, way': seq<nat>)
    requires sends == taken + way && way + more == served + way'
    ensures sends + more == (taken + served) + way'
  {
    assert sends + more == taken + (way + more);
  }

  /**
   First come, first served, for every configuration: the requests workers have taken are the first ones
   sent, in the order in which they were sent, and the others are on their way in that order.
   */
  lemma {:induction false} ServedInOrder(c: Config, ss: seq<State>, ts: seq<Step>, n: nat)
    requires IsRun(c, ss, ts) && n <= |ts|
    ensures Sends(ss, ts, n) == Taken(ss, ts, n) + OnTheWay(ss[n])
  {
    if n > 0 {
      ServedInOrder(c, ss, ts, n - 1);
      var s, t, s' := ss[n - 1], ts[n - 1], ss[n];
      assert Next(c, s, t) == Some(s');
      StepOnTheWay(c, s, t, s');
      Regroup(Sends(ss, ts, n - 1), Taken(ss, ts, n - 1), OnTheWay(s), Sender(s, t), Served(s, t), OnTheWay(s'));
    }
  }
}
