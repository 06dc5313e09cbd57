/** A handler whose wake-up is lost stays asleep: no thread's own step ever reaches it again. */
module CacheAsleep {
  import opened Wrappers
  import opened CacheModel
  import opened CacheRuns
  import opened CachePair
  import opened CacheInvariant
  import opened CacheTheorems
  import CacheLive
  import CacheService

  /** Once its chunk is published and the slot is full, a worker only waits or leaves. */
  predicate WSpent(pc: WPc) { pc.WDataUnlock? || pc.WLoop? || pc.WData? }

  /** The handler waits for what has already happened, and whoever could signal it has done so. */
  ghost predicate Forgotten(h: nat, x: Handler, g: Seg, v: View) {
    && h in g.proxyWait
    && ((x.pc == HLen(Sleep) && v.Over?)
        || (x.pc == HData(Sleep) && g.bytesWritten != 0 && (v.Over? || (v.Busy? && WSpent(v.y.pc)))))
  }

  ghost predicate ForgottenAt(s: State, h: nat) {
    h < |s.hs| && s.hs[h].gen < |s.segs| && Forgotten(h, s.hs[h], s.segs[s.hs[h].gen], ViewOf(s, s.hs[h]))
  }

  /** The step leaves the handler, its segment and its server alone. */
  ghost predicate Untouched(s: State, s': State, h: nat) {
    && h < |s.hs| && h < |s'.hs| && s'.hs[h] == s.hs[h]
    && s.hs[h].gen < |s.segs| && s.hs[h].gen < |s'.segs| && s'.segs[s.hs[h].gen] == s.segs[s.hs[h].gen]
    && ViewOf(s', s.hs[h]) == ViewOf(s, s.hs[h])
  }

  // ---------- handlers ----------

  lemma AsleepCannotMove(c: Config, s: State, h: nat)
    requires ForgottenAt(s, h)
    ensures HNext(c, s, h) == None
  {
  }

  lemma OtherHandler(c: Config, s: State, i: nat, s': State, h: nat)
    requires HNext(c, s, i) == Some(s') && h < |s.hs| && h != i && i < |s.hs| && s.hs[h].gen < |s.segs|
    requires HHasGen(s.hs[i].pc) ==> s.hs[i].gen != s.hs[h].gen
    ensures Untouched(s, s', h)
  {
  }

  lemma HandlerStepForgets(c: Config, s: State, i: nat, s': State, h: nat)
    requires NameInv(s) && ForgottenAt(s, h) && HNext(c, s, i) == Some(s')
    ensures ForgottenAt(s', h)
  {
    if i == h {
      AsleepCannotMove(c, s, h);
    } else {
      OtherHandler(c, s, i, s', h);
    }
  }

  // ---------- workers ----------

  lemma SpentMove(c: Config, h: nat, x: Handler, w: nat, y: Worker, g: Seg, n: nat, y': Worker, g': Seg)
    requires Forgotten(h, x, g, Busy(y)) && WDataMove(c, w, y, g, n) == Some((y', g'))
    ensures y'.pc == WTake(Lock) || WSpent(y'.pc)
    ensures g'.bytesWritten == g.bytesWritten && g'.proxyWait == g.proxyWait
  {
  }

  lemma OwnWorker(c: Config, s: State, w: nat, n: nat, s': State, h: nat)
    requires HeldInv(c, s) && PairInv(c, s) && ForgottenAt(s, h)
    requires WNext(c, s, w, n) == Some(s') && s.hs[h].loc == AtWorker(w)
    ensures ForgottenAt(s', h)
  {
    var y, x := s.ws[w], s.hs[h];
    CacheService.OwnerOf(c, s, w);
    assert y.msg.owner == h && y.gen == x.gen;
    var g := s.segs[x.gen];
    var (y', g') := WDataMove(c, w, y, g, n).value;
    SpentMove(c, h, x, w, y, g, n, y', g');
  }

  lemma OtherWorker(c: Config, s: State, w: nat, n: nat, s': State, h: nat)
    requires NameInv(s) && HeldInv(c, s) && PairInv(c, s) && h < |s.hs| && HHasGen(s.hs[h].pc)
    requires w < |s.ws| && WBound(s.ws[w].pc) && WNext(c, s, w, n) == Some(s') && s.hs[h].loc != AtWorker(w)
    ensures Untouched(s, s', h)
  {
    CacheService.OwnerOf(c, s, w);
    BoundShape(c, s, w, n, s');
  }

  lemma BoundShape(c: Config, s: State, w: nat, n: nat, s': State)
    requires w < |s.ws| && WBound(s.ws[w].pc) && WNext(c, s, w, n) == Some(s')
    ensures |s'.hs| == |s.hs| && |s'.ws| == |s.ws| && |s'.segs| == |s.segs| && s'.ws == s.ws[w := s'.ws[w]]
    ensures forall i :: 0 <= i < |s.hs| && i != s'.ws[w].msg.owner ==> s'.hs[i] == s.hs[i]
    ensures forall g :: 0 <= g < |s.segs| && g != s.ws[w].gen ==> s'.segs[g] == s.segs[g]
    ensures s'.ws[w].msg == s.ws[w].msg
  {
    var y := s.ws[w];
    var m := if WLenPc(y.pc) then WLenMove(c, w, y, s.segs[y.gen]) else WDataMove(c, w, y, s.segs[y.gen], n);
    CacheService.WMoveShape(c, w, y, s.segs[y.gen], n, m.value.0, m.value.1);
  }

  lemma UnboundWorker(c: Config, s: State, w: nat, n: nat, s': State, h: nat)
    requires TicketInv(c, s) && ForgottenAt(s, h)
    requires w < |s.ws| && !WBound(s.ws[w].pc) && WNext(c, s, w, n) == Some(s')
    ensures ForgottenAt(s', h)
  {
    CacheLive.WTakeStep(c, s, w, n, s');
  }

  lemma WorkerStepForgets(c: Config, s: State, w: nat, n: nat, s': State, h: nat)
    requires Inv(c, s) && ForgottenAt(s, h) && WNext(c, s, w, n) == Some(s')
    ensures ForgottenAt(s', h)
  {
    if s.hs[h].loc == AtWorker(w) {
      OwnWorker(c, s, w, n, s', h);
    } else if WBound(s.ws[w].pc) {
      OtherWorker(c, s, w, n, s', h);
    } else {
      UnboundWorker(c, s, w, n, s', h);
    }
  }

  // ---------- every step but a spurious wake-up ----------

  lemma ReceiverStepForgets(c: Config, s: State, s': State, h: nat)
    requires TicketInv(c, s) && ForgottenAt(s, h) && RNext(s) == Some(s')
    ensures ForgottenAt(s', h)
  {
    CacheService.RShape(s, s');
    CacheLive.RLocs(c, s, s');
  }

  lemma StepForgets(c: Config, s: State, t: Step, s': State, h: nat)
    requires Inv(c, s) && ForgottenAt(s, h) && !t.Spurious? && Next(c, s, t) == Some(s')
    ensures ForgottenAt(s', h)
  {
    match t
    case HStep(i) => HandlerStepForgets(c, s, i, s', h);
    case HShort(i) =>
    case WStep(w, n) => WorkerStepForgets(c, s, w, n, s', h);
    case RStep => ReceiverStepForgets(c, s, s', h);
  }

  /** However the threads go on, only a spurious wake-up could save the handler. */
  lemma {:induction false} StaysForgotten(c: Config, s: State, h: nat, ts: seq<Step>, r: State)
    requires ConfigOk(c) && Reach(c, Init(c), s) && ForgottenAt(s, h)
    requires Exec(c, s, ts) == Some(r) && forall i :: 0 <= i < |ts| ==> !ts[i].Spurious?
    ensures ForgottenAt(r, h) && Reach(c, Init(c), r)
    decreases |ts|
  {
    if ts != [] {
      var front, t := ts[..|ts| - 1], ts[|ts| - 1];
      var m := Exec(c, s, front).value;
      StaysForgotten(c, s, h, front, m);
      ReachInv(c, m);
      StepForgets(c, m, t, r, h);
      ReachNext(c, Init(c), m, t, r);
    }
  }
}
