/**
 A handler whose message is overwritten in the daemon's one buffer is never served.

 Both queued pointers then lead to the other message.  Nobody will name the handler's segment again, so
 nobody opens it, and the handler waits for a length for ever: spurious wake-ups do not help.
 */
module CacheOrphan {
  import opened Wrappers
  import opened Sequences
  import opened CacheModel
  import opened CacheRuns
  import opened CachePair
  import opened CacheInvariant
  import opened CacheTheorems
  import opened CacheCrossed
  import opened CacheMisdirected
  import CacheService

  /** Nobody but the handler knows its generation, and no message names its segment any more. */
  ghost predicate Unknown(s: State, h: nat)
    requires h < |s.hs|
  {
    var x := s.hs[h];
    && s.recv.slot.name != x.name
    && (forall i :: 0 <= i < |s.mq| ==> s.mq[i].name != x.name)
    && (forall n :: n in s.ns && s.ns[n] == x.gen ==> n == x.name)
    && (forall i :: 0 <= i < |s.hs| && i != h && HHasGen(s.hs[i].pc) ==> s.hs[i].gen != x.gen)
    && (forall w :: 0 <= w < |s.ws| && WBound(s.ws[w].pc) ==> s.ws[w].gen != x.gen)
  }

  /** The handler waits for a length nobody is going to post. */
  ghost predicate Orphan(s: State, h: nat) {
    && h < |s.hs| && s.hs[h].pc.HLen? && s.hs[h].gen < |s.segs| && s.segs[s.hs[h].gen].fileLength == 0
    && Unknown(s, h)
  }

  // ---------- handlers ----------

  lemma OwnStep(c: Config, s: State, h: nat, s': State)
    requires Orphan(s, h) && HNext(c, s, h) == Some(s')
    ensures Orphan(s', h)
  {
    var x, g := s.hs[h], s.segs[s.hs[h].gen];
    var m := HLenMove(c, h, x, g).value;
    assert m.0.pc.HLen? && m.0 == x.(pc := m.0.pc) && m.1.fileLength == 0;
    assert s' == s.(hs := s.hs[h := m.0], segs := s.segs[x.gen := m.1]);
  }

  /** What another handler's step does to the names, the messages and the generations. */
  lemma OtherShape(c: Config, s: State, i: nat, s': State)
    requires HNext(c, s, i) == Some(s')
    ensures i < |s.hs| && i < |s'.hs| && s'.hs == s.hs[i := s'.hs[i]] && s'.ws == s.ws && s'.recv == s.recv
    ensures |s.segs| <= |s'.segs|
    ensures forall g :: 0 <= g < |s.segs| && (HHasGen(s.hs[i].pc) ==> g != s.hs[i].gen) ==> s'.segs[g] == s.segs[g]
    ensures s'.mq == s.mq || (s.hs[i].pc.HSend? && exists p :: s'.mq == s.mq + [Msg(p, s.hs[i].name, i)])
    ensures HHasGen(s'.hs[i].pc) ==> (HHasGen(s.hs[i].pc) && s'.hs[i].gen == s.hs[i].gen) || s'.hs[i].gen == |s.segs|
    ensures forall n :: n in s'.ns ==> (n in s.ns && s'.ns[n] == s.ns[n]) || s'.ns[n] == |s.segs|
  {
    if s.hs[i].pc.HSend? {
      assert s'.mq == s.mq + [Msg(c.paths[i], s.hs[i].name, i)];
    }
  }

  lemma OtherStep(c: Config, s: State, i: nat, s': State, h: nat)
    requires Conserved(c, s) && Orphan(s, h) && i != h && HNext(c, s, i) == Some(s')
    ensures Orphan(s', h)
  {
    OtherShape(c, s, i, s');
    var x := s.hs[h];
    forall j | 0 <= j < |s'.mq|
      ensures s'.mq[j].name != x.name
    {
      if j >= |s.mq| {
        assert HOwns(s.hs[i].pc) && HOwns(x.pc);
      }
    }
  }

  // ---------- the daemon ----------

  lemma WorkerStep(c: Config, s: State, w: nat, n: nat, s': State, h: nat)
    requires c.alias && Orphan(s, h) && WNext(c, s, w, n) == Some(s')
    ensures Orphan(s', h)
  {
    WorkerShape(c, s, w, n, s');
  }

  /** A worker stores only into the generation it has mapped, and maps only the one the buffer names. */
  lemma WorkerShape(c: Config, s: State, w: nat, n: nat, s': State)
    requires c.alias && WNext(c, s, w, n) == Some(s')
    ensures w < |s.ws| && |s'.ws| == |s.ws| && s'.ws == s.ws[w := s'.ws[w]] && s'.mq == s.mq && s'.ns == s.ns
    ensures s'.recv.slot == s.recv.slot && |s'.hs| == |s.hs|
    ensures forall h :: 0 <= h < |s.hs| ==> s'.hs[h] == s.hs[h].(loc := s'.hs[h].loc)
    ensures |s'.segs| == |s.segs|
    ensures forall g :: 0 <= g < |s.segs| && (WBound(s.ws[w].pc) ==> g != s.ws[w].gen) ==> s'.segs[g] == s.segs[g]
    ensures WBound(s'.ws[w].pc) ==>
      || (WBound(s.ws[w].pc) && s'.ws[w].gen == s.ws[w].gen)
      || (s.recv.slot.name in s.ns && s'.ws[w].gen == s.ns[s.recv.slot.name])
  {
  }

  lemma ReceiverStep(s: State, s': State, h: nat)
    requires Orphan(s, h) && RNext(s) == Some(s')
    ensures Orphan(s', h)
  {
    CacheService.RShape(s, s');
    assert s'.recv.slot == s.recv.slot || (s.mq != [] && s'.recv.slot == s.mq[0]);
    assert forall i :: 0 <= i < |s'.mq| ==> exists j :: 0 <= j < |s.mq| && s'.mq[i] == s.mq[j];
  }

  lemma StepOrphans(c: Config, s: State, t: Step, s': State, h: nat)
    requires c.alias && Conserved(c, s) && Orphan(s, h) && Next(c, s, t) == Some(s')
    ensures Orphan(s', h)
  {
    match t
    case HStep(i) =>
      if i == h {
        OwnStep(c, s, h, s');
      } else {
        OtherStep(c, s, i, s', h);
      }
    case HShort(i) =>
    case WStep(w, n) => WorkerStep(c, s, w, n, s', h);
    case RStep => ReceiverStep(s, s', h);
    case Spurious(u) => CacheService.SpuriousShape(s, u, s');
  }

  /** However the threads go on, spurious wake-ups included, the handler stays in front of its empty length. */
  lemma {:induction false} StaysOrphan(c: Config, s: State, h: nat, ts: seq<Step>, r: State)
    requires c.alias && NoDup(c.names) && Reach(c, Init(c), s) && Orphan(s, h) && Exec(c, s, ts) == Some(r)
    ensures Orphan(r, h) && Reach(c, Init(c), r)
    decreases |ts|
  {
    if ts != [] {
      var front, t := ts[..|ts| - 1], ts[|ts| - 1];
      var m := Exec(c, s, front).value;
      StaysOrphan(c, s, h, front, m);
      SegmentsAreConserved(c, m);
      StepOrphans(c, m, t, r, h);
      ReachNext(c, Init(c), m, t, r);
    }
  }

  /** The first of two requests whose messages the buffer has held one after the other. */
  lemma Orphaned(c: Config, i: nat, k: nat) returns (s: State)
    requires NoDup(c.names) && TwoOf(c, i, k)
    ensures Reach(c, Init(c), s) && Orphan(s, i)
  {
    s := TwoQueued(c, i, k);
    assert s.hs[i] == Sent(c, 0, InDq) && s.hs[k] == Sent(c, 1, InDq);
    assert c.names[0] != c.names[1];
  }
}
