/** The start of the proxy: the pool of segment names. */
module ProxyInit {
  import opened Decimal
  import opened Sequences
  import opened Steque
  import CacheModel
  import CacheInvariant
  import CacheTheorems

  const SHAREDMPATH := "/sharedmpath"

  function SegmentName(i: nat): string { SHAREDMPATH + Print(i) }

  function SegmentNames(segments: nat): (names: seq<string>)
    ensures |names| == segments
  {
    seq(segments, i requires 0 <= i => SegmentName(i))
  }

  lemma SegmentNamesDiffer(i: nat, j: nat)
    requires SegmentName(i) == SegmentName(j)
    ensures i == j
  {
    assert SegmentName(i)[|SHAREDMPATH|..] == Print(i);
    assert SegmentName(j)[|SHAREDMPATH|..] == Print(j);
    PrintInjective(i, j);
  }

  /** The pool starts without repetition: what the protocol needs of it. */
  lemma PoolIsSound(c: CacheModel.Config, segments: nat)
    requires c.names == SegmentNames(segments)
    ensures NoDup(c.names)
    ensures CacheTheorems.ConfigOk(c) <==> CacheInvariant.OneBufferSuffices(c)
  {
    forall i, j | 0 <= i < j < segments
      ensures c.names[i] != c.names[j]
    {
      if SegmentName(i) == SegmentName(j) {
        SegmentNamesDiffer(i, j);
      }
    }
  }

  /** `init_proxy` */
  method InitProxy(segments: nat) returns (fldesQueue: Steque<string>, fldesQueueSize: int, maxFldesQueueSize: int)
    ensures fresh(fldesQueue) && fldesQueue.Valid() && fldesQueue.Contents() == SegmentNames(segments)
    ensures forall i :: 0 <= i < segments ==> fldesQueue.Contents()[i] == "/sharedmpath" + Print(i)
    ensures fldesQueueSize == maxFldesQueueSize == segments
  {
    fldesQueue := new Steque();
    var i := 0;
    while i < segments
      invariant 0 <= i <= segments && fresh(fldesQueue) && fldesQueue.Valid() && fresh(fldesQueue.spine)
      invariant fldesQueue.Contents() == SegmentNames(i)
    {
      var segmentId := SHAREDMPATH;
      segmentId := segmentId + Print(i);
      fldesQueue.Enqueue(segmentId);
      assert SegmentNames(i + 1) == SegmentNames(i) + [segmentId];
      i := i + 1;
    }
    fldesQueueSize := fldesQueue.Size();
    maxFldesQueueSize := fldesQueue.Size();
  }
}
