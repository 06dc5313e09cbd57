/**
 What holds between one request's handler, its segment generation and whatever serves it.

 The predicates here look at one handler record, one segment and one worker record; no lock is
 mentioned, so nothing here depends on the two processes excluding each other.
 */
module CachePair {
  import opened Wrappers
  import opened CacheModel

  /** Who serves a request: nobody yet, a worker, or nobody any more. */
  datatype View = Waiting | Busy(y: Worker) | Over

  function ViewOf(s: State, x: Handler): View {
    match x.loc
    case AtWorker(w) => if w < |s.ws| then Busy(s.ws[w]) else Waiting
    case Served => Over
    case _ => Waiting
  }

  /** The handler holds a segment name: it is neither in the pool nor with anyone else. */
  predicate HOwns(pc: HPc) {
    && !pc.HTake? && !pc.HTakePop?
    && !pc.HGiveInc? && !pc.HGiveUnlock? && !pc.HGiveBcast? && !pc.HNotFound? && !pc.HDone?
  }

  /** The handler has created its generation. */
  predicate HHasGen(pc: HPc) {
    !HTakePc(pc) && !pc.HCreateUnlink? && !pc.HCreateOpen?
  }

  /** The generation is in use: from its creation to the start of `destroy_shm_seg`. */
  predicate HOpen(pc: HPc) {
    (HLenPc(pc) && !pc.HResetLen? && !pc.HResetBytes?) || pc.HSend? || HDataPc(pc) || pc.HAbandoned?
  }

  /** The name leads to the generation: until it is unlinked. */
  predicate HLive(pc: HPc) {
    HOpen(pc) || pc.HResetLen? || pc.HResetBytes? || pc.HUnlink?
  }

  predicate HInChunk(pc: HPc) {
    pc.HDataSend? || pc.HDataClear? || pc.HDataUnlock? || pc.HDataBcast? || pc.HAbandoned?
  }

  /** The worker holds a message. */
  predicate WBusy(pc: WPc) { !pc.WTake? && !pc.WTakePop? }

  /** The worker has mapped a segment. */
  predicate WBound(pc: WPc) { !WTakePc(pc) }

  /** The worker has stored the file length. */
  predicate WPosted(pc: WPc) {
    WBound(pc) && !pc.WZero? && !pc.WLen? && !pc.WLenPost?
  }

  /** The worker is about to store a chunk. */
  predicate WFilling(pc: WPc) { pc.WPread? || pc.WCopy? || pc.WPublish? }

  predicate WPublished(pc: WPc) { pc.WSignal? || pc.WDataUnlock? }

  predicate Posted(v: View) { v.Over? || (v.Busy? && WPosted(v.y.pc)) }

  /** How many bytes of the file have been put into the slot so far. */
  function Published(c: Config, path: string, v: View): int {
    match v
    case Waiting => 0
    case Over => |FileOf(c, path)|
    case Busy(y) => if WPublished(y.pc) then y.written + y.n else y.written
  }

  /** How many bytes the handler has taken out of the slot so far. */
  function Consumed(x: Handler): int {
    if x.pc.HDataUnlock? || x.pc.HDataBcast? then x.transferred + x.rlen else x.transferred
  }

  /** The bytes of `data` from 0 are the bytes of `file` from `at`, `n` of them. */
  ghost predicate Carries(data: seq<Byte>, file: seq<Byte>, at: int, n: int) {
    && 0 <= at && 0 <= n <= |data| && at + n <= |file|
    && data[..n] == file[at..at + n]
  }

  /** A worker serving `path` on generation `gen`. */
  ghost predicate WorkerOk(c: Config, path: string, gen: nat, y: Worker) {
    && WBusy(y.pc)
    && (WBound(y.pc) ==> y.gen == gen)
    && (WBound(y.pc) || y.pc.WOpen? ==>
      y.len == FileLen(c, path) && y.fd == (if path in c.files then Some(path) else None))
    && y.pc != WLen(Wait) && y.pc != WLen(Sleep)
    && (!WPosted(y.pc) || y.pc.WLenReset? || y.pc.WLenUnlock? || y.pc.WLenBcast? ==> y.written == 0)
    && (WPosted(y.pc) && !y.pc.WLenReset? && !y.pc.WLenUnlock? && !y.pc.WLenBcast? ==>
      path in c.files && 0 <= y.written <= y.len && (!y.pc.WLoop? ==> y.written < y.len))
    && (y.pc.WCopy? || y.pc.WPublish? || WPublished(y.pc) ==>
      1 <= y.n <= c.cap && y.written + y.n <= y.len && y.k <= y.n)
    && (y.pc.WPublish? ==> y.k == y.n)
  }

  /** The handler has read the file length and found the file, and has not torn the segment down. */
  predicate HSending(pc: HPc) {
    (HDataPc(pc) && !pc.HHeader?) || pc.HAbandoned?
  }

  /** Nothing has been answered yet. */
  predicate HSilent(pc: HPc) {
    HOpen(pc) && !HSending(pc)
  }

  /** The handler knows the file length. */
  predicate HKnows(pc: HPc) {
    HHasGen(pc) && !pc.HInitLen? && !pc.HInitBytes? && !pc.HSend? && !pc.HLen? && !pc.HLenRead?
  }

  /** The handler's own counters. */
  ghost predicate HandlerCounts(c: Config, path: string, x: Handler, g: Seg) {
    && (HSilent(x.pc) ==> x.transferred == 0)
    && (x.pc.HLenRead? ==> g.fileLength != 0)
    && (HKnows(x.pc) ==> x.len == FileLen(c, path) != 0)
    && (HDataPc(x.pc) || x.pc.HAbandoned? ==> x.len > 0 && 0 <= x.transferred <= x.len)
    && (x.pc.HData? || x.pc.HDataRead? ==> x.transferred < x.len)
    && (x.pc.HDataRead? ==> g.bytesWritten > 0)
    && (HInChunk(x.pc) ==> x.rlen > 0 && x.k <= x.rlen && x.transferred + x.rlen <= x.len)
    && (x.pc.HDataSend? || x.pc.HDataClear? || x.pc.HAbandoned? ==> x.rlen == g.bytesWritten)
    && (x.pc.HDataClear? || x.pc.HDataUnlock? || x.pc.HDataBcast? ==> x.k == x.rlen)
    && (HHasGen(x.pc) && !HOpen(x.pc) && x.len >= 0 ==> x.transferred == x.len && !x.pc.HNotFound?)
  }

  /** What was published and not yet consumed is in the slot, and only an empty slot is filled. */
  ghost predicate SlotCounts(c: Config, path: string, x: Handler, g: Seg, v: View) {
    && |g.data| == c.cap
    && g.fileLength == (if Posted(v) then FileLen(c, path) else 0)
    && Published(c, path, v) == Consumed(x) + g.bytesWritten
    && 0 <= g.bytesWritten <= c.cap
    && (v.Busy? && WFilling(v.y.pc) ==> g.bytesWritten == 0)
  }

  /** Everything between one request's handler, segment and server but the bytes themselves. */
  ghost predicate CountsOk(c: Config, path: string, x: Handler, g: Seg, v: View) {
    && (v.Busy? ==> WorkerOk(c, path, x.gen, v.y))
    && (HOpen(x.pc) ==> SlotCounts(c, path, x, g, v))
    && HandlerCounts(c, path, x, g)
    && (!Posted(v) ==> x.pc.HInitLen? || x.pc.HInitBytes? || x.pc.HSend? || x.pc.HLen?)
    && (x.pc.HInitLen? || x.pc.HInitBytes? || x.pc.HSend? ==> v.Waiting?)
    && (!HOpen(x.pc) ==> Published(c, path, v) == |FileOf(c, path)|)
  }

  /** The slot holds the next piece of the file; a half-filled slot the beginning of one. */
  ghost predicate SlotBytes(c: Config, path: string, x: Handler, g: Seg, v: View) {
    && Carries(g.data, FileOf(c, path), Consumed(x), g.bytesWritten)
    && (v.Busy? && (v.y.pc.WCopy? || v.y.pc.WPublish?) ==> Carries(g.data, FileOf(c, path), v.y.written, v.y.k))
  }

  /** How many bytes of the file the handler has sent. */
  function SentBytes(x: Handler): int {
    if HInChunk(x.pc) then x.transferred + x.k else x.transferred
  }

  /** The response so far. */
  ghost predicate ResponseOk(c: Config, path: string, x: Handler) {
    var file := FileOf(c, path);
    && (HSilent(x.pc) ==> x.header == NoHeader && x.body == [])
    && (HSending(x.pc) ==>
      x.header == OkHeader(|file|) && 0 <= SentBytes(x) <= |file| && x.body == file[..SentBytes(x)])
    && (HHasGen(x.pc) && !HOpen(x.pc) ==>
      if x.len < 0 then x.header == (if x.pc.HDone? then NotFoundHeader else NoHeader) && x.body == []
      else x.header == OkHeader(|file|) && x.body == file)
  }

  ghost predicate BytesOk(c: Config, path: string, x: Handler, g: Seg, v: View) {
    (HOpen(x.pc) ==> SlotBytes(c, path, x, g, v)) && ResponseOk(c, path, x)
  }

  ghost predicate PairOk(c: Config, path: string, x: Handler, g: Seg, v: View) {
    CountsOk(c, path, x, g, v) && BytesOk(c, path, x, g, v)
  }

  /** Before the generation exists nothing has been answered and nothing sent. */
  ghost predicate FreshOk(x: Handler) {
    x.header == NoHeader && x.body == [] && x.transferred == 0 && x.loc == NotSent
  }

  // ---------- local steps of the handler ----------

  lemma HLenWaitCounts(c: Config, path: string, h: nat, x: Handler, g: Seg, v: View, x': Handler, g': Seg)
    requires x.pc.HLen?
    requires HLenMove(c, h, x, g) == Some((x', g')) && CountsOk(c, path, x, g, v)
    ensures CountsOk(c, path, x', g', v)
  {
  }

  lemma HLenOpenCounts(c: Config, path: string, h: nat, x: Handler, g: Seg, v: View, x': Handler, g': Seg)
    requires x.pc.HInitLen? || x.pc.HInitBytes? || x.pc.HLenRead?
    requires HLenMove(c, h, x, g) == Some((x', g')) && CountsOk(c, path, x, g, v)
    ensures CountsOk(c, path, x', g', v)
  {
  }

  lemma HLenCloseCounts(c: Config, path: string, h: nat, x: Handler, g: Seg, v: View, x': Handler, g': Seg)
    requires !x.pc.HLen? && !(x.pc.HInitLen? || x.pc.HInitBytes? || x.pc.HLenRead?)
    requires HLenMove(c, h, x, g) == Some((x', g')) && CountsOk(c, path, x, g, v)
    ensures CountsOk(c, path, x', g', v)
  {
  }

  lemma HLenCounts(c: Config, path: string, h: nat, x: Handler, g: Seg, v: View, x': Handler, g': Seg)
    requires HLenMove(c, h, x, g) == Some((x', g')) && CountsOk(c, path, x, g, v)
    ensures CountsOk(c, path, x', g', v)
  {
    if x.pc.HLen? {
      HLenWaitCounts(c, path, h, x, g, v, x', g');
    } else if x.pc.HInitLen? || x.pc.HInitBytes? || x.pc.HLenRead? {
      HLenOpenCounts(c, path, h, x, g, v, x', g');
    } else {
      HLenCloseCounts(c, path, h, x, g, v, x', g');
    }
  }

  /** What a step of this phase leaves alone. */
  lemma HLenShape(c: Config, h: nat, x: Handler, g: Seg, x': Handler, g': Seg)
    requires HLenMove(c, h, x, g) == Some((x', g'))
    ensures x'.body == x.body && x'.header == x.header && x'.transferred == x.transferred && g'.data == g.data
    ensures HOpen(x.pc) && !x.pc.HInitBytes? ==> g'.bytesWritten == g.bytesWritten
    ensures x.pc.HInitBytes? ==> g'.bytesWritten == 0
    ensures HOpen(x'.pc) ==> HSilent(x.pc) && HSilent(x'.pc)
    ensures HHasGen(x.pc) && HHasGen(x'.pc) && !x'.pc.HDone? && !HSending(x.pc) && !HSending(x'.pc)
    ensures HSilent(x.pc) && !HOpen(x'.pc) ==> x'.len < 0
    ensures !HOpen(x.pc) ==> x'.len == x.len && !HOpen(x'.pc) && !x.pc.HDone?
  {
  }

  lemma SilentBytes(c: Config, path: string, x: Handler, g: Seg, v: View, x': Handler, g': Seg)
    requires HSilent(x.pc) && HSilent(x'.pc) && BytesOk(c, path, x, g, v)
    requires x'.body == x.body && x'.header == x.header && x'.transferred == x.transferred && g'.data == g.data
    requires g'.bytesWritten == g.bytesWritten
    ensures BytesOk(c, path, x', g', v)
  {
  }

  lemma ClosedBytes(c: Config, path: string, x: Handler, g: Seg, v: View, x': Handler, g': Seg)
    requires BytesOk(c, path, x, g, v) && HHasGen(x.pc) && HHasGen(x'.pc) && !HOpen(x'.pc) && !x'.pc.HDone?
    requires x'.body == x.body && x'.header == x.header
    requires (HSilent(x.pc) && x'.len < 0) || (!HOpen(x.pc) && x'.len == x.len && !x.pc.HDone?)
    ensures BytesOk(c, path, x', g', v)
  {
  }

  lemma HLenBytes(c: Config, path: string, h: nat, x: Handler, g: Seg, v: View, x': Handler, g': Seg)
    requires HLenMove(c, h, x, g) == Some((x', g')) && PairOk(c, path, x, g, v)
    ensures BytesOk(c, path, x', g', v)
  {
    HLenShape(c, h, x, g, x', g');
    if HOpen(x'.pc) {
      SilentBytes(c, path, x, g, v, x', g');
    } else {
      ClosedBytes(c, path, x, g, v, x', g');
    }
  }

  lemma HLenLocal(c: Config, path: string, h: nat, x: Handler, g: Seg, v: View, x': Handler, g': Seg)
    requires HLenMove(c, h, x, g) == Some((x', g')) && PairOk(c, path, x, g, v)
    ensures PairOk(c, path, x', g', v)
  {
    HLenCounts(c, path, h, x, g, v, x', g');
    HLenBytes(c, path, h, x, g, v, x', g');
  }

  lemma HDataWaitCounts(c: Config, path: string, h: nat, x: Handler, g: Seg, v: View, x': Handler, g': Seg)
    requires x.pc.HData?
    requires HDataMove(c, h, x, g) == Some((x', g')) && CountsOk(c, path, x, g, v)
    ensures CountsOk(c, path, x', g', v)
  {
  }

  lemma HDataChunkCounts(c: Config, path: string, h: nat, x: Handler, g: Seg, v: View, x': Handler, g': Seg)
    requires HInChunk(x.pc)
    requires HDataMove(c, h, x, g) == Some((x', g')) && CountsOk(c, path, x, g, v)
    ensures CountsOk(c, path, x', g', v)
  {
  }

  lemma HDataTurnCounts(c: Config, path: string, h: nat, x: Handler, g: Seg, v: View, x': Handler, g': Seg)
    requires !x.pc.HData? && !HInChunk(x.pc)
    requires HDataMove(c, h, x, g) == Some((x', g')) && CountsOk(c, path, x, g, v)
    ensures CountsOk(c, path, x', g', v)
  {
  }

  lemma HDataCounts(c: Config, path: string, h: nat, x: Handler, g: Seg, v: View, x': Handler, g': Seg)
    requires HDataMove(c, h, x, g) == Some((x', g')) && CountsOk(c, path, x, g, v)
    ensures CountsOk(c, path, x', g', v)
  {
    if x.pc.HData? {
      HDataWaitCounts(c, path, h, x, g, v, x', g');
    } else if HInChunk(x.pc) {
      HDataChunkCounts(c, path, h, x, g, v, x', g');
    } else {
      HDataTurnCounts(c, path, h, x, g, v, x', g');
    }
  }

  lemma HDataWaitBytes(c: Config, path: string, h: nat, x: Handler, g: Seg, v: View, x': Handler, g': Seg)
    requires x.pc.HData?
    requires HDataMove(c, h, x, g) == Some((x', g')) && PairOk(c, path, x, g, v)
    ensures BytesOk(c, path, x', g', v)
  {
  }

  lemma CarriesAt(data: seq<Byte>, file: seq<Byte>, at: int, n: int, k: nat)
    requires Carries(data, file, at, n) && k < n
    ensures data[k] == file[at + k] && file[..at + k] + [data[k]] == file[..at + k + 1]
  {
    assert data[k] == data[..n][k] == file[at..at + n][k];
  }

  lemma HDataSendBytes(c: Config, path: string, h: nat, x: Handler, g: Seg, v: View, x': Handler, g': Seg)
    requires x.pc.HDataSend?
    requires HDataMove(c, h, x, g) == Some((x', g')) && PairOk(c, path, x, g, v)
    ensures BytesOk(c, path, x', g', v)
  {
    if x.k < x.rlen {
      CarriesAt(g.data, FileOf(c, path), x.transferred, g.bytesWritten, x.k);
    }
  }

  lemma HDataLeaveBytes(c: Config, path: string, h: nat, x: Handler, g: Seg, v: View, x': Handler, g': Seg)
    requires HInChunk(x.pc) && !x.pc.HDataSend?
    requires HDataMove(c, h, x, g) == Some((x', g')) && PairOk(c, path, x, g, v)
    ensures BytesOk(c, path, x', g', v)
  {
  }

  lemma HDataChunkBytes(c: Config, path: string, h: nat, x: Handler, g: Seg, v: View, x': Handler, g': Seg)
    requires HInChunk(x.pc)
    requires HDataMove(c, h, x, g) == Some((x', g')) && PairOk(c, path, x, g, v)
    ensures BytesOk(c, path, x', g', v)
  {
    if x.pc.HDataSend? {
      HDataSendBytes(c, path, h, x, g, v, x', g');
    } else {
      HDataLeaveBytes(c, path, h, x, g, v, x', g');
    }
  }

  lemma HDataTurnBytes(c: Config, path: string, h: nat, x: Handler, g: Seg, v: View, x': Handler, g': Seg)
    requires !x.pc.HData? && !HInChunk(x.pc)
    requires HDataMove(c, h, x, g) == Some((x', g')) && PairOk(c, path, x, g, v)
    ensures BytesOk(c, path, x', g', v)
  {
  }

  lemma HDataBytes(c: Config, path: string, h: nat, x: Handler, g: Seg, v: View, x': Handler, g': Seg)
    requires HDataMove(c, h, x, g) == Some((x', g')) && PairOk(c, path, x, g, v)
    ensures BytesOk(c, path, x', g', v)
  {
    if x.pc.HData? {
      HDataWaitBytes(c, path, h, x, g, v, x', g');
    } else if HInChunk(x.pc) {
      HDataChunkBytes(c, path, h, x, g, v, x', g');
    } else {
      HDataTurnBytes(c, path, h, x, g, v, x', g');
    }
  }

  lemma HDataLocal(c: Config, path: string, h: nat, x: Handler, g: Seg, v: View, x': Handler, g': Seg)
    requires HDataMove(c, h, x, g) == Some((x', g')) && PairOk(c, path, x, g, v)
    ensures PairOk(c, path, x', g', v)
  {
    HDataCounts(c, path, h, x, g, v, x', g');
    HDataBytes(c, path, h, x, g, v, x', g');
  }

  // ---------- local steps of the worker ----------

  function Left(y: Worker): View { if y.pc.WTake? then Over else Busy(y) }

  lemma WLenWaitCounts(c: Config, path: string, w: nat, x: Handler, g: Seg, y: Worker, y': Worker, g': Seg)
    requires y.pc.WLen? || y.pc.WZero?
    requires WLenMove(c, w, y, g) == Some((y', g')) && CountsOk(c, path, x, g, Busy(y))
    ensures CountsOk(c, path, x, g', Left(y'))
  {
  }

  lemma WLenPostCounts(c: Config, path: string, w: nat, x: Handler, g: Seg, y: Worker, y': Worker, g': Seg)
    requires y.pc.WLenPost?
    requires WLenMove(c, w, y, g) == Some((y', g')) && CountsOk(c, path, x, g, Busy(y))
    ensures CountsOk(c, path, x, g', Left(y'))
  {
  }

  lemma WLenResetCounts(c: Config, path: string, w: nat, x: Handler, g: Seg, y: Worker, y': Worker, g': Seg)
    requires y.pc.WLenReset?
    requires WLenMove(c, w, y, g) == Some((y', g')) && CountsOk(c, path, x, g, Busy(y))
    ensures CountsOk(c, path, x, g', Left(y'))
  {
  }

  lemma WLenLeaveCounts(c: Config, path: string, w: nat, x: Handler, g: Seg, y: Worker, y': Worker, g': Seg)
    requires WLenPc(y.pc) && !y.pc.WLenPost? && !y.pc.WLenReset?
    requires !(y.pc.WLen? || y.pc.WZero?)
    requires WLenMove(c, w, y, g) == Some((y', g')) && CountsOk(c, path, x, g, Busy(y))
    ensures CountsOk(c, path, x, g', Left(y'))
  {
  }

  lemma WLenTurnCounts(c: Config, path: string, w: nat, x: Handler, g: Seg, y: Worker, y': Worker, g': Seg)
    requires !(y.pc.WLen? || y.pc.WZero?)
    requires WLenMove(c, w, y, g) == Some((y', g')) && CountsOk(c, path, x, g, Busy(y))
    ensures CountsOk(c, path, x, g', Left(y'))
  {
    if y.pc.WLenPost? {
      WLenPostCounts(c, path, w, x, g, y, y', g');
    } else if y.pc.WLenReset? {
      WLenResetCounts(c, path, w, x, g, y, y', g');
    } else {
      WLenLeaveCounts(c, path, w, x, g, y, y', g');
    }
  }

  lemma WLenCounts(c: Config, path: string, w: nat, x: Handler, g: Seg, y: Worker, y': Worker, g': Seg)
    requires WLenMove(c, w, y, g) == Some((y', g')) && CountsOk(c, path, x, g, Busy(y))
    ensures CountsOk(c, path, x, g', Left(y'))
  {
    if y.pc.WLen? || y.pc.WZero? {
      WLenWaitCounts(c, path, w, x, g, y, y', g');
    } else {
      WLenTurnCounts(c, path, w, x, g, y, y', g');
    }
  }

  lemma WLenShape(c: Config, w: nat, y: Worker, g: Seg, y': Worker, g': Seg)
    requires WLenMove(c, w, y, g) == Some((y', g'))
    ensures g'.data == g.data && !y'.pc.WCopy? && !y'.pc.WPublish?
    ensures (y.pc.WLenReset? && g'.bytesWritten == 0) || g'.bytesWritten == g.bytesWritten
  {
  }

  /** A worker outside the chunk loop leaves the slot's bytes alone. */
  lemma SameSlotBytes(c: Config, path: string, x: Handler, g: Seg, v: View, g': Seg, v': View)
    requires BytesOk(c, path, x, g, v) && g'.data == g.data
    requires HOpen(x.pc) ==> g'.bytesWritten == g.bytesWritten
    requires v'.Busy? ==> !v'.y.pc.WCopy? && !v'.y.pc.WPublish?
    ensures BytesOk(c, path, x, g', v')
  {
  }

  lemma ResetIsIdle(c: Config, path: string, x: Handler, g: Seg, y: Worker)
    requires CountsOk(c, path, x, g, Busy(y)) && y.pc.WLenReset? && HOpen(x.pc)
    ensures g.bytesWritten == 0
  {
  }

  lemma WLenBytes(c: Config, path: string, w: nat, x: Handler, g: Seg, y: Worker, y': Worker, g': Seg)
    requires WLenMove(c, w, y, g) == Some((y', g')) && PairOk(c, path, x, g, Busy(y))
    ensures BytesOk(c, path, x, g', Left(y'))
  {
    WLenShape(c, w, y, g, y', g');
    if y.pc.WLenReset? && HOpen(x.pc) {
      ResetIsIdle(c, path, x, g, y);
    }
    SameSlotBytes(c, path, x, g, Busy(y), g', Left(y'));
  }

  lemma WLenLocal(c: Config, path: string, w: nat, x: Handler, g: Seg, y: Worker, y': Worker, g': Seg)
    requires WLenMove(c, w, y, g) == Some((y', g')) && PairOk(c, path, x, g, Busy(y))
    ensures PairOk(c, path, x, g', Left(y'))
  {
    WLenCounts(c, path, w, x, g, y, y', g');
    WLenBytes(c, path, w, x, g, y, y', g');
  }

  lemma WDataWaitCounts(c: Config, path: string, w: nat, x: Handler, g: Seg, y: Worker, n: nat, y': Worker, g': Seg)
    requires y.pc.WData?
    requires WDataMove(c, w, y, g, n) == Some((y', g')) && CountsOk(c, path, x, g, Busy(y))
    ensures CountsOk(c, path, x, g', Left(y'))
  {
  }

  lemma WDataFillCounts(c: Config, path: string, w: nat, x: Handler, g: Seg, y: Worker, n: nat, y': Worker, g': Seg)
    requires WFilling(y.pc)
    requires WDataMove(c, w, y, g, n) == Some((y', g')) && CountsOk(c, path, x, g, Busy(y))
    ensures CountsOk(c, path, x, g', Left(y'))
  {
  }

  lemma WLoopCounts(c: Config, path: string, w: nat, x: Handler, g: Seg, y: Worker, n: nat, y': Worker, g': Seg)
    requires y.pc.WLoop?
    requires WDataMove(c, w, y, g, n) == Some((y', g')) && CountsOk(c, path, x, g, Busy(y))
    ensures CountsOk(c, path, x, g', Left(y'))
  {
  }

  lemma WSignalCounts(c: Config, path: string, w: nat, x: Handler, g: Seg, y: Worker, n: nat, y': Worker, g': Seg)
    requires WPublished(y.pc)
    requires WDataMove(c, w, y, g, n) == Some((y', g')) && CountsOk(c, path, x, g, Busy(y))
    ensures CountsOk(c, path, x, g', Left(y'))
  {
  }

  lemma WDataTurnCounts(c: Config, path: string, w: nat, x: Handler, g: Seg, y: Worker, n: nat, y': Worker, g': Seg)
    requires !y.pc.WData? && !WFilling(y.pc)
    requires WDataMove(c, w, y, g, n) == Some((y', g')) && CountsOk(c, path, x, g, Busy(y))
    ensures CountsOk(c, path, x, g', Left(y'))
  {
    if y.pc.WLoop? {
      WLoopCounts(c, path, w, x, g, y, n, y', g');
    } else {
      WSignalCounts(c, path, w, x, g, y, n, y', g');
    }
  }

  lemma WDataCounts(c: Config, path: string, w: nat, x: Handler, g: Seg, y: Worker, n: nat, y': Worker, g': Seg)
    requires WDataMove(c, w, y, g, n) == Some((y', g')) && CountsOk(c, path, x, g, Busy(y))
    ensures CountsOk(c, path, x, g', Left(y'))
  {
    if y.pc.WData? {
      WDataWaitCounts(c, path, w, x, g, y, n, y', g');
    } else if WFilling(y.pc) {
      WDataFillCounts(c, path, w, x, g, y, n, y', g');
    } else {
      WDataTurnCounts(c, path, w, x, g, y, n, y', g');
    }
  }

  lemma CarriesOneMore(data: seq<Byte>, file: seq<Byte>, at: int, k: nat)
    requires Carries(data, file, at, k) && k < |data| && at + k < |file|
    ensures Carries(data[k := file[at + k]], file, at, k + 1)
  {
    var data' := data[k := file[at + k]];
    assert data'[..k + 1] == data[..k] + [file[at + k]];
    assert file[at..at + k + 1] == file[at..at + k] + [file[at + k]];
  }

  lemma WCopyBytes(c: Config, path: string, w: nat, x: Handler, g: Seg, y: Worker, n: nat, y': Worker, g': Seg)
    requires y.pc.WCopy?
    requires WDataMove(c, w, y, g, n) == Some((y', g')) && PairOk(c, path, x, g, Busy(y))
    ensures BytesOk(c, path, x, g', Left(y'))
  {
    if y.k < y.n {
      CarriesOneMore(g.data, FileOf(c, path), y.written, y.k);
    }
  }

  lemma WFillBytes(c: Config, path: string, w: nat, x: Handler, g: Seg, y: Worker, n: nat, y': Worker, g': Seg)
    requires y.pc.WPread? || y.pc.WPublish?
    requires WDataMove(c, w, y, g, n) == Some((y', g')) && PairOk(c, path, x, g, Busy(y))
    ensures BytesOk(c, path, x, g', Left(y'))
  {
  }

  lemma WDataShape(c: Config, w: nat, y: Worker, g: Seg, n: nat, y': Worker, g': Seg)
    requires !WFilling(y.pc) && WDataMove(c, w, y, g, n) == Some((y', g'))
    ensures g'.data == g.data && g'.bytesWritten == g.bytesWritten && !y'.pc.WCopy? && !y'.pc.WPublish?
  {
  }

  lemma WDataBytes(c: Config, path: string, w: nat, x: Handler, g: Seg, y: Worker, n: nat, y': Worker, g': Seg)
    requires WDataMove(c, w, y, g, n) == Some((y', g')) && PairOk(c, path, x, g, Busy(y))
    ensures BytesOk(c, path, x, g', Left(y'))
  {
    if y.pc.WCopy? {
      WCopyBytes(c, path, w, x, g, y, n, y', g');
    } else if WFilling(y.pc) {
      WFillBytes(c, path, w, x, g, y, n, y', g');
    } else {
      WDataShape(c, w, y, g, n, y', g');
      SameSlotBytes(c, path, x, g, Busy(y), g', Left(y'));
    }
  }

  lemma WDataLocal(c: Config, path: string, w: nat, x: Handler, g: Seg, y: Worker, n: nat, y': Worker, g': Seg)
    requires WDataMove(c, w, y, g, n) == Some((y', g')) && PairOk(c, path, x, g, Busy(y))
    ensures PairOk(c, path, x, g', Left(y'))
  {
    WDataCounts(c, path, w, x, g, y, n, y', g');
    WDataBytes(c, path, w, x, g, y, n, y', g');
  }
}
