/**
 The proxy/cache shared-memory transfer protocol as a transition system.

 Every thread carries a program counter; one step executes one statement that touches shared
 state.  `handle_with_cache` runs once per request (the handlers), `cache_worker` runs in each
 worker thread, and the receive loop of the daemon's `main` is the receiver.  Condition variables
 are explicit wait sets: a sleeping thread may go on only after it has been taken out of its set.
 A shared-memory object is a generation; its name can be unlinked and reused, the object cannot.
 */
module CacheModel {
  import opened Wrappers

  type Byte = char

  /** Whether each side declares `data_mutex` before `file_len_mutex` in `shm_data`. */
  datatype Layout = Layout(proxyDataFirst: bool, cacheDataFirst: bool)

  /** The structs as the two programs declare them: in opposite order. */
  const SOURCE_LAYOUT := Layout(true, false)

  const MQ_MAXMSG := 10
  const MAX_CACHE_REQUEST_LEN := 256

  /**
   `paths` holds the requests, one per handler invocation; `names` the segments of `init_proxy`;
   `cap` the bytes of a segment behind its header, less one.  `alias` says that the daemon queues
   the address of its one message buffer instead of a copy.
   */
  datatype Config = Config(
    files: map<string, seq<Byte>>,
    paths: seq<string>,
    names: seq<string>,
    nworkers: nat,
    cap: nat,
    layout: Layout,
    alias: bool,
    shortSends: bool)

  datatype Tid = H(h: nat) | W(w: nat) | R

  /** `lock; while (condition) cond_wait`: at the lock, at the test, about to wait, waiting. */
  datatype Mon = Lock | Check | Wait | Sleep

  datatype HPc =
    | HTake(m: Mon) | HTakePop | HTakeDec | HTakeUnlock | HTakeBcast
    | HCreateUnlink | HCreateOpen | HInitLen | HInitBytes | HSend
    | HLen(m: Mon) | HLenRead | HLenUnlock | HLenBcast
    | HHeader | HLoop
    | HData(m: Mon) | HDataRead | HDataSend | HDataClear | HDataUnlock | HDataBcast | HAbandoned
    | HResetLen | HResetBytes | HUnlink
    | HGive(m: Mon) | HGivePush | HGiveInc | HGiveUnlock | HGiveBcast
    | HNotFound | HDone

  datatype WPc =
    | WTake(m: Mon) | WTakePop | WTakeDec | WTakeUnlock | WTakeSignal
    | WGet | WOpen | WZero
    | WLen(m: Mon) | WLenPost | WLenReset | WLenUnlock | WLenBcast
    | WLoop
    | WData(m: Mon) | WPread | WCopy | WPublish | WSignal | WDataUnlock

  datatype RPc = RReceive | RPut(m: Mon) | RPutPush | RPutInc | RPutUnlock | RPutBcast

  /** `owner` is the handler that sent the message; no step reads it. */
  datatype Msg = Msg(path: string, name: string, owner: nat)

  /** Where the message of a handler is.  Auxiliary: no step's guard reads it. */
  datatype Loc = NotSent | InMq | InRecv | InDq | AtWorker(w: nat) | Served

  datatype Header = NoHeader | OkHeader(len: int) | NotFoundHeader

  datatype Handler = Handler(
    pc: HPc, name: string, gen: nat, len: int, transferred: int, rlen: int, k: nat,
    header: Header, body: seq<Byte>, loc: Loc)

  datatype Worker = Worker(
    pc: WPc, msg: Msg, gen: nat, fd: Option<string>, len: int, written: int, n: int, k: nat)

  datatype Receiver = Receiver(pc: RPc, slot: Msg, asleep: bool)

  /** `fldes_queue`, `fldes_queue_size`, `fldes_mutex`, `read_cond`, `write_cond`. */
  datatype Pool = Pool(free: seq<string>, size: int, lock: Option<Tid>, readers: set<nat>, writers: set<nat>)

  /** `mq_data_queue`, `steq_size`, `msgq_mutex`, and the workers waiting on `write_cond`. */
  datatype Daemon = Daemon(queue: seq<Msg>, size: int, lock: Option<Tid>, idle: set<nat>)

  /** One generation of shared memory; `m0` and `m1` are its two mutexes in declaration order. */
  datatype Seg = Seg(
    fileLength: int, bytesWritten: int, data: seq<Byte>,
    m0: Option<Tid>, m1: Option<Tid>, proxyWait: set<nat>, cacheWait: set<nat>)

  datatype State = State(
    pool: Pool, ns: map<string, nat>, segs: seq<Seg>, mq: seq<Msg>, dq: Daemon,
    recv: Receiver, hs: seq<Handler>, ws: seq<Worker>)

  /** `x` is the chunk length `pread` returns, or the handler a `cond_signal` picks. */
  datatype Step = HStep(h: nat) | HShort(h: nat) | WStep(w: nat, x: nat) | RStep | Spurious(t: Tid)

  function FileLen(c: Config, path: string): int {
    if path in c.files then |c.files[path]| else -1
  }

  function FileOf(c: Config, path: string): seq<Byte> {
    if path in c.files then c.files[path] else []
  }

  predicate SharedLayout(l: Layout) { l.proxyDataFirst == l.cacheDataFirst }

  function Mutex(g: Seg, first: bool): Option<Tid> {
    if first then g.m0 else g.m1
  }

  function WithMutex(g: Seg, first: bool, o: Option<Tid>): Seg {
    if first then g.(m0 := o) else g.(m1 := o)
  }

  function Init(c: Config): State {
    State(
      Pool(c.names, |c.names|, None, {}, {}), map[], [], [],
      Daemon([], 0, None, {}),
      Receiver(RReceive, Msg("", "", 0), false),
      seq(|c.paths|, i => Handler(HTake(Lock), "", 0, 0, 0, 0, 0, NoHeader, [], NotSent)),
      seq(c.nworkers, i => Worker(WTake(Lock), Msg("", "", 0), 0, None, 0, 0, 0, 0)))
  }

  // ---------- the handler: handle_with_cache, create_shm_channel, destroy_shm_seg ----------

  function PutH(s: State, h: nat, x: Handler): State
    requires h < |s.hs|
  {
    s.(hs := s.hs[h := x])
  }

  function PutHSeg(s: State, h: nat, m: Option<(Handler, Seg)>): Option<State>
    requires h < |s.hs| && s.hs[h].gen < |s.segs|
  {
    if m.None? then None
    else Some(s.(hs := s.hs[h := m.value.0], segs := s.segs[s.hs[h].gen := m.value.1]))
  }

  function SetLoc(s: State, h: nat, l: Loc): State {
    if h < |s.hs| then s.(hs := s.hs[h := s.hs[h].(loc := l)]) else s
  }

  function PutHPool(s: State, h: nat, m: Option<(Handler, Pool)>): Option<State>
    requires h < |s.hs|
  {
    if m.None? then None else Some(s.(hs := s.hs[h := m.value.0], pool := m.value.1))
  }

  /** Takes a segment name from the pool. */
  function HTakeMove(h: nat, x: Handler, p: Pool): Option<(Handler, Pool)> {
    match x.pc
    case HTake(Lock) =>
      if p.lock.Some? then None else Some((x.(pc := HTake(Check)), p.(lock := Some(H(h)))))
    case HTake(Check) => Some((x.(pc := if p.size == 0 then HTake(Wait) else HTakePop), p))
    case HTake(Wait) => Some((x.(pc := HTake(Sleep)), p.(lock := None, readers := p.readers + {h})))
    case HTake(Sleep) =>
      if h in p.readers || p.lock.Some? then None else Some((x.(pc := HTake(Check)), p.(lock := Some(H(h)))))
    case HTakePop =>
      if p.free == [] then None else Some((x.(pc := HTakeDec, name := p.free[0]), p.(free := p.free[1..])))
    case HTakeDec => Some((x.(pc := HTakeUnlock), p.(size := p.size - 1)))
    case HTakeUnlock => Some((x.(pc := HTakeBcast), p.(lock := None)))
    case HTakeBcast => Some((x.(pc := HCreateUnlink), p.(writers := {})))
    case _ => None
  }

  /** Returns the segment name to the pool; on a missing file the header goes out only now. */
  function HGiveMove(c: Config, h: nat, x: Handler, p: Pool): Option<(Handler, Pool)> {
    match x.pc
    case HGive(Lock) =>
      if p.lock.Some? then None else Some((x.(pc := HGive(Check)), p.(lock := Some(H(h)))))
    case HGive(Check) => Some((x.(pc := if p.size == |c.names| then HGive(Wait) else HGivePush), p))
    case HGive(Wait) => Some((x.(pc := HGive(Sleep)), p.(lock := None, writers := p.writers + {h})))
    case HGive(Sleep) =>
      if h in p.writers || p.lock.Some? then None else Some((x.(pc := HGive(Check)), p.(lock := Some(H(h)))))
    case HGivePush => Some((x.(pc := HGiveInc), p.(free := p.free + [x.name])))
    case HGiveInc => Some((x.(pc := HGiveUnlock), p.(size := p.size + 1)))
    case HGiveUnlock => Some((x.(pc := HGiveBcast), p.(lock := None)))
    case HGiveBcast => Some((x.(pc := if x.len < 0 then HNotFound else HDone), p.(readers := {})))
    case HNotFound => Some((x.(pc := HDone, header := NotFoundHeader), p))
    case _ => None
  }

  /** Creates a fresh generation under the name, posts the request, unlinks the name at the end. */
  function HNameNext(c: Config, s: State, h: nat): Option<State>
    requires h < |s.hs| && h < |c.paths|
  {
    var x := s.hs[h];
    match x.pc
    case HCreateUnlink =>
      Some(PutH(s, h, x.(pc := HCreateOpen)).(ns := s.ns - {x.name}))
    case HCreateOpen =>
      if x.name in s.ns then None
      else
        var seg := Seg(0, 0, seq(c.cap, i => '\0'), None, None, {}, {});
        Some(PutH(s, h, x.(pc := HInitLen, gen := |s.segs|)).(segs := s.segs + [seg], ns := s.ns[x.name := |s.segs|]))
    case HSend =>
      if |s.mq| >= MQ_MAXMSG then None
      else Some(PutH(s, h, x.(pc := HLen(Lock), loc := InMq)).(mq := s.mq + [Msg(c.paths[h], x.name, h)]))
    case HUnlink =>
      Some(PutH(s, h, x.(pc := HGive(Lock))).(ns := s.ns - {x.name}))
    case _ => None
  }

  /** Initialises the segment's fields, waits for the file length and reads it. */
  function HLenMove(c: Config, h: nat, x: Handler, g: Seg): Option<(Handler, Seg)> {
    var lenFirst := !c.layout.proxyDataFirst;
    match x.pc
    case HInitLen => Some((x.(pc := HInitBytes), g.(fileLength := 0)))
    case HInitBytes => Some((x.(pc := HSend), g.(bytesWritten := 0)))
    case HLen(Lock) =>
      if Mutex(g, lenFirst).Some? then None
      else Some((x.(pc := HLen(Check)), WithMutex(g, lenFirst, Some(H(h)))))
    case HLen(Check) =>
      Some((x.(pc := if g.fileLength == 0 then HLen(Wait) else HLenRead), g))
    case HLen(Wait) =>
      Some((x.(pc := HLen(Sleep)), WithMutex(g, lenFirst, None).(proxyWait := g.proxyWait + {h})))
    case HLen(Sleep) =>
      if h in g.proxyWait || Mutex(g, lenFirst).Some? then None
      else Some((x.(pc := HLen(Check)), WithMutex(g, lenFirst, Some(H(h)))))
    case HLenRead => Some((x.(pc := HLenUnlock, len := g.fileLength), g))
    case HLenUnlock => Some((x.(pc := HLenBcast), WithMutex(g, lenFirst, None)))
    case HLenBcast => Some((x.(pc := if x.len < 0 then HResetLen else HHeader), g.(cacheWait := {})))
    case HResetLen => Some((x.(pc := HResetBytes), g.(fileLength := 0)))
    case HResetBytes => Some((x.(pc := HUnlink), g.(bytesWritten := 0)))
    case _ => None
  }

  /** Sends the header, then copies chunk after chunk to the client, byte by byte. */
  function HDataMove(c: Config, h: nat, x: Handler, g: Seg): Option<(Handler, Seg)> {
    var dataFirst := c.layout.proxyDataFirst;
    match x.pc
    case HHeader => Some((x.(pc := HLoop, header := OkHeader(x.len), transferred := 0), g))
    case HLoop => Some((x.(pc := if x.transferred < x.len then HData(Lock) else HResetLen), g))
    case HData(Lock) =>
      if Mutex(g, dataFirst).Some? then None
      else Some((x.(pc := HData(Check)), WithMutex(g, dataFirst, Some(H(h)))))
    case HData(Check) => Some((x.(pc := if g.bytesWritten == 0 then HData(Wait) else HDataRead), g))
    case HData(Wait) =>
      Some((x.(pc := HData(Sleep)), WithMutex(g, dataFirst, None).(proxyWait := g.proxyWait + {h})))
    case HData(Sleep) =>
      if h in g.proxyWait || Mutex(g, dataFirst).Some? then None
      else Some((x.(pc := HData(Check)), WithMutex(g, dataFirst, Some(H(h)))))
    case HDataRead => Some((x.(pc := HDataSend, rlen := g.bytesWritten, k := 0), g))
    case HDataSend =>
      if x.k >= x.rlen then Some((x.(pc := HDataClear), g))
      else if x.k >= |g.data| then None
      else Some((x.(k := x.k + 1, body := x.body + [g.data[x.k]]), g))
    case HDataClear => Some((x.(pc := HDataUnlock), g.(bytesWritten := 0)))
    case HDataUnlock => Some((x.(pc := HDataBcast), WithMutex(g, dataFirst, None)))
    case HDataBcast => Some((x.(pc := HLoop, transferred := x.transferred + x.rlen), g.(cacheWait := {})))
    case _ => None
  }

  predicate HTakePc(pc: HPc) {
    pc.HTake? || pc.HTakePop? || pc.HTakeDec? || pc.HTakeUnlock? || pc.HTakeBcast?
  }

  predicate HNamePc(pc: HPc) {
    pc.HCreateUnlink? || pc.HCreateOpen? || pc.HSend? || pc.HUnlink?
  }

  predicate HLenPc(pc: HPc) {
    || pc.HInitLen? || pc.HInitBytes? || pc.HLen? || pc.HLenRead? || pc.HLenUnlock? || pc.HLenBcast?
    || pc.HResetLen? || pc.HResetBytes?
  }

  predicate HDataPc(pc: HPc) {
    || pc.HHeader? || pc.HLoop? || pc.HData? || pc.HDataRead? || pc.HDataSend?
    || pc.HDataClear? || pc.HDataUnlock? || pc.HDataBcast?
  }

  function HNext(c: Config, s: State, h: nat): Option<State> {
    if h >= |s.hs| || h >= |c.paths| then None
    else
      var pc := s.hs[h].pc;
      if HTakePc(pc) then PutHPool(s, h, HTakeMove(h, s.hs[h], s.pool))
      else if HNamePc(pc) then HNameNext(c, s, h)
      else if HLenPc(pc) then
        (if s.hs[h].gen < |s.segs| then PutHSeg(s, h, HLenMove(c, h, s.hs[h], s.segs[s.hs[h].gen])) else None)
      else if HDataPc(pc) then
        (if s.hs[h].gen < |s.segs| then PutHSeg(s, h, HDataMove(c, h, s.hs[h], s.segs[s.hs[h].gen])) else None)
      else PutHPool(s, h, HGiveMove(c, h, s.hs[h], s.pool))
  }

  /** `gfs_send` took fewer bytes than it was given: the handler returns, keeping segment and lock. */
  function HShortNext(c: Config, s: State, h: nat): Option<State> {
    if h < |s.hs| && c.shortSends && s.hs[h].pc.HDataSend? && s.hs[h].k < s.hs[h].rlen
    then Some(PutH(s, h, s.hs[h].(pc := HAbandoned))) else None
  }

  // ---------- the worker: cache_worker ----------

  function PutW(s: State, w: nat, y: Worker): State
    requires w < |s.ws|
  {
    s.(ws := s.ws[w := y])
  }

  /** A worker that goes back to the queue has finished its message. */
  function PutWSeg(s: State, w: nat, m: Option<(Worker, Seg)>): Option<State>
    requires w < |s.ws| && s.ws[w].gen < |s.segs|
  {
    if m.None? then None
    else
      var s' := s.(ws := s.ws[w := m.value.0], segs := s.segs[s.ws[w].gen := m.value.1]);
      Some(if m.value.0.pc.WTake? then SetLoc(s', s.ws[w].msg.owner, Served) else s')
  }

  /** The message a worker's pointer designates: the daemon's one buffer if addresses are queued. */
  function Deref(c: Config, s: State, y: Worker): Msg {
    if c.alias then s.recv.slot else y.msg
  }

  /** Takes a message from the daemon's queue. */
  function WTakeMove(w: nat, y: Worker, d: Daemon): Option<(Worker, Daemon)> {
    match y.pc
    case WTake(Lock) =>
      if d.lock.Some? then None else Some((y.(pc := WTake(Check)), d.(lock := Some(W(w)))))
    case WTake(Check) => Some((y.(pc := if d.size == 0 then WTake(Wait) else WTakePop), d))
    case WTake(Wait) => Some((y.(pc := WTake(Sleep)), d.(lock := None, idle := d.idle + {w})))
    case WTake(Sleep) =>
      if w in d.idle || d.lock.Some? then None else Some((y.(pc := WTake(Check)), d.(lock := Some(W(w)))))
    case WTakePop =>
      if d.queue == [] then None
      else Some((y.(pc := WTakeDec, msg := d.queue[0], written := 0), d.(queue := d.queue[1..])))
    case WTakeDec => Some((y.(pc := WTakeUnlock), d.(size := d.size - 1)))
    case WTakeUnlock => Some((y.(pc := WTakeSignal), d.(lock := None)))
    case _ => None
  }

  /** A worker that has popped a message is the one that serves it. */
  function PutWDq(s: State, w: nat, m: Option<(Worker, Daemon)>): Option<State>
    requires w < |s.ws|
  {
    if m.None? then None
    else
      var s' := s.(ws := s.ws[w := m.value.0], dq := m.value.1);
      Some(if m.value.0.pc.WTakeDec? then SetLoc(s', m.value.0.msg.owner, AtWorker(w)) else s')
  }

  /** Wakes the receiver, looks the file up, opens the segment by name. */
  function WFindNext(c: Config, s: State, w: nat): Option<State>
    requires w < |s.ws|
  {
    var y := s.ws[w];
    match y.pc
    case WTakeSignal =>
      Some(PutW(s, w, y.(pc := WGet)).(recv := s.recv.(asleep := false)))
    case WGet =>
      var path := Deref(c, s, y).path;
      Some(PutW(s, w, y.(pc := WOpen, fd := if path in c.files then Some(path) else None, len := FileLen(c, path))))
    case WOpen =>
      var name := Deref(c, s, y).name;
      if name !in s.ns then None else Some(PutW(s, w, y.(pc := WZero, gen := s.ns[name])))
    case _ => None
  }

  /** Posts the file length; on a missing file the worker then goes back to the queue. */
  function WLenMove(c: Config, w: nat, y: Worker, g: Seg): Option<(Worker, Seg)> {
    var lenFirst := !c.layout.cacheDataFirst;
    match y.pc
    case WZero => Some((y.(pc := WLen(Lock)), g.(fileLength := 0)))
    case WLen(Lock) =>
      if Mutex(g, lenFirst).Some? then None
      else Some((y.(pc := WLen(Check)), WithMutex(g, lenFirst, Some(W(w)))))
    case WLen(Check) => Some((y.(pc := if g.fileLength != 0 then WLen(Wait) else WLenPost), g))
    case WLen(Wait) =>
      Some((y.(pc := WLen(Sleep)), WithMutex(g, lenFirst, None).(cacheWait := g.cacheWait + {w})))
    case WLen(Sleep) =>
      if w in g.cacheWait || Mutex(g, lenFirst).Some? then None
      else Some((y.(pc := WLen(Check)), WithMutex(g, lenFirst, Some(W(w)))))
    case WLenPost => Some((y.(pc := WLenReset), g.(fileLength := y.len)))
    case WLenReset => Some((y.(pc := WLenUnlock), g.(bytesWritten := 0)))
    case WLenUnlock => Some((y.(pc := WLenBcast), WithMutex(g, lenFirst, None)))
    case WLenBcast => Some((y.(pc := if y.fd.Some? then WLoop else WTake(Lock)), g.(proxyWait := {})))
    case _ => None
  }

  /** Fills the slot chunk after chunk; `pread` returns `x` bytes, copied one at a time. */
  function WDataMove(c: Config, w: nat, y: Worker, g: Seg, x: nat): Option<(Worker, Seg)> {
    var dataFirst := c.layout.cacheDataFirst;
    match y.pc
    case WLoop => Some((y.(pc := if y.written < y.len then WData(Lock) else WTake(Lock)), g))
    case WData(Lock) =>
      if Mutex(g, dataFirst).Some? then None
      else Some((y.(pc := WData(Check)), WithMutex(g, dataFirst, Some(W(w)))))
    case WData(Check) => Some((y.(pc := if g.bytesWritten != 0 then WData(Wait) else WPread), g))
    case WData(Wait) =>
      Some((y.(pc := WData(Sleep)), WithMutex(g, dataFirst, None).(cacheWait := g.cacheWait + {w})))
    case WData(Sleep) =>
      if w in g.cacheWait || Mutex(g, dataFirst).Some? then None
      else Some((y.(pc := WData(Check)), WithMutex(g, dataFirst, Some(W(w)))))
    case WPread =>
      if 1 <= x <= c.cap && y.written + x <= y.len then Some((y.(pc := WCopy, n := x, k := 0), g)) else None
    case WCopy =>
      if y.k >= y.n then Some((y.(pc := WPublish), g))
      else if y.fd.Some? && 0 <= y.written + y.k < |FileOf(c, y.fd.value)| && y.k < |g.data| then
        Some((y.(k := y.k + 1), g.(data := g.data[y.k := FileOf(c, y.fd.value)[y.written + y.k]])))
      else None
    case WPublish => Some((y.(pc := WSignal), g.(bytesWritten := y.n)))
    case WSignal =>
      if g.proxyWait != {} && x !in g.proxyWait then None
      else Some((y.(pc := WDataUnlock), g.(proxyWait := g.proxyWait - {x})))
    case WDataUnlock =>
      Some((y.(pc := WLoop, written := y.written + y.n), WithMutex(g, dataFirst, None)))
    case _ => None
  }

  predicate WDqPc(pc: WPc) { pc.WTake? || pc.WTakePop? || pc.WTakeDec? || pc.WTakeUnlock? }

  predicate WFindPc(pc: WPc) { pc.WTakeSignal? || pc.WGet? || pc.WOpen? }

  predicate WTakePc(pc: WPc) {
    WDqPc(pc) || WFindPc(pc)
  }

  predicate WLenPc(pc: WPc) {
    pc.WZero? || pc.WLen? || pc.WLenPost? || pc.WLenReset? || pc.WLenUnlock? || pc.WLenBcast?
  }

  function WNext(c: Config, s: State, w: nat, x: nat): Option<State> {
    if w >= |s.ws| then None
    else if WDqPc(s.ws[w].pc) then PutWDq(s, w, WTakeMove(w, s.ws[w], s.dq))
    else if WFindPc(s.ws[w].pc) then WFindNext(c, s, w)
    else if s.ws[w].gen >= |s.segs| then None
    else if WLenPc(s.ws[w].pc) then PutWSeg(s, w, WLenMove(c, w, s.ws[w], s.segs[s.ws[w].gen]))
    else PutWSeg(s, w, WDataMove(c, w, s.ws[w], s.segs[s.ws[w].gen], x))
  }

  // ---------- the receiver: the loop in the daemon's main ----------

  function RNext(s: State): Option<State> {
    var r := s.recv;
    var d := s.dq;
    match r.pc
    case RReceive =>
      if s.mq == [] then None
      else Some(SetLoc(s.(recv := r.(pc := RPut(Lock), slot := s.mq[0]), mq := s.mq[1..]), s.mq[0].owner, InRecv))
    case RPut(Lock) =>
      if d.lock.Some? then None else Some(s.(recv := r.(pc := RPut(Check)), dq := d.(lock := Some(R))))
    case RPut(Check) =>
      Some(s.(recv := r.(pc := if d.size == MAX_CACHE_REQUEST_LEN then RPut(Wait) else RPutPush)))
    case RPut(Wait) =>
      Some(s.(recv := r.(pc := RPut(Sleep), asleep := true), dq := d.(lock := None)))
    case RPut(Sleep) =>
      if r.asleep || d.lock.Some? then None else Some(s.(recv := r.(pc := RPut(Check)), dq := d.(lock := Some(R))))
    case RPutPush =>
      Some(SetLoc(s.(recv := r.(pc := RPutInc), dq := d.(queue := d.queue + [r.slot])), r.slot.owner, InDq))
    case RPutInc =>
      Some(s.(recv := r.(pc := RPutUnlock), dq := d.(size := d.size + 1)))
    case RPutUnlock =>
      Some(s.(recv := r.(pc := RPutBcast), dq := d.(lock := None)))
    case RPutBcast =>
      Some(s.(recv := r.(pc := RReceive), dq := d.(idle := {})))
  }

  // ---------- whole system ----------

  /** POSIX lets `pthread_cond_wait` return without a signal. */
  function SpuriousNext(s: State, t: Tid): Option<State> {
    match t
    case H(h) =>
      if h >= |s.hs| then None
      else if s.hs[h].pc == HTake(Sleep) && h in s.pool.readers then
        Some(s.(pool := s.pool.(readers := s.pool.readers - {h})))
      else if s.hs[h].pc == HGive(Sleep) && h in s.pool.writers then
        Some(s.(pool := s.pool.(writers := s.pool.writers - {h})))
      else
        var g := s.hs[h].gen;
        if g < |s.segs| && (s.hs[h].pc == HLen(Sleep) || s.hs[h].pc == HData(Sleep)) && h in s.segs[g].proxyWait then
          Some(s.(segs := s.segs[g := s.segs[g].(proxyWait := s.segs[g].proxyWait - {h})]))
        else None
    case W(w) =>
      if w >= |s.ws| then None
      else if s.ws[w].pc == WTake(Sleep) && w in s.dq.idle then Some(s.(dq := s.dq.(idle := s.dq.idle - {w})))
      else
        var g := s.ws[w].gen;
        if g < |s.segs| && (s.ws[w].pc == WLen(Sleep) || s.ws[w].pc == WData(Sleep)) && w in s.segs[g].cacheWait then
          Some(s.(segs := s.segs[g := s.segs[g].(cacheWait := s.segs[g].cacheWait - {w})]))
        else None
    case R =>
      if s.recv.asleep then Some(s.(recv := s.recv.(asleep := false))) else None
  }

  /** The state after a step, or None if the step is not enabled. */
  function Next(c: Config, s: State, t: Step): Option<State> {
    match t
    case HStep(h) => HNext(c, s, h)
    case HShort(h) => HShortNext(c, s, h)
    case WStep(w, x) => WNext(c, s, w, x)
    case RStep => RNext(s)
    case Spurious(t) => SpuriousNext(s, t)
  }

  /** `ss` is the sequence of states of a run from the initial state that takes the steps `ts`. */
  ghost predicate IsRun(c: Config, ss: seq<State>, ts: seq<Step>) {
    && |ss| == |ts| + 1
    && ss[0] == Init(c)
    && forall i :: 0 <= i < |ts| ==> Next(c, ss[i], ts[i]) == Some(ss[i + 1])
  }

  /** What one atomic lookup in the cache directory would answer. */
  function LookupHeader(c: Config, path: string): Header {
    if path in c.files then OkHeader(|c.files[path]|) else NotFoundHeader
  }
}
