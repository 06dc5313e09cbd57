/**
 The minify client: many workers drain one queue.  The system is a transition system; one step is one
 statement of `worker_main` that touches shared state.
 */
module Minify {
  import opened Wrappers
  import opened Steque

  datatype Request = Request(input: string, output: string)

  /** `minify` is the remote call, `writable` tells which files `fopen` can open for writing. */
  datatype Config = Config(
    requests: seq<Request>, nthreads: nat, files: map<string, string>, minify: string -> string,
    writable: string -> bool)

  datatype Pc = PLock | PTest | PPop | PUnlock | PRead | PRpc | POpen | PWrite | PLast | PDone

  datatype Thread = Thread(pc: Pc, req: nat, buf: string)

  /** Where a request is.  Auxiliary: no step's guard reads it. */
  datatype Place = Queued | Held(t: nat) | Processed

  /** The queue holds the positions of the requests in the workload. */
  datatype State = State(
    queue: seq<nat>, lock: Option<nat>, files: map<string, string>, threads: seq<Thread>, exited: bool,
    place: seq<Place>)

  function Init(c: Config): State {
    State(seq(|c.requests|, i => i), None, c.files, seq(c.nthreads, i => Thread(PLock, 0, "")), false,
      seq(|c.requests|, i => Queued))
  }

  function Put(s: State, t: nat, y: Thread): State
    requires t < |s.threads|
  {
    s.(threads := s.threads[t := y])
  }

  /** A step of worker `t`; None when it cannot move. */
  function Next(c: Config, s: State, t: nat): Option<State> {
    if s.exited || t >= |s.threads| || |s.place| != |c.requests| then None
    else
      var y := s.threads[t];
      match y.pc
      case PLock => if s.lock.Some? then None else Some(Put(s, t, y.(pc := PTest)).(lock := Some(t)))
      case PTest => Some(Put(s, t, y.(pc := if s.queue == [] then PLast else PPop)))
      case PPop =>
        if s.queue == [] then Some(s.(exited := true))
        else if s.queue[0] >= |s.place| then None
        else
          Some(Put(s, t, y.(pc := PUnlock, req := s.queue[0])).(
            queue := s.queue[1..], place := s.place[s.queue[0] := Held(t)]))
      case PUnlock => Some(Put(s, t, y.(pc := PRead)).(lock := None))
      case PLast => Some(Put(s, t, y.(pc := PDone)).(lock := None))
      case PDone => None
      case _ => if y.req < |s.place| then Work(c, s, t, y) else None
  }

  /** The part outside the lock: read the input, call, open the output, write it. */
  function Work(c: Config, s: State, t: nat, y: Thread): Option<State>
    requires t < |s.threads| && y.req < |s.place| == |c.requests|
  {
    var r := c.requests[y.req];
    match y.pc
    case PRead =>
      if r.input in s.files then Some(Put(s, t, y.(pc := PRpc, buf := s.files[r.input]))) else Some(s.(exited := true))
    case PRpc => Some(Put(s, t, y.(pc := POpen, buf := c.minify(y.buf))))
    case POpen =>
      if c.writable(r.output) then Some(Put(s, t, y.(pc := PWrite)).(files := s.files[r.output := ""]))
      else Some(Put(s, t, y.(pc := PLock)).(place := s.place[y.req := Processed]))
    case PWrite =>
      Some(Put(s, t, y.(pc := PLock)).(files := s.files[r.output := y.buf], place := s.place[y.req := Processed]))
    case _ => None
  }

  ghost predicate IsRun(c: Config, ss: seq<State>, ts: seq<nat>) {
    && |ss| == |ts| + 1 && ss[0] == Init(c)
    && forall i :: 0 <= i < |ts| ==> Next(c, ss[i], ts[i]) == Some(ss[i + 1])
  }

  // ---------- the sequential program ----------

  /** One request after the other; None when an input is missing. */
  function Sequential(c: Config, files: map<string, string>, requests: seq<Request>): Option<map<string, string>>
    decreases |requests|
  {
    if requests == [] then Some(files)
    else
      var r := requests[0];
      if r.input !in files then None
      else
        Sequential(c, if c.writable(r.output) then files[r.output := c.minify(files[r.input])] else files,
          requests[1..])
  }

  // ---------- the code of one worker ----------

  /**
   `load_requests`: each pair of words is an input and an output; a last single word leaves its output name as
   `malloc` gave it.
   */
  method LoadRequests(words: seq<string>, stale: string) returns (queue: Steque<Request>)
    ensures fresh(queue) && queue.Valid() && fresh(queue.spine)
    ensures |queue.Contents()| == (|words| + 1) / 2
    ensures forall k :: 0 <= k < |queue.Contents()| ==>
      && queue.Contents()[k].input == words[2 * k]
      && queue.Contents()[k].output == if 2 * k + 1 < |words| then words[2 * k + 1] else stale
  {
    queue := new Steque();
    var k := 0;
    while 2 * k < |words|
      invariant 0 <= 2 * k <= |words| + 1 && fresh(queue) && queue.Valid() && fresh(queue.spine)
      invariant |queue.Contents()| == k
      invariant forall i :: 0 <= i < k ==>
        && queue.Contents()[i].input == words[2 * i]
        && queue.Contents()[i].output == if 2 * i + 1 < |words| then words[2 * i + 1] else stale
    {
      var input := words[2 * k];
      var output := stale;
      if 2 * k + 1 < |words| {
        output := words[2 * k + 1];
      }
      queue.Enqueue(Request(input, output));
      k := k + 1;
    }
  }

  /** `worker_main` with the queue to itself; None: an input was missing and the process exited. */
  method WorkerMain(c: Config, queue: Steque<Request>, files: map<string, string>)
      returns (result: Option<map<string, string>>)
    requires queue.Valid()
    modifies queue
    ensures result == Sequential(c, files, old(queue.Contents()))
    ensures result.Some? ==> queue.Valid() && queue.Contents() == []
  {
    var now := files;
    var empty := queue.IsEmpty();
    while !empty
      invariant queue.Valid() && (empty <==> queue.Contents() == [])
      invariant Sequential(c, now, queue.Contents()) == Sequential(c, files, old(queue.Contents()))
      decreases |queue.spine|
    {
      var request := queue.Pop();
      var r := request.value;
      if r.input !in now {
        return None;
      }
      var dst := c.minify(now[r.input]);
      if c.writable(r.output) {
        now := now[r.output := dst];
      }
      empty := queue.IsEmpty();
    }
    return Some(now);
  }

  // ---------- the invariant ----------

  /** No output is another output or an input. */
  ghost predicate Independent(c: Config) {
    && (forall i, j :: 0 <= i < j < |c.requests| ==> c.requests[i].output != c.requests[j].output)
    && (forall i, j :: 0 <= i < |c.requests| && 0 <= j < |c.requests| ==> c.requests[i].output != c.requests[j].input)
  }

  ghost predicate InputsPresent(c: Config) {
    forall i :: 0 <= i < |c.requests| ==> c.requests[i].input in c.files
  }

  function Find(files: map<string, string>, f: string): Option<string> {
    if f in files then Some(files[f]) else None
  }

  predicate InHand(pc: Pc) { pc.PUnlock? || pc.PRead? || pc.PRpc? || pc.POpen? || pc.PWrite? }

  /** The statements around the loop that move no request. */
  predicate Monitor(pc: Pc) { pc.PLock? || pc.PTest? || pc.PUnlock? || pc.PLast? }

  predicate InLock(pc: Pc) { pc.PTest? || pc.PPop? || pc.PUnlock? || pc.PLast? }

  /** The queue is a tail of the workload; every request before it is in one worker's hands or processed. */
  ghost predicate HandInv(c: Config, s: State) {
    && |s.threads| == c.nthreads && |s.place| == |c.requests| && |s.queue| <= |c.requests|
    && (forall k :: 0 <= k < |s.queue| ==> s.queue[k] == |c.requests| - |s.queue| + k)
    && (forall i :: 0 <= i < |c.requests| ==> (s.place[i] == Queued <==> i >= |c.requests| - |s.queue|))
    && (forall i :: 0 <= i < |c.requests| && s.place[i].Held? ==>
      var t := s.place[i].t; t < |s.threads| && InHand(s.threads[t].pc) && s.threads[t].req == i)
    && (forall t :: 0 <= t < |s.threads| && InHand(s.threads[t].pc) ==>
      s.threads[t].req < |c.requests| && s.place[s.threads[t].req] == Held(t))
  }

  ghost predicate LockInv(c: Config, s: State) {
    && (forall t :: 0 <= t < |s.threads| ==> (InLock(s.threads[t].pc) <==> s.lock == Some(t)))
    && (s.lock.Some? ==> s.lock.value < |s.threads|)
    && (forall t :: 0 <= t < |s.threads| ==>
      && (s.threads[t].pc == PPop ==> s.queue != [])
      && (s.threads[t].pc == PLast || s.threads[t].pc == PDone ==> s.queue == []))
  }

  /** What a worker has in its buffer. */
  ghost predicate BufInv(c: Config, s: State) {
    && (forall t :: 0 <= t < |s.threads| && s.threads[t].req < |c.requests| ==>
      var y, r := s.threads[t], c.requests[s.threads[t].req];
      && (y.pc == PRpc ==> r.input in c.files && y.buf == c.files[r.input])
      && (y.pc == POpen || y.pc == PWrite ==> r.input in c.files && y.buf == c.minify(c.files[r.input]))
      && (y.pc == PWrite ==> c.writable(r.output)))
    && (|s.place| == |c.requests| ==>
      forall i :: 0 <= i < |c.requests| && s.place[i] == Processed ==> c.requests[i].input in c.files)
    && (s.exited ==> !InputsPresent(c))
  }

  /** What the output of request `i` holds at the moment. */
  ghost function OutputNow(c: Config, s: State, i: nat): Option<string>
    requires i < |c.requests| == |s.place|
  {
    var r := c.requests[i];
    match s.place[i]
    case Processed =>
      if c.writable(r.output) && r.input in c.files then Some(c.minify(c.files[r.input])) else Find(c.files, r.output)
    case Held(t) =>
      if t < |s.threads| && s.threads[t].pc == PWrite then Some("") else Find(c.files, r.output)
    case Queued => Find(c.files, r.output)
  }

  ghost predicate FileInv(c: Config, s: State) {
    && |s.place| == |c.requests|
    && (forall i :: 0 <= i < |c.requests| ==> Find(s.files, c.requests[i].output) == OutputNow(c, s, i))
    && (forall f :: (forall i :: 0 <= i < |c.requests| ==> c.requests[i].output != f) ==>
      Find(s.files, f) == Find(c.files, f))
  }

  /** What holds however the names of the files overlap. */
  ghost predicate QueueInv(c: Config, s: State) {
    HandInv(c, s) && LockInv(c, s)
  }

  ghost predicate Inv(c: Config, s: State) {
    QueueInv(c, s) && BufInv(c, s) && FileInv(c, s)
  }

  lemma InitInv(c: Config)
    ensures Inv(c, Init(c))
  {
  }

  lemma HandMonitor(c: Config, s: State, t: nat, s': State)
    requires t < |s.threads| && Monitor(s.threads[t].pc)
    requires HandInv(c, s) && LockInv(c, s) && Next(c, s, t) == Some(s')
    ensures HandInv(c, s')
  {
  }

  lemma HandPop(c: Config, s: State, t: nat, s': State)
    requires t < |s.threads| && s.threads[t].pc == PPop
    requires HandInv(c, s) && LockInv(c, s) && Next(c, s, t) == Some(s')
    ensures HandInv(c, s')
  {
  }

  lemma HandCompute(c: Config, s: State, t: nat, s': State)
    requires t < |s.threads| && s.threads[t].pc in {PRead, PRpc}
    requires HandInv(c, s) && LockInv(c, s) && Next(c, s, t) == Some(s')
    ensures HandInv(c, s')
  {
  }

  lemma HandOutput(c: Config, s: State, t: nat, s': State)
    requires t < |s.threads| && s.threads[t].pc in {POpen, PWrite}
    requires HandInv(c, s) && LockInv(c, s) && Next(c, s, t) == Some(s')
    ensures HandInv(c, s')
  {
  }

  lemma HandKept(c: Config, s: State, t: nat, s': State)
    requires HandInv(c, s) && LockInv(c, s) && Next(c, s, t) == Some(s')
    ensures HandInv(c, s')
  {
    if t < |s.threads| && Monitor(s.threads[t].pc) {
      HandMonitor(c, s, t, s');
    } else if t < |s.threads| && s.threads[t].pc == PPop {
      HandPop(c, s, t, s');
    } else if t < |s.threads| && s.threads[t].pc in {PRead, PRpc} {
      HandCompute(c, s, t, s');
    } else if t < |s.threads| && s.threads[t].pc in {POpen, PWrite} {
      HandOutput(c, s, t, s');
    }
  }

  lemma LockMonitor(c: Config, s: State, t: nat, s': State)
    requires t < |s.threads| && Monitor(s.threads[t].pc)
    requires HandInv(c, s) && LockInv(c, s) && Next(c, s, t) == Some(s')
    ensures LockInv(c, s')
  {
  }

  lemma LockPop(c: Config, s: State, t: nat, s': State)
    requires t < |s.threads| && s.threads[t].pc == PPop
    requires HandInv(c, s) && LockInv(c, s) && Next(c, s, t) == Some(s')
    ensures LockInv(c, s')
  {
  }

  lemma LockCompute(c: Config, s: State, t: nat, s': State)
    requires t < |s.threads| && s.threads[t].pc in {PRead, PRpc}
    requires HandInv(c, s) && LockInv(c, s) && Next(c, s, t) == Some(s')
    ensures LockInv(c, s')
  {
  }

  lemma LockOutput(c: Config, s: State, t: nat, s': State)
    requires t < |s.threads| && s.threads[t].pc in {POpen, PWrite}
    requires HandInv(c, s) && LockInv(c, s) && Next(c, s, t) == Some(s')
    ensures LockInv(c, s')
  {
  }

  lemma LockKept(c: Config, s: State, t: nat, s': State)
    requires HandInv(c, s) && LockInv(c, s) && Next(c, s, t) == Some(s')
    ensures LockInv(c, s')
  {
    if t < |s.threads| && Monitor(s.threads[t].pc) {
      LockMonitor(c, s, t, s');
    } else if t < |s.threads| && s.threads[t].pc == PPop {
      LockPop(c, s, t, s');
    } else if t < |s.threads| && s.threads[t].pc in {PRead, PRpc} {
      LockCompute(c, s, t, s');
    } else if t < |s.threads| && s.threads[t].pc in {POpen, PWrite} {
      LockOutput(c, s, t, s');
    }
  }

  lemma InputUntouched(c: Config, s: State, i: nat)
    requires Independent(c) && FileInv(c, s) && i < |c.requests|
    ensures Find(s.files, c.requests[i].input) == Find(c.files, c.requests[i].input)
  {
  }

  lemma BufMonitor(c: Config, s: State, t: nat, s': State)
    requires t < |s.threads| && Monitor(s.threads[t].pc)
    requires Independent(c) && Inv(c, s) && Next(c, s, t) == Some(s')
    ensures BufInv(c, s')
  {
  }

  lemma BufPop(c: Config, s: State, t: nat, s': State)
    requires t < |s.threads| && s.threads[t].pc == PPop
    requires Independent(c) && Inv(c, s) && Next(c, s, t) == Some(s')
    ensures BufInv(c, s')
  {
  }

  lemma BufCompute(c: Config, s: State, t: nat, s': State)
    requires t < |s.threads| && s.threads[t].pc in {PRead, PRpc}
    requires Independent(c) && Inv(c, s) && Next(c, s, t) == Some(s')
    ensures BufInv(c, s')
  {
    InputUntouched(c, s, s.threads[t].req);
  }

  lemma BufOutput(c: Config, s: State, t: nat, s': State)
    requires t < |s.threads| && s.threads[t].pc in {POpen, PWrite}
    requires Independent(c) && Inv(c, s) && Next(c, s, t) == Some(s')
    ensures BufInv(c, s')
  {
  }

  lemma BufKept(c: Config, s: State, t: nat, s': State)
    requires Independent(c) && Inv(c, s) && Next(c, s, t) == Some(s')
    ensures BufInv(c, s')
  {
    if Monitor(s.threads[t].pc) {
      BufMonitor(c, s, t, s');
    } else if s.threads[t].pc == PPop {
      BufPop(c, s, t, s');
    } else if s.threads[t].pc in {PRead, PRpc} {
      BufCompute(c, s, t, s');
    } else {
      BufOutput(c, s, t, s');
    }
  }

  lemma FileMonitor(c: Config, s: State, t: nat, s': State)
    requires t < |s.threads| && Monitor(s.threads[t].pc)
    requires Independent(c) && Inv(c, s) && Next(c, s, t) == Some(s')
    ensures FileInv(c, s')
  {
    assert s'.files == s.files && s'.place == s.place;
    forall i | 0 <= i < |c.requests|
      ensures Find(s'.files, c.requests[i].output) == OutputNow(c, s', i)
    {
      assert OutputNow(c, s', i) == OutputNow(c, s, i);
    }
  }

  lemma FilePop(c: Config, s: State, t: nat, s': State)
    requires t < |s.threads| && s.threads[t].pc == PPop
    requires Independent(c) && Inv(c, s) && Next(c, s, t) == Some(s')
    ensures FileInv(c, s')
  {
    forall i | 0 <= i < |c.requests|
      ensures Find(s'.files, c.requests[i].output) == OutputNow(c, s', i)
    {
      assert Find(s.files, c.requests[i].output) == OutputNow(c, s, i);
    }
  }

  lemma FileCompute(c: Config, s: State, t: nat, s': State)
    requires t < |s.threads| && s.threads[t].pc in {PRead, PRpc}
    requires Independent(c) && Inv(c, s) && Next(c, s, t) == Some(s')
    ensures FileInv(c, s')
  {
    assert s'.files == s.files && s'.place == s.place;
    forall i | 0 <= i < |c.requests|
      ensures Find(s'.files, c.requests[i].output) == OutputNow(c, s', i)
    {
      assert OutputNow(c, s', i) == OutputNow(c, s, i);
    }
  }

  lemma OutputKept(c: Config, s: State, t: nat, s': State, i: nat)
    requires t < |s.threads| && s.threads[t].pc in {POpen, PWrite} && i < |c.requests|
    requires Independent(c) && Inv(c, s) && Next(c, s, t) == Some(s')
    ensures Find(s'.files, c.requests[i].output) == OutputNow(c, s', i)
  {
    assert Find(s.files, c.requests[i].output) == OutputNow(c, s, i);
  }

  lemma FileOutput(c: Config, s: State, t: nat, s': State)
    requires t < |s.threads| && s.threads[t].pc in {POpen, PWrite}
    requires Independent(c) && Inv(c, s) && Next(c, s, t) == Some(s')
    ensures FileInv(c, s')
  {
    forall i | 0 <= i < |c.requests|
      ensures Find(s'.files, c.requests[i].output) == OutputNow(c, s', i)
    {
      OutputKept(c, s, t, s', i);
    }
  }

  lemma FileKept(c: Config, s: State, t: nat, s': State)
    requires Independent(c) && Inv(c, s) && Next(c, s, t) == Some(s')
    ensures FileInv(c, s')
  {
    if Monitor(s.threads[t].pc) {
      FileMonitor(c, s, t, s');
    } else if s.threads[t].pc == PPop {
      FilePop(c, s, t, s');
    } else if s.threads[t].pc in {PRead, PRpc} {
      FileCompute(c, s, t, s');
    } else {
      FileOutput(c, s, t, s');
    }
  }

  lemma StepKeeps(c: Config, s: State, t: nat, s': State)
    requires Independent(c) && Inv(c, s) && Next(c, s, t) == Some(s')
    ensures Inv(c, s')
  {
    HandKept(c, s, t, s');
    LockKept(c, s, t, s');
    BufKept(c, s, t, s');
    FileKept(c, s, t, s');
  }

  lemma {:induction false} RunQueueInv(c: Config, ss: seq<State>, ts: seq<nat>, i: nat)
    requires IsRun(c, ss, ts) && i < |ss|
    ensures QueueInv(c, ss[i])
  {
    if i == 0 {
      InitInv(c);
    } else {
      RunQueueInv(c, ss, ts, i - 1);
      HandKept(c, ss[i - 1], ts[i - 1], ss[i]);
      LockKept(c, ss[i - 1], ts[i - 1], ss[i]);
    }
  }

  lemma {:induction false} RunInv(c: Config, ss: seq<State>, ts: seq<nat>, i: nat)
    requires Independent(c) && IsRun(c, ss, ts) && i < |ss|
    ensures Inv(c, ss[i])
  {
    if i == 0 {
      InitInv(c);
    } else {
      RunInv(c, ss, ts, i - 1);
      StepKeeps(c, ss[i - 1], ts[i - 1], ss[i]);
    }
  }

  // ---------- every run ends ----------

  /** Steps a worker can still take before it needs another request. */
  function Rank(pc: Pc): nat {
    match pc
    case PDone => 0
    case PLast => 1
    case PPop => 1
    case PTest => 2
    case PLock => 3
    case PWrite => 4
    case POpen => 5
    case PRpc => 6
    case PRead => 7
    case PUnlock => 8
  }

  function Ranks(threads: seq<Thread>): nat {
    if threads == [] then 0 else Rank(threads[0].pc) + Ranks(threads[1..])
  }

  lemma {:induction false} RanksPut(threads: seq<Thread>, t: nat, y: Thread)
    requires t < |threads|
    ensures Ranks(threads[t := y]) == Ranks(threads) - Rank(threads[t].pc) + Rank(y.pc)
  {
    var threads' := threads[t := y];
    if t > 0 {
      RanksPut(threads[1..], t - 1, y);
      assert threads'[1..] == threads[1..][t - 1 := y];
    } else {
      assert threads'[1..] == threads[1..];
    }
  }

  function Measure(s: State): nat {
    9 * |s.queue| + Ranks(s.threads) + if s.exited then 0 else 1
  }

  /** A step moves one worker down its ranks, for which a request may pay, or stops the process. */
  lemma StepShape(c: Config, s: State, t: nat, s': State)
    requires Next(c, s, t) == Some(s')
    ensures !s.exited && t < |s.threads|
    ensures s'.exited ==> s'.queue == s.queue && s'.threads == s.threads
    ensures !s'.exited ==>
      && t < |s'.threads| && s'.threads == s.threads[t := s'.threads[t]]
      && 9 * |s'.queue| + Rank(s'.threads[t].pc) < 9 * |s.queue| + Rank(s.threads[t].pc)
  {
  }

  lemma StepDecreases(c: Config, s: State, t: nat, s': State)
    requires Next(c, s, t) == Some(s')
    ensures Measure(s') < Measure(s)
  {
    StepShape(c, s, t, s');
    if !s'.exited {
      RanksPut(s.threads, t, s'.threads[t]);
    }
  }

  lemma {:induction false} AllStart(n: nat, threads: seq<Thread>)
    requires |threads| == n && forall t :: 0 <= t < n ==> threads[t].pc == PLock
    ensures Ranks(threads) == 3 * n
  {
    if n > 0 {
      AllStart(n - 1, threads[1..]);
    }
  }

  lemma {:induction false} MeasureLeft(c: Config, ss: seq<State>, ts: seq<nat>, i: nat)
    requires IsRun(c, ss, ts) && i < |ss|
    ensures i + Measure(ss[i]) <= Measure(Init(c))
  {
    if i > 0 {
      MeasureLeft(c, ss, ts, i - 1);
      StepDecreases(c, ss[i - 1], ts[i - 1], ss[i]);
    }
  }

  /** No schedule goes on for ever. */
  lemma RunLength(c: Config, ss: seq<State>, ts: seq<nat>)
    requires IsRun(c, ss, ts)
    ensures |ts| <= 9 * |c.requests| + 3 * c.nthreads + 1
  {
    MeasureLeft(c, ss, ts, |ts|);
    AllStart(c.nthreads, Init(c).threads);
  }

  // ---------- no schedule gets stuck ----------

  ghost predicate AtRest(c: Config, s: State) {
    forall t :: 0 <= t < c.nthreads ==> Next(c, s, t) == None
  }

  ghost predicate AllDone(s: State) {
    forall t :: 0 <= t < |s.threads| ==> s.threads[t].pc == PDone
  }

  /** The lock's holder can always go on, and without a holder everybody can. */
  lemma CanMove(c: Config, s: State, t: nat)
    requires QueueInv(c, s) && !s.exited && t < |s.threads| && s.threads[t].pc != PDone
    requires s.lock == None || s.lock == Some(t)
    ensures Next(c, s, t).Some?
  {
  }

  lemma RestIsDone(c: Config, s: State)
    requires QueueInv(c, s) && AtRest(c, s)
    ensures s.exited || AllDone(s)
  {
    if !s.exited && s.lock.Some? {
      CanMove(c, s, s.lock.value);
    } else if !s.exited {
      forall t | 0 <= t < |s.threads|
        ensures s.threads[t].pc == PDone
      {
        if s.threads[t].pc != PDone {
          CanMove(c, s, t);
        }
      }
    }
  }

  /** The pop never meets an empty queue. */
  lemma NoUnderflow(c: Config, ss: seq<State>, ts: seq<nat>, i: nat, t: nat)
    requires IsRun(c, ss, ts) && i < |ss| && t < |ss[i].threads|
    ensures ss[i].threads[t].pc == PPop ==> ss[i].queue != []
  {
    RunQueueInv(c, ss, ts, i);
  }

  // ---------- each request once ----------

  /** The requests the remote call was made for, in the order of the calls. */
  function Calls(ss: seq<State>, ts: seq<nat>, n: nat): seq<nat>
    requires n <= |ts| && |ss| == |ts| + 1
  {
    if n == 0 then []
    else
      var s, t := ss[n - 1], ts[n - 1];
      Calls(ss, ts, n - 1) + if t < |s.threads| && s.threads[t].pc == PRpc then [s.threads[t].req] else []
  }

  /** Whether the call for request `i` lies behind. */
  ghost predicate Called(s: State, i: nat)
    requires i < |s.place|
  {
    match s.place[i]
    case Queued => false
    case Held(t) => t < |s.threads| && (s.threads[t].pc == POpen || s.threads[t].pc == PWrite)
    case Processed => true
  }

  ghost predicate Once(q: seq<nat>) {
    forall i, j :: 0 <= i < j < |q| ==> q[i] != q[j]
  }

  lemma CallsMonitor(c: Config, s: State, t: nat, s': State, i: nat)
    requires t < |s.threads| && Monitor(s.threads[t].pc)
    requires QueueInv(c, s) && Next(c, s, t) == Some(s') && i < |c.requests|
    ensures |s'.place| == |c.requests|
    ensures Called(s', i) <==> Called(s, i) || (s.threads[t].pc == PRpc && s.threads[t].req == i)
    ensures s.threads[t].pc == PRpc && s.threads[t].req == i ==> !Called(s, i)
  {
  }

  lemma CallsPop(c: Config, s: State, t: nat, s': State, i: nat)
    requires t < |s.threads| && s.threads[t].pc == PPop
    requires QueueInv(c, s) && Next(c, s, t) == Some(s') && i < |c.requests|
    ensures |s'.place| == |c.requests|
    ensures Called(s', i) <==> Called(s, i) || (s.threads[t].pc == PRpc && s.threads[t].req == i)
    ensures s.threads[t].pc == PRpc && s.threads[t].req == i ==> !Called(s, i)
  {
  }

  lemma CallsCompute(c: Config, s: State, t: nat, s': State, i: nat)
    requires t < |s.threads| && s.threads[t].pc in {PRead, PRpc}
    requires QueueInv(c, s) && Next(c, s, t) == Some(s') && i < |c.requests|
    ensures |s'.place| == |c.requests|
    ensures Called(s', i) <==> Called(s, i) || (s.threads[t].pc == PRpc && s.threads[t].req == i)
    ensures s.threads[t].pc == PRpc && s.threads[t].req == i ==> !Called(s, i)
  {
  }

  lemma CallsOutput(c: Config, s: State, t: nat, s': State, i: nat)
    requires t < |s.threads| && s.threads[t].pc in {POpen, PWrite}
    requires QueueInv(c, s) && Next(c, s, t) == Some(s') && i < |c.requests|
    ensures |s'.place| == |c.requests|
    ensures Called(s', i) <==> Called(s, i) || (s.threads[t].pc == PRpc && s.threads[t].req == i)
    ensures s.threads[t].pc == PRpc && s.threads[t].req == i ==> !Called(s, i)
  {
  }

  /** What a step does to the calls made so far. */
  lemma StepCalls(c: Config, s: State, t: nat, s': State, i: nat)
    requires QueueInv(c, s) && Next(c, s, t) == Some(s') && i < |c.requests|
    ensures |s'.place| == |c.requests|
    ensures Called(s', i) <==> Called(s, i) || (s.threads[t].pc == PRpc && s.threads[t].req == i)
    ensures s.threads[t].pc == PRpc && s.threads[t].req == i ==> !Called(s, i)
  {
    if Monitor(s.threads[t].pc) {
      CallsMonitor(c, s, t, s', i);
    } else if s.threads[t].pc == PPop {
      CallsPop(c, s, t, s', i);
    } else if s.threads[t].pc in {PRead, PRpc} {
      CallsCompute(c, s, t, s', i);
    } else {
      CallsOutput(c, s, t, s', i);
    }
  }

  /** In every run each request is handed to the remote call at most once, and exactly when it should be. */
  lemma {:induction false} CalledOnce(c: Config, ss: seq<State>, ts: seq<nat>, n: nat)
    requires IsRun(c, ss, ts) && n <= |ts|
    ensures |ss[n].place| == |c.requests| && Once(Calls(ss, ts, n))
    ensures forall i :: 0 <= i < |c.requests| ==> (i in Calls(ss, ts, n) <==> Called(ss[n], i))
    ensures forall i :: i in Calls(ss, ts, n) ==> i < |c.requests|
  {
    if n > 0 {
      CalledOnce(c, ss, ts, n - 1);
      RunQueueInv(c, ss, ts, n - 1);
      var s, t := ss[n - 1], ts[n - 1];
      var before, now := Calls(ss, ts, n - 1), Calls(ss, ts, n);
      forall i | 0 <= i < |c.requests|
        ensures |ss[n].place| == |c.requests| && (i in now <==> Called(ss[n], i))
      {
        StepCalls(c, s, t, ss[n], i);
      }
      if s.threads[t].pc == PRpc {
        var i := s.threads[t].req;
        StepCalls(c, s, t, ss[n], i);
        assert i !in before && now == before + [i];
      } else {
        assert now == before;
      }
    }
  }

  // ---------- the same files as the sequential program ----------

  /** What the output of a request holds in the end. */
  function OutputOf(c: Config, r: Request): Option<string> {
    if c.writable(r.output) && r.input in c.files then Some(c.minify(c.files[r.input])) else Find(c.files, r.output)
  }

  /** The files once the first `k` requests are processed and no other is touched. */
  ghost predicate FilesAfter(c: Config, files: map<string, string>, k: nat) {
    && (forall i :: 0 <= i < |c.requests| ==>
      Find(files, c.requests[i].output) ==
        if i < k then OutputOf(c, c.requests[i]) else Find(c.files, c.requests[i].output))
    && (forall f :: (forall i :: 0 <= i < |c.requests| ==> c.requests[i].output != f) ==>
      Find(files, f) == Find(c.files, f))
  }

  /** The sequential program from its k-th request on. */
  lemma {:induction false} SequentialFiles(c: Config, files: map<string, string>, k: nat)
    requires Independent(c) && k <= |c.requests| && FilesAfter(c, files, k)
    ensures var m := Sequential(c, files, c.requests[k..]);
      if forall i :: k <= i < |c.requests| ==> c.requests[i].input in c.files
      then m.Some? && FilesAfter(c, m.value, |c.requests|) else m == None
    decreases |c.requests| - k
  {
    if k < |c.requests| {
      var r := c.requests[k];
      assert Find(files, r.input) == Find(c.files, r.input);
      assert c.requests[k..][1..] == c.requests[k + 1..];
      if r.input in files {
        var files' := if c.writable(r.output) then files[r.output := c.minify(files[r.input])] else files;
        AfterOne(c, files, k);
        SequentialFiles(c, files', k + 1);
      }
    }
  }

  lemma AfterOne(c: Config, files: map<string, string>, k: nat)
    requires Independent(c) && k < |c.requests| && FilesAfter(c, files, k) && c.requests[k].input in files
    ensures var r := c.requests[k];
      FilesAfter(c, if c.writable(r.output) then files[r.output := c.minify(files[r.input])] else files, k + 1)
  {
    var r := c.requests[k];
    assert Find(files, r.input) == Find(c.files, r.input);
  }

  lemma SameFiles(c: Config, m: map<string, string>, m': map<string, string>, k: nat)
    requires FilesAfter(c, m, k) && FilesAfter(c, m', k)
    ensures m == m'
  {
    forall f: string
      ensures Find(m, f) == Find(m', f)
    {
      if i :| 0 <= i < |c.requests| && c.requests[i].output == f {
        assert Find(m, c.requests[i].output) == Find(m', c.requests[i].output);
      }
    }
    assert forall f :: f in m <==> Find(m, f).Some?;
    assert forall f :: f in m' <==> Find(m', f).Some?;
    assert forall f :: f in m ==> m[f] == Find(m, f).value && m'[f] == Find(m', f).value;
  }

  /** A finished state whose queue is empty. */
  lemma DrainedFiles(c: Config, s: State)
    requires Inv(c, s) && AllDone(s) && s.queue == []
    ensures FilesAfter(c, s.files, |c.requests|) && InputsPresent(c)
  {
    forall i | 0 <= i < |c.requests|
      ensures s.place[i] == Processed
    {
      assert s.place[i] != Queued;
    }
    forall i | 0 <= i < |c.requests|
      ensures Find(s.files, c.requests[i].output) == OutputOf(c, c.requests[i])
    {
      assert Find(s.files, c.requests[i].output) == OutputNow(c, s, i);
    }
  }

  lemma RunStep(c: Config, ss: seq<State>, ts: seq<nat>, i: nat)
    requires IsRun(c, ss, ts) && i < |ts|
    ensures Next(c, ss[i], ts[i]) == Some(ss[i + 1])
  {
  }

  lemma NoWorkers(c: Config, ss: seq<State>, ts: seq<nat>)
    requires c.nthreads == 0 && IsRun(c, ss, ts)
    ensures |ts| == 0
  {
    if |ts| > 0 {
      assert Next(c, Init(c), ts[0]) == None;
      RunStep(c, ss, ts, 0);
    }
  }

  /**
   * Every run of any number of workers that cannot go on has drained the queue and left exactly the files the
   * sequential program leaves, if and only if there is a worker or nothing to do and every input exists.
   */
  lemma ConcurrentIsSequential(c: Config, ss: seq<State>, ts: seq<nat>)
    requires Independent(c) && IsRun(c, ss, ts) && AtRest(c, ss[|ts|])
    ensures var s := ss[|ts|];
      !s.exited && s.queue == [] && Sequential(c, c.files, c.requests) == Some(s.files)
      <==> InputsPresent(c) && (c.nthreads > 0 || c.requests == [])
  {
    var s := ss[|ts|];
    RunInv(c, ss, ts, |ts|);
    RestIsDone(c, s);
    assert c.requests[0..] == c.requests;
    SequentialFiles(c, c.files, 0);
    if c.nthreads == 0 {
      NoWorkers(c, ss, ts);
    } else if !s.exited {
      assert s.threads[0].pc == PDone;
    }
    if !s.exited && s.queue == [] {
      DrainedFiles(c, s);
      if InputsPresent(c) {
        SameFiles(c, s.files, Sequential(c, c.files, c.requests).value, |c.requests|);
      }
    }
  }

  /** The requests of a workload of whole pairs, as `LoadRequests` queues them. */
  ghost predicate Pairs(words: seq<string>, requests: seq<Request>) {
    && |words| == 2 * |requests|
    && forall k :: 0 <= k < |requests| ==> requests[k].input == words[2 * k] && requests[k].output == words[2 * k + 1]
  }

  /**
   From the workload file to the disk: whatever the schedule, once nobody can go on, the file named by each
   second word holds what the remote call makes of the file named by the word before it, as far as it can be
   written, and no other file has changed.
   */
  lemma WorkloadIsMinified(c: Config, words: seq<string>, ss: seq<State>, ts: seq<nat>)
    requires Pairs(words, c.requests) && Independent(c) && InputsPresent(c) && c.nthreads > 0
    requires IsRun(c, ss, ts) && AtRest(c, ss[|ts|])
    ensures var files := ss[|ts|].files;
      && (forall k :: 0 <= k < |c.requests| && c.writable(words[2 * k + 1]) ==>
        && words[2 * k] in c.files && words[2 * k + 1] in files
        && files[words[2 * k + 1]] == c.minify(c.files[words[2 * k]]))
      && (forall f :: (forall k :: 0 <= k < |c.requests| && c.writable(words[2 * k + 1]) ==> words[2 * k + 1] != f) ==>
        (f in files <==> f in c.files) && (f in files ==> files[f] == c.files[f]))
  {
    ConcurrentIsSequential(c, ss, ts);
    RunInv(c, ss, ts, |ts|);
    RestIsDone(c, ss[|ts|]);
    DrainedFiles(c, ss[|ts|]);
    var files := ss[|ts|].files;
    forall k | 0 <= k < |c.requests| && c.writable(words[2 * k + 1])
      ensures words[2 * k] in c.files && words[2 * k + 1] in files
      ensures files[words[2 * k + 1]] == c.minify(c.files[words[2 * k]])
    {
      assert Find(files, c.requests[k].output) == OutputOf(c, c.requests[k]);
    }
    forall f | forall k :: 0 <= k < |c.requests| && c.writable(words[2 * k + 1]) ==> words[2 * k + 1] != f
      ensures (f in files <==> f in c.files) && (f in files ==> files[f] == c.files[f])
    {
      OthersUnchanged(c, files, f);
    }
  }

  lemma OthersUnchanged(c: Config, files: map<string, string>, f: string)
    requires FilesAfter(c, files, |c.requests|)
    requires forall k :: 0 <= k < |c.requests| && c.writable(c.requests[k].output) ==> c.requests[k].output != f
    ensures Find(files, f) == Find(c.files, f)
  {
    if k :| 0 <= k < |c.requests| && c.requests[k].output == f {
      assert Find(files, c.requests[k].output) == OutputOf(c, c.requests[k]);
    }
  }
}
