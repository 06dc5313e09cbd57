/**
 The multithreaded download client: each worker pops a fixed quota of requests from one queue and names its
 output file under the queue's lock.  One step is one statement of `worker_main` that touches shared state.
 */
module Download {
  import opened Wrappers
  import opened Decimal
  import opened Sequences
  import opened Steque

  // ---------- output names ----------

  /** `localPath` */
  function LocalPath(path: string, counter: nat): string
    requires path != ""
  {
    path[1..] + "-" + Padded(counter)
  }

  /** The path without its first character, a dash, and the counter in six digits, or in as many as it needs. */
  lemma LocalPathIs(path: string, counter: nat)
    requires path != ""
    ensures exists digits ::
      && LocalPath(path, counter) == path[1..] + "-" + digits
      && AllDigits(digits) && Read(digits) == counter
      && (if |Print(counter)| <= 6 then |digits| == 6 else digits == Print(counter))
  {
    var digits := Padded(counter);
    ReadPadded(counter);
    assert LocalPath(path, counter) == path[1..] + "-" + digits;
  }

  /** A string of digits behind a dash is cut off at the last dash. */
  lemma LastDash(a: string, d: string, b: string, e: string)
    requires a + "-" + d == b + "-" + e && AllDigits(d) && AllDigits(e)
    ensures a == b && d == e
  {
    var s := a + "-" + d;
    assert forall k :: |a| < k < |s| ==> s[k] == d[k - |a| - 1];
    assert forall k :: |b| < k < |s| ==> s[k] == e[k - |b| - 1];
    assert s[|a|] == '-' && s[|b|] == '-';
    assert |a| == |b|;
    assert a == s[..|a|] && b == s[..|b|] && d == s[|a| + 1..] && e == s[|b| + 1..];
  }

  /** The counter can be read back behind the last dash, whatever the paths contain. */
  lemma LocalPathsDiffer(p: string, m: nat, q: string, n: nat)
    requires p != "" && q != "" && LocalPath(p, m) == LocalPath(q, n)
    ensures m == n && p[1..] == q[1..]
  {
    LastDash(p[1..], Padded(m), q[1..], Padded(n));
    ReadPadded(m);
    ReadPadded(n);
  }

  // ---------- the code under the lock ----------

  const MAX_PATH := 256

  /** The queue's requests as `workload_get_path` hands them out. */
  function Requests(workload: nat -> string, n: nat): (paths: seq<string>)
    ensures |paths| == n
  {
    seq(n, j requires 0 <= j => workload(j))
  }

  lemma RequestsGrow(workload: nat -> string, n: nat)
    ensures Requests(workload, n + 1) == Requests(workload, n) + [workload(n)]
  {
  }

  /** The enqueue loop of `main`; false: a path was too long and the process exits. */
  method EnqueueRequests(workload: nat -> string, nrequests: nat, nthreads: nat)
      returns (workq: Steque<string>, ok: bool)
    ensures fresh(workq) && workq.Valid() && fresh(workq.spine)
    ensures ok <==> forall j :: 0 <= j < nrequests * nthreads ==> |workload(j)| <= 256
    ensures ok ==> |workq.Contents()| == nrequests * nthreads
    ensures ok ==> forall j :: 0 <= j < |workq.Contents()| ==> workq.Contents()[j] == workload(j)
  {
    workq := new Steque();
    ok := true;
    var i, total := 0, nrequests * nthreads;
    while i < total
      invariant 0 <= i <= total && fresh(workq) && workq.Valid() && fresh(workq.spine)
      invariant workq.Contents() == Requests(workload, i)
      invariant forall j :: 0 <= j < i ==> |workload(j)| <= MAX_PATH
    {
      var path := workload(i);
      if |path| > MAX_PATH {
        return workq, false;
      }
      workq.Enqueue(path);
      RequestsGrow(workload, i);
      i := i + 1;
    }
  }

  class Client {
    const workq: Steque<string>
    /** The static counter of `localPath`. */
    var counter: nat

    constructor (q: Steque<string>)
      ensures workq == q && counter == 0
    {
      workq, counter := q, 0;
    }

    /** A worker's round from lock to unlock: the request and the name of its output; None: the queue is empty. */
    method Take() returns (d: Option<(string, string)>)
      requires workq.Valid() && forall p :: p in workq.Contents() ==> p != ""
      modifies this`counter, workq
      ensures workq.Valid()
      ensures old(workq.Contents()) == [] ==> d == None && workq.Contents() == [] && counter == old(counter)
      ensures old(workq.Contents()) != [] ==>
        var path := old(workq.Contents())[0];
        && path != "" && d == Some((path, LocalPath(path, old(counter))))
        && workq.Contents() == old(workq.Contents())[1..] && counter == old(counter) + 1
    {
      var empty := workq.IsEmpty();
      if empty {
        return None;
      }
      ghost var before := workq.Contents();
      assert before[0] in before;
      var path := workq.Pop();
      var name := LocalPath(path.value, counter);
      counter := counter + 1;
      return Some((path.value, name));
    }
  }

  // ---------- the transition system ----------

  /** `created` of the `nthreads` workers could be created; `paths` holds the queue's requests. */
  datatype Config = Config(nthreads: nat, created: nat, nrequests: nat, paths: seq<string>)

  datatype Pc = PFor | PLock | PTest | PPop | PName | PCount | PUnlock | PPerform | PBreak | PDone

  datatype Thread = Thread(pc: Pc, i: nat, req: nat)

  /** `names` lists the names given so far.  Auxiliary: no step's guard reads it. */
  datatype State = State(
    queue: seq<nat>, lock: Option<nat>, counter: nat, threads: seq<Thread>, exited: bool, names: seq<string>)

  ghost predicate ConfigOk(c: Config) {
    && c.created <= c.nthreads && |c.paths| == c.nrequests * c.nthreads
    && forall j :: 0 <= j < |c.paths| ==> c.paths[j] != ""
  }

  function Init(c: Config): State {
    State(seq(|c.paths|, j => j), None, 0, seq(c.created, t => Thread(PFor, 0, 0)), false, [])
  }

  function Put(s: State, t: nat, y: Thread): State
    requires t < |s.threads|
  {
    s.(threads := s.threads[t := y])
  }

  /** A step of worker `t`; None when it cannot move. */
  function Next(c: Config, s: State, t: nat): Option<State> {
    if s.exited || t >= |s.threads| then None
    else
      var y := s.threads[t];
      match y.pc
      case PFor => Some(Put(s, t, y.(pc := if y.i < c.nrequests then PLock else PDone)))
      case PLock => if s.lock.Some? then None else Some(Put(s, t, y.(pc := PTest)).(lock := Some(t)))
      case PTest => Some(Put(s, t, y.(pc := if s.queue == [] then PBreak else PPop)))
      case PPop =>
        if s.queue == [] then Some(s.(exited := true))
        else Some(Put(s, t, y.(pc := PName, req := s.queue[0])).(queue := s.queue[1..]))
      case PName =>
        if y.req >= |c.paths| || c.paths[y.req] == "" then None
        else Some(Put(s, t, y.(pc := PCount)).(names := s.names + [LocalPath(c.paths[y.req], s.counter)]))
      case PCount => Some(Put(s, t, y.(pc := PUnlock)).(counter := s.counter + 1))
      case PUnlock => Some(Put(s, t, y.(pc := PPerform)).(lock := None))
      case PPerform => Some(Put(s, t, y.(pc := PFor, i := y.i + 1)))
      case PBreak => Some(Put(s, t, y.(pc := PDone)).(lock := None))
      case PDone => None
  }

  ghost predicate IsRun(c: Config, ss: seq<State>, ts: seq<nat>) {
    && |ss| == |ts| + 1 && ss[0] == Init(c)
    && forall i :: 0 <= i < |ts| ==> Next(c, ss[i], ts[i]) == Some(ss[i + 1])
  }

  // ---------- counting pops ----------

  predicate InLock(pc: Pc) { pc.PTest? || pc.PPop? || pc.PName? || pc.PCount? || pc.PUnlock? || pc.PBreak? }

  /** The pops a worker has made: one for each finished round, one more in the second half of a round. */
  function Pops(y: Thread): nat {
    y.i + if y.pc.PName? || y.pc.PCount? || y.pc.PUnlock? || y.pc.PPerform? then 1 else 0
  }

  function TotalPops(threads: seq<Thread>): nat {
    if threads == [] then 0 else Pops(threads[0]) + TotalPops(threads[1..])
  }

  lemma {:induction false} TotalPut(threads: seq<Thread>, t: nat, y: Thread)
    requires t < |threads|
    ensures TotalPops(threads[t := y]) == TotalPops(threads) - Pops(threads[t]) + Pops(y)
  {
    var threads' := threads[t := y];
    if t > 0 {
      TotalPut(threads[1..], t - 1, y);
      assert threads'[1..] == threads[1..][t - 1 := y];
    } else {
      assert threads'[1..] == threads[1..];
    }
  }

  lemma TimesNext(m: nat, n: nat)
    ensures m * (n + 1) == m * n + m
  {
  }

  /** Workers within their quota make at most their number times the quota of pops. */
  lemma {:induction false} TotalAtMost(threads: seq<Thread>, m: nat)
    requires forall t :: 0 <= t < |threads| ==> Pops(threads[t]) <= m
    ensures TotalPops(threads) <= m * |threads|
  {
    if threads != [] {
      TotalAtMost(threads[1..], m);
      TimesNext(m, |threads| - 1);
    }
  }

  lemma {:induction false} TotalBelow(threads: seq<Thread>, m: nat, t: nat)
    requires forall u :: 0 <= u < |threads| ==> Pops(threads[u]) <= m
    requires t < |threads| && Pops(threads[t]) < m
    ensures TotalPops(threads) < m * |threads|
  {
    TimesNext(m, |threads| - 1);
    if t == 0 {
      TotalAtMost(threads[1..], m);
    } else {
      TotalBelow(threads[1..], m, t - 1);
    }
  }

  lemma {:induction false} TotalExactly(threads: seq<Thread>, m: nat)
    requires forall t :: 0 <= t < |threads| ==> Pops(threads[t]) == m
    ensures TotalPops(threads) == m * |threads|
  {
    if threads != [] {
      TotalExactly(threads[1..], m);
      TimesNext(m, |threads| - 1);
    }
  }

  // ---------- the invariant ----------

  /** How many requests have left the queue. */
  function Popped(c: Config, s: State): int { |c.paths| - |s.queue| }

  /** The queue is a tail of the requests, and what left it was popped by some worker. */
  ghost predicate CountInv(c: Config, s: State) {
    && |s.threads| == c.created
    && Popped(c, s) == TotalPops(s.threads)
    && forall j :: 0 <= j < |s.queue| ==> s.queue[j] == Popped(c, s) + j
  }

  /** A round is only under way while quota is left; nobody leaves early. */
  ghost predicate ThreadOk(c: Config, s: State, y: Thread) {
    && y.i <= c.nrequests && y.pc != PBreak
    && (y.pc == PDone ==> y.i == c.nrequests)
    && (y.pc != PDone && y.pc != PFor ==> y.i < c.nrequests)
    && (y.pc == PPop ==> s.queue != [])
  }

  ghost predicate QuotaInv(c: Config, s: State) {
    !s.exited && forall t :: 0 <= t < |s.threads| ==> ThreadOk(c, s, s.threads[t])
  }

  ghost predicate LockInv(s: State) {
    && (forall t :: 0 <= t < |s.threads| ==> (InLock(s.threads[t].pc) <==> s.lock == Some(t)))
    && (s.lock.Some? ==> s.lock.value < |s.threads|)
  }

  ghost predicate NamesOk(c: Config, names: seq<string>) {
    && |names| <= |c.paths|
    && forall j :: 0 <= j < |names| ==> c.paths[j] != "" && names[j] == LocalPath(c.paths[j], j)
  }

  /** The j-th request popped gets the number j, under whatever interleaving. */
  ghost predicate NameInv(c: Config, s: State) {
    var pc := if s.lock.Some? && s.lock.value < |s.threads| then s.threads[s.lock.value].pc else PFor;
    && |s.names| == Popped(c, s) - (if pc.PName? then 1 else 0)
    && s.counter == Popped(c, s) - (if pc.PName? || pc.PCount? then 1 else 0)
    && NamesOk(c, s.names)
    && (pc.PName? ==> s.threads[s.lock.value].req == Popped(c, s) - 1)
  }

  ghost predicate Inv(c: Config, s: State) {
    CountInv(c, s) && QuotaInv(c, s) && LockInv(s) && NameInv(c, s)
  }

  lemma {:induction false} NoPops(threads: seq<Thread>)
    requires forall t :: 0 <= t < |threads| ==> Pops(threads[t]) == 0
    ensures TotalPops(threads) == 0
  {
    if threads != [] {
      NoPops(threads[1..]);
    }
  }

  lemma InitInv(c: Config)
    ensures Inv(c, Init(c))
  {
    NoPops(Init(c).threads);
  }

  lemma TimesMonotone(m: nat, a: nat, b: nat)
    requires a <= b
    ensures m * a <= m * b
  {
  }

  /** A worker with quota left finds a request. */
  lemma QueueHolds(c: Config, s: State, t: nat)
    requires ConfigOk(c) && CountInv(c, s) && QuotaInv(c, s) && t < |s.threads| && Pops(s.threads[t]) < c.nrequests
    ensures s.queue != []
  {
    assert forall u :: 0 <= u < |s.threads| ==> ThreadOk(c, s, s.threads[u]);
    TotalBelow(s.threads, c.nrequests, t);
    TimesMonotone(c.nrequests, c.created, c.nthreads);
  }

  lemma StepShape(c: Config, s: State, t: nat, s': State)
    requires Next(c, s, t) == Some(s') && QuotaInv(c, s)
    ensures t < |s.threads| == |s'.threads| && s'.threads == s.threads[t := s'.threads[t]] && !s'.exited
    ensures if s.threads[t].pc == PPop
      then s.queue != [] && s'.queue == s.queue[1..] && Pops(s'.threads[t]) == Pops(s.threads[t]) + 1
      else s'.queue == s.queue && Pops(s'.threads[t]) == Pops(s.threads[t])
  {
  }

  lemma CountKept(c: Config, s: State, t: nat, s': State)
    requires Inv(c, s) && Next(c, s, t) == Some(s')
    ensures CountInv(c, s')
  {
    StepShape(c, s, t, s');
    TotalPut(s.threads, t, s'.threads[t]);
  }

  lemma QuotaKept(c: Config, s: State, t: nat, s': State)
    requires ConfigOk(c) && Inv(c, s) && Next(c, s, t) == Some(s')
    ensures QuotaInv(c, s')
  {
    StepShape(c, s, t, s');
    if s.threads[t].pc == PTest {
      QueueHolds(c, s, t);
    }
    OwnQuota(c, s, t, s');
    forall u | 0 <= u < |s'.threads| && u != t
      ensures ThreadOk(c, s', s'.threads[u])
    {
      assert s'.threads[u] == s.threads[u] && ThreadOk(c, s, s.threads[u]);
      if s.threads[t].pc == PPop {
        assert s.lock == Some(t);
      }
    }
  }

  lemma OwnQuota(c: Config, s: State, t: nat, s': State)
    requires Inv(c, s) && Next(c, s, t) == Some(s') && t < |s.threads|
    requires s.threads[t].pc == PTest ==> s.queue != []
    ensures t < |s'.threads| && ThreadOk(c, s', s'.threads[t])
  {
    assert ThreadOk(c, s, s.threads[t]);
  }

  lemma LockKept(c: Config, s: State, t: nat, s': State)
    requires Inv(c, s) && Next(c, s, t) == Some(s')
    ensures LockInv(s')
  {
  }

  lemma NameOther(c: Config, s: State, t: nat, s': State)
    requires Inv(c, s) && Next(c, s, t) == Some(s') && t < |s.threads|
    requires s.threads[t].pc in {PFor, PLock, PTest, PUnlock, PPerform}
    ensures NameInv(c, s')
  {
    StepShape(c, s, t, s');
  }

  lemma NamePop(c: Config, s: State, t: nat, s': State)
    requires ConfigOk(c) && Inv(c, s) && Next(c, s, t) == Some(s') && t < |s.threads| && s.threads[t].pc == PPop
    ensures NameInv(c, s')
  {
    assert s.lock == Some(t) && s'.lock == s.lock;
  }

  lemma NamesGrow(c: Config, names: seq<string>)
    requires NamesOk(c, names) && |names| < |c.paths| && c.paths[|names|] != ""
    ensures NamesOk(c, names + [LocalPath(c.paths[|names|], |names|)])
  {
  }

  lemma NameGiven(c: Config, s: State, t: nat, s': State)
    requires ConfigOk(c) && Inv(c, s) && Next(c, s, t) == Some(s') && t < |s.threads| && s.threads[t].pc == PName
    ensures NameInv(c, s')
  {
    assert s.lock == Some(t) && s'.lock == s.lock;
    var n := |s.names|;
    assert s.counter == n == s.threads[t].req;
    NamesGrow(c, s.names);
    assert s'.names == s.names + [LocalPath(c.paths[n], n)] && s'.threads[t].pc == PCount;
  }

  lemma NameCount(c: Config, s: State, t: nat, s': State)
    requires ConfigOk(c) && Inv(c, s) && Next(c, s, t) == Some(s') && t < |s.threads| && s.threads[t].pc == PCount
    ensures NameInv(c, s')
  {
    assert s.lock == Some(t) && s'.lock == s.lock;
  }

  lemma NameKept(c: Config, s: State, t: nat, s': State)
    requires ConfigOk(c) && Inv(c, s) && Next(c, s, t) == Some(s')
    ensures NameInv(c, s')
  {
    assert ThreadOk(c, s, s.threads[t]);
    if s.threads[t].pc == PPop {
      NamePop(c, s, t, s');
    } else if s.threads[t].pc == PName {
      NameGiven(c, s, t, s');
    } else if s.threads[t].pc == PCount {
      NameCount(c, s, t, s');
    } else {
      NameOther(c, s, t, s');
    }
  }

  lemma {:induction false} RunInv(c: Config, ss: seq<State>, ts: seq<nat>, i: nat)
    requires ConfigOk(c) && IsRun(c, ss, ts) && i < |ss|
    ensures Inv(c, ss[i])
  {
    if i == 0 {
      InitInv(c);
    } else {
      RunInv(c, ss, ts, i - 1);
      var s, t, s' := ss[i - 1], ts[i - 1], ss[i];
      CountKept(c, s, t, s');
      QuotaKept(c, s, t, s');
      LockKept(c, s, t, s');
      NameKept(c, s, t, s');
    }
  }

  // ---------- every run ends, with exact quotas and distinct names ----------

  ghost predicate AtRest(c: Config, s: State) {
    forall t :: 0 <= t < c.created ==> Next(c, s, t) == None
  }

  lemma CanMove(c: Config, s: State, t: nat)
    requires ConfigOk(c) && Inv(c, s) && t < |s.threads| && s.threads[t].pc != PDone
    requires s.lock == None || s.lock == Some(t)
    ensures Next(c, s, t).Some?
  {
    assert ThreadOk(c, s, s.threads[t]);
  }

  lemma RestIsDone(c: Config, s: State)
    requires ConfigOk(c) && Inv(c, s) && AtRest(c, s)
    ensures forall t :: 0 <= t < |s.threads| ==> s.threads[t].pc == PDone
  {
    if s.lock.Some? {
      CanMove(c, s, s.lock.value);
    } else {
      forall t | 0 <= t < |s.threads|
        ensures s.threads[t].pc == PDone
      {
        if s.threads[t].pc != PDone {
          CanMove(c, s, t);
        }
      }
    }
  }

  lemma WhatRemains(m: nat, k: nat, n: nat)
    requires k <= n
    ensures m * n - m * k == (n - k) * m && m * k == k * m
  {
  }

  /**
   * In every interleaving no worker meets an empty queue, so none leaves early or underflows; once all have
   * stopped each has made exactly its quota of pops and exactly the quotas of the missing workers remain.
   */
  lemma Quotas(c: Config, ss: seq<State>, ts: seq<nat>, i: nat)
    requires ConfigOk(c) && IsRun(c, ss, ts) && i < |ss|
    ensures !ss[i].exited && forall t :: 0 <= t < |ss[i].threads| ==>
      ss[i].threads[t].pc != PBreak && Pops(ss[i].threads[t]) <= c.nrequests
    ensures AtRest(c, ss[i]) ==>
      && (forall t :: 0 <= t < |ss[i].threads| ==> Pops(ss[i].threads[t]) == c.nrequests)
      && |ss[i].queue| == (c.nthreads - c.created) * c.nrequests
      && |ss[i].names| == c.created * c.nrequests
  {
    RunInv(c, ss, ts, i);
    var s := ss[i];
    assert forall t :: 0 <= t < |s.threads| ==> ThreadOk(c, s, s.threads[t]);
    if AtRest(c, s) {
      RestIsDone(c, s);
      TotalExactly(s.threads, c.nrequests);
      WhatRemains(c.nrequests, c.created, c.nthreads);
      assert s.lock == None;
    }
  }

  /** All output names given in any interleaving differ, and the j-th request always gets the j-th name. */
  lemma NamesAreUnique(c: Config, ss: seq<State>, ts: seq<nat>, i: nat)
    requires ConfigOk(c) && IsRun(c, ss, ts) && i < |ss|
    ensures NoDup(ss[i].names) && |ss[i].names| <= |c.paths|
    ensures forall j :: 0 <= j < |ss[i].names| ==> c.paths[j] != "" && ss[i].names[j] == LocalPath(c.paths[j], j)
  {
    RunInv(c, ss, ts, i);
    var names := ss[i].names;
    forall j, k | 0 <= j < k < |names|
      ensures names[j] != names[k]
    {
      if names[j] == names[k] {
        LocalPathsDiffer(c.paths[j], j, c.paths[k], k);
      }
    }
  }

  /** Statements a worker has left. */
  function Left(c: Config, y: Thread): nat {
    (if y.i <= c.nrequests then 9 * (c.nrequests - y.i) else 0) +
    match y.pc
    case PFor => 8
    case PLock => 7
    case PTest => 6
    case PPop => 5
    case PName => 4
    case PCount => 3
    case PUnlock => 2
    case PPerform => 1
    case PBreak => 1
    case PDone => 0
  }

  function TotalLeft(c: Config, threads: seq<Thread>): nat {
    if threads == [] then 0 else Left(c, threads[0]) + TotalLeft(c, threads[1..])
  }

  lemma {:induction false} LeftPut(c: Config, threads: seq<Thread>, t: nat, y: Thread)
    requires t < |threads|
    ensures TotalLeft(c, threads[t := y]) == TotalLeft(c, threads) - Left(c, threads[t]) + Left(c, y)
  {
    var threads' := threads[t := y];
    if t > 0 {
      LeftPut(c, threads[1..], t - 1, y);
      assert threads'[1..] == threads[1..][t - 1 := y];
    } else {
      assert threads'[1..] == threads[1..];
    }
  }

  lemma {:induction false} LeftAtStart(c: Config, threads: seq<Thread>)
    requires forall t :: 0 <= t < |threads| ==> threads[t] == Thread(PFor, 0, 0)
    ensures TotalLeft(c, threads) == |threads| * (9 * c.nrequests + 8)
  {
    if threads != [] {
      LeftAtStart(c, threads[1..]);
    }
  }

  lemma StepDecreases(c: Config, s: State, t: nat, s': State)
    requires ConfigOk(c) && Inv(c, s) && Next(c, s, t) == Some(s')
    ensures TotalLeft(c, s'.threads) < TotalLeft(c, s.threads)
  {
    StepShape(c, s, t, s');
    assert ThreadOk(c, s, s.threads[t]);
    LeftPut(c, s.threads, t, s'.threads[t]);
  }

  lemma {:induction false} StepsLeft(c: Config, ss: seq<State>, ts: seq<nat>, i: nat)
    requires ConfigOk(c) && IsRun(c, ss, ts) && i < |ss|
    ensures i + TotalLeft(c, ss[i].threads) <= TotalLeft(c, Init(c).threads)
  {
    if i > 0 {
      StepsLeft(c, ss, ts, i - 1);
      RunInv(c, ss, ts, i - 1);
      StepDecreases(c, ss[i - 1], ts[i - 1], ss[i]);
    }
  }

  /** No schedule goes on for ever. */
  lemma RunLength(c: Config, ss: seq<State>, ts: seq<nat>)
    requires ConfigOk(c) && IsRun(c, ss, ts)
    ensures |ts| <= c.created * (9 * c.nrequests + 8)
  {
    StepsLeft(c, ss, ts, |ts|);
    LeftAtStart(c, Init(c).threads);
  }
}
