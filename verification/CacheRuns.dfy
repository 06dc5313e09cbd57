/** Runs as sequences of steps, and how to put them together. */
module CacheRuns {
  import opened Wrappers
  import opened CacheModel

  /** Takes the steps one after the other; None if one is not enabled. */
  function Exec(c: Config, s: State, ts: seq<Step>): Option<State>
    decreases |ts|
  {
    if ts == [] then Some(s)
    else match Exec(c, s, ts[..|ts| - 1])
      case None => None
      case Some(m) => Next(c, m, ts[|ts| - 1])
  }

  ghost predicate Reach(c: Config, s: State, s': State) {
    exists ts: seq<Step> :: Exec(c, s, ts) == Some(s')
  }

  lemma ReachSelf(c: Config, s: State)
    ensures Reach(c, s, s)
  {
    assert Exec(c, s, []) == Some(s);
  }

  lemma ReachNext(c: Config, s: State, m: State, t: Step, s': State)
    requires Reach(c, s, m) && Next(c, m, t) == Some(s')
    ensures Reach(c, s, s')
  {
    var ts :| Exec(c, s, ts) == Some(m);
    assert (ts + [t])[..|ts|] == ts;
    assert Exec(c, s, ts + [t]) == Some(s');
  }

  lemma {:induction false} ExecJoin(c: Config, s: State, ts: seq<Step>, m: State, us: seq<Step>)
    requires Exec(c, s, ts) == Some(m)
    ensures Exec(c, s, ts + us) == Exec(c, m, us)
    decreases |us|
  {
    if us == [] {
      assert ts + us == ts;
    } else {
      var n := |us| - 1;
      ExecJoin(c, s, ts, m, us[..n]);
      assert (ts + us)[..|ts + us| - 1] == ts + us[..n];
    }
  }

  /** A step and the steps after it. */
  lemma ExecCons(c: Config, s: State, t: Step, m: State, us: seq<Step>)
    requires Next(c, s, t) == Some(m)
    ensures Exec(c, s, [t] + us) == Exec(c, m, us)
  {
    assert [t][..0] == [];
    assert Exec(c, s, [t]) == Some(m);
    ExecJoin(c, s, [t], m, us);
  }

  lemma ReachJoin(c: Config, s: State, m: State, s': State)
    requires Reach(c, s, m) && Reach(c, m, s')
    ensures Reach(c, s, s')
  {
    var ts :| Exec(c, s, ts) == Some(m);
    var us :| Exec(c, m, us) == Some(s');
    ExecJoin(c, s, ts, m, us);
  }

  /** The states along steps that can all be taken. */
  lemma {:induction false} ExecIsRun(c: Config, ts: seq<Step>, s: State) returns (ss: seq<State>)
    requires Exec(c, Init(c), ts) == Some(s)
    ensures IsRun(c, ss, ts) && ss[|ts|] == s
    decreases |ts|
  {
    if ts == [] {
      ss := [s];
    } else {
      var n := |ts| - 1;
      var m := Exec(c, Init(c), ts[..n]).value;
      var front := ExecIsRun(c, ts[..n], m);
      ss := front + [s];
      forall i | 0 <= i < |ts|
        ensures Next(c, ss[i], ts[i]) == Some(ss[i + 1])
      {
        if i < n {
          assert Next(c, front[i], ts[..n][i]) == Some(front[i + 1]);
        }
      }
    }
  }

  lemma {:induction false} RunIsExec(c: Config, ss: seq<State>, ts: seq<Step>, n: nat)
    requires IsRun(c, ss, ts) && n <= |ts|
    ensures Exec(c, Init(c), ts[..n]) == Some(ss[n])
  {
    if n > 0 {
      RunIsExec(c, ss, ts, n - 1);
      assert ts[..n][..n - 1] == ts[..n - 1];
    }
  }

  /** Every state of a run is reachable from the initial one. */
  lemma RunReaches(c: Config, ss: seq<State>, ts: seq<Step>, n: nat)
    requires IsRun(c, ss, ts) && n < |ss|
    ensures Reach(c, Init(c), ss[n])
  {
    RunIsExec(c, ss, ts, n);
  }
}
