// A run step by step: the states it goes through, and one run after another.

module Runs {
  import opened Protocol
  import opened Invariants
  import opened Locking

  // The state after the first `n` steps.
  ghost function At(cfg: Config, s: State, steps: seq<Step>, n: nat): State
    requires CanRun(cfg, s, steps) && n <= |steps|
    decreases |steps|
  {
    if n == 0 then s else At(cfg, Exec(cfg, s, steps[0]), steps[1..], n - 1)
  }

  lemma {:induction false} AtStep(cfg: Config, s: State, steps: seq<Step>, n: nat)
    requires CanRun(cfg, s, steps) && n < |steps|
    ensures Enabled(At(cfg, s, steps, n), steps[n])
    ensures At(cfg, s, steps, n + 1) == Exec(cfg, At(cfg, s, steps, n), steps[n])
    decreases |steps|
  {
    hide Exec, Enabled;
    if n == 0 {
    } else {
      AtStep(cfg, Exec(cfg, s, steps[0]), steps[1..], n - 1);
    }
  }

  lemma {:induction false} AtEnd(cfg: Config, s: State, steps: seq<Step>)
    requires CanRun(cfg, s, steps)
    ensures At(cfg, s, steps, |steps|) == After(cfg, s, steps)
    decreases |steps|
  {
    hide Exec, Enabled;
    if steps == [] {
    } else {
      AtEnd(cfg, Exec(cfg, s, steps[0]), steps[1..]);
    }
  }

  lemma {:induction false} RunOn(cfg: Config, s: State, steps: seq<Step>, more: seq<Step>)
    requires CanRun(cfg, s, steps) && CanRun(cfg, After(cfg, s, steps), more)
    ensures CanRun(cfg, s, steps + more)
    ensures After(cfg, s, steps + more) == After(cfg, After(cfg, s, steps), more)
    decreases |steps|
  {
    hide Exec, Enabled;
    if steps == [] {
      assert steps + more == more;
    } else {
      RunOn(cfg, Exec(cfg, s, steps[0]), steps[1..], more);
      assert (steps + more)[0] == steps[0] && (steps + more)[1..] == steps[1..] + more;
    }
  }

  lemma NoSteps(cfg: Config, s: State)
    ensures CanRun(cfg, s, []) && After(cfg, s, []) == s
  {
    hide Exec, Enabled;
  }

  lemma OneStep(cfg: Config, s: State, step: Step, rest: seq<Step>)
    requires Enabled(s, step) && CanRun(cfg, Exec(cfg, s, step), rest)
    ensures CanRun(cfg, s, [step] + rest) && After(cfg, s, [step] + rest) == After(cfg, Exec(cfg, s, step), rest)
  {
    hide Exec, Enabled;
    assert ([step] + rest)[1..] == rest;
  }

  // The states a run goes through, one more than it has steps.
  ghost predicate Trace(cfg: Config, states: seq<State>, steps: seq<Step>) {
    && |states| == |steps| + 1
    && forall i :: 0 <= i < |steps| ==> StepTo(cfg, states[i], steps[i], states[i + 1])
  }

  predicate StepTo(cfg: Config, s: State, step: Step, s': State) {
    Enabled(s, step) && Exec(cfg, s, step) == s'
  }

  lemma {:induction false} TraceRuns(cfg: Config, states: seq<State>, steps: seq<Step>)
    requires Trace(cfg, states, steps)
    ensures CanRun(cfg, states[0], steps) && After(cfg, states[0], steps) == states[|steps|]
    decreases |steps|
  {
    hide Exec, Enabled;
    if steps == [] {
    } else {
      assert StepTo(cfg, states[0], steps[0], states[1]);
      forall i | 0 <= i < |steps[1..]|
        ensures StepTo(cfg, states[1..][i], steps[1..][i], states[1..][i + 1])
      {
        assert StepTo(cfg, states[i + 1], steps[i + 1], states[i + 2]);
      }
      TraceRuns(cfg, states[1..], steps[1..]);
    }
  }

  lemma InitialReachable(cfg: Config)
    ensures Reachable(cfg, INITIAL)
  {
    assert CanRun(cfg, INITIAL, []) && After(cfg, INITIAL, []) == INITIAL;
  }

  lemma ReachableOn(cfg: Config, s: State, steps: seq<Step>)
    requires Reachable(cfg, s) && CanRun(cfg, s, steps)
    ensures Reachable(cfg, After(cfg, s, steps))
  {
    hide CanRun, After;
    var before :| CanRun(cfg, INITIAL, before) && After(cfg, INITIAL, before) == s;
    RunOn(cfg, INITIAL, before, steps);
  }

  lemma ReachableStep(cfg: Config, s: State, step: Step)
    requires Reachable(cfg, s) && Enabled(s, step)
    ensures Reachable(cfg, Exec(cfg, s, step))
  {
    hide Exec, Enabled, Reachable;
    assert CanRun(cfg, Exec(cfg, s, step), [step][1..]);
    ReachableOn(cfg, s, [step]);
  }

  lemma {:induction false} ReachableAt(cfg: Config, s: State, steps: seq<Step>, n: nat)
    requires Reachable(cfg, s) && CanRun(cfg, s, steps) && n <= |steps|
    ensures Reachable(cfg, At(cfg, s, steps, n))
    decreases n
  {
    hide Reachable, Exec, Enabled;
    if n == 0 {
    } else {
      ReachableAt(cfg, s, steps, n - 1);
      AtStep(cfg, s, steps, n - 1);
      ReachableStep(cfg, At(cfg, s, steps, n - 1), steps[n - 1]);
    }
  }
}
