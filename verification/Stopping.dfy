// Stop closes every connection it has found, whatever the other threads do meanwhile.

module Stopping {
  import opened Common
  import opened Messages
  import opened Registry
  import opened Requests
  import opened Protocol
  import opened Invariants
  import opened Locking
  import opened Accounts
  import opened Runs
  import opened Entries
  import opened Losses
  import opened Safety

  // Only the thread that calls Stop moves on with it.
  lemma OnlyStopMoves(cfg: Config, s: State, step: Step)
    requires Enabled(s, step) && !step.Stop?
    ensures Exec(cfg, s, step).stop == s.stop
  {
    hide ExecIo, ExecWork, ExecPush, ExecNet, Acting, IoEnabled, WorkEnabled, PushEnabled, NetEnabled;
    match step
    case Io(io) => IoMovesNoStop(cfg, s, io);
    case Work(w, work) => WorkShares(cfg, s, w, work);
    case Main(push) => PushShares(cfg, s, push);
    case Deliver(send) => if send.Act? { ActingShares(s); }
    case Net(net) => NetShares(s, net);
  }

  lemma IoMovesNoStop(cfg: Config, s: State, step: IoStep)
    requires IoEnabled(s, step)
    ensures ExecIo(cfg, s, step).stop == s.stop
  {
    hide Dispatching, Closed;
    if step.Dispatch? { DispatchMovesNoStop(cfg, s); }
  }

  lemma DispatchMovesNoStop(cfg: Config, s: State)
    requires s.io.Holding?
    ensures Dispatching(cfg, s).stop == s.stop
  {
    hide Triaged, AnsweredInline, LosesRequest;
    match Triaged(s.io.payload, s.io.clientId, cfg.hasProcessor, s.active)
    case Reject(m) => InlineShares(cfg, s, s.io.h, s.io.ticket, m);
    case Heartbeat(m) => InlineShares(cfg, s, s.io.h, s.io.ticket, m);
    case Overloaded(m) => InlineShares(cfg, s, s.io.h, s.io.ticket, m);
    case Unhandled => NotedOnly(s, s.io.h, s.io.ticket, NoProcessor);
    case Admit(_) =>
  }

  // Of the handles found, those still to close are listed, and the others are closed.
  ghost predicate ClosingAll(found: set<Handle>, s: State) {
    s.stop.Closing? && forall h :: h in found ==> h in s.history && (h in s.stop.left || h !in s.queues)
  }

  lemma ClosingStep(cfg: Config, found: set<Handle>, s: State, step: Step)
    requires Inv(s) && Enabled(s, step) && ClosingAll(found, s) && step != Step.Stop(Halt)
    requires forall h :: h in s.history ==> h in Exec(cfg, s, step).history
    ensures ClosingAll(found, Exec(cfg, s, step))
  {
    hide Inv, ExecIo, ExecWork, ExecPush, ExecSend, ExecNet;
    hide IoEnabled, WorkEnabled, PushEnabled, SendEnabled, NetEnabled;
    StepReturnsNone(cfg, s, step);
    if !step.Stop? { OnlyStopMoves(cfg, s, step); }
  }

  lemma {:induction false} ClosingAt(cfg: Config, found: set<Handle>, s: State, steps: seq<Step>, n: nat)
    requires Reachable(cfg, s) && ClosingAll(found, s) && CanRun(cfg, s, steps) && n <= |steps|
    requires forall i :: 0 <= i < |steps| ==> steps[i] != Step.Stop(Halt)
    ensures ClosingAll(found, At(cfg, s, steps, n))
    decreases n
  {
    hide Reachable, Inv, Orderly, ClosingAll, Exec, Enabled, CanRun;
    if n == 0 {
    } else {
      var now := At(cfg, s, steps, n - 1);
      ClosingAt(cfg, found, s, steps, n - 1);
      AtStep(cfg, s, steps, n - 1);
      ReachableAt(cfg, s, steps, n - 1);
      InvReachable(cfg, now);
      StepWrites(cfg, now, steps[n - 1]);
      ClosingStep(cfg, found, now, steps[n - 1]);
    }
  }

  // When Stop is done with the handles it collected, none of the sessions it found has a connection
  // left, whatever the other threads have done meanwhile.
  lemma StopClosesEveryone(cfg: Config, s: State, steps: seq<Step>)
    requires Reachable(cfg, s) && StopEnabled(s, Collect)
    requires CanRun(cfg, ExecStop(s, Collect), steps)
    requires forall i :: 0 <= i < |steps| ==> steps[i] != Step.Stop(Halt)
    requires StopEnabled(After(cfg, ExecStop(s, Collect), steps), Halt)
    ensures forall h :: h in s.reg.sessions ==> h !in After(cfg, ExecStop(s, Collect), steps).queues
    ensures var s' := After(cfg, ExecStop(s, Collect), steps); ExecStop(s', Halt) == s'.(stop := Joining)
  {
    hide Reachable, Exec, Enabled, CanRun;
    var s0 := ExecStop(s, Collect);
    CollectStarts(cfg, s);
    KnownSessions(cfg, s);
    ClosingAt(cfg, s.reg.sessions.Keys, s0, steps, |steps|);
    AtEnd(cfg, s0, steps);
  }

  lemma CollectStarts(cfg: Config, s: State)
    requires Reachable(cfg, s) && StopEnabled(s, Collect)
    ensures Reachable(cfg, ExecStop(s, Collect))
  {
    hide Reachable;
    ReachableStep(cfg, s, Step.Stop(Collect));
  }

  lemma KnownSessions(cfg: Config, s: State)
    requires Reachable(cfg, s)
    ensures forall h :: h in s.reg.sessions ==> h in s.history
  {
    hide Consistent, RequestsInHand, WorkersCounted, StopOrdered, Histories, Streams, Orderly;
    InvReachable(cfg, s);
  }

  // Stopping a running server gets to its join only over such a collection.
  lemma {:induction false} StopCollects(cfg: Config, s: State, steps: seq<Step>, n: nat)
    requires Reachable(cfg, s) && s.running && CanRun(cfg, s, steps) && steps != [] && steps[0] == Step.Stop(Begin)
    requires 0 < n <= |steps| && forall i :: 0 < i < n ==> steps[i] != Step.Stop(Collect)
    ensures At(cfg, s, steps, n).stop == Collecting
    decreases n
  {
    hide Reachable, CanRun, Exec, Enabled;
    AtStep(cfg, s, steps, n - 1);
    if n == 1 {
      BeginCollects(cfg, s);
    } else {
      StopCollects(cfg, s, steps, n - 1);
      CollectingStays(cfg, At(cfg, s, steps, n - 1), steps[n - 1]);
    }
  }

  lemma BeginCollects(cfg: Config, s: State)
    requires s.running && Enabled(s, Step.Stop(Begin))
    ensures Exec(cfg, s, Step.Stop(Begin)) == s.(running := false, stop := Collecting)
  {
  }

  lemma CollectingStays(cfg: Config, s: State, step: Step)
    requires s.stop == Collecting && Enabled(s, step) && step != Step.Stop(Collect)
    ensures Exec(cfg, s, step).stop == Collecting
  {
    hide ExecIo, ExecWork, ExecPush, ExecSend, ExecNet, IoEnabled, WorkEnabled, PushEnabled, SendEnabled, NetEnabled;
    if !step.Stop? { OnlyStopMoves(cfg, s, step); }
  }

  // A stopped server can be started again, with nothing left of before.
  lemma RestartServes(cfg: Config, s: State)
    requires Reachable(cfg, s) && StopEnabled(s, Restart)
    ensures var s' := ExecStop(s, Restart);
            && s'.running && s'.io.Idle? && s'.stop.Up? && s'.reg == EMPTY && s'.workers == map[] && s'.active == 0
  {
    hide Reachable;
    TeardownIsAlone(cfg, s);
  }
}
