// A request changes its client's subscriptions at most once.

module Changes {
  import opened Common
  import opened Messages
  import opened Registry
  import opened Network
  import opened Requests
  import opened Protocol
  import opened History
  import opened Invariants
  import opened Locking
  import opened Accounts
  import opened Runs
  import opened Entries
  import Handlers

  function ReadyTickets(workers: map<nat, Worker>): set<nat> {
    set w | w in workers && workers[w].pc.Ready? :: workers[w].ticket
  }

  // Requests nobody has begun to process.
  function Unstarted(s: State): set<nat> { IoTicket(s.io) + ReadyTickets(s.workers) }

  ghost predicate MakersDiffer(entries: seq<Entry>) {
    forall i, j :: 0 <= i < j < |entries| && entries[i].Changed? && entries[j].Changed? ==>
      entries[i].maker != entries[j].maker
  }

  ghost predicate NotMadeBy(entries: seq<Entry>, tickets: set<nat>) {
    forall i :: 0 <= i < |entries| && entries[i].Changed? ==> entries[i].maker !in tickets
  }

  ghost predicate OneChange(s: State) {
    forall h :: h in s.history ==> MakersDiffer(s.history[h]) && NotMadeBy(s.history[h], Unstarted(s))
  }

  ghost predicate NoChangeBy(s: State, k: nat) {
    forall h :: h in s.history ==> NotMadeBy(s.history[h], {k})
  }

  // Worker `w` makes its change, which is that of request `k`.
  predicate MakesFor(s: State, step: Step, k: nat) {
    step.Work? && step.work.ManageSubscription? && MakesChange(s, step.w) && s.workers[step.w].ticket == k
  }

  lemma NoChangeKept(cfg: Config, s: State, step: Step, k: nat)
    requires Inv(s) && Orderly(s) && Enabled(s, step) && NoChangeBy(s, k) && !MakesFor(s, step, k)
    ensures NoChangeBy(Exec(cfg, s, step), k)
  {
    hide Inv, Orderly, Exec, Enabled, MakesChange, ActsOn, RepliesTo, Triages, Raises, LossExplained;
    StepWrites(cfg, s, step);
    var s' := Exec(cfg, s, step);
    forall h | h in s'.history
      ensures NotMadeBy(s'.history[h], {k})
    {
      if h in s.history && s'.history[h] != s.history[h] {
        var e :| Explains(cfg, s, step, h, e) && s'.history[h] == s.history[h] + [e];
        assert NotMadeBy(s.history[h], {k});
      }
    }
  }

  // ----- what is left to begin -----

  // Nobody makes a change for a request that is not the one it has just begun.
  lemma OthersMakeNone(s: State, step: Step, k: nat)
    requires k !in ReadyTickets(s.workers)
    ensures !MakesFor(s, step, k)
  {
    if step.Work? && step.w in s.workers && s.workers[step.w].pc.Ready? {
      assert s.workers[step.w].ticket in ReadyTickets(s.workers);
    }
  }

  lemma DispatchTicket(cfg: Config, s: State)
    requires s.io.Holding?
    ensures IoTicket(Dispatching(cfg, s).io) <= IoTicket(s.io)
  {
    hide Triaged, AnsweredInline, LosesRequest;
    match Triaged(s.io.payload, s.io.clientId, cfg.hasProcessor, s.active)
    case Admit(_) =>
    case _ => assert Dispatching(cfg, s).io.Idle?;
  }

  lemma IoTicketStep(cfg: Config, s: State, step: IoStep)
    requires IoEnabled(s, step)
    ensures IoTicket(ExecIo(cfg, s, step).io) <= IoTicket(s.io) + {|s.requests|}
    ensures step.Spawn? ==> IoTicket(ExecIo(cfg, s, step).io) == {}
  {
    hide Dispatching, Closed;
    if step.Dispatch? { DispatchTicket(cfg, s); }
  }

  lemma TicketStep(cfg: Config, s: State, step: Step)
    requires Enabled(s, step)
    ensures IoTicket(Exec(cfg, s, step).io) <= IoTicket(s.io) + if step.Io? then {|s.requests|} else {}
    ensures step.Io? && step.io.Spawn? ==> IoTicket(Exec(cfg, s, step).io) == {}
  {
    hide ExecIo, ExecWork, ExecPush, ExecSend, ExecNet, ExecStop, IoTicket;
    hide IoEnabled, WorkEnabled, PushEnabled, SendEnabled, NetEnabled, StopEnabled;
    match step
    case Io(io) => IoTicketStep(cfg, s, io);
    case Work(w, work) => WorkShares(cfg, s, w, work);
    case Main(push) => PushShares(cfg, s, push);
    case Deliver(send) => SendTicket(s, send);
    case Net(net) => NetShares(s, net);
    case Stop(stop) => StopTicket(s, stop);
  }

  lemma SendTicket(s: State, step: SendStep)
    requires SendEnabled(s, step)
    ensures ExecSend(s, step).io == s.io
  {
    hide Acting, IsFull;
    if step.Act? { ActingShares(s); }
  }

  lemma StopTicket(s: State, step: StopStep)
    requires StopEnabled(s, step)
    ensures IoTicket(ExecStop(s, step).io) <= IoTicket(s.io)
  {
  }

  // A request nobody has begun with was so before or is new, and nobody makes its change now.
  lemma UnstartedStep(cfg: Config, s: State, step: Step, k: nat)
    requires Inv(s) && OneHolder(s) && Enabled(s, step) && k in Unstarted(Exec(cfg, s, step))
    ensures k in Unstarted(s) || k == |s.requests|
    ensures !MakesFor(s, step, k)
  {
    hide Inv, Exec, Enabled, MakesChange, ListsEvents, OneHolder, MakesFor;
    var s' := Exec(cfg, s, step);
    TicketStep(cfg, s, step);
    StepGoesOn(cfg, s, step);
    if k in ReadyTickets(s'.workers) {
      var w :| w in s'.workers && s'.workers[w].pc.Ready? && s'.workers[w].ticket == k;
      if w in s.workers && s'.workers[w] == s.workers[w] && !(step.Work? && step.w == w) {
        assert k in ReadyTickets(s.workers);
        NotAnother(s, step, w);
      } else {
        NotOfTheIoThread(s, step, k);
      }
    } else {
      NotOfTheIoThread(s, step, k);
    }
  }

  // Whoever makes its change now does not make it for a request another worker has not begun with,
  lemma NotAnother(s: State, step: Step, w: nat)
    requires OneHolder(s) && w in s.workers && s.workers[w].pc.Ready? && !(step.Work? && step.w == w)
    ensures !MakesFor(s, step, s.workers[w].ticket)
  {
    hide SubscriptionHandled;
    assert OneWorkerEach(s.workers);
    if step.Work? && step.w in s.workers && s.workers[step.w].pc.Ready? {
      assert s.workers[step.w].ticket != s.workers[w].ticket;
    }
  }

  // or one the IO thread still has.
  lemma NotOfTheIoThread(s: State, step: Step, k: nat)
    requires OneHolder(s) && (step.Io? || k in IoTicket(s.io))
    ensures !MakesFor(s, step, k)
  {
    if k in IoTicket(s.io) {
      assert ReadyTickets(s.workers) <= Pending(s.workers);
      OthersMakeNone(s, step, k);
    }
  }

  // ----- every step -----

  lemma NotBegun(s: State, ticket: nat)
    requires OneChange(s) && ticket in Unstarted(s)
    ensures NoChangeBy(s, ticket)
  {
    hide Unstarted;
  }

  lemma MakersKnown(requests: seq<Request>, entries: seq<Entry>, h: Handle)
    requires AskedFor(requests, entries, h)
    ensures forall i :: 0 <= i < |entries| && entries[i].Changed? ==> entries[i].maker < |requests|
  {
    hide AsksFor;
  }

  lemma AllAsked(s: State)
    requires Inv(s)
    ensures forall h :: h in s.history ==> AskedFor(s.requests, s.history[h], h)
  {
    hide Identities, RequestsInHand, WorkersCounted, StopOrdered, Streams, AskedFor, Truthful;
  }

  // A request that is yet to be received has made no change.
  lemma NotReceived(s: State)
    requires Inv(s)
    ensures NoChangeBy(s, |s.requests|)
  {
    hide Inv, AskedFor;
    AllAsked(s);
    forall h | h in s.history
      ensures NotMadeBy(s.history[h], {|s.requests|})
    {
      MakersKnown(s.requests, s.history[h], h);
    }
  }

  lemma UnstartedMadeNone(cfg: Config, s: State, step: Step, k: nat)
    requires Inv(s) && Orderly(s) && OneHolder(s) && OneChange(s) && Enabled(s, step)
    requires k in Unstarted(Exec(cfg, s, step))
    ensures NoChangeBy(Exec(cfg, s, step), k)
  {
    hide Inv, Orderly, OneHolder, OneChange, Exec, Enabled, Unstarted, MakesFor, NoChangeBy;
    UnstartedStep(cfg, s, step, k);
    if k in Unstarted(s) { NotBegun(s, k); } else { NotReceived(s); }
    NoChangeKept(cfg, s, step, k);
  }

  // A change is made by a request that has made none.
  lemma MakersStillDiffer(cfg: Config, s: State, step: Step, h: Handle)
    requires Inv(s) && Orderly(s) && OneChange(s) && Enabled(s, step) && h in Exec(cfg, s, step).history
    ensures MakersDiffer(Exec(cfg, s, step).history[h])
  {
    hide Inv, Orderly, Exec, Enabled, ActsOn, RepliesTo, Triages, Raises, LossExplained, IoTicket;
    StepWrites(cfg, s, step);
    var after := Exec(cfg, s, step).history[h];
    if h in s.history && after != s.history[h] {
      var e :| Explains(cfg, s, step, h, e) && after == s.history[h] + [e];
      assert MakersDiffer(s.history[h]) && NotMadeBy(s.history[h], Unstarted(s));
      if e.Changed? { assert s.workers[step.w].ticket in ReadyTickets(s.workers); }
    }
  }

  lemma OneChangeStep(cfg: Config, s: State, step: Step)
    requires Inv(s) && Orderly(s) && OneHolder(s) && OneChange(s) && Enabled(s, step)
    ensures OneChange(Exec(cfg, s, step))
  {
    hide Inv, Orderly, OneHolder, Exec, Enabled, MakersDiffer, Unstarted;
    var s' := Exec(cfg, s, step);
    forall h | h in s'.history
      ensures MakersDiffer(s'.history[h]) && NotMadeBy(s'.history[h], Unstarted(s'))
    {
      MakersStillDiffer(cfg, s, step, h);
      forall k | k in Unstarted(s')
        ensures NotMadeBy(s'.history[h], {k})
      {
        UnstartedMadeNone(cfg, s, step, k);
      }
    }
  }

  lemma {:induction false} OneChangeAt(cfg: Config, steps: seq<Step>, n: nat)
    requires CanRun(cfg, INITIAL, steps) && n <= |steps|
    ensures OneChange(At(cfg, INITIAL, steps, n))
    decreases n
  {
    hide Reachable, Inv, Orderly, Exec, Enabled, CanRun, Ended, OnRecord, InHand, OneHolder;
    if n == 0 {
    } else {
      var s := At(cfg, INITIAL, steps, n - 1);
      hide OneChange;
      OneChangeAt(cfg, steps, n - 1);
      AtStep(cfg, INITIAL, steps, n - 1);
      InitialReachable(cfg);
      ReachableAt(cfg, INITIAL, steps, n - 1);
      InvReachable(cfg, s);
      AccountedReachable(cfg, s);
      OneChangeStep(cfg, s, steps[n - 1]);
    }
  }

  lemma OneChangeReachable(cfg: Config, s: State)
    requires Reachable(cfg, s)
    ensures OneChange(s)
  {
    hide OneChange, Exec, Enabled;
    var steps :| CanRun(cfg, INITIAL, steps) && After(cfg, INITIAL, steps) == s;
    OneChangeAt(cfg, steps, |steps|);
    AtEnd(cfg, INITIAL, steps);
  }

  // Two changes made by the same request are the same entry of the same history.
  lemma OneChangePerRequest(cfg: Config, s: State, g: Handle, h: Handle, i: nat, j: nat)
    requires Reachable(cfg, s) && g in s.history && h in s.history && i < |s.history[g]| && j < |s.history[h]|
    requires s.history[g][i].Changed? && s.history[h][j].Changed? && s.history[g][i].maker == s.history[h][j].maker
    ensures g == h && i == j
  {
    hide Reachable, Inv, Orderly, OneChange, AskedFor;
    OneChangeReachable(cfg, s);
    InvReachable(cfg, s);
    AllAsked(s);
    SameMaker(s, g, h, i, j);
  }

  lemma SameMaker(s: State, g: Handle, h: Handle, i: nat, j: nat)
    requires OneChange(s) && g in s.history && h in s.history && i < |s.history[g]| && j < |s.history[h]|
    requires AskedFor(s.requests, s.history[g], g) && AskedFor(s.requests, s.history[h], h)
    requires s.history[g][i].Changed? && s.history[h][j].Changed? && s.history[g][i].maker == s.history[h][j].maker
    ensures g == h && i == j
  {
    hide Unstarted, AsksFor;
    assert AskedBy(s.requests, s.history[g][i], g) && AskedBy(s.requests, s.history[h][j], h);
    assert MakersDiffer(s.history[g]);
  }
}
