// A request ends unanswered only for a cause: its client is gone, its reply found its own client's
// queue full, its worker raised, or nobody was there to process it.

module Losses {
  import opened Common
  import opened Messages
  import opened Registry
  import opened Network
  import opened Requests
  import opened Protocol
  import opened Invariants
  import opened Locking
  import opened Accounts
  import opened Runs
  import opened Entries
  import Handlers

  // ----- a client that is gone stays gone -----

  // No connection or session that was known before comes back.
  ghost predicate NoneReturns(s: State, s': State) {
    forall h :: h in s.history ==>
      && (h in s'.queues ==> h in s.queues)
      && (h in s'.reg.sessions ==> h in s.reg.sessions)
  }

  lemma TransmittedKeys(s: State, h: Handle, f: Frame, a: Option<nat>)
    ensures Transmitted(s, Sent(s.queues, h, f), f, a).queues.Keys == s.queues.Keys
  {
  }

  lemma InlineKeys(cfg: Config, s: State, h: Handle, ticket: nat, m: Message)
    ensures var s' := Inlined(cfg, s, h, ticket, m); s'.queues.Keys == s.queues.Keys && s'.reg == s.reg
  {
    hide LosesRequest, Transmitted, MakeFrame;
    var f := MakeFrame(cfg.sizeOf, Inline, m);
    InlineShares(cfg, s, h, ticket, m);
    NotedOnly(s, h, ticket, ClientGone);
    if h in s.queues { TransmittedKeys(Settled(s, h, ticket), h, f, Some(ticket)); }
  }

  lemma DispatchReturnsNone(cfg: Config, s: State)
    requires s.io.Holding?
    ensures NoneReturns(s, Dispatching(cfg, s))
  {
    hide Triaged, Inlined, LosesRequest;
    match Triaged(s.io.payload, s.io.clientId, cfg.hasProcessor, s.active)
    case Reject(m) => InlineKeys(cfg, s, s.io.h, s.io.ticket, m);
    case Heartbeat(m) => InlineKeys(cfg, s, s.io.h, s.io.ticket, m);
    case Overloaded(m) => InlineKeys(cfg, s, s.io.h, s.io.ticket, m);
    case Unhandled => NotedOnly(s, s.io.h, s.io.ticket, NoProcessor);
    case Admit(_) =>
  }

  lemma IoReturnsNone(cfg: Config, s: State, step: IoStep)
    requires Inv(s) && IoEnabled(s, step)
    ensures NoneReturns(s, ExecIo(cfg, s, step))
  {
    hide Inv, Dispatching, Released;
    match step
    case Open(h, id) => FreshHandle(s, h, id);
    case Dispatch => DispatchReturnsNone(cfg, s);
    case _ =>
  }

  lemma SubscribeReturnsNone(s: State, w: nat)
    requires Inv(s) && w in s.workers
    ensures NoneReturns(s, Subscribing(s, w))
  {
    hide Inv, SubscriptionHandled, Subscribing, Ending, StrField, Applied, Acquired, Released, RequestedEvents, OpAsked;
    InHandFacts(s, w);
    hide Identities, WellFormed, StandsFor;
    SubscriptionAnswerFacts(s, s.workers[w].origin, s.workers[w].request);
    SubscribingParts(s, w);
  }

  lemma WorkReturnsNone(cfg: Config, s: State, w: nat, step: WorkStep)
    requires Inv(s) && WorkEnabled(s, w, step)
    ensures NoneReturns(s, ExecWork(cfg, s, w, step))
  {
    hide Inv, Subscribing, Ending, Handlers.Answered, IsSubscription, ReplyFrame, Handshaken, Holds, StrField;
    match step
    case ManageSubscription => SubscribeReturnsNone(s, w);
    case Handle(sdk) => EndingShares(s, w, Silent);
    case Raise => EndingShares(if Holds(s.lock, w) then s.(lock := Free) else s, w, Raised);
    case Route => EndingShares(s, w, ToEverybody); EndingShares(s, w, ClientGone);
    case Leave =>
  }

  lemma SendReturnsNone(s: State, step: SendStep)
    requires SendEnabled(s, step)
    ensures NoneReturns(s, ExecSend(s, step))
  {
    hide Ending, IsFull, Transmitted;
    if step.Act? {
      var c := s.lock.next.value;
      ActingShares(s);
      TransmittedKeys(s, c.h, s.lock.f, None);
      if s.lock.owner.Replier? && s.lock.owner.w in s.workers {
        var worker := s.workers[s.lock.owner.w];
        EndingShares(s, s.lock.owner.w, Dropped);
        EndingShares(s, s.lock.owner.w, ClientGone);
        TransmittedKeys(Settled(s, worker.origin, worker.ticket), c.h, s.lock.f, Some(worker.ticket));
      }
    }
  }

  lemma StepReturnsNone(cfg: Config, s: State, step: Step)
    requires Inv(s) && Enabled(s, step)
    ensures NoneReturns(s, Exec(cfg, s, step))
  {
    hide Inv, ExecIo, ExecWork, ExecPush, ExecSend, ExecNet, ExecStop;
    hide IoEnabled, WorkEnabled, PushEnabled, SendEnabled, NetEnabled, StopEnabled;
    match step
    case Io(io) => IoReturnsNone(cfg, s, io);
    case Work(w, work) => WorkReturnsNone(cfg, s, w, work);
    case Main(push) => PushShares(cfg, s, push);
    case Deliver(send) => SendReturnsNone(s, send);
    case Net(net) => NetShares(s, net);
    case Stop(stop) => StopShares(s, stop);
  }

  // Every request lost because its client was gone: its connection or its session is.
  ghost predicate GoneForGood(s: State) {
    forall h, i :: h in s.history && 0 <= i < |s.history[h]| && LostToGone(s.history[h][i]) ==>
      h !in s.queues || h !in s.reg.sessions
  }

  predicate LostToGone(e: Entry) { e.Lost? && e.why.ClientGone? }

  lemma GoneStep(cfg: Config, s: State, step: Step)
    requires Inv(s) && Orderly(s) && GoneForGood(s) && Enabled(s, step)
    ensures GoneForGood(Exec(cfg, s, step))
  {
    hide Inv, Orderly, Exec, Enabled, ActsOn, RepliesTo, MakesChange, Triages, Raises;
    StepReturnsNone(cfg, s, step);
    StepWrites(cfg, s, step);
    var s' := Exec(cfg, s, step);
    forall h, i | h in s'.history && 0 <= i < |s'.history[h]| && LostToGone(s'.history[h][i])
      ensures h !in s'.queues || h !in s'.reg.sessions
    {
      assert h in s.history;
      if i < |s.history[h]| {
        assert LostToGone(s.history[h][i]);
      } else {
        assert Explains(cfg, s, step, h, s'.history[h][i]);
      }
    }
  }

  lemma {:induction false} GoneAt(cfg: Config, steps: seq<Step>, n: nat)
    requires CanRun(cfg, INITIAL, steps) && n <= |steps|
    ensures GoneForGood(At(cfg, INITIAL, steps, n))
    decreases n
  {
    hide Inv, Orderly, Exec, Enabled, CanRun;
    if n == 0 {
    } else {
      GoneAt(cfg, steps, n - 1);
      InitialReachable(cfg);
      ReachableAt(cfg, INITIAL, steps, n - 1);
      InvReachable(cfg, At(cfg, INITIAL, steps, n - 1));
      AtStep(cfg, INITIAL, steps, n - 1);
      GoneStep(cfg, At(cfg, INITIAL, steps, n - 1), steps[n - 1]);
    }
  }

  lemma GoneReachable(cfg: Config, s: State)
    requires Reachable(cfg, s)
    ensures GoneForGood(s)
  {
    hide GoneForGood, Exec, Enabled;
    var steps :| CanRun(cfg, INITIAL, steps) && After(cfg, INITIAL, steps) == s;
    GoneAt(cfg, steps, |steps|);
    AtEnd(cfg, INITIAL, steps);
  }

  // ----- what was checked -----

  // There is no such connection, or the frame fits beside everything that waits on it.
  predicate HasRoom(qs: Queues, h: Handle, size: nat) {
    h in qs ==> Bytes(qs[h]) + size <= 32 * 1024 * 1024
  }

  // The check before the send now due was made at step `i`, by the same holder for the same frame,
  // and said what the queue was like then.
  ghost predicate CheckedAt(cfg: Config, s: State, steps: seq<Step>, i: nat, now: State)
    requires CanRun(cfg, s, steps)
  {
    && i < |steps| && now.lock.Held? && now.lock.next.Some?
    && var before, c := At(cfg, s, steps, i), now.lock.next.value;
    && steps[i] == Step.Deliver(Check(c.h)) && before.lock.Held?
    && before.lock.owner == now.lock.owner && before.lock.f == now.lock.f
    && (c.room <==> HasRoom(before.queues, c.h, now.lock.f.size))
    && (forall k :: RepliesTo(now, k) ==> RepliesTo(before, k))
  }

  predicate Due(s: State) { s.lock.Held? && s.lock.next.Some? }

  // Whoever takes the mutex has checked nothing yet.
  lemma NothingDue(cfg: Config, s: State, step: Step)
    requires s.lock.Free? && Enabled(s, step)
    ensures !Due(Exec(cfg, s, step))
  {
    hide ExecIo, ExecWork, ExecPush, ExecNet, ExecStop;
    hide IoEnabled, WorkEnabled, PushEnabled, NetEnabled, StopEnabled;
    match step
    case Io(io) => IoHoldsNothing(cfg, s, io);
    case Work(w, work) => WorkShares(cfg, s, w, work);
    case Main(push) => PushShares(cfg, s, push);
    case Net(net) => NetShares(s, net);
    case Stop(stop) => StopShares(s, stop);
    case Deliver(_) =>
  }

  lemma IoHoldsNothing(cfg: Config, s: State, step: IoStep)
    requires IoEnabled(s, step)
    ensures ExecIo(cfg, s, step).lock == s.lock
  {
    hide Dispatching, Opening, Receiving, Closed;
    match step
    case Dispatch => DispatchExcluded(cfg, s);
    case Open(h, id) => TakesNone(s, h, id);
    case Receive(h, payload) => ReceivesNone(s, h, payload);
    case _ =>
  }

  // One step on: the check that was made is still the one the send relies on.
  lemma CheckKept(cfg: Config, s: State, step: Step)
    requires Inv(s) && Orderly(s) && Enabled(s, step) && Due(Exec(cfg, s, step)) && !(step.Deliver? && step.send.Check?)
    ensures Due(s) && Exec(cfg, s, step).lock == s.lock
    ensures forall k :: RepliesTo(Exec(cfg, s, step), k) ==> RepliesTo(s, k)
  {
    hide Inv, ExecIo, ExecWork, ExecPush, ExecNet, ExecStop, Reserved, GuardedFrame, Listens;
    hide IoEnabled, WorkEnabled, PushEnabled, NetEnabled, StopEnabled;
    if s.lock.Free? { NothingDue(cfg, s, step); }
    MutexExcludes(cfg, s, step);
    StepGoesOn(cfg, s, step);
  }

  lemma {:induction false} CheckRemembered(cfg: Config, s: State, steps: seq<Step>, n: nat)
    requires Reachable(cfg, s) && !Due(s) && CanRun(cfg, s, steps) && n <= |steps| && Due(At(cfg, s, steps, n))
    ensures exists i: nat :: i < n && CheckedAt(cfg, s, steps, i, At(cfg, s, steps, n))
    decreases n
  {
    hide Orderly, Exec, Enabled, CanRun, RepliesTo, Reachable, HasRoom, CheckedAt, Due;
    if n == 0 {
    } else {
      var before, step := At(cfg, s, steps, n - 1), steps[n - 1];
      AtStep(cfg, s, steps, n - 1);
      ReachableAt(cfg, s, steps, n - 1);
      InvReachable(cfg, before);
      if step.Deliver? && step.send.Check? {
        CheckedNow(cfg, s, steps, n - 1, step.send.h);
      } else {
        CheckKept(cfg, before, step);
        CheckRemembered(cfg, s, steps, n - 1);
        var i: nat :| i < n - 1 && CheckedAt(cfg, s, steps, i, before);
        StillChecked(cfg, s, steps, i, before, At(cfg, s, steps, n));
      }
    }
  }

  lemma StillChecked(cfg: Config, s: State, steps: seq<Step>, i: nat, before: State, now: State)
    requires CanRun(cfg, s, steps) && CheckedAt(cfg, s, steps, i, before) && now.lock == before.lock
    requires forall k :: RepliesTo(now, k) ==> RepliesTo(before, k)
    ensures CheckedAt(cfg, s, steps, i, now)
  {
    hide Exec, Enabled, CanRun, RepliesTo, HasRoom;
  }

  lemma CheckedNow(cfg: Config, s: State, steps: seq<Step>, n: nat, h: Handle)
    requires CanRun(cfg, s, steps) && n < |steps| && steps[n] == Step.Deliver(Check(h))
    requires Enabled(At(cfg, s, steps, n), steps[n])
    ensures CheckedAt(cfg, s, steps, n, Exec(cfg, At(cfg, s, steps, n), steps[n]))
  {
    hide Exec, Enabled, CanRun, RepliesTo, HasRoom;
    JustChecked(cfg, At(cfg, s, steps, n), h);
  }

  lemma JustChecked(cfg: Config, s: State, h: Handle)
    requires Enabled(s, Step.Deliver(Check(h)))
    ensures var s' := Exec(cfg, s, Step.Deliver(Check(h)));
            && s.lock.Held? && s'.lock.Held? && s'.lock.owner == s.lock.owner && s'.lock.f == s.lock.f
            && s'.lock.next == Some(Checked(h, HasRoom(s.queues, h, s.lock.f.size)))
            && forall k :: RepliesTo(s', k) ==> RepliesTo(s, k)
  {
    hide Bytes;
  }

  // ----- every loss has its cause -----

  // What happened at step `i` is why request `k` of connection `h` ended unanswered.
  ghost predicate CauseAt(cfg: Config, steps: seq<Step>, i: nat, h: Handle, k: nat, why: Outcome)
    requires CanRun(cfg, INITIAL, steps) && i < |steps|
  {
    var s := At(cfg, INITIAL, steps, i);
    match why
    case ClientGone => h !in s.queues || h !in s.reg.sessions
    case Dropped =>
      && steps[i] == Step.Deliver(Check(h)) && RepliesTo(s, k)
      && h in s.queues && Bytes(s.queues[h]) + s.lock.f.size > 32 * 1024 * 1024
    case Raised => Raises(s, steps[i], k)
    case NoProcessor => Triages(s, steps[i], k) && !cfg.hasProcessor
    case _ => false
  }

  ghost predicate Caused(cfg: Config, steps: seq<Step>, h: Handle, k: nat, why: Outcome)
    requires CanRun(cfg, INITIAL, steps)
  {
    exists i: nat :: i < |steps| && CauseAt(cfg, steps, i, h, k, why)
  }

  // The drop follows a check, and the check has found the queue full.
  lemma DropCaused(cfg: Config, steps: seq<Step>, n: nat, h: Handle, k: nat)
    requires CanRun(cfg, INITIAL, steps) && n < |steps|
    requires LossExplained(cfg, At(cfg, INITIAL, steps, n), steps[n], h, k, Dropped)
    ensures Caused(cfg, steps, h, k, Dropped)
  {
    hide Exec, Enabled, CanRun, RepliesTo, Reachable, Bytes;
    InitialReachable(cfg);
    CheckRemembered(cfg, INITIAL, steps, n);
    var i: nat :| i < n && CheckedAt(cfg, INITIAL, steps, i, At(cfg, INITIAL, steps, n));
    assert CauseAt(cfg, steps, i, h, k, Dropped);
  }

  // In every run: a request lost because its client was gone had a client that was gone and has
  // not come back; one dropped had its own reply checked against its own client's queue, and the
  // queue with it was over 32 MB; one that raised had its own worker raise.
  lemma LossesHaveCauses(cfg: Config, steps: seq<Step>, h: Handle, j: nat)
    requires CanRun(cfg, INITIAL, steps)
    requires var s := After(cfg, INITIAL, steps); h in s.history && j < |s.history[h]| && s.history[h][j].Lost?
    ensures var s := After(cfg, INITIAL, steps);
            var e := s.history[h][j];
            && Caused(cfg, steps, h, e.ticket, e.why)
            && (e.why.ClientGone? ==> h !in s.queues || h !in s.reg.sessions)
  {
    hide Exec, Enabled, CanRun, RepliesTo, Raises, Triages, ActsOn;
    var s := After(cfg, INITIAL, steps);
    var e := s.history[h][j];
    AtEnd(cfg, INITIAL, steps);
    GoneAt(cfg, steps, |steps|);
    assert e.why.ClientGone? ==> LostToGone(e);
    EntryExplained(cfg, steps, |steps|, h, j);
    var n: nat :| n < |steps| && Explains(cfg, At(cfg, INITIAL, steps, n), steps[n], h, e);
    if e.why.Dropped? {
      DropCaused(cfg, steps, n, h, e.ticket);
    } else {
      assert CauseAt(cfg, steps, n, h, e.ticket, e.why);
    }
  }
}
