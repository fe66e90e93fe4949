// A push reaches everybody it should, whatever happens between its sends.

module Pushes {
  import opened Common
  import opened Messages
  import opened Registry
  import opened Network
  import opened Protocol
  import opened History
  import opened Invariants
  import opened Locking
  import opened Accounts
  import opened Runs
  import opened Entries
  import opened Losses

  // Nothing but a send of the push loop queues a push.
  lemma NoOtherPush(cfg: Config, s: State, step: Step, h: Handle)
    requires Inv(s) && Orderly(s) && Enabled(s, step) && h in s.history
    requires !(ActsOn(s, step, h) && s.lock.owner.Callback?)
    ensures var s' := Exec(cfg, s, step);
            h in s'.history && PushesOf(s'.history[h]) == PushesOf(s.history[h])
  {
    hide Inv, Orderly, Exec, Enabled, ActsOn, RepliesTo, MakesChange, Triages, Raises, PushesOf;
    StepWrites(cfg, s, step);
    var after := Exec(cfg, s, step).history[h];
    if after != s.history[h] {
      var e :| Explains(cfg, s, step, h, e) && after == s.history[h] + [e];
      PushesAppend(s.history[h], e);
    }
  }

  // A send of the push loop queues it exactly on a live connection whose check found room.
  lemma ActPushes(cfg: Config, s: State, h: Handle)
    requires s.lock.Held? && s.lock.owner.Callback? && s.lock.next.Some? && s.lock.next.value.h == h && h in s.history
    ensures var s' := ExecSend(s, Act);
            && h in s'.history && s'.queues.Keys == s.queues.Keys
            && PushesOf(s'.history[h]) ==
               PushesOf(s.history[h]) + if s.lock.next.value.room && h in s.queues then [s.lock.f] else []
  {
    hide PushesOf;
    var c, f := s.lock.next.value, s.lock.f;
    PushesAppend(s.history[h], Enqueued(f, None));
    if c.room && h in s.queues {
      QueueEffect(s, h, f, None);
    } else if c.room {
      NothingTransmitted(s, f, None);
    }
    hide Transmitted;
  }

  ghost predicate Unreleased(steps: seq<Step>) {
    forall i :: 0 <= i < |steps| ==> steps[i] != Step.Deliver(Release)
  }

  // The frame's fate on `h` after a run from `s` to `now`: its size check found that it would take the
  // queue over the limit and it was not queued, or it was queued once, unless the connection had gone.
  ghost predicate FateAt(cfg: Config, s: State, steps: seq<Step>, i: nat, now: State, h: Handle)
    requires CanRun(cfg, s, steps) && s.lock.Held? && h in s.history && h in now.history
  {
    && i < |steps| && steps[i] == Step.Deliver(Check(h))
    && if HasRoom(At(cfg, s, steps, i).queues, h, s.lock.f.size) then
         || PushesOf(now.history[h]) == PushesOf(s.history[h]) + [s.lock.f]
         || (PushesOf(now.history[h]) == PushesOf(s.history[h]) && h !in now.queues)
       else
         PushesOf(now.history[h]) == PushesOf(s.history[h])
  }

  ghost predicate Settles(cfg: Config, s: State, steps: seq<Step>, now: State, h: Handle)
    requires CanRun(cfg, s, steps) && s.lock.Held? && h in s.history && h in now.history
  {
    exists i: nat :: FateAt(cfg, s, steps, i, now, h)
  }

  // How far the push loop begun in `s` has come with connection `h`.
  ghost predicate Progress(cfg: Config, s: State, steps: seq<Step>, now: State, h: Handle)
    requires CanRun(cfg, s, steps) && s.lock.Held? && h in s.history
  {
    && now.lock.Held? && now.lock.owner.Callback? && now.lock.f == s.lock.f && now.lock.left <= s.lock.left
    && (Due(now) ==> now.lock.next.value.h in s.lock.left - now.lock.left)
    && h in now.history
    && if h in s.lock.left && !Targeted(now.lock, h) then Settles(cfg, s, steps, now, h)
       else PushesOf(now.history[h]) == PushesOf(s.history[h])
  }

  lemma FateStays(cfg: Config, s: State, steps: seq<Step>, now: State, next: State, h: Handle)
    requires CanRun(cfg, s, steps) && s.lock.Held? && h in s.history && h in now.history && h in next.history
    requires PushesOf(next.history[h]) == PushesOf(now.history[h]) && (h in next.queues ==> h in now.queues)
    requires Settles(cfg, s, steps, now, h)
    ensures Settles(cfg, s, steps, next, h)
  {
    hide Exec, Enabled, CanRun, PushesOf, HasRoom;
    var i: nat :| FateAt(cfg, s, steps, i, now, h);
    assert FateAt(cfg, s, steps, i, next, h);
  }

  // Everybody else's steps change nothing about it.
  lemma ProgressOthers(cfg: Config, s: State, steps: seq<Step>, now: State, step: Step, h: Handle)
    requires CanRun(cfg, s, steps) && s.lock.Held? && h in s.history && Progress(cfg, s, steps, now, h)
    requires Inv(now) && Orderly(now) && Enabled(now, step) && !step.Deliver?
    ensures Progress(cfg, s, steps, Exec(cfg, now, step), h)
  {
    hide Inv, Orderly, Exec, Enabled, CanRun, PushesOf, Settles, Targeted;
    var next := Exec(cfg, now, step);
    MutexExcludes(cfg, now, step);
    NoOtherPush(cfg, now, step, h);
    StepReturnsNone(cfg, now, step);
    if Settles(cfg, s, steps, now, h) { FateStays(cfg, s, steps, now, next, h); }
  }

  lemma ProgressCheck(cfg: Config, s: State, steps: seq<Step>, now: State, g: Handle, h: Handle)
    requires CanRun(cfg, s, steps) && s.lock.Held? && h in s.history && Progress(cfg, s, steps, now, h)
    requires SendEnabled(now, Check(g))
    ensures Progress(cfg, s, steps, ExecSend(now, Check(g)), h)
  {
    hide Exec, Enabled, CanRun, PushesOf, Settles, IsFull, HasRoom;
    if Settles(cfg, s, steps, now, h) { FateStays(cfg, s, steps, now, ExecSend(now, Check(g)), h); }
  }

  // The send to `h` itself settles it, whatever its check at step `i` found.
  lemma ProgressSend(cfg: Config, s: State, steps: seq<Step>, now: State, i: nat, h: Handle)
    requires CanRun(cfg, s, steps) && s.lock.Held? && h in s.history && Progress(cfg, s, steps, now, h)
    requires Due(now) && now.lock.next.value.h == h && CheckedAt(cfg, s, steps, i, now)
    ensures Progress(cfg, s, steps, ExecSend(now, Act), h)
  {
    hide Exec, Enabled, CanRun, PushesOf, Acting, HasRoom, RepliesTo, FateAt;
    ActPushes(cfg, now, h);
    ActingShares(now);
    assert Targeted(now.lock, h);
    SentFate(cfg, s, steps, now, i, h);
  }

  lemma SentFate(cfg: Config, s: State, steps: seq<Step>, now: State, i: nat, h: Handle)
    requires CanRun(cfg, s, steps) && s.lock.Held? && h in s.history && h in now.history
    requires now.lock.Held? && now.lock.f == s.lock.f && PushesOf(now.history[h]) == PushesOf(s.history[h])
    requires Due(now) && now.lock.owner.Callback? && now.lock.next.value.h == h && CheckedAt(cfg, s, steps, i, now)
    ensures var next := ExecSend(now, Act); h in next.history && Settles(cfg, s, steps, next, h)
  {
    hide Exec, Enabled, CanRun, PushesOf, Acting, HasRoom, RepliesTo;
    ActPushes(cfg, now, h);
    assert FateAt(cfg, s, steps, i, ExecSend(now, Act), h);
  }

  // A send to somebody else does not concern it.
  lemma ProgressElsewhere(cfg: Config, s: State, steps: seq<Step>, now: State, h: Handle)
    requires CanRun(cfg, s, steps) && s.lock.Held? && h in s.history && Progress(cfg, s, steps, now, h)
    requires Inv(now) && Orderly(now) && Due(now) && now.lock.next.value.h != h
    ensures Progress(cfg, s, steps, ExecSend(now, Act), h)
  {
    hide Inv, Orderly, CanRun, PushesOf, Acting, Settles;
    NoOtherPush(cfg, now, Step.Deliver(Act), h);
    StepReturnsNone(cfg, now, Step.Deliver(Act));
    ActingShares(now);
    if Settles(cfg, s, steps, now, h) { FateStays(cfg, s, steps, now, ExecSend(now, Act), h); }
  }

  lemma {:induction false} ProgressAt(cfg: Config, s: State, steps: seq<Step>, n: nat, h: Handle)
    requires Reachable(cfg, s) && s.lock.Held? && s.lock.owner.Callback? && s.lock.next.None? && h in s.history
    requires CanRun(cfg, s, steps) && Unreleased(steps) && n <= |steps|
    ensures Progress(cfg, s, steps, At(cfg, s, steps, n), h)
    decreases n
  {
    hide Reachable, Inv, Orderly, Exec, Enabled, CanRun, Progress, CheckedAt;
    if n == 0 {
      ProgressStart(cfg, s, steps, h);
    } else {
      var now, step := At(cfg, s, steps, n - 1), steps[n - 1];
      ProgressAt(cfg, s, steps, n - 1, h);
      AtStep(cfg, s, steps, n - 1);
      ReachableAt(cfg, s, steps, n - 1);
      InvReachable(cfg, now);
      if !step.Deliver? {
        ProgressOthers(cfg, s, steps, now, step, h);
      } else {
        SendFacts(cfg, now, step.send);
        match step.send
        case Check(g) => ProgressCheck(cfg, s, steps, now, g, h);
        case Act =>
          if now.lock.next.value.h == h {
            CheckRemembered(cfg, s, steps, n - 1);
            var i: nat :| i < n - 1 && CheckedAt(cfg, s, steps, i, now);
            ProgressSend(cfg, s, steps, now, i, h);
          } else {
            ProgressElsewhere(cfg, s, steps, now, h);
          }
        case Release =>
      }
    }
  }

  lemma SendFacts(cfg: Config, s: State, step: SendStep)
    requires Enabled(s, Step.Deliver(step))
    ensures SendEnabled(s, step) && Exec(cfg, s, Step.Deliver(step)) == ExecSend(s, step) && (step.Act? ==> Due(s))
  {
  }

  lemma ProgressStart(cfg: Config, s: State, steps: seq<Step>, h: Handle)
    requires s.lock.Held? && s.lock.owner.Callback? && s.lock.next.None? && h in s.history && CanRun(cfg, s, steps)
    ensures Progress(cfg, s, steps, s, h)
  {
    hide Exec, Enabled, CanRun, PushesOf, Settles;
  }

  // Whatever comes between the sends of a push, when its loop is done every subscriber has got the
  // frame exactly once, unless its queue was full when it was looked at, in which case it has not
  // got it, or its connection is gone; and nobody else has got it.
  lemma InterruptedPush(cfg: Config, s: State, data: Json, steps: seq<Step>, h: Handle)
    requires Reachable(cfg, s) && PushEnabled(s, Send(data)) && h in s.history
    requires CanRun(cfg, Pushing(cfg, s, data), steps) && Unreleased(steps)
    requires SendEnabled(After(cfg, Pushing(cfg, s, data), steps), Release)
    ensures var s0 := Pushing(cfg, s, data);
            var s' := After(cfg, s0, steps);
            && s0.lock.Held? && h in s'.history
            && s0.lock.f == Frame(PushOf(s.push.event), Push(s.push.event, data), cfg.sizeOf(Push(s.push.event, data)))
            && if h in s.reg.sessions && s.push.event in s.reg.sessions[h].subs then Settles(cfg, s0, steps, s', h)
               else PushesOf(s'.history[h]) == PushesOf(s.history[h])
    ensures var s' := After(cfg, Pushing(cfg, s, data), steps);
            s'.lock.Held? && s'.lock.owner.Callback? && ExecSend(s', Release) == s'.(lock := Free, push := Quiet)
  {
    hide Reachable, Exec, Enabled, CanRun, PushesOf, Settles;
    var s0 := Pushing(cfg, s, data);
    assert Reachable(cfg, s0) by { SendStarts(cfg, s, data); }
    ListeningIsHolding(cfg, s, h, s.push.event);
    ProgressAt(cfg, s0, steps, |steps|, h);
    AtEnd(cfg, s0, steps);
  }

  // Every session has shaken hands, so the filter of the loop is the subscription set.
  lemma ListeningIsHolding(cfg: Config, s: State, h: Handle, e: string)
    requires Reachable(cfg, s)
    ensures Listens(s.reg, h, e) <==> h in s.reg.sessions && e in s.reg.sessions[h].subs
  {
    hide Consistent, RequestsInHand, WorkersCounted, StopOrdered, Histories, Streams, Orderly;
    InvReachable(cfg, s);
  }

  lemma SendStarts(cfg: Config, s: State, data: Json)
    requires Reachable(cfg, s) && PushEnabled(s, Send(data))
    ensures Reachable(cfg, Pushing(cfg, s, data))
  {
    hide Reachable, Pushing;
    ReachableStep(cfg, s, Step.Main(Send(data)));
  }

  // ----- a client that has closed -----

  // Whoever sends a push sends it to a session.
  lemma PushesGoToSessions(s: State, step: Step, h: Handle)
    requires Orderly(s) && ActsOn(s, step, h) && s.lock.owner.Callback?
    ensures h in s.reg.sessions
  {
    hide Reserved;
    assert Targeted(s.lock, h);
  }

  lemma {:induction false} DeafAt(cfg: Config, s: State, steps: seq<Step>, n: nat, h: Handle)
    requires Reachable(cfg, s) && h in s.history && h !in s.reg.sessions && CanRun(cfg, s, steps) && n <= |steps|
    ensures var s' := At(cfg, s, steps, n);
            h in s'.history && h !in s'.reg.sessions && PushesOf(s'.history[h]) == PushesOf(s.history[h])
    decreases n
  {
    hide Reachable, Inv, Orderly, Exec, Enabled, CanRun, PushesOf;
    if n == 0 {
    } else {
      var now, step := At(cfg, s, steps, n - 1), steps[n - 1];
      DeafAt(cfg, s, steps, n - 1, h);
      AtStep(cfg, s, steps, n - 1);
      ReachableAt(cfg, s, steps, n - 1);
      InvReachable(cfg, now);
      StepReturnsNone(cfg, now, step);
      if ActsOn(now, step, h) && now.lock.owner.Callback? { PushesGoToSessions(now, step, h); }
      NoOtherPush(cfg, now, step, h);
    }
  }

  // A connection that closes loses its session, its id and its subscriptions and no other does; it
  // never gets them back, and no push is queued on it any more, whatever happens.
  lemma ClosedHearsNothing(cfg: Config, s: State, h: Handle, steps: seq<Step>)
    requires Reachable(cfg, s) && IoEnabled(s, Close(h)) && h in s.reg.sessions
    requires CanRun(cfg, ExecIo(cfg, s, Close(h)), steps)
    ensures var s0 := ExecIo(cfg, s, Close(h));
            && s0.reg.sessions == s.reg.sessions - {h} && s.reg.sessions[h].clientId !in s0.reg.idToHdl
            && var s' := After(cfg, s0, steps);
            && h in s.history && h in s'.history && h !in s'.reg.sessions
            && PushesOf(s'.history[h]) == PushesOf(s.history[h])
  {
    hide Reachable, Exec, Enabled, CanRun, PushesOf, Released;
    var s0 := ExecIo(cfg, s, Close(h));
    Known(cfg, s, h);
    assert Reachable(cfg, s0) by { CloseStarts(cfg, s, h); }
    DeafAt(cfg, s0, steps, |steps|, h);
    AtEnd(cfg, s0, steps);
  }

  lemma CloseStarts(cfg: Config, s: State, h: Handle)
    requires Reachable(cfg, s) && IoEnabled(s, Close(h))
    ensures Reachable(cfg, ExecIo(cfg, s, Close(h)))
  {
    hide Reachable, Closed;
    ReachableStep(cfg, s, Step.Io(Close(h)));
  }

  lemma Known(cfg: Config, s: State, h: Handle)
    requires Reachable(cfg, s) && h in s.reg.sessions
    ensures h in s.history
  {
    hide Consistent, RequestsInHand, WorkersCounted, StopOrdered, Histories, Streams, Orderly;
    InvReachable(cfg, s);
  }
}
