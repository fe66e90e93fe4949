// What a client is told about its subscription request is what happened: success exactly when the
// request made its change, anything else only when it made none.

module Refusals {
  import opened Common
  import opened Messages
  import opened Registry
  import opened Network
  import opened Requests
  import opened Protocol
  import opened History
  import opened Invariants
  import opened Locking
  import opened Accounts
  import opened Changes
  import opened Runs
  import opened Entries
  import opened Safety
  import Handlers

  // A request whose answer lists no events, on its way or queued, has made no change.
  ghost predicate Candid(s: State) {
    && (forall w :: w in s.workers && s.workers[w].pc.Routing? && !ListsEvents(s.workers[w].pc.reply) ==>
          NoChangeBy(s, s.workers[w].ticket))
    && (forall h, i :: h in s.history && 0 <= i < |s.history[h]| && Refuses(s.history[h][i]) ==>
          NoChangeBy(s, s.history[h][i].answers.value))
  }

  predicate Refuses(e: Entry) { e.Enqueued? && e.answers.Some? && !ListsEvents(e.f.msg) }

  // ----- every step keeps answers candid -----

  // A worker with a reply on its way has begun its request, and no other worker has it.
  lemma RoutingHasBegun(s: State, w: nat)
    requires OneHolder(s) && w in s.workers && s.workers[w].pc.Routing?
    ensures s.workers[w].ticket !in ReadyTickets(s.workers)
  {
    assert OneWorkerEach(s.workers);
  }

  lemma CandidReplies(cfg: Config, s: State, step: Step, w: nat)
    requires Inv(s) && Orderly(s) && OneHolder(s) && OneChange(s) && Candid(s) && Enabled(s, step)
    requires var s' := Exec(cfg, s, step);
             w in s'.workers && s'.workers[w].pc.Routing? && !ListsEvents(s'.workers[w].pc.reply)
    ensures NoChangeBy(Exec(cfg, s, step), Exec(cfg, s, step).workers[w].ticket)
  {
    StepGoesOn(cfg, s, step);
    hide Inv, Orderly, OneChange, OneHolder, Exec, Enabled, MakesChange, ReadyTickets, NoChangeBy, ListsEvents;
    var k := s.workers[w].ticket;
    if Exec(cfg, s, step).workers[w] == s.workers[w] {
      RoutingHasBegun(s, w);
      OthersMakeNone(s, step, k);
    } else {
      TakenUp(s, w);
    }
    NoChangeKept(cfg, s, step, k);
  }

  // A request just taken up has made no change.
  lemma TakenUp(s: State, w: nat)
    requires OneChange(s) && w in s.workers && s.workers[w].pc.Ready?
    ensures NoChangeBy(s, s.workers[w].ticket)
  {
    hide OneChange;
    assert s.workers[w].ticket in ReadyTickets(s.workers);
    NotBegun(s, s.workers[w].ticket);
  }

  lemma JustReceived(s: State)
    requires OneChange(s) && s.io.Holding?
    ensures NoChangeBy(s, s.io.ticket)
  {
    hide OneChange;
    NotBegun(s, s.io.ticket);
  }

  lemma CandidEntries(cfg: Config, s: State, step: Step, h: Handle, i: nat)
    requires Inv(s) && Orderly(s) && Accounted(cfg, s) && OneChange(s) && Candid(s) && Enabled(s, step)
    requires var s' := Exec(cfg, s, step); h in s'.history && i < |s'.history[h]| && Refuses(s'.history[h][i])
    ensures NoChangeBy(Exec(cfg, s, step), Exec(cfg, s, step).history[h][i].answers.value)
  {
    hide Inv, Orderly, OneChange, Accounted, Exec, Enabled, MakesFor, Explains, NoChangeBy, Candid;
    StepWrites(cfg, s, step);
    var e := Exec(cfg, s, step).history[h][i];
    assert h in s.history;
    if i < |s.history[h]| {
      CandidBefore(s, h, i);
      AnsweredIsDone(cfg, s, h, i);
      OthersMakeNone(s, step, e.answers.value);
    } else {
      CandidNow(cfg, s, step, h, e);
    }
    NoChangeKept(cfg, s, step, e.answers.value);
  }

  lemma CandidBefore(s: State, h: Handle, i: nat)
    requires Candid(s) && h in s.history && i < |s.history[h]| && Refuses(s.history[h][i])
    ensures NoChangeBy(s, s.history[h][i].answers.value)
  {
    hide NoChangeBy, Refuses;
  }

  lemma CandidNow(cfg: Config, s: State, step: Step, h: Handle, e: Entry)
    requires OneChange(s) && Candid(s) && Explains(cfg, s, step, h, e) && Refuses(e)
    ensures NoChangeBy(s, e.answers.value) && !MakesFor(s, step, e.answers.value)
  {
    hide OneChange, NoChangeBy, ListsEvents, MakesChange;
    if e.f.cause.Inline? { JustReceived(s); }
  }

  // A request that has been answered is with no worker any more.
  lemma AnsweredIsDone(cfg: Config, s: State, h: Handle, i: nat)
    requires Accounted(cfg, s) && h in s.history && i < |s.history[h]|
    requires s.history[h][i].Enqueued? && s.history[h][i].answers.Some?
    ensures s.history[h][i].answers.value !in ReadyTickets(s.workers)
  {
    hide Ended;
    var k := s.history[h][i].answers.value;
    assert TicketOf(s.history[h][i]) == Some(k);
    assert ReadyTickets(s.workers) <= Pending(s.workers);
  }

  lemma CandidStep(cfg: Config, s: State, step: Step)
    requires Inv(s) && Orderly(s) && Accounted(cfg, s) && OneChange(s) && Candid(s) && Enabled(s, step)
    ensures Candid(Exec(cfg, s, step))
  {
    hide Inv, Orderly, OneChange, Accounted, Exec, Enabled, NoChangeBy, ListsEvents, Refuses;
    assert OneHolder(s) by { HeldOnce(cfg, s); }
    var s' := Exec(cfg, s, step);
    forall w | w in s'.workers && s'.workers[w].pc.Routing? && !ListsEvents(s'.workers[w].pc.reply)
      ensures NoChangeBy(s', s'.workers[w].ticket)
    {
      hide Candid;
      CandidReplies(cfg, s, step, w);
    }
    forall h, i | h in s'.history && 0 <= i < |s'.history[h]| && Refuses(s'.history[h][i])
      ensures s'.history[h][i].Enqueued? && s'.history[h][i].answers.Some?
      ensures NoChangeBy(s', s'.history[h][i].answers.value)
    {
      hide Candid;
      assert s'.history[h][i].Enqueued? && s'.history[h][i].answers.Some? by { RefusalAnswers(s'.history[h][i]); }
      CandidEntries(cfg, s, step, h, i);
    }
  }

  lemma RefusalAnswers(e: Entry)
    requires Refuses(e)
    ensures e.Enqueued? && e.answers.Some?
  {
  }

  lemma HeldOnce(cfg: Config, s: State)
    requires Accounted(cfg, s)
    ensures OneHolder(s)
  {
  }

  lemma {:induction false} CandidAt(cfg: Config, steps: seq<Step>, n: nat)
    requires CanRun(cfg, INITIAL, steps) && n <= |steps|
    ensures Candid(At(cfg, INITIAL, steps, n))
    decreases n
  {
    hide Reachable, Inv, Orderly, OneChange, Accounted, Exec, Enabled, CanRun;
    if n == 0 {
    } else {
      var s := At(cfg, INITIAL, steps, n - 1);
      hide Candid;
      CandidAt(cfg, steps, n - 1);
      AtStep(cfg, INITIAL, steps, n - 1);
      InitialReachable(cfg);
      ReachableAt(cfg, INITIAL, steps, n - 1);
      InvReachable(cfg, s);
      AccountedReachable(cfg, s);
      OneChangeReachable(cfg, s);
      CandidStep(cfg, s, steps[n - 1]);
    }
  }

  lemma CandidReachable(cfg: Config, s: State)
    requires Reachable(cfg, s)
    ensures Candid(s)
  {
    hide Candid, Exec, Enabled;
    var steps :| CanRun(cfg, INITIAL, steps) && After(cfg, INITIAL, steps) == s;
    CandidAt(cfg, steps, |steps|);
    AtEnd(cfg, INITIAL, steps);
  }

  // ----- what an answer says about its request -----

  // A subscription request answered with success has made its change, on its own connection and
  // before the answer was queued, and the answer lists the fold at it. A request with any other
  // answer has made no change anywhere.
  lemma AnswersAreCandid(cfg: Config, s: State, h: Handle, i: nat)
    requires Reachable(cfg, s) && h in s.history && i < |s.history[h]|
    requires s.history[h][i].Enqueued? && s.history[h][i].answers.Some?
    ensures var m, k := s.history[h][i].f.msg, s.history[h][i].answers.value;
            && k < |s.requests|
            && if AboutEvents(s.requests[k].payload) && m.Response? && m.success then
                 m.events.Some? && ListsTheFold(s.history[h], i, m.events.value, k)
               else
                 NoChangeBy(s, k)
  {
    hide Reachable, Accounted, Candid, NoChangeBy, Fits, AboutEvents, ListsTheFold, AskedBy;
    AccountedReachable(cfg, s);
    AnswerOnRecord(cfg, s, h, i);
    CandidReachable(cfg, s);
    RepliesListTheFold(cfg, s, h, i);
    var m, k := s.history[h][i].f.msg, s.history[h][i].answers.value;
    if !AboutEvents(s.requests[k].payload) {
      NotAsked(cfg, s, k);
    } else if !(m.Response? && m.success) {
      CandidBefore(s, h, i);
    }
  }

  // Only subscription requests make changes.
  lemma NotAsked(cfg: Config, s: State, k: nat)
    requires Reachable(cfg, s) && k < |s.requests| && !AboutEvents(s.requests[k].payload)
    ensures NoChangeBy(s, k)
  {
    hide Reachable, Inv, Orderly, AboutEvents, RequestedEvents, OpAsked;
    InvReachable(cfg, s);
    AllAsked(s);
    forall h | h in s.history
      ensures NotMadeBy(s.history[h], {k})
    {
      assert AskedFor(s.requests, s.history[h], h);
    }
  }
}
