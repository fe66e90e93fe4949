// No request is lost, answered twice, or answered to somebody else; and, added up, every message
// received is one complaint, pong, reply, loss or request still in hand.

module Conservation {
  import opened Common
  import opened Messages
  import opened Registry
  import opened Requests
  import opened Protocol
  import opened Invariants
  import opened Locking
  import opened Accounts
  import opened Losses

  predicate IsLoss(e: Entry, k: nat) { e.Lost? && e.ticket == k }

  // Exactly once, in every reachable state and for every request ever received: either some
  // thread still has it and nothing was queued for it anywhere, or nobody has it and exactly one
  // entry of one history ended it. That entry is on the connection the request came from. If it is
  // a frame, the frame answers this very request; if not, then in every run that leads here
  // something happened that is why not, and a client found gone is gone.
  lemma EachRequestOnce(cfg: Config, s: State, k: nat)
    requires Reachable(cfg, s) && k < |s.requests|
    ensures var h := s.requests[k].h;
            && h in s.history
            && (k !in InHand(s) <==> exists i :: 0 <= i < |s.history[h]| && TicketOf(s.history[h][i]) == Some(k))
            && (forall i :: 0 <= i < |s.history[h]| && TicketOf(s.history[h][i]) == Some(k) ==>
                  EndsAs(cfg, s.history[h][i], k, s.requests[k].payload))
            && (forall i, j :: 0 <= i < j < |s.history[h]| ==>
                  TicketOf(s.history[h][i]) != Some(k) || TicketOf(s.history[h][j]) != Some(k))
    ensures forall g, i :: g in s.history && 0 <= i < |s.history[g]| && TicketOf(s.history[g][i]) == Some(k) ==>
              g == s.requests[k].h
    ensures forall steps, i ::
              CanRun(cfg, INITIAL, steps) && After(cfg, INITIAL, steps) == s
              && 0 <= i < |s.history[s.requests[k].h]| && IsLoss(s.history[s.requests[k].h][i], k) ==>
                Caused(cfg, steps, s.requests[k].h, k, s.history[s.requests[k].h][i].why)
    ensures var h := s.requests[k].h;
            forall i :: 0 <= i < |s.history[h]| && s.history[h][i] == Lost(k, ClientGone) ==>
              h !in s.queues || h !in s.reg.sessions
    ensures OneHolder(s)
  {
    hide EndsAs, OneHolder, InHand, TicketOf, CanRun, After, Caused, GoneForGood;
    AccountedReachable(cfg, s);
    GoneReachable(cfg, s);
    forall steps, i |
      CanRun(cfg, INITIAL, steps) && After(cfg, INITIAL, steps) == s && s.requests[k].h in s.history
      && 0 <= i < |s.history[s.requests[k].h]| && IsLoss(s.history[s.requests[k].h][i], k)
      ensures Caused(cfg, steps, s.requests[k].h, k, s.history[s.requests[k].h][i].why)
    {
      LossesHaveCauses(cfg, steps, s.requests[k].h, i);
    }
    LostIsGone(s, s.requests[k].h, k);
    if k in s.settledAt {
      assert Ended(cfg, s, k);
      assert TicketOf(s.history[s.requests[k].h][s.settledAt[k]]) == Some(k) by { EndsTicket(cfg, s, k); }
    } else {
      assert k in InHand(s);
      HandKnows(cfg, s, k);
    }
  }

  lemma LostIsGone(s: State, h: Handle, k: nat)
    requires GoneForGood(s)
    ensures h in s.history ==> forall i :: 0 <= i < |s.history[h]| && s.history[h][i] == Lost(k, ClientGone) ==>
              h !in s.queues || h !in s.reg.sessions
  {
    assert LostToGone(Lost(k, ClientGone));
  }

  lemma EndsTicket(cfg: Config, s: State, k: nat)
    requires Ended(cfg, s, k)
    ensures TicketOf(s.history[s.requests[k].h][s.settledAt[k]]) == Some(k)
  {
  }

  lemma HandKnows(cfg: Config, s: State, k: nat)
    requires Reachable(cfg, s) && k < |s.requests| && k in InHand(s)
    ensures s.requests[k].h in s.history
  {
    hide Consistent, Histories, Streams, WorkersCounted, StopOrdered, Fits, Derived, WellFormed;
    InvReachable(cfg, s);
    if k in Pending(s.workers) {
      var w :| w in s.workers && s.workers[w].ticket == k;
      assert WorkerInHand(s, s.workers[w]);
    }
  }

  // ----- adding up -----

  datatype Kind = Other | Complaint | Busy | Heard | Reply | Miss(why: Outcome)

  function KindOf(e: Entry): Kind {
    match e
    case Changed(_, _, _) => Other
    case Lost(_, why) => Miss(why)
    case Enqueued(f, answers) =>
      if answers.None? then Other
      else if f.msg == Error("Server busy: too many in-flight requests") then Busy
      else if f.msg.Error? then Complaint
      else if f.msg.Pong? then Heard
      else Reply
  }

  function Places(s: State, kinds: set<Kind>): set<(Handle, nat)> {
    set h, i: nat | h in s.history && 0 <= i < |s.history[h]| && KindOf(s.history[h][i]) in kinds :: (h, i)
  }

  // How many entries of this kind there are, over all connections.
  function Number(s: State, kind: Kind): nat { |Places(s, {kind})| }

  function Working(workers: map<nat, Worker>): set<nat> {
    set w | w in workers && !workers[w].pc.Leaving?
  }

  lemma {:induction false} SameSize<A(!new), B(!new)>(a: set<A>, b: set<B>, f: A -> B)
    requires forall x :: x in a ==> f(x) in b
    requires forall x, y :: x in a && y in a && f(x) == f(y) ==> x == y
    requires forall y :: y in b ==> exists x :: x in a && f(x) == y
    ensures |a| == |b|
    decreases a
  {
    if a != {} {
      var x :| x in a;
      SameSize(a - {x}, b - {f(x)}, f);
    } else {
      assert b == {};
    }
  }

  // The first `n` tickets.
  function Below(n: nat): (tickets: set<nat>)
    ensures forall k: nat :: k in tickets <==> k < n
    ensures |tickets| == n
  {
    if n == 0 then {} else Below(n - 1) + {n - 1}
  }

  lemma WorkingSize(s: State)
    requires OneWorkerEach(s.workers)
    ensures |Pending(s.workers)| == |Working(s.workers)|
  {
    var f := (w: nat) => if w in s.workers then s.workers[w].ticket else 0;
    forall t | t in Pending(s.workers)
      ensures exists w :: w in Working(s.workers) && f(w) == t
    {
      var w :| w in s.workers && !s.workers[w].pc.Leaving? && s.workers[w].ticket == t;
      assert w in Working(s.workers) && f(w) == t;
    }
    SameSize(Working(s.workers), Pending(s.workers), f);
  }

  const ENDS: set<Kind> :=
    {Complaint, Busy, Heard, Reply, Miss(ClientGone), Miss(Dropped), Miss(Raised), Miss(NoProcessor)}

  lemma EndKind(cfg: Config, e: Entry, k: nat, payload: Payload)
    requires EndsAs(cfg, e, k, payload)
    ensures KindOf(e) in ENDS && TicketOf(e) == Some(k) && (cfg.hasProcessor ==> KindOf(e) != Miss(NoProcessor))
  {
    hide Fits;
  }

  lemma KindTicket(e: Entry)
    ensures KindOf(e) in ENDS ==> TicketOf(e).Some?
  {
  }

  // Where each finished request ended, one place each.
  lemma SettledSize(cfg: Config, s: State)
    requires Accounted(cfg, s)
    ensures |s.settledAt.Keys| == |Places(s, ENDS)|
    ensures cfg.hasProcessor ==> Number(s, Miss(NoProcessor)) == 0
  {
    var f := (k: nat) => if k in s.settledAt && k < |s.requests| then (s.requests[k].h, s.settledAt[k]) else (0, 0);
    var places := Places(s, ENDS);
    hide OneHolder, InHand, ENDS;
    forall k | k in s.settledAt.Keys
      ensures f(k) in places && TicketOf(s.history[f(k).0][f(k).1]) == Some(k)
    {
      assert Ended(cfg, s, k);
      EndKind(cfg, s.history[s.requests[k].h][s.settledAt[k]], k, s.requests[k].payload);
    }
    forall p | p in places
      ensures exists k :: k in s.settledAt.Keys && f(k) == p
    {
      KindTicket(s.history[p.0][p.1]);
      assert f(TicketOf(s.history[p.0][p.1]).value) == p;
    }
    hide Places;
    SameSize(s.settledAt.Keys, places, f);
    if cfg.hasProcessor { NoneUnhandled(cfg, s); }
  }

  lemma NoneUnhandled(cfg: Config, s: State)
    requires Accounted(cfg, s) && cfg.hasProcessor
    ensures Number(s, Miss(NoProcessor)) == 0
  {
    hide OneHolder, InHand, ENDS;
    forall p | p in Places(s, {Miss(NoProcessor)})
      ensures false
    {
      var e := s.history[p.0][p.1];
      assert TicketOf(e).Some?;
      assert Ended(cfg, s, TicketOf(e).value);
      EndKind(cfg, e, TicketOf(e).value, s.requests[TicketOf(e).value].payload);
    }
    assert Places(s, {Miss(NoProcessor)}) == {};
  }

  lemma OneKindMore(s: State, kinds: set<Kind>, kind: Kind)
    requires kind !in kinds
    ensures |Places(s, kinds + {kind})| == |Places(s, kinds)| + Number(s, kind)
  {
    assert Places(s, kinds + {kind}) == Places(s, kinds) + Places(s, {kind});
    assert Places(s, kinds) !! Places(s, {kind});
  }

  lemma EndsByKind(s: State)
    ensures |Places(s, ENDS)| ==
            Number(s, Complaint) + Number(s, Busy) + Number(s, Heard) + Number(s, Reply)
            + Number(s, Miss(ClientGone)) + Number(s, Miss(Dropped)) + Number(s, Miss(Raised))
            + Number(s, Miss(NoProcessor))
  {
    hide Places;
    var a := {Complaint};
    var b := a + {Busy};
    var c := b + {Heard};
    var d := c + {Reply};
    var e := d + {Miss(ClientGone)};
    var f := e + {Miss(Dropped)};
    var g := f + {Miss(Raised)};
    OneKindMore(s, a, Busy);
    OneKindMore(s, b, Heard);
    OneKindMore(s, c, Reply);
    OneKindMore(s, d, Miss(ClientGone));
    OneKindMore(s, e, Miss(Dropped));
    OneKindMore(s, f, Miss(Raised));
    OneKindMore(s, g, Miss(NoProcessor));
    assert ENDS == g + {Miss(NoProcessor)};
  }

  // Finished, with a worker, or on the IO thread.
  lemma ThreeParts(cfg: Config, s: State)
    requires Accounted(cfg, s)
    ensures |s.requests| == |s.settledAt.Keys| + |Pending(s.workers)| + |IoTicket(s.io)|
  {
    hide Ended, OnRecord, OneWorkerEach, Pending, IoTicket, Below;
    assert Below(|s.requests|) == s.settledAt.Keys + (IoTicket(s.io) + Pending(s.workers));
    assert s.settledAt.Keys !! IoTicket(s.io) + Pending(s.workers) && IoTicket(s.io) !! Pending(s.workers);
    hide Accounted, OneHolder, InHand;
    DisjointSize(s.settledAt.Keys, IoTicket(s.io) + Pending(s.workers));
    DisjointSize(IoTicket(s.io), Pending(s.workers));
  }

  lemma DisjointSize<T>(a: set<T>, b: set<T>)
    requires a !! b
    ensures |a + b| == |a| + |b|
  {
  }

  // Messages received from registered sessions = complaints + busy errors + pongs + replies
  // + requests whose client was gone, that backpressure dropped, that raised, that nobody was
  // there to process + requests still with a worker or the IO thread.
  lemma RequestsAreConserved(cfg: Config, s: State)
    requires Reachable(cfg, s)
    ensures |s.requests| ==
            Number(s, Complaint) + Number(s, Busy) + Number(s, Heard) + Number(s, Reply)
            + Number(s, Miss(ClientGone)) + Number(s, Miss(Dropped)) + Number(s, Miss(Raised))
            + Number(s, Miss(NoProcessor))
            + |Working(s.workers)| + |IoTicket(s.io)|
    ensures cfg.hasProcessor ==> Number(s, Miss(NoProcessor)) == 0
  {
    AccountedReachable(cfg, s);
    assert OneWorkerEach(s.workers);
    hide Accounted, OneWorkerEach, Pending, Working, IoTicket, Places, Number, ENDS;
    ThreeParts(cfg, s);
    SettledSize(cfg, s);
    EndsByKind(s);
    WorkingSize(s);
  }
}
