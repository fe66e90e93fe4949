// The client limit. OnValidate looks at the number of sessions when a handshake starts, OnOpen
// registers one when it has finished, and both run on the IO thread but not together.

module Admission {
  import opened Common
  import R = Registry
  import opened Messages

  // Registered sessions, and handshakes that were accepted and have not yet opened or failed.
  datatype Door = Door(sessions: nat, pending: nat)

  datatype Knock = Validate | Open | Abandon | Close

  // A refused handshake changes nothing.
  function Next(d: Door, k: Knock): Door {
    match k
    case Validate => if d.sessions >= MAX_CLIENTS then d else d.(pending := d.pending + 1)
    case Open => if d.pending > 0 then Door(d.sessions + 1, d.pending - 1) else d
    case Abandon => if d.pending > 0 then d.(pending := d.pending - 1) else d
    case Close => if d.sessions > 0 then d.(sessions := d.sessions - 1) else d
  }

  // The door counts the sessions of the tables: opening a fresh handle is an `Open`, closing a
  // known one a `Close`, and closing an unknown one or changing subscriptions is nothing. A handshake
  // is let in exactly below 64 sessions, and one that is given up only ends.
  lemma DoorCountsSessions(r: R.Registry, h: Handle, id: string, op: R.SubOp, pending: nat)
    ensures h !in r.sessions && pending > 0 ==>
              Next(Door(|r.sessions|, pending), Open) == Door(|R.Opened(r, h, id).sessions|, pending - 1)
    ensures h in r.sessions ==>
              && Next(Door(|r.sessions|, pending), Close) == Door(|R.Closed(r, h).sessions|, pending)
              && |R.Resubscribed(r, h, op).sessions| == |r.sessions|
    ensures h !in r.sessions ==> |R.Closed(r, h).sessions| == |r.sessions|
    ensures Next(Door(|r.sessions|, pending), Validate) ==
            Door(|r.sessions|, if |r.sessions| < 64 then pending + 1 else pending)
    ensures pending > 0 ==> Next(Door(|r.sessions|, pending), Abandon) == Door(|r.sessions|, pending - 1)
  {
    hide R.Released, R.Acquired, R.Applied;
    Sizes(r.sessions, h, R.Session(id, true, {}));
    if h in r.sessions { Sizes(r.sessions, h, R.Resubscribed(r, h, op).sessions[h]); }
  }

  lemma Sizes(m: map<Handle, R.Session>, h: Handle, s: R.Session)
    ensures |m[h := s]| == |m| + if h in m then 0 else 1
    ensures h in m ==> |m - {h}| == |m| - 1
  {
    assert m[h := s].Keys == m.Keys + {h};
    assert (m - {h}).Keys == m.Keys - {h};
    assert |m| == |m.Keys| && |m[h := s]| == |m[h := s].Keys| && |m - {h}| == |(m - {h}).Keys|;
  }

  const CLOSED_DOOR := Door(0, 0)

  // ----- from one state on -----

  function Opens(n: nat): seq<Knock> {
    if n == 0 then [] else Opens(n - 1) + [Open]
  }

  function From(d: Door, ks: seq<Knock>): Door {
    if ks == [] then d else Next(From(d, ks[..|ks| - 1]), ks[|ks| - 1])
  }

  lemma {:induction false} OpensFrom(d: Door, n: nat)
    requires n <= d.pending
    ensures From(d, Opens(n)) == Door(d.sessions + n, d.pending - n)
  {
    if n == 0 {
    } else {
      OpensFrom(d, n - 1);
      assert Opens(n)[..|Opens(n)| - 1] == Opens(n - 1);
    }
  }

  // The limit survives whatever becomes of the handshakes under way exactly when sessions and
  // handshakes together are within it.
  lemma CapSurvivesExactly(d: Door)
    ensures (forall n: nat :: n <= d.pending ==> From(d, Opens(n)).sessions <= MAX_CLIENTS)
            <==> d.sessions + d.pending <= MAX_CLIENTS
  {
    forall n: nat | n <= d.pending
      ensures From(d, Opens(n)).sessions == d.sessions + n
    {
      OpensFrom(d, n);
    }
    assert From(d, Opens(d.pending)).sessions == d.sessions + d.pending;
  }

  // ----- whole runs -----

  function Run(ks: seq<Knock>): Door {
    From(CLOSED_DOOR, ks)
  }

  // Never more than `k` handshakes under way, at any point of the run.
  ghost predicate AtMost(k: nat, ks: seq<Knock>) {
    Run(ks).pending <= k && (ks != [] ==> AtMost(k, ks[..|ks| - 1]))
  }

  lemma RunAppend(ks: seq<Knock>, k: Knock)
    ensures Run(ks + [k]) == Next(Run(ks), k)
    ensures forall n: nat :: AtMost(n, ks + [k]) <==> AtMost(n, ks) && Run(ks + [k]).pending <= n
  {
    assert (ks + [k])[..|ks|] == ks;
  }

  lemma {:induction false} Occupancy(k: nat, ks: seq<Knock>)
    requires AtMost(k, ks)
    ensures Run(ks).sessions + Run(ks).pending <= MAX_CLIENTS - 1 + k
    decreases |ks|
  {
    if ks == [] {
    } else {
      Occupancy(k, ks[..|ks| - 1]);
    }
  }

  // `n` clients admitted one after the other.
  function OneByOne(n: nat): seq<Knock> {
    if n == 0 then [] else OneByOne(n - 1) + [Validate] + [Open]
  }

  lemma {:induction false} OneByOneFills(n: nat)
    requires n <= MAX_CLIENTS
    ensures Run(OneByOne(n)) == Door(n, 0) && AtMost(1, OneByOne(n))
  {
    if n == 0 {
    } else {
      OneByOneFills(n - 1);
      RunAppend(OneByOne(n - 1), Validate);
      RunAppend(OneByOne(n - 1) + [Validate], Open);
    }
  }

  lemma {:induction false} Loosen(j: nat, k: nat, ks: seq<Knock>)
    requires AtMost(j, ks) && j <= k
    ensures AtMost(k, ks)
    decreases |ks|
  {
    if ks == [] {
    } else {
      Loosen(j, k, ks[..|ks| - 1]);
    }
  }

  // Two handshakes that both find 63 sessions: the 65th client is let in.
  function Overfull(): seq<Knock> {
    OneByOne(MAX_CLIENTS - 1) + [Validate] + [Validate] + [Open] + [Open]
  }

  lemma OverfullRun()
    ensures Run(Overfull()) == Door(MAX_CLIENTS + 1, 0) && AtMost(2, Overfull())
  {
    var full := OneByOne(MAX_CLIENTS - 1);
    OneByOneFills(MAX_CLIENTS - 1);
    Loosen(1, 2, full);
    RunAppend(full, Validate);
    RunAppend(full + [Validate], Validate);
    RunAppend(full + [Validate] + [Validate], Open);
    RunAppend(full + [Validate] + [Validate] + [Open], Open);
  }

  // The documented hard cap of 64 clients holds in every run with at most `k` concurrent
  // handshakes exactly when `k` is at most one.
  lemma CapNeedsSerialHandshakes(k: nat)
    ensures (forall ks :: AtMost(k, ks) ==> Run(ks).sessions <= MAX_CLIENTS) <==> k <= 1
  {
    if k <= 1 {
      forall ks | AtMost(k, ks)
        ensures Run(ks).sessions <= MAX_CLIENTS
      {
        Occupancy(k, ks);
      }
    } else {
      OverfullRun();
      Loosen(2, k, Overfull());
    }
  }
}
