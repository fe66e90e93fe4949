// The websocketpp endpoint, reduced to one outbound queue per open connection, and the three
// ways the server enqueues: inline, guarded to one client, guarded to every matching client.

module Network {
  import opened Common
  import opened Messages
  import opened Registry

  type Queues = map<Handle, seq<Frame>>

  // `get_buffered_amount`.
  function Bytes(q: seq<Frame>): nat {
    if q == [] then 0 else Bytes(q[..|q| - 1]) + q[|q| - 1].size
  }

  // `send` on a handle without a live connection reports an error and queues nothing.
  function Sent(qs: Queues, h: Handle, f: Frame): Queues {
    if h in qs then qs[h := qs[h] + [f]] else qs
  }

  // An unknown connection is never full: `send` is left to report the error.
  predicate IsFull(qs: Queues, h: Handle, size: nat) {
    h in qs && Bytes(qs[h]) + size > MAX_CLIENT_SEND_QUEUE_BYTES
  }

  function Guarded(qs: Queues, h: Handle, f: Frame): Queues {
    if IsFull(qs, h, f.size) then qs else Sent(qs, h, f)
  }

  // Guarded delivery to every handle of `targets`.
  function Delivered(qs: Queues, targets: set<Handle>, f: Frame): Queues {
    map h | h in qs :: if h in targets && !IsFull(qs, h, f.size) then qs[h] + [f] else qs[h]
  }

  function Listeners(r: Registry, e: string): set<Handle> {
    set h | h in r.sessions && Listens(r, h, e)
  }

  function Handshaken(r: Registry): set<Handle> {
    set h | h in r.sessions && r.sessions[h].handshakeDone
  }

  function Broadcasted(r: Registry, qs: Queues, e: string, f: Frame): Queues {
    Delivered(qs, Listeners(r, e), f)
  }

  // `RouteOutgoing`: an empty id means everybody.
  function Routed(r: Registry, qs: Queues, id: string, f: Frame): Queues {
    if id == "" then Delivered(qs, Handshaken(r), f)
    else if id in r.idToHdl then Guarded(qs, r.idToHdl[id], f)
    else qs
  }

  // ----- backpressure -----

  predicate GuardedFrame(f: Frame) { !f.cause.Inline? }

  function GuardedBytes(q: seq<Frame>): nat {
    if q == [] then 0
    else GuardedBytes(q[..|q| - 1]) + if GuardedFrame(q[|q| - 1]) then q[|q| - 1].size else 0
  }

  function InlineBytes(q: seq<Frame>): nat {
    if q == [] then 0
    else InlineBytes(q[..|q| - 1]) + if GuardedFrame(q[|q| - 1]) then 0 else q[|q| - 1].size
  }

  // The pushes and replies waiting are within the limit.
  predicate Bounded(q: seq<Frame>) {
    GuardedBytes(q) <= MAX_CLIENT_SEND_QUEUE_BYTES
  }

  lemma {:induction false} BytesSplit(p: seq<Frame>, q: seq<Frame>)
    ensures Bytes(p + q) == Bytes(p) + Bytes(q)
    decreases |q|
  {
    if q == [] {
      assert p + q == p;
    } else {
      BytesSplit(p, q[..|q| - 1]);
      assert (p + q)[..|p + q| - 1] == p + q[..|q| - 1];
    }
  }

  lemma {:induction false} GuardedSplit(p: seq<Frame>, q: seq<Frame>)
    ensures GuardedBytes(p + q) == GuardedBytes(p) + GuardedBytes(q)
    decreases |q|
  {
    if q == [] {
      assert p + q == p;
    } else {
      GuardedSplit(p, q[..|q| - 1]);
      assert (p + q)[..|p + q| - 1] == p + q[..|q| - 1];
    }
  }

  // A guarded frame needs room beside the pushes and replies already waiting; an inline frame
  // needs none.
  lemma BoundedAppend(q: seq<Frame>, f: Frame)
    ensures GuardedBytes(q + [f]) == GuardedBytes(q) + if GuardedFrame(f) then f.size else 0
    ensures Bounded(q + [f]) <==>
            GuardedBytes(q) + (if GuardedFrame(f) then f.size else 0) <= MAX_CLIENT_SEND_QUEUE_BYTES
  {
    assert (q + [f])[..|q|] == q;
  }

  lemma BoundedDrain(q: seq<Frame>, n: nat)
    requires n <= |q|
    ensures GuardedBytes(q[n..]) <= GuardedBytes(q)
    ensures Bounded(q) ==> Bounded(q[n..])
  {
    assert q == q[..n] + q[n..];
    GuardedSplit(q[..n], q[n..]);
  }

  // Only the inline frames in a queue can take the whole of it past the limit.
  lemma {:induction false} BoundedTotals(q: seq<Frame>)
    ensures Bytes(q) == GuardedBytes(q) + InlineBytes(q)
    ensures Bounded(q) ==> Bytes(q) <= MAX_CLIENT_SEND_QUEUE_BYTES + InlineBytes(q)
    decreases |q|
  {
    if q == [] {
    } else {
      BoundedTotals(q[..|q| - 1]);
    }
  }

  // What a size check that finds room promises: the frame fits beside the waiting pushes and
  // replies, however many inline frames are added before it is sent.
  lemma RoomIsKept(qs: Queues, h: Handle, size: nat)
    requires h in qs && !IsFull(qs, h, size)
    ensures GuardedBytes(qs[h]) + size <= MAX_CLIENT_SEND_QUEUE_BYTES
    ensures forall f: Frame :: !GuardedFrame(f) ==> GuardedBytes(qs[h] + [f]) + size <= MAX_CLIENT_SEND_QUEUE_BYTES
  {
    BoundedTotals(qs[h]);
    forall f: Frame | !GuardedFrame(f)
      ensures GuardedBytes(qs[h] + [f]) == GuardedBytes(qs[h])
    {
      BoundedAppend(qs[h], f);
    }
  }

  // Delivery visits one client after the other, in any order.
  lemma DeliveredFirst(qs: Queues, targets: set<Handle>, h: Handle, f: Frame)
    requires h in targets
    ensures Delivered(Guarded(qs, h, f), targets - {h}, f) == Delivered(qs, targets, f)
  {
    hide Bytes;
  }

  // One client's state has no influence on what the others are sent: dropping its connection
  // beforehand leaves every other queue as it would have been.
  lemma SlowClientIsIsolated(r: Registry, qs: Queues, slow: Handle, e: string, f: Frame)
    ensures Broadcasted(r, qs, e, f) - {slow} == Broadcasted(r, qs - {slow}, e, f)
    ensures forall id :: Routed(r, qs, id, f) - {slow} == Routed(r, qs - {slow}, id, f)
  {
    hide Delivered, Listeners, Handshaken;
    DeliveredWithout(qs, Listeners(r, e), slow, f);
    DeliveredWithout(qs, Handshaken(r), slow, f);
    forall id
      ensures Routed(r, qs, id, f) - {slow} == Routed(r, qs - {slow}, id, f)
    {
      if id != "" && id in r.idToHdl { GuardedWithout(qs, r.idToHdl[id], slow, f); }
      hide Guarded;
    }
  }

  lemma DeliveredWithout(qs: Queues, targets: set<Handle>, slow: Handle, f: Frame)
    ensures Delivered(qs, targets, f) - {slow} == Delivered(qs - {slow}, targets, f)
  {
    hide Bytes;
  }

  lemma GuardedWithout(qs: Queues, h: Handle, slow: Handle, f: Frame)
    ensures Guarded(qs, h, f) - {slow} == Guarded(qs - {slow}, h, f)
  {
    hide Bytes;
  }

  // A skipped callback loses nothing.
  lemma SkippedPushIsEmpty(r: Registry, qs: Queues, e: string, f: Frame)
    requires IndexAgrees(r) && (forall h :: h in r.sessions ==> r.sessions[h].handshakeDone)
    requires !HasSubscribers(r, e)
    ensures Broadcasted(r, qs, e, f) == qs
  {
    GateIsExact(r, e);
  }
}
