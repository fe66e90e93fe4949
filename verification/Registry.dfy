// The session tables of src/WebSocketServer.h as a value, and the critical sections that
// change them as functions. The class in WebSocketServer.dfy refines each of them with the
// loops of the source; the step relation in Protocol.dfy interleaves them.

module Registry {
  import opened Common
  import opened Messages

  datatype Session = Session(clientId: string, handshakeDone: bool, subs: set<string>)

  datatype Registry = Registry(
    sessions: map<Handle, Session>,
    idToHdl: map<string, Handle>,
    counts: map<string, nat>)

  const EMPTY := Registry(map[], map[], map[])

  // ----- the per-event counters -----

  const SIZE_MAX: nat := 0xFFFF_FFFF

  // `--n` on a size_t: wraps at zero.
  function Decremented(n: nat): nat {
    if n == 0 then SIZE_MAX else n - 1
  }

  function CountOf(counts: map<string, nat>, e: string): nat {
    if e in counts then counts[e] else 0
  }

  // Every counter named in `events` decremented, and erased when that makes it zero.
  function Released(counts: map<string, nat>, events: set<string>): map<string, nat> {
    map e | e in counts && (e in events ==> Decremented(counts[e]) != 0)
      :: if e in events then Decremented(counts[e]) else counts[e]
  }

  // Every counter named in `events` incremented, created at zero first where it is missing.
  function Acquired(counts: map<string, nat>, events: set<string>): map<string, nat> {
    map e | e in counts.Keys + events :: CountOf(counts, e) + if e in events then 1 else 0
  }

  // ----- critical sections -----

  function Opened(r: Registry, h: Handle, id: string): Registry {
    r.(sessions := r.sessions[h := Session(id, true, {})], idToHdl := r.idToHdl[id := h])
  }

  function Closed(r: Registry, h: Handle): Registry {
    if h !in r.sessions then r else
      Registry(r.sessions - {h}, r.idToHdl - {r.sessions[h].clientId}, Released(r.counts, r.sessions[h].subs))
  }

  datatype SubOp = Subscribe(events: set<string>) | Unsubscribe(events: set<string>)

  // A client's subscription set after one operation; an empty unsubscribe clears it.
  function Applied(subs: set<string>, op: SubOp): set<string> {
    match op
    case Subscribe(events) => subs + events
    case Unsubscribe(events) => if events == {} then {} else subs - events
  }

  function Resubscribed(r: Registry, h: Handle, op: SubOp): Registry
    requires h in r.sessions
  {
    var before := r.sessions[h].subs;
    var after := Applied(before, op);
    Registry(
      r.sessions[h := r.sessions[h].(subs := after)],
      r.idToHdl,
      if op.Subscribe? then Acquired(r.counts, after - before) else Released(r.counts, before - after))
  }

  predicate HasSubscribers(r: Registry, e: string) {
    e in r.counts && r.counts[e] > 0
  }

  // The filter of `Broadcast`.
  predicate Listens(r: Registry, h: Handle, e: string) {
    h in r.sessions && r.sessions[h].handshakeDone && e in r.sessions[h].subs
  }

  // ----- consistency -----

  function Subscribers(sessions: map<Handle, Session>, e: string): set<Handle> {
    set h | h in sessions && e in sessions[h].subs
  }

  // The counters agree with the sets they summarise, and none is kept at zero.
  ghost predicate IndexAgrees(r: Registry) {
    && (forall e :: CountOf(r.counts, e) == |Subscribers(r.sessions, e)|)
    && (forall e :: e in r.counts ==> r.counts[e] > 0)
  }

  ghost predicate MapsInverse(r: Registry) {
    && (forall h :: h in r.sessions ==> r.sessions[h].clientId in r.idToHdl && r.idToHdl[r.sessions[h].clientId] == h)
    && (forall id :: id in r.idToHdl ==> r.idToHdl[id] in r.sessions && r.sessions[r.idToHdl[id]].clientId == id)
  }

  ghost predicate Consistent(r: Registry) {
    IndexAgrees(r) && MapsInverse(r)
  }

  lemma SubscribersWithout(sessions: map<Handle, Session>, h: Handle, e: string)
    requires h in sessions
    ensures |Subscribers(sessions - {h}, e)| == |Subscribers(sessions, e)| - if e in sessions[h].subs then 1 else 0
  {
    assert Subscribers(sessions - {h}, e) == Subscribers(sessions, e) - {h};
  }

  lemma SubscribersUpdated(sessions: map<Handle, Session>, h: Handle, s: Session, e: string)
    requires h in sessions
    ensures |Subscribers(sessions[h := s], e)| ==
            |Subscribers(sessions, e)| - (if e in sessions[h].subs then 1 else 0) + if e in s.subs then 1 else 0
  {
    var rest := Subscribers(sessions, e) - {h};
    assert Subscribers(sessions[h := s], e) == if e in s.subs then rest + {h} else rest;
    assert Subscribers(sessions, e) == if e in sessions[h].subs then rest + {h} else rest;
  }

  // No decrement can wrap: an event some session holds has a positive counter.
  lemma HeldIsCounted(r: Registry, h: Handle, e: string)
    requires IndexAgrees(r) && h in r.sessions && e in r.sessions[h].subs
    ensures e in r.counts && r.counts[e] >= 1 && Decremented(r.counts[e]) == r.counts[e] - 1
  {
    assert h in Subscribers(r.sessions, e);
    assert CountOf(r.counts, e) == |Subscribers(r.sessions, e)|;
  }

  // The keys of the index are exactly the events somebody is subscribed to.
  lemma KeysAreTheUnion(r: Registry)
    requires IndexAgrees(r)
    ensures r.counts.Keys == set h, e | h in r.sessions && e in r.sessions[h].subs :: e
  {
    forall e | e in r.counts
      ensures exists h :: h in r.sessions && e in r.sessions[h].subs
    {
      assert |Subscribers(r.sessions, e)| > 0;
      var h :| h in Subscribers(r.sessions, e);
    }
    forall h, e | h in r.sessions && e in r.sessions[h].subs
      ensures e in r.counts
    {
      HeldIsCounted(r, h, e);
    }
  }

  lemma OpenedConsistent(r: Registry, h: Handle, id: string)
    requires Consistent(r) && h !in r.sessions && id !in r.idToHdl
    ensures Consistent(Opened(r, h, id))
  {
    var r' := Opened(r, h, id);
    forall e
      ensures CountOf(r'.counts, e) == |Subscribers(r'.sessions, e)|
    {
      assert Subscribers(r'.sessions, e) == Subscribers(r.sessions, e);
    }
  }

  lemma ClosedConsistent(r: Registry, h: Handle)
    requires Consistent(r)
    ensures Consistent(Closed(r, h))
  {
    if h in r.sessions {
      var r' := Closed(r, h);
      forall e
        ensures CountOf(r'.counts, e) == |Subscribers(r'.sessions, e)|
      {
        SubscribersWithout(r.sessions, h, e);
        if e in r.sessions[h].subs { HeldIsCounted(r, h, e); }
      }
      forall e | e in r'.counts
        ensures r'.counts[e] > 0
      {
        if e in r.sessions[h].subs { HeldIsCounted(r, h, e); }
      }
    }
  }

  lemma ResubscribedConsistent(r: Registry, h: Handle, op: SubOp)
    requires Consistent(r) && h in r.sessions
    ensures Consistent(Resubscribed(r, h, op))
    ensures forall e :: e in Resubscribed(r, h, op).sessions[h].subs <==>
              if op.Subscribe? then e in r.sessions[h].subs || e in op.events
              else e in r.sessions[h].subs && op.events != {} && e !in op.events
  {
    var r' := Resubscribed(r, h, op);
    forall e
      ensures CountOf(r'.counts, e) == |Subscribers(r'.sessions, e)|
      ensures e in r'.counts ==> r'.counts[e] > 0
    {
      SubscribersUpdated(r.sessions, h, r'.sessions[h], e);
      if e in r.sessions[h].subs { HeldIsCounted(r, h, e); }
    }
  }

  // The cheap question asked by every callback has the answer the push filter would give.
  lemma GateIsExact(r: Registry, e: string)
    requires IndexAgrees(r) && forall h :: h in r.sessions ==> r.sessions[h].handshakeDone
    ensures HasSubscribers(r, e) <==> exists h :: Listens(r, h, e)
  {
    if HasSubscribers(r, e) {
      assert CountOf(r.counts, e) == |Subscribers(r.sessions, e)|;
      var h :| h in Subscribers(r.sessions, e);
      assert Listens(r, h, e);
    }
    if h :| Listens(r, h, e) {
      HeldIsCounted(r, h, e);
    }
  }
}
