// What a client is subscribed to, told by its own messages alone: an event is in its set exactly
// when it has subscribed it and has not since unsubscribed it, by name or with an empty list.

module Subscriptions {
  import opened Common
  import opened Messages
  import opened Registry
  import opened Network
  import opened Requests
  import opened Protocol
  import opened History
  import opened Invariants
  import opened Locking
  import opened Accounts
  import opened Safety

  // ----- one change -----

  // What the operation a message asks for does to a set.
  lemma AppliedSays(payload: Payload, op: SubOp, before: set<string>, e: string)
    requires AsksFor(payload, op)
    ensures e in Applied(before, op) <==> Subscribes(payload, e) || (e in before && !Unsubscribes(payload, e))
    ensures HasType(payload, "subscribe") || HasType(payload, "unsubscribe")
  {
    EventsNamed(payload);
    assert |"subscribe"| != |"unsubscribe"|;
    var events := RequestedEvents(payload.j).value;
    assert events == {} <==> NamesNone(payload) by {
      if events != {} {
        var x :| x in events;
        assert Names(payload, x);
      }
    }
    hide RequestedEvents, Names, NamesNone;
  }

  // ----- over a history -----

  predicate Adds(requests: seq<Request>, entry: Entry, e: string) {
    entry.Changed? && entry.maker < |requests| && Subscribes(requests[entry.maker].payload, e)
  }

  ghost predicate Removes(requests: seq<Request>, entry: Entry, e: string) {
    entry.Changed? && entry.maker < |requests| && Unsubscribes(requests[entry.maker].payload, e)
  }

  // Some change subscribed `e`, and no later one unsubscribed it.
  ghost predicate Held(requests: seq<Request>, entries: seq<Entry>, e: string) {
    exists i :: 0 <= i < |entries| && Adds(requests, entries[i], e)
                && forall j :: i < j < |entries| ==> !Removes(requests, entries[j], e)
  }

  lemma HeldAppend(requests: seq<Request>, entries: seq<Entry>, entry: Entry, e: string)
    ensures Held(requests, entries + [entry], e) <==>
            Adds(requests, entry, e) || (Held(requests, entries, e) && !Removes(requests, entry, e))
  {
    hide Adds, Removes;
    var all := entries + [entry];
    assert all[|entries|] == entry && forall i :: 0 <= i < |entries| ==> all[i] == entries[i];
    if Held(requests, entries, e) && !Removes(requests, entry, e) {
      var i :| 0 <= i < |entries| && Adds(requests, entries[i], e)
               && forall j :: i < j < |entries| ==> !Removes(requests, entries[j], e);
      assert Adds(requests, all[i], e) && forall j :: i < j < |all| ==> !Removes(requests, all[j], e);
    }
    if Adds(requests, entry, e) {
      assert Adds(requests, all[|entries|], e);
    }
    if Held(requests, all, e) && !Adds(requests, entry, e) {
      var i :| 0 <= i < |all| && Adds(requests, all[i], e)
               && forall j :: i < j < |all| ==> !Removes(requests, all[j], e);
      assert !Removes(requests, all[|entries|], e);
      assert Adds(requests, entries[i], e);
      forall j | i < j < |entries|
        ensures !Removes(requests, entries[j], e)
      {
        assert !Removes(requests, all[j], e);
      }
    }
  }

  lemma {:induction false} FoldIsHeld(requests: seq<Request>, entries: seq<Entry>, h: Handle, e: string)
    requires AskedFor(requests, entries, h)
    ensures e in Fold(entries) <==> Held(requests, entries, e)
    decreases |entries|
  {
    hide Adds, Removes, Held, AskedBy;
    if entries == [] {
      assert !Held(requests, entries, e) by { NothingHeld(requests, e); }
    } else {
      var front, last := entries[..|entries| - 1], entries[|entries| - 1];
      assert front + [last] == entries;
      AskedFront(requests, entries, h);
      FoldIsHeld(requests, front, h, e);
      HeldAppend(requests, front, last, e);
      HistoryAppend(front, last);
      ChangeSays(requests, last, h, Fold(front), e);
    }
  }

  lemma NothingHeld(requests: seq<Request>, e: string)
    ensures !Held(requests, [], e)
  {
  }

  lemma AskedFront(requests: seq<Request>, entries: seq<Entry>, h: Handle)
    requires AskedFor(requests, entries, h) && entries != []
    ensures AskedFor(requests, entries[..|entries| - 1], h)
    ensures entries[|entries| - 1].Changed? ==> AskedBy(requests, entries[|entries| - 1], h)
  {
    hide AskedBy;
  }

  // What one entry does to the set.
  lemma ChangeSays(requests: seq<Request>, entry: Entry, h: Handle, before: set<string>, e: string)
    requires entry.Changed? ==> AskedBy(requests, entry, h)
    ensures e in (if entry.Changed? then Applied(before, entry.op) else before) <==>
            Adds(requests, entry, e) || (e in before && !Removes(requests, entry, e))
  {
    hide Subscribes, Unsubscribes;
    if entry.Changed? { AppliedSays(requests[entry.maker].payload, entry.op, before, e); }
  }

  // ----- over all runs -----

  // A change made by request `k` before entry `i` left the client with exactly `events`.
  ghost predicate LeftWith(s: State, entries: seq<Entry>, i: nat, k: nat, events: set<string>)
    requires i <= |entries|
  {
    exists j :: 0 <= j < i && entries[j].Changed? && entries[j].maker == k
                && forall e :: e in events <==> Held(s.requests, entries[..j + 1], e)
  }

  lemma HeldInPrefix(cfg: Config, s: State, h: Handle, n: nat, e: string)
    requires Reachable(cfg, s) && h in s.history && n <= |s.history[h]|
    ensures e in Fold(s.history[h][..n]) <==> Held(s.requests, s.history[h][..n], e)
  {
    hide Inv, Orderly, Reachable, Fold, Held, AskedBy, Truthful, Exec, Enabled;
    InvReachable(cfg, s);
    HistoryFacts(s, h);
    FoldIsHeld(s.requests, s.history[h][..n], h, e);
  }

  // In every reachable state a session holds an event exactly when the client's own messages say so,
  // a push is queued only while they do, and a reply to a subscription request that reports success
  // lists exactly what they say at the change its request made.
  lemma SetsAreWhatWasAsked(cfg: Config, s: State, h: Handle)
    requires Reachable(cfg, s) && h in s.history
    ensures h in s.reg.sessions ==>
              forall e :: e in s.reg.sessions[h].subs <==> Held(s.requests, s.history[h], e)
    ensures forall i :: 0 <= i < |s.history[h]| && s.history[h][i].Enqueued? && s.history[h][i].f.cause.PushOf? ==>
              Held(s.requests, s.history[h][..i], s.history[h][i].f.cause.event)
    ensures forall i :: 0 <= i < |s.history[h]| && RepliesToSubscription(s, s.history[h][i]) ==>
              var m := s.history[h][i].f.msg;
              && (m.success <==> m.events.Some?)
              && (m.success ==> LeftWith(s, s.history[h], i, s.history[h][i].answers.value, m.events.value))
  {
    hide Reachable, Fold, Held, LeftWith, HasType;
    var entries := s.history[h];
    assert entries[..|entries|] == entries;
    forall e: string
      ensures h in s.reg.sessions ==> (e in s.reg.sessions[h].subs <==> Held(s.requests, entries, e))
    {
      hide Inv, Orderly, AskedBy, Truthful;
      InvReachable(cfg, s);
      HistoryFacts(s, h);
      HeldInPrefix(cfg, s, h, |entries|, e);
    }
    forall i | 0 <= i < |entries| && entries[i].Enqueued? && entries[i].f.cause.PushOf?
      ensures Held(s.requests, entries[..i], entries[i].f.cause.event)
    {
      PushesFollowSubscriptions(cfg, s, h, i);
      HeldInPrefix(cfg, s, h, i, entries[i].f.cause.event);
    }
    forall i | 0 <= i < |entries| && RepliesToSubscription(s, entries[i])
      ensures entries[i].Enqueued? && entries[i].f.msg.Response? && entries[i].answers.Some?
      ensures var m := entries[i].f.msg;
              && (m.success <==> m.events.Some?)
              && (m.success ==> LeftWith(s, entries, i, entries[i].answers.value, m.events.value))
    {
      ReplyListsHeld(cfg, s, h, i);
    }
  }

  predicate RepliesToSubscription(s: State, entry: Entry) {
    && entry.Enqueued? && entry.f.msg.Response? && entry.answers.Some? && entry.answers.value < |s.requests|
    && var payload := s.requests[entry.answers.value].payload;
    && (HasType(payload, "subscribe") || HasType(payload, "unsubscribe"))
  }

  lemma ReplyListsHeld(cfg: Config, s: State, h: Handle, i: nat)
    requires Reachable(cfg, s) && h in s.history && i < |s.history[h]| && RepliesToSubscription(s, s.history[h][i])
    ensures var m := s.history[h][i].f.msg;
            && (m.success <==> m.events.Some?)
            && (m.success ==> LeftWith(s, s.history[h], i, s.history[h][i].answers.value, m.events.value))
  {
    hide Reachable, Fold, Held, AskedBy;
    RepliesListTheFold(cfg, s, h, i);
    var entries, entry := s.history[h], s.history[h][i];
    var m, k := entry.f.msg, entry.answers.value;
    assert AboutEvents(s.requests[k].payload);
    if m.success {
      var j :| 0 <= j < i && entries[j].Changed? && entries[j].maker == k && m.events.value == Fold(entries[..j + 1]);
      forall e
        ensures e in m.events.value <==> Held(s.requests, entries[..j + 1], e)
      {
        HeldInPrefix(cfg, s, h, j + 1, e);
      }
    }
  }
}
