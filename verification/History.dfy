// What the entries of one connection say about it: the subscription set its own operations add
// up to, the frames queued on it, and why each of them was.

module History {
  import opened Common
  import opened Messages
  import opened Registry
  import opened Requests
  import opened Protocol
  import Handlers

  // A client's subscription set as its own operations so far determine it.
  function Fold(entries: seq<Entry>): set<string> {
    if entries == [] then {}
    else
      var before := Fold(entries[..|entries| - 1]);
      var last := entries[|entries| - 1];
      if last.Changed? then Applied(before, last.op) else before
  }

  // Everything ever queued on a connection, in order.
  function FramesOf(entries: seq<Entry>): seq<Frame> {
    if entries == [] then []
    else
      var before := FramesOf(entries[..|entries| - 1]);
      var last := entries[|entries| - 1];
      if last.Enqueued? then before + [last.f] else before
  }

  // Every push queued on it, in order.
  function PushesOf(entries: seq<Entry>): seq<Frame> {
    if entries == [] then []
    else
      var before := PushesOf(entries[..|entries| - 1]);
      var last := entries[|entries| - 1];
      if last.Enqueued? && last.answers.None? then before + [last.f] else before
  }

  // The change made by request `ticket` listed these events.
  ghost predicate WasListed(entries: seq<Entry>, events: set<string>, ticket: nat) {
    exists i :: 0 <= i < |entries| && entries[i].Changed? && entries[i].listed == events && entries[i].maker == ticket
  }

  // Every change was made by a request of this very connection that asked for it.
  ghost predicate AskedFor(requests: seq<Request>, entries: seq<Entry>, h: Handle) {
    forall i :: 0 <= i < |entries| && entries[i].Changed? ==> AskedBy(requests, entries[i], h)
  }

  predicate AskedBy(requests: seq<Request>, entry: Entry, h: Handle)
    requires entry.Changed?
  {
    && entry.maker < |requests| && requests[entry.maker].h == h
    && AsksFor(requests[entry.maker].payload, entry.op)
  }

  lemma AskedAppend(requests: seq<Request>, entries: seq<Entry>, entry: Entry, h: Handle)
    requires AskedFor(requests, entries, h) && (entry.Changed? ==> AskedBy(requests, entry, h))
    ensures AskedFor(requests, entries + [entry], h)
  {
    hide AskedBy;
  }

  lemma AskedForever(before: seq<Request>, after: seq<Request>, entries: seq<Entry>, h: Handle)
    requires AskedFor(before, entries, h) && before <= after
    ensures AskedFor(after, entries, h)
  {
    hide AsksFor;
  }

  // Why an entry may follow `before` on connection `h`.
  ghost predicate Justified(before: seq<Entry>, entry: Entry, h: Handle) {
    match entry
    case Changed(op, listed, _) => listed == Applied(Fold(before), op)
    case Lost(_, _) => true
    case Enqueued(f, answers) =>
      match f.cause
      case Inline => answers.Some? && (f.msg.Error? || f.msg.Pong?)
      case PushOf(e) => answers.None? && f.msg.Push? && f.msg.event == e && e in Fold(before)
      case ReplyTo(origin) =>
        && origin == h && answers.Some?
        && f.msg.Response? && Handlers.Coherent(f.msg)
        && (f.msg.events.Some? ==> WasListed(before, f.msg.events.value, answers.value))
  }

  ghost predicate Truthful(entries: seq<Entry>, h: Handle) {
    forall i :: 0 <= i < |entries| ==> Justified(entries[..i], entries[i], h)
  }

  lemma HistoryAppend(entries: seq<Entry>, entry: Entry)
    ensures Fold(entries + [entry]) == if entry.Changed? then Applied(Fold(entries), entry.op) else Fold(entries)
    ensures FramesOf(entries + [entry]) == if entry.Enqueued? then FramesOf(entries) + [entry.f] else FramesOf(entries)
  {
    assert (entries + [entry])[..|entries|] == entries;
  }

  lemma PushesAppend(entries: seq<Entry>, entry: Entry)
    ensures PushesOf(entries + [entry]) ==
            if entry.Enqueued? && entry.answers.None? then PushesOf(entries) + [entry.f] else PushesOf(entries)
  {
    assert (entries + [entry])[..|entries|] == entries;
  }

  lemma ListedForever(before: seq<Entry>, after: seq<Entry>, events: set<string>, ticket: nat)
    requires before <= after && WasListed(before, events, ticket)
    ensures WasListed(after, events, ticket)
  {
    var i :| 0 <= i < |before| && before[i].Changed? && before[i].listed == events && before[i].maker == ticket;
    assert after[i] == before[i];
  }

  lemma TruthfulAppend(entries: seq<Entry>, entry: Entry, h: Handle)
    requires Truthful(entries, h) && Justified(entries, entry, h)
    ensures Truthful(entries + [entry], h)
  {
    forall i | 0 <= i < |entries + [entry]|
      ensures Justified((entries + [entry])[..i], (entries + [entry])[i], h)
    {
      assert (entries + [entry])[..i] == entries[..i];
      assert entries[..|entries|] == entries;
    }
  }
}
