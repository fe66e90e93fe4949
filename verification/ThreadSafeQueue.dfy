// src/ThreadSafeQueue.h: a queue that can drop its oldest item. Beside the object a log remembers
// everything ever pushed and everything ever taken out; what runs do to it is proved on the log.

module ThreadSafeQueue {
  import opened Common

  class ThreadSafeQueue {
    var queue: seq<string>
    ghost var log: Log

    // What the class holds is what its operations so far leave in the queue, and nothing was
    // lost, duplicated or reordered on the way.
    ghost predicate Valid()
      reads this
    {
      log.queue == queue && log.out + queue == log.pushed && |log.out| == log.popped + log.drops
    }

    constructor ()
      ensures Valid() && queue == [] && log == Ran([])
    {
      queue, log := [], Ran([]);
    }

    method Push(msg: string)
      requires Valid()
      modifies this
      ensures Valid() && log == Did(old(log), Op.Push(msg))
      ensures queue == old(queue) + [msg]
    {
      Conserved(log, log.pushed, Op.Push(msg));
      queue := queue + [msg];
      log := Did(log, Op.Push(msg));
    }

    // True when nothing had to be dropped; a limit of zero means no limit.
    method PushWithLimit(msg: string, maxSize: nat) returns (kept: bool)
      requires Valid()
      modifies this
      ensures Valid() && log == Did(old(log), Limited(msg, maxSize))
      ensures kept <==> log.drops == old(log).drops
      ensures kept <==> maxSize == 0 || |old(queue)| < maxSize
      ensures queue == (if kept then old(queue) else old(queue)[1..]) + [msg]
    {
      Conserved(log, log.pushed, Limited(msg, maxSize));
      var dropped := false;
      if maxSize > 0 && |queue| >= maxSize {
        queue := queue[1..];
        dropped := true;
      }
      queue := queue + [msg];
      log := Did(log, Limited(msg, maxSize));
      kept := !dropped;
    }

    method TryPop() returns (out: Option<string>)
      requires Valid()
      modifies this
      ensures Valid() && log == Did(old(log), Pop)
      ensures out == if old(queue) == [] then None else Some(old(queue)[0])
      ensures queue == if old(queue) == [] then [] else old(queue)[1..]
      ensures log.pushed == old(log).pushed && log.drops == old(log).drops
    {
      Conserved(log, log.pushed, Pop);
      log := Did(log, Pop);
      if queue == [] { return None; }
      out := Some(queue[0]);
      queue := queue[1..];
    }

    // After the wait, which ends only when an item is there.
    method PopBlocking() returns (result: string)
      requires Valid() && queue != []
      modifies this
      ensures Valid() && log == Did(old(log), Pop)
      ensures result == old(queue)[0] && queue == old(queue)[1..]
    {
      Conserved(log, log.pushed, Pop);
      log := Did(log, Pop);
      result := queue[0];
      queue := queue[1..];
    }

    // `throws` says for which items the callback throws; it does not push. `seen` are the calls
    // made, `failed` those that ended in an exception.
    method Drain(throws: string -> bool) returns (count: nat, seen: seq<string>, failed: seq<string>)
      requires Valid()
      modifies this
      ensures Valid() && queue == [] && log.pushed == old(log).pushed && log.drops == old(log).drops
      ensures seen == old(queue) && count == |old(queue)|
      ensures failed == Failing(throws, old(queue))
    {
      hide Did, Ran, Failing;
      NoneFailing(throws);
      count, seen, failed := 0, [], [];
      var item := TryPop();
      while item.Some?
        invariant Valid() && log.pushed == old(log).pushed && log.drops == old(log).drops
        invariant seen + (if item.Some? then [item.value] else []) + queue == old(queue)
        invariant item.None? ==> queue == []
        invariant count == |seen| && failed == Failing(throws, seen)
        decreases |queue|, item.Some?
      {
        OneMoreFailing(throws, seen, item.value);
        HeadMoves(seen + [item.value], queue);
        if throws(item.value) {
          failed := failed + [item.value];
        }
        seen := seen + [item.value];
        count := count + 1;
        item := TryPop();
      }
    }
  }

  function Failing(throws: string -> bool, items: seq<string>): seq<string> {
    if items == [] then []
    else
      var last := items[|items| - 1];
      Failing(throws, items[..|items| - 1]) + if throws(last) then [last] else []
  }

  lemma NoneFailing(throws: string -> bool)
    ensures Failing(throws, []) == []
  {
  }

  lemma OneMoreFailing(throws: string -> bool, items: seq<string>, item: string)
    ensures Failing(throws, items + [item]) == Failing(throws, items) + if throws(item) then [item] else []
  {
    assert (items + [item])[..|items|] == items;
  }

  lemma HeadMoves(taken: seq<string>, waiting: seq<string>)
    ensures waiting != [] ==> taken + [waiting[0]] + waiting[1..] == taken + waiting
    ensures taken + [] == taken
  {
  }

  // Every item whose callback throws is in `failed`, as often as it was there, and no other.
  ghost predicate ThrewFor(throws: string -> bool, items: seq<string>, failed: seq<string>) {
    forall x :: multiset(failed)[x] == if throws(x) then multiset(items)[x] else 0
  }

  lemma {:induction false} FailingIsThrowing(throws: string -> bool, items: seq<string>)
    ensures ThrewFor(throws, items, Failing(throws, items))
    decreases |items|
  {
    if items == [] {
    } else {
      var front, last := items[..|items| - 1], items[|items| - 1];
      FailingIsThrowing(throws, front);
      assert items == front + [last];
    }
  }

  // ----- operations and whole runs, as values -----

  datatype Op = Push(msg: string) | Limited(msg: string, max: nat) | Pop

  // `out` is what left the queue, oldest first; `drops` counts the limited pushes that said false.
  datatype Log = Log(queue: seq<string>, pushed: seq<string>, out: seq<string>, popped: nat, drops: nat)

  function Did(l: Log, op: Op): Log {
    match op
    case Push(msg) => l.(queue := l.queue + [msg], pushed := l.pushed + [msg])
    case Limited(msg, max) =>
      if max > 0 && |l.queue| >= max then
        Log(l.queue[1..] + [msg], l.pushed + [msg], l.out + [l.queue[0]], l.popped, l.drops + 1)
      else l.(queue := l.queue + [msg], pushed := l.pushed + [msg])
    case Pop =>
      if l.queue == [] then l
      else l.(queue := l.queue[1..], out := l.out + [l.queue[0]], popped := l.popped + 1)
  }

  function Ran(ops: seq<Op>): Log {
    if ops == [] then Log([], [], [], 0, 0) else Did(Ran(ops[..|ops| - 1]), ops[|ops| - 1])
  }

  // Messages of the pushes of a run, in order.
  function Messages(ops: seq<Op>): seq<string> {
    if ops == [] then []
    else
      var last := ops[|ops| - 1];
      Messages(ops[..|ops| - 1]) + match last case Push(m) => [m] case Limited(m, _) => [m] case Pop => []
  }

  // The operation at `i` takes an item out: a pop that finds one, or a push that finds the queue at
  // its positive limit.
  predicate Takes(ops: seq<Op>, i: nat)
    requires i < |ops|
  {
    var waiting := |Ran(ops[..i]).queue|;
    match ops[i]
    case Push(_) => false
    case Limited(_, max) => 0 < max <= waiting
    case Pop => waiting > 0
  }

  function Taking(ops: seq<Op>): set<nat> { set i: nat | i < |ops| && Takes(ops, i) }

  // In every run, what left the queue followed by what is in it is what was pushed; an item leaves
  // exactly with each pop that finds one and each push that finds the queue at its limit, so drops
  // are such pushes and nothing else; and with one positive limit throughout, the size stays within it.
  lemma {:induction false} QueueConserves(ops: seq<Op>, max: nat)
    ensures var l := Ran(ops);
            && l.out + l.queue == Messages(ops) && |l.out| == l.popped + l.drops == |Taking(ops)|
            && l.drops == |set i: nat | i in Taking(ops) && ops[i].Limited?|
            && ((forall i :: 0 <= i < |ops| ==> ops[i] == Pop || (ops[i].Limited? && ops[i].max == max)) && max > 0 ==>
                  |l.queue| <= max)
    decreases |ops|
  {
    if ops == [] {
    } else {
      var front, last := ops[..|ops| - 1], ops[|ops| - 1];
      QueueConserves(front, max);
      Conserved(Ran(front), Messages(front), last);
      TakingMore(front, last);
      assert front + [last] == ops;
      hide Messages, Taking;
      assert (forall i :: 0 <= i < |ops| ==> ops[i] == Pop || (ops[i].Limited? && ops[i].max == max)) ==>
          forall i :: 0 <= i < |front| ==> front[i] == Pop || (front[i].Limited? && front[i].max == max);
    }
  }

  lemma TakingMore(ops: seq<Op>, op: Op)
    ensures var n, all := |ops|, ops + [op];
            var takes := match op
              case Push(_) => false
              case Limited(_, max) => 0 < max <= |Ran(ops).queue|
              case Pop => |Ran(ops).queue| > 0;
            && |Taking(all)| == |Taking(ops)| + (if takes then 1 else 0)
            && |set i: nat | i in Taking(all) && all[i].Limited?| ==
               |set i: nat | i in Taking(ops) && ops[i].Limited?| + if takes && op.Limited? then 1 else 0
  {
    var all := ops + [op];
    TakingAfter(ops, op);
    hide Ran, Takes;
    var a := set i: nat | i in Taking(all) && all[i].Limited?;
    var b := set i: nat | i in Taking(ops) && ops[i].Limited?;
    assert a == b + if Takes(all, |ops|) && op.Limited? then {|ops|} else {};
  }

  lemma TakingAfter(ops: seq<Op>, op: Op)
    ensures var all := ops + [op];
            && Taking(all) == Taking(ops) + (if Takes(all, |ops|) then {|ops|} else {})
            && (Takes(all, |ops|) <==>
                  match op
                  case Push(_) => false
                  case Limited(_, max) => 0 < max <= |Ran(ops).queue|
                  case Pop => |Ran(ops).queue| > 0)
  {
    hide Ran;
    var all := ops + [op];
    assert all[..|ops|] == ops;
    assert forall i: nat :: i < |ops| ==> all[..i] == ops[..i];
  }

  lemma Conserved(l: Log, sent: seq<string>, op: Op)
    requires l.out + l.queue == sent
    ensures |l.out| == l.popped + l.drops ==> |Did(l, op).out| == Did(l, op).popped + Did(l, op).drops
    ensures Did(l, op).out + Did(l, op).queue ==
            sent + match op case Push(m) => [m] case Limited(m, _) => [m] case Pop => []
  {
    if l.queue != [] {
      assert l.out + l.queue == (l.out + [l.queue[0]]) + l.queue[1..];
    }
  }
}
