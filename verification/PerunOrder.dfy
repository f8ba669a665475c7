/** The order in which the messages of a leaf leave for the tower. */
module PerunOrder {
  import opened PerunTower
  import opened PerunFeed

  /** What leaf `i` takes into its queue in one step. */
  function TakenIn(f: Feed, e: Event, i: nat): seq<Msg>
    requires i < |f.leaves|
  {
    if e.EnqueueMsg? && e.leaf == i && |f.leaves[i].queue| < 1024 then [e.m] else []
  }

  /** What its sender begins to deliver in a step that leads to `f1`. */
  function SentOff(f1: Feed, e: Event, i: nat): seq<Msg>
    requires i < |f1.leaves|
  {
    if e == TakeItem(i) && f1.leaves[i].current.Some? then [f1.leaves[i].current.value] else []
  }

  lemma OrderStep(f: Feed, id: Id, e: Event, i: nat)
    requires Good(f.tower) && i < |f.leaves| && Step(f, id, e).Some?
    ensures |Step(f, id, e).value.leaves| == |f.leaves|
    ensures e != Restart(i) ==>
              f.leaves[i].queue + TakenIn(f, e, i)
              == SentOff(Step(f, id, e).value, e, i) + Step(f, id, e).value.leaves[i].queue
  {
    var q := f.leaves[i].queue;
    if e == TakeItem(i) {
      assert q == [q[0]] + q[1..];
    }
  }

  /** All that leaf `i` takes into its queue in a run, in order. */
  ghost function AllTakenIn(f: Feed, id: Id, run: seq<Event>, i: nat): seq<Msg>
    requires Good(f.tower) && i < |f.leaves| && PerunFeed.Exec(f, id, run).Some?
    decreases |run|
  {
    if run == [] then []
    else
      StepKeepsGood(f, id, run[0]);
      OrderStep(f, id, run[0], i);
      TakenIn(f, run[0], i) + AllTakenIn(Step(f, id, run[0]).value, id, run[1..], i)
  }

  /** All that its sender begins to deliver, in order. */
  ghost function AllSentOff(f: Feed, id: Id, run: seq<Event>, i: nat): seq<Msg>
    requires Good(f.tower) && i < |f.leaves| && PerunFeed.Exec(f, id, run).Some?
    decreases |run|
  {
    if run == [] then []
    else
      StepKeepsGood(f, id, run[0]);
      OrderStep(f, id, run[0], i);
      var f1 := Step(f, id, run[0]).value;
      SentOff(f1, run[0], i) + AllSentOff(f1, id, run[1..], i)
  }

  lemma Grouped(a: seq<Msg>, b: seq<Msg>, c: seq<Msg>)
    ensures (a + b) + c == a + (b + c)
  {
  }

  /** First in, first out: what a leaf, which does not restart, begins to deliver is what
      it has queued, in the same order and without gaps; the rest is still in the queue. */
  lemma {:induction false} LeavesInOrder(f: Feed, id: Id, run: seq<Event>, i: nat)
    requires Good(f.tower) && i < |f.leaves| && PerunFeed.Exec(f, id, run).Some? && Restart(i) !in run
    ensures var f' := PerunFeed.Exec(f, id, run).value;
            && i < |f'.leaves|
            && f.leaves[i].queue + AllTakenIn(f, id, run, i) == AllSentOff(f, id, run, i) + f'.leaves[i].queue
    decreases |run|
  {
    if run == [] {
      assert f.leaves[i].queue + [] == [] + f.leaves[i].queue;
    } else {
      var e := run[0];
      var f1 := Step(f, id, e).value;
      StepKeepsGood(f, id, e);
      OrderStep(f, id, e, i);
      LeavesInOrder(f1, id, run[1..], i);
      var rest, sent := AllTakenIn(f1, id, run[1..], i), AllSentOff(f1, id, run[1..], i);
      Grouped(f.leaves[i].queue, TakenIn(f, e, i), rest);
      Grouped(SentOff(f1, e, i), f1.leaves[i].queue, rest);
      Grouped(SentOff(f1, e, i), sent, PerunFeed.Exec(f, id, run).value.leaves[i].queue);
    }
  }
}
