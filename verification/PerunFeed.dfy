/** The leaf side of the Ethereum tower: a bounded queue per channel and a sender that
    retries, two leaves that feed one tower for one channel. Messages may be applied
    without the leaf learning it, applied again, or applied late; leaves and
    the tower may restart. */
module PerunFeed {
  import opened Options
  import opened PerunTower

  const CAPACITY := 1024

  /** `enqueue` after the encoding: the queue afterwards, and whether the item got in. */
  function Offer<T>(queue: seq<T>, item: T): (seq<T>, bool) {
    if |queue| < CAPACITY then (queue + [item], true) else (queue, false)
  }

  /** `teeWatcher`: the queues of one leaf. The local watcher is a parameter. */
  class TeeWatcher {
    var queue: map<Id, seq<Msg>>

    function Queued(id: Id): seq<Msg>
      reads this
    {
      if id in queue then queue[id] else []
    }

    constructor ()
      ensures queue == map[]
    {
      queue := map[];
    }

    /** A full queue drops the new item and keeps the old ones; a message that cannot
        be encoded is not queued; other channels are left alone. */
    method Enqueue(id: Id, m: Msg, encoded: bool) returns (kept: bool)
      modifies this
      ensures kept <==> encoded && |old(Queued(id))| < 1024
      ensures Queued(id) == if encoded then Offer(old(Queued(id)), m).0 else old(Queued(id))
      ensures forall x | x != id :: Queued(x) == old(Queued(x))
    {
      if !encoded {
        return false;
      }
      if id !in queue {
        queue := queue[id := []];
      }
      if |queue[id]| < CAPACITY {
        queue := queue[id := queue[id] + [m]];
        kept := true;
      } else {
        kept := false;
      }
    }

    /** The tower hears of a channel only if the local watcher takes it. */
    method StartWatchingLedgerChannel(id: Id, version: nat, localWorks: bool, encoded: bool) returns (ok: bool)
      modifies this
      ensures ok == localWorks
      ensures Queued(id) == if localWorks && encoded then Offer(old(Queued(id)), Start(id, Some(version))).0
                            else old(Queued(id))
    {
      if !localWorks {
        return false;
      }
      var _ := Enqueue(id, Start(id, Some(version)), encoded);
      ok := true;
    }

    /** A published state goes to the tower even if the local watcher fails. */
    method PublishState(id: Id, version: nat, localWorks: bool, encoded: bool) returns (ok: bool)
      modifies this
      ensures ok == localWorks
      ensures Queued(id) == if encoded then Offer(old(Queued(id)), Update(id, Some(version))).0 else old(Queued(id))
    {
      var _ := Enqueue(id, Update(id, Some(version)), encoded);
      ok := localWorks;
    }

    method StopWatching(id: Id, localWorks: bool, encoded: bool) returns (ok: bool)
      modifies this
      ensures ok == localWorks
      ensures Queued(id) == if encoded then Offer(old(Queued(id)), Stop(id)).0 else old(Queued(id))
    {
      var _ := Enqueue(id, Stop(id), encoded);
      ok := localWorks;
    }
  }

  /** What can happen to one delivery attempt. */
  datatype Attempt = NotDelivered | ReplyLost | Answered

  /** `sender` for one item: it repeats the attempt until it gets an answer, whatever
      the answer is. The watcher of the tower may work on one attempt and fail on the
      next. However often the tower applied the message, it ends up with the version it
      had or with that of one delivery; after OK it is that of one delivery. */
  method SendItem(t: Tower, m: Msg, attempts: nat -> Attempt, works: nat -> bool, ghost last: nat)
    returns (t': Tower, ok: bool)
    requires Good(t) && attempts(last) == Answered
    ensures Good(t') && (t'.seen == t.seen || t'.seen == Apply(t, m, true).0.seen)
    ensures ok ==> t'.seen == Apply(t, m, true).0.seen
    ensures (forall n :: works(n)) ==> t'.seen == Apply(t, m, true).0.seen && ok == Apply(t, m, true).1
  {
    t' := t;
    ApplyKeepsGood(t, m, true);
    var n := 0;
    while attempts(n) != Answered
      invariant n <= last && Good(t') && (t' == t || t'.seen == Apply(t, m, true).0.seen)
      decreases last - n
    {
      if attempts(n) == ReplyLost {
        Repeats(t, t', m, works(n));
        t' := Apply(t', m, works(n)).0;
      }
      n := n + 1;
    }
    Repeats(t, t', m, works(n));
    ok := Apply(t', m, works(n)).1;
    t' := Apply(t', m, works(n)).0;
  }

  lemma SameUpdate(seen: map<Id, nat>, id: Id, v: nat)
    requires id in seen && seen[id] == v
    ensures seen[id := v] == seen
  {
  }

  lemma SameRemoval(seen: map<Id, nat>, id: Id)
    ensures (seen - {id}) - {id} == seen - {id}
    ensures id !in seen ==> seen - {id} == seen
  {
  }

  /** A delivery, after earlier ones of the same message or as the first: it leaves
      everything as it is, or the version of one delivery; after OK it is the latter. */
  lemma Repeats(t: Tower, t': Tower, m: Msg, works: bool)
    requires Good(t) && Good(t')
    requires t' == t || t'.seen == Apply(t, m, true).0.seen
    ensures var r := Apply(t', m, works);
            && Good(r.0) && (r.0 == t || r.0.seen == Apply(t, m, true).0.seen)
            && (r.1 ==> r.0.seen == Apply(t, m, true).0.seen)
            && (works ==> r.0.seen == Apply(t, m, true).0.seen && r.1 == Apply(t, m, true).1)
  {
    ApplyKeepsGood(t', m, works);
    assert forall id :: (id in t.pubs <==> id in t.seen) && (id in t'.pubs <==> id in t'.seen);
    match m
    case Start(id, state) => RepeatsState(t, t', m, id, state, works);
    case Update(id, state) => RepeatsState(t, t', m, id, state, works);
    case Stop(id) => SameRemoval(t.seen, id);
    case Other(_) =>
  }

  lemma RepeatsState(t: Tower, t': Tower, m: Msg, id: Id, state: Option<nat>, works: bool)
    requires SameKeys(t) && SameKeys(t') && (m == Start(id, state) || m == Update(id, state))
    requires t' == t || t'.seen == Apply(t, m, true).0.seen
    ensures var r := Apply(t', m, works);
            && (r.0 == t || r.0.seen == Apply(t, m, true).0.seen)
            && (r.1 ==> r.0.seen == Apply(t, m, true).0.seen)
            && (works ==> r.0.seen == Apply(t, m, true).0.seen && r.1 == Apply(t, m, true).1)
  {
    assert (id in t.pubs <==> id in t.seen) && (id in t'.pubs <==> id in t'.seen);
    if state.Some? && id in t'.seen && t'.seen[id] == state.value {
      SameUpdate(t'.seen, id, state.value);
    }
  }

  // ---- two leaves, one tower, one channel ----

  /** `kept` is history: the versions that this leaf has queued and that no restart of
      the leaf or of the tower has lost. `refused` says whether the tower ever answered
      ERR to this leaf. */
  datatype Leaf = Leaf(queue: seq<Msg>, current: Option<Msg>, kept: set<nat>, refused: bool)

  /** `sent` holds every message that has left for the tower since it was started. */
  datatype Feed = Feed(leaves: seq<Leaf>, tower: Tower, sent: set<Msg>)

  datatype Event =
    | EnqueueMsg(leaf: nat, m: Msg)
    | TakeItem(leaf: nat)
    | Attempt(leaf: nat, works: bool, answered: bool)   // applied, and answered or not
    | Stray(m: Msg, works: bool)                        // an old attempt is applied late
    | Restart(leaf: nat)
    | TowerRestart                                      // both maps are gone

  function VersionsIn(ms: seq<Msg>, id: Id): set<nat> {
    set i | 0 <= i < |ms| && Brings(ms[i], id).Some? :: Brings(ms[i], id).value
  }

  function CurrentVersion(l: Leaf, id: Id): set<nat> {
    if l.current.Some? && Brings(l.current.value, id).Some? then {Brings(l.current.value, id).value} else {}
  }

  function Step(f: Feed, id: Id, e: Event): Option<Feed>
    requires SameKeys(f.tower)
  {
    match e
    case EnqueueMsg(i, m) =>
      if i >= |f.leaves| then None else
      var l := f.leaves[i];
      var (queue, got) := Offer(l.queue, m);
      var kept := if got then l.kept + VersionsIn([m], id) else l.kept;
      Some(f.(leaves := f.leaves[i := l.(queue := queue, kept := kept)]))
    case TakeItem(i) =>
      if i >= |f.leaves| || f.leaves[i].current.Some? || f.leaves[i].queue == [] then None else
      var l := f.leaves[i];
      Some(f.(leaves := f.leaves[i := l.(queue := l.queue[1..], current := Some(l.queue[0]))],
              sent := f.sent + {l.queue[0]}))
    case Attempt(i, works, answered) =>
      if i >= |f.leaves| || f.leaves[i].current.None? then None else
      var l := f.leaves[i];
      var (t, ok) := Apply(f.tower, l.current.value, works);
      var l' := if answered then l.(current := None, refused := l.refused || !ok) else l;
      Some(f.(tower := t, leaves := f.leaves[i := l']))
    case Stray(m, works) =>
      if m !in f.sent then None else Some(f.(tower := Apply(f.tower, m, works).0))
    case Restart(i) =>
      if i >= |f.leaves| then None else
      var l := f.leaves[i];
      var kept := l.kept - VersionsIn(l.queue, id) - CurrentVersion(l, id);
      Some(f.(leaves := f.leaves[i := Leaf([], None, kept, l.refused)]))
    case TowerRestart =>
      Some(Feed(seq(|f.leaves|, i requires 0 <= i < |f.leaves| => Forgotten(f.leaves[i], id)), Tower(map[], map[]),
                set l | l in f.leaves && l.current.Some? :: l.current.value))
  }

  /** A leaf when the tower restarts: only what is still on its way will get there. */
  function Forgotten(l: Leaf, id: Id): Leaf {
    l.(kept := VersionsIn(l.queue, id) + CurrentVersion(l, id))
  }

  function InitFeed(leaves: nat): Feed {
    Feed(seq(leaves, _ => Leaf([], None, {}, false)), Tower(map[], map[]), {})
  }

  ghost function Exec(f: Feed, id: Id, run: seq<Event>): (r: Option<Feed>)
    requires Good(f.tower)
    ensures r.Some? ==> Good(r.value.tower)
    decreases |run|
  {
    if run == [] then Some(f)
    else
      StepKeepsGood(f, id, run[0]);
      var f1 := Step(f, id, run[0]);
      if f1.None? then None else Exec(f1.value, id, run[1..])
  }

  lemma StepKeepsGood(f: Feed, id: Id, e: Event)
    requires Good(f.tower)
    ensures Step(f, id, e).Some? ==> Good(Step(f, id, e).value.tower)
  {
    match e
    case Attempt(i, works, _) =>
      if i < |f.leaves| && f.leaves[i].current.Some? {
        ApplyKeepsGood(f.tower, f.leaves[i].current.value, works);
      }
    case Stray(m, works) => ApplyKeepsGood(f.tower, m, works);
    case _ =>
  }

  predicate NeverStopped(run: seq<Event>, id: Id) {
    forall i | 0 <= i < |run| && run[i].EnqueueMsg? :: run[i].m != Stop(id)
  }

  ghost predicate NoStopAround(f: Feed, id: Id) {
    && Stop(id) !in f.sent
    && forall i | 0 <= i < |f.leaves| ::
         Stop(id) !in f.leaves[i].queue && f.leaves[i].current != Some(Stop(id))
  }

  ghost predicate Holds(t: Tower, id: Id, v: nat) {
    id in t.seen && v <= t.seen[id]
  }

  /** A version that a leaf has queued waits, or the tower holds it or a newer one. */
  ghost predicate LeafInv(l: Leaf, t: Tower, id: Id) {
    l.refused ||
    forall v | v in l.kept :: v in VersionsIn(l.queue, id) || v in CurrentVersion(l, id) || Holds(t, id, v)
  }

  ghost predicate FeedInv(f: Feed, id: Id) {
    && Good(f.tower) && NoStopAround(f, id)
    && forall i | 0 <= i < |f.leaves| :: LeafInv(f.leaves[i], f.tower, id)
  }

  /** Without a stop the version that the tower holds never shrinks. */
  lemma ApplyMonotone(t: Tower, m: Msg, works: bool, id: Id)
    requires Good(t) && m != Stop(id)
    ensures var (t', ok) := Apply(t, m, works);
            && (forall v | Holds(t, id, v) :: Holds(t', id, v))
            && (ok && Brings(m, id).Some? ==> Holds(t', id, Brings(m, id).value))
  {
  }

  lemma EnqueueInv(f: Feed, id: Id, i: nat, m: Msg)
    requires FeedInv(f, id) && m != Stop(id) && Step(f, id, EnqueueMsg(i, m)).Some?
    ensures FeedInv(Step(f, id, EnqueueMsg(i, m)).value, id)
  {
    var l, l' := f.leaves[i], Step(f, id, EnqueueMsg(i, m)).value.leaves[i];
    if l'.queue == l.queue + [m] {
      forall v | v in VersionsIn(l.queue, id) + VersionsIn([m], id) ensures v in VersionsIn(l'.queue, id) {
        if v in VersionsIn(l.queue, id) {
          var j :| 0 <= j < |l.queue| && Brings(l.queue[j], id) == Some(v);
          assert l'.queue[j] == l.queue[j];
        } else {
          assert l'.queue[|l.queue|] == m;
        }
      }
    }
  }

  lemma TakeInv(f: Feed, id: Id, i: nat)
    requires FeedInv(f, id) && Step(f, id, TakeItem(i)).Some?
    ensures FeedInv(Step(f, id, TakeItem(i)).value, id)
  {
    var l, l' := f.leaves[i], Step(f, id, TakeItem(i)).value.leaves[i];
    forall v | v in VersionsIn(l.queue, id)
      ensures v in VersionsIn(l'.queue, id) || v in CurrentVersion(l', id)
    {
      var j :| 0 <= j < |l.queue| && Brings(l.queue[j], id) == Some(v);
      if j > 0 {
        assert l'.queue[j - 1] == l.queue[j];
      }
    }
    assert l.queue[0] in l.queue;
    assert forall x | x in l'.queue :: x in l.queue;
  }

  lemma AttemptInv(f: Feed, id: Id, i: nat, works: bool, answered: bool)
    requires FeedInv(f, id) && Step(f, id, Attempt(i, works, answered)).Some?
    ensures FeedInv(Step(f, id, Attempt(i, works, answered)).value, id)
  {
    var m := f.leaves[i].current.value;
    ApplyKeepsGood(f.tower, m, works);
    ApplyMonotone(f.tower, m, works, id);
  }

  lemma StepInv(f: Feed, id: Id, e: Event)
    requires FeedInv(f, id) && Step(f, id, e).Some?
    requires e.EnqueueMsg? ==> e.m != Stop(id)
    ensures FeedInv(Step(f, id, e).value, id)
  {
    match e
    case EnqueueMsg(i, m) => EnqueueInv(f, id, i, m);
    case TakeItem(i) => TakeInv(f, id, i);
    case Attempt(i, works, answered) => AttemptInv(f, id, i, works, answered);
    case Stray(m, works) =>
      ApplyKeepsGood(f.tower, m, works);
      ApplyMonotone(f.tower, m, works, id);
    case Restart(i) =>
    case TowerRestart =>
  }

  lemma {:induction false} RunInv(f: Feed, id: Id, run: seq<Event>)
    requires FeedInv(f, id) && NeverStopped(run, id) && Exec(f, id, run).Some?
    ensures FeedInv(Exec(f, id, run).value, id)
    decreases |run|
  {
    if run != [] {
      StepInv(f, id, run[0]);
      RunInv(Step(f, id, run[0]).value, id, run[1..]);
    }
  }

  /** What the tower holds stays with it, as long as it runs. */
  lemma StepHolds(f: Feed, id: Id, e: Event, v: nat)
    requires FeedInv(f, id) && Holds(f.tower, id, v) && Step(f, id, e).Some?
    requires e != TowerRestart && (e.EnqueueMsg? ==> e.m != Stop(id))
    ensures Holds(Step(f, id, e).value.tower, id, v)
  {
    match e
    case Attempt(i, works, _) => ApplyMonotone(f.tower, f.leaves[i].current.value, works, id);
    case Stray(m, works) => ApplyMonotone(f.tower, m, works, id);
    case _ =>
  }

  // ---- a tower that has forgotten the channel ----

  predicate IsStart(m: Msg, id: Id) {
    m.Start? && m.id == id
  }

  /** The tower does not watch the channel, and no start for it is on its way. */
  ghost predicate Forgot(f: Feed, id: Id) {
    && Good(f.tower) && id !in f.tower.seen
    && (forall m | m in f.sent :: !IsStart(m, id))
    && forall i | 0 <= i < |f.leaves| :: NoStartWaits(f.leaves[i], id)
  }

  /** Until a leaf sends a start again the tower does not watch the channel, and it
      answers ERR to every state of the channel, which the leaf then drops. */
  lemma ForgottenStep(f: Feed, id: Id, e: Event)
    requires Forgot(f, id) && Step(f, id, e).Some? && (e.EnqueueMsg? ==> !IsStart(e.m, id))
    ensures Forgot(Step(f, id, e).value, id)
    ensures e.Attempt? && e.answered && Brings(f.leaves[e.leaf].current.value, id).Some? ==>
              var l := Step(f, id, e).value.leaves[e.leaf];
              l.refused && l.current == None
  {
    StepKeepsGood(f, id, e);
    match e
    case TakeItem(i) => assert forall m | m in f.leaves[i].queue[1..] :: m in f.leaves[i].queue;
    case _ =>
  }

  ghost predicate NoStartWaits(l: Leaf, id: Id) {
    && (forall m | m in l.queue :: !IsStart(m, id))
    && (l.current.Some? ==> !IsStart(l.current.value, id))
  }

  /** A restart brings the tower there, if and only if no leaf has a start waiting. */
  lemma RestartForgets(f: Feed, id: Id)
    requires Good(f.tower)
    ensures Forgot(Step(f, id, TowerRestart).value, id) <==> forall l | l in f.leaves :: NoStartWaits(l, id)
  {
    var f' := Step(f, id, TowerRestart).value;
    assert |f'.leaves| == |f.leaves|;
    assert forall i | 0 <= i < |f.leaves| :: f'.leaves[i] == Forgotten(f.leaves[i], id);
    assert forall i | 0 <= i < |f.leaves| :: NoStartWaits(f'.leaves[i], id) <==> NoStartWaits(f.leaves[i], id);
  }

  lemma {:induction false} StaysForgotten(f: Feed, id: Id, run: seq<Event>)
    requires Forgot(f, id) && Exec(f, id, run).Some?
    requires forall e | e in run :: e.EnqueueMsg? ==> !IsStart(e.m, id)
    ensures Forgot(Exec(f, id, run).value, id)
    decreases |run|
  {
    if run != [] {
      assert run[0] in run;
      ForgottenStep(f, id, run[0]);
      StaysForgotten(Step(f, id, run[0]).value, id, run[1..]);
    }
  }

  /** Nothing of this leaf is waiting. */
  predicate Drained(l: Leaf) {
    l.queue == [] && l.current == None
  }

  /** End to end, for any number of leaves: once the queue of a leaf is drained and the
      tower never answered ERR to it, the tower holds a version at least as new as
      everything that leaf has queued and not dropped at the bound or in a restart, its
      own or the tower's. */
  lemma DrainedQueueIsHeld(leaves: nat, id: Id, run: seq<Event>, i: nat, v: nat)
    requires NeverStopped(run, id) && Exec(InitFeed(leaves), id, run).Some? && i < leaves
    requires var f := Exec(InitFeed(leaves), id, run).value;
             i < |f.leaves| && Drained(f.leaves[i]) && !f.leaves[i].refused && v in f.leaves[i].kept
    ensures Holds(Exec(InitFeed(leaves), id, run).value.tower, id, v)
  {
    assert FeedInv(InitFeed(leaves), id);
    RunInv(InitFeed(leaves), id, run);
    var f := Exec(InitFeed(leaves), id, run).value;
    assert LeafInv(f.leaves[i], f.tower, id);
  }

  // ---- one leaf: the tower holds exactly the newest version ----

  predicate NoRestart(run: seq<Event>) {
    forall i | 0 <= i < |run| :: !run[i].Restart?
  }

  /** Everything on its way, and the version held, was queued by the only leaf. */
  ghost predicate SourceInv(f: Feed, id: Id) {
    && Good(f.tower) && |f.leaves| == 1
    && VersionsIn(f.leaves[0].queue, id) <= f.leaves[0].kept
    && CurrentVersion(f.leaves[0], id) <= f.leaves[0].kept
    && (forall m | m in f.sent && Brings(m, id).Some? :: Brings(m, id).value in f.leaves[0].kept)
    && (id in f.tower.seen ==> f.tower.seen[id] in f.leaves[0].kept)
  }

  lemma VersionsOfOffer(q: seq<Msg>, m: Msg, id: Id)
    ensures VersionsIn(Offer(q, m).0, id) <= VersionsIn(q, id) + VersionsIn([m], id)
  {
    var q' := Offer(q, m).0;
    forall v | v in VersionsIn(q', id) ensures v in VersionsIn(q, id) + VersionsIn([m], id) {
      var j :| 0 <= j < |q'| && Brings(q'[j], id) == Some(v);
      if j < |q| { assert q'[j] == q[j]; } else { assert [m][0] == q'[j]; }
    }
  }

  lemma VersionsOfTail(q: seq<Msg>, id: Id)
    requires q != []
    ensures VersionsIn(q[1..], id) <= VersionsIn(q, id)
  {
    forall v | v in VersionsIn(q[1..], id) ensures v in VersionsIn(q, id) {
      var j :| 0 <= j < |q| - 1 && Brings(q[1..][j], id) == Some(v);
      assert q[j + 1] == q[1..][j];
    }
  }

  lemma StepSource(f: Feed, id: Id, e: Event)
    requires SourceInv(f, id) && Step(f, id, e).Some? && !e.Restart?
    ensures SourceInv(Step(f, id, e).value, id)
  {
    StepKeepsGood(f, id, e);
    match e
    case EnqueueMsg(i, m) => VersionsOfOffer(f.leaves[0].queue, m, id);
    case TakeItem(i) => VersionsOfTail(f.leaves[0].queue, id);
    case _ =>
  }

  lemma {:induction false} RunSource(f: Feed, id: Id, run: seq<Event>)
    requires SourceInv(f, id) && NoRestart(run) && Exec(f, id, run).Some?
    ensures SourceInv(Exec(f, id, run).value, id)
    decreases |run|
  {
    if run != [] {
      StepSource(f, id, run[0]);
      RunSource(Step(f, id, run[0]).value, id, run[1..]);
    }
  }

  /** With one leaf, which does not restart, the version is exact: the newest one that it
      has queued and the tower has not lost in a restart. */
  lemma OneLeafExact(id: Id, run: seq<Event>)
    requires NeverStopped(run, id) && NoRestart(run) && Exec(InitFeed(1), id, run).Some?
    requires var f := Exec(InitFeed(1), id, run).value;
             |f.leaves| == 1 && Drained(f.leaves[0]) && !f.leaves[0].refused && f.leaves[0].kept != {}
    ensures var f := Exec(InitFeed(1), id, run).value;
            && id in f.tower.seen
            && f.tower.seen[id] in f.leaves[0].kept
            && forall v | v in f.leaves[0].kept :: v <= f.tower.seen[id]
  {
    var f := Exec(InitFeed(1), id, run).value;
    RunSource(InitFeed(1), id, run);
    forall v | v in f.leaves[0].kept ensures Holds(f.tower, id, v) {
      DrainedQueueIsHeld(1, id, run, 0, v);
    }
    var v :| v in f.leaves[0].kept;
    assert Holds(f.tower, id, v);
  }
}
