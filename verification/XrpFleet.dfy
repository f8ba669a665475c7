/** One tower thread for many channels. Each channel has its own world; the thread works
    for one channel at a time, and while it waits for the blob of one the others are not
    looked at. The clock is common. Still every claim that the tower holds is paid. */
module XrpFleet {
  import opened Options
  import opened XrpTowerSpec
  import opened XrpWorld
  import opened XrpRuns
  import opened XrpSettlement
  import opened XrpProgress

  type Fleet = seq<World>

  /** A step of one channel, time that passes for all of them, a crash of the tower, and a
      ledger read that fails and ends the turn for all that are not visited yet. */
  datatype FleetEvent = Local(i: nat, e: Event) | Pass(d: int) | Crash | Break

  /** The thread is busy with this channel. */
  predicate Working(w: World) {
    w.tower.pc.TDecide? || w.tower.pc.TSubmit? || w.tower.pc.TWait?
  }

  ghost predicate OthersWait(f: Fleet, j: nat) {
    exists i :: 0 <= i < |f| && i != j && f[i].tower.pc.TWait?
  }

  /** What an event of the fleet is for channel j. */
  ghost function EventFor(f: Fleet, e: FleetEvent, j: nat): Option<Event>
    requires j < |f|
  {
    match e
    case Local(i, e) => if i == j then Some(e) else None
    case Pass(d) => Some(if OthersWait(f, j) then ByTower(OtherChannel(d)) else ByChain(Tick(d)))
    case Crash => Some(ByTower(TowerCrash))
    case Break => if f[j].tower.pc.TFetch? then Some(ByTower(FetchFails)) else None
  }

  predicate Enabled(f: Fleet, e: FleetEvent) {
    e.Local? ==>
      && e.i < |f| && !(e.e.ByChain? && e.e.c.Tick?) && !(e.e.ByTower? && e.e.t.OtherChannel?)
      && e.e != ByTower(TowerCrash) && e.e != ByTower(FetchFails)
      && (e.e == ByTower(FetchEntry) ==> forall i | 0 <= i < |f| :: i != e.i ==> !Working(f[i]))
  }

  ghost function StepOf(ks: seq<Params>, f: Fleet, e: FleetEvent, j: nat): Option<World>
    requires |ks| == |f| && j < |f|
  {
    var x := EventFor(f, e, j);
    if x.None? then Some(f[j]) else Step(ks[j], f[j], x.value)
  }

  ghost predicate Goes(ks: seq<Params>, f: Fleet, e: FleetEvent)
    requires |ks| == |f|
  {
    Enabled(f, e) && forall j | 0 <= j < |f| :: StepOf(ks, f, e, j).Some?
  }

  ghost function FleetStep(ks: seq<Params>, f: Fleet, e: FleetEvent): (f': Fleet)
    requires |ks| == |f| && Goes(ks, f, e)
    ensures |f'| == |f| && forall j | 0 <= j < |f| :: StepOf(ks, f, e, j) == Some(f'[j])
  {
    seq(|f|, j requires 0 <= j < |f| => StepOf(ks, f, e, j).value)
  }

  ghost function FleetExec(ks: seq<Params>, f: Fleet, run: seq<FleetEvent>): (r: Option<Fleet>)
    requires |ks| == |f|
    ensures r.Some? ==> |r.value| == |f|
    decreases |run|
  {
    if run == [] then Some(f)
    else if !Goes(ks, f, run[0]) then None
    else FleetExec(ks, FleetStep(ks, f, run[0]), run[1..])
  }

  // ---- the thread ----

  ghost predicate OneAtATime(f: Fleet) {
    forall i, j | 0 <= i < |f| && 0 <= j < |f| && Working(f[i]) && Working(f[j]) :: i == j
  }

  lemma StartsWorking(k: Params, w: World, e: Event)
    requires Step(k, w, e).Some?
    ensures Working(Step(k, w, e).value) ==> Working(w) || e == ByTower(FetchEntry)
  {
    match e
    case ByWorker(we) =>
    case ByTower(te) =>
    case _ =>
  }

  /** The thread works for one channel at a time. */
  lemma ThreadStep(ks: seq<Params>, f: Fleet, e: FleetEvent)
    requires |ks| == |f| && Goes(ks, f, e) && OneAtATime(f)
    ensures OneAtATime(FleetStep(ks, f, e))
  {
    var f' := FleetStep(ks, f, e);
    forall i | 0 <= i < |f|
      ensures Working(f'[i]) ==> Working(f[i]) || (e == Local(i, ByTower(FetchEntry)))
    {
      assert StepOf(ks, f, e, i) == Some(f'[i]);
      var x := EventFor(f, e, i);
      if x.Some? {
        StartsWorking(ks[i], f[i], x.value);
      }
    }
  }

  lemma {:induction false} ThreadRun(ks: seq<Params>, f: Fleet, run: seq<FleetEvent>)
    requires |ks| == |f| && OneAtATime(f) && FleetExec(ks, f, run).Some?
    ensures OneAtATime(FleetExec(ks, f, run).value)
    decreases |run|
  {
    if run != [] {
      ThreadStep(ks, f, run[0]);
      ThreadRun(ks, FleetStep(ks, f, run[0]), run[1..]);
    }
  }

  /** The channel lets a second pass: no ledger is due, and the thread sleeps, waits for
      the blob of this channel, or waits for that of another. */
  predicate LetsPass(k: Params, w: World, othersWait: bool) {
    && w.chain.now < w.chain.lastClose + k.interval
    && match w.tower.pc
       case TSleep(wake) => othersWait || w.chain.now < wake
       case TFetch(_) => othersWait
       case TWait(_, until) => !othersWait && w.chain.now < until
       case _ => false
  }

  /** Time stands still only while the thread has something to do or a ledger is due. */
  lemma TimeCanPass(ks: seq<Params>, f: Fleet)
    requires |ks| == |f| && forall i | 0 <= i < |f| :: LetsPass(ks[i], f[i], OthersWait(f, i))
    ensures Goes(ks, f, Pass(1))
  {
    forall i | 0 <= i < |f| ensures StepOf(ks, f, Pass(1), i).Some? {
      assert LetsPass(ks[i], f[i], OthersWait(f, i));
    }
  }

  // ---- what one channel sees ----

  ghost function Seen(ks: seq<Params>, f: Fleet, run: seq<FleetEvent>, j: nat): seq<Event>
    requires |ks| == |f| && j < |f| && FleetExec(ks, f, run).Some?
    decreases |run|
  {
    if run == [] then []
    else
      var x := EventFor(f, run[0], j);
      (if x.None? then [] else [x.value]) + Seen(ks, FleetStep(ks, f, run[0]), run[1..], j)
  }

  /** A run of the fleet is a run of every channel. */
  lemma {:induction false} Projects(ks: seq<Params>, f: Fleet, run: seq<FleetEvent>, j: nat)
    requires |ks| == |f| && j < |f| && FleetExec(ks, f, run).Some?
    ensures Exec(ks[j], f[j], Seen(ks, f, run, j)) == Some(FleetExec(ks, f, run).value[j])
    decreases |run|
  {
    if run != [] {
      var x := EventFor(f, run[0], j);
      var rest := Seen(ks, FleetStep(ks, f, run[0]), run[1..], j);
      assert StepOf(ks, f, run[0], j) == Some(FleetStep(ks, f, run[0])[j]);
      Projects(ks, FleetStep(ks, f, run[0]), run[1..], j);
      if x.Some? {
        ExecFirst(ks[j], f[j], x.value, rest);
      } else {
        assert [] + rest == rest;
      }
    }
  }

  lemma ExecFirst(k: Params, w: World, e: Event, rest: seq<Event>)
    requires Step(k, w, e).Some?
    ensures Exec(k, w, [e] + rest) == Exec(k, Step(k, w, e).value, rest)
  {
    assert ([e] + rest)[1..] == rest;
  }

  // ---- how long the others can keep the thread busy ----

  /** What is left of a wait, and one whole wait for every blob that may still be
      submitted for the records that are held now. */
  function Potential(k: Params, w: World): int {
    (if w.tower.pc.TWait? then w.tower.pc.until - w.chain.now else 0)
    + (if w.tower.pc.TSubmit? then k.wait else 0)
    + (if w.tower.rec.Some? && Unsent(w.tower.rec.value) then k.wait else 0)
  }

  /** A message that makes the tower hold a record which it has not submitted yet. */
  predicate NewRecord(w: World, e: Event) {
    && e.ByTower? && e.t.Receive?
    && !(w.tower.rec.Some? && Unsent(w.tower.rec.value)) && Hold(w.tower.rec, e.t.b).0 != w.tower.rec
  }

  lemma TowerPotential(k: Params, w: World, e: TowerEvent)
    requires Steady(k, w) && TowerStep(k, w.tower, w.chain, e).Some?
    ensures var (t, c) := TowerStep(k, w.tower, w.chain, e).value;
            Potential(k, w.(tower := t, chain := c))
            <= Potential(k, w) + if NewRecord(w, ByTower(e)) then k.wait else 0
  {
  }

  lemma ChainPotential(k: Params, w: World, e: ChainEvent)
    requires ChainStep(k, w.tower, w.chain, e).Some?
    ensures Potential(k, w.(chain := ChainStep(k, w.tower, w.chain, e).value))
         == Potential(k, w) - if e.Tick? && w.tower.pc.TWait? then e.d else 0
  {
  }

  lemma StepPotential(k: Params, w: World, e: Event)
    requires Steady(k, w) && Step(k, w, e).Some?
    ensures var w' := Step(k, w, e).value;
            Potential(k, w') <= Potential(k, w) + (if NewRecord(w, e) then k.wait else 0)
                                - (if e.ByChain? && e.c.Tick? && w.tower.pc.TWait? then e.c.d else 0)
  {
    match e
    case ByTower(te) => TowerPotential(k, w, te);
    case ByChain(ce) => ChainPotential(k, w, ce);
    case ByWorker(we) => WorkerKeepsCalm(k, w, we);
    case ByRedeemer(re) => RedeemerKeepsCalm(k, w, re);
    case _ =>
  }

  ghost predicate FleetSteady(ks: seq<Params>, f: Fleet) {
    |ks| == |f| && forall i | 0 <= i < |f| :: Steady(ks[i], f[i])
  }

  ghost function Potentials(ks: seq<Params>, f: Fleet): (p: seq<int>)
    requires |ks| == |f|
    ensures |p| == |f| && forall i | 0 <= i < |f| :: p[i] == Potential(ks[i], f[i])
  {
    seq(|f|, i requires 0 <= i < |f| => Potential(ks[i], f[i]))
  }

  /** The sum without entry j. */
  function Sum(p: seq<int>, j: nat): int
    decreases |p|
  {
    if p == [] then 0
    else
      var n := |p| - 1;
      Sum(p[..n], j) + if n == j then 0 else p[n]
  }

  lemma {:induction false} SumGrows(p: seq<int>, q: seq<int>, j: nat)
    requires |p| == |q| && forall i | 0 <= i < |p| :: p[i] <= q[i]
    ensures Sum(p, j) <= Sum(q, j)
    decreases |p|
  {
    if p != [] {
      SumGrows(p[..|p| - 1], q[..|q| - 1], j);
    }
  }

  lemma {:induction false} SumChanged(p: seq<int>, i: nat, x: int, j: nat)
    requires i < |p|
    ensures Sum(p[i := x], j) == Sum(p, j) + if i == j then 0 else x - p[i]
    decreases |p|
  {
    var n := |p| - 1;
    if i == n {
      assert p[i := x][..n] == p[..n];
    } else {
      assert p[i := x][..n] == p[..n][i := x];
      SumChanged(p[..n], i, x, j);
    }
  }

  lemma SumLess(p: seq<int>, q: seq<int>, h: nat, d: int, j: nat)
    requires |p| == |q| && h < |p| && h != j
    requires (forall i | 0 <= i < |p| :: q[i] <= p[i]) && q[h] <= p[h] - d
    ensures Sum(q, j) <= Sum(p, j) - d
  {
    SumChanged(p, h, p[h] - d, j);
    SumGrows(q, p[h := p[h] - d], j);
  }

  lemma SumMore(p: seq<int>, q: seq<int>, h: nat, g: int, j: nat)
    requires |p| == |q| && h < |p| && q[h] <= p[h] + g
    requires forall i | 0 <= i < |p| :: i != h ==> q[i] == p[i]
    ensures Sum(q, j) <= Sum(p, j) + if h == j then 0 else g
  {
    assert q == p[h := q[h]];
    SumChanged(p, h, q[h], j);
  }

  lemma {:induction false} SumIsPositive(p: seq<int>, j: nat)
    requires forall i | 0 <= i < |p| :: p[i] >= 0
    ensures Sum(p, j) >= 0
    decreases |p|
  {
    if p != [] {
      SumIsPositive(p[..|p| - 1], j);
    }
  }

  lemma {:induction false} SumIsBounded(p: seq<int>, j: nat, most: int)
    requires forall i | 0 <= i < |p| :: i != j ==> p[i] <= most
    ensures Sum(p, j) <= most * if j < |p| then |p| - 1 else |p|
    decreases |p|
  {
    if p != [] {
      var n := |p| - 1;
      SumIsBounded(p[..n], j, most);
      assert most * (n + 1) == most * n + most;
      assert n > 0 ==> most * n == most * (n - 1) + most;
    }
  }

  /** The time that a new record of another channel can take. */
  ghost function News(ks: seq<Params>, f: Fleet, e: FleetEvent, j: nat): int
    requires |ks| == |f|
  {
    if e.Local? && e.i < |f| && e.i != j && NewRecord(f[e.i], e.e) then ks[e.i].wait else 0
  }

  ghost function AllNews(ks: seq<Params>, f: Fleet, run: seq<FleetEvent>, j: nat): int
    requires |ks| == |f| && FleetExec(ks, f, run).Some?
    decreases |run|
  {
    if run == [] then 0 else News(ks, f, run[0], j) + AllNews(ks, FleetStep(ks, f, run[0]), run[1..], j)
  }

  /** The time in which the thread waits for other channels. */
  function Idle(e: Option<Event>): int {
    if e.Some? && e.value.ByTower? && e.value.t.OtherChannel? then e.value.t.d else 0
  }

  lemma ChannelPotential(ks: seq<Params>, f: Fleet, e: FleetEvent, i: nat)
    requires FleetSteady(ks, f) && Goes(ks, f, e) && i < |f|
    ensures var f' := FleetStep(ks, f, e);
            Potential(ks[i], f'[i]) <= Potential(ks[i], f[i])
                                       + (if e.Local? && e.i == i && NewRecord(f[i], e.e) then ks[i].wait else 0)
                                       - (if e.Pass? && f[i].tower.pc.TWait? && !OthersWait(f, i) then e.d else 0)
    ensures e.Local? && e.i != i ==> FleetStep(ks, f, e)[i] == f[i]
    ensures e.Pass? ==> e.d > 0
  {
    assert StepOf(ks, f, e, i) == Some(FleetStep(ks, f, e)[i]);
    var x := EventFor(f, e, i);
    if x.Some? {
      StepPotential(ks[i], f[i], x.value);
    }
  }

  /** Time never passes while two channels wait: the thread does one thing at a time. */
  lemma OneWaits(ks: seq<Params>, f: Fleet, d: int, i: nat)
    requires |ks| == |f| && Goes(ks, f, Pass(d)) && i < |f| && f[i].tower.pc.TWait?
    ensures !OthersWait(f, i)
  {
    assert StepOf(ks, f, Pass(d), i).Some?;
  }

  lemma SumLocal(ks: seq<Params>, f: Fleet, e: FleetEvent, j: nat)
    requires FleetSteady(ks, f) && Goes(ks, f, e) && e.Local?
    ensures Sum(Potentials(ks, FleetStep(ks, f, e)), j) <= Sum(Potentials(ks, f), j) + News(ks, f, e, j)
  {
    var p, q := Potentials(ks, f), Potentials(ks, FleetStep(ks, f, e));
    forall i | 0 <= i < |f| ensures i != e.i ==> q[i] == p[i] {
      ChannelPotential(ks, f, e, i);
    }
    ChannelPotential(ks, f, e, e.i);
    SumMore(p, q, e.i, if NewRecord(f[e.i], e.e) then ks[e.i].wait else 0, j);
  }

  lemma NoneGrows(ks: seq<Params>, f: Fleet, e: FleetEvent)
    requires FleetSteady(ks, f) && Goes(ks, f, e) && !e.Local?
    ensures var p, q := Potentials(ks, f), Potentials(ks, FleetStep(ks, f, e));
            forall i | 0 <= i < |f| :: q[i] <= p[i]
  {
    forall i | 0 <= i < |f|
      ensures Potentials(ks, FleetStep(ks, f, e))[i] <= Potentials(ks, f)[i]
    {
      ChannelPotential(ks, f, e, i);
    }
  }

  lemma SumPass(ks: seq<Params>, f: Fleet, d: int, j: nat)
    requires FleetSteady(ks, f) && Goes(ks, f, Pass(d)) && OthersWait(f, j)
    ensures Sum(Potentials(ks, FleetStep(ks, f, Pass(d))), j) <= Sum(Potentials(ks, f), j) - d
  {
    var h :| 0 <= h < |f| && h != j && f[h].tower.pc.TWait?;
    NoneGrows(ks, f, Pass(d));
    OneWaits(ks, f, d, h);
    ChannelPotential(ks, f, Pass(d), h);
    SumLess(Potentials(ks, f), Potentials(ks, FleetStep(ks, f, Pass(d))), h, d, j);
  }

  /** The others have the potential of before, more by what is new and less by the time
      that passes while one of them waits. */
  lemma SumStep(ks: seq<Params>, f: Fleet, e: FleetEvent, j: nat)
    requires FleetSteady(ks, f) && Goes(ks, f, e)
    ensures Sum(Potentials(ks, FleetStep(ks, f, e)), j)
            <= Sum(Potentials(ks, f), j) + News(ks, f, e, j) - (if e.Pass? && OthersWait(f, j) then e.d else 0)
  {
    if e.Local? {
      SumLocal(ks, f, e, j);
    } else if e.Pass? && OthersWait(f, j) {
      SumPass(ks, f, e.d, j);
    } else {
      NoneGrows(ks, f, e);
      SumGrows(Potentials(ks, FleetStep(ks, f, e)), Potentials(ks, f), j);
    }
  }

  lemma FleetStepSteady(ks: seq<Params>, f: Fleet, e: FleetEvent)
    requires FleetSteady(ks, f) && Goes(ks, f, e)
    ensures FleetSteady(ks, FleetStep(ks, f, e))
  {
    var f' := FleetStep(ks, f, e);
    forall i | 0 <= i < |f| ensures Steady(ks[i], f'[i]) {
      assert StepOf(ks, f, e, i) == Some(f'[i]);
      var x := EventFor(f, e, i);
      if x.Some? {
        OneStepSteady(ks[i], f[i], x.value);
      }
    }
  }

  lemma OneStepSteady(k: Params, w: World, e: Event)
    requires Steady(k, w) && Step(k, w, e).Some?
    ensures Steady(k, Step(k, w, e).value)
  {
    StepSafe(k, w, e);
    StepCalm(k, w, e);
  }

  lemma {:induction false} FleetRunSteady(ks: seq<Params>, f: Fleet, run: seq<FleetEvent>)
    requires FleetSteady(ks, f) && FleetExec(ks, f, run).Some?
    ensures FleetSteady(ks, FleetExec(ks, f, run).value)
    decreases |run|
  {
    if run != [] {
      FleetStepSteady(ks, f, run[0]);
      FleetRunSteady(ks, FleetStep(ks, f, run[0]), run[1..]);
    }
  }

  /** What channel j spends of its own: without the waits for other channels. */
  function Own(k: Params, run: seq<Event>): int
    decreases |run|
  {
    if run == [] then 0 else Cost(k, run[0]) - Idle(Some(run[0])) + Own(k, run[1..])
  }

  lemma PotentialsArePositive(ks: seq<Params>, f: Fleet, j: nat)
    requires FleetSteady(ks, f)
    ensures Sum(Potentials(ks, f), j) >= 0
  {
    var p := Potentials(ks, f);
    forall i | 0 <= i < |p| ensures p[i] >= 0 {
      assert Steady(ks[i], f[i]);
    }
    SumIsPositive(p, j);
  }

  lemma OwnAndIdle(k: Params, x: Option<Event>, rest: seq<Event>)
    ensures var run := (if x.None? then [] else [x.value]) + rest;
            Spent(k, run) - Own(k, run) == Idle(x) + Spent(k, rest) - Own(k, rest)
  {
    if x.None? {
      assert [] + rest == rest;
    } else {
      assert ([x.value] + rest)[1..] == rest;
    }
  }

  lemma IdleStep(ks: seq<Params>, f: Fleet, e: FleetEvent, j: nat)
    requires |ks| == |f| && Goes(ks, f, e) && j < |f|
    ensures Idle(EventFor(f, e, j)) == if e.Pass? && OthersWait(f, j) then e.d else 0
  {
  }

  /** All that channel j spends is its own, and the waits of the others: at most one for
      every blob that they may still submit. */
  lemma {:induction false} SpentInFleet(ks: seq<Params>, f: Fleet, run: seq<FleetEvent>, j: nat)
    requires FleetSteady(ks, f) && j < |f| && FleetExec(ks, f, run).Some?
    ensures var x := Seen(ks, f, run, j);
            Spent(ks[j], x) + Sum(Potentials(ks, FleetExec(ks, f, run).value), j)
            <= Own(ks[j], x) + Sum(Potentials(ks, f), j) + AllNews(ks, f, run, j)
    decreases |run|
  {
    if run != [] {
      var e := run[0];
      var f1 := FleetStep(ks, f, e);
      FleetStepSteady(ks, f, e);
      SpentInFleet(ks, f1, run[1..], j);
      SumStep(ks, f, e, j);
      IdleStep(ks, f, e, j);
      OwnAndIdle(ks[j], EventFor(f, e, j), Seen(ks, f1, run[1..], j));
    }
  }

  // ---- the result ----

  /** Channel j after the close of the ledger that shows its close request. */
  function CloseOf(ks: seq<Params>, f: Fleet, j: nat): Fleet
    requires j < |f| == |ks| && f[j].chain.blobs == {}
  {
    f[j := AfterClose(ks[j], f[j])]
  }

  /** How long the other channels can keep the thread from channel j. */
  ghost function HeldUp(ks: seq<Params>, f: Fleet, run: seq<FleetEvent>, j: nat): int
    requires |ks| == |f| && FleetExec(ks, f, run).Some?
  {
    Sum(Potentials(ks, f), j) + AllNews(ks, f, run, j)
  }

  lemma ChannelSettles(k: Params, w: World, a: int, run: seq<Event>, end: World, bound: int)
    requires Steady(k, w) && CloseComes(w, a) && NoUndercut(w.payee.redeemer, w.chain, a)
    requires Exec(k, AfterClose(k, w), run) == Some(end) && NoFatal(k, AfterClose(k, w), run, a)
    requires Spent(k, run) <= bound && Room(k, bound)
    ensures PaidInTime(end.chain, a, Deadline(k, w.chain.now, bound))
  {
    SettlesInTime(k, w, a, run);
  }

  lemma CloseSteady(ks: seq<Params>, f: Fleet, j: nat)
    requires FleetSteady(ks, f) && j < |f| && f[j].chain.blobs == {}
    ensures FleetSteady(ks, CloseOf(ks, f, j))
  {
    OneStepSteady(ks[j], f[j], ByChain(CloseLedger));
  }

  lemma SpentBelow(ks: seq<Params>, f: Fleet, run: seq<FleetEvent>, j: nat)
    requires FleetSteady(ks, f) && j < |f| && FleetExec(ks, f, run).Some?
    ensures Spent(ks[j], Seen(ks, f, run, j)) <= Own(ks[j], Seen(ks, f, run, j)) + HeldUp(ks, f, run, j)
  {
    SpentInFleet(ks, f, run, j);
    FleetRunSteady(ks, f, run);
    PotentialsArePositive(ks, FleetExec(ks, f, run).value, j);
  }

  /** In a fleet the claim of every channel is paid, after what the channel spends itself
      and after at most one wait for every blob of another channel. */
  lemma FleetSettles(ks: seq<Params>, f: Fleet, j: nat, a: int, after: seq<FleetEvent>)
    requires FleetSteady(ks, f) && j < |f|
    requires CloseComes(f[j], a) && NoUndercut(f[j].payee.redeemer, f[j].chain, a)
    requires FleetExec(ks, CloseOf(ks, f, j), after).Some?
    requires var f1 := CloseOf(ks, f, j);
             && NoFatal(ks[j], f1[j], Seen(ks, f1, after, j), a)
             && Room(ks[j], Own(ks[j], Seen(ks, f1, after, j)) + HeldUp(ks, f1, after, j))
    ensures var f1 := CloseOf(ks, f, j);
            PaidInTime(FleetExec(ks, f1, after).value[j].chain, a,
                       Deadline(ks[j], f[j].chain.now, Own(ks[j], Seen(ks, f1, after, j)) + HeldUp(ks, f1, after, j)))
  {
    var f1 := CloseOf(ks, f, j);
    var x := Seen(ks, f1, after, j);
    CloseSteady(ks, f, j);
    Projects(ks, f1, after, j);
    SpentBelow(ks, f1, after, j);
    ChannelSettles(ks[j], f[j], a, x, FleetExec(ks, f1, after).value[j], Own(ks[j], x) + HeldUp(ks, f1, after, j));
  }

  // ---- n channels, nothing fails ----

  /** The tower runs and reads the ledger, and the blobs of channel j are taken. */
  predicate Undisturbed(e: FleetEvent, j: nat) {
    e != Crash && e != Break && !(e.Local? && e.i == j && e.e.ByChain? && e.e.c.DropBlob?)
  }

  lemma {:induction false} SeenQuietly(ks: seq<Params>, f: Fleet, run: seq<FleetEvent>, j: nat)
    requires |ks| == |f| && j < |f| && FleetExec(ks, f, run).Some?
    requires forall e | e in run :: Undisturbed(e, j)
    ensures forall x | x in Seen(ks, f, run, j) :: Smooth(x) || (x.ByTower? && x.t.OtherChannel?)
    decreases |run|
  {
    if run != [] {
      assert Undisturbed(run[0], j);
      SeenQuietly(ks, FleetStep(ks, f, run[0]), run[1..], j);
    }
  }

  lemma {:induction false} QuietIsHarmless(k: Params, w: World, run: seq<Event>, a: int)
    requires forall x | x in run :: Smooth(x) || (x.ByTower? && x.t.OtherChannel?)
    ensures Own(k, run) == 0 && NoFatal(k, w, run, a)
    decreases |run|
  {
    if run != [] {
      assert run[0] in run;
      QuietIsHarmless(k, if Step(k, w, run[0]).Some? then Step(k, w, run[0]).value else w, run[1..], a);
    }
  }

  function Start(ks: seq<Params>, amounts: seq<int>, t0: int): (f: Fleet)
    requires |ks| == |amounts|
    ensures |f| == |ks| && forall i | 0 <= i < |f| :: f[i] == Init(ks[i], amounts[i], t0)
  {
    seq(|ks|, i requires 0 <= i < |ks| => Init(ks[i], amounts[i], t0))
  }

  ghost predicate GoodFleet(ks: seq<Params>, amounts: seq<int>, wait: int) {
    && |ks| == |amounts|
    && forall i | 0 <= i < |ks| :: GoodParams(ks[i]) && ks[i].wait == wait && amounts[i] >= 0
  }

  lemma StartSteady(ks: seq<Params>, amounts: seq<int>, t0: int, wait: int)
    requires GoodFleet(ks, amounts, wait)
    ensures FleetSteady(ks, Start(ks, amounts, t0))
  {
    forall i | 0 <= i < |ks| ensures Steady(ks[i], Start(ks, amounts, t0)[i]) {
      InitSteady(ks[i], amounts[i], t0);
    }
  }

  lemma HeldUpAtMost(ks: seq<Params>, f: Fleet, run: seq<FleetEvent>, j: nat, wait: int, bound: int)
    requires |ks| == |f| && j < |f| && FleetExec(ks, f, run).Some? && AllNews(ks, f, run, j) == 0
    requires (forall i | 0 <= i < |f| :: i != j ==> Potential(ks[i], f[i]) <= wait) && bound == wait * (|f| - 1)
    ensures HeldUp(ks, f, run, j) <= bound
  {
    var p := Potentials(ks, f);
    assert forall i | 0 <= i < |p| :: i != j ==> p[i] <= wait;
    SumIsBounded(p, j, wait);
  }

  lemma UndisturbedSettles(ks: seq<Params>, f: Fleet, j: nat, a: int, after: seq<FleetEvent>, bound: int)
    requires FleetSteady(ks, f) && j < |f|
    requires CloseComes(f[j], a) && NoUndercut(f[j].payee.redeemer, f[j].chain, a)
    requires FleetExec(ks, CloseOf(ks, f, j), after).Some? && forall e | e in after :: Undisturbed(e, j)
    requires HeldUp(ks, CloseOf(ks, f, j), after, j) <= bound && Room(ks[j], bound)
    ensures PaidInTime(FleetExec(ks, CloseOf(ks, f, j), after).value[j].chain, a,
                       Deadline(ks[j], f[j].chain.now, bound))
  {
    var f1 := CloseOf(ks, f, j);
    var x := Seen(ks, f1, after, j);
    CloseSteady(ks, f, j);
    SeenQuietly(ks, f1, after, j);
    QuietIsHarmless(ks[j], f1[j], x, a);
    Projects(ks, f1, after, j);
    SpentBelow(ks, f1, after, j);
    ChannelSettles(ks[j], f[j], a, x, FleetExec(ks, f1, after).value[j], bound);
  }

  lemma OthersUnchanged(ks: seq<Params>, f: Fleet, j: nat)
    requires j < |f| == |ks| && f[j].chain.blobs == {}
    ensures forall i | 0 <= i < |f| :: i != j ==> CloseOf(ks, f, j)[i] == f[i]
  {
  }

  /** Every claim that the tower holds is paid although one thread serves n channels. The
      settle delay is longer than a ledger interval, a poll, and a wait for each of the
      n - 1 other channels; none of them has more than one blob to come, no record of
      them is replaced meanwhile, and nothing fails for channel j. */
  lemma EveryHeldClaimIsPaid(ks: seq<Params>, amounts: seq<int>, t0: int, wait: int, before: seq<FleetEvent>,
                             j: nat, a: int, after: seq<FleetEvent>)
    requires GoodFleet(ks, amounts, wait) && j < |ks|
    requires FleetExec(ks, Start(ks, amounts, t0), before).Some?
    requires var f := FleetExec(ks, Start(ks, amounts, t0), before).value;
             && CloseComes(f[j], a) && NoUndercut(f[j].payee.redeemer, f[j].chain, a)
             && (forall i | 0 <= i < |f| :: i != j ==> Potential(ks[i], f[i]) <= wait)
             && FleetExec(ks, CloseOf(ks, f, j), after).Some? && AllNews(ks, CloseOf(ks, f, j), after, j) == 0
    requires forall e | e in after :: Undisturbed(e, j)
    requires ks[j].settle > ks[j].interval + ks[j].poll + wait * (|ks| - 1)
    ensures var f := FleetExec(ks, Start(ks, amounts, t0), before).value;
            PaidInTime(FleetExec(ks, CloseOf(ks, f, j), after).value[j].chain, a,
                       f[j].chain.now + ks[j].poll + wait * (|ks| - 1) + ks[j].interval)
  {
    StartSteady(ks, amounts, t0, wait);
    FleetRunSteady(ks, Start(ks, amounts, t0), before);
    var f := FleetExec(ks, Start(ks, amounts, t0), before).value;
    var bound := wait * (|ks| - 1);
    OthersUnchanged(ks, f, j);
    HeldUpAtMost(ks, CloseOf(ks, f, j), after, j, wait, bound);
    UndisturbedSettles(ks, f, j, a, after, bound);
  }
}
