/** Time never gets stuck: the tower and the ledger alone can always move the clock on.
    So the deadline of XrpSettlement is met by a run in which the payee, the payer and
    the peer link take no step at all. */
module XrpProgress {
  import opened Options
  import opened XrpTypes
  import opened XrpWorld
  import opened XrpSafety
  import opened XrpRuns
  import opened XrpSettlement

  /** A step of the running tower or of the ledger itself. */
  predicate Service(e: Event) {
    || (e.ByTower? && e.t in {Wake, FetchEntry, Decide, SubmitBlob, GiveUp})
    || (e.ByChain? && (e.c.ApplyBlob? || e.c.CloseLedger? || e.c.Tick?))
  }

  ghost predicate Steady(k: Params, w: World) {
    GoodParams(k) && Safe(k, w) && Calm(k, w.tower, w.chain)
  }

  lemma InitSteady(k: Params, amount: int, t0: int)
    requires GoodParams(k) && amount >= 0
    ensures Steady(k, Init(k, amount, t0))
  {
    InitSafe(k, amount, t0);
  }

  lemma {:induction false} ExecAppend(k: Params, w: World, r1: seq<Event>, r2: seq<Event>)
    requires Exec(k, w, r1).Some?
    ensures Exec(k, w, r1 + r2) == Exec(k, Exec(k, w, r1).value, r2)
    decreases |r1|
  {
    if r1 == [] {
      assert r1 + r2 == r2;
    } else {
      assert (r1 + r2)[0] == r1[0] && (r1 + r2)[1..] == r1[1..] + r2;
      ExecAppend(k, Step(k, w, r1[0]).value, r1[1..], r2);
    }
  }

  lemma Steadily(k: Params, w: World, run: seq<Event>)
    requires Steady(k, w) && Exec(k, w, run).Some?
    ensures Steady(k, Exec(k, w, run).value)
  {
    RunSafe(k, w, run);
    RunCalm(k, w, run);
  }

  lemma ExecOne(k: Params, w: World, e: Event)
    ensures Exec(k, w, [e]) == Step(k, w, e)
  {
    assert [e][1..] == [];
  }

  lemma OneMoreStep(k: Params, w0: World, run: seq<Event>, w: World, e: Event) returns (run': seq<Event>, w': World)
    requires Exec(k, w0, run) == Some(w) && Step(k, w, e).Some?
    ensures w' == Step(k, w, e).value && run' == run + [e] && Exec(k, w0, run') == Some(w')
  {
    run', w' := run + [e], Step(k, w, e).value;
    ExecAppend(k, w0, run, [e]);
    ExecOne(k, w, e);
  }

  /** How far the tower is from going back to sleep. */
  function Phase(pc: TowerPc, now: int): nat {
    match pc
    case TSleep(wake) => if wake <= now then 4 else 0
    case TFetch(_) => 3
    case TDecide(_, _) => 2
    case TSubmit(_) => 1
    case TWait(_, until) => if until <= now then 1 else 0
  }

  function PollStep(pc: TowerPc): TowerEvent {
    match pc
    case TSleep(_) => Wake
    case TFetch(_) => FetchEntry
    case TDecide(_, _) => Decide
    case TSubmit(_) => SubmitBlob
    case TWait(_, _) => GiveUp
  }

  lemma PollStepIsPossible(k: Params, t: Tower, c: Chain)
    requires Phase(t.pc, c.now) > 0 && (t.pc.TDecide? ==> t.rec.Some?) && k.poll > 0 && k.wait > 0
    ensures var r := TowerStep(k, t, c, PollStep(t.pc));
            r.Some? && r.value.1.now == c.now && Phase(r.value.0.pc, c.now) < Phase(t.pc, c.now)
  {
  }

  /** The tower gets one step closer to its next sleep. */
  lemma OnePollStep(k: Params, w: World)
    requires Steady(k, w) && Phase(w.tower.pc, w.chain.now) > 0
    ensures var r := Step(k, w, ByTower(PollStep(w.tower.pc)));
            && r.Some? && Steady(k, r.value) && r.value.chain.now == w.chain.now
            && Phase(r.value.tower.pc, w.chain.now) < Phase(w.tower.pc, w.chain.now)
  {
    PollStepIsPossible(k, w.tower, w.chain);
    StepSafe(k, w, ByTower(PollStep(w.tower.pc)));
    StepCalm(k, w, ByTower(PollStep(w.tower.pc)));
  }

  lemma {:induction false} TowerFinishesPoll(k: Params, w: World) returns (run: seq<Event>)
    requires Steady(k, w)
    ensures (forall e | e in run :: Service(e)) && Exec(k, w, run).Some?
    ensures var w' := Exec(k, w, run).value;
            Phase(w'.tower.pc, w'.chain.now) == 0 && w'.chain.now == w.chain.now
    decreases Phase(w.tower.pc, w.chain.now)
  {
    if Phase(w.tower.pc, w.chain.now) == 0 {
      run := [];
    } else {
      var e := ByTower(PollStep(w.tower.pc));
      OnePollStep(k, w);
      var rest := TowerFinishesPoll(k, Step(k, w, e).value);
      run := [e] + rest;
      assert run[1..] == rest;
    }
  }

  lemma ApplyBlobIsPossible(k: Params, t: Tower, c: Chain, b: Blob)
    requires b in c.blobs
    ensures var r := ChainStep(k, t, c, ApplyBlob(b));
            r.Some? && r.value.blobs == c.blobs - {b} && r.value.now == c.now && r.value.lastClose == c.lastClose
  {
  }

  /** One blob gets into the ledger, or is dropped because its ticket is used. */
  lemma OneBlobGetsIn(k: Params, w: World, b: Blob)
    requires Steady(k, w) && b in w.chain.blobs
    ensures var r := Step(k, w, ByChain(ApplyBlob(b)));
            && r.Some? && Steady(k, r.value) && r.value.chain.blobs == w.chain.blobs - {b}
            && r.value.chain.now == w.chain.now && r.value.chain.lastClose == w.chain.lastClose
            && r.value.tower == w.tower
  {
    ApplyBlobIsPossible(k, w.tower, w.chain, b);
    StepSafe(k, w, ByChain(ApplyBlob(b)));
    StepCalm(k, w, ByChain(ApplyBlob(b)));
  }

  lemma {:induction false} BlobsGetIn(k: Params, w: World) returns (run: seq<Event>)
    requires Steady(k, w)
    ensures (forall e | e in run :: Service(e)) && Exec(k, w, run).Some?
    ensures var w' := Exec(k, w, run).value;
            && w'.chain.blobs == {} && w'.chain.now == w.chain.now && w'.chain.lastClose == w.chain.lastClose
            && w'.tower == w.tower
    decreases |w.chain.blobs|
  {
    if b :| b in w.chain.blobs {
      var e := ByChain(ApplyBlob(b));
      OneBlobGetsIn(k, w, b);
      var rest := BlobsGetIn(k, Step(k, w, e).value);
      run := [e] + rest;
      assert run[1..] == rest;
    } else {
      run := [];
    }
  }

  /** With the tower asleep and no blob waiting the ledger closes, and a tick follows. */
  lemma LedgerTicks(k: Params, w: World)
    requires Steady(k, w) && w.chain.blobs == {} && Phase(w.tower.pc, w.chain.now) == 0
    ensures var run := [ByChain(CloseLedger), ByChain(Tick(1))];
            Exec(k, w, run).Some? && Exec(k, w, run).value.chain.now == w.chain.now + 1
  {
    var run := [ByChain(CloseLedger), ByChain(Tick(1))];
    assert run[1..] == [ByChain(Tick(1))];
    ExecOne(k, Step(k, w, ByChain(CloseLedger)).value, ByChain(Tick(1)));
  }

  lemma TimePasses(k: Params, w: World) returns (run: seq<Event>)
    requires Steady(k, w)
    ensures (forall e | e in run :: Service(e)) && Exec(k, w, run).Some?
    ensures Exec(k, w, run).value.chain.now == w.chain.now + 1
  {
    var r1 := TowerFinishesPoll(k, w);
    var w1 := Exec(k, w, r1).value;
    Steadily(k, w, r1);
    var r2 := BlobsGetIn(k, w1);
    var w2 := Exec(k, w1, r2).value;
    Steadily(k, w1, r2);
    LedgerTicks(k, w2);
    var r3 := [ByChain(CloseLedger), ByChain(Tick(1))];
    run := r1 + (r2 + r3);
    ExecAppend(k, w1, r2, r3);
    ExecAppend(k, w, r1, r2 + r3);
  }

  lemma {:induction false} TimePassesBy(k: Params, w: World, n: nat) returns (run: seq<Event>)
    requires Steady(k, w)
    ensures (forall e | e in run :: Service(e)) && Exec(k, w, run).Some?
    ensures Exec(k, w, run).value.chain.now == w.chain.now + n
    decreases n
  {
    if n == 0 {
      run := [];
    } else {
      var first := TimePasses(k, w);
      Steadily(k, w, first);
      var rest := TimePassesBy(k, Exec(k, w, first).value, n - 1);
      run := first + rest;
      ExecAppend(k, w, first, rest);
    }
  }

  /** Even if nobody but the tower and the ledger ever runs again, `a` gets paid. */
  lemma PaidWithoutThePayee(k: Params, w: World, a: int) returns (run: seq<Event>)
    requires Steady(k, w) && Room(k, 0)
    requires CloseComes(w, a) && NoUndercut(w.payee.redeemer, w.chain, a)
    ensures (forall e | e in run :: Service(e)) && Exec(k, AfterClose(k, w), run).Some?
    ensures a <= Exec(k, AfterClose(k, w), run).value.chain.paid
  {
    var w1 := AfterClose(k, w);
    StepSafe(k, w, ByChain(CloseLedger));
    StepCalm(k, w, ByChain(CloseLedger));
    run := TimePassesBy(k, w1, k.poll + k.interval + 1);
    SmoothRun(k, w1, run, a);
    SettlesInTime(k, w, a, run);
  }
}
