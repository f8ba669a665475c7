/** Which events lose a claim after the close. The tower marks a record as submitted before
    it submits the blob and never looks at it again, so a crash in between loses it, and
    so does a blob that no ledger takes; nothing else does. */
module XrpFailures {
  import opened Options
  import opened XrpTypes
  import opened XrpWorld
  import opened XrpSafety
  import opened XrpRuns
  import opened XrpSettlement
  import opened XrpProgress

  /** The claim of `h` in the record is lost: no blob is under way, and as long as the
      channel is on the ledger the record counts as submitted. */
  predicate Lost(t: Tower, c: Chain, h: int) {
    && c.blobs == {} && t.rec.Some? && !t.pc.TSubmit?
    && (t.pc.TDecide? ==> t.pc.snap.submitted || t.pc.entry.None?)
    && (c.valid.Some? ==>
          && t.rec.value.submitted && t.rec.value.blob.amount == h
          && (t.pc.TFetch? ==> t.pc.snap.submitted))
  }

  /** No message with a larger claim reaches the tower; smaller ones, and repetitions of
      what it holds, may. */
  predicate NothingLarger(e: Event, h: int) {
    e.ByTower? && e.t.Receive? ==> e.t.b.amount <= h
  }

  lemma TowerStaysLost(k: Params, t: Tower, c: Chain, e: TowerEvent, h: int)
    requires Lost(t, c, h) && (c.valid.Some? ==> !t.rec.value.done)
    requires NothingLarger(ByTower(e), h) && TowerStep(k, t, c, e).Some?
    ensures var (t', c') := TowerStep(k, t, c, e).value;
            Lost(t', c', h) && c' == c.(now := c'.now)
  {
  }

  lemma ChainStaysLost(k: Params, disk: Option<Incoming>, t: Tower, c: Chain, e: ChainEvent, h: int)
    requires ChainInv(k, disk, c) && Lost(t, c, h) && ChainStep(k, t, c, e).Some?
    ensures var c' := ChainStep(k, t, c, e).value;
            Lost(t, c', h) && (!e.ApplyRedeem? ==> c'.paid == c.paid)
  {
  }

  lemma WorkerStaysLost(k: Params, p: Payee, t: Tower, c: Chain, e: WorkerEvent, h: int)
    requires Lost(t, c, h) && WorkerStep(k, p, t, c, e).Some?
    ensures var (_, t', c') := WorkerStep(k, p, t, c, e).value;
            Lost(t', c', h) && c'.paid == c.paid
  {
  }

  lemma StepStaysLost(k: Params, w: World, e: Event, h: int)
    requires Safe(k, w) && Lost(w.tower, w.chain, h) && NothingLarger(e, h) && Step(k, w, e).Some?
    ensures var w' := Step(k, w, e).value;
            && Lost(w'.tower, w'.chain, h)
            && (!(e.ByChain? && e.c.ApplyRedeem?) ==> w'.chain.paid == w.chain.paid)
  {
    match e
    case ByTower(te) => TowerStaysLost(k, w.tower, w.chain, te, h);
    case ByChain(ce) => ChainStaysLost(k, w.payee.disk, w.tower, w.chain, ce, h);
    case ByWorker(we) => WorkerStaysLost(k, w.payee, w.tower, w.chain, we, h);
    case _ =>
  }

  lemma {:induction false} RunStaysLost(k: Params, w: World, run: seq<Event>, h: int)
    requires GoodParams(k) && Safe(k, w) && Lost(w.tower, w.chain, h) && Exec(k, w, run).Some?
    requires forall e | e in run :: NothingLarger(e, h)
    ensures var w' := Exec(k, w, run).value;
            && Lost(w'.tower, w'.chain, h)
            && ((forall e | e in run :: !(e.ByChain? && e.c.ApplyRedeem?)) ==> w'.chain.paid == w.chain.paid)
    decreases |run|
  {
    if run != [] {
      assert run[0] in run;
      StepSafe(k, w, run[0]);
      StepStaysLost(k, w, run[0], h);
      RunStaysLost(k, Step(k, w, run[0]).value, run[1..], h);
    }
  }

  /** A fatal event is one after which the claim in the record is lost. */
  lemma FatalIsLost(k: Params, w: World, e: Event, a: int)
    requires Steady(k, w) && Fatal(w, e, a) && Step(k, w, e).Some?
    ensures var w1 := Step(k, w, e).value;
            && Lost(w1.tower, w1.chain, w.tower.rec.value.blob.amount) && w1.chain.paid == w.chain.paid
            && w1.chain.open == w.chain.open && w1.chain.now == w.chain.now
            && (w.chain.open.Some? ==> w.chain.open.value.expiration.Some?)
  {
  }

  /** After a fatal event the tower never submits a blob again, whatever happens and
      whatever it is told, unless it gets a larger claim. So the claim stays unpaid
      unless the payee redeems on its own. */
  lemma MarkedIsNeverRetried(k: Params, w: World, e: Event, a: int, run: seq<Event>)
    requires Steady(k, w) && Fatal(w, e, a) && Step(k, w, e).Some?
    requires Exec(k, Step(k, w, e).value, run).Some?
    requires forall x | x in run :: NothingLarger(x, w.tower.rec.value.blob.amount)
    ensures var w' := Exec(k, Step(k, w, e).value, run).value;
            && w'.chain.blobs == {} && !w'.tower.pc.TSubmit?
            && ((forall x | x in run :: !(x.ByChain? && x.c.ApplyRedeem?)) ==> w'.chain.paid < a)
  {
    FatalIsLost(k, w, e, a);
    StepSafe(k, w, e);
    RunStaysLost(k, Step(k, w, e).value, run, w.tower.rec.value.blob.amount);
  }

  // ---- a fatal event has a continuation that loses the claim ----

  lemma ServiceStep(k: Params, w: World, e: Event, h: int)
    requires Safe(k, w) && Lost(w.tower, w.chain, h) && Service(e) && Step(k, w, e).Some?
    ensures var w' := Step(k, w, e).value;
            Lost(w'.tower, w'.chain, h) && w'.chain.open == w.chain.open && w'.chain.paid == w.chain.paid
  {
    StepStaysLost(k, w, e, h);
  }

  /** While only the tower and the ledger run, the channel stays as it is. */
  lemma {:induction false} ServiceRun(k: Params, w: World, run: seq<Event>, h: int)
    requires GoodParams(k) && Safe(k, w) && Lost(w.tower, w.chain, h) && Exec(k, w, run).Some?
    requires forall e | e in run :: Service(e)
    ensures var w' := Exec(k, w, run).value;
            Lost(w'.tower, w'.chain, h) && w'.chain.open == w.chain.open && w'.chain.paid == w.chain.paid
    decreases |run|
  {
    if run != [] {
      assert run[0] in run;
      StepSafe(k, w, run[0]);
      ServiceStep(k, w, run[0], h);
      ServiceRun(k, Step(k, w, run[0]).value, run[1..], h);
    }
  }

  /** Past the expiration, a close of the payer deletes the channel without paying. */
  lemma ExpiredChannelGoes(k: Params, w: World)
    requires GoodParams(k) && w.chain.blobs == {} && w.chain.open.Some? && w.chain.open.value.expiration.Some?
    requires w.chain.open.value.expiration.value <= w.chain.now
    ensures var run := [ByChain(CloseLedger), ByChain(PayerCloses)];
            && Exec(k, w, run).Some?
            && Exec(k, w, run).value.chain.open.None? && Exec(k, w, run).value.chain.paid == w.chain.paid
  {
    var run := [ByChain(CloseLedger), ByChain(PayerCloses)];
    assert run[1..] == [ByChain(PayerCloses)];
    ExecOne(k, Step(k, w, ByChain(CloseLedger)).value, ByChain(PayerCloses));
  }

  /** A lost claim stays unpaid with a running tower, a running ledger and a payer that
      finalizes its close. */
  lemma LostChannelGoes(k: Params, w: World, h: int) returns (run: seq<Event>)
    requires Steady(k, w) && Lost(w.tower, w.chain, h)
    requires w.chain.open.Some? ==> w.chain.open.value.expiration.Some?
    ensures (forall e | e in run :: Smooth(e)) && Exec(k, w, run).Some?
    ensures var c := Exec(k, w, run).value.chain;
            c.open.None? && c.paid == w.chain.paid
  {
    if w.chain.open.None? {
      run := [];
    } else {
      var exp := w.chain.open.value.expiration.value;
      var pause := TimePassesBy(k, w, if exp > w.chain.now then exp - w.chain.now else 0);
      ServiceRun(k, w, pause, h);
      ExpiredChannelGoes(k, Exec(k, w, pause).value);
      var end := [ByChain(CloseLedger), ByChain(PayerCloses)];
      ExecAppend(k, w, pause, end);
      run := pause + end;
    }
  }

  lemma FatalLoses(k: Params, w: World, e: Event, a: int) returns (run: seq<Event>)
    requires Steady(k, w) && Fatal(w, e, a) && Step(k, w, e).Some?
    ensures (forall x | x in run :: Smooth(x)) && Exec(k, Step(k, w, e).value, run).Some?
    ensures var c := Exec(k, Step(k, w, e).value, run).value.chain;
            c.open.None? && c.paid < a
  {
    FatalIsLost(k, w, e, a);
    StepSafe(k, w, e);
    StepCalm(k, w, e);
    run := LostChannelGoes(k, Step(k, w, e).value, w.tower.rec.value.blob.amount);
  }

  /** The state after a run from the start, the close of the ledger that shows the close
      request, and another run. */
  ghost predicate Happens(k: Params, amount: int, t0: int, before: seq<Event>, after: seq<Event>,
                          w: World, mid: World) {
    && GoodParams(k) && amount >= 0
    && Exec(k, Init(k, amount, t0), before) == Some(w) && w.chain.blobs == {}
    && Exec(k, AfterClose(k, w), after) == Some(mid)
  }

  lemma MidSteady(k: Params, amount: int, t0: int, before: seq<Event>, after: seq<Event>, w: World, mid: World)
    requires Happens(k, amount, t0, before, after, w, mid)
    ensures Safe(k, w) && Calm(k, w.tower, w.chain) && Steady(k, mid)
  {
    Reached(k, amount, t0, before);
    StepSafe(k, w, ByChain(CloseLedger));
    StepCalm(k, w, ByChain(CloseLedger));
    RunSafe(k, AfterClose(k, w), after);
    RunCalm(k, AfterClose(k, w), after);
  }

  lemma MidIsSteady(k: Params, amount: int, t0: int, before: seq<Event>, after: seq<Event>, w: World, mid: World)
    requires Happens(k, amount, t0, before, after, w, mid)
    ensures Steady(k, mid)
  {
    MidSteady(k, amount, t0, before, after, w, mid);
  }

  lemma MidOnTrack(k: Params, w: World, after: seq<Event>, mid: World, a: int, total: int)
    requires GoodParams(k) && Safe(k, w) && Calm(k, w.tower, w.chain)
    requires CloseComes(w, a) && NoUndercut(w.payee.redeemer, w.chain, a)
    requires Exec(k, AfterClose(k, w), after) == Some(mid) && NoFatal(k, AfterClose(k, w), after, a)
    requires Spent(k, after) <= total && Room(k, total)
    ensures OnTrack(k, mid, a, w.chain.now + k.poll + Spent(k, after), w.chain.now + k.poll + total)
  {
    SpentIsPositive(k, AfterClose(k, w), after);
    EntersSettling(k, w, a, total);
    RunSettles(k, AfterClose(k, w), after, a, w.chain.now + k.poll, w.chain.now + k.poll + total);
  }

  lemma ContinuationPays(k: Params, w: World, e: Event, a: int, d: int, last: int, rest: seq<Event>)
    requires OnTrack(k, w, a, d, last) && Step(k, w, e).Some? && !Fatal(w, e, a)
    requires Exec(k, Step(k, w, e).value, rest).Some? && NoFatal(k, Step(k, w, e).value, rest, a)
    requires d + Cost(k, e) + Spent(k, rest) == last
    ensures PaidInTime(Exec(k, Step(k, w, e).value, rest).value.chain, a, last + k.interval)
  {
    SpentIsPositive(k, Step(k, w, e).value, rest);
    StepOnTrack(k, w, e, a, d, last);
    RunSettles(k, Step(k, w, e).value, rest, a, d + Cost(k, e), last);
    SettledInTime(k, Exec(k, Step(k, w, e).value, rest).value, a, last, last);
  }

  lemma HarmlessIsPaid(k: Params, w: World, after: seq<Event>, mid: World, e: Event, a: int)
    requires GoodParams(k) && Safe(k, w) && Calm(k, w.tower, w.chain)
    requires CloseComes(w, a) && NoUndercut(w.payee.redeemer, w.chain, a)
    requires Exec(k, AfterClose(k, w), after) == Some(mid) && NoFatal(k, AfterClose(k, w), after, a)
    requires Step(k, mid, e).Some? && !Fatal(mid, e, a)
    ensures AlwaysPaid(k, Step(k, mid, e).value, a, w.chain.now, Spent(k, after) + Cost(k, e))
  {
    var next, extra := Step(k, mid, e).value, Spent(k, after) + Cost(k, e);
    forall rest: seq<Event> | MeetsTerms(k, next, rest, a, extra)
      ensures PaidInTime(Exec(k, next, rest).value.chain, a, Deadline(k, w.chain.now, extra + Spent(k, rest)))
    {
      var total := extra + Spent(k, rest);
      CostsSomething(k, mid, e);
      SpentIsPositive(k, next, rest);
      MidOnTrack(k, w, after, mid, a, total);
      ContinuationPays(k, mid, e, a, w.chain.now + k.poll + Spent(k, after), w.chain.now + k.poll + total, rest);
    }
  }

  lemma FatalIsNotPaid(k: Params, w: World, e: Event, a: int, close: int, extra: int)
    requires Steady(k, w) && Fatal(w, e, a) && Step(k, w, e).Some? && Room(k, extra)
    ensures !AlwaysPaid(k, Step(k, w, e).value, a, close, extra)
  {
    var next := Step(k, w, e).value;
    var rest := FatalLoses(k, w, e, a);
    SmoothRun(k, next, rest, a);
    assert MeetsTerms(k, next, rest, a, extra);
    assert !PaidInTime(Exec(k, next, rest).value.chain, a, Deadline(k, close, extra + Spent(k, rest)));
  }

  lemma HarmlessCase(k: Params, amount: int, t0: int, before: seq<Event>, after: seq<Event>, w: World, mid: World,
                     e: Event, a: int)
    requires Happens(k, amount, t0, before, after, w, mid)
    requires CloseComes(w, a) && NoUndercut(w.payee.redeemer, w.chain, a)
    requires NoFatal(k, AfterClose(k, w), after, a) && Step(k, mid, e).Some? && !Fatal(mid, e, a)
    ensures AlwaysPaid(k, Step(k, mid, e).value, a, w.chain.now, Spent(k, after) + Cost(k, e))
  {
    MidSteady(k, amount, t0, before, after, w, mid);
    HarmlessIsPaid(k, w, after, mid, e, a);
  }

  lemma FatalCase(k: Params, amount: int, t0: int, before: seq<Event>, after: seq<Event>, w: World, mid: World,
                  e: Event, a: int, close: int, extra: int)
    requires Happens(k, amount, t0, before, after, w, mid)
    requires Fatal(mid, e, a) && Step(k, mid, e).Some? && Room(k, extra)
    ensures !AlwaysPaid(k, Step(k, mid, e).value, a, close, extra)
  {
    MidIsSteady(k, amount, t0, before, after, w, mid);
    FatalIsNotPaid(k, mid, e, a, close, extra);
  }

  /** The exact condition on any event after the close, in any run from the start without
      a fatal event so far. The claim is still paid in time in every continuation that
      leaves room and has no fatal event, if and only if this event is not fatal. */
  lemma FailureExactly(k: Params, amount: int, t0: int, before: seq<Event>, after: seq<Event>, w: World, mid: World,
                       e: Event, a: int)
    requires Happens(k, amount, t0, before, after, w, mid)
    requires CloseComes(w, a) && NoUndercut(w.payee.redeemer, w.chain, a)
    requires NoFatal(k, AfterClose(k, w), after, a)
    requires Step(k, mid, e).Some? && Room(k, Spent(k, after) + Cost(k, e))
    ensures !Fatal(mid, e, a) <==>
            AlwaysPaid(k, Step(k, mid, e).value, a, w.chain.now, Spent(k, after) + Cost(k, e))
  {
    if Fatal(mid, e, a) {
      FatalCase(k, amount, t0, before, after, w, mid, e, a, w.chain.now, Spent(k, after) + Cost(k, e));
    } else {
      HarmlessCase(k, amount, t0, before, after, w, mid, e, a);
    }
  }
}
