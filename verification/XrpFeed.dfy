/** No lost notification: the worker that feeds the tower never forgets a claim. */
module XrpFeed {
  import opened XrpWorld
  import opened XrpSafety
  import opened XrpRuns

  /** A notification is queued or about to be queued, or the worker has not read the
      claim yet, or it is on its way to the tower with this very claim. */
  predicate Underway(p: Payee) {
    || p.queue > 0 || p.puts > 0 || p.toNotify.Keys != {} || p.lock != Unlocked
    || p.worker in {Draining, Checking, NeedTicket, Sleeping} || p.worker.GotTicket? || p.worker.Reading?
    || ((p.worker.Sending? || p.worker.AwaitingReply? || p.worker.Recording?) && p.worker.b.amount == Best(p.mem))
  }

  predicate Fed(p: Payee) {
    p.mem.Some? && !p.mem.value.closed && p.mem.value.towerDrops < p.mem.value.best ==> Underway(p)
  }

  /** Nothing moves on the payee's side of the feed. */
  predicate AtRest(p: Payee) {
    p.queue == 0 && p.puts == 0 && p.toNotify.Keys == {} && p.lock == Unlocked && p.worker == Waiting
  }

  lemma PayeeStepFed(k: Params, w: World, e: PayeeEvent)
    requires Safe(k, w) && Fed(w.payee) && PayeeStep(k, w.payee, w.link, w.chain, e).Some?
    ensures Fed(PayeeStep(k, w.payee, w.link, w.chain, e).value.0)
  {
    if e == SaveClaim {
      assert w.payee.lock.conn in PayeeStep(k, w.payee, w.link, w.chain, e).value.0.toNotify;
    }
  }

  lemma WorkerStepFed(k: Params, w: World, e: WorkerEvent)
    requires Safe(k, w) && Fed(w.payee) && WorkerStep(k, w.payee, w.tower, w.chain, e).Some?
    ensures Fed(WorkerStep(k, w.payee, w.tower, w.chain, e).value.0)
  {
  }

  lemma RedeemStepFed(k: Params, w: World, e: RedeemEvent)
    requires Safe(k, w) && Fed(w.payee) && RedeemStep(k, w.payee, w.tower, w.chain, e).Some?
    ensures Fed(RedeemStep(k, w.payee, w.tower, w.chain, e).value.0)
  {
  }

  lemma StepFed(k: Params, w: World, e: Event)
    requires Safe(k, w) && Fed(w.payee) && Step(k, w, e).Some?
    ensures Fed(Step(k, w, e).value.payee)
  {
    match e
    case ByPayee(pe) => PayeeStepFed(k, w, pe);
    case ByWorker(we) => WorkerStepFed(k, w, we);
    case ByRedeemer(re) => RedeemStepFed(k, w, re);
    case _ =>
  }

  lemma {:induction false} RunFed(k: Params, w: World, run: seq<Event>)
    requires GoodParams(k) && Safe(k, w) && Fed(w.payee) && Exec(k, w, run).Some?
    ensures Fed(Exec(k, w, run).value.payee)
    decreases |run|
  {
    if run != [] {
      StepSafe(k, w, run[0]);
      StepFed(k, w, run[0]);
      RunFed(k, Step(k, w, run[0]).value, run[1..]);
    }
  }

  /** In every interleaving of handlers, restarts, failed pushes and the draining
      worker, a claim that the tower is not known to hold is underway. */
  lemma NoLostNotification(k: Params, amount: int, t0: int, run: seq<Event>)
    requires GoodParams(k) && amount >= 0 && Exec(k, Init(k, amount, t0), run).Some?
    ensures Fed(Exec(k, Init(k, amount, t0), run).value.payee)
  {
    InitSafe(k, amount, t0);
    RunFed(k, Init(k, amount, t0), run);
  }

  /** So at rest, while the channel is on the ledger, the tower holds exactly the best
      claim: neither an older one nor one that the payee could lose in a crash. */
  lemma AtRestTowerHoldsBest(k: Params, amount: int, t0: int, run: seq<Event>)
    requires GoodParams(k) && amount >= 0 && Exec(k, Init(k, amount, t0), run).Some?
    ensures var w := Exec(k, Init(k, amount, t0), run).value;
            AtRest(w.payee) && w.payee.mem.Some? && w.chain.valid.Some? ==>
              && w.payee.mem.value.towerDrops == w.payee.mem.value.best == Best(w.payee.disk)
              && (w.payee.mem.value.best > 0 ==>
                    w.tower.rec.Some? && w.tower.rec.value.blob.amount == w.payee.mem.value.best)
  {
    NoLostNotification(k, amount, t0, run);
    InitSafe(k, amount, t0);
    RunSafe(k, Init(k, amount, t0), run);
    TowerIsBetween(k, amount, t0, run);
  }
}
