/** The payee that redeems on its own: the claim it takes is its best one, and on a live
    channel it is paid in full. */
module XrpRedeem {
  import opened Options
  import opened XrpTypes
  import opened PayChanLedger
  import opened XrpWorld
  import opened XrpSafety
  import opened XrpRuns

  /** A redeem begins exactly if there is something new or a close is asked for, and it
      takes the best claim. */
  lemma StartTakesBest(k: Params, w: World, close: bool)
    requires Safe(k, w) && w.payee.redeemer == RIdle && w.payee.lock == Unlocked && w.payee.mem.Some?
    ensures var inn := w.payee.mem.value;
            var r := Step(k, w, ByRedeemer(RedeemStart(close)));
            && (r.Some? <==> inn.redeemed < inn.best || close)
            && (r.Some? ==>
                  && r.value.payee.redeemer.RRead?
                  && r.value.payee.redeemer.tx == Redeem(k.channel, inn.best, inn.bestSig, k.key, close))
  {
  }

  /** The redeem under way, if any, is about this transaction. */
  predicate Carries(p: Payee, c: Chain, tx: Redeem) {
    match p.redeemer
    case RIdle => true
    case RRead(x) => x == tx
    case RBefore(x, _, _) => x == tx
    case RSent(id, _, _) => id in c.txs && c.txs[id] == tx
    case RAfter(id, _, _, _, _) => id in c.txs && c.txs[id] == tx
  }

  lemma RedeemStepCarries(k: Params, w: World, e: RedeemEvent, tx: Redeem)
    requires Carries(w.payee, w.chain, tx) && !e.RedeemStart?
    requires RedeemStep(k, w.payee, w.tower, w.chain, e).Some?
    ensures var (p, c) := RedeemStep(k, w.payee, w.tower, w.chain, e).value;
            Carries(p, c, tx)
  {
  }

  lemma PayeeStepCarries(k: Params, w: World, e: PayeeEvent, tx: Redeem)
    requires Carries(w.payee, w.chain, tx) && PayeeStep(k, w.payee, w.link, w.chain, e).Some?
    ensures Carries(PayeeStep(k, w.payee, w.link, w.chain, e).value.0, w.chain, tx)
  {
  }

  lemma WorkerStepCarries(k: Params, w: World, e: WorkerEvent, tx: Redeem)
    requires Carries(w.payee, w.chain, tx) && WorkerStep(k, w.payee, w.tower, w.chain, e).Some?
    ensures var (p, _, c) := WorkerStep(k, w.payee, w.tower, w.chain, e).value;
            Carries(p, c, tx)
  {
  }

  lemma TowerStepCarries(k: Params, w: World, e: TowerEvent, tx: Redeem)
    requires Carries(w.payee, w.chain, tx) && TowerStep(k, w.tower, w.chain, e).Some?
    ensures Carries(w.payee, TowerStep(k, w.tower, w.chain, e).value.1, tx)
  {
  }

  lemma ChainStepCarries(k: Params, w: World, e: ChainEvent, tx: Redeem)
    requires Carries(w.payee, w.chain, tx) && ChainStep(k, w.tower, w.chain, e).Some?
    ensures Carries(w.payee, ChainStep(k, w.tower, w.chain, e).value, tx)
  {
  }

  lemma StepCarries(k: Params, w: World, e: Event, tx: Redeem)
    requires Carries(w.payee, w.chain, tx) && Step(k, w, e).Some? && !(e.ByRedeemer? && e.r.RedeemStart?)
    ensures Carries(Step(k, w, e).value.payee, Step(k, w, e).value.chain, tx)
  {
    match e
    case ByPayer(pe) =>
    case ByPayee(pe) => PayeeStepCarries(k, w, pe, tx);
    case ByWorker(we) => WorkerStepCarries(k, w, we, tx);
    case ByRedeemer(re) => RedeemStepCarries(k, w, re, tx);
    case ByTower(te) => TowerStepCarries(k, w, te, tx);
    case ByChain(ce) => ChainStepCarries(k, w, ce, tx);
  }

  lemma {:induction false} RunCarries(k: Params, w: World, run: seq<Event>, tx: Redeem)
    requires Carries(w.payee, w.chain, tx) && Exec(k, w, run).Some?
    requires forall e | e in run :: !(e.ByRedeemer? && e.r.RedeemStart?)
    ensures Carries(Exec(k, w, run).value.payee, Exec(k, w, run).value.chain, tx)
    decreases |run|
  {
    if run != [] {
      assert run[0] in run;
      StepCarries(k, w, run[0], tx);
      RunCarries(k, Step(k, w, run[0]).value, run[1..], tx);
    }
  }

  lemma ApplicationPays(k: Params, disk: Option<Incoming>, t: Tower, c: Chain, id: nat)
    requires GoodParams(k) && ChainInv(k, disk, c) && id in c.txs && id !in c.res
    requires c.txs[id].amount <= c.funding && c.open.Some? && !Expired(c.open.value, c.lastClose)
    ensures var r := ChainStep(k, t, c, ApplyRedeem(id));
            && r.Some? && c.txs[id].amount <= r.value.paid
            && (c.paid < c.txs[id].amount ==>
                  r.value.paid == c.txs[id].amount && (r.value.open.None? <==> c.txs[id].close))
  {
    var tx := RedeemTx(k.payee, c.txs[id]);
    ApplyConserves(k.channel, c.open, c.lastClose, tx);
    if tx.part.Some? {
      PayeeClaimFate(k.channel, c.open, c.lastClose, tx);
    }
  }

  /** A redeem that the ledger applies before the expiration leaves at least its claim
      paid; if less was paid before, it closes the channel exactly if that was asked. */
  lemma AppliedPays(k: Params, w: World, id: nat)
    requires GoodParams(k) && Safe(k, w) && id in w.chain.txs && id !in w.chain.res
    requires w.chain.open.Some? && !Expired(w.chain.open.value, w.chain.lastClose)
    ensures var tx := w.chain.txs[id];
            var r := Step(k, w, ByChain(ApplyRedeem(id)));
            && r.Some? && tx.amount <= r.value.chain.paid
            && (w.chain.paid < tx.amount ==>
                  r.value.chain.paid == tx.amount && (r.value.chain.open.None? <==> tx.close))
  {
    ApplicationPays(k, w.payee.disk, w.tower, w.chain, id);
  }

  /** In every run: a redeem that is read at some moment and applied later, before the
      expiration, leaves at least what the best claim was at that moment paid, whatever
      happened in between; if less was paid before then it is exactly that claim, and the
      channel is closed exactly if that was asked. */
  lemma RedeemPaysBest(k: Params, amount: int, t0: int, before: seq<Event>, w: World, close: bool,
                       between: seq<Event>, mid: World)
    requires GoodParams(k) && amount >= 0 && Exec(k, Init(k, amount, t0), before) == Some(w)
    requires Step(k, w, ByRedeemer(RedeemStart(close))).Some?
    requires Exec(k, Step(k, w, ByRedeemer(RedeemStart(close))).value, between) == Some(mid)
    requires forall e | e in between :: !(e.ByRedeemer? && e.r.RedeemStart?)
    requires mid.payee.redeemer.RSent? && mid.payee.redeemer.id !in mid.chain.res
    requires mid.chain.open.Some? && !Expired(mid.chain.open.value, mid.chain.lastClose)
    ensures var r := Step(k, mid, ByChain(ApplyRedeem(mid.payee.redeemer.id)));
            && r.Some? && w.payee.mem.Some? && w.payee.mem.value.best <= r.value.chain.paid
            && (mid.chain.paid < w.payee.mem.value.best ==>
                  && r.value.chain.paid == w.payee.mem.value.best
                  && (r.value.chain.open.None? <==> close))
  {
    InitSafe(k, amount, t0);
    RunSafe(k, Init(k, amount, t0), before);
    StartTakesBest(k, w, close);
    var w1 := Step(k, w, ByRedeemer(RedeemStart(close))).value;
    StepSafe(k, w, ByRedeemer(RedeemStart(close)));
    RunSafe(k, w1, between);
    RunCarries(k, w1, between, w1.payee.redeemer.tx);
    AppliedPays(k, mid, mid.payee.redeemer.id);
  }
}
