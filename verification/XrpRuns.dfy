/** The safety results over whole runs of the payment channel. The peer may claim
    anything, in any order and as often as it likes (event PeerClaim), and it may
    close, fund, crash and fall silent at any time. */
module XrpRuns {
  import opened Options
  import opened XrpTypes
  import opened PayChanLedger
  import opened XrpWorld
  import opened XrpSafety

  lemma StepSafe(k: Params, w: World, e: Event)
    requires GoodParams(k) && Safe(k, w) && Step(k, w, e).Some?
    ensures Safe(k, Step(k, w, e).value)
  {
    match e
    case ByPayer(e) => PayerStepSafe(k, w, e);
    case ByPayee(e) => PayeeStepSafe(k, w, e);
    case ByWorker(e) => WorkerStepSafe(k, w, e);
    case ByRedeemer(e) => RedeemStepSafe(k, w, e);
    case ByTower(e) => TowerStepSafe(k, w, e);
    case ByChain(e) => ChainStepSafe(k, w, e);
  }

  lemma {:induction false} RunSafe(k: Params, w: World, run: seq<Event>)
    requires GoodParams(k) && Safe(k, w) && Exec(k, w, run).Some?
    ensures Safe(k, Exec(k, w, run).value)
    decreases |run|
  {
    if run != [] {
      StepSafe(k, w, run[0]);
      RunSafe(k, Step(k, w, run[0]).value, run[1..]);
    }
  }

  /** In every reachable state: every drop is accounted for; the ledger has paid at
      most the best claim on disk, so the payee's own redeem and the blobs of the
      tower together never pay more than it; best claim, funding and channel are in
      order, both in memory and on disk; the best claim carries the signature of
      the payer; and everything the payee ever acknowledged is on its disk. */
  lemma ClaimsAreSafe(k: Params, amount: int, t0: int, run: seq<Event>)
    requires GoodParams(k) && amount >= 0 && Exec(k, Init(k, amount, t0), run).Some?
    ensures var w := Exec(k, Init(k, amount, t0), run).value;
            && w.chain.paid + w.chain.refunded + Locked(w.chain.open) == w.chain.funding
            && 0 <= w.chain.paid <= Best(w.payee.disk) <= Best(w.payee.mem)
            && (w.chain.open.Some? ==> w.chain.open.value.balance == w.chain.paid
                                       && w.chain.open.value.amount == w.chain.funding)
            && (w.payee.mem.Some? ==> w.payee.mem.value.best <= w.payee.mem.value.funded <= w.chain.vfunding)
            && (w.payee.disk.Some? ==> w.payee.disk.value.best <= w.payee.disk.value.funded <= w.chain.vfunding)
            && w.chain.vfunding <= w.chain.funding
            && (w.chain.valid.Some? ==> w.chain.valid.value.amount == w.chain.vfunding)
            && (Best(w.payee.mem) > 0 ==>
                  w.payee.mem.value.bestSig == Some(Sig(k.key, k.channel, w.payee.mem.value.best)))
            && (Best(w.payee.disk) > 0 ==>
                  w.payee.disk.value.bestSig == Some(Sig(k.key, k.channel, w.payee.disk.value.best)))
            && forall a | a in w.link.acked :: a <= Best(w.payee.disk)
  {
    InitSafe(k, amount, t0);
    RunSafe(k, Init(k, amount, t0), run);
  }

  /** While the channel is on the ledger, the tower holds at least what the payee
      believes it holds and no more than the best claim on the payee's disk, and the
      blob it holds is signed by the payer. */
  lemma TowerIsBetween(k: Params, amount: int, t0: int, run: seq<Event>)
    requires GoodParams(k) && amount >= 0 && Exec(k, Init(k, amount, t0), run).Some?
    ensures var w := Exec(k, Init(k, amount, t0), run).value;
            w.chain.valid.Some? && w.payee.mem.Some? ==>
              && (w.tower.rec.None? ==> w.payee.mem.value.towerDrops == 0)
              && (w.tower.rec.Some? ==>
                    && w.payee.mem.value.towerDrops <= w.tower.rec.value.blob.amount <= Best(w.payee.disk)
                    && w.tower.rec.value.blob.sig == Sig(k.key, k.channel, w.tower.rec.value.blob.amount)
                    && !w.tower.rec.value.done)
  {
    InitSafe(k, amount, t0);
    RunSafe(k, Init(k, amount, t0), run);
  }

  lemma StepGrows(k: Params, w: World, e: Event)
    requires GoodParams(k) && Safe(k, w) && Step(k, w, e).Some?
    ensures var w' := Step(k, w, e).value;
            && DiskGrows(w.payee.disk, w'.payee.disk)
            && (e != ByPayee(PayeeCrash) ==> Best(w.payee.mem) <= Best(w'.payee.mem))
            && w.chain.paid <= w'.chain.paid
            && (w.chain.valid.None? ==> w'.chain.valid.None?)
  {
    match e
    case ByPayer(e) =>
    case ByPayee(e) => PayeeGrows(k, w, e);
    case ByWorker(e) =>
      WorkerStepPayee(k, w, e);
      WorkerStepFrame(k, w.payee, w.tower, w.chain, e);
    case ByRedeemer(e) =>
      RedeemStepPayee(k, w, e);
      RedeemStepFrame(k, w.payee, w.tower, w.chain, e);
    case ByTower(e) => TowerKeepsChain(k, w.tower, w.chain, e);
    case ByChain(e) => ChainGrows(k, w, e);
  }

  lemma TowerKeepsChain(k: Params, t: Tower, c: Chain, e: TowerEvent)
    requires TowerStep(k, t, c, e).Some?
    ensures var c' := TowerStep(k, t, c, e).value.1;
            c'.paid == c.paid && c'.valid == c.valid
  {
  }

  lemma PayeeGrows(k: Params, w: World, e: PayeeEvent)
    requires GoodParams(k) && Safe(k, w) && PayeeStep(k, w.payee, w.link, w.chain, e).Some?
    ensures var p := PayeeStep(k, w.payee, w.link, w.chain, e).value.0;
            DiskGrows(w.payee.disk, p.disk) && (e != PayeeCrash ==> Best(w.payee.mem) <= Best(p.mem))
  {
  }

  lemma BlobTakesNothing(k: Params, disk: Option<Incoming>, t: Tower, c: Chain, b: Blob)
    requires GoodParams(k) && ChainInv(k, disk, c) && ChainStep(k, t, c, ApplyBlob(b)).Some?
    ensures c.paid <= ChainStep(k, t, c, ApplyBlob(b)).value.paid
  {
    ApplyConserves(k.channel, c.open, c.lastClose, BlobTx(k.payee, b));
  }

  lemma RedeemTakesNothing(k: Params, disk: Option<Incoming>, t: Tower, c: Chain, id: nat)
    requires GoodParams(k) && ChainInv(k, disk, c) && ChainStep(k, t, c, ApplyRedeem(id)).Some?
    ensures c.paid <= ChainStep(k, t, c, ApplyRedeem(id)).value.paid
  {
    ApplyConserves(k.channel, c.open, c.lastClose, RedeemTx(k.payee, c.txs[id]));
  }

  lemma ChainGrows(k: Params, w: World, e: ChainEvent)
    requires GoodParams(k) && Safe(k, w) && ChainStep(k, w.tower, w.chain, e).Some?
    ensures var c := ChainStep(k, w.tower, w.chain, e).value;
            w.chain.paid <= c.paid && (w.chain.valid.None? ==> c.valid.None?)
  {
    match e
    case ApplyRedeem(id) => RedeemTakesNothing(k, w.payee.disk, w.tower, w.chain, id);
    case ApplyBlob(b) => BlobTakesNothing(k, w.payee.disk, w.tower, w.chain, b);
    case _ =>
  }

  /** From any safe state on: the best claim on disk and the amount paid never
      decrease, a channel that left the ledger never returns, and the best claim in
      memory shrinks at most in a crash, to what is on disk. */
  lemma {:induction false} BestNeverShrinks(k: Params, w: World, run: seq<Event>)
    requires GoodParams(k) && Safe(k, w) && Exec(k, w, run).Some?
    ensures var w' := Exec(k, w, run).value;
            && Best(w.payee.disk) <= Best(w'.payee.disk) <= Best(w'.payee.mem)
            && (ByPayee(PayeeCrash) !in run ==> Best(w.payee.mem) <= Best(w'.payee.mem))
            && w.chain.paid <= w'.chain.paid
            && (w.chain.valid.None? ==> w'.chain.valid.None?)
    decreases |run|
  {
    if run != [] {
      StepSafe(k, w, run[0]);
      StepGrows(k, w, run[0]);
      BestNeverShrinks(k, Step(k, w, run[0]).value, run[1..]);
    }
  }
}
