/** Honest bookkeeping: when `redeemed_drops` never exceeds what the ledger has paid. */
module XrpBooks {
  import opened Options
  import opened XrpTypes
  import opened PayChanLedger
  import opened XrpNodeSpec
  import opened XrpTowerSpec
  import opened XrpWorld
  import opened XrpSafety
  import opened XrpRuns

  /** When the record of a single redeem is true. The payee submits a signed claim on
      a channel `c`, the transaction succeeds, and between the two balance reads the
      account also receives `others` drops and pays `fees` drops besides the fee of
      this transaction. The claim that is then recorded as redeemed is covered by the
      ledger, unless the channel had expired, other credits hid that nothing was
      paid, and the claim is larger than what was paid before. */
  lemma RedeemTrueExactly(k: Params, c: PayChan, parentClose: int, r: Redeem, inn: Incoming, others: int, fees: int)
    requires GoodChan(c) && ChannelIs(k, c, c.amount) && r.amount > 0
    requires r.pub == k.key && r.sig == Some(Sig(k.key, k.channel, r.amount))
    requires Apply(k.channel, Some(c), parentClose, RedeemTx(k.payee, r)).ter == TesSuccess
    requires others >= 0 && fees >= 0 && inn.redeemed <= c.balance
    ensures var e := Apply(k.channel, Some(c), parentClose, RedeemTx(k.payee, r));
            var before := 0;
            var after := e.credit + others - fees - k.fee;
            var inn' := RedeemRecord(inn, r.amount, after - before + k.fee, e.chan.None?);
            (inn'.redeemed <= c.balance + e.credit <==>
             !(Expired(c, parentClose) && others > fees && r.amount > c.balance))
  {
  }

  // ---- whole runs ----

  /** The redeem that is being recorded paid nothing, but other credits exceeded other
      fees between its balance reads, and its claim is larger than all that was paid. */
  predicate CountsForeign(k: Params, r: Redeemer, c: Chain) {
    && r.RAfter? && r.id in c.vres && r.id in c.txs
    && c.vres[r.id].credit == 0 && PaidBetween(k, r) > 0 && c.paid < c.txs[r.id].amount
  }

  /** The result of a blob that succeeded goes into a record with a larger claim, or the
      blob landed too late to pay what the record holds. */
  predicate CreditsTooMuch(t: Tower, c: Chain) {
    && t.pc.TWait? && t.rec.Some? && t.pc.blob in c.vbres && c.vbres[t.pc.blob].ter == TesSuccess
    && t.rec.value.blob.amount > if c.vbres[t.pc.blob].credit > 0 then t.pc.blob.amount else c.paid
  }

  /** The condition on one step. */
  predicate Careful(k: Params, w: World, e: Event) {
    match e
    case ByRedeemer(RecordPaid(_)) => !CountsForeign(k, w.payee.redeemer, w.chain)
    case ByTower(Validated) => !CreditsTooMuch(w.tower, w.chain)
    case _ => true
  }

  predicate CarefulRun(k: Params, w: World, run: seq<Event>)
    decreases |run|
  {
    if run == [] then true
    else
      Careful(k, w, run[0]) && (Step(k, w, run[0]).Some? ==> CarefulRun(k, Step(k, w, run[0]).value, run[1..]))
  }

  /** What the ledger did, as its results of the redeems say. */
  ghost predicate RedeemsInv(c: Chain) {
    && c.vdebits <= c.debits
    && (forall id | id in c.txs :: id < c.nextTx)
    && (forall id | id in c.res :: id in c.txs && c.res[id].credit >= 0
                                   && (c.res[id].credit > 0 ==> c.txs[id].amount <= c.paid))
    && (forall id | id in c.vres :: id in c.res && c.vres[id] == c.res[id])
  }

  /** And as its results of the blobs say. */
  ghost predicate BlobsInv(c: Chain) {
    && (forall b | b in c.bres :: b.ticket in c.used && c.bres[b].credit >= 0
                                  && (c.bres[b].credit > 0 ==> b.amount == c.paid && c.open.None?))
    && (forall b | b in c.vbres :: b in c.bres && c.vbres[b] == c.bres[b])
  }

  predicate RedeemerBooks(k: Params, r: Redeemer, c: Chain) {
    match r
    case RBefore(_, _, db) => db <= c.vdebits
    case RSent(id, _, db) =>
      && id in c.txs && db <= c.vdebits
      && (id in c.res && c.res[id].ter == TesSuccess ==> db + k.fee <= c.debits)
      && (id in c.vres && c.vres[id].ter == TesSuccess ==> db + k.fee <= c.vdebits)
    case RAfter(id, _, db, _, db') => id in c.vres && db + k.fee <= db'
    case _ => true
  }

  /** What holds in every run, careful or not. */
  ghost predicate BooksInv(k: Params, w: World) {
    RedeemsInv(w.chain) && BlobsInv(w.chain) && RedeemerBooks(k, w.payee.redeemer, w.chain)
  }

  /** Nobody believes, or says, that more was paid than the ledger paid. */
  predicate HonestBooks(p: Payee, t: Tower, c: Chain) {
    && (p.mem.Some? ==> p.mem.value.redeemed <= c.paid)
    && (p.disk.Some? ==> p.disk.value.redeemed <= c.paid)
    && (Reported(t.rec).Some? ==> Reported(t.rec).value <= c.paid)
    && (p.watcher.WGone? && p.watcher.reported.Some? ==> p.watcher.reported.value <= c.paid)
  }

  // ---- the invariant of every run ----

  lemma WorkerStepBooks(k: Params, w: World, e: WorkerEvent)
    requires GoodParams(k) && BooksInv(k, w) && WorkerStep(k, w.payee, w.tower, w.chain, e).Some?
    ensures var (p, t, c) := WorkerStep(k, w.payee, w.tower, w.chain, e).value;
            BooksInv(k, w.(payee := p, tower := t, chain := c))
  {
  }

  lemma RedeemStepBooks(k: Params, w: World, e: RedeemEvent)
    requires BooksInv(k, w) && RedeemStep(k, w.payee, w.tower, w.chain, e).Some?
    ensures var (p, c) := RedeemStep(k, w.payee, w.tower, w.chain, e).value;
            BooksInv(k, w.(payee := p, chain := c))
  {
  }

  lemma PostBooks(k: Params, c: Chain, f: Effect)
    requires GoodParams(k) && RedeemsInv(c) && BlobsInv(c)
    requires f.credit >= 0 && (c.open.None? ==> f.credit == 0 && f.chan.None?)
    ensures RedeemsInv(Post(k, c, f)) && BlobsInv(Post(k, c, f))
  {
  }

  lemma RedeemEffect(k: Params, disk: Option<Incoming>, c: Chain, id: nat)
    requires GoodParams(k) && ChainInv(k, disk, c) && id in c.txs
    ensures var f := Apply(k.channel, c.open, c.lastClose, RedeemTx(k.payee, c.txs[id]));
            && f.credit >= 0 && (f.credit > 0 ==> c.txs[id].amount == c.paid + f.credit)
            && (c.open.None? ==> f.credit == 0 && f.chan.None?)
  {
    ApplyConserves(k.channel, c.open, c.lastClose, RedeemTx(k.payee, c.txs[id]));
  }

  lemma RedeemNoted(k: Params, c: Chain, id: nat, f: Effect)
    requires GoodParams(k) && RedeemsInv(c) && BlobsInv(c) && id in c.txs && id !in c.res
    requires f.credit >= 0 && (f.credit > 0 ==> c.txs[id].amount == c.paid + f.credit)
    requires c.open.None? ==> f.credit == 0 && f.chan.None?
    ensures var c' := Post(k, c, f).(res := c.res[id := Outcome(f.ter, f.credit)]);
            RedeemsInv(c') && BlobsInv(c')
  {
    PostBooks(k, c, f);
  }

  lemma RedeemOutcome(k: Params, disk: Option<Incoming>, t: Tower, c: Chain, id: nat)
    requires GoodParams(k) && ChainInv(k, disk, c) && RedeemsInv(c) && BlobsInv(c)
    requires ChainStep(k, t, c, ApplyRedeem(id)).Some?
    ensures var c' := ChainStep(k, t, c, ApplyRedeem(id)).value;
            RedeemsInv(c') && BlobsInv(c') && c'.debits == c.debits + k.fee
  {
    RedeemEffect(k, disk, c, id);
    RedeemNoted(k, c, id, Apply(k.channel, c.open, c.lastClose, RedeemTx(k.payee, c.txs[id])));
  }

  /** The effect of a blob: if it pays, it pays all of its claim and closes the channel. */
  lemma BlobEffect(k: Params, disk: Option<Incoming>, c: Chain, b: Blob)
    requires GoodParams(k) && ChainInv(k, disk, c) && b in c.blobs
    ensures var f := Apply(k.channel, c.open, c.lastClose, BlobTx(k.payee, b));
            && f.credit >= 0 && (f.credit > 0 ==> f.chan.None? && b.amount == c.paid + f.credit)
            && (c.open.None? ==> f.credit == 0 && f.chan.None?)
  {
    ApplyConserves(k.channel, c.open, c.lastClose, BlobTx(k.payee, b));
    PayeeClaimFate(k.channel, c.open, c.lastClose, BlobTx(k.payee, b));
  }

  lemma BlobNoted(k: Params, c: Chain, b: Blob, f: Effect)
    requires GoodParams(k) && RedeemsInv(c) && BlobsInv(c) && b.ticket !in c.used
    requires f.credit >= 0 && (f.credit > 0 ==> f.chan.None? && b.amount == c.paid + f.credit)
    requires c.open.None? ==> f.credit == 0 && f.chan.None?
    ensures var c' := Post(k, c, f).(blobs := c.blobs - {b}, used := c.used + {b.ticket},
                                     bres := c.bres[b := Outcome(f.ter, f.credit)]);
            RedeemsInv(c') && BlobsInv(c')
  {
    PostBooks(k, c, f);
  }

  lemma BlobOutcome(k: Params, disk: Option<Incoming>, t: Tower, c: Chain, b: Blob)
    requires GoodParams(k) && ChainInv(k, disk, c) && RedeemsInv(c) && BlobsInv(c)
    requires ChainStep(k, t, c, ApplyBlob(b)).Some?
    ensures var c' := ChainStep(k, t, c, ApplyBlob(b)).value;
            && RedeemsInv(c') && BlobsInv(c') && c.debits <= c'.debits
            && c' == c'.(vdebits := c.vdebits, txs := c.txs, res := c.res, vres := c.vres)
  {
    if !(b.ticket in c.used || b.ticket >= c.tickets) {
      BlobEffect(k, disk, c, b);
      BlobNoted(k, c, b, Apply(k.channel, c.open, c.lastClose, BlobTx(k.payee, b)));
    }
  }

  /** The other ledger steps pay nothing out. */
  lemma QuietStepBooks(k: Params, t: Tower, c: Chain, r: Redeemer, e: ChainEvent)
    requires RedeemsInv(c) && BlobsInv(c) && RedeemerBooks(k, r, c)
    requires !e.ApplyRedeem? && !e.ApplyBlob? && ChainStep(k, t, c, e).Some?
    ensures var c' := ChainStep(k, t, c, e).value;
            RedeemsInv(c') && BlobsInv(c') && RedeemerBooks(k, r, c')
  {
  }

  lemma ChainStepBooks(k: Params, w: World, e: ChainEvent)
    requires GoodParams(k) && Safe(k, w) && BooksInv(k, w) && ChainStep(k, w.tower, w.chain, e).Some?
    ensures BooksInv(k, w.(chain := ChainStep(k, w.tower, w.chain, e).value))
  {
    match e
    case ApplyRedeem(id) => RedeemOutcome(k, w.payee.disk, w.tower, w.chain, id);
    case ApplyBlob(b) => BlobOutcome(k, w.payee.disk, w.tower, w.chain, b);
    case _ => QuietStepBooks(k, w.tower, w.chain, w.payee.redeemer, e);
  }

  lemma PayeeStepBooks(k: Params, w: World, e: PayeeEvent)
    requires BooksInv(k, w) && PayeeStep(k, w.payee, w.link, w.chain, e).Some?
    ensures RedeemerBooks(k, PayeeStep(k, w.payee, w.link, w.chain, e).value.0.redeemer, w.chain)
  {
  }

  lemma TowerStepBooks(k: Params, w: World, e: TowerEvent)
    requires BooksInv(k, w) && TowerStep(k, w.tower, w.chain, e).Some?
    ensures var (t, c) := TowerStep(k, w.tower, w.chain, e).value;
            BooksInv(k, w.(tower := t, chain := c))
  {
    var c := TowerStep(k, w.tower, w.chain, e).value.1;
    TowerLeavesResults(k, w.tower, w.chain, e);
    assert RedeemsInv(c) && BlobsInv(c);
  }

  lemma TowerLeavesResults(k: Params, t: Tower, c: Chain, e: TowerEvent)
    requires TowerStep(k, t, c, e).Some?
    ensures var c' := TowerStep(k, t, c, e).value.1;
            c' == c.(blobs := c'.blobs, now := c'.now)
  {
  }

  lemma StepBooks(k: Params, w: World, e: Event)
    requires GoodParams(k) && Safe(k, w) && BooksInv(k, w) && Step(k, w, e).Some?
    ensures BooksInv(k, Step(k, w, e).value)
  {
    match e
    case ByWorker(we) => WorkerStepBooks(k, w, we);
    case ByRedeemer(re) => RedeemStepBooks(k, w, re);
    case ByChain(ce) => ChainStepBooks(k, w, ce);
    case ByPayee(pe) => PayeeStepBooks(k, w, pe);
    case ByTower(te) => TowerStepBooks(k, w, te);
    case ByPayer(pe) =>
  }

  lemma {:induction false} RunBooks(k: Params, w: World, run: seq<Event>)
    requires GoodParams(k) && Safe(k, w) && BooksInv(k, w) && Exec(k, w, run).Some?
    ensures BooksInv(k, Exec(k, w, run).value)
    decreases |run|
  {
    if run != [] {
      StepSafe(k, w, run[0]);
      StepBooks(k, w, run[0]);
      RunBooks(k, Step(k, w, run[0]).value, run[1..]);
    }
  }

  // ---- when the books stay honest ----

  lemma PayeeStepHonest(k: Params, w: World, e: PayeeEvent)
    requires Safe(k, w) && HonestBooks(w.payee, w.tower, w.chain)
    requires PayeeStep(k, w.payee, w.link, w.chain, e).Some?
    ensures HonestBooks(PayeeStep(k, w.payee, w.link, w.chain, e).value.0, w.tower, w.chain)
  {
  }

  lemma WorkerStepHonest(k: Params, w: World, e: WorkerEvent)
    requires HonestBooks(w.payee, w.tower, w.chain) && WorkerStep(k, w.payee, w.tower, w.chain, e).Some?
    ensures var (p, t, c) := WorkerStep(k, w.payee, w.tower, w.chain, e).value;
            HonestBooks(p, t, c)
  {
  }

  lemma RedeemStepExact(k: Params, w: World, e: RedeemEvent)
    requires BooksInv(k, w) && HonestBooks(w.payee, w.tower, w.chain)
    requires RedeemStep(k, w.payee, w.tower, w.chain, e).Some?
    ensures var (p, c) := RedeemStep(k, w.payee, w.tower, w.chain, e).value;
            HonestBooks(p, w.tower, c) <==> Careful(k, w, ByRedeemer(e))
  {
  }

  lemma TowerStepExact(k: Params, w: World, e: TowerEvent)
    requires BooksInv(k, w) && HonestBooks(w.payee, w.tower, w.chain) && TowerStep(k, w.tower, w.chain, e).Some?
    ensures var (t, c) := TowerStep(k, w.tower, w.chain, e).value;
            HonestBooks(w.payee, t, c) <==> Careful(k, w, ByTower(e))
  {
  }

  lemma ChainStepHonest(k: Params, w: World, e: ChainEvent)
    requires GoodParams(k) && Safe(k, w) && HonestBooks(w.payee, w.tower, w.chain)
    requires ChainStep(k, w.tower, w.chain, e).Some?
    ensures HonestBooks(w.payee, w.tower, ChainStep(k, w.tower, w.chain, e).value)
  {
    ChainGrows(k, w, e);
  }

  lemma StepExact(k: Params, w: World, e: Event)
    requires GoodParams(k) && Safe(k, w) && BooksInv(k, w) && HonestBooks(w.payee, w.tower, w.chain)
    requires Step(k, w, e).Some?
    ensures var w' := Step(k, w, e).value;
            HonestBooks(w'.payee, w'.tower, w'.chain) <==> Careful(k, w, e)
  {
    match e
    case ByPayer(pe) =>
    case ByPayee(pe) => PayeeStepHonest(k, w, pe);
    case ByWorker(we) => WorkerStepHonest(k, w, we);
    case ByRedeemer(re) => RedeemStepExact(k, w, re);
    case ByTower(te) => TowerStepExact(k, w, te);
    case ByChain(ce) => ChainStepHonest(k, w, ce);
  }

  lemma {:induction false} RunHonest(k: Params, w: World, run: seq<Event>)
    requires GoodParams(k) && Safe(k, w) && BooksInv(k, w) && HonestBooks(w.payee, w.tower, w.chain)
    requires CarefulRun(k, w, run) && Exec(k, w, run).Some?
    ensures var w' := Exec(k, w, run).value;
            HonestBooks(w'.payee, w'.tower, w'.chain)
    decreases |run|
  {
    if run != [] {
      StepSafe(k, w, run[0]);
      StepBooks(k, w, run[0]);
      StepExact(k, w, run[0]);
      RunHonest(k, Step(k, w, run[0]).value, run[1..]);
    }
  }

  /** In every careful run the payee, in memory and on disk, never believes to have
      redeemed more than the ledger paid, and the tower never says so, however its own
      redeem, the blob of the tower, crashes and the watcher interleave. */
  lemma RedeemedIsPaid(k: Params, amount: int, t0: int, run: seq<Event>)
    requires GoodParams(k) && amount >= 0 && CarefulRun(k, Init(k, amount, t0), run)
    requires Exec(k, Init(k, amount, t0), run).Some?
    ensures var w := Exec(k, Init(k, amount, t0), run).value;
            && (w.payee.mem.Some? ==> w.payee.mem.value.redeemed <= w.chain.paid)
            && (w.payee.disk.Some? ==> w.payee.disk.value.redeemed <= w.chain.paid)
            && (Reported(w.tower.rec).Some? ==> Reported(w.tower.rec).value <= w.chain.paid)
  {
    InitSafe(k, amount, t0);
    RunHonest(k, Init(k, amount, t0), run);
  }

  /** And the condition is exact: after any run that left the books honest, a step keeps
      them honest if and only if it is careful. */
  lemma HonestExactly(k: Params, amount: int, t0: int, run: seq<Event>, e: Event)
    requires GoodParams(k) && amount >= 0 && Exec(k, Init(k, amount, t0), run).Some?
    requires var w := Exec(k, Init(k, amount, t0), run).value;
             HonestBooks(w.payee, w.tower, w.chain) && Step(k, w, e).Some?
    ensures var w := Exec(k, Init(k, amount, t0), run).value;
            var w' := Step(k, w, e).value;
            HonestBooks(w'.payee, w'.tower, w'.chain) <==> Careful(k, w, e)
  {
    InitSafe(k, amount, t0);
    RunSafe(k, Init(k, amount, t0), run);
    RunBooks(k, Init(k, amount, t0), run);
    StepExact(k, Exec(k, Init(k, amount, t0), run).value, e);
  }
}
