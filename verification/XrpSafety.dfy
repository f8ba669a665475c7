/** What every step of the payment channel keeps, whatever the peer claims and however
    messages are late, lost or repeated. */
module XrpSafety {
  import opened Options
  import opened XrpTypes
  import opened PayChanLedger
  import opened XrpNodeSpec
  import opened XrpWorld

  function Best(r: Option<Incoming>): int {
    if r.Some? then r.value.best else 0
  }

  /** The blob pays no more than the claim on the disk of the payee, carries the
      signature of the payer and spends the one ticket of the channel. */
  predicate GoodBlob(k: Params, disk: Option<Incoming>, b: Blob) {
    && b.channel == k.channel && b.pub == k.key && b.sig == Sig(k.key, k.channel, b.amount)
    && 0 < b.amount <= Best(disk)
    && disk.Some? && disk.value.ticket == Some(b.ticket)
  }

  predicate GoodRedeem(k: Params, disk: Option<Incoming>, r: Redeem) {
    && r.channel == k.channel && r.pub == k.key && 0 <= r.amount <= Best(disk)
    && (r.amount > 0 ==> r.sig == Some(Sig(k.key, k.channel, r.amount)))
  }

  /** Memory and disk agree except for the funding that the watcher refreshes, and,
      while a handler holds the lock, for the claim that is being saved. */
  predicate MemoryMatchesDisk(p: Payee) {
    if p.mem.None? then p.disk.None? && p.lock == Unlocked
    else
      && p.disk.Some?
      && p.disk.value.funded <= p.mem.value.funded
      && (if p.lock == Unlocked then p.mem.value == p.disk.value.(funded := p.mem.value.funded)
          else
            && p.disk.value.best < p.mem.value.best
            && p.mem.value == p.disk.value.(funded := p.mem.value.funded, best := p.mem.value.best,
                                            bestSig := p.mem.value.bestSig, version := p.mem.value.version))
  }

  predicate WorkerInv(k: Params, p: Payee) {
    match p.worker
    case NeedTicket => p.disk.Some? && p.disk.value.ticket == None
    case GotTicket(_) => p.disk.Some? && p.disk.value.ticket == None
    case Reading(t) => p.disk.Some? && p.disk.value.ticket == Some(t)
    case Sending(b) => GoodBlob(k, p.disk, b)
    case AwaitingReply(b) => GoodBlob(k, p.disk, b)
    case Recording(b) => GoodBlob(k, p.disk, b)
    case _ => true
  }

  predicate RedeemerInv(k: Params, p: Payee, c: Chain) {
    match p.redeemer
    case RRead(tx) => GoodRedeem(k, p.disk, tx)
    case RBefore(tx, _, _) => GoodRedeem(k, p.disk, tx)
    case RSent(id, _, _) => id in c.txs
    case RAfter(id, _, _, _, _) => id in c.txs
    case _ => true
  }

  predicate RecordsInv(k: Params, p: Payee, vfunding: int) {
    && MemoryMatchesDisk(p)
    && (p.mem.Some? ==> GoodRecord(p.mem.value, k.channel, k.key) && p.mem.value.funded <= vfunding)
    && (p.disk.Some? ==> GoodRecord(p.disk.value, k.channel, k.key))
  }

  predicate PayeeInv(k: Params, p: Payee, vfunding: int) {
    && RecordsInv(k, p, vfunding)
    && (forall n | n in p.toNotify :: p.toNotify[n] <= Best(p.disk))
    && (forall n | n in p.toAck :: p.toAck[n] <= Best(p.disk))
    && WorkerInv(k, p)
  }

  predicate LinkInv(p: Payee, l: Link) {
    && (l.opening ==> p.disk.None?)
    && (forall a | a in l.acked :: a <= Best(p.disk))
  }

  predicate TicketInv(p: Payee, c: Chain) {
    && (p.disk.Some? && p.disk.value.ticket.Some? ==> p.disk.value.ticket.value < c.tickets)
    && (p.worker.GotTicket? ==> p.worker.t < c.tickets)
  }

  predicate TowerInv(k: Params, disk: Option<Incoming>, t: Tower) {
    && (t.rec.Some? ==> GoodBlob(k, disk, t.rec.value.blob))
    && (forall b | b in t.wire :: GoodBlob(k, disk, b))
    && match t.pc
       case TFetch(s) => t.rec.Some? && GoodBlob(k, disk, s.blob)
       case TDecide(s, _) => t.rec.Some? && GoodBlob(k, disk, s.blob)
       case TSubmit(b) => t.rec.Some? && GoodBlob(k, disk, b)
       case TWait(b, _) => t.rec.Some? && GoodBlob(k, disk, b)
       case TSleep(_) => true
  }

  /** As long as the channel is there, the tower still holds at least what it answered,
      and nobody believes that the channel is closed. */
  predicate HoldInv(p: Payee, t: Tower, c: Chain) {
    c.valid.Some? ==>
      && (t.rec.Some? ==> !t.rec.value.done)
      && (t.pc.TDecide? ==> t.pc.entry.Some?)
      && (forall a | a in t.acks :: t.rec.Some? && a <= t.rec.value.blob.amount)
      && (p.worker.Recording? ==> t.rec.Some? && p.worker.b.amount <= t.rec.value.blob.amount)
      && (p.disk.Some? && p.disk.value.towerDrops > 0 ==>
            t.rec.Some? && p.disk.value.towerDrops <= t.rec.value.blob.amount)
      && p.watcher == WIdle && (p.mem.Some? ==> !p.mem.value.closed) && (p.disk.Some? ==> !p.disk.value.closed)
  }

  /** The channel in a ledger, as the parameters and the history say. */
  predicate ChannelIs(k: Params, c: PayChan, amount: int) {
    && c.account == k.payer && c.destination == k.payee && c.pub == k.key && c.settle == k.settle
    && c.amount == amount
  }

  predicate ChainInv(k: Params, disk: Option<Incoming>, c: Chain) {
    && (c.open.Some? ==> ChannelIs(k, c.open.value, c.funding) && c.open.value.balance == c.paid <= c.funding)
    && (c.valid.Some? ==>
          && ChannelIs(k, c.valid.value, c.vfunding)
          && 0 <= c.valid.value.balance <= c.paid && c.valid.value.balance <= c.vfunding)
    && (c.valid.None? ==> c.open.None?)
    && c.vfunding <= c.funding
    && 0 <= c.paid <= Best(disk) && 0 <= c.refunded
    && c.paid + c.refunded + Locked(c.open) == c.funding
    && c.lastClose <= c.now
    && (forall id | id in c.txs :: id < c.nextTx && GoodRedeem(k, disk, c.txs[id]))
    && (forall id | id in c.res :: id in c.txs)
    && (forall b | b in c.blobs :: GoodBlob(k, disk, b))
    && (forall b | b in c.bres && c.bres[b].ter == TesSuccess :: c.open.None?)
    && (forall b | b in c.vbres && c.vbres[b].ter == TesSuccess :: c.valid.None?)
  }

  ghost predicate Safe(k: Params, w: World) {
    && PayeeInv(k, w.payee, w.chain.vfunding)
    && RedeemerInv(k, w.payee, w.chain)
    && LinkInv(w.payee, w.link)
    && TicketInv(w.payee, w.chain)
    && TowerInv(k, w.payee.disk, w.tower)
    && HoldInv(w.payee, w.tower, w.chain)
    && ChainInv(k, w.payee.disk, w.chain)
  }

  lemma InitSafe(k: Params, amount: int, t0: int)
    requires GoodParams(k) && amount >= 0
    ensures Safe(k, Init(k, amount, t0))
  {
  }

  lemma PayerStepSafe(k: Params, w: World, e: PayerEvent)
    requires Safe(k, w) && PayerStep(k, w.payer, w.link, e).Some?
    ensures var (p, l) := PayerStep(k, w.payer, w.link, e).value;
            Safe(k, w.(payer := p, link := l))
  {
  }

  /** The file of the payee only gets better: the best claim never shrinks and the
      ticket never changes. */
  predicate DiskGrows(d: Option<Incoming>, d': Option<Incoming>) {
    && Best(d) <= Best(d')
    && (d.Some? ==> d'.Some? && (d.value.ticket.Some? ==> d'.value.ticket == d.value.ticket))
  }

  predicate HandlersUntouched(p: Payee, p': Payee) {
    && (p.mem.Some? <==> p'.mem.Some?) && (p.disk.Some? <==> p'.disk.Some?)
    && Best(p'.mem) == Best(p.mem) && Best(p'.disk) == Best(p.disk)
    && p'.lock == p.lock && p'.toNotify == p.toNotify && p'.toAck == p.toAck && p'.puts == p.puts
    && (p.mem.Some? ==> p.mem.value.funded <= p'.mem.value.funded)
    && (p.disk.Some? ==> p.disk.value.funded <= p'.disk.value.funded)
  }

  lemma GrowthKeepsOthers(k: Params, d: Option<Incoming>, d': Option<Incoming>, t: Tower, c: Chain)
    requires DiskGrows(d, d')
    ensures TowerInv(k, d, t) ==> TowerInv(k, d', t)
    ensures ChainInv(k, d, c) ==> ChainInv(k, d', c)
    ensures forall b | GoodBlob(k, d, b) :: GoodBlob(k, d', b)
    ensures forall r | GoodRedeem(k, d, r) :: GoodRedeem(k, d', r)
  {
  }

  lemma PayeeStepRecords(k: Params, w: World, e: PayeeEvent)
    requires GoodParams(k) && Safe(k, w) && PayeeStep(k, w.payee, w.link, w.chain, e).Some?
    ensures var (p, l) := PayeeStep(k, w.payee, w.link, w.chain, e).value;
            RecordsInv(k, p, w.chain.vfunding) && DiskGrows(w.payee.disk, p.disk)
  {
  }

  lemma PayeeStepPayee(k: Params, w: World, e: PayeeEvent)
    requires GoodParams(k) && Safe(k, w) && PayeeStep(k, w.payee, w.link, w.chain, e).Some?
    ensures var (p, l) := PayeeStep(k, w.payee, w.link, w.chain, e).value;
            && DiskGrows(w.payee.disk, p.disk)
            && PayeeInv(k, p, w.chain.vfunding) && LinkInv(p, l)
  {
    PayeeStepRecords(k, w, e);
  }

  /** What is left to show once the payee's own part is done. */
  lemma Assembled(k: Params, w: World, p: Payee, l: Link, t: Tower, c: Chain)
    requires Safe(k, w) && DiskGrows(w.payee.disk, p.disk)
    requires PayeeInv(k, p, c.vfunding) && RedeemerInv(k, p, c) && TicketInv(p, c) && HoldInv(p, t, c)
    requires LinkInv(p, l) && TowerInv(k, w.payee.disk, t) && ChainInv(k, w.payee.disk, c)
    ensures Safe(k, w.(payee := p, link := l, tower := t, chain := c))
  {
    GrowthKeepsOthers(k, w.payee.disk, p.disk, t, c);
  }

  lemma PayeeStepOthers(k: Params, w: World, e: PayeeEvent)
    requires GoodParams(k) && Safe(k, w) && PayeeStep(k, w.payee, w.link, w.chain, e).Some?
    ensures var (p, l) := PayeeStep(k, w.payee, w.link, w.chain, e).value;
            HoldInv(p, w.tower, w.chain) && TicketInv(p, w.chain) && RedeemerInv(k, p, w.chain)
  {
  }

  lemma PayeeStepSafe(k: Params, w: World, e: PayeeEvent)
    requires GoodParams(k) && Safe(k, w) && PayeeStep(k, w.payee, w.link, w.chain, e).Some?
    ensures var (p, l) := PayeeStep(k, w.payee, w.link, w.chain, e).value;
            Safe(k, w.(payee := p, link := l))
  {
    var (p, l) := PayeeStep(k, w.payee, w.link, w.chain, e).value;
    PayeeStepPayee(k, w, e);
    PayeeStepOthers(k, w, e);
    Assembled(k, w, p, l, w.tower, w.chain);
  }

  lemma WorkerStepRecords(k: Params, w: World, e: WorkerEvent)
    requires Safe(k, w) && WorkerStep(k, w.payee, w.tower, w.chain, e).Some?
    ensures var (p, t, c) := WorkerStep(k, w.payee, w.tower, w.chain, e).value;
            RecordsInv(k, p, c.vfunding) && DiskGrows(w.payee.disk, p.disk)
  {
  }

  lemma WorkerStepPayee(k: Params, w: World, e: WorkerEvent)
    requires Safe(k, w) && WorkerStep(k, w.payee, w.tower, w.chain, e).Some?
    ensures var (p, t, c) := WorkerStep(k, w.payee, w.tower, w.chain, e).value;
            && DiskGrows(w.payee.disk, p.disk)
            && PayeeInv(k, p, c.vfunding) && TicketInv(p, c)
  {
    WorkerStepRecords(k, w, e);
  }

  /** The worker leaves the claim, the funding and the handlers alone. */
  lemma WorkerStepFrame(k: Params, p: Payee, t: Tower, c: Chain, e: WorkerEvent)
    requires MemoryMatchesDisk(p) && WorkerStep(k, p, t, c, e).Some?
    ensures var (p', t', c') := WorkerStep(k, p, t, c, e).value;
            HandlersUntouched(p, p') && c'.vfunding == c.vfunding && c'.paid == c.paid && c'.valid == c.valid
  {
  }

  lemma WorkerStepHold(k: Params, w: World, e: WorkerEvent)
    requires Safe(k, w) && WorkerStep(k, w.payee, w.tower, w.chain, e).Some?
    ensures var (p, t, c) := WorkerStep(k, w.payee, w.tower, w.chain, e).value;
            HoldInv(p, t, c)
  {
  }

  lemma WorkerStepOthers(k: Params, w: World, e: WorkerEvent)
    requires Safe(k, w) && WorkerStep(k, w.payee, w.tower, w.chain, e).Some?
    ensures var (p, t, c) := WorkerStep(k, w.payee, w.tower, w.chain, e).value;
            TowerInv(k, w.payee.disk, t) && ChainInv(k, w.payee.disk, c) && p.redeemer == w.payee.redeemer
            && c.txs == w.chain.txs
  {
  }

  lemma WorkerStepSafe(k: Params, w: World, e: WorkerEvent)
    requires Safe(k, w) && WorkerStep(k, w.payee, w.tower, w.chain, e).Some?
    ensures var (p, t, c) := WorkerStep(k, w.payee, w.tower, w.chain, e).value;
            Safe(k, w.(payee := p, tower := t, chain := c))
  {
    var (p, t, c) := WorkerStep(k, w.payee, w.tower, w.chain, e).value;
    WorkerStepPayee(k, w, e);
    WorkerStepHold(k, w, e);
    WorkerStepOthers(k, w, e);
    WorkerStepFrame(k, w.payee, w.tower, w.chain, e);
    Assembled(k, w, p, w.link, t, c);
  }

  lemma RedeemStepRecords(k: Params, w: World, e: RedeemEvent)
    requires Safe(k, w) && RedeemStep(k, w.payee, w.tower, w.chain, e).Some?
    ensures var (p, c) := RedeemStep(k, w.payee, w.tower, w.chain, e).value;
            && RecordsInv(k, p, c.vfunding)
            && Best(p.disk) == Best(w.payee.disk) && (w.payee.disk.Some? <==> p.disk.Some?)
            && (p.disk.Some? ==> p.disk.value.ticket == w.payee.disk.value.ticket)
  {
  }

  lemma RedeemStepPayee(k: Params, w: World, e: RedeemEvent)
    requires Safe(k, w) && RedeemStep(k, w.payee, w.tower, w.chain, e).Some?
    ensures var (p, c) := RedeemStep(k, w.payee, w.tower, w.chain, e).value;
            && DiskGrows(w.payee.disk, p.disk)
            && PayeeInv(k, p, c.vfunding) && RedeemerInv(k, p, c)
  {
    RedeemStepRecords(k, w, e);
  }

  /** So do the redeemer and the watcher, except that the funding may be refreshed. */
  lemma RedeemStepFrame(k: Params, p: Payee, t: Tower, c: Chain, e: RedeemEvent)
    requires MemoryMatchesDisk(p) && RedeemStep(k, p, t, c, e).Some?
    ensures var (p', c') := RedeemStep(k, p, t, c, e).value;
            HandlersUntouched(p, p') && c'.vfunding == c.vfunding && c'.paid == c.paid && c'.valid == c.valid
  {
  }

  lemma RedeemStepOthers(k: Params, w: World, e: RedeemEvent)
    requires Safe(k, w) && RedeemStep(k, w.payee, w.tower, w.chain, e).Some?
    ensures var (p, c) := RedeemStep(k, w.payee, w.tower, w.chain, e).value;
            ChainInv(k, w.payee.disk, c) && HoldInv(p, w.tower, c) && TicketInv(p, c)
  {
  }

  lemma RedeemStepSafe(k: Params, w: World, e: RedeemEvent)
    requires Safe(k, w) && RedeemStep(k, w.payee, w.tower, w.chain, e).Some?
    ensures var (p, c) := RedeemStep(k, w.payee, w.tower, w.chain, e).value;
            Safe(k, w.(payee := p, chain := c))
  {
    var (p, c) := RedeemStep(k, w.payee, w.tower, w.chain, e).value;
    RedeemStepPayee(k, w, e);
    RedeemStepOthers(k, w, e);
    RedeemStepFrame(k, w.payee, w.tower, w.chain, e);
    Assembled(k, w, p, w.link, w.tower, c);
  }

  lemma TowerStepTower(k: Params, w: World, e: TowerEvent)
    requires Safe(k, w) && TowerStep(k, w.tower, w.chain, e).Some?
    ensures var (t, c) := TowerStep(k, w.tower, w.chain, e).value;
            TowerInv(k, w.payee.disk, t) && HoldInv(w.payee, t, c)
  {
  }

  lemma TowerStepChain(k: Params, w: World, e: TowerEvent)
    requires Safe(k, w) && TowerStep(k, w.tower, w.chain, e).Some?
    ensures var (t, c) := TowerStep(k, w.tower, w.chain, e).value;
            && ChainInv(k, w.payee.disk, c)
            && c == w.chain.(blobs := c.blobs, now := c.now)
  {
  }

  lemma TowerStepSafe(k: Params, w: World, e: TowerEvent)
    requires Safe(k, w) && TowerStep(k, w.tower, w.chain, e).Some?
    ensures var (t, c) := TowerStep(k, w.tower, w.chain, e).value;
            Safe(k, w.(tower := t, chain := c))
  {
    TowerStepTower(k, w, e);
    TowerStepChain(k, w, e);
  }

  /** One transaction of the payee account keeps the books of the channel. */
  lemma PostKeeps(k: Params, disk: Option<Incoming>, c: Chain, tx: ClaimTx)
    requires GoodParams(k) && ChainInv(k, disk, c)
    requires tx.sender == k.payee
    requires tx.part.Some? ==> tx.part.value.amount <= Best(disk)
    ensures var f := Apply(k.channel, c.open, c.lastClose, tx);
            ChainInv(k, disk, Post(k, c, f))
  {
    ApplyConserves(k.channel, c.open, c.lastClose, tx);
  }

  lemma RedeemKeepsBooks(k: Params, disk: Option<Incoming>, t: Tower, c: Chain, id: nat)
    requires GoodParams(k) && ChainInv(k, disk, c) && ChainStep(k, t, c, ApplyRedeem(id)).Some?
    ensures ChainInv(k, disk, ChainStep(k, t, c, ApplyRedeem(id)).value)
  {
    var tx := RedeemTx(k.payee, c.txs[id]);
    PostKeeps(k, disk, c, tx);
    var posted := Post(k, c, Apply(k.channel, c.open, c.lastClose, tx));
    assert ChainStep(k, t, c, ApplyRedeem(id)).value == posted.(res := ChainStep(k, t, c, ApplyRedeem(id)).value.res);
  }

  lemma BlobKeepsBooks(k: Params, disk: Option<Incoming>, t: Tower, c: Chain, b: Blob)
    requires GoodParams(k) && ChainInv(k, disk, c) && ChainStep(k, t, c, ApplyBlob(b)).Some?
    ensures ChainInv(k, disk, ChainStep(k, t, c, ApplyBlob(b)).value)
  {
    if !(b.ticket in c.used || b.ticket >= c.tickets) {
      var tx := BlobTx(k.payee, b);
      PostKeeps(k, disk, c, tx);
      var f := Apply(k.channel, c.open, c.lastClose, tx);
      assert f.ter == TesSuccess ==> f.chan.None?;
      var posted := Post(k, c, f);
      var c' := ChainStep(k, t, c, ApplyBlob(b)).value;
      assert c' == posted.(blobs := c'.blobs, used := c'.used, bres := c'.bres);
    }
  }

  lemma ChainStepBooks(k: Params, w: World, e: ChainEvent)
    requires GoodParams(k) && Safe(k, w) && ChainStep(k, w.tower, w.chain, e).Some?
    ensures ChainInv(k, w.payee.disk, ChainStep(k, w.tower, w.chain, e).value)
  {
    var c := w.chain;
    match e
    case PayerCloses => ApplyConserves(k.channel, c.open, c.lastClose, PayerCloseTx(k.payer));
    case ApplyRedeem(id) => RedeemKeepsBooks(k, w.payee.disk, w.tower, c, id);
    case ApplyBlob(b) => BlobKeepsBooks(k, w.payee.disk, w.tower, c, b);
    case _ =>
  }

  lemma ChainStepRest(k: Params, t: Tower, c: Chain, e: ChainEvent)
    requires c.vfunding <= c.funding && (c.valid.None? ==> c.open.None?)
    requires ChainStep(k, t, c, e).Some?
    ensures var c' := ChainStep(k, t, c, e).value;
            && c.vfunding <= c'.vfunding && c'.txs == c.txs && c'.tickets == c.tickets
            && (c'.valid.Some? ==> c.valid.Some?)
  {
  }

  lemma ChainStepSafe(k: Params, w: World, e: ChainEvent)
    requires GoodParams(k) && Safe(k, w) && ChainStep(k, w.tower, w.chain, e).Some?
    ensures Safe(k, w.(chain := ChainStep(k, w.tower, w.chain, e).value))
  {
    ChainStepBooks(k, w, e);
    ChainStepRest(k, w.tower, w.chain, e);
  }
}
