/** The two ends of the channel never diverge, when the only claims the payee gets are
    those that the payer node sends. Requests and replies may be late or lost, and both
    nodes may crash at any point. */
module XrpPayments {
  import opened XrpTypes
  import opened XrpNodeSpec
  import opened XrpWorld
  import opened XrpSafety
  import opened XrpRuns

  /** What is certain to stay signed: the counter that a rollback would restore. */
  function Floor(p: Payer): int {
    match p.pc
    case PSigned(prev) => prev.signed
    case PSaved(prev) => prev.signed
    case PWait(prev, _) => prev.signed
    case _ => p.mem.signed
  }

  predicate Pending(p: Payer, conn: nat) {
    p.pc.PWait? && p.pc.conn == conn
  }

  predicate OutgoingIs(k: Params, o: Outgoing, funded: int) {
    o.channel == k.channel && o.funded == funded && o.signed <= funded
  }

  predicate PayerInv(k: Params, p: Payer, l: Link, funded: int) {
    && OutgoingIs(k, p.mem, funded) && OutgoingIs(k, p.disk, funded)
    && match p.pc
       case PIdle => p.disk == p.mem
       case PSigned(prev) => p.disk == prev && prev.signed <= p.mem.signed
       case PSaved(prev) => p.disk == p.mem && OutgoingIs(k, prev, funded) && prev.signed <= p.mem.signed
       case PWait(prev, conn) =>
         && p.disk == p.mem && OutgoingIs(k, prev, funded) && prev.signed <= p.mem.signed
         && conn in l.sent && l.sent[conn] == p.mem.signed
       case PUndone => p.mem.signed <= p.disk.signed
  }

  ghost predicate SentInv(k: Params, p: Payer, l: Link) {
    && (forall n | n in l.sent :: n < l.next)
    && (forall n | n in l.claims :: n in l.sent && n !in l.rejected && n !in l.replies
                                    && l.claims[n] == Claim(k.channel, l.sent[n], Sig(k.key, k.channel, l.sent[n])))
    && (forall n | n in l.replies && !l.replies[n] :: n in l.rejected)
    && (forall n | n in l.rejected :: n < l.next)
    && (forall n | n in l.replies :: n < l.next)
    && (forall n | n in l.sent && n !in l.rejected && !Pending(p, n) :: l.sent[n] <= Floor(p))
  }

  /** The best claim is one that the payer will not take back. */
  predicate BestInv(p: Payer, l: Link, best: int) {
    || best <= Floor(p)
    || (p.pc.PWait? && best <= p.mem.signed && p.pc.conn !in l.claims && p.pc.conn !in l.rejected)
  }

  predicate HandlersInv(p: Payee, l: Link) {
    && (p.lock.Saving? ==> p.lock.conn < l.next && p.lock.conn !in l.claims)
    && (forall n | n in p.toNotify :: n < l.next && n !in l.claims)
    && (forall n | n in p.toAck :: n < l.next && n !in l.claims)
  }

  predicate FundedInv(p: Payee, c: Chain, funded: int) {
    && funded <= c.vfunding
    && (p.mem.Some? ==> funded <= p.mem.value.funded)
    && (p.disk.Some? ==> funded <= p.disk.value.funded)
  }

  ghost predicate InStep(k: Params, w: World, funded: int) {
    && PayerInv(k, w.payer, w.link, funded)
    && SentInv(k, w.payer, w.link)
    && BestInv(w.payer, w.link, Best(w.payee.mem))
    && HandlersInv(w.payee, w.link)
    && FundedInv(w.payee, w.chain, funded)
  }

  /** No claim reaches the payee except through the payer node. */
  predicate OwnClaimsOnly(run: seq<Event>) {
    forall i | 0 <= i < |run| :: !(run[i].ByPayee? && run[i].e.PeerClaim?)
  }

  lemma PayerStepPayer(k: Params, p: Payer, l: Link, e: PayerEvent, funded: int)
    requires PayerInv(k, p, l, funded) && PayerStep(k, p, l, e).Some?
    ensures var (p', l') := PayerStep(k, p, l, e).value;
            PayerInv(k, p', l', funded)
  {
  }

  lemma PayerStepSent(k: Params, p: Payer, l: Link, e: PayerEvent, funded: int)
    requires PayerInv(k, p, l, funded) && SentInv(k, p, l) && PayerStep(k, p, l, e).Some?
    ensures var (p', l') := PayerStep(k, p, l, e).value;
            SentInv(k, p', l')
  {
  }

  /** The payer never takes back what the payee may hold. */
  lemma PayerStepBest(k: Params, p: Payer, l: Link, e: PayerEvent, funded: int, best: int)
    requires PayerInv(k, p, l, funded) && SentInv(k, p, l) && BestInv(p, l, best) && PayerStep(k, p, l, e).Some?
    ensures var (p', l') := PayerStep(k, p, l, e).value;
            BestInv(p', l', best)
  {
  }

  lemma PayerStepHandlers(k: Params, w: World, e: PayerEvent)
    requires HandlersInv(w.payee, w.link) && PayerStep(k, w.payer, w.link, e).Some?
    ensures HandlersInv(w.payee, PayerStep(k, w.payer, w.link, e).value.1)
  {
  }

  lemma PayerStepInStep(k: Params, w: World, e: PayerEvent, funded: int)
    requires InStep(k, w, funded) && PayerStep(k, w.payer, w.link, e).Some?
    ensures var (p, l) := PayerStep(k, w.payer, w.link, e).value;
            InStep(k, w.(payer := p, link := l), funded)
  {
    PayerStepPayer(k, w.payer, w.link, e, funded);
    PayerStepSent(k, w.payer, w.link, e, funded);
    PayerStepBest(k, w.payer, w.link, e, funded, Best(w.payee.mem));
    PayerStepHandlers(k, w, e);
  }

  lemma PayeeStepSent(k: Params, w: World, e: PayeeEvent)
    requires SentInv(k, w.payer, w.link) && HandlersInv(w.payee, w.link)
    requires PayeeStep(k, w.payee, w.link, w.chain, e).Some? && !e.PeerClaim?
    ensures var (p, l) := PayeeStep(k, w.payee, w.link, w.chain, e).value;
            SentInv(k, w.payer, l) && HandlersInv(p, l) && l.sent == w.link.sent
  {
  }

  /** The payee only ever takes a claim that the payer keeps. */
  lemma PayeeStepBest(k: Params, w: World, e: PayeeEvent, funded: int)
    requires MemoryMatchesDisk(w.payee) && LinkInv(w.payee, w.link)
    requires PayerInv(k, w.payer, w.link, funded) && SentInv(k, w.payer, w.link)
    requires 0 <= Best(w.payee.mem) && BestInv(w.payer, w.link, Best(w.payee.mem))
    requires PayeeStep(k, w.payee, w.link, w.chain, e).Some? && !e.PeerClaim?
    ensures var (p, l) := PayeeStep(k, w.payee, w.link, w.chain, e).value;
            BestInv(w.payer, l, Best(p.mem))
  {
  }

  lemma PayeeStepFunded(k: Params, p: Payee, l: Link, c: Chain, e: PayeeEvent, funded: int)
    requires MemoryMatchesDisk(p) && FundedInv(p, c, funded)
    requires c.valid.Some? ==> c.valid.value.amount == c.vfunding
    requires PayeeStep(k, p, l, c, e).Some?
    ensures FundedInv(PayeeStep(k, p, l, c, e).value.0, c, funded)
  {
  }

  lemma PayeeStepInStep(k: Params, w: World, e: PayeeEvent, funded: int)
    requires Safe(k, w) && InStep(k, w, funded)
    requires PayeeStep(k, w.payee, w.link, w.chain, e).Some? && !e.PeerClaim?
    ensures var (p, l) := PayeeStep(k, w.payee, w.link, w.chain, e).value;
            InStep(k, w.(payee := p, link := l), funded)
  {
    PayeeStepSent(k, w, e);
    PayeeStepBest(k, w, e, funded);
    PayeeStepFunded(k, w.payee, w.link, w.chain, e, funded);
  }

  lemma FrameKeepsInStep(k: Params, w: World, p: Payee, c: Chain, funded: int)
    requires InStep(k, w, funded) && HandlersUntouched(w.payee, p) && w.chain.vfunding <= c.vfunding
    ensures HandlersInv(p, w.link) && FundedInv(p, c, funded) && BestInv(w.payer, w.link, Best(p.mem))
  {
  }

  lemma WorkerStepInStep(k: Params, w: World, e: WorkerEvent, funded: int)
    requires Safe(k, w) && InStep(k, w, funded) && WorkerStep(k, w.payee, w.tower, w.chain, e).Some?
    ensures var (p, t, c) := WorkerStep(k, w.payee, w.tower, w.chain, e).value;
            InStep(k, w.(payee := p, tower := t, chain := c), funded)
  {
    var (p, t, c) := WorkerStep(k, w.payee, w.tower, w.chain, e).value;
    WorkerStepFrame(k, w.payee, w.tower, w.chain, e);
    FrameKeepsInStep(k, w, p, c, funded);
  }

  lemma RedeemStepInStep(k: Params, w: World, e: RedeemEvent, funded: int)
    requires Safe(k, w) && InStep(k, w, funded) && RedeemStep(k, w.payee, w.tower, w.chain, e).Some?
    ensures var (p, c) := RedeemStep(k, w.payee, w.tower, w.chain, e).value;
            InStep(k, w.(payee := p, chain := c), funded)
  {
    var (p, c) := RedeemStep(k, w.payee, w.tower, w.chain, e).value;
    RedeemStepFrame(k, w.payee, w.tower, w.chain, e);
    FrameKeepsInStep(k, w, p, c, funded);
  }

  lemma ChainStepInStep(k: Params, w: World, e: ChainEvent, funded: int)
    requires Safe(k, w) && InStep(k, w, funded) && ChainStep(k, w.tower, w.chain, e).Some?
    ensures InStep(k, w.(chain := ChainStep(k, w.tower, w.chain, e).value), funded)
  {
    ChainStepRest(k, w.tower, w.chain, e);
  }

  lemma TowerStepInStep(k: Params, w: World, e: TowerEvent, funded: int)
    requires InStep(k, w, funded) && TowerStep(k, w.tower, w.chain, e).Some?
    ensures var (t, c) := TowerStep(k, w.tower, w.chain, e).value;
            InStep(k, w.(tower := t, chain := c), funded)
  {
  }

  lemma StepInStep(k: Params, w: World, e: Event, funded: int)
    requires Safe(k, w) && InStep(k, w, funded) && Step(k, w, e).Some?
    requires !(e.ByPayee? && e.e.PeerClaim?)
    ensures InStep(k, Step(k, w, e).value, funded)
  {
    match e
    case ByPayer(pe) => PayerStepInStep(k, w, pe, funded);
    case ByPayee(pe) => PayeeStepInStep(k, w, pe, funded);
    case ByWorker(we) => WorkerStepInStep(k, w, we, funded);
    case ByRedeemer(re) => RedeemStepInStep(k, w, re, funded);
    case ByTower(te) => TowerStepInStep(k, w, te, funded);
    case ByChain(ce) => ChainStepInStep(k, w, ce, funded);
  }

  lemma {:induction false} RunInStep(k: Params, w: World, run: seq<Event>, funded: int)
    requires GoodParams(k) && Safe(k, w) && InStep(k, w, funded) && OwnClaimsOnly(run) && Exec(k, w, run).Some?
    ensures InStep(k, Exec(k, w, run).value, funded)
    decreases |run|
  {
    if run != [] {
      StepSafe(k, w, run[0]);
      StepInStep(k, w, run[0], funded);
      RunInStep(k, Step(k, w, run[0]).value, run[1..], funded);
    }
  }

  lemma InitInStep(k: Params, amount: int, t0: int)
    requires amount >= 0
    ensures InStep(k, Init(k, amount, t0), amount)
  {
  }

  /** In every run the payee never holds more than the payer has signed and kept, in
      memory and on disk, whatever was lost or rolled back; and every claim that the
      payer sent and the payee did not reject is covered by the counter on the
      payer's disk, so no restart signs a lower amount. */
  lemma NeverDiverge(k: Params, amount: int, t0: int, run: seq<Event>)
    requires GoodParams(k) && amount >= 0 && OwnClaimsOnly(run) && Exec(k, Init(k, amount, t0), run).Some?
    ensures var w := Exec(k, Init(k, amount, t0), run).value;
            && Best(w.payee.mem) <= w.payer.mem.signed <= amount
            && Best(w.payee.disk) <= w.payer.disk.signed <= amount
            && (forall n | n in w.link.sent && n !in w.link.rejected :: w.link.sent[n] <= w.payer.disk.signed)
            && (forall a | a in w.link.acked :: a <= w.payer.disk.signed)
  {
    var w0 := Init(k, amount, t0);
    InitSafe(k, amount, t0);
    InitInStep(k, amount, t0);
    RunSafe(k, w0, run);
    RunInStep(k, w0, run, amount);
  }

  /** Once the payee has opened the channel, it accepts every payment of a positive
      amount that the payer sends and still waits for, whatever happened before. In
      particular a lost acknowledgement never makes the next payment stale. */
  lemma PaymentsAreAccepted(k: Params, amount: int, t0: int, run: seq<Event>)
    requires GoodParams(k) && amount >= 0 && OwnClaimsOnly(run) && Exec(k, Init(k, amount, t0), run).Some?
    ensures var w := Exec(k, Init(k, amount, t0), run).value;
            w.payer.pc.PWait? && w.payer.pc.conn in w.link.claims && w.payee.mem.Some?
            && w.payer.pc.prev.signed < w.payer.mem.signed ==>
              OnClaim(w.payee.mem, w.link.claims[w.payer.pc.conn]).1
                == Ok(w.payer.mem.signed, w.payee.mem.value.version + 1)
  {
    var w0 := Init(k, amount, t0);
    InitSafe(k, amount, t0);
    InitInStep(k, amount, t0);
    RunSafe(k, w0, run);
    RunInStep(k, w0, run, amount);
  }
}
