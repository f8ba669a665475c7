/** The tower beats the deadline: a claim that the tower holds when the payer schedules
    the close is paid, even if the payee never runs again. */
module XrpSettlement {
  import opened Options
  import opened XrpTypes
  import opened PayChanLedger
  import opened XrpTowerSpec
  import opened XrpWorld
  import opened XrpSafety
  import opened XrpRuns

  // ---- what holds in every run: expirations, and a tower that waits for one ----

  predicate ExpirationInv(k: Params, c: Chain) {
    && (c.open.Some? && c.open.value.expiration.Some? ==> c.open.value.expiration.value <= c.lastClose + k.settle)
    && (c.open.Some? && c.valid.Some? ==>
          if c.valid.value.expiration.Some? then c.open.value.expiration == c.valid.value.expiration
          else c.open.value.expiration in {None, Some(c.lastClose + k.settle)})
  }

  predicate ClockInv(k: Params, t: Tower, c: Chain) {
    && c.lastClose <= c.now <= c.lastClose + k.interval
    && (t.pc.TSleep? ==> c.now <= t.pc.wake <= c.now + k.poll)
    && (t.pc.TWait? ==> c.now <= t.pc.until <= c.now + k.wait)
  }

  predicate Unsent(snap: Held) {
    !snap.submitted
  }

  /** What the tower copied and read is old, but not wrong: a record that is submitted
      was so in the copy, and the ledger has paid at least the balance it read. */
  predicate CopyInv(t: Tower, c: Chain) {
    match t.pc
    case TFetch(s) => t.rec.Some? && t.rec.value.submitted ==> s.submitted
    case TDecide(s, entry) =>
      (t.rec.Some? && t.rec.value.submitted ==> s.submitted) && (entry.Some? ==> entry.value.balance <= c.paid)
    case _ => true
  }

  /** As long as no validated ledger shows an expiration, no blob was ever submitted. */
  predicate QuietInv(t: Tower, c: Chain) {
    c.valid.Some? && c.valid.value.expiration.None? ==>
      && c.blobs == {} && c.used == {}
      && (t.rec.Some? ==> Unsent(t.rec.value))
      && match t.pc
         case TFetch(s) => Unsent(s)
         case TDecide(s, entry) => Unsent(s) && (entry.Some? ==> entry.value.expiration.None?)
         case TSubmit(_) => false
         case TWait(_, _) => false
         case TSleep(_) => true
  }

  predicate Calm(k: Params, t: Tower, c: Chain) {
    ExpirationInv(k, c) && ClockInv(k, t, c) && QuietInv(t, c) && CopyInv(t, c)
  }

  lemma TowerStepCopy(k: Params, disk: Option<Incoming>, t: Tower, c: Chain, e: TowerEvent)
    requires ChainInv(k, disk, c) && CopyInv(t, c) && TowerStep(k, t, c, e).Some?
    ensures var (t', c') := TowerStep(k, t, c, e).value;
            CopyInv(t', c')
  {
  }

  lemma TowerStepClock(k: Params, t: Tower, c: Chain, e: TowerEvent)
    requires GoodParams(k) && ExpirationInv(k, c) && ClockInv(k, t, c) && TowerStep(k, t, c, e).Some?
    ensures var (t', c') := TowerStep(k, t, c, e).value;
            ExpirationInv(k, c') && ClockInv(k, t', c')
  {
  }

  lemma TowerStepCalm(k: Params, disk: Option<Incoming>, t: Tower, c: Chain, e: TowerEvent)
    requires GoodParams(k) && ChainInv(k, disk, c) && Calm(k, t, c) && TowerStep(k, t, c, e).Some?
    requires c.valid.Some? && t.pc.TDecide? ==> t.pc.entry.Some?
    ensures var (t', c') := TowerStep(k, t, c, e).value;
            Calm(k, t', c')
  {
    TowerStepCopy(k, disk, t, c, e);
    TowerStepClock(k, t, c, e);
  }

  /** A transaction of the payee never moves the expiration. */
  lemma PostCalm(k: Params, disk: Option<Incoming>, t: Tower, c: Chain, tx: ClaimTx)
    requires GoodParams(k) && ChainInv(k, disk, c) && Calm(k, t, c) && tx.sender == k.payee
    ensures Calm(k, t, Post(k, c, Apply(k.channel, c.open, c.lastClose, tx)))
  {
    ApplyConserves(k.channel, c.open, c.lastClose, tx);
  }

  lemma RedeemCalm(k: Params, disk: Option<Incoming>, t: Tower, c: Chain, id: nat)
    requires GoodParams(k) && ChainInv(k, disk, c) && Calm(k, t, c) && ChainStep(k, t, c, ApplyRedeem(id)).Some?
    ensures Calm(k, t, ChainStep(k, t, c, ApplyRedeem(id)).value)
  {
    var tx := RedeemTx(k.payee, c.txs[id]);
    PostCalm(k, disk, t, c, tx);
    var posted := Post(k, c, Apply(k.channel, c.open, c.lastClose, tx));
    var c' := ChainStep(k, t, c, ApplyRedeem(id)).value;
    assert c' == posted.(res := c'.res);
  }

  lemma BlobCalm(k: Params, disk: Option<Incoming>, t: Tower, c: Chain, b: Blob)
    requires GoodParams(k) && ChainInv(k, disk, c) && Calm(k, t, c) && ChainStep(k, t, c, ApplyBlob(b)).Some?
    ensures Calm(k, t, ChainStep(k, t, c, ApplyBlob(b)).value)
  {
    if !(b.ticket in c.used || b.ticket >= c.tickets) {
      var tx := BlobTx(k.payee, b);
      PostCalm(k, disk, t, c, tx);
      var posted := Post(k, c, Apply(k.channel, c.open, c.lastClose, tx));
      var c' := ChainStep(k, t, c, ApplyBlob(b)).value;
      assert c' == posted.(blobs := c'.blobs, used := c'.used, bres := c'.bres);
    }
  }

  lemma PayerClosesCalm(k: Params, disk: Option<Incoming>, t: Tower, c: Chain)
    requires GoodParams(k) && ChainInv(k, disk, c) && Calm(k, t, c)
    ensures Calm(k, t, ChainStep(k, t, c, PayerCloses).value)
  {
  }

  lemma ChainStepCalm(k: Params, disk: Option<Incoming>, t: Tower, c: Chain, e: ChainEvent)
    requires GoodParams(k) && ChainInv(k, disk, c) && Calm(k, t, c) && ChainStep(k, t, c, e).Some?
    ensures Calm(k, t, ChainStep(k, t, c, e).value)
  {
    match e
    case PayerCloses => PayerClosesCalm(k, disk, t, c);
    case ApplyRedeem(id) => RedeemCalm(k, disk, t, c, id);
    case ApplyBlob(b) => BlobCalm(k, disk, t, c, b);
    case _ =>
  }

  lemma StepCalm(k: Params, w: World, e: Event)
    requires GoodParams(k) && Safe(k, w) && Calm(k, w.tower, w.chain) && Step(k, w, e).Some?
    ensures Calm(k, Step(k, w, e).value.tower, Step(k, w, e).value.chain)
  {
    match e
    case ByTower(te) => TowerStepCalm(k, w.payee.disk, w.tower, w.chain, te);
    case ByChain(ce) => ChainStepCalm(k, w.payee.disk, w.tower, w.chain, ce);
    case ByWorker(we) => WorkerKeepsCalm(k, w, we);
    case ByRedeemer(re) => RedeemerKeepsCalm(k, w, re);
    case _ =>
  }

  lemma WorkerKeepsCalm(k: Params, w: World, e: WorkerEvent)
    requires Calm(k, w.tower, w.chain) && WorkerStep(k, w.payee, w.tower, w.chain, e).Some?
    ensures var (p, t, c) := WorkerStep(k, w.payee, w.tower, w.chain, e).value;
            Calm(k, t, c) && t.pc == w.tower.pc && t.rec == w.tower.rec && w.tower.wire <= t.wire
            && c == w.chain.(tickets := c.tickets, debits := c.debits) && w.chain.tickets <= c.tickets
  {
  }

  lemma RedeemerKeepsCalm(k: Params, w: World, e: RedeemEvent)
    requires Calm(k, w.tower, w.chain) && RedeemStep(k, w.payee, w.tower, w.chain, e).Some?
    ensures var (p, c) := RedeemStep(k, w.payee, w.tower, w.chain, e).value;
            Calm(k, w.tower, c) && c == w.chain.(txs := c.txs, nextTx := c.nextTx)
  {
  }

  lemma {:induction false} RunCalm(k: Params, w: World, run: seq<Event>)
    requires GoodParams(k) && Safe(k, w) && Calm(k, w.tower, w.chain) && Exec(k, w, run).Some?
    ensures Calm(k, Exec(k, w, run).value.tower, Exec(k, w, run).value.chain)
    decreases |run|
  {
    if run != [] {
      StepSafe(k, w, run[0]);
      StepCalm(k, w, run[0]);
      RunCalm(k, Step(k, w, run[0]).value, run[1..]);
    }
  }

  /** The tower does not close a channel unasked: in every run, as long as no validated
      ledger shows that the payer scheduled the close, it has submitted nothing and is
      not about to. */
  lemma TowerStaysQuiet(k: Params, amount: int, t0: int, run: seq<Event>)
    requires GoodParams(k) && amount >= 0 && Exec(k, Init(k, amount, t0), run).Some?
    ensures var w := Exec(k, Init(k, amount, t0), run).value;
            w.chain.valid.Some? && w.chain.valid.value.expiration.None? ==>
              && w.chain.blobs == {} && w.chain.used == {} && !w.tower.pc.TSubmit? && !w.tower.pc.TWait?
              && (w.tower.rec.Some? ==> !w.tower.rec.value.submitted)
  {
    Reached(k, amount, t0, run);
  }

  /** When the tower decides to submit: the entry it read carries an expiration, the
      claim in its copy exceeds the balance, and the copy was not submitted yet. Then the
      current record is marked and its blob taken. A channel that is gone is done with. */
  lemma DecidesExactly(k: Params, t: Tower, c: Chain)
    requires t.pc.TDecide? && t.rec.Some?
    ensures var r := TowerStep(k, t, c, Decide);
            && r.Some? && r.value.1 == c && r.value.0.rec.Some?
            && var t' := r.value.0;
            && (t'.pc.TSubmit? <==>
                  && t.pc.entry.Some? && t.pc.entry.value.expiration.Some?
                  && t.pc.entry.value.balance < t.pc.snap.blob.amount && !t.pc.snap.submitted)
            && (t'.pc.TSubmit? ==> t'.pc.blob == t.rec.value.blob && t'.rec.value.submitted)
            && (!t'.pc.TSubmit? ==> t'.pc == TSleep(c.now + k.poll))
            && t'.rec.value.blob == t.rec.value.blob
            && (t'.rec.value.done <==> t.rec.value.done || t.pc.entry.None?)
  {
  }

  /** The tower looks at a channel again after a poll unless its blob succeeded or the
      channel is gone. */
  lemma LooksAgainExactly(k: Params, t: Tower, c: Chain)
    requires t.rec.Some?
    ensures t.pc.TWait? && t.pc.blob in c.vbres ==>
              var r := TowerStep(k, t, c, Validated);
              && r.Some?
              && var again := TowerStep(k, r.value.0, c, Wake);
              again.Some? && (again.value.0.pc.TFetch? <==> c.vbres[t.pc.blob].ter != TesSuccess)
    ensures t.pc.TDecide? && t.pc.entry.None? ==>
              var r := TowerStep(k, t, c, Decide);
              && r.Some?
              && var again := TowerStep(k, r.value.0, c, Wake);
              again.Some? && again.value.0.pc.TSleep?
  {
  }

  // ---- after the close request ----

  /** The transaction would close the channel with less than `a` paid. */
  predicate Undercuts(r: Redeem, a: int, paid: int) {
    r.close && r.amount < a && (r.amount == 0 || r.amount > paid)
  }

  /** The payee has no close of its own under way that undercuts `a`. */
  ghost predicate NoUndercut(r: Redeemer, c: Chain, a: int) {
    && (r.RRead? ==> !Undercuts(r.tx, a, c.paid))
    && (r.RBefore? ==> !Undercuts(r.tx, a, c.paid))
    && (forall id | id in c.txs && id !in c.res :: !Undercuts(c.txs[id], a, c.paid))
  }

  /** The tower is going to see the expiration at time `d` at the latest. */
  predicate Looking(k: Params, t: Tower, c: Chain, a: int, d: int) {
    && t.rec.Some? && c.blobs == {} && c.now <= d
    && match t.pc
       case TSleep(wake) => Unsent(t.rec.value) && wake <= d
       case TFetch(s) => Unsent(t.rec.value) && ((Unsent(s) && a <= s.blob.amount) || c.now + k.poll <= d)
       case TDecide(s, entry) =>
         && Unsent(t.rec.value) && entry.Some?
         && ((Unsent(s) && a <= s.blob.amount && entry.value.expiration.Some?) || c.now + k.poll <= d)
       case TSubmit(_) => true
       case TWait(_, until) => Unsent(t.rec.value) && until + k.poll <= d
  }

  /** A blob that pays at least `a` waits for the next ledger. */
  ghost predicate Landing(c: Chain, a: int) {
    c.blobs != {} && forall b | b in c.blobs :: a <= b.amount
  }

  /** The claim `a` is not paid yet, but it will be; the expiration is after `last`. */
  ghost predicate Due(k: Params, t: Tower, c: Chain, a: int, d: int, last: int) {
    && c.open.Some? && c.valid.Some? && c.valid.value.expiration.Some?
    && c.valid.value.expiration.value > last && d <= last && c.lastClose <= d
    && c.used == {}
    && t.rec.Some? && a <= t.rec.value.blob.amount
    && (t.pc.TSubmit? ==> a <= t.pc.blob.amount)
    && (Looking(k, t, c, a, d) || Landing(c, a))
  }

  ghost predicate Settling(k: Params, w: World, a: int, d: int, last: int) {
    || a <= w.chain.paid
    || (Due(k, w.tower, w.chain, a, d, last) && NoUndercut(w.payee.redeemer, w.chain, a))
  }

  /** How much longer the tower may take after an event: a crash and a failed read cost
      a poll, the work for other channels takes its time, and a blob that no ledger takes
      costs the wait for it. */
  function Cost(k: Params, e: Event): int {
    match e
    case ByTower(TowerCrash) => k.poll
    case ByTower(FetchFails) => k.poll
    case ByTower(OtherChannel(d)) => d
    case ByChain(DropBlob(_)) => k.interval + k.wait + k.poll
    case _ => 0
  }

  predicate Smooth(e: Event) {
    e != ByTower(TowerCrash) && e != ByTower(FetchFails) && !(e.ByTower? && e.t.OtherChannel?)
    && !(e.ByChain? && e.c.DropBlob?)
  }

  function Spent(k: Params, run: seq<Event>): int
    decreases |run|
  {
    if run == [] then 0 else Cost(k, run[0]) + Spent(k, run[1..])
  }

  /** The events that lose the claim: the record counts as submitted and no blob will get
      into a ledger, because the tower crashes after the mark and before the submission,
      or because the blob is dropped. */
  predicate Fatal(w: World, e: Event, a: int) {
    && w.chain.paid < a && w.tower.rec.Some? && w.tower.rec.value.submitted
    && match e
       case ByTower(TowerCrash) => w.tower.pc.TSubmit? && w.chain.blobs == {}
       case ByChain(DropBlob(b)) => w.chain.blobs == {b} && !w.tower.pc.TSubmit?
       case _ => false
  }

  predicate NoFatal(k: Params, w: World, run: seq<Event>, a: int)
    decreases |run|
  {
    if run == [] then true
    else
      && !Fatal(w, run[0], a)
      && (Step(k, w, run[0]).Some? ==> NoFatal(k, Step(k, w, run[0]).value, run[1..], a))
  }

  lemma {:induction false} SmoothRun(k: Params, w: World, run: seq<Event>, a: int)
    requires forall e | e in run :: Smooth(e)
    ensures NoFatal(k, w, run, a) && Spent(k, run) == 0
    decreases |run|
  {
    if run != [] {
      assert Smooth(run[0]);
      SmoothRun(k, if Step(k, w, run[0]).Some? then Step(k, w, run[0]).value else w, run[1..], a);
    }
  }

  lemma TowerStepSettles(k: Params, w: World, e: TowerEvent, a: int, d: int, last: int)
    requires GoodParams(k) && Safe(k, w) && Calm(k, w.tower, w.chain) && Settling(k, w, a, d, last)
    requires !Fatal(w, ByTower(e), a) && TowerStep(k, w.tower, w.chain, e).Some?
    requires d + Cost(k, ByTower(e)) <= last
    ensures var (t, c) := TowerStep(k, w.tower, w.chain, e).value;
            Settling(k, w.(tower := t, chain := c), a, d + Cost(k, ByTower(e)), last)
  {
  }

  /** After a drop the tower waits for the blob in vain, and polls again. */
  lemma BlobDropped(k: Params, w: World, b: Blob, a: int, d: int, last: int)
    requires GoodParams(k) && Safe(k, w) && Calm(k, w.tower, w.chain) && Settling(k, w, a, d, last)
    requires !Fatal(w, ByChain(DropBlob(b)), a) && ChainStep(k, w.tower, w.chain, DropBlob(b)).Some?
    requires d + Cost(k, ByChain(DropBlob(b))) <= last
    ensures Settling(k, w.(chain := ChainStep(k, w.tower, w.chain, DropBlob(b)).value), a,
                     d + Cost(k, ByChain(DropBlob(b))), last)
  {
  }

  lemma RedeemApplied(k: Params, w: World, id: nat, a: int, d: int, last: int)
    requires GoodParams(k) && Safe(k, w) && Calm(k, w.tower, w.chain) && Settling(k, w, a, d, last)
    requires ChainStep(k, w.tower, w.chain, ApplyRedeem(id)).Some?
    ensures Settling(k, w.(chain := ChainStep(k, w.tower, w.chain, ApplyRedeem(id)).value), a, d, last)
  {
    var c := w.chain;
    var tx := RedeemTx(k.payee, c.txs[id]);
    ApplyConserves(k.channel, c.open, c.lastClose, tx);
    if c.paid < a && tx.part.Some? {
      PayeeClaimFate(k.channel, c.open, c.lastClose, tx);
    }
  }

  /** The blob of the tower lands in time. */
  lemma BlobPays(k: Params, w: World, b: Blob, a: int, d: int, last: int)
    requires GoodParams(k) && Safe(k, w) && Calm(k, w.tower, w.chain) && Due(k, w.tower, w.chain, a, d, last)
    requires b in w.chain.blobs && w.chain.paid < a
    ensures var c' := ChainStep(k, w.tower, w.chain, ApplyBlob(b)); c'.Some? && a <= c'.value.paid
  {
    PayeeClaimFate(k.channel, w.chain.open, w.chain.lastClose, BlobTx(k.payee, b));
  }

  lemma BlobApplied(k: Params, w: World, b: Blob, a: int, d: int, last: int)
    requires GoodParams(k) && Safe(k, w) && Calm(k, w.tower, w.chain) && Settling(k, w, a, d, last)
    requires ChainStep(k, w.tower, w.chain, ApplyBlob(b)).Some?
    ensures a <= ChainStep(k, w.tower, w.chain, ApplyBlob(b)).value.paid
  {
    if w.chain.paid < a {
      BlobPays(k, w, b, a, d, last);
    } else {
      BlobTakesNothing(k, w.payee.disk, w.tower, w.chain, b);
    }
  }

  lemma ChainStepSettles(k: Params, w: World, e: ChainEvent, a: int, d: int, last: int)
    requires GoodParams(k) && Safe(k, w) && Calm(k, w.tower, w.chain) && Settling(k, w, a, d, last)
    requires !e.DropBlob? && ChainStep(k, w.tower, w.chain, e).Some?
    ensures Settling(k, w.(chain := ChainStep(k, w.tower, w.chain, e).value), a, d, last)
  {
    match e
    case ApplyRedeem(id) => RedeemApplied(k, w, id, a, d, last);
    case ApplyBlob(b) => BlobApplied(k, w, b, a, d, last);
    case _ =>
  }

  lemma RedeemStepSettles(k: Params, w: World, e: RedeemEvent, a: int, d: int, last: int)
    requires GoodParams(k) && Safe(k, w) && Settling(k, w, a, d, last)
    requires RedeemStep(k, w.payee, w.tower, w.chain, e).Some?
    ensures var (p, c) := RedeemStep(k, w.payee, w.tower, w.chain, e).value;
            Settling(k, w.(payee := p, chain := c), a, d, last)
  {
  }

  lemma WorkerStepSettles(k: Params, w: World, e: WorkerEvent, a: int, d: int, last: int)
    requires Safe(k, w) && Settling(k, w, a, d, last) && WorkerStep(k, w.payee, w.tower, w.chain, e).Some?
    ensures var (p, t, c) := WorkerStep(k, w.payee, w.tower, w.chain, e).value;
            Settling(k, w.(payee := p, tower := t, chain := c), a, d, last)
  {
  }

  lemma PayeeStepSettles(k: Params, w: World, e: PayeeEvent, a: int, d: int, last: int)
    requires Settling(k, w, a, d, last) && PayeeStep(k, w.payee, w.link, w.chain, e).Some?
    ensures var (p, l) := PayeeStep(k, w.payee, w.link, w.chain, e).value;
            Settling(k, w.(payee := p, link := l), a, d, last)
  {
  }

  lemma StepSettles(k: Params, w: World, e: Event, a: int, d: int, last: int)
    requires GoodParams(k) && Safe(k, w) && Calm(k, w.tower, w.chain) && Settling(k, w, a, d, last)
    requires !Fatal(w, e, a) && Step(k, w, e).Some? && d + Cost(k, e) <= last
    ensures Settling(k, Step(k, w, e).value, a, d + Cost(k, e), last)
  {
    match e
    case ByPayer(pe) =>
    case ByPayee(pe) => PayeeStepSettles(k, w, pe, a, d, last);
    case ByWorker(we) => WorkerStepSettles(k, w, we, a, d, last);
    case ByRedeemer(re) => RedeemStepSettles(k, w, re, a, d, last);
    case ByTower(te) => TowerStepSettles(k, w, te, a, d, last);
    case ByChain(ce) =>
      if ce.DropBlob? { BlobDropped(k, w, ce.b, a, d, last); } else { ChainStepSettles(k, w, ce, a, d, last); }
  }

  ghost predicate OnTrack(k: Params, w: World, a: int, d: int, last: int) {
    GoodParams(k) && Safe(k, w) && Calm(k, w.tower, w.chain) && Settling(k, w, a, d, last)
  }

  lemma StepOnTrack(k: Params, w: World, e: Event, a: int, d: int, last: int)
    requires OnTrack(k, w, a, d, last) && !Fatal(w, e, a) && Step(k, w, e).Some? && d + Cost(k, e) <= last
    ensures OnTrack(k, Step(k, w, e).value, a, d + Cost(k, e), last)
  {
    StepSafe(k, w, e);
    StepCalm(k, w, e);
    StepSettles(k, w, e, a, d, last);
  }

  lemma CostsSomething(k: Params, w: World, e: Event)
    requires GoodParams(k) && Step(k, w, e).Some?
    ensures Cost(k, e) >= 0
  {
  }

  lemma {:induction false} SpentIsPositive(k: Params, w: World, run: seq<Event>)
    requires GoodParams(k) && Exec(k, w, run).Some?
    ensures Spent(k, run) >= 0
    decreases |run|
  {
    if run != [] {
      CostsSomething(k, w, run[0]);
      SpentIsPositive(k, Step(k, w, run[0]).value, run[1..]);
    }
  }

  lemma {:induction false} RunSettles(k: Params, w: World, run: seq<Event>, a: int, d: int, last: int)
    requires OnTrack(k, w, a, d, last) && d + Spent(k, run) <= last
    requires NoFatal(k, w, run, a) && Exec(k, w, run).Some?
    ensures OnTrack(k, Exec(k, w, run).value, a, d + Spent(k, run), last)
    decreases |run|
  {
    if run != [] {
      var w1 := Step(k, w, run[0]).value;
      SpentIsPositive(k, w1, run[1..]);
      StepOnTrack(k, w, run[0], a, d, last);
      RunSettles(k, w1, run[1..], a, d + Cost(k, run[0]), last);
    }
  }

  // ---- the results ----

  /** A claim of `a` is with the tower, and the next validated ledger is the first to
      show that the payer scheduled the close. */
  predicate CloseComes(w: World, a: int) {
    && w.chain.valid.Some? && w.chain.valid.value.expiration.None?
    && w.chain.open.Some? && w.chain.open.value.expiration.Some?
    && w.chain.blobs == {}
    && w.tower.rec.Some? && a <= w.tower.rec.value.blob.amount
  }

  function AfterClose(k: Params, w: World): World
    requires w.chain.blobs == {}
  {
    Step(k, w, ByChain(CloseLedger)).value
  }

  /** The channel never leaves the ledger with less than `a` paid, and `a` is paid once
      the clock has passed `limit`. */
  predicate PaidInTime(c: Chain, a: int, limit: int) {
    (c.open.None? ==> a <= c.paid) && (c.now > limit ==> a <= c.paid)
  }

  /** When the claim has to be paid, with `extra` time spent. */
  function Deadline(k: Params, close: int, extra: int): int {
    close + k.poll + extra + k.interval
  }

  /** The settle delay leaves room for the time spent. */
  predicate Room(k: Params, extra: int) {
    k.interval + k.poll + extra < k.settle
  }

  lemma SettledInTime(k: Params, w: World, a: int, d: int, last: int)
    requires OnTrack(k, w, a, d, last)
    ensures PaidInTime(w.chain, a, d + k.interval)
  {
  }

  lemma EntersSettling(k: Params, w: World, a: int, extra: int)
    requires GoodParams(k) && Room(k, extra) && 0 <= extra
    requires Safe(k, w) && Calm(k, w.tower, w.chain) && CloseComes(w, a)
    requires a <= w.chain.paid || NoUndercut(w.payee.redeemer, w.chain, a)
    ensures OnTrack(k, AfterClose(k, w), a, w.chain.now + k.poll, w.chain.now + k.poll + extra)
  {
    StepSafe(k, w, ByChain(CloseLedger));
    StepCalm(k, w, ByChain(CloseLedger));
  }

  /** From the close on, the deadline is met in every interleaving of the payer, the
      payee, the tower and the ledger, whatever the tower spends on crashes, failed
      ledger reads, other channels and blobs that no ledger takes, as long as the settle
      delay leaves room for it and none of these events is fatal. */
  lemma SettlesInTime(k: Params, w: World, a: int, run: seq<Event>)
    requires GoodParams(k) && Room(k, Spent(k, run))
    requires Safe(k, w) && Calm(k, w.tower, w.chain) && CloseComes(w, a)
    requires a <= w.chain.paid || NoUndercut(w.payee.redeemer, w.chain, a)
    requires NoFatal(k, AfterClose(k, w), run, a) && Exec(k, AfterClose(k, w), run).Some?
    ensures PaidInTime(Exec(k, AfterClose(k, w), run).value.chain, a, Deadline(k, w.chain.now, Spent(k, run)))
  {
    var w1 := AfterClose(k, w);
    var extra := Spent(k, run);
    SpentIsPositive(k, w1, run);
    EntersSettling(k, w, a, extra);
    RunSettles(k, w1, run, a, w.chain.now + k.poll, w.chain.now + k.poll + extra);
    SettledInTime(k, Exec(k, w1, run).value, a, w.chain.now + k.poll + extra, w.chain.now + k.poll + extra);
  }

  /** The whole story: any run before, a validated ledger that shows the close request
      while the tower holds `a` and the payee has no undercutting close of its own
      under way, and any run after it without a fatal event. With a settle delay longer
      than a ledger interval, a poll interval and the time spent, the channel ends with
      at least `a` paid, at the latest a poll, that time and one ledger later. */
  lemma TowerSettles(k: Params, amount: int, t0: int, before: seq<Event>, after: seq<Event>, a: int)
    requires GoodParams(k) && amount >= 0 && Room(k, Spent(k, after))
    requires Exec(k, Init(k, amount, t0), before).Some?
    requires var w := Exec(k, Init(k, amount, t0), before).value;
             && CloseComes(w, a) && NoUndercut(w.payee.redeemer, w.chain, a)
             && NoFatal(k, AfterClose(k, w), after, a) && Exec(k, AfterClose(k, w), after).Some?
    ensures var w := Exec(k, Init(k, amount, t0), before).value;
            PaidInTime(Exec(k, AfterClose(k, w), after).value.chain, a, Deadline(k, w.chain.now, Spent(k, after)))
  {
    Reached(k, amount, t0, before);
    SettlesInTime(k, Exec(k, Init(k, amount, t0), before).value, a, after);
  }

  lemma Reached(k: Params, amount: int, t0: int, run: seq<Event>)
    requires GoodParams(k) && amount >= 0 && Exec(k, Init(k, amount, t0), run).Some?
    ensures var w := Exec(k, Init(k, amount, t0), run).value;
            Safe(k, w) && Calm(k, w.tower, w.chain)
  {
    InitSafe(k, amount, t0);
    RunSafe(k, Init(k, amount, t0), run);
    RunCalm(k, Init(k, amount, t0), run);
  }

  // ---- the condition is exact ----

  lemma UndercutCloses(k: Params, w: World, id: nat, a: int)
    requires GoodParams(k) && Safe(k, w) && w.chain.paid < a
    requires w.chain.open.Some? && !Expired(w.chain.open.value, w.chain.lastClose)
    requires id in w.chain.txs && id !in w.chain.res && Undercuts(w.chain.txs[id], a, w.chain.paid)
    ensures var w' := Step(k, w, ByChain(ApplyRedeem(id)));
            w'.Some? && w'.value.chain.open.None? && w'.value.chain.paid < a
  {
    var tx := RedeemTx(k.payee, w.chain.txs[id]);
    if tx.part.Some? {
      PayeeClaimFate(k.channel, w.chain.open, w.chain.lastClose, tx);
    }
  }

  /** An undercutting close that is under way can win the race. */
  lemma UndercutWins(k: Params, w: World, a: int) returns (run: seq<Event>)
    requires GoodParams(k) && Safe(k, w) && w.chain.paid < a
    requires w.chain.open.Some? && !Expired(w.chain.open.value, w.chain.lastClose)
    requires !NoUndercut(w.payee.redeemer, w.chain, a)
    ensures (forall e | e in run :: Smooth(e)) && Exec(k, w, run).Some?
    ensures Exec(k, w, run).value.chain.open.None? && Exec(k, w, run).value.chain.paid < a
  {
    var r := w.payee.redeemer;
    if id :| id in w.chain.txs && id !in w.chain.res && Undercuts(w.chain.txs[id], a, w.chain.paid) {
      UndercutCloses(k, w, id, a);
      run := [ByChain(ApplyRedeem(id))];
      assert Exec(k, w, run) == Step(k, w, run[0]) by { assert run[1..] == []; }
    } else if r.RBefore? && Undercuts(r.tx, a, w.chain.paid) {
      run := UndercutSubmitted(k, w, a);
    } else {
      var w1 := Step(k, w, ByRedeemer(ReadBefore)).value;
      StepSafe(k, w, ByRedeemer(ReadBefore));
      var rest := UndercutSubmitted(k, w1, a);
      run := [ByRedeemer(ReadBefore)] + rest;
      assert run[1..] == rest;
    }
  }

  lemma UndercutSubmitted(k: Params, w: World, a: int) returns (run: seq<Event>)
    requires GoodParams(k) && Safe(k, w) && w.chain.paid < a
    requires w.chain.open.Some? && !Expired(w.chain.open.value, w.chain.lastClose)
    requires w.payee.redeemer.RBefore? && Undercuts(w.payee.redeemer.tx, a, w.chain.paid)
    ensures (forall e | e in run :: Smooth(e)) && Exec(k, w, run).Some?
    ensures Exec(k, w, run).value.chain.open.None? && Exec(k, w, run).value.chain.paid < a
  {
    var id := w.chain.nextTx;
    var w1 := Step(k, w, ByRedeemer(SubmitRedeem)).value;
    StepSafe(k, w, ByRedeemer(SubmitRedeem));
    UndercutCloses(k, w1, id, a);
    run := [ByRedeemer(SubmitRedeem), ByChain(ApplyRedeem(id))];
    assert run[1..] == [run[1]] && run[1..][1..] == [];
    assert Exec(k, w1, run[1..]) == Step(k, w1, run[1]);
  }

  /** A possible run without a fatal event that leaves room, `extra` being spent before. */
  predicate MeetsTerms(k: Params, w: World, run: seq<Event>, a: int, extra: int) {
    NoFatal(k, w, run, a) && Exec(k, w, run).Some? && Room(k, extra + Spent(k, run))
  }

  /** Every such run pays `a` in time, counted from the close of the ledger at `close`. */
  ghost predicate AlwaysPaid(k: Params, w: World, a: int, close: int, extra: int) {
    forall run: seq<Event> | MeetsTerms(k, w, run, a, extra) ::
      PaidInTime(Exec(k, w, run).value.chain, a, Deadline(k, close, extra + Spent(k, run)))
  }

  /** The deadline is met in every run after the close that leaves room and has no fatal
      event, if and only if `a` is paid already or the payee has no undercutting close
      under way at that moment. */
  lemma SettlesExactly(k: Params, w: World, a: int)
    requires GoodParams(k) && Room(k, 0)
    requires Safe(k, w) && Calm(k, w.tower, w.chain) && CloseComes(w, a)
    ensures (a <= w.chain.paid || NoUndercut(w.payee.redeemer, w.chain, a)) <==>
            AlwaysPaid(k, AfterClose(k, w), a, w.chain.now, 0)
  {
    var w1 := AfterClose(k, w);
    if a <= w.chain.paid || NoUndercut(w.payee.redeemer, w.chain, a) {
      forall run: seq<Event> | MeetsTerms(k, w1, run, a, 0)
        ensures PaidInTime(Exec(k, w1, run).value.chain, a, Deadline(k, w.chain.now, Spent(k, run)))
      {
        SettlesInTime(k, w, a, run);
      }
    } else {
      StepSafe(k, w, ByChain(CloseLedger));
      var run := UndercutWins(k, w1, a);
      SmoothRun(k, w1, run, a);
      assert MeetsTerms(k, w1, run, a, 0);
      assert !PaidInTime(Exec(k, w1, run).value.chain, a, Deadline(k, w.chain.now, 0 + Spent(k, run)));
    }
  }
}
