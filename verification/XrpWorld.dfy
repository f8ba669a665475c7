/** One payment channel as a step system: the payer, the peer link, the payee with its
    claim handlers, its tower worker, its redeemer and its watcher, the tower, and the
    ledger with a clock. Every step of a node or of the tower is one critical section,
    one message or one ledger read, and it uses the functions that the classes in
    XrpNode and XrpTower are proved against.

    A claim handler and a payment also separate the change in memory from the write
    to the state file. In the other sections both are one step: the lock hides the
    moment between them from the other threads, and a crash inside `save` leaves the
    old or the new file (module StateFile). A crash and the restart after it are one
    step; a process that is down for a while is one that takes no step. */
module XrpWorld {
  import opened Options
  import opened XrpTypes
  import opened PayChanLedger
  import opened XrpNodeSpec
  import opened XrpTowerSpec

  datatype Params = Params(
    channel: ChanId, payer: Account, payee: Account, key: Key,
    settle: int, poll: int, wait: int, interval: int, fee: int)

  predicate GoodParams(k: Params) {
    k.payer != k.payee && 0 <= k.settle && 0 < k.poll && 0 < k.wait && 0 < k.interval && 0 <= k.fee
  }

  // ---- the payer and the peer link ----

  /** Where `cmd_pay` stands; `prev` is the record it may restore. */
  datatype PayPc =
    | PIdle
    | PSigned(prev: Outgoing)             // counter raised in memory, lock held
    | PSaved(prev: Outgoing)              // counter on disk, lock released
    | PWait(prev: Outgoing, conn: nat)    // claim sent on connection conn
    | PUndone                             // counter restored in memory, lock held

  datatype Payer = Payer(mem: Outgoing, disk: Outgoing, pc: PayPc)

  /** Connections are numbered. A claim is in flight until the payee takes it, which
      may be after the payer gave up or never. The last three fields are history:
      the amounts sent, the connections on which the payee rejected a claim, and the
      amounts that the payee acknowledged. */
  datatype Link = Link(
    next: nat, claims: map<nat, Claim>, replies: map<nat, bool>, opening: bool,
    sent: map<nat, int>, rejected: set<nat>, acked: set<int>)

  // ---- the payee ----

  datatype Lock = Unlocked | Saving(conn: nat)

  datatype Worker =
    | Waiting | Draining | Checking | NeedTicket | GotTicket(t: nat) | Reading(t: nat)
    | Sending(b: Blob) | AwaitingReply(b: Blob) | Recording(b: Blob) | Sleeping

  /** The balance reads of `_redeem` are kept as total credits and debits. */
  datatype Redeemer =
    | RIdle
    | RRead(tx: Redeem)
    | RBefore(tx: Redeem, credits: int, debits: int)
    | RSent(id: nat, credits: int, debits: int)
    | RAfter(id: nat, credits: int, debits: int, credits': int, debits': int)

  datatype Watcher = WIdle | WGone(reported: Option<int>)

  /** `toNotify` holds the claims that are saved and not yet queued for the tower,
      `toAck` those that are queued and not yet acknowledged, and `puts` counts the
      other threads that are about to queue a notification. */
  datatype Payee = Payee(
    mem: Option<Incoming>, disk: Option<Incoming>, lock: Lock,
    toNotify: map<nat, int>, toAck: map<nat, int>, puts: nat, queue: nat,
    worker: Worker, redeemer: Redeemer, watcher: Watcher)

  // ---- the tower ----

  datatype TowerPc =
    | TSleep(wake: int)
    | TFetch(snap: Held)
    | TDecide(snap: Held, entry: Option<PayChan>)
    | TSubmit(blob: Blob)
    | TWait(blob: Blob, until: int)

  /** `wire` holds every message sent to the tower; the tower may take one at any
      time and more than once. `acks` holds the amounts it has answered. */
  datatype Tower = Tower(rec: Option<Held>, pc: TowerPc, wire: set<Blob>, acks: set<int>)

  // ---- the ledger ----

  datatype Outcome = Outcome(ter: Ter, credit: int)

  /** `open` is the channel in the ledger under construction and `valid` the one in
      the last validated ledger. `paid` and `refunded` count what ever left the
      channel, `funding` what ever went in. A field with a leading v is the
      validated copy. */
  datatype Chain = Chain(
    open: Option<PayChan>, valid: Option<PayChan>,
    funding: int, vfunding: int, paid: int, refunded: int,
    lastClose: int, now: int,
    nextTx: nat, txs: map<nat, Redeem>, res: map<nat, Outcome>, vres: map<nat, Outcome>,
    blobs: set<Blob>, bres: map<Blob, Outcome>, vbres: map<Blob, Outcome>,
    tickets: nat, used: set<nat>,
    credits: int, debits: int, vcredits: int, vdebits: int)

  datatype World = World(payer: Payer, link: Link, payee: Payee, tower: Tower, chain: Chain)

  /** The moment after `cmd_open` has sent its only `chan_open`. */
  function Init(k: Params, amount: int, t0: int): World {
    var o := Outgoing(k.channel, amount, 0, 0, None, false);
    var c := PayChan(k.payer, k.payee, k.key, amount, 0, k.settle, None);
    World(
      Payer(o, o, PIdle),
      Link(0, map[], map[], true, map[], {}, {}),
      Payee(None, None, Unlocked, map[], map[], 1, 0, Waiting, RIdle, WIdle),
      Tower(None, TSleep(t0 + k.poll), {}, {}),
      Chain(Some(c), Some(c), amount, amount, 0, 0, t0, t0,
            0, map[], map[], map[], {}, map[], map[], 0, {}, 0, 0, 0, 0))
  }

  // ---- steps ----

  datatype PayerEvent =
    | Sign(drops: int) | SavePay | SendPay | PayAccepted | PayUnanswered | PayRejected | SaveUndo | PayerCrash

  datatype PayeeEvent =
    | OpenChannel | Deliver(conn: nat) | PeerClaim(m: Claim) | SaveClaim
    | Notify(conn: nat) | NotifyOther | Acknowledge(conn: nat) | PayeeCrash

  datatype WorkerEvent =
    | Take | Drain | Begin | Check | TicketMade | SaveTicket | Read | Send | Answered | Record | Fail | Requeue

  datatype RedeemEvent =
    | RedeemStart(close: bool) | ReadBefore | SubmitRedeem | ReadAfter | RecordPaid(gone: bool) | AbortRedeem
    | SeeGone(reached: bool) | RecordGone | RefreshFunding(amount: int)

  datatype TowerEvent =
    | Receive(b: Blob) | Wake | FetchEntry | FetchFails | Decide | SubmitBlob | Validated | GiveUp | TowerCrash
    | OtherChannel(d: int)

  datatype ChainEvent =
    | PayerCloses | FundMore(x: int) | ApplyRedeem(id: nat) | DropRedeem(id: nat) | ApplyBlob(b: Blob)
    | DropBlob(b: Blob) | OtherCredit(x: int) | CloseLedger | Tick(d: int)

  datatype Event =
    | ByPayer(p: PayerEvent) | ByPayee(e: PayeeEvent) | ByWorker(w: WorkerEvent)
    | ByRedeemer(r: RedeemEvent) | ByTower(t: TowerEvent) | ByChain(c: ChainEvent)

  /** The payer node. None stands for a step that is not possible now. */
  function PayerStep(k: Params, p: Payer, l: Link, e: PayerEvent): Option<(Payer, Link)> {
    match e
    case Sign(drops) =>
      if p.pc != PIdle || drops < 0 then None else
      var o := PaySign(p.mem, k.key, drops, false);
      if o.None? then None else Some((p.(mem := o.value, pc := PSigned(p.mem)), l))
    case SavePay =>
      if !p.pc.PSigned? then None else Some((p.(disk := p.mem, pc := PSaved(p.pc.prev)), l))
    case SendPay =>
      if !p.pc.PSaved? then None else
      Some((p.(pc := PWait(p.pc.prev, l.next)),
            l.(next := l.next + 1, claims := l.claims[l.next := PayClaim(p.mem, k.key)],
               sent := l.sent[l.next := p.mem.signed])))
    case PayAccepted =>
      if !p.pc.PWait? || p.pc.conn !in l.replies || !l.replies[p.pc.conn] then None
      else Some((p.(pc := PIdle), l))
    case PayUnanswered =>
      if !p.pc.PSaved? && !p.pc.PWait? then None else Some((p.(pc := PIdle), l))
    case PayRejected =>
      if !p.pc.PWait? || p.pc.conn !in l.replies || l.replies[p.pc.conn] then None
      else Some((p.(mem := PayRollback(p.mem, p.pc.prev), pc := PUndone), l))
    case SaveUndo =>
      if !p.pc.PUndone? then None else Some((p.(disk := p.mem, pc := PIdle), l))
    case PayerCrash =>
      Some((p.(mem := p.disk, pc := PIdle), l))
  }

  /** One claim reaches the payee on connection `conn`. */
  function HandleClaim(p: Payee, l: Link, conn: nat, m: Claim): (Payee, Link) {
    var (inn, reply) := OnClaim(p.mem, m);
    if reply.Ok? then (p.(mem := inn, lock := Saving(conn)), l)
    else (p, l.(replies := l.replies[conn := false], rejected := l.rejected + {conn}))
  }

  function PayeeStep(k: Params, p: Payee, l: Link, c: Chain, e: PayeeEvent): Option<(Payee, Link)> {
    match e
    case OpenChannel =>
      if !l.opening || p.lock != Unlocked then None else
      var (inn, reply) := ChanOpen(c.valid, k.channel, k.payee, k.payer);
      Some((if reply.Ok? then p.(mem := inn, disk := inn, puts := p.puts + 1) else p, l.(opening := false)))
    case Deliver(conn) =>
      if conn !in l.claims || p.lock != Unlocked then None else
      Some(HandleClaim(p, l.(claims := l.claims - {conn}), conn, l.claims[conn]))
    case PeerClaim(m) =>
      if p.lock != Unlocked then None else
      Some(HandleClaim(p, l.(next := l.next + 1), l.next, m))
    case SaveClaim =>
      if !p.lock.Saving? || p.mem.None? then None else
      Some((p.(disk := p.mem, lock := Unlocked, toNotify := p.toNotify[p.lock.conn := p.mem.value.best]), l))
    case Notify(conn) =>
      if conn !in p.toNotify then None else
      Some((p.(queue := p.queue + 1, toNotify := p.toNotify - {conn}, toAck := p.toAck[conn := p.toNotify[conn]]), l))
    case NotifyOther =>
      if p.puts == 0 then None else Some((p.(puts := p.puts - 1, queue := p.queue + 1), l))
    case Acknowledge(conn) =>
      if conn !in p.toAck then None else
      Some((p.(toAck := p.toAck - {conn}),
            l.(replies := l.replies[conn := true], acked := l.acked + {p.toAck[conn]})))
    case PayeeCrash =>
      Some((Payee(p.disk, p.disk, Unlocked, map[], map[], 1, 0, Waiting, RIdle, WIdle), l))
  }

  /** `tower_loop` and `tower_push`. */
  function WorkerStep(k: Params, p: Payee, t: Tower, c: Chain, e: WorkerEvent): Option<(Payee, Tower, Chain)> {
    match e
    case Take =>
      if p.worker != Waiting || p.queue == 0 then None
      else Some((p.(queue := p.queue - 1, worker := Draining), t, c))
    case Drain =>
      if p.worker != Draining || p.queue == 0 then None else Some((p.(queue := p.queue - 1), t, c))
    case Begin =>
      if p.worker != Draining || p.queue != 0 then None else Some((p.(worker := Checking), t, c))
    case Check =>
      if p.worker != Checking || p.lock != Unlocked then None
      else if p.mem.None? || p.mem.value.closed then Some((p.(worker := Waiting), t, c))
      else if p.mem.value.ticket.None? then Some((p.(worker := NeedTicket), t, c))
      else Some((p.(worker := Reading(p.mem.value.ticket.value)), t, c))
    case TicketMade =>
      if p.worker != NeedTicket then None
      else Some((p.(worker := GotTicket(c.tickets)), t, c.(tickets := c.tickets + 1, debits := c.debits + k.fee)))
    case SaveTicket =>
      if !p.worker.GotTicket? || p.lock != Unlocked || p.mem.None? then None else
      var inn := Some(p.mem.value.(ticket := Some(p.worker.t)));
      Some((p.(mem := inn, disk := inn, worker := Reading(p.worker.t)), t, c))
    case Read =>
      if !p.worker.Reading? || p.lock != Unlocked || p.mem.None? then None else
      var b := PushRead(p.mem.value, p.worker.t);
      Some((p.(worker := if b.None? then Waiting else Sending(b.value)), t, c))
    case Send =>
      if !p.worker.Sending? then None
      else Some((p.(worker := AwaitingReply(p.worker.b)), t.(wire := t.wire + {p.worker.b}), c))
    case Answered =>
      if !p.worker.AwaitingReply? || p.worker.b.amount !in t.acks then None
      else Some((p.(worker := Recording(p.worker.b)), t, c))
    case Record =>
      if !p.worker.Recording? || p.lock != Unlocked || p.mem.None? then None else
      var inn := Some(PushRecord(p.mem.value, p.worker.b.amount));
      Some((p.(mem := inn, disk := inn, worker := Waiting), t, c))
    case Fail =>
      if p.worker.NeedTicket? || p.worker.Sending? || p.worker.AwaitingReply? then Some((p.(worker := Sleeping), t, c))
      else None
    case Requeue =>
      if p.worker != Sleeping then None else Some((p.(worker := Waiting, queue := p.queue + 1), t, c))
  }

  function PaidBetween(k: Params, r: Redeemer): int
    requires r.RAfter?
  {
    (r.credits' - r.debits') - (r.credits - r.debits) + k.fee
  }

  /** `_redeem` and `watcher`. */
  function RedeemStep(k: Params, p: Payee, t: Tower, c: Chain, e: RedeemEvent): Option<(Payee, Chain)> {
    match e
    case RedeemStart(close) =>
      if p.redeemer != RIdle || p.lock != Unlocked || p.mem.None? then None else
      var tx := RedeemRead(p.mem.value, close);
      if tx.None? then None else Some((p.(redeemer := RRead(tx.value)), c))
    case ReadBefore =>
      if !p.redeemer.RRead? then None
      else Some((p.(redeemer := RBefore(p.redeemer.tx, c.vcredits, c.vdebits)), c))
    case SubmitRedeem =>
      if !p.redeemer.RBefore? then None else
      Some((p.(redeemer := RSent(c.nextTx, p.redeemer.credits, p.redeemer.debits)),
            c.(txs := c.txs[c.nextTx := p.redeemer.tx], nextTx := c.nextTx + 1)))
    case ReadAfter =>
      if !p.redeemer.RSent? || p.redeemer.id !in c.vres || c.vres[p.redeemer.id].ter != TesSuccess then None
      else
        var r := p.redeemer;
        Some((p.(redeemer := RAfter(r.id, r.credits, r.debits, c.vcredits, c.vdebits)), c))
    case RecordPaid(gone) =>
      if !p.redeemer.RAfter? || p.lock != Unlocked || p.mem.None? || p.redeemer.id !in c.txs
         || (gone && c.valid.Some?) then None else
      var inn := Some(RedeemRecord(p.mem.value, c.txs[p.redeemer.id].amount, PaidBetween(k, p.redeemer), gone));
      Some((p.(mem := inn, disk := inn, redeemer := RIdle), c))
    case AbortRedeem =>
      Some((p.(redeemer := RIdle), c))
    case SeeGone(reached) =>
      if p.watcher != WIdle || p.mem.None? || p.mem.value.closed || c.valid.Some? then None
      else Some((p.(watcher := WGone(if reached then Reported(t.rec) else None)), c))
    case RecordGone =>
      if !p.watcher.WGone? || p.lock != Unlocked || p.mem.None? then None else
      var inn := Some(WatchGone(p.mem.value, p.watcher.reported));
      Some((p.(mem := inn, disk := inn, watcher := WIdle), c))
    case RefreshFunding(amount) =>   // the entry may have been read some time ago
      if p.lock != Unlocked || p.mem.None? || !(p.mem.value.funded <= amount <= c.vfunding) then None
      else Some((p.(mem := Some(p.mem.value.(funded := amount))), c))
  }

  function TowerStep(k: Params, t: Tower, c: Chain, e: TowerEvent): Option<(Tower, Chain)> {
    var sleep := TSleep(c.now + k.poll);
    match e
    case Receive(b) =>
      if b !in t.wire then None else Some((t.(rec := Hold(t.rec, b).0, acks := t.acks + {b.amount}), c))
    case Wake =>
      if !t.pc.TSleep? then None
      else Some((t.(pc := if t.rec.Some? && !t.rec.value.done then TFetch(t.rec.value) else sleep), c))
    case FetchEntry =>
      if !t.pc.TFetch? then None else Some((t.(pc := TDecide(t.pc.snap, c.valid)), c))
    case FetchFails =>
      if !t.pc.TFetch? then None else Some((t.(pc := sleep), c))
    case Decide =>
      if !t.pc.TDecide? || t.rec.None? then None
      else if t.pc.entry.None? then Some((t.(rec := Some(t.rec.value.(done := true)), pc := sleep), c))
      else if MustSubmit(t.pc.snap, t.pc.entry.value) then
        Some((t.(rec := Some(MarkSubmitted(t.rec.value)), pc := TSubmit(t.rec.value.blob)), c))
      else Some((t.(pc := sleep), c))
    case SubmitBlob =>
      if !t.pc.TSubmit? then None
      else Some((t.(pc := TWait(t.pc.blob, c.now + k.wait)), c.(blobs := c.blobs + {t.pc.blob})))
    case Validated =>
      if !t.pc.TWait? || t.pc.blob !in c.vbres || t.rec.None? then None
      else Some((t.(rec := Some(RecordResult(t.rec.value, c.vbres[t.pc.blob].ter)), pc := sleep), c))
    case GiveUp =>
      if !t.pc.TWait? then None else Some((t.(pc := sleep), c))
    case TowerCrash =>
      Some((t.(pc := sleep), c))
    case OtherChannel(d) =>   // time passes while the thread waits for the blob of another channel
      if d <= 0 || c.now + d > c.lastClose + k.interval then None
      else if t.pc.TSleep? then Some((t.(pc := TSleep(t.pc.wake + d)), c.(now := c.now + d)))
      else if t.pc.TFetch? then Some((t, c.(now := c.now + d)))
      else None
  }

  /** A transaction of the payee account changes the open ledger. */
  function Post(k: Params, c: Chain, f: Effect): Chain {
    c.(open := f.chan, paid := c.paid + f.credit, refunded := c.refunded + f.refund,
       credits := c.credits + f.credit, debits := c.debits + k.fee)
  }

  predicate TowerBusy(t: Tower) {
    t.pc.TFetch? || t.pc.TDecide? || t.pc.TSubmit?
  }

  /** Steps of the ledger. A transaction may be applied at any moment before the close,
      in any order, except that a submitted blob goes into the next ledger or into none.
      Time stands still while the tower handles one poll, it never passes the end of a
      sleep of the tower or of its wait for a blob, and a ledger closes at the latest
      `interval` after the one before. */
  function ChainStep(k: Params, t: Tower, c: Chain, e: ChainEvent): Option<Chain> {
    match e
    case PayerCloses =>
      var f := Apply(k.channel, c.open, c.lastClose, PayerCloseTx(k.payer));
      Some(c.(open := f.chan, refunded := c.refunded + f.refund))
    case FundMore(x) =>
      if x <= 0 || c.open.None? || Expired(c.open.value, c.lastClose) then None
      else Some(c.(open := Some(c.open.value.(amount := c.open.value.amount + x)), funding := c.funding + x))
    case ApplyRedeem(id) =>
      if id !in c.txs || id in c.res then None else
      var f := Apply(k.channel, c.open, c.lastClose, RedeemTx(k.payee, c.txs[id]));
      Some(Post(k, c, f).(res := c.res[id := Outcome(f.ter, f.credit)]))
    case DropRedeem(id) =>   // it waited too long and is never applied
      if id !in c.txs || id in c.res then None else Some(c.(res := c.res[id := Outcome(TefMaxLedger, 0)]))
    case ApplyBlob(b) =>
      if b !in c.blobs then None
      else if b.ticket in c.used || b.ticket >= c.tickets then Some(c.(blobs := c.blobs - {b}))
      else
        var f := Apply(k.channel, c.open, c.lastClose, BlobTx(k.payee, b));
        Some(Post(k, c, f).(blobs := c.blobs - {b}, used := c.used + {b.ticket},
                            bres := c.bres[b := Outcome(f.ter, f.credit)]))
    case DropBlob(b) =>     // the server has not taken it, or has lost it
      if b !in c.blobs then None else Some(c.(blobs := c.blobs - {b}))
    case OtherCredit(x) =>
      if x <= 0 then None else Some(c.(credits := c.credits + x))
    case CloseLedger =>
      if c.blobs != {} then None
      else Some(c.(valid := c.open, vfunding := c.funding, vres := c.res, vbres := c.bres,
                   vcredits := c.credits, vdebits := c.debits, lastClose := c.now))
    case Tick(d) =>
      if d <= 0 || c.now + d > c.lastClose + k.interval || TowerBusy(t) || (t.pc.TSleep? && c.now + d > t.pc.wake)
         || (t.pc.TWait? && c.now + d > t.pc.until)
      then None
      else Some(c.(now := c.now + d))
  }

  function Step(k: Params, w: World, e: Event): Option<World> {
    match e
    case ByPayer(e) =>
      var r := PayerStep(k, w.payer, w.link, e);
      if r.None? then None else Some(w.(payer := r.value.0, link := r.value.1))
    case ByPayee(e) =>
      var r := PayeeStep(k, w.payee, w.link, w.chain, e);
      if r.None? then None else Some(w.(payee := r.value.0, link := r.value.1))
    case ByWorker(e) =>
      var r := WorkerStep(k, w.payee, w.tower, w.chain, e);
      if r.None? then None else Some(w.(payee := r.value.0, tower := r.value.1, chain := r.value.2))
    case ByRedeemer(e) =>
      var r := RedeemStep(k, w.payee, w.tower, w.chain, e);
      if r.None? then None else Some(w.(payee := r.value.0, chain := r.value.1))
    case ByTower(e) =>
      var r := TowerStep(k, w.tower, w.chain, e);
      if r.None? then None else Some(w.(tower := r.value.0, chain := r.value.1))
    case ByChain(e) =>
      var r := ChainStep(k, w.tower, w.chain, e);
      if r.None? then None else Some(w.(chain := r.value))
  }

  /** The world after a sequence of events, if every one of them was possible. */
  function Exec(k: Params, w: World, run: seq<Event>): Option<World>
    decreases |run|
  {
    if run == [] then Some(w)
    else
      var w1 := Step(k, w, run[0]);
      if w1.None? then None else Exec(k, w1.value, run[1..])
  }
}
