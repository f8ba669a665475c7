/** The promise of the XRP arm in one piece: the feed reaches the tower, and what the
    payee has acknowledged is paid although it goes offline. */
module XrpGuarantee {
  import opened XrpWorld
  import opened XrpSafety
  import opened XrpRuns
  import opened XrpFeed
  import opened XrpSettlement

  // ---- the feed catches up ----

  /** A push that waits for an answer has been sent. */
  predicate SentInv(w: World) {
    w.payee.worker.AwaitingReply? ==> w.payee.worker.b in w.tower.wire
  }

  lemma StepSent(k: Params, w: World, e: Event)
    requires SentInv(w) && Step(k, w, e).Some?
    ensures SentInv(Step(k, w, e).value)
  {
    match e
    case ByWorker(we) =>
    case ByTower(te) =>
    case ByPayee(pe) =>
    case _ =>
  }

  lemma {:induction false} RunSent(k: Params, w: World, run: seq<Event>)
    requires SentInv(w) && Exec(k, w, run).Some?
    ensures SentInv(Exec(k, w, run).value)
    decreases |run|
  {
    if run != [] {
      StepSent(k, w, run[0]);
      RunSent(k, Step(k, w, run[0]).value, run[1..]);
    }
  }

  /** A step of the feed in which nothing fails. */
  predicate FeedStep(e: Event) {
    || (e.ByPayee? && (e.e.SaveClaim? || e.e.Notify? || e.e.NotifyOther?))
    || (e.ByWorker? && e.w != Fail)
    || (e.ByTower? && e.t.Receive?)
  }

  /** How many threads are about to queue a notification. */
  function Coming(p: Payee): nat {
    (if p.lock == Unlocked then 0 else 2) + |p.toNotify| + p.puts
  }

  function Todo(p: Payee, t: Tower): nat {
    p.queue * 100 +
    match p.worker
    case Waiting => 0
    case Recording(_) => 1
    case AwaitingReply(b) => if b.amount in t.acks then 2 else 3
    case Sending(_) => 4
    case Reading(_) => 5
    case GotTicket(_) => 6
    case NeedTicket => 7
    case Checking => 8
    case Draining => 9
    case Sleeping => 101
  }

  /** The next step of the worker when no thread is about to notify it. */
  function WorkerNext(p: Payee): WorkerEvent {
    match p.worker
    case Waiting => Take
    case Draining => if p.queue > 0 then Drain else Begin
    case Checking => Check
    case NeedTicket => TicketMade
    case GotTicket(_) => SaveTicket
    case Reading(_) => Read
    case Sending(_) => Send
    case AwaitingReply(_) => Answered
    case Recording(_) => Record
    case Sleeping => Requeue
  }

  /** The next step of the feed. */
  ghost function Next(w: World): Event
    requires !AtRest(w.payee)
  {
    var p := w.payee;
    if p.lock != Unlocked then ByPayee(SaveClaim)
    else if p.toNotify.Keys != {} then
      var n :| n in p.toNotify; ByPayee(Notify(n))
    else if p.puts > 0 then ByPayee(NotifyOther)
    else if p.worker.AwaitingReply? && p.worker.b.amount !in w.tower.acks then ByTower(Receive(p.worker.b))
    else ByWorker(WorkerNext(p))
  }

  lemma SaveBringsNearer(k: Params, p: Payee, l: Link, c: Chain, vfunding: int)
    requires PayeeInv(k, p, vfunding) && p.lock != Unlocked
    ensures var r := PayeeStep(k, p, l, c, SaveClaim);
            r.Some? && Coming(r.value.0) < Coming(p) && r.value.0.mem == p.mem
  {
    var m := p.toNotify[p.lock.conn := p.mem.value.best];
    assert m.Keys == p.toNotify.Keys + {p.lock.conn};
    assert |m| == |m.Keys| && |p.toNotify| == |p.toNotify.Keys|;
  }

  lemma NotifyBringsNearer(k: Params, p: Payee, l: Link, c: Chain, n: nat)
    requires n in p.toNotify
    ensures var r := PayeeStep(k, p, l, c, Notify(n));
            r.Some? && Coming(r.value.0) < Coming(p) && r.value.0.mem == p.mem
  {
    assert (p.toNotify - {n}).Keys == p.toNotify.Keys - {n};
    assert |p.toNotify - {n}| == |(p.toNotify - {n}).Keys|;
    assert |p.toNotify| == |p.toNotify.Keys|;
  }

  lemma PayeeNextMakesProgress(k: Params, w: World)
    requires Safe(k, w) && !AtRest(w.payee) && Coming(w.payee) > 0
    ensures FeedStep(Next(w)) && Step(k, w, Next(w)).Some?
    ensures var w' := Step(k, w, Next(w)).value;
            Coming(w'.payee) < Coming(w.payee) && w'.payee.mem == w.payee.mem && w'.chain == w.chain
  {
    var p := w.payee;
    if p.lock != Unlocked {
      SaveBringsNearer(k, p, w.link, w.chain, w.chain.vfunding);
    } else if p.toNotify.Keys != {} {
      NotifyBringsNearer(k, p, w.link, w.chain, Next(w).e.conn);
    }
  }

  lemma WorkerNextIsPossible(k: Params, p: Payee, t: Tower, c: Chain, vfunding: int)
    requires PayeeInv(k, p, vfunding) && !AtRest(p) && Coming(p) == 0
    requires p.worker.AwaitingReply? ==> p.worker.b.amount in t.acks
    ensures var r := WorkerStep(k, p, t, c, WorkerNext(p));
            && r.Some? && Coming(r.value.0) == 0 && Todo(r.value.0, r.value.1) < Todo(p, t)
            && Best(r.value.0.mem) == Best(p.mem) && r.value.2.valid == c.valid
            && (p.mem.Some? <==> r.value.0.mem.Some?)
  {
    assert |p.toNotify| == |p.toNotify.Keys|;
  }

  lemma WorkerNextMakesProgress(k: Params, w: World)
    requires Safe(k, w) && SentInv(w) && !AtRest(w.payee) && Coming(w.payee) == 0
    ensures FeedStep(Next(w)) && Step(k, w, Next(w)).Some?
    ensures var w' := Step(k, w, Next(w)).value;
            && Coming(w'.payee) == 0 && Todo(w'.payee, w'.tower) < Todo(w.payee, w.tower)
            && Best(w'.payee.mem) == Best(w.payee.mem) && w'.chain.valid == w.chain.valid
            && (w.payee.mem.Some? <==> w'.payee.mem.Some?)
  {
    assert |w.payee.toNotify| == |w.payee.toNotify.Keys|;
    if w.payee.worker.AwaitingReply? && w.payee.worker.b.amount !in w.tower.acks {
      assert Next(w) == ByTower(Receive(w.payee.worker.b));
    } else {
      WorkerNextIsPossible(k, w.payee, w.tower, w.chain, w.chain.vfunding);
      assert Next(w) == ByWorker(WorkerNext(w.payee));
    }
  }

  lemma {:induction false} CatchesUp(k: Params, w: World) returns (run: seq<Event>)
    requires GoodParams(k) && Safe(k, w) && Fed(w.payee) && SentInv(w)
    ensures (forall e | e in run :: FeedStep(e)) && Exec(k, w, run).Some?
    ensures var w' := Exec(k, w, run).value;
            && AtRest(w'.payee) && Best(w'.payee.mem) == Best(w.payee.mem)
            && (w.chain.valid.Some? && Best(w.payee.mem) > 0 ==>
                  w'.tower.rec.Some? && w'.tower.rec.value.blob.amount == Best(w.payee.mem))
    decreases Coming(w.payee), Todo(w.payee, w.tower)
  {
    if AtRest(w.payee) {
      run := [];
    } else {
      var e := Next(w);
      if Coming(w.payee) > 0 { PayeeNextMakesProgress(k, w); } else { WorkerNextMakesProgress(k, w); }
      var w1 := Step(k, w, e).value;
      StepSafe(k, w, e);
      StepFed(k, w, e);
      StepSent(k, w, e);
      var rest := CatchesUp(k, w1);
      run := [e] + rest;
      assert run[1..] == rest;
    }
  }

  /** Whatever run came before, if from now on nothing fails then the feed comes to rest,
      and the claim that was the best one is with the tower. */
  lemma FeedCatchesUp(k: Params, amount: int, t0: int, before: seq<Event>) returns (run: seq<Event>)
    requires GoodParams(k) && amount >= 0 && Exec(k, Init(k, amount, t0), before).Some?
    ensures var w := Exec(k, Init(k, amount, t0), before).value;
            (forall e | e in run :: FeedStep(e)) && Exec(k, w, run).Some?
    ensures var w := Exec(k, Init(k, amount, t0), before).value;
            var w' := Exec(k, w, run).value;
            && AtRest(w'.payee) && Best(w'.payee.mem) == Best(w.payee.mem)
            && (w.chain.valid.Some? && Best(w.payee.mem) > 0 ==>
                  w'.tower.rec.Some? && w'.tower.rec.value.blob.amount == Best(w.payee.mem))
  {
    var w0 := Init(k, amount, t0);
    InitSafe(k, amount, t0);
    RunSafe(k, w0, before);
    RunFed(k, w0, before);
    RunSent(k, w0, before);
    run := CatchesUp(k, Exec(k, w0, before).value);
  }

  // ---- the guarantee ----

  /** The next validated ledger is the first to show that the payer scheduled the close. */
  predicate CloseShows(c: Chain) {
    && c.valid.Some? && c.valid.value.expiration.None?
    && c.open.Some? && c.open.value.expiration.Some? && c.blobs == {}
  }

  /** Everything that the payee has ever acknowledged is paid, in every run, if the feed
      was at rest when the close request was validated and the payee had no
      undercutting close of its own under way: no interleaving of the payer, a payee
      that runs, crashes or stays away, the tower with whatever is not fatal, and the
      ledger takes it back. */
  lemma AcknowledgedIsPaid(k: Params, amount: int, t0: int, before: seq<Event>, after: seq<Event>, a: int)
    requires GoodParams(k) && amount >= 0 && Room(k, Spent(k, after))
    requires Exec(k, Init(k, amount, t0), before).Some?
    requires var w := Exec(k, Init(k, amount, t0), before).value;
             && a in w.link.acked && AtRest(w.payee) && CloseShows(w.chain)
             && NoUndercut(w.payee.redeemer, w.chain, Best(w.payee.mem))
             && NoFatal(k, AfterClose(k, w), after, Best(w.payee.mem))
             && Exec(k, AfterClose(k, w), after).Some?
    ensures var w := Exec(k, Init(k, amount, t0), before).value;
            PaidInTime(Exec(k, AfterClose(k, w), after).value.chain, a, Deadline(k, w.chain.now, Spent(k, after)))
  {
    var w0 := Init(k, amount, t0);
    var w := Exec(k, w0, before).value;
    ClaimsAreSafe(k, amount, t0, before);
    InitSafe(k, amount, t0);
    RunSafe(k, w0, before);
    if a <= 0 {
      StepSafe(k, w, ByChain(CloseLedger));
      RunSafe(k, AfterClose(k, w), after);
    } else {
      AtRestTowerHoldsBest(k, amount, t0, before);
      TowerSettles(k, amount, t0, before, after, Best(w.payee.mem));
    }
  }
}
