/** Every condition in the results of the XRP arm is needed: for each of them there is a
    run from the start of a channel that breaks it and ends in the failure. */
module XrpWitnesses {
  import opened Options
  import opened XrpTypes
  import opened PayChanLedger
  import opened XrpTowerSpec
  import opened XrpWorld
  import opened XrpSettlement
  import opened XrpProgress
  import opened XrpFailures

  /** A channel of 100 drops between account 10 and account 20. */
  const K := Params(1, 10, 20, 7, 40, 10, 40, 10, 1)

  ghost predicate Reaches(run: seq<Event>, w: World) {
    Exec(K, Init(K, 100, 0), run) == Some(w)
  }

  lemma Then(run: seq<Event>, w: World, e: Event) returns (run': seq<Event>, w': World)
    requires Reaches(run, w) && Step(K, w, e).Some?
    ensures w' == Step(K, w, e).value && Reaches(run', w')
  {
    run', w' := OneMoreStep(K, Init(K, 100, 0), run, w, e);
  }

  /** The record of the payee after claims of `best` in all. */
  function Record(best: int, version: nat, ticket: Option<nat>, towerDrops: int): Incoming {
    Incoming(1, 7, 100, best, Some(Sig(7, 1, best)), version, 0, false, ticket, towerDrops)
  }

  function TheBlob(amount: int): Blob {
    Blob(1, amount, Sig(7, 1, amount), 7, 0)
  }

  /** The payer has paid 5 drops and got no answer yet. */
  lemma PayFive() returns (run: seq<Event>, w: World)
    ensures Reaches(run, w)
    ensures w.payer.pc.PWait? && w.payer.mem == Outgoing(1, 100, 5, 1, Some(Sig(7, 1, 5)), false)
    ensures w.payee.mem == Some(Record(5, 1, None, 0)) && w.payee.disk == w.payee.mem
    ensures w.payee == w.payee.(lock := Unlocked, puts := 2, queue := 0, worker := Waiting,
                                redeemer := RIdle, watcher := WIdle)
    ensures w.tower == Init(K, 100, 0).tower && w.chain == Init(K, 100, 0).chain && w.link.next == 1
  {
    run, w := [], Init(K, 100, 0);
    run, w := Then(run, w, ByPayee(OpenChannel));
    run, w := Then(run, w, ByPayer(Sign(5)));
    run, w := Then(run, w, ByPayer(SavePay));
    run, w := Then(run, w, ByPayer(SendPay));
    run, w := Then(run, w, ByPayee(Deliver(0)));
    run, w := Then(run, w, ByPayee(SaveClaim));
  }

  /** He pays 5 more; the payee holds a claim of 10. */
  lemma PayAgain(run0: seq<Event>, w0: World, ticket: Option<nat>, towerDrops: int) returns (run: seq<Event>, w: World)
    requires Reaches(run0, w0) && w0.payer.pc.PWait?
    requires w0.payer.mem == Outgoing(1, 100, 5, 1, Some(Sig(7, 1, 5)), false)
    requires w0.link.next == 1 && w0.payee.lock == Unlocked
    requires w0.payee.mem == Some(Record(5, 1, ticket, towerDrops)) && w0.payee.disk == w0.payee.mem
    ensures Reaches(run, w) && w.tower == w0.tower && w.chain == w0.chain
    ensures w.payee == w0.payee.(mem := Some(Record(10, 2, ticket, towerDrops)), disk := w.payee.mem,
                                 toNotify := w.payee.toNotify)
    ensures 1 in w.payee.toNotify && w.payee.toNotify[1] == 10
  {
    run, w := Then(run0, w0, ByPayer(PayUnanswered));
    run, w := Then(run, w, ByPayer(Sign(5)));
    run, w := Then(run, w, ByPayer(SavePay));
    run, w := Then(run, w, ByPayer(SendPay));
    run, w := Then(run, w, ByPayee(Deliver(1)));
    run, w := Then(run, w, ByPayee(SaveClaim));
  }

  lemma FirstCheck(run0: seq<Event>, w0: World) returns (run: seq<Event>, w: World)
    requires Reaches(run0, w0) && w0.payee.lock == Unlocked && w0.payee.queue == 1 && w0.payee.worker == Waiting
    requires w0.payee.mem.Some? && !w0.payee.mem.value.closed && w0.payee.mem.value.ticket == None
    ensures Reaches(run, w) && w == w0.(payee := w0.payee.(queue := 0, worker := NeedTicket))
  {
    run, w := Then(run0, w0, ByWorker(Take));
    run, w := Then(run, w, ByWorker(Begin));
    run, w := Then(run, w, ByWorker(Check));
  }

  lemma FirstRead(run0: seq<Event>, w0: World, best: int, version: nat) returns (run: seq<Event>, w: World)
    requires Reaches(run0, w0) && w0.payee.lock == Unlocked && w0.payee.queue == 1 && w0.payee.worker == Waiting
    requires w0.payee.mem == Some(Record(best, version, None, 0)) && w0.payee.disk == w0.payee.mem && 0 < best
    requires w0.chain.tickets == 0
    ensures Reaches(run, w) && w == w0.(payee := w.payee, chain := w.chain)
    ensures w.payee == w0.payee.(mem := Some(Record(best, version, Some(0), 0)), disk := w.payee.mem, queue := 0,
                                 worker := Sending(TheBlob(best)))
    ensures w.chain == w0.chain.(tickets := 1, debits := w.chain.debits)
  {
    run, w := FirstCheck(run0, w0);
    run, w := Then(run, w, ByWorker(TicketMade));
    run, w := Then(run, w, ByWorker(SaveTicket));
    run, w := Then(run, w, ByWorker(Read));
  }

  /** The worker hands the tower a claim, for which it still needs a ticket. */
  lemma FirstPush(run0: seq<Event>, w0: World, best: int, version: nat) returns (run: seq<Event>, w: World)
    requires Reaches(run0, w0) && w0.payee.lock == Unlocked && w0.payee.queue == 1 && w0.payee.worker == Waiting
    requires w0.payee.mem == Some(Record(best, version, None, 0)) && w0.payee.disk == w0.payee.mem && 0 < best
    requires w0.chain.tickets == 0 && w0.tower.rec == None
    ensures Reaches(run, w) && w.payer == w0.payer && w.link == w0.link
    ensures w.payee == w0.payee.(mem := Some(Record(best, version, Some(0), best)), disk := w.payee.mem, queue := 0)
    ensures w.tower == w0.tower.(rec := Some(Held(TheBlob(best), false, false, None)),
                                 wire := w.tower.wire, acks := w.tower.acks)
    ensures w.chain == w0.chain.(tickets := 1, debits := w.chain.debits)
  {
    run, w := FirstRead(run0, w0, best, version);
    run, w := Then(run, w, ByWorker(Send));
    run, w := Then(run, w, ByTower(Receive(TheBlob(best))));
    run, w := Then(run, w, ByWorker(Answered));
    run, w := Then(run, w, ByWorker(WorkerEvent.Record));
  }

  lemma SecondRead(run0: seq<Event>, w0: World) returns (run: seq<Event>, w: World)
    requires Reaches(run0, w0) && w0.payee.lock == Unlocked && w0.payee.puts > 0 && w0.payee.queue == 0
    requires w0.payee.worker == Waiting && w0.payee.mem == Some(Record(10, 2, Some(0), 5))
    ensures Reaches(run, w) && w == w0.(payee := w.payee)
    ensures w.payee == w0.payee.(puts := w0.payee.puts - 1, worker := Sending(TheBlob(10)))
  {
    run, w := Then(run0, w0, ByPayee(NotifyOther));
    run, w := Then(run, w, ByWorker(Take));
    run, w := Then(run, w, ByWorker(Begin));
    run, w := Then(run, w, ByWorker(Check));
    run, w := Then(run, w, ByWorker(Read));
  }

  /** The worker sends a second claim, with the same ticket. */
  lemma SecondPush(run0: seq<Event>, w0: World) returns (run: seq<Event>, w: World)
    requires Reaches(run0, w0) && w0.payee.lock == Unlocked && w0.payee.puts > 0 && w0.payee.queue == 0
    requires w0.payee.worker == Waiting && w0.payee.mem == Some(Record(10, 2, Some(0), 5))
    requires w0.tower.rec.Some? && w0.tower.rec.value.blob == TheBlob(5)
    ensures Reaches(run, w) && w.chain == w0.chain
    ensures w.payee == w0.payee.(puts := w.payee.puts, worker := w.payee.worker)
    ensures w.tower == w0.tower.(rec := Some(Held(TheBlob(10), false, false, None)),
                                 wire := w.tower.wire, acks := w.tower.acks)
  {
    run, w := SecondRead(run0, w0);
    run, w := Then(run, w, ByWorker(Send));
    run, w := Then(run, w, ByTower(Receive(TheBlob(10))));
  }

  // ---- an undercutting close ----

  /** The payee starts a close of its own with a claim of 5, and acknowledges 10. */
  lemma CloseStarted() returns (run: seq<Event>, w: World)
    ensures Reaches(run, w) && 10 in w.link.acked
    ensures w.payee.redeemer == RRead(Redeem(1, 5, Some(Sig(7, 1, 5)), 7, true))
    ensures w.payee == w.payee.(lock := Unlocked, queue := 1, worker := Waiting)
    ensures w.payee.mem == Some(Record(10, 2, None, 0)) && w.payee.disk == w.payee.mem
    ensures w.tower == Init(K, 100, 0).tower && w.chain == Init(K, 100, 0).chain
  {
    run, w := PayFive();
    run, w := Then(run, w, ByRedeemer(RedeemStart(true)));
    run, w := PayAgain(run, w, None, 0);
    run, w := Then(run, w, ByPayee(Notify(1)));
    run, w := Then(run, w, ByPayee(Acknowledge(1)));
  }

  /** It hands the 10 to the tower, and then the payer closes: the condition of
      SettlesExactly is false. */
  lemma UndercutIsReachable() returns (run: seq<Event>, w: World)
    ensures Reaches(run, w) && CloseComes(w, 10) && w.chain.paid == 0 && !NoUndercut(w.payee.redeemer, w.chain, 10)
    ensures w.tower.rec == Some(Held(TheBlob(10), false, false, None))
    ensures 10 in w.link.acked && w.payee.redeemer == RRead(Redeem(1, 5, Some(Sig(7, 1, 5)), 7, true))
    ensures w.chain == Init(K, 100, 0).chain.(open := w.chain.open, tickets := 1, debits := w.chain.debits)
    ensures w.chain.open == Some(PayChan(10, 20, 7, 100, 0, 40, Some(40)))
  {
    run, w := CloseStarted();
    run, w := FirstPush(run, w, 10, 2);
    run, w := Then(run, w, ByChain(PayerCloses));
  }

  /** And the close wins: the channel is gone with 5 paid of the 10 acknowledged. */
  lemma UndercutHappens() returns (run: seq<Event>, w: World)
    ensures Reaches(run, w) && 10 in w.link.acked && w.tower.rec.Some? && w.tower.rec.value.blob == TheBlob(10)
    ensures w.chain.open.None? && w.chain.paid == 5
  {
    run, w := UndercutIsReachable();
    run, w := Then(run, w, ByChain(CloseLedger));
    run, w := Then(run, w, ByRedeemer(ReadBefore));
    run, w := Then(run, w, ByRedeemer(SubmitRedeem));
    run, w := Then(run, w, ByChain(ApplyRedeem(0)));
  }

  // ---- a crash between mark and submission ----

  /** The tower holds 5. */
  lemma FiveIsHeld() returns (run: seq<Event>, w: World)
    ensures Reaches(run, w)
    ensures w.payer.pc.PWait? && w.payer.mem == Outgoing(1, 100, 5, 1, Some(Sig(7, 1, 5)), false) && w.link.next == 1
    ensures w.payee.mem == Some(Record(5, 1, Some(0), 5)) && w.payee.disk == w.payee.mem
    ensures w.payee == w.payee.(lock := Unlocked, puts := 1, queue := 0, worker := Waiting,
                                redeemer := RIdle, watcher := WIdle)
    ensures w.tower.rec == Some(Held(TheBlob(5), false, false, None)) && w.tower.pc == TSleep(10)
    ensures w.chain == Init(K, 100, 0).chain.(tickets := 1, debits := w.chain.debits)
  {
    run, w := PayFive();
    run, w := Then(run, w, ByPayee(NotifyOther));
    run, w := FirstPush(run, w, 5, 1);
  }

  /** And a validated ledger shows the close request of the payer. */
  lemma CloseSeen() returns (run: seq<Event>, w: World)
    ensures Reaches(run, w)
    ensures w.payer.pc.PWait? && w.payer.mem == Outgoing(1, 100, 5, 1, Some(Sig(7, 1, 5)), false) && w.link.next == 1
    ensures w.payee.mem == Some(Record(5, 1, Some(0), 5)) && w.payee.disk == w.payee.mem
    ensures w.payee == w.payee.(lock := Unlocked, puts := 1, queue := 0, worker := Waiting,
                                redeemer := RIdle, watcher := WIdle)
    ensures w.tower.rec == Some(Held(TheBlob(5), false, false, None)) && w.tower.pc == TSleep(10)
    ensures w.chain == Init(K, 100, 0).chain.(open := w.chain.open, valid := w.chain.open, tickets := 1,
                                              debits := w.chain.debits, vdebits := w.chain.vdebits)
    ensures w.chain.open == Some(PayChan(10, 20, 7, 100, 0, 40, Some(40)))
  {
    run, w := FiveIsHeld();
    PayerRequests(w.chain);
    run, w := Then(run, w, ByChain(PayerCloses));
    run, w := Then(run, w, ByChain(CloseLedger));
  }

  lemma PayerRequests(c: Chain)
    requires c.open == Some(PayChan(10, 20, 7, 100, 0, 40, None)) && c.lastClose == 0
    ensures Apply(1, c.open, c.lastClose, PayerCloseTx(10))
         == Effect(Some(PayChan(10, 20, 7, 100, 0, 40, Some(40))), TesSuccess, 0, 0)
  {
  }

  /** The tower wakes up and marks its record. */
  lemma TowerMarks() returns (run: seq<Event>, w: World)
    ensures Reaches(run, w)
    ensures w.payer.pc.PWait? && w.payer.mem == Outgoing(1, 100, 5, 1, Some(Sig(7, 1, 5)), false) && w.link.next == 1
    ensures w.payee.mem == Some(Record(5, 1, Some(0), 5)) && w.payee.disk == w.payee.mem
    ensures w.payee == w.payee.(lock := Unlocked, puts := 1, queue := 0, worker := Waiting,
                                redeemer := RIdle, watcher := WIdle)
    ensures w.tower.rec == Some(Held(TheBlob(5), true, false, None)) && w.tower.pc == TSubmit(TheBlob(5))
    ensures w.chain == Init(K, 100, 0).chain.(open := w.chain.open, valid := w.chain.open, tickets := 1, now := 10,
                                              debits := w.chain.debits, vdebits := w.chain.vdebits)
    ensures w.chain.open == Some(PayChan(10, 20, 7, 100, 0, 40, Some(40)))
  {
    run, w := CloseSeen();
    run, w := Then(run, w, ByChain(Tick(10)));
    run, w := Then(run, w, ByTower(Wake));
    run, w := Then(run, w, ByTower(FetchEntry));
    run, w := Then(run, w, ByTower(Decide));
  }

  lemma ReachedSteady(run: seq<Event>, w: World)
    requires Reaches(run, w)
    ensures Steady(K, w)
  {
    InitSteady(K, 100, 0);
    Steadily(K, Init(K, 100, 0), run);
  }

  lemma CrashIsReachable() returns (run: seq<Event>, w: World)
    ensures Reaches(run, w) && w.tower.rec.Some? && w.tower.rec.value.blob == TheBlob(5)
    ensures Fatal(w, ByTower(TowerCrash), 5)
  {
    run, w := TowerMarks();
  }

  /** A fatal crash is reachable, and it has a continuation in which the tower runs and
      the channel ends with less paid than the 5 that the tower held. */
  lemma CrashHappens() returns (run: seq<Event>, w: World, rest: seq<Event>)
    ensures Reaches(run, w) && w.tower.rec.Some? && w.tower.rec.value.blob == TheBlob(5)
    ensures Fatal(w, ByTower(TowerCrash), 5)
    ensures (forall e | e in rest :: Smooth(e)) && Exec(K, Step(K, w, ByTower(TowerCrash)).value, rest).Some?
    ensures var c := Exec(K, Step(K, w, ByTower(TowerCrash)).value, rest).value.chain;
            c.open.None? && c.paid < 5
  {
    run, w := CrashIsReachable();
    ReachedSteady(run, w);
    rest := FatalLoses(K, w, ByTower(TowerCrash), 5);
  }

  /** And so is a blob that no ledger takes. */
  lemma DropHappens() returns (run: seq<Event>, w: World, rest: seq<Event>)
    ensures Reaches(run, w) && w.tower.rec.Some? && w.tower.rec.value.blob == TheBlob(5)
    ensures Fatal(w, ByChain(DropBlob(TheBlob(5))), 5) && Step(K, w, ByChain(DropBlob(TheBlob(5)))).Some?
    ensures (forall e | e in rest :: Smooth(e)) && Exec(K, Step(K, w, ByChain(DropBlob(TheBlob(5)))).value, rest).Some?
    ensures var c := Exec(K, Step(K, w, ByChain(DropBlob(TheBlob(5)))).value, rest).value.chain;
            c.open.None? && c.paid < 5
  {
    run, w := DropIsReachable();
    ReachedSteady(run, w);
    rest := FatalLoses(K, w, ByChain(DropBlob(TheBlob(5))), 5);
  }

  lemma DropIsReachable() returns (run: seq<Event>, w: World)
    ensures Reaches(run, w) && w.tower.rec.Some? && w.tower.rec.value.blob == TheBlob(5)
    ensures Fatal(w, ByChain(DropBlob(TheBlob(5))), 5) && Step(K, w, ByChain(DropBlob(TheBlob(5)))).Some?
  {
    run, w := TowerMarks();
    run, w := Then(run, w, ByTower(SubmitBlob));
  }

  // ---- a report of more than was paid ----

  /** While its blob is in flight the tower gets a larger claim. */
  lemma RecordReplaced() returns (run: seq<Event>, w: World)
    ensures Reaches(run, w) && w.payee.lock == Unlocked && w.payee.watcher == WIdle
    ensures w.payee.mem == Some(Record(10, 2, Some(0), 5)) && w.payee.disk == w.payee.mem
    ensures w.tower.rec == Some(Held(TheBlob(10), false, false, None)) && w.tower.pc == TWait(TheBlob(5), 50)
    ensures w.chain == Init(K, 100, 0).chain.(open := w.chain.open, valid := w.chain.open, tickets := 1, now := 10,
                                              debits := w.chain.debits, vdebits := w.chain.vdebits,
                                              blobs := {TheBlob(5)})
    ensures w.chain.open == Some(PayChan(10, 20, 7, 100, 0, 40, Some(40)))
  {
    run, w := TowerMarks();
    run, w := Then(run, w, ByTower(SubmitBlob));
    run, w := PayAgain(run, w, Some(0), 5);
    run, w := SecondPush(run, w);
  }

  /** Then the tower reports 10 although the ledger paid 5. */
  lemma OverReportHappens() returns (run: seq<Event>, w: World)
    ensures Reaches(run, w) && w.chain.paid == 5 && w.chain.valid == None
    ensures Reported(w.tower.rec) == Some(10)
    ensures w.payee.lock == Unlocked && w.payee.watcher == WIdle && w.payee.mem == Some(Record(10, 2, Some(0), 5))
  {
    run, w := RecordReplaced();
    run, w := Then(run, w, ByChain(ApplyBlob(TheBlob(5))));
    run, w := Then(run, w, ByChain(CloseLedger));
    run, w := Then(run, w, ByTower(Validated));
  }

  /** And the payee believes it: its record says 10 redeemed. */
  lemma FalseReportIsRecorded() returns (run: seq<Event>, w: World)
    ensures Reaches(run, w) && w.chain.paid == 5
    ensures w.payee.disk.Some? && w.payee.disk.value.redeemed == 10
  {
    run, w := OverReportHappens();
    run, w := Then(run, w, ByRedeemer(SeeGone(true)));
    run, w := Then(run, w, ByRedeemer(RecordGone));
  }

  // ---- a report although nothing was paid ----

  lemma PollFails(run0: seq<Event>, w0: World) returns (run: seq<Event>, w: World)
    requires Reaches(run0, w0) && w0.chain.now == w0.chain.lastClose && w0.chain.blobs == {}
    requires w0.tower.rec.Some? && !w0.tower.rec.value.done && w0.tower.pc == TSleep(w0.chain.now + 10)
    ensures Reaches(run, w) && w.payee == w0.payee && w.tower == w0.tower.(pc := TSleep(w.chain.now + 10))
    ensures w.chain == w0.chain.(now := w0.chain.now + 10, lastClose := w0.chain.now + 10, valid := w0.chain.open,
                                 vfunding := w0.chain.funding, vres := w0.chain.res, vbres := w0.chain.bres,
                                 vcredits := w0.chain.credits, vdebits := w0.chain.debits)
  {
    run, w := Then(run0, w0, ByChain(Tick(10)));
    run, w := Then(run, w, ByTower(Wake));
    run, w := Then(run, w, ByTower(FetchFails));
    run, w := Then(run, w, ByChain(CloseLedger));
  }

  /** The tower cannot read the ledger until the channel has expired. */
  lemma TowerIsCutOff() returns (run: seq<Event>, w: World)
    ensures Reaches(run, w)
    ensures w.tower.rec == Some(Held(TheBlob(5), false, false, None)) && w.tower.pc == TSleep(50)
    ensures w.chain.now == 40 && w.chain.lastClose == 40 && w.chain.paid == 0
    ensures w.chain.blobs == {} && w.chain.used == {} && w.chain.tickets == 1
    ensures w.chain.open == Some(PayChan(10, 20, 7, 100, 0, 40, Some(40))) && w.chain.valid == w.chain.open
  {
    run, w := CloseSeen();
    run, w := PollFails(run, w);
    run, w := PollFails(run, w);
    run, w := PollFails(run, w);
    run, w := PollFails(run, w);
  }

  lemma SubmitsTooLate() returns (run: seq<Event>, w: World)
    ensures Reaches(run, w)
    ensures w.tower.rec == Some(Held(TheBlob(5), true, false, None)) && w.tower.pc == TWait(TheBlob(5), 80)
    ensures w.chain.lastClose == 40 && w.chain.paid == 0
    ensures w.chain.blobs == {TheBlob(5)} && w.chain.used == {} && w.chain.tickets == 1
    ensures w.chain.open == Some(PayChan(10, 20, 7, 100, 0, 40, Some(40)))
  {
    run, w := TowerIsCutOff();
    run, w := Then(run, w, ByTower(Wake));
    run, w := Then(run, w, ByTower(FetchEntry));
    run, w := Then(run, w, ByTower(Decide));
    run, w := Then(run, w, ByTower(SubmitBlob));
  }

  lemma LandsTooLate() returns (run: seq<Event>, w: World)
    ensures Reaches(run, w)
    ensures w.tower.rec == Some(Held(TheBlob(5), true, false, None)) && w.tower.pc == TWait(TheBlob(5), 80)
    ensures w.chain.paid == 0 && w.chain.open == None && w.chain.blobs == {}
    ensures TheBlob(5) in w.chain.bres && w.chain.bres[TheBlob(5)] == Outcome(TesSuccess, 0)
  {
    run, w := SubmitsTooLate();
    assert Apply(1, w.chain.open, 40, BlobTx(20, TheBlob(5))) == Effect(None, TesSuccess, 0, 100);
    run, w := Then(run, w, ByChain(ApplyBlob(TheBlob(5))));
  }

  /** Its blob lands on the expired channel: the tower reports 5 and nothing was paid. */
  lemma LateReportHappens() returns (run: seq<Event>, w: World)
    ensures Reaches(run, w) && w.chain.paid == 0 && Reported(w.tower.rec) == Some(5)
  {
    run, w := LandsTooLate();
    run, w := Then(run, w, ByChain(CloseLedger));
    run, w := Then(run, w, ByTower(Validated));
  }

  // ---- a redeem that counts the money of others ----

  lemma TenPass(run0: seq<Event>, w0: World) returns (run: seq<Event>, w: World)
    requires Reaches(run0, w0) && w0.chain.now == w0.chain.lastClose && w0.chain.blobs == {}
    requires w0.tower.rec == None && w0.tower.pc == TSleep(w0.chain.now + 10)
    ensures Reaches(run, w) && w.payee == w0.payee && w.tower == w0.tower.(pc := TSleep(w.chain.now + 10))
    ensures w.chain == w0.chain.(now := w0.chain.now + 10, lastClose := w0.chain.now + 10, valid := w0.chain.open,
                                 vfunding := w0.chain.funding, vres := w0.chain.res, vbres := w0.chain.bres,
                                 vcredits := w0.chain.credits, vdebits := w0.chain.debits)
  {
    run, w := Then(run0, w0, ByChain(Tick(10)));
    run, w := Then(run, w, ByTower(Wake));
    run, w := Then(run, w, ByChain(CloseLedger));
  }

  /** The payee holds a claim of 5 and the tower none, and the payer closes. */
  lemma ClosesUnwatched() returns (run: seq<Event>, w: World)
    ensures Reaches(run, w) && w.payee.lock == Unlocked && w.payee.redeemer == RIdle
    ensures w.payee.mem == Some(Record(5, 1, None, 0)) && w.payee.disk == w.payee.mem
    ensures w.tower == Init(K, 100, 0).tower && w.chain == Init(K, 100, 0).chain.(open := w.chain.open)
    ensures w.chain.open == Some(PayChan(10, 20, 7, 100, 0, 40, Some(40)))
  {
    run, w := PayFive();
    PayerRequests(w.chain);
    run, w := Then(run, w, ByChain(PayerCloses));
  }

  /** Forty seconds later the channel has expired. */
  lemma Expires() returns (run: seq<Event>, w: World)
    ensures Reaches(run, w) && w.payee.lock == Unlocked && w.payee.redeemer == RIdle
    ensures w.payee.mem == Some(Record(5, 1, None, 0)) && w.payee.disk == w.payee.mem
    ensures w.chain == Init(K, 100, 0).chain.(open := w.chain.open, valid := w.chain.open, now := 40, lastClose := 40)
    ensures w.chain.open == Some(PayChan(10, 20, 7, 100, 0, 40, Some(40)))
  {
    run, w := ClosesUnwatched();
    run, w := TenPass(run, w);
    run, w := TenPass(run, w);
    run, w := TenPass(run, w);
    run, w := TenPass(run, w);
  }

  /** The payee submits a redeem too late, and somebody else sends it a drop meanwhile. */
  lemma RedeemsTooLate() returns (run: seq<Event>, w: World)
    ensures Reaches(run, w) && w.payee.lock == Unlocked && w.payee.redeemer == RSent(0, 0, 0)
    ensures w.payee.mem == Some(Record(5, 1, None, 0)) && w.payee.disk == w.payee.mem
    ensures w.chain == Init(K, 100, 0).chain.(open := w.chain.open, valid := w.chain.open, now := 40, lastClose := 40,
                                              txs := w.chain.txs, nextTx := 1, credits := 1)
    ensures 0 in w.chain.txs && w.chain.txs[0] == Redeem(1, 5, Some(Sig(7, 1, 5)), 7, false)
    ensures w.chain.open == Some(PayChan(10, 20, 7, 100, 0, 40, Some(40)))
  {
    run, w := Expires();
    run, w := Then(run, w, ByRedeemer(RedeemStart(false)));
    run, w := Then(run, w, ByRedeemer(ReadBefore));
    run, w := Then(run, w, ByRedeemer(SubmitRedeem));
    run, w := Then(run, w, ByChain(OtherCredit(1)));
  }

  /** The transaction deletes the expired channel and pays nothing, and it succeeds. */
  lemma AppliedTooLate() returns (run: seq<Event>, w: World)
    ensures Reaches(run, w) && w.payee.lock == Unlocked && w.payee.redeemer == RSent(0, 0, 0)
    ensures w.payee.mem == Some(Record(5, 1, None, 0)) && w.payee.disk == w.payee.mem
    ensures w.chain.open == None && w.chain.blobs == {} && w.chain.paid == 0
    ensures w.chain.credits == 1 && w.chain.debits == 1
    ensures 0 in w.chain.res && w.chain.res[0] == Outcome(TesSuccess, 0)
    ensures 0 in w.chain.txs && w.chain.txs[0].amount == 5
  {
    run, w := RedeemsTooLate();
    assert Apply(1, w.chain.open, 40, RedeemTx(20, w.chain.txs[0])) == Effect(None, TesSuccess, 0, 100);
    run, w := Then(run, w, ByChain(ApplyRedeem(0)));
  }

  lemma RedeemSucceeds() returns (run: seq<Event>, w: World)
    ensures Reaches(run, w) && w.payee.lock == Unlocked && w.payee.redeemer == RSent(0, 0, 0)
    ensures w.payee.mem == Some(Record(5, 1, None, 0))
    ensures w.chain.paid == 0 && w.chain.valid == None && w.chain.vcredits == 1 && w.chain.vdebits == 1
    ensures 0 in w.chain.vres && w.chain.vres[0] == Outcome(TesSuccess, 0)
    ensures 0 in w.chain.txs && w.chain.txs[0].amount == 5
  {
    run, w := AppliedTooLate();
    run, w := Then(run, w, ByChain(CloseLedger));
  }

  lemma BalanceRead() returns (run: seq<Event>, w: World)
    ensures Reaches(run, w) && w.payee.lock == Unlocked && w.payee.redeemer == RAfter(0, 0, 0, 1, 1)
    ensures w.payee.mem == Some(Record(5, 1, None, 0))
    ensures w.chain.paid == 0 && w.chain.valid == None && 0 in w.chain.txs && w.chain.txs[0].amount == 5
  {
    run, w := RedeemSucceeds();
    run, w := Then(run, w, ByRedeemer(ReadAfter));
  }

  lemma RecordPaidStep(k: Params, w: World, inn: Incoming)
    requires w.payee.lock == Unlocked && w.payee.redeemer.RAfter? && w.payee.mem == Some(inn)
    requires w.chain.valid == None && w.payee.redeemer.id in w.chain.txs && PaidBetween(k, w.payee.redeemer) > 0
    ensures var redeemed := Max(inn.redeemed, w.chain.txs[w.payee.redeemer.id].amount);
            var inn' := Some(inn.(redeemed := redeemed, closed := true));
            Step(k, w, ByRedeemer(RecordPaid(true)))
            == Some(w.(payee := w.payee.(mem := inn', disk := inn', redeemer := RIdle)))
  {
  }

  lemma RecordsAmount(k: Params, start: World, run0: seq<Event>, w0: World, inn: Incoming)
    returns (run: seq<Event>, w: World)
    requires Exec(k, start, run0) == Some(w0) && w0.payee.lock == Unlocked && w0.payee.redeemer.RAfter?
    requires w0.payee.mem == Some(inn) && w0.chain.valid == None
    requires w0.payee.redeemer.id in w0.chain.txs && PaidBetween(k, w0.payee.redeemer) > 0
    ensures Exec(k, start, run) == Some(w) && w.chain == w0.chain && w.payee.disk.Some?
    ensures w.payee.disk.value.redeemed == Max(inn.redeemed, w0.chain.txs[w0.payee.redeemer.id].amount)
  {
    RecordPaidStep(k, w0, inn);
    run, w := OneMoreStep(k, start, run0, w0, ByRedeemer(RecordPaid(true)));
  }

  /** It records 5 as redeemed although nothing was paid. */
  lemma OverRecordHappens() returns (run: seq<Event>, w: World)
    ensures Reaches(run, w) && w.chain.paid == 0
    ensures w.payee.disk.Some? && w.payee.disk.value.redeemed == 5
  {
    run, w := BalanceRead();
    run, w := RecordsAmount(K, Init(K, 100, 0), run, w, Record(5, 1, None, 0));
  }
}
