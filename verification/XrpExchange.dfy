/** A payment from beginning to end: whatever was lost, rolled back or crashed before, the
    next payment within the funding can go through, and then both ends agree on it. */
module XrpExchange {
  import opened Options
  import opened XrpTypes
  import opened XrpNodeSpec
  import opened XrpWorld
  import opened XrpSafety
  import opened XrpRuns
  import opened XrpPayments
  import opened XrpProgress

  /** The payer signs, saves and sends. */
  lemma PayerSends(k: Params, w0: World, drops: int) returns (run: seq<Event>, w: World)
    requires w0.payer.pc == PIdle && drops > 0 && w0.payer.mem.signed + drops <= w0.payer.mem.funded
    requires w0.payer.mem.channel == k.channel
    ensures Exec(k, w0, run) == Some(w) && run == [ByPayer(Sign(drops)), ByPayer(SavePay), ByPayer(SendPay)]
    ensures var total := w0.payer.mem.signed + drops;
            && w.payer.pc == PWait(w0.payer.mem, w0.link.next) && w.payer.mem.signed == total
            && w.link.next == w0.link.next + 1 && w.link.replies == w0.link.replies && w.link.acked == w0.link.acked
            && w0.link.next in w.link.claims
            && w.link.claims[w0.link.next] == Claim(k.channel, total, Sig(k.key, k.channel, total))
            && w.payee == w0.payee && w.chain == w0.chain
  {
    run, w := [], w0;
    run, w := OneMoreStep(k, w0, run, w, ByPayer(Sign(drops)));
    run, w := OneMoreStep(k, w0, run, w, ByPayer(SavePay));
    run, w := OneMoreStep(k, w0, run, w, ByPayer(SendPay));
  }

  /** The payee takes the claim, saves, notifies and acknowledges it. */
  lemma PayeeTakes(k: Params, w0: World, conn: nat) returns (run: seq<Event>, w: World)
    requires conn in w0.link.claims && w0.payee.lock == Unlocked && w0.payee.mem.Some?
    requires var inn := w0.payee.mem.value;
             var m := w0.link.claims[conn];
             && m.channel == inn.channel && inn.best < m.amount <= inn.funded
             && m.sig == Sig(inn.payerPub, inn.channel, m.amount)
    ensures Exec(k, w0, run) == Some(w) && w.payer == w0.payer
    ensures run == [ByPayee(Deliver(conn)), ByPayee(SaveClaim), ByPayee(Notify(conn)), ByPayee(Acknowledge(conn))]
    ensures w.payee.mem.Some? && w.payee.disk == w.payee.mem && w.payee.mem.value.best == w0.link.claims[conn].amount
    ensures conn in w.link.replies && w.link.replies[conn] && w0.link.claims[conn].amount in w.link.acked
  {
    run, w := [], w0;
    run, w := OneMoreStep(k, w0, run, w, ByPayee(Deliver(conn)));
    run, w := OneMoreStep(k, w0, run, w, ByPayee(SaveClaim));
    run, w := OneMoreStep(k, w0, run, w, ByPayee(Notify(conn)));
    run, w := OneMoreStep(k, w0, run, w, ByPayee(Acknowledge(conn)));
  }

  /** After any run with losses, rollbacks and crashes: if the payer is idle, the payee has
      opened the channel and no handler holds its lock, then every positive payment
      within the funding can be made. Both counters rise to the old one of the payer and
      the amount, on the payee's disk too, and the payer learns of it. */
  lemma PaymentGoesThrough(k: Params, amount: int, t0: int, before: seq<Event>, w0: World, drops: int)
    returns (run: seq<Event>, w: World)
    requires GoodParams(k) && amount >= 0 && OwnClaimsOnly(before) && Exec(k, Init(k, amount, t0), before) == Some(w0)
    requires w0.payer.pc == PIdle && w0.payee.mem.Some? && w0.payee.lock == Unlocked
    requires drops > 0 && w0.payer.mem.signed + drops <= amount
    ensures Exec(k, w0, run) == Some(w) && forall e | e in run :: e.ByPayer? || e.ByPayee?
    ensures var total := w0.payer.mem.signed + drops;
            && w.payer.pc == PIdle && w.payer.mem.signed == total && total in w.link.acked
            && w.payee.mem.Some? && w.payee.mem.value.best == total && w.payee.disk == w.payee.mem
  {
    InStepReached(k, amount, t0, before);
    var r1, w1 := PayerSends(k, w0, drops);
    var r2, w2 := PayeeTakes(k, w1, w0.link.next);
    run, w := r1 + r2, w2;
    ExecAppend(k, w0, r1, r2);
    run, w := OneMoreStep(k, w0, run, w, ByPayer(PayAccepted));
  }

  lemma InStepReached(k: Params, amount: int, t0: int, run: seq<Event>)
    requires GoodParams(k) && amount >= 0 && OwnClaimsOnly(run) && Exec(k, Init(k, amount, t0), run).Some?
    ensures var w := Exec(k, Init(k, amount, t0), run).value;
            && w.payer.mem.channel == k.channel && w.payer.mem.funded == amount
            && (w.payer.pc == PIdle ==> Best(w.payee.mem) <= w.payer.mem.signed)
            && (w.payee.mem.Some? ==>
                  GoodRecord(w.payee.mem.value, k.channel, k.key) && amount <= w.payee.mem.value.funded)
  {
    var w0 := Init(k, amount, t0);
    InitSafe(k, amount, t0);
    InitInStep(k, amount, t0);
    RunSafe(k, w0, run);
    RunInStep(k, w0, run, amount);
  }
}
