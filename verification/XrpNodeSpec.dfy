/** What each critical section of `xrppay.Node` does to the records in the state
    file. The class in XrpNode is proved against these functions, and the step
    system in XrpWorld interleaves them. */
module XrpNodeSpec {
  import opened Options
  import opened XrpTypes
  import opened PayChanLedger

  /** `on_chan_open`: the ledger entry decides, and the claim starts from zero. */
  function ChanOpen(entry: Option<PayChan>, channel: ChanId, me: Account, peer: Account): (Option<Incoming>, Reply) {
    if entry.None? then (None, Err(NotOnLedger))
    else if entry.value.destination != me || entry.value.account != peer then (None, Err(PartiesMismatch))
    else
      (Some(Incoming(channel, entry.value.pub, entry.value.amount, 0, None, 0, 0, false, None, 0)), Ok(0, 0))
  }

  /** `on_claim`: the record after the handler has left its critical section, and its reply. */
  function OnClaim(inn: Option<Incoming>, m: Claim): (Option<Incoming>, Reply) {
    match inn
    case None => (None, Err(NoIncomingChannel))
    case Some(r) =>
      if m.channel != r.channel then (inn, Err(UnknownChannel))
      else if m.amount <= r.best then (inn, Err(Stale))
      else if m.amount > r.funded then (inn, Err(ExceedsFunding))
      else if !Verifies(m.sig, r.payerPub, r.channel, m.amount) then (inn, Err(BadSignature))
      else
        (Some(r.(best := m.amount, bestSig := Some(m.sig), version := r.version + 1)), Ok(m.amount, r.version + 1))
  }

  /** The record after several claims. */
  function OnClaims(inn: Option<Incoming>, ms: seq<Claim>): Option<Incoming>
    decreases |ms|
  {
    if ms == [] then inn else OnClaim(OnClaims(inn, ms[..|ms| - 1]), ms[|ms| - 1]).0
  }

  /** `tower_push` up to the network: nothing if the tower holds the newest claim. */
  function PushRead(r: Incoming, ticket: nat): Option<Blob> {
    if r.best <= r.towerDrops || r.bestSig.None? then None
    else Some(Blob(r.channel, r.best, r.bestSig.value, r.payerPub, ticket))
  }

  /** `tower_push` after the tower has answered. */
  function PushRecord(r: Incoming, amount: int): Incoming {
    r.(towerDrops := Max(r.towerDrops, amount))
  }

  /** `_redeem` up to the first balance read; None stands for "nothing new to redeem". */
  function RedeemRead(r: Incoming, close: bool): Option<Redeem> {
    if r.best <= r.redeemed && !close then None
    else Some(Redeem(r.channel, r.best, r.bestSig, r.payerPub, close))
  }

  /** `_redeem` after the second balance read. */
  function RedeemRecord(r: Incoming, amount: int, paid: int, gone: bool): Incoming {
    r.(redeemed := if paid > 0 then Max(r.redeemed, amount) else r.redeemed, closed := r.closed || gone)
  }

  /** `watcher` once the channel entry is gone; `reported` is the amount of the
      tower's record if the tower reports tesSUCCESS. */
  function WatchGone(r: Incoming, reported: Option<int>): Incoming {
    r.(closed := true, redeemed := if reported.Some? then Max(r.redeemed, reported.value) else r.redeemed)
  }

  /** `cmd_pay` up to the network: the payer signs the next cumulative amount.
      None stands for "insufficient channel funds". */
  function PaySign(o: Outgoing, key: Key, drops: int, force: bool): Option<Outgoing> {
    var total := o.signed + drops;
    if total > o.funded && !force then None
    else Some(o.(signed := total, version := o.version + 1, lastSig := Some(Sig(key, o.channel, total))))
  }

  function PayClaim(o: Outgoing, key: Key): Claim {
    Claim(o.channel, o.signed, Sig(key, o.channel, o.signed))
  }

  /** `cmd_pay` after the payee has rejected the claim. */
  function PayRollback(o: Outgoing, prev: Outgoing): Outgoing {
    o.(signed := prev.signed, version := prev.version, lastSig := prev.lastSig)
  }

  // ---- facts about one section ----

  /** What holds of an incoming record whatever the peer sends. */
  predicate GoodRecord(r: Incoming, channel: ChanId, pub: Key) {
    && r.channel == channel && r.payerPub == pub
    && 0 <= r.towerDrops <= r.best <= r.funded
    && (r.best > 0 ==> r.bestSig == Some(Sig(pub, channel, r.best)))
  }

  /** A claim is accepted exactly if it is for this channel, grows, stays within
      the funding and carries the signature of the payer over this very amount; a
      rejected claim changes nothing, and an accepted one keeps the record good. */
  lemma ClaimAcceptedExactly(r: Incoming, m: Claim)
    requires GoodRecord(r, r.channel, r.payerPub)
    ensures var (r', reply) := OnClaim(Some(r), m);
            && r'.Some? && GoodRecord(r'.value, r.channel, r.payerPub)
            && (reply.Ok? <==> m.channel == r.channel && r.best < m.amount <= r.funded
                               && m.sig == Sig(r.payerPub, r.channel, m.amount))
            && (!reply.Ok? ==> r' == Some(r))
            && (reply.Ok? ==> r'.value.best == m.amount > r.best && r'.value.bestSig == Some(m.sig)
                              && r'.value.funded == r.funded && r'.value.redeemed == r.redeemed
                              && r'.value.towerDrops == r.towerDrops && r'.value.ticket == r.ticket)
  {
  }

  /** An opening is accepted exactly if the channel is on the ledger, pays this node and
      comes from the peer. The record then trusts the ledger, not the message: its key
      and its funding are those of the entry, and nothing is claimed or redeemed yet. */
  lemma OpenAcceptedExactly(entry: Option<PayChan>, channel: ChanId, me: Account, peer: Account)
    ensures var (r, reply) := ChanOpen(entry, channel, me, peer);
            && (reply.Ok? <==> entry.Some? && entry.value.destination == me && entry.value.account == peer)
            && (entry.None? ==> reply == Err(NotOnLedger))
            && (entry.Some? && !reply.Ok? ==> reply == Err(PartiesMismatch))
            && (r.Some? <==> reply.Ok?)
            && (reply.Ok? ==>
                  && r.value.channel == channel && r.value.payerPub == entry.value.pub
                  && r.value.funded == entry.value.amount && r.value.best == 0 && r.value.redeemed == 0
                  && !r.value.closed && r.value.ticket == None && r.value.towerDrops == 0)
  {
  }

  /** A payment is signed exactly if it is forced or within the funding. It raises the
      counter by its amount, and the claim that leaves is one that the payee can verify
      over exactly that total. */
  lemma PaymentSignedExactly(o: Outgoing, key: Key, drops: int, force: bool)
    ensures var o' := PaySign(o, key, drops, force);
            && (o'.Some? <==> force || o.signed + drops <= o.funded)
            && (o'.Some? ==>
                  && o'.value.signed == o.signed + drops && o'.value.version == o.version + 1
                  && o'.value.channel == o.channel && o'.value.funded == o.funded && o'.value.closed == o.closed
                  && var m := PayClaim(o'.value, key);
                  && m.channel == o.channel && m.amount == o.signed + drops
                  && Verifies(m.sig, key, o.channel, o.signed + drops)
                  && o'.value.lastSig == Some(m.sig))
  {
  }

  /** What a redeem is worth on a live channel of these parties. It is refused exactly if
      nothing is new and no close is asked for; otherwise it pays everything that the
      best claim is worth beyond the balance, and it deletes the channel exactly if a
      close is asked for. A close with a claim that is paid already fails. */
  lemma RedeemPaysExactly(r: Incoming, close: bool, c: PayChan, parentClose: int)
    requires GoodRecord(r, r.channel, c.pub) && GoodChan(c) && !Expired(c, parentClose) && r.best <= c.amount
    ensures RedeemRead(r, close) == None <==> r.best <= r.redeemed && !close
    ensures RedeemRead(r, close).Some? ==>
              var e := Apply(r.channel, Some(c), parentClose, RedeemTx(c.destination, RedeemRead(r, close).value));
              && (c.balance < r.best ==>
                    && e.ter == TesSuccess && e.credit == r.best - c.balance
                    && (close ==> e.chan == None && e.refund == c.amount - r.best)
                    && (!close ==> e.chan == Some(c.(balance := r.best)) && e.refund == 0))
              && (0 < r.best <= c.balance ==> e == Rejected(Some(c), TecUnfunded))
              && (r.best == 0 && close ==> e == Effect(None, TesSuccess, 0, c.amount - c.balance))
  {
  }

  /** What the tower gets: nothing exactly if it is known to hold the best claim or there
      is none, otherwise a blob that on a live channel pays all that the best claim is
      worth and closes the channel. What is known to be with the tower afterwards is the
      larger of the two amounts. */
  lemma PushedExactly(r: Incoming, ticket: nat, c: PayChan, parentClose: int, amount: int)
    requires GoodRecord(r, r.channel, c.pub) && GoodChan(c) && !Expired(c, parentClose)
    requires c.balance < r.best <= c.amount
    ensures PushRead(r, ticket) == None <==> r.best == r.towerDrops
    ensures PushRead(r, ticket).Some? ==>
              && PushRead(r, ticket).value.ticket == ticket && PushRead(r, ticket).value.amount == r.best
              && Apply(r.channel, Some(c), parentClose, BlobTx(c.destination, PushRead(r, ticket).value))
                 == Effect(None, TesSuccess, r.best - c.balance, c.amount - r.best)
    ensures var r' := PushRecord(r, amount);
            && r' == r.(towerDrops := r'.towerDrops)
            && r'.towerDrops == if amount > r.towerDrops then amount else r.towerDrops
  {
  }

  /** What the two sections that learn of a payment record: the larger claim, and that
      the channel is gone; nothing else changes. */
  lemma PaymentsRecordedExactly(r: Incoming, amount: int, paid: int, gone: bool, reported: Option<int>)
    ensures var r' := RedeemRecord(r, amount, paid, gone);
            && r' == r.(redeemed := r'.redeemed, closed := r'.closed)
            && (r'.closed <==> r.closed || gone)
            && r'.redeemed == (if paid > 0 && amount > r.redeemed then amount else r.redeemed)
    ensures var r' := WatchGone(r, reported);
            && r' == r.(redeemed := r'.redeemed, closed := true)
            && r'.redeemed == (if reported.Some? && reported.value > r.redeemed then reported.value else r.redeemed)
  {
  }

  /** A second `chan_open` for the same channel makes the payee forget its claim:
      the best claim survives if and only if there was none. */
  lemma SecondOpenForgets(r: Incoming, entry: PayChan, me: Account, peer: Account)
    requires GoodRecord(r, r.channel, r.payerPub)
    requires entry.destination == me && entry.account == peer
    ensures var (r', reply) := ChanOpen(Some(entry), r.channel, me, peer);
            reply.Ok? && r'.Some? && (r'.value.best >= r.best <==> r.best == 0)
  {
  }

  /** A payment that the payee rejects leaves no trace in the counters of the payer. */
  lemma RollbackUndoesSign(o: Outgoing, key: Key, drops: int, force: bool)
    requires PaySign(o, key, drops, force).Some?
    ensures PayRollback(PaySign(o, key, drops, force).value, o) == o
  {
  }

  /** Two overlapping payments break the counter. The payee, in step with the payer,
      accepts the second claim, and the rejection of the first arrives after that: the
      rollback leaves the counter below the claim of the payee, so that the next small
      payment is stale, unless both amounts are zero. */
  lemma OverlapLosesCounter(o: Outgoing, r: Incoming, key: Key, first: int, second: int)
    requires first >= 0 && second >= 0 && o.signed + first + second <= o.funded
    requires GoodRecord(r, o.channel, key) && r.best <= o.signed && o.funded <= r.funded
    ensures var o1 := PaySign(o, key, first, false);
            && o1.Some?
            && var o2 := PaySign(o1.value, key, second, false);
            && o2.Some?
            && var (r', reply) := OnClaim(Some(r), PayClaim(o2.value, key));
            && r'.Some? && (reply.Ok? <==> r.best < o.signed + first + second)
            && (r'.value.best <= PayRollback(o2.value, o).signed <==> first == 0 && second == 0)
  {
  }
}
