/** The payment channel of the XRP Ledger, as far as the repository relies on it:
    one channel object and the transaction `PaymentChannelClaim`. The rules are
    those of that transaction type; the summary of the repository is
    xrp-mvp/README.md:25-41. */
module PayChanLedger {
  import opened Options
  import opened XrpTypes

  datatype PayChan = PayChan(
    account: Account, destination: Account, pub: Key,
    amount: int, balance: int, settle: int, expiration: Option<int>)

  /** Result codes; TefMaxLedger stands for a transaction that was never applied. */
  datatype Ter = TesSuccess | TecNoTarget | TecNoPermission | TecUnfunded | TemBadSigner | TefMaxLedger

  datatype ClaimPart = ClaimPart(amount: int, sig: Option<Sig>, pub: Key)

  datatype ClaimTx = ClaimTx(sender: Account, part: Option<ClaimPart>, close: bool)

  /** The effect of one transaction: the channel it leaves, its result code, the
      drops it pays to the destination and the drops it returns to the source. */
  datatype Effect = Effect(chan: Option<PayChan>, ter: Ter, credit: int, refund: int)

  function Rejected(chan: Option<PayChan>, ter: Ter): Effect {
    Effect(chan, ter, 0, 0)
  }

  predicate Expired(c: PayChan, parentClose: int) {
    c.expiration.Some? && c.expiration.value <= parentClose
  }

  function BlobTx(payee: Account, b: Blob): ClaimTx {
    ClaimTx(payee, Some(ClaimPart(b.amount, Some(b.sig), b.pub)), true)
  }

  /** `_redeem` adds the claim only if the amount is positive and signed. */
  function RedeemTx(payee: Account, r: Redeem): ClaimTx {
    ClaimTx(payee,
            if r.amount > 0 && r.sig.Some? then Some(ClaimPart(r.amount, r.sig, r.pub)) else None,
            r.close)
  }

  function PayerCloseTx(payer: Account): ClaimTx {
    ClaimTx(payer, None, true)
  }

  function PayPart(id: ChanId, c: PayChan, sender: Account, part: ClaimPart): (Ter, PayChan) {
    if sender == c.destination && part.sig.None? then (TemBadSigner, c)
    else if part.sig.Some? && (part.pub != c.pub || !Verifies(part.sig.value, c.pub, id, part.amount)) then
      (TemBadSigner, c)
    else if part.amount > c.amount || part.amount <= c.balance then (TecUnfunded, c)
    else (TesSuccess, c.(balance := part.amount))
  }

  /** Applies a claim transaction to the channel `id`. `parentClose` is the close
      time of the ledger before the one that the transaction goes into. */
  function Apply(id: ChanId, chan: Option<PayChan>, parentClose: int, tx: ClaimTx): (e: Effect)
  {
    match chan
    case None => Rejected(None, TecNoTarget)
    case Some(c) =>
      if Expired(c, parentClose) then Effect(None, TesSuccess, 0, c.amount - c.balance)
      else if tx.sender != c.account && tx.sender != c.destination then Rejected(chan, TecNoPermission)
      else
        var (ter, paid) := if tx.part.Some? then PayPart(id, c, tx.sender, tx.part.value) else (TesSuccess, c);
        if ter != TesSuccess then Rejected(chan, ter)
        else
          var credit := paid.balance - c.balance;
          if !tx.close then Effect(Some(paid), TesSuccess, credit, 0)
          else if tx.sender == c.destination || paid.balance == paid.amount then
            Effect(None, TesSuccess, credit, paid.amount - paid.balance)
          else
            var settled := parentClose + c.settle;
            var exp := if c.expiration.Some? && c.expiration.value <= settled then c.expiration else Some(settled);
            Effect(Some(paid.(expiration := exp)), TesSuccess, credit, 0)
  }

  function Locked(chan: Option<PayChan>): int {
    if chan.Some? then chan.value.amount - chan.value.balance else 0
  }

  predicate GoodChan(c: PayChan) {
    0 <= c.balance <= c.amount && c.account != c.destination
  }

  /** No drop appears or disappears: what leaves the channel is paid to the payee
      or returned to the payer, whatever the transaction is. */
  lemma ApplyConserves(id: ChanId, chan: Option<PayChan>, parentClose: int, tx: ClaimTx)
    requires chan.Some? ==> GoodChan(chan.value)
    ensures var e := Apply(id, chan, parentClose, tx);
            && e.credit >= 0 && e.refund >= 0
            && Locked(chan) == e.credit + e.refund + Locked(e.chan)
            && (e.chan.Some? ==> GoodChan(e.chan.value) && chan.Some?)
            && (e.credit > 0 ==> tx.part.Some? && chan.value.balance + e.credit == tx.part.value.amount)
            && (e.ter != TesSuccess ==> e.chan == chan && e.credit == 0 && e.refund == 0)
  {
  }

  /** The whole fate of a claim transaction of the payee that carries a claim
      which the payer signed: it pays exactly the missing part, unless the channel
      is gone, has expired, was paid at least as much before, or holds too little. */
  lemma PayeeClaimFate(id: ChanId, chan: Option<PayChan>, parentClose: int, tx: ClaimTx)
    requires chan.Some? ==> GoodChan(chan.value) && tx.sender == chan.value.destination
    requires tx.part.Some?
    requires chan.Some? ==>
               var p := tx.part.value;
               p.pub == chan.value.pub && p.sig == Some(Sig(p.pub, id, p.amount))
    ensures var e := Apply(id, chan, parentClose, tx);
            var a := tx.part.value.amount;
            match chan
            case None => e == Rejected(None, TecNoTarget)
            case Some(c) =>
              if Expired(c, parentClose) then e == Effect(None, TesSuccess, 0, c.amount - c.balance)
              else if a <= c.balance || a > c.amount then e == Rejected(chan, TecUnfunded)
              else
                && e.ter == TesSuccess && e.credit == a - c.balance
                && (tx.close ==> e.chan == None && e.refund == c.amount - a)
                && (!tx.close ==> e.chan == Some(c.(balance := a)) && e.refund == 0)
  {
  }

  /** A claim that the owner of the channel's key did not sign over this very channel and
      amount pays nothing and changes nothing. */
  lemma ForgedClaimFails(id: ChanId, c: PayChan, parentClose: int, tx: ClaimTx)
    requires GoodChan(c) && !Expired(c, parentClose) && tx.sender == c.destination && tx.part.Some?
    requires tx.part.value.pub != c.pub || tx.part.value.sig != Some(Sig(c.pub, id, tx.part.value.amount))
    ensures Apply(id, Some(c), parentClose, tx) == Rejected(Some(c), TemBadSigner)
  {
  }

  /** Nobody but the two parties moves a channel before it expires. */
  lemma StrangerFails(id: ChanId, c: PayChan, parentClose: int, tx: ClaimTx)
    requires !Expired(c, parentClose) && tx.sender != c.account && tx.sender != c.destination
    ensures Apply(id, Some(c), parentClose, tx) == Rejected(Some(c), TecNoPermission)
  {
  }

  /** Whatever is applied to an expired channel deletes it and pays nothing. */
  lemma ExpiredPaysNothing(id: ChanId, c: PayChan, parentClose: int, tx: ClaimTx)
    requires Expired(c, parentClose)
    ensures Apply(id, Some(c), parentClose, tx) == Effect(None, TesSuccess, 0, c.amount - c.balance)
  {
  }

  /** A close by the payer deletes a channel that is paid out or expired, otherwise
      it only schedules the deletion, and it never postpones one. */
  lemma PayerCloseFate(id: ChanId, c: PayChan, parentClose: int)
    requires GoodChan(c) && c.settle >= 0
    ensures var e := Apply(id, Some(c), parentClose, PayerCloseTx(c.account));
            && e.ter == TesSuccess && e.credit == 0
            && (e.chan == None <==> Expired(c, parentClose) || c.balance == c.amount)
            && (e.chan.Some? ==>
                  && e.chan.value == c.(expiration := e.chan.value.expiration)
                  && e.chan.value.expiration.Some?
                  && e.chan.value.expiration.value <= parentClose + c.settle
                  && (c.expiration.Some? ==> e.chan.value.expiration.value <= c.expiration.value)
                  && e.chan.value.expiration in {c.expiration, Some(parentClose + c.settle)})
  {
  }
}
