/** What each critical section of `xrppay.Tower` does to the record of one channel. */
module XrpTowerSpec {
  import opened Options
  import opened XrpTypes
  import opened PayChanLedger

  /** The record of one channel in the state file of the tower. */
  datatype Held = Held(blob: Blob, submitted: bool, done: bool, result: Option<Ter>)

  /** `on_message` for a claim: the record after it, and the amount that the tower
      answers it holds. */
  function Hold(rec: Option<Held>, b: Blob): (Option<Held>, int) {
    if rec.Some? && rec.value.blob.amount >= b.amount && !rec.value.done then (rec, rec.value.blob.amount)
    else (Some(Held(b, false, false, None)), b.amount)
  }

  /** `loop`: whether the tower submits, given the record it copied and the entry it read. */
  predicate MustSubmit(snap: Held, entry: PayChan) {
    entry.expiration.Some? && snap.blob.amount > entry.balance && !snap.submitted
  }

  /** `submit_blob`, first section: mark the current record and take its blob. */
  function MarkSubmitted(rec: Held): Held {
    rec.(submitted := true)
  }

  /** `submit_blob`, last section: the result goes into whatever record is there now. */
  function RecordResult(rec: Held, ter: Ter): Held {
    rec.(result := Some(ter), done := ter == TesSuccess)
  }

  /** What the tower answers to a status request, as far as the watcher uses it. */
  function Reported(rec: Option<Held>): Option<int> {
    if rec.Some? && rec.value.result == Some(TesSuccess) then Some(rec.value.blob.amount) else None
  }

  /** A tower that is not done with a channel keeps the larger claim, and it answers
      with an amount that it really holds. Only a larger claim, or one for a channel that
      it is done with, makes a new record. */
  lemma HoldKeepsLargest(rec: Option<Held>, b: Blob)
    ensures var (rec', answer) := Hold(rec, b);
            && rec'.Some? && answer == rec'.value.blob.amount && answer >= b.amount
            && (rec.Some? && !rec.value.done ==> answer == Max(rec.value.blob.amount, b.amount))
            && rec' == (if rec.Some? && !rec.value.done && b.amount <= rec.value.blob.amount then rec
                        else Some(Held(b, false, false, None)))
  {
  }

  /** When the report of the tower is true. The blob `b` was submitted and answered
      tesSUCCESS, and `rec` is the record in place when the result arrives. Records
      only grow, so `rec` holds at least `b`. The amount reported to the payee is
      covered by what the ledger paid if and only if the blob landed before the
      expiration and the record was not replaced by a larger claim, or the ledger
      had paid that much already. */
  lemma ReportTrueExactly(id: ChanId, c: PayChan, parentClose: int, b: Blob, rec: Held)
    requires GoodChan(c) && b.channel == id && b.pub == c.pub && b.sig == Sig(c.pub, id, b.amount)
    requires rec.blob.amount >= b.amount
    requires Apply(id, Some(c), parentClose, BlobTx(c.destination, b)).ter == TesSuccess
    ensures var e := Apply(id, Some(c), parentClose, BlobTx(c.destination, b));
            var reported := Reported(Some(RecordResult(rec, e.ter)));
            && reported.Some?
            && (reported.value <= c.balance + e.credit <==>
                if Expired(c, parentClose) then rec.blob.amount <= c.balance else rec.blob.amount == b.amount)
  {
  }
}
