/** `xrppay.Tower`: one method per critical section, proved against XrpTowerSpec. */
module XrpTower {
  import opened Options
  import opened XrpTypes
  import opened PayChanLedger
  import opened XrpTowerSpec
  import File = StateFile

  type Channels = map<ChanId, Held>

  function Record(chans: Channels, channel: ChanId): Option<Held> {
    if channel in chans then Some(chans[channel]) else None
  }

  class Tower {
    const state: File.State<Channels>

    ghost predicate Valid()
      reads this, state
    {
      state.Valid()
    }

    constructor (state: File.State<Channels>)
      requires state.Valid()
      ensures Valid() && this.state == state
    {
      this.state := state;
    }

    /** `on_message` for a claim. A new record is on disk before the answer leaves; the
        other channels keep theirs. */
    method OnClaimMessage(b: Blob) returns (amount: int)
      requires Valid()
      modifies state`d, state`disk, state`performed
      ensures Valid()
      ensures var (rec, answer) := Hold(Record(old(state.d), b.channel), b);
              && rec.Some? && amount == answer
              && state.d == old(state.d)[b.channel := rec.value]
              && (rec == Record(old(state.d), b.channel) || state.OnDisk(state.d))
    {
      if b.channel in state.d {
        var rec := state.d[b.channel];
        if rec.blob.amount >= b.amount && !rec.done {
          return rec.blob.amount;
        }
      }
      state.d := state.d[b.channel := Held(b, false, false, None)];
      state.Save();
      amount := b.amount;
    }

    /** `on_message` for a status request, as far as the watcher reads the answer. */
    method OnStatusMessage(channel: ChanId) returns (reported: Option<int>)
      ensures reported == Reported(Record(state.d, channel))
    {
      if channel !in state.d {
        return None;
      }
      var rec := state.d[channel];
      if rec.result != Some(TesSuccess) {
        return None;
      }
      reported := Some(rec.blob.amount);
    }

    /** `submit_blob`, first section: it takes the blob of the record that is there now,
        which may be newer than the copy on which `loop` decided. */
    method TakeForSubmission(channel: ChanId) returns (b: Blob)
      requires Valid() && channel in state.d
      modifies state`d, state`disk, state`performed
      ensures Valid() && state.OnDisk(state.d)
      ensures b == old(state.d)[channel].blob
      ensures state.d == old(state.d)[channel := MarkSubmitted(old(state.d)[channel])]
    {
      var rec := state.d[channel];
      b := rec.blob;
      state.d := state.d[channel := rec.(submitted := true)];
      state.Save();
    }

    /** `submit_blob`, last section: it looks the record up again. */
    method StoreResult(channel: ChanId, ter: Ter)
      requires Valid() && channel in state.d
      modifies state`d, state`disk, state`performed
      ensures Valid() && state.OnDisk(state.d)
      ensures state.d == old(state.d)[channel := RecordResult(old(state.d)[channel], ter)]
    {
      var rec := state.d[channel];
      rec := rec.(result := Some(ter));
      rec := rec.(done := ter == TesSuccess);
      state.d := state.d[channel := rec];
      state.Save();
    }

    /** `loop` for a channel that is gone from the ledger. */
    method MarkGone(channel: ChanId)
      requires Valid() && channel in state.d
      modifies state`d, state`disk, state`performed
      ensures Valid() && state.OnDisk(state.d)
      ensures state.d == old(state.d)[channel := old(state.d)[channel].(done := true)]
    {
      state.d := state.d[channel := state.d[channel].(done := true)];
      state.Save();
    }
  }
}
