/** The ledger as one node sees it over RPC: the validated channel entry and the close
    time of the last validated ledger. How fast the ledger clock runs, and what others
    do to the channel meanwhile, is open. */
module LedgerPort {
  import opened Options
  import opened XrpTypes
  import opened PayChanLedger

  /** What happens to the channel while a node sleeps: it may vanish, be redeemed up to
      some balance, or get more funding. */
  datatype News = News(vanishes: bool, redeemed: int, funded: nat)

  /** The channel after some of it was redeemed and some funding was added. */
  predicate Later(c: PayChan, c': PayChan) {
    c' == c.(balance := c'.balance, amount := c'.amount) && c.balance <= c'.balance && c.amount <= c'.amount
  }

  class Port {
    const channel: ChanId
    const pace: nat -> int
    const news: nat -> News
    var chan: Option<PayChan>
    var closeTime: int
    var turn: nat

    ghost predicate Valid()
      reads this
    {
      && (forall n :: pace(n) > 0)
      && (chan.Some? ==> GoodChan(chan.value) && 0 <= chan.value.settle)
    }

    constructor (channel: ChanId, chan: Option<PayChan>, closeTime: int, pace: nat -> int, news: nat -> News)
      requires forall n :: pace(n) > 0
      requires chan.Some? ==> GoodChan(chan.value) && 0 <= chan.value.settle
      ensures Valid() && this.chan == chan && this.closeTime == closeTime && this.channel == channel
    {
      this.channel := channel;
      this.chan := chan;
      this.closeTime := closeTime;
      this.pace := pace;
      this.news := news;
      this.turn := 0;
    }

    /** Some time passes: later ledgers are validated. The channel may be gone, and what
        is there may have been redeemed in part or in full, or have more funding. */
    method Sleep()
      requires Valid()
      modifies this`chan, this`closeTime, this`turn
      ensures Valid() && closeTime > old(closeTime)
      ensures chan.Some? ==> old(chan).Some? && Later(old(chan.value), chan.value)
    {
      closeTime := closeTime + pace(turn);
      var n := news(turn);
      if n.vanishes {
        chan := None;
      } else if chan.Some? {
        var amount := chan.value.amount + n.funded;
        var balance := if chan.value.balance < n.redeemed <= amount then n.redeemed else chan.value.balance;
        chan := Some(chan.value.(amount := amount, balance := balance));
      }
      turn := turn + 1;
    }

    /** `submit`: the transaction goes into a ledger whose parent is the validated one
        or a later one, and the call returns when that ledger is validated. Somebody
        else may have deleted the channel before (`raced`). */
    method Submit(tx: ClaimTx, delay: nat, raced: bool) returns (ter: Ter)
      requires Valid()
      modifies this`chan, this`closeTime
      ensures Valid() && closeTime > old(closeTime) + delay
      ensures var e := Apply(channel, if raced then None else old(chan), old(closeTime) + delay, tx);
              chan == e.chan && ter == e.ter
    {
      if raced {
        chan := None;
      }
      ApplyConserves(channel, chan, closeTime + delay, tx);
      var e := Apply(channel, chan, closeTime + delay, tx);
      chan := e.chan;
      closeTime := closeTime + delay + pace(turn);
      ter := e.ter;
    }
  }
}
