/** `xrppay.Node`: one method per critical section, and whole commands where the code
    makes no other thread matter. The network and the ledger enter as parameters or as
    a Port. Every method is proved against XrpNodeSpec; whether the state file holds the
    new state when the method returns is part of each contract. */
module XrpNode {
  import opened Options
  import opened XrpTypes
  import opened PayChanLedger
  import opened LedgerPort
  import File = StateFile
  import Spec = XrpNodeSpec

  datatype PushNext = Done | NeedsTicket | Ready(ticket: nat)

  datatype PayResult = NoOutgoing | Insufficient | Unreachable | Paid(total: int) | PayeeRejected

  datatype CloseResult = NothingToClose | SubmitFailed | AtOnce | AfterDelay(finals: nat) | FinalFailed

  class Node {
    const me: Account
    const peer: Account
    const key: Key
    const hasTower: bool
    const state: File.State<Doc>
    var queue: nat

    ghost predicate Valid()
      reads this, state
    {
      state.Valid()
    }

    constructor (me: Account, peer: Account, key: Key, hasTower: bool, state: File.State<Doc>)
      requires state.Valid()
      ensures Valid() && this.state == state && this.hasTower == hasTower
      ensures this.me == me && this.peer == peer && this.key == key
      ensures queue == if hasTower then 1 else 0
    {
      this.me, this.peer, this.key := me, peer, key;
      this.hasTower := hasTower;
      this.state := state;
      this.queue := if hasTower then 1 else 0;   // a restart hands the tower the newest claim again
    }

    method TowerNotify()
      modifies this`queue
      ensures queue == old(queue) + if hasTower then 1 else 0
    {
      if hasTower {
        queue := queue + 1;
      }
    }

    // ---- payee ----

    method OnChanOpen(entry: Option<PayChan>, channel: ChanId) returns (reply: Reply)
      requires Valid()
      modifies this`queue, state`d, state`disk, state`performed
      ensures Valid()
      ensures var (inn, r) := Spec.ChanOpen(entry, channel, me, peer);
              && reply == r
              && state.d == (if r.Ok? then old(state.d).(inn := inn) else old(state.d))
              && (if r.Ok? then state.OnDisk(state.d) else state.disk == old(state.disk))
              && queue == old(queue) + if r.Ok? && hasTower then 1 else 0
    {
      if entry.None? {
        return Err(NotOnLedger);
      }
      var node := entry.value;
      if node.destination != me || node.account != peer {
        return Err(PartiesMismatch);
      }
      state.d := state.d.(inn := Some(Incoming(channel, node.pub, node.amount, 0, None, 0, 0, false, None, 0)));
      state.Save();
      TowerNotify();
      reply := Ok(0, 0);
    }

    /** The critical section of `on_claim`: an accepted claim is on disk when it ends, and
        a rejected one changes neither memory nor disk. */
    method TakeClaim(m: Claim) returns (reply: Reply)
      requires Valid()
      modifies state`d, state`disk, state`performed
      ensures Valid()
      ensures var (inn, r) := Spec.OnClaim(old(state.d.inn), m);
              && reply == r && state.d == old(state.d).(inn := inn)
              && (if r.Ok? then state.OnDisk(state.d)
                  else state.d == old(state.d) && state.disk == old(state.disk))
    {
      if state.d.inn.None? {
        return Err(NoIncomingChannel);
      }
      var inn := state.d.inn.value;
      if m.channel != inn.channel {
        return Err(UnknownChannel);
      }
      if m.amount <= inn.best {
        return Err(Stale);
      }
      if m.amount > inn.funded {
        return Err(ExceedsFunding);
      }
      if !Verifies(m.sig, inn.payerPub, inn.channel, m.amount) {
        return Err(BadSignature);
      }
      inn := inn.(best := m.amount);
      inn := inn.(bestSig := Some(m.sig));
      inn := inn.(version := inn.version + 1);
      state.d := state.d.(inn := Some(inn));
      state.Save();
      reply := Ok(m.amount, inn.version);
    }

    /** The handler reads the version for its reply after it has released the lock, so
        that the claims which other handlers take meanwhile count. */
    method OnClaim(m: Claim, meanwhile: seq<Claim>) returns (reply: Reply)
      requires Valid()
      modifies this`queue, state`d, state`disk, state`performed
      ensures Valid() && queue >= old(queue)
      ensures var (inn, r) := Spec.OnClaim(old(state.d.inn), m);
              && reply.Ok? == r.Ok?
              && (!r.Ok? ==> reply == r && state.d == old(state.d) && state.disk == old(state.disk)
                             && queue == old(queue))
              && (r.Ok? ==>
                    && state.d == old(state.d).(inn := Spec.OnClaims(inn, meanwhile)) && state.OnDisk(state.d)
                    && state.d.inn.Some? && reply == Ok(m.amount, state.d.inn.value.version)
                    && (hasTower ==> queue > old(queue)))
    {
      reply := TakeClaim(m);
      if !reply.Ok? {
        return;
      }
      ghost var inn := state.d.inn;
      var i := 0;
      while i < |meanwhile|
        invariant 0 <= i <= |meanwhile| && Valid() && state.OnDisk(state.d) && queue >= old(queue)
        invariant state.d == old(state.d).(inn := Spec.OnClaims(inn, meanwhile[..i])) && state.d.inn.Some?
      {
        var other := TakeClaim(meanwhile[i]);
        if other.Ok? {
          TowerNotify();
        }
        assert meanwhile[..i + 1][..i] == meanwhile[..i];
        i := i + 1;
      }
      assert meanwhile[..|meanwhile|] == meanwhile;
      TowerNotify();
      reply := Ok(m.amount, state.d.inn.value.version);
    }

    /** The head of `tower_loop`: all queued notifications collapse into one push. */
    method TakeNotifications()
      requires queue > 0
      modifies this`queue
      ensures queue == 0
    {
      queue := queue - 1;
      while queue != 0
        decreases queue
      {
        queue := queue - 1;
      }
    }

    /** The first section of `tower_push`. */
    method PushCheck() returns (next: PushNext)
      ensures match state.d.inn
              case None => next == Done
              case Some(r) => (next == Done <==> r.closed)
                              && (next == NeedsTicket <==> !r.closed && r.ticket.None?)
                              && (next.Ready? ==> r.ticket == Some(next.ticket))
    {
      if state.d.inn.None? || state.d.inn.value.closed {
        return Done;
      }
      if state.d.inn.value.ticket.None? {
        return NeedsTicket;
      }
      next := Ready(state.d.inn.value.ticket.value);
    }

    method PushTicket(ticket: nat)
      requires Valid() && state.d.inn.Some?
      modifies state`d, state`disk, state`performed
      ensures Valid() && state.OnDisk(state.d)
      ensures state.d == old(state.d).(inn := Some(old(state.d.inn.value).(ticket := Some(ticket))))
    {
      state.d := state.d.(inn := Some(state.d.inn.value.(ticket := Some(ticket))));
      state.Save();
    }

    method PushRead(ticket: nat) returns (b: Option<Blob>)
      requires state.d.inn.Some?
      ensures b == Spec.PushRead(state.d.inn.value, ticket)
    {
      var inn := state.d.inn.value;
      if inn.best <= inn.towerDrops || inn.bestSig.None? {
        return None;
      }
      b := Some(Blob(inn.channel, inn.best, inn.bestSig.value, inn.payerPub, ticket));
    }

    method PushRecord(amount: int)
      requires Valid() && state.d.inn.Some?
      modifies state`d, state`disk, state`performed
      ensures Valid() && state.OnDisk(state.d)
      ensures state.d == old(state.d).(inn := Some(Spec.PushRecord(old(state.d.inn.value), amount)))
    {
      var inn := state.d.inn.value;
      if inn.towerDrops < amount {
        inn := inn.(towerDrops := amount);
      }
      state.d := state.d.(inn := Some(inn));
      state.Save();
    }

    method RedeemRead(close: bool) returns (r: Option<Redeem>)
      ensures match state.d.inn
              case None => r == None
              case Some(inn) => r == Spec.RedeemRead(inn, close)
    {
      if state.d.inn.None? {
        return None;
      }
      var inn := state.d.inn.value;
      if inn.best <= inn.redeemed && !close {
        return None;
      }
      r := Some(Redeem(inn.channel, inn.best, inn.bestSig, inn.payerPub, close));
    }

    method RedeemRecord(amount: int, before: int, after: int, fee: int, gone: bool)
      requires Valid() && state.d.inn.Some?
      modifies state`d, state`disk, state`performed
      ensures Valid() && state.OnDisk(state.d)
      ensures var inn := Spec.RedeemRecord(old(state.d.inn.value), amount, after - before + fee, gone);
              state.d == old(state.d).(inn := Some(inn))
    {
      var paid := after - before + fee;
      var inn := state.d.inn.value;
      if paid > 0 && inn.redeemed < amount {
        inn := inn.(redeemed := amount);
      }
      if gone {
        inn := inn.(closed := true);
      }
      state.d := state.d.(inn := Some(inn));
      state.Save();
    }

    method WatchGone(reported: Option<int>)
      requires Valid() && state.d.inn.Some?
      modifies state`d, state`disk, state`performed
      ensures Valid() && state.OnDisk(state.d)
      ensures state.d == old(state.d).(inn := Some(Spec.WatchGone(old(state.d.inn.value), reported)))
    {
      var inn := state.d.inn.value.(closed := true);
      if reported.Some? && inn.redeemed < reported.value {
        inn := inn.(redeemed := reported.value);
      }
      state.d := state.d.(inn := Some(inn));
      state.Save();
    }

    /** The watcher refreshes the funding in memory only; the disk is left as it is. */
    method RefreshFunding(amount: int)
      requires Valid() && state.d.inn.Some?
      modifies state`d
      ensures Valid()
      ensures state.d == old(state.d).(inn := Some(old(state.d.inn.value).(funded := amount)))
    {
      state.d := state.d.(inn := Some(state.d.inn.value.(funded := amount)));
    }

    // ---- payer ----

    /** `cmd_open`: the check, the transaction, and the record. Another `open` may get
        through between the check and the record (`meanwhile`); then its record, and
        with it its channel, is forgotten. */
    method CmdOpen(drops: int, created: ChanId, meanwhile: Option<Outgoing>) returns (ok: bool)
      requires Valid()
      modifies state`d, state`disk, state`performed
      ensures Valid() && (ok <==> old(state.d.out).None?)
      ensures ok ==> state.d == old(state.d).(out := Some(Outgoing(created, drops, 0, 0, None, false)))
                         && state.OnDisk(state.d)
      ensures !ok ==> state.d == old(state.d) && state.disk == old(state.disk)
    {
      if state.d.out.Some? {
        return false;
      }
      if meanwhile.Some? {
        state.d := state.d.(out := meanwhile);
        state.Save();
      }
      state.d := state.d.(out := Some(Outgoing(created, drops, 0, 0, None, false)));
      state.Save();
      ok := true;
    }

    /** The first section of `cmd_pay`: the raised counter is on disk before the claim
        leaves. */
    method PaySign(drops: int, force: bool) returns (m: Option<Claim>)
      requires Valid() && state.d.out.Some?
      modifies state`d, state`disk, state`performed
      ensures Valid()
      ensures var o := Spec.PaySign(old(state.d.out.value), key, drops, force);
              if o.None? then m == None && state.d == old(state.d) && state.disk == old(state.disk)
              else
                && m == Some(Spec.PayClaim(o.value, key))
                && state.d == old(state.d).(out := o) && state.OnDisk(state.d)
    {
      var out := state.d.out.value;
      var total := out.signed + drops;
      if total > out.funded && !force {
        return None;
      }
      var sig := Sig(key, out.channel, total);
      out := out.(signed := total);
      out := out.(version := out.version + 1);
      out := out.(lastSig := Some(sig));
      state.d := state.d.(out := Some(out));
      state.Save();
      m := Some(Claim(out.channel, total, sig));
    }

    /** `cmd_pay` with no other payment on this node meanwhile; `answer` is what the
        peer link yields, None for an exception. A rejected payment leaves memory and
        disk as they were before it; an unanswered one keeps the raised counter. */
    method CmdPay(drops: int, force: bool, answer: Option<bool>) returns (r: PayResult)
      requires Valid()
      modifies state`d, state`disk, state`performed
      ensures Valid()
      ensures match old(state.d.out)
              case None => r == NoOutgoing && state.d == old(state.d)
              case Some(o) =>
                var signed := Spec.PaySign(o, key, drops, force);
                if signed.None? then r == Insufficient && state.d == old(state.d)
                else
                  && state.OnDisk(state.d)
                  && r == (if answer == None then Unreachable
                           else if answer.value then Paid(o.signed + drops) else PayeeRejected)
                  && state.d == (if r == PayeeRejected then old(state.d) else old(state.d).(out := signed))
    {
      if state.d.out.None? {
        return NoOutgoing;
      }
      var prev := state.d.out.value;
      var m := PaySign(drops, force);
      if m.None? {
        return Insufficient;
      }
      if answer.None? {
        return Unreachable;
      }
      if answer.value {
        return Paid(m.value.amount);
      }
      var out := state.d.out.value;
      out := out.(signed := prev.signed, version := prev.version, lastSig := prev.lastSig);
      state.d := state.d.(out := Some(out));
      state.Save();
      r := PayeeRejected;
    }

    /** `payer_close`, while the payee may redeem and close at any time, also when a
        transaction of the payer is in flight (`race1`, `race2`). It always ends, because
        the ledger clock reaches the expiration; it returns only with the channel gone,
        and it sends at most one finalizing transaction, none before the expiration that
        the request has set. If the payee closes first while a transaction is in flight,
        `submit` raises an exception; then the record does not say that the channel is
        closed, although it is. */
    method PayerClose(port: Port, d1: nat, d2: nat, race1: bool, race2: bool) returns (r: CloseResult)
      requires Valid() && port.Valid()
      requires port.chan.Some? ==> port.chan.value.account == me && port.chan.value.destination != me
      modifies state`d, state`disk, state`performed, port
      ensures Valid() && port.Valid()
      ensures r == NothingToClose <==> old(state.d.out).None?
      ensures r == SubmitFailed <==> old(state.d.out).Some? && (old(port.chan).None? || race1)
      ensures r in {NothingToClose, SubmitFailed} ==> state.d == old(state.d)
      ensures r == FinalFailed ==> race2 && port.chan.None? && state.d == old(state.d)
      ensures r.AtOnce? || r.AfterDelay? ==>
                && port.chan.None? && state.OnDisk(state.d)
                && state.d == old(state.d).(out := Some(old(state.d.out.value).(closed := true)))
      ensures r.AtOnce? <==>
                && old(state.d.out).Some? && old(port.chan).Some? && !race1
                && (Expired(old(port.chan.value), old(port.closeTime) + d1)
                    || old(port.chan.value.balance) == old(port.chan.value.amount))
      ensures r.AfterDelay? || r == FinalFailed ==>
                var e := Apply(port.channel, old(port.chan), old(port.closeTime) + d1, PayerCloseTx(me));
                && (r.AfterDelay? ==> r.finals <= 1)
                && e.chan.Some? && e.chan.value.expiration.Some?
                && (r == FinalFailed || r.finals == 1 ==> e.chan.value.expiration.value <= port.closeTime)
    {
      if state.d.out.None? {
        return NothingToClose;
      }
      if port.chan.Some? {
        PayerCloseFate(port.channel, port.chan.value, port.closeTime + d1);
      }
      var ter := port.Submit(PayerCloseTx(me), d1, race1);
      if ter != TesSuccess {
        return SubmitFailed;
      }
      if port.chan.None? {
        MarkOutClosed();
        return AtOnce;
      }
      ghost var entry := port.chan.value;
      var exp := port.chan.value.expiration.value;
      var finals := 0;
      while true
        invariant Valid() && port.Valid() && finals == 0
        invariant port.chan.Some? && Later(entry, port.chan.value)
        invariant state.d == old(state.d)
        decreases exp - port.closeTime
      {
        port.Sleep();
        if port.chan.None? {
          break;
        }
        if port.closeTime >= exp {
          finals := finals + 1;
          ter := port.Submit(PayerCloseTx(me), d2, race2);
          if ter != TesSuccess {
            return FinalFailed;
          }
          if port.chan.None? {
            break;
          }
        }
      }
      MarkOutClosed();
      r := AfterDelay(finals);
    }

    method MarkOutClosed()
      requires Valid() && state.d.out.Some?
      modifies state`d, state`disk, state`performed
      ensures Valid() && state.OnDisk(state.d)
      ensures state.d == old(state.d).(out := Some(old(state.d.out.value).(closed := true)))
    {
      state.d := state.d.(out := Some(state.d.out.value.(closed := true)));
      state.Save();
    }
  }
}
