/** The event log of hydrapay: messages are appended and now and then the oldest
    thousand are deleted, marks are positions in the log, and `wait_pred` looks for the
    first event at or after a mark. */
module HydraEvents {
  import opened Options
  import opened HydraHead

  const LIMIT := 5000
  const TRIM := 1000

  /** A message of hydra-node, as far as it changes what the client keeps. */
  datatype Msg =
    | Greetings(status: string, synced: string, utxo: Option<Utxo>)
    | SnapshotConfirmed(number: int, confirmed: seq<int>, utxo: Option<Utxo>)
    | TxInvalid(txid: int)
    | HeadIsOpen
    | HeadIsClosed
    | ReadyToFanout
    | HeadIsFinalized
    | CommitRecorded(deposit: Option<int>)
    | SyncChanged(inSync: bool)
    | Other(tag: string)

  /** What `handle` maintains. */
  datatype View = View(
    status: string, synced: string, utxo: Utxo, snapshot: Option<int>, ready: bool, deposits: seq<int>)

  function Handle(v: View, m: Msg): View {
    match m
    case Greetings(status, synced, utxo) =>
      v.(status := status, synced := synced, utxo := if utxo.Some? then utxo.value else v.utxo)
    case SnapshotConfirmed(n, _, utxo) =>
      v.(snapshot := Some(n), utxo := if utxo.Some? then utxo.value else v.utxo)
    case HeadIsOpen => v.(status := "Open")
    case HeadIsClosed => v.(status := "Closed", ready := false)
    case ReadyToFanout => v.(ready := true)
    case HeadIsFinalized => v.(status := "Idle")
    case CommitRecorded(d) => if d.Some? then v.(deposits := v.deposits + [d.value]) else v
    case SyncChanged(yes) => v.(synced := if yes then "InSync" else "CatchingUp")
    case TxInvalid(_) => v
    case Other(_) => v
  }

  const NEW_VIEW := View("unknown", "unknown", [], None, false, [])

  /** What changes the view: a message, or the UTxO set that `cmd_deposit` fetches over
      HTTP after an increment. */
  datatype Input = Received(m: Msg) | Fetched(utxo: Utxo)

  function Take(v: View, x: Input): View {
    match x
    case Received(m) => Handle(v, m)
    case Fetched(u) => v.(utxo := u)
  }

  function TakeAll(v: View, xs: seq<Input>): View {
    if xs == [] then v else Take(TakeAll(v, xs[..|xs| - 1]), xs[|xs| - 1])
  }

  function Messages(xs: seq<Input>): seq<Msg> {
    if xs == [] then []
    else
      var before := Messages(xs[..|xs| - 1]);
      if xs[|xs| - 1].Received? then before + [xs[|xs| - 1].m] else before
  }

  /** The input carries this UTxO set. */
  predicate Carries(x: Input, u: Utxo) {
    x == Fetched(u) || (x.Received? && (x.m.Greetings? || x.m.SnapshotConfirmed?) && x.m.utxo == Some(u))
  }

  /** The wallet pays from the latest UTxO set that a message or an answer carried. */
  lemma {:induction false} UtxoIsTheLatest(xs: seq<Input>, i: nat, u: Utxo)
    requires i < |xs| && Carries(xs[i], u)
    requires forall j | i < j < |xs| ::
               xs[j].Received? && (xs[j].m.Greetings? || xs[j].m.SnapshotConfirmed? ==> xs[j].m.utxo == None)
    ensures TakeAll(NEW_VIEW, xs).utxo == u
    decreases |xs|
  {
    if i < |xs| - 1 {
      UtxoIsTheLatest(xs[..|xs| - 1], i, u);
    }
  }

  /** The status of the head is what the last message that changes it says. */
  lemma {:induction false} StatusIsTheLatest(xs: seq<Input>, i: nat, status: string)
    requires i < |xs| && xs[i].Received?
    requires || (xs[i].m.Greetings? && xs[i].m.status == status) || (xs[i].m.HeadIsOpen? && status == "Open")
             || (xs[i].m.HeadIsClosed? && status == "Closed") || (xs[i].m.HeadIsFinalized? && status == "Idle")
    requires forall j | i < j < |xs| && xs[j].Received? ::
               !(xs[j].m.Greetings? || xs[j].m.HeadIsOpen? || xs[j].m.HeadIsClosed? || xs[j].m.HeadIsFinalized?)
    ensures TakeAll(NEW_VIEW, xs).status == status
    decreases |xs|
  {
    if i < |xs| - 1 {
      StatusIsTheLatest(xs[..|xs| - 1], i, status);
    }
  }

  /** The client may fan out if and only if the head said so after it was last closed. */
  lemma {:induction false} ReadyExactly(xs: seq<Input>)
    ensures TakeAll(NEW_VIEW, xs).ready <==>
            exists i :: 0 <= i < |xs| && xs[i] == Received(ReadyToFanout)
                        && forall j | i < j < |xs| :: xs[j] != Received(HeadIsClosed)
    decreases |xs|
  {
    if xs != [] {
      var n := |xs| - 1;
      ReadyExactly(xs[..n]);
      if i :| 0 <= i < n && xs[i] == Received(ReadyToFanout)
              && forall j | i < j < n :: xs[j] != Received(HeadIsClosed) {
        assert xs[..n][i] == Received(ReadyToFanout);
      }
      assert TakeAll(NEW_VIEW, xs).ready <==>
             xs[n] == Received(ReadyToFanout) || (TakeAll(NEW_VIEW, xs[..n]).ready && xs[n] != Received(HeadIsClosed));
    }
  }

  /** The number of the snapshot is that of the last one that was confirmed. */
  lemma {:induction false} SnapshotIsTheLatest(xs: seq<Input>, i: nat)
    requires i < |xs| && xs[i].Received? && xs[i].m.SnapshotConfirmed?
    requires forall j | i < j < |xs| && xs[j].Received? :: !xs[j].m.SnapshotConfirmed?
    ensures TakeAll(NEW_VIEW, xs).snapshot == Some(xs[i].m.number)
    decreases |xs|
  {
    if i < |xs| - 1 {
      SnapshotIsTheLatest(xs[..|xs| - 1], i);
    }
  }

  /** The node counts as synced as the last message on that says. */
  lemma {:induction false} SyncIsTheLatest(xs: seq<Input>, i: nat)
    requires i < |xs| && xs[i].Received? && (xs[i].m.Greetings? || xs[i].m.SyncChanged?)
    requires forall j | i < j < |xs| && xs[j].Received? :: !xs[j].m.Greetings? && !xs[j].m.SyncChanged?
    ensures TakeAll(NEW_VIEW, xs).synced
         == if xs[i].m.Greetings? then xs[i].m.synced else if xs[i].m.inSync then "InSync" else "CatchingUp"
    decreases |xs|
  {
    if i < |xs| - 1 {
      SyncIsTheLatest(xs[..|xs| - 1], i);
    }
  }

  /** Every deposit that was recorded is remembered, and nothing else. */
  lemma {:induction false} DepositsAreRecorded(xs: seq<Input>, d: int)
    ensures d in TakeAll(NEW_VIEW, xs).deposits <==> Received(CommitRecorded(Some(d))) in xs
    decreases |xs|
  {
    if xs != [] {
      var n := |xs| - 1;
      DepositsAreRecorded(xs[..n], d);
      assert xs == xs[..n] + [xs[n]];
    }
  }

  /** The newest one comes last. */
  lemma {:induction false} NewestDepositIsLast(xs: seq<Input>, i: nat, d: int)
    requires i < |xs| && xs[i] == Received(CommitRecorded(Some(d)))
    requires forall j | i < j < |xs| && xs[j].Received? :: !xs[j].m.CommitRecorded?
    ensures var ds := TakeAll(NEW_VIEW, xs).deposits;
            ds != [] && ds[|ds| - 1] == d
    decreases |xs|
  {
    if i < |xs| - 1 {
      NewestDepositIsLast(xs[..|xs| - 1], i, d);
    }
  }

  // ---- the log ----

  /** The first position at or after `from` whose message satisfies the predicate. */
  ghost predicate IsFirst(all: seq<Msg>, p: Msg -> bool, from: nat, i: nat) {
    from <= i < |all| && p(all[i]) && forall j | from <= j < i :: !p(all[j])
  }

  ghost predicate NoneFrom(all: seq<Msg>, p: Msg -> bool, from: nat) {
    forall j | from <= j < |all| :: !p(all[j])
  }

  /** What `wait_pred` reports: the first match at or after `from`, or nothing. */
  ghost predicate Reports(all: seq<Msg>, p: Msg -> bool, from: nat, r: Option<Msg>) {
    if r.Some? then exists i: nat :: IsFirst(all, p, from, i) && r.value == all[i] else NoneFrom(all, p, from)
  }

  /** What arrives while the client waits, and how fast its clock runs. */
  datatype Weather = Weather(arrivals: nat -> seq<Msg>, pace: nat -> int)

  ghost predicate TimePasses(e: Weather) {
    forall n :: e.pace(n) > 0
  }

  // ---- the trim ----

  /** How many of the first `n` messages are trimmed: whenever the log gets longer than
      LIMIT, its first TRIM events go. */
  function Dropped(n: nat): (d: nat)
    ensures d <= n
  {
    if n <= LIMIT then 0 else (n - LIMIT + TRIM - 1) / TRIM * TRIM
  }

  lemma OneMore(n: nat)
    ensures n - Dropped(n) <= LIMIT
    ensures Dropped(n + 1) == Dropped(n) + if n - Dropped(n) >= LIMIT then TRIM else 0
  {
  }

  /** A mark taken after `n` messages is `n - Dropped(n)`. It stays right while `r` more
      messages arrive if and only if mark and arrivals fit into the log together. */
  lemma {:induction false} MarkStands(n: nat, r: nat)
    ensures Dropped(n) <= Dropped(n + r)
    ensures Dropped(n + r) == Dropped(n) <==> n - Dropped(n) + r <= LIMIT
    decreases r
  {
    if r > 0 {
      MarkStands(n, r - 1);
      OneMore(n);
      OneMore(n + r - 1);
    } else {
      OneMore(n);
    }
  }

  /** What becomes of a payment after it was sent to the node. */
  datatype Verdict = NotAccepted | Unconfirmed | Invalid | Confirmed(number: int)

  /** The predicate with which `cmd_pay` waits: the snapshot that confirms its
      transaction, or the rejection of the transaction. */
  predicate Done(txid: int, m: Msg) {
    (m.SnapshotConfirmed? && txid in m.confirmed) || m == TxInvalid(txid)
  }

  /** No message from `from` on and before `i` speaks of the transaction. */
  ghost predicate Silent(all: seq<Msg>, txid: int, from: nat, i: nat) {
    forall j | from <= j < i && j < |all| ::
      !(all[j].SnapshotConfirmed? && txid in all[j].confirmed) && all[j] != TxInvalid(txid)
  }

  /** What the messages from `from` on say of the transaction: the first one that speaks of
      it is a snapshot with this number that contains it, or its rejection, or there is
      none. */
  ghost predicate FirstSays(all: seq<Msg>, txid: int, from: nat, r: Verdict) {
    match r
    case Confirmed(n) =>
      exists i | from <= i < |all| ::
        all[i].SnapshotConfirmed? && all[i].number == n && txid in all[i].confirmed && Silent(all, txid, from, i)
    case Invalid => exists i | from <= i < |all| :: all[i] == TxInvalid(txid) && Silent(all, txid, from, i)
    case Unconfirmed => Silent(all, txid, from, |all|)
    case NotAccepted => true
  }

  /** The verdict of one message on the transaction. */
  function VerdictOf(m: Msg): Verdict {
    match m
    case SnapshotConfirmed(n, _, _) => Confirmed(n)
    case _ => Invalid
  }

  /** The event that ends the wait is the first one that speaks of the transaction, and
      it is read as it says; without one there is nothing. */
  lemma VerdictIsFirst(all: seq<Msg>, txid: int, from: nat, r: Option<Msg>)
    requires Reports(all, m => Done(txid, m), from, r)
    ensures FirstSays(all, txid, from, if r.None? then Unconfirmed else VerdictOf(r.value))
  {
    if r.Some? {
      var i: nat :| IsFirst(all, m => Done(txid, m), from, i) && r.value == all[i];
      assert Done(txid, all[i]);
      assert forall j | from <= j < i :: !Done(txid, all[j]);
      assert Silent(all, txid, from, i);
    } else {
      assert forall j | from <= j < |all| :: !Done(txid, all[j]);
    }
  }

  class Client {
    var events: seq<Msg>
    var view: View
    var clock: int
    var waits: nat
    ghost var inputs: seq<Input>  // everything ever received or fetched
    ghost var all: seq<Msg>       // every message ever received
    ghost var dropped: nat        // how many of them were trimmed

    ghost predicate Valid()
      reads this
    {
      && dropped == Dropped(|all|) <= |all| && events == all[dropped..] && |events| <= LIMIT
      && all == Messages(inputs) && view == TakeAll(NEW_VIEW, inputs)
    }

    constructor (start: int)
      ensures Valid() && all == [] && dropped == 0 && clock == start
    {
      events, view, clock, waits := [], NEW_VIEW, start, 0;
      inputs, all, dropped := [], [], 0;
    }

    method OnMessage(m: Msg)
      requires Valid()
      modifies this
      ensures Valid() && all == old(all) + [m] && inputs == old(inputs) + [Received(m)]
      ensures dropped == old(dropped) + if |old(events)| >= 5000 then 1000 else 0
      ensures clock == old(clock) && waits == old(waits)
    {
      OneMore(|all|);
      events := events + [m];
      all := all + [m];
      inputs := inputs + [Received(m)];
      if |events| > LIMIT {
        events := events[TRIM..];
        dropped := dropped + TRIM;
      }
      assert inputs[..|inputs| - 1] == old(inputs);
      view := Handle(view, m);
    }

    /** `cmd_deposit` replaces the UTxO set by the answer to an HTTP request, if there is
        a good one. */
    method RefreshUtxo(answer: Option<Utxo>)
      requires Valid()
      modifies this
      ensures Valid() && all == old(all) && dropped == old(dropped)
      ensures inputs == old(inputs) + if answer.Some? then [Fetched(answer.value)] else []
      ensures clock == old(clock) && waits == old(waits)
    {
      if answer.Some? {
        inputs := inputs + [Fetched(answer.value)];
        assert inputs[..|inputs| - 1] == old(inputs);
        view := view.(utxo := answer.value);
      }
    }

    /** The mark is the number of events in the log: with nothing trimmed later it
        stands for the moment of the call. */
    method Mark() returns (since: nat)
      requires Valid()
      ensures since + dropped == |all| && since <= LIMIT
    {
      since := |events|;
    }

    method Arrive(ms: seq<Msg>)
      requires Valid()
      modifies this
      ensures Valid() && all == old(all) + ms && old(dropped) <= dropped
      ensures clock == old(clock) && waits == old(waits)
    {
      var i := 0;
      while i < |ms|
        invariant 0 <= i <= |ms| && Valid()
        invariant all == old(all) + ms[..i] && old(dropped) <= dropped
        invariant clock == old(clock) && waits == old(waits)
      {
        OnMessage(ms[i]);
        assert ms[..i + 1] == ms[..i] + [ms[i]];
        i := i + 1;
      }
      assert ms[..|ms|] == ms;
    }

    /** One wait on the condition: messages may arrive, and time passes. */
    method Wait(e: Weather)
      requires Valid() && TimePasses(e)
      modifies this
      ensures Valid() && clock > old(clock)
      ensures old(all) <= all && old(dropped) <= dropped
    {
      Arrive(e.arrivals(waits));
      clock := clock + e.pace(waits);
      waits := waits + 1;
    }

    /** `wait_pred`. It returns the first event, in the order of all messages ever
        received, at or after position `since + dropped`, however the arrivals
        interleave with the waiting; it reports a timeout only if there is none. With
        no trim since the mark was taken, that position is the mark. */
    method WaitPred(p: Msg -> bool, since: nat, timeout: int, e: Weather) returns (r: Option<Msg>)
      requires Valid() && TimePasses(e)
      modifies this
      ensures Valid() && old(all) <= all && old(dropped) <= dropped
      ensures Reports(all, p, since + dropped, r)
      ensures r.None? ==> clock >= old(clock) + timeout
    {
      var deadline := clock + timeout;
      while true
        invariant Valid() && old(all) <= all && old(dropped) <= dropped
        invariant deadline == old(clock) + timeout
        decreases deadline - clock
      {
        var i := since;
        while i < |events|
          invariant since <= i
          invariant forall j | since <= j < i && j < |events| :: !p(events[j])
        {
          if p(events[i]) {
            assert all[dropped + i] == events[i];
            assert forall j | since + dropped <= j < dropped + i :: all[j] == events[j - dropped];
            assert IsFirst(all, p, since + dropped, dropped + i);
            return Some(events[i]);
          }
          i := i + 1;
        }
        assert forall j | since + dropped <= j < |all| :: all[j] == events[j - dropped];
        if deadline - clock <= 0 {
          return None;
        }
        Wait(e);
      }
    }

    /** The wait of `cmd_pay`. */
    method AwaitVerdict(txid: int, since: nat, timeout: int, e: Weather) returns (r: Verdict)
      requires Valid() && TimePasses(e)
      modifies this
      ensures Valid() && old(all) <= all && old(dropped) <= dropped
      ensures r != NotAccepted && FirstSays(all, txid, since + dropped, r)
      ensures r == Unconfirmed ==> clock >= old(clock) + timeout
    {
      var found := WaitPred(m => Done(txid, m), since, timeout, e);
      VerdictIsFirst(all, txid, since + dropped, found);
      r := if found.None? then Unconfirmed else VerdictOf(found.value);
    }

    /** `cmd_pay` from the mark on: the transaction is sent, `inFlight` arrives while the
        HTTP request is under way, and the node takes the transaction or not. A payment
        reports the first verdict on its own transaction after the mark, in the order of
        all messages; the search starts late only by what was trimmed. With no trim it
        is the first verdict after the payment was sent. */
    method PayAndWait(txid: int, inFlight: seq<Msg>, accepted: bool, timeout: int, e: Weather) returns (r: Verdict)
      requires Valid() && TimePasses(e)
      modifies this
      ensures Valid() && old(all) <= all
      ensures r == NotAccepted <==> !accepted
      ensures FirstSays(all, txid, |old(all)| + dropped - old(dropped), r)
      ensures dropped == old(dropped) <==> |old(events)| + |all| - |old(all)| <= 5000
      ensures r == Unconfirmed ==> clock >= old(clock) + timeout
    {
      var since := Mark();
      Arrive(inFlight);
      if accepted {
        r := AwaitVerdict(txid, since, timeout, e);
      } else {
        r := NotAccepted;
      }
      MarkStands(|old(all)|, |all| - |old(all)|);
    }
  }

  lemma Earliest(all: seq<Msg>, p: Msg -> bool, from: nat, j: nat) returns (i: nat)
    requires from <= j < |all| && p(all[j])
    ensures IsFirst(all, p, from, i) && i <= j
  {
    i := from;
    while !p(all[i])
      invariant from <= i <= j && forall x | from <= x < i :: !p(all[x])
      decreases j - i
    {
      i := i + 1;
    }
  }

  /** The search of a `wait_pred` that ends after `|all|` messages, with a mark taken
      after `n`, is right: it finds what a search from the mark itself would find. */
  ghost predicate SearchIsRight(all: seq<Msg>, p: Msg -> bool, n: nat)
    requires n <= |all|
  {
    forall i :: IsFirst(all, p, n - Dropped(n) + Dropped(|all|), i) <==> IsFirst(all, p, n, i)
  }

  /** For one log: the search is right if and only if none of the events that the trims
      moved across the mark satisfies the predicate. */
  lemma SkipsNoMatch(all: seq<Msg>, p: Msg -> bool, n: nat)
    requires n <= |all|
    ensures SearchIsRight(all, p, n) <==>
            forall j | n <= j < n - Dropped(n) + Dropped(|all|) && j < |all| :: !p(all[j])
  {
    var from := n - Dropped(n) + Dropped(|all|);
    MarkStands(n, |all| - n);
    if j :| n <= j < from && j < |all| && p(all[j]) {
      var i := Earliest(all, p, n, j);
      assert IsFirst(all, p, n, i) && !IsFirst(all, p, from, i);
    }
  }

  /** When a caller can rely on its mark: `wait_pred` is right for every log and every
      predicate if and only if the mark and the messages that arrive after it fit into
      the log, which a caller can bound before it waits. */
  lemma TrimLosesExactly(n: nat, r: nat)
    ensures n - Dropped(n) + r <= 5000 <==>
            (forall all: seq<Msg>, p: Msg -> bool | |all| == n + r :: SearchIsRight(all, p, n))
  {
    MarkStands(n, r);
    if n - Dropped(n) + r > LIMIT {
      OneMore(n);
      var all := seq(n + r, _ => HeadIsOpen);
      var p := (m: Msg) => m == HeadIsOpen;
      assert p(all[n]);
      SkipsNoMatch(all, p, n);
      assert !SearchIsRight(all, p, n);
    }
  }
}
