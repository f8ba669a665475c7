/** The channel node of the Ethereum arm: which updates it makes and accepts, and how it
    picks and forgets channels. go-perun itself makes sure that an update keeps the
    total and no balance is negative. */
module PerunNode {
  import opened Options

  /** A two-party state; `bal0` belongs to the party with index 0. */
  datatype State = State(version: nat, bal0: int, bal1: int, final: bool)

  type Idx = i: int | 0 <= i < 2

  function Balance(s: State, i: Idx): int {
    if i == 0 then s.bal0 else s.bal1
  }

  function Total(s: State): int {
    s.bal0 + s.bal1
  }

  predicate NonNegative(s: State) {
    s.bal0 >= 0 && s.bal1 >= 0
  }

  /** The closure of `pay`: move the amount from the payer to the other party. */
  function Transfer(s: State, payer: Idx, amount: int): (t: State) {
    State(s.version + 1,
          if payer == 0 then s.bal0 - amount else s.bal0 + amount,
          if payer == 0 then s.bal1 + amount else s.bal1 - amount,
          s.final)
  }

  /** The closure of `settle`. */
  function Finalized(s: State): State {
    s.(version := s.version + 1, final := true)
  }

  /** What go-perun lets through as the successor of a state. */
  predicate Allowed(s: State, next: State) {
    next.version == s.version + 1 && Total(next) == Total(s) && NonNegative(next) && !s.final
  }

  /** `HandleUpdate` of the party that did not make the update. */
  predicate Accepts(s: State, next: State, actor: Idx) {
    Balance(next, 1 - actor) >= Balance(s, 1 - actor)
  }

  /** One round of the update protocol as this node, party `me`, sees it. */
  datatype Event =
    | Pay(amount: int, peerAccepts: bool)
    | Finalize(peerAccepts: bool)
    | Propose(next: State)          // by the peer

  function Step(me: Idx, s: State, e: Event): State {
    match e
    case Pay(amount, yes) =>
      var next := Transfer(s, me, amount);
      if Allowed(s, next) && yes then next else s
    case Finalize(yes) =>
      if Allowed(s, Finalized(s)) && yes then Finalized(s) else s
    case Propose(next) =>
      if Allowed(s, next) && Accepts(s, next, 1 - me) then next else s
  }

  function Exec(me: Idx, s: State, run: seq<Event>): State
    decreases |run|
  {
    if run == [] then s else Exec(me, Step(me, s, run[0]), run[1..])
  }

  /** The sum of this node's own payments that went through. */
  function Spent(me: Idx, s: State, run: seq<Event>): int
    decreases |run|
  {
    if run == [] then 0
    else
      (if run[0].Pay? && Step(me, s, run[0]) != s then run[0].amount else 0)
      + Spent(me, Step(me, s, run[0]), run[1..])
  }

  /** Whatever the peer proposes, this node ends with at least what it had minus what it
      paid itself; the total stays, nothing is negative, versions only rise, and
      nothing happens after a final state. */
  lemma {:induction false} NeverRobbed(me: Idx, s: State, run: seq<Event>)
    requires NonNegative(s)
    ensures var end := Exec(me, s, run);
            && Balance(end, me) >= Balance(s, me) - Spent(me, s, run)
            && Total(end) == Total(s) && NonNegative(end)
            && s.version <= end.version
            && (s.final ==> end == s)
    decreases |run|
  {
    if run != [] {
      NeverRobbed(me, Step(me, s, run[0]), run[1..]);
    }
  }

  /** If the peer runs the same node, it takes a payment exactly if the amount is not
      negative, so between two such nodes a payment that goes through is one that the
      payer can afford and that costs the payer exactly its amount. */
  lemma PaymentBetweenNodes(me: Idx, s: State, amount: int)
    requires NonNegative(s)
    ensures var next := Transfer(s, me, amount);
            && (Accepts(s, next, me) <==> amount >= 0)
            && (Allowed(s, next) && Accepts(s, next, me) <==> !s.final && 0 <= amount <= Balance(s, me))
            && Balance(Step(me, s, Pay(amount, Accepts(s, next, me))), me)
               == Balance(s, me) - (if !s.final && 0 <= amount <= Balance(s, me) then amount else 0)
  {
  }

  /** Payments of `me`, one after the other; the peer runs the same node. */
  function PayAll(me: Idx, s: State, amounts: seq<int>): State
    decreases |amounts|
  {
    if amounts == [] then s
    else
      var yes := Accepts(s, Transfer(s, me, amounts[0]), me);
      PayAll(me, Step(me, s, Pay(amounts[0], yes)), amounts[1..])
  }

  function Sum(amounts: seq<int>): int
    decreases |amounts|
  {
    if amounts == [] then 0 else amounts[0] + Sum(amounts[1..])
  }

  lemma {:induction false} SumIsPositive(amounts: seq<int>)
    requires forall a | a in amounts :: a >= 0
    ensures Sum(amounts) >= 0
    decreases |amounts|
  {
    if amounts != [] {
      assert amounts[0] in amounts && forall a | a in amounts[1..] :: a in amounts;
      SumIsPositive(amounts[1..]);
    }
  }

  /** Any sequence of payments that the payer can afford in total goes through
      completely: it moves exactly the sum, counts one version each, and leaves the
      channel open for more. */
  lemma {:induction false} AllPaymentsGoThrough(me: Idx, s: State, amounts: seq<int>)
    requires NonNegative(s) && !s.final
    requires (forall a | a in amounts :: a >= 0) && Sum(amounts) <= if me == 0 then s.bal0 else s.bal1
    ensures var end := PayAll(me, s, amounts);
            && end.version == s.version + |amounts| && !end.final
            && (me == 0 ==> end.bal0 == s.bal0 - Sum(amounts) && end.bal1 == s.bal1 + Sum(amounts))
            && (me == 1 ==> end.bal1 == s.bal1 - Sum(amounts) && end.bal0 == s.bal0 + Sum(amounts))
    decreases |amounts|
  {
    if amounts != [] {
      assert amounts[0] in amounts && forall a | a in amounts[1..] :: a in amounts;
      SumIsPositive(amounts[1..]);
      var yes := Accepts(s, Transfer(s, me, amounts[0]), me);
      AllPaymentsGoThrough(me, Step(me, s, Pay(amounts[0], yes)), amounts[1..]);
    }
  }

  /** `settle` makes a final state with the same balances; the peer takes it, and nothing
      is allowed after it. */
  lemma FinalStateEnds(me: Idx, s: State)
    requires NonNegative(s) && !s.final
    ensures var end := Step(me, s, Finalize(Accepts(s, Finalized(s), me)));
            && end.final && end.bal0 == s.bal0 && end.bal1 == s.bal1 && end.version == s.version + 1
            && forall next :: !Allowed(end, next)
  {
  }

  // ---- the list of channels ----

  datatype Phase = Acting | Registered | Settling | Withdrawing | Withdrawn

  class Channel {
    var phase: Phase

    constructor (phase: Phase)
      ensures this.phase == phase
    {
      this.phase := phase;
    }
  }

  predicate Usable(p: Phase) {
    p != Withdrawing && p != Withdrawn
  }

  class Node {
    var chs: seq<Channel>

    constructor ()
      ensures chs == []
    {
      chs := [];
    }

    method OnNewChannel(ch: Channel)
      modifies this
      ensures chs == old(chs) + [ch]
    {
      chs := chs + [ch];
    }

    /** The newest acting channel, or else the newest that is not being withdrawn. */
    method Current() returns (r: Option<Channel>)
      ensures r.None? <==> forall c | c in chs :: !Usable(c.phase)
      ensures r.Some? ==>
                exists i :: 0 <= i < |chs| && chs[i] == r.value && Usable(chs[i].phase)
                  && (if chs[i].phase == Acting then forall j | i < j < |chs| :: chs[j].phase != Acting
                      else (forall c | c in chs :: c.phase != Acting)
                           && forall j | i < j < |chs| :: !Usable(chs[j].phase))
    {
      var i := |chs| - 1;
      while i >= 0
        invariant -1 <= i < |chs|
        invariant forall j | i < j < |chs| :: chs[j].phase != Acting
      {
        if chs[i].phase == Acting {
          return Some(chs[i]);
        }
        i := i - 1;
      }
      i := |chs| - 1;
      while i >= 0
        invariant -1 <= i < |chs|
        invariant forall j | i < j < |chs| :: !Usable(chs[j].phase)
      {
        if chs[i].phase != Withdrawing && chs[i].phase != Withdrawn {
          return Some(chs[i]);
        }
        i := i - 1;
      }
      r := None;
    }

    /** Exactly one occurrence of the channel disappears, the oldest one, and the others
        keep their order; a channel that is listed once is gone afterwards. */
    method Forget(ch: Channel)
      modifies this
      ensures ch !in old(chs) ==> chs == old(chs)
      ensures ch in old(chs) ==>
                exists i :: 0 <= i < |old(chs)| && old(chs)[i] == ch && ch !in old(chs)[..i]
                  && chs == old(chs)[..i] + old(chs)[i + 1..]
      ensures multiset(chs) == multiset(old(chs)) - multiset{ch}
    {
      var i := 0;
      while i < |chs|
        invariant 0 <= i <= |chs| && chs == old(chs)
        invariant ch !in chs[..i]
      {
        if chs[i] == ch {
          assert chs == chs[..i] + [ch] + chs[i + 1..];
          chs := chs[..i] + chs[i + 1..];
          return;
        }
        i := i + 1;
      }
    }
  }
}
