/** How long a scheduled close can wait while the tower, which has one thread, is busy
    with other channels. No record is replaced meanwhile and RPC time is zero, so only
    the waiting of `submit_blob` and the sleep between two polls take time. Time is in
    seconds. */
module TowerSchedule {
  import opened Options
  import opened XrpTypes

  /** What the ledger shows: from when on the entry of a channel carries an expiration,
      whether its claim is still worth redeeming at a time, and whether the blob of a
      channel is validated a number of seconds after its submission. */
  datatype Env = Env(shows: ChanId -> Option<int>, worth: (ChanId, int) -> bool, validated: (ChanId, nat) -> bool)

  const TRIES: nat := 40

  /** How long `submit_blob` blocks from its k-th try on: until a try finds the blob
      validated, or the last try is over. */
  function BlocksFrom(env: Env, c: ChanId, k: nat): (n: nat)
    requires k <= TRIES
    ensures k <= n <= TRIES
    decreases TRIES - k
  {
    if k == TRIES || (k > 0 && env.validated(c, k)) then k else BlocksFrom(env, c, k + 1)
  }

  function Blocks(env: Env, c: ChanId): (n: nat)
    ensures n <= TRIES
  {
    BlocksFrom(env, c, 0)
  }

  /** `submit_blob` blocks until the first try that finds the blob validated. */
  lemma {:induction false} BlocksUntil(env: Env, c: ChanId, k: nat, n: nat)
    requires k <= n <= TRIES && 0 < n
    requires n == TRIES || env.validated(c, n)
    requires forall m: nat | 1 <= m < n :: !env.validated(c, m)
    ensures BlocksFrom(env, c, k) == n
    decreases n - k
  {
    if k < n { BlocksUntil(env, c, k + 1, n); }
  }

  predicate Visible(env: Env, c: ChanId, t: int) {
    env.shows(c).Some? && env.shows(c).value <= t
  }

  /** The clock of the tower and the channels it has submitted, in order. */
  datatype S = S(now: int, log: seq<ChanId>)

  function Visit(env: Env, s: S, c: ChanId): S {
    if c !in s.log && Visible(env, c, s.now) && env.worth(c, s.now)
    then S(s.now + Blocks(env, c), s.log + [c])
    else s
  }

  function Pass(env: Env, s: S, items: seq<ChanId>): S
    decreases |items|
  {
    if items == [] then s else Visit(env, Pass(env, s, items[..|items| - 1]), items[|items| - 1])
  }

  /** One turn of `loop`: sleep, then visit every record. */
  function Round(env: Env, s: S, items: seq<ChanId>, poll: int): S {
    Pass(env, s.(now := s.now + poll), items)
  }

  function Rounds(env: Env, s: S, items: seq<ChanId>, poll: int, m: nat): S
    decreases m
  {
    if m == 0 then s else Round(env, Rounds(env, s, items, poll, m - 1), items, poll)
  }

  /** The state of the tower when it comes to record i in the turn that starts in s. */
  function At(env: Env, s: S, items: seq<ChanId>, poll: int, i: nat): S
    requires i <= |items|
  {
    Pass(env, s.(now := s.now + poll), items[..i])
  }

  ghost predicate Distinct(log: seq<ChanId>) {
    forall i, j | 0 <= i < j < |log| :: log[i] != log[j]
  }

  /** The log holds records only, and each at most once. */
  ghost predicate GoodLog(s: S, items: seq<ChanId>) {
    Distinct(s.log) && forall c | c in s.log :: c in items
  }

  lemma VisitCost(env: Env, s: S, c: ChanId, items: seq<ChanId>)
    requires GoodLog(s, items) && c in items
    ensures var s' := Visit(env, s, c);
            && GoodLog(s', items) && s.log <= s'.log
            && s.now <= s'.now <= s.now + TRIES * (|s'.log| - |s.log|)
            && (forall x | x in s'.log && x !in s.log :: x == c)
  {
  }

  /** Time passes only where a record is submitted, at most 40 s each. */
  lemma {:induction false} PassCost(env: Env, s: S, visited: seq<ChanId>, items: seq<ChanId>)
    requires GoodLog(s, items) && (forall c | c in visited :: c in items)
    ensures var s' := Pass(env, s, visited);
            && GoodLog(s', items) && s.log <= s'.log
            && s.now <= s'.now <= s.now + TRIES * (|s'.log| - |s.log|)
            && (forall x | x in s'.log && x !in s.log :: x in visited)
    decreases |visited|
  {
    if visited != [] {
      var n := |visited| - 1;
      PassCost(env, s, visited[..n], items);
      VisitCost(env, Pass(env, s, visited[..n]), visited[n], items);
    }
  }

  lemma {:induction false} PassSplit(env: Env, s: S, a: seq<ChanId>, b: seq<ChanId>)
    ensures Pass(env, s, a + b) == Pass(env, Pass(env, s, a), b)
    decreases |b|
  {
    if b == [] {
      assert a + b == a;
    } else {
      var n := |b| - 1;
      assert (a + b)[..|a + b| - 1] == a + b[..n] && (a + b)[|a + b| - 1] == b[n];
      PassSplit(env, s, a, b[..n]);
    }
  }

  lemma RoundsCost(env: Env, s: S, items: seq<ChanId>, poll: int, m: nat)
    requires GoodLog(s, items) && poll >= 0
    ensures var s' := Rounds(env, s, items, poll, m);
            GoodLog(s', items) && s.now + m * poll <= s'.now
    decreases m
  {
    if m > 0 {
      RoundsCost(env, s, items, poll, m - 1);
      var s1 := Rounds(env, s, items, poll, m - 1);
      PassCost(env, s1.(now := s1.now + poll), items, items);
      assert m * poll == (m - 1) * poll + poll;
    }
  }

  /** A list of distinct records that leaves one of them out is shorter. */
  lemma {:induction false} OneMissing(log: seq<ChanId>, items: seq<ChanId>, c: ChanId)
    requires Distinct(log) && (forall x | x in log :: x in items) && c in items && c !in log
    ensures |log| <= |items| - 1
    decreases |log|
  {
    if log != [] {
      var n := |log| - 1;
      var x := log[n];
      assert x in items;
      var i :| 0 <= i < |items| && items[i] == x;
      var items' := items[..i] + items[i + 1..];
      forall y | y in log[..n] + [c] ensures y in items' {
        assert y in items && y != x;
        var j :| 0 <= j < |items| && items[j] == y;
        assert items'[if j < i then j else j - 1] == y;
      }
      OneMissing(log[..n], items', c);
    }
  }

  lemma RoundFrom(env: Env, s: S, items: seq<ChanId>, poll: int, i: nat)
    requires i <= |items|
    ensures Round(env, s, items, poll) == Pass(env, At(env, s, items, poll, i), items[i..])
  {
    assert items == items[..i] + items[i..];
    PassSplit(env, s.(now := s.now + poll), items[..i], items[i..]);
  }

  lemma CostToEnd(env: Env, s: S, items: seq<ChanId>, poll: int, i: nat)
    requires GoodLog(s, items) && poll >= 0 && i <= |items|
    ensures var here, end := At(env, s, items, poll, i), Round(env, s, items, poll);
            && GoodLog(here, items) && GoodLog(end, items)
            && here.now <= end.now <= here.now + TRIES * (|end.log| - |here.log|)
  {
    PassCost(env, s.(now := s.now + poll), items[..i], items);
    RoundFrom(env, s, items, poll, i);
    PassCost(env, At(env, s, items, poll, i), items[i..], items);
  }

  lemma CostToHere(env: Env, s: S, items: seq<ChanId>, poll: int, i: nat)
    requires GoodLog(s, items) && poll >= 0 && i <= |items|
    ensures var here := At(env, s, items, poll, i);
            && GoodLog(here, items)
            && s.now + poll <= here.now <= s.now + poll + TRIES * (|here.log| - |s.log|)
  {
    PassCost(env, s.(now := s.now + poll), items[..i], items);
  }

  /** From one visit of a record to the next there is one sleep, and every other record
      blocks the tower at most once. */
  lemma NextTurnCost(env: Env, s: S, items: seq<ChanId>, poll: int, i: nat)
    requires GoodLog(s, items) && poll >= 0 && i < |items|
    ensures var s1 := Round(env, s, items, poll);
            var here, next := At(env, s, items, poll, i), At(env, s1, items, poll, i);
            && GoodLog(here, items) && GoodLog(s1, items) && GoodLog(next, items)
            && s1.now + poll <= next.now <= here.now + poll + TRIES * (|next.log| - |here.log|)
  {
    CostToEnd(env, s, items, poll, i);
    CostToHere(env, Round(env, s, items, poll), items, poll, i);
  }

  /** What one visit does to the log. */
  lemma VisitOf(env: Env, s: S, items: seq<ChanId>, poll: int, i: nat)
    requires i < |items|
    ensures At(env, s, items, poll, i + 1) == Visit(env, At(env, s, items, poll, i), items[i])
  {
    assert items[..i + 1][..i] == items[..i];
  }

  /** Before the visit of record i in a turn, only the records before it are submitted. */
  lemma NotByOthers(env: Env, s: S, items: seq<ChanId>, poll: int, i: nat)
    requires GoodLog(s, items) && Distinct(items) && i < |items|
    ensures items[i] in At(env, s, items, poll, i).log ==> items[i] in s.log
  {
    PassCost(env, s.(now := s.now + poll), items[..i], items);
  }

  /** After the visit of record i in a turn, only the records after it are. */
  lemma NotByLater(env: Env, s: S, items: seq<ChanId>, poll: int, i: nat)
    requires GoodLog(s, items) && Distinct(items) && i < |items|
    ensures items[i] in Round(env, s, items, poll).log ==> items[i] in At(env, s, items, poll, i + 1).log
  {
    PassCost(env, s.(now := s.now + poll), items[..i + 1], items);
    RoundFrom(env, s, items, poll, i + 1);
    PassCost(env, At(env, s, items, poll, i + 1), items[i + 1..], items);
  }

  /** The bound: how late the tower may come to a record after it could see the close. */
  function Limit(items: seq<ChanId>, poll: int, v: int): int {
    v + poll + TRIES * (|items| - 1)
  }

  /** The visit of record i in the turn that starts in s is within the bound, and
      afterwards the record is submitted, unless its claim was not worth it then. */
  predicate Served(env: Env, s: S, items: seq<ChanId>, poll: int, i: nat, v: int)
    requires i < |items|
  {
    var t := At(env, s, items, poll, i);
    && t.now <= Limit(items, poll, v)
    && (items[i] in At(env, s, items, poll, i + 1).log || (v <= t.now && !env.worth(items[i], t.now)))
  }

  /** The visit in this turn comes early enough, because only other records can delay
      it and each of them does so once. */
  lemma ThisVisitInTime(env: Env, s: S, items: seq<ChanId>, poll: int, i: nat, v: int)
    requires GoodLog(s, items) && Distinct(items) && poll >= 0 && i < |items| && s.now <= v
    ensures At(env, s, items, poll, i).now <= Limit(items, poll, v)
  {
    var here := At(env, s, items, poll, i);
    CostToHere(env, s, items, poll, i);
    NotByOthers(env, s, items, poll, i);
    if items[i] !in here.log {
      OneMissing(here.log, items, items[i]);
    } else {
      assert |s.log| >= 1;
      LogFits(here.log, items);
    }
  }

  lemma LogFits(log: seq<ChanId>, items: seq<ChanId>)
    requires Distinct(log) && (forall x | x in log :: x in items)
    ensures |log| <= |items|
  {
    if log != [] {
      var n := |log| - 1;
      OneMissing(log[..n], items, log[n]);
    }
  }

  /** If this visit came too early to see the close, the next one comes in time. */
  lemma NextVisitInTime(env: Env, s: S, items: seq<ChanId>, poll: int, i: nat, v: int)
    requires GoodLog(s, items) && Distinct(items) && poll >= 0 && i < |items|
    requires At(env, s, items, poll, i).now < v <= Round(env, s, items, poll).now
    requires items[i] !in At(env, s, items, poll, i + 1).log
    ensures var next := At(env, Round(env, s, items, poll), items, poll, i);
            v <= next.now <= Limit(items, poll, v) && items[i] !in next.log
  {
    var s1 := Round(env, s, items, poll);
    NextTurnCost(env, s, items, poll, i);
    NotByLater(env, s, items, poll, i);
    NotByOthers(env, s1, items, poll, i);
    OneMissing(At(env, s1, items, poll, i).log, items, items[i]);
  }

  /** Whatever time v falls into the turn that starts in s, record i is served in this
      turn or in the next. */
  lemma ServedWithinTwoTurns(env: Env, s: S, items: seq<ChanId>, poll: int, i: nat, v: int)
    requires GoodLog(s, items) && Distinct(items) && poll >= 0 && i < |items|
    requires s.now <= v <= Round(env, s, items, poll).now && Visible(env, items[i], v)
    ensures Served(env, s, items, poll, i, v) || Served(env, Round(env, s, items, poll), items, poll, i, v)
  {
    var s1 := Round(env, s, items, poll);
    VisitOf(env, s, items, poll, i);
    VisitOf(env, s1, items, poll, i);
    ThisVisitInTime(env, s, items, poll, i, v);
    if At(env, s, items, poll, i).now < v && items[i] !in At(env, s, items, poll, i + 1).log {
      NextVisitInTime(env, s, items, poll, i, v);
    }
  }

  lemma {:induction false} TurnOf(env: Env, s: S, items: seq<ChanId>, poll: int, v: int, m: nat) returns (turn: nat)
    requires GoodLog(s, items) && poll >= 0
    requires s.now <= v <= Rounds(env, s, items, poll, m).now
    ensures m == 0 || turn < m
    ensures m > 0 ==> Rounds(env, s, items, poll, turn).now <= v <= Rounds(env, s, items, poll, turn + 1).now
    decreases m
  {
    if m == 0 {
      turn := 0;
    } else if Rounds(env, s, items, poll, m - 1).now <= v {
      turn := m - 1;
    } else {
      turn := TurnOf(env, s, items, poll, v, m - 1);
    }
  }

  /** The bound over the whole life of the tower. A close of record i that is visible
      from time v on, whenever that is: there is a visit of the record at
      v + poll + 40(n-1) at the latest after which its claim is submitted, unless the
      tower could see the close at this visit and the claim was not worth it. */
  lemma EveryCloseIsReached(env: Env, s: S, items: seq<ChanId>, poll: int, i: nat, v: int) returns (turn: nat)
    requires GoodLog(s, items) && Distinct(items) && poll > 0 && i < |items|
    requires s.now <= v && Visible(env, items[i], v)
    ensures var start := Rounds(env, s, items, poll, turn);
            var t := At(env, start, items, poll, i);
            && t.now <= v + poll + 40 * (|items| - 1)
            && (|| items[i] in At(env, start, items, poll, i + 1).log
                || (v <= t.now && !env.worth(items[i], t.now)))
  {
    var m: nat := v - s.now + 1;
    RoundsCost(env, s, items, poll, m);
    assert m * poll >= m;
    turn := TurnOf(env, s, items, poll, v, m);
    var start := Rounds(env, s, items, poll, turn);
    RoundsCost(env, s, items, poll, turn);
    ServedWithinTwoTurns(env, start, items, poll, i, v);
    if !Served(env, start, items, poll, i, v) {
      turn := turn + 1;
    }
  }

  /** The tower has a reason to submit the claim of channel `c` at time `t`: the payer has
      scheduled the close, and the claim is still worth redeeming. */
  predicate Reason(env: Env, c: ChanId, t: int) {
    env.shows(c).Some? && env.shows(c).value <= t && env.worth(c, t)
  }

  lemma {:induction false} PassHasReason(env: Env, s: S, visited: seq<ChanId>, c: ChanId) returns (i: nat)
    requires c in Pass(env, s, visited).log && c !in s.log
    ensures i < |visited| && visited[i] == c && c !in Pass(env, s, visited[..i]).log
    ensures env.shows(c).Some? && env.shows(c).value <= Pass(env, s, visited[..i]).now
    ensures env.worth(c, Pass(env, s, visited[..i]).now)
    decreases |visited|
  {
    var n := |visited| - 1;
    if c in Pass(env, s, visited[..n]).log {
      i := PassHasReason(env, s, visited[..n], c);
      assert visited[..n][..i] == visited[..i];
    } else {
      i := n;
    }
  }

  /** The tower submits nothing without need: every claim it has submitted belongs to a
      channel that showed an expiration at the visit that submitted it, and was worth
      redeeming then. */
  lemma {:induction false} SubmittedForAReason(env: Env, s: S, items: seq<ChanId>, poll: int, m: nat, c: ChanId)
    returns (turn: nat, i: nat)
    requires c in Rounds(env, s, items, poll, m).log && c !in s.log
    ensures turn < m && i < |items| && items[i] == c
    ensures var t := At(env, Rounds(env, s, items, poll, turn), items, poll, i);
            && c !in t.log
            && env.shows(c).Some? && env.shows(c).value <= t.now && env.worth(c, t.now)
    decreases m
  {
    var s1 := Rounds(env, s, items, poll, m - 1);
    if c in s1.log {
      turn, i := SubmittedForAReason(env, s, items, poll, m - 1, c);
    } else {
      turn := m - 1;
      i := PassHasReason(env, s1.(now := s1.now + poll), items, c);
    }
  }

  /** So a channel whose close is never scheduled is never closed by the tower. */
  lemma NeverShownNeverSubmitted(env: Env, s: S, items: seq<ChanId>, poll: int, m: nat, c: ChanId)
    requires c !in s.log && env.shows(c).None?
    ensures c !in Rounds(env, s, items, poll, m).log
  {
    if c in Rounds(env, s, items, poll, m).log {
      var _, _ := SubmittedForAReason(env, s, items, poll, m, c);
    }
  }

  /** No record is ever submitted twice. */
  lemma SubmittedAtMostOnce(env: Env, s: S, items: seq<ChanId>, poll: int, m: nat)
    requires GoodLog(s, items) && poll >= 0
    ensures Distinct(Rounds(env, s, items, poll, m).log)
    ensures |Rounds(env, s, items, poll, m).log| <= |items|
  {
    RoundsCost(env, s, items, poll, m);
    LogFits(Rounds(env, s, items, poll, m).log, items);
  }

  /** The loop of the tower over the records it copied at the start of a turn. */
  class Loop {
    var now: int
    var log: seq<ChanId>

    function Now(): S
      reads this
    {
      S(now, log)
    }

    constructor (start: int)
      ensures Now() == S(start, [])
    {
      now := start;
      log := [];
    }

    /** `submit_blob`: after the submission the loop asks every second, 40 times at
        most, whether the blob is validated. */
    method SubmitBlob(env: Env, c: ChanId) returns (found: bool)
      modifies this
      ensures Now() == S(old(now) + Blocks(env, c), old(log) + [c])
      ensures old(now) < now <= old(now) + 40 && (found <==> env.validated(c, now - old(now)))
      ensures !found ==> now == old(now) + 40
      ensures forall n: nat | 1 <= n < now - old(now) :: !env.validated(c, n)
    {
      log := log + [c];
      var n: nat := 0;
      found := false;
      while n < TRIES && !found
        invariant n <= TRIES && now == old(now) + n && log == old(log) + [c]
        invariant forall m: nat | 1 <= m < n :: !env.validated(c, m)
        invariant if found then 0 < n && env.validated(c, n) else n == 0 || !env.validated(c, n)
      {
        now := now + 1;
        n := n + 1;
        found := env.validated(c, n);
      }
      BlocksUntil(env, c, 0, n);
    }

    /** One turn over the records that the tower copied at its start. The ledger answers
        for the first `answered` of them; at the first read that fails the turn ends. */
    method Turn(env: Env, items: seq<ChanId>, poll: int, answered: nat)
      modifies this
      ensures Now() == if answered < |items| then At(env, old(Now()), items, poll, answered)
                       else Round(env, old(Now()), items, poll)
      ensures forall c | c in log && c !in old(log) ::
                c in items && exists t :: old(now) + poll <= t <= now && Reason(env, c, t)
    {
      now := now + poll;
      ghost var s0 := Now();
      var i := 0;
      while i < |items|
        invariant 0 <= i <= |items| && i <= answered
        invariant Now() == Pass(env, s0, items[..i]) && old(now) + poll <= now
        invariant forall c | c in log && c !in old(log) ::
                    c in items && exists t :: old(now) + poll <= t <= now && Reason(env, c, t)
      {
        if i >= answered {
          return;
        }
        var c := items[i];
        var expiration := env.shows(c);
        if expiration.Some? && expiration.value <= now && env.worth(c, now) && c !in log {
          assert Reason(env, c, now);
          var _ := SubmitBlob(env, c);
        }
        assert items[..i + 1][..i] == items[..i];
        i := i + 1;
      }
      assert items[..|items|] == items;
    }
  }
}
