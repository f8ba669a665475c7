/** The dispute on the Adjudicator. Anyone may register a signed state; a newer version
    is accepted until the timeout, which the first registration sets; at the timeout the
    channel concludes with the version that is registered. */
module PerunDispute {
  import opened Options
  import opened PerunTower
  import PerunFeed

  /** `challenge` is the challenge duration, `reaction` how long the watcher of the tower
      takes to handle a registration, `newest` the largest version that both parties
      ever signed. */
  datatype Rules = Rules(challenge: int, reaction: int, newest: nat)

  datatype Dispute = Dispute(version: nat, timeout: int)

  /** `since` is when the first registration happened, and `owed` until when the watcher
      has to handle the registrations that it has not handled yet. */
  datatype World = World(now: int, dispute: Option<Dispute>, since: int, concluded: Option<nat>, owed: Option<int>)

  datatype Event = Register(version: nat) | TowerRegisters | Conclude | Tick(d: int)

  /** A registration on the Adjudicator; a refused one changes nothing. If the tower
      watches the channel, its watcher has to handle it. */
  function Registered(k: Rules, watched: bool, w: World, version: nat): World {
    var owed := if w.owed.Some? || !watched then w.owed else Some(w.now + k.reaction);
    if version > k.newest || w.concluded.Some? then w
    else if w.dispute.None? then
      w.(dispute := Some(Dispute(version, w.now + k.challenge)), since := w.now, owed := owed)
    else if version > w.dispute.value.version && w.now < w.dispute.value.timeout then
      w.(dispute := Some(w.dispute.value.(version := version)), owed := owed)
    else w
  }

  /** `held` is the version that the tower holds; None stands for a channel that it does
      not watch. The watcher handles every registration by registering what the tower
      holds then. */
  function Step(k: Rules, held: Option<nat>, w: World, e: Event): Option<World> {
    match e
    case Register(v) => Some(Registered(k, held.Some?, w, v))
    case TowerRegisters => if held.None? then None else Some(Registered(k, true, w, held.value).(owed := None))
    case Conclude =>
      if w.dispute.None? || w.now < w.dispute.value.timeout || w.concluded.Some? then None
      else Some(w.(concluded := Some(w.dispute.value.version)))
    case Tick(d) =>
      if d <= 0 || (w.owed.Some? && w.dispute.Some? && w.now < w.dispute.value.timeout && w.now + d > w.owed.value)
      then None
      else Some(w.(now := w.now + d))
  }

  function Exec(k: Rules, held: Option<nat>, w: World, run: seq<Event>): Option<World>
    decreases |run|
  {
    if run == [] then Some(w)
    else
      var w1 := Step(k, held, w, run[0]);
      if w1.None? then None else Exec(k, held, w1.value, run[1..])
  }

  function Calm(now: int): World {
    World(now, None, now, None, None)
  }

  /** What holds whatever the tower does. */
  predicate Orderly(k: Rules, w: World) {
    && w.since <= w.now
    && (w.dispute.None? ==> w.concluded.None? && w.owed.None?)
    && (w.dispute.Some? ==>
          && w.dispute.value.timeout == w.since + k.challenge
          && w.dispute.value.version <= k.newest
          && (w.concluded.Some? ==> w.concluded.value == w.dispute.value.version)
          && (w.owed.Some? && w.owed.value < w.dispute.value.timeout ==> w.now <= w.owed.value && w.concluded.None?))
  }

  /** The tower still gets to handle a registration before the timeout. */
  predicate Unanswered(w: World) {
    w.dispute.None? || (w.owed.Some? && w.owed.value < w.dispute.value.timeout)
  }

  /** Either the registered version is not older than `held`, or it is still unanswered. */
  predicate Inv(k: Rules, held: nat, w: World) {
    Orderly(k, w) && (w.dispute.Some? && w.dispute.value.version < held ==> Unanswered(w))
  }

  lemma StepInv(k: Rules, held: nat, w: World, e: Event)
    requires 0 <= k.reaction < k.challenge && held <= k.newest && Inv(k, held, w) && Step(k, Some(held), w, e).Some?
    ensures var w' := Step(k, Some(held), w, e).value;
            && Inv(k, held, w')
            && (w.dispute.Some? ==> w'.dispute.Some? && w.dispute.value.version <= w'.dispute.value.version)
            && (w.concluded.Some? ==> w'.concluded == w.concluded)
  {
  }

  /** In every run of registrations by anyone the registered version never decreases and
      a concluded channel stays as it is. If the watcher reacts faster than the
      challenge duration, the channel concludes with a version at least as new as the
      one that the tower holds, whatever was registered first. */
  lemma {:induction false} TowerRefutes(k: Rules, held: nat, w: World, run: seq<Event>)
    requires 0 <= k.reaction < k.challenge && held <= k.newest && Inv(k, held, w) && Exec(k, Some(held), w, run).Some?
    ensures var w' := Exec(k, Some(held), w, run).value;
            && Inv(k, held, w')
            && (w.dispute.Some? ==> w'.dispute.Some? && w.dispute.value.version <= w'.dispute.value.version)
            && (w.concluded.Some? ==> w'.concluded == w.concluded)
            && (w'.concluded.Some? ==> held <= w'.concluded.value <= k.newest)
    decreases |run|
  {
    if run != [] {
      StepInv(k, held, w, run[0]);
      TowerRefutes(k, held, Step(k, Some(held), w, run[0]).value, run[1..]);
    }
  }

  /** The reaction time is a bound that the tower can keep, not one that stops the
      clock: after its answer, time can pass again. */
  lemma ClockRuns(k: Rules, held: nat, w: World)
    requires 0 <= k.reaction < k.challenge && held <= k.newest && Inv(k, held, w)
    ensures var answered := Step(k, Some(held), w, TowerRegisters).value;
            Step(k, Some(held), w, Tick(1)).Some? || Step(k, Some(held), answered, Tick(1)).Some?
  {
  }

  // ---- without a bound on the reaction ----

  /** Once the tower has registered the newest version in time, nothing takes it back. */
  ghost predicate Answered(k: Rules, w: World) {
    w.dispute.Some? && w.dispute.value.version == k.newest
    && (w.concluded.Some? ==> w.concluded.value == k.newest)
  }

  lemma AnswerInTime(k: Rules, w: World)
    requires w.concluded.None?
    requires w.dispute.Some? ==> w.now < w.dispute.value.timeout && w.dispute.value.version <= k.newest
    ensures Answered(k, Step(k, Some(k.newest), w, TowerRegisters).value)
  {
  }

  lemma {:induction false} AnswerStands(k: Rules, w: World, run: seq<Event>)
    requires Answered(k, w) && Exec(k, Some(k.newest), w, run).Some?
    ensures Answered(k, Exec(k, Some(k.newest), w, run).value)
    decreases |run|
  {
    if run != [] {
      AnswerStands(k, Step(k, Some(k.newest), w, run[0]).value, run[1..]);
    }
  }

  /** If the register step of the tower happens before the timeout, at any point of any
      run, the channel can only conclude with the newest version. */
  lemma AnsweredRunConcludesNewest(k: Rules, now: int, before: seq<Event>, after: seq<Event>)
    requires Exec(k, Some(k.newest), Calm(now), before).Some?
    requires var w := Exec(k, Some(k.newest), Calm(now), before).value;
             && w.concluded.None? && (w.dispute.Some? ==> w.now < w.dispute.value.timeout)
             && Exec(k, Some(k.newest), Registered(k, true, w, k.newest), after).Some?
    ensures var w := Exec(k, Some(k.newest), Calm(now), before).value;
            var end := Exec(k, Some(k.newest), Registered(k, true, w, k.newest), after).value;
            end.concluded.Some? ==> end.concluded.value == k.newest
  {
    var w := Exec(k, Some(k.newest), Calm(now), before).value;
    VersionsAreSigned(k, k.newest, Calm(now), before);
    AnswerInTime(k, w);
    AnswerStands(k, Registered(k, true, w, k.newest), after);
  }

  lemma {:induction false} VersionsAreSigned(k: Rules, held: nat, w: World, run: seq<Event>)
    requires (w.dispute.Some? ==> w.dispute.value.version <= k.newest) && held <= k.newest
    requires Exec(k, Some(held), w, run).Some?
    ensures var w' := Exec(k, Some(held), w, run).value;
            w'.dispute.Some? ==> w'.dispute.value.version <= k.newest
    decreases |run|
  {
    if run != [] {
      VersionsAreSigned(k, held, Step(k, Some(held), w, run[0]).value, run[1..]);
    }
  }

  function Held(t: Tower, id: Id): Option<nat> {
    if id in t.seen then Some(t.seen[id]) else None
  }

  // ---- feed and dispute together ----

  datatype Joint = Joint(feed: PerunFeed.Feed, chain: World)

  datatype JointEvent = OfFeed(f: PerunFeed.Event) | OfChain(c: Event)

  /** The dispute sees what the tower holds at that moment. A tower that no longer watches
      the channel handles nothing, and one that starts to watch it handles the
      registrations from then on. */
  function JointStep(k: Rules, id: Id, j: Joint, e: JointEvent): Option<Joint>
    requires SameKeys(j.feed.tower)
  {
    match e
    case OfFeed(f) =>
      var r := PerunFeed.Step(j.feed, id, f);
      if r.None? then None
      else Some(Joint(r.value, if Held(r.value.tower, id).None? then j.chain.(owed := None) else j.chain))
    case OfChain(c) =>
      var r := Step(k, Held(j.feed.tower, id), j.chain, c);
      if r.None? then None else Some(j.(chain := r.value))
  }

  lemma JointStepGood(k: Rules, id: Id, j: Joint, e: JointEvent)
    requires Good(j.feed.tower)
    ensures JointStep(k, id, j, e).Some? ==> Good(JointStep(k, id, j, e).value.feed.tower)
  {
    if e.OfFeed? {
      PerunFeed.StepKeepsGood(j.feed, id, e.f);
    }
  }

  ghost function JointExec(k: Rules, id: Id, j: Joint, run: seq<JointEvent>): (r: Option<Joint>)
    requires Good(j.feed.tower)
    ensures r.Some? ==> Good(r.value.feed.tower)
    decreases |run|
  {
    if run == [] then Some(j)
    else
      JointStepGood(k, id, j, run[0]);
      var j1 := JointStep(k, id, j, run[0]);
      if j1.None? then None else JointExec(k, id, j1.value, run[1..])
  }

  function Start(leaves: nat, now: int): Joint {
    Joint(PerunFeed.InitFeed(leaves), Calm(now))
  }

  /** The leaves queue only what both parties have signed, and no stop. */
  predicate Honest(k: Rules, id: Id, e: JointEvent) {
    e.OfFeed? && e.f.EnqueueMsg? ==>
      e.f.m != Stop(id) && (Brings(e.f.m, id).Some? ==> Brings(e.f.m, id).value <= k.newest)
  }

  predicate SignedMsg(k: Rules, id: Id, m: Msg) {
    Brings(m, id).Some? ==> Brings(m, id).value <= k.newest
  }

  /** Nothing newer than the newest signed version is anywhere. */
  ghost predicate AllSigned(k: Rules, id: Id, f: PerunFeed.Feed) {
    && (forall i | 0 <= i < |f.leaves| ::
          && (forall m | m in f.leaves[i].queue :: SignedMsg(k, id, m))
          && (f.leaves[i].current.Some? ==> SignedMsg(k, id, f.leaves[i].current.value)))
    && (forall m | m in f.sent :: SignedMsg(k, id, m))
    && (Held(f.tower, id).Some? ==> Held(f.tower, id).value <= k.newest)
  }

  lemma StepSigned(k: Rules, id: Id, f: PerunFeed.Feed, e: PerunFeed.Event)
    requires Good(f.tower) && AllSigned(k, id, f) && Honest(k, id, OfFeed(e)) && PerunFeed.Step(f, id, e).Some?
    ensures AllSigned(k, id, PerunFeed.Step(f, id, e).value)
  {
    match e
    case TakeItem(i) => assert forall m | m in f.leaves[i].queue[1..] :: m in f.leaves[i].queue;
    case _ =>
  }

  ghost predicate JointInv(k: Rules, id: Id, j: Joint) {
    && PerunFeed.FeedInv(j.feed, id) && AllSigned(k, id, j.feed) && Orderly(k, j.chain)
    && (j.chain.owed.Some? ==> Held(j.feed.tower, id).Some?)
  }

  lemma JointStepInv(k: Rules, id: Id, j: Joint, e: JointEvent)
    requires 0 <= k.reaction && JointInv(k, id, j) && Honest(k, id, e) && JointStep(k, id, j, e).Some?
    ensures JointInv(k, id, JointStep(k, id, j, e).value)
  {
    if e.OfFeed? {
      PerunFeed.StepInv(j.feed, id, e.f);
      StepSigned(k, id, j.feed, e.f);
    }
  }

  lemma {:induction false} JointRunInv(k: Rules, id: Id, j: Joint, run: seq<JointEvent>)
    requires 0 <= k.reaction && JointInv(k, id, j) && JointExec(k, id, j, run).Some?
    requires forall e | e in run :: Honest(k, id, e)
    ensures JointInv(k, id, JointExec(k, id, j, run).value)
    decreases |run|
  {
    if run != [] {
      JointStepInv(k, id, j, run[0]);
      JointRunInv(k, id, JointStep(k, id, j, run[0]).value, run[1..]);
    }
  }

  /** The tower holds the newest version, and the dispute is not decided otherwise. */
  ghost predicate Protected(k: Rules, id: Id, j: Joint) {
    JointInv(k, id, j) && PerunFeed.Holds(j.feed.tower, id, k.newest) && Inv(k, k.newest, j.chain)
  }

  lemma StepProtected(k: Rules, id: Id, j: Joint, e: JointEvent)
    requires 0 <= k.reaction < k.challenge && Protected(k, id, j) && JointStep(k, id, j, e).Some?
    requires Honest(k, id, e) && e != OfFeed(PerunFeed.TowerRestart)
    ensures Protected(k, id, JointStep(k, id, j, e).value)
  {
    JointStepInv(k, id, j, e);
    match e
    case OfFeed(f) => PerunFeed.StepHolds(j.feed, id, f, k.newest);
    case OfChain(c) => StepInv(k, k.newest, j.chain, c);
  }

  lemma {:induction false} RunProtected(k: Rules, id: Id, j: Joint, run: seq<JointEvent>)
    requires 0 <= k.reaction < k.challenge && Protected(k, id, j) && JointExec(k, id, j, run).Some?
    requires forall e | e in run :: Honest(k, id, e) && e != OfFeed(PerunFeed.TowerRestart)
    ensures Protected(k, id, JointExec(k, id, j, run).value)
    decreases |run|
  {
    if run != [] {
      StepProtected(k, id, j, run[0]);
      RunProtected(k, id, JointStep(k, id, j, run[0]).value, run[1..]);
    }
  }

  /** Feed and dispute interleave freely. At some moment a leaf has queued the newest
      signed version and its queue is drained, with nothing refused; a dispute has not
      started, or the tower has not answered it yet. Then the leaf may go offline:
      whatever the peer registers and the leaves send, the channel concludes with the
      newest version, unless the tower restarts. */
  lemma VictimIsSafe(k: Rules, leaves: nat, id: Id, now: int, before: seq<JointEvent>, i: nat, after: seq<JointEvent>)
    requires 0 <= k.reaction < k.challenge && i < leaves
    requires forall e | e in before + after :: Honest(k, id, e)
    requires OfFeed(PerunFeed.TowerRestart) !in after
    requires JointExec(k, id, Start(leaves, now), before).Some?
    requires var j := JointExec(k, id, Start(leaves, now), before).value;
             && i < |j.feed.leaves| && PerunFeed.Drained(j.feed.leaves[i]) && !j.feed.leaves[i].refused
             && k.newest in j.feed.leaves[i].kept && Unanswered(j.chain)
             && JointExec(k, id, j, after).Some?
    ensures var j := JointExec(k, id, Start(leaves, now), before).value;
            NotOlder(k, JointExec(k, id, j, after).value.chain)
  {
    var j := JointExec(k, id, Start(leaves, now), before).value;
    assert forall e | e in before :: e in before + after;
    assert forall e | e in after :: e in before + after;
    JointRunInv(k, id, Start(leaves, now), before);
    assert PerunFeed.LeafInv(j.feed.leaves[i], j.feed.tower, id);
    RunProtected(k, id, j, after);
  }

  // ---- a restart of the tower ----

  /** From here on the tower does not restart, and the leaves are honest. */
  predicate Calmly(k: Rules, id: Id, run: seq<JointEvent>) {
    forall i | 0 <= i < |run| :: Honest(k, id, run[i]) && run[i] != OfFeed(PerunFeed.TowerRestart)
  }

  predicate NotOlder(k: Rules, w: World) {
    w.concluded.Some? ==> w.concluded.value == k.newest
  }

  /** Every such run concludes with the newest version, if it concludes. */
  ghost predicate AlwaysNewest(k: Rules, id: Id, j: Joint)
    requires Good(j.feed.tower)
  {
    forall run: seq<JointEvent> | Calmly(k, id, run) && JointExec(k, id, j, run).Some? ::
      NotOlder(k, JointExec(k, id, j, run).value.chain)
  }

  predicate NewestRegistered(k: Rules, w: World) {
    w.dispute.Some? && w.dispute.value.version == k.newest
  }

  lemma {:induction false} RegisteredStays(k: Rules, id: Id, j: Joint, run: seq<JointEvent>)
    requires 0 <= k.reaction < k.challenge && JointInv(k, id, j) && NewestRegistered(k, j.chain)
    requires Calmly(k, id, run) && JointExec(k, id, j, run).Some?
    ensures NotOlder(k, JointExec(k, id, j, run).value.chain)
    decreases |run|
  {
    if run != [] {
      JointStepInv(k, id, j, run[0]);
      RegisteredStays(k, id, JointStep(k, id, j, run[0]).value, run[1..]);
    }
  }

  lemma JointFirst(k: Rules, id: Id, j: Joint, e: JointEvent, rest: seq<JointEvent>)
    requires Good(j.feed.tower) && JointStep(k, id, j, e).Some? && Good(JointStep(k, id, j, e).value.feed.tower)
    ensures JointExec(k, id, j, [e] + rest) == JointExec(k, id, JointStep(k, id, j, e).value, rest)
  {
    assert ([e] + rest)[1..] == rest;
  }

  /** When the tower does nothing any more, the registered version is the outcome. */
  lemma ConcludesWith(k: Rules, id: Id, j: Joint) returns (run: seq<JointEvent>)
    requires Good(j.feed.tower) && j.chain.dispute.Some? && j.chain.concluded.None?
    requires j.chain.owed.Some? ==> j.chain.dispute.value.timeout <= j.chain.owed.value
    ensures Calmly(k, id, run) && JointExec(k, id, j, run).Some?
    ensures JointExec(k, id, j, run).value.chain.concluded == Some(j.chain.dispute.value.version)
  {
    run := [OfChain(Conclude)];
    var d := j.chain.dispute.value.timeout - j.chain.now;
    if d > 0 {
      var j1 := JointStep(k, id, j, OfChain(Tick(d))).value;
      JointFirst(k, id, j1, OfChain(Conclude), []);
      JointFirst(k, id, j, OfChain(Tick(d)), run);
      run := [OfChain(Tick(d))] + run;
    } else {
      JointFirst(k, id, j, OfChain(Conclude), []);
    }
  }

  /** If the tower holds nothing new, its answer does not help. */
  lemma OldAnswerLoses(k: Rules, id: Id, j: Joint) returns (run: seq<JointEvent>)
    requires JointInv(k, id, j) && !PerunFeed.Holds(j.feed.tower, id, k.newest)
    requires j.chain.dispute.Some? && j.chain.concluded.None? && j.chain.dispute.value.version < k.newest
    ensures Calmly(k, id, run) && JointExec(k, id, j, run).Some?
    ensures var c := JointExec(k, id, j, run).value.chain.concluded;
            c.Some? && c.value < k.newest
  {
    if j.chain.owed.None? {
      run := ConcludesWith(k, id, j);
    } else {
      var j1 := JointStep(k, id, j, OfChain(TowerRegisters)).value;
      var rest := ConcludesWith(k, id, j1);
      JointFirst(k, id, j, OfChain(TowerRegisters), rest);
      run := [OfChain(TowerRegisters)] + rest;
    }
  }

  /** Otherwise the peer registers an old version and gets through with it. */
  lemma OldVersionWins(k: Rules, id: Id, j: Joint) returns (run: seq<JointEvent>)
    requires 0 <= k.reaction < k.challenge && 0 < k.newest && JointInv(k, id, j)
    requires !(Inv(k, k.newest, j.chain)
               && (PerunFeed.Holds(j.feed.tower, id, k.newest) || NewestRegistered(k, j.chain)))
    ensures Calmly(k, id, run) && JointExec(k, id, j, run).Some?
    ensures var c := JointExec(k, id, j, run).value.chain.concluded;
            c.Some? && c.value < k.newest
  {
    if j.chain.concluded.Some? {
      run := [];
    } else if j.chain.dispute.None? {
      var j1 := JointStep(k, id, j, OfChain(Register(0))).value;
      JointStepInv(k, id, j, OfChain(Register(0)));
      var rest := OldAnswerLoses(k, id, j1);
      JointFirst(k, id, j, OfChain(Register(0)), rest);
      run := [OfChain(Register(0))] + rest;
    } else if PerunFeed.Holds(j.feed.tower, id, k.newest) {
      run := ConcludesWith(k, id, j);
    } else {
      run := OldAnswerLoses(k, id, j);
    }
  }

  /** The exact condition, at any moment: every honest continuation without a restart of
      the tower concludes with the newest version if and only if it is registered, or the
      tower holds it and no older registration has escaped its answer. */
  lemma NewestExactly(k: Rules, id: Id, j: Joint)
    requires 0 <= k.reaction < k.challenge && 0 < k.newest && JointInv(k, id, j)
    ensures AlwaysNewest(k, id, j) <==>
            && Inv(k, k.newest, j.chain)
            && (PerunFeed.Holds(j.feed.tower, id, k.newest) || NewestRegistered(k, j.chain))
  {
    if Inv(k, k.newest, j.chain) && (PerunFeed.Holds(j.feed.tower, id, k.newest) || NewestRegistered(k, j.chain)) {
      forall run: seq<JointEvent> | Calmly(k, id, run) && JointExec(k, id, j, run).Some?
        ensures NotOlder(k, JointExec(k, id, j, run).value.chain)
      {
        if NewestRegistered(k, j.chain) {
          RegisteredStays(k, id, j, run);
        } else {
          RunProtected(k, id, j, run);
        }
      }
    } else {
      var run := OldVersionWins(k, id, j);
    }
  }

  function Restarted(k: Rules, id: Id, j: Joint): Joint
    requires SameKeys(j.feed.tower)
  {
    JointStep(k, id, j, OfFeed(PerunFeed.TowerRestart)).value
  }

  /** What a restart of the tower costs, at any moment of any run from the start: the
      newest version is safe afterwards if and only if it is registered already. */
  lemma RestartExactly(k: Rules, leaves: nat, id: Id, now: int, before: seq<JointEvent>)
    requires 0 <= k.reaction < k.challenge && 0 < k.newest
    requires (forall e | e in before :: Honest(k, id, e)) && JointExec(k, id, Start(leaves, now), before).Some?
    ensures var j := JointExec(k, id, Start(leaves, now), before).value;
            && Good(Restarted(k, id, j).feed.tower)
            && (AlwaysNewest(k, id, Restarted(k, id, j)) <==> NewestRegistered(k, j.chain))
  {
    var j := JointExec(k, id, Start(leaves, now), before).value;
    JointRunInv(k, id, Start(leaves, now), before);
    JointStepInv(k, id, j, OfFeed(PerunFeed.TowerRestart));
    NewestExactly(k, id, Restarted(k, id, j));
  }

  /** And it happens: a leaf meets the hypothesis of VictimIsSafe and goes offline, the
      tower restarts, and the channel concludes with an older version. */
  lemma RestartHappens(k: Rules, id: Id, now: int) returns (before: seq<JointEvent>, after: seq<JointEvent>)
    requires 0 <= k.reaction < k.challenge && 0 < k.newest
    ensures (forall e | e in before :: Honest(k, id, e)) && JointExec(k, id, Start(1, now), before).Some?
    ensures var j := JointExec(k, id, Start(1, now), before).value;
            && |j.feed.leaves| == 1 && PerunFeed.Drained(j.feed.leaves[0]) && !j.feed.leaves[0].refused
            && k.newest in j.feed.leaves[0].kept && Unanswered(j.chain)
            && Good(Restarted(k, id, j).feed.tower)
            && Calmly(k, id, after) && JointExec(k, id, Restarted(k, id, j), after).Some?
            && var c := JointExec(k, id, Restarted(k, id, j), after).value.chain.concluded;
            c.Some? && c.value < k.newest
  {
    var m := PerunTower.Start(id, Some(k.newest));
    before := Delivery(m);
    var j := FirstDelivery(k, id, now, m, before);
    JointRunInv(k, id, Start(1, now), before);
    JointStepInv(k, id, j, OfFeed(PerunFeed.TowerRestart));
    after := OldVersionWins(k, id, Restarted(k, id, j));
  }

  /** One leaf hands one message to the tower. */
  function Delivery(m: Msg): seq<JointEvent> {
    [OfFeed(PerunFeed.EnqueueMsg(0, m)), OfFeed(PerunFeed.TakeItem(0)), OfFeed(PerunFeed.Attempt(0, true, true))]
  }

  lemma FirstDelivery(k: Rules, id: Id, now: int, m: Msg, run: seq<JointEvent>) returns (j: Joint)
    requires m == PerunTower.Start(id, Some(k.newest))
    requires run == Delivery(m)
    ensures JointExec(k, id, Start(1, now), run) == Some(j) && j.chain == Calm(now)
    ensures |j.feed.leaves| == 1 && PerunFeed.Drained(j.feed.leaves[0]) && !j.feed.leaves[0].refused
    ensures k.newest in j.feed.leaves[0].kept
  {
    var j0 := Start(1, now);
    var j1 := JointStep(k, id, j0, run[0]).value;
    var j2 := JointStep(k, id, j1, run[1]).value;
    j := JointStep(k, id, j2, run[2]).value;
    assert [m][0] == m;
    JointFirst(k, id, j2, run[2], []);
    JointFirst(k, id, j1, run[1], [run[2]]);
    JointFirst(k, id, j0, run[0], [run[1], run[2]]);
    assert run == [run[0]] + ([run[1]] + ([run[2]] + []));
    assert [run[1], run[2]] == [run[1]] + [run[2]] && [run[2]] == [run[2]] + [];
  }
}
