/** The watchtower of the Ethereum arm: the two maps of `tower` and the way it applies the
    messages of the leaves. A state is represented by its version. */
module PerunTower {
  import opened Options

  type Id = int

  /** A decoded message; a start or an update may carry no state. */
  datatype Msg =
    | Start(id: Id, state: Option<nat>)
    | Update(id: Id, state: Option<nat>)
    | Stop(id: Id)
    | Other(kind: nat)

  /** `pubs` maps a channel to the versions handed to the watcher since it was started,
      oldest first; `seen` to the version that the tower holds. */
  datatype Tower = Tower(pubs: map<Id, seq<nat>>, seen: map<Id, nat>)

  /** `publish`; `works` says whether the watcher takes the state. */
  function Publish(t: Tower, id: Id, state: Option<nat>, works: bool): (Tower, bool)
    requires id in t.pubs && id in t.seen
  {
    if state.None? then (t, false)
    else if state.value < t.seen[id] then (t, true)
    else if !works then (t, false)
    else (Tower(t.pubs[id := t.pubs[id] + [state.value]], t.seen[id := state.value]), true)
  }

  /** `apply`: the maps afterwards, and whether the answer is OK. */
  function Apply(t: Tower, m: Msg, works: bool): (Tower, bool)
    requires SameKeys(t)
  {
    match m
    case Start(id, state) =>
      if id in t.pubs then Publish(t, id, state, works)
      else if state.None? || !works then (t, false)
      else (Tower(t.pubs[id := [state.value]], t.seen[id := state.value]), true)
    case Update(id, state) =>
      if id !in t.pubs then (t, false) else Publish(t, id, state, works)
    case Stop(id) =>
      if id !in t.pubs then (t, true) else (Tower(t.pubs - {id}, t.seen - {id}), works)
    case Other(_) => (t, false)
  }

  predicate SameKeys(t: Tower) {
    t.pubs.Keys == t.seen.Keys
  }

  ghost predicate Rising(versions: seq<nat>) {
    forall i, j | 0 <= i < j < |versions| :: versions[i] <= versions[j]
  }

  /** The maps have the same keys, the watcher never gets a version older than one it
      got before, and the newest one it got is the one in `seen`. */
  ghost predicate Good(t: Tower) {
    && SameKeys(t)
    && forall id | id in t.pubs ::
         t.pubs[id] != [] && Rising(t.pubs[id]) && t.pubs[id][|t.pubs[id]| - 1] == t.seen[id]
  }

  lemma ApplyKeepsGood(t: Tower, m: Msg, works: bool)
    requires Good(t)
    ensures Good(Apply(t, m, works).0)
  {
  }

  /** The answer to a start or update that carries version `v`, and what it does: OK if
      and only if the channel is watched or the message is a start, and the version is
      older than the one held or the watcher takes it. After OK the tower holds the
      larger of the two versions, and the watcher has got a version that is not older;
      after ERR nothing has changed. */
  lemma StateAnswered(t: Tower, m: Msg, works: bool, id: Id, v: nat)
    requires Good(t) && (m == Start(id, Some(v)) || m == Update(id, Some(v)))
    ensures var (t', ok) := Apply(t, m, works);
            && (ok <==> (id in t.seen || m.Start?) && ((id in t.seen && v < t.seen[id]) || works))
            && (!ok ==> t' == t)
            && (ok && id in t.seen && v < t.seen[id] ==> t' == t)
            && (ok && !(id in t.seen && v < t.seen[id]) ==>
                  && id in t'.seen && t'.seen[id] == v
                  && id in t'.pubs && t'.pubs[id] == (if id in t.pubs then t.pubs[id] else []) + [v])
  {
  }

  /** A message without a state, and one of an unknown kind, is answered ERR. */
  lemma StatelessRefused(t: Tower, m: Msg, works: bool, id: Id)
    requires Good(t) && (m == Start(id, None) || m == Update(id, None) || m.Other?)
    ensures Apply(t, m, works) == (t, false)
  {
  }

  /** A stop takes the channel out of both maps, whatever the watcher does; the answer is
      ERR exactly if the watcher of a watched channel fails. */
  lemma StopAnswered(t: Tower, works: bool, id: Id)
    requires Good(t)
    ensures var (t', ok) := Apply(t, Stop(id), works);
            id !in t'.seen && id !in t'.pubs && (ok <==> id !in t.seen || works)
  {
  }

  /** After that nothing but a start brings the channel back, and every update is
      answered ERR. */
  lemma {:induction false} StoppedUntilStart(t: Tower, run: seq<Input>, id: Id, v: nat, works: bool)
    requires Good(t) && id !in t.seen
    requires forall i | 0 <= i < |run| :: !(run[i].m.Start? && run[i].m.id == id)
    ensures id !in Exec(t, run).seen && id !in Exec(t, run).pubs
    ensures !Apply(Exec(t, run), Update(id, Some(v)), works).1
    decreases |run|
  {
    if run != [] {
      var n := |run| - 1;
      StoppedUntilStart(t, run[..n], id, v, works);
      assert !(run[n].m.Start? && run[n].m.id == id);
    }
  }

  /** One input of the tower: a message, and whether the watcher works on it. */
  datatype Input = Input(m: Msg, works: bool)

  ghost function Exec(t: Tower, run: seq<Input>): (t': Tower)
    requires Good(t)
    ensures Good(t')
    decreases |run|
  {
    if run == [] then t
    else
      var n := |run| - 1;
      ApplyKeepsGood(Exec(t, run[..n]), run[n].m, run[n].works);
      Apply(Exec(t, run[..n]), run[n].m, run[n].works).0
  }

  /** The version that an input brings for channel `id`. */
  function Brings(m: Msg, id: Id): Option<nat> {
    if (m.Start? || m.Update?) && m.id == id then m.state else None
  }

  /** The versions of the start and update messages for `id` that were answered OK. */
  ghost function Applied(t: Tower, run: seq<Input>, id: Id): seq<nat>
    requires Good(t)
    decreases |run|
  {
    if run == [] then []
    else
      var n := |run| - 1;
      var before := Applied(t, run[..n], id);
      if Brings(run[n].m, id).Some? && Apply(Exec(t, run[..n]), run[n].m, run[n].works).1
      then before + [Brings(run[n].m, id).value] else before
  }

  ghost predicate IsMax(v: nat, versions: seq<nat>) {
    v in versions && forall w | w in versions :: w <= v
  }

  predicate NoStop(run: seq<Input>, id: Id) {
    forall i | 0 <= i < |run| :: run[i].m != Stop(id)
  }

  /** The tower refines "keep the maximum": between a first start and the next stop,
      whatever two leaves send, in any interleaving, order and number, `seen` is the
      largest version that was applied, and the watcher has got a rising sequence of
      versions that ends with it. */
  lemma {:induction false} KeepsTheMaximum(t: Tower, run: seq<Input>, id: Id)
    requires Good(t) && id !in t.seen && NoStop(run, id)
    ensures var t' := Exec(t, run);
            var applied := Applied(t, run, id);
            && (id in t'.seen <==> applied != [])
            && (id in t'.seen <==> id in t'.pubs)
            && (applied != [] ==> IsMax(t'.seen[id], applied) && Rising(t'.pubs[id])
                                  && t'.pubs[id][|t'.pubs[id]| - 1] == t'.seen[id])
    decreases |run|
  {
    if run != [] {
      var n := |run| - 1;
      KeepsTheMaximum(t, run[..n], id);
      assert run[n].m != Stop(id);
      OneMoreMaximum(Exec(t, run[..n]), run[n].m, run[n].works, id, Applied(t, run[..n], id));
    }
  }

  /** One message: if the version held is the maximum of what was applied before, it is
      the maximum with this message. */
  lemma OneMoreMaximum(t: Tower, m: Msg, works: bool, id: Id, applied: seq<nat>)
    requires Good(t) && m != Stop(id)
    requires (id in t.seen <==> applied != []) && (applied != [] ==> IsMax(t.seen[id], applied))
    ensures var (t', ok) := Apply(t, m, works);
            var applied' := if Brings(m, id).Some? && ok then applied + [Brings(m, id).value] else applied;
            && Good(t')
            && (id in t'.seen <==> applied' != [])
            && (applied' != [] ==> IsMax(t'.seen[id], applied'))
  {
    ApplyKeepsGood(t, m, works);
    if (m.Start? || m.Update?) && m.id == id {
      var (t', ok) := Apply(t, m, works);
      if ok && m.state.Some? {
        assert t'.seen[id] == if id in t.seen && m.state.value < t.seen[id] then t.seen[id] else m.state.value;
      }
    } else {
      OtherChannelsUntouched(t, m, works, id);
    }
  }

  /** All versions that were sent for channel `id`, whatever became of them. */
  function Sent(run: seq<Input>, id: Id): seq<nat>
    decreases |run|
  {
    if run == [] then []
    else
      var m := run[|run| - 1].m;
      var before := Sent(run[..|run| - 1], id);
      match m
      case Start(x, Some(v)) => if x == id then before + [v] else before
      case Update(x, Some(v)) => if x == id then before + [v] else before
      case _ => before
  }

  lemma SentStep(t: Tower, m: Msg, id: Id, sent: seq<nat>)
    requires Good(t) && m != Stop(id) && id in t.seen && IsMax(t.seen[id], sent)
    ensures var t' := Apply(t, m, true).0;
            var new_ := if (m.Start? || m.Update?) && m.id == id && m.state.Some? then [m.state.value] else [];
            var sent' := if new_ == [] then sent else sent + new_;
            id in t'.seen && IsMax(t'.seen[id], sent')
  {
    if (m.Start? || m.Update?) && m.id == id && m.state.Some? {
      StateAnswered(t, m, true, id, m.state.value);
    } else if m.Other? || m.id != id {
      OtherChannelsUntouched(t, m, true, id);
    } else {
      StatelessRefused(t, m, true, id);
    }
  }

  /** With a working watcher, from the start of a channel until its stop, the tower holds
      the maximum of ALL versions that were sent, in any order and any number, whoever
      sent them. */
  lemma {:induction false} HoldsAllSent(t: Tower, run: seq<Input>, id: Id)
    requires Good(t) && id !in t.seen && NoStop(run, id) && (forall i | 0 <= i < |run| :: run[i].works)
    requires run != [] && run[0].m.Start? && run[0].m.id == id && run[0].m.state.Some?
    ensures id in Exec(t, run).seen && IsMax(Exec(t, run).seen[id], Sent(run, id))
    decreases |run|
  {
    var n := |run| - 1;
    if n == 0 {
      assert run[..0] == [] && Exec(t, []) == t && Sent([], id) == [];
      StateAnswered(t, run[0].m, true, id, run[0].m.state.value);
      assert Sent(run, id) == [run[0].m.state.value];
    } else {
      HoldsAllSent(t, run[..n], id);
      assert run[n].works && run[n].m != Stop(id);
      SentStep(Exec(t, run[..n]), run[n].m, id, Sent(run[..n], id));
    }
  }

  /** So two runs that applied the same versions leave the same version, however
      different their order and their repetitions were. */
  lemma OrderDoesNotMatter(t1: Tower, run1: seq<Input>, t2: Tower, run2: seq<Input>, id: Id)
    requires Good(t1) && id !in t1.seen && NoStop(run1, id)
    requires Good(t2) && id !in t2.seen && NoStop(run2, id)
    requires forall v :: v in Applied(t1, run1, id) <==> v in Applied(t2, run2, id)
    requires Applied(t1, run1, id) != []
    ensures id in Exec(t1, run1).seen && id in Exec(t2, run2).seen
    ensures Exec(t1, run1).seen[id] == Exec(t2, run2).seen[id]
  {
    KeepsTheMaximum(t1, run1, id);
    KeepsTheMaximum(t2, run2, id);
    assert Applied(t1, run1, id)[0] in Applied(t2, run2, id);
  }

  /** A second delivery of the same message changes no version. */
  lemma DuplicateIsHarmless(t: Tower, m: Msg, works: bool)
    requires Good(t) && Apply(t, m, true).1
    ensures Good(Apply(t, m, true).0)
    ensures Apply(Apply(t, m, true).0, m, works).0.seen == Apply(t, m, true).0.seen
  {
    ApplyKeepsGood(t, m, true);
  }

  /** Frame: a message for one channel leaves every other channel alone. */
  lemma OtherChannelsUntouched(t: Tower, m: Msg, works: bool, id: Id)
    requires Good(t)
    requires m.Other? || m.id != id
    ensures var t' := Apply(t, m, works).0;
            && (id in t'.seen <==> id in t.seen) && (id in t.seen ==> t'.seen[id] == t.seen[id])
            && (id in t'.pubs <==> id in t.pubs) && (id in t.pubs ==> t'.pubs[id] == t.pubs[id])
  {
  }

  /** `tower` with its two maps. */
  class Server {
    var pubs: map<Id, seq<nat>>
    var seen: map<Id, nat>

    function Now(): Tower
      reads this
    {
      Tower(pubs, seen)
    }

    constructor ()
      ensures Now() == Tower(map[], map[]) && Good(Now())
    {
      pubs := map[];
      seen := map[];
    }

    method PublishState(id: Id, state: Option<nat>, works: bool) returns (ok: bool)
      requires id in pubs && id in seen
      modifies this
      ensures (Now(), ok) == Publish(old(Now()), id, state, works)
    {
      if state.None? {
        return false;
      }
      if state.value < seen[id] {
        return true;
      }
      if !works {
        return false;
      }
      pubs := pubs[id := pubs[id] + [state.value]];
      seen := seen[id := state.value];
      ok := true;
    }

    method ApplyMessage(m: Msg, works: bool) returns (ok: bool)
      requires Good(Now())
      modifies this
      ensures Good(Now())
      ensures (Now(), ok) == Apply(old(Now()), m, works)
    {
      ApplyKeepsGood(Now(), m, works);
      match m
      case Start(id, state) =>
        if id in pubs {
          ok := PublishState(id, state, works);
          return;
        }
        if state.None? || !works {
          return false;
        }
        pubs := pubs[id := [state.value]];
        seen := seen[id := state.value];
        ok := true;
      case Update(id, state) =>
        if id !in pubs {
          return false;
        }
        ok := PublishState(id, state, works);
      case Stop(id) =>
        if id !in pubs {
          return true;
        }
        pubs := pubs - {id};
        seen := seen - {id};
        ok := works;
      case Other(_) =>
        ok := false;
    }
  }
}
