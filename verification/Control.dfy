/** The control plane: what each operator command does to the registry and to the pause. */
module Control {
  import opened Base
  import opened Backoff
  import opened Ids
  import opened Registry

  const DEFAULT_PAUSE_TTL: int := 600 * SECOND
  const MAX_PAUSE_TTL: int := 3600 * SECOND

  datatype Command =
    | TrackEscrow(id: Id)
    | RefreshEscrow(id: Id)
    | Reseed(ids: seq<Id>)
    | RemoveEscrow(id: Id)
    | Pause(ttl: int)
    | Resume
    | Reconcile

  function PauseTTL(ttl: int): int {
    if ttl <= 0 then DEFAULT_PAUSE_TTL else Min(ttl, MAX_PAUSE_TTL)
  }

  datatype Executed = Executed(members: Members, mutated: bool)

  function Execute(m: Members, cmd: Command): Executed {
    match cmd
    case TrackEscrow(id) => Executed(Tracked(m, id), id != "" && id !in m.tracked)
    case Reseed(ids) => var after := Seeded(m, ids); Executed(after, |after.tracked| > |m.tracked|)
    case RemoveEscrow(id) => Executed(Tombstoned(m, id), true)
    case RefreshEscrow(_) => Executed(m, false)
    case Pause(_) => Executed(m, false)
    case Resume => Executed(m, false)
    case Reconcile => Executed(m, false)
  }

  /** The ids a command asks the chain about, on the registry it leaves behind. */
  function Queried(before: Members, cmd: Command): seq<Id> {
    match cmd
    case TrackEscrow(id) => [id]
    case RefreshEscrow(id) => if id != "" && id in before.tracked then [id] else []
    case Reseed(ids) => TrackedAmong(Seeded(before, ids).tracked, ids)
    case _ => []
  }

  function TrackedAmong(tracked: set<Id>, ids: seq<Id>): seq<Id> {
    if |ids| == 0 then []
    else
      var init := TrackedAmong(tracked, ids[..|ids| - 1]);
      var id := ids[|ids| - 1];
      if id != "" && id in tracked then init + [id] else init
  }

  lemma SubsetSize(a: set<Id>, b: set<Id>)
    requires a <= b && |b| <= |a|
    ensures a == b
  {
    assert b == a + (b - a);
  }

  /**
   A command that reports no mutation left the registry as it was, so nothing
   needs saving. This leans on the disjointness of the two sets.
   */
  lemma UnmutatedMeansUnchanged(m: Members, cmd: Command)
    requires Disjoint(m) && !Execute(m, cmd).mutated
    ensures Execute(m, cmd).members == m
  {
    if cmd.Reseed? {
      SubsetSize(m.tracked, Seeded(m, cmd.ids).tracked);
    }
  }

  /** Without disjointness it is false for track, and false exactly when the tracked id is also tombstoned. */
  lemma UnmutatedTrackIff(m: Members, id: Id)
    requires !Execute(m, TrackEscrow(id)).mutated && id != ""
    ensures Execute(m, TrackEscrow(id)).members == m <==> id !in m.removed
  {
    assert m.tracked + {id} == m.tracked;
    if id in m.removed {
      assert id !in Execute(m, TrackEscrow(id)).members.removed;
    }
  }

  /**
   Exactly whom a command asks the chain about: the contract it tracks; the one it
   refreshes, if that is tracked; of a reseed every contract listed that is tracked or
   was not tombstoned; and nobody otherwise. They are asked in the order they are listed.
   */
  lemma {:induction false} QueriedIff(m: Members, cmd: Command, id: Id)
    ensures id in Queried(m, cmd) <==>
      match cmd
      case TrackEscrow(x) => id == x
      case RefreshEscrow(x) => id == x != "" && x in m.tracked
      case Reseed(ids) => id in ids && id != "" && (id in m.tracked || id !in m.removed)
      case RemoveEscrow(_) => false
      case Pause(_) => false
      case Resume => false
      case Reconcile => false
  {
    if cmd.Reseed? {
      TrackedAmongMembers(Seeded(m, cmd.ids).tracked, cmd.ids, id);
    }
  }

  /** A command's queries are about contracts tracked afterwards, so none is judged absent for not being tracked. */
  lemma {:induction false} QueriesAreTracked(m: Members, cmd: Command, id: Id)
    requires id in Queried(m, cmd) && id != ""
    ensures id in Execute(m, cmd).members.tracked
  {
    if cmd.Reseed? {
      TrackedAmongMembers(Seeded(m, cmd.ids).tracked, cmd.ids, id);
    }
  }

  lemma {:induction false} TrackedAmongMembers(tracked: set<Id>, ids: seq<Id>, id: Id)
    ensures id in TrackedAmong(tracked, ids) <==> id in ids && id != "" && id in tracked
  {
    if |ids| > 0 {
      assert ids == ids[..|ids| - 1] + [ids[|ids| - 1]];
      TrackedAmongMembers(tracked, ids[..|ids| - 1], id);
    }
  }

  // ---- A queue of commands ------------------------------------------------------------------------

  /** The registry after some commands, and whether any of them reported a mutation. */
  function ExecuteAll(m: Members, cmds: seq<Command>): Executed {
    if |cmds| == 0 then Executed(m, false)
    else
      var init := ExecuteAll(m, cmds[..|cmds| - 1]);
      var last := Execute(init.members, cmds[|cmds| - 1]);
      Executed(last.members, init.mutated || last.mutated)
  }

  /** Command k is the last one that tracks or removes the contract by name. */
  predicate LastWord(cmds: seq<Command>, k: int, id: Id) {
    && 0 <= k < |cmds| && cmds[k] in {TrackEscrow(id), RemoveEscrow(id)}
    && forall j :: k < j < |cmds| ==> cmds[j] != TrackEscrow(id) && cmds[j] != RemoveEscrow(id)
  }

  predicate NoWord(cmds: seq<Command>, id: Id) {
    forall j :: 0 <= j < |cmds| ==> cmds[j] != TrackEscrow(id) && cmds[j] != RemoveEscrow(id)
  }

  predicate Reseeded(cmds: seq<Command>, id: Id) {
    exists j :: 0 <= j < |cmds| && cmds[j].Reseed? && id in cmds[j].ids
  }

  lemma Earlier(cmds: seq<Command>, id: Id)
    requires |cmds| > 0
    ensures var init, last := cmds[..|cmds| - 1], cmds[|cmds| - 1];
      && (NoWord(cmds, id) <==> NoWord(init, id) && last != TrackEscrow(id) && last != RemoveEscrow(id))
      && (Reseeded(cmds, id) <==> Reseeded(init, id) || (last.Reseed? && id in last.ids))
  {
    var init, last := cmds[..|cmds| - 1], cmds[|cmds| - 1];
    if j :| 0 <= j < |init| && init[j].Reseed? && id in init[j].ids {
      assert cmds[j] == init[j];
    }
    if NoWord(cmds, id) {
      assert forall j :: 0 <= j < |init| ==> init[j] == cmds[j];
    }
  }

  /** A contract no command tracks or removes by name keeps its tombstone, and is added only by a reseed. */
  lemma {:induction false} UnnamedStays(m: Members, cmds: seq<Command>, id: Id)
    requires NoWord(cmds, id)
    ensures var after := ExecuteAll(m, cmds).members;
      && (id in after.removed <==> id in m.removed)
      && (id in after.tracked <==> id in m.tracked || (id != "" && Reseeded(cmds, id) && id !in m.removed))
  {
    if |cmds| > 0 {
      Earlier(cmds, id);
      UnnamedStays(m, cmds[..|cmds| - 1], id);
    }
  }

  /** The last command that names a contract decides: it ends up tracked without a tombstone, or the other way round. */
  lemma {:induction false} LastWordDecides(m: Members, cmds: seq<Command>, k: nat, id: Id)
    requires LastWord(cmds, k, id) && id != ""
    ensures var after := ExecuteAll(m, cmds).members;
      && (id in after.tracked <==> cmds[k] == TrackEscrow(id))
      && (id in after.removed <==> cmds[k] == RemoveEscrow(id))
    ensures cmds[k].RemoveEscrow? ==> ExecuteAll(m, cmds).mutated
  {
    var n := |cmds| - 1;
    if k < n {
      assert cmds[..n][k] == cmds[k];
      LastWordDecides(m, cmds[..n], k, id);
      assert cmds[n] != TrackEscrow(id) && cmds[n] != RemoveEscrow(id);
    }
  }

  /** Without a reported mutation the registry is what it was. */
  lemma {:induction false} AllUnmutated(m: Members, cmds: seq<Command>)
    requires Disjoint(m)
    ensures Disjoint(ExecuteAll(m, cmds).members)
    ensures !ExecuteAll(m, cmds).mutated ==> ExecuteAll(m, cmds).members == m
  {
    if |cmds| > 0 {
      var init := cmds[..|cmds| - 1];
      AllUnmutated(m, init);
      if !ExecuteAll(m, cmds).mutated {
        UnmutatedMeansUnchanged(ExecuteAll(m, init).members, cmds[|cmds| - 1]);
      }
    }
  }

  /** What the mutation report means: a contract newly tracked, or a removal. */
  lemma MutatedIff(m: Members, cmd: Command)
    ensures Execute(m, cmd).mutated <==>
      match cmd
      case TrackEscrow(id) => id != "" && id !in m.tracked
      case Reseed(ids) => exists id :: id in ids && id != "" && id !in m.tracked && id !in m.removed
      case RemoveEscrow(_) => true
      case RefreshEscrow(_) => false
      case Pause(_) => false
      case Resume => false
      case Reconcile => false
  {
    if cmd.Reseed? {
      var after := Seeded(m, cmd.ids).tracked;
      if id :| id in cmd.ids && id != "" && id !in m.tracked && id !in m.removed {
        SubsetGrows(m.tracked, after, id);
      } else {
        assert after == m.tracked;
      }
    }
  }

  lemma SubsetGrows(a: set<Id>, b: set<Id>, x: Id)
    requires a <= b && x in b && x !in a
    ensures |a| < |b|
  {
    if |b| <= |a| {
      SubsetSize(a, b);
    }
  }
}
