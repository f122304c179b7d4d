/**
 The command executor: applies one operator command to the registry, the pause, the sweep and the
 chain's current state.
 */
module Executor {
  import opened Base
  import opened Ids
  import opened Envelopes
  import opened Control
  import Backoff
  import Detector
  import DetectorGuarantees
  import Delivery
  import Publish
  import Registry
  import Sweeper

  /** The pause a command leaves behind. */
  function PausedAfter(paused: Option<int>, cmd: Command, now: int): Option<int> {
    match cmd
    case Pause(ttl) => Some(now + PauseTTL(ttl))
    case Resume => None
    case _ => paused
  }

  /** The pause in effect after some more commands, each executed at its time, while none has expired. */
  function PausedFrom(paused: Option<int>, cmds: seq<(Command, int)>): Option<int> {
    if |cmds| == 0 then paused
    else
      var n := |cmds| - 1;
      PausedAfter(PausedFrom(paused, cmds[..n]), cmds[n].0, cmds[n].1)
  }

  /** Command k is the last one that concerns the pause. */
  predicate LastOfPauses(cmds: seq<(Command, int)>, k: nat) {
    && k < |cmds| && (cmds[k].0.Pause? || cmds[k].0.Resume?)
    && forall j :: k < j < |cmds| ==> !cmds[j].0.Pause? && !cmds[j].0.Resume?
  }

  predicate NoPauses(cmds: seq<(Command, int)>) {
    forall j :: 0 <= j < |cmds| ==> !cmds[j].0.Pause? && !cmds[j].0.Resume?
  }

  /** How long a pause asked for lasts: as asked up to an hour, ten minutes when nothing was asked. */
  function Granted(ttl: int): int {
    if ttl <= 0 then 600_000_000_000 else if ttl <= 3600_000_000_000 then ttl else 3600_000_000_000
  }

  lemma {:induction false} PauseStays(paused: Option<int>, cmds: seq<(Command, int)>)
    requires NoPauses(cmds)
    ensures PausedFrom(paused, cmds) == paused
  {
    if |cmds| > 0 {
      PauseStays(paused, cmds[..|cmds| - 1]);
      assert !cmds[|cmds| - 1].0.Pause? && !cmds[|cmds| - 1].0.Resume?;
    }
  }

  /**
   The last command that concerns the pause decides it, whatever came before: a resume
   lifts it, a pause holds for the time it is granted.
   */
  lemma {:induction false} PauseIsDecidedByTheLast(paused: Option<int>, cmds: seq<(Command, int)>, k: nat)
    requires LastOfPauses(cmds, k)
    ensures PausedFrom(paused, cmds) == match cmds[k].0
                                        case Pause(ttl) => Some(cmds[k].1 + Granted(ttl))
                                        case _ => None
  {
    var n := |cmds| - 1;
    if k < n {
      assert cmds[..n][k] == cmds[k];
      PauseIsDecidedByTheLast(paused, cmds[..n], k);
      assert !cmds[n].0.Pause? && !cmds[n].0.Resume?;
    }
  }

  /** So a pause in effect ends within an hour of the last command that concerned it, or was there before them all. */
  lemma {:induction false} PauseEndsInTime(paused: Option<int>, cmds: seq<(Command, int)>) returns (k: nat)
    ensures PausedFrom(paused, cmds).Some? ==>
      || (NoPauses(cmds) && PausedFrom(paused, cmds) == paused)
      || (LastOfPauses(cmds, k) && cmds[k].1 < PausedFrom(paused, cmds).value <= cmds[k].1 + 3600_000_000_000)
  {
    k := 0;
    if |cmds| > 0 {
      var n := |cmds| - 1;
      if cmds[n].0.Pause? || cmds[n].0.Resume? {
        k := n;
      } else {
        k := PauseEndsInTime(paused, cmds[..n]);
        assert forall j :: 0 <= j < n ==> cmds[..n][j] == cmds[j];
      }
    }
  }

  /** What the chain is asked on behalf of a command, and whether it is asked at all. */
  ghost function QueryOf(before: Registry.Members, cmd: Command, lastSeq: u32,
                         closedAt: int): Option<Detector.Request> {
    var ids := Queried(before, cmd);
    if |ids| == 0 || lastSeq == 0 then None
    else Some(Detector.Request(Execute(before, cmd).members.tracked, ids, lastSeq, closedAt, 0))
  }

  /** The changes a command has to publish: a failed fetch is skipped, not fatal. */
  ghost predicate Fetched(was: Detector.Memory, now: Detector.Memory, rpc: Detector.Rpc, isAddress: string -> bool,
                          q: Option<Detector.Request>, changes: seq<StateChange>) {
    if q.None? then now == was && changes == []
    else
      var f := Detector.FetchOf(was, rpc, isAddress, q.value);
      now == f.memory && changes == (if f.changes.None? then [] else f.changes.value)
  }

  /** The nodes met once a command's query, if it has one, was put to this one. */
  function Met(nodes: seq<Detector.Rpc>, rpc: Detector.Rpc, q: Option<Detector.Request>): seq<Detector.Rpc> {
    if q.None? then nodes else nodes + [rpc]
  }

  /** More nodes may have been met, and what was learned from them is as good as they are. */
  ghost predicate Prudent(was: Detector.Learned, met: seq<Detector.Rpc>, now: Detector.Learned,
                          nodes: seq<Detector.Rpc>, isAddress: string -> bool) {
    && met <= nodes
    && (DetectorGuarantees.Careful(was, met, isAddress) ==> DetectorGuarantees.Careful(now, nodes, isAddress))
  }

  lemma CommandIsPrudent(was: Detector.Memory, now: Detector.Memory, rpc: Detector.Rpc, isAddress: string -> bool,
                         q: Option<Detector.Request>, changes: seq<StateChange>, nodes: seq<Detector.Rpc>)
    requires Fetched(was, now, rpc, isAddress, q, changes)
    ensures Prudent(was.learned, nodes, now.learned, Met(nodes, rpc, q), isAddress)
  {
    if q.Some? && DetectorGuarantees.Careful(was.learned, nodes, isAddress) {
      DetectorGuarantees.FetchStaysCareful(was, rpc, isAddress, q.value, nodes);
    }
  }

  /** The changes a command publishes all carry the last processed ledger, tip state or not. */
  lemma CommandStamps(was: Detector.Memory, now: Detector.Memory, rpc: Detector.Rpc, isAddress: string -> bool,
                      before: Registry.Members, cmd: Command, lastSeq: u32, closedAt: int, changes: seq<StateChange>)
    ensures Fetched(was, now, rpc, isAddress, QueryOf(before, cmd, lastSeq, closedAt), changes) ==>
      DetectorGuarantees.StampedAs(changes, lastSeq, closedAt)
  {
    var q := QueryOf(before, cmd, lastSeq, closedAt);
    if q.Some? {
      DetectorGuarantees.FetchStamped(was, rpc, isAddress, q.value);
    }
  }

  class CommandExecutor {
    const reg: Registry.Registry
    const detector: Detector.EscrowStateDetector
    const outSink: Publish.BackpressureSink
    const sweeper: Sweeper.Sweeper
    const network: string
    var pausedUntil: Option<int>
    /** What readiness reports about the pause. */
    var shown: Option<int>

    predicate Wired() {
      detector.registry == reg && sweeper.reg == reg && outSink.inner.confirms
    }

    constructor (reg: Registry.Registry, detector: Detector.EscrowStateDetector, outSink: Publish.BackpressureSink,
                 sweeper: Sweeper.Sweeper, network: string)
      requires detector.registry == reg && sweeper.reg == reg && outSink.inner.confirms
      ensures Wired() && pausedUntil.None? && shown == pausedUntil
      ensures this.reg == reg && this.detector == detector && this.outSink == outSink && this.sweeper == sweeper
      ensures this.network == network
    {
      this.reg, this.detector, this.outSink, this.sweeper, this.network := reg, detector, outSink, sweeper, network;
      pausedUntil, shown := None, None;
    }

    predicate Paused(now: int)
      reads this
    {
      pausedUntil.Some? && now < pausedUntil.value
    }

    /**
     Applies one command. The registry change and the verdict on it stand even
     when publishing then fails; `ok` is false only for a fatal publish.
     */
    method Run(cmd: Command, now: int, lastSeq: u32, closedAt: int, rpc: Detector.Rpc)
        returns (mutated: bool, ok: bool, changes: seq<StateChange>, sent: nat)
      requires Wired() && shown == pausedUntil
      modifies this, reg, detector, sweeper, outSink.inner
      ensures Executed(reg.Value(), mutated) == Execute(old(reg.Value()), cmd)
      ensures pausedUntil == PausedAfter(old(pausedUntil), cmd, now) && shown == pausedUntil
      ensures sweeper.Value() == if cmd.Reconcile? then Sweeper.FRESH else old(sweeper.Value())
      ensures Fetched(old(detector.Value()), detector.Value(), rpc, detector.isAddress,
                      QueryOf(old(reg.Value()), cmd, lastSeq, closedAt), changes)
      ensures detector.nodes == Met(old(detector.nodes), rpc, QueryOf(old(reg.Value()), cmd, lastSeq, closedAt))
      ensures sent <= |changes| && (ok <==> sent == |changes|)
      ensures outSink.inner.delivered == old(outSink.inner.delivered) + Delivery.States(network, changes, sent)
      ensures forall i :: 0 <= i < sent ==> Validate(FromStateChange(network, changes[i]))
    {
      var ids: seq<Id>;
      mutated, ids := Apply(cmd, now);
      ok, changes, sent := FetchAndPublish(ids, lastSeq, closedAt, rpc);
    }

    /** One command against whatever the RPC answers; what it publishes is stamped with the last processed ledger. */
    method RunOnce(cmd: Command, now: int, lastSeq: u32, closedAt: int)
        returns (mutated: bool, ok: bool, changes: seq<StateChange>, sent: nat, ghost node: Detector.Rpc)
      requires Wired() && shown == pausedUntil
      modifies this, reg, detector, sweeper, outSink.inner
      ensures Executed(reg.Value(), mutated) == Execute(old(reg.Value()), cmd)
      ensures pausedUntil == PausedAfter(old(pausedUntil), cmd, now) && shown == pausedUntil
      ensures sweeper.Value() == if cmd.Reconcile? then Sweeper.FRESH else old(sweeper.Value())
      ensures Fetched(old(detector.Value()), detector.Value(), node, detector.isAddress,
                      QueryOf(old(reg.Value()), cmd, lastSeq, closedAt), changes)
      ensures DetectorGuarantees.StampedAs(changes, lastSeq, closedAt)
      ensures Prudent(old(detector.learned), old(detector.nodes), detector.learned, detector.nodes, detector.isAddress)
      ensures sent <= |changes| && (ok <==> sent == |changes|)
      ensures outSink.inner.delivered == old(outSink.inner.delivered) + Delivery.States(network, changes, sent)
      ensures forall i :: 0 <= i < sent ==> Validate(FromStateChange(network, changes[i]))
    {
      var rpc: Detector.Rpc := *;
      node := rpc;
      ghost var was, memory, nodes := reg.Value(), detector.Value(), detector.nodes;
      mutated, ok, changes, sent := Run(cmd, now, lastSeq, closedAt, rpc);
      CommandIsPrudent(memory, detector.Value(), rpc, detector.isAddress, QueryOf(was, cmd, lastSeq, closedAt), changes,
                       nodes);
      CommandStamps(memory, detector.Value(), rpc, detector.isAddress, was, cmd, lastSeq, closedAt, changes);
    }

    method Apply(cmd: Command, now: int) returns (mutated: bool, ids: seq<Id>)
      requires Wired() && shown == pausedUntil
      modifies this, reg, sweeper
      ensures Executed(reg.Value(), mutated) == Execute(old(reg.Value()), cmd)
      ensures ids == Queried(old(reg.Value()), cmd)
      ensures pausedUntil == PausedAfter(old(pausedUntil), cmd, now) && shown == pausedUntil
      ensures sweeper.Value() == if cmd.Reconcile? then Sweeper.FRESH else old(sweeper.Value())
    {
      mutated, ids := false, [];
      match cmd {
        case TrackEscrow(id) =>
          mutated := reg.Track(id);
          ids := [id];
        case RefreshEscrow(id) =>
          if reg.IsEscrow(id) {
            ids := [id];
          }
        case Reseed(more) =>
          var before := reg.Size();
          reg.Seed(more);
          mutated := reg.Size() > before;
          ids := OnlyTracked(more);
        case RemoveEscrow(id) =>
          var _ := reg.Remove(id);
          mutated := true;
        case Pause(ttl) =>
          pausedUntil := Some(now + PauseTTL(ttl));
          shown := pausedUntil;
        case Resume =>
          pausedUntil := None;
          shown := pausedUntil;
        case Reconcile =>
          sweeper.Reset();
      }
    }

    /** Only what is tracked now: publishing a tombstoned id would undo its removal downstream. */
    method OnlyTracked(ids: seq<Id>) returns (tracked: seq<Id>)
      ensures tracked == TrackedAmong(reg.escrows, ids)
    {
      tracked := [];
      for i := 0 to |ids|
        invariant tracked == TrackedAmong(reg.escrows, ids[..i])
      {
        assert ids[..i + 1][..i] == ids[..i];
        if reg.IsEscrow(ids[i]) {
          tracked := tracked + [ids[i]];
        }
      }
      assert ids[..|ids|] == ids;
    }

    method FetchAndPublish(ids: seq<Id>, lastSeq: u32, closedAt: int, rpc: Detector.Rpc)
        returns (ok: bool, changes: seq<StateChange>, sent: nat)
      requires Wired()
      modifies detector, outSink.inner
      ensures Fetched(old(detector.Value()), detector.Value(), rpc, detector.isAddress,
                      if |ids| == 0 || lastSeq == 0 then None
                      else Some(Detector.Request(reg.escrows, ids, lastSeq, closedAt, 0)), changes)
      ensures detector.nodes == old(detector.nodes) + if |ids| == 0 || lastSeq == 0 then [] else [rpc]
      ensures sent <= |changes| && (ok <==> sent == |changes|)
      ensures outSink.inner.delivered == old(outSink.inner.delivered) + Delivery.States(network, changes, sent)
      ensures forall i :: 0 <= i < sent ==> Validate(FromStateChange(network, changes[i]))
    {
      if |ids| == 0 || lastSeq == 0 {
        return true, [], 0;
      }
      var states := detector.FetchStates(rpc, Detector.Request(reg.escrows, ids, lastSeq, closedAt, 0));
      if states.None? {
        return true, [], 0;
      }
      changes := states.value;
      ok, sent := Delivery.PublishStates(outSink, network, changes);
    }

    /** Once its time has come a pause lifts itself. */
    method Expire(now: int)
      requires shown == pausedUntil
      modifies this
      ensures shown == pausedUntil
      ensures pausedUntil == if old(Paused(now)) then old(pausedUntil) else None
    {
      if pausedUntil.Some? && now >= pausedUntil.value {
        pausedUntil := None;
        shown := pausedUntil;
      }
    }
  }
}
