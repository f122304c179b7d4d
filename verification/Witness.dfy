/**
 Runs that really happen: from an empty disk through a first ledger, and from there to
 the two moments where a promise breaks.
 */
module Witness {
  import opened Base
  import opened Ids
  import opened Registry
  import opened StateStore
  import opened Envelopes
  import opened Catchup
  import opened Machine
  import opened Passages
  import Control
  import Linkage
  import NoLoss

  /** One seeded escrow, an explicit start, and one empty ledger after another, the same in every session. */
  function Demo(id: Id): Env {
    Env("network", "net", {}, [id], 1, 0, false, (k: nat, n: u32) => Ledger(n + 1, n, 0, []))
  }

  const EMPTY := Sys(Disk(None, None), 0, History([], map[], None, []), None)

  /** Up to the loop head of the first process. */
  lemma FirstHead(e: Env, id: Id) returns (s: Sys, p: Proc)
    requires id != "" && e.seeds == [id] && e.start == 1 && e.end == 0
    ensures Initial(EMPTY) && Reaches(e, EMPTY, s) && s.proc == Some(p) && p.pc == Head
    ensures p.current == 1 && p.expected == 0 && p.reg == Members({id}, {}) && p.gaps == [] && p.pending == {}
    ensures s.disk == EMPTY.disk && s.now == 0 && p.cache == None && p.lastCheckpoint == 0
  {
    Stay(e, EMPTY);
    Then(e, EMPTY, EMPTY, Boot);
    var booted := Run(EMPTY, Booted(e, EMPTY));
    assert Seeded(NOBODY, [id]) == Members({id}, {});
    var adopted := AdoptsWhole(e, EMPTY, booted, booted.proc.value, 0, 1);
    AllAnnounced(e, EMPTY, adopted, adopted.proc.value);
    p := adopted.proc.value.(pc := Head);
    s := Run(adopted.(hist := Logged(adopted, [])), p);
  }

  /** Through the first ledger up to its checkpoint decision. */
  lemma FirstCheck(id: Id) returns (s: Sys, p: Proc)
    requires id != ""
    ensures Reaches(Demo(id), EMPTY, s) && s.proc == Some(p) && p.pc == Checking(false)
    ensures p.current == 1 && p.reg == Members({id}, {}) && p.gaps == [] && p.work.meta == Ledger(2, 1, 0, [])
    ensures s.disk == EMPTY.disk && p.cache == None
  {
    var e := Demo(id);
    s, p := FirstHead(e, id);
    s, p := Fetching(e, s, p);
    AllTold(e, EMPTY, s, p);
    p := p.(pc := Deciding);
    s := Run(s.(hist := Logged(s, [])), p);
    Then(e, EMPTY, s, Snapshot([]));
    p := Snapped(s, p, []);
    s := Run(s, p);
    AllShown(e, EMPTY, s, p, [], 0);
    s := Shown(e, s, p, [], 0, Sweeping(false));
    Then(e, EMPTY, s, SweepSkip);
    p := s.proc.value.(pc := Checking(false));
    s := Run(s, p);
  }

  lemma Fetching(e: Env, s: Sys, p: Proc) returns (t: Sys, q: Proc)
    requires Reaches(e, EMPTY, s) && s.proc == Some(p) && FetchEnabled(e, p) && Served(e, p).txs == []
    ensures Reaches(e, EMPTY, t) && t.proc == Some(q) && q == Fetched(e, p) && q.reg == p.reg && q.work.facts == []
    ensures q.work.meta == Served(e, p) && q.pc == Delivering(0)
    ensures t.disk == s.disk && t.now == s.now && q.pending == p.pending && q.cache == p.cache
  {
    Then(e, EMPTY, s, Fetch);
    t := FetchStep(e, s, p);
    q := t.proc.value;
  }

  /** The first ledger is settled: its cursor and the registry are on disk. */
  lemma FirstDrain(id: Id) returns (s: Sys, p: Proc)
    requires id != ""
    ensures Reaches(Demo(id), EMPTY, s) && s.proc == Some(p) && p.pc == Draining(false)
    ensures p.current == 1 && p.reg == Members({id}, {}) && p.work.meta == Ledger(2, 1, 0, [])
    ensures LoadFrom(s.disk) == Loaded(State("network", 1, 2, SortedIds({id}), SortedIds({}), []))
  {
    var e := Demo(id);
    s, p := FirstCheck(id);
    Then(e, EMPTY, s, Check);
    p := Checked(e, p);
    s := Run(s, p);
    SaveCompletes(e, EMPTY, s, p);
    s := Written(e, s, p);
    p := s.proc.value;
  }

  /**
   An escrow that an executed command removed comes back: publishing the answer to a
   later command of the same drain is fatal, so the process ends before the save, and
   the next one tracks the escrow again.
   */
  lemma RemovedEscrowComesBack(id: Id, other: Id, raw: string) returns (dying: Sys, next: Sys)
    requires id != "" && other != "" && id != other
    ensures Reaches(Demo(id), EMPTY, dying) && dying.proc.Some?
    ensures id in dying.proc.value.reg.removed && id !in dying.proc.value.reg.tracked
    ensures dying.proc.value.pc == Answering([StateChange(other, UPDATED, 1, 0, raw, 1)], 0, true)
    ensures Reaches(Demo(id), EMPTY, next) && BootEnabled(Demo(id), Dead(dying))
    ensures next == Run(Dead(dying), Booted(Demo(id), Dead(dying))) && id in next.proc.value.reg.tracked
  {
    var e := Demo(id);
    var s, p := FirstDrain(id);
    s, p := Removing(e, s, p, id);
    var answer := [StateChange(other, UPDATED, 1, 0, raw, 1)];
    Then(e, EMPTY, s, Execute(Control.TrackEscrow(other), answer));
    dying := ExecuteStep(s, p, Control.TrackEscrow(other), answer);
    Dies(e, EMPTY, dying);
    next := Rebooting(e, Dead(dying), id);
  }

  lemma Rebooting(e: Env, s: Sys, id: Id) returns (next: Sys)
    requires Reaches(e, EMPTY, s) && s.proc.None? && e.passphrase == "network" && id != ""
    requires LoadFrom(s.disk) == Loaded(State("network", 1, 2, SortedIds({id}), SortedIds({}), []))
    ensures BootEnabled(e, s) && Reaches(e, EMPTY, next)
    ensures next == Run(s, Booted(e, s)) && id in next.proc.value.reg.tracked
  {
    Then(e, EMPTY, s, Boot);
    next := Run(s, Booted(e, s));
    SnapshotSize({});
    assert id in SortedIds({id});
    assert SortedIds({}) == [];
  }

  lemma Removing(e: Env, s: Sys, p: Proc, id: Id) returns (t: Sys, q: Proc)
    requires Reaches(e, EMPTY, s) && s.proc == Some(p) && p.pc == Draining(false) && id != ""
    ensures Reaches(e, EMPTY, t) && t.proc == Some(q) && t.disk == s.disk && t.now == s.now
    ensures q == p.(reg := Tombstoned(p.reg, id), pc := Draining(true))
  {
    var cmd := Control.RemoveEscrow(id);
    Then(e, EMPTY, s, Execute(cmd, []));
    var u := ExecuteStep(s, p, cmd, []);
    Then(e, EMPTY, u, Answer);
    t := AnswerStep(e, u, u.proc.value);
    q := t.proc.value;
  }

  /** The continuity check refuses the only chain there is, in a run anyone can follow. */
  lemma FalseAlarmHappens(id: Id, first: nat, second: nat, start: u32) returns (t: Sys)
    requires id != "" && start > 2
    ensures Linkage.Chained(Demo(id)) && Linkage.OneChain(Demo(id))
    ensures Reaches(Demo(id), EMPTY, t) && t.proc.Some? && t.proc.value.pc.Head? && t.proc.value.current == start
    ensures !Descends(t.proc.value.expected, Served(Demo(id), t.proc.value).prev)
  {
    var e := Demo(id);
    var s, p := FirstDrain(id);
    PathSoFar(e, s, p);
    Then(e, EMPTY, s, Advance);
    var q := p.(current := 2, pc := Head);
    s := Run(s, q);
    var trace :| Exec(e, EMPTY, trace) == s;
    t := Linkage.ClampThenRotationAlarms(e, EMPTY, trace, q, first, second, start);
  }

  lemma PathSoFar(e: Env, s: Sys, p: Proc)
    requires Linkage.Chained(e) && e.start == 1 && Reaches(e, EMPTY, s) && s.proc == Some(p) && p.pc.Draining?
    ensures |p.path| > 0 && Linkage.Last(p).ledger == p.current && p.base == 1
  {
    var trace :| Exec(e, EMPTY, trace) == s;
    Linkage.InvAlways(e, EMPTY, trace);
    NoLoss.BaseAlways(e, EMPTY, trace);
  }
}
