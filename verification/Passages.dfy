/**
 The loop's passages as runs of the machine: what a whole save, a whole publishing
 loop or an executed command amounts to, step by step.
 */
module Passages {
  import opened Base
  import opened StateStore
  import opened Envelopes
  import opened Machine
  import Delivery
  import Window

  /** Some run of actions leads from s to t. */
  ghost predicate Reaches(e: Env, s: Sys, t: Sys) {
    exists acts: seq<Action> :: Exec(e, s, acts) == t
  }

  lemma Stay(e: Env, s: Sys)
    ensures Reaches(e, s, s)
  {
    assert Exec(e, s, []) == s;
  }

  lemma Then(e: Env, s: Sys, t: Sys, a: Action)
    requires Reaches(e, s, t) && Enabled(e, t, a)
    ensures Reaches(e, s, Step(e, t, a))
  {
    var acts :| Exec(e, s, acts) == t;
    assert (acts + [a])[..|acts|] == acts;
    assert Exec(e, s, acts + [a]) == Step(e, t, a);
  }

  // ---- Dying and waiting --------------------------------------------------------------------------

  /** What is left when the process is gone: the files, the clock and what was delivered. */
  function Dead(s: Sys): Sys {
    s.(proc := None)
  }

  lemma Dies(e: Env, init: Sys, s: Sys)
    requires Reaches(e, init, s) && s.proc.Some?
    ensures Reaches(e, init, Dead(s))
  {
    Then(e, init, s, Crash);
  }

  lemma Waits(e: Env, init: Sys, s: Sys, d: int)
    requires Reaches(e, init, s) && d >= 0
    ensures Reaches(e, init, s.(now := s.now + d))
  {
    Then(e, init, s, Tick(d));
  }

  // ---- Saving -----------------------------------------------------------------------------------------

  function StoreOf(s: Sys, p: Proc): Store {
    Store(s.disk, p.cache)
  }

  ghost function Written(e: Env, s: Sys, p: Proc): Sys
    requires p.pc.Saving?
  {
    var t := WatchWritten(e, s, p);
    CursorWritten(e, t, t.proc.value)
  }

  /** A save that completes: both files replaced, the process where the save was to lead it. */
  lemma SaveCompletes(e: Env, init: Sys, s: Sys, p: Proc)
    requires Reaches(e, init, s) && s.proc == Some(p) && p.pc.Saving? && !p.pc.wrote
    ensures Reaches(e, init, Written(e, s, p))
    ensures var st, t := Record(e, p, p.pc.lastSeq, p.pc.lastHash), Written(e, s, p);
      && t.disk == Saved(StoreOf(s, p), st).disk && t.now == s.now && t.hist.log == s.hist.log
      && t.proc == Some(Continued(p.(cache := Saved(StoreOf(s, p), st).cache, pc := p.pc.(wrote := true)), p.pc.next))
  {
    Then(e, init, s, WriteWatch);
    Then(e, init, WatchWritten(e, s, p), WriteCursor);
  }

  /** A save that does not: the process is gone and the files are as some prefix of the save left them. */
  lemma SaveTears(e: Env, init: Sys, s: Sys, p: Proc, d: Disk) returns (t: Sys)
    requires Reaches(e, init, s) && s.proc == Some(p) && p.pc.Saving? && !p.pc.wrote
    requires Torn(StoreOf(s, p), Record(e, p, p.pc.lastSeq, p.pc.lastHash), d)
    ensures Reaches(e, init, t) && t.disk == d && t.now == s.now && t.hist.log == s.hist.log && t.proc.None?
  {
    if d == s.disk {
      t := s;
    } else if d == WatchWritten(e, s, p).disk {
      t := WatchWritten(e, s, p);
      Then(e, init, s, WriteWatch);
    } else {
      t := Written(e, s, p);
      SaveCompletes(e, init, s, p);
    }
    Dies(e, init, t);
    t := Dead(t);
  }

  // ---- Publishing ----------------------------------------------------------------------------------------

  ghost function Logged(s: Sys, envs: seq<Envelope>): History {
    s.hist.(log := s.hist.log + envs)
  }

  /** n gaps announced. */
  ghost function Announced(e: Env, s: Sys, p: Proc, n: nat): Sys
    requires n <= |p.gaps|
  {
    s.(hist := Logged(s, Delivery.Gaps(e.name, p.gaps, n)), proc := Some(p.(pc := Announcing(n))))
  }

  lemma {:induction false} Announces(e: Env, init: Sys, s: Sys, p: Proc, n: nat)
    requires Reaches(e, init, s) && s.proc == Some(p) && p.pc == Announcing(0)
    requires n <= |p.gaps| && forall i :: 0 <= i < n ==> Validate(GapEnvelope(e.name, p.gaps[i]))
    ensures Reaches(e, init, Announced(e, s, p, n))
  {
    if n == 0 {
      assert Announced(e, s, p, 0) == s;
    } else {
      Announces(e, init, s, p, n - 1);
      var t := Announced(e, s, p, n - 1);
      Then(e, init, t, Announce);
      assert AnnounceStep(e, t, t.proc.value) == Announced(e, s, p, n);
    }
  }

  lemma AllAnnounced(e: Env, init: Sys, s: Sys, p: Proc)
    requires Reaches(e, init, s) && s.proc == Some(p) && p.pc == Announcing(0)
    requires forall i :: 0 <= i < |p.gaps| ==> Validate(GapEnvelope(e.name, p.gaps[i]))
    ensures Reaches(e, init, Run(s.(hist := Logged(s, Delivery.Gaps(e.name, p.gaps, |p.gaps|))), p.(pc := Head)))
  {
    Announces(e, init, s, p, |p.gaps|);
    var t := Announced(e, s, p, |p.gaps|);
    Then(e, init, t, Announce);
  }

  /** n facts delivered. */
  ghost function Told(e: Env, s: Sys, p: Proc, n: nat): Sys
    requires n <= |p.work.facts|
  {
    s.(hist := Logged(s, Delivery.Events(e.name, p.work.facts, n)), proc := Some(p.(pc := Delivering(n))))
  }

  lemma {:induction false} Tells(e: Env, init: Sys, s: Sys, p: Proc, n: nat)
    requires Reaches(e, init, s) && s.proc == Some(p) && p.pc == Delivering(0)
    requires n <= |p.work.facts| && Delivery.EventsValid(e.name, p.work.facts, n)
    ensures Reaches(e, init, Told(e, s, p, n))
  {
    if n == 0 {
      assert Told(e, s, p, 0) == s;
    } else {
      Tells(e, init, s, p, n - 1);
      assert Delivery.EventValid(e.name, p.work.facts[n - 1]);
      TellsOneMore(e, s, p, n);
      Then(e, init, Told(e, s, p, n - 1), Deliver);
    }
  }

  lemma TellsOneMore(e: Env, s: Sys, p: Proc, n: nat)
    requires 0 < n <= |p.work.facts| && Validate(FromEscrowEvent(e.name, p.work.facts[n - 1]))
    ensures Enabled(e, Told(e, s, p, n - 1), Deliver)
    ensures Step(e, Told(e, s, p, n - 1), Deliver) == Told(e, s, p, n)
  {
    var t := Told(e, s, p, n - 1);
    assert DeliverStep(e, t, t.proc.value) == Told(e, s, p, n);
  }

  lemma AllTold(e: Env, init: Sys, s: Sys, p: Proc)
    requires Reaches(e, init, s) && s.proc == Some(p) && p.pc == Delivering(0)
    requires Delivery.EventsValid(e.name, p.work.facts, |p.work.facts|)
    ensures Reaches(e, init, Run(s.(hist := Logged(s, Delivery.Events(e.name, p.work.facts, |p.work.facts|))),
        p.(pc := Deciding)))
  {
    Tells(e, init, s, p, |p.work.facts|);
    var t := Told(e, s, p, |p.work.facts|);
    Then(e, init, t, Deliver);
  }

  ghost predicate StatesValid(e: Env, changes: seq<StateChange>, n: nat)
    requires n <= |changes|
  {
    forall i :: 0 <= i < n ==> Validate(FromStateChange(e.name, changes[i]))
  }

  /** n snapshots of one decision published, with their stamps. */
  ghost function Shown(e: Env, s: Sys, p: Proc, changes: seq<StateChange>, n: nat, pc: Pc): Sys
    requires n <= |changes| && (p.pc.Snapshots? || p.pc.SweepSnapshots?)
  {
    s.(hist := s.hist.(log := s.hist.log + Delivery.States(e.name, changes, n),
                       stamps := s.hist.stamps + seq(n, _ => Stamp(p.current, p.work.meta.closedAt, p.pc.decidedAt))),
       proc := Some(p.(pc := pc)))
  }

  lemma {:induction false} Shows(e: Env, init: Sys, s: Sys, p: Proc, changes: seq<StateChange>, at: int, n: nat)
    requires Reaches(e, init, s) && s.proc == Some(p) && p.pc == Snapshots(changes, 0, at)
    requires n <= |changes| && StatesValid(e, changes, n)
    ensures Reaches(e, init, Shown(e, s, p, changes, n, Snapshots(changes, n, at)))
  {
    if n == 0 {
      assert Shown(e, s, p, changes, 0, Snapshots(changes, 0, at)) == s;
    } else {
      Shows(e, init, s, p, changes, at, n - 1);
      var t := Shown(e, s, p, changes, n - 1, Snapshots(changes, n - 1, at));
      Then(e, init, t, PublishState);
      assert StateStep(e, t, t.proc.value) == Shown(e, s, p, changes, n, Snapshots(changes, n, at));
    }
  }

  lemma {:induction false} Sweeps(e: Env, init: Sys, s: Sys, p: Proc, changes: seq<StateChange>, at: int, n: nat)
    requires Reaches(e, init, s) && s.proc == Some(p) && p.pc == SweepSnapshots(changes, 0, at)
    requires n <= |changes| && StatesValid(e, changes, n)
    ensures Reaches(e, init, Shown(e, s, p, changes, n, SweepSnapshots(changes, n, at)))
  {
    if n == 0 {
      assert Shown(e, s, p, changes, 0, SweepSnapshots(changes, 0, at)) == s;
    } else {
      Sweeps(e, init, s, p, changes, at, n - 1);
      var t := Shown(e, s, p, changes, n - 1, SweepSnapshots(changes, n - 1, at));
      Then(e, init, t, PublishSweep);
      assert SweepStep(e, t, t.proc.value) == Shown(e, s, p, changes, n, SweepSnapshots(changes, n, at));
    }
  }

  lemma AllShown(e: Env, init: Sys, s: Sys, p: Proc, changes: seq<StateChange>, at: int)
    requires Reaches(e, init, s) && s.proc == Some(p) && p.pc == Snapshots(changes, 0, at)
    requires StatesValid(e, changes, |changes|)
    ensures Reaches(e, init, Shown(e, s, p, changes, |changes|, Sweeping(false)))
  {
    Shows(e, init, s, p, changes, at, |changes|);
    Then(e, init, Shown(e, s, p, changes, |changes|, Snapshots(changes, |changes|, at)), PublishState);
  }

  lemma AllSwept(e: Env, init: Sys, s: Sys, p: Proc, changes: seq<StateChange>, at: int)
    requires Reaches(e, init, s) && s.proc == Some(p) && p.pc == SweepSnapshots(changes, 0, at)
    requires StatesValid(e, changes, |changes|)
    ensures Reaches(e, init, Shown(e, s, p, changes, |changes|, Checking(false)))
  {
    Sweeps(e, init, s, p, changes, at, |changes|);
    Then(e, init, Shown(e, s, p, changes, |changes|, SweepSnapshots(changes, |changes|, at)), PublishSweep);
  }

  /** n answers to a command published. */
  ghost function Replied(e: Env, s: Sys, p: Proc, changes: seq<StateChange>, n: nat, mutated: bool): Sys
    requires n <= |changes|
  {
    s.(hist := Logged(s, Delivery.States(e.name, changes, n)), proc := Some(p.(pc := Answering(changes, n, mutated))))
  }

  lemma {:induction false} Replies(e: Env, init: Sys, s: Sys, p: Proc, changes: seq<StateChange>, n: nat, mutated: bool)
    requires Reaches(e, init, s) && s.proc == Some(p) && p.pc == Answering(changes, 0, mutated)
    requires n <= |changes| && StatesValid(e, changes, n)
    ensures Reaches(e, init, Replied(e, s, p, changes, n, mutated))
  {
    if n == 0 {
      assert Replied(e, s, p, changes, 0, mutated) == s;
    } else {
      Replies(e, init, s, p, changes, n - 1, mutated);
      var t := Replied(e, s, p, changes, n - 1, mutated);
      Then(e, init, t, Answer);
      assert AnswerStep(e, t, t.proc.value) == Replied(e, s, p, changes, n, mutated);
    }
  }

  // ---- Reaching an endpoint -------------------------------------------------------------------------------

  function Anchor(resume: Option<(u32, Hash)>, start: u32): Hash {
    if resume.Some? && start == Add32(resume.value.0, 1) then resume.value.1 else 0
  }

  /** The loop's variables once an endpoint is adopted. */
  predicate Moved(p: Proc, q: Proc, start: u32) {
    && q.pc == Announcing(0) && q.current == start && q.pending == p.pending
    && if p.pc.Connecting? then
         q.lastHash == Anchor(p.resume, start) && q.expected == q.lastHash && q.lastCheckpoint == Sub32(start, 1)
       else
         && q.lastHash == p.lastHash && q.lastCheckpoint == p.lastCheckpoint
         && q.expected == if start == p.current then p.lastHash else 0
  }

  /** Adoption without a gap: nothing is written. */
  lemma AdoptsWhole(e: Env, init: Sys, s: Sys, p: Proc, session: nat, start: u32) returns (t: Sys)
    requires Reaches(e, init, s) && s.proc == Some(p) && ReachEnabled(e, p, start, start)
    ensures Reaches(e, init, t) && t.disk == s.disk && t.now == s.now && t.hist.log == s.hist.log && t.proc.Some?
    ensures var q := t.proc.value;
      Moved(p, q, start) && q.reg == p.reg && q.gaps == p.gaps && q.cache == p.cache && q.session == session
  {
    Then(e, init, s, Reach(session, start, start));
    t := Run(s, Reached(s, p, session, start, start));
  }

  lemma ClampSaves(e: Env, init: Sys, s: Sys, p: Proc, session: nat, asked: u32, start: u32, g: Gap)
    requires Reaches(e, init, s) && s.proc == Some(p) && ReachEnabled(e, p, asked, start) && asked < start
    requires g == Gap(asked, Sub32(start, 1), Window.GAP_REASON_RPC_RETENTION, s.now)
    ensures var q := Reached(s, p, session, asked, start);
      && Reaches(e, init, Run(s, q))
      && q.pc == Saving(Sub32(start, 1), 0, false, Adopt(session, start, p.pc.Connecting?))
      && q.gaps == p.gaps + [g] && q.reg == p.reg && q.cache == p.cache
      && q.(pc := p.pc, gaps := p.gaps, base := p.base) == p
  {
    Then(e, init, s, Reach(session, asked, start));
  }

  /** Adoption after a clamp: the gap and the hashless cursor before it are on disk first. */
  lemma AdoptsClamped(e: Env, init: Sys, s: Sys, p: Proc, session: nat, asked: u32, start: u32, g: Gap) returns (t: Sys)
    requires Reaches(e, init, s) && s.proc == Some(p) && ReachEnabled(e, p, asked, start) && asked < start
    requires g == Gap(asked, Sub32(start, 1), Window.GAP_REASON_RPC_RETENTION, s.now)
    ensures Reaches(e, init, t) && t.now == s.now && t.hist.log == s.hist.log && t.proc.Some?
    ensures var q := t.proc.value; var st := Record(e, p.(gaps := p.gaps + [g]), Sub32(start, 1), 0);
      && Moved(p, q, start) && q.reg == p.reg && q.gaps == p.gaps + [g] && q.session == session
      && Store(t.disk, q.cache) == Saved(StoreOf(s, p), st)
  {
    ClampSaves(e, init, s, p, session, asked, start, g);
    var q := Reached(s, p, session, asked, start);
    SaveCompletes(e, init, Run(s, q), q);
    t := Written(e, Run(s, q), q);
  }

  /** A clamp whose record could not be saved: no adoption, and the process is gone. */
  lemma ClampDies(e: Env, init: Sys, s: Sys, p: Proc, asked: u32, start: u32, g: Gap, d: Disk) returns (t: Sys)
    requires Reaches(e, init, s) && s.proc == Some(p) && ReachEnabled(e, p, asked, start) && asked < start
    requires g == Gap(asked, Sub32(start, 1), Window.GAP_REASON_RPC_RETENTION, s.now)
    requires Torn(StoreOf(s, p), Record(e, p.(gaps := p.gaps + [g]), Sub32(start, 1), 0), d)
    ensures Reaches(e, init, t) && t.disk == d && t.now == s.now && t.hist.log == s.hist.log && t.proc.None?
  {
    ClampSaves(e, init, s, p, 0, asked, start, g);
    var q := Reached(s, p, 0, asked, start);
    t := SaveTears(e, init, Run(s, q), q, d);
  }

  lemma AllReplied(e: Env, init: Sys, s: Sys, p: Proc, changes: seq<StateChange>, mutated: bool)
    requires Reaches(e, init, s) && s.proc == Some(p) && p.pc == Answering(changes, 0, mutated)
    requires StatesValid(e, changes, |changes|)
    ensures Reaches(e, init, Run(Replied(e, s, p, changes, |changes|, mutated), p.(pc := Draining(mutated))))
  {
    Replies(e, init, s, p, changes, |changes|, mutated);
    Then(e, init, Replied(e, s, p, changes, |changes|, mutated), Answer);
  }
}
