/**
 Chain linkage. When every session serves an internally hash-linked chain, any
 two adjacent ledgers one process goes through are linked by parent hash, whatever
 rotations lie between them, and so is the first one after a resume from a hashed
 cursor; and a saved hash is the hash of the saved cursor's own ledger.
 */
module Linkage {
  import opened Base
  import opened StateStore
  import opened Envelopes
  import opened Catchup
  import opened Machine
  import opened Passages
  import Delivery
  import NoLoss
  import Notices
  import Window

  /** Every session serves a chain: each ledger names the one before it, and no hash is the empty string. */
  ghost predicate Chained(e: Env) {
    forall k: nat, n: u32 :: e.serve(k, n).hash != 0 && (n > 0 ==> e.serve(k, n).prev == e.serve(k, n - 1).hash)
  }

  /** The two links join when they are of adjacent ledgers. */
  predicate Joined(a: Link, b: Link) {
    b.ledger == a.ledger + 1 ==> b.prev == a.hash
  }

  ghost predicate Linked(path: seq<Link>) {
    forall i :: 0 <= i < |path| - 1 ==> Joined(path[i], path[i + 1])
  }

  ghost predicate Ascending(path: seq<Link>, limit: int) {
    && (forall i, j :: 0 <= i < j < |path| ==> path[i].ledger < path[j].ledger)
    && (forall i :: 0 <= i < |path| ==> path[i].ledger < limit)
  }

  /** The hash belongs to ledger n as it was last processed, which is as some session served it. */
  predicate HashTrue(e: Env, derived: map<u32, Work>, n: u32, hash: Hash) {
    n in derived && derived[n].meta.hash == hash && derived[n].meta == e.serve(derived[n].session, n)
  }

  /** Every link is of a ledger as it was processed; a deployment found with a cursor vouches for that cursor itself. */
  ghost predicate PathTrue(e: Env, derived: map<u32, Work>, base: u32, path: seq<Link>) {
    forall i :: 0 <= i < |path| && path[i].ledger >= base ==> HashTrue(e, derived, path[i].ledger, path[i].hash)
  }

  predicate ResumeTrue(e: Env, derived: map<u32, Work>, p: Proc) {
    p.resume.Some? && p.resume.value.1 != 0 && p.resume.value.0 >= p.base ==>
        HashTrue(e, derived, p.resume.value.0, p.resume.value.1)
  }

  /** A saved hash is the hash of the saved cursor's own ledger. */
  predicate SavedHashTrue(e: Env, s: Sys) {
    var r := LoadFrom(s.disk);
    r.Loaded? && r.state.lastHash != 0 && s.hist.base.Some? && r.state.lastSeq >= s.hist.base.value ==>
      HashTrue(e, s.hist.derived, r.state.lastSeq, r.state.lastHash)
  }

  /** The last ledger this process went through, or resumed after. */
  function Last(p: Proc): Link
    requires |p.path| > 0
  {
    p.path[|p.path| - 1]
  }

  /**
   The anchor: what is expected of the next ledger's parent is nothing or the last
   one's hash. If the next ledger is adjacent to the last one, then its parent is
   either being checked against the last one's hash, or served by the session that
   served the last one.
   */
  ghost predicate Anchored(e: Env, p: Proc) {
    && (p.expected == 0 || p.expected == p.lastHash)
    && (p.lastHash != 0 ==> |p.path| > 0 && p.lastHash == Last(p).hash)
    && (|p.path| > 0 && Last(p).ledger + 1 == p.current ==>
          && p.lastHash == Last(p).hash != 0
          && (p.expected == p.lastHash || e.serve(p.session, Last(p).ledger).hash == Last(p).hash))
  }

  /** While a ledger is in hand it is the last link. */
  ghost predicate InHand(e: Env, p: Proc) {
    && p.work.meta == e.serve(p.session, p.current) && p.expected == 0
    && |p.path| > 0 && Last(p).ledger == p.current && Last(p).hash == p.work.meta.hash
  }

  predicate Starting(pc: Pc) {
    pc.Connecting? || (pc.Saving? && pc.next.Adopt? && pc.next.boot)
  }

  predicate BetweenLedgers(pc: Pc) {
    pc.Announcing? || pc.Head? || (pc.Saving? && pc.next.Adopt?)
  }

  predicate PointOk(p: Proc) {
    match p.pc
    case Saving(lastSeq, hash, _, next) =>
      && (next.Adopt? ==> hash == 0 && (!next.boot ==> next.start > p.current))
      && (!next.Adopt? ==> lastSeq == p.current && hash == p.work.meta.hash)
      && (next.Resume? ==> p.lastHash == hash)
    case Draining(_) => p.lastHash == p.work.meta.hash
    case Answering(_, _, _) => p.lastHash == p.work.meta.hash
    case _ => true
  }

  ghost predicate ProcInv(e: Env, derived: map<u32, Work>, p: Proc) {
    && PointOk(p) && Linked(p.path) && PathTrue(e, derived, p.base, p.path)
    && if Starting(p.pc) then p.path == [] && ResumeTrue(e, derived, p)
       else if BetweenLedgers(p.pc) then Anchored(e, p) && Ascending(p.path, p.current)
       else InHand(e, p) && Ascending(p.path, p.current + 1)
  }

  ghost predicate Inv(e: Env, s: Sys) {
    SavedHashTrue(e, s) && (s.proc.Some? ==> ProcInv(e, s.hist.derived, s.proc.value))
  }

  // ---- Every step keeps it --------------------------------------------------------------------------

  lemma BootKeeps(e: Env, s: Sys)
    requires NoLoss.Inv(e, s) && Inv(e, s) && BootEnabled(e, s)
    ensures Inv(e, Run(s, Booted(e, s)))
  {
  }

  lemma AdoptedBoot(e: Env, derived: map<u32, Work>, p: Proc, session: nat, start: u32)
    requires ResumeTrue(e, derived, p) && start > 0
    ensures ProcInv(e, derived, Adopted(p, session, start, true))
  {
  }

  lemma AdoptedLater(e: Env, derived: map<u32, Work>, p: Proc, session: nat, start: u32)
    requires Linked(p.path) && PathTrue(e, derived, p.base, p.path) && Anchored(e, p) && Ascending(p.path, p.current)
    requires start >= p.current
    ensures ProcInv(e, derived, Adopted(p, session, start, false))
  {
  }

  lemma ReachedOk(e: Env, s: Sys, p: Proc, session: nat, asked: u32, start: u32)
    requires NoLoss.Inv(e, s) && s.proc == Some(p)
    requires ProcInv(e, s.hist.derived, p) && ReachEnabled(e, p, asked, start)
    ensures ProcInv(e, s.hist.derived, Reached(s, p, session, asked, start))
  {
    if p.pc.Connecting? {
      var q := p.(base := if s.hist.base.Some? then s.hist.base.value else asked);
      AdoptedBoot(e, s.hist.derived, q, session, start);
    } else {
      AdoptedLater(e, s.hist.derived, p, session, start);
    }
  }

  lemma ReachKeeps(e: Env, s: Sys, p: Proc, a: Action)
    requires NoLoss.Inv(e, s) && Inv(e, s) && s.proc == Some(p) && ProcEnabled(e, s, p, a) && a.Reach?
    ensures Inv(e, ProcStep(e, s, p, a))
  {
    ReachedOk(e, s, p, a.session, a.asked, a.start);
  }

  lemma WatchKeeps(e: Env, s: Sys, p: Proc, a: Action)
    requires NoLoss.Inv(e, s) && Inv(e, s) && s.proc == Some(p) && ProcEnabled(e, s, p, a) && a.WriteWatch?
    ensures Inv(e, ProcStep(e, s, p, a))
  {
    var st := Record(e, p, p.pc.lastSeq, p.pc.lastHash);
    assert WatchWritten(e, s, p).disk == s.disk.(watch := Some(EncodeWatch(st)));
    NoLoss.WatchReplaced(s.disk, st);
  }

  lemma CursorSaved(e: Env, s: Sys, p: Proc)
    requires NoLoss.Inv(e, s) && Inv(e, s) && s.proc == Some(p) && p.pc.Saving? && p.pc.wrote
    ensures SavedHashTrue(e, CursorWritten(e, s, p))
  {
    var st := Record(e, p, p.pc.lastSeq, p.pc.lastHash);
    NoLoss.CursorReplaced(s.disk, st);
    if !p.pc.next.Adopt? && p.current >= p.base {
      assert HashTrue(e, s.hist.derived, Last(p).ledger, Last(p).hash);
    }
  }

  lemma ContinuedOk(e: Env, derived: map<u32, Work>, p: Proc)
    requires ProcInv(e, derived, p) && p.pc.Saving? && (p.pc.next.Adopt? ==> p.pc.next.start > 0)
    ensures ProcInv(e, derived, Continued(p, p.pc.next))
  {
    match p.pc.next {
      case Adopt(session, start, boot) =>
        if boot {
          AdoptedBoot(e, derived, p, session, start);
        } else {
          AdoptedLater(e, derived, p, session, start);
        }
      case _ =>
    }
  }

  lemma CursorKeeps(e: Env, s: Sys, p: Proc, a: Action)
    requires NoLoss.Inv(e, s) && Inv(e, s) && s.proc == Some(p) && ProcEnabled(e, s, p, a) && a.WriteCursor?
    ensures Inv(e, ProcStep(e, s, p, a))
  {
    CursorSaved(e, s, p);
    ContinuedOk(e, s.hist.derived, p);
  }

  lemma FetchedOk(e: Env, derived: map<u32, Work>, p: Proc)
    requires ProcInv(e, derived, p) && Chained(e) && FetchEnabled(e, p)
    ensures ProcInv(e, derived[p.current := Fetched(e, p).work], Fetched(e, p))
  {
    var q := Fetched(e, p);
    assert e.serve(p.session, p.current).hash != 0;
    if |p.path| > 0 && Last(p).ledger + 1 == p.current {
      assert Served(e, p).prev == e.serve(p.session, p.current - 1).hash;
      assert Joined(Last(p), Last(q));
    }
  }

  lemma FetchKeeps(e: Env, s: Sys, p: Proc, a: Action)
    requires NoLoss.Inv(e, s) && Inv(e, s) && Chained(e) && s.proc == Some(p) && ProcEnabled(e, s, p, a) && a.Fetch?
    ensures Inv(e, ProcStep(e, s, p, a))
  {
    FetchedOk(e, s.hist.derived, p);
  }

  lemma AdvanceKeeps(e: Env, s: Sys, p: Proc, a: Action)
    requires NoLoss.Inv(e, s) && Inv(e, s) && Chained(e) && s.proc == Some(p) && ProcEnabled(e, s, p, a) && a.Advance?
    ensures Inv(e, ProcStep(e, s, p, a))
  {
    assert e.serve(p.session, p.current).hash != 0;
  }

  /** A step within one stage of the loop that moves no part of the chain's bookkeeping. */
  lemma PlainStep(e: Env, s: Sys, t: Sys)
    requires Inv(e, s) && s.proc.Some? && t.proc.Some?
    requires t.disk == s.disk && t.hist.base == s.hist.base && t.hist.derived == s.hist.derived
    requires var p, q := s.proc.value, t.proc.value;
      && q.path == p.path && q.base == p.base && q.resume == p.resume && q.current == p.current
      && q.session == p.session && q.work == p.work && q.expected == p.expected && q.lastHash == p.lastHash
      && Starting(q.pc) == Starting(p.pc) && BetweenLedgers(q.pc) == BetweenLedgers(p.pc) && PointOk(q)
    ensures Inv(e, t)
  {
  }

  lemma PublishKeeps(e: Env, s: Sys, p: Proc, a: Action)
    requires Inv(e, s) && s.proc == Some(p) && ProcEnabled(e, s, p, a)
    requires a.Announce? || a.Deliver? || a.Answer?
    ensures Inv(e, ProcStep(e, s, p, a))
  {
    PlainStep(e, s, ProcStep(e, s, p, a));
  }

  lemma StateKeeps(e: Env, s: Sys, p: Proc, a: Action)
    requires Inv(e, s) && s.proc == Some(p) && ProcEnabled(e, s, p, a)
    requires a.PublishState? || a.PublishSweep?
    ensures Inv(e, ProcStep(e, s, p, a))
  {
    PlainStep(e, s, ProcStep(e, s, p, a));
  }

  lemma DecideKeeps(e: Env, s: Sys, p: Proc, a: Action)
    requires Inv(e, s) && s.proc == Some(p) && ProcEnabled(e, s, p, a)
    requires a.Defer? || a.Snapshot? || a.SweepSkip? || a.Sweep? || a.Execute? || a.Flush?
    ensures Inv(e, ProcStep(e, s, p, a))
  {
    PlainStep(e, s, ProcStep(e, s, p, a));
  }

  lemma CheckedOk(e: Env, derived: map<u32, Work>, p: Proc)
    requires ProcInv(e, derived, p) && p.pc.Checking?
    ensures ProcInv(e, derived, Checked(e, p))
  {
    var q := Checked(e, p);
    assert q.path == p.path && q.current == p.current && q.work == p.work && q.expected == p.expected;
  }

  lemma CheckKeeps(e: Env, s: Sys, p: Proc, a: Action)
    requires Inv(e, s) && s.proc == Some(p) && ProcEnabled(e, s, p, a) && a.Check?
    ensures Inv(e, ProcStep(e, s, p, a))
  {
    CheckedOk(e, s.hist.derived, p);
  }

  lemma ProcKeeps(e: Env, s: Sys, p: Proc, a: Action)
    requires NoLoss.Inv(e, s) && Inv(e, s) && Chained(e) && s.proc == Some(p) && ProcEnabled(e, s, p, a)
    ensures Inv(e, ProcStep(e, s, p, a))
  {
    if a.Reach? {
      ReachKeeps(e, s, p, a);
    } else if a.WriteWatch? {
      WatchKeeps(e, s, p, a);
    } else if a.WriteCursor? {
      CursorKeeps(e, s, p, a);
    } else if a.Fetch? {
      FetchKeeps(e, s, p, a);
    } else if a.Advance? {
      AdvanceKeeps(e, s, p, a);
    } else if a.Announce? || a.Deliver? || a.Answer? {
      PublishKeeps(e, s, p, a);
    } else if a.PublishState? || a.PublishSweep? {
      StateKeeps(e, s, p, a);
    } else if a.Check? {
      CheckKeeps(e, s, p, a);
    } else {
      DecideKeeps(e, s, p, a);
    }
  }

  lemma StepKeeps(e: Env, s: Sys, a: Action)
    requires NoLoss.Inv(e, s) && Inv(e, s) && Chained(e) && Enabled(e, s, a)
    ensures Inv(e, Step(e, s, a))
  {
    if a.Boot? {
      BootKeeps(e, s);
    } else if !a.Tick? && !a.Crash? {
      ProcKeeps(e, s, s.proc.value, a);
    }
  }

  lemma {:induction false} InvAlways(e: Env, s: Sys, trace: seq<Action>)
    requires Initial(s) && Chained(e)
    ensures Inv(e, Exec(e, s, trace))
  {
    if |trace| > 0 {
      var before := Exec(e, s, trace[..|trace| - 1]);
      InvAlways(e, s, trace[..|trace| - 1]);
      NoLoss.InvAlways(e, s, trace[..|trace| - 1]);
      if Enabled(e, before, trace[|trace| - 1]) {
        StepKeeps(e, before, trace[|trace| - 1]);
      }
    }
  }

  // ---- The theorem -------------------------------------------------------------------------------------

  lemma AdjacentAreNeighbours(path: seq<Link>, limit: int, i: nat, j: nat)
    requires Ascending(path, limit) && Linked(path)
    requires i < |path| && j < |path| && path[j].ledger == path[i].ledger + 1
    ensures path[j].prev == path[i].hash
  {
    if j > i + 1 {
      OneBetween(path, limit, i, j);
    } else if j == i + 1 {
      assert Joined(path[i], path[i + 1]);
    }
  }

  lemma OneBetween(path: seq<Link>, limit: int, i: nat, j: nat)
    requires Ascending(path, limit) && i + 1 < j < |path|
    ensures path[j].ledger > path[i].ledger + 1
  {
    assert path[i].ledger < path[i + 1].ledger < path[j].ledger;
  }

  /**
   In every run over chained sessions: adjacent ledgers of one process, the hashed
   cursor it resumed from included, are linked by parent hash; each link carries the
   hash of that ledger as last processed; and a saved hash is the saved ledger's.
   */
  lemma ChainLinkage(e: Env, s: Sys, trace: seq<Action>, p: Proc, i: nat, j: nat)
    requires Initial(s) && Chained(e) && Exec(e, s, trace).proc == Some(p)
    requires i < |p.path| && j < |p.path|
    ensures p.path[j].ledger == p.path[i].ledger + 1 ==> p.path[j].prev == p.path[i].hash
    ensures p.path[i].ledger >= p.base ==> HashTrue(e, Exec(e, s, trace).hist.derived, p.path[i].ledger, p.path[i].hash)
    ensures SavedHashTrue(e, Exec(e, s, trace))
  {
    InvAlways(e, s, trace);
    if p.path[j].ledger == p.path[i].ledger + 1 {
      AdjacentAreNeighbours(p.path, p.current + 1, i, j);
    }
  }

  // ---- False alarms ----------------------------------------------------------------------------------

  /** Every session serves the same chain, on which no two ledgers have one hash. */
  ghost predicate OneChain(e: Env) {
    && (forall k: nat, n: u32 :: e.serve(k, n) == e.serve(0, n))
    && (forall m: u32, n: u32 :: e.serve(0, m).hash == e.serve(0, n).hash ==> m == n)
  }

  /**
   The continuity check ought never to refuse the one chain there is. It refuses it
   exactly when a parent is expected although the last ledger processed is not the
   one before: the hash kept across a clamp was re-armed by another rotation.
   */
  lemma FalseAlarmIff(e: Env, s: Sys, trace: seq<Action>, p: Proc)
    requires Initial(s) && Chained(e) && OneChain(e) && Exec(e, s, trace).proc == Some(p) && p.pc.Head?
    requires |p.path| > 0 ==> Last(p).ledger >= p.base
    ensures p.expected != 0 ==> |p.path| > 0
    ensures !Descends(p.expected, Served(e, p).prev) <==> p.expected != 0 && Last(p).ledger + 1 != p.current
  {
    InvAlways(e, s, trace);
    NoLoss.InvAlways(e, s, trace);
    if |p.path| > 0 {
      assert HashTrue(e, Exec(e, s, trace).hist.derived, Last(p).ledger, Last(p).hash);
      assert Last(p).hash == e.serve(0, Last(p).ledger).hash;
      assert Served(e, p).prev == e.serve(p.session, p.current - 1).hash == e.serve(0, p.current - 1).hash;
    }
  }

  /**
   It does happen: from any loop head right after a ledger of this deployment, a clamp
   and then a rotation with no ledger between them lead to a head that refuses the very
   chain that was followed.
   */
  lemma ClampThenRotationAlarms(e: Env, init: Sys, trace: seq<Action>, p: Proc, first: nat, second: nat, start: u32)
      returns (t: Sys)
    requires Initial(init) && Chained(e) && OneChain(e) && e.name != ""
    requires Exec(e, init, trace).proc == Some(p) && Going(e, p)
    requires |p.path| > 0 && Last(p).ledger >= p.base && Last(p).ledger + 1 == p.current < start
    requires e.end != 0 ==> start <= e.end
    ensures Reaches(e, init, t) && t.proc.Some? && t.proc.value.pc.Head? && t.proc.value.current == start
    ensures !Descends(t.proc.value.expected, Served(e, t.proc.value).prev) && !FetchEnabled(e, t.proc.value)
  {
    var s := Exec(e, init, trace);
    InvAlways(e, init, trace);
    NoLoss.InvAlways(e, init, trace);
    assert HashTrue(e, s.hist.derived, Last(p).ledger, Last(p).hash);
    var g := Gap(p.current, Sub32(start, 1), Window.GAP_REASON_RPC_RETENTION, s.now);
    forall j | 0 <= j < |p.gaps| + 1
      ensures Validate(GapEnvelope(e.name, (p.gaps + [g])[j]))
    {
      if j < |p.gaps| {
        Notices.GapsAtHeadAreValid(e, init, trace, p, j);
      }
    }
    assert Reaches(e, init, s);
    var clamped := AdoptsClamped(e, init, s, p, first, p.current, start, g);
    AllAnnounced(e, init, clamped, clamped.proc.value);
    t := RotatesInPlace(e, init, Told(e, clamped, clamped.proc.value), second, p.lastHash);
    StaleAnchor(e, t.proc.value, p.current, start);
  }

  /** The system once all gaps of a process have been announced. */
  ghost function Told(e: Env, s: Sys, p: Proc): Sys {
    Run(s.(hist := Logged(s, Delivery.Gaps(e.name, p.gaps, |p.gaps|))), p.(pc := Head))
  }

  /** A rotation that keeps the ledger expects the last hash again. */
  lemma RotatesInPlace(e: Env, init: Sys, s: Sys, session: nat, lastHash: Hash) returns (t: Sys)
    requires Reaches(e, init, s) && s.proc.Some? && Going(e, s.proc.value) && s.proc.value.current != 0
    requires s.proc.value.lastHash == lastHash
    requires forall i :: 0 <= i < |s.proc.value.gaps| ==> Validate(GapEnvelope(e.name, s.proc.value.gaps[i]))
    ensures Reaches(e, init, t) && t.proc.Some? && t.proc.value.pc.Head?
    ensures t.proc.value.current == s.proc.value.current && t.proc.value.expected == lastHash
  {
    var p := s.proc.value;
    var adopted := AdoptsWhole(e, init, s, p, session, p.current);
    AllAnnounced(e, init, adopted, adopted.proc.value);
    t := Told(e, adopted, adopted.proc.value);
  }

  lemma StaleAnchor(e: Env, q: Proc, was: u32, start: u32)
    requires Chained(e) && OneChain(e) && 0 < was < start && q.current == start
    requires q.expected == e.serve(0, was - 1).hash
    ensures !Descends(q.expected, Served(e, q).prev)
  {
    assert e.serve(0, was - 1).hash != 0;
    assert Served(e, q).prev == e.serve(q.session, start - 1).hash == e.serve(0, start - 1).hash;
  }
}
