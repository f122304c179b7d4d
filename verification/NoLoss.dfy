/**
 No silent loss. Whatever crashes, restarts, rotations and clamps a run goes
 through, every ledger from the first one to the durable cursor either had every
 fact derived from it accepted by the sink, or lies in a gap that is on disk.
 */
module NoLoss {
  import opened Base
  import opened StateStore
  import opened Facts
  import opened Envelopes
  import opened Machine

  // ---- What is promised -----------------------------------------------------------------------

  predicate Within(g: Gap, n: int) {
    g.fromLedger <= n <= g.toLedger
  }

  ghost predicate Skipped(gaps: seq<Gap>, n: int) {
    exists g :: g in gaps && Within(g, n)
  }

  /** The work is what processing the ledger some session served derives from the registry it met. */
  ghost predicate Genuine(e: Env, n: u32, w: Work) {
    && w.meta == e.serve(w.session, n)
    && var r := ProcessLedger(w.before, w.meta.txs, e.approved, n, w.meta.closedAt);
       r.Some? && w.facts == r.value.facts
  }

  ghost predicate Published(e: Env, log: seq<Envelope>, f: Fact) {
    FromEscrowEvent(e.name, f) in log
  }

  /** Everything the last processing of ledger n derived was accepted. */
  ghost predicate Delivered(e: Env, h: History, n: u32) {
    n in h.derived && Genuine(e, n, h.derived[n]) && forall f :: f in h.derived[n].facts ==> Published(e, h.log, f)
  }

  ghost predicate Accounted(e: Env, h: History, gaps: seq<Gap>, n: u32) {
    Skipped(gaps, n) || Delivered(e, h, n)
  }

  ghost predicate AccountedUpTo(e: Env, h: History, gaps: seq<Gap>, first: int, last: int) {
    forall n: u32 :: first <= n <= last ==> Accounted(e, h, gaps, n)
  }

  // ---- The invariant ------------------------------------------------------------------------------

  /** The last ledger this process has accounted for. */
  function Through(p: Proc): int {
    match p.pc
    case Connecting => p.from - 1
    case Saving(lastSeq, _, _, _) => lastSeq
    case Announcing(_) => p.current - 1
    case Head => p.current - 1
    case Delivering(_) => p.current - 1
    case _ => p.current
  }

  ghost predicate InHand(e: Env, h: History, p: Proc) {
    p.current < LAST_LEDGER && p.current in h.derived && h.derived[p.current] == p.work && Genuine(e, p.current, p.work)
  }

  /** What holds at each point of the loop besides the accounts themselves. */
  ghost predicate PointOk(e: Env, s: Sys, p: Proc) {
    match p.pc
    case Connecting => LoadFrom(s.disk).Loaded? ==> p.from == LoadFrom(s.disk).state.lastSeq + 1
    case Saving(lastSeq, hash, wrote, next) =>
      && (wrote ==> s.disk.watch == Some(EncodeWatch(Record(e, p, lastSeq, hash))))
      && (next.Adopt? ==> next.start == lastSeq + 1)
      && (!next.Adopt? ==> lastSeq == p.current < LAST_LEDGER)
    case Announcing(_) => p.current > 0
    case Head => p.current > 0
    case Delivering(i) =>
      InHand(e, s.hist, p) && i <= |p.work.facts| && forall j :: 0 <= j < i ==>
          Published(e, s.hist.log, p.work.facts[j])
    case _ => p.current < LAST_LEDGER
  }

  ghost predicate DurableOk(e: Env, d: Disk, h: History) {
    && (h.base.Some? <==> LoadFrom(d).Loaded?)
    && (LoadFrom(d).Loaded? ==>
          var st := LoadFrom(d).state;
          h.base.value <= st.lastSeq + 1 <= LAST_LEDGER && AccountedUpTo(e, h, st.gaps, h.base.value, st.lastSeq))
  }

  /** Every gap a process knows is on disk, but for the one it is just about to write and has not acted on. */
  predicate Persisted(durable: seq<Gap>, p: Proc) {
    if p.pc.Saving? && !p.pc.wrote && p.pc.next.Adopt?
    then |p.gaps| > 0 && durable == p.gaps[..|p.gaps| - 1]
    else durable == p.gaps
  }

  /** The accounts of a live process reach at least as far as the disk's and rest on at least its gaps. */
  ghost predicate LiveOk(e: Env, s: Sys, p: Proc) {
    && !LoadFrom(s.disk).Unreadable?
    && CacheTrue(Store(s.disk, p.cache))
    && Persisted(Preserved(LoadFrom(s.disk)).gaps, p)
    && (s.hist.base.Some? ==> p.base == s.hist.base.value)
    && (LoadFrom(s.disk).Loaded? ==> LoadFrom(s.disk).state.lastSeq <= Through(p))
    && p.base <= Through(p) + 1
    && AccountedUpTo(e, s.hist, p.gaps, p.base, Through(p))
  }

  ghost predicate Inv(e: Env, s: Sys) {
    DurableOk(e, s.disk, s.hist) && (s.proc.Some? ==> LiveOk(e, s, s.proc.value) && PointOk(e, s, s.proc.value))
  }

  // ---- Small facts -----------------------------------------------------------------------------------

  lemma MoreGaps(e: Env, h: History, a: seq<Gap>, b: seq<Gap>, first: int, last: int)
    requires AccountedUpTo(e, h, a, first, last) && forall g :: g in a ==> g in b
    ensures AccountedUpTo(e, h, b, first, last)
  {
    forall n: u32 | first <= n <= last
      ensures Accounted(e, h, b, n)
    {
      assert Accounted(e, h, a, n);
      if Skipped(a, n) {
        var g :| g in a && Within(g, n);
        assert g in b;
      }
    }
  }

  /** Deliveries only add up, and reprocessing one ledger leaves the accounts of the others. */
  lemma MoreHistory(e: Env, h: History, k: History, gaps: seq<Gap>, first: int, last: int)
    requires AccountedUpTo(e, h, gaps, first, last)
    requires forall x :: x in h.log ==> x in k.log
    requires forall n: u32 :: first <= n <= last && n in h.derived ==> n in k.derived && k.derived[n] == h.derived[n]
    ensures AccountedUpTo(e, k, gaps, first, last)
  {
    forall n: u32 | first <= n <= last
      ensures Accounted(e, k, gaps, n)
    {
      assert Accounted(e, h, gaps, n);
      if Delivered(e, h, n) {
        assert forall f :: f in h.derived[n].facts ==> Published(e, h.log, f) ==> Published(e, k.log, f);
      }
    }
  }

  lemma OneMore(e: Env, h: History, gaps: seq<Gap>, first: int, last: int)
    requires AccountedUpTo(e, h, gaps, first, last - 1) && 0 <= last <= LAST_LEDGER && Accounted(e, h, gaps, last)
    ensures AccountedUpTo(e, h, gaps, first, last)
  {
  }

  /** Replacing the watchlist changes the lists a load yields and nothing else. */
  lemma WatchReplaced(d: Disk, st: State)
    requires !LoadFrom(d).Unreadable?
    ensures var now := LoadFrom(d.(watch := Some(EncodeWatch(st))));
      && (LoadFrom(d).Loaded? ==> now == Loaded(Merged(LoadFrom(d).state, st)))
      && (LoadFrom(d).NotFound? ==> now.NotFound? && now.orphan.gaps == st.gaps)
  {
  }

  lemma CursorReplaced(d: Disk, st: State)
    requires d.watch == Some(EncodeWatch(st))
    ensures LoadFrom(d.(cursor := Some(EncodeCursor(st)))) == Loaded(st)
  {
  }

  // ---- Every step keeps it --------------------------------------------------------------------------

  /** A step that touches neither files nor accounts, only the point of the loop and perhaps the log. */
  lemma PlainStep(e: Env, s: Sys, t: Sys)
    requires Inv(e, s) && s.proc.Some? && t.proc.Some?
    requires t.disk == s.disk && t.hist.base == s.hist.base && t.hist.derived == s.hist.derived
    requires forall x :: x in s.hist.log ==> x in t.hist.log
    requires var p, q := s.proc.value, t.proc.value;
      && q.gaps == p.gaps && q.cache == p.cache && q.base == p.base && Through(q) == Through(p)
      && (p.pc.Saving? ==> q.pc == p.pc) && (q.pc.Saving? && q.pc.next.Adopt? ==> p.pc.Saving?)
    requires PointOk(e, t, t.proc.value)
    ensures Inv(e, t)
  {
    var p := s.proc.value;
    MoreHistory(e, s.hist, t.hist, p.gaps, p.base, Through(p));
    if LoadFrom(s.disk).Loaded? {
      var st := LoadFrom(s.disk).state;
      MoreHistory(e, s.hist, t.hist, st.gaps, s.hist.base.value, st.lastSeq);
    }
  }

  lemma BootKeeps(e: Env, s: Sys)
    requires Inv(e, s) && BootEnabled(e, s)
    ensures Inv(e, Run(s, Booted(e, s)))
  {
  }

  lemma AdoptedPoint(p: Proc, session: nat, start: u32, boot: bool)
    requires start > 0
    ensures var q := Adopted(p, session, start, boot);
      && q.pc == Announcing(0) && q.current == start && q.gaps == p.gaps && q.cache == p.cache && q.base == p.base
      && q.reg == p.reg && q.work == p.work && Through(q) == start - 1
  {
  }

  lemma ReachKeeps(e: Env, s: Sys, p: Proc, session: nat, asked: u32, start: u32)
    requires Inv(e, s) && s.proc == Some(p) && ReachEnabled(e, p, asked, start)
    ensures Inv(e, Run(s, Reached(s, p, session, asked, start)))
  {
    var q := Reached(s, p, session, asked, start);
    var p' := if p.pc.Connecting? then p.(base := if s.hist.base.Some? then s.hist.base.value else asked) else p;
    AdoptedPoint(p', session, start, p.pc.Connecting?);
    ReachedAccounts(e, s, p, asked, start, q);
  }

  predicate Extended(gaps: seq<Gap>, more: seq<Gap>, from: int, to: int) {
    |more| == |gaps| + 1 && more[..|gaps|] == gaps && more[|gaps|].fromLedger == from && more[|gaps|].toLedger == to
  }

  lemma ReachedAccounts(e: Env, s: Sys, p: Proc, asked: u32, start: u32, q: Proc)
    requires Inv(e, s) && s.proc == Some(p) && ReachEnabled(e, p, asked, start)
    requires Through(q) == start - 1
    requires q.base == if p.pc.Connecting? && s.hist.base.None? then asked else p.base
    requires (q.gaps == p.gaps && start == asked) || Extended(p.gaps, q.gaps, asked, start - 1)
    ensures AccountedUpTo(e, s.hist, q.gaps, q.base, start - 1)
  {
    forall n: u32 | q.base <= n <= start - 1
      ensures Accounted(e, s.hist, q.gaps, n)
    {
      if n < asked {
        assert Accounted(e, s.hist, p.gaps, n);
        MoreGaps(e, s.hist, p.gaps, q.gaps, n, n);
      } else {
        var g := q.gaps[|p.gaps|];
        assert g in q.gaps && Within(g, n);
      }
    }
  }

  lemma WatchKeeps(e: Env, s: Sys, p: Proc)
    requires Inv(e, s) && s.proc == Some(p) && p.pc.Saving? && !p.pc.wrote
    ensures Inv(e, WatchWritten(e, s, p))
  {
    var st := Record(e, p, p.pc.lastSeq, p.pc.lastHash);
    var t := WatchWritten(e, s, p);
    assert t.disk == s.disk.(watch := Some(EncodeWatch(st)));
    WatchReplaced(s.disk, st);
    if LoadFrom(s.disk).Loaded? {
      var was := LoadFrom(s.disk).state;
      MoreGaps(e, s.hist, was.gaps, p.gaps, s.hist.base.value, was.lastSeq);
    }
  }

  lemma CursorKeeps(e: Env, s: Sys, p: Proc)
    requires Inv(e, s) && s.proc == Some(p) && p.pc.Saving? && p.pc.wrote
    ensures Inv(e, CursorWritten(e, s, p))
  {
    var st := Record(e, p, p.pc.lastSeq, p.pc.lastHash);
    CursorReplaced(s.disk, st);
    var t := CursorWritten(e, s, p);
    assert LoadFrom(t.disk) == Loaded(st);
    assert t.hist.base == Some(p.base);
    ContinuedPoint(e, s, p, t.proc.value);
    MoreHistory(e, s.hist, t.hist, p.gaps, p.base, p.pc.lastSeq);
  }

  lemma ContinuedPoint(e: Env, s: Sys, p: Proc, q: Proc)
    requires PointOk(e, s, p) && p.pc.Saving? && q == Continued(p, p.pc.next)
    ensures q.gaps == p.gaps && q.cache == p.cache && q.base == p.base && Through(q) == p.pc.lastSeq
    ensures q.pc.Announcing? || q.pc.Draining?
    ensures q.pc.Announcing? ==> q.current > 0
    ensures q.pc.Draining? ==> q.current < LAST_LEDGER
  {
  }

  lemma FetchKeeps(e: Env, s: Sys, p: Proc)
    requires Inv(e, s) && s.proc == Some(p) && FetchEnabled(e, p)
    ensures Inv(e, FetchStep(e, s, p))
  {
    var t := FetchStep(e, s, p);
    MoreHistory(e, s.hist, t.hist, p.gaps, p.base, p.current - 1);
    if LoadFrom(s.disk).Loaded? {
      var st := LoadFrom(s.disk).state;
      MoreHistory(e, s.hist, t.hist, st.gaps, s.hist.base.value, st.lastSeq);
    }
  }

  lemma DeliverKeeps(e: Env, s: Sys, p: Proc)
    requires Inv(e, s) && s.proc == Some(p) && p.pc.Delivering?
    ensures Inv(e, DeliverStep(e, s, p))
  {
    var t := DeliverStep(e, s, p);
    if p.pc.i < |p.work.facts| {
      forall j | 0 <= j < p.pc.i + 1
        ensures Published(e, t.hist.log, p.work.facts[j])
      {
        if j < p.pc.i {
          assert Published(e, s.hist.log, p.work.facts[j]);
        }
      }
      PlainStep(e, s, t);
    } else {
      assert Delivered(e, s.hist, p.current);
      OneMore(e, s.hist, p.gaps, p.base, p.current);
    }
  }

  lemma AnnounceKeeps(e: Env, s: Sys, p: Proc, a: Action)
    requires Inv(e, s) && s.proc == Some(p) && ProcEnabled(e, s, p, a) && (a.Announce? || a.Answer?)
    ensures Inv(e, ProcStep(e, s, p, a))
  {
    PlainStep(e, s, ProcStep(e, s, p, a));
  }

  lemma PublishKeeps(e: Env, s: Sys, p: Proc, a: Action)
    requires Inv(e, s) && s.proc == Some(p) && ProcEnabled(e, s, p, a) && (a.PublishState? || a.PublishSweep?)
    ensures Inv(e, ProcStep(e, s, p, a))
  {
    PlainStep(e, s, ProcStep(e, s, p, a));
  }

  lemma DecideKeeps(e: Env, s: Sys, p: Proc, a: Action)
    requires Inv(e, s) && s.proc == Some(p) && ProcEnabled(e, s, p, a)
    requires a.Defer? || a.Snapshot? || a.SweepSkip? || a.Sweep? || a.Check?
    ensures Inv(e, ProcStep(e, s, p, a))
  {
    PlainStep(e, s, ProcStep(e, s, p, a));
  }

  lemma ControlKeeps(e: Env, s: Sys, p: Proc, a: Action)
    requires Inv(e, s) && s.proc == Some(p) && ProcEnabled(e, s, p, a)
    requires a.Execute? || a.Flush? || a.Advance?
    ensures Inv(e, ProcStep(e, s, p, a))
  {
    PlainStep(e, s, ProcStep(e, s, p, a));
  }

  lemma WorkKeeps(e: Env, s: Sys, p: Proc, a: Action)
    requires Inv(e, s) && s.proc == Some(p) && ProcEnabled(e, s, p, a)
    requires a.Reach? || a.WriteWatch? || a.WriteCursor? || a.Fetch? || a.Deliver?
    ensures Inv(e, ProcStep(e, s, p, a))
  {
    match a {
      case Reach(session, asked, start) => ReachKeeps(e, s, p, session, asked, start);
      case WriteWatch => WatchKeeps(e, s, p);
      case WriteCursor => CursorKeeps(e, s, p);
      case Fetch => FetchKeeps(e, s, p);
      case Deliver => DeliverKeeps(e, s, p);
    }
  }

  lemma ProcKeeps(e: Env, s: Sys, p: Proc, a: Action)
    requires Inv(e, s) && s.proc == Some(p) && ProcEnabled(e, s, p, a)
    ensures Inv(e, ProcStep(e, s, p, a))
  {
    if a.Reach? || a.WriteWatch? || a.WriteCursor? || a.Fetch? || a.Deliver? {
      WorkKeeps(e, s, p, a);
    } else if a.Execute? || a.Flush? || a.Advance? {
      ControlKeeps(e, s, p, a);
    } else if a.Announce? || a.Answer? {
      AnnounceKeeps(e, s, p, a);
    } else if a.PublishState? || a.PublishSweep? {
      PublishKeeps(e, s, p, a);
    } else {
      DecideKeeps(e, s, p, a);
    }
  }

  lemma StepKeeps(e: Env, s: Sys, a: Action)
    requires Inv(e, s) && Enabled(e, s, a)
    ensures Inv(e, Step(e, s, a))
  {
    if a.Boot? {
      BootKeeps(e, s);
    } else if !a.Tick? && !a.Crash? {
      ProcKeeps(e, s, s.proc.value, a);
    }
  }

  lemma {:induction false} InvAlways(e: Env, s: Sys, trace: seq<Action>)
    requires Initial(s)
    ensures Inv(e, Exec(e, s, trace))
  {
    if |trace| > 0 {
      var before := Exec(e, s, trace[..|trace| - 1]);
      InvAlways(e, s, trace[..|trace| - 1]);
      if Enabled(e, before, trace[|trace| - 1]) {
        StepKeeps(e, before, trace[|trace| - 1]);
      }
    }
  }

  // ---- The first ledger ------------------------------------------------------------------------------

  /** Where a deployment starts: after the cursor it finds, or at the configured ledger; 0 means "at the tip". */
  function First(e: Env, s: Sys): u32 {
    var r := LoadFrom(s.disk);
    if r.Loaded? then Add32(r.state.lastSeq, 1) else e.start
  }

  predicate BaseIs(s: Sys, first: u32) {
    && (s.hist.base.Some? ==> s.hist.base.value == first)
    && (s.proc.Some? ==>
          && s.proc.value.base == first
          && (s.proc.value.pc.Connecting? && s.hist.base.None? ==> s.proc.value.from == first))
  }

  lemma BaseStays(e: Env, s: Sys, a: Action, first: u32)
    requires Inv(e, s) && Enabled(e, s, a) && BaseIs(s, first) && first != 0
    requires s.hist.base.None? ==> first == e.start
    ensures BaseIs(Step(e, s, a), first)
  {
    if a.WriteCursor? {
      var p := s.proc.value;
      ContinuedPoint(e, s, p, Continued(p, p.pc.next));
    } else if a.Reach? {
      var p := s.proc.value;
      AdoptedPoint(p.(base := first), a.session, a.start, p.pc.Connecting?);
    } else if !a.Boot? && !a.Tick? && !a.Crash? {
      BaseUntouched(e, s, s.proc.value, a);
    }
  }

  lemma BaseUntouched(e: Env, s: Sys, p: Proc, a: Action)
    requires s.proc == Some(p) && ProcEnabled(e, s, p, a) && !a.Reach? && !a.WriteCursor?
    ensures var t := ProcStep(e, s, p, a);
      t.hist.base == s.hist.base && t.proc.Some? && t.proc.value.base == p.base && !t.proc.value.pc.Connecting?
  {
  }

  lemma {:induction false} BaseAlways(e: Env, s: Sys, trace: seq<Action>)
    requires Initial(s) && First(e, s) != 0
    ensures BaseIs(Exec(e, s, trace), First(e, s))
    ensures Exec(e, s, trace).hist.base.None? ==> First(e, s) == e.start
  {
    if |trace| > 0 {
      var before := Exec(e, s, trace[..|trace| - 1]);
      BaseAlways(e, s, trace[..|trace| - 1]);
      InvAlways(e, s, trace[..|trace| - 1]);
      if Enabled(e, before, trace[|trace| - 1]) {
        BaseStays(e, before, trace[|trace| - 1], First(e, s));
        BaseNeverForgotten(e, before, trace[|trace| - 1]);
      }
    }
  }

  lemma BaseNeverForgotten(e: Env, s: Sys, a: Action)
    requires Enabled(e, s, a)
    ensures s.hist.base.Some? ==> Step(e, s, a).hist.base == s.hist.base
  {
  }

  // ---- The theorems -------------------------------------------------------------------------------------

  /** The durable cursor, -1 while there is none. */
  function CursorOf(d: Disk): int {
    if LoadFrom(d).Loaded? then LoadFrom(d).state.lastSeq else -1
  }

  function GapsOf(d: Disk): seq<Gap> {
    if LoadFrom(d).Unreadable? then [] else Preserved(LoadFrom(d)).gaps
  }

  /**
   No silent loss: in every state of every run, each ledger from the first one
   to the durable cursor is accounted for by what was delivered and by the gaps
   on that very disk. With an explicit start ledger the first one is that ledger.
   */
  lemma NoSilentLoss(e: Env, s: Sys, trace: seq<Action>, n: u32)
    requires Initial(s)
    ensures var t := Exec(e, s, trace); LoadFrom(t.disk).Loaded? ==>
      && t.hist.base.Some?
      && (First(e, s) != 0 ==> t.hist.base.value == First(e, s))
      && (t.hist.base.value <= n <= LoadFrom(t.disk).state.lastSeq ==>
            Accounted(e, t.hist, LoadFrom(t.disk).state.gaps, n))
  {
    InvAlways(e, s, trace);
    if First(e, s) != 0 {
      BaseAlways(e, s, trace);
    }
  }

  /** A process that goes on has its gap evidence on disk: nothing is skipped before the record of it is durable. */
  lemma EvidenceBeforeAdoption(e: Env, s: Sys, trace: seq<Action>, p: Proc)
    requires Initial(s) && Exec(e, s, trace).proc == Some(p)
    ensures !p.pc.Saving? ==> GapsOf(Exec(e, s, trace).disk) == p.gaps
    ensures AccountedUpTo(e, Exec(e, s, trace).hist, p.gaps, p.base, Through(p))
  {
    InvAlways(e, s, trace);
  }

  lemma StepGoesForward(e: Env, s: Sys, a: Action)
    requires Inv(e, s) && Enabled(e, s, a)
    ensures CursorOf(s.disk) <= CursorOf(Step(e, s, a).disk) && GapsOf(s.disk) <= GapsOf(Step(e, s, a).disk)
  {
    if a.WriteWatch? {
      var p := s.proc.value;
      WatchForward(e, s, p);
    } else if a.WriteCursor? {
      var p := s.proc.value;
      CursorReplaced(s.disk, Record(e, p, p.pc.lastSeq, p.pc.lastHash));
    } else {
      OnlySavesWrite(e, s, a);
    }
  }

  lemma OnlySavesWrite(e: Env, s: Sys, a: Action)
    requires Enabled(e, s, a) && !a.WriteWatch? && !a.WriteCursor?
    ensures Step(e, s, a).disk == s.disk
  {
  }

  lemma WatchForward(e: Env, s: Sys, p: Proc)
    requires Inv(e, s) && s.proc == Some(p) && p.pc.Saving? && !p.pc.wrote
    ensures var d := WatchWritten(e, s, p).disk;
      CursorOf(s.disk) == CursorOf(d) && GapsOf(s.disk) <= GapsOf(d)
  {
    var st := Record(e, p, p.pc.lastSeq, p.pc.lastHash);
    assert WatchWritten(e, s, p).disk == s.disk.(watch := Some(EncodeWatch(st)));
    WatchReplaced(s.disk, st);
  }

  /** The durable cursor never goes back and no gap evidence is ever lost, crash or no crash. */
  lemma {:induction false} CursorNeverDecreases(e: Env, s: Sys, trace: seq<Action>, i: nat)
    requires Initial(s) && i <= |trace|
    ensures CursorOf(Exec(e, s, trace[..i]).disk) <= CursorOf(Exec(e, s, trace).disk)
    ensures GapsOf(Exec(e, s, trace[..i]).disk) <= GapsOf(Exec(e, s, trace).disk)
    decreases |trace|
  {
    if i == |trace| {
      assert trace[..i] == trace;
    } else {
      var n := |trace| - 1;
      assert trace[..n][..i] == trace[..i];
      CursorNeverDecreases(e, s, trace[..n], i);
      InvAlways(e, s, trace[..n]);
      if Enabled(e, Exec(e, s, trace[..n]), trace[n]) {
        StepGoesForward(e, Exec(e, s, trace[..n]), trace[n]);
      }
    }
  }
}
