/**
 The ingest loop as it runs: one process over the two files, the pool, the
 registry, the detector, the sweep and the sink. Every step of it is a step of the
 machine, so what is proved of every run of the machine holds of the loop.
 */
module Ingest {
  import opened Base
  import opened Ids
  import opened StateStore
  import opened Envelopes
  import opened Catchup
  import opened Machine
  import opened Passages
  import Control
  import Delivery
  import Detector
  import DetectorGuarantees
  import Diary
  import Executor
  import Facts
  import Failover
  import Minutes
  import NoLoss
  import Publish
  import Registry
  import Sweeper
  import SweepGuarantees
  import Window

  /** How asking an endpoint for one ledger went. */
  datatype Fetching = Fetching(outcome: Window.Outcome, calls: nat, alive: nat -> bool)

  class Pipeline {
    const env: Env
    /** What the session's backend answers to the i-th call for a ledger. */
    const answers: (nat, u32, nat) -> Window.Answer
    const stallBudget: int

    const drive: Drive
    const store: FileStore
    const reg: Registry.Registry
    const rec: Failover.GapRecorder
    const pool: Failover.Pool
    const broker: Publish.RabbitSink
    const outSink: Publish.BackpressureSink
    const detector: Detector.EscrowStateDetector
    const sweeper: Sweeper.Sweeper
    const executor: Executor.CommandExecutor

    var clock: int
    var currentLedger: u32
    var lastLedgerHash: Hash
    var expectedPrevHash: Hash
    var lastCheckpoint: u32
    var pendingStates: set<Id>

    /** The deployment as it was first found, and what its earlier processes delivered. */
    ghost const init: Deployment
    ghost const spoken: seq<Envelope>
    /** The machine's state that this object's state is a picture of. */
    ghost var sys: Sys

    ghost predicate Wired() {
      && store.drive == drive && rec.reg == reg && rec.store == store && rec.network == env.passphrase
      && reg.approved == env.approved && outSink.inner == broker && broker.confirms
      && pool.passphrase == env.passphrase && !pool.requireFullRange
      && detector.registry == reg && sweeper.reg == reg
      && executor.reg == reg && executor.detector == detector && executor.outSink == outSink
      && executor.sweeper == sweeper && executor.network == env.name
      && stallBudget > 0 && forall k: nat, i: nat :: answers(k, LAST_LEDGER, i) != Window.Got
    }

    /** Files, clock and deliveries are those of a state some run of the machine reaches. */
    ghost predicate Outside()
      reads this, drive, broker
    {
      && Wired() && Reaches(env, init, sys)
      && sys.disk == drive.Files() && sys.now == clock && sys.hist.log == spoken + broker.delivered
    }

    ghost predicate Halted()
      reads this, drive, broker
    {
      Outside() && sys.proc.None?
    }

    /** The objects the process works with. */
    ghost predicate Holds(p: Proc)
      reads reg, rec, store, pool, executor
    {
      && p.reg == reg.Value() && Registry.Disjoint(p.reg) && p.gaps == rec.gaps && p.cache == store.lastWatchlist
      && pool.Valid() && (pool.client.Some? ==> p.session == pool.client.value)
      && executor.shown == executor.pausedUntil
    }

    /** The loop's own variables. */
    ghost predicate Counts(p: Proc)
      reads this
    {
      && p.current == currentLedger && p.lastHash == lastLedgerHash && p.expected == expectedPrevHash
      && p.lastCheckpoint == lastCheckpoint && p.pending == pendingStates
    }

    ghost predicate Live()
      reads this, drive, broker, reg, rec, store, pool, executor
    {
      Outside() && sys.proc.Some? && Holds(sys.proc.value) && Counts(sys.proc.value)
    }

    /** Journal and book tell of this process, and all but at most the journal's last answer is delivered. */
    ghost predicate Heeded(n: Minutes.Notes)
      reads detector, broker
    {
      && n.journal.name == n.book.name == env.name && n.journal.isAddress == n.book.isAddress == detector.isAddress
      && n.journal.nodes == detector.nodes && n.journal.heard <= broker.delivered && n.journal.missing <= 1
      && n.book.nodes <= detector.nodes && n.book.heard <= broker.delivered && n.book.made == n.journal.made
    }

    /** The pause in effect is what the commands made of it, or its time has come. */
    ghost predicate Obedient(n: Minutes.Notes)
      reads this`clock, executor
    {
      || executor.pausedUntil == n.book.pause
      || (executor.pausedUntil.None? && n.book.pause.Some? && n.book.pause.value <= clock)
    }

    /** And the journal is up to date. */
    ghost predicate InStep(n: Minutes.Notes)
      reads this`currentLedger, this`clock, sweeper, reg, detector, broker, executor
    {
      && Heeded(n) && Obedient(n) && n.journal.missing == 0 && n.journal.sweep == sweeper.Value()
      && n.journal.learned == detector.learned && n.journal.ledger <= currentLedger && n.journal.tracked <= reg.escrows
    }

    /** What is deferred is what the decisions in the book left waiting. */
    ghost predicate Owes(p: Proc, n: Minutes.Notes) {
      p.pending == Minutes.Outstanding(n.book.decisions)
    }

    /** A new process over the files an earlier one left, or the first one of a deployment. */
    constructor (env: Env, answers: (nat, u32, nat) -> Window.Answer, stallBudget: int, urls: seq<string>,
                 isAddress: string -> bool, drive: Drive, clock: int, handles: nat, ghost init: Deployment,
                 ghost was: Sys)
      requires |urls| > 0 && stallBudget > 0
      requires forall k: nat, i: nat :: answers(k, LAST_LEDGER, i) != Window.Got
      requires Reaches(env, init, was) && was.proc.None? && was.disk == drive.Files() && was.now == clock
      ensures Halted() && this.env == env && this.init == init && this.drive == drive && sys == was
      ensures spoken == was.hist.log && broker.delivered == [] && detector.isAddress == isAddress
      ensures sweeper.Value() == Sweeper.FRESH
      ensures detector.learned == map[] && detector.nodes == []
      ensures reg.Value() == Registry.NOBODY && rec.gaps == [] && store.lastWatchlist == None
      ensures executor.pausedUntil.None?
      ensures pool.Valid() && pool.client.None? && pool.handles == handles && executor.shown == executor.pausedUntil
      ensures fresh(this) && fresh(store) && fresh(reg) && fresh(rec) && fresh(pool) && fresh(broker)
      ensures fresh(detector) && fresh(sweeper) && fresh(executor)
    {
      var registry := new Registry.Registry(env.approved);
      var files := new FileStore(drive);
      var sink := new Publish.RabbitSink(true);
      var wrapped := new Publish.BackpressureSink(sink);
      var state := new Detector.EscrowStateDetector(registry, isAddress);
      var sweep := new Sweeper.Sweeper(registry);
      this.env, this.answers, this.stallBudget, this.drive, this.clock := env, answers, stallBudget, drive, clock;
      store, reg, broker, outSink, detector, sweeper := files, registry, sink, wrapped, state, sweep;
      rec := new Failover.GapRecorder(env.passphrase, registry, files, []);
      pool := new Failover.Pool(urls, env.passphrase, false, handles);
      executor := new Executor.CommandExecutor(registry, state, wrapped, sweep, env.name);
      currentLedger, lastLedgerHash, expectedPrevHash, lastCheckpoint, pendingStates := 0, 0, 0, 0, {};
      this.init, this.spoken, this.sys := init, was.hist.log, was;
    }

    /** Time passes, by any amount. */
    method Now() returns (now: int)
      requires Live()
      modifies this`clock, this`sys
      ensures Live() && now == clock >= old(clock) && sys == old(sys).(now := clock)
    {
      var later: int := *;
      now := if later > clock then later else clock;
      Waits(env, init, sys, now - clock);
      clock := now;
      sys := sys.(now := now);
    }

    /** The process ends here; whatever it had not written is lost. */
    ghost method Exit()
      requires Outside() && sys.proc.Some?
      modifies this`sys
      ensures Halted()
    {
      Dies(env, init, sys);
      sys := Dead(sys);
    }

    // ---- Boot ---------------------------------------------------------------------------------------

    /** Loads the files and restores the registry, or seeds it. */
    method Restore() returns (ok: bool, startLedger: u32, resumed: Option<(u32, Hash)>)
      requires Halted() && reg.Value() == Registry.NOBODY && rec.gaps == [] && store.lastWatchlist == None
      requires pool.Valid() && pool.client.None? && executor.shown == executor.pausedUntil
      modifies this`currentLedger, this`lastLedgerHash, this`expectedPrevHash, this`lastCheckpoint, this`pendingStates
      modifies this`sys, store, reg, rec
      ensures !ok ==> Halted()
      ensures ok ==>
        && Live() && sys.proc.value.pc.Connecting?
        && sys.proc.value.from == startLedger && sys.proc.value.resume == resumed && sys.proc.value.pending == {}
    {
      var r := store.Load();
      if r.Unreadable? {
        return false, 0, None;
      }
      var st := Preserved(r);
      if Restores(r) && st.network != "" && st.network != env.passphrase {
        return false, 0, None;
      }
      RestoreRegistry(r);
      startLedger, resumed := StartFrom(r);
      ok := true;
    }

    /** The ledger to start from, and the cursor and hash a resume continues. */
    method StartFrom(r: LoadResult) returns (startLedger: u32, resumed: Option<(u32, Hash)>)
      requires Halted() && r == LoadFrom(sys.disk) && BootEnabled(env, sys)
      requires reg.Value() == BootMembers(env, r) && rec.gaps == if Restores(r) then Preserved(r).gaps else []
      requires store.lastWatchlist == CacheAfterLoad(Store(sys.disk, None))
      requires pool.Valid() && pool.client.None? && executor.shown == executor.pausedUntil
      modifies this`currentLedger, this`lastLedgerHash, this`expectedPrevHash, this`lastCheckpoint, this`pendingStates
      modifies this`sys
      ensures Live() && sys.proc.value.pc.Connecting? && sys.proc.value.pending == {}
      ensures sys.proc.value.from == startLedger && sys.proc.value.resume == resumed
    {
      startLedger, resumed := env.start, None;
      if r.Loaded? {
        startLedger, resumed := Add32(r.state.lastSeq, 1), Some((r.state.lastSeq, r.state.lastHash));
      }
      currentLedger, lastLedgerHash, expectedPrevHash, lastCheckpoint, pendingStates := startLedger, 0, 0, 0, {};
      Then(env, init, sys, Boot);
      sys := Run(sys, Booted(env, sys));
      BootDisjoint(env, r);
    }

    method RestoreRegistry(r: LoadResult)
      requires !r.Unreadable? && reg.Value() == Registry.NOBODY && rec.gaps == []
      modifies reg, rec
      ensures reg.Value() == BootMembers(env, r)
      ensures rec.gaps == if Restores(r) then Preserved(r).gaps else []
    {
      if Restores(r) {
        reg.SeedRemoved(Preserved(r).removed);
        reg.Seed(Preserved(r).escrows);
        rec.gaps := Preserved(r).gaps;
      } else if |env.seeds| > 0 {
        reg.Seed(env.seeds);
      }
    }

    // ---- Endpoints ----------------------------------------------------------------------------------

    /** What adopting an endpoint promises: a start no lower than asked, and a gap for exactly what lies between. */
    ghost predicate Offered(v: Failover.Verdict, from: u32, asked: u32, now: int) {
      && v.Adoptable? && v.start != 0 && asked <= v.start && (from != 0 ==> asked == from)
      && (env.end != 0 ==> v.start <= env.end)
      && (v.gap.None? <==> v.start == asked)
      && (v.gap.Some? ==> v.gap.value == Gap(asked, v.start - 1, Window.GAP_REASON_RPC_RETENTION, now))
    }

    /** Connects at boot and rotates later, whatever the endpoints answer. */
    method Dial(boot: bool, from: u32) returns (r: Failover.CycleResult, ghost v: Failover.Verdict, ghost asked: u32)
      requires Wired() && pool.Valid()
      modifies pool, rec, store, drive
      ensures pool.Valid() && pool.handles >= old(pool.handles)
      ensures r.Adopted? ==> pool.client.Some? && pool.client.value >= old(pool.handles)
      ensures r.Adopted? || r.Unrecorded? <==> v.Adoptable?
      ensures v.Adoptable? ==> Offered(v, from, asked, clock)
      ensures r.Adopted? ==> pool.client.Some? && r.start == v.start
      ensures Failover.GapRecorded(old(rec.gaps), old(store.Value()), v, r.Adopted?, rec)
    {
      var probes: nat -> Failover.Probe, alive: nat -> bool := *, *;
      var tried: nat, verdict: Failover.Verdict;
      if boot {
        r, tried, verdict := pool.Connect(probes, alive, from, env.end, clock, rec);
      } else {
        r, tried, verdict := pool.Rotate(probes, alive, from, env.end, clock, rec);
      }
      v, asked := verdict, 0;
      if verdict.Adoptable? {
        Failover.AdoptionPromise(probes(tried - 1), pool.passphrase, from, env.end, false, clock);
        asked := Failover.Resolved(probes(tried - 1), from).value;
      }
    }

    /** The process as it was before an endpoint was dialled: only the files and the gap list may have moved since. */
    ghost predicate Dialled(p: Proc, v: Failover.Verdict, from: u32, asked: u32, adopted: bool)
      reads this, drive, broker, reg, rec, store, pool, executor
    {
      && Wired() && Reaches(env, init, sys) && sys.proc == Some(p)
      && sys.now == clock && sys.hist.log == spoken + broker.delivered
      && p.reg == reg.Value() && Registry.Disjoint(p.reg) && pool.Valid() && executor.shown == executor.pausedUntil
      && (v.Adoptable? ==> Offered(v, from, asked, clock) && ReachEnabled(env, p, asked, v.start))
      && Failover.GapRecorded(p.gaps, StoreOf(sys, p), v, adopted, rec)
    }

    ghost method FinishAdoption(p: Proc, v: Failover.Verdict, from: u32, asked: u32)
      requires Dialled(p, v, from, asked, true) && v.Adoptable? && pool.client.Some?
      modifies this`sys
      ensures Outside() && sys.proc.Some? && Holds(sys.proc.value) && Moved(p, sys.proc.value, v.start)
    {
      if v.gap.None? {
        sys := AdoptsWhole(env, init, sys, p, pool.client.value, v.start);
      } else {
        sys := AdoptsClamped(env, init, sys, p, pool.client.value, asked, v.start, v.gap.value);
      }
    }

    ghost method GiveUp(p: Proc, v: Failover.Verdict, from: u32, asked: u32)
      requires Dialled(p, v, from, asked, false)
      modifies this`sys
      ensures Halted()
    {
      if v.Rejected? || v.gap.None? {
        Dies(env, init, sys);
        sys := Dead(sys);
      } else {
        sys := ClampDies(env, init, sys, p, asked, v.start, v.gap.value, drive.Files());
      }
    }

    /** Adopts an endpoint, or gives up and ends the process. */
    method ReachEndpoint(boot: bool, from: u32) returns (ok: bool, start: u32)
      requires Live() && sys.proc.value.pc.Connecting? == boot
      requires boot ==> from == sys.proc.value.from
      requires !boot ==> from == currentLedger != 0 && Going(env, sys.proc.value)
      modifies this`sys, pool, rec, store, drive
      ensures pool.handles >= old(pool.handles)
      ensures !ok ==> Halted()
      ensures ok ==>
        && Outside() && sys.proc.Some? && Holds(sys.proc.value) && pool.client.Some?
        && Moved(old(sys.proc.value), sys.proc.value, start) && start != 0 && (!boot ==> start >= from)
        && sys.proc.value.session >= old(pool.handles)
    {
      ghost var p := sys.proc.value;
      var r, v, asked := Dial(boot, from);
      if r.Adopted? {
        FinishAdoption(p, v, from, asked);
        return true, r.start;
      }
      GiveUp(p, v, from, asked);
      return false, 0;
    }

    /** Republishes every recorded gap after an adoption. */
    method AnnounceGaps() returns (ok: bool)
      requires Live() && sys.proc.value.pc == Announcing(0)
      modifies this`sys, broker
      ensures old(broker.delivered) <= broker.delivered
      ensures !ok ==> Halted()
      ensures ok ==> Live() && sys.proc == Some(old(sys.proc.value).(pc := Head))
    {
      ghost var p, said := sys.proc.value, broker.delivered;
      var sent;
      ok, sent := Delivery.PublishGaps(outSink, env.name, rec.gaps);
      assert spoken + (said + Delivery.Gaps(env.name, p.gaps, sent)) ==
          spoken + said + Delivery.Gaps(env.name, p.gaps, sent);
      if ok {
        AllAnnounced(env, init, sys, p);
        sys := Run(sys.(hist := Logged(sys, Delivery.Gaps(env.name, p.gaps, sent))), p.(pc := Head));
      } else {
        Announces(env, init, sys, p, sent);
        sys := Announced(env, sys, p, sent);
        Exit();
      }
    }

    /** The first adoption of a process: the continuity anchor is armed only on a contiguous, hashed resume. */
    method Connect(startLedger: u32, resumed: Option<(u32, Hash)>) returns (ok: bool)
      requires Live() && sys.proc.value.pc.Connecting?
      requires sys.proc.value.from == startLedger && sys.proc.value.resume == resumed
      modifies this`currentLedger, this`lastLedgerHash, this`expectedPrevHash, this`lastCheckpoint, this`sys
      modifies pool, rec, store, drive, broker
      ensures old(broker.delivered) <= broker.delivered && pool.handles >= old(pool.handles)
      ensures !ok ==> Halted()
      ensures ok ==> Live() && sys.proc.value.pc.Head? && currentLedger != 0 && pool.client.Some?
      ensures ok ==> sys.proc.value.pending == old(sys.proc.value.pending)
    {
      var start: u32;
      ok, start := ReachEndpoint(true, startLedger);
      if !ok {
        return;
      }
      Arm(start, resumed, old(sys.proc.value));
      ok := AnnounceGaps();
    }

    method Arm(start: u32, resumed: Option<(u32, Hash)>, ghost was: Proc)
      requires Outside() && sys.proc.Some? && Holds(sys.proc.value) && Moved(was, sys.proc.value, start)
      requires was.pc.Connecting? && was.resume == resumed && was.pending == pendingStates
      modifies this`expectedPrevHash, this`lastLedgerHash, this`lastCheckpoint, this`currentLedger
      ensures Live() && currentLedger == start
    {
      expectedPrevHash := 0;
      if resumed.Some? && resumed.value.1 != 0 && start == Add32(resumed.value.0, 1) {
        expectedPrevHash := resumed.value.1;
      }
      lastLedgerHash := expectedPrevHash;
      lastCheckpoint := Sub32(start, 1);
      currentLedger := start;
    }

    /** The endpoint gave up on the current ledger: move to the next one that works. */
    method Rotate() returns (ok: bool)
      requires Live() && Going(env, sys.proc.value) && currentLedger != 0
      modifies this`currentLedger, this`lastLedgerHash, this`expectedPrevHash, this`lastCheckpoint, this`sys
      modifies pool, rec, store, drive, broker
      ensures old(broker.delivered) <= broker.delivered && pool.handles >= old(pool.handles)
      ensures !ok ==> Halted()
      ensures ok ==> Live() && sys.proc.value.pc.Head? && currentLedger >= old(currentLedger) && pool.client.Some?
      ensures ok ==> sys.proc.value.pending == old(sys.proc.value.pending)
    {
      var resumeFrom: u32;
      ok, resumeFrom := ReachEndpoint(false, currentLedger);
      if !ok {
        return;
      }
      if resumeFrom == currentLedger {
        expectedPrevHash := lastLedgerHash;
      } else {
        currentLedger := resumeFrom;
        expectedPrevHash := 0;
      }
      ok := AnnounceGaps();
    }

    method Move(ghost n: Minutes.Notes) returns (ok: bool)
      requires AtHead(n) && Going(env, sys.proc.value)
      modifies this`currentLedger, this`lastLedgerHash, this`expectedPrevHash, this`lastCheckpoint, this`sys
      modifies pool, rec, store, drive, broker
      ensures pool.handles >= old(pool.handles)
      ensures !ok ==> Halted() && Heeded(n)
      ensures ok ==> AtHead(n)
    {
      ok := Rotate();
    }

    // ---- One ledger -----------------------------------------------------------------------------------

    /** The session was asked for the ledger, and that is how it went. */
    ghost predicate Tried(f: Fetching, session: nat, ledger: u32) {
      Window.Explained(f.outcome, f.calls, ledger, stallBudget, (i: nat) => answers(session, ledger, i), f.alive)
    }

    /** Fetches the current ledger from the live session, or learns that the endpoint has given up. */
    method FetchLedger() returns (meta: Option<Ledger>, ghost f: Fetching)
      requires Live() && pool.client.Some?
      ensures meta.Some? ==> meta.value == Served(env, sys.proc.value) && currentLedger != LAST_LEDGER
      ensures Tried(f, pool.client.value, currentLedger) && (meta.Some? <==> f.outcome.Fetched?)
    {
      var session, ledger := pool.client.value, currentLedger;
      var alive: nat -> bool := *;
      var outcome, calls, waits :=
        Window.FetchLedgerWithRetry(ledger, stallBudget, (i: nat) => answers(session, ledger, i), alive);
      f := Fetching(outcome, calls, alive);
      if outcome.Fetched? {
        assert answers(session, ledger, calls - 1) == Window.Got;
        meta := Some(env.serve(session, ledger));
      } else {
        meta := None;
      }
    }

    /** Checks the chain, discovers and detects; a ledger that fails any of it ends the process unprocessed. */
    method Process(meta: Ledger) returns (ok: bool, facts: seq<Facts.Fact>, activeEscrows: seq<Id>)
      requires Live() && Going(env, sys.proc.value) && currentLedger != LAST_LEDGER
      requires meta == Served(env, sys.proc.value)
      modifies this`sys, this`expectedPrevHash, reg
      ensures ok <==> FetchEnabled(env, old(sys.proc.value))
      ensures !ok ==> Halted()
      ensures ok ==>
        && Live() && sys.proc == Some(Fetched(env, old(sys.proc.value)))
        && facts == sys.proc.value.work.facts && meta == sys.proc.value.work.meta
        && Elements(activeEscrows) == Facts.Active(facts) && Distinct(activeEscrows)
    {
      ok, facts, activeEscrows := false, [], [];
      if expectedPrevHash != 0 && meta.prev != expectedPrevHash {
        Exit();
        return;
      }
      ghost var p := sys.proc.value;
      var r := Facts.ProcessLedgerInPlace(reg, meta.txs, currentLedger, meta.closedAt);
      if r.None? {
        Exit();
        return;
      }
      expectedPrevHash := 0;
      ok, facts, activeEscrows := true, r.value.0, r.value.1;
      Then(env, init, sys, Fetch);
      sys := FetchStep(env, sys, p);
    }

    /** Processes the ledger, which at most adds to the registry. */
    method Absorb(meta: Ledger, ghost n: Minutes.Notes)
        returns (ok: bool, facts: seq<Facts.Fact>, activeEscrows: seq<Id>)
      requires Live() && Going(env, sys.proc.value) && currentLedger != LAST_LEDGER && InStep(n)
      requires meta == Served(env, sys.proc.value)
      modifies this`sys, this`expectedPrevHash, reg
      ensures ok <==> FetchEnabled(env, old(sys.proc.value))
      ensures !ok ==> Halted() && Heeded(n)
      ensures ok ==>
        && Live() && InStep(n) && sys.proc.value.pc == Delivering(0)
        && sys.proc.value.pending == old(sys.proc.value.pending)
        && facts == sys.proc.value.work.facts && meta == sys.proc.value.work.meta
        && Elements(activeEscrows) == Facts.Active(facts) && Distinct(activeEscrows)
    {
      ghost var p := sys.proc.value;
      ok, facts, activeEscrows := Process(meta);
      if ok {
        FetchGrows(env, p);
      }
    }

    /** Publishes every fact of the ledger, in order. */
    method PublishFacts(facts: seq<Facts.Fact>, ghost n: Minutes.Notes) returns (ok: bool)
      requires Live() && sys.proc.value.pc == Delivering(0) && facts == sys.proc.value.work.facts && InStep(n)
      modifies this`sys, broker
      ensures InStep(n)
      ensures !ok ==> Halted()
      ensures ok ==> Live() && sys.proc == Some(old(sys.proc.value).(pc := Deciding)) && Delivered(facts)
    {
      ghost var p := sys.proc.value;
      var sent;
      ok, sent := OfferFacts(facts);
      FactsTold(p, sent);
      if !ok {
        Exit();
      }
    }

    ghost predicate Delivered(facts: seq<Facts.Fact>)
      reads broker
    {
      forall f :: f in facts ==> FromEscrowEvent(env.name, f) in broker.delivered
    }

    method OfferFacts(facts: seq<Facts.Fact>) returns (ok: bool, sent: nat)
      requires Wired()
      modifies broker
      ensures old(broker.delivered) <= broker.delivered
      ensures sent <= |facts| && (ok <==> sent == |facts|) && Delivery.EventsValid(env.name, facts, sent)
      ensures ok ==> Delivered(facts)
      ensures spoken + broker.delivered == spoken + old(broker.delivered) + Delivery.Events(env.name, facts, sent)
    {
      ghost var said := broker.delivered;
      ok, sent := Delivery.PublishEvents(outSink, env.name, facts);
      ghost var events := Delivery.Events(env.name, facts, sent);
      Delivery.EventsMembers(env.name, facts, sent);
      assert spoken + (said + events) == spoken + said + events;
    }

    ghost method FactsTold(p: Proc, sent: nat)
      requires Reaches(env, init, sys) && sys.proc == Some(p) && p.pc == Delivering(0)
      requires sent <= |p.work.facts| && Delivery.EventsValid(env.name, p.work.facts, sent)
      modifies this`sys
      ensures Reaches(env, init, sys) && sys.proc.Some? && sys.disk == old(sys.disk) && sys.now == old(sys.now)
      ensures sys.hist.log == old(sys.hist.log) + Delivery.Events(env.name, p.work.facts, sent)
      ensures sent == |p.work.facts| ==> sys.proc == Some(p.(pc := Deciding))
    {
      if sent == |p.work.facts| {
        AllTold(env, init, sys, p);
        sys := Run(sys.(hist := Logged(sys, Delivery.Events(env.name, p.work.facts, sent))), p.(pc := Deciding));
      } else {
        Tells(env, init, sys, p, sent);
        sys := Told(env, sys, p, sent);
      }
    }

    /**
     Defers the active escrows while catching up; at the tip fetches them, and everything
     deferred, and publishes. The book gains the decision, its question and its answer.
     */
    method PublishStates(meta: Ledger, activeEscrows: seq<Id>, ghost n: Minutes.Notes)
        returns (ok: bool, catchingUp: bool, ghost k: Minutes.Notes)
      requires Live() && sys.proc.value.pc.Deciding? && meta == sys.proc.value.work.meta
      requires Elements(activeEscrows) == Facts.Active(sys.proc.value.work.facts) && Distinct(activeEscrows)
      requires InStep(n) && Owes(sys.proc.value, n) && |n.book.decisions| == |n.book.turns|
      requires Delivered(sys.proc.value.work.facts)
      modifies this`clock, this`sys, this`pendingStates, detector, broker
      ensures InStep(k)
      ensures !ok ==> Halted() && k.book == n.book
      ensures ok ==>
        && Live() && sys.proc.value.pc == Sweeping(catchingUp) && AtLedger(old(sys.proc.value), sys.proc.value)
      ensures ok ==>
        && Owes(sys.proc.value, k) && Minutes.Decided(n.book, k.book, currentLedger, meta.closedAt, clock,
               old(sys.proc.value.work.facts), reg.escrows, catchingUp)
      ensures ok && catchingUp ==> CatchingUp(clock, meta.closedAt)
    {
      var now := Now();
      catchingUp := CatchingUp(now, meta.closedAt);
      if catchingUp {
        k := DeferStates(meta, activeEscrows, n);
        return true, true, k;
      }
      ok, k := FetchDeferred(meta, activeEscrows, now, n);
    }

    /** At the tip: the active escrows and everything deferred. */
    method FetchDeferred(meta: Ledger, activeEscrows: seq<Id>, now: int, ghost n: Minutes.Notes)
        returns (ok: bool, ghost k: Minutes.Notes)
      requires Live() && sys.proc.value.pc.Deciding? && meta == sys.proc.value.work.meta
      requires Elements(activeEscrows) == Facts.Active(sys.proc.value.work.facts) && Distinct(activeEscrows)
      requires InStep(n) && Owes(sys.proc.value, n) && |n.book.decisions| == |n.book.turns|
      requires Delivered(sys.proc.value.work.facts) && now == clock && !CatchingUp(now, meta.closedAt)
      modifies this`sys, this`pendingStates, detector, broker
      ensures InStep(k)
      ensures !ok ==> Halted() && k.book == n.book
      ensures ok ==> Live() && sys.proc.value.pc == Sweeping(false) && AtLedger(old(sys.proc.value), sys.proc.value)
      ensures ok ==>
        && Owes(sys.proc.value, k) && Minutes.Decided(n.book, k.book, currentLedger, meta.closedAt, now,
               old(sys.proc.value.work.facts), reg.escrows, false)
    {
      ghost var deferred := pendingStates;
      var ids := activeEscrows;
      if pendingStates != {} {
        ids, pendingStates := DrainPending(pendingStates, activeEscrows);
        SortedDistinct(ids);
      }
      ok, k := Snap(meta, ids, now, deferred, n);
    }

    /** A decision is entered in the book. */
    lemma Decide(d: Minutes.Decision, n: Minutes.Notes) returns (k: Minutes.Notes)
      requires Heeded(n) && d.deferred == Minutes.Outstanding(n.book.decisions)
      requires |n.book.decisions| == |n.book.turns|
      requires Minutes.DecisionOk(d, detector.isAddress) && Minutes.DecisionTold(env.name, d, broker.delivered)
      requires Minutes.DecisionCareful(d, detector.nodes, detector.isAddress)
      ensures Heeded(k) && k.journal == n.journal && k.book.pause == n.book.pause
      ensures Minutes.Outstanding(k.book.decisions) == Minutes.LeftBy(d)
      ensures Minutes.Decided(n.book, k.book, d.ledger, d.closedAt, d.at, d.facts, d.tracked, d.look.None?)
    {
      k := n.(book := Minutes.AfterDecision(n.book, d, detector.nodes, broker.delivered));
    }

    method DeferStates(meta: Ledger, activeEscrows: seq<Id>, ghost n: Minutes.Notes) returns (ghost k: Minutes.Notes)
      requires Live() && sys.proc.value.pc.Deciding? && meta == sys.proc.value.work.meta
      requires Elements(activeEscrows) == Facts.Active(sys.proc.value.work.facts) && CatchingUp(clock, meta.closedAt)
      requires Heeded(n) && Owes(sys.proc.value, n) && |n.book.decisions| == |n.book.turns|
      requires Delivered(sys.proc.value.work.facts)
      modifies this`pendingStates, this`sys
      ensures Live() && sys.proc.value.pc == Sweeping(true) && AtLedger(old(sys.proc.value), sys.proc.value)
      ensures Heeded(k) && k.journal == n.journal && Owes(sys.proc.value, k)
      ensures Minutes.Decided(n.book, k.book, currentLedger, meta.closedAt, clock, old(sys.proc.value.work.facts),
                              reg.escrows, true)
    {
      k := Decide(Minutes.Decision(currentLedger, meta.closedAt, clock, reg.escrows, sys.proc.value.work.facts,
          pendingStates, None), n);
      pendingStates := pendingStates + set id | id in activeEscrows;
      Defers();
    }

    ghost method Defers()
      requires Outside() && sys.proc.Some? && Holds(sys.proc.value) && sys.proc.value.pc.Deciding?
      requires CatchingUp(clock, sys.proc.value.work.meta.closedAt)
      requires Counts(sys.proc.value.(pending := sys.proc.value.pending + Facts.Active(sys.proc.value.work.facts)))
      modifies this`sys
      ensures Live() && sys.proc == Some(Deferred(old(sys.proc.value)))
    {
      Then(env, init, sys, Defer);
      sys := Run(sys, Deferred(sys.proc.value));
    }

    /** The ledger in hand and the endpoint are still the same. */
    ghost predicate AtLedger(p: Proc, q: Proc) {
      q.current == p.current && q.work == p.work && q.session == p.session && q.path == p.path
    }

    /** And so is what is deferred. */
    ghost predicate Same(p: Proc, q: Proc) {
      AtLedger(p, q) && q.pending == p.pending
    }

    /** One unfiltered fetch of all these escrows; what it tells is published, and noted with the question. */
    method Snap(meta: Ledger, ids: seq<Id>, now: int, ghost deferred: set<Id>, ghost n: Minutes.Notes)
        returns (ok: bool, ghost k: Minutes.Notes)
      requires Outside() && sys.proc.Some? && Holds(sys.proc.value) && pendingStates == {}
      requires Counts(sys.proc.value.(pending := {})) && now == clock
      requires sys.proc.value.pc.Deciding? && meta == sys.proc.value.work.meta && !CatchingUp(now, meta.closedAt)
      requires Elements(ids) == Asking(sys.proc.value) && Distinct(ids) && deferred == sys.proc.value.pending
      requires InStep(n) && Owes(sys.proc.value, n) && |n.book.decisions| == |n.book.turns|
      requires Delivered(sys.proc.value.work.facts)
      modifies this`sys, detector, broker
      ensures InStep(k)
      ensures !ok ==> Halted() && k.book == n.book
      ensures ok ==> Live() && sys.proc.value.pc == Sweeping(false) && AtLedger(old(sys.proc.value), sys.proc.value)
      ensures ok ==>
        && Owes(sys.proc.value, k) && Minutes.Decided(n.book, k.book, currentLedger, meta.closedAt, now,
               old(sys.proc.value.work.facts), reg.escrows, false)
    {
      ghost var d;
      var states;
      states, d, k := Ask(meta, ids, now, sys.proc.value.work.facts, deferred, n);
      if states.None? {
        Exit();
        return false, k;
      }
      ok, k := Show(states.value, d, k);
    }

    /** The fetch, and what will be noted of it once it is published. */
    method Ask(meta: Ledger, ids: seq<Id>, now: int, ghost facts: seq<Facts.Fact>, ghost deferred: set<Id>,
               ghost n: Minutes.Notes)
        returns (states: Option<seq<StateChange>>, ghost d: Minutes.Decision, ghost k: Minutes.Notes)
      requires Wired() && InStep(n) && !CatchingUp(now, meta.closedAt) && Distinct(ids)
      requires Elements(ids) == deferred + Facts.Active(facts)
      modifies detector
      ensures InStep(k) && k.book == n.book
      ensures states.Some? ==> DetectorGuarantees.StampedAs(states.value, currentLedger, meta.closedAt)
      ensures states.Some? ==>
        && d == Minutes.Decision(currentLedger, meta.closedAt, now, reg.escrows, facts, deferred, d.look)
        && d.look.Some? && d.look.value.states == states && Minutes.DecisionOk(d, detector.isAddress)
        && Minutes.DecisionCareful(d, detector.nodes, detector.isAddress)
    {
      ghost var memory := detector.Value();
      ghost var node;
      states, node, k := FetchTip(meta, ids, 0, n);
      ghost var q := Detector.Request(reg.escrows, ids, currentLedger, meta.closedAt, 0);
      d := Minutes.Decision(currentLedger, meta.closedAt, now, reg.escrows, facts, deferred,
        Some(Diary.Look(memory, node, q, states)));
    }

    /** Takes the snapshot, publishes it and notes its decision. */
    method Show(changes: seq<StateChange>, ghost d: Minutes.Decision, ghost n: Minutes.Notes)
        returns (ok: bool, ghost k: Minutes.Notes)
      requires Outside() && sys.proc.Some? && Holds(sys.proc.value) && pendingStates == {}
      requires Counts(sys.proc.value.(pending := {})) && sys.proc.value.pc.Deciding?
      requires !CatchingUp(clock, sys.proc.value.work.meta.closedAt) && Stamped(changes, sys.proc.value)
      requires InStep(n) && Delivered(d.facts)
      requires d.look.Some? && d.look.value.states == Some(changes) && Minutes.DecisionOk(d, detector.isAddress)
      requires Minutes.DecisionCareful(d, detector.nodes, detector.isAddress)
      requires d.deferred == Minutes.Outstanding(n.book.decisions) && |n.book.decisions| == |n.book.turns|
      modifies this`sys, broker
      ensures InStep(k)
      ensures !ok ==> Halted() && k.book == n.book
      ensures ok ==> Live() && sys.proc.value.pc == Sweeping(false) && AtLedger(old(sys.proc.value), sys.proc.value)
      ensures ok ==>
        && Owes(sys.proc.value, k)
        && Minutes.Decided(n.book, k.book, d.ledger, d.closedAt, d.at, d.facts, d.tracked, false)
    {
      TakeSnapshot(changes);
      ok, k := ShowAll(changes, d, n);
    }

    /** Publishes a snapshot and notes its decision. */
    method ShowAll(changes: seq<StateChange>, ghost d: Minutes.Decision, ghost n: Minutes.Notes)
        returns (ok: bool, ghost k: Minutes.Notes)
      requires Live() && sys.proc.value.pc == Snapshots(changes, 0, clock) && InStep(n) && Delivered(d.facts)
      requires d.look.Some? && d.look.value.states == Some(changes) && Minutes.DecisionOk(d, detector.isAddress)
      requires Minutes.DecisionCareful(d, detector.nodes, detector.isAddress)
      requires d.deferred == Minutes.Outstanding(n.book.decisions) && |n.book.decisions| == |n.book.turns|
      modifies this`sys, broker
      ensures InStep(k)
      ensures !ok ==> Halted() && k.book == n.book
      ensures ok ==> Live() && Same(old(sys.proc.value), sys.proc.value) && sys.proc.value.pc == Sweeping(false)
      ensures ok ==>
        && Minutes.Outstanding(k.book.decisions) == {}
        && Minutes.Decided(n.book, k.book, d.ledger, d.closedAt, d.at, d.facts, d.tracked, false)
    {
      k := n;
      ok := ShowStates(changes);
      if ok {
        k := Decide(d, n);
      }
    }

    ghost method TakeSnapshot(changes: seq<StateChange>)
      requires Outside() && sys.proc.Some? && Holds(sys.proc.value) && pendingStates == {}
      requires Counts(sys.proc.value.(pending := {})) && sys.proc.value.pc.Deciding?
      requires !CatchingUp(clock, sys.proc.value.work.meta.closedAt) && Stamped(changes, sys.proc.value)
      modifies this`sys
      ensures Live() && sys.proc.value.pc == Snapshots(changes, 0, clock) && sys.proc.value.pending == {}
      ensures AtLedger(old(sys.proc.value), sys.proc.value)
    {
      Then(env, init, sys, Snapshot(changes));
      sys := Run(sys, Snapped(sys, sys.proc.value, changes));
    }

    method ShowStates(changes: seq<StateChange>) returns (ok: bool)
      requires Live()
      requires sys.proc.value.pc in {Snapshots(changes, 0, clock), SweepSnapshots(changes, 0, clock)}
      modifies this`sys, broker
      ensures old(broker.delivered) <= broker.delivered
      ensures !ok ==> Halted()
      ensures ok ==> forall c :: c in changes ==> FromStateChange(env.name, c) in broker.delivered
      ensures ok ==>
        && Live() && Same(old(sys.proc.value), sys.proc.value)
        && sys.proc.value.pc == if old(sys.proc.value).pc.Snapshots? then Sweeping(false) else Checking(false)
    {
      ghost var p, said := sys.proc.value, broker.delivered;
      var sent;
      ok, sent := Delivery.PublishStates(outSink, env.name, changes);
      ghost var states := Delivery.States(env.name, changes, sent);
      assert spoken + (said + states) == spoken + said + states;
      Publicised(p, changes, sent);
      Delivery.StatesMembers(env.name, changes, sent);
      if !ok {
        Exit();
      }
    }

    ghost method Publicised(p: Proc, changes: seq<StateChange>, sent: nat)
      requires Wired() && Reaches(env, init, sys) && sys.proc == Some(p)
      requires p.pc == Snapshots(changes, 0, clock) || p.pc == SweepSnapshots(changes, 0, clock)
      requires sent <= |changes| && StatesValid(env, changes, sent)
      modifies this`sys
      ensures Reaches(env, init, sys) && sys.proc.Some? && sys.disk == old(sys.disk) && sys.now == old(sys.now)
      ensures sys.hist.log == old(sys.hist.log) + Delivery.States(env.name, changes, sent)
      ensures sent == |changes| ==>
        sys.proc == Some(p.(pc := if p.pc.Snapshots? then Sweeping(false) else Checking(false)))
    {
      if p.pc.Snapshots? {
        if sent == |changes| {
          AllShown(env, init, sys, p, changes, clock);
          sys := Shown(env, sys, p, changes, sent, Sweeping(false));
        } else {
          Shows(env, init, sys, p, changes, clock, sent);
          sys := Shown(env, sys, p, changes, sent, Snapshots(changes, sent, clock));
        }
      } else {
        if sent == |changes| {
          AllSwept(env, init, sys, p, changes, clock);
          sys := Shown(env, sys, p, changes, sent, Checking(false));
        } else {
          Sweeps(env, init, sys, p, changes, clock, sent);
          sys := Shown(env, sys, p, changes, sent, SweepSnapshots(changes, sent, clock));
        }
      }
    }

    /**
     One budgeted batch of the reconciliation sweep, only at the tip; a failed fetch skips the
     batch. The book gains this turn, and the diary a visit exactly when the sweep is enabled
     and the ledger closed at most thirty seconds ago.
     */
    method SweepOnce(meta: Ledger, catchingUp: bool, ghost n: Minutes.Notes) returns (ok: bool, ghost k: Minutes.Notes)
      requires Live() && sys.proc.value.pc == Sweeping(catchingUp) && meta == sys.proc.value.work.meta
      requires catchingUp ==> CatchingUp(clock, meta.closedAt)
      requires InStep(n) && Minutes.Due(n.book, currentLedger, meta.closedAt)
      modifies this`clock, this`sys, sweeper, detector, broker
      ensures Heeded(k) && (ok ==> InStep(k))
      ensures Minutes.TookTurn(n, k, env.sweepEnabled && clock - meta.closedAt <= 30_000_000_000)
      ensures !ok ==> Halted()
      ensures ok ==> Live() && sys.proc.value.pc == Checking(catchingUp) && Same(old(sys.proc.value), sys.proc.value)
    {
      var now := Now();
      var states: Option<seq<StateChange>> := None;
      if env.sweepEnabled && SweepAllowed(now, meta.closedAt) {
        states, k := SweepBatch(meta, n);
      } else {
        k := PassUp(meta, n);
      }
      if states.None? {
        SkipSweep(catchingUp);
        return true, k;
      }
      ok, k := ShowSweep(meta, states.value, k);
    }

    /** A turn without a visit is entered in the book. */
    lemma PassUp(meta: Ledger, n: Minutes.Notes) returns (k: Minutes.Notes)
      requires InStep(n) && Minutes.Due(n.book, currentLedger, meta.closedAt)
      requires !(env.sweepEnabled && SweepAllowed(clock, meta.closedAt))
      ensures InStep(k) && Minutes.TookTurn(n, k, false)
    {
      k := n.(book := Minutes.AfterTurn(n.book,
        Minutes.Turn(currentLedger, meta.closedAt, clock, env.sweepEnabled, false)));
    }

    /** The answer entered last is delivered. */
    lemma Tell(changes: seq<StateChange>, n: Minutes.Notes) returns (k: Minutes.Notes)
      requires Entered(Some(changes), n) && Minutes.Published(env.name, changes, broker.delivered)
      ensures InStep(k) && k.book == n.book && k.journal.made == n.journal.made
    {
      k := n.(journal := Diary.AfterTelling(n.journal, broker.delivered));
    }

    ghost method SkipSweep(catchingUp: bool)
      requires Live() && sys.proc.value.pc == Sweeping(catchingUp)
      modifies this`sys
      ensures Live() && sys.proc == Some(old(sys.proc.value).(pc := Checking(catchingUp)))
    {
      Then(env, init, sys, SweepSkip);
      sys := Run(sys, sys.proc.value.(pc := Checking(catchingUp)));
    }

    method ShowSweep(meta: Ledger, changes: seq<StateChange>, ghost n: Minutes.Notes)
        returns (ok: bool, ghost k: Minutes.Notes)
      requires Live() && sys.proc.value.pc == Sweeping(false) && meta == sys.proc.value.work.meta
      requires env.sweepEnabled && SweepAllowed(clock, meta.closedAt)
      requires DetectorGuarantees.StampedAs(changes, currentLedger, meta.closedAt)
      requires Entered(Some(changes), n)
      modifies this`sys, broker
      ensures Heeded(k) && (ok ==> InStep(k)) && k.book == n.book && k.journal.made == n.journal.made
      ensures !ok ==> Halted()
      ensures ok ==> Live() && sys.proc.value.pc == Checking(false) && Same(old(sys.proc.value), sys.proc.value)
    {
      TakeSweep(changes);
      ok := ShowStates(changes);
      k := n;
      if ok {
        k := Tell(changes, n);
      }
    }

    ghost method TakeSweep(changes: seq<StateChange>)
      requires Live() && sys.proc.value.pc == Sweeping(false) && Stamped(changes, sys.proc.value)
      requires env.sweepEnabled && SweepAllowed(clock, sys.proc.value.work.meta.closedAt)
      modifies this`sys
      ensures Live() && sys.proc == Some(old(sys.proc.value).(pc := SweepSnapshots(changes, 0, clock)))
    {
      Then(env, init, sys, Sweep(changes));
      sys := Run(sys, sys.proc.value.(pc := SweepSnapshots(changes, 0, clock)));
    }

    /** A visit with an answer is entered in the journal, which is up to date but for its delivery. */
    ghost predicate Entered(states: Option<seq<StateChange>>, n: Minutes.Notes)
      reads this`currentLedger, this`clock, sweeper, reg, detector, broker, executor
    {
      && Heeded(n) && Obedient(n) && n.journal.sweep == sweeper.Value() && n.journal.learned == detector.learned
      && n.journal.ledger <= currentLedger && n.journal.tracked <= reg.escrows
      && n.journal.missing == (if states.Some? then 1 else 0)
      && |n.journal.diary.looks| > 0 && Diary.Last(n.journal.diary).states == states
    }

    /** Asks about the next batch; the journal says what was asked and told. */
    method SweepBatch(meta: Ledger, ghost n: Minutes.Notes)
        returns (states: Option<seq<StateChange>>, ghost k: Minutes.Notes)
      requires Wired() && InStep(n) && Minutes.Due(n.book, currentLedger, meta.closedAt)
      requires env.sweepEnabled && SweepAllowed(clock, meta.closedAt)
      modifies sweeper, detector
      ensures Entered(states, k) && Minutes.TookTurn(n, k, true)
      ensures states.Some? ==> DetectorGuarantees.StampedAs(states.value, currentLedger, meta.closedAt)
    {
      var learned := detector.learned;
      var cost: Id -> int := id => DetectorGuarantees.Cost(learned, id);
      ghost var memory, rpc := detector.Value(), Diary.SILENT;
      var batch, passDone := sweeper.NextBatch(currentLedger, cost, Detector.MAX_LEDGER_ENTRY_KEYS);
      states, k := None, n;
      if |batch| > 0 {
        states, rpc, k := FetchTip(meta, batch, sweeper.ModifiedSince(), n);
      }
      ghost var q := Detector.Request(reg.escrows, batch, currentLedger, meta.closedAt, sweeper.ModifiedSince());
      k := Enter(cost, Diary.Look(memory, rpc, q, states), meta, k);
    }

    lemma Enter(cost: Id -> int, l: Diary.Look, meta: Ledger, n: Minutes.Notes) returns (k: Minutes.Notes)
      requires Heeded(n) && Obedient(n) && Minutes.Due(n.book, currentLedger, meta.closedAt)
      requires SweepAllowed(clock, meta.closedAt)
      requires n.journal.learned == detector.learned && n.journal.missing == 0
      requires n.journal.ledger <= currentLedger && n.journal.tracked <= reg.escrows
      requires DetectorGuarantees.Careful(l.memory.learned, detector.nodes, detector.isAddress)
      requires var e := SweepGuarantees.Visit(currentLedger, reg.escrows, cost, l.states.Some?);
        && Diary.Answers(n.journal.sweep, e, l, detector.isAddress)
        && sweeper.Value() ==
             Sweeper.NextOf(n.journal.sweep, SortedIds(reg.escrows), currentLedger, cost, SweepGuarantees.BUDGET).sweep
      ensures Entered(l.states, k) && Minutes.TookTurn(n, k, true)
    {
      var e := SweepGuarantees.Visit(currentLedger, reg.escrows, cost, l.states.Some?);
      k := Minutes.Notes(Diary.AfterVisit(n.journal, e, l),
        Minutes.AfterTurn(n.book, Minutes.Turn(currentLedger, meta.closedAt, clock, true, true)));
    }

    /** Reads the tip state of some escrows, stamped with the ledger in hand. */
    method FetchTip(meta: Ledger, ids: seq<Id>, since: u32, ghost n: Minutes.Notes)
        returns (states: Option<seq<StateChange>>, ghost node: Detector.Rpc, ghost k: Minutes.Notes)
      requires Wired() && Heeded(n) && n.journal.learned == detector.learned
      modifies detector
      ensures old(InStep(n)) ==> InStep(k)
      ensures Heeded(k) && k.book == n.book
      ensures k.journal == n.journal.(learned := detector.learned, nodes := detector.nodes)
      ensures DetectorGuarantees.Careful(old(detector.learned), detector.nodes, detector.isAddress)
      ensures Detector.Fetch(detector.Value(), states) ==
        Detector.FetchOf(old(detector.Value()), node, detector.isAddress,
                         Detector.Request(reg.escrows, ids, currentLedger, meta.closedAt, since))
      ensures states.Some? ==> DetectorGuarantees.StampedAs(states.value, currentLedger, meta.closedAt)
    {
      var rpc: Detector.Rpc := *;
      ghost var memory, nodes := detector.Value(), detector.nodes;
      var q := Detector.Request(reg.escrows, ids, currentLedger, meta.closedAt, since);
      states := detector.FetchStates(rpc, q);
      node := rpc;
      DetectorGuarantees.FetchStaysCareful(memory, rpc, detector.isAddress, q, nodes);
      k := n.(journal := Diary.AfterFetch(n.journal, memory, rpc, q));
      DetectorGuarantees.FetchStamped(memory, rpc, detector.isAddress, q);
    }

    // ---- Saving -----------------------------------------------------------------------------------------

    /** The files load to this cursor with the registry and the gaps as they are now. */
    ghost predicate OnDisk(lastSeq: u32, lastHash: Hash)
      reads drive, reg, rec
    {
      LoadFrom(drive.Files()) == Loaded(
        State(env.passphrase, lastSeq, lastHash, SortedIds(reg.escrows), SortedIds(reg.removed), rec.gaps))
    }

    /** One save of the full record; a save that fails ends the process, whatever it left behind. */
    method Save(lastSeq: u32, lastHash: Hash) returns (ok: bool)
      requires Outside() && sys.proc.Some? && Holds(sys.proc.value)
      requires sys.proc.value.pc.Saving? && !sys.proc.value.pc.wrote && !sys.proc.value.pc.next.Adopt?
      requires sys.proc.value.pc.lastSeq == lastSeq && sys.proc.value.pc.lastHash == lastHash
      modifies this`sys, store, drive
      ensures !ok ==> Halted()
      ensures ok ==>
        && Outside() && sys.proc.Some? && Holds(sys.proc.value)
        && sys.proc.value.(cache := old(sys.proc.value.cache)) ==
             Continued(old(sys.proc.value), old(sys.proc.value.pc.next))
        && OnDisk(lastSeq, lastHash)
    {
      ghost var p := sys.proc.value;
      CacheIsTrue(env, init, sys, p);
      var st := rec.SnapshotState(lastSeq, lastHash);
      ok := store.Save(st);
      assert st == Record(env, p, lastSeq, lastHash);
      if ok {
        SaveReloads(StoreOf(sys, p), st);
        SaveCompletes(env, init, sys, p);
        sys := Written(env, sys, p);
      } else {
        sys := SaveTears(env, init, sys, p, drive.Files());
      }
    }

    /** Persists the cursor after every fact of the ledger was published, as often as the mode asks. */
    method Checkpoint(meta: Ledger, catchingUp: bool, ghost n: Minutes.Notes) returns (ok: bool)
      requires Live() && sys.proc.value.pc == Checking(catchingUp) && meta == sys.proc.value.work.meta
      requires InStep(n)
      modifies this`sys, this`lastCheckpoint, this`lastLedgerHash, store, drive
      ensures InStep(n) && clock == old(clock)
      ensures !ok ==> Halted()
      ensures ok ==> Live() && sys.proc.value.pc == Draining(false) && Same(old(sys.proc.value), sys.proc.value)
    {
      ok := SaveIfDue(meta, catchingUp);
    }

    method SaveIfDue(meta: Ledger, catchingUp: bool) returns (ok: bool)
      requires Live() && sys.proc.value.pc == Checking(catchingUp) && meta == sys.proc.value.work.meta
      modifies this`sys, this`lastCheckpoint, this`lastLedgerHash, store, drive
      ensures !ok ==> Halted()
      ensures ok ==> Live() && sys.proc.value.pc == Draining(false) && Same(old(sys.proc.value), sys.proc.value)
    {
      Then(env, init, sys, Check);
      sys := Run(sys, Checked(env, sys.proc.value));
      if ShouldCheckpoint(catchingUp, env.end != 0 && currentLedger == env.end, currentLedger, lastCheckpoint) {
        ok := SaveCheckpoint(meta);
      } else {
        lastLedgerHash := meta.hash;
        ok := true;
      }
    }

    method SaveCheckpoint(meta: Ledger) returns (ok: bool)
      requires Live() && sys.proc.value.pc == Saving(currentLedger, meta.hash, false, Settle)
      requires meta == sys.proc.value.work.meta
      modifies this`sys, this`lastCheckpoint, this`lastLedgerHash, store, drive
      ensures !ok ==> Halted()
      ensures ok ==> Live() && sys.proc.value.pc == Draining(false) && Same(old(sys.proc.value), sys.proc.value)
    {
      ok := Save(currentLedger, meta.hash);
      if ok {
        lastCheckpoint := currentLedger;
        lastLedgerHash := meta.hash;
      }
    }

    /** Persists the result of commands at the current ledger. */
    method SaveNow(ghost n: Minutes.Notes) returns (ok: bool)
      requires Live() && sys.proc.value.pc == Draining(true)
      requires InStep(n)
      modifies this`sys, store, drive
      ensures InStep(n) && reg.Value() == old(reg.Value())
      ensures !ok ==> Halted()
      ensures ok ==> Live() && sys.proc.value.pc == Draining(false) && Same(old(sys.proc.value), sys.proc.value)
      ensures ok ==> OnDisk(currentLedger, lastLedgerHash)
    {
      ok := SaveCurrent();
    }

    method SaveCurrent() returns (ok: bool)
      requires Live() && sys.proc.value.pc == Draining(true)
      modifies this`sys, store, drive
      ensures !ok ==> Halted()
      ensures ok ==> Live() && sys.proc.value.pc == Draining(false) && Same(old(sys.proc.value), sys.proc.value)
      ensures ok ==> OnDisk(currentLedger, lastLedgerHash)
    {
      Then(env, init, sys, Flush);
      sys := Run(sys, sys.proc.value.(pc := Saving(currentLedger, lastLedgerHash, false, Resume)));
      ok := Save(currentLedger, lastLedgerHash);
    }

    // ---- Commands -----------------------------------------------------------------------------------------

    /** Executes one queued command between ledgers; a fatal publish ends the process before anything is saved. */
    method Obey(meta: Ledger, cmd: Control.Command, ghost n: Minutes.Notes)
        returns (ok: bool, mutated: bool, ghost k: Minutes.Notes)
      requires Live() && sys.proc.value.pc.Draining? && meta == sys.proc.value.work.meta
      requires InStep(n) && |n.book.said| == |n.book.replies|
      modifies this`clock, this`sys, reg, detector, sweeper, broker, executor
      ensures InStep(k) && Minutes.Took(n.book, k.book, old(reg.Value()), cmd, clock, ok, currentLedger, meta.closedAt)
      ensures Control.Executed(reg.Value(), mutated) == Control.Execute(old(reg.Value()), cmd)
      ensures !ok ==> Halted()
      ensures ok ==>
        && Live() && Same(old(sys.proc.value), sys.proc.value)
        && sys.proc.value.pc == Draining(old(sys.proc.value.pc.mutated) || mutated)
    {
      var now := Now();
      ok, mutated, k := ObeyAt(meta, cmd, now, n);
    }

    method ObeyAt(meta: Ledger, cmd: Control.Command, now: int, ghost n: Minutes.Notes)
        returns (ok: bool, mutated: bool, ghost k: Minutes.Notes)
      requires Live() && sys.proc.value.pc.Draining? && meta == sys.proc.value.work.meta
      requires InStep(n) && |n.book.said| == |n.book.replies| && now == clock
      modifies this`sys, reg, detector, sweeper, broker, executor
      ensures InStep(k) && Minutes.Took(n.book, k.book, old(reg.Value()), cmd, now, ok, currentLedger, meta.closedAt)
      ensures Control.Executed(reg.Value(), mutated) == Control.Execute(old(reg.Value()), cmd)
      ensures !ok ==> Halted()
      ensures ok ==>
        && Live() && Same(old(sys.proc.value), sys.proc.value)
        && sys.proc.value.pc == Draining(old(sys.proc.value.pc.mutated) || mutated)
    {
      ghost var p := sys.proc.value;
      var changes, sent;
      ok, mutated, changes, sent, k := Command(meta.closedAt, cmd, now, n);
      Obeyed(p, cmd, changes, sent);
      if !ok {
        Exit();
      }
    }

    method Command(closedAt: int, cmd: Control.Command, now: int, ghost n: Minutes.Notes)
        returns (ok: bool, mutated: bool, changes: seq<StateChange>, sent: nat, ghost k: Minutes.Notes)
      requires Wired() && executor.shown == executor.pausedUntil && Registry.Disjoint(reg.Value())
      requires InStep(n) && |n.book.said| == |n.book.replies| && now == clock
      modifies reg, detector, sweeper, broker, executor
      ensures InStep(k) && Minutes.Took(n.book, k.book, old(reg.Value()), cmd, now, ok, currentLedger, closedAt)
      ensures Control.Executed(reg.Value(), mutated) == Control.Execute(old(reg.Value()), cmd)
      ensures Registry.Disjoint(reg.Value()) && executor.shown == executor.pausedUntil
      ensures DetectorGuarantees.StampedAs(changes, currentLedger, closedAt)
      ensures sent <= |changes| && (ok <==> sent == |changes|) && StatesValid(env, changes, sent)
      ensures spoken + broker.delivered == spoken + old(broker.delivered) + Delivery.States(env.name, changes, sent)
    {
      ghost var a;
      ok, mutated, changes, sent, a := Perform(closedAt, cmd, now);
      Minutes.StillCareful(a.memory.learned, n.journal.nodes, detector.nodes, detector.isAddress);
      k := Enters(a, ok, n);
    }

    /** The command itself, and its reply if the answer is delivered. */
    method Perform(closedAt: int, cmd: Control.Command, now: int)
        returns (ok: bool, mutated: bool, changes: seq<StateChange>, sent: nat, ghost a: Minutes.Reply)
      requires Wired() && executor.shown == executor.pausedUntil && Registry.Disjoint(reg.Value())
      modifies reg, detector, sweeper, broker, executor
      ensures Control.Executed(reg.Value(), mutated) == Control.Execute(old(reg.Value()), cmd)
      ensures Registry.Disjoint(reg.Value())
      ensures executor.pausedUntil == Executor.PausedAfter(old(executor.pausedUntil), cmd, now) == executor.shown
      ensures sweeper.Value() == if cmd.Reconcile? then Sweeper.FRESH else old(sweeper.Value())
      ensures Executor.Prudent(old(detector.learned), old(detector.nodes), detector.learned, detector.nodes,
                               detector.isAddress)
      ensures a == Minutes.Reply(cmd, now, old(reg.Value()), currentLedger, closedAt, old(detector.Value()), a.rpc,
                                 changes)
      ensures Minutes.ReplyOk(a, detector.isAddress)
      ensures DetectorGuarantees.StampedAs(changes, currentLedger, closedAt)
      ensures sent <= |changes| && (ok <==> sent == |changes|) && StatesValid(env, changes, sent)
      ensures spoken + broker.delivered == spoken + old(broker.delivered) + Delivery.States(env.name, changes, sent)
      ensures old(broker.delivered) <= broker.delivered
      ensures ok ==> Minutes.Published(env.name, changes, broker.delivered)
    {
      CommandKeepsDisjoint(reg.Value(), cmd);
      ghost var said, was, memory := broker.delivered, reg.Value(), detector.Value();
      ghost var node;
      mutated, ok, changes, sent, node := executor.RunOnce(cmd, now, currentLedger, closedAt);
      ghost var states := Delivery.States(env.name, changes, sent);
      assert spoken + (said + states) == spoken + said + states;
      Delivery.StatesMembers(env.name, changes, sent);
      a := Minutes.Reply(cmd, now, was, currentLedger, closedAt, memory, node, changes);
    }

    /** A command is entered in journal and book, and its reply if its answer was delivered. */
    lemma Enters(a: Minutes.Reply, answered: bool, n: Minutes.Notes) returns (k: Minutes.Notes)
      requires n.journal.name == n.book.name == env.name
      requires n.journal.isAddress == n.book.isAddress == detector.isAddress && n.journal.missing == 0
      requires n.journal.nodes <= detector.nodes && n.journal.heard <= broker.delivered
      requires n.book.nodes <= detector.nodes && n.book.heard <= broker.delivered && n.book.made == n.journal.made
      requires n.journal.tracked <= a.before.tracked && |n.book.said| == |n.book.replies|
      requires DetectorGuarantees.Careful(detector.learned, detector.nodes, detector.isAddress)
      requires DetectorGuarantees.Careful(a.memory.learned, detector.nodes, detector.isAddress)
      requires Minutes.ReplyOk(a, detector.isAddress)
      requires answered ==> Minutes.Published(env.name, a.changes, broker.delivered)
      ensures Heeded(k) && k.journal.missing == 0 && k.journal.learned == detector.learned
      ensures k.journal.sweep == (if a.cmd.Reconcile? then Sweeper.FRESH else n.journal.sweep)
      ensures k.journal.ledger == n.journal.ledger
      ensures k.journal.tracked == Control.Execute(a.before, a.cmd).members.tracked
      ensures Minutes.Took(n.book, k.book, a.before, a.cmd, a.at, answered, a.ledger, a.closedAt)
    {
      k := Minutes.Notes(Diary.AfterCommand(n.journal, a.cmd, a.before, detector.learned, detector.nodes),
        Minutes.AfterCommand(n.book, a.cmd, a.at));
      if answered {
        k := Answer(a, k);
      }
    }

    /** The reply to the command taken last is entered in the book. */
    lemma Answer(a: Minutes.Reply, n: Minutes.Notes) returns (k: Minutes.Notes)
      requires Heeded(n) && Minutes.ReplyOk(a, detector.isAddress) && |n.book.said| == |n.book.replies| + 1
      requires a.cmd == n.book.said[|n.book.replies|] && a.at == n.book.times[|n.book.replies|]
      requires Minutes.Published(env.name, a.changes, broker.delivered)
      requires DetectorGuarantees.Careful(a.memory.learned, detector.nodes, detector.isAddress)
      ensures Heeded(k) && k.journal == n.journal && k.book.said == n.book.said && k.book.pause == n.book.pause
      ensures k.book.decisions == n.book.decisions && k.book.turns == n.book.turns
      ensures |k.book.replies| == |n.book.replies| + 1 && k.book.replies[|n.book.replies|] == a
    {
      k := n.(book := Minutes.AfterReply(n.book, a, detector.nodes, broker.delivered));
    }

    ghost method Obeyed(p: Proc, cmd: Control.Command, changes: seq<StateChange>, sent: nat)
      requires Reaches(env, init, sys) && sys.proc == Some(p) && p.pc.Draining? && Stamped(changes, p)
      requires sent <= |changes| && StatesValid(env, changes, sent)
      modifies this`sys
      ensures Reaches(env, init, sys) && sys.proc.Some? && sys.disk == old(sys.disk) && sys.now == old(sys.now)
      ensures sys.hist.log == old(sys.hist.log) + Delivery.States(env.name, changes, sent)
      ensures var done := Control.Execute(p.reg, cmd); sent == |changes| ==>
        sys.proc == Some(p.(reg := done.members, pc := Draining(p.pc.mutated || done.mutated)))
    {
      Then(env, init, sys, Execute(cmd, changes));
      sys := ExecuteStep(sys, p, cmd, changes);
      var q := sys.proc.value;
      if sent == |changes| {
        AllReplied(env, init, sys, q, changes, q.pc.mutated);
        sys := Run(Replied(env, sys, q, changes, sent, q.pc.mutated), q.(pc := Draining(q.pc.mutated)));
      } else {
        Replies(env, init, sys, q, changes, sent, q.pc.mutated);
        sys := Replied(env, sys, q, changes, sent, q.pc.mutated);
      }
    }

    /** These commands were taken and answered, and the registry is what they made of it. */
    ghost predicate Executed(n: Minutes.Notes, k: Minutes.Notes, m: Registry.Members, cmds: seq<Control.Command>,
                             mutated: bool)
      reads reg
    {
      && Minutes.TookAll(n.book, k.book, cmds) && |k.book.said| == |k.book.replies|
      && Control.Executed(reg.Value(), mutated) == Control.ExecuteAll(m, cmds)
    }

    /**
     Drains the queue without waiting, then saves once if anything changed. Every command is
     taken, in order, and answered, unless an answer is fatal; then none after it is taken.
     */
    method Drain(meta: Ledger, queue: seq<Control.Command>, ghost n: Minutes.Notes)
        returns (ok: bool, ghost k: Minutes.Notes, ghost taken: nat)
      requires Live() && sys.proc.value.pc == Draining(false) && meta == sys.proc.value.work.meta
      requires InStep(n) && |n.book.said| == |n.book.replies|
      modifies this`clock, this`sys, reg, detector, sweeper, broker, executor, store, drive
      ensures InStep(k) && taken <= |queue| && Minutes.TookAll(n.book, k.book, queue[..taken])
      ensures !ok ==> Halted()
      ensures ok ==> Live() && sys.proc.value.pc == Draining(false) && Same(old(sys.proc.value), sys.proc.value)
      ensures ok ==> Kept(n, k, old(reg.Value()), queue) && RemovalsBuried(queue)
    {
      ghost var m := reg.Value();
      var mutated;
      ok, mutated, k, taken := ObeyAll(meta, queue, n);
      if ok && mutated {
        ok := SaveNow(k);
      }
      if ok {
        Buries(m, queue);
      }
    }

    /** A contract whose last word in the queue is its removal is tombstoned and not tracked, and the files say so. */
    ghost predicate RemovalsBuried(queue: seq<Control.Command>)
      reads reg, drive
    {
      forall i, id :: Control.LastWord(queue, i, id) && queue[i] == Control.RemoveEscrow(id) && id != "" ==> Buried(id)
    }

    ghost predicate Buried(id: Id)
      reads reg, drive
    {
      && id in reg.removed && id !in reg.escrows
      && LoadFrom(drive.Files()).Loaded? && id in LoadFrom(drive.Files()).state.removed
    }

    lemma Buries(m: Registry.Members, queue: seq<Control.Command>)
      requires reg.Value() == Control.ExecuteAll(m, queue).members
      requires Control.ExecuteAll(m, queue).mutated ==> OnDisk(currentLedger, lastLedgerHash)
      ensures RemovalsBuried(queue)
    {
      forall i, id | Control.LastWord(queue, i, id) && queue[i] == Control.RemoveEscrow(id) && id != ""
        ensures Buried(id)
      {
        Control.LastWordDecides(m, queue, i, id);
      }
    }

    method ObeyAll(meta: Ledger, queue: seq<Control.Command>, ghost n: Minutes.Notes)
        returns (ok: bool, mutated: bool, ghost k: Minutes.Notes, ghost taken: nat)
      requires Live() && sys.proc.value.pc == Draining(false) && meta == sys.proc.value.work.meta
      requires InStep(n) && |n.book.said| == |n.book.replies|
      modifies this`clock, this`sys, reg, detector, sweeper, broker, executor
      ensures InStep(k) && taken <= |queue| && Minutes.TookAll(n.book, k.book, queue[..taken])
      ensures !ok ==> Halted() && |k.book.said| == |k.book.replies| + 1
      ensures ok ==> Live() && sys.proc.value.pc == Draining(mutated) && Same(old(sys.proc.value), sys.proc.value)
      ensures ok ==> Executed(n, k, old(reg.Value()), queue, mutated)
    {
      ok, mutated, k, taken := true, false, n, 0;
      ghost var m := reg.Value();
      Minutes.TookNone(n.book);
      for i := 0 to |queue|
        invariant ok && Live() && sys.proc.value.pc == Draining(mutated) && Same(old(sys.proc.value), sys.proc.value)
        invariant InStep(k) && Executed(n, k, m, queue[..i], mutated)
      {
        Minutes.Next(queue, i);
        var changed;
        ok, changed, k := ObeyOne(meta, queue[i], n, k, m, queue[..i]);
        mutated, taken := mutated || changed, i + 1;
        if !ok {
          return;
        }
      }
      taken := |queue|;
      assert queue[..|queue|] == queue;
    }

    /** One more command of some; nothing is reported changed only if the registry stays as it is. */
    method ObeyOne(meta: Ledger, cmd: Control.Command, ghost n: Minutes.Notes, ghost l: Minutes.Notes,
                   ghost m: Registry.Members, ghost sofar: seq<Control.Command>)
        returns (ok: bool, mutated: bool, ghost k: Minutes.Notes)
      requires Live() && sys.proc.value.pc.Draining? && meta == sys.proc.value.work.meta
      requires InStep(l) && Executed(n, l, m, sofar, Control.ExecuteAll(m, sofar).mutated)
      modifies this`clock, this`sys, reg, detector, sweeper, broker, executor
      ensures InStep(k) && Minutes.TookAll(n.book, k.book, sofar + [cmd])
      ensures !ok ==> Halted() && |k.book.said| == |k.book.replies| + 1
      ensures ok ==>
        && Live() && Same(old(sys.proc.value), sys.proc.value)
        && sys.proc.value.pc == Draining(old(sys.proc.value.pc.mutated) || mutated)
      ensures ok ==> Executed(n, k, m, sofar + [cmd], Control.ExecuteAll(m, sofar).mutated || mutated)
      ensures !mutated ==> reg.Value() == old(reg.Value())
    {
      ghost var members := reg.Value();
      ok, mutated, k := Obey(meta, cmd, l);
      Minutes.TookOneMore(n.book, l.book, k.book, m, sofar, cmd);
      if !mutated {
        Control.UnmutatedMeansUnchanged(members, cmd);
      }
    }

    /**
     Holds between ledgers while paused, still obeying commands, each saved at once;
     `arrivals` is what the queue yields at each poll, and the context ends with it.
     Every command that comes in at one of the polls is taken, in order, and answered,
     unless one is fatal; the pause commanded is over afterwards.
     */
    method Hold(meta: Ledger, arrivals: seq<Option<Control.Command>>, ghost n: Minutes.Notes)
        returns (ok: bool, ghost k: Minutes.Notes, ghost polls: nat, ghost taken: nat)
      requires Live() && sys.proc.value.pc == Draining(false) && meta == sys.proc.value.work.meta
      requires InStep(n) && |n.book.said| == |n.book.replies|
      modifies this`clock, this`sys, reg, detector, sweeper, broker, executor, store, drive
      ensures InStep(k) && polls <= |arrivals| && taken <= |Minutes.Sent(arrivals[..polls])|
      ensures Minutes.TookAll(n.book, k.book, Minutes.Sent(arrivals[..polls])[..taken])
      ensures !ok ==> Halted()
      ensures ok ==> Live() && sys.proc.value.pc == Draining(false) && Same(old(sys.proc.value), sys.proc.value)
      ensures ok ==> !executor.Paused(clock) && (k.book.pause.Some? ==> k.book.pause.value <= clock)
      ensures ok ==> Kept(n, k, old(reg.Value()), Minutes.Sent(arrivals[..polls]))
    {
      var now := Now();
      ok, k, polls, taken := true, n, 0, 0;
      Minutes.TookNone(n.book);
      if executor.Paused(now) {
        ok, k, polls, taken := WaitOut(meta, arrivals, now, n);
      }
    }

    /** These commands were taken and answered, and what they changed is in the files. */
    ghost predicate Kept(n: Minutes.Notes, k: Minutes.Notes, m: Registry.Members, cmds: seq<Control.Command>)
      reads this`currentLedger, this`lastLedgerHash, reg, rec, drive
    {
      && Executed(n, k, m, cmds, Control.ExecuteAll(m, cmds).mutated)
      && (Control.ExecuteAll(m, cmds).mutated ==> OnDisk(currentLedger, lastLedgerHash))
    }

    /** Stays until the pause is lifted or over, and lifts one that is over. */
    method WaitOut(meta: Ledger, arrivals: seq<Option<Control.Command>>, since: int, ghost n: Minutes.Notes)
        returns (ok: bool, ghost k: Minutes.Notes, ghost polls: nat, ghost taken: nat)
      requires Live() && sys.proc.value.pc == Draining(false) && meta == sys.proc.value.work.meta
      requires InStep(n) && since == clock && |n.book.said| == |n.book.replies|
      modifies this`clock, this`sys, reg, detector, sweeper, broker, executor, store, drive
      ensures InStep(k) && polls <= |arrivals| && taken <= |Minutes.Sent(arrivals[..polls])|
      ensures Minutes.TookAll(n.book, k.book, Minutes.Sent(arrivals[..polls])[..taken])
      ensures !ok ==> Halted()
      ensures ok ==> Live() && sys.proc.value.pc == Draining(false) && Same(old(sys.proc.value), sys.proc.value)
      ensures ok ==> !executor.Paused(clock)
      ensures ok ==> Kept(n, k, old(reg.Value()), Minutes.Sent(arrivals[..polls]))
    {
      ok, k, polls, taken := true, n, 0, 0;
      ghost var m := reg.Value();
      Minutes.TookNone(n.book);
      var i, now := 0, since;
      while executor.Paused(now)
        invariant ok && Live() && sys.proc.value.pc == Draining(false) && Same(old(sys.proc.value), sys.proc.value)
        invariant i <= |arrivals| && now == clock && InStep(k) && polls == i
        invariant Kept(n, k, m, Minutes.Sent(arrivals[..i])) && taken == |Minutes.Sent(arrivals[..i])|
        invariant Minutes.TookAll(n.book, k.book, Minutes.Sent(arrivals[..i])[..taken])
        decreases |arrivals| - i
      {
        if i == |arrivals| {
          Exit();
          return false, k, polls, taken;
        }
        polls := i + 1;
        ok, k, now, taken := Poll(meta, arrivals, i, n, k, m);
        if !ok {
          return;
        }
        i := i + 1;
      }
      executor.Expire(now);
    }

    /** One look at the queue during a pause. */
    method Poll(meta: Ledger, arrivals: seq<Option<Control.Command>>, i: nat, ghost n: Minutes.Notes,
                ghost l: Minutes.Notes, ghost m: Registry.Members)
        returns (ok: bool, ghost k: Minutes.Notes, now: int, ghost taken: nat)
      requires Live() && sys.proc.value.pc == Draining(false) && meta == sys.proc.value.work.meta
      requires InStep(l) && i < |arrivals| && Kept(n, l, m, Minutes.Sent(arrivals[..i]))
      modifies this`clock, this`sys, reg, detector, sweeper, broker, executor, store, drive
      ensures InStep(k) && taken == |Minutes.Sent(arrivals[..i + 1])|
      ensures Minutes.TookAll(n.book, k.book, Minutes.Sent(arrivals[..i + 1])[..taken])
      ensures !ok ==> Halted()
      ensures ok ==> Live() && sys.proc.value.pc == Draining(false) && Same(old(sys.proc.value), sys.proc.value)
      ensures ok ==> now == clock && Kept(n, k, m, Minutes.Sent(arrivals[..i + 1]))
    {
      ok, k, now := true, l, 0;
      Minutes.SentOneMore(arrivals, i);
      if arrivals[i].Some? {
        ok, k := ObeyAndSave(meta, arrivals[i].value, n, l, m, Minutes.Sent(arrivals[..i]));
      }
      taken := |Minutes.Sent(arrivals[..i + 1])|;
      if ok {
        now := Now();
      }
    }

    method ObeyAndSave(meta: Ledger, cmd: Control.Command, ghost n: Minutes.Notes, ghost l: Minutes.Notes,
                       ghost m: Registry.Members, ghost sofar: seq<Control.Command>)
        returns (ok: bool, ghost k: Minutes.Notes)
      requires Live() && sys.proc.value.pc == Draining(false) && meta == sys.proc.value.work.meta
      requires InStep(l) && Kept(n, l, m, sofar)
      modifies this`clock, this`sys, reg, detector, sweeper, broker, executor, store, drive
      ensures InStep(k) && Minutes.TookAll(n.book, k.book, sofar + [cmd])
      ensures !ok ==> Halted()
      ensures ok ==> Live() && sys.proc.value.pc == Draining(false) && Same(old(sys.proc.value), sys.proc.value)
      ensures ok ==> Kept(n, k, m, sofar + [cmd])
    {
      var mutated;
      ok, mutated, k := ObeyOne(meta, cmd, n, l, m, sofar);
      if ok && mutated {
        ok := SaveNow(k);
      }
    }

    // ---- The loop -------------------------------------------------------------------------------------------

    /**
     One turn of the loop, with what comes from outside during it: queued commands, and arrivals during a
     pause. If the endpoint has the ledger it goes through the whole of it and hears the operators after it;
     otherwise it rotates.
     */
    method Turn(queue: seq<Control.Command>, arrivals: seq<Option<Control.Command>>, cancelled: bool,
                ghost n: Minutes.Notes)
        returns (ok: bool, ghost k: Minutes.Notes, ghost heard: bool, ghost polls: nat, ghost taken: nat,
                 ghost f: Fetching)
      requires AtHead(n) && Going(env, sys.proc.value)
      modifies this, pool, rec, store, drive, broker, reg, detector, sweeper, executor
      ensures pool.handles >= old(pool.handles)
      ensures !ok ==> Halted() && Heeded(k)
      ensures ok ==> AtHead(k)
      ensures Minutes.Progress(n.book, k.book, Minutes.Said(queue, arrivals, polls), ok, heard, taken)
      ensures Tried(f, old(pool.client.value), old(currentLedger)) && (ok ==> (heard <==> f.outcome.Fetched?))
      ensures ok && heard ==> currentLedger == old(currentLedger) + 1
    {
      k, heard, polls, taken := n, false, 0, 0;
      var fetched;
      fetched, f := FetchLedger();
      if fetched.None? {
        if cancelled {
          Exit();
          return false, k, heard, polls, taken, f;
        }
        ok := Move(n);
        return;
      }
      ok, k, heard, polls, taken := Digest(fetched.value, queue, arrivals, n);
    }

    /** At a loop head with an endpoint; every ledger decided had its turn of the sweep, every command its reply. */
    ghost predicate AtHead(n: Minutes.Notes)
      reads this, drive, broker, reg, rec, store, pool, executor, detector, sweeper
    {
      && Live() && sys.proc.value.pc.Head? && currentLedger != 0 && pool.client.Some?
      && InStep(n) && Owes(sys.proc.value, n)
      && |n.book.decisions| == |n.book.turns| && |n.book.said| == |n.book.replies|
    }

    /** One fetched ledger, from the continuity check to the next loop head. */
    method Digest(meta: Ledger, queue: seq<Control.Command>, arrivals: seq<Option<Control.Command>>,
                  ghost n: Minutes.Notes)
        returns (ok: bool, ghost k: Minutes.Notes, ghost heard: bool, ghost polls: nat, ghost taken: nat)
      requires AtHead(n) && Going(env, sys.proc.value) && currentLedger != LAST_LEDGER
      requires meta == Served(env, sys.proc.value)
      modifies this, store, drive, broker, reg, detector, sweeper, executor
      ensures !ok ==> Halted() && Heeded(k)
      ensures ok ==> AtHead(k) && currentLedger == old(currentLedger) + 1 && heard
      ensures Minutes.Progress(n.book, k.book, Minutes.Said(queue, arrivals, polls), ok, heard, taken)
    {
      k, heard, polls, taken := n, false, 0, 0;
      var facts, activeEscrows;
      ok, facts, activeEscrows := Absorb(meta, n);
      if ok {
        ok, k, heard, polls, taken := Conclude(meta, facts, activeEscrows, queue, arrivals, n);
      }
    }

    /** What is left of a ledger once its facts are derived. */
    method Conclude(meta: Ledger, facts: seq<Facts.Fact>, activeEscrows: seq<Id>, queue: seq<Control.Command>,
                    arrivals: seq<Option<Control.Command>>, ghost n: Minutes.Notes)
        returns (ok: bool, ghost k: Minutes.Notes, ghost heard: bool, ghost polls: nat, ghost taken: nat)
      requires Live() && sys.proc.value.pc == Delivering(0) && currentLedger < LAST_LEDGER && pool.client.Some?
      requires facts == sys.proc.value.work.facts && meta == sys.proc.value.work.meta
      requires Elements(activeEscrows) == Facts.Active(facts) && Distinct(activeEscrows)
      requires InStep(n) && Owes(sys.proc.value, n)
      requires |n.book.decisions| == |n.book.turns| && |n.book.said| == |n.book.replies|
      modifies this`clock, this`sys, this`currentLedger, this`pendingStates, this`lastCheckpoint, this`lastLedgerHash
      modifies store, drive, broker, reg, detector, sweeper, executor
      ensures !ok ==> Halted() && Heeded(k)
      ensures ok ==> AtHead(k) && currentLedger == old(currentLedger) + 1 && heard
      ensures Minutes.Progress(n.book, k.book, Minutes.Said(queue, arrivals, polls), ok, heard, taken)
    {
      heard, polls, taken := false, 0, 0;
      ok, k := Deliver(meta, facts, activeEscrows, n);
      if ok {
        heard := true;
        ok, k, polls, taken := Listen(meta, queue, arrivals, k);
      }
    }

    /** The control plane's moment: queued commands, a pause if there is one, then on to the next ledger. */
    method Listen(meta: Ledger, queue: seq<Control.Command>, arrivals: seq<Option<Control.Command>>,
                  ghost n: Minutes.Notes)
        returns (ok: bool, ghost k: Minutes.Notes, ghost polls: nat, ghost taken: nat)
      requires Live() && sys.proc.value.pc == Draining(false) && meta == sys.proc.value.work.meta
      requires currentLedger < LAST_LEDGER && pool.client.Some?
      requires InStep(n) && |n.book.said| == |n.book.replies|
      modifies this`clock, this`sys, this`currentLedger
      modifies store, drive, broker, reg, detector, sweeper, executor
      ensures InStep(k) && taken <= |Minutes.Said(queue, arrivals, polls)|
      ensures Minutes.TookAll(n.book, k.book, Minutes.Said(queue, arrivals, polls)[..taken])
      ensures !ok ==> Halted()
      ensures ok ==> Live() && sys.proc.value.pc.Head? && currentLedger == old(currentLedger) + 1
      ensures ok ==> sys.proc.value.pending == old(sys.proc.value.pending)
      ensures ok ==> taken == |Minutes.Said(queue, arrivals, polls)| && |k.book.said| == |k.book.replies|
    {
      polls := 0;
      ok, k, taken := Drain(meta, queue, n);
      if !ok {
        Minutes.SaidFirst(queue, arrivals, 0, taken);
        return;
      }
      ghost var b, more := k.book, 0;
      ok, k, polls, more := HoldThenGo(meta, arrivals, k);
      Minutes.TookBoth(n.book, b, k.book, queue, arrivals, polls, more, ok);
      taken := |queue| + if ok then |Minutes.Sent(arrivals[..polls])| else more;
    }

    method HoldThenGo(meta: Ledger, arrivals: seq<Option<Control.Command>>, ghost n: Minutes.Notes)
        returns (ok: bool, ghost k: Minutes.Notes, ghost polls: nat, ghost taken: nat)
      requires Live() && sys.proc.value.pc == Draining(false) && meta == sys.proc.value.work.meta
      requires currentLedger < LAST_LEDGER && InStep(n) && |n.book.said| == |n.book.replies|
      modifies this`clock, this`sys, this`currentLedger
      modifies store, drive, broker, reg, detector, sweeper, executor
      ensures InStep(k) && polls <= |arrivals| && taken <= |Minutes.Sent(arrivals[..polls])|
      ensures Minutes.TookAll(n.book, k.book, Minutes.Sent(arrivals[..polls])[..taken])
      ensures !ok ==> Halted()
      ensures ok ==> Live() && sys.proc.value.pc.Head? && currentLedger == old(currentLedger) + 1
      ensures ok ==> sys.proc.value.pending == old(sys.proc.value.pending)
      ensures ok ==> Minutes.TookAll(n.book, k.book, Minutes.Sent(arrivals[..polls]))
      ensures ok ==> |k.book.said| == |k.book.replies|
    {
      ok, k, polls, taken := Hold(meta, arrivals, n);
      if ok {
        NextLedger(k);
      }
    }

    /** Publishes the ledger's facts and states, sweeps, and persists the cursor. */
    method Deliver(meta: Ledger, facts: seq<Facts.Fact>, activeEscrows: seq<Id>, ghost n: Minutes.Notes)
        returns (ok: bool, ghost k: Minutes.Notes)
      requires Live() && sys.proc.value.pc == Delivering(0)
      requires facts == sys.proc.value.work.facts && meta == sys.proc.value.work.meta
      requires Elements(activeEscrows) == Facts.Active(facts) && Distinct(activeEscrows)
      requires InStep(n) && Owes(sys.proc.value, n) && |n.book.decisions| == |n.book.turns|
      modifies this`clock, this`sys, this`pendingStates, this`lastCheckpoint, this`lastLedgerHash
      modifies store, drive, broker, detector, sweeper
      ensures !ok ==> Halted() && Heeded(k)
      ensures ok ==> Live() && sys.proc.value.pc == Draining(false) && AtLedger(old(sys.proc.value), sys.proc.value)
      ensures ok ==> InStep(k) && Owes(sys.proc.value, k)
      ensures Minutes.Ledgered(n.book, k.book, ok)
    {
      var catchingUp;
      ok, catchingUp, k := Report(meta, facts, activeEscrows, n);
      if ok {
        ok, k := SweepAndSave(meta, catchingUp, k);
      }
    }

    method SweepAndSave(meta: Ledger, catchingUp: bool, ghost n: Minutes.Notes)
        returns (ok: bool, ghost k: Minutes.Notes)
      requires Live() && sys.proc.value.pc == Sweeping(catchingUp) && meta == sys.proc.value.work.meta
      requires catchingUp ==> CatchingUp(clock, meta.closedAt)
      requires InStep(n) && Minutes.Due(n.book, currentLedger, meta.closedAt)
      modifies this`clock, this`sys, this`lastCheckpoint, this`lastLedgerHash, store, drive, broker, detector, sweeper
      ensures Heeded(k) && (ok ==> InStep(k))
      ensures !ok ==> Halted()
      ensures ok ==> Live() && sys.proc.value.pc == Draining(false) && Same(old(sys.proc.value), sys.proc.value)
      ensures Minutes.TookTurn(n, k, env.sweepEnabled && clock - meta.closedAt <= 30_000_000_000)
    {
      ok, k := SweepOnce(meta, catchingUp, n);
      if ok {
        ok := Checkpoint(meta, catchingUp, k);
      }
    }

    method Report(meta: Ledger, facts: seq<Facts.Fact>, activeEscrows: seq<Id>, ghost n: Minutes.Notes)
        returns (ok: bool, catchingUp: bool, ghost k: Minutes.Notes)
      requires Live() && sys.proc.value.pc == Delivering(0)
      requires facts == sys.proc.value.work.facts && meta == sys.proc.value.work.meta
      requires Elements(activeEscrows) == Facts.Active(facts) && Distinct(activeEscrows)
      requires InStep(n) && Owes(sys.proc.value, n) && |n.book.decisions| == |n.book.turns|
      modifies this`clock, this`sys, this`pendingStates, broker, detector
      ensures InStep(k)
      ensures !ok ==> Halted() && k.book == n.book
      ensures ok ==>
        && Live() && sys.proc.value.pc == Sweeping(catchingUp) && AtLedger(old(sys.proc.value), sys.proc.value)
      ensures ok ==>
        && Owes(sys.proc.value, k) && Minutes.Decided(n.book, k.book, currentLedger, meta.closedAt, clock, facts,
               reg.escrows, catchingUp)
      ensures ok && catchingUp ==> CatchingUp(clock, meta.closedAt)
    {
      ok := PublishFacts(facts, n);
      catchingUp, k := false, n;
      if ok {
        ok, catchingUp, k := PublishStates(meta, activeEscrows, n);
      }
    }

    method NextLedger(ghost n: Minutes.Notes)
      requires Live() && sys.proc.value.pc == Draining(false) && currentLedger < LAST_LEDGER && InStep(n)
      modifies this`sys, this`currentLedger
      ensures Live() && sys.proc.value.pc.Head? && currentLedger == old(currentLedger) + 1 && InStep(n)
      ensures sys.proc.value.pending == old(sys.proc.value.pending)
    {
      currentLedger := Add32(currentLedger, 1);
      Advances();
    }

    ghost method Advances()
      requires Outside() && sys.proc.Some? && Holds(sys.proc.value) && sys.proc.value.pc == Draining(false)
      requires Counts(sys.proc.value.(current := Add32(sys.proc.value.current, 1)))
      modifies this`sys
      ensures Live() && sys.proc.value.pc.Head? && sys.proc.value.pending == old(sys.proc.value.pending)
    {
      Then(env, init, sys, Advance);
      sys := Run(sys, sys.proc.value.(current := Add32(sys.proc.value.current, 1), pc := Head));
    }

    /**
     One process lifetime. The context survives `horizon` loop heads; the queue and
     the arrivals are what the operators send at each of them. However it ends, the
     files and all deliveries are those of a run of the machine from the deployment's
     first state, and the commands taken are the first ones that came, all but at most
     the last of them answered. A process that ends by itself went through all its loop
     heads, or to the end of a bounded range.
     */
    method Ingest(horizon: nat, queues: nat -> seq<Control.Command>, arrivals: nat -> seq<Option<Control.Command>>,
                  cancelled: nat -> bool)
        returns (ghost notes: Minutes.Notes, ghost hearings: seq<Minutes.Hearing>, ghost last: Option<nat>)
      requires Unborn()
      modifies this, pool, rec, store, drive, broker, reg, detector, sweeper, executor
      ensures pool.handles >= old(pool.handles)
      ensures Halted() && Heeded(notes) && Minutes.Attended(queues, arrivals, hearings, notes.book)
      ensures last.Some? ==> last.value == horizon || (env.end != 0 && currentLedger > env.end)
    {
      notes, hearings, last := Minutes.Opened(env.name, detector.isAddress), [], None;
      var ok := Begin(notes);
      if ok {
        notes, hearings, last := Loop(horizon, queues, arrivals, cancelled, notes);
      }
    }

    /** Nothing has happened in this process. */
    ghost predicate Unborn()
      reads this, drive, broker, reg, rec, store, pool, executor, detector, sweeper
    {
      && Halted() && reg.Value() == Registry.NOBODY && rec.gaps == [] && store.lastWatchlist == None
      && pool.Valid() && pool.client.None? && executor.shown == executor.pausedUntil == None
      && sweeper.Value() == Sweeper.FRESH && detector.learned == map[] && detector.nodes == []
    }

    /** Loads, restores and connects. */
    method Begin(ghost n: Minutes.Notes) returns (ok: bool)
      requires Unborn() && n == Minutes.Opened(env.name, detector.isAddress)
      modifies this`currentLedger, this`lastLedgerHash, this`expectedPrevHash, this`lastCheckpoint, this`pendingStates
      modifies this`sys, store, reg, rec, pool, drive, broker
      ensures pool.handles >= old(pool.handles)
      ensures !ok ==> Halted() && Heeded(n)
      ensures ok ==> AtHead(n)
    {
      var startLedger, resumed;
      ok, startLedger, resumed := Restore();
      if ok {
        ok := Connect(startLedger, resumed);
      }
    }

    method Loop(horizon: nat, queues: nat -> seq<Control.Command>, arrivals: nat -> seq<Option<Control.Command>>,
                cancelled: nat -> bool, ghost n: Minutes.Notes)
        returns (ghost k: Minutes.Notes, ghost hearings: seq<Minutes.Hearing>, ghost last: Option<nat>)
      requires AtHead(n) && n == Minutes.Opened(env.name, detector.isAddress)
      modifies this, pool, rec, store, drive, broker, reg, detector, sweeper, executor
      ensures pool.handles >= old(pool.handles)
      ensures Halted() && Heeded(k) && Minutes.Attended(queues, arrivals, hearings, k.book)
      ensures last.Some? ==> last.value == horizon || (env.end != 0 && currentLedger > env.end)
    {
      var heads := 0;
      k, hearings, last := n, [], None;
      while heads < horizon && (env.end == 0 || currentLedger <= env.end)
        invariant heads <= horizon && AtHead(k) && pool.handles >= old(pool.handles)
        invariant Minutes.Even(queues, arrivals, hearings, heads, k.book)
        decreases horizon - heads
      {
        ghost var b := k.book;
        ghost var heard, polls, taken, f;
        var ok;
        ok, k, heard, polls, taken, f := Turn(queues(heads), arrivals(heads), cancelled(heads), k);
        hearings := Minutes.AfterHead(queues, arrivals, hearings, heads, b, k.book, ok, heard, polls, taken);
        if !ok {
          return;
        }
        heads := heads + 1;
      }
      Minutes.EvenIsAttended(queues, arrivals, hearings, heads, k.book, k.book);
      last := Some(heads);
      Exit();
    }
  }

  /** One process over the files of an earlier one: what it delivered, what it noted, and how it left the files. */
  method Lifetime(env: Env, answers: (nat, u32, nat) -> Window.Answer, stallBudget: int, urls: seq<string>,
                  isAddress: string -> bool, drive: Drive, clock: int, handles: nat, ghost init: Deployment,
                  ghost was: Sys, horizon: nat, queues: nat -> seq<Control.Command>,
                  arrivals: nat -> seq<Option<Control.Command>>, cancelled: nat -> bool)
      returns (now: int, taken: nat, ghost s: Sys, ghost said: seq<Envelope>, ghost notes: Minutes.Notes,
               ghost hearings: seq<Minutes.Hearing>)
    requires |urls| > 0 && stallBudget > 0
    requires forall k: nat, i: nat :: answers(k, LAST_LEDGER, i) != Window.Got
    requires Reaches(env, init, was) && was.proc.None? && was.disk == drive.Files() && was.now == clock
    modifies drive
    ensures Reaches(env, init, s) && s.proc.None? && s.disk == drive.Files() && s.now == now
    ensures s.hist.log == was.hist.log + said && OfProcess(env.name, isAddress, notes, said)
    ensures Minutes.Attended(queues, arrivals, hearings, notes.book)
  {
    var p := new Pipeline(env, answers, stallBudget, urls, isAddress, drive, clock, handles, init, was);
    ghost var last;
    notes, hearings, last := p.Ingest(horizon, queues, arrivals, cancelled);
    now, taken, s, said := p.clock, p.pool.handles, p.sys, p.broker.delivered;
  }

  /** The notes of a process that delivered just this. */
  ghost predicate OfProcess(name: string, isAddress: string -> bool, n: Minutes.Notes, said: seq<Envelope>) {
    && n.journal.name == n.book.name == name && n.journal.isAddress == n.book.isAddress == isAddress
    && n.journal.heard <= said && n.book.heard <= said && n.journal.missing <= 1
  }

  /**
   A deployment over any number of process lifetimes, each ended by a crash, a fatal
   error, a cancellation or the end of a bounded range. Whatever happened, the files
   and what the sinks reported delivered account for every ledger up to the cursor;
   and each process left a genuine record of its sweep, of its decisions about states and
   of the commands it took, which are the first ones of those that came to it.
   */
  method Supervise(env: Env, answers: (nat, u32, nat) -> Window.Answer, stallBudget: int, urls: seq<string>,
                   isAddress: string -> bool, drive: Drive, clock: int, lifetimes: nat,
                   horizons: nat -> nat, queues: (nat, nat) -> seq<Control.Command>,
                   arrivals: (nat, nat) -> seq<Option<Control.Command>>, cancelled: (nat, nat) -> bool)
      returns (ghost final: Sys, ghost delivered: seq<Envelope>, ghost notes: seq<Minutes.Notes>,
               ghost hearings: seq<seq<Minutes.Hearing>>)
    requires |urls| > 0 && stallBudget > 0
    requires forall k: nat, i: nat :: answers(k, LAST_LEDGER, i) != Window.Got
    requires Initial(Found(drive.Files(), clock))
    modifies drive
    ensures Reaches(env, Found(old(drive.Files()), clock), final)
    ensures final.proc.None? && final.disk == drive.Files() && final.hist.log == delivered
    ensures |notes| == |hearings| == lifetimes
    ensures forall life :: 0 <= life < lifetimes ==>
      && Kept(env.name, notes[life], isAddress, delivered)
      && Attended(queues, arrivals, life, hearings[life], notes[life].book)
    ensures NoLoss.CursorOf(old(drive.Files())) <= NoLoss.CursorOf(drive.Files())
    ensures LoadFrom(drive.Files()).Loaded? ==>
      && final.hist.base.Some?
      && (NoLoss.First(env, Found(old(drive.Files()), clock)) != 0 ==>
            final.hist.base.value == NoLoss.First(env, Found(old(drive.Files()), clock)))
      && forall n: u32 :: final.hist.base.value <= n <= LoadFrom(drive.Files()).state.lastSeq ==>
           NoLoss.Accounted(env, final.hist, LoadFrom(drive.Files()).state.gaps, n)
  {
    ghost var init: Deployment := Found(drive.Files(), clock);
    final, delivered, notes, hearings := init, [], [], [];
    Stay(env, init);
    var now, handles := clock, 0;
    for life := 0 to lifetimes
      invariant Reaches(env, init, final) && final.proc.None? && final.hist.log == delivered
      invariant final.disk == drive.Files() && final.now == now
      invariant |notes| == |hearings| == life
      invariant forall l :: 0 <= l < life ==>
        && Kept(env.name, notes[l], isAddress, delivered) && Attended(queues, arrivals, l, hearings[l], notes[l].book)
    {
      ghost var said, n, hs;
      now, handles, final, said, n, hs :=
        Lifetime(env, answers, stallBudget, urls, isAddress, drive, now, handles, init, final, horizons(life),
                 QueuesOf(queues, life), ArrivalsOf(arrivals, life), (head: nat) => cancelled(life, head));
      AnotherLife(env.name, notes, n, isAddress, delivered, said);
      delivered, notes, hearings := delivered + said, notes + [n], hearings + [hs];
    }
    NothingLost(env, init, final);
  }

  /**
   The diary is genuine, all but at most the last answer in it is on the wire, and the
   memories in it are as good as the nodes; all that the book says was delivered is on the wire.
   */
  ghost predicate Kept(name: string, n: Minutes.Notes, isAddress: string -> bool, log: seq<Envelope>) {
    && n.book.name == name && n.book.isAddress == isAddress && Minutes.AllIn(n.book.heard, log)
    && Diary.Filed(n.journal.diary, isAddress) && Diary.Remembers(n.journal.diary, n.journal.nodes, isAddress)
    && Diary.Told(name, n.journal.diary, |n.journal.diary.visits| - 1, log)
  }

  function QueuesOf(queues: (nat, nat) -> seq<Control.Command>, life: nat): nat -> seq<Control.Command> {
    (head: nat) => queues(life, head)
  }

  function ArrivalsOf(arrivals: (nat, nat) -> seq<Option<Control.Command>>,
                      life: nat): nat -> seq<Option<Control.Command>> {
    (head: nat) => arrivals(life, head)
  }

  /** What this lifetime was told to do it did, as far as it got. */
  ghost predicate Attended(queues: (nat, nat) -> seq<Control.Command>,
                           arrivals: (nat, nat) -> seq<Option<Control.Command>>, life: nat,
                           hs: seq<Minutes.Hearing>, b: Minutes.Book) {
    Minutes.Attended(QueuesOf(queues, life), ArrivalsOf(arrivals, life), hs, b)
  }

  lemma AnotherLife(name: string, notes: seq<Minutes.Notes>, n: Minutes.Notes, isAddress: string -> bool,
                    log: seq<Envelope>, said: seq<Envelope>)
    requires forall l :: 0 <= l < |notes| ==> Kept(name, notes[l], isAddress, log)
    requires OfProcess(name, isAddress, n, said)
    ensures forall l :: 0 <= l < |notes| + 1 ==> Kept(name, (notes + [n])[l], isAddress, log + said)
  {
    forall l | 0 <= l < |notes| + 1
      ensures Kept(name, (notes + [n])[l], isAddress, log + said)
    {
      if l < |notes| {
        var d := notes[l].journal.diary;
        Diary.ToldMore(name, d, |d.visits| - 1, log, log + said);
      } else {
        SweepTold(n.journal, log, said);
      }
    }
  }

  lemma SweepTold(s: Diary.Journal, log: seq<Envelope>, said: seq<Envelope>)
    requires s.heard <= said && s.missing <= 1
    ensures Diary.Told(s.name, s.diary, |s.diary.visits| - 1, log + said)
  {
    forall i | 0 <= i < |s.diary.visits| - 1
      ensures Diary.LookTold(s.name, s.diary, i, log + said)
    {
      assert Diary.LookTold(s.name, s.diary, i, s.heard);
    }
  }

  /** The machine's state for a deployment found with these files. */
  ghost function Found(d: Disk, now: int): Sys {
    var r := LoadFrom(d);
    Sys(d, now, History([], map[], if r.Loaded? then Some(Add32(r.state.lastSeq, 1)) else None, []), None)
  }

  lemma NothingLost(e: Env, init: Sys, s: Sys)
    requires Initial(init) && Reaches(e, init, s)
    ensures NoLoss.CursorOf(init.disk) <= NoLoss.CursorOf(s.disk)
    ensures LoadFrom(s.disk).Loaded? ==>
      && s.hist.base.Some?
      && (NoLoss.First(e, init) != 0 ==> s.hist.base.value == NoLoss.First(e, init))
      && forall n: u32 :: s.hist.base.value <= n <= LoadFrom(s.disk).state.lastSeq ==>
           NoLoss.Accounted(e, s.hist, LoadFrom(s.disk).state.gaps, n)
  {
    var acts :| Exec(e, init, acts) == s;
    forall n: u32
      ensures
        LoadFrom(s.disk).Loaded? && s.hist.base.Some? &&
        s.hist.base.value <= n <= LoadFrom(s.disk).state.lastSeq ==>
        NoLoss.Accounted(e, s.hist, LoadFrom(s.disk).state.gaps, n)
    {
      NoLoss.NoSilentLoss(e, init, acts, n);
    }
    NoLoss.NoSilentLoss(e, init, acts, 0);
    NoLoss.CursorNeverDecreases(e, init, acts, 0);
    assert acts[..0] == [];
  }

  /** In any run a process's cached watchlist is what is on disk. */
  lemma CacheIsTrue(e: Env, init: Deployment, s: Sys, p: Proc)
    requires Reaches(e, init, s) && s.proc == Some(p)
    ensures CacheTrue(StoreOf(s, p))
  {
    var acts :| Exec(e, init, acts) == s;
    NoLoss.InvAlways(e, init, acts);
  }

  /** Processing a ledger only adds to the registry. */
  lemma FetchGrows(e: Env, p: Proc)
    requires Derivation(e, p).Some?
    ensures p.reg.tracked <= Fetched(e, p).reg.tracked
  {
    Facts.DiscoveryMonotone(p.reg, p.reg, Served(e, p).txs, e.approved);
  }

  lemma BootDisjoint(e: Env, r: LoadResult)
    requires !r.Unreadable?
    ensures Registry.Disjoint(BootMembers(e, r))
  {
  }

  lemma CommandKeepsDisjoint(m: Registry.Members, cmd: Control.Command)
    requires Registry.Disjoint(m)
    ensures Registry.Disjoint(Control.Execute(m, cmd).members)
  {
  }
}
