/**
 The pipeline as a state machine. One process drives the ledger loop over two
 files; the environment serves ledgers, accepts or refuses work, moves the clock
 and may kill the process between any two atomic steps. A step that a real run
 leaves by a fatal error is the same as a crash: the process is gone, the files
 and everything already delivered stay.
 */
module Machine {
  import opened Base
  import opened Ids
  import opened Registry
  import opened StateStore
  import opened Facts
  import opened Envelopes
  import opened Catchup
  import Control
  import Window

  // ---- The environment ------------------------------------------------------------------------

  /** A closed ledger: its own hash, its parent's, its close time and its transactions. */
  datatype Ledger = Ledger(hash: Hash, prev: Hash, closedAt: int, txs: seq<Tx>)

  /**
   The configuration, and what every session with an endpoint would serve. A
   session is a fresh number per adoption, so two sessions with one endpoint may
   well disagree; within a session each ledger is asked for once at most.
   */
  datatype Env = Env(passphrase: string, name: string, approved: set<string>, seeds: seq<Id>,
                     start: u32, end: u32, sweepEnabled: bool, serve: (nat, u32) -> Ledger)

  /** The last ledger number is never served, so the cursor plus one never wraps. */
  const LAST_LEDGER: u32 := 0xFFFF_FFFF

  // ---- The process ------------------------------------------------------------------------------

  /** The ledger in hand: where it came from, the registry it met, the facts derived from it. */
  datatype Work = Work(session: nat, meta: Ledger, before: Members, facts: seq<Fact>)

  const NO_WORK := Work(0, Ledger(0, 0, 0, []), NOBODY, [])

  /** One processed ledger as a link of a hash chain. */
  datatype Link = Link(ledger: u32, hash: Hash, prev: Hash)

  /** What a process does once a save is complete. */
  datatype Next = Adopt(session: nat, start: u32, boot: bool) | Settle | Resume

  /** Where the loop stands. */
  datatype Pc =
    | Connecting
    | Saving(lastSeq: u32, lastHash: Hash, wrote: bool, next: Next)
    | Announcing(i: nat)
    | Head
    | Delivering(i: nat)
    | Deciding
    | Snapshots(changes: seq<StateChange>, i: nat, decidedAt: int)
    | Sweeping(catchingUp: bool)
    | SweepSnapshots(changes: seq<StateChange>, i: nat, decidedAt: int)
    | Checking(catchingUp: bool)
    | Draining(mutated: bool)
    | Answering(changes: seq<StateChange>, i: nat, mutated: bool)

  /**
   A live process. `base`, `path`, `activeAt` and `fetchedAt` are bookkeeping the
   program does not keep: the ledger this deployment began with, the ledgers this
   process went through, and each escrow's last activity and last state fetch.
   */
  datatype Proc = Proc(
    reg: Members, gaps: seq<Gap>, cache: Option<WatchDoc>,
    resume: Option<(u32, Hash)>, from: u32, base: u32,
    session: nat, current: u32, lastHash: Hash, expected: Hash, lastCheckpoint: u32,
    pending: set<Id>, work: Work,
    path: seq<Link>, activeAt: map<Id, u32>, fetchedAt: map<Id, u32>,
    pc: Pc)

  // ---- The whole system ----------------------------------------------------------------------------

  /** A state snapshot's ledger and when it was decided to be taken. */
  datatype Stamp = Stamp(ledger: u32, closedAt: int, decidedAt: int)

  /**
   What the outside has seen and what was derived: every accepted envelope, the
   last processing of each ledger, the first ledger of the deployment once its
   cursor exists, and the stamps of activity and sweep snapshots.
   */
  datatype History = History(log: seq<Envelope>, derived: map<u32, Work>, base: Option<u32>, stamps: seq<Stamp>)

  datatype Sys = Sys(disk: Disk, now: int, hist: History, proc: Option<Proc>)

  datatype Action =
    | Boot
    | Reach(session: nat, asked: u32, start: u32)
    | WriteWatch
    | WriteCursor
    | Announce
    | Fetch
    | Deliver
    | Defer
    | Snapshot(changes: seq<StateChange>)
    | PublishState
    | SweepSkip
    | Sweep(changes: seq<StateChange>)
    | PublishSweep
    | Check
    | Execute(cmd: Control.Command, changes: seq<StateChange>)
    | Answer
    | Flush
    | Advance
    | Crash
    | Tick(d: int)

  // ---- Booting -------------------------------------------------------------------------------------

  /** The record a boot starts from: a loaded one, or what an orphan watchlist preserves. */
  function Preserved(r: LoadResult): State
    requires !r.Unreadable?
  {
    match r
    case Loaded(st) => st
    case NotFound(st) => st
  }

  /** A surviving watchlist outranks the seed file; a record with nothing in it does not. */
  predicate Restores(r: LoadResult)
    requires !r.Unreadable?
  {
    var st := Preserved(r);
    r.Loaded? || |st.escrows| + |st.removed| + |st.gaps| > 0
  }

  /** The registry a boot begins with: tombstones restore before the tracked list. */
  function BootMembers(e: Env, r: LoadResult): Members
    requires !r.Unreadable?
  {
    if Restores(r) then Seeded(SeededRemoved(NOBODY, Preserved(r).removed), Preserved(r).escrows)
    else Seeded(NOBODY, e.seeds)
  }

  predicate BootEnabled(e: Env, s: Sys) {
    var r := LoadFrom(s.disk);
    && s.proc.None? && !r.Unreadable?
    && (Restores(r) ==> Preserved(r).network == "" || Preserved(r).network == e.passphrase)
  }

  function Booted(e: Env, s: Sys): Proc
    requires BootEnabled(e, s)
  {
    var r := LoadFrom(s.disk);
    var from := if r.Loaded? then Add32(r.state.lastSeq, 1) else e.start;
    Proc(BootMembers(e, r), if Restores(r) then Preserved(r).gaps else [], CacheAfterLoad(Store(s.disk, None)),
         if r.Loaded? then Some((r.state.lastSeq, r.state.lastHash)) else None,
         from, if s.hist.base.Some? then s.hist.base.value else from,
         0, from, 0, 0, 0, {}, NO_WORK, [], map[], map[], Connecting)
  }

  // ---- Reaching an endpoint ----------------------------------------------------------------------

  predicate Going(e: Env, p: Proc) {
    p.pc.Head? && (e.end == 0 || p.current <= e.end)
  }

  /** A connect at boot, or a rotation after a fetch that failed for whatever reason. */
  predicate ReachEnabled(e: Env, p: Proc, asked: u32, start: u32) {
    && (p.pc.Connecting? || Going(e, p))
    && (p.pc.Connecting? ==> p.from == 0 || asked == p.from)
    && (p.pc.Head? ==> asked == p.current)
    && asked <= start && start != 0 && (e.end != 0 ==> start <= e.end)
  }

  function Adopted(p: Proc, session: nat, start: u32, boot: bool): Proc {
    if boot then
      var anchor := if p.resume.Some? && start == Add32(p.resume.value.0, 1) then p.resume.value.1 else 0;
      p.(session := session, current := start, lastHash := anchor, expected := anchor,
         lastCheckpoint := Sub32(start, 1), pc := Announcing(0),
         path := if anchor == 0 then [] else [Link(p.resume.value.0, anchor, 0)])
    else if start == p.current then p.(session := session, expected := p.lastHash, pc := Announcing(0))
    else p.(session := session, current := start, expected := 0, pc := Announcing(0))
  }

  /** Skipped ledgers are recorded, and saved with a hashless cursor, before the endpoint is adopted. */
  function Reached(s: Sys, p: Proc, session: nat, asked: u32, start: u32): Proc {
    var boot := p.pc.Connecting?;
    var q := if boot then p.(base := if s.hist.base.Some? then s.hist.base.value else asked) else p;
    if start == asked then Adopted(q, session, start, boot)
    else q.(gaps := q.gaps + [Gap(asked, Sub32(start, 1), Window.GAP_REASON_RPC_RETENTION, s.now)],
            pc := Saving(Sub32(start, 1), 0, false, Adopt(session, start, boot)))
  }

  // ---- Saving ------------------------------------------------------------------------------------------

  ghost function Record(e: Env, p: Proc, lastSeq: u32, lastHash: Hash): State {
    State(e.passphrase, lastSeq, lastHash, SortedIds(p.reg.tracked), SortedIds(p.reg.removed), p.gaps)
  }

  function Settled(p: Proc, saved: bool): Proc {
    p.(lastHash := p.work.meta.hash, lastCheckpoint := if saved then p.current else p.lastCheckpoint,
       pc := Draining(false))
  }

  function Continued(p: Proc, next: Next): Proc {
    match next
    case Adopt(session, start, boot) => Adopted(p, session, start, boot)
    case Settle => Settled(p, true)
    case Resume => p.(pc := Draining(false))
  }

  ghost function WatchWritten(e: Env, s: Sys, p: Proc): Sys
    requires p.pc.Saving?
  {
    var store := SaveWatch(Store(s.disk, p.cache), Record(e, p, p.pc.lastSeq, p.pc.lastHash));
    s.(disk := store.disk, proc := Some(p.(cache := store.cache, pc := p.pc.(wrote := true))))
  }

  ghost function CursorWritten(e: Env, s: Sys, p: Proc): Sys
    requires p.pc.Saving?
  {
    var store := SaveCursor(Store(s.disk, p.cache), Record(e, p, p.pc.lastSeq, p.pc.lastHash));
    s.(disk := store.disk, hist := s.hist.(base := Some(if s.hist.base.Some? then s.hist.base.value else p.base)),
       proc := Some(Continued(p, p.pc.next)))
  }

  // ---- One ledger ---------------------------------------------------------------------------------------

  function Served(e: Env, p: Proc): Ledger {
    e.serve(p.session, p.current)
  }

  function Derivation(e: Env, p: Proc): Option<Processed> {
    ProcessLedger(p.reg, Served(e, p).txs, e.approved, p.current, Served(e, p).closedAt)
  }

  predicate FetchEnabled(e: Env, p: Proc) {
    Going(e, p) && p.current < LAST_LEDGER && Descends(p.expected, Served(e, p).prev) && Derivation(e, p).Some?
  }

  ghost function Fetched(e: Env, p: Proc): Proc
    requires Derivation(e, p).Some?
  {
    var meta, derived := Served(e, p), Derivation(e, p).value;
    p.(expected := 0, reg := derived.members, work := Work(p.session, meta, p.reg, derived.facts),
       path := p.path + [Link(p.current, meta.hash, meta.prev)],
       activeAt := p.activeAt + map id | id in Active(derived.facts) :: p.current,
       pc := Delivering(0))
  }

  function FactEnvelope(e: Env, p: Proc, i: nat): Envelope
    requires i < |p.work.facts|
  {
    FromEscrowEvent(e.name, p.work.facts[i])
  }

  ghost predicate Stamped(changes: seq<StateChange>, p: Proc) {
    forall c :: c in changes ==> c.ledger == p.current && c.closedAt == p.work.meta.closedAt
  }

  ghost function Deferred(p: Proc): Proc {
    p.(pending := p.pending + Active(p.work.facts), pc := Sweeping(true))
  }

  /** The deferred escrows and the active ones, all fetched now. */
  ghost function Asking(p: Proc): set<Id> {
    p.pending + Active(p.work.facts)
  }

  ghost function Snapped(s: Sys, p: Proc, changes: seq<StateChange>): Proc {
    p.(pending := {}, fetchedAt := p.fetchedAt + map id | id in Asking(p) :: p.current,
       pc := Snapshots(changes, 0, s.now))
  }

  predicate IsFinal(e: Env, p: Proc) {
    e.end != 0 && p.current == e.end
  }

  function Checked(e: Env, p: Proc): Proc
    requires p.pc.Checking?
  {
    if ShouldCheckpoint(p.pc.catchingUp, IsFinal(e, p), p.current, p.lastCheckpoint)
    then p.(pc := Saving(p.current, p.work.meta.hash, false, Settle))
    else Settled(p, false)
  }

  // ---- Which steps can be taken ------------------------------------------------------------------------

  ghost predicate Enabled(e: Env, s: Sys, a: Action) {
    if a.Boot? then BootEnabled(e, s)
    else if a.Tick? then a.d >= 0
    else if a.Crash? then s.proc.Some?
    else s.proc.Some? && ProcEnabled(e, s, s.proc.value, a)
  }

  ghost predicate ProcEnabled(e: Env, s: Sys, p: Proc, a: Action) {
    match a
    case Reach(_, asked, start) => ReachEnabled(e, p, asked, start)
    case WriteWatch => p.pc.Saving? && !p.pc.wrote
    case WriteCursor => p.pc.Saving? && p.pc.wrote
    case Announce => p.pc.Announcing? && (p.pc.i < |p.gaps| ==> Validate(GapEnvelope(e.name, p.gaps[p.pc.i])))
    case Fetch => FetchEnabled(e, p)
    case Deliver => p.pc.Delivering? && (p.pc.i < |p.work.facts| ==> Validate(FactEnvelope(e, p, p.pc.i)))
    case Defer => p.pc.Deciding? && CatchingUp(s.now, p.work.meta.closedAt)
    case Snapshot(changes) => p.pc.Deciding? && !CatchingUp(s.now, p.work.meta.closedAt) && Stamped(changes, p)
    case PublishState =>
      p.pc.Snapshots? && (p.pc.i < |p.pc.changes| ==> Validate(FromStateChange(e.name, p.pc.changes[p.pc.i])))
    case SweepSkip => p.pc.Sweeping?
    case Sweep(changes) =>
      p.pc.Sweeping? && e.sweepEnabled && SweepAllowed(s.now, p.work.meta.closedAt) && Stamped(changes, p)
    case PublishSweep =>
      p.pc.SweepSnapshots? && (p.pc.i < |p.pc.changes| ==> Validate(FromStateChange(e.name, p.pc.changes[p.pc.i])))
    case Check => p.pc.Checking?
    case Execute(_, changes) => p.pc.Draining? && Stamped(changes, p)
    case Answer =>
      p.pc.Answering? && (p.pc.i < |p.pc.changes| ==> Validate(FromStateChange(e.name, p.pc.changes[p.pc.i])))
    case Flush => p.pc.Draining? && p.pc.mutated
    case Advance => p.pc.Draining? && !p.pc.mutated
    case _ => false
  }

  // ---- What they do ---------------------------------------------------------------------------------------

  function Run(s: Sys, p: Proc): Sys {
    s.(proc := Some(p))
  }

  function Said(s: Sys, env: Envelope): Sys {
    s.(hist := s.hist.(log := s.hist.log + [env]))
  }

  function Snap(s: Sys, p: Proc, decidedAt: int): Sys {
    s.(hist := s.hist.(stamps := s.hist.stamps + [Stamp(p.current, p.work.meta.closedAt, decidedAt)]))
  }

  function AnnounceStep(e: Env, s: Sys, p: Proc): Sys
    requires p.pc.Announcing?
  {
    if p.pc.i < |p.gaps|
    then Run(Said(s, GapEnvelope(e.name, p.gaps[p.pc.i])), p.(pc := Announcing(p.pc.i + 1)))
    else Run(s, p.(pc := Head))
  }

  ghost function FetchStep(e: Env, s: Sys, p: Proc): Sys
    requires FetchEnabled(e, p)
  {
    var q := Fetched(e, p);
    Run(s.(hist := s.hist.(derived := s.hist.derived[p.current := q.work])), q)
  }

  function DeliverStep(e: Env, s: Sys, p: Proc): Sys
    requires p.pc.Delivering?
  {
    if p.pc.i < |p.work.facts|
    then Run(Said(s, FactEnvelope(e, p, p.pc.i)), p.(pc := Delivering(p.pc.i + 1)))
    else Run(s, p.(pc := Deciding))
  }

  function StateStep(e: Env, s: Sys, p: Proc): Sys
    requires p.pc.Snapshots?
  {
    if p.pc.i < |p.pc.changes|
    then Run(Snap(Said(s, FromStateChange(e.name, p.pc.changes[p.pc.i])), p, p.pc.decidedAt),
             p.(pc := Snapshots(p.pc.changes, p.pc.i + 1, p.pc.decidedAt)))
    else Run(s, p.(pc := Sweeping(false)))
  }

  function SweepStep(e: Env, s: Sys, p: Proc): Sys
    requires p.pc.SweepSnapshots?
  {
    if p.pc.i < |p.pc.changes|
    then Run(Snap(Said(s, FromStateChange(e.name, p.pc.changes[p.pc.i])), p, p.pc.decidedAt),
             p.(pc := SweepSnapshots(p.pc.changes, p.pc.i + 1, p.pc.decidedAt)))
    else Run(s, p.(pc := Checking(false)))
  }

  function ExecuteStep(s: Sys, p: Proc, cmd: Control.Command, changes: seq<StateChange>): Sys
    requires p.pc.Draining?
  {
    var done := Control.Execute(p.reg, cmd);
    Run(s, p.(reg := done.members, pc := Answering(changes, 0, p.pc.mutated || done.mutated)))
  }

  function AnswerStep(e: Env, s: Sys, p: Proc): Sys
    requires p.pc.Answering?
  {
    if p.pc.i < |p.pc.changes|
    then Run(Said(s, FromStateChange(e.name, p.pc.changes[p.pc.i])),
             p.(pc := Answering(p.pc.changes, p.pc.i + 1, p.pc.mutated)))
    else Run(s, p.(pc := Draining(p.pc.mutated)))
  }

  ghost function Step(e: Env, s: Sys, a: Action): Sys
    requires Enabled(e, s, a)
  {
    if a.Boot? then Run(s, Booted(e, s))
    else if a.Tick? then s.(now := s.now + a.d)
    else if a.Crash? then s.(proc := None)
    else ProcStep(e, s, s.proc.value, a)
  }

  ghost function ProcStep(e: Env, s: Sys, p: Proc, a: Action): Sys
    requires ProcEnabled(e, s, p, a)
  {
    match a
    case Reach(session, asked, start) => Run(s, Reached(s, p, session, asked, start))
    case WriteWatch => WatchWritten(e, s, p)
    case WriteCursor => CursorWritten(e, s, p)
    case Announce => AnnounceStep(e, s, p)
    case Fetch => FetchStep(e, s, p)
    case Deliver => DeliverStep(e, s, p)
    case Defer => Run(s, Deferred(p))
    case Snapshot(changes) => Run(s, Snapped(s, p, changes))
    case PublishState => StateStep(e, s, p)
    case SweepSkip => Run(s, p.(pc := Checking(p.pc.catchingUp)))
    case Sweep(changes) => Run(s, p.(pc := SweepSnapshots(changes, 0, s.now)))
    case PublishSweep => SweepStep(e, s, p)
    case Check => Run(s, Checked(e, p))
    case Execute(cmd, changes) => ExecuteStep(s, p, cmd, changes)
    case Answer => AnswerStep(e, s, p)
    case Flush => Run(s, p.(pc := Saving(p.current, p.lastHash, false, Resume)))
    case Advance => Run(s, p.(current := Add32(p.current, 1), pc := Head))
    case _ => s
  }

  // ---- Runs -----------------------------------------------------------------------------------------------

  /** The state a run of actions ends in; an action that cannot be taken changes nothing. */
  ghost function Exec(e: Env, s: Sys, trace: seq<Action>): Sys {
    if |trace| == 0 then s else Taken(e, Exec(e, s, trace[..|trace| - 1]), trace[|trace| - 1])
  }

  ghost function Taken(e: Env, s: Sys, a: Action): Sys {
    if Enabled(e, s, a) then Step(e, s, a) else s
  }

  /** A deployment before its first process: no one runs, nothing was derived or delivered under it yet. */
  ghost predicate Initial(s: Sys) {
    var r := LoadFrom(s.disk);
    && s.proc.None?
    && s.hist == History([], map[], if r.Loaded? then Some(Add32(r.state.lastSeq, 1)) else None, [])
    && (r.Loaded? ==> r.state.lastSeq < LAST_LEDGER)
  }

  type Deployment = s: Sys | Initial(s)
    ghost witness Sys(Disk(None, None), 0, History([], map[], None, []), None)
}
