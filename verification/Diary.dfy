/**
 What one process's sweep did: a diary of its visits and of the commands that concern
 it, which the loop keeps and the sweep's theorems speak of.
 */
module Diary {
  import opened Base
  import opened Ids
  import opened Envelopes
  import opened Sweeper
  import opened SweepGuarantees
  import Control
  import Detector
  import DetectorGuarantees
  import DetectorTheorems
  import Facts
  import Registry

  /** What a visit asked, of whom and remembering what, and what it was told. */
  datatype Look = Look(memory: Detector.Memory, rpc: Detector.Rpc, q: Detector.Request,
                       states: Option<seq<StateChange>>)

  /** The visits and resets of one process, each visit's look, and whether nobody was untracked so far. */
  datatype Diary = Diary(visits: seq<Event>, looks: seq<Look>, steady: bool)

  const SILENT: Detector.Rpc := (n, keys) => None
  const IDLE := Look(Detector.Memory(map[], 0, 0), SILENT, Detector.Request({}, [], 0, 0, 0), None)
  const BLANK := Diary([], [], true)

  function Noted(d: Diary, e: Event, l: Look): Diary {
    d.(visits := d.visits + [e], looks := d.looks + [l])
  }

  function Last(d: Diary): Look
    requires |d.looks| > 0
  {
    d.looks[|d.looks| - 1]
  }

  /** A reconcile restarts the sweep; a removal is the one command that shrinks the registry. */
  function Commanded(d: Diary, cmd: Control.Command): Diary {
    if cmd.Reconcile? then Noted(d, Reset, IDLE)
    else if cmd.RemoveEscrow? then d.(steady := false)
    else d
  }

  // ---- What makes a diary genuine -----------------------------------------------------------------

  /** An escrow with a learned key is charged one key, any other four. */
  ghost predicate Charged(cost: Id -> int, learned: Detector.Learned) {
    forall id :: cost(id) == if id in learned then 1 else 4
  }

  /** Visit i fetched the batch that was its turn, under the anchor in force, and noted the answer. */
  ghost predicate LookOk(visits: seq<Event>, i: nat, l: Look, isAddress: string -> bool)
    requires i < |visits| && visits[i].Visit?
  {
    var v := visits[i];
    && l.q == Detector.Request(v.tracked, BatchAt(visits, i), v.ledger, l.q.closedAt, SinceAt(visits, i))
    && Charged(v.cost, l.memory.learned) && v.ok == l.states.Some?
    && (BatchAt(visits, i) != [] ==> l.states == Detector.FetchOf(l.memory, l.rpc, isAddress, l.q).changes)
  }

  ghost predicate EntryOk(d: Diary, i: nat, isAddress: string -> bool) {
    && i < |d.visits| && i < |d.looks|
    && (d.visits[i].Visit? ==> LookOk(d.visits, i, d.looks[i], isAddress))
  }

  ghost predicate Genuine(d: Diary, isAddress: string -> bool) {
    |d.looks| == |d.visits| && forall i :: 0 <= i < |d.visits| ==> EntryOk(d, i, isAddress)
  }

  /** Ledgers never go back, nor does the registry unless an escrow was removed. */
  ghost predicate InOrder(d: Diary) {
    forall i, j :: Ordered(d, i, j)
  }

  predicate Ordered(d: Diary, i: int, j: int) {
    0 <= i < j < |d.visits| && d.visits[i].Visit? && d.visits[j].Visit? ==>
      d.visits[i].ledger <= d.visits[j].ledger && (d.steady ==> d.visits[i].tracked <= d.visits[j].tracked)
  }

  /** How many visits were made. */
  function Made(visits: seq<Event>): nat {
    if |visits| == 0 then 0 else Made(visits[..|visits| - 1]) + if visits[|visits| - 1].Visit? then 1 else 0
  }

  ghost predicate Filed(d: Diary, isAddress: string -> bool) {
    Genuine(d, isAddress) && InOrder(d)
  }

  /** The diary is up to date: with the sweep, the loop's ledger and the registry. */
  ghost predicate Current(d: Diary, sweep: Sweep, ledger: u32, tracked: set<Id>) {
    RunTo(d.visits, |d.visits|).sweep == sweep && Below(d, ledger, tracked)
  }

  ghost predicate Below(d: Diary, ledger: u32, tracked: set<Id>) {
    forall i :: BelowAt(d, i, ledger, tracked)
  }

  predicate BelowAt(d: Diary, i: int, ledger: u32, tracked: set<Id>) {
    0 <= i < |d.visits| && d.visits[i].Visit? ==>
      d.visits[i].ledger <= ledger && (d.steady ==> d.visits[i].tracked <= tracked)
  }

  /** What the first n visits were told has been published. */
  ghost predicate Told(name: string, d: Diary, n: int, log: seq<Envelope>) {
    forall i :: 0 <= i < n ==> LookTold(name, d, i, log)
  }

  ghost predicate LookTold(name: string, d: Diary, i: nat, log: seq<Envelope>) {
    i < |d.looks| && d.looks[i].states.Some? ==>
      forall c :: c in d.looks[i].states.value ==> FromStateChange(name, c) in log
  }

  /** Each visit's memory held only candidate keys. */
  ghost predicate Learnt(d: Diary, isAddress: string -> bool) {
    forall i :: LearntAt(d, i, isAddress)
  }

  ghost predicate LearntAt(d: Diary, i: int, isAddress: string -> bool) {
    0 <= i < |d.looks| ==> DetectorTheorems.LearnedOk(d.looks[i].memory.learned, isAddress)
  }

  /** As long as every node the process met, by sweep, snapshot or command, answered only about what it was asked. */
  ghost predicate Remembers(d: Diary, nodes: seq<Detector.Rpc>, isAddress: string -> bool) {
    DetectorGuarantees.AllRestricted(nodes) ==> Learnt(d, isAddress)
  }

  // ---- How it is kept ----------------------------------------------------------------------------------

  lemma {:induction false} RunPrefix(a: seq<Event>, b: seq<Event>, n: nat)
    requires n <= |a| && a <= b
    ensures RunTo(b, n) == RunTo(a, n)
  {
    if n > 0 {
      RunPrefix(a, b, n - 1);
      var t, e := RunTo(a, n - 1), a[n - 1];
      assert b[n - 1] == e && RunTo(b, n - 1) == t;
      assert RunTo(a, n) == Advance(t, n - 1, e);
    }
  }

  lemma EarlierLook(a: seq<Event>, b: seq<Event>, i: nat, l: Look, isAddress: string -> bool)
    requires i < |a| && a <= b && a[i].Visit? && LookOk(a, i, l, isAddress)
    ensures LookOk(b, i, l, isAddress)
  {
    RunPrefix(a, b, i);
    RunPrefix(a, b, i + 1);
    assert a[i] == b[i];
  }

  lemma EarlierEntry(d: Diary, e: Event, l: Look, isAddress: string -> bool, i: nat)
    requires |d.looks| == |d.visits| && EntryOk(d, i, isAddress)
    ensures EntryOk(Noted(d, e, l), i, isAddress)
  {
    if d.visits[i].Visit? {
      EarlierLook(d.visits, d.visits + [e], i, d.looks[i], isAddress);
    }
  }

  lemma StillGenuine(d: Diary, e: Event, l: Look, isAddress: string -> bool)
    requires Genuine(d, isAddress) && EntryOk(Noted(d, e, l), |d.visits|, isAddress)
    ensures Genuine(Noted(d, e, l), isAddress)
  {
    forall i | 0 <= i < |d.visits| + 1
      ensures EntryOk(Noted(d, e, l), i, isAddress)
    {
      if i < |d.visits| {
        EarlierEntry(d, e, l, isAddress, i);
      }
    }
  }

  lemma NextVisit(visits: seq<Event>, sweep: Sweep, e: Event)
    requires e.Visit? && RunTo(visits, |visits|).sweep == sweep
    ensures var next := NextOf(sweep, SortedIds(e.tracked), e.ledger, e.cost, BUDGET);
            var more := visits + [e];
      && RunTo(more, |more|).sweep == next.sweep && BatchAt(more, |visits|) == next.batch
      && SinceAt(more, |visits|) == next.sweep.prevPassStart
  {
    RunPrefix(visits, visits + [e], |visits|);
  }

  lemma StillInOrder(d: Diary, e: Event, l: Look)
    requires InOrder(d) && (e.Visit? ==> Below(d, e.ledger, e.tracked))
    ensures InOrder(Noted(d, e, l)) && (e.Visit? ==> Below(Noted(d, e, l), e.ledger, e.tracked))
  {
    var t := Noted(d, e, l);
    forall i, j
      ensures Ordered(t, i, j)
    {
      assert Ordered(d, i, j) && (e.Visit? ==> BelowAt(d, i, e.ledger, e.tracked));
    }
    if e.Visit? {
      forall i
        ensures BelowAt(t, i, e.ledger, e.tracked)
      {
        assert BelowAt(d, i, e.ledger, e.tracked);
      }
    }
  }

  lemma NewEntry(d: Diary, sweep: Sweep, e: Event, l: Look, isAddress: string -> bool)
    requires |d.looks| == |d.visits| && e.Visit? && RunTo(d.visits, |d.visits|).sweep == sweep
    requires Answers(sweep, e, l, isAddress)
    ensures EntryOk(Noted(d, e, l), |d.visits|, isAddress)
  {
    NextVisit(d.visits, sweep, e);
    var t := Noted(d, e, l);
    assert t.visits[|d.visits|] == e && t.looks[|d.visits|] == l;
  }

  /** The look is what a visit in this state of the sweep asks and is told. */
  ghost predicate Answers(sweep: Sweep, e: Event, l: Look, isAddress: string -> bool)
    requires e.Visit?
  {
    var next := NextOf(sweep, SortedIds(e.tracked), e.ledger, e.cost, BUDGET);
    && l.q == Detector.Request(e.tracked, next.batch, e.ledger, l.q.closedAt, next.sweep.prevPassStart)
    && Charged(e.cost, l.memory.learned) && e.ok == l.states.Some?
    && (next.batch != [] ==> l.states == Detector.FetchOf(l.memory, l.rpc, isAddress, l.q).changes)
  }

  /** A visit is noted. */
  lemma NotesVisit(d: Diary, sweep: Sweep, e: Event, l: Look, isAddress: string -> bool)
    requires Filed(d, isAddress) && e.Visit? && Current(d, sweep, e.ledger, e.tracked)
    requires Answers(sweep, e, l, isAddress)
    ensures Filed(Noted(d, e, l), isAddress)
    ensures var next := NextOf(sweep, SortedIds(e.tracked), e.ledger, e.cost, BUDGET);
      Current(Noted(d, e, l), next.sweep, e.ledger, e.tracked)
  {
    NewEntry(d, sweep, e, l, isAddress);
    NextVisit(d.visits, sweep, e);
    StillGenuine(d, e, l, isAddress);
    StillInOrder(d, e, l);
  }

  lemma OneMoreMade(visits: seq<Event>, e: Event)
    ensures Made(visits + [e]) == Made(visits) + if e.Visit? then 1 else 0
  {
    assert (visits + [e])[..|visits|] == visits;
  }

  lemma NotesReset(d: Diary, sweep: Sweep, ledger: u32, tracked: set<Id>, isAddress: string -> bool)
    requires Filed(d, isAddress) && Current(d, sweep, ledger, tracked)
    ensures Filed(Noted(d, Reset, IDLE), isAddress) && Current(Noted(d, Reset, IDLE), FRESH, ledger, tracked)
  {
    StillGenuine(d, Reset, IDLE, isAddress);
    StillInOrder(d, Reset, IDLE);
    StillBelow(d, ledger, tracked);
  }

  lemma StillBelow(d: Diary, ledger: u32, tracked: set<Id>)
    requires Below(d, ledger, tracked)
    ensures Below(Noted(d, Reset, IDLE), ledger, tracked)
  {
    forall i
      ensures BelowAt(Noted(d, Reset, IDLE), i, ledger, tracked)
    {
      assert BelowAt(d, i, ledger, tracked);
    }
  }

  /** A command is noted. */
  lemma NotesCommand(d: Diary, sweep: Sweep, ledger: u32, m: Registry.Members, cmd: Control.Command,
                     isAddress: string -> bool)
    requires Filed(d, isAddress) && Current(d, sweep, ledger, m.tracked)
    ensures Filed(Commanded(d, cmd), isAddress)
    ensures Current(Commanded(d, cmd), if cmd.Reconcile? then FRESH else sweep, ledger,
                    Control.Execute(m, cmd).members.tracked)
  {
    if cmd.Reconcile? {
      NotesReset(d, sweep, ledger, m.tracked, isAddress);
    } else if cmd.RemoveEscrow? {
      NotesRemoval(d, sweep, ledger, m.tracked, Control.Execute(m, cmd).members.tracked, isAddress);
    } else {
      StaysCurrent(d, sweep, ledger, m.tracked, ledger, Control.Execute(m, cmd).members.tracked);
    }
  }

  lemma NotesRemoval(d: Diary, sweep: Sweep, ledger: u32, tracked: set<Id>, left: set<Id>, isAddress: string -> bool)
    requires Filed(d, isAddress) && Current(d, sweep, ledger, tracked)
    ensures Filed(d.(steady := false), isAddress) && Current(d.(steady := false), sweep, ledger, left)
  {
    var t := d.(steady := false);
    forall i | 0 <= i < |d.visits|
      ensures EntryOk(t, i, isAddress)
    {
      assert EntryOk(d, i, isAddress);
    }
    forall i, j
      ensures Ordered(t, i, j)
    {
      assert Ordered(d, i, j);
    }
    forall i
      ensures BelowAt(t, i, ledger, left)
    {
      assert BelowAt(d, i, ledger, tracked);
    }
  }

  lemma RemembersMore(d: Diary, nodes: seq<Detector.Rpc>, more: seq<Detector.Rpc>, isAddress: string -> bool)
    requires Remembers(d, nodes, isAddress) && nodes <= more
    ensures Remembers(d, more, isAddress)
  {
    if DetectorGuarantees.AllRestricted(more) {
      DetectorGuarantees.AllRestrictedPrefix(nodes, more);
    }
  }

  lemma RemembersNoted(d: Diary, e: Event, l: Look, nodes: seq<Detector.Rpc>, isAddress: string -> bool)
    requires Remembers(d, nodes, isAddress) && DetectorGuarantees.Careful(l.memory.learned, nodes, isAddress)
    ensures Remembers(Noted(d, e, l), nodes, isAddress)
  {
    if DetectorGuarantees.AllRestricted(nodes) {
      forall i
        ensures LearntAt(Noted(d, e, l), i, isAddress)
      {
        assert LearntAt(d, i, isAddress);
      }
    }
  }

  lemma RemembersCommanded(d: Diary, cmd: Control.Command, nodes: seq<Detector.Rpc>, isAddress: string -> bool)
    requires Remembers(d, nodes, isAddress)
    ensures Remembers(Commanded(d, cmd), nodes, isAddress)
  {
    if cmd.Reconcile? {
      RemembersNoted(d, Reset, IDLE, nodes, isAddress);
    } else if DetectorGuarantees.AllRestricted(nodes) {
      forall i
        ensures LearntAt(Commanded(d, cmd), i, isAddress)
      {
        assert LearntAt(d, i, isAddress);
      }
    }
  }

  /** A diary stays up to date while the loop moves on and the registry grows. */
  lemma StaysCurrent(d: Diary, sweep: Sweep, ledger: u32, tracked: set<Id>, later: u32, more: set<Id>)
    requires Current(d, sweep, ledger, tracked) && ledger <= later && tracked <= more
    ensures Current(d, sweep, later, more)
  {
    forall i
      ensures BelowAt(d, i, later, more)
    {
      assert BelowAt(d, i, ledger, tracked);
    }
  }

  lemma ToldMore(name: string, d: Diary, n: int, log: seq<Envelope>, more: seq<Envelope>)
    requires Told(name, d, n, log) && log <= more
    ensures Told(name, d, n, more)
  {
    forall i | 0 <= i < n
      ensures LookTold(name, d, i, more)
    {
      assert LookTold(name, d, i, log);
    }
  }

  lemma ToldNoted(name: string, d: Diary, e: Event, l: Look, log: seq<Envelope>)
    requires |d.looks| == |d.visits| && Told(name, d, |d.visits|, log)
    ensures Told(name, Noted(d, e, l), |d.visits|, log)
    ensures (l.states.Some? ==> forall c :: c in l.states.value ==> FromStateChange(name, c) in log) ==>
      Told(name, Noted(d, e, l), |d.visits| + 1, log)
  {
    var t := Noted(d, e, l);
    forall i | 0 <= i < |d.visits|
      ensures LookTold(name, t, i, log)
    {
      assert LookTold(name, d, i, log);
    }
    if l.states.Some? ==> forall c :: c in l.states.value ==> FromStateChange(name, c) in log {
      assert LookTold(name, t, |d.visits|, log);
    }
  }

  lemma ToldCommanded(name: string, d: Diary, cmd: Control.Command, log: seq<Envelope>)
    requires |d.looks| == |d.visits| && Told(name, d, |d.visits|, log)
    ensures Told(name, Commanded(d, cmd), |Commanded(d, cmd).visits|, log)
  {
    if cmd.Reconcile? {
      ToldNoted(name, d, Reset, IDLE, log);
    } else {
      forall i | 0 <= i < |d.visits|
        ensures LookTold(name, Commanded(d, cmd), i, log)
      {
        assert LookTold(name, d, i, log);
      }
    }
  }

  // ---- The journal of a running process ------------------------------------------------------------------

  /**
   The diary together with what it agrees with: the state of the sweep, the ledger and
   the registry, what the detector learned and from which nodes, and the deliveries in
   which all but the last few answers are.
   */
  datatype Record = Record(name: string, isAddress: string -> bool, diary: Diary, made: nat, sweep: Sweep,
                           ledger: u32, tracked: set<Id>, learned: Detector.Learned, nodes: seq<Detector.Rpc>,
                           heard: seq<Envelope>, missing: nat)

  ghost predicate Upright(r: Record) {
    && Filed(r.diary, r.isAddress) && Current(r.diary, r.sweep, r.ledger, r.tracked)
    && Remembers(r.diary, r.nodes, r.isAddress) && DetectorGuarantees.Careful(r.learned, r.nodes, r.isAddress)
    && Told(r.name, r.diary, |r.diary.visits| - r.missing, r.heard) && r.made == Made(r.diary.visits)
  }

  type Journal = r: Record | Upright(r)
    ghost witness Record("", id => false, BLANK, 0, FRESH, 0, {}, map[], [], [], 0)

  ghost function Opened(name: string, isAddress: string -> bool): Journal {
    Record(name, isAddress, BLANK, 0, FRESH, 0, {}, map[], [], [], 0)
  }

  /** The detector asked one more node. */
  ghost function AfterFetch(j: Journal, m: Detector.Memory, rpc: Detector.Rpc, q: Detector.Request): Journal
    requires m.learned == j.learned
  {
    DetectorGuarantees.FetchStaysCareful(m, rpc, j.isAddress, q, j.nodes);
    RemembersMore(j.diary, j.nodes, j.nodes + [rpc], j.isAddress);
    j.(learned := Detector.FetchOf(m, rpc, j.isAddress, q).memory.learned, nodes := j.nodes + [rpc])
  }

  /** A visit is entered; its answer, if there is one, is not delivered yet. */
  ghost function AfterVisit(j: Journal, e: Event, l: Look): Journal
    requires e.Visit? && j.missing == 0 && j.ledger <= e.ledger && j.tracked <= e.tracked
    requires Answers(j.sweep, e, l, j.isAddress)
    requires DetectorGuarantees.Careful(l.memory.learned, j.nodes, j.isAddress)
  {
    StaysCurrent(j.diary, j.sweep, j.ledger, j.tracked, e.ledger, e.tracked);
    NotesVisit(j.diary, j.sweep, e, l, j.isAddress);
    RemembersNoted(j.diary, e, l, j.nodes, j.isAddress);
    ToldNoted(j.name, j.diary, e, l, j.heard);
    OneMoreMade(j.diary.visits, e);
    j.(diary := Noted(j.diary, e, l), made := j.made + 1, ledger := e.ledger, tracked := e.tracked,
       sweep := NextOf(j.sweep, SortedIds(e.tracked), e.ledger, e.cost, BUDGET).sweep,
       missing := if l.states.Some? then 1 else 0)
  }

  /** The last visit's answer is delivered too. */
  ghost function AfterTelling(j: Journal, log: seq<Envelope>): Journal
    requires j.missing == 1 && |j.diary.looks| > 0 && Last(j.diary).states.Some? && j.heard <= log
    requires forall c :: c in Last(j.diary).states.value ==> FromStateChange(j.name, c) in log
  {
    ToldMore(j.name, j.diary, |j.diary.visits| - 1, j.heard, log);
    j.(heard := log, missing := 0)
  }

  /** A command was executed, whatever it asked of whom. */
  ghost function AfterCommand(j: Journal, cmd: Control.Command, m: Registry.Members, learned: Detector.Learned,
                              nodes: seq<Detector.Rpc>): Journal
    requires j.missing == 0 && j.tracked <= m.tracked && j.nodes <= nodes
    requires DetectorGuarantees.Careful(learned, nodes, j.isAddress)
  {
    StaysCurrent(j.diary, j.sweep, j.ledger, j.tracked, j.ledger, m.tracked);
    NotesCommand(j.diary, j.sweep, j.ledger, m, cmd, j.isAddress);
    ToldCommanded(j.name, j.diary, cmd, j.heard);
    RemembersMore(j.diary, j.nodes, nodes, j.isAddress);
    RemembersCommanded(j.diary, cmd, nodes, j.isAddress);
    OneMoreMade(j.diary.visits, Reset);
    j.(diary := Commanded(j.diary, cmd), sweep := if cmd.Reconcile? then FRESH else j.sweep,
       tracked := Control.Execute(m, cmd).members.tracked, learned := learned, nodes := nodes)
  }

  // ---- What a process's sweep puts on the wire -----------------------------------------------------------

  /** An envelope says that the escrow is there. */
  predicate IsUpdate(env: Envelope, name: string, id: Id) {
    env.kind == "state" && env.network == name && env.contractID == id && env.stateChange == "updated"
  }

  /** The current state of an escrow was published, whichever entry it was. */
  ghost predicate PublishedUpdate(name: string, log: seq<Envelope>, id: Id) {
    exists env :: env in log && IsUpdate(env, name, id)
  }

  lemma ReportedIsPublished(name: string, d: Diary, n: nat, log: seq<Envelope>, i: nat, isAddress: string -> bool,
                            id: Id)
    requires Genuine(d, isAddress) && Told(name, d, n, log) && i < n <= |d.visits|
    requires d.visits[i].Visit? && d.visits[i].ok && BatchAt(d.visits, i) != []
    requires Reports(d.looks[i].memory, d.looks[i].rpc, isAddress, d.looks[i].q, id)
    ensures PublishedUpdate(name, log, id)
  {
    var l := d.looks[i];
    assert EntryOk(d, i, isAddress) && LookTold(name, d, i, log);
    assert id in DetectorGuarantees.UpdatedIn(l.states.value);
    var c :| c in l.states.value && c.escrow == id && c.change == UPDATED;
    assert FromStateChange(name, c) in log && IsUpdate(FromStateChange(name, c), name, id);
  }

  /** The nodes that visits r up to n talked to were honest, whenever they answered, about these chains. */
  ghost predicate HonestVisits(d: Diary, r: nat, n: nat, chain: nat -> DetectorTheorems.Chain)
    requires r <= n <= |d.visits| == |d.looks|
  {
    forall i :: r <= i < n ==> DetectorTheorems.Honest(d.looks[i].rpc, chain(i))
  }

  lemma SteadyGrows(d: Diary)
    requires InOrder(d) && d.steady
    ensures Growing(d.visits)
  {
    forall i, j | 0 <= i < j < |d.visits| && d.visits[i].Visit? && d.visits[j].Visit?
      ensures d.visits[i].ledger <= d.visits[j].ledger && d.visits[i].tracked <= d.visits[j].tracked
    {
      assert Ordered(d, i, j);
    }
  }

  lemma VisitFetches(d: Diary, r: nat, n: nat, i: nat, isAddress: string -> bool, chain: nat -> DetectorTheorems.Chain)
    requires Genuine(d, isAddress) && Learnt(d, isAddress) && r <= i < n <= |d.visits| && d.visits[i].Visit?
    requires HonestVisits(d, r, n, chain)
    ensures var l := d.looks[i]; Fetching(d.visits, i, l.memory, l.rpc, isAddress, l.q, chain(i))
  {
    assert EntryOk(d, i, isAddress) && LearntAt(d, i, isAddress);
  }

  /**
   The first pass of a process's sweep, or the first after a reconcile: over a registry
   nobody is removed from, with its visits answered, it publishes the current state of
   every escrow tracked at its start that has any.
   */
  lemma FreshPassIsPublished(name: string, d: Diary, r: nat, n: nat, log: seq<Envelope>, isAddress: string -> bool,
                             nodes: seq<Detector.Rpc>, chain: nat -> DetectorTheorems.Chain, id: Id) returns (j: nat)
    requires Filed(d, isAddress) && d.steady && Told(name, d, n, log)
    requires Remembers(d, nodes, isAddress) && DetectorGuarantees.AllRestricted(nodes)
    requires WholePass(d.visits, r, n) && (r == 0 || d.visits[r - 1] == Reset)
    requires forall k :: r <= k < n ==> d.visits[k].Visit? && d.visits[k].ok
    requires HonestVisits(d, r, n, chain) && Facts.Known(d.visits[r].tracked, id) && isAddress(id)
    ensures r <= j < n && (DetectorTheorems.OnChain(chain(j), id) ==> PublishedUpdate(name, log, id))
  {
    SteadyGrows(d);
    FreshStarts(d.visits, r);
    j := FreshPassReachesEveryone(d.visits, r, n, id);
    if DetectorTheorems.OnChain(chain(j), id) {
      var l := d.looks[j];
      VisitFetches(d, r, n, j, isAddress, chain);
      assert EntryOk(d, j, isAddress);
      assert j == r || d.visits[r].tracked <= d.visits[j].tracked;
      BatchesAreDistinct(d.visits, j);
      DetectorGuarantees.UpdatedExactlyWhenChanged(l.memory, l.rpc, isAddress, l.q, chain(j), id);
      ReportedIsPublished(name, d, n, log, j, isAddress, id);
    }
  }

  /**
   A modification of an escrow the previous pass began with, after what that pass's
   reads could see, is published by the visit that reads it first.
   */
  lemma ModificationIsPublished(name: string, d: Diary, i: nat, log: seq<Envelope>, isAddress: string -> bool,
                                nodes: seq<Detector.Rpc>, chain: nat -> DetectorTheorems.Chain, id: Id,
                                tips: nat -> u32, modified: u32)
    requires Filed(d, isAddress) && d.steady && Told(name, d, i + 1, log)
    requires Remembers(d, nodes, isAddress) && DetectorGuarantees.AllRestricted(nodes)
    requires TurnAt(d.visits, i, id) && d.visits[i].ok && id in RunTo(d.visits, i + 1).prev
    requires forall j :: RunTo(d.visits, i + 1).prevFrom <= j < i && TurnAt(d.visits, j, id) ==>
      ReadAt(d.visits, j, id) && d.visits[j].ledger <= tips(j) < modified
    requires HonestVisits(d, i, i + 1, chain)
    requires Facts.Known(d.visits[i].tracked, id) && isAddress(id)
    requires ModifiedAt(d.looks[i].memory, d.looks[i].q, chain(i), id, modified)
    ensures PublishedUpdate(name, log, id)
  {
    SteadyGrows(d);
    var l := d.looks[i];
    VisitFetches(d, i, i + 1, i, isAddress, chain);
    assert EntryOk(d, i, isAddress);
    SweepPublishesEveryModification(d.visits, i, id, tips, modified, l.memory, l.rpc, isAddress, l.q, chain(i));
    ReportedIsPublished(name, d, i + 1, log, i, isAddress, id);
  }
}
