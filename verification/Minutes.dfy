/**
 What one process's loop did ledger by ledger besides its sweep: whether it deferred
 or fetched the states, what it asked and was told, and how it answered each command.
 */
module Minutes {
  import opened Base
  import opened Ids
  import opened Envelopes
  import Control
  import Detector
  import DetectorGuarantees
  import DetectorTheorems
  import Diary
  import Executor
  import Facts
  import Registry

  /**
   What was done about the states of a ledger's active escrows: with no look they were
   deferred, otherwise they and the ones deferred before were asked about and published.
   */
  datatype Decision = Decision(ledger: u32, closedAt: int, at: int, tracked: set<Id>, facts: seq<Facts.Fact>,
                               deferred: set<Id>, look: Option<Diary.Look>)

  /** A command that was executed and answered: when, over which registry, at which ledger, and what was published. */
  datatype Reply = Reply(cmd: Control.Command, at: int, before: Registry.Members, ledger: u32, closedAt: int,
                         memory: Detector.Memory, rpc: Detector.Rpc, changes: seq<StateChange>)

  /** The escrows waiting for a fetch once a decision was taken. */
  ghost function LeftBy(d: Decision): set<Id> {
    if d.look.None? then d.deferred + Facts.Active(d.facts) else {}
  }

  /** The escrows waiting for a fetch after some decisions. */
  ghost function Outstanding(ds: seq<Decision>): set<Id> {
    if |ds| == 0 then {} else LeftBy(ds[|ds| - 1])
  }

  /** One fetch of every active and every deferred escrow, over the whole of its age, that was answered. */
  ghost predicate Fetches(d: Decision, l: Diary.Look, isAddress: string -> bool) {
    && l.q == Detector.Request(d.tracked, l.q.ids, d.ledger, d.closedAt, 0)
    && Elements(l.q.ids) == d.deferred + Facts.Active(d.facts) && Distinct(l.q.ids)
    && l.states.Some? && l.states == Detector.FetchOf(l.memory, l.rpc, isAddress, l.q).changes
  }

  /** States are deferred exactly when the ledger closed more than twenty minutes ago. */
  ghost predicate DecisionOk(d: Decision, isAddress: string -> bool) {
    && (d.look.None? <==> d.at - d.closedAt > 1_200_000_000_000)
    && (d.look.Some? ==> Fetches(d, d.look.value, isAddress))
  }

  /** The changes are those of one fetch of whom the command asks about, or none if it asks or is told nothing. */
  ghost predicate ReplyOk(r: Reply, isAddress: string -> bool) {
    match Executor.QueryOf(r.before, r.cmd, r.ledger, r.closedAt)
    case None => r.changes == []
    case Some(q) =>
      var f := Detector.FetchOf(r.memory, r.rpc, isAddress, q);
      r.changes == if f.changes.None? then [] else f.changes.value
  }

  /** The sweep's turn at one ledger: when it came, whether the sweep was enabled, and whether it made a visit. */
  datatype Turn = Turn(ledger: u32, closedAt: int, at: int, enabled: bool, visited: bool)

  /** A visit is made exactly when the sweep is enabled and the ledger closed at most thirty seconds ago. */
  predicate TurnOk(t: Turn) {
    t.visited <==> t.enabled && t.at - t.closedAt <= 30_000_000_000
  }

  // ---- The book of a running process ----------------------------------------------------------------

  /**
   Every ledger's decision and turn of the sweep; every command taken from the queue and
   every reply; the pause they amount to, the visits made, the nodes met and what was delivered.
   */
  datatype Account = Account(name: string, isAddress: string -> bool, decisions: seq<Decision>, turns: seq<Turn>,
                             said: seq<Control.Command>, times: seq<int>, replies: seq<Reply>, pause: Option<int>,
                             made: nat, nodes: seq<Detector.Rpc>, heard: seq<Envelope>)

  /** Each decision takes up what the one before left. */
  ghost predicate Linked(ds: seq<Decision>) {
    forall i :: LinkedAt(ds, i)
  }

  ghost predicate LinkedAt(ds: seq<Decision>, i: int) {
    0 <= i < |ds| ==> ds[i].deferred == Outstanding(ds[..i])
  }

  /** The sweep has its turn at every ledger whose states were decided, but maybe the last one. */
  ghost predicate InTurn(ds: seq<Decision>, ts: seq<Turn>) {
    |ts| <= |ds| <= |ts| + 1 && forall i :: InTurnAt(ds, ts, i)
  }

  ghost predicate InTurnAt(ds: seq<Decision>, ts: seq<Turn>, i: int) {
    0 <= i < |ts| && i < |ds| ==>
      TurnOk(ts[i]) && ts[i].ledger == ds[i].ledger && ts[i].closedAt == ds[i].closedAt
  }

  /** Every command taken is answered, in order, but maybe the last one. */
  ghost predicate Answered(said: seq<Control.Command>, times: seq<int>, replies: seq<Reply>) {
    |replies| <= |said| == |times| <= |replies| + 1 && forall i :: AnsweredAt(said, times, replies, i)
  }

  ghost predicate AnsweredAt(said: seq<Control.Command>, times: seq<int>, replies: seq<Reply>, i: int) {
    0 <= i < |replies| && i < |said| && i < |times| ==> replies[i].cmd == said[i] && replies[i].at == times[i]
  }

  /** The commands with the times they were executed at. */
  function Timed(said: seq<Control.Command>, times: seq<int>): seq<(Control.Command, int)>
    requires |said| == |times|
  {
    seq(|said|, i requires 0 <= i < |said| => (said[i], times[i]))
  }

  lemma TimedOnceMore(paused: Option<int>, said: seq<Control.Command>, times: seq<int>, cmd: Control.Command, at: int)
    requires |said| == |times|
    ensures Executor.PausedFrom(paused, Timed(said + [cmd], times + [at])) ==
      Executor.PausedAfter(Executor.PausedFrom(paused, Timed(said, times)), cmd, at)
  {
    var more := Timed(said + [cmd], times + [at]);
    assert more[..|said|] == Timed(said, times) && more[|said|] == (cmd, at);
  }

  function VisitsIn(ts: seq<Turn>): nat {
    if |ts| == 0 then 0 else VisitsIn(ts[..|ts| - 1]) + if ts[|ts| - 1].visited then 1 else 0
  }

  ghost predicate Published(name: string, changes: seq<StateChange>, log: seq<Envelope>) {
    forall c :: c in changes ==> FromStateChange(name, c) in log
  }

  /** The facts of a ledger were delivered before its states were decided, and what was read was delivered then. */
  ghost predicate DecisionTold(name: string, d: Decision, log: seq<Envelope>) {
    && (forall f :: f in d.facts ==> FromEscrowEvent(name, f) in log)
    && (d.look.Some? && d.look.value.states.Some? ==> Published(name, d.look.value.states.value, log))
  }

  /** What a fetch remembered was as good as the nodes met by then. */
  ghost predicate DecisionCareful(d: Decision, nodes: seq<Detector.Rpc>, isAddress: string -> bool) {
    d.look.Some? ==> DetectorGuarantees.Careful(d.look.value.memory.learned, nodes, isAddress)
  }

  ghost predicate GoodDecision(a: Account, i: int) {
    0 <= i < |a.decisions| ==>
      var d := a.decisions[i];
      DecisionOk(d, a.isAddress) && DecisionTold(a.name, d, a.heard) && DecisionCareful(d, a.nodes, a.isAddress)
  }

  ghost predicate GoodReply(a: Account, i: int) {
    0 <= i < |a.replies| ==>
      var r := a.replies[i];
      && ReplyOk(r, a.isAddress) && Published(a.name, r.changes, a.heard)
      && DetectorGuarantees.Careful(r.memory.learned, a.nodes, a.isAddress)
  }

  ghost predicate Upright(a: Account) {
    && Linked(a.decisions) && InTurn(a.decisions, a.turns) && Answered(a.said, a.times, a.replies)
    && a.pause == Executor.PausedFrom(None, Timed(a.said, a.times)) && a.made == VisitsIn(a.turns)
    && (forall i :: GoodDecision(a, i)) && (forall i :: GoodReply(a, i))
  }

  type Book = a: Account | Upright(a)
    ghost witness Account("", id => false, [], [], [], [], [], None, 0, [], [])

  /** Everything noted of one process: its sweep's journal and its book. */
  datatype Notes = Notes(journal: Diary.Journal, book: Book)

  ghost function Opened(name: string, isAddress: string -> bool): Notes {
    Notes(Diary.Opened(name, isAddress), Empty(name, isAddress))
  }

  ghost function Empty(name: string, isAddress: string -> bool): Book {
    Account(name, isAddress, [], [], [], [], [], None, 0, [], [])
  }

  lemma StillCareful(learned: Detector.Learned, nodes: seq<Detector.Rpc>, more: seq<Detector.Rpc>,
                     isAddress: string -> bool)
    requires DetectorGuarantees.Careful(learned, nodes, isAddress) && nodes <= more
    ensures DetectorGuarantees.Careful(learned, more, isAddress)
  {
    if DetectorGuarantees.AllRestricted(more) {
      DetectorGuarantees.AllRestrictedPrefix(nodes, more);
    }
  }

  /** One account grew out of the other. */
  ghost predicate Grown(a: Account, b: Account) {
    && a.name == b.name && a.isAddress == b.isAddress && a.nodes <= b.nodes && a.heard <= b.heard
    && a.decisions <= b.decisions && a.replies <= b.replies
  }

  /** Entries stay good when others are added, more nodes were met and more was delivered. */
  lemma DecisionStaysGood(a: Account, b: Account, i: int)
    requires Grown(a, b) && GoodDecision(a, i) && i < |a.decisions|
    ensures GoodDecision(b, i)
  {
    if 0 <= i && a.decisions[i].look.Some? {
      StillCareful(a.decisions[i].look.value.memory.learned, a.nodes, b.nodes, a.isAddress);
    }
  }

  lemma ReplyStaysGood(a: Account, b: Account, i: int)
    requires Grown(a, b) && GoodReply(a, i) && i < |a.replies|
    ensures GoodReply(b, i)
  {
    if 0 <= i {
      StillCareful(a.replies[i].memory.learned, a.nodes, b.nodes, a.isAddress);
    }
  }

  lemma AllStayGood(b: Book, a: Account)
    requires Grown(b, a)
    ensures forall i :: i < |b.decisions| ==> GoodDecision(a, i)
    ensures forall i :: i < |b.replies| ==> GoodReply(a, i)
  {
    forall i | i < |b.decisions|
      ensures GoodDecision(a, i)
    {
      assert GoodDecision(b, i);
      DecisionStaysGood(b, a, i);
    }
    forall i | i < |b.replies|
      ensures GoodReply(a, i)
    {
      assert GoodReply(b, i);
      ReplyStaysGood(b, a, i);
    }
  }

  /** A decision is entered, with its deliveries made. */
  ghost function AfterDecision(b: Book, d: Decision, nodes: seq<Detector.Rpc>, heard: seq<Envelope>): Book
    requires b.nodes <= nodes && b.heard <= heard && |b.turns| == |b.decisions|
    requires d.deferred == Outstanding(b.decisions) && DecisionOk(d, b.isAddress)
    requires DecisionTold(b.name, d, heard) && DecisionCareful(d, nodes, b.isAddress)
  {
    var a := b.(decisions := b.decisions + [d], nodes := nodes, heard := heard);
    DecisionIsUpright(b, d, a);
    a
  }

  lemma DecisionIsUpright(b: Book, d: Decision, a: Account)
    requires b.nodes <= a.nodes && b.heard <= a.heard && |b.turns| == |b.decisions|
    requires a == b.(decisions := b.decisions + [d], nodes := a.nodes, heard := a.heard)
    requires d.deferred == Outstanding(b.decisions) && DecisionOk(d, b.isAddress)
    requires DecisionTold(b.name, d, a.heard) && DecisionCareful(d, a.nodes, b.isAddress)
    ensures Upright(a)
  {
    AllStayGood(b, a);
    LinkedOnceMore(b.decisions, d);
    forall i
      ensures InTurnAt(a.decisions, a.turns, i)
    {
      assert InTurnAt(b.decisions, b.turns, i);
    }
    assert a.decisions[|b.decisions|] == d;
    assert GoodDecision(a, |b.decisions|);
  }

  lemma LinkedOnceMore(ds: seq<Decision>, d: Decision)
    requires Linked(ds) && d.deferred == Outstanding(ds)
    ensures Linked(ds + [d])
  {
    assert (ds + [d])[..|ds|] == ds;
    forall i
      ensures LinkedAt(ds + [d], i)
    {
      assert LinkedAt(ds, i);
      if 0 <= i < |ds| {
        assert (ds + [d])[..i] == ds[..i];
      }
    }
  }

  /** The sweep had its turn. */
  ghost function AfterTurn(b: Book, t: Turn): Book
    requires |b.decisions| == |b.turns| + 1 && TurnOk(t)
    requires t.ledger == b.decisions[|b.turns|].ledger && t.closedAt == b.decisions[|b.turns|].closedAt
  {
    var a := b.(turns := b.turns + [t], made := b.made + if t.visited then 1 else 0);
    TurnIsUpright(b, t, a);
    a
  }

  lemma TurnIsUpright(b: Book, t: Turn, a: Account)
    requires |b.decisions| == |b.turns| + 1 && TurnOk(t)
    requires t.ledger == b.decisions[|b.turns|].ledger && t.closedAt == b.decisions[|b.turns|].closedAt
    requires a == b.(turns := b.turns + [t], made := b.made + if t.visited then 1 else 0)
    ensures Upright(a)
  {
    AllStayGood(b, a);
    assert (b.turns + [t])[..|b.turns|] == b.turns;
    forall i
      ensures InTurnAt(a.decisions, a.turns, i)
    {
      assert InTurnAt(b.decisions, b.turns, i);
    }
  }

  /** A command was taken from the queue and executed. */
  ghost function AfterCommand(b: Book, cmd: Control.Command, at: int): (a: Book)
    requires |b.said| == |b.replies|
    ensures a.replies == b.replies && a.said == b.said + [cmd] && a.times == b.times + [at]
    ensures a.(said := b.said, times := b.times, pause := b.pause) == b
    ensures a.pause == Executor.PausedAfter(b.pause, cmd, at)
  {
    var a := b.(said := b.said + [cmd], times := b.times + [at], pause := Executor.PausedAfter(b.pause, cmd, at));
    CommandIsUpright(b, cmd, at, a);
    a
  }

  lemma CommandIsUpright(b: Book, cmd: Control.Command, at: int, a: Account)
    requires |b.said| == |b.replies|
    requires a == b.(said := b.said + [cmd], times := b.times + [at],
                     pause := Executor.PausedAfter(b.pause, cmd, at))
    ensures Upright(a)
  {
    AllStayGood(b, a);
    TimedOnceMore(None, b.said, b.times, cmd, at);
    forall i
      ensures AnsweredAt(a.said, a.times, a.replies, i)
    {
      assert AnsweredAt(b.said, b.times, b.replies, i);
    }
  }

  /** The command taken last is answered. */
  ghost function AfterReply(b: Book, r: Reply, nodes: seq<Detector.Rpc>, heard: seq<Envelope>): Book
    requires b.nodes <= nodes && b.heard <= heard && |b.said| == |b.replies| + 1
    requires r.cmd == b.said[|b.replies|] && r.at == b.times[|b.replies|]
    requires ReplyOk(r, b.isAddress) && Published(b.name, r.changes, heard)
    requires DetectorGuarantees.Careful(r.memory.learned, nodes, b.isAddress)
  {
    var a := b.(replies := b.replies + [r], nodes := nodes, heard := heard);
    ReplyIsUpright(b, r, a);
    a
  }

  lemma ReplyIsUpright(b: Book, r: Reply, a: Account)
    requires b.nodes <= a.nodes && b.heard <= a.heard && |b.said| == |b.replies| + 1
    requires r.cmd == b.said[|b.replies|] && r.at == b.times[|b.replies|]
    requires a == b.(replies := b.replies + [r], nodes := a.nodes, heard := a.heard)
    requires GoodReply(a, |b.replies|)
    ensures Upright(a)
  {
    AllStayGood(b, a);
    forall i
      ensures AnsweredAt(a.said, a.times, a.replies, i)
    {
      assert AnsweredAt(b.said, b.times, b.replies, i);
    }
  }

  // ---- What the loop's passages add to it -------------------------------------------------------------

  /** One more decision, about this ledger and these facts. */
  ghost predicate Decided(b: Account, c: Account, ledger: u32, closedAt: int, at: int, facts: seq<Facts.Fact>,
                          tracked: set<Id>, catchingUp: bool) {
    && |c.decisions| == |b.decisions| + 1
    && c.turns == b.turns && c.said == b.said && c.replies == b.replies && c.pause == b.pause
    && var d := c.decisions[|b.decisions|];
       && d.ledger == ledger && d.closedAt == closedAt && d.at == at && d.facts == facts && d.tracked == tracked
       && d.look.None? == catchingUp
  }

  /** The states of this ledger are decided, and the sweep has not had its turn. */
  predicate Due(b: Account, ledger: u32, closedAt: int) {
    && |b.decisions| == |b.turns| + 1
    && b.decisions[|b.turns|].ledger == ledger && b.decisions[|b.turns|].closedAt == closedAt
  }

  /** The sweep had its turn, and made one visit if it was due and none otherwise. */
  ghost predicate TookTurn(n: Notes, k: Notes, due: bool) {
    && |k.book.turns| == |n.book.turns| + 1 && k.journal.made == n.journal.made + (if due then 1 else 0)
    && k.book.decisions == n.book.decisions && k.book.said == n.book.said && k.book.replies == n.book.replies
    && k.book.pause == n.book.pause
  }

  /** A ledger was delivered: decided, then swept, unless it was not delivered to the end. */
  ghost predicate Ledgered(b: Account, c: Account, ok: bool) {
    && c.said == b.said && c.replies == b.replies && |b.turns| <= |c.turns| <= |b.turns| + 1
    && (ok ==> |c.decisions| == |c.turns| == |b.turns| + 1)
  }

  /** One more command was taken; its reply, if there is one, says over which registry and at which ledger. */
  ghost predicate Took(b: Account, c: Account, m: Registry.Members, cmd: Control.Command, at: int, answered: bool,
                       ledger: u32, closedAt: int) {
    && c.said == b.said + [cmd] && c.decisions == b.decisions && c.turns == b.turns
    && c.pause == Executor.PausedAfter(b.pause, cmd, at)
    && |c.replies| == |b.replies| + (if answered then 1 else 0)
    && (answered ==>
          var r := c.replies[|b.replies|]; r.at == at && r.before == m && r.ledger == ledger && r.closedAt == closedAt)
  }

  /** Exactly these commands were taken. */
  ghost predicate TookAll(b: Account, c: Account, cmds: seq<Control.Command>) {
    c.said == b.said + cmds && c.decisions == b.decisions && c.turns == b.turns
  }

  lemma Next(cmds: seq<Control.Command>, i: nat)
    requires i < |cmds|
    ensures cmds[..i + 1] == cmds[..i] + [cmds[i]]
  {
  }

  lemma TookNone(b: Account)
    ensures TookAll(b, b, [])
  {
  }

  lemma TookOneMore(a: Account, b: Account, c: Account, m: Registry.Members, cmds: seq<Control.Command>,
                    cmd: Control.Command)
    requires TookAll(a, b, cmds)
    requires c.said == b.said + [cmd] && c.decisions == b.decisions && c.turns == b.turns
    ensures TookAll(a, c, cmds + [cmd])
    ensures var init := Control.ExecuteAll(m, cmds); var last := Control.Execute(init.members, cmd);
      Control.ExecuteAll(m, cmds + [cmd]) == Control.Executed(last.members, init.mutated || last.mutated)
  {
    assert (cmds + [cmd])[..|cmds|] == cmds;
    assert a.said + cmds + [cmd] == a.said + (cmds + [cmd]);
  }

  /** First the queue and then what came in while the loop held. */
  lemma TookBoth(a: Account, b: Account, c: Account, queue: seq<Control.Command>,
                 arrivals: seq<Option<Control.Command>>, polls: nat, more: nat, all: bool)
    requires polls <= |arrivals| && more <= |Sent(arrivals[..polls])|
    requires TookAll(a, b, queue) && TookAll(b, c, Sent(arrivals[..polls])[..more])
    requires all ==> TookAll(b, c, Sent(arrivals[..polls]))
    ensures var said := Said(queue, arrivals, polls);
      && |said| == |queue| + |Sent(arrivals[..polls])| && TookAll(a, c, said[..|queue| + more])
      && (all ==> TookAll(a, c, said[..|said|]))
  {
    var said, sent := Said(queue, arrivals, polls), Sent(arrivals[..polls]);
    assert said == queue + sent;
    assert said[..|queue| + more] == queue + sent[..more];
    assert said[..|said|] == queue + sent;
    assert a.said + (queue + sent[..more]) == a.said + queue + sent[..more];
    assert a.said + (queue + sent) == a.said + queue + sent;
  }

  lemma SentOneMore(arrivals: seq<Option<Control.Command>>, i: nat)
    requires i < |arrivals|
    ensures Sent(arrivals[..i + 1]) == Sent(arrivals[..i]) + if arrivals[i].Some? then [arrivals[i].value] else []
    ensures Sent(arrivals[..i + 1])[..|Sent(arrivals[..i + 1])|] == Sent(arrivals[..i + 1])
    ensures Sent(arrivals[..i])[..|Sent(arrivals[..i])|] == Sent(arrivals[..i])
  {
    assert arrivals[..i + 1][..i] == arrivals[..i];
  }

  // ---- What reaches the wire --------------------------------------------------------------------------

  ghost predicate AllIn(some: seq<Envelope>, log: seq<Envelope>) {
    forall env :: env in some ==> env in log
  }

  /** The envelope says what this chain holds of the escrow, at that ledger: one of its entries, or its removal. */
  ghost predicate Shows(env: Envelope, name: string, chain: DetectorTheorems.Chain, id: Id, ledger: u32,
                        closedAt: int) {
    && env.kind == "state" && env.network == name && env.contractID == id
    && env.ledgerSeq == ledger && env.closedAt == closedAt
    && if DetectorTheorems.OnChain(chain, id)
       then env.stateChange == "updated" && exists s :: HoldsRaw(chain, id, s, env.raw)
       else env.stateChange == "removed" && env.raw == ""
  }

  predicate HoldsRaw(chain: DetectorTheorems.Chain, id: Id, s: Detector.Shape, raw: string) {
    Detector.Candidate(id, s) in chain && chain[Detector.Candidate(id, s)].raw == raw
  }

  ghost predicate ShownAsItIs(name: string, log: seq<Envelope>, chain: DetectorTheorems.Chain, id: Id, ledger: u32,
                              closedAt: int) {
    exists env :: env in log && Shows(env, name, chain, id, ledger, closedAt)
  }

  /** The fetch says what it found of the escrow: it has an entry, or the guard lets its removal pass. */
  ghost predicate Believed(isAddress: string -> bool, q: Detector.Request, chain: DetectorTheorems.Chain, id: Id) {
    DetectorTheorems.OnChain(chain, id) || !DetectorTheorems.Suppressed(isAddress, q, chain)
  }

  /** An unfiltered fetch from an honest node about distinct ids, once published, shows each as it is. */
  lemma FetchShows(name: string, l: Diary.Look, isAddress: string -> bool, log: seq<Envelope>,
                   chain: DetectorTheorems.Chain, id: Id)
    requires DetectorTheorems.LearnedOk(l.memory.learned, isAddress) && DetectorTheorems.Honest(l.rpc, chain)
    requires Distinct(l.q.ids) && l.q.since == 0
    requires l.states.Some? && l.states == Detector.FetchOf(l.memory, l.rpc, isAddress, l.q).changes
    requires Published(name, l.states.value, log)
    requires id in l.q.ids && isAddress(id) && Facts.Known(l.q.tracked, id)
    ensures Believed(isAddress, l.q, chain, id) ==>
      ShownAsItIs(name, log, chain, id, l.q.ledger, l.q.closedAt)
  {
    DetectorTheorems.HonestFetch(l.memory, l.rpc, isAddress, l.q, chain);
    var out := l.states.value;
    assert DetectorTheorems.Served(out, l.memory.learned, isAddress, l.q, chain, id);
    if DetectorTheorems.OnChain(chain, id) {
      var k :| DetectorTheorems.Resolves(l.memory.learned, l.q.tracked, chain, id, k) &&
        DetectorTheorems.Settled(out, l.q, chain, id, k);
      assert DetectorTheorems.Current(chain, k, l.q.ledger, l.q.closedAt) in out;
      assert k == Detector.Candidate(id, k.shape) && HoldsRaw(chain, id, k.shape, chain[k].raw);
      var env := FromStateChange(name, DetectorTheorems.Current(chain, k, l.q.ledger, l.q.closedAt));
      assert Shows(env, name, chain, id, l.q.ledger, l.q.closedAt);
    } else if Believed(isAddress, l.q, chain, id) {
      var env := FromStateChange(name, Detector.Removal(id, l.q.ledger, l.q.closedAt));
      assert Shows(env, name, chain, id, l.q.ledger, l.q.closedAt);
    }
  }

  /** The node asked was honest about this chain, and the escrow tracked, an address, and believed. */
  ghost predicate Heard(d: Decision, isAddress: string -> bool, chain: DetectorTheorems.Chain, id: Id)
    requires d.look.Some?
  {
    && DetectorTheorems.Honest(d.look.value.rpc, chain) && isAddress(id) && Facts.Known(d.tracked, id)
    && Believed(isAddress, d.look.value.q, chain, id)
  }

  /** The first decision from i on that fetches, if there is one. */
  lemma {:induction false} FirstFetch(ds: seq<Decision>, i: nat, id: Id) returns (j: nat)
    requires Linked(ds) && i < |ds| && id in ds[i].deferred + Facts.Active(ds[i].facts)
    ensures i <= j <= |ds| && forall k :: i <= k < j ==> ds[k].look.None?
    ensures j < |ds| ==> ds[j].look.Some? && id in ds[j].deferred + Facts.Active(ds[j].facts)
    ensures j == |ds| ==> id in Outstanding(ds)
    decreases |ds| - i
  {
    if ds[i].look.Some? {
      j := i;
    } else if i + 1 == |ds| {
      j := |ds|;
    } else {
      assert ds[..i + 1][i] == ds[i] && LinkedAt(ds, i + 1);
      assert ds[i + 1].deferred == Outstanding(ds[..i + 1]) == LeftBy(ds[i]);
      j := FirstFetch(ds, i + 1, id);
    }
  }

  /**
   Every escrow active at a ledger, or deferred until then, is still waiting at the end, no ledger from
   that one on having been at the tip, or else it was asked about at the first of them that was;
   and if the node asked then was honest, and the escrow tracked, what the node's chain held of it
   is on the wire, stamped with that ledger.
   */
  lemma ActivityIsPublished(b: Book, log: seq<Envelope>, i: nat, id: Id,
                            chain: DetectorTheorems.Chain) returns (j: nat)
    requires AllIn(b.heard, log) && DetectorGuarantees.AllRestricted(b.nodes)
    requires i < |b.decisions| && id in b.decisions[i].deferred + Facts.Active(b.decisions[i].facts)
    ensures i <= j <= |b.decisions|
    ensures forall k :: i <= k < j ==> b.decisions[k].at - b.decisions[k].closedAt > 1_200_000_000_000
    ensures j == |b.decisions| ==> id in Outstanding(b.decisions)
    ensures j < |b.decisions| ==>
      var d := b.decisions[j];
      && d.at - d.closedAt <= 1_200_000_000_000 && d.look.Some? && id in d.look.value.q.ids
      && (Heard(d, b.isAddress, chain, id) ==> ShownAsItIs(b.name, log, chain, id, d.ledger, d.closedAt))
  {
    j := FirstFetch(b.decisions, i, id);
    forall k | i <= k < j
      ensures b.decisions[k].at - b.decisions[k].closedAt > 1_200_000_000_000
    {
      assert GoodDecision(b, k);
    }
    if j < |b.decisions| {
      DecisionShows(b, log, j, id, chain);
    }
  }

  lemma DecisionShows(b: Book, log: seq<Envelope>, j: nat, id: Id, chain: DetectorTheorems.Chain)
    requires AllIn(b.heard, log) && DetectorGuarantees.AllRestricted(b.nodes) && j < |b.decisions|
    requires var d := b.decisions[j]; d.look.Some? && id in d.deferred + Facts.Active(d.facts)
    ensures var d := b.decisions[j];
      && d.at - d.closedAt <= 1_200_000_000_000 && id in d.look.value.q.ids
      && (Heard(d, b.isAddress, chain, id) ==> ShownAsItIs(b.name, log, chain, id, d.ledger, d.closedAt))
  {
    assert GoodDecision(b, j);
    var d := b.decisions[j];
    assert id in Elements(d.look.value.q.ids);
    if Heard(d, b.isAddress, chain, id) {
      FetchShows(b.name, d.look.value, b.isAddress, log, chain, id);
    }
  }

  /**
   A command that asks about an escrow, tracking or refreshing it or reseeding it in a list without
   repetitions, publishes what the chain holds of it, if the node is honest and answers at all.
   */
  lemma CommandIsPublished(b: Book, log: seq<Envelope>, k: nat, r: Reply, id: Id, chain: DetectorTheorems.Chain)
    requires AllIn(b.heard, log) && DetectorGuarantees.AllRestricted(b.nodes)
    requires k < |b.replies| && r == b.replies[k] && r.ledger != 0 && id != "" && b.isAddress(id)
    requires match b.said[k]
             case TrackEscrow(x) => id == x
             case RefreshEscrow(x) => id == x && id in r.before.tracked
             case Reseed(ids) =>
               && id in ids && (id in r.before.tracked || id !in r.before.removed)
               && Distinct(Control.Queried(r.before, r.cmd))
             case _ => false
    requires DetectorTheorems.Honest(r.rpc, chain) && DetectorTheorems.Reliable(r.rpc)
    requires DetectorTheorems.OnChain(chain, id)
    ensures ShownAsItIs(b.name, log, chain, id, r.ledger, r.closedAt)
  {
    assert GoodReply(b, k) && AnsweredAt(b.said, b.times, b.replies, k);
    Control.QueriedIff(r.before, r.cmd, id);
    Control.QueriesAreTracked(r.before, r.cmd, id);
    var q := Executor.QueryOf(r.before, r.cmd, r.ledger, r.closedAt).value;
    DetectorTheorems.ReliableFetch(r.memory, r.rpc, b.isAddress, q);
    FetchShows(b.name, Diary.Look(r.memory, r.rpc, q, Some(r.changes)), b.isAddress, log, chain, id);
  }

  // ---- What was commanded --------------------------------------------------------------------------------

  /** The commands that came in at some looks at the queue. */
  function Sent(arrivals: seq<Option<Control.Command>>): seq<Control.Command> {
    if |arrivals| == 0 then []
    else
      var init := Sent(arrivals[..|arrivals| - 1]);
      var last := arrivals[|arrivals| - 1];
      if last.None? then init else init + [last.value]
  }

  /** All commands one ledger's control plane takes: the whole queue, and what comes in at the polls of a hold. */
  function Said(queue: seq<Control.Command>, arrivals: seq<Option<Control.Command>>,
                polls: nat): seq<Control.Command> {
    queue + Sent(if polls <= |arrivals| then arrivals[..polls] else arrivals)
  }

  /** The control plane had its moment at this loop head, and looked at the queue so often while it held. */
  datatype Hearing = Hearing(head: nat, polls: nat)

  ghost function AllSaid(queues: nat -> seq<Control.Command>, arrivals: nat -> seq<Option<Control.Command>>,
                         hs: seq<Hearing>): seq<Control.Command> {
    if |hs| == 0 then []
    else
      var h := hs[|hs| - 1];
      AllSaid(queues, arrivals, hs[..|hs| - 1]) + Said(queues(h.head), arrivals(h.head), h.polls)
  }

  ghost predicate Ascending(hs: seq<Hearing>, head: nat) {
    (forall h :: h in hs ==> h.head < head) && forall i, j :: 0 <= i < j < |hs| ==> hs[i].head < hs[j].head
  }

  /** At a loop head: one hearing for each ledger, its commands all taken and answered, the sweep's turn over. */
  ghost predicate Even(queues: nat -> seq<Control.Command>, arrivals: nat -> seq<Option<Control.Command>>,
                       hs: seq<Hearing>, head: nat, b: Account) {
    && Ascending(hs, head) && b.said == AllSaid(queues, arrivals, hs)
    && |hs| == |b.decisions| == |b.turns| && |b.said| == |b.replies|
  }

  /**
   However a process ended, of all the commands that came to it, ledger by ledger, it took the first ones,
   in order, and missed none before the ledger it ended at.
   */
  ghost predicate Attended(queues: nat -> seq<Control.Command>, arrivals: nat -> seq<Option<Control.Command>>,
                           hs: seq<Hearing>, b: Account) {
    && (forall i, j :: 0 <= i < j < |hs| ==> hs[i].head < hs[j].head) && |hs| <= |b.turns| <= |hs| + 1
    && b.said <= AllSaid(queues, arrivals, hs)
    && (|hs| > 0 ==> AllSaid(queues, arrivals, hs[..|hs| - 1]) <= b.said)
  }

  lemma HeardOneMore(queues: nat -> seq<Control.Command>, arrivals: nat -> seq<Option<Control.Command>>,
                     hs: seq<Hearing>, head: nat, polls: nat, was: Account, b: Account, taken: nat)
    requires Even(queues, arrivals, hs, head, was)
    requires |b.decisions| == |b.turns| == |was.turns| + 1
    requires taken <= |Said(queues(head), arrivals(head), polls)|
    requires b.said == was.said + Said(queues(head), arrivals(head), polls)[..taken]
    ensures Attended(queues, arrivals, hs + [Hearing(head, polls)], b)
    ensures taken == |Said(queues(head), arrivals(head), polls)| && |b.said| == |b.replies| ==>
      Even(queues, arrivals, hs + [Hearing(head, polls)], head + 1, b)
  {
    var h := Hearing(head, polls);
    assert (hs + [h])[..|hs|] == hs;
    var said := Said(queues(head), arrivals(head), polls);
    assert AllSaid(queues, arrivals, hs + [h]) == was.said + said;
    assert said[..|said|] == said;
  }

  lemma EvenIsAttended(queues: nat -> seq<Control.Command>, arrivals: nat -> seq<Option<Control.Command>>,
                       hs: seq<Hearing>, head: nat, was: Account, b: Account)
    requires Even(queues, arrivals, hs, head, was) && b.said == was.said
    requires |was.turns| <= |b.turns| <= |was.turns| + 1
    ensures Attended(queues, arrivals, hs, b)
  {
    if |hs| > 0 {
      assert AllSaid(queues, arrivals, hs[..|hs| - 1]) <= AllSaid(queues, arrivals, hs);
    }
  }

  /** What was taken of the queue is the beginning of what was said. */
  lemma SaidFirst(queue: seq<Control.Command>, arrivals: seq<Option<Control.Command>>, polls: nat, taken: nat)
    requires taken <= |queue|
    ensures taken <= |Said(queue, arrivals, polls)| && Said(queue, arrivals, polls)[..taken] == queue[..taken]
  {
  }

  /** What a turn of the loop adds: nothing, or a ledger's decision and sweep turn and the first of its commands. */
  ghost predicate Progress(was: Account, now: Account, said: seq<Control.Command>, ok: bool, heard: bool, taken: nat) {
    && |was.turns| <= |now.turns| <= |was.turns| + 1
    && (if heard then
          && |now.decisions| == |now.turns| == |was.turns| + 1
          && taken <= |said| && now.said == was.said + said[..taken] && (ok ==> taken == |said|)
        else now.said == was.said)
    && (ok ==> |now.said| == |now.replies|)
    && (ok && !heard ==> |now.decisions| == |now.turns| == |was.turns|)
  }

  /** The hearings after one more loop head. */
  lemma AfterHead(queues: nat -> seq<Control.Command>, arrivals: nat -> seq<Option<Control.Command>>,
                  hs: seq<Hearing>, head: nat, was: Account, now: Account, ok: bool, heard: bool, polls: nat,
                  taken: nat)
      returns (more: seq<Hearing>)
    requires Even(queues, arrivals, hs, head, was)
    requires Progress(was, now, Said(queues(head), arrivals(head), polls), ok, heard, taken)
    ensures Attended(queues, arrivals, more, now)
    ensures ok ==> Even(queues, arrivals, more, head + 1, now)
  {
    if heard {
      more := hs + [Hearing(head, polls)];
      HeardOneMore(queues, arrivals, hs, head, polls, was, now, taken);
    } else {
      more := hs;
      EvenIsAttended(queues, arrivals, hs, head, was, now);
    }
  }
}
