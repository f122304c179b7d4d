/**
 One ledger's transactions turned into facts: discovery registers approved
 contract instances over the whole ledger, then detection forwards the events
 that concern a tracked escrow.
 */
module Facts {
  import opened Base
  import opened Ids
  import opened Registry

  // ---- The chain data a ledger carries ---------------------------------------------------

  datatype Executable = Wasm(hash: string) | StellarAsset

  datatype EntryData =
    | OtherEntry
    | ContractData(contract: Option<Id>, instanceKey: bool, instance: Option<Executable>)

  /** A ledger-entry change; post is None when the entry was removed. */
  datatype Change = Change(contractData: bool, post: Option<EntryData>)

  datatype Topic = Sym(name: string) | Addr(address: string) | OtherTopic

  /** A contract event; topics is None for a body the decoder does not know. */
  datatype Event = Event(emitter: Option<Id>, topics: Option<seq<Topic>>, raw: string)

  /** One transaction; None where the SDK fails to decode its changes or an operation's events. */
  datatype Tx = Tx(successful: bool, hash: string, index: u32,
                   changes: Option<seq<Change>>, ops: seq<Option<seq<Event>>>)

  datatype FactKind = EscrowEvent | Deposit

  datatype Fact = Fact(kind: FactKind, escrow: Id, eventKind: string, eventIndex: u32,
                       txHash: string, txIndex: u32, ledger: u32, closedAt: int, raw: string)

  // ---- Pass 1: discovery --------------------------------------------------------------------

  /** The contract and code hash of a present Wasm contract instance. */
  function InstanceFromChange(ch: Change): Option<(Id, string)> {
    if !ch.contractData || ch.post.None? then None
    else
      match ch.post.value
      case OtherEntry => None
      case ContractData(contract, instanceKey, instance) =>
        if !instanceKey || instance.None? || instance.value.StellarAsset? then None
        else if contract.None? || contract.value == "" then None
        else Some((contract.value, instance.value.hash))
  }

  /** The approved contract a change deploys, updates or restores, if any. */
  function DeployedBy(ch: Change, approved: set<string>): set<Id> {
    var found := InstanceFromChange(ch);
    if found.Some? && found.value.1 in approved then {found.value.0} else {}
  }

  function Deployed(changes: seq<Change>, approved: set<string>): set<Id>
    decreases |changes|
  {
    if |changes| == 0 then {}
    else Deployed(changes[..|changes| - 1], approved) + DeployedBy(changes[|changes| - 1], approved)
  }

  /** What discovery makes of a registry: every deployed contract that carries no tombstone is tracked. */
  function Discovered(m: Members, txs: seq<Tx>, approved: set<string>): Option<Members>
    decreases |txs|
  {
    if |txs| == 0 then Some(m)
    else if !txs[0].successful then Discovered(m, txs[1..], approved)
    else if txs[0].changes.None? then None
    else
      var found := Deployed(txs[0].changes.value, approved) - m.removed;
      Discovered(m.(tracked := m.tracked + found), txs[1..], approved)
  }

  // ---- Pass 2: detection ----------------------------------------------------------------------

  predicate Known(tracked: set<Id>, id: Id) {
    id != "" && id in tracked
  }

  function FirstSymbol(ev: Event): Option<string> {
    if ev.topics.None? || |ev.topics.value| == 0 || !ev.topics.value[0].Sym? then None
    else Some(ev.topics.value[0].name)
  }

  /** The recipient of a well-formed transfer: three topics, an address sender, an address recipient. */
  function TransferTo(ev: Event): Option<Id> {
    if FirstSymbol(ev) != Some("transfer") || |ev.topics.value| < 3 then None
    else if !ev.topics.value[1].Addr? || ev.topics.value[1].address == "" then None
    else if !ev.topics.value[2].Addr? || ev.topics.value[2].address == "" then None
    else Some(ev.topics.value[2].address)
  }

  /** Kind, escrow and event kind of an event of interest. */
  function Classify(ev: Event, tracked: set<Id>): Option<(FactKind, Id, string)> {
    if ev.emitter.Some? && Known(tracked, ev.emitter.value) then
      Some((EscrowEvent, ev.emitter.value, if FirstSymbol(ev).Some? then FirstSymbol(ev).value else ""))
    else if TransferTo(ev).Some? && Known(tracked, TransferTo(ev).value) then
      Some((Deposit, TransferTo(ev).value, "token_transfer"))
    else None
  }

  /** A transaction's events over all its operations, in order; None when one cannot be decoded. */
  function Flatten(ops: seq<Option<seq<Event>>>): Option<seq<Event>>
    decreases |ops|
  {
    if |ops| == 0 then Some([])
    else if ops[|ops| - 1].None? then None
    else
      var init := Flatten(ops[..|ops| - 1]);
      if init.None? then None else Some(init.value + ops[|ops| - 1].value)
  }

  /** The running uint32 event counter after n events. */
  function Wrap(n: nat): u32 {
    n % U32
  }

  lemma WrapNext(n: nat)
    ensures Wrap(n + 1) == Add32(Wrap(n), 1)
  {
    if n % U32 + 1 == U32 {
      assert n + 1 == (n / U32 + 1) * U32;
    } else {
      assert n + 1 == (n / U32) * U32 + (n % U32 + 1);
    }
  }

  function FactOf(tx: Tx, ledger: u32, closedAt: int, idx: nat, ev: Event, c: (FactKind, Id, string)): Fact {
    Fact(c.0, c.1, c.2, Wrap(idx), tx.hash, tx.index, ledger, closedAt, ev.raw)
  }

  /** The facts among the first n events of a transaction: an event keeps its position as its number. */
  function FactsAmong(tx: Tx, ledger: u32, closedAt: int, events: seq<Event>, n: nat, tracked: set<Id>): seq<Fact>
    requires n <= |events|
  {
    if n == 0 then []
    else
      var init := FactsAmong(tx, ledger, closedAt, events, n - 1, tracked);
      match Classify(events[n - 1], tracked)
      case None => init
      case Some(c) => init + [FactOf(tx, ledger, closedAt, n - 1, events[n - 1], c)]
  }

  function DetectedInTx(tx: Tx, ledger: u32, closedAt: int, tracked: set<Id>): Option<seq<Fact>> {
    var events := Flatten(tx.ops);
    if events.None? then None
    else Some(FactsAmong(tx, ledger, closedAt, events.value, |events.value|, tracked))
  }

  function Detected(txs: seq<Tx>, ledger: u32, closedAt: int, tracked: set<Id>): Option<seq<Fact>>
    decreases |txs|
  {
    if |txs| == 0 then Some([])
    else
      var n := |txs| - 1;
      var init := Detected(txs[..n], ledger, closedAt, tracked);
      if !txs[n].successful then init
      else
        var last := DetectedInTx(txs[n], ledger, closedAt, tracked);
        if init.None? || last.None? then None else Some(init.value + last.value)
  }

  // ---- A ledger ---------------------------------------------------------------------------------

  datatype Processed = Processed(members: Members, facts: seq<Fact>)

  function ProcessLedger(m: Members, txs: seq<Tx>, approved: set<string>, ledger: u32,
                         closedAt: int): Option<Processed> {
    var after := Discovered(m, txs, approved);
    if after.None? then None
    else
      var facts := Detected(txs, ledger, closedAt, after.value.tracked);
      if facts.None? then None else Some(Processed(after.value, facts.value))
  }

  ghost function Active(facts: seq<Fact>): set<Id> {
    set f | f in facts :: f.escrow
  }

  // ---- Monotonicity: what a larger registry can only add -------------------------------------------

  /** The identity a consumer dedupes on. */
  datatype EventId = EventId(txHash: string, eventIndex: u32)

  function IdOf(f: Fact): EventId {
    EventId(f.txHash, f.eventIndex)
  }

  /** The part of a fact that does not depend on who was tracked. */
  predicate SamePayload(f: Fact, g: Fact) {
    f.raw == g.raw && f.ledger == g.ledger && f.closedAt == g.closedAt && f.txIndex == g.txIndex
    && f.txHash == g.txHash && f.eventIndex == g.eventIndex
  }

  ghost predicate Covers(big: seq<Fact>, small: seq<Fact>) {
    forall f :: f in small ==> exists g :: g in big && SamePayload(f, g)
  }

  lemma {:induction false} CoversAmong(tx: Tx, ledger: u32, closedAt: int, events: seq<Event>, n: nat,
                                       small: set<Id>, big: set<Id>)
    requires n <= |events| && small <= big
    ensures Covers(FactsAmong(tx, ledger, closedAt, events, n, big), FactsAmong(tx, ledger, closedAt, events, n, small))
  {
    if n > 0 {
      CoversAmong(tx, ledger, closedAt, events, n - 1, small, big);
      var ev := events[n - 1];
      var bigs := FactsAmong(tx, ledger, closedAt, events, n, big);
      var smalls := FactsAmong(tx, ledger, closedAt, events, n, small);
      var bigs' := FactsAmong(tx, ledger, closedAt, events, n - 1, big);
      var smalls' := FactsAmong(tx, ledger, closedAt, events, n - 1, small);
      forall f | f in smalls
        ensures exists g :: g in bigs && SamePayload(f, g)
      {
        if f in smalls' {
          var g :| g in bigs' && SamePayload(f, g);
          assert g in bigs;
        } else {
          assert Classify(ev, small).Some? && Classify(ev, big).Some?;
          var g := FactOf(tx, ledger, closedAt, n - 1, ev, Classify(ev, big).value);
          assert bigs == bigs' + [g];
          assert g in bigs && SamePayload(f, g);
        }
      }
    }
  }

  /**
   Detection is monotone in the registry: with more escrows tracked every event
   that was a fact stays one, under the same message identity and with the same
   raw event, ledger and transaction (its attribution may sharpen from a deposit
   to an escrow's own event).
   */
  lemma {:induction false} DetectionMonotone(txs: seq<Tx>, ledger: u32, closedAt: int, small: set<Id>, big: set<Id>)
    requires small <= big
    ensures Detected(txs, ledger, closedAt, small).Some? <==> Detected(txs, ledger, closedAt, big).Some?
    ensures Detected(txs, ledger, closedAt, small).Some? ==>
      Covers(Detected(txs, ledger, closedAt, big).value, Detected(txs, ledger, closedAt, small).value)
    decreases |txs|
  {
    if |txs| > 0 {
      var n := |txs| - 1;
      DetectionMonotone(txs[..n], ledger, closedAt, small, big);
      if txs[n].successful && Flatten(txs[n].ops).Some? {
        var events := Flatten(txs[n].ops).value;
        CoversAmong(txs[n], ledger, closedAt, events, |events|, small, big);
        if Detected(txs[..n], ledger, closedAt, small).Some? {
          CoversConcat(Detected(txs[..n], ledger, closedAt, big).value,
                       Detected(txs[..n], ledger, closedAt, small).value,
                       FactsAmong(txs[n], ledger, closedAt, events, |events|, big),
                       FactsAmong(txs[n], ledger, closedAt, events, |events|, small));
        }
      }
    }
  }

  lemma CoversConcat(big1: seq<Fact>, small1: seq<Fact>, big2: seq<Fact>, small2: seq<Fact>)
    requires Covers(big1, small1) && Covers(big2, small2)
    ensures Covers(big1 + big2, small1 + small2)
  {
    forall f | f in small1 + small2
      ensures exists g :: g in big1 + big2 && SamePayload(f, g)
    {
      if f in small1 {
        var g :| g in big1 && SamePayload(f, g);
        assert g in big1 + big2;
      } else {
        var g :| g in big2 && SamePayload(f, g);
        assert g in big1 + big2;
      }
    }
  }

  /** Discovery only ever adds to the tracked set, never touches a tombstone, and is monotone itself. */
  lemma {:induction false} DiscoveryMonotone(m: Members, n: Members, txs: seq<Tx>, approved: set<string>)
    requires m.tracked <= n.tracked && m.removed == n.removed
    ensures Discovered(m, txs, approved).Some? <==> Discovered(n, txs, approved).Some?
    ensures Discovered(m, txs, approved).Some? ==>
      var dm, dn := Discovered(m, txs, approved).value, Discovered(n, txs, approved).value;
      && m.tracked <= dm.tracked <= dn.tracked && dm.removed == dn.removed == m.removed
      && dm.tracked !! (m.removed - m.tracked)
    decreases |txs|
  {
    if |txs| > 0 && txs[0].successful && txs[0].changes.Some? {
      var d := Deployed(txs[0].changes.value, approved);
      DiscoveryMonotone(m.(tracked := m.tracked + (d - m.removed)), n.(tracked := n.tracked + (d - n.removed)),
          txs[1..], approved);
    } else if |txs| > 0 {
      DiscoveryMonotone(m, n, txs[1..], approved);
    }
  }

  /**
   Crash replay of one ledger: reprocessing with any superset of the registry it
   first met derives every message id again, each with the same payload.
   */
  lemma ReprocessingCovers(m: Members, n: Members, txs: seq<Tx>, approved: set<string>, ledger: u32, closedAt: int)
    requires m.tracked <= n.tracked && m.removed == n.removed
    ensures ProcessLedger(m, txs, approved, ledger, closedAt).Some?
       <==> ProcessLedger(n, txs, approved, ledger, closedAt).Some?
    ensures ProcessLedger(m, txs, approved, ledger, closedAt).Some? ==>
      var pm := ProcessLedger(m, txs, approved, ledger, closedAt).value;
      var pn := ProcessLedger(n, txs, approved, ledger, closedAt).value;
      && Covers(pn.facts, pm.facts)
      && pm.members.tracked <= pn.members.tracked && pm.members.removed == pn.members.removed
  {
    DiscoveryMonotone(m, n, txs, approved);
    if Discovered(m, txs, approved).Some? {
      DetectionMonotone(txs, ledger, closedAt, Discovered(m, txs, approved).value.tracked,
                        Discovered(n, txs, approved).value.tracked);
    }
  }

  // ---- What the readers recognise --------------------------------------------------------------------

  /** A change is a deployment exactly when it leaves a Wasm instance under the instance key of a named contract. */
  lemma InstanceIff(ch: Change, id: Id, hash: string)
    ensures InstanceFromChange(ch) == Some((id, hash)) <==>
      id != "" && ch == Change(true, Some(ContractData(Some(id), true, Some(Wasm(hash)))))
  {
    if InstanceFromChange(ch) == Some((id, hash)) {
      var data := ch.post.value;
      assert data.contract == Some(id) && data.instance == Some(Wasm(hash));
      assert data == ContractData(data.contract, data.instanceKey, data.instance);
    }
  }

  /** A deposit is exactly a transfer event from one named address to another. */
  lemma TransferIff(ev: Event, recipient: Id)
    ensures TransferTo(ev) == Some(recipient) <==>
      recipient != "" && exists sender, rest :: IsTransfer(ev, sender, recipient, rest)
  {
    if TransferTo(ev) == Some(recipient) {
      var topics := ev.topics.value;
      assert topics == [Sym("transfer"), Addr(topics[1].address), Addr(recipient)] + topics[3..];
      assert IsTransfer(ev, topics[1].address, recipient, topics[3..]);
    }
  }

  predicate IsTransfer(ev: Event, sender: string, recipient: Id, rest: seq<Topic>) {
    sender != "" && ev.topics == Some([Sym("transfer"), Addr(sender), Addr(recipient)] + rest)
  }

  /** The event was emitted by the contract, and its kind is its leading symbol, or empty if it has none. */
  predicate OwnEvent(ev: Event, id: Id, kind: string) {
    && ev.emitter == Some(id)
    && if ev.topics.Some? && |ev.topics.value| > 0 && ev.topics.value[0].Sym?
       then kind == ev.topics.value[0].name else kind == ""
  }

  /** The event is a transfer to the contract by a contract that is not tracked itself. */
  ghost predicate IncomingTransfer(ev: Event, tracked: set<Id>, id: Id) {
    && (ev.emitter.Some? ==> ev.emitter.value == "" || ev.emitter.value !in tracked)
    && exists sender, rest :: IsTransfer(ev, sender, id, rest)
  }

  /** What the event is to the registry: a tracked escrow's own event, or else a transfer to a tracked escrow. */
  ghost predicate Concerns(ev: Event, tracked: set<Id>, kind: FactKind, id: Id, eventKind: string) {
    && id != "" && id in tracked
    && match kind
       case EscrowEvent => OwnEvent(ev, id, eventKind)
       case Deposit => IncomingTransfer(ev, tracked, id) && eventKind == "token_transfer"
  }

  lemma ClassifiedIff(ev: Event, tracked: set<Id>, kind: FactKind, id: Id, eventKind: string)
    ensures Classify(ev, tracked) == Some((kind, id, eventKind)) <==> Concerns(ev, tracked, kind, id, eventKind)
  {
    TransferIff(ev, id);
  }

  // ---- What discovery and detection find ----------------------------------------------------------

  /** The change leaves a present, approved Wasm instance of the contract. */
  predicate Deploys(ch: Change, approved: set<string>, id: Id) {
    var found := InstanceFromChange(ch);
    found.Some? && found.value.0 == id && found.value.1 in approved
  }

  lemma {:induction false} DeployedIff(changes: seq<Change>, approved: set<string>, id: Id)
    ensures id in Deployed(changes, approved) <==> exists i :: 0 <= i < |changes| && Deploys(changes[i], approved, id)
    decreases |changes|
  {
    if |changes| > 0 {
      var n := |changes| - 1;
      DeployedIff(changes[..n], approved, id);
      if id in Deployed(changes, approved) {
        if id in Deployed(changes[..n], approved) {
          var i :| 0 <= i < n && Deploys(changes[..n][i], approved, id);
          assert Deploys(changes[i], approved, id);
        } else {
          assert Deploys(changes[n], approved, id);
        }
      } else {
        assert forall i :: 0 <= i < n ==> changes[..n][i] == changes[i];
      }
    }
  }

  /** A successful transaction of the ledger deploys the contract. */
  ghost predicate DeployedIn(tx: Tx, approved: set<string>, id: Id) {
    && tx.successful && tx.changes.Some?
    && exists i :: 0 <= i < |tx.changes.value| && Deploys(tx.changes.value[i], approved, id)
  }

  ghost predicate SomeDeploys(txs: seq<Tx>, approved: set<string>, id: Id) {
    exists tx :: tx in txs && DeployedIn(tx, approved, id)
  }

  lemma SomeDeploysSplit(txs: seq<Tx>, approved: set<string>, id: Id)
    requires |txs| > 0
    ensures SomeDeploys(txs, approved, id) <==> DeployedIn(txs[0], approved, id) || SomeDeploys(txs[1..], approved, id)
  {
    assert txs == [txs[0]] + txs[1..];
  }

  /**
   Discovery finds exactly what was deployed: a contract is tracked afterwards when
   it was before, or when it carries no tombstone and some successful transaction
   deploys it with approved code.
   */
  lemma {:induction false} DiscoveredIff(m: Members, txs: seq<Tx>, approved: set<string>, id: Id)
    requires Discovered(m, txs, approved).Some?
    ensures id in Discovered(m, txs, approved).value.tracked <==>
      id in m.tracked || (id !in m.removed && SomeDeploys(txs, approved, id))
    ensures Discovered(m, txs, approved).value.removed == m.removed
    decreases |txs|
  {
    if |txs| > 0 {
      SomeDeploysSplit(txs, approved, id);
      if !txs[0].successful {
        DiscoveredIff(m, txs[1..], approved, id);
      } else {
        DeployedIff(txs[0].changes.value, approved, id);
        DiscoveredIff(Enlisted(m, txs[0].changes.value, approved), txs[1..], approved, id);
      }
    }
  }

  lemma {:induction false} FactsAmongComplete(tx: Tx, ledger: u32, closedAt: int, events: seq<Event>, n: nat,
                                              tracked: set<Id>, k: nat)
    requires k < n <= |events| && Classify(events[k], tracked).Some?
    ensures FactOf(tx, ledger, closedAt, k, events[k], Classify(events[k], tracked).value)
         in FactsAmong(tx, ledger, closedAt, events, n, tracked)
  {
    if k < n - 1 {
      FactsAmongComplete(tx, ledger, closedAt, events, n - 1, tracked, k);
    }
  }

  /** Event k of the transaction is of interest, and f is the fact it makes. */
  ghost predicate Makes(tx: Tx, ledger: u32, closedAt: int, tracked: set<Id>, k: nat, f: Fact) {
    && tx.successful && Flatten(tx.ops).Some? && k < |Flatten(tx.ops).value|
    && Classify(Flatten(tx.ops).value[k], tracked).Some?
    && f == FactOf(tx, ledger, closedAt, k, Flatten(tx.ops).value[k], Classify(Flatten(tx.ops).value[k], tracked).value)
  }

  lemma {:induction false} DetectedMakes(txs: seq<Tx>, ledger: u32, closedAt: int, tracked: set<Id>, f: Fact)
    requires Detected(txs, ledger, closedAt, tracked).Some?
    ensures f in Detected(txs, ledger, closedAt, tracked).value <==>
      exists tx, k :: tx in txs && Makes(tx, ledger, closedAt, tracked, k, f)
    decreases |txs|
  {
    if |txs| > 0 {
      var n := |txs| - 1;
      assert txs == txs[..n] + [txs[n]];
      DetectedMakes(txs[..n], ledger, closedAt, tracked, f);
      if txs[n].successful {
        DetectedInTxIff(txs[n], ledger, closedAt, tracked, f);
      }
    }
  }

  lemma DetectedInTxIff(tx: Tx, ledger: u32, closedAt: int, tracked: set<Id>, f: Fact)
    requires tx.successful && DetectedInTx(tx, ledger, closedAt, tracked).Some?
    ensures f in DetectedInTx(tx, ledger, closedAt, tracked).value <==>
        exists k :: Makes(tx, ledger, closedAt, tracked, k, f)
  {
    var events := Flatten(tx.ops).value;
    if f in DetectedInTx(tx, ledger, closedAt, tracked).value {
      var k := OriginInTx(tx, ledger, closedAt, events, |events|, tracked, f);
      assert Makes(tx, ledger, closedAt, tracked, k, f);
    }
    forall k | Makes(tx, ledger, closedAt, tracked, k, f)
      ensures f in DetectedInTx(tx, ledger, closedAt, tracked).value
    {
      FactsAmongComplete(tx, ledger, closedAt, events, |events|, tracked, k);
    }
  }

  /** f reports event k of the transaction, number by number and field by field. */
  ghost predicate Tells(tx: Tx, ledger: u32, closedAt: int, tracked: set<Id>, k: nat, f: Fact) {
    && tx.successful && Flatten(tx.ops).Some? && k < |Flatten(tx.ops).value|
    && var ev := Flatten(tx.ops).value[k];
       && Concerns(ev, tracked, f.kind, f.escrow, f.eventKind) && f.raw == ev.raw
       && f.txHash == tx.hash && f.txIndex == tx.index && f.eventIndex == k % 0x1_0000_0000
       && f.ledger == ledger && f.closedAt == closedAt
  }

  lemma MakesIff(tx: Tx, ledger: u32, closedAt: int, tracked: set<Id>, k: nat, f: Fact)
    ensures Makes(tx, ledger, closedAt, tracked, k, f) <==> Tells(tx, ledger, closedAt, tracked, k, f)
  {
    if tx.successful && Flatten(tx.ops).Some? && k < |Flatten(tx.ops).value| {
      ClassifiedIff(Flatten(tx.ops).value[k], tracked, f.kind, f.escrow, f.eventKind);
      if Makes(tx, ledger, closedAt, tracked, k, f) {
        assert Classify(Flatten(tx.ops).value[k], tracked).value == (f.kind, f.escrow, f.eventKind);
      }
    }
  }

  /**
   Detection forwards, of every successful transaction, each event a tracked escrow emits
   and each transfer to a tracked escrow by anyone else, and nothing besides.
   */
  lemma DetectedIff(txs: seq<Tx>, ledger: u32, closedAt: int, tracked: set<Id>, f: Fact)
    requires Detected(txs, ledger, closedAt, tracked).Some?
    ensures f in Detected(txs, ledger, closedAt, tracked).value <==>
      exists tx, k :: tx in txs && Tells(tx, ledger, closedAt, tracked, k, f)
  {
    DetectedMakes(txs, ledger, closedAt, tracked, f);
    forall tx, k
      ensures Makes(tx, ledger, closedAt, tracked, k, f) <==> Tells(tx, ledger, closedAt, tracked, k, f)
    {
      MakesIff(tx, ledger, closedAt, tracked, k, f);
    }
  }

  // ---- Where a fact comes from ------------------------------------------------------------------

  /** A fact is one event of one successful transaction, at its own position. */
  ghost predicate ComesFrom(f: Fact, txs: seq<Tx>, ledger: u32, closedAt: int, i: nat, k: nat) {
    && i < |txs| && txs[i].successful && Flatten(txs[i].ops).Some? && k < |Flatten(txs[i].ops).value|
    && f.txHash == txs[i].hash && f.txIndex == txs[i].index && f.eventIndex == Wrap(k)
    && f.raw == Flatten(txs[i].ops).value[k].raw && f.ledger == ledger && f.closedAt == closedAt
  }

  lemma {:induction false} OriginInTx(tx: Tx, ledger: u32, closedAt: int, events: seq<Event>, n: nat,
                                      tracked: set<Id>, f: Fact)
      returns (k: nat)
    requires n <= |events| && f in FactsAmong(tx, ledger, closedAt, events, n, tracked)
    ensures k < n && f.txHash == tx.hash && f.txIndex == tx.index && f.eventIndex == Wrap(k)
    ensures f.raw == events[k].raw && f.ledger == ledger && f.closedAt == closedAt
    ensures Classify(events[k], tracked) == Some((f.kind, f.escrow, f.eventKind))
  {
    if f in FactsAmong(tx, ledger, closedAt, events, n - 1, tracked) {
      k := OriginInTx(tx, ledger, closedAt, events, n - 1, tracked, f);
    } else {
      k := n - 1;
    }
  }

  lemma {:induction false} Origin(txs: seq<Tx>, ledger: u32, closedAt: int, tracked: set<Id>, f: Fact)
      returns (i: nat, k: nat)
    requires Detected(txs, ledger, closedAt, tracked).Some? && f in Detected(txs, ledger, closedAt, tracked).value
    ensures ComesFrom(f, txs, ledger, closedAt, i, k)
    decreases |txs|
  {
    var n := |txs| - 1;
    var init := Detected(txs[..n], ledger, closedAt, tracked);
    if init.Some? && f in init.value {
      i, k := Origin(txs[..n], ledger, closedAt, tracked, f);
    } else {
      var events := Flatten(txs[n].ops).value;
      i := n;
      k := OriginInTx(txs[n], ledger, closedAt, events, |events|, tracked, f);
    }
  }

  /** A transaction never carries so many events that its uint32 counter wraps. */
  ghost predicate CountersFit(txs: seq<Tx>) {
    forall i :: 0 <= i < |txs| && Flatten(txs[i].ops).Some? ==> |Flatten(txs[i].ops).value| <= U32
  }

  ghost predicate HashesDistinct(txs: seq<Tx>) {
    forall i, j :: 0 <= i < j < |txs| ==> txs[i].hash != txs[j].hash
  }

  /**
   One message id, one event: two detections of a ledger, under any two
   registries, give an id the same raw event and the same ledger and
   transaction fields.
   */
  lemma IdDeterminesPayload(txs: seq<Tx>, ledger: u32, closedAt: int, a: set<Id>, b: set<Id>, f: Fact, g: Fact)
    requires HashesDistinct(txs) && CountersFit(txs)
    requires Detected(txs, ledger, closedAt, a).Some? && f in Detected(txs, ledger, closedAt, a).value
    requires Detected(txs, ledger, closedAt, b).Some? && g in Detected(txs, ledger, closedAt, b).value
    requires IdOf(f) == IdOf(g)
    ensures SamePayload(f, g)
  {
    var i, k := Origin(txs, ledger, closedAt, a, f);
    var j, l := Origin(txs, ledger, closedAt, b, g);
    assert i == j;
    assert k == l by {
      assert Wrap(k) == k && Wrap(l) == l;
    }
  }

  // ---- The passes as they run ---------------------------------------------------------------------

  /** A registry after the approved deployments among some changes. */
  function Enlisted(m: Members, changes: seq<Change>, approved: set<string>): Members {
    m.(tracked := m.tracked + (Deployed(changes, approved) - m.removed))
  }

  lemma EnlistedNext(m: Members, changes: seq<Change>, i: nat, approved: set<string>)
    requires i < |changes|
    ensures Enlisted(m, changes[..i + 1], approved)
         == Enlisted(m, changes[..i], approved).(tracked :=
              Enlisted(m, changes[..i], approved).tracked + (DeployedBy(changes[i], approved) - m.removed))
  {
    assert changes[..i + 1][..i] == changes[..i];
  }

  /** Registers every approved instance among a transaction's changes; the count is what was new. */
  method DiscoverFromTransaction(reg: Registry, tx: Tx) returns (discovered: Option<nat>)
    requires Disjoint(reg.Value())
    modifies reg
    ensures discovered.Some? <==> tx.changes.Some?
    ensures discovered.None? ==> reg.Value() == old(reg.Value())
    ensures discovered.Some? ==>
      && reg.Value() == Enlisted(old(reg.Value()), tx.changes.value, reg.approved)
      && discovered.value == |reg.escrows| - |old(reg.escrows)|
    ensures Disjoint(reg.Value())
  {
    if tx.changes.None? {
      return None;
    }
    var changes := tx.changes.value;
    var count := 0;
    for i := 0 to |changes|
      invariant Disjoint(reg.Value()) && reg.Value() == Enlisted(old(reg.Value()), changes[..i], reg.approved)
      invariant count == |reg.escrows| - |old(reg.escrows)|
    {
      EnlistedNext(old(reg.Value()), changes, i, reg.approved);
      var added := RegisterInstance(reg, changes[i]);
      if added {
        count := count + 1;
      }
    }
    assert changes[..|changes|] == changes;
    return Some(count);
  }

  method RegisterInstance(reg: Registry, ch: Change) returns (added: bool)
    requires Disjoint(reg.Value())
    modifies reg
    ensures Disjoint(reg.Value()) && reg.removed == old(reg.removed)
    ensures reg.escrows == old(reg.escrows) + (DeployedBy(ch, reg.approved) - old(reg.removed))
    ensures |reg.escrows| == |old(reg.escrows)| + if added then 1 else 0
  {
    var found := InstanceFromChange(ch);
    if found.None? {
      return false;
    }
    added := reg.Register(found.value.0, found.value.1);
  }

  /** Walks a transaction's operations with one running event counter. */
  method DetectFromTransaction(tracked: set<Id>, tx: Tx, ledger: u32, closedAt: int) returns (out: Option<seq<Fact>>)
    ensures out == DetectedInTx(tx, ledger, closedAt, tracked)
  {
    var found: seq<Fact>, eventIdx: u32 := [], 0;
    ghost var flat: seq<Event> := [];
    for op := 0 to |tx.ops|
      invariant Flatten(tx.ops[..op]) == Some(flat)
      invariant eventIdx == Wrap(|flat|)
      invariant found == FactsAmong(tx, ledger, closedAt, flat, |flat|, tracked)
    {
      assert tx.ops[..op + 1][..op] == tx.ops[..op];
      if tx.ops[op].None? {
        FlattenNone(tx.ops, op);
        return None;
      }
      found, eventIdx := DetectFromOperation(tracked, tx, ledger, closedAt, tx.ops[op].value, found, eventIdx, flat);
      flat := flat + tx.ops[op].value;
    }
    assert tx.ops[..|tx.ops|] == tx.ops;
    return Some(found);
  }

  /** One operation's events, numbered on from the counter the earlier operations left. */
  method DetectFromOperation(tracked: set<Id>, tx: Tx, ledger: u32, closedAt: int, events: seq<Event>,
                             sofar: seq<Fact>, counter: u32, ghost before: seq<Event>)
      returns (found: seq<Fact>, eventIdx: u32)
    requires counter == Wrap(|before|) && sofar == FactsAmong(tx, ledger, closedAt, before, |before|, tracked)
    ensures eventIdx == Wrap(|before + events|)
    ensures found == FactsAmong(tx, ledger, closedAt, before + events, |before + events|, tracked)
  {
    found, eventIdx := sofar, counter;
    assert before + events[..0] == before;
    for i := 0 to |events|
      invariant eventIdx == Wrap(|before| + i)
      invariant found == FactsAmong(tx, ledger, closedAt, before + events[..i], |before| + i, tracked)
    {
      PrefixFacts(tx, ledger, closedAt, before + events[..i], [events[i]], |before| + i, tracked);
      assert before + events[..i] + [events[i]] == before + events[..i + 1];
      var c := Classify(events[i], tracked);
      if c.Some? {
        found := found + [Fact(c.value.0, c.value.1, c.value.2, eventIdx, tx.hash, tx.index, ledger, closedAt,
            events[i].raw)];
      }
      WrapNext(|before| + i);
      eventIdx := Add32(eventIdx, 1);
    }
    assert events[..|events|] == events;
  }

  lemma {:induction false} PrefixFacts(tx: Tx, ledger: u32, closedAt: int, a: seq<Event>, b: seq<Event>, n: nat,
                                       tracked: set<Id>)
    requires n <= |a|
    ensures FactsAmong(tx, ledger, closedAt, a + b, n, tracked) == FactsAmong(tx, ledger, closedAt, a, n, tracked)
  {
    if n > 0 {
      PrefixFacts(tx, ledger, closedAt, a, b, n - 1, tracked);
    }
  }

  lemma {:induction false} FlattenNone(ops: seq<Option<seq<Event>>>, i: nat)
    requires i < |ops| && ops[i].None?
    ensures Flatten(ops).None?
    decreases |ops|
  {
    if i < |ops| - 1 {
      FlattenNone(ops[..|ops| - 1], i);
    }
  }

  /**
   Both passes over a ledger. The active escrows come back once each, in the
   order their first fact was met.
   */
  method ProcessLedgerInPlace(reg: Registry, txs: seq<Tx>, ledger: u32, closedAt: int)
      returns (r: Option<(seq<Fact>, seq<Id>)>)
    requires Disjoint(reg.Value())
    modifies reg
    ensures Disjoint(reg.Value())
    ensures var p := ProcessLedger(old(reg.Value()), txs, reg.approved, ledger, closedAt);
      && (r.Some? <==> p.Some?)
      && (r.Some? ==>
            && reg.Value() == p.value.members && r.value.0 == p.value.facts
            && Distinct(r.value.1) && Elements(r.value.1) == Active(p.value.facts))
  {
    for i := 0 to |txs|
      invariant Disjoint(reg.Value())
      invariant Discovered(old(reg.Value()), txs, reg.approved) == Discovered(reg.Value(), txs[i..], reg.approved)
    {
      if txs[i].successful {
        var n := DiscoverFromTransaction(reg, txs[i]);
        if n.None? {
          return None;
        }
      }
      assert txs[i..][1..] == txs[i + 1..];
    }
    assert txs[|txs|..] == [];
    var facts, active: seq<Id> := [], [];
    ghost var after := reg.Value();
    for i := 0 to |txs|
      invariant reg.Value() == after
      invariant Detected(txs[..i], ledger, closedAt, reg.escrows) == Some(facts)
      invariant Distinct(active) && Elements(active) == Active(facts)
    {
      assert txs[..i + 1][..i] == txs[..i];
      if txs[i].successful {
        var found := DetectFromTransaction(reg.escrows, txs[i], ledger, closedAt);
        if found.None? {
          DetectedNone(txs, i, ledger, closedAt, reg.escrows);
          return None;
        }
        active := Collect(active, facts, found.value);
        facts := facts + found.value;
      }
    }
    assert txs[..|txs|] == txs;
    return Some((facts, active));
  }

  lemma {:induction false} DetectedNone(txs: seq<Tx>, i: nat, ledger: u32, closedAt: int, tracked: set<Id>)
    requires i < |txs| && txs[i].successful && DetectedInTx(txs[i], ledger, closedAt, tracked).None?
    ensures Detected(txs, ledger, closedAt, tracked).None?
    decreases |txs|
  {
    if i < |txs| - 1 {
      DetectedNone(txs[..|txs| - 1], i, ledger, closedAt, tracked);
    }
  }

  method Collect(active: seq<Id>, facts: seq<Fact>, more: seq<Fact>) returns (out: seq<Id>)
    requires Distinct(active) && Elements(active) == Active(facts)
    ensures Distinct(out) && Elements(out) == Active(facts + more)
  {
    out := active;
    for i := 0 to |more|
      invariant Distinct(out)
      invariant forall id :: id in out <==> id in Active(facts) || exists j :: 0 <= j < i && more[j].escrow == id
    {
      if more[i].escrow !in out {
        out := out + [more[i].escrow];
      }
    }
    forall id
      ensures id in out <==> id in Active(facts + more)
    {
      if id in out && id !in Active(facts) {
        var j :| 0 <= j < |more| && more[j].escrow == id;
        assert more[j] in facts + more;
      }
      if id in Active(facts) {
        var f :| f in facts && f.escrow == id;
        assert f in facts + more;
      }
      if id in Active(facts + more) && id !in Active(facts) {
        var f :| f in facts + more && f.escrow == id;
        assert f in more;
      }
    }
  }
}
