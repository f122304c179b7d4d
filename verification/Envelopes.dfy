/** The wire contract: envelopes, their message ids, and what makes one valid. */
module Envelopes {
  import opened Base
  import opened Ids
  import opened Facts
  import opened StateStore
  import Window

  const SCHEMA_VERSION := "1.1"
  const GAP_DETECTED := "gap_detected"
  const REMOVED := "removed"
  const UPDATED := "updated"

  /** One published message; the times of publication and of a gap's detection, which no rule reads, are left out. */
  datatype Envelope = Envelope(
    schemaVersion: string, kind: string, network: string, contractID: Id, ledgerSeq: u32, closedAt: int,
    txHash: string, txIndex: u32, eventKind: string, eventIndex: u32, stateChange: string, messageID: string,
    raw: string, controlKind: string, gapFrom: u32, gapTo: u32, reason: string)

  datatype StateChange = StateChange(escrow: Id, change: string, ledger: u32, closedAt: int, raw: string,
                                     lastModified: u32)

  // ---- Message ids ---------------------------------------------------------------------------

  /** Decimal printing, most significant digit first. */
  function Decimal(n: nat): (s: string)
    ensures |s| > 0
    ensures forall i :: 0 <= i < |s| ==> '0' <= s[i] <= '9'
  {
    if n < 10 then [Digit(n)] else Decimal(n / 10) + [Digit(n % 10)]
  }

  function Digit(d: nat): (c: char)
    requires d < 10
    ensures '0' <= c <= '9'
  {
    ['0', '1', '2', '3', '4', '5', '6', '7', '8', '9'][d]
  }

  function NewMessageID(txHash: string, eventIndex: u32): string {
    txHash + ":" + Decimal(eventIndex)
  }

  function NewStateMessageID(contractID: Id, ledgerSeq: u32): string {
    contractID + ":" + Decimal(ledgerSeq)
  }

  function NewGapMessageID(network: string, fromLedger: u32, toLedger: u32): string {
    "gap:" + network + ":" + Decimal(fromLedger) + ":" + Decimal(toLedger)
  }

  predicate ColonFree(s: string) {
    forall i :: 0 <= i < |s| ==> s[i] != ':'
  }

  /** A transaction hash as printed: lower-case hex. */
  predicate HexHash(s: string) {
    |s| > 0 && forall i :: 0 <= i < |s| ==> '0' <= s[i] <= '9' || 'a' <= s[i] <= 'f'
  }

  /** A contract address as printed: C, then upper-case letters and digits. */
  predicate ContractAddress(s: string) {
    |s| > 0 && s[0] == 'C' && forall i :: 0 <= i < |s| ==> '0' <= s[i] <= '9' || 'A' <= s[i] <= 'Z'
  }

  lemma {:induction false} DecimalInjective(m: nat, n: nat)
    requires Decimal(m) == Decimal(n)
    ensures m == n
    decreases m
  {
    var s := Decimal(m);
    if m >= 10 && n >= 10 {
      assert Decimal(m / 10) == s[..|s| - 1] == Decimal(n / 10);
      DecimalInjective(m / 10, n / 10);
      assert Digit(m % 10) == s[|s| - 1] == Digit(n % 10);
    } else {
      assert |Decimal(m)| == 1 <==> m < 10;
      assert |Decimal(n)| == 1 <==> n < 10;
      assert m < 10 && n < 10;
      assert Decimal(m)[0] == Digit(m) && Decimal(n)[0] == Digit(n);
    }
  }

  /** The number a string of digits stands for. */
  function Number(s: string): int {
    if |s| == 0 then 0 else 10 * Number(s[..|s| - 1]) + (s[|s| - 1] as int - '0' as int)
  }

  /** A printed number reads back as itself, and has no leading zero. */
  lemma {:induction false} DecimalReads(n: nat)
    ensures Number(Decimal(n)) == n && (n > 0 ==> Decimal(n)[0] != '0')
  {
    if n >= 10 {
      DecimalReads(n / 10);
      assert Decimal(n)[..|Decimal(n)| - 1] == Decimal(n / 10);
    } else {
      assert Decimal(n)[..0] == [];
    }
  }

  /** A colon-free head can be read back off "head:tail". */
  lemma {:induction false} SplitAtColon(a: string, b: string, c: string, d: string)
    requires ColonFree(a) && ColonFree(c) && a + ":" + b == c + ":" + d
    ensures a == c && b == d
    decreases |a|
  {
    var s, t := a + ":" + b, c + ":" + d;
    if |a| == 0 || |c| == 0 {
      assert s[0] == t[0];
      assert |a| == |c| == 0;
      assert s[1..] == b && t[1..] == d;
    } else {
      assert a[0] == s[0] == t[0] == c[0];
      assert a[1..] + ":" + b == s[1..] == t[1..] == c[1..] + ":" + d;
      SplitAtColon(a[1..], b, c[1..], d);
      assert a == [a[0]] + a[1..] && c == [c[0]] + c[1..];
    }
  }

  /** Event, state and gap ids each determine what they were built from. */
  lemma EventIdsInjective(h1: string, i1: u32, h2: string, i2: u32)
    requires ColonFree(h1) && ColonFree(h2) && NewMessageID(h1, i1) == NewMessageID(h2, i2)
    ensures h1 == h2 && i1 == i2
  {
    SplitAtColon(h1, Decimal(i1), h2, Decimal(i2));
    DecimalInjective(i1, i2);
  }

  lemma StateIdsInjective(c1: Id, l1: u32, c2: Id, l2: u32)
    requires ColonFree(c1) && ColonFree(c2) && NewStateMessageID(c1, l1) == NewStateMessageID(c2, l2)
    ensures c1 == c2 && l1 == l2
  {
    SplitAtColon(c1, Decimal(l1), c2, Decimal(l2));
    DecimalInjective(l1, l2);
  }

  lemma GapIdsInjective(n1: string, f1: u32, t1: u32, n2: string, f2: u32, t2: u32)
    requires ColonFree(n1) && ColonFree(n2) && NewGapMessageID(n1, f1, t1) == NewGapMessageID(n2, f2, t2)
    ensures n1 == n2 && f1 == f2 && t1 == t2
  {
    GapIdSplit(n1, f1, t1);
    GapIdSplit(n2, f2, t2);
    SplitAtColon("gap", n1 + ":" + Range(f1, t1), "gap", n2 + ":" + Range(f2, t2));
    SplitAtColon(n1, Range(f1, t1), n2, Range(f2, t2));
    SplitAtColon(Decimal(f1), Decimal(t1), Decimal(f2), Decimal(t2));
    DecimalInjective(f1, f2);
    DecimalInjective(t1, t2);
  }

  function Range(f: u32, t: u32): string {
    Decimal(f) + ":" + Decimal(t)
  }

  lemma GapIdSplit(n: string, f: u32, t: u32)
    ensures NewGapMessageID(n, f, t) == "gap" + ":" + (n + ":" + Range(f, t))
  {
    assert "gap:" == "gap" + ":";
  }

  /** No id of one family is ever an id of another. */
  lemma FamiliesDisjoint(hash: string, idx: u32, contract: Id, ledger: u32, network: string, f: u32, t: u32)
    requires HexHash(hash) && ContractAddress(contract)
    ensures NewMessageID(hash, idx) != NewStateMessageID(contract, ledger)
    ensures NewMessageID(hash, idx) != NewGapMessageID(network, f, t)
    ensures NewStateMessageID(contract, ledger) != NewGapMessageID(network, f, t)
  {
    assert NewMessageID(hash, idx)[0] == hash[0];
    assert NewStateMessageID(contract, ledger)[0] == 'C';
    assert NewGapMessageID(network, f, t)[0] == 'g';
  }

  lemma PrintedFormsAreColonFree(s: string)
    requires HexHash(s) || ContractAddress(s)
    ensures ColonFree(s)
  {
  }

  // ---- Building and validating ---------------------------------------------------------------

  function FromEscrowEvent(network: string, f: Fact): Envelope {
    Envelope(SCHEMA_VERSION, if f.kind.EscrowEvent? then "event" else "deposit", network, f.escrow, f.ledger,
             f.closedAt, f.txHash, f.txIndex, f.eventKind, f.eventIndex, "", NewMessageID(f.txHash, f.eventIndex),
             f.raw, "", 0, 0, "")
  }

  function FromStateChange(network: string, sc: StateChange): Envelope {
    Envelope(SCHEMA_VERSION, "state", network, sc.escrow, sc.ledger, sc.closedAt,
             "", 0, "", 0, sc.change, NewStateMessageID(sc.escrow, sc.ledger), sc.raw, "", 0, 0, "")
  }

  function FromGap(network: string, fromLedger: u32, toLedger: u32, reason: string): Envelope {
    Envelope(SCHEMA_VERSION, "control", network, "", Add32(toLedger, 1), 0,
             "", 0, "", 0, "", NewGapMessageID(network, fromLedger, toLedger), "",
             GAP_DETECTED, fromLedger, toLedger, reason)
  }

  function GapEnvelope(network: string, g: Gap): Envelope {
    FromGap(network, g.fromLedger, g.toLedger, g.reason)
  }

  predicate Validate(e: Envelope) {
    && e.schemaVersion != "" && e.kind != "" && e.network != "" && e.messageID != "" && e.ledgerSeq != 0
    && if e.kind == "event" || e.kind == "deposit" then
         e.contractID != "" && e.raw != "" && e.eventKind != "" && e.txHash != ""
       else if e.kind == "state" then
         e.contractID != "" && e.stateChange != "" && (e.stateChange == REMOVED || e.raw != "")
       else if e.kind == "control" then
         e.controlKind != "" && e.gapFrom != 0 && e.gapTo != 0 && e.gapFrom <= e.gapTo
       else false
  }

  // ---- What an envelope says, field by field --------------------------------------------------------

  /** A fact's envelope: an escrow's own event as "event", a transfer to it as "deposit". */
  predicate SaysFact(network: string, f: Fact, e: Envelope) {
    && e.schemaVersion == "1.1" && e.network == network
    && e.kind == (match f.kind case EscrowEvent => "event" case Deposit => "deposit")
    && e.contractID == f.escrow && e.eventKind == f.eventKind && e.raw == f.raw
    && e.txHash == f.txHash && e.txIndex == f.txIndex && e.eventIndex == f.eventIndex
    && e.ledgerSeq == f.ledger && e.closedAt == f.closedAt
  }

  /** A state change's envelope: of kind "state", about that escrow at that ledger. */
  predicate SaysState(network: string, c: StateChange, e: Envelope) {
    && e.schemaVersion == "1.1" && e.network == network
    && e.kind == "state" && e.contractID == c.escrow && e.stateChange == c.change && e.raw == c.raw
    && e.ledgerSeq == c.ledger && e.closedAt == c.closedAt
  }

  /** A gap's envelope: of kind "control", at the ledger right after it. */
  predicate SaysGap(network: string, g: Gap, e: Envelope) {
    && e.schemaVersion == "1.1" && e.network == network
    && e.kind == "control" && e.controlKind == "gap_detected" && e.reason == g.reason
    && e.gapFrom == g.fromLedger && e.gapTo == g.toLedger && e.ledgerSeq == (g.toLedger + 1) % 0x1_0000_0000
  }

  lemma EnvelopesSay(network: string, f: Fact, c: StateChange, g: Gap)
    ensures SaysFact(network, f, FromEscrowEvent(network, f))
    ensures SaysState(network, c, FromStateChange(network, c))
    ensures SaysGap(network, g, GapEnvelope(network, g))
  {
  }

  /** The ids consumers dedupe on, as printed. */
  lemma IdsArePrinted(network: string, f: Fact, c: StateChange, g: Gap)
    ensures FromEscrowEvent(network, f).messageID == f.txHash + ":" + Decimal(f.eventIndex)
    ensures FromStateChange(network, c).messageID == c.escrow + ":" + Decimal(c.ledger)
    ensures GapEnvelope(network, g).messageID ==
      "gap:" + network + ":" + Decimal(g.fromLedger) + ":" + Decimal(g.toLedger)
  {
  }

  /** A fact is publishable exactly when it names network, ledger, escrow, transaction and kind, and has the event. */
  lemma EventPublishableIff(network: string, f: Fact)
    ensures Validate(FromEscrowEvent(network, f)) <==>
      network != "" && f.ledger != 0 && f.escrow != "" && f.txHash != "" && f.eventKind != "" && f.raw != ""
  {
    assert |NewMessageID(f.txHash, f.eventIndex)| > 0;
  }

  /** A state change exactly when it names network, escrow, ledger and change, and has an entry unless removed. */
  lemma StatePublishableIff(network: string, c: StateChange)
    ensures Validate(FromStateChange(network, c)) <==>
      network != "" && c.escrow != "" && c.ledger != 0 && c.change != "" && (c.change == "removed" || c.raw != "")
  {
    assert |NewStateMessageID(c.escrow, c.ledger)| > 0;
  }

  /** A gap exactly when it names the network and both ends, in order, and does not end with the last ledger. */
  lemma GapPublishableIff(network: string, g: Gap)
    ensures Validate(GapEnvelope(network, g)) <==>
      network != "" && 0 < g.fromLedger <= g.toLedger < 0xFFFF_FFFF
  {
    assert NewGapMessageID(network, g.fromLedger, g.toLedger)[0] == 'g';
  }

  /**
   Every gap recorded by clamping a nonzero start builds a valid envelope,
   anchored at the very ledger processing resumes from, without overflow.
   */
  lemma ClampGapEnvelopeValid(network: string, start: u32, oldest: u32, latest: u32, now: int)
    requires network != "" && start != 0
    requires Window.ClampStartLedger(start, oldest, latest, now).Skipped?
    ensures var c := Window.ClampStartLedger(start, oldest, latest, now);
      Validate(GapEnvelope(network, c.gap)) && GapEnvelope(network, c.gap).ledgerSeq == c.start
  {
  }

  /**
   A detected fact is forwarded whatever its topic, but only a nonempty event
   kind makes it publishable: exactly the events an escrow emits without a
   leading symbol (or with an empty one) are refused by the sink.
   */
  lemma FactPublishableIff(network: string, tx: Tx, ledger: u32, closedAt: int, events: seq<Event>, tracked: set<Id>,
                           f: Fact)
      returns (k: nat)
    requires network != "" && tx.hash != "" && ledger != 0
    requires forall i :: 0 <= i < |events| ==> events[i].raw != ""
    requires f in FactsAmong(tx, ledger, closedAt, events, |events|, tracked)
    ensures k < |events| && f.eventIndex == Wrap(k) && f.raw == events[k].raw
    ensures Validate(FromEscrowEvent(network, f))
       <==> f.kind.Deposit? || (FirstSymbol(events[k]).Some? && FirstSymbol(events[k]).value != "")
  {
    k := OriginInTx(tx, ledger, closedAt, events, |events|, tracked, f);
    assert Classify(events[k], tracked) == Some((f.kind, f.escrow, f.eventKind));
    assert NewMessageID(f.txHash, f.eventIndex) != "";
  }

  /** It does happen: a tracked escrow's event without topics is forwarded, and refused. */
  lemma UnpublishableFact(network: string, tx: Tx, ledger: u32, closedAt: int, tracked: set<Id>, id: Id, raw: string)
      returns (f: Fact)
    requires Known(tracked, id)
    ensures f in FactsAmong(tx, ledger, closedAt, [Event(Some(id), Some([]), raw)], 1, tracked)
    ensures f.escrow == id && f.raw == raw && !Validate(FromEscrowEvent(network, f))
  {
    var ev := Event(Some(id), Some([]), raw);
    f := FactOf(tx, ledger, closedAt, 0, ev, Classify(ev, tracked).value);
    assert FactsAmong(tx, ledger, closedAt, [ev], 0, tracked) == [];
  }
}
