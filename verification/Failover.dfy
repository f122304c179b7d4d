/**
 The rotating pool of RPC endpoints: one session at a time, adopted only after
 the endpoint proved its network, its window and its range, with any skipped
 range made durable before the session is swapped.
 */
module Failover {
  import opened Base
  import opened Ids
  import opened StateStore
  import Registry
  import Window

  /** What an endpoint answers while it is being examined; None is an RPC error. */
  datatype Probe = Probe(network: Option<string>, tip: Option<u32>, window: Option<(u32, u32)>,
                         builds: bool, prepares: bool)

  datatype Verdict = Rejected | Adoptable(start: u32, gap: Option<Gap>)

  /** The ledger an endpoint is asked to start from: its own tip when none was requested. */
  function Resolved(p: Probe, from: u32): Option<u32> {
    if from == 0 then p.tip else Some(from)
  }

  /** The adoption sequence up to, and without, its side effects. A range can never be prepared from ledger 0. */
  function Examine(p: Probe, passphrase: string, from: u32, end: u32, requireFullRange: bool, now: int): Verdict {
    if p.network != Some(passphrase) || Resolved(p, from).None? || p.window.None? then Rejected
    else
      match Window.ClampStartLedger(Resolved(p, from).value, p.window.value.0, p.window.value.1, now)
      case Refused => Rejected
      case Whole(start) =>
        if (end != 0 && start > end) || !p.builds || !p.prepares || start == 0 then Rejected
        else Adoptable(start, None)
      case Skipped(start, gap) =>
        if (end != 0 && start > end) || requireFullRange || !p.builds || !p.prepares || start == 0 then Rejected
        else Adoptable(start, Some(gap))
  }

  /**
   What adoption promises the caller: never a start below the requested ledger,
   never past a bounded end, and a gap that is exactly the skipped range, absent
   in replay runs and otherwise present exactly when something was skipped.
   */
  lemma AdoptionPromise(p: Probe, passphrase: string, from: u32, end: u32, full: bool, now: int)
    requires Examine(p, passphrase, from, end, full, now).Adoptable?
    ensures var v := Examine(p, passphrase, from, end, full, now); var asked := Resolved(p, from).value;
      && v.start != 0 && asked <= v.start
      && (from != 0 ==> asked == from)
      && (end != 0 ==> v.start <= end)
      && (v.gap.None? <==> v.start == asked)
      && (v.gap.Some? ==> !full && v.gap.value == Gap(asked, v.start - 1, "rpc_retention", now))
  {
  }

  /**
   Exactly who is adopted: an endpoint of the right network that answers, whose window
   is upright and not absurdly far below the request (in uint32 arithmetic), where the
   later of request and oldest ledger is a real one within a bounded end, with nothing
   skipped in a replay run, and whose backend prepares.
   */
  lemma AdoptableIff(p: Probe, passphrase: string, from: u32, end: u32, full: bool, now: int)
    ensures Examine(p, passphrase, from, end, full, now).Adoptable? <==>
      && p.network == Some(passphrase) && p.window.Some? && p.builds && p.prepares
      && (from != 0 || p.tip.Some?)
      && var asked := if from == 0 then p.tip.value else from;
         var oldest, latest := p.window.value.0, p.window.value.1;
         var start := if asked < oldest then oldest else asked;
         && oldest <= latest && asked <= Add32(latest, 60)
         && start != 0 && (end != 0 ==> start <= end) && (full ==> oldest <= asked)
  {
  }

  /** The ring position tried at offset `off` of a cycle that begins at `first`. */
  function Position(first: nat, off: nat, n: nat): nat
    requires n > 0
  {
    (first + off) % n
  }

  /**
   One cycle visits n distinct endpoints, hence each of them once; a rotation,
   which begins after the abandoned one, comes back to it last and never earlier.
   */
  lemma RingOrder(first: nat, n: nat)
    requires 0 < n && first <= n
    ensures forall a, b :: 0 <= a < b < n ==> Position(first, a, n) != Position(first, b, n)
    ensures forall a :: 0 <= a < n ==> Position(first, a, n) < n
    ensures forall a :: 0 <= a < n && first > 0 ==> (Position(first, a, n) == first - 1 <==> a == n - 1)
  {
    forall a | 0 <= a < n
      ensures Position(first, a, n) == if first + a < n then first + a else first + a - n
    {
      PositionClosedForm(first, a, n);
    }
  }

  lemma PositionClosedForm(first: nat, off: nat, n: nat)
    requires 0 < n && first <= n && off < n
    ensures Position(first, off, n) == if first + off < n then first + off else first + off - n
  {
    var m := first + off;
    if m < n {
      assert m / n == 0;
    } else {
      assert m == n + (m - n) && 0 <= m - n < n;
      assert m / n == 1;
    }
  }

  /**
   The outcome of a cycle over n endpoints from offset `off` on: the offset of the
   first one that is adoptable, if any. `probes` are the endpoints in ring order.
   */
  function Winner(probes: nat -> Probe, off: nat, n: nat, passphrase: string, from: u32, end: u32, full: bool, now: int)
      : (w: Option<nat>)
    requires off <= n
    ensures w.Some? ==> off <= w.value < n && Examine(probes(w.value), passphrase, from, end, full, now).Adoptable?
    ensures forall j :: off <= j < (if w.Some? then w.value else n) ==>
      Examine(probes(j), passphrase, from, end, full, now).Rejected?
    decreases n - off
  {
    if off == n then None
    else if Examine(probes(off), passphrase, from, end, full, now).Adoptable? then Some(off)
    else Winner(probes, off + 1, n, passphrase, from, end, full, now)
  }

  lemma {:induction false} WinnerIsFirst(probes: nat -> Probe, off: nat, n: nat, passphrase: string,
                                         from: u32, end: u32,
                                         full: bool, now: int, w: nat)
    requires off <= w < n && Examine(probes(w), passphrase, from, end, full, now).Adoptable?
    requires forall j :: off <= j < w ==> Examine(probes(j), passphrase, from, end, full, now).Rejected?
    ensures Winner(probes, off, n, passphrase, from, end, full, now) == Some(w)
    decreases w - off
  {
    if off < w {
      WinnerIsFirst(probes, off + 1, n, passphrase, from, end, full, now, w);
    }
  }

  /** The endpoint serves the requested ledger and all after it. */
  predicate ServesWhole(p: Probe, passphrase: string, from: u32, end: u32, full: bool, now: int) {
    Examine(p, passphrase, from, end, full, now) == Adoptable(from, None)
  }

  predicate OldestAbove(p: Probe, from: u32) {
    p.window.Some? && p.window.value.0 > from
  }

  /** A cycle records a gap although one of its endpoints serves the whole range. */
  ghost predicate NeedlessGap(probes: nat -> Probe, n: nat, passphrase: string, from: u32, end: u32, full: bool,
                              now: int) {
    var w := Winner(probes, 0, n, passphrase, from, end, full, now);
    && w.Some? && Examine(probes(w.value), passphrase, from, end, full, now).gap.Some?
    && exists j :: 0 <= j < n && ServesWhole(probes(j), passphrase, from, end, full, now)
  }

  /**
   A gap is meant to be recorded only if no endpoint serves the range. It is recorded
   all the same exactly when the run is not a replay, the first adoptable endpoint's
   oldest ledger lies above the request, and a later endpoint serves the whole range.
   */
  lemma NeedlessGapIff(probes: nat -> Probe, n: nat, passphrase: string, from: u32, end: u32, full: bool, now: int)
    requires from != 0
    ensures var w := Winner(probes, 0, n, passphrase, from, end, full, now);
      NeedlessGap(probes, n, passphrase, from, end, full, now) <==>
        && !full && w.Some? && OldestAbove(probes(w.value), from)
        && exists j :: w.value < j < n && ServesWhole(probes(j), passphrase, from, end, full, now)
  {
    var w := Winner(probes, 0, n, passphrase, from, end, full, now);
    if w.Some? {
      AdoptionPromise(probes(w.value), passphrase, from, end, full, now);
      ClampedAboveOldest(probes(w.value), passphrase, from, end, full, now);
      if NeedlessGap(probes, n, passphrase, from, end, full, now) {
        var j :| 0 <= j < n && ServesWhole(probes(j), passphrase, from, end, full, now);
        assert j > w.value;
      }
    }
  }

  lemma ClampedAboveOldest(p: Probe, passphrase: string, from: u32, end: u32, full: bool, now: int)
    requires from != 0 && Examine(p, passphrase, from, end, full, now).Adoptable?
    ensures Examine(p, passphrase, from, end, full, now).gap.Some? <==> OldestAbove(p, from)
  {
  }

  /** The persistence hook shared by boot and rotation: gap evidence plus the full state. */
  class GapRecorder {
    const network: string
    const reg: Registry.Registry
    const store: FileStore
    var gaps: seq<Gap>

    constructor (network: string, reg: Registry.Registry, store: FileStore, gaps: seq<Gap>)
      ensures this.network == network && this.reg == reg && this.store == store && this.gaps == gaps
    {
      this.network, this.reg, this.store, this.gaps := network, reg, store, gaps;
    }

    /** The one place that assembles what a save must carry. */
    ghost function SnapshotValue(lastSeq: u32, lastHash: Hash): State
      reads this, reg
    {
      State(network, lastSeq, lastHash, SortedIds(reg.escrows), SortedIds(reg.removed), gaps)
    }

    method SnapshotState(lastSeq: u32, lastHash: Hash) returns (st: State)
      ensures st == SnapshotValue(lastSeq, lastHash)
    {
      var escrows := reg.Snapshot();
      var removed := reg.RemovedSnapshot();
      st := State(network, lastSeq, lastHash, escrows, removed, gaps);
    }

    /** Appends the gap and saves the clamped cursor, hashless because a clamp breaks the hash chain. */
    method OnGap(gap: Gap, clampedStart: u32) returns (ok: bool)
      modifies this, store, store.drive
      ensures gaps == old(gaps) + [gap]
      ensures var st := SnapshotValue(Sub32(clampedStart, 1), 0); var was := old(store.Value());
        && (ok ==> store.Value() == Saved(was, st))
        && (!ok ==> Torn(was, st, store.drive.Files()))
    {
      gaps := gaps + [gap];
      var st := SnapshotState(Sub32(clampedStart, 1), 0);
      ok := store.Save(st);
    }
  }

  /**
   What adopting (or not) under verdict v left behind: no gap, no write; a gap,
   exactly one entry, saved in full before adoption, or a save torn somewhere and
   no adoption.
   */
  ghost predicate GapRecorded(gaps: seq<Gap>, was: Store, v: Verdict, adopted: bool, rec: GapRecorder)
    reads rec, rec.reg, rec.store, rec.store.drive
  {
    if v.Rejected? || v.gap.None? then
      rec.gaps == gaps && rec.store.Value() == was && (v.Rejected? ==> !adopted)
    else
      var st := State(rec.network, Sub32(v.start, 1), 0, SortedIds(rec.reg.escrows), SortedIds(rec.reg.removed),
                      gaps + [v.gap.value]);
      && rec.gaps == gaps + [v.gap.value]
      && (adopted ==> rec.store.Value() == Saved(was, st))
      && (!adopted ==> Torn(was, st, rec.store.drive.Files()))
  }

  datatype Connection = Refused | Terminal | Connected(start: u32)

  datatype CycleResult = Exhausted | Cancelled | Unrecorded | Adopted(start: u32)

  class Pool {
    const urls: seq<string>
    const passphrase: string
    const requireFullRange: bool
    var idx: nat

    // Session handles. The open sets account for every client and backend ever
    // opened and not yet closed, adopted or not.
    var client: Option<nat>
    var backend: Option<nat>
    var openClients: set<nat>
    var openBackends: set<nat>
    var handles: nat

    /** Exactly the adopted session is open: nothing leaked, nothing closed under the loop's feet. */
    ghost predicate Valid()
      reads this
    {
      && |urls| > 0 && idx < |urls|
      && client.Some? == backend.Some?
      && openClients == (if client.Some? then {client.value} else {})
      && openBackends == (if backend.Some? then {backend.value} else {})
      && (client.Some? ==> client.value < handles)
      && (backend.Some? ==> backend.value < handles)
    }

    /** A pool with no session; handles below `handles` have been given out before and are not used again. */
    constructor (urls: seq<string>, passphrase: string, requireFullRange: bool, handles: nat)
      requires |urls| > 0
      ensures Valid() && client.None? && idx == 0 && this.handles == handles
      ensures this.urls == urls && this.passphrase == passphrase && this.requireFullRange == requireFullRange
    {
      this.urls, this.passphrase, this.requireFullRange := urls, passphrase, requireFullRange;
      idx, client, backend, openClients, openBackends := 0, None, None, {}, {};
      this.handles := handles;
    }

    method CloseSession()
      requires Valid()
      modifies this
      ensures Valid() && client.None? && openClients == {} && openBackends == {}
      ensures idx == old(idx) && handles == old(handles)
    {
      if backend.Some? {
        openBackends := openBackends - {backend.value};
        backend := None;
      }
      if client.Some? {
        openClients := openClients - {client.value};
        client := None;
      }
    }

    /** The live session, if any, plus one candidate session open beside it. */
    ghost predicate Candidate(newClient: nat, newBackend: nat)
      reads this
    {
      && |urls| > 0 && idx < |urls|
      && client.Some? == backend.Some?
      && (client.Some? ==> client.value != newClient && client.value < handles)
      && (backend.Some? ==> backend.value != newBackend && backend.value < handles)
      && newClient < handles && newBackend < handles
      && openClients == (if client.Some? then {client.value} else {}) + {newClient}
      && openBackends == (if backend.Some? then {backend.value} else {}) + {newBackend}
    }

    method Discard(newClient: nat, newBackend: nat)
      requires Candidate(newClient, newBackend)
      modifies this`openClients, this`openBackends
      ensures Valid()
    {
      openClients := openClients - {newClient};
      openBackends := openBackends - {newBackend};
    }

    /** Closes the live session, if any, and puts the candidate in its place. */
    method SwapSession(i: nat, newClient: nat, newBackend: nat)
      requires Candidate(newClient, newBackend) && i < |urls|
      modifies this
      ensures Valid() && idx == i && client == Some(newClient) && backend == Some(newBackend)
      ensures handles == old(handles)
    {
      if backend.Some? {
        openBackends := openBackends - {backend.value};
      }
      if client.Some? {
        openClients := openClients - {client.value};
      }
      backend, client, idx := Some(newBackend), Some(newClient), i;
    }

    /**
     Opens a client, examines the endpoint and opens a backend over its range; every
     refusal closes what was opened. On success the two candidates stay open beside
     the live session.
     */
    method OpenCandidate(p: Probe, from: u32, end: u32, now: int)
        returns (v: Verdict, newClient: nat, newBackend: nat)
      requires Valid()
      modifies this`openClients, this`openBackends, this`handles
      ensures v == Examine(p, passphrase, from, end, requireFullRange, now)
      ensures old(handles) <= newClient && old(handles) <= handles
      ensures v.Rejected? ==> Valid()
      ensures v.Adoptable? ==> Candidate(newClient, newBackend)
    {
      newClient := handles;
      newBackend := handles + 1;
      handles := handles + 2;
      openClients := openClients + {newClient};
      var asked := Resolved(p, from);
      if p.network != Some(passphrase) || asked.None? || p.window.None? {
        openClients := openClients - {newClient};
        return Rejected, newClient, newBackend;
      }
      var clamp := Window.ClampStartLedger(asked.value, p.window.value.0, p.window.value.1, now);
      if clamp.Refused? || (end != 0 && clamp.start > end) || (clamp.Skipped? && requireFullRange) || !p.builds {
        openClients := openClients - {newClient};
        return Rejected, newClient, newBackend;
      }
      openBackends := openBackends + {newBackend};
      if !p.prepares || clamp.start == 0 {
        openClients := openClients - {newClient};
        openBackends := openBackends - {newBackend};
        return Rejected, newClient, newBackend;
      }
      v := Adoptable(clamp.start, if clamp.Skipped? then Some(clamp.gap) else None);
    }

    /**
     Examines one endpoint and adopts it. The gap is recorded only for the
     endpoint actually adopted, after its range was prepared and before the
     session is swapped; a refused endpoint leaves no trace at all.
     */
    method ConnectEndpoint(i: nat, p: Probe, from: u32, end: u32, now: int, rec: GapRecorder)
        returns (r: Connection, v: Verdict)
      requires Valid() && i < |urls|
      modifies this, rec, rec.store, rec.store.drive
      ensures Valid()
      ensures v == Examine(p, passphrase, from, end, requireFullRange, now)
      ensures r.Refused? <==> v.Rejected?
      ensures r.Connected? ==> idx == i && client.Some? && r.start == v.start && client.value >= old(handles)
      ensures handles >= old(handles)
      ensures !r.Connected? ==> idx == old(idx) && client == old(client)
      ensures GapRecorded(old(rec.gaps), old(rec.store.Value()), v, r.Connected?, rec)
    {
      var newClient: nat, newBackend: nat;
      v, newClient, newBackend := OpenCandidate(p, from, end, now);
      if v.Rejected? {
        return Refused, v;
      }
      if v.gap.Some? {
        var ok := rec.OnGap(v.gap.value, v.start);
        if !ok {
          Discard(newClient, newBackend);
          return Terminal, v;
        }
      }
      SwapSession(i, newClient, newBackend);
      return Connected(v.start), v;
    }

    /** The offset of the endpoint a whole cycle of this pool settles on. */
    function Outcome(probes: nat -> Probe, from: u32, end: u32, now: int): Option<nat> {
      Winner(probes, 0, |urls|, passphrase, from, end, requireFullRange, now)
    }

    /**
     Tries every endpoint once in ring order and stops at the first success; a
     gap that cannot be persisted aborts the whole cycle. `tried` counts the
     endpoints examined; `v` is the verdict on the last of them.
     */
    method Cycle(first: nat, probes: nat -> Probe, alive: nat -> bool, from: u32, end: u32, now: int, rec: GapRecorder)
        returns (r: CycleResult, tried: nat, v: Verdict)
      requires Valid()
      modifies this, rec, rec.store, rec.store.drive
      ensures Valid() && tried <= |urls|
      ensures forall off :: 0 <= off < tried - 1 ==>
        Examine(probes(off), passphrase, from, end, requireFullRange, now).Rejected?
      ensures tried > 0 ==> v == Examine(probes(tried - 1), passphrase, from, end, requireFullRange, now)
      ensures r.Adopted? || r.Unrecorded? <==> v.Adoptable?
      ensures v.Adoptable? ==> tried > 0
      ensures v.Adoptable? ==> Outcome(probes, from, end, now) == Some(tried - 1)
      ensures r.Exhausted? ==> tried == |urls| && Outcome(probes, from, end, now).None?
      ensures r.Cancelled? ==> tried < |urls| && !alive(tried)
      ensures handles >= old(handles) && (r.Adopted? ==> client.Some? && client.value >= old(handles))
      ensures r.Adopted? ==> client.Some? && r.start == v.start && idx == Position(first, tried - 1, |urls|)
      ensures !r.Adopted? ==> idx == old(idx) && client == old(client)
      ensures GapRecorded(old(rec.gaps), old(rec.store.Value()), v, r.Adopted?, rec)
    {
      tried, v := 0, Rejected;
      while tried < |urls|
        invariant Valid() && tried <= |urls|
        invariant idx == old(idx) && client == old(client) && v == Rejected && handles >= old(handles)
        invariant rec.gaps == old(rec.gaps) && rec.store.Value() == old(rec.store.Value())
        invariant forall off :: 0 <= off < tried ==>
          Examine(probes(off), passphrase, from, end, requireFullRange, now).Rejected?
      {
        if !alive(tried) {
          return Cancelled, tried, v;
        }
        var i := Position(first, tried, |urls|);
        var c: Connection;
        c, v := ConnectEndpoint(i, probes(tried), from, end, now, rec);
        if v.Adoptable? {
          WinnerIsFirst(probes, 0, |urls|, passphrase, from, end, requireFullRange, now, tried);
        }
        tried := tried + 1;
        if c.Connected? {
          return Adopted(c.start), tried, v;
        }
        if c.Terminal? {
          return Unrecorded, tried, v;
        }
      }
      return Exhausted, tried, v;
    }

    /** Boot: starts at the pool's current position. */
    method Connect(probes: nat -> Probe, alive: nat -> bool, from: u32, end: u32, now: int, rec: GapRecorder)
        returns (r: CycleResult, tried: nat, v: Verdict)
      requires Valid()
      modifies this, rec, rec.store, rec.store.drive
      ensures Valid() && tried <= |urls|
      ensures tried > 0 ==> v == Examine(probes(tried - 1), passphrase, from, end, requireFullRange, now)
      ensures r.Adopted? || r.Unrecorded? <==> v.Adoptable?
      ensures v.Adoptable? ==> tried > 0 && Outcome(probes, from, end, now) == Some(tried - 1)
      ensures r.Exhausted? ==> Outcome(probes, from, end, now).None?
      ensures handles >= old(handles) && (r.Adopted? ==> client.Some? && client.value >= old(handles))
      ensures r.Adopted? ==>
        && client.Some? && openClients == {client.value} && openBackends == {backend.value}
        && r.start == v.start && idx == Position(old(idx), tried - 1, |urls|)
      ensures !r.Adopted? ==> client == old(client)
      ensures GapRecorded(old(rec.gaps), old(rec.store.Value()), v, r.Adopted?, rec)
    {
      r, tried, v := Cycle(idx, probes, alive, from, end, now, rec);
    }

    /**
     Abandons the current endpoint and connects to the next one that works; the
     abandoned one is tried last. A failed rotation leaves no session open.
     */
    method Rotate(probes: nat -> Probe, alive: nat -> bool, from: u32, end: u32, now: int, rec: GapRecorder)
        returns (r: CycleResult, tried: nat, v: Verdict)
      requires Valid()
      modifies this, rec, rec.store, rec.store.drive
      ensures Valid() && tried <= |urls|
      ensures tried > 0 ==> v == Examine(probes(tried - 1), passphrase, from, end, requireFullRange, now)
      ensures r.Adopted? || r.Unrecorded? <==> v.Adoptable?
      ensures v.Adoptable? ==> tried > 0 && Outcome(probes, from, end, now) == Some(tried - 1)
      ensures r.Exhausted? ==> Outcome(probes, from, end, now).None?
      ensures handles >= old(handles) && (r.Adopted? ==> client.Some? && client.value >= old(handles))
      ensures r.Adopted? ==>
        && client.Some? && openClients == {client.value} && openBackends == {backend.value}
        && r.start == v.start && idx == Position(old(idx) + 1, tried - 1, |urls|)
      ensures r.Adopted? && idx == old(idx) ==> tried == |urls|
      ensures !r.Adopted? ==> client.None? && openClients == {} && openBackends == {}
      ensures GapRecorded(old(rec.gaps), old(rec.store.Value()), v, r.Adopted?, rec)
    {
      CloseSession();
      r, tried, v := Cycle(idx + 1, probes, alive, from, end, now, rec);
      if tried > 0 {
        PositionClosedForm(old(idx) + 1, tried - 1, |urls|);
      }
    }
  }

  /**
   It does happen, in live mode, whenever a clamping endpoint comes before one that
   serves the range; a replay run, or an end below the clamp, moves on to the latter.
   */
  lemma ClampingEndpointWinsOverDeeperOne(passphrase: string, from: u32, oldest: u32, latest: u32, end: u32, now: int)
    requires 0 < from < oldest <= latest && latest + 60 < U32 && from <= end < oldest
    ensures var shallow := Probe(Some(passphrase), Some(latest), Some((oldest, latest)), true, true);
            var deep := Probe(Some(passphrase), Some(latest), Some((from, latest)), true, true);
            var ring := (i: nat) => if i == 0 then shallow else deep;
      && NeedlessGap(ring, 2, passphrase, from, 0, false, now)
      && Winner(ring, 0, 2, passphrase, from, 0, true, now) == Some(1)
      && Winner(ring, 0, 2, passphrase, from, end, false, now) == Some(1)
      && !NeedlessGap(ring, 2, passphrase, from, 0, true, now)
      && !NeedlessGap(ring, 2, passphrase, from, end, false, now)
  {
    var shallow := Probe(Some(passphrase), Some(latest), Some((oldest, latest)), true, true);
    var deep := Probe(Some(passphrase), Some(latest), Some((from, latest)), true, true);
    var ring := (i: nat) => if i == 0 then shallow else deep;
    WinnerIsFirst(ring, 0, 2, passphrase, from, 0, false, now, 0);
    assert ServesWhole(ring(1), passphrase, from, 0, false, now);
    WinnerIsFirst(ring, 0, 2, passphrase, from, 0, true, now, 1);
    WinnerIsFirst(ring, 0, 2, passphrase, from, end, false, now, 1);
  }
}
