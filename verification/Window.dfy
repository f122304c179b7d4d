/** Ledger windows: clamping a start ledger, and fetching one ledger with bounded retries. */
module Window {
  import opened Base
  import opened Backoff
  import StateStore

  const GAP_REASON_RPC_RETENTION := "rpc_retention"

  /** How many ledgers above the tip a start may sit before the chain must have restarted. */
  const RESET_DETECTION_SLACK: u32 := 60

  datatype Clamped =
    | Refused
    | Whole(start: u32)
    | Skipped(start: u32, gap: StateStore.Gap)

  function ClampStartLedger(start: u32, oldest: u32, latest: u32, now: int): Clamped {
    if oldest > latest then Refused
    else if start > Add32(latest, RESET_DETECTION_SLACK) then Refused
    else if start >= oldest then Whole(start)
    else Skipped(oldest, StateStore.Gap(start, oldest - 1, GAP_REASON_RPC_RETENTION, now))
  }

  /**
   Nothing is skipped silently and nothing is invented: the requested ledger is
   either where processing starts, or the first ledger of a gap that ends right
   before the start.
   */
  lemma ClampAccountsForEveryLedger(start: u32, oldest: u32, latest: u32, now: int, n: u32)
    requires !ClampStartLedger(start, oldest, latest, now).Refused?
    requires start <= n
    ensures var c := ClampStartLedger(start, oldest, latest, now);
      && start <= c.start
      && (n < c.start <==> c.Skipped? && c.gap.fromLedger <= n <= c.gap.toLedger)
      && (c.Skipped? ==>
            && c.gap.fromLedger == start && Add32(c.gap.toLedger, 1) == c.start == oldest
            && c.gap.reason == "rpc_retention" && c.gap.detectedAt == now)
  {
  }

  /**
   A start inside the served window is meant to be accepted as it stands. The
   slack is added in uint32 arithmetic, so the promise holds exactly when that
   sum does not wrap or the start is still below the wrapped sum.
   */
  lemma InsideWindowAcceptedIff(start: u32, oldest: u32, latest: u32, now: int)
    requires oldest <= start <= latest
    ensures ClampStartLedger(start, oldest, latest, now) == Whole(start)
       <==> latest + 60 < 0x1_0000_0000 || start <= latest + 60 - 0x1_0000_0000
  {
  }

  /** A start is refused for an inverted window, or more than 60 ledgers past a tip that leaves room for them. */
  lemma RefusedIff(start: u32, oldest: u32, latest: u32, now: int)
    requires latest + 60 < 0x1_0000_0000
    ensures ClampStartLedger(start, oldest, latest, now).Refused? <==> oldest > latest || start > latest + 60
  {
  }

  lemma InsideWindowRefusedNearTheEnd()
    ensures ClampStartLedger(4_294_967_290, 4_294_967_000, 4_294_967_295, 0) == Refused
  {
  }

  // ---- Window errors ---------------------------------------------------------------------

  datatype WindowClass = NoWindow | BeyondTip | BelowRetention

  /** The two decimal numbers of a window error, when the message carries them. */
  function ClassifyWindowError(parsed: Option<(nat, nat)>, requested: u32): WindowClass {
    match parsed
    case None => NoWindow
    case Some((oldest, latest)) =>
      if oldest >= U32 || latest >= U32 then NoWindow
      else if requested > latest then BeyondTip
      else if requested < oldest then BelowRetention
      else NoWindow
  }

  /**
   For an upright window the class says where the requested ledger lies: past all
   ledgers served, before all of them, or among them; an unreadable or
   oversized window says nothing.
   */
  lemma ClassLocatesTheLedger(oldest: nat, latest: nat, requested: u32)
    requires oldest <= latest
    ensures var c := ClassifyWindowError(Some((oldest, latest)), requested);
      && (latest >= U32 ==> c == NoWindow)
      && (latest < U32 ==>
            && (c == BeyondTip <==> latest < requested)
            && (c == BelowRetention <==> requested < oldest)
            && (c == NoWindow <==> oldest <= requested <= latest))
    ensures ClassifyWindowError(None, requested) == NoWindow
  {
  }

  // ---- Fetching one ledger ------------------------------------------------------------------

  const MAX_LEDGER_FETCH_RETRIES: nat := 10
  const MAX_RETRY_BACKOFF: int := 30 * SECOND
  const TIP_WAIT_INTERVAL: int := SECOND

  /** What one GetLedger call under its own deadline can come back with. */
  datatype Answer =
    | Got
    | Blocked                                  // our per-attempt deadline expired first
    | ContextError                             // the caller's context, or a context error
    | Failed(window: Option<(nat, nat)>)

  /** How the retry loop reads an answer: its own deadline first, then the context, then the window. */
  datatype Reading = Ledger | Stall | Cancel | Lost | Poll | Retry

  function Read(a: Answer, ledger: u32): Reading {
    match a
    case Got => Ledger
    case Blocked => Stall
    case ContextError => Cancel
    case Failed(window) =>
      match ClassifyWindowError(window, ledger)
      case BeyondTip => Poll
      case BelowRetention => Lost
      case NoWindow => Retry
  }

  datatype Outcome = Fetched | TipStalled | RetentionLost | GaveUp | Stopped

  // What the answers say, number by number.

  /** The served window, readable as two uint32 numbers, ends below the ledger. */
  predicate Ahead(a: Answer, ledger: u32) {
    a.Failed? && a.window.Some? && a.window.value.0 < 0x1_0000_0000 && a.window.value.1 < ledger
  }

  /** The served window, readable as two uint32 numbers, begins above the ledger and does not end below it. */
  predicate Expired(a: Answer, ledger: u32) {
    && a.Failed? && a.window.Some?
    && ledger < a.window.value.0 < 0x1_0000_0000 && ledger <= a.window.value.1 < 0x1_0000_0000
  }

  /** A failure without a window, with an unreadable one, or with one that holds the ledger. */
  predicate Transient(a: Answer, ledger: u32) {
    && a.Failed?
    && (a.window.Some? ==>
          || a.window.value.0 >= 0x1_0000_0000 || a.window.value.1 >= 0x1_0000_0000
          || a.window.value.0 <= ledger <= a.window.value.1)
  }

  /** How many of the first n answers were transient failures. */
  function Failures(answers: nat -> Answer, n: nat, ledger: u32): nat {
    if n == 0 then 0 else Failures(answers, n - 1, ledger) + if Transient(answers(n - 1), ledger) then 1 else 0
  }

  /** How many of them said that the ledger has not closed yet. */
  function Polls(answers: nat -> Answer, n: nat, ledger: u32): nat {
    if n == 0 then 0 else Polls(answers, n - 1, ledger) + if Ahead(answers(n - 1), ledger) then 1 else 0
  }

  /** The first n calls were made on a living context and left both the retries and the stall budget unspent. */
  ghost predicate Undecided(answers: nat -> Answer, alive: nat -> bool, n: nat, ledger: u32, stallBudget: int) {
    && (forall i :: 0 <= i < n ==> alive(i) && (Transient(answers(i), ledger) || Ahead(answers(i), ledger)))
    && Failures(answers, n, ledger) < 10 && Polls(answers, n, ledger) * 1_000_000_000 < stallBudget
  }

  /** Each outcome with exactly what leads to it, once all but the last of `calls` calls left the fetch undecided. */
  ghost predicate Explained(outcome: Outcome, calls: nat, ledger: u32, stallBudget: int,
                            answers: nat -> Answer, alive: nat -> bool) {
    var failures, waited := Failures(answers, calls, ledger), Polls(answers, calls, ledger) * 1_000_000_000;
    if calls == 0 then outcome.Stopped? && !alive(0)
    else
      var last := answers(calls - 1);
      && Undecided(answers, alive, calls - 1, ledger, stallBudget) && alive(calls - 1)
      && (outcome.Fetched? <==> last.Got?)
      && (outcome.RetentionLost? <==> Expired(last, ledger))
      && (outcome.TipStalled? <==> last.Blocked? || (Ahead(last, ledger) && waited >= stallBudget))
      && (outcome.GaveUp? <==> Transient(last, ledger) && failures == 10 && alive(calls))
      && (outcome.Stopped? <==>
            || last.ContextError?
            || (!alive(calls) && (Transient(last, ledger) || (Ahead(last, ledger) && waited < stallBudget))))
  }

  /** The waits after successive transient failures: doubling from a second, and half a minute from the sixth on. */
  const PACE: seq<int> := [
    1_000_000_000, 2_000_000_000, 4_000_000_000, 8_000_000_000, 16_000_000_000, 30_000_000_000,
    30_000_000_000, 30_000_000_000, 30_000_000_000, 30_000_000_000, 30_000_000_000]

  lemma PaceIsWait(k: nat)
    requires k <= 10
    ensures PACE[k] == Wait(k, MAX_RETRY_BACKOFF)
  {
    assert Pow2(3) == 8 && Pow2(6) == 64 && Pow2(9) == 512;
  }

  /** The backoff after one more transient failure, as the loop computes it. */
  method Doubling(k: nat, backoff: int) returns (next: int)
    requires backoff == Wait(k, MAX_RETRY_BACKOFF)
    ensures next == Wait(k + 1, MAX_RETRY_BACKOFF)
  {
    DoubledIsNextWait(k, MAX_RETRY_BACKOFF);
    next := backoff;
    if next < MAX_RETRY_BACKOFF {
      next := next * 2;
      if next > MAX_RETRY_BACKOFF {
        next := MAX_RETRY_BACKOFF;
      }
    }
  }

  /** The waits after k failures, and the one that would come next. */
  predicate Paced(k: int, waits: seq<int>, backoff: int) {
    0 <= k <= 10 && waits == PACE[..k] && backoff == PACE[k]
  }

  /** Waits if the last answer was one more failure. */
  method BackOff(before: nat, after: nat, waits: seq<int>, backoff: int) returns (more: seq<int>, next: int)
    requires Paced(before, waits, backoff) && before <= after <= before + 1 <= 10
    ensures Paced(after, more, next)
  {
    more, next := waits, backoff;
    if after > before {
      PaceIsWait(before);
      PaceIsWait(after);
      more := waits + [backoff];
      next := Doubling(before, backoff);
    }
  }

  /** One call on a living context: the outcome if it decides the fetch, else the tip waits and failures so far. */
  method Attempt(ledger: u32, stallBudget: int, answers: nat -> Answer, alive: nat -> bool, calls: nat,
                 attempt: nat, tipWaited: int)
      returns (outcome: Option<Outcome>, next: nat, waited: int)
    requires Undecided(answers, alive, calls, ledger, stallBudget) && alive(calls)
    requires attempt == Failures(answers, calls, ledger) + 1
    requires tipWaited == Polls(answers, calls, ledger) * TIP_WAIT_INTERVAL
    ensures attempt <= next == Failures(answers, calls + 1, ledger) + 1 <= attempt + 1
    ensures tipWaited <= waited == Polls(answers, calls + 1, ledger) * TIP_WAIT_INTERVAL
    ensures outcome.Some? ==> Explained(outcome.value, calls + 1, ledger, stallBudget, answers, alive)
    ensures outcome.None? ==> next > attempt || waited > tipWaited
    ensures outcome.None? && next <= 10 ==> Undecided(answers, alive, calls + 1, ledger, stallBudget)
    ensures outcome.None? && next > 10 ==> Explained(GaveUp, calls + 1, ledger, stallBudget, answers, alive)
  {
    ReadingDecides(calls, ledger, stallBudget, answers, alive);
    outcome, next, waited := None, attempt, tipWaited;
    var reading := Read(answers(calls), ledger);
    if reading.Poll? {
      waited := tipWaited + TIP_WAIT_INTERVAL;
      if waited >= stallBudget {
        outcome := Some(TipStalled);
      }
    } else if reading.Retry? {
      next := attempt + 1;
      if !alive(calls + 1) {
        outcome := Some(Stopped);
      }
    } else {
      outcome := Some(Decided(reading));
    }
  }

  /**
   Fetches one ledger from one endpoint, whatever the endpoint does. `answers`
   is the backend's behaviour call by call; `alive` says whether the caller's
   context is still alive at the top of each iteration, and so when a wait ends.
   A call leads to another one unless it decides the outcome.
   */
  method FetchLedgerWithRetry(ledger: u32, stallBudget: int, answers: nat -> Answer, alive: nat -> bool)
      returns (outcome: Outcome, calls: nat, waits: seq<int>)
    requires stallBudget > 0
    ensures Explained(outcome, calls, ledger, stallBudget, answers, alive)
    ensures Failures(answers, calls, ledger) <= 10 && waits == PACE[..Failures(answers, calls, ledger)]
  {
    var backoff := SECOND;
    var attempt := 1;
    var tipWaited := 0;
    calls, waits := 0, [];

    while attempt <= MAX_LEDGER_FETCH_RETRIES
      invariant 1 <= attempt == Failures(answers, calls, ledger) + 1
      invariant tipWaited == Polls(answers, calls, ledger) * TIP_WAIT_INTERVAL < stallBudget
      invariant Paced(attempt - 1, waits, backoff)
      invariant attempt <= 10 ==> Undecided(answers, alive, calls, ledger, stallBudget)
      invariant attempt > 10 ==> Explained(GaveUp, calls, ledger, stallBudget, answers, alive)
      decreases MAX_LEDGER_FETCH_RETRIES + 1 - attempt, stallBudget - tipWaited
    {
      if !alive(calls) {
        StopsUndecided(calls, ledger, stallBudget, answers, alive);
        return Stopped, calls, waits;
      }
      var decided, next, waited :=
        Attempt(ledger, stallBudget, answers, alive, calls, attempt, tipWaited);
      waits, backoff := BackOff(attempt - 1, next - 1, waits, backoff);
      calls, attempt, tipWaited := calls + 1, next, waited;
      if decided.Some? {
        return decided.value, calls, waits;
      }
    }
    outcome := GaveUp;
  }

  /** What an answer that ends the fetch at once ends it with. */
  function Decided(reading: Reading): Outcome
    requires !reading.Poll? && !reading.Retry?
  {
    match reading
    case Ledger => Fetched
    case Stall => TipStalled
    case Cancel => Stopped
    case Lost => RetentionLost
  }

  lemma StopsUndecided(n: nat, ledger: u32, stallBudget: int, answers: nat -> Answer, alive: nat -> bool)
    requires Undecided(answers, alive, n, ledger, stallBudget) && !alive(n)
    ensures Explained(Stopped, n, ledger, stallBudget, answers, alive)
  {
    if n > 0 {
      assert Undecided(answers, alive, n - 1, ledger, stallBudget);
    }
  }

  /** What one more call on a living context leads to, by how its answer is read. */
  lemma ReadingDecides(n: nat, ledger: u32, stallBudget: int, answers: nat -> Answer, alive: nat -> bool)
    requires Undecided(answers, alive, n, ledger, stallBudget) && alive(n)
    ensures var reading, calls := Read(answers(n), ledger), n + 1;
      && (!reading.Poll? && !reading.Retry? ==>
            Explained(Decided(reading), calls, ledger, stallBudget, answers, alive))
      && Failures(answers, calls, ledger) == Failures(answers, n, ledger) + (if reading.Retry? then 1 else 0)
      && Polls(answers, calls, ledger) == Polls(answers, n, ledger) + (if reading.Poll? then 1 else 0)
    ensures Read(answers(n), ledger).Poll? ==>
      if Polls(answers, n + 1, ledger) * 1_000_000_000 >= stallBudget
      then Explained(TipStalled, n + 1, ledger, stallBudget, answers, alive)
      else Undecided(answers, alive, n + 1, ledger, stallBudget)
    ensures Read(answers(n), ledger).Retry? ==>
      if !alive(n + 1) then Explained(Stopped, n + 1, ledger, stallBudget, answers, alive)
      else if Failures(answers, n + 1, ledger) == 10 then Explained(GaveUp, n + 1, ledger, stallBudget, answers, alive)
      else Undecided(answers, alive, n + 1, ledger, stallBudget)
  {
    ReadingMeans(answers(n), ledger);
  }

  /** A fetch makes at most nine calls more than the stall budget has seconds, counted up. */
  lemma CallsBounded(outcome: Outcome, calls: nat, ledger: u32, stallBudget: int, answers: nat -> Answer,
                     alive: nat -> bool)
    requires stallBudget > 0 && Explained(outcome, calls, ledger, stallBudget, answers, alive)
    ensures (calls - 10) * 1_000_000_000 < stallBudget
  {
    if calls > 0 {
      EachCounts(calls - 1, ledger, answers);
    }
  }

  lemma {:induction false} EachCounts(n: nat, ledger: u32, answers: nat -> Answer)
    requires forall i :: 0 <= i < n ==> Transient(answers(i), ledger) || Ahead(answers(i), ledger)
    ensures n == Failures(answers, n, ledger) + Polls(answers, n, ledger)
  {
    if n > 0 {
      EachCounts(n - 1, ledger, answers);
    }
  }

  /** How the loop reads an answer, in terms of the numbers in it. */
  lemma ReadingMeans(a: Answer, ledger: u32)
    ensures Read(a, ledger) == Lost <==> Expired(a, ledger)
    ensures Read(a, ledger) == Poll <==> Ahead(a, ledger)
    ensures Read(a, ledger) == Retry <==> Transient(a, ledger)
    ensures Read(a, ledger) == Ledger <==> a.Got?
    ensures Read(a, ledger) == Stall <==> a.Blocked?
    ensures Read(a, ledger) == Cancel <==> a.ContextError?
  {
  }
}
