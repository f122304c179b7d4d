/**
 The durable state: a hot cursor file and a cold watchlist file, each replaced
 atomically, plus the cached watchlist text that makes an unchanged watchlist
 cost no write.

 A file's text is modelled by what it parses to. A watchlist text also carries
 its layout, because the cache compares bytes: two texts of one record may
 differ, while the encoder always produces layout 0.
 */
module StateStore {
  import opened Base
  import opened Ids

  /** A ledger hash by value; 0 stands for the empty string, hex case is immaterial. */
  type Hash = nat

  datatype Gap = Gap(fromLedger: u32, toLedger: u32, reason: string, detectedAt: int)

  datatype State = State(network: string, lastSeq: u32, lastHash: Hash,
                         escrows: seq<Id>, removed: seq<Id>, gaps: seq<Gap>)

  const NO_STATE := State("", 0, 0, [], [], [])

  /** What the configured path holds: the split cursor, a pre-split combined record, or junk. */
  datatype CursorDoc =
    | Cursor(network: string, lastSeq: u32, lastHash: Hash)
    | Combined(record: State)
    | BadCursor

  datatype WatchRecord = WatchRecord(network: string, escrows: seq<Id>, removed: seq<Id>, gaps: seq<Gap>)

  datatype WatchDoc = Watch(record: WatchRecord, layout: nat) | BadWatch

  datatype Disk = Disk(cursor: Option<CursorDoc>, watch: Option<WatchDoc>)

  /** What the process knows about the files it writes. */
  datatype Store = Store(disk: Disk, cache: Option<WatchDoc>)

  datatype LoadResult = Loaded(state: State) | NotFound(orphan: State) | Unreadable

  function EncodeWatch(st: State): WatchDoc {
    Watch(WatchRecord(st.network, st.escrows, st.removed, st.gaps), 0)
  }

  function EncodeCursor(st: State): CursorDoc {
    Cursor(st.network, st.lastSeq, st.lastHash)
  }

  function DecodeCursor(doc: CursorDoc): Option<State> {
    match doc
    case Cursor(network, seq', hash) => Some(State(network, seq', hash, [], [], []))
    case Combined(record) => Some(record)
    case BadCursor => None
  }

  function LoadFrom(d: Disk): LoadResult {
    match d.cursor
    case None =>
      (match d.watch
       case None => NotFound(NO_STATE)
       case Some(BadWatch) => Unreadable
       case Some(Watch(w, _)) => NotFound(State(w.network, 0, 0, w.escrows, w.removed, w.gaps)))
    case Some(doc) =>
      match DecodeCursor(doc)
      case None => Unreadable
      case Some(st) =>
        match d.watch
        case None => Loaded(st)
        case Some(BadWatch) => Unreadable
        case Some(Watch(w, _)) => Loaded(st.(escrows := w.escrows, removed := w.removed, gaps := w.gaps))
  }

  /** The cache after a load: the text read, when the load got as far as reading one. */
  function CacheAfterLoad(s: Store): Option<WatchDoc> {
    match LoadFrom(s.disk)
    case Unreadable => s.cache
    case _ => if s.disk.watch.Some? then s.disk.watch else s.cache
  }

  /** First atomic write of a save, skipped when the text is the cached one. */
  function SaveWatch(s: Store, st: State): Store {
    var doc := EncodeWatch(st);
    if s.cache == Some(doc) then s
    else Store(s.disk.(watch := Some(doc)), Some(doc))
  }

  /** Second atomic write of a save. */
  function SaveCursor(s: Store, st: State): Store {
    s.(disk := s.disk.(cursor := Some(EncodeCursor(st))))
  }

  function Saved(s: Store, st: State): Store {
    SaveCursor(SaveWatch(s, st), st)
  }

  /** The files an interrupted save can leave: it stopped before, between or after its two writes. */
  predicate Torn(was: Store, st: State, now: Disk) {
    now == was.disk || now == SaveWatch(was, st).disk || now == Saved(was, st).disk
  }

  /** A non-empty cache is exactly the text on disk. */
  ghost predicate CacheTrue(s: Store) {
    s.cache.Some? ==> s.disk.watch == s.cache
  }

  /** A completed save reloads to exactly what was saved, skipped write or not. */
  lemma SaveReloads(s: Store, st: State)
    requires CacheTrue(s)
    ensures CacheTrue(Saved(s, st))
    ensures LoadFrom(Saved(s, st).disk) == Loaded(st)
  {
    assert SaveWatch(s, st).disk.watch == Some(EncodeWatch(st));
  }

  // ---- Crash safety over whole histories -------------------------------------------------

  /**
   One save attempt and how far it got before the process died, or a plain
   restart. Every outcome but Completed is followed by a restart, which loads.
   */
  datatype Attempt =
    | Completed(st: State)
    | TornBefore(st: State)
    | TornBetween(st: State)
    | TornAfter(st: State)
    | Restart

  function Reopened(disk: Disk): Store {
    Store(disk, CacheAfterLoad(Store(disk, None)))
  }

  function After(s: Store, e: Attempt): Store {
    match e
    case Completed(st) => Saved(s, st)
    case TornBefore(_) => Reopened(s.disk)
    case TornBetween(st) => Reopened(SaveWatch(s, st).disk)
    case TornAfter(st) => Reopened(Saved(s, st).disk)
    case Restart => Reopened(s.disk)
  }

  function AfterAll(s: Store, attempts: seq<Attempt>): Store {
    if |attempts| == 0 then s else After(AfterAll(s, attempts[..|attempts| - 1]), attempts[|attempts| - 1])
  }

  predicate MovesCursor(e: Attempt) {
    e.Completed? || e.TornAfter?
  }

  predicate MovesWatch(e: Attempt) {
    MovesCursor(e) || e.TornBetween?
  }

  /** Index of the last event whose cursor write landed, -1 if none. */
  function LastCursor(attempts: seq<Attempt>): (i: int)
    ensures -1 <= i < |attempts|
    ensures i >= 0 ==> MovesCursor(attempts[i])
    ensures forall j :: i < j < |attempts| ==> !MovesCursor(attempts[j])
  {
    if |attempts| == 0 then -1
    else if MovesCursor(attempts[|attempts| - 1]) then |attempts| - 1
    else LastCursor(attempts[..|attempts| - 1])
  }

  /** Index of the last event whose watchlist stage was passed, -1 if none. */
  function LastWatch(attempts: seq<Attempt>): (i: int)
    ensures -1 <= i < |attempts|
    ensures i >= 0 ==> MovesWatch(attempts[i])
    ensures forall j :: i < j < |attempts| ==> !MovesWatch(attempts[j])
  {
    if |attempts| == 0 then -1
    else if MovesWatch(attempts[|attempts| - 1]) then |attempts| - 1
    else LastWatch(attempts[..|attempts| - 1])
  }

  /** The record the two files add up to: one save's cursor under another save's watchlist. */
  function Merged(cursor: State, watch: State): State {
    cursor.(escrows := watch.escrows, removed := watch.removed, gaps := watch.gaps)
  }

  lemma {:induction false} CacheTrueAlways(s: Store, attempts: seq<Attempt>)
    requires CacheTrue(s)
    ensures CacheTrue(AfterAll(s, attempts))
  {
    if |attempts| > 0 {
      CacheTrueAlways(s, attempts[..|attempts| - 1]);
    }
  }

  /** Each file holds what the last event to pass its stage wrote, or what it held at first. */
  lemma {:induction false} FilesHoldLastWrites(s: Store, attempts: seq<Attempt>)
    requires CacheTrue(s)
    ensures var d := AfterAll(s, attempts).disk; var c := LastCursor(attempts); var w := LastWatch(attempts);
      && d.cursor == (if c < 0 then s.disk.cursor else Some(EncodeCursor(attempts[c].st)))
      && d.watch == (if w < 0 then s.disk.watch else Some(EncodeWatch(attempts[w].st)))
  {
    if |attempts| > 0 {
      var n := |attempts| - 1;
      FilesHoldLastWrites(s, attempts[..n]);
      CacheTrueAlways(s, attempts[..n]);
    }
  }

  /**
   Two-file crash safety: whatever was attempted and wherever it died, a load
   yields the cursor of the last save whose cursor landed, under the watchlist
   of that very save or of a later attempt, never of an earlier one.
   */
  lemma {:induction false} TwoFileSafety(s: Store, attempts: seq<Attempt>)
    requires CacheTrue(s) && LastCursor(attempts) >= 0
    ensures 0 <= LastCursor(attempts) <= LastWatch(attempts)
    ensures LoadFrom(AfterAll(s, attempts).disk)
         == Loaded(Merged(attempts[LastCursor(attempts)].st, attempts[LastWatch(attempts)].st))
    ensures LastWatch(attempts) == LastCursor(attempts) ==>
      LoadFrom(AfterAll(s, attempts).disk) == Loaded(attempts[LastCursor(attempts)].st)
    ensures LastWatch(attempts) > LastCursor(attempts) ==> attempts[LastWatch(attempts)].TornBetween?
  {
    FilesHoldLastWrites(s, attempts);
  }

  /**
   Before any cursor has landed: a legacy record keeps its cursor while a torn
   migration may already have refreshed its lists, and a fresh deployment comes
   back as an orphan watchlist, never as an invented cursor.
   */
  lemma {:induction false} BeforeFirstCursor(s: Store, attempts: seq<Attempt>)
    requires CacheTrue(s) && LastCursor(attempts) < 0
    ensures AfterAll(s, attempts).disk.cursor == s.disk.cursor
    ensures LastWatch(attempts) < 0 ==> LoadFrom(AfterAll(s, attempts).disk) == LoadFrom(s.disk)
    ensures LastWatch(attempts) >= 0 && s.disk.cursor.None? ==>
      LoadFrom(AfterAll(s, attempts).disk) ==
        NotFound(attempts[LastWatch(attempts)].st.(lastSeq := 0, lastHash := 0))
    ensures LastWatch(attempts) >= 0 && s.disk.cursor.Some? && s.disk.cursor.value.Combined? ==>
      LoadFrom(AfterAll(s, attempts).disk) ==
        Loaded(Merged(s.disk.cursor.value.record, attempts[LastWatch(attempts)].st))
  {
    FilesHoldLastWrites(s, attempts);
  }

  // ---- Reading the watchlist beside a running indexer --------------------------------------

  /** The lock-free reader of replay runs. None stands for a corrupt file. */
  function ReadOnlyWatchlist(d: Disk): Option<(seq<Id>, seq<Id>)> {
    match d.watch
    case Some(Watch(w, _)) => Some((w.escrows, w.removed))
    case Some(BadWatch) => None
    case None =>
      match d.cursor
      case None => Some(([], []))
      case Some(doc) =>
        match DecodeCursor(doc)
        case None => None
        case Some(st) => Some((st.escrows, st.removed))
  }

  /** It returns the very lists a load would, and fails only where a load fails. */
  lemma ReplaySeesWhatLoadSees(d: Disk)
    ensures match LoadFrom(d)
            case Loaded(st) => ReadOnlyWatchlist(d) == Some((st.escrows, st.removed))
            case NotFound(st) => ReadOnlyWatchlist(d) == Some((st.escrows, st.removed))
            case Unreadable => ReadOnlyWatchlist(d).None? || d.cursor == Some(BadCursor)
  {
    match d.cursor {
      case None =>
      case Some(doc) =>
        if doc.BadCursor? {
          assert LoadFrom(d) == Unreadable;
        }
    }
  }

  // ---- The store itself ----------------------------------------------------------------------

  /** The two files. Replacing one is atomic; the answer may be lost with the process. */
  class Drive {
    var cursor: Option<CursorDoc>
    var watch: Option<WatchDoc>

    function Files(): Disk
      reads this
    {
      Disk(cursor, watch)
    }

    method ReplaceWatch(doc: WatchDoc) returns (ok: bool)
      modifies this`watch
      ensures ok ==> watch == Some(doc)
      ensures watch == Some(doc) || watch == old(watch)
    {
      var renamed: bool, answered: bool := *, *;
      if renamed {
        watch := Some(doc);
      }
      ok := renamed && answered;
    }

    method ReplaceCursor(doc: CursorDoc) returns (ok: bool)
      modifies this`cursor
      ensures ok ==> cursor == Some(doc)
      ensures cursor == Some(doc) || cursor == old(cursor)
    {
      var renamed: bool, answered: bool := *, *;
      if renamed {
        cursor := Some(doc);
      }
      ok := renamed && answered;
    }
  }

  class FileStore {
    const drive: Drive
    var lastWatchlist: Option<WatchDoc>

    function Value(): Store
      reads this, drive
    {
      Store(drive.Files(), lastWatchlist)
    }

    constructor (drive: Drive)
      ensures this.drive == drive && lastWatchlist == None
    {
      this.drive := drive;
      lastWatchlist := None;
    }

    /** Reads and merges both files; a read the operating system refuses is Unreadable too. */
    method Load() returns (r: LoadResult)
      modifies this
      ensures r == LoadFrom(drive.Files()) || r == Unreadable
      ensures r != Unreadable ==> lastWatchlist == CacheAfterLoad(old(Value()))
      ensures r == Unreadable ==> lastWatchlist == old(lastWatchlist)
    {
      var readable: bool := *;
      if !readable {
        return Unreadable;
      }
      if drive.cursor.None? {
        r := LoadOrphanWatchlist();
        return;
      }
      var parsed := DecodeCursor(drive.cursor.value);
      if parsed.None? {
        return Unreadable;
      }
      if drive.watch.None? {
        return Loaded(parsed.value);
      }
      if drive.watch.value.BadWatch? {
        return Unreadable;
      }
      var w := drive.watch.value.record;
      var st := parsed.value.(escrows := w.escrows, removed := w.removed, gaps := w.gaps);
      lastWatchlist := drive.watch;
      return Loaded(st);
    }

    method LoadOrphanWatchlist() returns (r: LoadResult)
      requires drive.cursor.None?
      modifies this
      ensures r == LoadFrom(drive.Files())
      ensures lastWatchlist == CacheAfterLoad(old(Value()))
    {
      if drive.watch.None? {
        return NotFound(NO_STATE);
      }
      if drive.watch.value.BadWatch? {
        return Unreadable;
      }
      var w := drive.watch.value.record;
      lastWatchlist := drive.watch;
      return NotFound(State(w.network, 0, 0, w.escrows, w.removed, w.gaps));
    }

    /**
     Watchlist first, when its text changed, then the cursor. A save that
     reports failure left the files before, between or after the two writes.
     */
    method Save(st: State) returns (ok: bool)
      modifies this, drive
      ensures ok ==> Value() == Saved(old(Value()), st)
      ensures !ok ==> Torn(old(Value()), st, drive.Files())
    {
      var doc := EncodeWatch(st);
      if Some(doc) != lastWatchlist {
        ok := drive.ReplaceWatch(doc);
        if !ok {
          return;
        }
        lastWatchlist := Some(doc);
      }
      ok := drive.ReplaceCursor(EncodeCursor(st));
    }
  }
}
