/** Concurrent `initiate_charge` calls, split where another session can come in between: take the
    lock, look for an open charge, look for the key, flush the new row, push, commit. The commit may
    be refused, which is what a repeated gateway reference brings about.

    What a caller computes from the rows it read (period start and attempt) is left arbitrary, so
    nothing here rests on callers having read current values. */
module BillingConcurrency {
  import opened Options
  import opened BillingModel

  type Tid = nat

  /** A row inserted by a transaction that has not committed is invisible to reads and visible to the
      indexes; one that was rolled back is visible to neither. */
  datatype Mark = InFlight | Committed | Gone

  /** A charge row as the unique indexes see it. */
  datatype Row = Row(sub: SubId, start: Time, key: Key, open: bool, mark: Mark)

  /** Where a call has got to. */
  datatype Thread =
    | Ready(sub: SubId)
    | Holding(sub: SubId)
    | SawNoOpen(sub: SubId)
    | SawNoKey(sub: SubId, start: Time, key: Key)
    | Flushed(sub: SubId, row: nat)
    | Prompted(sub: SubId, row: nat)
    | Done

  /** locking is false on SQLite, where the row lock is not taken. */
  datatype Db = Db(
    locking: bool,
    rows: seq<Row>,
    threads: map<Tid, Thread>,
    locks: map<SubId, Tid>,
    prompts: seq<Key>)

  datatype Outcome = NoOwner | PushFailed | AnsweredAtOnce | AwaitsPin

  datatype Act =
    | Call(t: Tid, sub: SubId)
    | TakeLock(t: Tid)
    | ReadOpen(t: Tid)
    | ReadKey(t: Tid, start: Time, attempt: nat)
    | Flush(t: Tid)
    | PushPrompt(t: Tid, outcome: Outcome)
    | Commit(t: Tid, accepted: bool)
    | Settle(row: nat)

  predicate At(db: Db, t: Tid) { t in db.threads }

  function Move(db: Db, t: Tid, th: Thread): Db { db.(threads := db.threads[t := th]) }

  /** The call returns and its transaction ends. */
  function Return(db: Db, t: Tid, sub: SubId): Db {
    Move(db, t, Done).(locks := if db.locking then db.locks - {sub} else db.locks)
  }

  predicate SeesOpen(db: Db, sub: SubId) {
    exists i :: 0 <= i < |db.rows| && db.rows[i].sub == sub && db.rows[i].open && db.rows[i].mark.Committed?
  }

  predicate SeesKey(db: Db, key: Key) {
    exists i :: 0 <= i < |db.rows| && db.rows[i].key == key && db.rows[i].mark.Committed?
  }

  /** A unique index is against the new row: the key is taken, or the period has an open charge. */
  predicate Clashes(row: Row, sub: SubId, start: Time, key: Key) {
    row.key == key || (row.open && row.sub == sub && row.start == start)
  }

  predicate Conflicts(db: Db, sub: SubId, start: Time, key: Key) {
    exists i :: 0 <= i < |db.rows| && !db.rows[i].mark.Gone? && Clashes(db.rows[i], sub, start, key)
  }

  /** A committed row makes the index refuse; a clash with a row in flight only makes the insert wait
      for that transaction. */
  predicate Refuses(db: Db, sub: SubId, start: Time, key: Key) {
    exists i :: 0 <= i < |db.rows| && db.rows[i].mark.Committed? && Clashes(db.rows[i], sub, start, key)
  }

  /** One action; one that is not enabled leaves everything as it is. */
  function Step(db: Db, a: Act): Db {
    match a
    case Call(t, sub) =>
      if At(db, t) then db else Move(db, t, Ready(sub))
    case TakeLock(t) =>
      if !At(db, t) || !db.threads[t].Ready? then db
      else
        var sub := db.threads[t].sub;
        if !db.locking then Move(db, t, Holding(sub))
        else if sub in db.locks then db
        else Move(db, t, Holding(sub)).(locks := db.locks[sub := t])
    case ReadOpen(t) =>
      if !At(db, t) || !db.threads[t].Holding? then db
      else
        var sub := db.threads[t].sub;
        if SeesOpen(db, sub) then Return(db, t, sub) else Move(db, t, SawNoOpen(sub))
    case ReadKey(t, start, attempt) =>
      if !At(db, t) || !db.threads[t].SawNoOpen? then db
      else
        var sub := db.threads[t].sub;
        var key := Key(sub, DayOf(start), attempt);
        if SeesKey(db, key) then Return(db, t, sub) else Move(db, t, SawNoKey(sub, start, key))
    case Flush(t) =>
      if !At(db, t) || !db.threads[t].SawNoKey? then db
      else
        var th := db.threads[t];
        if Refuses(db, th.sub, th.start, th.key) then Return(db, t, th.sub)
        else if Conflicts(db, th.sub, th.start, th.key) then db
        else Move(db, t, Flushed(th.sub, |db.rows|)).(rows := db.rows + [Row(th.sub, th.start, th.key, true, InFlight)])
    case PushPrompt(t, outcome) =>
      if !At(db, t) || !db.threads[t].Flushed? || db.threads[t].row >= |db.rows| then db
      else
        var th := db.threads[t];
        var row := db.rows[th.row];
        Move(db, t, Prompted(th.sub, th.row)).(
          rows := db.rows[th.row := row.(open := outcome.AwaitsPin?)],
          prompts := if outcome.NoOwner? then db.prompts else db.prompts + [row.key])
    case Commit(t, accepted) =>
      if !At(db, t) || !db.threads[t].Prompted? || db.threads[t].row >= |db.rows| then db
      else
        var th := db.threads[t];
        var row := db.rows[th.row];
        Return(db, t, th.sub).(
          rows := db.rows[th.row := if accepted then row.(mark := Committed) else row.(open := false, mark := Gone)])
    case Settle(row) =>
      if row >= |db.rows| || !db.rows[row].mark.Committed? || (db.locking && db.rows[row].sub in db.locks) then db
      else db.(rows := db.rows[row := db.rows[row].(open := false)])
  }

  function Interleave(db: Db, acts: seq<Act>): Db
    decreases |acts|
  {
    if acts == [] then db else Interleave(Step(db, acts[0]), acts[1..])
  }

  function Start(locking: bool): Db { Db(locking, [], map[], map[], []) }

  // -------------------------------------------------- what the indexes guarantee

  ghost predicate KeysUnique(db: Db) {
    forall i, j :: 0 <= i < j < |db.rows| && !db.rows[i].mark.Gone? && !db.rows[j].mark.Gone? ==>
      db.rows[i].key != db.rows[j].key
  }

  ghost predicate GoneClosed(db: Db) {
    forall i :: 0 <= i < |db.rows| && db.rows[i].mark.Gone? ==> !db.rows[i].open
  }

  /** At most one open charge per subscription and period start. */
  ghost predicate OneOpenPerPeriod(db: Db) {
    forall i, j :: 0 <= i < j < |db.rows| && db.rows[i].open && db.rows[j].open && db.rows[i].sub == db.rows[j].sub ==>
      db.rows[i].start != db.rows[j].start
  }

  predicate OwnsRow(th: Thread) { th.Flushed? || th.Prompted? }

  /** A call that has inserted a row owns it, and it stays invisible until the call commits. */
  ghost predicate OwnerOk(db: Db, t: Tid)
    requires t in db.threads && OwnsRow(db.threads[t])
  {
    var th := db.threads[t];
    && th.row < |db.rows| && db.rows[th.row].mark.InFlight? && db.rows[th.row].sub == th.sub
    && (th.Flushed? ==> db.rows[th.row].open)
  }

  ghost predicate RowsOwned(db: Db) { forall t :: t in db.threads && OwnsRow(db.threads[t]) ==> OwnerOk(db, t) }

  ghost predicate OwnersApart(db: Db) {
    forall t, u :: t in db.threads && u in db.threads && t != u && OwnsRow(db.threads[t]) && OwnsRow(db.threads[u]) ==>
      db.threads[t].row != db.threads[u].row
  }

  ghost predicate Pushed(db: Db, i: int) {
    0 <= i < |db.rows| && forall t :: t in db.threads && db.threads[t].Flushed? ==> db.threads[t].row != i
  }

  ghost predicate PushedFor(db: Db, key: Key) { exists i :: Pushed(db, i) && db.rows[i].key == key }

  /** Every prompt belongs to a row whose push is behind it. */
  ghost predicate PromptsFromRows(db: Db) {
    forall p :: 0 <= p < |db.prompts| ==> PushedFor(db, db.prompts[p])
  }

  /** A row with this key was rolled back. */
  predicate Refused(db: Db, key: Key) { exists i :: 0 <= i < |db.rows| && db.rows[i].key == key && db.rows[i].mark.Gone? }

  /** No key is prompted for twice, unless a commit for it was refused. */
  ghost predicate PromptsUnique(db: Db) {
    forall p, q :: 0 <= p < q < |db.prompts| && db.prompts[p] == db.prompts[q] ==> Refused(db, db.prompts[p])
  }

  ghost predicate Safe(db: Db) {
    && KeysUnique(db) && OneOpenPerPeriod(db) && GoneClosed(db)
    && RowsOwned(db) && OwnersApart(db) && PromptsFromRows(db) && PromptsUnique(db)
  }

  /** Threads move, rows keep their keys, nothing is prompted. */
  lemma PromptsCarryOver(db: Db, db': Db)
    requires PromptsFromRows(db) && PromptsUnique(db) && db'.prompts == db.prompts
    requires |db.rows| <= |db'.rows|
    requires forall i :: 0 <= i < |db.rows| ==>
               db'.rows[i].key == db.rows[i].key && (db.rows[i].mark.Gone? ==> db'.rows[i].mark.Gone?)
    requires forall i :: Pushed(db, i) ==> Pushed(db', i)
    ensures PromptsFromRows(db') && PromptsUnique(db')
  {
    forall p | 0 <= p < |db'.prompts| ensures PushedFor(db', db'.prompts[p]) {
      assert PushedFor(db, db.prompts[p]);
      var i :| Pushed(db, i) && db.rows[i].key == db.prompts[p];
      assert Pushed(db', i);
    }
    forall key | Refused(db, key) ensures Refused(db', key) {
      var i :| 0 <= i < |db.rows| && db.rows[i].key == key && db.rows[i].mark.Gone?;
      assert db'.rows[i].key == key;
    }
  }

  lemma FlushKeepsIndexes(db: Db, t: Tid)
    requires KeysUnique(db) && OneOpenPerPeriod(db) && GoneClosed(db)
    ensures KeysUnique(Step(db, Flush(t))) && OneOpenPerPeriod(Step(db, Flush(t))) && GoneClosed(Step(db, Flush(t)))
  {
  }

  lemma FlushKeepsOwners(db: Db, t: Tid)
    requires RowsOwned(db)
    ensures RowsOwned(Step(db, Flush(t)))
  {
    var db' := Step(db, Flush(t));
    forall u | u in db'.threads && OwnsRow(db'.threads[u]) ensures OwnerOk(db', u) {
      if db' != db && u != t { assert OwnerOk(db, u); }
    }
  }

  lemma FlushKeepsApart(db: Db, t: Tid)
    requires RowsOwned(db) && OwnersApart(db)
    ensures OwnersApart(Step(db, Flush(t)))
  {
    forall u | u in db.threads && OwnsRow(db.threads[u]) ensures db.threads[u].row < |db.rows| {
      assert OwnerOk(db, u);
    }
  }

  lemma FlushSafe(db: Db, t: Tid)
    requires Safe(db)
    ensures Safe(Step(db, Flush(t)))
  {
    FlushKeepsIndexes(db, t);
    FlushKeepsOwners(db, t);
    FlushKeepsApart(db, t);
    PromptsCarryOver(db, Step(db, Flush(t)));
  }

  /** If a row whose push is still ahead has a key that was prompted for, an earlier row with that
      key was rolled back. */
  lemma NotYetPrompted(db: Db, t: Tid)
    requires Safe(db) && t in db.threads && db.threads[t].Flushed?
    ensures var key := db.rows[db.threads[t].row].key; key in db.prompts ==> Refused(db, key)
  {
    var i := db.threads[t].row;
    var key := db.rows[i].key;
    if key in db.prompts {
      var p :| 0 <= p < |db.prompts| && db.prompts[p] == key;
      assert PushedFor(db, db.prompts[p]);
      var k :| Pushed(db, k) && db.rows[k].key == key;
      assert k < i || i < k;
      assert db.rows[k].mark.Gone?;
    }
  }

  lemma AppendPrompt(db: Db, key: Key)
    requires PromptsUnique(db) && PromptsFromRows(db) && PushedFor(db, key) && (key in db.prompts ==> Refused(db, key))
    ensures var db' := db.(prompts := db.prompts + [key]); PromptsUnique(db') && PromptsFromRows(db')
  {
    var db' := db.(prompts := db.prompts + [key]);
    forall k | PushedFor(db, k) ensures PushedFor(db', k) {
      var i :| Pushed(db, i) && db.rows[i].key == k;
      assert Pushed(db', i);
    }
    forall k | Refused(db, k) ensures Refused(db', k) {
      var i :| 0 <= i < |db.rows| && db.rows[i].key == k && db.rows[i].mark.Gone?;
      assert db'.rows[i].key == k;
    }
  }

  lemma PushSafe(db: Db, t: Tid, outcome: Outcome)
    requires Safe(db)
    ensures Safe(Step(db, PushPrompt(t, outcome)))
  {
    var db' := Step(db, PushPrompt(t, outcome));
    if t in db.threads && db.threads[t].Flushed? {
      assert OwnerOk(db, t);
      var i := db.threads[t].row;
      var key := db.rows[i].key;
      var silent := db'.(prompts := db.prompts);
      PushedRowsSafe(db, t, outcome);
      NotYetPrompted(db, t);
      if outcome.NoOwner? {
        assert db' == silent;
      } else {
        assert Pushed(silent, i) by {
          forall u | u in silent.threads && silent.threads[u].Flushed? ensures silent.threads[u].row != i {
            assert u != t && OwnsRow(db.threads[u]);
          }
        }
        if key in db.prompts { RefusedStays(db, silent, key); }
        AppendPrompt(silent, key);
        assert db' == silent.(prompts := silent.prompts + [key]);
      }
    }
  }

  lemma RefusedStays(db: Db, db': Db, key: Key)
    requires Refused(db, key) && |db.rows| <= |db'.rows|
    requires forall i :: 0 <= i < |db.rows| ==>
               db'.rows[i].key == db.rows[i].key && (db.rows[i].mark.Gone? ==> db'.rows[i].mark.Gone?)
    ensures Refused(db', key)
  {
    var i :| 0 <= i < |db.rows| && db.rows[i].key == key && db.rows[i].mark.Gone?;
    assert db'.rows[i].key == key;
  }

  lemma PushKeepsIndexes(db: Db, t: Tid, outcome: Outcome)
    requires KeysUnique(db) && OneOpenPerPeriod(db) && GoneClosed(db) && RowsOwned(db)
    requires t in db.threads && db.threads[t].Flushed?
    ensures KeysUnique(Step(db, PushPrompt(t, outcome))) && OneOpenPerPeriod(Step(db, PushPrompt(t, outcome)))
    ensures GoneClosed(Step(db, PushPrompt(t, outcome)))
  {
    assert OwnerOk(db, t);
  }

  lemma PushKeepsOwners(db: Db, t: Tid, outcome: Outcome)
    requires RowsOwned(db) && OwnersApart(db) && t in db.threads && db.threads[t].Flushed?
    ensures RowsOwned(Step(db, PushPrompt(t, outcome))) && OwnersApart(Step(db, PushPrompt(t, outcome)))
  {
    var db' := Step(db, PushPrompt(t, outcome));
    assert OwnerOk(db, t);
    forall u | u in db'.threads && OwnsRow(db'.threads[u]) ensures OwnerOk(db', u) {
      assert OwnerOk(db, u);
    }
  }

  /** The part of a push that is not the prompt. */
  lemma PushedRowsSafe(db: Db, t: Tid, outcome: Outcome)
    requires Safe(db) && t in db.threads && db.threads[t].Flushed?
    ensures Safe(Step(db, PushPrompt(t, outcome)).(prompts := db.prompts))
  {
    var db' := Step(db, PushPrompt(t, outcome));
    assert OwnerOk(db, t);
    PushKeepsIndexes(db, t, outcome);
    PushKeepsOwners(db, t, outcome);
    SilentSafe(db', db.prompts);
    var silent := db'.(prompts := db.prompts);
    PromptsCarryOver(db, silent);
  }

  /** Nothing but the last two parts of the invariant looks at the prompts. */
  lemma SilentSafe(db: Db, prompts: seq<Key>)
    requires KeysUnique(db) && OneOpenPerPeriod(db) && GoneClosed(db) && RowsOwned(db) && OwnersApart(db)
    ensures var silent := db.(prompts := prompts);
            KeysUnique(silent) && OneOpenPerPeriod(silent) && GoneClosed(silent) && RowsOwned(silent) && OwnersApart(silent)
  {
    var silent := db.(prompts := prompts);
    forall u | u in silent.threads && OwnsRow(silent.threads[u]) ensures OwnerOk(silent, u) {
      assert OwnerOk(db, u);
    }
  }

  /** A call that owns no row moves on without one. */
  lemma MoveSafe(db: Db, db': Db, t: Tid, th: Thread)
    requires Safe(db) && db'.rows == db.rows && db'.prompts == db.prompts && db'.threads == db.threads[t := th]
    requires t in db.threads ==> !db.threads[t].Flushed?
    requires !OwnsRow(th)
    ensures Safe(db')
  {
    PromptsCarryOver(db, db');
    forall u | u in db'.threads && OwnsRow(db'.threads[u]) ensures OwnerOk(db', u) {
      assert OwnerOk(db, u);
    }
  }

  lemma CommitKeepsIndexes(db: Db, i: nat, row: Row)
    requires KeysUnique(db) && OneOpenPerPeriod(db) && GoneClosed(db) && i < |db.rows| && !db.rows[i].mark.Gone?
    requires row == db.rows[i].(mark := Committed) || row == db.rows[i].(open := false, mark := Gone)
             || row == db.rows[i].(open := false)
    ensures var db' := db.(rows := db.rows[i := row]); KeysUnique(db') && OneOpenPerPeriod(db') && GoneClosed(db')
  {
  }

  lemma CommitKeepsOwners(db: Db, t: Tid, accepted: bool)
    requires RowsOwned(db) && OwnersApart(db) && t in db.threads && db.threads[t].Prompted?
    ensures RowsOwned(Step(db, Commit(t, accepted))) && OwnersApart(Step(db, Commit(t, accepted)))
  {
    var db' := Step(db, Commit(t, accepted));
    assert OwnerOk(db, t);
    forall u | u in db'.threads && OwnsRow(db'.threads[u]) ensures OwnerOk(db', u) {
      assert u != t && OwnerOk(db, u);
    }
  }

  lemma CommitSafe(db: Db, t: Tid, accepted: bool)
    requires Safe(db)
    ensures Safe(Step(db, Commit(t, accepted)))
  {
    var db' := Step(db, Commit(t, accepted));
    if t in db.threads && db.threads[t].Prompted? {
      assert OwnerOk(db, t);
      CommitKeepsIndexes(db, db.threads[t].row, db'.rows[db.threads[t].row]);
      CommitKeepsOwners(db, t, accepted);
      PromptsCarryOver(db, db');
    }
  }

  lemma SettleSafe(db: Db, row: nat)
    requires Safe(db)
    ensures Safe(Step(db, Settle(row)))
  {
    var db' := Step(db, Settle(row));
    if db' != db {
      CommitKeepsIndexes(db, row, db'.rows[row]);
      forall u | u in db'.threads && OwnsRow(db'.threads[u]) ensures OwnerOk(db', u) {
        assert OwnerOk(db, u);
      }
      PromptsCarryOver(db, db');
    }
  }

  /** These actions only move their thread on, and before it has a row. */
  lemma OtherMoves(db: Db, a: Act)
    requires (a.Call? || a.TakeLock? || a.ReadOpen? || a.ReadKey?) && Step(db, a) != db
    ensures var db' := Step(db, a);
            && a.t in db'.threads && db'.rows == db.rows && db'.prompts == db.prompts
            && db'.threads == db.threads[a.t := db'.threads[a.t]] && !OwnsRow(db'.threads[a.t])
            && (a.t in db.threads ==> !db.threads[a.t].Flushed?)
  {
  }

  lemma OtherSafe(db: Db, a: Act)
    requires Safe(db) && (a.Call? || a.TakeLock? || a.ReadOpen? || a.ReadKey?)
    ensures Safe(Step(db, a))
  {
    var db' := Step(db, a);
    if db' != db {
      OtherMoves(db, a);
      MoveSafe(db, db', a.t, db'.threads[a.t]);
    }
  }

  /** Under any interleaving, locked or not: keys are unique, a subscription has at most one open
      charge per period, and no key is prompted for twice unless a commit for it was refused. */
  lemma {:induction false} AnyInterleavingIsSafe(db: Db, acts: seq<Act>)
    requires Safe(db)
    ensures Safe(Interleave(db, acts))
    decreases |acts|
  {
    if acts != [] {
      match acts[0] {
        case Flush(t) => FlushSafe(db, t);
        case PushPrompt(t, outcome) => PushSafe(db, t, outcome);
        case Commit(t, accepted) => CommitSafe(db, t, accepted);
        case Settle(row) => SettleSafe(db, row);
        case _ => OtherSafe(db, acts[0]);
      }
      AnyInterleavingIsSafe(Step(db, acts[0]), acts[1..]);
    }
  }

  // ----------------------------------------------------- what the row lock adds

  predicate InSection(th: Thread) { !th.Ready? && !th.Done? }

  predicate OpenFor(db: Db, sub: SubId) {
    exists i :: 0 <= i < |db.rows| && db.rows[i].sub == sub && db.rows[i].open
  }

  ghost predicate LocksHeld(db: Db) {
    forall t :: t in db.threads && InSection(db.threads[t]) ==>
      db.threads[t].sub in db.locks && db.locks[db.threads[t].sub] == t
  }

  /** What a call has read under the lock is still so, counting rows not committed yet. */
  ghost predicate ReadsStillTrue(db: Db) {
    forall t :: t in db.threads ==>
      match db.threads[t]
      case SawNoOpen(sub) => !OpenFor(db, sub)
      case SawNoKey(sub, start, key) =>
        key.sub == sub && !OpenFor(db, sub) && forall i :: 0 <= i < |db.rows| && !db.rows[i].mark.Gone? ==> db.rows[i].key != key
      case _ => true
  }

  /** A row that is not committed belongs to a call still in its section. */
  ghost predicate InFlightOwned(db: Db) {
    forall i :: 0 <= i < |db.rows| && db.rows[i].mark.InFlight? ==>
      exists t :: t in db.threads && OwnsRow(db.threads[t]) && db.threads[t].row == i
  }

  ghost predicate OneOpen(db: Db) {
    forall i, j :: 0 <= i < j < |db.rows| && db.rows[i].open && db.rows[j].open ==> db.rows[i].sub != db.rows[j].sub
  }

  ghost predicate Locked(db: Db) {
    && db.locking && Safe(db) && LocksHeld(db) && ReadsStillTrue(db) && InFlightOwned(db) && OneOpen(db)
    && (forall i :: 0 <= i < |db.rows| ==> db.rows[i].key.sub == db.rows[i].sub)
  }

  /** With no call in flight on a subscription but t itself, which has no row yet, no row of it is
      hidden. */
  lemma NoHiddenRows(db: Db, t: Tid, i: nat)
    requires Locked(db) && t in db.threads && (db.threads[t].Holding? || db.threads[t].SawNoOpen?)
    requires i < |db.rows| && db.rows[i].sub == db.threads[t].sub
    ensures !db.rows[i].mark.InFlight?
  {
  }

  /** With the lock, the index never has to refuse anything. */
  lemma FlushNeverRefused(db: Db, t: Tid)
    requires Locked(db) && t in db.threads && db.threads[t].SawNoKey?
    ensures !Conflicts(db, db.threads[t].sub, db.threads[t].start, db.threads[t].key)
  {
    assert !OpenFor(db, db.threads[t].sub);
  }

  /** Every call that owned a row keeps it, and the rows' commit marks are unchanged, except that
      the rows of calls that returned are committed. */
  lemma CallLocked(db: Db, t: Tid, sub: SubId)
    requires Locked(db)
    ensures Locked(Step(db, Call(t, sub)))
  {
    OtherSafe(db, Call(t, sub));
    MovesKeepOwners(db, Step(db, Call(t, sub)), t);
  }

  /** Moving a call that owns no row leaves the owners as they are. */
  lemma MovesKeepOwners(db: Db, db': Db, t: Tid)
    requires InFlightOwned(db) && db'.rows == db.rows
    requires forall u :: u in db.threads && u != t ==> u in db'.threads && db'.threads[u] == db.threads[u]
    requires t in db.threads ==> (!OwnsRow(db.threads[t])) || db'.threads == db.threads
    ensures InFlightOwned(db')
  {
    forall i | 0 <= i < |db'.rows| && db'.rows[i].mark.InFlight?
      ensures exists u :: u in db'.threads && OwnsRow(db'.threads[u]) && db'.threads[u].row == i
    {
      var u :| u in db.threads && OwnsRow(db.threads[u]) && db.threads[u].row == i;
      assert u in db'.threads && db'.threads[u] == db.threads[u];
    }
  }

  lemma TakeLockLocked(db: Db, t: Tid)
    requires Locked(db)
    ensures Locked(Step(db, TakeLock(t)))
  {
    OtherSafe(db, TakeLock(t));
    MovesKeepOwners(db, Step(db, TakeLock(t)), t);
  }

  lemma ReadOpenLocked(db: Db, t: Tid)
    requires Locked(db)
    ensures Locked(Step(db, ReadOpen(t)))
  {
    var db' := Step(db, ReadOpen(t));
    OtherSafe(db, ReadOpen(t));
    MovesKeepOwners(db, db', t);
    if t in db.threads && db.threads[t].Holding? && !SeesOpen(db, db.threads[t].sub) {
      forall i | 0 <= i < |db.rows| && db.rows[i].sub == db.threads[t].sub ensures !db.rows[i].open {
        NoHiddenRows(db, t, i);
      }
    }
  }

  lemma ReadKeyLocked(db: Db, t: Tid, start: Time, attempt: nat)
    requires Locked(db)
    ensures Locked(Step(db, ReadKey(t, start, attempt)))
  {
    var db' := Step(db, ReadKey(t, start, attempt));
    OtherSafe(db, ReadKey(t, start, attempt));
    MovesKeepOwners(db, db', t);
    if t in db.threads && db.threads[t].SawNoOpen? {
      var sub := db.threads[t].sub;
      var key := Key(sub, DayOf(start), attempt);
      if !SeesKey(db, key) {
        forall i | 0 <= i < |db.rows| && !db.rows[i].mark.Gone? ensures db.rows[i].key != key {
          if db.rows[i].sub == sub { NoHiddenRows(db, t, i); }
        }
      }
    }
  }

  lemma FlushKeepsReads(db: Db, t: Tid)
    requires Locked(db) && t in db.threads && db.threads[t].SawNoKey?
    ensures var db' := Step(db, Flush(t)); ReadsStillTrue(db') && LocksHeld(db') && OneOpen(db')
  {
    FlushNeverRefused(db, t);
    var sub := db.threads[t].sub;
    assert !OpenFor(db, sub);
    forall u | u in db.threads && u != t && InSection(db.threads[u]) ensures db.threads[u].sub != sub {
      assert db.locks[db.threads[u].sub] == u;
    }
  }

  lemma FlushKeepsInFlight(db: Db, t: Tid)
    requires Locked(db) && t in db.threads && db.threads[t].SawNoKey?
    ensures InFlightOwned(Step(db, Flush(t)))
  {
    FlushNeverRefused(db, t);
    var db' := Step(db, Flush(t));
    forall i | 0 <= i < |db'.rows| && db'.rows[i].mark.InFlight?
      ensures exists u :: u in db'.threads && OwnsRow(db'.threads[u]) && db'.threads[u].row == i
    {
      if i < |db.rows| {
        var u :| u in db.threads && OwnsRow(db.threads[u]) && db.threads[u].row == i;
        assert u in db'.threads && db'.threads[u] == db.threads[u];
      } else {
        assert t in db'.threads && db'.threads[t].row == i;
      }
    }
  }

  lemma FlushLocked(db: Db, t: Tid)
    requires Locked(db)
    ensures Locked(Step(db, Flush(t)))
  {
    FlushSafe(db, t);
    if t in db.threads && db.threads[t].SawNoKey? {
      FlushNeverRefused(db, t);
      FlushKeepsReads(db, t);
      FlushKeepsInFlight(db, t);
    }
  }

  lemma PushLocked(db: Db, t: Tid, outcome: Outcome)
    requires Locked(db)
    ensures Locked(Step(db, PushPrompt(t, outcome)))
  {
    var db' := Step(db, PushPrompt(t, outcome));
    PushSafe(db, t, outcome);
    if db' != db {
      forall i | 0 <= i < |db'.rows| && db'.rows[i].mark.InFlight?
        ensures exists u :: u in db'.threads && OwnsRow(db'.threads[u]) && db'.threads[u].row == i
      {
        var u :| u in db.threads && OwnsRow(db.threads[u]) && db.threads[u].row == i;
        assert u in db'.threads && db'.threads[u].row == i;
      }
    }
  }

  lemma CommitLocked(db: Db, t: Tid, accepted: bool)
    requires Locked(db)
    ensures Locked(Step(db, Commit(t, accepted)))
  {
    var db' := Step(db, Commit(t, accepted));
    CommitSafe(db, t, accepted);
    if db' != db {
      forall i | 0 <= i < |db'.rows| && db'.rows[i].mark.InFlight?
        ensures exists u :: u in db'.threads && OwnsRow(db'.threads[u]) && db'.threads[u].row == i
      {
        var u :| u in db.threads && OwnsRow(db.threads[u]) && db.threads[u].row == i;
        assert u != t && u in db'.threads && db'.threads[u] == db.threads[u];
      }
    }
  }

  lemma SettleLocked(db: Db, row: nat)
    requires Locked(db)
    ensures Locked(Step(db, Settle(row)))
  {
    SettleSafe(db, row);
  }

  /** With the lock, under any interleaving: a subscription has at most one open charge in all,
      what each call has read stays true until it flushes, and the unique indexes never have to
      refuse a row. */
  lemma {:induction false} LockedCallsReadTruly(db: Db, acts: seq<Act>)
    requires Locked(db)
    ensures Locked(Interleave(db, acts))
    decreases |acts|
  {
    if acts != [] {
      match acts[0] {
        case Call(t, sub) => CallLocked(db, t, sub);
        case TakeLock(t) => TakeLockLocked(db, t);
        case ReadOpen(t) => ReadOpenLocked(db, t);
        case ReadKey(t, start, attempt) => ReadKeyLocked(db, t, start, attempt);
        case Flush(t) => FlushLocked(db, t);
        case PushPrompt(t, outcome) => PushLocked(db, t, outcome);
        case Commit(t, accepted) => CommitLocked(db, t, accepted);
        case Settle(row) => SettleLocked(db, row);
      }
      LockedCallsReadTruly(Step(db, acts[0]), acts[1..]);
    }
  }

  /** From an empty database. */
  lemma ConcurrentCallsNeverDoubleBill(locking: bool, acts: seq<Act>)
    ensures var db := Interleave(Start(locking), acts);
            && PromptsUnique(db) && KeysUnique(db) && OneOpenPerPeriod(db)
            && (locking ==> OneOpen(db))
  {
    AnyInterleavingIsSafe(Start(locking), acts);
    if locking { LockedCallsReadTruly(Start(true), acts); }
  }

  /** Without the lock the last part fails: two calls on either side of midnight can leave one
      subscription with two open charges, though each insert commits before the other begins. */
  lemma UnlockedCallsCanOpenTwo(sub: SubId, day: int)
    ensures var db := Interleave(Start(false), TwoAcrossMidnight(sub, day));
            var rows := BothRows(sub, day);
            && db.rows == [rows.0.(mark := Committed), rows.1.(mark := Committed)]
            && rows.0.open && rows.1.open && !OneOpen(db) && db.prompts == [rows.0.key, rows.1.key]
  {
    BothSeeNothing(sub);
    BothReadKeys(sub, day);
    FirstGoesThrough(sub, day);
    SecondGoesThrough(sub, day);
    InterleaveConcat(Start(false), Looking(sub), ReadingKeys(day) + Inserting(0) + Inserting(1));
    InterleaveConcat(AllSeen(sub), ReadingKeys(day), Inserting(0) + Inserting(1));
    InterleaveConcat(KeysRead(sub, day), Inserting(0), Inserting(1));
    assert TwoAcrossMidnight(sub, day) == Looking(sub) + (ReadingKeys(day) + Inserting(0) + Inserting(1));
    assert ReadingKeys(day) + Inserting(0) + Inserting(1) == ReadingKeys(day) + (Inserting(0) + Inserting(1));
    var db := Interleave(Start(false), TwoAcrossMidnight(sub, day));
    assert db.rows[0].open && db.rows[1].open && db.rows[0].sub == db.rows[1].sub;
  }

  function Looking(sub: SubId): seq<Act> {
    [Call(0, sub), Call(1, sub), TakeLock(0), TakeLock(1), ReadOpen(0), ReadOpen(1)]
  }

  /** The first call reads the clock in the last microsecond of a day, the second just after. */
  function ReadingKeys(day: int): seq<Act> { [ReadKey(0, Days(day + 1) - 1, 1), ReadKey(1, Days(day + 1), 1)] }

  function Inserting(t: Tid): seq<Act> { [Flush(t), PushPrompt(t, AwaitsPin), Commit(t, true)] }

  function TwoAcrossMidnight(sub: SubId, day: int): seq<Act> {
    Looking(sub) + ReadingKeys(day) + Inserting(0) + Inserting(1)
  }

  /** The rows the two calls insert. */
  function BothRows(sub: SubId, day: int): (Row, Row) {
    (Row(sub, Days(day + 1) - 1, Key(sub, day, 1), true, InFlight), Row(sub, Days(day + 1), Key(sub, day + 1, 1), true, InFlight))
  }

  lemma {:induction false} InterleaveConcat(db: Db, xs: seq<Act>, ys: seq<Act>)
    ensures Interleave(db, xs + ys) == Interleave(Interleave(db, xs), ys)
    decreases |xs|
  {
    if xs == [] {
      assert xs + ys == ys;
    } else {
      assert (xs + ys)[1..] == xs[1..] + ys;
      InterleaveConcat(Step(db, xs[0]), xs[1..], ys);
    }
  }

  lemma InterleaveThree(db: Db, a: Act, b: Act, c: Act)
    ensures Interleave(db, [a, b, c]) == Step(Step(Step(db, a), b), c)
  {
    assert [a, b, c][1..] == [b, c] && [b, c][1..] == [c];
    assert Interleave(Step(db, a), [b, c]) == Interleave(Step(Step(db, a), b), [c]);
    assert Interleave(Step(Step(db, a), b), [c]) == Step(Step(Step(db, a), b), c);
  }

  lemma InterleaveSix(db: Db, acts: seq<Act>)
    requires |acts| == 6
    ensures Interleave(db, acts) ==
            Step(Step(Step(Step(Step(Step(db, acts[0]), acts[1]), acts[2]), acts[3]), acts[4]), acts[5])
  {
    assert acts == [acts[0], acts[1], acts[2]] + [acts[3], acts[4], acts[5]];
    InterleaveConcat(db, [acts[0], acts[1], acts[2]], [acts[3], acts[4], acts[5]]);
    InterleaveThree(db, acts[0], acts[1], acts[2]);
    InterleaveThree(Step(Step(Step(db, acts[0]), acts[1]), acts[2]), acts[3], acts[4], acts[5]);
  }

  function AllSeen(sub: SubId): Db { Db(false, [], map[0 := SawNoOpen(sub), 1 := SawNoOpen(sub)], map[], []) }

  function KeysRead(sub: SubId, day: int): Db {
    var (r0, r1) := BothRows(sub, day);
    Db(false, [], map[0 := SawNoKey(sub, r0.start, r0.key), 1 := SawNoKey(sub, r1.start, r1.key)], map[], [])
  }

  lemma BothSeeNothing(sub: SubId)
    ensures Interleave(Start(false), Looking(sub)) == AllSeen(sub)
  {
    InterleaveSix(Start(false), Looking(sub));
  }

  /** Both keys are new to both calls. */
  lemma BothReadKeys(sub: SubId, day: int)
    ensures Interleave(AllSeen(sub), ReadingKeys(day)) == KeysRead(sub, day)
  {
    var acts := ReadingKeys(day);
    assert acts[1..] == [acts[1]] && acts[1..][1..] == [];
    assert DayOf(Days(day + 1) - 1) == day && DayOf(Days(day + 1)) == day + 1;
    var db1 := Step(AllSeen(sub), acts[0]);
    assert Interleave(AllSeen(sub), acts) == Interleave(db1, [acts[1]]);
    assert Interleave(db1, [acts[1]]) == Interleave(Step(db1, acts[1]), []);
  }

  lemma FirstGoesThrough(sub: SubId, day: int)
    ensures var (r0, r1) := BothRows(sub, day);
            Interleave(KeysRead(sub, day), Inserting(0)) ==
            Db(false, [r0.(mark := Committed)], map[0 := Done, 1 := SawNoKey(sub, r1.start, r1.key)], map[], [r0.key])
  {
    InterleaveThree(KeysRead(sub, day), Flush(0), PushPrompt(0, AwaitsPin), Commit(0, true));
  }

  /** So does the second, since neither its key nor its period clashes with the first. */
  lemma SecondGoesThrough(sub: SubId, day: int)
    ensures var (r0, r1) := BothRows(sub, day);
            Interleave(Db(false, [r0.(mark := Committed)], map[0 := Done, 1 := SawNoKey(sub, r1.start, r1.key)], map[], [r0.key]),
                       Inserting(1)) ==
            Db(false, [r0.(mark := Committed), r1.(mark := Committed)], map[0 := Done, 1 := Done], map[], [r0.key, r1.key])
  {
    var (r0, r1) := BothRows(sub, day);
    var db := Db(false, [r0.(mark := Committed)], map[0 := Done, 1 := SawNoKey(sub, r1.start, r1.key)], map[], [r0.key]);
    assert !Clashes(db.rows[0], sub, r1.start, r1.key);
    InterleaveThree(db, Flush(1), PushPrompt(1, AwaitsPin), Commit(1, true));
    assert Step(db, Flush(1)).rows == [r0.(mark := Committed), r1];
  }
}
