/** Lock-to-commit is one step. Here every `initiate_charge` call runs statement by statement on its
    own copies, under the subscription's row lock, among any number of other calls and of steps by
    the other actors; what is committed is shown to be the outcome of a run of whole engine steps. */
module BillingSerial {
  import opened Options
  import opened BillingModel
  import opened BillingEngine
  import Safety = BillingSafety

  type Tid = nat

  /** Where a call has got to, with the subscription and charge it holds in memory. */
  datatype Session =
    | Holding(id: SubId, sub: Sub)
    | NoOpen(id: SubId, sub: Sub, now: Time)
    | NoKey(id: SubId, sub: Sub, now: Time, start: Time, key: Key)
    | Inserted(id: SubId, sub: Sub, now: Time, charge: Charge)
    | Replied(id: SubId, sub: Sub, now: Time, charge: Charge, hasOwner: bool, push: Push)

  /** st is what is committed; its prompts are those of calls that are over. pushed holds every prompt
      as it goes out. */
  datatype Db = Db(st: State, sessions: map<Tid, Session>, locks: map<SubId, Tid>, pushed: seq<Key>)

  datatype Act =
    | Lock(t: Tid, id: SubId)
    | LookForOpen(t: Tid, now: Time)
    | LookForKey(t: Tid)
    | Insert(t: Tid)
    | PushPrompt(t: Tid, hasOwner: bool, push: Push)
    | Commit(t: Tid)
    | Other(step: Step)

  function Set(db: Db, t: Tid, s: Session): Db { db.(sessions := db.sessions[t := s]) }

  function End(db: Db, t: Tid, id: SubId): Db { db.(sessions := db.sessions - {t}, locks := db.locks - {id}) }

  /** The branches after the push, on the copies in memory. */
  function Answer(cfg: Config, s: Session, hasOwner: bool, push: Push): Session
    requires s.Inserted?
  {
    if !hasOwner || push.PushError? then Replied(s.id, s.sub, s.now, MarkFailed(s.charge, s.now), hasOwner, push)
    else
      var sent := s.charge.(ref := Some(push.ref));
      match push.state
      case PaidNow =>
        var paid := MarkSuccess(sent, s.now);
        Replied(s.id, ApplySuccess(s.sub, paid), s.now, paid, hasOwner, push)
      case DeclinedNow =>
        Replied(s.id, ApplyFailure(cfg, s.sub, s.now), s.now, MarkFailed(sent, s.now), hasOwner, push)
      case AwaitingPin =>
        Replied(s.id, s.sub, s.now, sent.(status := Processing), hasOwner, push)
  }

  /** The commit: the copies are written, unless the reference is taken. */
  function Write(st: State, s: Session): State
    requires s.Replied? && s.id in st.accounts
  {
    var prompts := if s.hasOwner then st.prompts + [s.charge.key] else st.prompts;
    if s.hasOwner && s.push.Pushed? && s.push.ref in st.byReference then st.(prompts := prompts)
    else
      var charges := st.accounts[s.id].charges;
      State(st.accounts[s.id := Account(s.sub, charges + [s.charge])],
            if s.hasOwner && s.push.Pushed? then st.byReference[s.push.ref := RowId(s.id, |charges|)] else st.byReference,
            st.ledger,
            prompts)
  }

  /** The subscription whose lock a step of another actor needs. */
  function Needs(st: State, step: Step): Option<SubId> {
    match step
    case TrialStep(id, _) => Some(id)
    case InitiateStep(id, _, _, _) => Some(id)
    case WebhookStep(e, _) =>
      if Recognised(e) && Matches(st, e.ref.value) then Some(st.byReference[e.ref.value].sub) else None
    case PollStep(row, _, _) => Some(row.sub)
    case ExpireStep(row, _, _, _) => Some(row.sub)
  }

  predicate Free(db: Db, step: Step) {
    !step.InitiateStep? && (Needs(db.st, step).Some? ==> Needs(db.st, step).value !in db.locks)
  }

  predicate Committing(db: Db, t: Tid) {
    t in db.sessions && db.sessions[t].Replied? && db.sessions[t].id in db.st.accounts
  }

  /** One action; one that is not enabled leaves everything as it is. */
  function Do(cfg: Config, db: Db, a: Act): Db {
    match a
    case Lock(t, id) =>
      if t in db.sessions || id !in db.st.accounts || id in db.locks then db
      else Set(db, t, Holding(id, db.st.accounts[id].sub)).(locks := db.locks[id := t])
    case LookForOpen(t, now) =>
      if t !in db.sessions || !db.sessions[t].Holding? || db.sessions[t].id !in db.st.accounts then db
      else
        var s := db.sessions[t];
        if HasOpen(db.st.accounts[s.id].charges) then End(db, t, s.id) else Set(db, t, NoOpen(s.id, s.sub, now))
    case LookForKey(t) =>
      if t !in db.sessions || !db.sessions[t].NoOpen? || db.sessions[t].id !in db.st.accounts then db
      else
        var s := db.sessions[t];
        var start := PeriodStart(cfg, s.sub, s.now);
        var key := Key(s.id, DayOf(start), s.sub.failedAttempts + 1);
        if HasKey(db.st.accounts[s.id].charges, key) then End(db, t, s.id)
        else Set(db, t, NoKey(s.id, s.sub, s.now, start, key))
    case Insert(t) =>
      if t !in db.sessions || !db.sessions[t].NoKey? then db
      else
        var s := db.sessions[t];
        Set(db, t, Inserted(s.id, s.sub.(priceCents := cfg.priceCents), s.now,
                            Charge(Pending, cfg.priceCents, s.start, s.start + Days(cfg.periodDays), s.key, None, s.now, None)))
    case PushPrompt(t, hasOwner, push) =>
      if t !in db.sessions || !db.sessions[t].Inserted? then db
      else
        var s := db.sessions[t];
        Set(db, t, Answer(cfg, s, hasOwner, push)).(pushed := if hasOwner then db.pushed + [s.charge.key] else db.pushed)
    case Commit(t) =>
      if !Committing(db, t) then db
      else End(db, t, db.sessions[t].id).(st := Write(db.st, db.sessions[t]))
    case Other(step) => if Free(db, step) then db.(st := Apply(cfg, db.st, step)) else db
  }

  function DoAll(cfg: Config, db: Db, acts: seq<Act>): Db
    decreases |acts|
  {
    if acts == [] then db else DoAll(cfg, Do(cfg, db, acts[0]), acts[1..])
  }

  /** The engine step an action completes, if it completes one. */
  function Completes(db: Db, a: Act): seq<Step> {
    match a
    case Commit(t) =>
      if Committing(db, t) then [InitiateStep(db.sessions[t].id, db.sessions[t].now, db.sessions[t].hasOwner, db.sessions[t].push)]
      else []
    case Other(step) => if Free(db, step) then [step] else []
    case _ => []
  }

  /** The completed steps, in commit order. */
  function Trace(cfg: Config, db: Db, acts: seq<Act>): seq<Step>
    decreases |acts|
  {
    if acts == [] then [] else Completes(db, acts[0]) + Trace(cfg, Do(cfg, db, acts[0]), acts[1..])
  }

  // ------------------------------------------------------------------- invariant

  /** The copies of a call agree with what is committed. */
  ghost predicate InStep(cfg: Config, a: Account, s: Session) {
    match s
    case Holding(_, sub) => sub == a.sub
    case NoOpen(_, sub, _) => sub == a.sub && !HasOpen(a.charges)
    case NoKey(id, sub, now, start, key) =>
      sub == a.sub && Creates(cfg, id, a, now) && start == PeriodStart(cfg, a.sub, now) && key == NextKey(cfg, id, a, now)
    case Inserted(id, sub, now, charge) =>
      sub == a.sub.(priceCents := cfg.priceCents) && Creates(cfg, id, a, now) && charge == NewCharge(cfg, id, a, now)
    case Replied(id, sub, now, charge, hasOwner, push) =>
      Creates(cfg, id, a, now) && Account(sub, a.charges + [charge]) == Initiate(cfg, id, a, now, hasOwner, push)
  }

  ghost predicate SessionOk(cfg: Config, db: Db, t: Tid)
    requires t in db.sessions
  {
    var s := db.sessions[t];
    s.id in db.st.accounts && s.id in db.locks && db.locks[s.id] == t && InStep(cfg, db.st.accounts[s.id], s)
  }

  /** Each call holds the lock of its subscription. */
  ghost predicate Sessions(cfg: Config, db: Db) { forall t :: t in db.sessions ==> SessionOk(cfg, db, t) }

  /** Nobody else moves when one call does, or ends. */
  lemma OneMoves(cfg: Config, db: Db, t: Tid, s: Session)
    requires Sessions(cfg, db) && t in db.sessions && s.id == db.sessions[t].id && InStep(cfg, db.st.accounts[s.id], s)
    ensures Sessions(cfg, Set(db, t, s))
  {
    assert SessionOk(cfg, db, t);
    forall u | u in Set(db, t, s).sessions ensures SessionOk(cfg, Set(db, t, s), u) {
      if u != t { assert SessionOk(cfg, db, u); }
    }
  }

  lemma OneEnds(cfg: Config, db: Db, db': Db, t: Tid)
    requires Sessions(cfg, db) && t in db.sessions
    requires var id := db.sessions[t].id;
             && db'.sessions == db.sessions - {t} && db'.locks == db.locks - {id}
             && db.st.accounts.Keys <= db'.st.accounts.Keys
             && forall o :: o in db.st.accounts && o != id ==> db'.st.accounts[o] == db.st.accounts[o]
    ensures Sessions(cfg, db')
  {
    assert SessionOk(cfg, db, t);
    forall u | u in db'.sessions ensures SessionOk(cfg, db', u) { assert SessionOk(cfg, db, u); }
  }

  /** What a step of another actor leaves alone. */
  lemma OthersApart(cfg: Config, st: State, step: Step, o: SubId)
    requires !step.InitiateStep? && o in st.accounts && Needs(st, step) != Some(o)
    ensures o in Apply(cfg, st, step).accounts && Apply(cfg, st, step).accounts[o] == st.accounts[o]
  {
  }

  lemma OtherKeepsSessions(cfg: Config, db: Db, step: Step)
    requires Sessions(cfg, db) && Free(db, step)
    ensures Sessions(cfg, Do(cfg, db, Other(step)))
  {
    var db' := Do(cfg, db, Other(step));
    forall u | u in db'.sessions ensures SessionOk(cfg, db', u) {
      assert SessionOk(cfg, db, u);
      OthersApart(cfg, db.st, step, db.sessions[u].id);
    }
  }

  lemma LockKeepsSessions(cfg: Config, db: Db, t: Tid, id: SubId)
    requires Sessions(cfg, db)
    ensures Sessions(cfg, Do(cfg, db, Lock(t, id)))
  {
    var db' := Do(cfg, db, Lock(t, id));
    forall u | u in db'.sessions ensures SessionOk(cfg, db', u) {
      if u in db.sessions { assert SessionOk(cfg, db, u); }
    }
  }

  lemma LooksKeepSessions(cfg: Config, db: Db, a: Act)
    requires Sessions(cfg, db) && (a.LookForOpen? || a.LookForKey?)
    ensures Sessions(cfg, Do(cfg, db, a))
  {
    var db' := Do(cfg, db, a);
    if db' != db && a.t in db.sessions {
      assert SessionOk(cfg, db, a.t);
      if a.t in db'.sessions {
        OneMoves(cfg, db, a.t, db'.sessions[a.t]);
      } else {
        OneEnds(cfg, db, db', a.t);
      }
    }
  }

  /** The answer on the copies is the answer on the account. */
  lemma AnswerIsInitiate(cfg: Config, a: Account, s: Session, hasOwner: bool, push: Push)
    requires s.Inserted? && InStep(cfg, a, s)
    ensures InStep(cfg, a, Answer(cfg, s, hasOwner, push))
    ensures Answer(cfg, s, hasOwner, push).id == s.id && Answer(cfg, s, hasOwner, push).charge.key == s.charge.key
  {
  }

  lemma WorkKeepsSessions(cfg: Config, db: Db, a: Act)
    requires Sessions(cfg, db) && (a.Insert? || a.PushPrompt?)
    ensures Sessions(cfg, Do(cfg, db, a))
  {
    var db' := Do(cfg, db, a);
    if a.t in db.sessions {
      var s := db.sessions[a.t];
      assert SessionOk(cfg, db, a.t);
      if a.Insert? && s.NoKey? {
        OneMoves(cfg, db, a.t, db'.sessions[a.t]);
      } else if a.PushPrompt? && s.Inserted? {
        AnswerIsInitiate(cfg, db.st.accounts[s.id], s, a.hasOwner, a.push);
        OneMoves(cfg, db, a.t, db'.sessions[a.t]);
        PushedDoesNotMatter(cfg, Set(db, a.t, db'.sessions[a.t]), db');
      }
    }
  }

  lemma PushedDoesNotMatter(cfg: Config, db: Db, db': Db)
    requires Sessions(cfg, db) && db'.st == db.st && db'.sessions == db.sessions && db'.locks == db.locks
    ensures Sessions(cfg, db')
  {
    forall u | u in db'.sessions ensures SessionOk(cfg, db', u) { assert SessionOk(cfg, db, u); }
  }

  /** The commit writes what one engine step on the committed tables would. */
  lemma CommitIsOneStep(cfg: Config, db: Db, t: Tid)
    requires Sessions(cfg, db) && Committing(db, t)
    ensures var s := db.sessions[t]; Write(db.st, s) == InitiateCharge(cfg, db.st, s.id, s.now, s.hasOwner, s.push)
  {
    assert SessionOk(cfg, db, t);
    var s := db.sessions[t];
    var a := db.st.accounts[s.id];
    InitiateRows(cfg, s.id, a, s.now, s.hasOwner, s.push);
    assert Initiate(cfg, s.id, a, s.now, s.hasOwner, s.push).charges[|a.charges|] == s.charge;
  }

  lemma CommitKeepsSessions(cfg: Config, db: Db, t: Tid)
    requires Sessions(cfg, db)
    ensures Sessions(cfg, Do(cfg, db, Commit(t)))
  {
    if Committing(db, t) { OneEnds(cfg, db, Do(cfg, db, Commit(t)), t); }
  }

  lemma DoKeepsSessions(cfg: Config, db: Db, a: Act)
    requires Sessions(cfg, db)
    ensures Sessions(cfg, Do(cfg, db, a))
  {
    match a
    case Lock(t, id) => LockKeepsSessions(cfg, db, t, id);
    case LookForOpen(_, _) => LooksKeepSessions(cfg, db, a);
    case LookForKey(_) => LooksKeepSessions(cfg, db, a);
    case Insert(_) => WorkKeepsSessions(cfg, db, a);
    case PushPrompt(_, _, _) => WorkKeepsSessions(cfg, db, a);
    case Commit(t) => CommitKeepsSessions(cfg, db, t);
    case Other(step) => if Free(db, step) { OtherKeepsSessions(cfg, db, step); }
  }

  /** An action commits what the engine step it completes does, or nothing. */
  lemma DoIsStep(cfg: Config, db: Db, a: Act)
    requires Sessions(cfg, db)
    ensures Do(cfg, db, a).st == Run(cfg, db.st, Completes(db, a))
  {
    var steps := Completes(db, a);
    if steps != [] {
      Safety.RunOne(cfg, db.st, steps[0]);
      if a.Commit? { CommitIsOneStep(cfg, db, a.t); }
    }
  }

  /** Every locked interleaving is serial: the committed tables are those of the run of engine steps
      that the calls and the other actors completed, in commit order. */
  lemma {:induction false} LockedInterleavingIsSerial(cfg: Config, db: Db, acts: seq<Act>)
    requires Sessions(cfg, db)
    ensures DoAll(cfg, db, acts).st == Run(cfg, db.st, Trace(cfg, db, acts))
    ensures Sessions(cfg, DoAll(cfg, db, acts))
    decreases |acts|
  {
    if acts != [] {
      var next := Do(cfg, db, acts[0]);
      DoKeepsSessions(cfg, db, acts[0]);
      DoIsStep(cfg, db, acts[0]);
      LockedInterleavingIsSerial(cfg, next, acts[1..]);
      RunConcat(cfg, db.st, Completes(db, acts[0]), Trace(cfg, next, acts[1..]));
    }
  }

  // --------------------------------------------------------------------- prompts

  /** The prompt for key is out and its call not over. */
  predicate Out(db: Db, key: Key) {
    && key.sub in db.locks && db.locks[key.sub] in db.sessions
    && var s := db.sessions[db.locks[key.sub]];
    s.Replied? && s.hasOwner && s.charge.key == key
  }

  lemma AppendCounts(keys: seq<Key>, key: Key, k: Key)
    ensures multiset(keys + [key])[k] == multiset(keys)[k] + if k == key then 1 else 0
  {
  }

  predicate Counted(db: Db, key: Key) {
    multiset(db.pushed)[key] == multiset(db.st.prompts)[key] + if Out(db, key) then 1 else 0
  }

  ghost predicate PromptsCounted(db: Db) { forall key: Key :: Counted(db, key) }

  /** Acts by a call that has no prompt out leave the others' prompts as they are. */
  lemma OutElsewhere(cfg: Config, db: Db, db': Db, t: Tid, key: Key)
    requires Sessions(cfg, db) && Sessions(cfg, db')
    requires forall u :: u in db.sessions && u != t ==> u in db'.sessions && db'.sessions[u] == db.sessions[u]
    requires forall u :: u in db'.sessions && u != t ==> u in db.sessions
    requires t in db.sessions && db.sessions[t].Replied? ==> db.sessions[t].charge.key != key
    requires t in db'.sessions && db'.sessions[t].Replied? ==> db'.sessions[t].charge.key != key
    ensures Out(db, key) <==> Out(db', key)
  {
    if Out(db, key) {
      var u := db.locks[key.sub];
      assert u != t && SessionOk(cfg, db, u) && SessionOk(cfg, db', u);
      SessionKey(cfg, db, u);
    }
    if Out(db', key) {
      var u := db'.locks[key.sub];
      assert u != t && SessionOk(cfg, db, u) && SessionOk(cfg, db', u);
      SessionKey(cfg, db', u);
    }
  }

  lemma SessionKey(cfg: Config, db: Db, t: Tid)
    requires Sessions(cfg, db) && t in db.sessions && db.sessions[t].Replied?
    ensures db.sessions[t].charge.key.sub == db.sessions[t].id
  {
    assert SessionOk(cfg, db, t);
    var s := db.sessions[t];
    var a := db.st.accounts[s.id];
    InitiateRows(cfg, s.id, a, s.now, s.hasOwner, s.push);
    assert Initiate(cfg, s.id, a, s.now, s.hasOwner, s.push).charges[|a.charges|] == s.charge;
  }

  lemma PushCounts(cfg: Config, db: Db, t: Tid, hasOwner: bool, push: Push)
    requires Sessions(cfg, db) && PromptsCounted(db) && t in db.sessions && db.sessions[t].Inserted?
    ensures PromptsCounted(Do(cfg, db, PushPrompt(t, hasOwner, push)))
  {
    var db' := Do(cfg, db, PushPrompt(t, hasOwner, push));
    var s := db.sessions[t];
    WorkKeepsSessions(cfg, db, PushPrompt(t, hasOwner, push));
    assert SessionOk(cfg, db, t) && SessionOk(cfg, db', t);
    AnswerIsInitiate(cfg, db.st.accounts[s.id], s, hasOwner, push);
    SessionKey(cfg, db', t);
    forall key: Key ensures Counted(db', key) {
      assert Counted(db, key);
      AppendCounts(db.pushed, s.charge.key, key);
      if key != s.charge.key { OutElsewhere(cfg, db, db', t, key); }
    }
  }

  lemma CommitCounts(cfg: Config, db: Db, t: Tid)
    requires Sessions(cfg, db) && PromptsCounted(db) && Committing(db, t)
    ensures PromptsCounted(Do(cfg, db, Commit(t)))
  {
    var db' := Do(cfg, db, Commit(t));
    var s := db.sessions[t];
    CommitKeepsSessions(cfg, db, t);
    assert SessionOk(cfg, db, t);
    SessionKey(cfg, db, t);
    forall key: Key ensures Counted(db', key) {
      assert Counted(db, key);
      AppendCounts(db.st.prompts, s.charge.key, key);
      if key != s.charge.key { OutElsewhere(cfg, db, db', t, key); }
    }
  }

  lemma OtherCounts(cfg: Config, db: Db, step: Step)
    requires PromptsCounted(db) && Free(db, step)
    ensures PromptsCounted(Do(cfg, db, Other(step)))
  {
    var db' := Do(cfg, db, Other(step));
    Safety.PromptsUntouched(cfg, db.st, step);
    forall key: Key ensures Counted(db', key) { assert Counted(db, key) && (Out(db', key) <==> Out(db, key)); }
  }

  /** An action that neither pushes nor commits. */
  lemma QuietCounts(cfg: Config, db: Db, a: Act)
    requires Sessions(cfg, db) && PromptsCounted(db) && (a.Lock? || a.LookForOpen? || a.LookForKey? || a.Insert?)
    ensures PromptsCounted(Do(cfg, db, a))
  {
    var db' := Do(cfg, db, a);
    DoKeepsSessions(cfg, db, a);
    if db' != db {
      assert db'.st == db.st && db'.pushed == db.pushed;
      forall key: Key ensures Counted(db', key) {
        assert Counted(db, key);
        OutElsewhere(cfg, db, db', a.t, key);
      }
    }
  }

  lemma DoCounts(cfg: Config, db: Db, a: Act)
    requires Sessions(cfg, db) && PromptsCounted(db)
    ensures PromptsCounted(Do(cfg, db, a))
  {
    match a
    case PushPrompt(t, hasOwner, push) =>
      if t in db.sessions && db.sessions[t].Inserted? { PushCounts(cfg, db, t, hasOwner, push); }
    case Commit(t) => if Committing(db, t) { CommitCounts(cfg, db, t); }
    case Other(step) => if Free(db, step) { OtherCounts(cfg, db, step); }
    case _ => QuietCounts(cfg, db, a);
  }

  lemma {:induction false} DoAllCounts(cfg: Config, db: Db, acts: seq<Act>)
    requires Sessions(cfg, db) && PromptsCounted(db)
    ensures PromptsCounted(DoAll(cfg, db, acts))
    decreases |acts|
  {
    if acts != [] {
      DoKeepsSessions(cfg, db, acts[0]);
      DoCounts(cfg, db, acts[0]);
      DoAllCounts(cfg, Do(cfg, db, acts[0]), acts[1..]);
    }
  }

  /** And once every call is over, the prompts that went out are those of that run. */
  lemma SamePromptsAsSerial(cfg: Config, st: State, acts: seq<Act>)
    requires DoAll(cfg, Db(st, map[], map[], st.prompts), acts).locks == map[]
    ensures var db := Db(st, map[], map[], st.prompts);
            multiset(DoAll(cfg, db, acts).pushed) == multiset(Run(cfg, st, Trace(cfg, db, acts)).prompts)
  {
    var db := Db(st, map[], map[], st.prompts);
    LockedInterleavingIsSerial(cfg, db, acts);
    forall key: Key ensures Counted(db, key) {}
    DoAllCounts(cfg, db, acts);
    var end := DoAll(cfg, db, acts);
    forall key: Key ensures multiset(end.pushed)[key] == multiset(end.st.prompts)[key] {
      assert Counted(end, key) && !Out(end, key);
    }
  }
}
