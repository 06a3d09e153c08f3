/** With one verdict per charge, the order and number of webhooks, polls and stale-charge sweeps
    do not matter: each open charge is settled once, or not at all. */
module BillingConfluence {
  import opened Options
  import opened BillingModel
  import opened BillingInvariant
  import opened BillingEngine
  import opened BillingSettlement

  /** An account with its timestamps of settlement and retry blanked out. */
  function Core(a: Account): Account {
    Account(a.sub.(nextRetryAt := if a.sub.nextRetryAt.Some? then Some(0) else None),
            seq(|a.charges|, i requires 0 <= i < |a.charges| => a.charges[i].(finalizedAt := None)))
  }

  /** Settlement events: everything but trials and new charges. */
  predicate Settling(s: Step) { s.WebhookStep? || s.PollStep? || s.ExpireStep? }

  /** The row that the event settles, should that row still be open when the event is applied;
      read off the state before any of the events. */
  function Target(cfg: Config, st: State, s: Step): Option<RowId> {
    match s
    case WebhookStep(e, _) =>
      if Recognised(e) && e.ref.value !in st.ledger && Matches(st, e.ref.value) then Some(st.byReference[e.ref.value])
      else None
    case PollStep(row, _, answer) =>
      if HasRow(st, row) && RowAt(st, row).ref.Some? && cfg.configured && answer.Answered?
         && (answer.status.SaysSuccess? || Refused(answer.status)) then Some(row)
      else None
    case ExpireStep(row, asOf, _, answer) =>
      if HasRow(st, row) && Stale(cfg, RowAt(st, row), asOf) && answer.Answered? && !answer.status.SaysOther?
      then Some(row)
      else None
    case _ => None
  }

  /** The account's latest charge is still open. */
  predicate Unsettled(a: Account) { a.charges != [] && !a.charges[|a.charges| - 1].Terminal() }

  /** The target is a row that is open in st. */
  predicate Hits(st: State, row: Option<RowId>) {
    row.Some? && HasRow(st, row.value) && !RowAt(st, row.value).Terminal()
  }

  /** The subscriptions whose open charge some event settles. */
  function Settled(cfg: Config, st: State, events: seq<Step>): set<SubId>
    decreases |events|
  {
    if events == [] then {}
    else
      var row := Target(cfg, st, events[0]);
      if Hits(st, row) then {row.value.sub} + Settled(cfg, st, events[1..]) else Settled(cfg, st, events[1..])
  }

  /** The latest charge settled at the given time, as the verdict on its reference says. */
  function SettleLatest(cfg: Config, verdict: Verdict, a: Account, now: Time): Account
    requires a.charges != [] && a.charges[|a.charges| - 1].ref.Some?
  {
    var i := |a.charges| - 1;
    Settle(cfg, a, i, verdict(a.charges[i].ref.value), now)
  }

  /** The open charge is settled, once. */
  ghost predicate SettledOnce(cfg: Config, verdict: Verdict, a: Account, b: Account) {
    && Unsettled(a) && a.charges[|a.charges| - 1].ref.Some?
    && exists now :: b == SettleLatest(cfg, verdict, a, now)
  }

  ghost predicate Stands(cfg: Config, verdict: Verdict, a: Account, b: Account, done: bool) {
    if done then SettledOnce(cfg, verdict, a, b) else b == a
  }

  /** What the proof needs of the first state. */
  ghost predicate Base(st: State) {
    && IndexCoherent(st)
    && (forall id :: id in st.accounts ==> OnlyLastOpen(st.accounts[id].charges))
    && (forall row :: HasRow(st, row) && !RowAt(st, row).Terminal() ==> RowAt(st, row).ref.Some?)
  }

  lemma InvIsBase(cfg: Config, st: State, t: Time)
    requires Inv(cfg, st, t)
    ensures Base(st)
  {
    forall row | HasRow(st, row) && !RowAt(st, row).Terminal() ensures RowAt(st, row).ref.Some? {
      assert RowOk(cfg, row.sub, st.accounts[row.sub].sub.trialEndsAt, RowAt(st, row));
    }
  }

  /** Where a state reached by settlement events stands relative to the first one. */
  ghost predicate Reached(cfg: Config, verdict: Verdict, st0: State, st: State, done: set<SubId>) {
    && st.accounts.Keys == st0.accounts.Keys
    && st.byReference == st0.byReference && st0.ledger <= st.ledger
    && (forall id :: id in st0.accounts ==> Stands(cfg, verdict, st0.accounts[id], st.accounts[id], id in done))
    && (forall r :: r in st.ledger && r !in st0.ledger ==> NotedSettled(st0, st, r))
  }

  /** A reference noted along the way belongs to no row, or to one that is settled. */
  ghost predicate NotedSettled(st0: State, st: State, r: Ref) {
    Matches(st0, r) ==> HasRow(st, st0.byReference[r]) && RowAt(st, st0.byReference[r]).Terminal()
  }

  /** Rows keep their place and reference, settled rows stay settled, and an account with an open
      row left has not been touched. */
  lemma RowStands(cfg: Config, verdict: Verdict, a: Account, b: Account, done: bool, i: nat)
    requires OnlyLastOpen(a.charges) && Stands(cfg, verdict, a, b, done) && i < |a.charges|
    ensures |b.charges| == |a.charges| && b.charges[i].ref == a.charges[i].ref
    ensures a.charges[i].Terminal() ==> b.charges[i].Terminal()
    ensures done ==> b.charges[i].Terminal()
    ensures !done ==> b == a
  {
    if !a.charges[i].Terminal() { OpenIsLast(a.charges, i); }
  }

  lemma RowReached(cfg: Config, verdict: Verdict, st0: State, st: State, done: set<SubId>, row: RowId)
    requires Base(st0) && Reached(cfg, verdict, st0, st, done) && HasRow(st0, row)
    ensures HasRow(st, row) && RowAt(st, row).ref == RowAt(st0, row).ref
    ensures RowAt(st0, row).Terminal() ==> RowAt(st, row).Terminal()
    ensures row.sub in done ==> RowAt(st, row).Terminal()
    ensures row.sub !in done ==> st.accounts[row.sub] == st0.accounts[row.sub]
  {
    assert Stands(cfg, verdict, st0.accounts[row.sub], st.accounts[row.sub], row.sub in done);
    RowStands(cfg, verdict, st0.accounts[row.sub], st.accounts[row.sub], row.sub in done, row.index);
  }

  lemma NoRowReached(cfg: Config, verdict: Verdict, st0: State, st: State, done: set<SubId>, row: RowId)
    requires Base(st0) && Reached(cfg, verdict, st0, st, done) && HasRow(st, row)
    ensures HasRow(st0, row)
  {
    assert Stands(cfg, verdict, st0.accounts[row.sub], st.accounts[row.sub], row.sub in done);
  }

  function Grown(st0: State, done: set<SubId>, row: Option<RowId>): set<SubId> {
    if Hits(st0, row) then done + {row.value.sub} else done
  }

  /** An event on a row that is settled by now adds nothing. */
  lemma AlreadyDone(cfg: Config, verdict: Verdict, st0: State, st: State, done: set<SubId>, row: RowId)
    requires Base(st0) && Reached(cfg, verdict, st0, st, done) && HasRow(st0, row)
    requires HasRow(st, row) && RowAt(st, row).Terminal()
    ensures Grown(st0, done, Some(row)) == done
  {
    RowReached(cfg, verdict, st0, st, done, row);
  }

  /** Settling an open row: its account was untouched before. */
  lemma SettleReached(cfg: Config, verdict: Verdict, st0: State, st: State, done: set<SubId>,
                      row: RowId, paid: bool, now: Time)
    requires Base(st0) && Reached(cfg, verdict, st0, st, done)
    requires HasRow(st0, row) && HasRow(st, row) && !RowAt(st, row).Terminal()
    requires RowAt(st0, row).ref.Some? && (paid <==> verdict(RowAt(st0, row).ref.value))
    ensures Reached(cfg, verdict, st0, SettleRow(cfg, st, row, paid, now), Grown(st0, done, Some(row)))
    ensures RowAt(SettleRow(cfg, st, row, paid, now), row).Terminal()
  {
    RowReached(cfg, verdict, st0, st, done, row);
    var st' := SettleRow(cfg, st, row, paid, now);
    var a := st0.accounts[row.sub];
    OpenIsLast(a.charges, row.index);
    assert st'.accounts[row.sub] == SettleLatest(cfg, verdict, a, now);
    assert SettledOnce(cfg, verdict, a, st'.accounts[row.sub]);
    forall r | r in st.ledger && r !in st0.ledger ensures NotedSettled(st0, st', r) {
      assert NotedSettled(st0, st, r);
    }
  }

  /** Writing a reference into the ledger, when its row (if any) is settled. */
  lemma NotedReached(cfg: Config, verdict: Verdict, st0: State, st: State, done: set<SubId>, ref: Ref)
    requires Reached(cfg, verdict, st0, st, done) && NotedSettled(st0, st, ref)
    ensures Reached(cfg, verdict, st0, st.(ledger := st.ledger + {ref}), done)
  {
    var st' := st.(ledger := st.ledger + {ref});
    forall r | r in st'.ledger && r !in st0.ledger ensures NotedSettled(st0, st', r) {
      assert NotedSettled(st0, st, r);
    }
  }

  lemma PollReached(cfg: Config, verdict: Verdict, st0: State, st: State, done: set<SubId>, s: Step)
    requires Base(st0) && Reached(cfg, verdict, st0, st, done)
    requires s.PollStep? && Truthful(cfg, verdict, st0, s)
    ensures Reached(cfg, verdict, st0, Apply(cfg, st, s), Grown(st0, done, Target(cfg, st0, s)))
  {
    if HasRow(st0, s.row) {
      RowReached(cfg, verdict, st0, st, done, s.row);
      if RowAt(st, s.row).Terminal() {
        AlreadyDone(cfg, verdict, st0, st, done, s.row);
      } else if Target(cfg, st0, s).Some? {
        SettleReached(cfg, verdict, st0, st, done, s.row, s.answer.status.SaysSuccess?, s.now);
      }
    } else if HasRow(st, s.row) {
      NoRowReached(cfg, verdict, st0, st, done, s.row);
    }
  }

  lemma ExpireReached(cfg: Config, verdict: Verdict, st0: State, st: State, done: set<SubId>, s: Step)
    requires Base(st0) && Reached(cfg, verdict, st0, st, done)
    requires s.ExpireStep? && Truthful(cfg, verdict, st0, s)
    ensures Reached(cfg, verdict, st0, Apply(cfg, st, s), Grown(st0, done, Target(cfg, st0, s)))
  {
    if HasRow(st0, s.row) {
      RowReached(cfg, verdict, st0, st, done, s.row);
      if RowAt(st, s.row).Terminal() {
        AlreadyDone(cfg, verdict, st0, st, done, s.row);
      } else if Target(cfg, st0, s).Some? {
        SettleReached(cfg, verdict, st0, st, done, s.row, s.answer.status.SaysSuccess?, s.now);
      }
    } else if HasRow(st, s.row) {
      NoRowReached(cfg, verdict, st0, st, done, s.row);
    }
  }

  lemma WebhookReached(cfg: Config, verdict: Verdict, st0: State, st: State, done: set<SubId>, s: Step)
    requires Base(st0) && Reached(cfg, verdict, st0, st, done)
    requires s.WebhookStep? && Truthful(cfg, verdict, st0, s)
    ensures Reached(cfg, verdict, st0, Apply(cfg, st, s), Grown(st0, done, Target(cfg, st0, s)))
  {
    var e, target := s.event, Target(cfg, st0, s);
    if Recognised(e) {
      var ref := e.ref.value;
      if ref !in st0.byReference {
        if ref !in st.ledger { NotedReached(cfg, verdict, st0, st, done, ref); }
      } else {
        var row := st0.byReference[ref];
        RowReached(cfg, verdict, st0, st, done, row);
        if ref in st.ledger {
          assert target.Some? ==> NotedSettled(st0, st, ref);
          if target.Some? { AlreadyDone(cfg, verdict, st0, st, done, row); }
        } else if RowAt(st, row).Terminal() {
          AlreadyDone(cfg, verdict, st0, st, done, row);
          NotedReached(cfg, verdict, st0, st, done, ref);
        } else {
          var paid := e.kind.ChargeSucceeded?;
          SettleReached(cfg, verdict, st0, st, done, row, paid, s.now);
          NotedReached(cfg, verdict, st0, SettleRow(cfg, st, row, paid, s.now), Grown(st0, done, Some(row)), ref);
        }
      }
    }
  }

  lemma EventReached(cfg: Config, verdict: Verdict, st0: State, st: State, done: set<SubId>, s: Step)
    requires Base(st0) && Reached(cfg, verdict, st0, st, done)
    requires Settling(s) && Truthful(cfg, verdict, st0, s)
    ensures Reached(cfg, verdict, st0, Apply(cfg, st, s), Grown(st0, done, Target(cfg, st0, s)))
  {
    match s
    case WebhookStep(_, _) => WebhookReached(cfg, verdict, st0, st, done, s);
    case PollStep(_, _, _) => PollReached(cfg, verdict, st0, st, done, s);
    case ExpireStep(_, _, _, _) => ExpireReached(cfg, verdict, st0, st, done, s);
  }

  ghost predicate TruthfulEvents(cfg: Config, verdict: Verdict, st: State, events: seq<Step>) {
    forall s :: s in events ==> Settling(s) && Truthful(cfg, verdict, st, s)
  }

  lemma {:induction false} EventsReached(cfg: Config, verdict: Verdict, st0: State, st: State, done: set<SubId>,
                                         events: seq<Step>)
    requires Base(st0) && Reached(cfg, verdict, st0, st, done)
    requires TruthfulEvents(cfg, verdict, st0, events)
    ensures Reached(cfg, verdict, st0, Run(cfg, st, events), done + Settled(cfg, st0, events))
    decreases |events|
  {
    if events == [] {
      assert done + {} == done;
    } else {
      var more := Grown(st0, done, Target(cfg, st0, events[0]));
      assert events[0] in events;
      EventReached(cfg, verdict, st0, st, done, events[0]);
      EventsReached(cfg, verdict, st0, Apply(cfg, st, events[0]), more, events[1..]);
      assert more + Settled(cfg, st0, events[1..]) == done + Settled(cfg, st0, events);
    }
  }

  /** The main result: after any truthful settlement events, a subscription is exactly where a
      single settlement of its open charge would have left it if some event was decisive, and
      untouched if none was. */
  lemma SettlementHappensOnce(cfg: Config, verdict: Verdict, st: State, t: Time, events: seq<Step>, id: SubId)
    requires Inv(cfg, st, t) && id in st.accounts && TruthfulEvents(cfg, verdict, st, events)
    ensures id in Run(cfg, st, events).accounts
    ensures var a, b := st.accounts[id], Run(cfg, st, events).accounts[id];
            if id in Settled(cfg, st, events) then SettledOnce(cfg, verdict, a, b) else b == a
  {
    InvIsBase(cfg, st, t);
    EventsReached(cfg, verdict, st, st, {}, events);
    assert {} + Settled(cfg, st, events) == Settled(cfg, st, events);
    assert Stands(cfg, verdict, st.accounts[id], Run(cfg, st, events).accounts[id], id in Settled(cfg, st, events));
  }

  lemma SettleCore(cfg: Config, a: Account, i: nat, paid: bool, t: Time, u: Time)
    requires i < |a.charges|
    ensures Core(Settle(cfg, a, i, paid, t)) == Core(Settle(cfg, a, i, paid, u))
  {
  }

  /** Two deliveries that settle the same charges agree on everything but timestamps. */
  lemma SameChargesSameOutcome(cfg: Config, verdict: Verdict, st: State, t: Time,
                               xs: seq<Step>, ys: seq<Step>, id: SubId)
    requires Inv(cfg, st, t) && id in st.accounts
    requires TruthfulEvents(cfg, verdict, st, xs) && TruthfulEvents(cfg, verdict, st, ys)
    requires id in Settled(cfg, st, xs) <==> id in Settled(cfg, st, ys)
    ensures id in Run(cfg, st, xs).accounts && id in Run(cfg, st, ys).accounts
    ensures Core(Run(cfg, st, xs).accounts[id]) == Core(Run(cfg, st, ys).accounts[id])
  {
    SettlementHappensOnce(cfg, verdict, st, t, xs, id);
    SettlementHappensOnce(cfg, verdict, st, t, ys, id);
    if id in Settled(cfg, st, xs) {
      var a := st.accounts[id];
      var u :| Run(cfg, st, xs).accounts[id] == SettleLatest(cfg, verdict, a, u);
      var v :| Run(cfg, st, ys).accounts[id] == SettleLatest(cfg, verdict, a, v);
      SettleCore(cfg, a, |a.charges| - 1, verdict(a.charges[|a.charges| - 1].ref.value), u, v);
    }
  }

  lemma {:induction false} SettledByMember(cfg: Config, st: State, events: seq<Step>, id: SubId)
    ensures id in Settled(cfg, st, events) <==>
            exists s :: s in events && Hits(st, Target(cfg, st, s)) && Target(cfg, st, s).value.sub == id
    decreases |events|
  {
    if events != [] {
      SettledByMember(cfg, st, events[1..], id);
      assert forall s :: s in events <==> s == events[0] || s in events[1..];
    }
  }

  /** In particular, any reordering or repetition of the same events ends alike. */
  lemma OrderAndRepetitionDoNotMatter(cfg: Config, verdict: Verdict, st: State, t: Time,
                                      xs: seq<Step>, ys: seq<Step>, id: SubId)
    requires Inv(cfg, st, t) && id in st.accounts && TruthfulEvents(cfg, verdict, st, xs)
    requires forall s :: s in xs <==> s in ys
    ensures id in Run(cfg, st, xs).accounts && id in Run(cfg, st, ys).accounts
    ensures Core(Run(cfg, st, xs).accounts[id]) == Core(Run(cfg, st, ys).accounts[id])
  {
    SettledByMember(cfg, st, xs, id);
    SettledByMember(cfg, st, ys, id);
    SameChargesSameOutcome(cfg, verdict, st, t, xs, ys, id);
  }
}
