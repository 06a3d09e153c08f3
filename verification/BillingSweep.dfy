/** The periodic sweep: reconcile stale charges, then charge every subscription that is due. */
module BillingSweep {
  import opened Options
  import opened BillingModel
  import opened BillingInvariant
  import opened BillingKeys
  import opened BillingEngine

  /** The surroundings of one sweep: the gateway's answer on each reference, the clock when each stale
      charge is settled, and what a call for each subscription would meet: the clock, whether there is
      an owner, and the gateway's answer to the push. The sweep itself is as of a single time. */
  type Verify = Ref -> Answer
  type Clock = RowId -> Time
  datatype Request = Request(at: Time, hasOwner: bool, push: Push)
  type Charger = SubId -> Request

  function AnswerFor(st: State, row: RowId, verify: Verify): Answer {
    if HasRow(st, row) && RowAt(st, row).ref.Some? then verify(RowAt(st, row).ref.value) else Unreachable
  }

  /** rows is what the SELECT of stale charges returned, in its order. */
  function ExpireAll(cfg: Config, st: State, rows: seq<RowId>, now: Time, verify: Verify, clock: Clock): State
    decreases |rows|
  {
    if rows == [] then st
    else ExpireAll(cfg, Expire(cfg, st, rows[0], now, clock(rows[0]), AnswerFor(st, rows[0], verify)), rows[1..], now, verify, clock)
  }

  predicate Due(st: State, id: SubId, now: Time) { id in st.accounts && SweepDue(st.accounts[id].sub, now) }

  function ChargeIfDue(cfg: Config, st: State, id: SubId, now: Time, charger: Charger): State {
    if Due(st, id, now) then InitiateCharge(cfg, st, id, charger(id).at, charger(id).hasOwner, charger(id).push) else st
  }

  /** The rows the SELECT of candidates returns. */
  predicate Candidate(sub: Sub) { sub.status.Trialing? || sub.status.Active? || sub.status.PastDue? }

  /** ids is what the SELECT of candidates returned, in its order. */
  function ChargeDue(cfg: Config, st: State, ids: seq<SubId>, now: Time, charger: Charger): State
    decreases |ids|
  {
    if ids == [] then st
    else ChargeDue(cfg, ChargeIfDue(cfg, st, ids[0], now, charger), ids[1..], now, charger)
  }

  function Sweep(cfg: Config, st: State, rows: seq<RowId>, ids: seq<SubId>, now: Time,
                 verify: Verify, clock: Clock, charger: Charger): State
  {
    ChargeDue(cfg, ExpireAll(cfg, st, rows, now, verify, clock), ids, now, charger)
  }

  // ------------------------------------------------------- a sweep is a run of steps

  function ExpireSteps(cfg: Config, st: State, rows: seq<RowId>, now: Time, verify: Verify, clock: Clock): seq<Step>
    decreases |rows|
  {
    if rows == [] then []
    else
      var s := ExpireStep(rows[0], now, clock(rows[0]), AnswerFor(st, rows[0], verify));
      [s] + ExpireSteps(cfg, Apply(cfg, st, s), rows[1..], now, verify, clock)
  }

  function DueStep(id: SubId, charger: Charger): Step {
    InitiateStep(id, charger(id).at, charger(id).hasOwner, charger(id).push)
  }

  function DueSteps(cfg: Config, st: State, ids: seq<SubId>, now: Time, charger: Charger): seq<Step>
    decreases |ids|
  {
    if ids == [] then []
    else if Due(st, ids[0], now) then
      [DueStep(ids[0], charger)] + DueSteps(cfg, Apply(cfg, st, DueStep(ids[0], charger)), ids[1..], now, charger)
    else DueSteps(cfg, st, ids[1..], now, charger)
  }

  /** The times do not decrease, from first to last, and lie in between. */
  predicate Ascend(first: Time, times: seq<Time>, last: Time)
    decreases |times|
  {
    if times == [] then first <= last else first <= times[0] && Ascend(times[0], times[1..], last)
  }

  function ClockTimes(rows: seq<RowId>, clock: Clock): seq<Time> { seq(|rows|, i requires 0 <= i < |rows| => clock(rows[i])) }

  function CallTimes(ids: seq<SubId>, charger: Charger): seq<Time> {
    seq(|ids|, i requires 0 <= i < |ids| => charger(ids[i]).at)
  }

  /** An ordered run that ends by some time. */
  ghost predicate OrderedUntil(first: Time, steps: seq<Step>, last: Time) {
    Ordered(first, steps) && first <= last && forall s :: s in steps ==> s.now <= last
  }

  lemma {:induction false} OrderedLater(t: Time, u: Time, steps: seq<Step>, last: Time)
    requires t <= u && OrderedUntil(u, steps, last)
    ensures OrderedUntil(t, steps, last)
  {
  }

  lemma OrderedCons(first: Time, s: Step, rest: seq<Step>, last: Time)
    requires first <= s.now && OrderedUntil(s.now, rest, last)
    ensures OrderedUntil(first, [s] + rest, last)
  {
    assert ([s] + rest)[1..] == rest;
  }

  lemma {:induction false} AscendEnds(first: Time, times: seq<Time>, last: Time)
    requires Ascend(first, times, last)
    ensures first <= last
    decreases |times|
  {
    if times != [] { AscendEnds(times[0], times[1..], last); }
  }

  lemma {:induction false} ExpireAllIsRun(cfg: Config, st: State, rows: seq<RowId>, now: Time, verify: Verify, clock: Clock)
    ensures Run(cfg, st, ExpireSteps(cfg, st, rows, now, verify, clock)) == ExpireAll(cfg, st, rows, now, verify, clock)
    decreases |rows|
  {
    if rows != [] {
      var s := ExpireStep(rows[0], now, clock(rows[0]), AnswerFor(st, rows[0], verify));
      ExpireAllIsRun(cfg, Apply(cfg, st, s), rows[1..], now, verify, clock);
      var rest := ExpireSteps(cfg, Apply(cfg, st, s), rows[1..], now, verify, clock);
      assert ([s] + rest)[1..] == rest;
    }
  }

  lemma {:induction false} ExpireStepsOrdered(cfg: Config, st: State, rows: seq<RowId>, now: Time, verify: Verify, clock: Clock,
                                              first: Time, last: Time)
    requires Ascend(first, ClockTimes(rows, clock), last)
    ensures OrderedUntil(first, ExpireSteps(cfg, st, rows, now, verify, clock), last)
    decreases |rows|
  {
    AscendEnds(first, ClockTimes(rows, clock), last);
    if rows != [] {
      var s := ExpireStep(rows[0], now, clock(rows[0]), AnswerFor(st, rows[0], verify));
      assert ClockTimes(rows, clock)[1..] == ClockTimes(rows[1..], clock);
      ExpireStepsOrdered(cfg, Apply(cfg, st, s), rows[1..], now, verify, clock, s.now, last);
      OrderedCons(first, s, ExpireSteps(cfg, Apply(cfg, st, s), rows[1..], now, verify, clock), last);
    }
  }

  lemma {:induction false} ChargeDueIsRun(cfg: Config, st: State, ids: seq<SubId>, now: Time, charger: Charger)
    ensures Run(cfg, st, DueSteps(cfg, st, ids, now, charger)) == ChargeDue(cfg, st, ids, now, charger)
    decreases |ids|
  {
    if ids != [] {
      ChargeDueIsRun(cfg, ChargeIfDue(cfg, st, ids[0], now, charger), ids[1..], now, charger);
      if Due(st, ids[0], now) {
        var s := DueStep(ids[0], charger);
        var rest := DueSteps(cfg, Apply(cfg, st, s), ids[1..], now, charger);
        assert ([s] + rest)[1..] == rest;
      }
    }
  }

  lemma {:induction false} DueStepsOrdered(cfg: Config, st: State, ids: seq<SubId>, now: Time, charger: Charger,
                                           first: Time, last: Time)
    requires Ascend(first, CallTimes(ids, charger), last)
    ensures OrderedUntil(first, DueSteps(cfg, st, ids, now, charger), last)
    decreases |ids|
  {
    AscendEnds(first, CallTimes(ids, charger), last);
    if ids != [] {
      assert CallTimes(ids, charger)[1..] == CallTimes(ids[1..], charger);
      var s := DueStep(ids[0], charger);
      if Due(st, ids[0], now) {
        DueStepsOrdered(cfg, Apply(cfg, st, s), ids[1..], now, charger, s.now, last);
        OrderedCons(first, s, DueSteps(cfg, Apply(cfg, st, s), ids[1..], now, charger), last);
      } else {
        DueStepsOrdered(cfg, st, ids[1..], now, charger, s.now, last);
        OrderedLater(first, s.now, DueSteps(cfg, st, ids[1..], now, charger), last);
      }
    }
  }

  lemma {:induction false} OrderedConcat(first: Time, xs: seq<Step>, middle: Time, ys: seq<Step>, last: Time)
    requires OrderedUntil(first, xs, middle) && OrderedUntil(middle, ys, last)
    ensures OrderedUntil(first, xs + ys, last)
    decreases |xs|
  {
    if xs == [] {
      assert xs + ys == ys;
      OrderedLater(first, middle, ys, last);
    } else {
      assert xs[0] in xs && xs + ys == [xs[0]] + (xs[1..] + ys);
      OrderedConcat(xs[0].now, xs[1..], middle, ys, last);
      OrderedCons(first, xs[0], xs[1..] + ys, last);
    }
  }

  /** Whatever the SELECTs return and the clock shows, a sweep is a run of ordinary steps; and when the
      clock does not run backwards during the sweep, it is an ordered one, so that everything proved
      of runs holds of sweeps. */
  lemma SweepIsRun(cfg: Config, st: State, rows: seq<RowId>, ids: seq<SubId>, now: Time,
                   verify: Verify, clock: Clock, charger: Charger, middle: Time, last: Time)
    ensures var mid := ExpireAll(cfg, st, rows, now, verify, clock);
            var steps := ExpireSteps(cfg, st, rows, now, verify, clock) + DueSteps(cfg, mid, ids, now, charger);
            && Run(cfg, st, steps) == Sweep(cfg, st, rows, ids, now, verify, clock, charger)
            && (Ascend(now, ClockTimes(rows, clock), middle) && Ascend(middle, CallTimes(ids, charger), last) ==>
                  OrderedUntil(now, steps, last))
  {
    var mid := ExpireAll(cfg, st, rows, now, verify, clock);
    var xs, ys := ExpireSteps(cfg, st, rows, now, verify, clock), DueSteps(cfg, mid, ids, now, charger);
    ExpireAllIsRun(cfg, st, rows, now, verify, clock);
    ChargeDueIsRun(cfg, mid, ids, now, charger);
    RunConcat(cfg, st, xs, ys);
    if Ascend(now, ClockTimes(rows, clock), middle) && Ascend(middle, CallTimes(ids, charger), last) {
      ExpireStepsOrdered(cfg, st, rows, now, verify, clock, now, middle);
      DueStepsOrdered(cfg, mid, ids, now, charger, middle, last);
      OrderedConcat(now, xs, middle, ys, last);
    }
  }

  // ---------------------------------------------------------------- quiet states

  /** The gateway has nothing final to say about a stale row. */
  predicate RowQuiet(cfg: Config, c: Charge, now: Time, verify: Verify) {
    Stale(cfg, c, now) ==>
      c.ref.Some? && cfg.configured && (verify(c.ref.value).Unreachable? || verify(c.ref.value) == Answered(SaysOther))
  }

  /** A due subscription whose next call returns an old row. */
  predicate DueQuiet(cfg: Config, st: State, id: SubId, now: Time, at: Time) {
    Due(st, id, now) ==> !Creates(cfg, id, st.accounts[id], at)
  }

  ghost predicate RowsQuiet(cfg: Config, st: State, now: Time, verify: Verify) {
    forall row :: HasRow(st, row) ==> RowQuiet(cfg, RowAt(st, row), now, verify)
  }

  lemma {:induction false} QuietRowsStay(cfg: Config, st: State, rows: seq<RowId>, now: Time, verify: Verify, clock: Clock)
    requires RowsQuiet(cfg, st, now, verify)
    ensures ExpireAll(cfg, st, rows, now, verify, clock) == st
    decreases |rows|
  {
    if rows != [] {
      if HasRow(st, rows[0]) { assert RowQuiet(cfg, RowAt(st, rows[0]), now, verify); }
      QuietRowsStay(cfg, st, rows[1..], now, verify, clock);
    }
  }

  lemma {:induction false} QuietSubsStay(cfg: Config, st: State, ids: seq<SubId>, now: Time, charger: Charger)
    requires forall id :: DueQuiet(cfg, st, id, now, charger(id).at)
    ensures ChargeDue(cfg, st, ids, now, charger) == st
    decreases |ids|
  {
    if ids != [] {
      assert DueQuiet(cfg, st, ids[0], now, charger(ids[0]).at);
      QuietSubsStay(cfg, st, ids[1..], now, charger);
    }
  }

  // -------------------------------------------- the first sweep leaves a quiet state

  lemma ExpireQuietsRow(cfg: Config, st: State, row: RowId, now: Time, at: Time, verify: Verify)
    ensures var st' := Expire(cfg, st, row, now, at, AnswerFor(st, row, verify));
            && (HasRow(st', row) ==> RowQuiet(cfg, RowAt(st', row), now, verify))
            && (forall r :: r != row && HasRow(st', r) ==> HasRow(st, r) && RowAt(st', r) == RowAt(st, r))
  {
  }

  lemma {:induction false} ExpireAllQuiets(cfg: Config, st: State, rows: seq<RowId>, now: Time, verify: Verify, clock: Clock)
    requires forall row :: HasRow(st, row) && !RowQuiet(cfg, RowAt(st, row), now, verify) ==> row in rows
    ensures RowsQuiet(cfg, ExpireAll(cfg, st, rows, now, verify, clock), now, verify)
    decreases |rows|
  {
    if rows != [] {
      var st' := Expire(cfg, st, rows[0], now, clock(rows[0]), AnswerFor(st, rows[0], verify));
      ExpireQuietsRow(cfg, st, rows[0], now, clock(rows[0]), verify);
      forall row | HasRow(st', row) && !RowQuiet(cfg, RowAt(st', row), now, verify) ensures row in rows[1..] {
        assert row != rows[0] && row in rows;
      }
      ExpireAllQuiets(cfg, st', rows[1..], now, verify, clock);
    }
  }

  /** A new charge is made that another sweep as of the same time would follow with another:
      exactly when a declined push is to be retried by then, or a paid one bought time that is
      over by then. */
  predicate StirsAgain(cfg: Config, a: Account, now: Time, r: Request) {
    && r.hasOwner && r.push.Pushed?
    && ((r.push.state.DeclinedNow? && a.sub.failedAttempts + 1 < |cfg.retryHours|
         && r.at + Hours(cfg.retryHours[a.sub.failedAttempts + 1]) <= now)
        || (r.push.state.PaidNow? && PeriodStart(cfg, a.sub, r.at) + Days(cfg.periodDays) <= now))
  }

  function Charged(cfg: Config, id: SubId, a: Account, r: Request): Account { Initiate(cfg, id, a, r.at, r.hasOwner, r.push) }

  lemma QuietAfterInitiate(cfg: Config, id: SubId, a: Account, now: Time, r: Request)
    requires Creates(cfg, id, a, r.at) && !StirsAgain(cfg, a, now, r)
    ensures var b := Charged(cfg, id, a, r); SweepDue(b.sub, now) ==> !Creates(cfg, id, b, r.at)
  {
    var b := Charged(cfg, id, a, r);
    var n := |a.charges|;
    if !r.hasOwner || r.push.PushError? {
      assert b.charges[n].key == NextKey(cfg, id, b, r.at);
    } else if r.push.state.AwaitingPin? {
      assert b.charges[n].Open();
    }
  }

  lemma StirsIsDue(cfg: Config, id: SubId, a: Account, now: Time, r: Request)
    requires Creates(cfg, id, a, r.at) && StirsAgain(cfg, a, now, r)
    ensures SweepDue(Charged(cfg, id, a, r).sub, now)
  {
  }

  lemma StirsAfterInitiate(cfg: Config, id: SubId, a: Account, now: Time, r: Request)
    requires cfg.Valid() && AccountInv(cfg, id, a, r.at) && Creates(cfg, id, a, r.at) && StirsAgain(cfg, a, now, r)
    ensures Creates(cfg, id, Charged(cfg, id, a, r), r.at)
  {
    var paid, later := r.push.state.PaidNow?, Pushed(r.push.ref, AwaitingPin);
    var waiting := Initiate(cfg, id, a, r.at, true, later);
    InitiateKeepsInv(cfg, id, a, r.at, true, later);
    InitiateAppends(cfg, id, a, r.at, true, later);
    SynchronousIsSettle(cfg, id, a, r.at, r.push.ref, paid);
    assert r.push == Pushed(r.push.ref, if paid then PaidNow else DeclinedNow);
    FreshKeyAfterSettlement(cfg, id, waiting, |a.charges|, paid, r.at, r.at);
  }

  /** One more charge as of the same time, if and only if StirsAgain. */
  lemma SecondChargeExactlyWhen(cfg: Config, id: SubId, a: Account, now: Time, r: Request)
    requires cfg.Valid() && AccountInv(cfg, id, a, r.at) && Creates(cfg, id, a, r.at)
    ensures var b := Charged(cfg, id, a, r);
            (SweepDue(b.sub, now) && Creates(cfg, id, b, r.at)) <==> StirsAgain(cfg, a, now, r)
  {
    if StirsAgain(cfg, a, now, r) {
      StirsIsDue(cfg, id, a, now, r);
      StirsAfterInitiate(cfg, id, a, now, r);
    } else {
      QuietAfterInitiate(cfg, id, a, now, r);
    }
  }

  /** The pushes of this sweep meet a gateway that never repeats a reference, and none of them
      stirs the subscription again. */
  ghost predicate Calm(cfg: Config, st: State, ids: seq<SubId>, now: Time, charger: Charger) {
    && (forall i, j :: 0 <= i < j < |ids| ==>
          ids[i] != ids[j] &&
          (charger(ids[i]).push.Pushed? && charger(ids[j]).push.Pushed? ==>
             charger(ids[i]).push.ref != charger(ids[j]).push.ref))
    && (forall i :: 0 <= i < |ids| ==>
          && (charger(ids[i]).push.Pushed? ==> charger(ids[i]).push.ref !in st.byReference)
          && (ids[i] in st.accounts ==> !StirsAgain(cfg, st.accounts[ids[i]], now, charger(ids[i]))))
  }

  lemma ChargeOneQuiets(cfg: Config, st: State, ids: seq<SubId>, now: Time, charger: Charger)
    requires ids != [] && Calm(cfg, st, ids, now, charger)
    ensures DueQuiet(cfg, ChargeIfDue(cfg, st, ids[0], now, charger), ids[0], now, charger(ids[0]).at)
  {
    var r := charger(ids[0]);
    if Due(st, ids[0], now) && Creates(cfg, ids[0], st.accounts[ids[0]], r.at) {
      QuietAfterInitiate(cfg, ids[0], st.accounts[ids[0]], now, r);
    }
  }

  lemma ChargeOneKeepsCalm(cfg: Config, st: State, ids: seq<SubId>, now: Time, charger: Charger)
    requires ids != [] && Calm(cfg, st, ids, now, charger)
    ensures Calm(cfg, ChargeIfDue(cfg, st, ids[0], now, charger), ids[1..], now, charger)
  {
    ChargeOneFrame(cfg, st, ids[0], now, charger);
    assert forall i :: 0 <= i < |ids[1..]| ==> ids[1..][i] == ids[i + 1];
  }

  lemma ChargeOneFrame(cfg: Config, st: State, id: SubId, now: Time, charger: Charger)
    ensures var st' := ChargeIfDue(cfg, st, id, now, charger);
            && st'.accounts.Keys == st.accounts.Keys
            && (forall o :: o != id && o in st.accounts ==> st'.accounts[o] == st.accounts[o])
            && forall ref :: ref in st'.byReference ==>
                 ref in st.byReference || (charger(id).push.Pushed? && ref == charger(id).push.ref)
  {
  }

  lemma {:induction false} ChargeDueQuiets(cfg: Config, st: State, ids: seq<SubId>, now: Time, charger: Charger)
    requires Calm(cfg, st, ids, now, charger)
    requires forall id :: id in st.accounts && !DueQuiet(cfg, st, id, now, charger(id).at) ==> id in ids
    ensures forall id :: DueQuiet(cfg, ChargeDue(cfg, st, ids, now, charger), id, now, charger(id).at)
    decreases |ids|
  {
    if ids != [] {
      var st' := ChargeIfDue(cfg, st, ids[0], now, charger);
      ChargeOneQuiets(cfg, st, ids, now, charger);
      ChargeOneKeepsCalm(cfg, st, ids, now, charger);
      ChargeOneFrame(cfg, st, ids[0], now, charger);
      forall id | id in st'.accounts && !DueQuiet(cfg, st', id, now, charger(id).at) ensures id in ids[1..] {
        assert id != ids[0] && !DueQuiet(cfg, st, id, now, charger(id).at);
      }
      ChargeDueQuiets(cfg, st', ids[1..], now, charger);
    }
  }

  /** New rows are not stale yet, old ones are left alone. */
  lemma ChargeOneKeepsRowsQuiet(cfg: Config, st: State, id: SubId, now: Time, verify: Verify, charger: Charger)
    requires RowsQuiet(cfg, st, now, verify) && 0 <= cfg.staleMinutes && now <= charger(id).at
    ensures RowsQuiet(cfg, ChargeIfDue(cfg, st, id, now, charger), now, verify)
  {
    var st' := ChargeIfDue(cfg, st, id, now, charger);
    forall row | HasRow(st', row) ensures RowQuiet(cfg, RowAt(st', row), now, verify) {
      if row.sub == id && st'.accounts != st.accounts {
        var a := st.accounts[id];
        InitiateRows(cfg, id, a, charger(id).at, charger(id).hasOwner, charger(id).push);
        if row.index < |a.charges| {
          assert st'.accounts[id].charges[..|a.charges|][row.index] == a.charges[row.index];
          assert RowQuiet(cfg, RowAt(st, row), now, verify);
        }
      } else {
        assert RowAt(st', row) == RowAt(st, row);
      }
    }
  }

  lemma {:induction false} ChargeDueKeepsRowsQuiet(cfg: Config, st: State, ids: seq<SubId>, now: Time,
                                                   verify: Verify, charger: Charger)
    requires RowsQuiet(cfg, st, now, verify) && 0 <= cfg.staleMinutes && forall id :: now <= charger(id).at
    ensures RowsQuiet(cfg, ChargeDue(cfg, st, ids, now, charger), now, verify)
    decreases |ids|
  {
    if ids != [] {
      ChargeOneKeepsRowsQuiet(cfg, st, ids[0], now, verify, charger);
      ChargeDueKeepsRowsQuiet(cfg, ChargeIfDue(cfg, st, ids[0], now, charger), ids[1..], now, verify, charger);
    }
  }

  /** A call for the subscription would compute the same key at both times. */
  predicate SameDayCalls(cfg: Config, st: State, id: SubId, at: Time, at2: Time) {
    id in st.accounts ==> SamePeriodDay(cfg, st.accounts[id].sub, at, at2)
  }

  /** A second sweep as of the same time changes nothing at all: no row, no prompt, no status.
      The first must have seen every stale charge and then every candidate; the gateway must not
      change its answers, nor repeat a reference, and no push may stir its subscription again. The
      clock may run on between and during the sweeps, as long as no subscription's period day
      changes. */
  lemma SecondSweepDoesNothing(cfg: Config, st: State, rows: seq<RowId>, ids: seq<SubId>, now: Time,
                               verify: Verify, clock: Clock, charger: Charger,
                               rows2: seq<RowId>, ids2: seq<SubId>, clock2: Clock, charger2: Charger)
    requires 0 <= cfg.staleMinutes && forall id :: now <= charger(id).at
    requires forall row :: HasRow(st, row) && Stale(cfg, RowAt(st, row), now) ==> row in rows
    requires var mid := ExpireAll(cfg, st, rows, now, verify, clock);
             forall id :: id in mid.accounts && Candidate(mid.accounts[id].sub) ==> id in ids
    requires Calm(cfg, ExpireAll(cfg, st, rows, now, verify, clock), ids, now, charger)
    requires var once := Sweep(cfg, st, rows, ids, now, verify, clock, charger);
             forall id :: SameDayCalls(cfg, once, id, charger(id).at, charger2(id).at)
    ensures var once := Sweep(cfg, st, rows, ids, now, verify, clock, charger);
            Sweep(cfg, once, rows2, ids2, now, verify, clock2, charger2) == once
  {
    var mid := ExpireAll(cfg, st, rows, now, verify, clock);
    var once := ChargeDue(cfg, mid, ids, now, charger);
    ExpireAllQuiets(cfg, st, rows, now, verify, clock);
    ChargeDueQuiets(cfg, mid, ids, now, charger);
    ChargeDueKeepsRowsQuiet(cfg, mid, ids, now, verify, charger);
    QuietRowsStay(cfg, once, rows2, now, verify, clock2);
    forall id ensures DueQuiet(cfg, once, id, now, charger2(id).at) {
      assert DueQuiet(cfg, once, id, now, charger(id).at) && SameDayCalls(cfg, once, id, charger(id).at, charger2(id).at);
    }
    QuietSubsStay(cfg, once, ids2, now, charger2);
  }
}
