/** What each actor does to the tables, said of rows before and after: which reply a webhook gets, what
    a poll and a sweep settle, and whom a sweep bills. */
module BillingOutcomes {
  import opened Options
  import opened BillingModel
  import opened BillingInvariant
  import opened BillingEngine
  import opened BillingSweep

  // -------------------------------------------------------------------- webhooks

  ghost predicate Carried(st: State, ref: Ref) { exists row :: HasRow(st, row) && RowAt(st, row).ref == Some(ref) }

  /** Row is settled, and no other row differs. */
  ghost predicate OnlySettles(st: State, st': State, row: RowId, paid: bool) {
    && HasRow(st, row) && HasRow(st', row)
    && !RowAt(st, row).Terminal()
    && RowAt(st', row).status == (if paid then Success else Failed)
    && RowAt(st', row).(status := RowAt(st, row).status, finalizedAt := RowAt(st, row).finalizedAt) == RowAt(st, row)
    && (forall r :: HasRow(st', r) <==> HasRow(st, r))
    && (forall r :: HasRow(st, r) && r != row ==> RowAt(st', r) == RowAt(st, r))
    && (forall id :: id in st.accounts && id != row.sub ==> id in st'.accounts && st'.accounts[id] == st.accounts[id])
  }

  lemma SettleRowOnly(cfg: Config, st: State, row: RowId, paid: bool, now: Time)
    requires HasRow(st, row) && !RowAt(st, row).Terminal()
    ensures OnlySettles(st, SettleRow(cfg, st, row, paid, now), row, paid)
  {
  }

  /** The reply tells what happened: a delivery is applied exactly if a row changed, and then it is the
      row with its reference, open until now, and to the outcome the reply names. */
  lemma AppliedMeansSettled(cfg: Config, st: State, e: Event, now: Time)
    requires IndexCoherent(st)
    ensures var st', reply := ProcessWebhook(cfg, st, e, now), WebhookReply(st, e);
            && (reply.Applied? <==> st'.accounts != st.accounts)
            && (reply.Applied? ==>
                  && e.ref.Some? && (reply.paid <==> e.kind.ChargeSucceeded?)
                  && exists row :: OnlySettles(st, st', row, reply.paid) && RowAt(st, row).ref == e.ref)
  {
    if WebhookReply(st, e).Applied? {
      var row := st.byReference[e.ref.value];
      var noted := st.(ledger := st.ledger + {e.ref.value});
      SettleRowOnly(cfg, noted, row, e.kind.ChargeSucceeded?, now);
      assert forall r :: HasRow(noted, r) == HasRow(st, r) && (HasRow(st, r) ==> RowAt(noted, r) == RowAt(st, r));
      assert OnlySettles(st, ProcessWebhook(cfg, st, e, now), row, e.kind.ChargeSucceeded?);
    }
  }

  /** And every other reply, exactly. */
  lemma RepliesExactly(cfg: Config, st: State, e: Event, now: Time)
    requires IndexCoherent(st)
    ensures var st', reply := ProcessWebhook(cfg, st, e, now), WebhookReply(st, e);
            && (reply.IgnoredNoReference? <==> e.ref.None?)
            && (reply.IgnoredEvent? <==> e.ref.Some? && e.kind.OtherEvent?)
            && (reply.DuplicateIgnored? <==> e.ref.Some? && !e.kind.OtherEvent? && e.ref.value in st.ledger)
            && (reply.NoMatchingCharge? <==>
                  e.ref.Some? && !e.kind.OtherEvent? && e.ref.value !in st.ledger && !Carried(st, e.ref.value))
            && (reply.IgnoredNoReference? || reply.IgnoredEvent? || reply.DuplicateIgnored? <==> st' == st)
            && (st' != st ==> e.ref.Some? && st'.ledger == st.ledger + {e.ref.value})
  {
    if e.ref.Some? && Matches(st, e.ref.value) {
      assert HasRow(st, st.byReference[e.ref.value]);
    }
  }

  // ------------------------------------------------------------ polls and expiries

  /** Whether a charge was paid, as far as an answer settles it. */
  datatype Verdict = Paid | NotPaid | Undecided

  /** A poll believes success and the three kinds of failure. */
  function PollVerdict(cfg: Config, c: Charge, answer: Answer): Verdict {
    if c.status.Success? || c.status.Failed? || c.ref.None? || !cfg.configured then Undecided
    else if answer == Answered(SaysSuccess) then Paid
    else if answer in {Answered(SaysFailed), Answered(SaysAbandoned), Answered(SaysReversed)} then NotPaid
    else Undecided
  }

  /** A charge that has waited for its webhook for more than the configured minutes. */
  predicate Overdue(cfg: Config, c: Charge, asOf: Time) {
    c.status.Processing? && c.requestedAt + cfg.staleMinutes * 60_000_000 < asOf
  }

  /** A sweep asks about overdue charges only, takes silence for a failure, and fails outright what it
      cannot ask about. */
  function SweepVerdict(cfg: Config, c: Charge, asOf: Time, answer: Answer): Verdict {
    if !Overdue(cfg, c, asOf) then Undecided
    else if c.ref.None? || !cfg.configured then NotPaid
    else if answer == Answered(SaysSuccess) then Paid
    else if answer in {Answered(SaysFailed), Answered(SaysAbandoned), Answered(SaysReversed), Answered(SaysNothing)} then NotPaid
    else Undecided
  }

  ghost predicate Follows(st: State, st': State, row: RowId, v: Verdict) {
    match v
    case Undecided => st' == st
    case Paid => OnlySettles(st, st', row, true)
    case NotPaid => OnlySettles(st, st', row, false)
  }

  /** A poll settles its row exactly as the gateway's final word says, and otherwise nothing. */
  lemma PollFollowsVerdict(cfg: Config, st: State, row: RowId, now: Time, answer: Answer)
    requires HasRow(st, row)
    ensures Follows(st, Poll(cfg, st, row, now, answer), row, PollVerdict(cfg, RowAt(st, row), answer))
  {
    if !RowAt(st, row).Terminal() {
      SettleRowOnly(cfg, st, row, true, now);
      SettleRowOnly(cfg, st, row, false, now);
    }
  }

  lemma ExpireFollowsVerdict(cfg: Config, st: State, row: RowId, asOf: Time, now: Time, answer: Answer)
    requires HasRow(st, row)
    ensures Follows(st, Expire(cfg, st, row, asOf, now, answer), row, SweepVerdict(cfg, RowAt(st, row), asOf, answer))
  {
    if !RowAt(st, row).Terminal() {
      SettleRowOnly(cfg, st, row, true, now);
      SettleRowOnly(cfg, st, row, false, now);
    }
  }

  // ---------------------------------------------------------- what a sweep settles

  function Asked(c: Charge, verify: Verify): Answer { if c.ref.Some? then verify(c.ref.value) else Unreachable }

  /** The row after the verdict on it. */
  ghost predicate RowFollows(c: Charge, d: Charge, v: Verdict) {
    match v
    case Undecided => d == c
    case Paid => d.status.Success? && d.(status := c.status, finalizedAt := c.finalizedAt) == c
    case NotPaid => d.status.Failed? && d.(status := c.status, finalizedAt := c.finalizedAt) == c
  }

  ghost predicate SettlesAs(cfg: Config, st: State, st': State, r: RowId, v: Verdict) {
    HasRow(st, r) && HasRow(st', r) && RowFollows(RowAt(st, r), RowAt(st', r), v)
  }

  lemma {:induction false} SettledRowsStay(cfg: Config, st: State, rows: seq<RowId>, now: Time, verify: Verify, clock: Clock, r: RowId)
    requires HasRow(st, r) && (r !in rows || SweepVerdict(cfg, RowAt(st, r), now, Asked(RowAt(st, r), verify)).Undecided?)
    ensures SettlesAs(cfg, st, ExpireAll(cfg, st, rows, now, verify, clock), r, Undecided)
    decreases |rows|
  {
    if rows != [] {
      var st' := Expire(cfg, st, rows[0], now, clock(rows[0]), AnswerFor(st, rows[0], verify));
      if HasRow(st, rows[0]) {
        ExpireFollowsVerdict(cfg, st, rows[0], now, clock(rows[0]), AnswerFor(st, rows[0], verify));
      }
      assert HasRow(st', r) && RowAt(st', r) == RowAt(st, r);
      SettledRowsStay(cfg, st', rows[1..], now, verify, clock, r);
    }
  }

  /** The first half of a sweep, row by row: with the rows its SELECT returns, exactly the overdue
      charges are settled, each by the gateway's answer about it, and no other row changes. */
  lemma {:induction false} SweepSettlesExactly(cfg: Config, st: State, rows: seq<RowId>, now: Time, verify: Verify, clock: Clock, r: RowId)
    requires HasRow(st, r) && (Overdue(cfg, RowAt(st, r), now) ==> r in rows)
    ensures SettlesAs(cfg, st, ExpireAll(cfg, st, rows, now, verify, clock), r,
                      SweepVerdict(cfg, RowAt(st, r), now, Asked(RowAt(st, r), verify)))
    decreases |rows|
  {
    var v := SweepVerdict(cfg, RowAt(st, r), now, Asked(RowAt(st, r), verify));
    if v.Undecided? {
      SettledRowsStay(cfg, st, rows, now, verify, clock, r);
    } else {
      var st' := Expire(cfg, st, rows[0], now, clock(rows[0]), AnswerFor(st, rows[0], verify));
      if HasRow(st, rows[0]) {
        ExpireFollowsVerdict(cfg, st, rows[0], now, clock(rows[0]), AnswerFor(st, rows[0], verify));
      }
      if rows[0] == r {
        SettledRowsStay(cfg, st', rows[1..], now, verify, clock, r);
      } else {
        assert HasRow(st', r) && RowAt(st', r) == RowAt(st, r);
        SweepSettlesExactly(cfg, st', rows[1..], now, verify, clock, r);
      }
    }
  }

  /** A subscription none of whose charges is overdue is left alone. */
  lemma {:induction false} NothingOverdueNothingSettled(cfg: Config, st: State, rows: seq<RowId>, now: Time,
                                                        verify: Verify, clock: Clock, id: SubId)
    requires id in st.accounts
    requires forall i :: 0 <= i < |st.accounts[id].charges| ==> !Overdue(cfg, st.accounts[id].charges[i], now)
    ensures var mid := ExpireAll(cfg, st, rows, now, verify, clock); id in mid.accounts && mid.accounts[id] == st.accounts[id]
    decreases |rows|
  {
    if rows != [] {
      var st' := Expire(cfg, st, rows[0], now, clock(rows[0]), AnswerFor(st, rows[0], verify));
      if HasRow(st, rows[0]) {
        ExpireFollowsVerdict(cfg, st, rows[0], now, clock(rows[0]), AnswerFor(st, rows[0], verify));
      }
      assert id in st'.accounts && st'.accounts[id] == st.accounts[id];
      NothingOverdueNothingSettled(cfg, st', rows[1..], now, verify, clock, id);
    }
  }

  // -------------------------------------------------------------- whom a sweep bills

  /** The trial is over and nothing was ever paid or declined; or the time last paid for is over and
      nothing was declined since; or a retry is due. */
  predicate OwesPayment(a: Account, now: Time) {
    || (CountedFailures(a.charges) == 0 && LastPaid(a.charges).None? && a.sub.trialEndsAt.Some? && a.sub.trialEndsAt.value <= now)
    || (CountedFailures(a.charges) == 0 && LastPaid(a.charges).Some? && LastPaid(a.charges).value.periodEnd <= now)
    || (a.sub.status.PastDue? && a.sub.nextRetryAt.Some? && a.sub.nextRetryAt.value <= now)
  }

  predicate CanBeBilled(cfg: Config, id: SubId, a: Account, at: Time) {
    && (forall i :: 0 <= i < |a.charges| ==> a.charges[i].status.Success? || a.charges[i].status.Failed?)
    && (forall i :: 0 <= i < |a.charges| ==> a.charges[i].key != NextKey(cfg, id, a, at))
  }

  lemma CanBeBilledCreates(cfg: Config, id: SubId, a: Account, at: Time)
    ensures CanBeBilled(cfg, id, a, at) <==> Creates(cfg, id, a, at)
  {
  }

  lemma OwesPaymentIsDue(cfg: Config, a: Account, now: Time)
    requires PeriodIsLastPaid(a.sub, a.charges) && DunningOk(cfg, a)
    ensures OwesPayment(a, now) <==> SweepDue(a.sub, now)
    ensures OwesPayment(a, now) ==> Candidate(a.sub)
  {
  }

  /** No push of this sweep meets a reference in use. */
  ghost predicate FreshPushes(st: State, ids: seq<SubId>, charger: Charger) {
    && (forall i :: 0 <= i < |ids| && charger(ids[i]).push.Pushed? ==> charger(ids[i]).push.ref !in st.byReference)
    && (forall i, j :: 0 <= i < j < |ids| ==>
          ids[i] != ids[j] &&
          (charger(ids[i]).push.Pushed? && charger(ids[j]).push.Pushed? ==>
             charger(ids[i]).push.ref != charger(ids[j]).push.ref))
  }

  /** The account after the sweep's turn at it. */
  ghost predicate Billed(cfg: Config, a: Account, b: Account, key: Key) {
    |b.charges| == |a.charges| + 1 && b.charges[..|a.charges|] == a.charges && b.charges[|a.charges|].key == key
  }

  lemma {:induction false} OthersTurns(cfg: Config, st: State, ids: seq<SubId>, now: Time, charger: Charger, id: SubId)
    requires id in st.accounts && id !in ids
    ensures var st' := ChargeDue(cfg, st, ids, now, charger);
            id in st'.accounts && st'.accounts[id] == st.accounts[id] && st.prompts <= st'.prompts
    decreases |ids|
  {
    if ids != [] {
      ChargeOneFrame(cfg, st, ids[0], now, charger);
      OthersTurns(cfg, ChargeIfDue(cfg, st, ids[0], now, charger), ids[1..], now, charger, id);
    }
  }

  lemma OwnTurn(cfg: Config, st: State, id: SubId, now: Time, charger: Charger)
    requires id in st.accounts && PeriodIsLastPaid(st.accounts[id].sub, st.accounts[id].charges) && DunningOk(cfg, st.accounts[id])
    requires charger(id).push.Pushed? ==> charger(id).push.ref !in st.byReference
    ensures var a, at, st' := st.accounts[id], charger(id).at, ChargeIfDue(cfg, st, id, now, charger);
            && id in st'.accounts && st.prompts <= st'.prompts
            && if OwesPayment(a, now) && CanBeBilled(cfg, id, a, at)
               then Billed(cfg, a, st'.accounts[id], NextKey(cfg, id, a, at))
                    && (charger(id).hasOwner ==> NextKey(cfg, id, a, at) in st'.prompts)
               else st'.accounts[id] == a && st'.prompts == st.prompts
  {
    var a, r := st.accounts[id], charger(id);
    OwesPaymentIsDue(cfg, a, now);
    CanBeBilledCreates(cfg, id, a, r.at);
    if Creates(cfg, id, a, r.at) { InitiateRows(cfg, id, a, r.at, r.hasOwner, r.push); }
  }

  lemma {:induction false} TurnsExactly(cfg: Config, st: State, ids: seq<SubId>, now: Time, charger: Charger, id: SubId)
    requires id in st.accounts && PeriodIsLastPaid(st.accounts[id].sub, st.accounts[id].charges) && DunningOk(cfg, st.accounts[id])
    requires FreshPushes(st, ids, charger) && id in ids
    ensures var a, at, st' := st.accounts[id], charger(id).at, ChargeDue(cfg, st, ids, now, charger);
            && id in st'.accounts
            && if OwesPayment(a, now) && CanBeBilled(cfg, id, a, at)
               then Billed(cfg, a, st'.accounts[id], NextKey(cfg, id, a, at))
                    && (charger(id).hasOwner ==> NextKey(cfg, id, a, at) in st'.prompts)
               else st'.accounts[id] == a
    decreases |ids|
  {
    var st' := ChargeIfDue(cfg, st, ids[0], now, charger);
    ChargeOneFrame(cfg, st, ids[0], now, charger);
    if ids[0] == id {
      OwnTurn(cfg, st, id, now, charger);
      OthersTurns(cfg, st', ids[1..], now, charger, id);
    } else {
      assert forall i :: 0 <= i < |ids[1..]| ==> ids[1..][i] == ids[i + 1];
      TurnsExactly(cfg, st', ids[1..], now, charger, id);
    }
  }

  /** The tables after the first half keep the invariant. */
  lemma MidInv(cfg: Config, st: State, rows: seq<RowId>, now: Time, verify: Verify, clock: Clock, middle: Time)
    requires cfg.Valid() && Inv(cfg, st, now) && Ascend(now, ClockTimes(rows, clock), middle)
    ensures forall id :: id in ExpireAll(cfg, st, rows, now, verify, clock).accounts ==>
              exists t :: AccountInv(cfg, id, ExpireAll(cfg, st, rows, now, verify, clock).accounts[id], t)
  {
    var steps := ExpireSteps(cfg, st, rows, now, verify, clock);
    ExpireStepsOrdered(cfg, st, rows, now, verify, clock, now, middle);
    ExpireAllIsRun(cfg, st, rows, now, verify, clock);
    RunKeepsInv(cfg, st, now, steps);
  }

  /** Whom a sweep bills, exactly. With what its two SELECTs return and no repeated reference, a
      subscription gains a charge, with the next key and a prompt to its owner, if and only if it owes
      a payment, has no charge open and no charge with that key; otherwise it stays as it was. */
  lemma SweepBillsExactly(cfg: Config, st: State, rows: seq<RowId>, ids: seq<SubId>, now: Time,
                          verify: Verify, clock: Clock, charger: Charger, middle: Time, id: SubId)
    requires cfg.Valid() && Inv(cfg, st, now) && Ascend(now, ClockTimes(rows, clock), middle)
    requires var mid := ExpireAll(cfg, st, rows, now, verify, clock);
             && (forall jd :: jd in ids <==> jd in mid.accounts && Candidate(mid.accounts[jd].sub))
             && FreshPushes(mid, ids, charger) && id in mid.accounts
    ensures var mid, end := ExpireAll(cfg, st, rows, now, verify, clock), Sweep(cfg, st, rows, ids, now, verify, clock, charger);
            var a, key := mid.accounts[id], NextKey(cfg, id, mid.accounts[id], charger(id).at);
            && id in end.accounts
            && (|end.accounts[id].charges| == |a.charges| + 1 <==> OwesPayment(a, now) && CanBeBilled(cfg, id, a, charger(id).at))
            && (|end.accounts[id].charges| == |a.charges| + 1 ==>
                  Billed(cfg, a, end.accounts[id], key) && (charger(id).hasOwner ==> key in end.prompts))
            && (|end.accounts[id].charges| != |a.charges| + 1 ==> end.accounts[id] == a)
  {
    var mid := ExpireAll(cfg, st, rows, now, verify, clock);
    MidInv(cfg, st, rows, now, verify, clock, middle);
    var t :| AccountInv(cfg, id, mid.accounts[id], t);
    OwesPaymentIsDue(cfg, mid.accounts[id], now);
    if id in ids {
      TurnsExactly(cfg, mid, ids, now, charger, id);
    } else {
      OthersTurns(cfg, mid, ids, now, charger, id);
    }
  }

  /** In particular, before and after the whole sweep, for a subscription with no charge overdue. */
  lemma SweepBillsWhoOwes(cfg: Config, st: State, rows: seq<RowId>, ids: seq<SubId>, now: Time,
                          verify: Verify, clock: Clock, charger: Charger, middle: Time, id: SubId)
    requires cfg.Valid() && Inv(cfg, st, now) && Ascend(now, ClockTimes(rows, clock), middle) && id in st.accounts
    requires var mid := ExpireAll(cfg, st, rows, now, verify, clock);
             && (forall jd :: jd in ids <==> jd in mid.accounts && Candidate(mid.accounts[jd].sub))
             && FreshPushes(mid, ids, charger)
    requires forall i :: 0 <= i < |st.accounts[id].charges| ==> !Overdue(cfg, st.accounts[id].charges[i], now)
    ensures var a, end := st.accounts[id], Sweep(cfg, st, rows, ids, now, verify, clock, charger);
            && id in end.accounts
            && (|end.accounts[id].charges| == |a.charges| + 1 <==> OwesPayment(a, now) && CanBeBilled(cfg, id, a, charger(id).at))
            && (|end.accounts[id].charges| != |a.charges| + 1 ==> end.accounts[id] == a)
  {
    NothingOverdueNothingSettled(cfg, st, rows, now, verify, clock, id);
    SweepBillsExactly(cfg, st, rows, ids, now, verify, clock, charger, middle, id);
  }
}
