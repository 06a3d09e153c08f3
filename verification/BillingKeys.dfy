/** When `initiate_charge` makes a new row and when it hands back an old one. */
module BillingKeys {
  import opened Options
  import opened BillingModel
  import opened BillingInvariant

  ghost predicate NoSuccessFrom(charges: seq<Charge>, i: nat) {
    forall j :: i <= j < |charges| ==> !charges[j].status.Success?
  }

  /** With no success in between, the count only grows, by one for a counted failure. */
  lemma {:induction false} CountGrows(charges: seq<Charge>, i: nat)
    requires i < |charges| && NoSuccessFrom(charges, i)
    ensures CountedFailures(charges[..i]) +
            (if charges[|charges| - 1].CountedFailure() then 1 else 0) <= CountedFailures(charges)
    decreases |charges|
  {
    var front := charges[..|charges| - 1];
    if i == |front| {
    } else {
      assert front[..i] == charges[..i];
      CountGrows(front, i);
    }
  }

  /** The latest row failed without reaching the gateway, and its period starts on the calendar
      day a new charge would start on. */
  predicate BlockedByUncounted(cfg: Config, a: Account, now: Time) {
    && a.charges != []
    && var last := a.charges[|a.charges| - 1];
    && last.status.Failed? && last.ref.None?
    && DayOf(last.periodStart) == DayOf(PeriodStart(cfg, a.sub, now))
  }

  /** No row from the holder of the next key's day on is a success: a paid period would have
      pushed the day on offer past it. */
  lemma NoSuccessSinceSameDay(cfg: Config, id: SubId, a: Account, now: Time, i: nat)
    requires cfg.Valid() && StartsAscend(a.charges) && PaidWithin(a.sub, a.charges) && Rows(cfg, id, a)
    requires i < |a.charges| && DayOf(a.charges[i].periodStart) == DayOf(PeriodStart(cfg, a.sub, now))
    ensures NoSuccessFrom(a.charges, i)
  {
    PeriodStartHonoursPromises(cfg, a.sub, now);
    forall j | i <= j < |a.charges| ensures !a.charges[j].status.Success? {
      if a.charges[j].status.Success? {
        assert RowOk(cfg, id, a.sub.trialEndsAt, a.charges[j]);
        assert a.charges[i].periodStart <= a.charges[j].periodStart;
        DayOfAfterPeriod(cfg, a.charges[i].periodStart, PeriodStart(cfg, a.sub, now));
        assert false;
      }
    }
  }

  /** Rows between the holder and a new charge all lie on its day. */
  lemma LastOnSameDay(cfg: Config, a: Account, now: Time, i: nat)
    requires StartsAscend(a.charges) && StartsBounded(cfg, a, now)
    requires i < |a.charges| && DayOf(a.charges[i].periodStart) == DayOf(PeriodStart(cfg, a.sub, now))
    ensures DayOf(a.charges[|a.charges| - 1].periodStart) == DayOf(PeriodStart(cfg, a.sub, now))
  {
    var last := a.charges[|a.charges| - 1].periodStart;
    assert a.charges[i].periodStart <= last;
    DayOfMonotone(a.charges[i].periodStart, last);
    DayOfMonotone(last, PeriodStart(cfg, a.sub, now));
  }

  /** A row holding the next key is followed by uncounted failures only, all on its day. */
  lemma KeyHolderBlocks(cfg: Config, id: SubId, a: Account, now: Time, i: nat)
    requires cfg.Valid() && StartsAscend(a.charges) && PaidWithin(a.sub, a.charges) && Rows(cfg, id, a)
    requires StartsBounded(cfg, a, now) && AttemptsNumbered(a.charges) && !HasOpen(a.charges)
    requires a.sub.failedAttempts == CountedFailures(a.charges)
    requires i < |a.charges| && a.charges[i].key == NextKey(cfg, id, a, now)
    ensures BlockedByUncounted(cfg, a, now)
  {
    assert RowOk(cfg, id, a.sub.trialEndsAt, a.charges[i]);
    NoSuccessSinceSameDay(cfg, id, a, now, i);
    LastOnSameDay(cfg, a, now, i);
    CountGrows(a.charges, i);
    assert !a.charges[|a.charges| - 1].Open();
  }

  lemma BlockerHoldsKey(cfg: Config, id: SubId, a: Account, now: Time)
    requires Rows(cfg, id, a) && AttemptsNumbered(a.charges)
    requires a.sub.failedAttempts == CountedFailures(a.charges) && BlockedByUncounted(cfg, a, now)
    ensures HasKey(a.charges, NextKey(cfg, id, a, now))
  {
    var k := |a.charges| - 1;
    assert RowOk(cfg, id, a.sub.trialEndsAt, a.charges[k]);
    assert a.charges[k].key == NextKey(cfg, id, a, now);
  }

  /** With no charge open, the next call makes a new row unless the latest row is a failure that
      was never counted and falls on the same period day: exactly then the old row comes back. */
  lemma NewChargeUnlessBlocked(cfg: Config, id: SubId, a: Account, now: Time)
    requires cfg.Valid() && AccountInv(cfg, id, a, now) && !HasOpen(a.charges)
    ensures Creates(cfg, id, a, now) <==> !BlockedByUncounted(cfg, a, now)
  {
    if BlockedByUncounted(cfg, a, now) {
      BlockerHoldsKey(cfg, id, a, now);
    } else if HasKey(a.charges, NextKey(cfg, id, a, now)) {
      var i :| 0 <= i < |a.charges| && a.charges[i].key == NextKey(cfg, id, a, now);
      KeyHolderBlocks(cfg, id, a, now, i);
    }
  }

  /** Once the open charge is settled, by success or by a counted failure, the next call at any
      later time makes a new row, whatever happened before. */
  lemma FreshKeyAfterSettlement(cfg: Config, id: SubId, a: Account, i: nat, paid: bool, t: Time, now: Time)
    requires cfg.Valid() && AccountInv(cfg, id, a, t) && t <= now
    requires i < |a.charges| && a.charges[i].Open()
    ensures Creates(cfg, id, Settle(cfg, a, i, paid, t), now)
  {
    var b := Settle(cfg, a, i, paid, t);
    OpenIsLast(a.charges, i);
    SettleKeepsInv(cfg, id, a, i, paid, t);
    TimePasses(cfg, id, b, t, now);
    assert RowOk(cfg, id, a.sub.trialEndsAt, a.charges[i]);
    assert forall j :: 0 <= j < |b.charges| ==> !b.charges[j].Open();
    NewChargeUnlessBlocked(cfg, id, b, now);
  }

  /** Any number of calls, each with its own time and gateway answer. */
  datatype Call = Call(now: Time, hasOwner: bool, push: Push)

  function InitiateAll(cfg: Config, id: SubId, a: Account, calls: seq<Call>): Account
    decreases |calls|
  {
    if calls == [] then a
    else InitiateAll(cfg, id, Initiate(cfg, id, a, calls[0].now, calls[0].hasOwner, calls[0].push), calls[1..])
  }

  /** With the latest row blocking at the time of every call, no call changes anything. */
  lemma {:induction false} BlockedCallsChangeNothing(cfg: Config, id: SubId, a: Account, t: Time, calls: seq<Call>)
    requires cfg.Valid() && AccountInv(cfg, id, a, t) && !HasOpen(a.charges)
    requires forall k :: 0 <= k < |calls| ==> t <= calls[k].now && BlockedByUncounted(cfg, a, calls[k].now)
    ensures InitiateAll(cfg, id, a, calls) == a
    decreases |calls|
  {
    if calls != [] {
      TimePasses(cfg, id, a, t, calls[0].now);
      NewChargeUnlessBlocked(cfg, id, a, calls[0].now);
      BlockedCallsChangeNothing(cfg, id, a, t, calls[1..]);
    }
  }

  /** A call that makes a row and fails without reaching the gateway. */
  predicate FailsUncounted(cfg: Config, id: SubId, a: Account, call: Call) {
    Creates(cfg, id, a, call.now) && (!call.hasOwner || call.push.PushError?)
  }

  function After(cfg: Config, id: SubId, a: Account, call: Call): Account {
    Initiate(cfg, id, a, call.now, call.hasOwner, call.push)
  }

  predicate SamePeriodDay(cfg: Config, sub: Sub, t: Time, u: Time) {
    DayOf(PeriodStart(cfg, sub, t)) == DayOf(PeriodStart(cfg, sub, u))
  }

  /** What such a call leaves: its row, failed and last, and the subscription as it was. */
  lemma UncountedFailureLeaves(cfg: Config, id: SubId, a: Account, call: Call)
    requires FailsUncounted(cfg, id, a, call)
    ensures var b := After(cfg, id, a, call); var last := MarkFailed(NewCharge(cfg, id, a, call.now), call.now);
            b == Account(a.sub.(priceCents := cfg.priceCents), a.charges + [last]) && !HasOpen(b.charges)
  {
  }

  /** Such a call blocks every time at which a new charge would start on the same day. */
  lemma UncountedFailureBlocks(cfg: Config, id: SubId, a: Account, call: Call, later: Time)
    requires FailsUncounted(cfg, id, a, call)
    ensures BlockedByUncounted(cfg, After(cfg, id, a, call), later) <==> SamePeriodDay(cfg, a.sub, call.now, later)
  {
    UncountedFailureLeaves(cfg, id, a, call);
    var b := After(cfg, id, a, call);
    assert PeriodStart(cfg, b.sub, later) == PeriodStart(cfg, a.sub, later);
  }

  /** After a push error or a missing owner the next call makes a new row exactly if its period
      starts on another day. */
  lemma RetryExactlyWhen(cfg: Config, id: SubId, a: Account, call: Call, later: Time)
    requires cfg.Valid() && AccountInv(cfg, id, a, call.now) && FailsUncounted(cfg, id, a, call) && call.now <= later
    ensures Creates(cfg, id, After(cfg, id, a, call), later) <==> !SamePeriodDay(cfg, a.sub, call.now, later)
  {
    var b := After(cfg, id, a, call);
    InitiateKeepsInv(cfg, id, a, call.now, call.hasOwner, call.push);
    TimePasses(cfg, id, b, call.now, later);
    UncountedFailureLeaves(cfg, id, a, call);
    NewChargeUnlessBlocked(cfg, id, b, later);
    UncountedFailureBlocks(cfg, id, a, call, later);
  }

  /** Any number of calls whose period starts on the same day hand the failed row back. */
  lemma {:induction false} RepeatReturnsFailedRow(cfg: Config, id: SubId, a: Account, call: Call, calls: seq<Call>)
    requires cfg.Valid() && AccountInv(cfg, id, a, call.now) && FailsUncounted(cfg, id, a, call)
    requires forall k :: 0 <= k < |calls| ==> call.now <= calls[k].now && SamePeriodDay(cfg, a.sub, call.now, calls[k].now)
    ensures InitiateAll(cfg, id, After(cfg, id, a, call), calls) == After(cfg, id, a, call)
  {
    InitiateKeepsInv(cfg, id, a, call.now, call.hasOwner, call.push);
    UncountedFailureLeaves(cfg, id, a, call);
    forall k | 0 <= k < |calls| ensures BlockedByUncounted(cfg, After(cfg, id, a, call), calls[k].now) {
      UncountedFailureBlocks(cfg, id, a, call, calls[k].now);
    }
    BlockedCallsChangeNothing(cfg, id, After(cfg, id, a, call), call.now, calls);
  }

  /** The later of the paid period's end and the trial's end. */
  function Promised(sub: Sub): Time
    requires sub.periodEnd.Some?
  {
    if sub.trialEndsAt.Some? && sub.trialEndsAt.value > sub.periodEnd.value
    then sub.trialEndsAt.value else sub.periodEnd.value
  }

  /** While the promised time is not a full period past, a renewal starts where it ends; after that,
      it starts at once, on a later day. */
  lemma RenewalStart(cfg: Config, sub: Sub, t: Time)
    requires cfg.Valid() && sub.periodEnd.Some?
    ensures PeriodStart(cfg, sub, t) == if t <= Promised(sub) + Days(cfg.periodDays) then Promised(sub) else t
    ensures t > Promised(sub) + Days(cfg.periodDays) ==> DayOf(PeriodStart(cfg, sub, t)) != DayOf(Promised(sub))
  {
    if t > Promised(sub) + Days(cfg.periodDays) { DayOfAfterPeriod(cfg, Promised(sub), t); }
  }

  /** For a renewal that fails this way the block lasts a whole billing period, and no longer: a later
      call makes a charge if and only if it comes more than a full period after the promised time. */
  lemma RenewalBlockedForAPeriod(cfg: Config, id: SubId, a: Account, call: Call, later: Time)
    requires cfg.Valid() && AccountInv(cfg, id, a, call.now) && FailsUncounted(cfg, id, a, call) && call.now <= later
    requires a.sub.periodEnd.Some? && call.now <= Promised(a.sub) + Days(cfg.periodDays)
    ensures Creates(cfg, id, After(cfg, id, a, call), later) <==> later > Promised(a.sub) + Days(cfg.periodDays)
  {
    RenewalStart(cfg, a.sub, call.now);
    RenewalStart(cfg, a.sub, later);
    RetryExactlyWhen(cfg, id, a, call, later);
  }
}
