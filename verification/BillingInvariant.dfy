/** What every committed state of one account satisfies, and why each operation keeps it. */
module BillingInvariant {
  import opened Options
  import opened BillingModel

  /** Counted failures after the last successful charge, read off the stored rows. */
  function CountedFailures(charges: seq<Charge>): nat {
    if charges == [] then 0
    else
      var last := charges[|charges| - 1];
      if last.status.Success? then 0
      else CountedFailures(charges[..|charges| - 1]) + if last.CountedFailure() then 1 else 0
  }

  /** The latest successful charge. */
  function LastPaid(charges: seq<Charge>): Option<Charge> {
    if charges == [] then None
    else
      var last := charges[|charges| - 1];
      if last.status.Success? then Some(last) else LastPaid(charges[..|charges| - 1])
  }

  predicate RowOk(cfg: Config, id: SubId, trialEnd: Option<Time>, c: Charge) {
    && !c.status.Pending?
    && (c.status.Processing? || c.status.Success? ==> c.ref.Some?)
    && c.periodEnd == c.periodStart + Days(cfg.periodDays)
    && c.key.sub == id
    && c.key.day == DayOf(c.periodStart)
    && (trialEnd.Some? ==> trialEnd.value <= c.periodStart)
  }

  ghost predicate Rows(cfg: Config, id: SubId, a: Account) {
    forall i :: 0 <= i < |a.charges| ==> RowOk(cfg, id, a.sub.trialEndsAt, a.charges[i])
  }

  ghost predicate OnlyLastOpen(charges: seq<Charge>) {
    forall i :: 0 <= i < |charges| - 1 ==> charges[i].Terminal()
  }

  ghost predicate StartsAscend(charges: seq<Charge>) {
    forall i, j :: 0 <= i < j < |charges| ==> charges[i].periodStart <= charges[j].periodStart
  }

  /** A charge made after a paid one pays for time after it. */
  ghost predicate PaidBeforeLater(charges: seq<Charge>) {
    forall i, j :: 0 <= i < j < |charges| && charges[i].status.Success? ==>
      charges[i].periodEnd <= charges[j].periodStart
  }

  ghost predicate PaidWithin(sub: Sub, charges: seq<Charge>) {
    forall i :: 0 <= i < |charges| && charges[i].status.Success? ==>
      sub.periodEnd.Some? && charges[i].periodEnd <= sub.periodEnd.value
  }

  /** The subscription's period is the one its latest successful charge paid for. */
  ghost predicate PeriodIsLastPaid(sub: Sub, charges: seq<Charge>) {
    match LastPaid(charges)
    case None => sub.periodStart.None? && sub.periodEnd.None?
    case Some(c) => sub.periodStart == Some(c.periodStart) && sub.periodEnd == Some(c.periodEnd)
  }

  /** Open charges start no earlier than the current period ends. */
  ghost predicate OpenAfterPeriod(sub: Sub, charges: seq<Charge>) {
    forall i :: 0 <= i < |charges| && charges[i].Open() && sub.periodEnd.Some? ==>
      sub.periodEnd.value <= charges[i].periodStart
  }

  ghost predicate StartsBounded(cfg: Config, a: Account, t: Time) {
    forall i :: 0 <= i < |a.charges| ==> a.charges[i].periodStart <= PeriodStart(cfg, a.sub, t)
  }

  ghost predicate AttemptsNumbered(charges: seq<Charge>) {
    forall i :: 0 <= i < |charges| ==> charges[i].key.attempt == CountedFailures(charges[..i]) + 1
  }

  ghost predicate KeysUnique(charges: seq<Charge>) {
    forall i, j :: 0 <= i < j < |charges| ==> charges[i].key != charges[j].key
  }

  /** The status the stored rows call for. */
  function StatusOf(cfg: Config, charges: seq<Charge>): SubStatus {
    var n := CountedFailures(charges);
    if n == 0 then if LastPaid(charges).Some? then Active else Trialing
    else if n < |cfg.retryHours| then PastDue else Suspended
  }

  /** Status, attempt counter, retry time and the restaurant's flag all follow from the rows. */
  ghost predicate DunningOk(cfg: Config, a: Account) {
    && a.sub.failedAttempts == CountedFailures(a.charges)
    && a.sub.status == StatusOf(cfg, a.charges)
    && (a.sub.nextRetryAt.Some? <==> a.sub.status.PastDue?)
    && (a.sub.restaurantActive <==> !a.sub.status.Suspended?)
  }

  /** The invariant at any time from t on. */
  ghost predicate AccountInv(cfg: Config, id: SubId, a: Account, t: Time) {
    && Rows(cfg, id, a)
    && OnlyLastOpen(a.charges)
    && StartsAscend(a.charges)
    && PaidBeforeLater(a.charges)
    && PaidWithin(a.sub, a.charges)
    && PeriodIsLastPaid(a.sub, a.charges)
    && OpenAfterPeriod(a.sub, a.charges)
    && StartsBounded(cfg, a, t)
    && AttemptsNumbered(a.charges)
    && KeysUnique(a.charges)
    && DunningOk(cfg, a)
  }

  // ----------------------------------------------------------- period arithmetic

  /** Waiting never makes the period on offer start earlier. */
  lemma PeriodStartMonotone(cfg: Config, sub: Sub, t: Time, u: Time)
    requires cfg.Valid() && t <= u
    ensures PeriodStart(cfg, sub, t) <= PeriodStart(cfg, sub, u)
  {
  }

  /** A period on offer never overlaps the trial or the period already paid for, and is never
      more than one period in the past. */
  lemma PeriodStartHonoursPromises(cfg: Config, sub: Sub, now: Time)
    requires cfg.Valid()
    ensures sub.trialEndsAt.Some? ==> sub.trialEndsAt.value <= PeriodStart(cfg, sub, now)
    ensures sub.periodEnd.Some? ==> sub.periodEnd.value <= PeriodStart(cfg, sub, now)
    ensures now <= PeriodStart(cfg, sub, now) + Days(cfg.periodDays)
  {
  }

  lemma DayOfMonotone(t: Time, u: Time)
    requires t <= u
    ensures DayOf(t) <= DayOf(u)
  {
  }

  lemma DayOfAfterPeriod(cfg: Config, t: Time, u: Time)
    requires cfg.Valid() && t + Days(cfg.periodDays) <= u
    ensures DayOf(t) < DayOf(u)
  {
    DayOfMonotone(t + Days(1), u);
  }

  // ---------------------------------------------------------------- preservation

  lemma TrialKeepsInv(cfg: Config, id: SubId, now: Time)
    ensures AccountInv(cfg, id, TrialAccount(cfg, now), now)
  {
  }

  lemma TimePasses(cfg: Config, id: SubId, a: Account, t: Time, u: Time)
    requires cfg.Valid() && t <= u && AccountInv(cfg, id, a, t)
    ensures AccountInv(cfg, id, a, u)
  {
    PeriodStartMonotone(cfg, a.sub, t, u);
  }

  /** An open charge, if any, is the last row, so every earlier row is settled. */
  lemma OpenIsLast(charges: seq<Charge>, i: nat)
    requires OnlyLastOpen(charges) && i < |charges| && !charges[i].Terminal()
    ensures i == |charges| - 1
  {
  }

  /** A row as `initiate_charge` commits it when it is not settled on the spot: awaiting the
      PIN, or failed without reaching the gateway. */
  predicate FreshRow(cfg: Config, id: SubId, a: Account, now: Time, c: Charge) {
    && c.(status := Pending, ref := None, finalizedAt := None) == NewCharge(cfg, id, a, now)
    && ((c.status.Processing? && c.ref.Some?) || (c.status.Failed? && c.ref.None?))
  }

  lemma AppendKeepsOrder(cfg: Config, id: SubId, a: Account, now: Time, c: Charge)
    requires cfg.Valid() && FreshRow(cfg, id, a, now, c)
    requires Rows(cfg, id, a) && StartsAscend(a.charges) && PaidBeforeLater(a.charges)
    requires PaidWithin(a.sub, a.charges) && OpenAfterPeriod(a.sub, a.charges) && StartsBounded(cfg, a, now)
    ensures Rows(cfg, id, Account(a.sub, a.charges + [c])) && StartsAscend(a.charges + [c])
    ensures PaidBeforeLater(a.charges + [c]) && PaidWithin(a.sub, a.charges + [c])
    ensures OpenAfterPeriod(a.sub, a.charges + [c]) && StartsBounded(cfg, Account(a.sub, a.charges + [c]), now)
  {
    PeriodStartHonoursPromises(cfg, a.sub, now);
  }

  lemma AppendKeepsHistory(charges: seq<Charge>, c: Charge)
    requires AttemptsNumbered(charges) && c.key.attempt == CountedFailures(charges) + 1
    requires !c.status.Success? && !c.CountedFailure()
    ensures AttemptsNumbered(charges + [c])
    ensures CountedFailures(charges + [c]) == CountedFailures(charges)
    ensures LastPaid(charges + [c]) == LastPaid(charges)
  {
    var cs := charges + [c];
    assert cs[..|charges|] == charges;
    forall i | 0 <= i < |charges| ensures cs[..i] == charges[..i] {}
  }

  lemma AppendKeepsInv(cfg: Config, id: SubId, a: Account, now: Time, c: Charge)
    requires cfg.Valid() && AccountInv(cfg, id, a, now)
    requires Creates(cfg, id, a, now) && FreshRow(cfg, id, a, now, c)
    ensures AccountInv(cfg, id, Account(a.sub.(priceCents := cfg.priceCents), a.charges + [c]), now)
  {
    AppendKeepsOrder(cfg, id, a, now, c);
    AppendKeepsHistory(a.charges, c);
    AppendKeepsKeys(a.charges, c);
    var b := Account(a.sub.(priceCents := cfg.priceCents), a.charges + [c]);
    assert PeriodStart(cfg, b.sub, now) == PeriodStart(cfg, a.sub, now);
  }

  lemma AppendKeepsKeys(charges: seq<Charge>, c: Charge)
    requires KeysUnique(charges) && !HasKey(charges, c.key) && !HasOpen(charges)
    ensures KeysUnique(charges + [c]) && OnlyLastOpen(charges + [c])
  {
    assert forall i :: 0 <= i < |charges| ==> !charges[i].Open();
  }

  /** The open row is replaced by the same row, settled. */
  predicate SettledRow(c: Charge, d: Charge) {
    && !c.Terminal() && d.Terminal()
    && d.(status := c.status, finalizedAt := c.finalizedAt) == c
  }

  lemma SettleKeepsOrder(cfg: Config, id: SubId, a: Account, i: nat, d: Charge)
    requires i < |a.charges| && SettledRow(a.charges[i], d)
    requires Rows(cfg, id, a) && OnlyLastOpen(a.charges) && StartsAscend(a.charges)
    requires PaidBeforeLater(a.charges) && KeysUnique(a.charges)
    ensures Rows(cfg, id, Account(a.sub, a.charges[i := d])) && OnlyLastOpen(a.charges[i := d])
    ensures StartsAscend(a.charges[i := d]) && PaidBeforeLater(a.charges[i := d]) && KeysUnique(a.charges[i := d])
  {
    OpenIsLast(a.charges, i);
  }

  lemma SettleKeepsHistory(charges: seq<Charge>, i: nat, d: Charge)
    requires OnlyLastOpen(charges) && AttemptsNumbered(charges)
    requires i < |charges| && SettledRow(charges[i], d)
    ensures AttemptsNumbered(charges[i := d])
    ensures d.status.Success? ==> CountedFailures(charges[i := d]) == 0 && LastPaid(charges[i := d]) == Some(d)
    ensures d.CountedFailure() ==> CountedFailures(charges[i := d]) == CountedFailures(charges) + 1
    ensures d.status.Failed? ==> LastPaid(charges[i := d]) == LastPaid(charges)
  {
    OpenIsLast(charges, i);
    forall j | 0 <= j <= i ensures charges[i := d][..j] == charges[..j] {}
  }

  lemma SettleKeepsPeriod(cfg: Config, a: Account, i: nat, paid: bool, now: Time)
    requires cfg.Valid() && i < |a.charges| && !a.charges[i].Terminal() && OnlyLastOpen(a.charges)
    requires PaidWithin(a.sub, a.charges) && PaidBeforeLater(a.charges) && StartsAscend(a.charges)
    requires OpenAfterPeriod(a.sub, a.charges) && StartsBounded(cfg, a, now)
    requires a.charges[i].periodEnd == a.charges[i].periodStart + Days(cfg.periodDays)
    ensures var b := Settle(cfg, a, i, paid, now);
            PaidWithin(b.sub, b.charges) && OpenAfterPeriod(b.sub, b.charges) && StartsBounded(cfg, b, now)
  {
    OpenIsLast(a.charges, i);
    var b := Settle(cfg, a, i, paid, now);
    if paid {
      PeriodStartHonoursPromises(cfg, b.sub, now);
    } else {
      assert PeriodStart(cfg, b.sub, now) == PeriodStart(cfg, a.sub, now);
    }
  }

  /** Settling the open charge, either way. */
  lemma SettleKeepsInv(cfg: Config, id: SubId, a: Account, i: nat, paid: bool, now: Time)
    requires cfg.Valid() && AccountInv(cfg, id, a, now)
    requires i < |a.charges| && !a.charges[i].Terminal()
    ensures AccountInv(cfg, id, Settle(cfg, a, i, paid, now), now)
  {
    var b := Settle(cfg, a, i, paid, now);
    assert RowOk(cfg, id, a.sub.trialEndsAt, a.charges[i]);
    SettleKeepsOrder(cfg, id, a, i, b.charges[i]);
    SettleKeepsHistory(a.charges, i, b.charges[i]);
    SettleKeepsPeriod(cfg, a, i, paid, now);
  }

  /** A synchronous answer is the same as waiting for the PIN and settling at once. */
  lemma SynchronousIsSettle(cfg: Config, id: SubId, a: Account, now: Time, ref: Ref, paid: bool)
    requires Creates(cfg, id, a, now)
    ensures Initiate(cfg, id, a, now, true, Pushed(ref, if paid then PaidNow else DeclinedNow)) ==
            Settle(cfg, Initiate(cfg, id, a, now, true, Pushed(ref, AwaitingPin)), |a.charges|, paid, now)
  {
  }

  /** The two rows that wait or never left, written out. */
  lemma InitiateAppends(cfg: Config, id: SubId, a: Account, now: Time, hasOwner: bool, push: Push)
    requires Creates(cfg, id, a, now)
    requires hasOwner && push.Pushed? ==> push.state.AwaitingPin?
    ensures var c := NewCharge(cfg, id, a, now);
            var d := if hasOwner && push.Pushed? then c.(ref := Some(push.ref), status := Processing)
                     else MarkFailed(c, now);
            && Initiate(cfg, id, a, now, hasOwner, push) ==
                 Account(a.sub.(priceCents := cfg.priceCents), a.charges + [d])
            && FreshRow(cfg, id, a, now, d)
  {
  }

  lemma {:induction false} InitiateKeepsInv(cfg: Config, id: SubId, a: Account, now: Time, hasOwner: bool, push: Push)
    requires cfg.Valid() && AccountInv(cfg, id, a, now)
    ensures AccountInv(cfg, id, Initiate(cfg, id, a, now, hasOwner, push), now)
    decreases push.Pushed? && !push.state.AwaitingPin?
  {
    if !Creates(cfg, id, a, now) {
    } else if hasOwner && push.Pushed? && !push.state.AwaitingPin? {
      var waiting := Initiate(cfg, id, a, now, true, Pushed(push.ref, AwaitingPin));
      InitiateKeepsInv(cfg, id, a, now, true, Pushed(push.ref, AwaitingPin));
      InitiateAppends(cfg, id, a, now, true, Pushed(push.ref, AwaitingPin));
      SettleKeepsInv(cfg, id, waiting, |a.charges|, push.state.PaidNow?, now);
      SynchronousIsSettle(cfg, id, a, now, push.ref, push.state.PaidNow?);
      assert push == Pushed(push.ref, if push.state.PaidNow? then PaidNow else DeclinedNow);
    } else {
      var c := NewCharge(cfg, id, a, now);
      var d := if hasOwner && push.Pushed? then c.(ref := Some(push.ref), status := Processing) else MarkFailed(c, now);
      InitiateAppends(cfg, id, a, now, hasOwner, push);
      AppendKeepsInv(cfg, id, a, now, d);
    }
  }
}
