/** What every stored charge row looks like, whatever run led to it: what it bills, for which time, and
    when it was requested and settled. Everything is said of the rows themselves. */
module BillingRows {
  import opened Options
  import opened BillingModel
  import opened BillingInvariant
  import opened BillingEngine
  import Safety = BillingSafety

  function Later(t: Time, u: Time): Time { if t > u then t else u }

  /** When the time bought starts, given the trial's end and the latest payment before. Without one it
      starts at once or at the end of the trial. Otherwise it starts where the paid time and the trial
      are both over, unless that is more than a period ago. */
  function ShouldStart(cfg: Config, trialEnd: Time, paid: Option<Charge>, requestedAt: Time): Time {
    match paid
    case None => Later(requestedAt, trialEnd)
    case Some(p) =>
      var free := Later(p.periodEnd, trialEnd);
      if requestedAt - free > Days(cfg.periodDays) then requestedAt else free
  }

  predicate RowRight(cfg: Config, trialEnd: Time, before: seq<Charge>, c: Charge) {
    && c.periodStart == ShouldStart(cfg, trialEnd, LastPaid(before), c.requestedAt)
    && c.amountCents == cfg.priceCents
    && (c.Terminal() <==> c.finalizedAt.Some?)
  }

  /** The latest declined charge. */
  function LastDeclined(charges: seq<Charge>): Option<Charge> {
    if charges == [] then None
    else if charges[|charges| - 1].CountedFailure() then Some(charges[|charges| - 1])
    else LastDeclined(charges[..|charges| - 1])
  }

  /** The retry counts from the moment the latest declined charge was settled. */
  predicate RetryRight(cfg: Config, a: Account) {
    a.sub.nextRetryAt.Some? ==>
      var last := LastDeclined(a.charges);
      && last.Some? && last.value.finalizedAt.Some? && a.sub.failedAttempts < |cfg.retryHours|
      && a.sub.nextRetryAt.value == last.value.finalizedAt.value + Hours(cfg.retryHours[a.sub.failedAttempts])
  }

  ghost predicate RowsRight(cfg: Config, a: Account) {
    && a.sub.trialEndsAt.Some?
    && (forall i :: 0 <= i < |a.charges| ==> RowRight(cfg, a.sub.trialEndsAt.value, a.charges[..i], a.charges[i]))
    && RetryRight(cfg, a)
  }

  // ---------------------------------------------------------------- preservation

  lemma StartIsRight(cfg: Config, id: SubId, a: Account, now: Time)
    requires cfg.Valid() && PeriodIsLastPaid(a.sub, a.charges) && a.sub.trialEndsAt.Some?
    ensures NewCharge(cfg, id, a, now).periodStart == ShouldStart(cfg, a.sub.trialEndsAt.value, LastPaid(a.charges), now)
  {
  }

  lemma AppendRight(cfg: Config, id: SubId, a: Account, now: Time, c: Charge)
    requires cfg.Valid() && RowsRight(cfg, a) && PeriodIsLastPaid(a.sub, a.charges)
    requires FreshRow(cfg, id, a, now, c) && (c.status.Failed? <==> c.finalizedAt.Some?)
    ensures RowsRight(cfg, Account(a.sub.(priceCents := cfg.priceCents), a.charges + [c]))
  {
    var cs := a.charges + [c];
    StartIsRight(cfg, id, a, now);
    forall i | 0 <= i < |cs| ensures RowRight(cfg, a.sub.trialEndsAt.value, cs[..i], cs[i]) {
      assert cs[..i] == a.charges[..i];
      if i < |a.charges| {
        assert RowRight(cfg, a.sub.trialEndsAt.value, a.charges[..i], a.charges[i]);
      } else {
        assert cs[..i] == a.charges;
      }
    }
    assert cs[..|a.charges|] == a.charges;
  }

  lemma SettleRight(cfg: Config, a: Account, i: nat, paid: bool, now: Time)
    requires RowsRight(cfg, a) && OnlyLastOpen(a.charges) && i < |a.charges| && a.charges[i].Open() && a.charges[i].ref.Some?
    ensures RowsRight(cfg, Settle(cfg, a, i, paid, now))
  {
    OpenIsLast(a.charges, i);
    var b := Settle(cfg, a, i, paid, now);
    forall k | 0 <= k < |b.charges| ensures RowRight(cfg, b.sub.trialEndsAt.value, b.charges[..k], b.charges[k]) {
      assert b.charges[..k] == a.charges[..k];
      assert RowRight(cfg, a.sub.trialEndsAt.value, a.charges[..k], a.charges[k]);
    }
  }

  lemma {:induction false} InitiateRight(cfg: Config, id: SubId, a: Account, now: Time, hasOwner: bool, push: Push)
    requires cfg.Valid() && AccountInv(cfg, id, a, now) && RowsRight(cfg, a)
    ensures RowsRight(cfg, Initiate(cfg, id, a, now, hasOwner, push))
    decreases push.Pushed? && !push.state.AwaitingPin?
  {
    if !Creates(cfg, id, a, now) {
    } else if hasOwner && push.Pushed? && !push.state.AwaitingPin? {
      var pin := Pushed(push.ref, AwaitingPin);
      var waiting := Initiate(cfg, id, a, now, true, pin);
      InitiateRight(cfg, id, a, now, true, pin);
      InitiateKeepsInv(cfg, id, a, now, true, pin);
      InitiateAppends(cfg, id, a, now, true, pin);
      SettleRight(cfg, waiting, |a.charges|, push.state.PaidNow?, now);
      SynchronousIsSettle(cfg, id, a, now, push.ref, push.state.PaidNow?);
      assert push == Pushed(push.ref, if push.state.PaidNow? then PaidNow else DeclinedNow);
    } else {
      var c := NewCharge(cfg, id, a, now);
      var d := if hasOwner && push.Pushed? then c.(ref := Some(push.ref), status := Processing) else MarkFailed(c, now);
      InitiateAppends(cfg, id, a, now, hasOwner, push);
      AppendRight(cfg, id, a, now, d);
    }
  }

  ghost predicate AllRight(cfg: Config, st: State) {
    forall id :: id in st.accounts ==> RowsRight(cfg, st.accounts[id])
  }

  lemma SettleRowRight(cfg: Config, st: State, row: RowId, paid: bool, now: Time)
    requires Inv(cfg, st, now) && AllRight(cfg, st) && HasRow(st, row) && !RowAt(st, row).Terminal()
    ensures AllRight(cfg, SettleRow(cfg, st, row, paid, now))
  {
    assert RowOk(cfg, row.sub, st.accounts[row.sub].sub.trialEndsAt, RowAt(st, row));
    SettleRight(cfg, st.accounts[row.sub], row.index, paid, now);
  }

  lemma SettlingRight(cfg: Config, st: State, st': State, row: RowId, now: Time)
    requires Inv(cfg, st, now) && AllRight(cfg, st) && SettlesAtMost(cfg, st, st', row, now)
    ensures AllRight(cfg, st')
  {
    if st' != st {
      SettleRowRight(cfg, st, row, true, now);
      SettleRowRight(cfg, st, row, false, now);
    }
  }

  lemma WebhookRight(cfg: Config, st: State, e: Event, now: Time)
    requires Inv(cfg, st, now) && AllRight(cfg, st)
    ensures AllRight(cfg, ProcessWebhook(cfg, st, e, now))
  {
    if Recognised(e) && Matches(st, e.ref.value) && !RowAt(st, st.byReference[e.ref.value]).Terminal() {
      SettleRowRight(cfg, st, st.byReference[e.ref.value], e.kind.ChargeSucceeded?, now);
    }
  }

  lemma StepRight(cfg: Config, st: State, t: Time, s: Step)
    requires cfg.Valid() && Inv(cfg, st, t) && t <= s.now && AllRight(cfg, st)
    ensures AllRight(cfg, Apply(cfg, st, s))
  {
    LaterInv(cfg, st, t, s.now);
    match s
    case TrialStep(_, _) =>
    case InitiateStep(id, now, hasOwner, push) =>
      if id in st.accounts { InitiateRight(cfg, id, st.accounts[id], now, hasOwner, push); }
    case WebhookStep(e, now) => WebhookRight(cfg, st, e, now);
    case PollStep(row, now, answer) =>
      PollOrExpireSettles(cfg, st, row, now, now, answer);
      SettlingRight(cfg, st, Poll(cfg, st, row, now, answer), row, now);
    case ExpireStep(row, asOf, now, answer) =>
      PollOrExpireSettles(cfg, st, row, asOf, now, answer);
      SettlingRight(cfg, st, Expire(cfg, st, row, asOf, now, answer), row, now);
  }

  lemma {:induction false} RunRight(cfg: Config, st: State, t: Time, steps: seq<Step>)
    requires cfg.Valid() && Inv(cfg, st, t) && Ordered(t, steps) && AllRight(cfg, st)
    ensures AllRight(cfg, Run(cfg, st, steps))
    decreases |steps|
  {
    if steps != [] {
      StepRight(cfg, st, t, steps[0]);
      StepKeepsInv(cfg, st, t, steps[0]);
      RunRight(cfg, Apply(cfg, st, steps[0]), steps[0].now, steps[1..]);
    }
  }

  // ------------------------------------------------------------------ over all runs

  lemma {:induction false} NothingPaid(charges: seq<Charge>)
    requires forall j :: 0 <= j < |charges| ==> !charges[j].status.Success?
    ensures LastPaid(charges) == None
    decreases |charges|
  {
    if charges != [] { NothingPaid(charges[..|charges| - 1]); }
  }

  lemma {:induction false} LatestPaid(charges: seq<Charge>, n: nat, j: nat)
    requires j < n <= |charges| && charges[j].status.Success?
    requires forall k :: j < k < |charges| ==> k >= n || !charges[k].status.Success?
    ensures LastPaid(charges[..n]) == Some(charges[j])
    decreases n
  {
    assert charges[..n][..n - 1] == charges[..n - 1];
    if j < n - 1 { LatestPaid(charges, n - 1, j); }
  }

  /** The time a first payment buys: in every run, a charge with no paid one before it starts when it
      was requested or when the trial ends, whichever is later. */
  lemma FirstPaymentStarts(cfg: Config, t: Time, steps: seq<Step>, id: SubId, i: nat)
    requires cfg.Valid() && Ordered(t, steps) && id in Run(cfg, Empty, steps).accounts
    requires var cs := Run(cfg, Empty, steps).accounts[id].charges;
             i < |cs| && forall j :: 0 <= j < i ==> !cs[j].status.Success?
    ensures var a := Run(cfg, Empty, steps).accounts[id];
            && a.sub.trialEndsAt.Some?
            && a.charges[i].periodStart ==
               if a.charges[i].requestedAt > a.sub.trialEndsAt.value then a.charges[i].requestedAt else a.sub.trialEndsAt.value
  {
    RunRight(cfg, Empty, t, steps);
    var a := Run(cfg, Empty, steps).accounts[id];
    assert RowRight(cfg, a.sub.trialEndsAt.value, a.charges[..i], a.charges[i]);
    NothingPaid(a.charges[..i]);
  }

  /** The time a later payment buys: with j the latest paid charge before charge i, it starts at the end
      of j's period or of the trial, whichever is later, unless that is more than a period before the
      request; then it starts with the request. */
  lemma RenewalStarts(cfg: Config, t: Time, steps: seq<Step>, id: SubId, j: nat, i: nat)
    requires cfg.Valid() && Ordered(t, steps) && id in Run(cfg, Empty, steps).accounts
    requires var cs := Run(cfg, Empty, steps).accounts[id].charges;
             j < i < |cs| && cs[j].status.Success? && forall k :: j < k < i ==> !cs[k].status.Success?
    ensures var a := Run(cfg, Empty, steps).accounts[id];
            && a.sub.trialEndsAt.Some?
            && var paidUntil, trialEnd, asked := a.charges[j].periodEnd, a.sub.trialEndsAt.value, a.charges[i].requestedAt;
            var free := if paidUntil > trialEnd then paidUntil else trialEnd;
            a.charges[i].periodStart == if asked > free + Days(cfg.periodDays) then asked else free
  {
    RunRight(cfg, Empty, t, steps);
    var a := Run(cfg, Empty, steps).accounts[id];
    assert RowRight(cfg, a.sub.trialEndsAt.value, a.charges[..i], a.charges[i]);
    LatestPaid(a.charges, i, j);
  }

  /** Every charge is for the configured price, and has a time of settlement exactly if it is settled. */
  lemma ChargesTheConfiguredPrice(cfg: Config, t: Time, steps: seq<Step>, id: SubId, i: nat)
    requires cfg.Valid() && Ordered(t, steps) && id in Run(cfg, Empty, steps).accounts
    requires i < |Run(cfg, Empty, steps).accounts[id].charges|
    ensures var c := Run(cfg, Empty, steps).accounts[id].charges[i];
            c.amountCents == cfg.priceCents && (c.finalizedAt.Some? <==> c.status.Success? || c.status.Failed?)
  {
    RunRight(cfg, Empty, t, steps);
    var a := Run(cfg, Empty, steps).accounts[id];
    assert RowRight(cfg, a.sub.trialEndsAt.value, a.charges[..i], a.charges[i]);
  }

  lemma {:induction false} LastDeclinedAt(charges: seq<Charge>, n: nat) returns (k: nat)
    requires n <= |charges| && LastDeclined(charges[..n]).Some?
    ensures k < n && charges[k].CountedFailure() && LastDeclined(charges[..n]) == Some(charges[k])
    ensures forall j :: k < j < n ==> !charges[j].CountedFailure()
    decreases n
  {
    assert charges[..n][..n - 1] == charges[..n - 1];
    k := n - 1;
    if !charges[k].CountedFailure() { k := LastDeclinedAt(charges, n - 1); }
  }

  ghost predicate RetriesAfter(cfg: Config, a: Account, k: nat)
    requires k < |a.charges|
  {
    && a.charges[k].status.Failed? && a.charges[k].ref.Some? && a.charges[k].finalizedAt.Some?
    && (forall j :: k < j < |a.charges| ==> !(a.charges[j].status.Failed? && a.charges[j].ref.Some?))
    && 0 < a.sub.failedAttempts < |cfg.retryHours|
    && a.sub.nextRetryAt == Some(a.charges[k].finalizedAt.value + Hours(cfg.retryHours[a.sub.failedAttempts]))
  }

  lemma RetryIsAfter(cfg: Config, a: Account) returns (k: nat)
    requires RetryRight(cfg, a) && a.sub.nextRetryAt.Some? && 0 < a.sub.failedAttempts
    ensures k < |a.charges| && RetriesAfter(cfg, a, k)
  {
    assert a.charges[..|a.charges|] == a.charges;
    k := LastDeclinedAt(a.charges, |a.charges|);
  }

  /** In every run a pending retry is due the scheduled hours after the latest declined charge was
      settled. */
  lemma RetryCountsFromSettlement(cfg: Config, t: Time, steps: seq<Step>, id: SubId)
    requires cfg.Valid() && Ordered(t, steps) && id in Run(cfg, Empty, steps).accounts
    requires Run(cfg, Empty, steps).accounts[id].sub.nextRetryAt.Some?
    ensures var a := Run(cfg, Empty, steps).accounts[id];
            exists k :: 0 <= k < |a.charges| && RetriesAfter(cfg, a, k)
  {
    RunRight(cfg, Empty, t, steps);
    Safety.SubscriptionFollowsFromCharges(cfg, t, steps, id);
    var a := Run(cfg, Empty, steps).accounts[id];
    assert RowsRight(cfg, a);
    var k := RetryIsAfter(cfg, a);
  }

  // --------------------------------------------------------------- trials and clocks

  /** A trial gives access for the configured days and not a moment longer, and bills nothing. */
  lemma TrialLasts(cfg: Config, st: State, id: SubId, now: Time, later: Time)
    requires id !in st.accounts
    ensures var st' := StartTrial(cfg, st, id, now);
            && id in st'.accounts && st'.accounts[id].charges == [] && st'.prompts == st.prompts
            && (HasAccess(st'.accounts[id].sub, later) <==> later < now + Days(cfg.trialDays))
            && (forall o :: o in st.accounts ==> o in st'.accounts && st'.accounts[o] == st.accounts[o])
  {
  }

  /** Rows are stamped with the time of the step that made or settled them. */
  ghost predicate Stamped(a: Account, b: Account, now: Time) {
    && |a.charges| <= |b.charges|
    && (forall i :: |a.charges| <= i < |b.charges| ==> b.charges[i].requestedAt == now)
    && (forall i :: 0 <= i < |a.charges| ==> b.charges[i].requestedAt == a.charges[i].requestedAt)
    && (forall i :: 0 <= i < |b.charges| && b.charges[i].Terminal() ==>
          (i < |a.charges| && b.charges[i] == a.charges[i]) || b.charges[i].finalizedAt == Some(now))
  }

  lemma SettleStamps(cfg: Config, a: Account, i: nat, paid: bool, now: Time)
    requires i < |a.charges|
    ensures Stamped(a, Settle(cfg, a, i, paid, now), now)
  {
  }

  lemma InitiateStamps(cfg: Config, id: SubId, a: Account, now: Time, hasOwner: bool, push: Push)
    ensures Stamped(a, Initiate(cfg, id, a, now, hasOwner, push), now)
  {
    if Creates(cfg, id, a, now) {
      var b := Initiate(cfg, id, a, now, hasOwner, push);
      InitiateRows(cfg, id, a, now, hasOwner, push);
      forall i | 0 <= i < |a.charges| ensures b.charges[i] == a.charges[i] {
        assert b.charges[..|a.charges|][i] == a.charges[i];
      }
    }
  }

  lemma StepStampsTheClock(cfg: Config, st: State, s: Step, id: SubId)
    requires id in st.accounts
    ensures id in Apply(cfg, st, s).accounts && Stamped(st.accounts[id], Apply(cfg, st, s).accounts[id], s.now)
  {
    var a, st' := st.accounts[id], Apply(cfg, st, s);
    if st'.accounts[id] != a {
      if s.InitiateStep? {
        InitiateStamps(cfg, id, a, s.now, s.hasOwner, s.push);
      } else {
        OneSettles(cfg, st, s, id);
      }
    }
  }

  lemma OneSettles(cfg: Config, st: State, s: Step, id: SubId)
    requires id in st.accounts && !s.InitiateStep? && Apply(cfg, st, s).accounts[id] != st.accounts[id]
    ensures Stamped(st.accounts[id], Apply(cfg, st, s).accounts[id], s.now)
  {
    var row := if s.WebhookStep? then st.byReference[s.event.ref.value] else s.row;
    SettleStamps(cfg, st.accounts[id], row.index, true, s.now);
    SettleStamps(cfg, st.accounts[id], row.index, false, s.now);
  }

  // ------------------------------------------------------------------- new charges

  /** How a new row stands after its push, and whether the gateway's reference is on it. */
  predicate Outcome(c: Charge, hasOwner: bool, push: Push) {
    if hasOwner && push.Pushed? then
      && c.ref == Some(push.ref)
      && (c.status.Success? <==> push.state.PaidNow?)
      && (c.status.Failed? <==> push.state.DeclinedNow?)
      && (c.status.Processing? <==> push.state.AwaitingPin?)
    else c.ref.None? && c.status.Failed?
  }

  /** One row more, at the end. */
  ghost predicate OneMore(a: Account, b: Account) {
    |b.charges| == |a.charges| + 1 && forall i :: 0 <= i < |a.charges| ==> b.charges[i] == a.charges[i]
  }

  lemma NewRowOutcome(cfg: Config, id: SubId, a: Account, now: Time, hasOwner: bool, push: Push)
    requires Creates(cfg, id, a, now)
    ensures var b := Initiate(cfg, id, a, now, hasOwner, push);
            && OneMore(a, b) && Outcome(b.charges[|a.charges|], hasOwner, push)
            && b.charges[|a.charges|].key == NextKey(cfg, id, a, now) && b.sub.priceCents == cfg.priceCents
  {
  }

  /** What `initiate_charge` leaves in the tables. Either one row more, standing as the gateway said and
      found under the gateway's reference, with a prompt for its key if there was an owner to ask; or
      no change but the prompt that a repeated reference wasted. */
  lemma InitiateExactly(cfg: Config, st: State, id: SubId, now: Time, hasOwner: bool, push: Push)
    requires id in st.accounts
    ensures var st' := InitiateCharge(cfg, st, id, now, hasOwner, push);
            && st'.ledger == st.ledger && id in st'.accounts
            && (forall o :: o in st.accounts && o != id ==> o in st'.accounts && st'.accounts[o] == st.accounts[o])
            && var a, b := st.accounts[id], st'.accounts[id];
            if b != a then
              && OneMore(a, b)
              && var c := b.charges[|a.charges|];
              && Outcome(c, hasOwner, push) && b.sub.priceCents == cfg.priceCents
              && st'.prompts == st.prompts + (if hasOwner then [c.key] else [])
              && (c.ref.Some? ==> c.ref.value !in st.byReference
                                  && st'.byReference == st.byReference[c.ref.value := RowId(id, |a.charges|)])
              && (c.ref.None? ==> st'.byReference == st.byReference)
            else
              && st'.byReference == st.byReference
              && (st'.prompts == st.prompts
                  || (|st'.prompts| == |st.prompts| + 1 && hasOwner && push.Pushed? && push.ref in st.byReference))
  {
    if Creates(cfg, id, st.accounts[id], now) {
      NewRowOutcome(cfg, id, st.accounts[id], now, hasOwner, push);
      assert st.prompts + [] == st.prompts;
    }
  }

  /** In every run, the key of a charge holds its subscription, the UTC day its period starts on, and
      the number of the attempt, counted from the latest paid charge before. */
  lemma KeysSayWhatTheyAreFor(cfg: Config, t: Time, steps: seq<Step>, id: SubId, i: nat)
    requires cfg.Valid() && Ordered(t, steps) && id in Run(cfg, Empty, steps).accounts
    requires i < |Run(cfg, Empty, steps).accounts[id].charges|
    ensures var charges := Run(cfg, Empty, steps).accounts[id].charges; var c := charges[i];
            && c.key.sub == id && c.key.attempt == CountedFailures(charges[..i]) + 1
            && Days(c.key.day) <= c.periodStart < Days(c.key.day + 1)
            && c.periodEnd == c.periodStart + Days(cfg.periodDays)
  {
    ReachableInv(cfg, t, steps);
    var a := Run(cfg, Empty, steps).accounts[id];
    assert RowOk(cfg, id, a.sub.trialEndsAt, a.charges[i]) && AttemptsNumbered(a.charges);
  }
}
