/** Rows of the billing tables and the computations on one subscription with its charges.

    A subscription is modelled together with the charges that point at it, in the order they
    were inserted; that pair is an Account. Times are whole microseconds, like the `DateTime`
    columns, and may be any integer. */
module BillingModel {
  import opened Options

  type Time = int
  type SubId = string
  type Ref = string

  function Days(n: int): Time { n * 86_400_000_000 }
  function Hours(n: int): Time { n * 3_600_000_000 }
  function Minutes(n: int): Time { n * 60_000_000 }

  /** The calendar day of a timestamp: what `strftime('%Y%m%d')` distinguishes. */
  function DayOf(t: Time): int { t / 86_400_000_000 }

  /** The settings the billing engine reads; every one of them comes from the environment. */
  datatype Config = Config(
    trialDays: int,
    periodDays: int,
    retryHours: seq<int>,
    staleMinutes: int,
    priceCents: int,
    configured: bool)
  {
    /** A billing period of at least one day; nothing is asked of the other settings. */
    predicate Valid() { 1 <= periodDays }
  }

  datatype SubStatus = Trialing | Active | PastDue | Suspended | Cancelled

  datatype Sub = Sub(
    status: SubStatus,
    priceCents: int,
    trialEndsAt: Option<Time>,
    periodStart: Option<Time>,
    periodEnd: Option<Time>,
    failedAttempts: nat,
    nextRetryAt: Option<Time>,
    restaurantActive: bool)

  datatype ChargeStatus = Pending | Processing | Success | Failed

  /** The idempotency key, kept as its three components. */
  datatype Key = Key(sub: SubId, day: int, attempt: nat)

  datatype Charge = Charge(
    status: ChargeStatus,
    amountCents: int,
    periodStart: Time,
    periodEnd: Time,
    key: Key,
    ref: Option<Ref>,
    requestedAt: Time,
    finalizedAt: Option<Time>)
  {
    predicate Terminal() { status.Success? || status.Failed? }
    predicate Open() { status.Pending? || status.Processing? }

    /** A failure that went through `_apply_failed_payment`. Only a charge that reached the
        gateway carries its reference, and only such a charge is counted when it fails. */
    predicate CountedFailure() { status.Failed? && ref.Some? }
  }

  datatype Account = Account(sub: Sub, charges: seq<Charge>)

  // ---------------------------------------------------------------- settlement

  function MarkSuccess(c: Charge, now: Time): Charge {
    c.(status := Success, finalizedAt := Some(now))
  }

  function MarkFailed(c: Charge, now: Time): Charge {
    c.(status := Failed, finalizedAt := Some(now))
  }

  function ApplySuccess(sub: Sub, c: Charge): Sub {
    sub.(status := Active,
         periodStart := Some(c.periodStart),
         periodEnd := Some(c.periodEnd),
         failedAttempts := 0,
         nextRetryAt := None,
         restaurantActive := true)
  }

  function ApplyFailure(cfg: Config, sub: Sub, now: Time): Sub {
    var n := sub.failedAttempts + 1;
    if n >= |cfg.retryHours| then
      sub.(failedAttempts := n, status := Suspended, nextRetryAt := None, restaurantActive := false)
    else
      sub.(failedAttempts := n, status := PastDue, nextRetryAt := Some(now + Hours(cfg.retryHours[n])))
  }

  /** Charge i ends paid or not, and the subscription follows, in one commit. */
  function Settle(cfg: Config, a: Account, i: nat, paid: bool, now: Time): Account
    requires i < |a.charges|
  {
    if paid then
      var c := MarkSuccess(a.charges[i], now);
      Account(ApplySuccess(a.sub, c), a.charges[i := c])
    else
      Account(ApplyFailure(cfg, a.sub, now), a.charges[i := MarkFailed(a.charges[i], now)])
  }

  // ----------------------------------------------------------- charge creation

  /** Start of the period a charge made now pays for. */
  function PeriodStart(cfg: Config, sub: Sub, now: Time): Time {
    var base := if sub.periodEnd.Some? then sub.periodEnd.value else now;
    var start := if sub.trialEndsAt.Some? && sub.trialEndsAt.value > base then sub.trialEndsAt.value else base;
    if start < now - Days(cfg.periodDays) then now else start
  }

  predicate HasOpen(charges: seq<Charge>) { exists i :: 0 <= i < |charges| && charges[i].Open() }

  predicate HasKey(charges: seq<Charge>, key: Key) { exists i :: 0 <= i < |charges| && charges[i].key == key }

  function NextKey(cfg: Config, id: SubId, a: Account, now: Time): Key {
    Key(id, DayOf(PeriodStart(cfg, a.sub, now)), a.sub.failedAttempts + 1)
  }

  /** `initiate_charge` gets past both early returns and inserts a new row. */
  predicate Creates(cfg: Config, id: SubId, a: Account, now: Time) {
    !HasOpen(a.charges) && !HasKey(a.charges, NextKey(cfg, id, a, now))
  }

  /** The gateway's answer to a push: an exception, or a reference with the transaction's state. */
  datatype PushState = PaidNow | DeclinedNow | AwaitingPin
  datatype Push = PushError | Pushed(ref: Ref, state: PushState)

  /** The row as it is first inserted. */
  function NewCharge(cfg: Config, id: SubId, a: Account, now: Time): Charge {
    var start := PeriodStart(cfg, a.sub, now);
    Charge(Pending, cfg.priceCents, start, start + Days(cfg.periodDays), NextKey(cfg, id, a, now), None, now, None)
  }

  /** The account after `initiate_charge` commits. */
  function Initiate(cfg: Config, id: SubId, a: Account, now: Time, hasOwner: bool, push: Push): Account {
    if !Creates(cfg, id, a, now) then a
    else
      var sub := a.sub.(priceCents := cfg.priceCents);
      var c := NewCharge(cfg, id, a, now);
      if !hasOwner || push.PushError? then Account(sub, a.charges + [MarkFailed(c, now)])
      else
        var sent := c.(ref := Some(push.ref));
        match push.state
        case PaidNow =>
          var paid := MarkSuccess(sent, now);
          Account(ApplySuccess(sub, paid), a.charges + [paid])
        case DeclinedNow =>
          Account(ApplyFailure(cfg, sub, now), a.charges + [MarkFailed(sent, now)])
        case AwaitingPin =>
          Account(sub, a.charges + [sent.(status := Processing)])
  }

  // -------------------------------------------------------------------- sweeps

  predicate HasAccess(sub: Sub, now: Time) {
    match sub.status
    case Trialing => sub.trialEndsAt.None? || now < sub.trialEndsAt.value
    case Active => true
    case PastDue => true
    case _ => false
  }

  predicate IsRenewalDue(sub: Sub, now: Time) {
    match sub.status
    case Trialing => sub.trialEndsAt.Some? && now >= sub.trialEndsAt.value
    case Active => sub.periodEnd.Some? && now >= sub.periodEnd.value
    case PastDue => sub.periodEnd.Some? && now >= sub.periodEnd.value
    case _ => false
  }

  /** The sweep picks this subscription up. */
  predicate SweepDue(sub: Sub, now: Time) {
    match sub.status
    case PastDue => sub.nextRetryAt.Some? && now >= sub.nextRetryAt.value
    case Trialing => IsRenewalDue(sub, now)
    case Active => IsRenewalDue(sub, now)
    case _ => false
  }

  /** A PROCESSING charge whose webhook is overdue. */
  predicate Stale(cfg: Config, c: Charge, now: Time) {
    c.status.Processing? && c.requestedAt < now - Minutes(cfg.staleMinutes)
  }

  /** A fresh subscription, as `start_trial` writes it. */
  function TrialAccount(cfg: Config, now: Time): Account {
    Account(Sub(Trialing, cfg.priceCents, Some(now + Days(cfg.trialDays)), None, None, 0, None, true), [])
  }
}
