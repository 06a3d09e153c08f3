/** The billing engine as a step system: every committed transaction of the four actors is one
    step on the whole database. A run is a sequence of steps in commit order. */
module BillingEngine {
  import opened Options
  import opened BillingModel
  import opened BillingInvariant

  /** A charge, addressed by its subscription and its position among that subscription's rows. */
  datatype RowId = RowId(sub: SubId, index: nat)

  /** byReference is the unique index on `provider_reference`, ledger the references in
      `processed_callbacks`. prompts is not stored anywhere: it records the keys for which a
      payment prompt was pushed to a phone, which no rollback takes back. */
  datatype State = State(
    accounts: map<SubId, Account>,
    byReference: map<Ref, RowId>,
    ledger: set<Ref>,
    prompts: seq<Key>)

  const Empty := State(map[], map[], {}, [])

  predicate HasRow(st: State, row: RowId) {
    row.sub in st.accounts && row.index < |st.accounts[row.sub].charges|
  }

  function RowAt(st: State, row: RowId): Charge
    requires HasRow(st, row)
  {
    st.accounts[row.sub].charges[row.index]
  }

  // --------------------------------------------------------------------- steps

  /** restaurant_id is unique in `subscriptions`, so a second trial is refused. */
  function StartTrial(cfg: Config, st: State, id: SubId, now: Time): State {
    if id in st.accounts then st else st.(accounts := st.accounts[id := TrialAccount(cfg, now)])
  }

  /** A reference the gateway already used breaks the unique index at commit: the transaction is
      rolled back, the prompt is not. */
  function InitiateCharge(cfg: Config, st: State, id: SubId, now: Time, hasOwner: bool, push: Push): State {
    if id !in st.accounts || !Creates(cfg, id, st.accounts[id], now) then st
    else
      var a := st.accounts[id];
      var prompts := if hasOwner then st.prompts + [NextKey(cfg, id, a, now)] else st.prompts;
      if hasOwner && push.Pushed? && push.ref in st.byReference then st.(prompts := prompts)
      else
        State(st.accounts[id := Initiate(cfg, id, a, now, hasOwner, push)],
              if hasOwner && push.Pushed? then st.byReference[push.ref := RowId(id, |a.charges|)] else st.byReference,
              st.ledger,
              prompts)
  }

  function SettleRow(cfg: Config, st: State, row: RowId, paid: bool, now: Time): State
    requires HasRow(st, row)
  {
    st.(accounts := st.accounts[row.sub := Settle(cfg, st.accounts[row.sub], row.index, paid, now)])
  }

  datatype EventKind = ChargeSucceeded | ChargeFailed | OtherEvent
  datatype Event = Event(kind: EventKind, ref: Option<Ref>)

  predicate Recognised(e: Event) { e.ref.Some? && !e.kind.OtherEvent? }

  /** An index entry always leads to a row; an entry that did not would count as no match. */
  predicate Matches(st: State, ref: Ref) { ref in st.byReference && HasRow(st, st.byReference[ref]) }

  function ProcessWebhook(cfg: Config, st: State, e: Event, now: Time): State {
    if !Recognised(e) || e.ref.value in st.ledger then st
    else
      var noted := st.(ledger := st.ledger + {e.ref.value});
      if !Matches(st, e.ref.value) || RowAt(st, st.byReference[e.ref.value]).Terminal() then noted
      else SettleRow(cfg, noted, st.byReference[e.ref.value], e.kind.ChargeSucceeded?, now)
  }

  /** The short status string it returns. */
  datatype Reply =
    | IgnoredNoReference | IgnoredEvent | DuplicateIgnored | NoMatchingCharge | AlreadyFinalized | Applied(paid: bool)

  function WebhookReply(st: State, e: Event): Reply {
    if e.ref.None? then IgnoredNoReference
    else if !Recognised(e) then IgnoredEvent
    else if e.ref.value in st.ledger then DuplicateIgnored
    else if !Matches(st, e.ref.value) then NoMatchingCharge
    else if RowAt(st, st.byReference[e.ref.value]).Terminal() then AlreadyFinalized
    else Applied(e.kind.ChargeSucceeded?)
  }

  /** What `verify_transaction` returns: an exception, or the transaction's status in lower case.
      SaysNothing is a response without one. */
  datatype GatewayStatus = SaysSuccess | SaysFailed | SaysAbandoned | SaysReversed | SaysNothing | SaysOther
  datatype Answer = Unreachable | Answered(status: GatewayStatus)

  predicate Refused(s: GatewayStatus) { s.SaysFailed? || s.SaysAbandoned? || s.SaysReversed? }

  /** `verify_charge_now`. */
  function Poll(cfg: Config, st: State, row: RowId, now: Time, answer: Answer): State {
    if !HasRow(st, row) || RowAt(st, row).Terminal() then st
    else if RowAt(st, row).ref.None? || !cfg.configured then st
    else if answer.Unreachable? then st
    else if answer.status.SaysSuccess? then SettleRow(cfg, st, row, true, now)
    else if Refused(answer.status) then SettleRow(cfg, st, row, false, now)
    else st
  }

  /** One turn of the loop in `_expire_stale_charges`, in a sweep as of some time; the charge itself
      is settled at the time the clock then shows. */
  function Expire(cfg: Config, st: State, row: RowId, asOf: Time, now: Time, answer: Answer): State {
    if !HasRow(st, row) || !Stale(cfg, RowAt(st, row), asOf) then st
    else if RowAt(st, row).ref.Some? && cfg.configured then
      if answer.Unreachable? then st
      else if answer.status.SaysSuccess? then SettleRow(cfg, st, row, true, now)
      else if answer.status.SaysOther? then st
      else SettleRow(cfg, st, row, false, now)
    else SettleRow(cfg, st, row, false, now)
  }

  datatype Step =
    | TrialStep(id: SubId, now: Time)
    | InitiateStep(id: SubId, now: Time, hasOwner: bool, push: Push)
    | WebhookStep(event: Event, now: Time)
    | PollStep(row: RowId, now: Time, answer: Answer)
    | ExpireStep(row: RowId, asOf: Time, now: Time, answer: Answer)

  function Apply(cfg: Config, st: State, s: Step): State {
    match s
    case TrialStep(id, now) => StartTrial(cfg, st, id, now)
    case InitiateStep(id, now, hasOwner, push) => InitiateCharge(cfg, st, id, now, hasOwner, push)
    case WebhookStep(e, now) => ProcessWebhook(cfg, st, e, now)
    case PollStep(row, now, answer) => Poll(cfg, st, row, now, answer)
    case ExpireStep(row, asOf, now, answer) => Expire(cfg, st, row, asOf, now, answer)
  }

  function Run(cfg: Config, st: State, steps: seq<Step>): State
    decreases |steps|
  {
    if steps == [] then st else Run(cfg, Apply(cfg, st, steps[0]), steps[1..])
  }

  /** The clock never runs backwards from one commit to the next. */
  predicate Ordered(t: Time, steps: seq<Step>)
    decreases |steps|
  {
    steps == [] || (t <= steps[0].now && Ordered(steps[0].now, steps[1..]))
  }

  function EndTime(t: Time, steps: seq<Step>): Time {
    if steps == [] then t else steps[|steps| - 1].now
  }

  lemma {:induction false} RunConcat(cfg: Config, st: State, xs: seq<Step>, ys: seq<Step>)
    ensures Run(cfg, st, xs + ys) == Run(cfg, Run(cfg, st, xs), ys)
    decreases |xs|
  {
    if xs == [] {
      assert xs + ys == ys;
    } else {
      assert (xs + ys)[1..] == xs[1..] + ys;
      RunConcat(cfg, Apply(cfg, st, xs[0]), xs[1..], ys);
    }
  }

  // ----------------------------------------------------------------- invariant

  /** The index maps a reference to the one row that carries it. */
  ghost predicate IndexCoherent(st: State) {
    && (forall r :: r in st.byReference ==>
          HasRow(st, st.byReference[r]) && RowAt(st, st.byReference[r]).ref == Some(r))
    && (forall row :: HasRow(st, row) && RowAt(st, row).ref.Some? ==>
          RowAt(st, row).ref.value in st.byReference && st.byReference[RowAt(st, row).ref.value] == row)
  }

  ghost predicate Inv(cfg: Config, st: State, t: Time) {
    && (forall id :: id in st.accounts ==> AccountInv(cfg, id, st.accounts[id], t))
    && IndexCoherent(st)
  }

  lemma LaterInv(cfg: Config, st: State, t: Time, u: Time)
    requires cfg.Valid() && t <= u && Inv(cfg, st, t)
    ensures Inv(cfg, st, u)
  {
    forall id | id in st.accounts ensures AccountInv(cfg, id, st.accounts[id], u) {
      TimePasses(cfg, id, st.accounts[id], t, u);
    }
  }

  lemma SettleRowCoherent(cfg: Config, st: State, row: RowId, paid: bool, now: Time)
    requires IndexCoherent(st) && HasRow(st, row)
    ensures IndexCoherent(SettleRow(cfg, st, row, paid, now))
  {
    var st' := SettleRow(cfg, st, row, paid, now);
    forall r: RowId ensures HasRow(st', r) == HasRow(st, r) {}
    forall r | HasRow(st, r) ensures RowAt(st', r).ref == RowAt(st, r).ref {}
  }

  lemma SettleRowKeepsInv(cfg: Config, st: State, row: RowId, paid: bool, now: Time)
    requires cfg.Valid() && Inv(cfg, st, now) && HasRow(st, row) && !RowAt(st, row).Terminal()
    ensures Inv(cfg, SettleRow(cfg, st, row, paid, now), now)
  {
    SettleRowCoherent(cfg, st, row, paid, now);
    SettleKeepsInv(cfg, row.sub, st.accounts[row.sub], row.index, paid, now);
  }

  /** Initiate appends one row, whose reference is the pushed one, and leaves the others alone. */
  lemma InitiateRows(cfg: Config, id: SubId, a: Account, now: Time, hasOwner: bool, push: Push)
    requires Creates(cfg, id, a, now)
    ensures var cs := Initiate(cfg, id, a, now, hasOwner, push).charges;
            && |cs| == |a.charges| + 1 && cs[..|a.charges|] == a.charges
            && cs[|a.charges|].key == NextKey(cfg, id, a, now)
            && cs[|a.charges|].ref == if hasOwner && push.Pushed? then Some(push.ref) else None
  {
  }

  /** Neither the ledger nor the prompts matter to the invariant. */
  lemma SameRowsInv(cfg: Config, st: State, st': State, t: Time)
    requires st'.accounts == st.accounts && st'.byReference == st.byReference
    ensures IndexCoherent(st) ==> IndexCoherent(st')
    ensures Inv(cfg, st, t) ==> Inv(cfg, st', t)
  {
    forall r: RowId ensures HasRow(st', r) == HasRow(st, r) {}
    forall r | HasRow(st, r) ensures RowAt(st', r) == RowAt(st, r) {}
  }

  lemma InitiateCoherent(cfg: Config, st: State, id: SubId, now: Time, hasOwner: bool, push: Push)
    requires IndexCoherent(st) && id in st.accounts && Creates(cfg, id, st.accounts[id], now)
    requires hasOwner && push.Pushed? ==> push.ref !in st.byReference
    ensures IndexCoherent(InitiateCharge(cfg, st, id, now, hasOwner, push))
  {
    var st' := InitiateCharge(cfg, st, id, now, hasOwner, push);
    InitiateRows(cfg, id, st.accounts[id], now, hasOwner, push);
    var row := RowId(id, |st.accounts[id].charges|);
    forall r: RowId ensures HasRow(st', r) <==> HasRow(st, r) || r == row {}
    forall r: RowId | HasRow(st, r) ensures RowAt(st', r) == RowAt(st, r) {
      if r.sub == id { assert st'.accounts[id].charges[..row.index][r.index] == RowAt(st, r); }
    }
  }

  lemma InitiateStepKeepsInv(cfg: Config, st: State, id: SubId, now: Time, hasOwner: bool, push: Push)
    requires cfg.Valid() && Inv(cfg, st, now)
    ensures Inv(cfg, InitiateCharge(cfg, st, id, now, hasOwner, push), now)
  {
    var st' := InitiateCharge(cfg, st, id, now, hasOwner, push);
    if id !in st.accounts || !Creates(cfg, id, st.accounts[id], now) {
    } else if hasOwner && push.Pushed? && push.ref in st.byReference {
      SameRowsInv(cfg, st, st', now);
    } else {
      InitiateCoherent(cfg, st, id, now, hasOwner, push);
      InitiateKeepsInv(cfg, id, st.accounts[id], now, hasOwner, push);
    }
  }

  lemma TrialCoherent(cfg: Config, st: State, id: SubId, now: Time)
    requires IndexCoherent(st)
    ensures IndexCoherent(StartTrial(cfg, st, id, now))
  {
    var st' := StartTrial(cfg, st, id, now);
    forall r: RowId ensures HasRow(st', r) <==> HasRow(st, r) {}
    forall r | HasRow(st', r) ensures RowAt(st', r) == RowAt(st, r) {}
  }

  lemma TrialStepKeepsInv(cfg: Config, st: State, id: SubId, now: Time)
    requires Inv(cfg, st, now)
    ensures Inv(cfg, StartTrial(cfg, st, id, now), now)
  {
    TrialCoherent(cfg, st, id, now);
    if id !in st.accounts {
      TrialKeepsInv(cfg, id, now);
    }
  }

  lemma WebhookStepKeepsInv(cfg: Config, st: State, e: Event, now: Time)
    requires cfg.Valid() && Inv(cfg, st, now)
    ensures Inv(cfg, ProcessWebhook(cfg, st, e, now), now)
  {
    if Recognised(e) && e.ref.value !in st.ledger {
      var noted := st.(ledger := st.ledger + {e.ref.value});
      SameRowsInv(cfg, st, noted, now);
      if Matches(st, e.ref.value) && !RowAt(st, st.byReference[e.ref.value]).Terminal() {
        SettleRowKeepsInv(cfg, noted, st.byReference[e.ref.value], e.kind.ChargeSucceeded?, now);
      }
    }
  }

  /** st' is st, or st with one of its open rows settled. */
  ghost predicate SettlesAtMost(cfg: Config, st: State, st': State, row: RowId, now: Time) {
    st' == st ||
    (HasRow(st, row) && !RowAt(st, row).Terminal() &&
     (st' == SettleRow(cfg, st, row, true, now) || st' == SettleRow(cfg, st, row, false, now)))
  }

  lemma PollOrExpireSettles(cfg: Config, st: State, row: RowId, asOf: Time, now: Time, answer: Answer)
    ensures SettlesAtMost(cfg, st, Poll(cfg, st, row, now, answer), row, now)
    ensures SettlesAtMost(cfg, st, Expire(cfg, st, row, asOf, now, answer), row, now)
  {
  }

  lemma SettlingKeepsInv(cfg: Config, st: State, st': State, row: RowId, now: Time)
    requires cfg.Valid() && Inv(cfg, st, now) && SettlesAtMost(cfg, st, st', row, now)
    ensures Inv(cfg, st', now)
  {
    if st' != st {
      SettleRowKeepsInv(cfg, st, row, true, now);
      SettleRowKeepsInv(cfg, st, row, false, now);
    }
  }

  /** Every step keeps the invariant. */
  lemma StepKeepsInv(cfg: Config, st: State, t: Time, s: Step)
    requires cfg.Valid() && Inv(cfg, st, t) && t <= s.now
    ensures Inv(cfg, Apply(cfg, st, s), s.now)
  {
    LaterInv(cfg, st, t, s.now);
    match s
    case TrialStep(id, now) => TrialStepKeepsInv(cfg, st, id, now);
    case InitiateStep(id, now, hasOwner, push) => InitiateStepKeepsInv(cfg, st, id, now, hasOwner, push);
    case WebhookStep(e, now) => WebhookStepKeepsInv(cfg, st, e, now);
    case PollStep(row, now, answer) =>
      PollOrExpireSettles(cfg, st, row, now, now, answer);
      SettlingKeepsInv(cfg, st, Poll(cfg, st, row, now, answer), row, now);
    case ExpireStep(row, asOf, now, answer) =>
      PollOrExpireSettles(cfg, st, row, asOf, now, answer);
      SettlingKeepsInv(cfg, st, Expire(cfg, st, row, asOf, now, answer), row, now);
  }

  /** So does every run. */
  lemma {:induction false} RunKeepsInv(cfg: Config, st: State, t: Time, steps: seq<Step>)
    requires cfg.Valid() && Inv(cfg, st, t) && Ordered(t, steps)
    ensures Inv(cfg, Run(cfg, st, steps), EndTime(t, steps))
    decreases |steps|
  {
    if steps != [] {
      StepKeepsInv(cfg, st, t, steps[0]);
      RunKeepsInv(cfg, Apply(cfg, st, steps[0]), steps[0].now, steps[1..]);
    }
  }

  lemma ReachableInv(cfg: Config, t: Time, steps: seq<Step>)
    requires cfg.Valid() && Ordered(t, steps)
    ensures Inv(cfg, Run(cfg, Empty, steps), EndTime(t, steps))
  {
    RunKeepsInv(cfg, Empty, t, steps);
  }
}
