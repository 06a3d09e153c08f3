/** What holds over whole runs of the billing engine. */
module BillingSafety {
  import opened Options
  import opened BillingModel
  import opened BillingInvariant
  import opened BillingEngine
  import Keys = BillingKeys

  // ------------------------------------------------------------ double billing

  /** In every run, the periods two successful charges of one subscription paid for do not
      overlap; each is exactly one billing period long and starts after the trial. */
  lemma PaidPeriodsNeverOverlap(cfg: Config, t: Time, steps: seq<Step>, id: SubId, i: nat, j: nat)
    requires cfg.Valid() && Ordered(t, steps) && id in Run(cfg, Empty, steps).accounts
    requires var cs := Run(cfg, Empty, steps).accounts[id].charges;
             i < j < |cs| && cs[i].status.Success? && cs[j].status.Success?
    ensures var a := Run(cfg, Empty, steps).accounts[id];
            && a.charges[i].periodEnd <= a.charges[j].periodStart
            && a.charges[i].periodEnd == a.charges[i].periodStart + Days(cfg.periodDays)
            && a.charges[j].periodEnd == a.charges[j].periodStart + Days(cfg.periodDays)
            && (a.sub.trialEndsAt.Some? ==> a.sub.trialEndsAt.value <= a.charges[i].periodStart)
            && a.sub.periodEnd.Some? && a.charges[j].periodEnd <= a.sub.periodEnd.value
  {
    ReachableInv(cfg, t, steps);
    var a := Run(cfg, Empty, steps).accounts[id];
    assert RowOk(cfg, id, a.sub.trialEndsAt, a.charges[i]) && RowOk(cfg, id, a.sub.trialEndsAt, a.charges[j]);
  }

  /** In every run, the subscription row can be rebuilt from its charge rows: status, counter,
      period and the restaurant's flag. At most the latest charge is open, and an open one holds
      the gateway's reference. */
  lemma SubscriptionFollowsFromCharges(cfg: Config, t: Time, steps: seq<Step>, id: SubId)
    requires cfg.Valid() && Ordered(t, steps) && id in Run(cfg, Empty, steps).accounts
    ensures var a := Run(cfg, Empty, steps).accounts[id];
            && a.sub.failedAttempts == CountedFailures(a.charges)
            && a.sub.status == StatusOf(cfg, a.charges)
            && (a.sub.status.PastDue? <==> 0 < a.sub.failedAttempts < |cfg.retryHours|)
            && (a.sub.nextRetryAt.Some? <==> a.sub.status.PastDue?)
            && (a.sub.restaurantActive <==> !a.sub.status.Suspended?)
            && a.sub.periodEnd == (match LastPaid(a.charges) case Some(c) => Some(c.periodEnd) case None => None)
            && (forall i :: 0 <= i < |a.charges| && a.charges[i].Open() ==>
                  i == |a.charges| - 1 && a.charges[i].status.Processing? && a.charges[i].ref.Some?)
  {
    ReachableInv(cfg, t, steps);
    var a := Run(cfg, Empty, steps).accounts[id];
    forall i | 0 <= i < |a.charges| && a.charges[i].Open()
      ensures i == |a.charges| - 1 && a.charges[i].status.Processing? && a.charges[i].ref.Some?
    {
      assert RowOk(cfg, id, a.sub.trialEndsAt, a.charges[i]);
      OpenIsLast(a.charges, i);
    }
  }

  /** Access, read off the charge rows: it ends with the trial if nothing was ever paid or declined,
      and otherwise only once the counted failures since the last payment exhaust the schedule. */
  lemma AccessFollowsFromCharges(cfg: Config, t: Time, steps: seq<Step>, id: SubId, now: Time)
    requires cfg.Valid() && Ordered(t, steps) && id in Run(cfg, Empty, steps).accounts
    ensures var a := Run(cfg, Empty, steps).accounts[id];
            var n := CountedFailures(a.charges);
            HasAccess(a.sub, now) <==>
            if n == 0 && LastPaid(a.charges).None? then a.sub.trialEndsAt.None? || now < a.sub.trialEndsAt.value
            else n == 0 || n < |cfg.retryHours|
  {
    ReachableInv(cfg, t, steps);
  }

  // ------------------------------------------------------------------- history

  /** Only the status and the finalisation time of an open row may change. */
  ghost predicate RowEvolves(c: Charge, d: Charge) {
    if c.Terminal() then d == c else d.(status := c.status, finalizedAt := c.finalizedAt) == c
  }

  /** Rows are never dropped or reordered, the trial keeps its end, the period never moves back. */
  ghost predicate Evolves(a: Account, b: Account) {
    && |a.charges| <= |b.charges|
    && (forall i :: 0 <= i < |a.charges| ==> RowEvolves(a.charges[i], b.charges[i]))
    && b.sub.trialEndsAt == a.sub.trialEndsAt
    && (a.sub.periodEnd.Some? ==> b.sub.periodEnd.Some? && a.sub.periodEnd.value <= b.sub.periodEnd.value)
  }

  ghost predicate StateEvolves(st: State, st': State) {
    && (forall id :: id in st.accounts ==> id in st'.accounts && Evolves(st.accounts[id], st'.accounts[id]))
    && st.ledger <= st'.ledger
    && st.prompts <= st'.prompts
  }

  lemma SettleEvolves(cfg: Config, id: SubId, a: Account, i: nat, paid: bool, now: Time)
    requires cfg.Valid() && AccountInv(cfg, id, a, now) && i < |a.charges| && !a.charges[i].Terminal()
    ensures Evolves(a, Settle(cfg, a, i, paid, now))
  {
    assert RowOk(cfg, id, a.sub.trialEndsAt, a.charges[i]);
    assert OpenAfterPeriod(a.sub, a.charges) && a.charges[i].Open();
  }

  lemma InitiateEvolves(cfg: Config, id: SubId, a: Account, now: Time, hasOwner: bool, push: Push)
    requires cfg.Valid() && AccountInv(cfg, id, a, now)
    ensures Evolves(a, Initiate(cfg, id, a, now, hasOwner, push))
  {
    if Creates(cfg, id, a, now) {
      var b := Initiate(cfg, id, a, now, hasOwner, push);
      InitiateRows(cfg, id, a, now, hasOwner, push);
      PeriodStartHonoursPromises(cfg, a.sub, now);
      forall i | 0 <= i < |a.charges| ensures b.charges[i] == a.charges[i] {
        assert b.charges[..|a.charges|][i] == a.charges[i];
      }
    }
  }

  lemma ReplaceEvolves(st: State, st': State, id: SubId, b: Account)
    requires id in st.accounts && Evolves(st.accounts[id], b) && st'.accounts == st.accounts[id := b]
    requires st.ledger <= st'.ledger && st.prompts <= st'.prompts
    ensures StateEvolves(st, st')
  {
  }

  lemma SettleRowEvolves(cfg: Config, st: State, row: RowId, paid: bool, now: Time)
    requires cfg.Valid() && Inv(cfg, st, now) && HasRow(st, row) && !RowAt(st, row).Terminal()
    ensures StateEvolves(st, SettleRow(cfg, st, row, paid, now))
  {
    var b := Settle(cfg, st.accounts[row.sub], row.index, paid, now);
    SettleEvolves(cfg, row.sub, st.accounts[row.sub], row.index, paid, now);
    ReplaceEvolves(st, SettleRow(cfg, st, row, paid, now), row.sub, b);
  }

  lemma SettlingEvolves(cfg: Config, st: State, st': State, row: RowId, now: Time)
    requires cfg.Valid() && Inv(cfg, st, now) && SettlesAtMost(cfg, st, st', row, now)
    ensures StateEvolves(st, st')
  {
    if st' != st {
      SettleRowEvolves(cfg, st, row, true, now);
      SettleRowEvolves(cfg, st, row, false, now);
    }
  }

  lemma InitiateStepEvolves(cfg: Config, st: State, id: SubId, now: Time, hasOwner: bool, push: Push)
    requires cfg.Valid() && Inv(cfg, st, now)
    ensures StateEvolves(st, InitiateCharge(cfg, st, id, now, hasOwner, push))
  {
    var st' := InitiateCharge(cfg, st, id, now, hasOwner, push);
    if st'.accounts == st.accounts {
      assert st.prompts <= st'.prompts && st'.ledger == st.ledger;
    } else {
      var b := Initiate(cfg, id, st.accounts[id], now, hasOwner, push);
      assert st'.accounts == st.accounts[id := b] && st.prompts <= st'.prompts && st'.ledger == st.ledger;
      InitiateEvolves(cfg, id, st.accounts[id], now, hasOwner, push);
      ReplaceEvolves(st, st', id, b);
    }
  }

  lemma WebhookStepEvolves(cfg: Config, st: State, e: Event, now: Time)
    requires cfg.Valid() && Inv(cfg, st, now)
    ensures StateEvolves(st, ProcessWebhook(cfg, st, e, now))
  {
    if Recognised(e) && e.ref.value !in st.ledger && Matches(st, e.ref.value) {
      var row := st.byReference[e.ref.value];
      if !RowAt(st, row).Terminal() {
        SettleRowEvolves(cfg, st, row, e.kind.ChargeSucceeded?, now);
      }
    }
  }

  lemma TrialStepEvolves(cfg: Config, st: State, id: SubId, now: Time)
    ensures StateEvolves(st, StartTrial(cfg, st, id, now))
  {
  }

  lemma StepEvolves(cfg: Config, st: State, t: Time, s: Step)
    requires cfg.Valid() && Inv(cfg, st, t) && t <= s.now
    ensures StateEvolves(st, Apply(cfg, st, s))
  {
    LaterInv(cfg, st, t, s.now);
    match s
    case TrialStep(id, now) => TrialStepEvolves(cfg, st, id, now);
    case InitiateStep(id, now, hasOwner, push) => InitiateStepEvolves(cfg, st, id, now, hasOwner, push);
    case WebhookStep(e, now) => WebhookStepEvolves(cfg, st, e, now);
    case PollStep(row, now, answer) =>
      PollOrExpireSettles(cfg, st, row, now, now, answer);
      SettlingEvolves(cfg, st, Poll(cfg, st, row, now, answer), row, now);
    case ExpireStep(row, asOf, now, answer) =>
      PollOrExpireSettles(cfg, st, row, asOf, now, answer);
      SettlingEvolves(cfg, st, Expire(cfg, st, row, asOf, now, answer), row, now);
  }

  lemma EvolvesTransitive(a: Account, b: Account, c: Account)
    requires Evolves(a, b) && Evolves(b, c)
    ensures Evolves(a, c)
  {
    forall i | 0 <= i < |a.charges| ensures RowEvolves(a.charges[i], c.charges[i]) {
      assert RowEvolves(a.charges[i], b.charges[i]) && RowEvolves(b.charges[i], c.charges[i]);
    }
  }

  /** Over any run from any reachable state: settled charges stay exactly as they are, no charge
      disappears, no period moves back, the ledger and the prompts only grow. */
  lemma {:induction false} HistoryNeverRewritten(cfg: Config, st: State, t: Time, steps: seq<Step>)
    requires cfg.Valid() && Inv(cfg, st, t) && Ordered(t, steps)
    ensures StateEvolves(st, Run(cfg, st, steps))
    decreases |steps|
  {
    if steps != [] {
      var mid := Apply(cfg, st, steps[0]);
      StepEvolves(cfg, st, t, steps[0]);
      StepKeepsInv(cfg, st, t, steps[0]);
      HistoryNeverRewritten(cfg, mid, steps[0].now, steps[1..]);
      var end := Run(cfg, mid, steps[1..]);
      forall id | id in st.accounts ensures Evolves(st.accounts[id], end.accounts[id]) {
        EvolvesTransitive(st.accounts[id], mid.accounts[id], end.accounts[id]);
      }
    }
  }

  // ------------------------------------------------------------------- prompts

  /** The step pushes a prompt to a phone. */
  predicate Prompts(cfg: Config, st: State, s: Step) {
    s.InitiateStep? && s.id in st.accounts && Creates(cfg, s.id, st.accounts[s.id], s.now) && s.hasOwner
  }

  function PromptedKey(cfg: Config, st: State, s: Step): Key
    requires Prompts(cfg, st, s)
  {
    NextKey(cfg, s.id, st.accounts[s.id], s.now)
  }

  /** The gateway answers the push with a reference it has handed out before, so that the row of
      this prompt is rolled back. */
  predicate RolledBack(cfg: Config, st: State, s: Step) {
    Prompts(cfg, st, s) && s.push.Pushed? && s.push.ref in st.byReference
  }

  /** The keys whose prompts have lost their rows, after the step. */
  function MoreLost(cfg: Config, st: State, s: Step, lost: set<Key>): set<Key>
    requires Prompts(cfg, st, s)
  {
    if RolledBack(cfg, st, s) then lost + {PromptedKey(cfg, st, s)} else lost
  }

  predicate NoneRolledBack(cfg: Config, st: State, steps: seq<Step>)
    decreases |steps|
  {
    steps == [] || (!RolledBack(cfg, st, steps[0]) && NoneRolledBack(cfg, Apply(cfg, st, steps[0]), steps[1..]))
  }

  ghost predicate Stored(st: State, key: Key) {
    key.sub in st.accounts && HasKey(st.accounts[key.sub].charges, key)
  }

  ghost predicate NoKeyTwice(prompts: seq<Key>) {
    forall p, q :: 0 <= p < q < |prompts| ==> prompts[p] != prompts[q]
  }

  /** Every prompt has its row, or its key is among those given. */
  ghost predicate StoredOrLost(st: State, lost: set<Key>) {
    forall p :: 0 <= p < |st.prompts| ==> Stored(st, st.prompts[p]) || st.prompts[p] in lost
  }

  /** Every prompt has its row, and no key was prompted for twice. */
  ghost predicate PromptsOk(st: State) { StoredOrLost(st, {}) && NoKeyTwice(st.prompts) }

  lemma StoredStays(st: State, st': State, key: Key)
    requires Stored(st, key) && StateEvolves(st, st')
    ensures Stored(st', key)
  {
    var a, b := st.accounts[key.sub], st'.accounts[key.sub];
    var i :| 0 <= i < |a.charges| && a.charges[i].key == key;
    assert RowEvolves(a.charges[i], b.charges[i]);
  }

  lemma EvolvingKeepsStored(st: State, st': State, lost: set<Key>)
    requires StoredOrLost(st, lost) && StateEvolves(st, st') && st'.prompts == st.prompts
    ensures StoredOrLost(st', lost)
  {
    forall p | 0 <= p < |st.prompts| ensures Stored(st', st.prompts[p]) || st.prompts[p] in lost {
      if Stored(st, st.prompts[p]) { StoredStays(st, st', st.prompts[p]); }
    }
  }

  lemma PromptsUntouched(cfg: Config, st: State, s: Step)
    requires !Prompts(cfg, st, s)
    ensures Apply(cfg, st, s).prompts == st.prompts
  {
  }

  /** A prompt is for a key no row holds yet; afterwards its row is there unless rolled back. */
  lemma PromptAppends(cfg: Config, st: State, s: Step)
    requires Prompts(cfg, st, s)
    ensures var st', key := Apply(cfg, st, s), PromptedKey(cfg, st, s);
            && st'.prompts == st.prompts + [key] && !Stored(st, key)
            && (Stored(st', key) <==> !RolledBack(cfg, st, s))
  {
    var a, key := st.accounts[s.id], PromptedKey(cfg, st, s);
    if !RolledBack(cfg, st, s) {
      InitiateRows(cfg, s.id, a, s.now, s.hasOwner, s.push);
      assert Apply(cfg, st, s).accounts[s.id].charges[|a.charges|].key == key;
    }
  }

  lemma PromptKeepsStored(cfg: Config, st: State, s: Step, lost: set<Key>)
    requires Prompts(cfg, st, s) && StoredOrLost(st, lost) && StateEvolves(st, Apply(cfg, st, s))
    ensures StoredOrLost(Apply(cfg, st, s), MoreLost(cfg, st, s, lost))
  {
    var st' := Apply(cfg, st, s);
    PromptAppends(cfg, st, s);
    forall p | 0 <= p < |st.prompts| ensures Stored(st', st'.prompts[p]) || st'.prompts[p] in lost {
      if Stored(st, st.prompts[p]) { StoredStays(st, st', st.prompts[p]); }
    }
  }

  lemma KeyIsNew(st: State, lost: set<Key>, key: Key)
    requires StoredOrLost(st, lost) && !Stored(st, key) && key !in lost
    ensures key !in st.prompts
  {
  }

  lemma AppendTwice(prompts: seq<Key>, key: Key)
    requires NoKeyTwice(prompts)
    ensures NoKeyTwice(prompts + [key]) <==> key !in prompts
  {
    if key in prompts {
      var p :| 0 <= p < |prompts| && prompts[p] == key;
      assert (prompts + [key])[p] == (prompts + [key])[|prompts|];
    }
  }

  /** The state after a prompt for a new key. */
  lemma PromptedOk(st: State, st': State, key: Key)
    requires PromptsOk(st) && !Stored(st, key) && st'.prompts == st.prompts + [key]
    requires StoredOrLost(st', {key})
    ensures PromptsOk(st') <==> Stored(st', key)
  {
    KeyIsNew(st, {}, key);
    AppendTwice(st.prompts, key);
    assert st'.prompts[|st.prompts|] == key;
  }

  lemma LoseMore(st: State, lost: set<Key>, more: set<Key>)
    requires StoredOrLost(st, lost) && lost <= more
    ensures StoredOrLost(st, more)
  {
  }

  /** A step keeps every prompt backed by its own row exactly when it is not rolled back after its
      prompt went out. */
  lemma StepKeepsPromptsExactlyWhen(cfg: Config, st: State, t: Time, s: Step)
    requires cfg.Valid() && Inv(cfg, st, t) && t <= s.now && PromptsOk(st)
    ensures PromptsOk(Apply(cfg, st, s)) <==> !RolledBack(cfg, st, s)
  {
    var st' := Apply(cfg, st, s);
    StepEvolves(cfg, st, t, s);
    if Prompts(cfg, st, s) {
      var key := PromptedKey(cfg, st, s);
      PromptAppends(cfg, st, s);
      PromptKeepsStored(cfg, st, s, {});
      LoseMore(st', MoreLost(cfg, st, s, {}), {key});
      PromptedOk(st, st', key);
    } else {
      PromptsUntouched(cfg, st, s);
      EvolvingKeepsStored(st, st', {});
    }
  }

  /** At every point of the run. */
  ghost predicate PromptsOkThroughout(cfg: Config, st: State, steps: seq<Step>)
    decreases |steps|
  {
    PromptsOk(st) && (steps == [] || PromptsOkThroughout(cfg, Apply(cfg, st, steps[0]), steps[1..]))
  }

  /** Over runs: every prompt is backed by its own row at every point exactly when no step is rolled
      back. */
  lemma {:induction false} PromptsBackedExactlyWhen(cfg: Config, st: State, t: Time, steps: seq<Step>)
    requires cfg.Valid() && Inv(cfg, st, t) && Ordered(t, steps) && PromptsOk(st)
    ensures PromptsOkThroughout(cfg, st, steps) <==> NoneRolledBack(cfg, st, steps)
    decreases |steps|
  {
    if steps != [] {
      StepKeepsPromptsExactlyWhen(cfg, st, t, steps[0]);
      StepKeepsInv(cfg, st, t, steps[0]);
      if PromptsOk(Apply(cfg, st, steps[0])) {
        PromptsBackedExactlyWhen(cfg, Apply(cfg, st, steps[0]), steps[0].now, steps[1..]);
      }
    }
  }

  /** Some step prompts for a key whose earlier prompt lost its row; lost holds those keys so far. */
  predicate RetriesRolledBack(cfg: Config, st: State, steps: seq<Step>, lost: set<Key>)
    decreases |steps|
  {
    steps != [] &&
    var s, next := steps[0], Apply(cfg, st, steps[0]);
    if !Prompts(cfg, st, s) then RetriesRolledBack(cfg, next, steps[1..], lost)
    else
      PromptedKey(cfg, st, s) in lost || RetriesRolledBack(cfg, next, steps[1..], MoreLost(cfg, st, s, lost))
  }

  lemma PrefixKeepsTwice(prompts: seq<Key>, more: seq<Key>)
    requires prompts <= more && !NoKeyTwice(prompts)
    ensures !NoKeyTwice(more)
  {
    var p, q :| 0 <= p < q < |prompts| && prompts[p] == prompts[q];
    assert more[p] == more[q];
  }

  ghost predicate Books(st: State, lost: set<Key>) {
    NoKeyTwice(st.prompts) && StoredOrLost(st, lost) && forall key :: key in lost ==> key in st.prompts
  }

  lemma QuietStepBooks(cfg: Config, st: State, s: Step, lost: set<Key>)
    requires Books(st, lost) && !Prompts(cfg, st, s) && StateEvolves(st, Apply(cfg, st, s))
    ensures Books(Apply(cfg, st, s), lost)
  {
    PromptsUntouched(cfg, st, s);
    EvolvingKeepsStored(st, Apply(cfg, st, s), lost);
  }

  lemma PromptStepBooks(cfg: Config, st: State, s: Step, lost: set<Key>)
    requires Books(st, lost) && Prompts(cfg, st, s) && StateEvolves(st, Apply(cfg, st, s))
    ensures PromptedKey(cfg, st, s) in lost ==> !NoKeyTwice(Apply(cfg, st, s).prompts)
    ensures PromptedKey(cfg, st, s) !in lost ==> Books(Apply(cfg, st, s), MoreLost(cfg, st, s, lost))
  {
    var key := PromptedKey(cfg, st, s);
    PromptAppends(cfg, st, s);
    AppendTwice(st.prompts, key);
    if key !in lost {
      KeyIsNew(st, lost, key);
      PromptKeepsStored(cfg, st, s, lost);
    }
  }

  lemma {:induction false} TwiceExactlyWhen(cfg: Config, st: State, t: Time, steps: seq<Step>, lost: set<Key>)
    requires cfg.Valid() && Inv(cfg, st, t) && Ordered(t, steps) && Books(st, lost)
    ensures NoKeyTwice(Run(cfg, st, steps).prompts) <==> !RetriesRolledBack(cfg, st, steps, lost)
    decreases |steps|
  {
    if steps != [] {
      var s, next := steps[0], Apply(cfg, st, steps[0]);
      StepEvolves(cfg, st, t, s);
      StepKeepsInv(cfg, st, t, s);
      if !Prompts(cfg, st, s) {
        QuietStepBooks(cfg, st, s, lost);
        TwiceExactlyWhen(cfg, next, s.now, steps[1..], lost);
      } else {
        PromptStepBooks(cfg, st, s, lost);
        if PromptedKey(cfg, st, s) in lost {
          HistoryNeverRewritten(cfg, next, s.now, steps[1..]);
          PrefixKeepsTwice(next.prompts, Run(cfg, next, steps[1..]).prompts);
        } else {
          TwiceExactlyWhen(cfg, next, s.now, steps[1..], MoreLost(cfg, st, s, lost));
        }
      }
    }
  }

  /** Exactly when a customer is prompted twice for one key: in a run from empty tables it happens if
      and only if a call whose commit was refused for a repeated reference is followed by another
      call that gets as far as prompting for the same key. */
  lemma OnePromptPerKeyExactlyWhen(cfg: Config, t: Time, steps: seq<Step>)
    requires cfg.Valid() && Ordered(t, steps)
    ensures NoKeyTwice(Run(cfg, Empty, steps).prompts) <==> !RetriesRolledBack(cfg, Empty, steps, {})
  {
    TwiceExactlyWhen(cfg, Empty, t, steps, {});
  }

  lemma {:induction false} NothingRolledBackNothingRetried(cfg: Config, st: State, steps: seq<Step>)
    requires NoneRolledBack(cfg, st, steps)
    ensures !RetriesRolledBack(cfg, st, steps, {})
    decreases |steps|
  {
    if steps != [] { NothingRolledBackNothingRetried(cfg, Apply(cfg, st, steps[0]), steps[1..]); }
  }

  /** In particular, never when no commit is refused. */
  lemma OnePromptPerKey(cfg: Config, t: Time, steps: seq<Step>)
    requires cfg.Valid() && Ordered(t, steps) && NoneRolledBack(cfg, Empty, steps)
    ensures NoKeyTwice(Run(cfg, Empty, steps).prompts)
  {
    NothingRolledBackNothingRetried(cfg, Empty, steps);
    OnePromptPerKeyExactlyWhen(cfg, t, steps);
  }

  /** It does happen: when the gateway repeats a reference, the commit is refused after the prompt
      went out, and the next call prompts for the same key again. */
  lemma {:induction false} ReusedReferencePromptsAgain(cfg: Config, st: State, id: SubId, now: Time, push: Push)
    requires id in st.accounts && Creates(cfg, id, st.accounts[id], now)
    requires push.Pushed? && push.ref in st.byReference
    ensures var s := InitiateStep(id, now, true, push);
            var st' := Run(cfg, st, [s, s]);
            && RolledBack(cfg, st, s) && RetriesRolledBack(cfg, st, [s, s], {})
            && st'.accounts == st.accounts
            && |st'.prompts| == |st.prompts| + 2
            && st'.prompts[|st.prompts|] == st'.prompts[|st.prompts| + 1]
  {
    var s := InitiateStep(id, now, true, push);
    assert [s, s][1..] == [s];
    assert Run(cfg, st, [s, s]) == Run(cfg, Apply(cfg, st, s), [s]);
    assert Run(cfg, Apply(cfg, st, s), [s]) == Apply(cfg, Apply(cfg, st, s), s);
  }

  // -------------------------------------------------------- a renewal that is stuck

  /** Trial, first payment, and a renewal whose push fails, each when it is due. */
  function StuckRenewal(cfg: Config, id: SubId, ref: Ref): seq<Step> {
    var first := if Days(cfg.trialDays) > 0 then Days(cfg.trialDays) else 0;
    [TrialStep(id, 0),
     InitiateStep(id, first, true, Pushed(ref, PaidNow)),
     InitiateStep(id, first + Days(cfg.periodDays), true, PushError)]
  }

  lemma FirstPayment(cfg: Config, id: SubId, ref: Ref, first: Time)
    requires cfg.Valid() && first == if Days(cfg.trialDays) > 0 then Days(cfg.trialDays) else 0
    ensures var b := Initiate(cfg, id, TrialAccount(cfg, 0), first, true, Pushed(ref, PaidNow));
            var renewal := first + Days(cfg.periodDays);
            && |b.charges| == 1 && b.sub.status.Active? && b.sub.periodEnd == Some(renewal)
            && Keys.Promised(b.sub) == renewal && Creates(cfg, id, b, renewal)
  {
    var a, renewal := TrialAccount(cfg, 0), first + Days(cfg.periodDays);
    var b := Initiate(cfg, id, a, first, true, Pushed(ref, PaidNow));
    assert PeriodStart(cfg, a.sub, first) == first;
    assert b.charges[0].key.day == DayOf(first) && b.charges[0].Terminal();
    Keys.RenewalStart(cfg, b.sub, renewal);
    DayOfAfterPeriod(cfg, first, renewal);
  }

  /** Such a renewal happens: the run reaches it under any settings, and from then on no call makes
      a charge until a full period has passed. */
  lemma RenewalGetsStuck(cfg: Config, id: SubId, ref: Ref, later: Time)
    requires cfg.Valid()
    ensures var steps := StuckRenewal(cfg, id, ref);
            var st := Run(cfg, Empty, steps);
            && Ordered(0, steps) && id in st.accounts
            && st.accounts[id].sub.status.Active? && |st.accounts[id].charges| == 2
            && (later >= steps[2].now ==>
                  (Creates(cfg, id, st.accounts[id], later) <==> later > steps[2].now + Days(cfg.periodDays)))
  {
    var steps := StuckRenewal(cfg, id, ref);
    var first, renewal := steps[1].now, steps[2].now;
    RunThree(cfg, Empty, steps[0], steps[1], steps[2]);
    RunTwo(cfg, Empty, steps[0], steps[1]);
    FirstPayment(cfg, id, ref, first);
    var b := Initiate(cfg, id, TrialAccount(cfg, 0), first, true, Pushed(ref, PaidNow));
    var st2 := Apply(cfg, Apply(cfg, Empty, steps[0]), steps[1]);
    assert !HasOpen(TrialAccount(cfg, 0).charges) && st2.accounts == map[id := b];
    var call := Keys.Call(renewal, true, PushError);
    Keys.UncountedFailureLeaves(cfg, id, b, call);
    assert Apply(cfg, st2, steps[2]).accounts[id] == Keys.After(cfg, id, b, call);
    if later >= renewal {
      ReachableInv(cfg, 0, [steps[0], steps[1]]);
      TimePasses(cfg, id, b, first, renewal);
      Keys.RenewalBlockedForAPeriod(cfg, id, b, call, later);
    }
  }

  lemma RunOne(cfg: Config, st: State, s: Step)
    ensures Run(cfg, st, [s]) == Apply(cfg, st, s)
  {
    assert [s][1..] == [];
  }

  lemma RunTwo(cfg: Config, st: State, r: Step, s: Step)
    ensures Run(cfg, st, [r, s]) == Apply(cfg, Apply(cfg, st, r), s)
    ensures Ordered(r.now, [r, s]) <==> r.now <= s.now
  {
    assert [r, s][1..] == [s] && [s][1..] == [];
    RunOne(cfg, Apply(cfg, st, r), s);
    assert Ordered(s.now, []);
    assert Ordered(r.now, [s]) <==> r.now <= s.now;
  }

  lemma RunThree(cfg: Config, st: State, r: Step, s: Step, t: Step)
    ensures Run(cfg, st, [r, s, t]) == Apply(cfg, Apply(cfg, Apply(cfg, st, r), s), t)
    ensures Ordered(r.now, [r, s, t]) <==> r.now <= s.now <= t.now
  {
    assert [r, s, t][1..] == [s, t] && [s, t][1..] == [t];
    RunTwo(cfg, Apply(cfg, st, r), s, t);
    RunTwo(cfg, st, s, t);
    assert Ordered(r.now, [s, t]) <==> r.now <= s.now && Ordered(s.now, [t]);
  }
}
