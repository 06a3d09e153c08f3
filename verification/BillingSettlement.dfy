/** Settlement: webhooks, polls and stale-charge sweeps racing over the same charges. */
module BillingSettlement {
  import opened Options
  import opened BillingModel
  import opened BillingInvariant
  import opened BillingEngine

  // ------------------------------------------------------------ replayed webhooks

  /** Keep the first recognised webhook of each reference and every step that is not a webhook. */
  function DropReplays(steps: seq<Step>, seen: set<Ref>): seq<Step>
    decreases |steps|
  {
    if steps == [] then []
    else if steps[0].WebhookStep? then
      var e := steps[0].event;
      if !Recognised(e) || e.ref.value in seen then DropReplays(steps[1..], seen)
      else [steps[0]] + DropReplays(steps[1..], seen + {e.ref.value})
    else [steps[0]] + DropReplays(steps[1..], seen)
  }

  ghost predicate WebhooksNew(steps: seq<Step>, seen: set<Ref>) {
    forall i :: 0 <= i < |steps| && steps[i].WebhookStep? ==>
      Recognised(steps[i].event) && steps[i].event.ref.value !in seen
  }

  ghost predicate WebhooksDistinct(steps: seq<Step>) {
    forall i, j :: 0 <= i < j < |steps| && steps[i].WebhookStep? && steps[j].WebhookStep? ==>
      steps[i].event.ref != steps[j].event.ref
  }

  /** What is kept holds at most one webhook per reference, and none already seen. */
  lemma {:induction false} KeptWebhooksAreFirst(steps: seq<Step>, seen: set<Ref>)
    ensures WebhooksNew(DropReplays(steps, seen), seen) && WebhooksDistinct(DropReplays(steps, seen))
    decreases |steps|
  {
    if steps != [] {
      var s := steps[0];
      if s.WebhookStep? && Recognised(s.event) && s.event.ref.value !in seen {
        var more := seen + {s.event.ref.value};
        KeptWebhooksAreFirst(steps[1..], more);
        var rest := DropReplays(steps[1..], more);
        assert DropReplays(steps, seen) == [s] + rest;
        assert WebhooksNew(rest, more);
        forall i | 0 <= i < |rest| && rest[i].WebhookStep?
          ensures Recognised(rest[i].event) && rest[i].event.ref.value !in more {}
      } else {
        KeptWebhooksAreFirst(steps[1..], seen);
        var rest := DropReplays(steps[1..], seen);
        if s.WebhookStep? {
          assert DropReplays(steps, seen) == rest;
        } else {
          assert DropReplays(steps, seen) == [s] + rest;
          assert WebhooksNew(rest, seen) && WebhooksDistinct(rest);
        }
      }
    }
  }

  lemma WebhookIsNoted(cfg: Config, st: State, e: Event, now: Time)
    ensures st.ledger <= ProcessWebhook(cfg, st, e, now).ledger
    ensures Recognised(e) ==> e.ref.value in ProcessWebhook(cfg, st, e, now).ledger
    ensures !Recognised(e) || e.ref.value in st.ledger ==> ProcessWebhook(cfg, st, e, now) == st
  {
  }

  lemma OtherStepsKeepLedger(cfg: Config, st: State, s: Step)
    requires !s.WebhookStep?
    ensures Apply(cfg, st, s).ledger == st.ledger
  {
  }

  /** Replaying webhooks changes nothing: a run with all its deliveries ends in the very state of
      the run that keeps only the first recognised delivery per reference, whatever charges,
      polls and sweeps come between. */
  lemma {:induction false} ReplaysChangeNothing(cfg: Config, st: State, steps: seq<Step>, seen: set<Ref>)
    requires seen <= st.ledger
    ensures Run(cfg, st, steps) == Run(cfg, st, DropReplays(steps, seen))
    decreases |steps|
  {
    if steps != [] {
      var s, next := steps[0], Apply(cfg, st, steps[0]);
      if s.WebhookStep? {
        WebhookIsNoted(cfg, st, s.event, s.now);
        if !Recognised(s.event) || s.event.ref.value in seen {
          ReplaysChangeNothing(cfg, st, steps[1..], seen);
        } else {
          ReplaysChangeNothing(cfg, next, steps[1..], seen + {s.event.ref.value});
          FirstStep(cfg, st, s, DropReplays(steps[1..], seen + {s.event.ref.value}));
        }
      } else {
        OtherStepsKeepLedger(cfg, st, s);
        ReplaysChangeNothing(cfg, next, steps[1..], seen);
        FirstStep(cfg, st, s, DropReplays(steps[1..], seen));
      }
    }
  }

  lemma FirstStep(cfg: Config, st: State, s: Step, rest: seq<Step>)
    ensures Run(cfg, st, [s] + rest) == Run(cfg, Apply(cfg, st, s), rest)
  {
    assert ([s] + rest)[1..] == rest;
  }

  // ------------------------------------------------------- one verdict per charge

  /** The gateway's final word on each reference: paid or not. */
  type Verdict = Ref -> bool

  predicate AnswersTruly(verdict: Verdict, ref: Ref, answer: Answer) {
    answer.Answered? ==>
      (answer.status.SaysSuccess? ==> verdict(ref)) && (Refused(answer.status) ==> !verdict(ref))
  }

  /** What an event says agrees with the verdict; a stale charge's answer has a status in it and
      the gateway is configured. */
  predicate Truthful(cfg: Config, verdict: Verdict, st: State, s: Step) {
    match s
    case TrialStep(_, _) => true
    case InitiateStep(_, _, _, push) =>
      push.Pushed? ==> (push.state.PaidNow? ==> verdict(push.ref)) && (push.state.DeclinedNow? ==> !verdict(push.ref))
    case WebhookStep(e, _) => Recognised(e) ==> (e.kind.ChargeSucceeded? <==> verdict(e.ref.value))
    case PollStep(row, _, answer) =>
      HasRow(st, row) && RowAt(st, row).ref.Some? ==> AnswersTruly(verdict, RowAt(st, row).ref.value, answer)
    case ExpireStep(row, _, _, answer) =>
      HasRow(st, row) && RowAt(st, row).ref.Some? ==>
        && cfg.configured && answer != Answered(SaysNothing)
        && AnswersTruly(verdict, RowAt(st, row).ref.value, answer)
  }

  predicate TruthfulRun(cfg: Config, verdict: Verdict, st: State, steps: seq<Step>)
    decreases |steps|
  {
    steps == [] ||
    (Truthful(cfg, verdict, st, steps[0]) && TruthfulRun(cfg, verdict, Apply(cfg, st, steps[0]), steps[1..]))
  }

  /** No paid charge is FAILED, no unpaid one is SUCCESS. */
  predicate RowAgrees(verdict: Verdict, c: Charge) {
    c.ref.Some? ==> (c.status.Success? ==> verdict(c.ref.value)) && (c.status.Failed? ==> !verdict(c.ref.value))
  }

  ghost predicate Agrees(verdict: Verdict, st: State) {
    forall row :: HasRow(st, row) ==> RowAgrees(verdict, RowAt(st, row))
  }

  lemma SettleRowAgrees(cfg: Config, verdict: Verdict, st: State, row: RowId, paid: bool, now: Time)
    requires Agrees(verdict, st) && HasRow(st, row)
    requires RowAt(st, row).ref.Some? ==> (paid <==> verdict(RowAt(st, row).ref.value))
    ensures Agrees(verdict, SettleRow(cfg, st, row, paid, now))
  {
    var st' := SettleRow(cfg, st, row, paid, now);
    forall r | HasRow(st', r) ensures RowAgrees(verdict, RowAt(st', r)) {
      assert HasRow(st, r) && (r != row ==> RowAt(st', r) == RowAt(st, r));
    }
  }

  lemma InitiateAgrees(cfg: Config, verdict: Verdict, st: State, s: Step)
    requires Agrees(verdict, st) && s.InitiateStep? && Truthful(cfg, verdict, st, s)
    ensures Agrees(verdict, Apply(cfg, st, s))
  {
    var st' := Apply(cfg, st, s);
    forall r | HasRow(st', r) ensures RowAgrees(verdict, RowAt(st', r)) {
      if r.sub == s.id && st'.accounts != st.accounts {
        var a := st.accounts[s.id];
        InitiateRows(cfg, s.id, a, s.now, s.hasOwner, s.push);
        if r.index < |a.charges| {
          assert st'.accounts[s.id].charges[..|a.charges|][r.index] == a.charges[r.index];
          assert RowAgrees(verdict, RowAt(st, r));
        }
      } else {
        assert RowAt(st', r) == RowAt(st, r);
      }
    }
  }

  lemma WebhookAgrees(cfg: Config, verdict: Verdict, st: State, e: Event, now: Time)
    requires IndexCoherent(st) && Agrees(verdict, st)
    requires Recognised(e) ==> (e.kind.ChargeSucceeded? <==> verdict(e.ref.value))
    ensures Agrees(verdict, ProcessWebhook(cfg, st, e, now))
  {
    if Recognised(e) && e.ref.value !in st.ledger {
      var noted := st.(ledger := st.ledger + {e.ref.value});
      assert forall r :: HasRow(noted, r) ==> HasRow(st, r) && RowAt(noted, r) == RowAt(st, r);
      if Matches(st, e.ref.value) {
        SettleRowAgrees(cfg, verdict, noted, st.byReference[e.ref.value], e.kind.ChargeSucceeded?, now);
      }
    }
  }

  lemma PollAgrees(cfg: Config, verdict: Verdict, st: State, s: Step)
    requires Agrees(verdict, st) && s.PollStep? && Truthful(cfg, verdict, st, s)
    ensures Agrees(verdict, Apply(cfg, st, s))
  {
    if Apply(cfg, st, s) != st {
      SettleRowAgrees(cfg, verdict, st, s.row, s.answer.status.SaysSuccess?, s.now);
    }
  }

  lemma ExpireAgrees(cfg: Config, verdict: Verdict, st: State, s: Step)
    requires Agrees(verdict, st) && s.ExpireStep? && Truthful(cfg, verdict, st, s)
    ensures Agrees(verdict, Apply(cfg, st, s))
  {
    if Apply(cfg, st, s) != st {
      var paid := RowAt(st, s.row).ref.Some? && s.answer.status.SaysSuccess?;
      assert Apply(cfg, st, s) == SettleRow(cfg, st, s.row, paid, s.now);
      SettleRowAgrees(cfg, verdict, st, s.row, paid, s.now);
    }
  }

  lemma StepAgrees(cfg: Config, verdict: Verdict, st: State, s: Step)
    requires IndexCoherent(st) && Agrees(verdict, st) && Truthful(cfg, verdict, st, s)
    ensures Agrees(verdict, Apply(cfg, st, s))
  {
    match s
    case TrialStep(id, now) =>
      var st' := Apply(cfg, st, s);
      assert forall r :: HasRow(st', r) ==> HasRow(st, r) && RowAt(st', r) == RowAt(st, r);
    case InitiateStep(_, _, _, _) => InitiateAgrees(cfg, verdict, st, s);
    case WebhookStep(e, now) => WebhookAgrees(cfg, verdict, st, e, now);
    case PollStep(_, _, _) => PollAgrees(cfg, verdict, st, s);
    case ExpireStep(_, _, _, _) => ExpireAgrees(cfg, verdict, st, s);
  }

  /** In every run of truthful events, local state agrees with the gateway: SUCCESS means paid,
      and a charge the customer paid is never FAILED. */
  lemma {:induction false} GatewayAndRowsAgree(cfg: Config, verdict: Verdict, st: State, t: Time, steps: seq<Step>)
    requires cfg.Valid() && Inv(cfg, st, t) && Ordered(t, steps)
    requires Agrees(verdict, st) && TruthfulRun(cfg, verdict, st, steps)
    ensures Agrees(verdict, Run(cfg, st, steps))
    decreases |steps|
  {
    if steps != [] {
      StepAgrees(cfg, verdict, st, steps[0]);
      StepKeepsInv(cfg, st, t, steps[0]);
      GatewayAndRowsAgree(cfg, verdict, Apply(cfg, st, steps[0]), steps[0].now, steps[1..]);
    }
  }

  /** Where the hypothesis on stale charges matters: of all true answers about a charge the
      customer has paid, the sweep fails it exactly when the gateway is not configured or answers
      without a status. A poll never does. */
  lemma PaidChargeFailedOnlyByBlankAnswer(cfg: Config, st: State, row: RowId, asOf: Time, now: Time, answer: Answer)
    requires HasRow(st, row) && RowAt(st, row).ref.Some? && Stale(cfg, RowAt(st, row), asOf)
    requires answer.Answered? ==> !Refused(answer.status)
    ensures RowAt(Expire(cfg, st, row, asOf, now, answer), row).status.Failed? <==>
            (!cfg.configured || answer == Answered(SaysNothing))
    ensures !RowAt(Poll(cfg, st, row, now, answer), row).status.Failed?
  {
  }
}
