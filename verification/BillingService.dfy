/** The engine over mutable row objects. Each method is proved to do to the stored rows what the step
    of the same name does. */
module BillingService {
  import opened Options
  import opened BillingModel
  import Engine = BillingEngine
  import Sweeps = BillingSweep

  class BillingCharge {
    const amountCents: int
    const periodStart: Time
    const periodEnd: Time
    const key: Key
    const requestedAt: Time
    var status: ChargeStatus
    var ref: Option<Ref>
    var finalizedAt: Option<Time>

    function View(): Charge
      reads this
    {
      Charge(status, amountCents, periodStart, periodEnd, key, ref, requestedAt, finalizedAt)
    }

    constructor (amountCents: int, periodStart: Time, periodEnd: Time, key: Key, now: Time)
      ensures View() == Charge(Pending, amountCents, periodStart, periodEnd, key, None, now, None)
    {
      this.amountCents, this.periodStart, this.periodEnd, this.key := amountCents, periodStart, periodEnd, key;
      requestedAt, status, ref, finalizedAt := now, Pending, None, None;
    }

    method MarkSuccess(now: Time)
      modifies this
      ensures View() == BillingModel.MarkSuccess(old(View()), now)
    {
      status := Success;
      finalizedAt := Some(now);
    }

    method MarkFailed(now: Time)
      modifies this
      ensures View() == BillingModel.MarkFailed(old(View()), now)
    {
      status := Failed;
      finalizedAt := Some(now);
    }
  }

  /** The open charge that was requested last. */
  predicate LatestOpen(charges: seq<Charge>, i: nat) {
    && i < |charges| && charges[i].Open()
    && forall j :: 0 <= j < |charges| && charges[j].Open() ==> charges[j].requestedAt <= charges[i].requestedAt
  }

  class Subscription {
    const id: SubId
    var status: SubStatus
    var priceCents: int
    var trialEndsAt: Option<Time>
    var periodStart: Option<Time>
    var periodEnd: Option<Time>
    var failedAttempts: nat
    var nextRetryAt: Option<Time>
    var restaurantActive: bool
    var charges: seq<BillingCharge>
    ghost var rows: seq<Charge>

    function Row(): Sub
      reads this
    {
      Sub(status, priceCents, trialEndsAt, periodStart, periodEnd, failedAttempts, nextRetryAt, restaurantActive)
    }

    /** The account these objects stand for. */
    ghost function View(): Account
      reads this
    {
      Account(Row(), rows)
    }

    /** rows holds the values of the charges, which are this subscription's and distinct. */
    ghost predicate Valid()
      reads this, charges
    {
      && |rows| == |charges|
      && (forall i, j :: 0 <= i < j < |charges| ==> charges[i] != charges[j])
      && (forall i :: 0 <= i < |charges| ==> charges[i].key.sub == id && rows[i] == charges[i].View())
    }

    constructor Trial(id: SubId, cfg: Config, now: Time)
      ensures this.id == id && Valid() && charges == [] && View() == TrialAccount(cfg, now)
    {
      this.id := id;
      status, priceCents, trialEndsAt := Trialing, cfg.priceCents, Some(now + Days(cfg.trialDays));
      periodStart, periodEnd, failedAttempts, nextRetryAt, restaurantActive := None, None, 0, None, true;
      charges, rows := [], [];
    }

    /** The most recently requested open charge. */
    method OpenCharge() returns (open: Option<nat>)
      requires Valid()
      ensures open.None? <==> !HasOpen(View().charges)
      ensures open.Some? ==> LatestOpen(View().charges, open.value)
    {
      open := None;
      for k := 0 to |charges|
        invariant open.None? ==> forall j :: 0 <= j < k ==> !charges[j].View().Open()
        invariant open.Some? ==> open.value < k && charges[open.value].View().Open()
        invariant open.Some? ==> forall j :: 0 <= j < k && charges[j].View().Open() ==>
                    charges[j].requestedAt <= charges[open.value].requestedAt
      {
        if charges[k].status.Pending? || charges[k].status.Processing? {
          if open.None? || charges[open.value].requestedAt < charges[k].requestedAt {
            open := Some(k);
          }
        }
      }
      assert open.Some? ==> rows[open.value].Open();
      assert forall j :: 0 <= j < |rows| ==> rows[j] == charges[j].View();
    }

    /** The charge holding the key. */
    method FindKey(key: Key) returns (found: Option<nat>)
      requires Valid()
      ensures found.None? <==> !HasKey(View().charges, key)
      ensures found.Some? ==> found.value < |charges| && charges[found.value].key == key
    {
      for k := 0 to |charges|
        invariant forall j :: 0 <= j < k ==> charges[j].key != key
      {
        if charges[k].key == key {
          assert rows[k].key == key;
          return Some(k);
        }
      }
      found := None;
    }

    method ApplySuccessfulPayment(charge: BillingCharge)
      modifies this`status, this`periodStart, this`periodEnd, this`failedAttempts, this`nextRetryAt, this`restaurantActive
      ensures Row() == ApplySuccess(old(Row()), charge.View())
    {
      status := Active;
      periodStart := Some(charge.periodStart);
      periodEnd := Some(charge.periodEnd);
      failedAttempts := 0;
      nextRetryAt := None;
      restaurantActive := true;
    }

    method ApplyFailedPayment(cfg: Config, now: Time)
      modifies this`status, this`failedAttempts, this`nextRetryAt, this`restaurantActive
      ensures Row() == ApplyFailure(cfg, old(Row()), now)
    {
      failedAttempts := failedAttempts + 1;
      if failedAttempts >= |cfg.retryHours| {
        status := Suspended;
        nextRetryAt := None;
        restaurantActive := false;
      } else {
        status := PastDue;
        nextRetryAt := Some(now + Hours(cfg.retryHours[failedAttempts]));
      }
    }

    /** Mark the charge and let the subscription follow. */
    method SettleCharge(cfg: Config, i: nat, paid: bool, now: Time)
      requires Valid() && i < |charges|
      modifies this, charges[i]
      ensures Valid() && charges == old(charges)
      ensures View() == Settle(cfg, old(View()), i, paid, now)
    {
      var charge := charges[i];
      if paid {
        charge.MarkSuccess(now);
        ApplySuccessfulPayment(charge);
      } else {
        charge.MarkFailed(now);
        ApplyFailedPayment(cfg, now);
      }
      rows := rows[i := charge.View()];
    }

    /** From the insert on: the new row, the gateway's answer, and what follows from it. */
    method InsertCharge(cfg: Config, start: Time, key: Key, now: Time, hasOwner: bool, push: Push)
      returns (charge: BillingCharge)
      requires Valid() && Creates(cfg, id, View(), now)
      requires start == PeriodStart(cfg, Row(), now) && key == NextKey(cfg, id, View(), now)
      modifies this
      ensures Valid() && fresh(charge) && charges == old(charges) + [charge]
      ensures View() == Initiate(cfg, id, old(View()), now, hasOwner, push)
    {
      priceCents := cfg.priceCents;
      charge := new BillingCharge(priceCents, start, start + Days(cfg.periodDays), key, now);
      charges := charges + [charge];
      if !hasOwner || push.PushError? {
        charge.MarkFailed(now);
      } else {
        charge.ref := Some(push.ref);
        if push.state.PaidNow? {
          charge.MarkSuccess(now);
          ApplySuccessfulPayment(charge);
        } else if push.state.DeclinedNow? {
          charge.MarkFailed(now);
          ApplyFailedPayment(cfg, now);
        } else {
          charge.status := Processing;
        }
      }
      rows := rows + [charge.View()];
    }
  }

  /** What `initiate_charge` commits when its reference is not refused. */
  lemma CommittedIs(cfg: Config, st: Engine.State, id: SubId, now: Time, hasOwner: bool, push: Push)
    requires id in st.accounts && Creates(cfg, id, st.accounts[id], now)
    requires !(hasOwner && push.Pushed? && push.ref in st.byReference)
    ensures Engine.InitiateCharge(cfg, st, id, now, hasOwner, push) ==
            Engine.State(
              st.accounts[id := Initiate(cfg, id, st.accounts[id], now, hasOwner, push)],
              if hasOwner && push.Pushed? then st.byReference[push.ref := Engine.RowId(id, |st.accounts[id].charges|)] else st.byReference,
              st.ledger,
              if hasOwner then st.prompts + [NextKey(cfg, id, st.accounts[id], now)] else st.prompts)
  {
  }

  /** The billing tables. Repr holds every row object. */
  class Billing {
    const cfg: Config
    var subs: map<SubId, Subscription>
    var byReference: map<Ref, Engine.RowId>
    var ledger: set<Ref>
    var prompts: seq<Key>
    ghost var accounts: map<SubId, Account>
    ghost var Repr: set<object>

    /** accounts holds the values of the subscriptions. Every row knows its subscription, so no
        object is stored twice. */
    ghost predicate Valid()
      reads this, Repr
      ensures Valid() ==> this in Repr
    {
      && this in Repr
      && accounts.Keys == subs.Keys
      && (forall id :: id in subs ==> subs[id] in Repr && SubOk(id))
    }

    ghost predicate SubOk(id: SubId)
      requires id in subs && subs[id] in Repr
      reads this, Repr
    {
      var sub := subs[id];
      && sub.id == id
      && (forall c :: c in sub.charges ==> c in Repr)
      && sub.Valid()
      && id in accounts && accounts[id] == sub.View()
    }

    /** The database these objects stand for. */
    ghost function Db(): Engine.State
      reads this
    {
      Engine.State(accounts, byReference, ledger, prompts)
    }

    predicate HasRowAt(row: Engine.RowId)
      requires Valid()
      reads this, Repr
      ensures HasRowAt(row) == Engine.HasRow(Db(), row)
    {
      assert row.sub in subs ==> SubOk(row.sub);
      row.sub in subs && row.index < |subs[row.sub].charges|
    }

    constructor (cfg: Config)
      ensures Valid() && fresh(Repr) && this.cfg == cfg && Db() == Engine.Empty
    {
      this.cfg := cfg;
      subs, accounts, byReference, ledger, prompts := map[], map[], map[], {}, [];
      Repr := {this};
    }

    method StartTrial(id: SubId, now: Time)
      requires Valid()
      modifies Repr
      ensures Valid() && fresh(Repr - old(Repr))
      ensures Db() == Engine.StartTrial(cfg, old(Db()), id, now)
    {
      if id !in subs {
        var sub := new Subscription.Trial(id, cfg, now);
        subs := subs[id := sub];
        accounts := accounts[id := sub.View()];
        Repr := Repr + {sub};
        forall jd | jd in subs ensures subs[jd] in Repr && SubOk(jd) {
          if jd != id { assert old(SubOk(jd)); }
        }
      }
    }

    /** Subscriptions other than id keep their values when no object but id's own rows changes. */
    twostate lemma OthersUntouched(id: SubId)
      requires old(Valid()) && id in old(subs) && subs == old(subs) && old(Repr) <= Repr
      requires accounts.Keys == subs.Keys && forall jd :: jd in subs && jd != id ==> accounts[jd] == old(accounts)[jd]
      requires forall o: object :: o in old(Repr) && o != this && o != old(subs[id]) && o !in old(subs[id].charges) ==> unchanged(o)
      ensures forall jd :: jd in subs && jd != id ==> SubOk(jd)
    {
      assert old(SubOk(id));
      forall jd | jd in subs && jd != id ensures SubOk(jd) {
        assert old(SubOk(jd));
        var sub := subs[jd];
        assert unchanged(sub);
        forall k | 0 <= k < |sub.charges| ensures sub.charges[k] in Repr && sub.rows[k] == sub.charges[k].View() {
          assert sub.charges[k].key.sub == jd && sub.charges[k] !in old(subs[id].charges);
          assert unchanged(sub.charges[k]);
        }
      }
    }

    /** Bookkeeping for a changed subscription. */
    ghost method Reread(id: SubId)
      requires this in Repr && accounts.Keys == subs.Keys && id in subs
      requires forall jd :: jd in subs ==> subs[jd] in Repr
      requires forall jd :: jd in subs && jd != id ==> SubOk(jd)
      requires subs[id].id == id && subs[id].Valid() && forall c :: c in subs[id].charges ==> c in Repr
      modifies this`accounts
      ensures Valid() && accounts == old(accounts)[id := subs[id].View()]
    {
      accounts := accounts[id := subs[id].View()];
      forall jd | jd in subs && jd != id ensures SubOk(jd) { assert old(SubOk(jd)); }
    }

    /** Settles one row in place; every other row keeps its value. */
    method SettleRow(row: Engine.RowId, paid: bool, now: Time)
      requires Valid() && HasRowAt(row)
      modifies Repr
      ensures Valid() && Repr == old(Repr)
      ensures Db() == Engine.SettleRow(cfg, old(Db()), row, paid, now)
    {
      var sub := subs[row.sub];
      assert SubOk(row.sub);
      sub.SettleCharge(cfg, row.index, paid, now);
      Reread(row.sub) by { OthersUntouched(row.sub); }
    }

    method NoteCallback(ref: Ref)
      requires Valid()
      modifies this`ledger
      ensures Valid() && Db() == old(Db()).(ledger := old(Db()).ledger + {ref})
    {
      ledger := ledger + {ref};
      forall id | id in subs ensures SubOk(id) { assert old(SubOk(id)); }
    }

    /** `process_webhook`. */
    method ProcessWebhook(e: Engine.Event, now: Time) returns (reply: Engine.Reply)
      requires Valid()
      modifies Repr
      ensures Valid() && Repr == old(Repr)
      ensures Db() == Engine.ProcessWebhook(cfg, old(Db()), e, now)
      ensures reply == Engine.WebhookReply(old(Db()), e)
    {
      if e.ref.None? { return Engine.IgnoredNoReference; }
      if e.kind.OtherEvent? { return Engine.IgnoredEvent; }
      var ref := e.ref.value;
      if ref in ledger { return Engine.DuplicateIgnored; }
      if ref !in byReference || !HasRowAt(byReference[ref]) {
        NoteCallback(ref);
        return Engine.NoMatchingCharge;
      }
      var row := byReference[ref];
      assert SubOk(row.sub);
      var charge := subs[row.sub].charges[row.index];
      if charge.status.Success? || charge.status.Failed? {
        NoteCallback(ref);
        return Engine.AlreadyFinalized;
      }
      SettleRow(row, e.kind.ChargeSucceeded?, now);
      NoteCallback(ref);
      reply := Engine.Applied(e.kind.ChargeSucceeded?);
    }

    /** `verify_charge_now`. */
    method VerifyChargeNow(row: Engine.RowId, now: Time, answer: Engine.Answer)
      requires Valid()
      modifies Repr
      ensures Valid() && Repr == old(Repr)
      ensures Db() == Engine.Poll(cfg, old(Db()), row, now, answer)
    {
      if !HasRowAt(row) { return; }
      assert SubOk(row.sub);
      var charge := subs[row.sub].charges[row.index];
      if charge.status.Success? || charge.status.Failed? { return; }
      if charge.ref.None? || !cfg.configured { return; }
      if answer.Unreachable? { return; }
      if answer.status.SaysSuccess? {
        SettleRow(row, true, now);
      } else if Engine.Refused(answer.status) {
        SettleRow(row, false, now);
      }
    }

    /** The two early returns of `initiate_charge`: an open charge, or one with the next key. */
    method ExistingCharge(id: SubId, now: Time) returns (row: Option<Engine.RowId>, start: Time, key: Key)
      requires Valid() && id in subs
      ensures start == PeriodStart(cfg, Db().accounts[id].sub, now) && key == NextKey(cfg, id, Db().accounts[id], now)
      ensures row.None? <==> Creates(cfg, id, Db().accounts[id], now)
      ensures row.Some? ==> row.value.sub == id && HasRowAt(row.value)
      ensures row.Some? && HasOpen(Db().accounts[id].charges) ==> LatestOpen(Db().accounts[id].charges, row.value.index)
      ensures row.Some? && !HasOpen(Db().accounts[id].charges) ==> Engine.RowAt(Db(), row.value).key == key
    {
      var sub := subs[id];
      assert SubOk(id);
      start := PeriodStart(cfg, sub.Row(), now);
      key := Key(id, DayOf(start), sub.failedAttempts + 1);
      var open := sub.OpenCharge();
      if open.Some? { return Some(Engine.RowId(id, open.value)), start, key; }
      var dup := sub.FindKey(key);
      row := if dup.Some? then Some(Engine.RowId(id, dup.value)) else None;
    }

    /** The insert and what follows it. */
    method InsertRow(id: SubId, start: Time, key: Key, now: Time, hasOwner: bool, push: Push)
      requires Valid() && id in subs && Creates(cfg, id, Db().accounts[id], now)
      requires start == PeriodStart(cfg, Db().accounts[id].sub, now) && key == NextKey(cfg, id, Db().accounts[id], now)
      modifies this`Repr, this`accounts, subs[id]
      ensures Valid() && fresh(Repr - old(Repr))
      ensures accounts == old(accounts)[id := Initiate(cfg, id, old(accounts[id]), now, hasOwner, push)]
    {
      var sub := subs[id];
      assert SubOk(id);
      var charge := sub.InsertCharge(cfg, start, key, now, hasOwner, push);
      Repr := Repr + {charge};
      Reread(id) by { OthersUntouched(id); }
    }

    method IndexReference(ref: Ref, row: Engine.RowId)
      requires Valid()
      modifies this`byReference
      ensures Valid() && Db() == old(Db()).(byReference := old(Db()).byReference[ref := row])
    {
      byReference := byReference[ref := row];
      forall id | id in subs ensures SubOk(id) { assert old(SubOk(id)); }
    }

    method RecordPrompt(key: Key)
      requires Valid()
      modifies this`prompts
      ensures Valid() && Db() == old(Db()).(prompts := old(Db()).prompts + [key])
    {
      prompts := prompts + [key];
      forall id | id in subs ensures SubOk(id) { assert old(SubOk(id)); }
    }

    /** Insert and index. */
    method CommitCharge(id: SubId, start: Time, key: Key, now: Time, hasOwner: bool, push: Push)
      returns (row: Engine.RowId)
      requires Valid() && id in subs && Creates(cfg, id, Db().accounts[id], now)
      requires start == PeriodStart(cfg, Db().accounts[id].sub, now) && key == NextKey(cfg, id, Db().accounts[id], now)
      modifies Repr
      ensures Valid() && fresh(Repr - old(Repr))
      ensures Db() == Engine.State(
                old(accounts)[id := Initiate(cfg, id, old(accounts[id]), now, hasOwner, push)],
                if hasOwner && push.Pushed? then old(byReference)[push.ref := row] else old(byReference),
                old(ledger), old(prompts))
      ensures row == Engine.RowId(id, |old(accounts[id]).charges|) && HasRowAt(row)
    {
      assert SubOk(id);
      row := Engine.RowId(id, |subs[id].charges|);
      Engine.InitiateRows(cfg, id, accounts[id], now, hasOwner, push);
      InsertRow(id, start, key, now, hasOwner, push);
      if hasOwner && push.Pushed? {
        IndexReference(push.ref, row);
      }
    }

    /** Prompt, then commit; a reference already in use rolls the insert back. */
    method CreateCharge(id: SubId, start: Time, key: Key, now: Time, hasOwner: bool, push: Push)
      returns (row: Option<Engine.RowId>)
      requires Valid() && id in subs && Creates(cfg, id, Db().accounts[id], now)
      requires start == PeriodStart(cfg, Db().accounts[id].sub, now) && key == NextKey(cfg, id, Db().accounts[id], now)
      modifies Repr
      ensures Valid() && fresh(Repr - old(Repr))
      ensures Db() == Engine.InitiateCharge(cfg, old(Db()), id, now, hasOwner, push)
      ensures row.Some? ==> row.value == Engine.RowId(id, |old(accounts[id]).charges|) && HasRowAt(row.value)
    {
      if hasOwner {
        RecordPrompt(key);
        if push.Pushed? && push.ref in byReference {
          return None;
        }
      }
      assert Repr == old(Repr);
      CommittedIs(cfg, old(Db()), id, now, hasOwner, push);
      var r := CommitCharge(id, start, key, now, hasOwner, push);
      row := Some(r);
    }

    /** `initiate_charge`; None when there is no such subscription or the commit is refused. */
    method InitiateCharge(id: SubId, now: Time, hasOwner: bool, push: Push) returns (row: Option<Engine.RowId>)
      requires Valid()
      modifies Repr
      ensures Valid() && fresh(Repr - old(Repr))
      ensures Db() == Engine.InitiateCharge(cfg, old(Db()), id, now, hasOwner, push)
      ensures row.Some? ==> row.value.sub == id && HasRowAt(row.value)
    {
      if id !in subs { return None; }
      var start, key;
      row, start, key := ExistingCharge(id, now);
      if row.None? {
        row := CreateCharge(id, start, key, now, hasOwner, push);
      }
    }

    ghost predicate StaleRow(row: Engine.RowId, now: Time)
      reads this
    {
      Engine.HasRow(Db(), row) && Stale(cfg, Engine.RowAt(Db(), row), now)
    }

    /** The stale charges of one subscription. */
    method SelectStaleOf(id: SubId, now: Time) returns (rows: seq<Engine.RowId>)
      requires Valid() && id in subs
      ensures forall row :: row in rows <==> row.sub == id && StaleRow(row, now)
    {
      rows := [];
      assert SubOk(id);
      for k := 0 to |subs[id].charges|
        invariant forall row :: row in rows <==> row.sub == id && row.index < k && StaleRow(row, now)
      {
        if Stale(cfg, subs[id].charges[k].View(), now) {
          rows := rows + [Engine.RowId(id, k)];
        }
      }
    }

    /** The SELECT of stale charges, in some order. */
    method SelectStale(now: Time) returns (rows: seq<Engine.RowId>)
      requires Valid()
      ensures forall row :: row in rows <==> StaleRow(row, now)
    {
      rows := [];
      var left := subs.Keys;
      while left != {}
        invariant left <= subs.Keys && StaleOutside(rows, left, now)
        decreases |left|
      {
        var id :| id in left;
        var more := SelectStaleOf(id, now);
        StaleOneMore(rows, more, left, id, now);
        rows := rows + more;
        left := left - {id};
      }
    }

    /** The stale charges of all subscriptions but those left. */
    ghost predicate StaleOutside(rows: seq<Engine.RowId>, left: set<SubId>, now: Time)
      reads this
    {
      forall row :: row in rows <==> row.sub !in left && StaleRow(row, now)
    }

    lemma StaleOneMore(rows: seq<Engine.RowId>, more: seq<Engine.RowId>, left: set<SubId>, id: SubId, now: Time)
      requires StaleOutside(rows, left, now) && id in left
      requires forall row :: row in more <==> row.sub == id && StaleRow(row, now)
      ensures StaleOutside(rows + more, left - {id}, now)
    {
    }

    /** The SELECT of candidates, in some order. */
    method SelectCandidates() returns (ids: seq<SubId>)
      requires Valid()
      ensures forall id :: id in ids <==> id in Db().accounts && Sweeps.Candidate(Db().accounts[id].sub)
      ensures forall i, j :: 0 <= i < j < |ids| ==> ids[i] != ids[j]
    {
      ids := [];
      var left := subs.Keys;
      while left != {}
        invariant left <= subs.Keys
        invariant forall id :: id in ids <==> id !in left && id in Db().accounts && Sweeps.Candidate(Db().accounts[id].sub)
        invariant forall i, j :: 0 <= i < j < |ids| ==> ids[i] != ids[j]
        decreases |left|
      {
        var id :| id in left;
        assert SubOk(id);
        if Sweeps.Candidate(subs[id].Row()) {
          assert forall i :: 0 <= i < |ids| ==> ids[i] in ids;
          ids := ids + [id];
        }
        left := left - {id};
      }
    }

    /** One turn of the loop over stale charges. */
    method ExpireCharge(row: Engine.RowId, now: Time, verify: Sweeps.Verify, clock: Sweeps.Clock)
      requires Valid()
      modifies Repr
      ensures Valid() && Repr == old(Repr)
      ensures Db() == Engine.Expire(cfg, old(Db()), row, now, clock(row), Sweeps.AnswerFor(old(Db()), row, verify))
    {
      if !HasRowAt(row) { return; }
      assert SubOk(row.sub);
      var charge := subs[row.sub].charges[row.index];
      if !Stale(cfg, charge.View(), now) { return; }
      if charge.ref.Some? && cfg.configured {
        var answer := verify(charge.ref.value);
        if answer.Unreachable? { return; }
        if answer.status.SaysSuccess? {
          SettleRow(row, true, clock(row));
          return;
        }
        if answer.status.SaysOther? { return; }
      }
      SettleRow(row, false, clock(row));
    }

    /** `_expire_stale_charges`. */
    method ExpireStaleCharges(now: Time, verify: Sweeps.Verify, clock: Sweeps.Clock) returns (rows: seq<Engine.RowId>)
      requires Valid()
      modifies Repr
      ensures Valid() && Repr == old(Repr)
      ensures forall row :: row in rows <==> Engine.HasRow(old(Db()), row) && Stale(cfg, Engine.RowAt(old(Db()), row), now)
      ensures Db() == Sweeps.ExpireAll(cfg, old(Db()), rows, now, verify, clock)
    {
      rows := SelectStale(now);
      assert rows[0..] == rows;
      for k := 0 to |rows|
        invariant Valid() && Repr == old(Repr)
        invariant Sweeps.ExpireAll(cfg, Db(), rows[k..], now, verify, clock) == Sweeps.ExpireAll(cfg, old(Db()), rows, now, verify, clock)
      {
        assert rows[k..][0] == rows[k] && rows[k..][1..] == rows[k + 1..];
        ExpireCharge(rows[k], now, verify, clock);
      }
    }

    /** One turn of the loop over candidates. */
    method ChargeIfDue(id: SubId, now: Time, charger: Sweeps.Charger)
      requires Valid()
      modifies Repr
      ensures Valid() && fresh(Repr - old(Repr))
      ensures Db() == Sweeps.ChargeIfDue(cfg, old(Db()), id, now, charger)
    {
      if id in subs {
        assert SubOk(id);
        if SweepDue(subs[id].Row(), now) {
          var _ := InitiateCharge(id, charger(id).at, charger(id).hasOwner, charger(id).push);
        }
      }
    }

    method ChargeCandidates(ids: seq<SubId>, now: Time, charger: Sweeps.Charger)
      requires Valid()
      modifies Repr
      ensures Valid() && fresh(Repr - old(Repr))
      ensures Db() == Sweeps.ChargeDue(cfg, old(Db()), ids, now, charger)
    {
      assert ids[0..] == ids;
      for k := 0 to |ids|
        invariant Valid() && fresh(Repr - old(Repr))
        invariant Sweeps.ChargeDue(cfg, Db(), ids[k..], now, charger) == Sweeps.ChargeDue(cfg, old(Db()), ids, now, charger)
      {
        assert ids[k..][0] == ids[k] && ids[k..][1..] == ids[k + 1..];
        ChargeIfDue(ids[k], now, charger);
      }
    }

    /** `run_billing_sweep`. What the two SELECTs returned is handed back. */
    method RunBillingSweep(now: Time, verify: Sweeps.Verify, clock: Sweeps.Clock, charger: Sweeps.Charger)
      returns (rows: seq<Engine.RowId>, ids: seq<SubId>)
      requires Valid()
      modifies Repr
      ensures Valid() && fresh(Repr - old(Repr))
      ensures forall row :: row in rows <==> Engine.HasRow(old(Db()), row) && Stale(cfg, Engine.RowAt(old(Db()), row), now)
      ensures var mid := Sweeps.ExpireAll(cfg, old(Db()), rows, now, verify, clock);
              forall id :: id in ids <==> id in mid.accounts && Sweeps.Candidate(mid.accounts[id].sub)
      ensures forall i, j :: 0 <= i < j < |ids| ==> ids[i] != ids[j]
      ensures Db() == Sweeps.Sweep(cfg, old(Db()), rows, ids, now, verify, clock, charger)
    {
      rows := ExpireStaleCharges(now, verify, clock);
      ids := SelectCandidates();
      ChargeCandidates(ids, now, charger);
    }
  }
}
