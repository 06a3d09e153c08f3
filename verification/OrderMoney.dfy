/** The money on one order: payments, credit taken as debts, and repayments of that credit. Amounts
    are whole cents. The debts of an order are kept with it, in the order they were recorded. */
module OrderMoney {
  import opened Options

  type DishId = string
  type UserId = string

  datatype OrderStatus = Pending | Preparing | Ready | Served | Completed | Cancelled
  datatype PaymentStatus = Unpaid | Partial | Paid
  datatype Means = Cash | Mpesa | Card | Credit | Unknown

  datatype Line = Line(dish: DishId, unitPrice: int, quantity: int)

  /** A payment taken at the till names who recorded it; a repayment names nobody. */
  datatype Payment = Payment(means: Means, cents: int, recordedBy: Option<UserId>)

  datatype Debt = Debt(cents: int, paidCents: int, settled: bool, recordedBy: UserId)

  datatype Money = Money(
    lines: seq<Line>,
    discount: int,
    total: int,
    status: OrderStatus,
    paymentStatus: PaymentStatus,
    payments: seq<Payment>,
    debts: seq<Debt>)

  datatype Refusal =
    | ExceedsBalance | NameRequired | InvalidMethod | DebtNotFound | AlreadySettled | NotPositive | ExceedsDebt
    | FullyPaid | AlreadyCancelled | OrderNotFound

  datatype Result = Ok(order: Money) | Refused(why: Refusal)

  function Max(a: int, b: int): int { if a > b then a else b }

  function Subtotal(lines: seq<Line>): int {
    if lines == [] then 0
    else Subtotal(lines[..|lines| - 1]) + lines[|lines| - 1].unitPrice * lines[|lines| - 1].quantity
  }

  function SumPayments(payments: seq<Payment>): int {
    if payments == [] then 0 else SumPayments(payments[..|payments| - 1]) + payments[|payments| - 1].cents
  }

  /** Outstanding credit: what the SQL sums over debts that are not settled. */
  function Owed(debts: seq<Debt>): int {
    if debts == [] then 0
    else
      var d := debts[|debts| - 1];
      Owed(debts[..|debts| - 1]) + if d.settled then 0 else d.cents - d.paidCents
  }

  function StatusFor(paid: int, total: int): PaymentStatus {
    if paid <= 0 then Unpaid else if paid < total then Partial else Paid
  }

  function Balance(o: Money): int { Max(o.total - SumPayments(o.payments), 0) }

  function Sync(o: Money): Money { o.(paymentStatus := StatusFor(SumPayments(o.payments), o.total)) }

  /** A new order; `recalculate` sets the total. */
  function NewOrder(lines: seq<Line>, discount: int): Money {
    Money(lines, discount, Max(Subtotal(lines) - discount, 0), Pending, Unpaid, [], [])
  }

  // ------------------------------------------------------------------ operations

  /** `record_payment`; cents is the rounded amount, which is never negative. */
  function RecordPayment(o: Money, means: Means, cents: nat, named: bool, user: UserId): Result {
    if cents > Balance(o) - Owed(o.debts) then Refused(ExceedsBalance)
    else if means.Credit? && !named then Refused(NameRequired)
    else if means.Unknown? then Refused(InvalidMethod)
    else
      var taken := if means.Credit? then o.(debts := o.debts + [Debt(cents, 0, false, user)])
                   else o.(payments := o.payments + [Payment(means, cents, Some(user))]);
      var synced := Sync(taken);
      var covered := SumPayments(synced.payments) + Owed(synced.debts) >= synced.total;
      Ok(if covered && synced.status.Served? then synced.(status := Completed) else synced)
  }

  function OutstandingOn(d: Debt): int { Max(d.cents - d.paidCents, 0) }

  /** `pay_debt` on the k-th debt of the order. */
  function PayDebt(o: Money, k: nat, cents: int, means: Means): Result {
    if k >= |o.debts| then Refused(DebtNotFound)
    else if o.debts[k].settled then Refused(AlreadySettled)
    else if cents <= 0 then Refused(NotPositive)
    else if cents > OutstandingOn(o.debts[k]) then Refused(ExceedsDebt)
    else
      var how := if means.Cash? || means.Mpesa? || means.Card? then means else Cash;
      var d := o.debts[k].(paidCents := o.debts[k].paidCents + cents);
      var d' := d.(settled := OutstandingOn(d) <= 0);
      var synced := Sync(o.(payments := o.payments + [Payment(how, cents, None)], debts := o.debts[k := d']));
      Ok(if synced.paymentStatus.Paid? && synced.status.Served? then synced.(status := Completed) else synced)
  }

  function Cancel(o: Money): Result {
    if o.paymentStatus.Paid? then Refused(FullyPaid)
    else if o.status.Cancelled? then Refused(AlreadyCancelled)
    else Ok(o.(status := Cancelled))
  }

  datatype Request =
    | PayRequest(means: Means, cents: nat, named: bool, user: UserId)
    | RepayRequest(debt: nat, amount: int, means: Means)
    | CancelRequest
    | StatusRequest(status: OrderStatus)

  function Respond(o: Money, r: Request): Result {
    match r
    case PayRequest(means, cents, named, user) => RecordPayment(o, means, cents, named, user)
    case RepayRequest(k, cents, means) => PayDebt(o, k, cents, means)
    case CancelRequest => Cancel(o)
    case StatusRequest(status) => Ok(o.(status := status))
  }

  /** A refused request leaves the order as it was. */
  function Handle(o: Money, r: Request): Money {
    match Respond(o, r)
    case Ok(o') => o'
    case Refused(_) => o
  }

  function HandleAll(o: Money, rs: seq<Request>): Money
    decreases |rs|
  {
    if rs == [] then o else HandleAll(Handle(o, rs[0]), rs[1..])
  }

  // ------------------------------------------------------------------- invariant

  /** Taken at the till. */
  function SumDirect(payments: seq<Payment>): int {
    if payments == [] then 0
    else
      var p := payments[|payments| - 1];
      SumDirect(payments[..|payments| - 1]) + if p.recordedBy.Some? then p.cents else 0
  }

  function SumRepaid(debts: seq<Debt>): int {
    if debts == [] then 0 else SumRepaid(debts[..|debts| - 1]) + debts[|debts| - 1].paidCents
  }

  predicate DebtOk(d: Debt) { 0 <= d.paidCents <= d.cents && (d.settled ==> d.paidCents == d.cents) }

  ghost predicate TotalOk(o: Money) { o.total == Max(Subtotal(o.lines) - o.discount, 0) }

  ghost predicate PartsOk(payments: seq<Payment>, debts: seq<Debt>) {
    && (forall i :: 0 <= i < |payments| ==> 0 <= payments[i].cents)
    && (forall i :: 0 <= i < |debts| ==> DebtOk(debts[i]))
  }

  ghost predicate SumsOk(o: Money) {
    && SumPayments(o.payments) + Owed(o.debts) <= o.total
    && SumPayments(o.payments) == SumDirect(o.payments) + SumRepaid(o.debts)
    && o.paymentStatus == StatusFor(SumPayments(o.payments), o.total)
  }

  ghost predicate MoneyInv(o: Money) { TotalOk(o) && PartsOk(o.payments, o.debts) && SumsOk(o) }

  /** The same order, payments and debts apart. */
  ghost predicate SameBill(o: Money, r: Money) { r.lines == o.lines && r.discount == o.discount && r.total == o.total }

  lemma SameBillSameTotal(o: Money, r: Money)
    requires SameBill(o, r)
    ensures TotalOk(o) ==> TotalOk(r)
  {
  }

  lemma AppendPayment(payments: seq<Payment>, p: Payment)
    ensures SumPayments(payments + [p]) == SumPayments(payments) + p.cents
    ensures SumDirect(payments + [p]) == SumDirect(payments) + if p.recordedBy.Some? then p.cents else 0
  {
    assert (payments + [p])[..|payments|] == payments;
  }

  lemma AppendDebt(debts: seq<Debt>, d: Debt)
    ensures Owed(debts + [d]) == Owed(debts) + if d.settled then 0 else d.cents - d.paidCents
    ensures SumRepaid(debts + [d]) == SumRepaid(debts) + d.paidCents
  {
    assert (debts + [d])[..|debts|] == debts;
  }

  lemma {:induction false} ReplaceDebt(debts: seq<Debt>, k: nat, d: Debt)
    requires k < |debts|
    ensures Owed(debts[k := d]) - Owed(debts) ==
            (if d.settled then 0 else d.cents - d.paidCents) -
            (if debts[k].settled then 0 else debts[k].cents - debts[k].paidCents)
    ensures SumRepaid(debts[k := d]) - SumRepaid(debts) == d.paidCents - debts[k].paidCents
    decreases |debts|
  {
    var n := |debts| - 1;
    if k == n {
      assert debts[k := d][..n] == debts[..n];
    } else {
      assert debts[k := d][..n] == debts[..n][k := d];
      ReplaceDebt(debts[..n], k, d);
    }
  }

  lemma {:induction false} PaidNonNegative(payments: seq<Payment>, n: nat)
    requires n <= |payments| && forall i :: 0 <= i < |payments| ==> 0 <= payments[i].cents
    ensures 0 <= SumPayments(payments[..n])
    decreases n
  {
    if n > 0 {
      assert payments[..n][..n - 1] == payments[..n - 1];
      PaidNonNegative(payments, n - 1);
    }
  }

  lemma {:induction false} OwedNonNegative(debts: seq<Debt>, n: nat)
    requires n <= |debts| && forall i :: 0 <= i < |debts| ==> DebtOk(debts[i])
    ensures 0 <= Owed(debts[..n])
    decreases n
  {
    if n > 0 {
      assert debts[..n][..n - 1] == debts[..n - 1] && DebtOk(debts[n - 1]);
      OwedNonNegative(debts, n - 1);
    }
  }

  lemma SumsNonNegative(o: Money)
    requires PartsOk(o.payments, o.debts)
    ensures 0 <= SumPayments(o.payments) && 0 <= Owed(o.debts)
  {
    PaidNonNegative(o.payments, |o.payments|);
    OwedNonNegative(o.debts, |o.debts|);
    assert o.payments[..|o.payments|] == o.payments && o.debts[..|o.debts|] == o.debts;
  }

  lemma NewOrderInv(lines: seq<Line>, discount: int)
    ensures MoneyInv(NewOrder(lines, discount))
  {
  }

  lemma AppendParts(payments: seq<Payment>, debts: seq<Debt>, p: Payment, d: Debt)
    requires PartsOk(payments, debts)
    ensures 0 <= p.cents ==> PartsOk(payments + [p], debts)
    ensures DebtOk(d) ==> PartsOk(payments, debts + [d])
  {
  }

  lemma ReplaceParts(payments: seq<Payment>, debts: seq<Debt>, p: Payment, k: nat, d: Debt)
    requires PartsOk(payments, debts) && k < |debts| && 0 <= p.cents && DebtOk(d)
    ensures PartsOk(payments + [p], debts[k := d])
  {
  }

  /** A payment is accepted exactly if it fits into what is neither paid nor lent, the means are
      known and a loan names its customer. */
  lemma PaymentAccepted(o: Money, means: Means, cents: nat, named: bool, user: UserId)
    requires PartsOk(o.payments, o.debts) && SumPayments(o.payments) + Owed(o.debts) <= o.total
    ensures RecordPayment(o, means, cents, named, user).Ok? <==>
            SumPayments(o.payments) + Owed(o.debts) + cents <= o.total && !means.Unknown? && (means.Credit? ==> named)
  {
    SumsNonNegative(o);
  }

  /** The record an accepted loan leaves. */
  lemma LoanRecord(o: Money, cents: nat, named: bool, user: UserId)
    requires RecordPayment(o, Credit, cents, named, user).Ok?
    ensures var r := RecordPayment(o, Credit, cents, named, user).order;
            && SameBill(o, r) && r.payments == o.payments && r.debts == o.debts + [Debt(cents, 0, false, user)]
            && r.paymentStatus == StatusFor(SumPayments(r.payments), r.total)
  {
  }

  /** The record an accepted payment leaves. */
  lemma TakingRecord(o: Money, means: Means, cents: nat, named: bool, user: UserId)
    requires RecordPayment(o, means, cents, named, user).Ok? && !means.Credit?
    ensures var r := RecordPayment(o, means, cents, named, user).order;
            && SameBill(o, r) && r.debts == o.debts && r.payments == o.payments + [Payment(means, cents, Some(user))]
            && r.paymentStatus == StatusFor(SumPayments(r.payments), r.total)
  {
  }

  lemma LoanSums(o: Money, r: Money, cents: nat, user: UserId)
    requires PartsOk(o.payments, o.debts) && SumsOk(o) && SumPayments(o.payments) + Owed(o.debts) + cents <= o.total
    requires r.payments == o.payments && r.debts == o.debts + [Debt(cents, 0, false, user)] && r.total == o.total
    requires r.paymentStatus == StatusFor(SumPayments(r.payments), r.total)
    ensures PartsOk(r.payments, r.debts) && SumsOk(r) && Owed(r.debts) == Owed(o.debts) + cents
  {
    var d := Debt(cents, 0, false, user);
    AppendDebt(o.debts, d);
    AppendParts(o.payments, o.debts, Payment(Cash, cents, None), d);
  }

  lemma TakingSums(o: Money, r: Money, p: Payment)
    requires PartsOk(o.payments, o.debts) && SumsOk(o) && SumPayments(o.payments) + Owed(o.debts) + p.cents <= o.total
    requires r.payments == o.payments + [p] && r.debts == o.debts && r.total == o.total && p.recordedBy.Some? && 0 <= p.cents
    requires r.paymentStatus == StatusFor(SumPayments(r.payments), r.total)
    ensures PartsOk(r.payments, r.debts) && SumsOk(r) && SumPayments(r.payments) == SumPayments(o.payments) + p.cents
  {
    AppendPayment(o.payments, p);
    AppendParts(o.payments, o.debts, p, Debt(0, 0, true, ""));
  }

  lemma LoanEffect(o: Money, cents: nat, named: bool, user: UserId)
    requires MoneyInv(o) && RecordPayment(o, Credit, cents, named, user).Ok?
    ensures var r := RecordPayment(o, Credit, cents, named, user).order;
            MoneyInv(r) && r.payments == o.payments && Owed(r.debts) == Owed(o.debts) + cents && r.total == o.total
  {
    var r := RecordPayment(o, Credit, cents, named, user).order;
    PaymentAccepted(o, Credit, cents, named, user);
    LoanRecord(o, cents, named, user);
    LoanSums(o, r, cents, user);
    SameBillSameTotal(o, r);
  }

  lemma TakingEffect(o: Money, means: Means, cents: nat, named: bool, user: UserId)
    requires MoneyInv(o) && RecordPayment(o, means, cents, named, user).Ok? && !means.Credit?
    ensures var r := RecordPayment(o, means, cents, named, user).order;
            MoneyInv(r) && r.debts == o.debts && SumPayments(r.payments) == SumPayments(o.payments) + cents && r.total == o.total
  {
    var r := RecordPayment(o, means, cents, named, user).order;
    PaymentAccepted(o, means, cents, named, user);
    TakingRecord(o, means, cents, named, user);
    TakingSums(o, r, Payment(means, cents, Some(user)));
    SameBillSameTotal(o, r);
  }

  /** What a payment or a loan does to the totals, and exactly when it is accepted: the two routes
      draw on one balance. */
  lemma RecordPaymentEffect(o: Money, means: Means, cents: nat, named: bool, user: UserId)
    requires MoneyInv(o)
    ensures var r := RecordPayment(o, means, cents, named, user);
            && (r.Ok? <==> SumPayments(o.payments) + Owed(o.debts) + cents <= o.total
                           && !means.Unknown? && (means.Credit? ==> named))
            && (r.Ok? ==> MoneyInv(r.order) && r.order.total == o.total)
            && (r.Ok? && means.Credit? ==> r.order.payments == o.payments && Owed(r.order.debts) == Owed(o.debts) + cents)
            && (r.Ok? && !means.Credit? ==>
                  r.order.debts == o.debts && SumPayments(r.order.payments) == SumPayments(o.payments) + cents)
  {
    PaymentAccepted(o, means, cents, named, user);
    if RecordPayment(o, means, cents, named, user).Ok? {
      if means.Credit? {
        LoanEffect(o, cents, named, user);
      } else {
        TakingEffect(o, means, cents, named, user);
      }
    }
  }

  lemma RepaymentAccepted(o: Money, k: nat, cents: int, means: Means)
    requires PartsOk(o.payments, o.debts)
    ensures PayDebt(o, k, cents, means).Ok? <==>
            k < |o.debts| && !o.debts[k].settled && 0 < cents <= o.debts[k].cents - o.debts[k].paidCents
  {
    if k < |o.debts| { assert DebtOk(o.debts[k]); }
  }

  function Repaid(d: Debt, cents: int): Debt {
    d.(paidCents := d.paidCents + cents, settled := d.paidCents + cents >= d.cents)
  }

  /** The record an accepted repayment leaves. */
  lemma RepaymentRecord(o: Money, k: nat, cents: int, means: Means)
    requires PayDebt(o, k, cents, means).Ok?
    ensures var r := PayDebt(o, k, cents, means).order;
            && SameBill(o, r) && r.debts == o.debts[k := Repaid(o.debts[k], cents)]
            && |r.payments| == |o.payments| + 1
            && var p := r.payments[|o.payments|];
            && p.cents == cents && p.recordedBy.None? && r.payments == o.payments + [p]
            && r.paymentStatus == StatusFor(SumPayments(r.payments), r.total)
  {
  }

  lemma RepaymentSums(o: Money, r: Money, p: Payment, k: nat)
    requires PartsOk(o.payments, o.debts) && SumsOk(o) && k < |o.debts| && !o.debts[k].settled
    requires 0 < p.cents <= o.debts[k].cents - o.debts[k].paidCents && p.recordedBy.None?
    requires r.payments == o.payments + [p] && r.debts == o.debts[k := Repaid(o.debts[k], p.cents)] && r.total == o.total
    requires r.paymentStatus == StatusFor(SumPayments(r.payments), r.total)
    ensures PartsOk(r.payments, r.debts) && SumsOk(r)
    ensures SumPayments(r.payments) == SumPayments(o.payments) + p.cents && Owed(r.debts) == Owed(o.debts) - p.cents
  {
    assert DebtOk(o.debts[k]);
    var d := Repaid(o.debts[k], p.cents);
    ReplaceDebt(o.debts, k, d);
    AppendPayment(o.payments, p);
    ReplaceParts(o.payments, o.debts, p, k, d);
  }

  /** A repayment turns credit into revenue cent for cent: payments plus outstanding debt do not
      change. */
  lemma RepaymentConserves(o: Money, k: nat, cents: int, means: Means)
    requires MoneyInv(o)
    ensures var r := PayDebt(o, k, cents, means);
            && (r.Ok? <==> k < |o.debts| && !o.debts[k].settled && 0 < cents <= o.debts[k].cents - o.debts[k].paidCents)
            && (r.Ok? ==> MoneyInv(r.order) && r.order.total == o.total)
            && (r.Ok? ==> SumPayments(r.order.payments) == SumPayments(o.payments) + cents
                          && Owed(r.order.debts) == Owed(o.debts) - cents)
            && (r.Ok? ==> (r.order.debts[k].settled <==> r.order.debts[k].paidCents == r.order.debts[k].cents))
  {
    RepaymentAccepted(o, k, cents, means);
    if PayDebt(o, k, cents, means).Ok? {
      var r := PayDebt(o, k, cents, means).order;
      RepaymentRecord(o, k, cents, means);
      RepaymentSums(o, r, r.payments[|o.payments|], k);
      SameBillSameTotal(o, r);
    }
  }

  lemma PaymentCompletes(o: Money, means: Means, cents: nat, named: bool, user: UserId)
    requires MoneyInv(o) && RecordPayment(o, means, cents, named, user).Ok? && !o.status.Completed?
    ensures var r := RecordPayment(o, means, cents, named, user).order;
            && (r.status.Completed? <==> o.status.Served? && SumPayments(r.payments) + Owed(r.debts) == o.total)
            && (!r.status.Completed? ==> r.status == o.status)
  {
    RecordPaymentEffect(o, means, cents, named, user);
  }

  lemma RepaymentCompletes(o: Money, k: nat, cents: int, means: Means)
    requires MoneyInv(o) && PayDebt(o, k, cents, means).Ok? && !o.status.Completed?
    ensures var r := PayDebt(o, k, cents, means).order;
            && (r.status.Completed? <==> o.status.Served? && SumPayments(r.payments) == o.total)
            && (!r.status.Completed? ==> r.status == o.status)
            && (r.status.Completed? ==> Owed(r.debts) == 0)
  {
    RepaymentConserves(o, k, cents, means);
    SumsNonNegative(o);
    SumsNonNegative(PayDebt(o, k, cents, means).order);
  }

  /** A served order completes at the till exactly when money and credit together reach the total,
      but on a repayment only when money alone does. */
  lemma CompletesWhenCovered(o: Money, r: Request)
    requires MoneyInv(o) && (r.PayRequest? || r.RepayRequest?) && Respond(o, r).Ok? && !o.status.Completed?
    ensures var o' := Handle(o, r);
            && (o'.status.Completed? <==>
                  && o.status.Served?
                  && SumPayments(o'.payments) + (if r.PayRequest? then Owed(o'.debts) else 0) == o.total)
            && (!o'.status.Completed? ==> o'.status == o.status)
            && (o'.status.Completed? && r.RepayRequest? ==> Owed(o'.debts) == 0)
  {
    match r
    case PayRequest(means, cents, named, user) => PaymentCompletes(o, means, cents, named, user);
    case RepayRequest(k, cents, means) => RepaymentCompletes(o, k, cents, means);
  }

  lemma HandleKeepsMoney(o: Money, r: Request)
    requires MoneyInv(o)
    ensures MoneyInv(Handle(o, r)) && Handle(o, r).total == o.total
  {
    match r
    case PayRequest(means, cents, named, user) => RecordPaymentEffect(o, means, cents, named, user);
    case RepayRequest(k, cents, means) => RepaymentConserves(o, k, cents, means);
    case CancelRequest =>
    case StatusRequest(_) =>
  }

  lemma {:induction false} HandleAllKeepsMoney(o: Money, rs: seq<Request>)
    requires MoneyInv(o)
    ensures MoneyInv(HandleAll(o, rs)) && HandleAll(o, rs).total == o.total
    decreases |rs|
  {
    if rs != [] {
      HandleKeepsMoney(o, rs[0]);
      HandleAllKeepsMoney(Handle(o, rs[0]), rs[1..]);
    }
  }

  /** In every sequence of requests on a new order: money collected plus credit outstanding never
      exceeds the total; everything collected was either paid at the till or repaid on a debt; the
      payment status says what was collected; and nobody repays more than was lent. */
  lemma OrderNeverOvercollects(lines: seq<Line>, discount: int, rs: seq<Request>)
    ensures var o := HandleAll(NewOrder(lines, discount), rs);
            && o.total == Max(Subtotal(lines) - discount, 0)
            && 0 <= SumPayments(o.payments) && 0 <= Owed(o.debts)
            && SumPayments(o.payments) + Owed(o.debts) <= o.total
            && SumPayments(o.payments) == SumDirect(o.payments) + SumRepaid(o.debts)
            && o.paymentStatus == StatusFor(SumPayments(o.payments), o.total)
            && forall k :: 0 <= k < |o.debts| ==> 0 <= o.debts[k].paidCents <= o.debts[k].cents
  {
    NewOrderInv(lines, discount);
    HandleAllKeepsMoney(NewOrder(lines, discount), rs);
    MoneyInvSays(HandleAll(NewOrder(lines, discount), rs));
  }

  lemma MoneyInvSays(o: Money)
    requires MoneyInv(o)
    ensures 0 <= SumPayments(o.payments) && 0 <= Owed(o.debts)
    ensures SumPayments(o.payments) + Owed(o.debts) <= o.total
    ensures SumPayments(o.payments) == SumDirect(o.payments) + SumRepaid(o.debts)
    ensures o.paymentStatus == StatusFor(SumPayments(o.payments), o.total)
    ensures forall k :: 0 <= k < |o.debts| ==> 0 <= o.debts[k].paidCents <= o.debts[k].cents
  {
    SumsNonNegative(o);
    assert forall k :: 0 <= k < |o.debts| ==> DebtOk(o.debts[k]);
  }

  // ------------------------------------------------------------------- the class

  /** The order row; payments and debts are the rows that point at it. */
  class Order {
    var lines: seq<Line>
    var discount: int
    var subtotal: int
    var total: int
    var status: OrderStatus
    var paymentStatus: PaymentStatus
    var payments: seq<Payment>
    var debts: seq<Debt>

    function View(): Money
      reads this
    {
      Money(lines, discount, total, status, paymentStatus, payments, debts)
    }

    constructor (discount: int)
      ensures View() == Money([], discount, 0, Pending, Unpaid, [], [])
    {
      lines, payments, debts := [], [], [];
      this.discount, subtotal, total := discount, 0, 0;
      status, paymentStatus := Pending, Unpaid;
    }

    method Recalculate()
      modifies this`subtotal, this`total
      ensures subtotal == Subtotal(lines) && total == Max(Subtotal(lines) - discount, 0)
    {
      subtotal := 0;
      for k := 0 to |lines|
        invariant subtotal == Subtotal(lines[..k])
      {
        assert lines[..k + 1][..k] == lines[..k];
        subtotal := subtotal + lines[k].unitPrice * lines[k].quantity;
      }
      assert lines[..|lines|] == lines;
      total := Max(subtotal - discount, 0);
    }

    method AmountPaid() returns (cents: int)
      ensures cents == SumPayments(payments)
    {
      cents := 0;
      for k := 0 to |payments|
        invariant cents == SumPayments(payments[..k])
      {
        assert payments[..k + 1][..k] == payments[..k];
        cents := cents + payments[k].cents;
      }
      assert payments[..|payments|] == payments;
    }

    method OutstandingDebt() returns (cents: int)
      ensures cents == Owed(debts)
    {
      cents := 0;
      for k := 0 to |debts|
        invariant cents == Owed(debts[..k])
      {
        assert debts[..k + 1][..k] == debts[..k];
        if !debts[k].settled {
          cents := cents + debts[k].cents - debts[k].paidCents;
        }
      }
      assert debts[..|debts|] == debts;
    }

    method SyncPaymentStatus()
      modifies this`paymentStatus
      ensures View() == Sync(old(View()))
    {
      var paid := AmountPaid();
      if paid <= 0 {
        paymentStatus := Unpaid;
      } else if paid < total {
        paymentStatus := Partial;
      } else {
        paymentStatus := Paid;
      }
    }

    /** `record_payment`. */
    method Take(means: Means, cents: nat, named: bool, user: UserId) returns (refusal: Option<Refusal>)
      modifies this
      ensures var r := RecordPayment(old(View()), means, cents, named, user);
              match r
              case Ok(o) => refusal.None? && View() == o
              case Refused(why) => refusal == Some(why) && View() == old(View())
    {
      var already := OutstandingDebt();
      var paid := AmountPaid();
      if cents > Max(total - paid, 0) - already { return Some(ExceedsBalance); }
      if means.Credit? {
        if !named { return Some(NameRequired); }
        debts := debts + [Debt(cents, 0, false, user)];
      } else if means.Cash? || means.Mpesa? || means.Card? {
        payments := payments + [Payment(means, cents, Some(user))];
      } else {
        return Some(InvalidMethod);
      }
      SyncPaymentStatus();
      paid := AmountPaid();
      var outstanding := OutstandingDebt();
      if paid + outstanding >= total && status.Served? {
        status := Completed;
      }
      refusal := None;
    }

    /** `pay_debt`. */
    method Repay(k: nat, cents: int, means: Means) returns (refusal: Option<Refusal>)
      modifies this
      ensures var r := PayDebt(old(View()), k, cents, means);
              match r
              case Ok(o) => refusal.None? && View() == o
              case Refused(why) => refusal == Some(why) && View() == old(View())
    {
      if k >= |debts| { return Some(DebtNotFound); }
      if debts[k].settled { return Some(AlreadySettled); }
      if cents <= 0 { return Some(NotPositive); }
      if cents > OutstandingOn(debts[k]) { return Some(ExceedsDebt); }
      var how := if means.Cash? || means.Mpesa? || means.Card? then means else Cash;
      payments := payments + [Payment(how, cents, None)];
      debts := debts[k := debts[k].(paidCents := debts[k].paidCents + cents)];
      if OutstandingOn(debts[k]) <= 0 {
        debts := debts[k := debts[k].(settled := true)];
      }
      SyncPaymentStatus();
      if paymentStatus.Paid? && status.Served? {
        status := Completed;
      }
      refusal := None;
    }
  }
}
