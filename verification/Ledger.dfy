/** Charging for knowledge-base usage: the user's transaction, the contributor's earning per collection and month,
    and the contributor's payout per month, written one after another without a common transaction. */
module Ledger {
  import opened Common
  import opened Sums

  /** Identifiers; 0 is the nil UUID. */
  type Id = nat

  const NIL: Id := 0
  const TWO63 := 0x8000_0000_0000_0000
  const TWO64 := 0x1_0000_0000_0000_0000

  type Int64 = x: int | -TWO63 <= x < TWO63

  /** What 64-bit arithmetic makes of an integer. */
  function Wrap(x: int): (w: Int64)
    ensures w == x <==> -TWO63 <= x < TWO63
    ensures (w - x) % 0x1_0000_0000_0000_0000 == 0
  {
    WrapIsCongruent(x);
    (x + TWO63) % TWO64 - TWO63
  }

  lemma WrapIsCongruent(x: int)
    ensures ((x + TWO63) % TWO64 - TWO63 - x) % TWO64 == 0
  {
    ModShift(0, (x + TWO63) / TWO64);
  }

  lemma WrapAdds(a: int, b: int)
    ensures Wrap(Wrap(a) + b) == Wrap(a + b)
  {
    var k := (a + TWO63) / TWO64;
    assert Wrap(a) == a - k * TWO64;
    assert (Wrap(a) + b + TWO63) == (a + b + TWO63) - k * TWO64;
    ModShift(a + b + TWO63, k);
  }

  /** 64-bit addition. */
  function Add(a: Int64, b: Int64): Int64 {
    if a + b >= TWO63 then a + b - TWO64 else if a + b < -TWO63 then a + b + TWO64 else a + b
  }

  lemma AddIsWrap(a: int, b: Int64)
    ensures Add(Wrap(a), b) == Wrap(a + b)
  {
    var x := Wrap(a) + b;
    if x >= TWO63 {
      ModShift(x + TWO63, 1);
    } else if x < -TWO63 {
      ModShift(x + TWO63, -1);
    }
    WrapAdds(a, b);
  }

  lemma ModShift(x: int, k: int)
    ensures (x - k * TWO64) % TWO64 == x % TWO64
  {
    var q := x / TWO64;
    assert x == q * TWO64 + x % TWO64;
    assert x - k * TWO64 == (q - k) * TWO64 + x % TWO64;
  }

  datatype Usage = Usage(
    user: Id, collection: Id, snapshot: Id, operation: string, tokens: int, unitPrice: Int64, amount: Int64,
    currency: string)

  datatype Txn = Txn(user: Id, amount: Int64)

  datatype Row = Row(gross: Int64, fee: Int64, net: Int64)

  const ZERO := Row(0, 0, 0)

  /** The same three amounts as unbounded integers. */
  datatype Totals = Totals(gross: int, fee: int, net: int)

  /** What a charge can be: the code charges only positive amounts. */
  type Amount = x: int | 0 < x < TWO63 witness 1

  datatype EarningKey = EarningKey(owner: Id, collection: Id, period: string)

  datatype PayoutKey = PayoutKey(owner: Id, period: string)

  datatype Payout = Payout(row: Row, paid: bool)

  datatype Tables = Tables(
    usages: seq<Usage>, accounts: map<Id, string>, txns: seq<Txn>,
    earnings: map<EarningKey, Row>, payouts: map<PayoutKey, Payout>)

  datatype Input = Input(
    user: Id, owner: Id, collection: Id, snapshot: Id, operation: string, tokens: int, isFree: bool,
    unitPrice: Int64, currency: string)

  /** The write the database fails at, if any. */
  datatype Fault = NoFault | AtUsage | AtAccount | AtTransaction | AtPayout | AtEarning

  datatype Error = Invalid | Storage

  function PriceOf(i: Input): Int64 {
    if i.isFree then 0 else i.unitPrice
  }

  function AmountOf(i: Input): Int64 {
    Wrap(i.tokens * PriceOf(i))
  }

  predicate ValidInput(i: Input) {
    i.collection != NIL && i.snapshot != NIL && !Blank(i.operation) && i.tokens >= 0
  }

  function UsageOf(i: Input): Usage {
    Usage(i.user, i.collection, i.snapshot, Trim(i.operation), i.tokens, PriceOf(i), AmountOf(i),
          if Blank(i.currency) then "CNY" else Trim(i.currency))
  }

  /** The column types and checks of the usage table. */
  predicate UsageFits(u: Usage) {
    0 <= u.tokens <= 0x7FFF_FFFF && u.unitPrice >= 0 && u.amount >= 0
  }

  /** The check on the earnings table; the payouts table has none. */
  predicate EarningFits(r: Row) {
    r.gross >= 0 && r.fee >= 0 && r.net >= 0
  }

  function Plus(r: Row, amount: Amount): Row {
    Row(Add(r.gross, amount), Add(r.fee, amount / 10), Add(r.net, amount - amount / 10))
  }

  function EarningOf(earnings: map<EarningKey, Row>, k: EarningKey): Row {
    if k in earnings then earnings[k] else ZERO
  }

  function PayoutOf(payouts: map<PayoutKey, Payout>, k: PayoutKey): Payout {
    if k in payouts then payouts[k] else Payout(ZERO, false)
  }

  // ---------- what a call does ----------

  /** How far a charge got: only the user's transaction, also the payout, or everything. */
  datatype Stage = Billed | PaidOut | Earned

  datatype Charge = Charge(user: Id, owner: Id, collection: Id, period: string, amount: Amount, stage: Stage)

  function KeyOf(c: Charge): EarningKey {
    EarningKey(c.owner, c.collection, c.period)
  }

  /** The charge a call makes, if it makes one. */
  function ChargeOf(earnings: map<EarningKey, Row>, i: Input, period: string, fault: Fault): Option<Charge> {
    if !ValidInput(i) || fault.AtUsage? || !UsageFits(UsageOf(i)) then None
    else if AmountOf(i) <= 0 || i.user == NIL || fault.AtAccount? || fault.AtTransaction? then None
    else
      var amount: Amount := AmountOf(i);
      var earned := Plus(EarningOf(earnings, EarningKey(i.owner, i.collection, period)), amount);
      var stage := if i.owner == NIL || fault.AtPayout? then Billed
                   else if fault.AtEarning? || !EarningFits(earned) then PaidOut
                   else Earned;
      Some(Charge(i.user, i.owner, i.collection, period, amount, stage))
  }

  function Opened(t: Tables, i: Input): map<Id, string> {
    if i.user in t.accounts then t.accounts else t.accounts[i.user := UsageOf(i).currency]
  }

  function Charged(t: Tables, c: Charge): Tables {
    var payout := PayoutOf(t.payouts, PayoutKey(c.owner, c.period));
    t.(txns := t.txns + [Txn(c.user, 0 - (c.amount as int))],
       payouts := if c.stage.Billed? then t.payouts
                  else t.payouts[PayoutKey(c.owner, c.period) := payout.(row := Plus(payout.row, c.amount))],
       earnings := if !c.stage.Earned? then t.earnings
                   else t.earnings[KeyOf(c) := Plus(EarningOf(t.earnings, KeyOf(c)), c.amount)])
  }

  /** What follows once the usage is stored. */
  function Settled(t: Tables, i: Input, period: string, fault: Fault): Tables {
    if AmountOf(i) <= 0 || i.user == NIL || fault.AtAccount? then t
    else
      var ready := t.(accounts := Opened(t, i));
      var c := ChargeOf(t.earnings, i, period, fault);
      if c.None? then ready else Charged(ready, c.value)
  }

  function Recorded(t: Tables, i: Input, period: string, fault: Fault): Tables {
    if !ValidInput(i) || fault.AtUsage? || !UsageFits(UsageOf(i)) then t
    else Settled(t.(usages := t.usages + [UsageOf(i)]), i, period, fault)
  }

  /** The charge got as far as it can: to the owner's earning, if there is an owner. */
  predicate GoesThrough(c: Option<Charge>, i: Input) {
    c.Some? && c.value.stage == if i.owner == NIL then Billed else Earned
  }

  /** The error a call returns: none exactly if the usage is stored and, when it costs a user something, charged all
      the way. */
  function ErrorOf(earnings: map<EarningKey, Row>, i: Input, period: string, fault: Fault): Option<Error> {
    if !ValidInput(i) then Some(Invalid)
    else if fault.AtUsage? || !UsageFits(UsageOf(i)) then Some(Storage)
    else if AmountOf(i) > 0 && i.user != NIL && !GoesThrough(ChargeOf(earnings, i, period, fault), i) then Some(Storage)
    else None
  }

  class Billing {
    var usages: seq<Usage>
    var accounts: map<Id, string>
    var txns: seq<Txn>
    var earnings: map<EarningKey, Row>
    var payouts: map<PayoutKey, Payout>

    function View(): Tables
      reads this
    {
      Tables(usages, accounts, txns, earnings, payouts)
    }

    constructor ()
      ensures View() == Tables([], map[], [], map[], map[])
    {
      usages, accounts, txns, earnings, payouts := [], map[], [], map[], map[];
    }

    method UpsertPayoutPeriod(k: PayoutKey, gross: Amount, fee: Int64, net: Int64, fails: bool) returns (ok: bool)
      requires fee == gross / 10 && net == gross - gross / 10
      modifies this`payouts
      ensures ok == !fails
      ensures payouts == if fails then old(payouts)
                         else
                           var was := PayoutOf(old(payouts), k);
                           old(payouts)[k := was.(row := Plus(was.row, gross))]
    {
      var payout := if k in payouts then payouts[k] else Payout(ZERO, false);
      var row := Row(Add(payout.row.gross, gross), Add(payout.row.fee, fee), Add(payout.row.net, net));
      if fails {
        return false;
      }
      payouts := payouts[k := payout.(row := row)];
      ok := true;
    }

    method AddContributorEarning(k: EarningKey, gross: Amount, fee: Int64, net: Int64, fault: Fault) returns (ok: bool)
      requires fee == gross / 10 && net == gross - gross / 10
      modifies this`payouts, this`earnings
      ensures ok == (!fault.AtPayout? && !fault.AtEarning? && EarningFits(Plus(EarningOf(old(earnings), k), gross)))
      ensures payouts == if fault.AtPayout? then old(payouts)
                         else
                           var p := PayoutKey(k.owner, k.period);
                           var was := PayoutOf(old(payouts), p);
                           old(payouts)[p := was.(row := Plus(was.row, gross))]
      ensures earnings == if ok then old(earnings)[k := Plus(EarningOf(old(earnings), k), gross)] else old(earnings)
    {
      var earning := if k in earnings then earnings[k] else ZERO;
      earning := Row(Add(earning.gross, gross), Add(earning.fee, fee), Add(earning.net, net));
      ok := UpsertPayoutPeriod(PayoutKey(k.owner, k.period), gross, fee, net, fault.AtPayout?);
      if !ok {
        return;
      }
      if fault.AtEarning? || earning.gross < 0 || earning.fee < 0 || earning.net < 0 {
        return false;
      }
      earnings := earnings[k := earning];
    }

    /** The user's account and transaction, and the owner's earning, for usage that costs something. */
    method Settle(i: Input, amount: Int64, currency: string, period: string, fault: Fault) returns (ok: bool)
      requires ValidInput(i) && !fault.AtUsage? && UsageFits(UsageOf(i))
      requires amount == AmountOf(i) && amount > 0 && i.user != NIL && currency == UsageOf(i).currency
      modifies this`accounts, this`txns, this`earnings, this`payouts
      ensures View() == Settled(old(View()), i, period, fault)
      ensures ok <==> GoesThrough(ChargeOf(old(earnings), i, period, fault), i)
    {
      if fault.AtAccount? {
        return false;
      }
      if i.user !in accounts {
        accounts := accounts[i.user := currency];
      }
      if fault.AtTransaction? {
        return false;
      }
      txns := txns + [Txn(i.user, -amount)];
      ok := true;
      if i.owner != NIL {
        var fee := amount / 10;
        ok := AddContributorEarning(EarningKey(i.owner, i.collection, period), amount, fee, amount - fee, fault);
      }
    }

    method RecordUsage(i: Input, period: string, fault: Fault) returns (error: Option<Error>)
      modifies this
      ensures View() == Recorded(old(View()), i, period, fault)
      ensures error == ErrorOf(old(earnings), i, period, fault)
      ensures i.isFree ==> View() == old(View()).(usages := usages)
    {
      if i.isFree {
        FreeUsage(View(), i, period, fault);
      }
      if i.collection == NIL || i.snapshot == NIL {
        return Some(Invalid);
      }
      var operation := Trim(i.operation);
      if operation == "" {
        return Some(Invalid);
      }
      if i.tokens < 0 {
        return Some(Invalid);
      }
      var currency := Trim(i.currency);
      if currency == "" {
        currency := "CNY";
      }
      var unitPrice := i.unitPrice;
      if i.isFree {
        unitPrice := 0;
      }
      var amount := Wrap(i.tokens * unitPrice);
      var record := Usage(i.user, i.collection, i.snapshot, operation, i.tokens, unitPrice, amount, currency);
      if fault.AtUsage? || !UsageFits(record) {
        return Some(Storage);
      }
      usages := usages + [record];
      if amount > 0 && i.user != NIL {
        var ok := Settle(i, amount, currency, period, fault);
        if !ok {
          return Some(Storage);
        }
      }
      error := None;
    }

    method MarkPayoutPeriodPaid(k: PayoutKey) returns (ok: bool)
      modifies this`payouts
      ensures ok == (k in old(payouts))
      ensures payouts == if ok then old(payouts)[k := old(payouts)[k].(paid := true)] else old(payouts)
    {
      ok := k in payouts;
      if ok {
        payouts := payouts[k := payouts[k].(paid := true)];
      }
    }
  }

  /** The amount of priced usage is tokens times price exactly when that fits in 64 bits; free usage costs nothing. */
  lemma AmountExactIff(i: Input)
    requires ValidInput(i) && UsageFits(UsageOf(i))
    ensures i.isFree ==> AmountOf(i) == 0
    ensures !i.isFree ==> (AmountOf(i) == i.tokens * i.unitPrice <==> i.tokens * i.unitPrice < 0x8000_0000_0000_0000)
  {
    var price := PriceOf(i);
    assert i.tokens * price >= 0;
  }

  /** A product that does not fit can pass every check with a small charge. */
  lemma OverflowUndercharges() returns (i: Input)
    ensures ValidInput(i) && UsageFits(UsageOf(i)) && !i.isFree
    ensures i.tokens * i.unitPrice > 0x1_0000_0000_0000_0000 && AmountOf(i) == 4
  {
    i := Input(1, 2, 3, 4, "entry.fulltext.fetch", 4, false, 0x4000_0000_0000_0001, "");
    TrimUnique(i.operation, 0, |i.operation|);
  }

  // ---------- what a call writes ----------

  /** What usage costs. */
  function Cost(i: Input): Int64 {
    if i.isFree then 0 else Wrap(i.tokens * i.unitPrice)
  }

  /** The usage is complete and has a row the table takes. */
  predicate Acceptable(i: Input) {
    && i.collection != 0 && i.snapshot != 0 && !Blank(i.operation) && 0 <= i.tokens <= 0x7FFF_FFFF
    && (i.isFree || i.unitPrice >= 0) && Cost(i) >= 0
  }

  lemma AcceptableIff(i: Input)
    ensures Acceptable(i) <==> ValidInput(i) && UsageFits(UsageOf(i))
    ensures AmountOf(i) == Cost(i)
  {
  }

  /** One usage row is stored, or nothing happens at all. */
  lemma StoredUsage(t: Tables, i: Input, period: string, fault: Fault)
    ensures var after := Recorded(t, i, period, fault);
            if Acceptable(i) && fault != AtUsage
            then after.usages
                 == t.usages + [Usage(i.user, i.collection, i.snapshot, Trim(i.operation), i.tokens,
                                      if i.isFree then 0 else i.unitPrice, Cost(i),
                                      if Blank(i.currency) then "CNY" else Trim(i.currency))]
            else after == t
  {
    AcceptableIff(i);
  }

  /** Free usage is stored and has no other effect. */
  lemma FreeUsage(t: Tables, i: Input, period: string, fault: Fault)
    requires i.isFree
    ensures Recorded(t, i, period, fault) == t.(usages := Recorded(t, i, period, fault).usages)
  {
  }

  /** The charge a call makes, and how far it gets. */
  lemma ChargeIs(earnings: map<EarningKey, Row>, i: Input, period: string, fault: Fault)
    ensures var c := ChargeOf(earnings, i, period, fault);
            && (c.Some? <==> Acceptable(i) && Cost(i) > 0 && i.user != 0
                             && fault !in {AtUsage, AtAccount, AtTransaction})
            && (c.Some? ==>
                  && c.value.(stage := Billed) == Charge(i.user, i.owner, i.collection, period, Cost(i), Billed)
                  && (c.value.stage == Billed <==> i.owner == 0 || fault == AtPayout)
                  && (c.value.stage == Earned <==>
                        i.owner != 0 && fault !in {AtPayout, AtEarning}
                        && EarningFits(Plus(EarningOf(earnings, KeyOf(c.value)), c.value.amount))))
  {
    AcceptableIff(i);
  }

  /** The user's account is opened once something is owed. */
  lemma AccountIsOpened(t: Tables, i: Input, period: string, fault: Fault)
    ensures Recorded(t, i, period, fault).accounts
         == if Acceptable(i) && Cost(i) > 0 && i.user != 0 && i.user !in t.accounts
               && fault !in {AtUsage, AtAccount}
            then t.accounts[i.user := if Blank(i.currency) then "CNY" else Trim(i.currency)]
            else t.accounts
  {
    AcceptableIff(i);
  }

  /** Whom a charge bills, how much, and when it gets that far. */
  lemma UserIsBilled(t: Tables, i: Input, period: string, fault: Fault)
    ensures Recorded(t, i, period, fault).txns
         == if Acceptable(i) && Cost(i) > 0 && i.user != 0 && fault !in {AtUsage, AtAccount, AtTransaction}
            then t.txns + [Txn(i.user, 0 - Cost(i) as int)]
            else t.txns
  {
    RecordedIsCharged(t, i, period, fault);
    ChargeIs(t.earnings, i, period, fault);
  }

  /** The contributor's row: a tenth is the fee, rounded down, the rest the contributor's, all in 64 bits. */
  predicate Raised(r: Row, r': Row, amount: int) {
    && r'.gross == Wrap(r.gross + amount) && r'.fee == Wrap(r.fee + amount / 10)
    && r'.net == Wrap(r.net + (amount - amount / 10))
  }

  lemma PlusRaises(r: Row, amount: Amount)
    ensures Raised(r, Plus(r, amount), amount)
  {
    AddIsWrap(r.gross, amount);
    AddIsWrap(r.fee, amount / 10);
    AddIsWrap(r.net, amount - amount / 10);
  }

  /** The owner's payout is raised once the user is billed; no other contributor's or month's is. */
  lemma PayoutIsRaised(t: Tables, i: Input, period: string, fault: Fault)
    ensures var after := Recorded(t, i, period, fault);
            var k := PayoutKey(i.owner, period);
            if |after.txns| > |t.txns| && i.owner != 0 && fault != AtPayout
            then k in after.payouts && after.payouts == t.payouts[k := after.payouts[k]]
                 && Raised(PayoutOf(t.payouts, k).row, after.payouts[k].row, Cost(i))
                 && after.payouts[k].paid == PayoutOf(t.payouts, k).paid
            else after.payouts == t.payouts
  {
    RecordedIsCharged(t, i, period, fault);
    ChargeIs(t.earnings, i, period, fault);
    var c := ChargeOf(t.earnings, i, period, fault);
    if c.Some? {
      PlusRaises(PayoutOf(t.payouts, PayoutKey(i.owner, period)).row, c.value.amount);
    }
  }

  /** The owner's earning is raised once the payout is, unless one of its sums overflows; no other is. */
  lemma EarningIsRaised(t: Tables, i: Input, period: string, fault: Fault)
    ensures var after := Recorded(t, i, period, fault);
            var k := EarningKey(i.owner, i.collection, period);
            var was := EarningOf(t.earnings, k);
            if |after.txns| > |t.txns| && i.owner != 0 && fault !in {AtPayout, AtEarning}
               && Wrap(was.gross + Cost(i)) >= 0 && Wrap(was.fee + Cost(i) / 10) >= 0
               && Wrap(was.net + (Cost(i) - Cost(i) / 10)) >= 0
            then k in after.earnings && after.earnings == t.earnings[k := after.earnings[k]]
                 && Raised(was, after.earnings[k], Cost(i))
            else after.earnings == t.earnings
  {
    RecordedIsCharged(t, i, period, fault);
    ChargeIs(t.earnings, i, period, fault);
    var c := ChargeOf(t.earnings, i, period, fault);
    if c.Some? {
      PlusRaises(EarningOf(t.earnings, EarningKey(i.owner, i.collection, period)), c.value.amount);
    }
  }

  /** What a call answers: invalid input is refused, and any write that should have followed and did not is an error. */
  lemma UsageAnswers(t: Tables, i: Input, period: string, fault: Fault)
    ensures var error := ErrorOf(t.earnings, i, period, fault);
            var after := Recorded(t, i, period, fault);
            && (error == Some(Invalid) <==> i.collection == 0 || i.snapshot == 0 || Blank(i.operation) || i.tokens < 0)
            && (error == None
                <==> |after.usages| > |t.usages|
                     && (Cost(i) > 0 && i.user != 0 ==>
                           |after.txns| > |t.txns| && (i.owner != 0 ==> after.earnings != t.earnings)))
  {
    AcceptableIff(i);
    if Acceptable(i) && Cost(i) > 0 {
      var amount: Amount := Cost(i);
      var was := EarningOf(t.earnings, EarningKey(i.owner, i.collection, period));
      assert Add(was.gross, amount) != was.gross;
    }
  }

  // ---------- runs ----------

  datatype Step =
    | RecordUsage(i: Input, period: string, fault: Fault)
    | MarkPaid(k: PayoutKey)

  function Next(t: Tables, s: Step): Tables {
    match s
    case RecordUsage(i, period, fault) => Recorded(t, i, period, fault)
    case MarkPaid(k) =>
      if k in t.payouts then t.(payouts := t.payouts[k := t.payouts[k].(paid := true)]) else t
  }

  const EMPTY := Tables([], map[], [], map[], map[])

  function After(steps: seq<Step>): Tables {
    if steps == [] then EMPTY else Next(After(steps[..|steps| - 1]), steps[|steps| - 1])
  }

  /** The charges a run makes, in order. */
  function Charges(steps: seq<Step>): seq<Charge> {
    if steps == [] then []
    else
      var before := steps[..|steps| - 1];
      var last := steps[|steps| - 1];
      var c := if last.RecordUsage? then ChargeOf(After(before).earnings, last.i, last.period, last.fault) else None;
      Charges(before) + if c.Some? then [c.value] else []
  }

  /** Gross, fee and net of the charges that `which` picks, as unbounded integers. */
  function Total(charges: seq<Charge>, which: Charge -> bool): Totals {
    if charges == [] then Totals(0, 0, 0)
    else
      var r := Total(charges[..|charges| - 1], which);
      var c := charges[|charges| - 1];
      if which(c) then Totals(r.gross + c.amount, r.fee + c.amount / 10, r.net + (c.amount - c.amount / 10)) else r
  }

  function Count(charges: seq<Charge>, which: Charge -> bool): nat {
    if charges == [] then 0
    else Count(charges[..|charges| - 1], which) + if which(charges[|charges| - 1]) then 1 else 0
  }

  function TxnTotal(txns: seq<Txn>, user: Id): int {
    if txns == [] then 0
    else
      var last := txns[|txns| - 1];
      TxnTotal(txns[..|txns| - 1], user) + if last.user == user then last.amount else 0
  }

  function ByUser(user: Id): Charge -> bool {
    (c: Charge) => c.user == user
  }

  function ForEarning(k: EarningKey): Charge -> bool {
    (c: Charge) => c.stage.Earned? && KeyOf(c) == k
  }

  function ForPayout(k: PayoutKey): Charge -> bool {
    (c: Charge) => !c.stage.Billed? && c.owner == k.owner && c.period == k.period
  }

  /** Paid out to the contributor but never booked as an earning. */
  function Leaked(k: PayoutKey): Charge -> bool {
    (c: Charge) => c.stage.PaidOut? && c.owner == k.owner && c.period == k.period
  }

  function EarnedIn(k: PayoutKey): Charge -> bool {
    (c: Charge) => c.stage.Earned? && c.owner == k.owner && c.period == k.period
  }

  function Wrapped(r: Totals): Row {
    Row(Wrap(r.gross), Wrap(r.fee), Wrap(r.net))
  }

  lemma TotalStep(charges: seq<Charge>, c: Charge, which: Charge -> bool)
    ensures var r := Total(charges, which);
            Total(charges + [c], which)
            == if which(c)
               then Totals(r.gross + c.amount, r.fee + c.amount / 10, r.net + (c.amount - c.amount / 10))
               else r
  {
    assert (charges + [c])[..|charges|] == charges;
  }

  predicate UserBalanced(t: Tables, charges: seq<Charge>, user: Id) {
    TxnTotal(t.txns, user) == -Total(charges, ByUser(user)).gross
  }

  predicate EarningBalanced(t: Tables, charges: seq<Charge>, k: EarningKey) {
    var row := EarningOf(t.earnings, k);
    EarningFits(row) && Total(charges, ForEarning(k)) == Totals(row.gross, row.fee, row.net)
  }

  predicate PayoutBalanced(t: Tables, charges: seq<Charge>, k: PayoutKey) {
    PayoutOf(t.payouts, k).row == Wrapped(Total(charges, ForPayout(k)))
  }

  ghost predicate Balanced(t: Tables, charges: seq<Charge>) {
    && (forall user :: UserBalanced(t, charges, user))
    && (forall k :: EarningBalanced(t, charges, k))
    && (forall k :: PayoutBalanced(t, charges, k))
  }

  lemma PlusIsExact(r: Row, amount: Amount)
    requires EarningFits(r) && EarningFits(Plus(r, amount))
    ensures Plus(r, amount).gross == r.gross + amount
    ensures Plus(r, amount).fee == r.fee + amount / 10
    ensures Plus(r, amount).net == r.net + (amount - amount / 10)
  {
  }

  /** In every row gross is fee plus net, and the fee is a tenth of it, short of at most nine per charge. */
  lemma {:induction false} FeesAreATenth(charges: seq<Charge>, which: Charge -> bool)
    ensures var r := Total(charges, which);
            r.gross == r.fee + r.net && 0 <= r.gross - 10 * r.fee <= 9 * Count(charges, which)
  {
    if charges != [] {
      FeesAreATenth(charges[..|charges| - 1], which);
    }
  }

  lemma ChargeKeepsUser(t: Tables, charges: seq<Charge>, c: Charge, user: Id)
    requires UserBalanced(t, charges, user)
    ensures UserBalanced(Charged(t, c), charges + [c], user)
  {
  }

  lemma ChargeKeepsPayout(t: Tables, charges: seq<Charge>, c: Charge, k: PayoutKey)
    requires PayoutBalanced(t, charges, k)
    ensures PayoutBalanced(Charged(t, c), charges + [c], k)
  {
    TotalStep(charges, c, ForPayout(k));
    var r := Total(charges, ForPayout(k));
    AddIsWrap(r.gross, c.amount);
    AddIsWrap(r.fee, c.amount / 10);
    AddIsWrap(r.net, c.amount - c.amount / 10);
  }

  lemma ChargeKeepsEarning(t: Tables, charges: seq<Charge>, c: Charge, k: EarningKey)
    requires EarningBalanced(t, charges, k)
    requires c.stage.Earned? ==> EarningFits(Plus(EarningOf(t.earnings, KeyOf(c)), c.amount))
    ensures EarningBalanced(Charged(t, c), charges + [c], k)
  {
    TotalStep(charges, c, ForEarning(k));
    if ForEarning(k)(c) {
      PlusIsExact(EarningOf(t.earnings, k), c.amount);
    }
  }

  /** The same transactions, earnings and payouts. */
  predicate SameBooks(t: Tables, t': Tables) {
    t.txns == t'.txns && t.earnings == t'.earnings && t.payouts == t'.payouts
  }

  /** All that a call does to the books is make its charge. */
  lemma RecordedIsCharged(t: Tables, i: Input, period: string, fault: Fault)
    ensures var c := ChargeOf(t.earnings, i, period, fault);
            SameBooks(Recorded(t, i, period, fault), if c.Some? then Charged(t, c.value) else t)
    ensures var c := ChargeOf(t.earnings, i, period, fault);
            c.Some? && c.value.stage.Earned? ==>
              EarningFits(Plus(EarningOf(t.earnings, KeyOf(c.value)), c.value.amount))
  {
  }

  lemma BooksDecideBalance(t: Tables, t': Tables, charges: seq<Charge>)
    requires SameBooks(t, t') && Balanced(t, charges)
    ensures Balanced(t', charges)
  {
    forall user ensures UserBalanced(t', charges, user) {
      assert UserBalanced(t, charges, user);
    }
    forall k ensures EarningBalanced(t', charges, k) {
      assert EarningBalanced(t, charges, k);
    }
    forall k ensures PayoutBalanced(t', charges, k) {
      assert PayoutBalanced(t, charges, k);
    }
  }

  lemma ChargeKeepsBalance(t: Tables, charges: seq<Charge>, c: Charge)
    requires Balanced(t, charges)
    requires c.stage.Earned? ==> EarningFits(Plus(EarningOf(t.earnings, KeyOf(c)), c.amount))
    ensures Balanced(Charged(t, c), charges + [c])
  {
    forall user ensures UserBalanced(Charged(t, c), charges + [c], user) {
      ChargeKeepsUser(t, charges, c, user);
    }
    forall k ensures EarningBalanced(Charged(t, c), charges + [c], k) {
      ChargeKeepsEarning(t, charges, c, k);
    }
    forall k ensures PayoutBalanced(Charged(t, c), charges + [c], k) {
      ChargeKeepsPayout(t, charges, c, k);
    }
  }

  lemma StepKeepsBalance(t: Tables, charges: seq<Charge>, i: Input, period: string, fault: Fault)
    requires Balanced(t, charges)
    ensures var c := ChargeOf(t.earnings, i, period, fault);
            Balanced(Recorded(t, i, period, fault), charges + if c.Some? then [c.value] else [])
  {
    var c := ChargeOf(t.earnings, i, period, fault);
    RecordedIsCharged(t, i, period, fault);
    if c.None? {
      assert charges + [] == charges;
      BooksDecideBalance(t, Recorded(t, i, period, fault), charges);
    } else {
      ChargeKeepsBalance(t, charges, c.value);
      BooksDecideBalance(Charged(t, c.value), Recorded(t, i, period, fault), charges + [c.value]);
    }
  }

  /** After any run, faults and all: each user's transactions sum to minus their charges, each earning row is the
      sum of its charges, and each payout row is, in 64 bits, the sum of the charges that reached it. */
  lemma {:induction false} BooksBalance(steps: seq<Step>)
    ensures Balanced(After(steps), Charges(steps))
  {
    if steps != [] {
      var before := steps[..|steps| - 1];
      var last := steps[|steps| - 1];
      BooksBalance(before);
      match last
      case RecordUsage(i, period, fault) => StepKeepsBalance(After(before), Charges(before), i, period, fault);
      case MarkPaid(k) => MarkPaidKeepsBalance(After(before), Charges(before), k);
    }
  }

  lemma MarkPaidKeepsBalance(t: Tables, charges: seq<Charge>, k: PayoutKey)
    requires Balanced(t, charges)
    ensures Balanced(Next(t, MarkPaid(k)), charges + [])
  {
    assert charges + [] == charges;
    var t' := Next(t, MarkPaid(k));
    forall user ensures UserBalanced(t', charges, user) {
      assert UserBalanced(t, charges, user);
    }
    forall e ensures EarningBalanced(t', charges, e) {
      assert EarningBalanced(t, charges, e);
    }
    forall p ensures PayoutBalanced(t', charges, p) {
      assert PayoutBalanced(t, charges, p);
    }
  }

  // ---------- payouts against earnings ----------

  function Gross(r: Row): nat {
    if r.gross < 0 then 0 else r.gross
  }

  /** A contributor's earnings rows of one month, over all collections. */
  function MonthOf(t: Tables, k: PayoutKey): map<EarningKey, Row> {
    map e | e in t.earnings && e.owner == k.owner && e.period == k.period :: t.earnings[e]
  }

  lemma {:induction false} MonthIsEarned(steps: seq<Step>, k: PayoutKey)
    ensures Sum(MonthOf(After(steps), k), Gross) == Total(Charges(steps), EarnedIn(k)).gross
  {
    if steps != [] {
      var before := steps[..|steps| - 1];
      MonthIsEarned(before, k);
      BooksBalance(before);
      match steps[|steps| - 1]
      case RecordUsage(i, period, fault) => RecordedMonth(After(before), Charges(before), i, period, fault, k);
      case MarkPaid(p) =>
        assert MonthOf(Next(After(before), MarkPaid(p)), k) == MonthOf(After(before), k);
        assert Charges(before) + [] == Charges(before);
    } else {
      assert MonthOf(EMPTY, k) == map[];
    }
  }

  lemma RecordedMonth(t: Tables, charges: seq<Charge>, i: Input, period: string, fault: Fault, k: PayoutKey)
    requires Balanced(t, charges)
    requires Sum(MonthOf(t, k), Gross) == Total(charges, EarnedIn(k)).gross
    ensures var c := ChargeOf(t.earnings, i, period, fault);
            Sum(MonthOf(Recorded(t, i, period, fault), k), Gross)
            == Total(charges + if c.Some? then [c.value] else [], EarnedIn(k)).gross
  {
    var c := ChargeOf(t.earnings, i, period, fault);
    RecordedIsCharged(t, i, period, fault);
    if c.None? {
      assert charges + [] == charges;
      assert MonthOf(Recorded(t, i, period, fault), k) == MonthOf(t, k);
    } else {
      assert EarningBalanced(t, charges, KeyOf(c.value));
      TotalStep(charges, c.value, EarnedIn(k));
      MonthStep(t, charges, c.value, k);
      assert MonthOf(Recorded(t, i, period, fault), k) == MonthOf(Charged(t, c.value), k);
    }
  }

  lemma MonthStep(t: Tables, charges: seq<Charge>, c: Charge, k: PayoutKey)
    requires EarningBalanced(t, charges, KeyOf(c))
    requires c.stage.Earned? ==> EarningFits(Plus(EarningOf(t.earnings, KeyOf(c)), c.amount))
    ensures Sum(MonthOf(Charged(t, c), k), Gross)
         == Sum(MonthOf(t, k), Gross) + if EarnedIn(k)(c) then c.amount else 0
  {
    var m := MonthOf(t, k);
    var e := KeyOf(c);
    if EarnedIn(k)(c) {
      var row := Plus(EarningOf(t.earnings, e), c.amount);
      PlusIsExact(EarningOf(t.earnings, e), c.amount);
      assert MonthOf(Charged(t, c), k) == m[e := row];
      if e in m {
        SumUpdate(m, Gross, e, row);
      } else {
        SumInsert(m, Gross, e, row);
      }
    } else {
      assert MonthOf(Charged(t, c), k) == m;
    }
  }

  lemma {:induction false} PaidSplits(charges: seq<Charge>, k: PayoutKey)
    ensures Total(charges, ForPayout(k)).gross
         == Total(charges, EarnedIn(k)).gross + Total(charges, Leaked(k)).gross
  {
    if charges != [] {
      PaidSplits(charges[..|charges| - 1], k);
    }
  }

  /** A payout row is, in 64 bits, the contributor's earnings for the month plus whatever leaked. */
  lemma PayoutIsEarningsPlusLeak(steps: seq<Step>, k: PayoutKey)
    ensures PayoutOf(After(steps).payouts, k).row.gross
         == Wrap(Sum(MonthOf(After(steps), k), Gross) + Total(Charges(steps), Leaked(k)).gross)
  {
    BooksBalance(steps);
    assert PayoutBalanced(After(steps), Charges(steps), k);
    MonthIsEarned(steps, k);
    PaidSplits(Charges(steps), k);
  }

  lemma {:induction false} NoLeakIff(charges: seq<Charge>, k: PayoutKey)
    ensures 0 <= Total(charges, Leaked(k)).gross
    ensures Total(charges, Leaked(k)).gross == 0 <==> forall c | c in charges :: !Leaked(k)(c)
  {
    if charges != [] {
      var n := |charges| - 1;
      NoLeakIff(charges[..n], k);
      assert charges == charges[..n] + [charges[n]];
    }
  }

  /** While the month's sum fits in 64 bits, the payout equals the earnings exactly when no earning failed to be
      saved after its payout. */
  lemma PayoutEqualsEarningsIff(steps: seq<Step>, k: PayoutKey)
    requires Total(Charges(steps), ForPayout(k)).gross < TWO63
    ensures PayoutOf(After(steps).payouts, k).row.gross == Sum(MonthOf(After(steps), k), Gross)
       <==> forall c | c in Charges(steps) :: !Leaked(k)(c)
  {
    PayoutIsEarningsPlusLeak(steps, k);
    var month := Sum(MonthOf(After(steps), k), Gross);
    var leak := Total(Charges(steps), Leaked(k)).gross;
    NoLeakIff(Charges(steps), k);
    assert month + leak < TWO63 by {
      MonthIsEarned(steps, k);
      PaidSplits(Charges(steps), k);
    }
    assert Wrap(month + leak) == month + leak;
  }

  // ---------- calls that return no error ----------

  predicate Failed(t: Tables, step: Step) {
    step.RecordUsage? && ErrorOf(t.earnings, step.i, step.period, step.fault).Some?
  }

  predicate ErrorFree(steps: seq<Step>) {
    steps == []
    || (ErrorFree(steps[..|steps| - 1]) && !Failed(After(steps[..|steps| - 1]), steps[|steps| - 1]))
  }

  /** The charges for usage of the contributor's collections in the month, whatever became of them. */
  function OwedIn(k: PayoutKey): Charge -> bool {
    (c: Charge) => c.owner == k.owner && c.period == k.period
  }

  lemma {:induction false} ErrorFreeCharges(steps: seq<Step>)
    requires ErrorFree(steps)
    ensures forall c | c in Charges(steps) :: c.stage == if c.owner == NIL then Billed else Earned
  {
    if steps != [] {
      var before := steps[..|steps| - 1];
      ErrorFreeCharges(before);
      var last := steps[|steps| - 1];
      if last.RecordUsage? {
        ErrorFreeGoesThrough(After(before).earnings, last.i, last.period, last.fault);
      }
    }
  }

  lemma ErrorFreeGoesThrough(earnings: map<EarningKey, Row>, i: Input, period: string, fault: Fault)
    requires ErrorOf(earnings, i, period, fault).None?
    ensures var c := ChargeOf(earnings, i, period, fault);
            c.Some? ==> c.value.stage == if c.value.owner == NIL then Billed else Earned
  {
  }

  lemma {:induction false} SameTotals(charges: seq<Charge>, p: Charge -> bool, q: Charge -> bool)
    requires forall c | c in charges :: p(c) == q(c)
    ensures Total(charges, p) == Total(charges, q)
  {
    if charges != [] {
      var n := |charges| - 1;
      assert charges == charges[..n] + [charges[n]];
      SameTotals(charges[..n], p, q);
    }
  }

  /** When no call of a run returns an error, the payout, the month's earnings over all collections and the usage
      charged for them are one and the same amount, while that fits in 64 bits. */
  lemma ErrorFreeRunsConserve(steps: seq<Step>, k: PayoutKey)
    requires ErrorFree(steps) && k.owner != NIL && Total(Charges(steps), OwedIn(k)).gross < TWO63
    ensures PayoutOf(After(steps).payouts, k).row.gross == Total(Charges(steps), OwedIn(k)).gross
    ensures Sum(MonthOf(After(steps), k), Gross) == Total(Charges(steps), OwedIn(k)).gross
  {
    ErrorFreeCharges(steps);
    SameTotals(Charges(steps), OwedIn(k), EarnedIn(k));
    SameTotals(Charges(steps), OwedIn(k), ForPayout(k));
    MonthIsEarned(steps, k);
    PayoutEqualsEarningsIff(steps, k);
  }

  // ---------- runs that go wrong ----------

  /** Ten tokens at 5 each, of user 1, for a collection of user 2. */
  const USAGE := Input(1, 2, 3, 4, "search", 10, false, 5, "CNY")

  lemma UsageIsCharged(earnings: map<EarningKey, Row>, fault: Fault)
    requires earnings == map[] && (fault.NoFault? || fault.AtEarning?)
    ensures ChargeOf(earnings, USAGE, "2024-01", fault)
         == Some(Charge(1, 2, 3, "2024-01", 50, if fault.AtEarning? then PaidOut else Earned))
  {
    var s := USAGE.operation;
    assert !IsSpace(s[0]) && TrimLeft(s) == s && !IsSpace(s[|s| - 1]);
  }

  lemma AfterOne(s: Step)
    ensures After([s]) == Next(EMPTY, s)
    ensures Charges([s]) == if s.RecordUsage? && ChargeOf(map[], s.i, s.period, s.fault).Some?
                            then [ChargeOf(map[], s.i, s.period, s.fault).value] else []
  {
    assert [s][..0] == [];
  }

  /** One failed write is enough for a leak: 50 paid out, nothing earned. */
  lemma OneFailureLeaks()
    ensures var t, k := After([RecordUsage(USAGE, "2024-01", AtEarning)]), PayoutKey(2, "2024-01");
            PayoutOf(t.payouts, k).row.gross == 50 && Sum(MonthOf(t, k), Gross) == 0
  {
    var step := RecordUsage(USAGE, "2024-01", AtEarning);
    var k := PayoutKey(2, "2024-01");
    AfterOne(step);
    UsageIsCharged(map[], AtEarning);
    RecordedIsCharged(EMPTY, USAGE, "2024-01", AtEarning);
    assert MonthOf(After([step]), k) == map[];
  }

  // ---------- paid months ----------

  /** The step charges usage of the contributor's month as far as its payout row. */
  predicate Reaches(t: Tables, s: Step, k: PayoutKey) {
    s.RecordUsage?
    && var c := ChargeOf(t.earnings, s.i, s.period, s.fault);
       c.Some? && !c.value.stage.Billed? && c.value.owner == k.owner && c.value.period == k.period
  }

  /** Marking a month paid does not close it: a payout row, paid or not, stays as it is exactly under the steps that
      bring its month no charge, and no step ever takes the mark back. */
  lemma PaidRowStaysIff(t: Tables, s: Step, k: PayoutKey)
    requires k in t.payouts
    ensures k in Next(t, s).payouts
    ensures Next(t, s).payouts[k].row == t.payouts[k].row <==> !Reaches(t, s, k)
    ensures t.payouts[k].paid ==> Next(t, s).payouts[k].paid
  {
    if s.RecordUsage? {
      RecordedIsCharged(t, s.i, s.period, s.fault);
      var c := ChargeOf(t.earnings, s.i, s.period, s.fault);
      if Reaches(t, s, k) {
        assert Add(t.payouts[k].row.gross, c.value.amount) != t.payouts[k].row.gross;
      }
    }
  }

  /** The run that shows it: usage, payment, usage. The paid row goes from 50 to 100. */
  lemma PaidMonthGrows()
    ensures var use, k := RecordUsage(USAGE, "2024-01", NoFault), PayoutKey(2, "2024-01");
            var paid := After([use, MarkPaid(k)]).payouts;
            var later := After([use, MarkPaid(k), use]).payouts;
            && k in paid && paid[k].paid && paid[k].row.gross == 50
            && k in later && later[k].paid && later[k].row.gross == 100
  {
    var use, k := RecordUsage(USAGE, "2024-01", NoFault), PayoutKey(2, "2024-01");
    AfterOne(use);
    UsageIsCharged(map[], NoFault);
    RecordedIsCharged(EMPTY, USAGE, "2024-01", NoFault);
    var t := After([use]);
    assert [use, MarkPaid(k)][..1] == [use];
    assert [use, MarkPaid(k), use][..2] == [use, MarkPaid(k)];
    var u := After([use, MarkPaid(k)]);
    assert u == Next(t, MarkPaid(k));
    var e := EarningKey(2, 3, "2024-01");
    assert u.earnings == map[e := Row(50, 5, 45)];
    RecordedIsCharged(u, USAGE, "2024-01", NoFault);
    UsageIsChargedAgain(u.earnings);
  }

  lemma UsageIsChargedAgain(earnings: map<EarningKey, Row>)
    requires earnings == map[EarningKey(2, 3, "2024-01") := Row(50, 5, 45)]
    ensures ChargeOf(earnings, USAGE, "2024-01", NoFault) == Some(Charge(1, 2, 3, "2024-01", 50, Earned))
  {
    var s := USAGE.operation;
    assert !IsSpace(s[0]) && TrimLeft(s) == s && !IsSpace(s[|s| - 1]);
  }
}
