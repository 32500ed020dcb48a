/**
 An account's credits (`create_transaction_interaction`, `load_account_credits`): every change of
 the balance goes with a transaction of the same amount. Amounts are in quanta.
 */
module Ledger {
  import opened Wrappers
  import opened Credits
  import opened LowCredit

  datatype TransactionType = MessageTransaction | TopUp

  datatype Heading = Heading(tagPool: string, tagName: string, provider: Option<string>, outbound: bool)

  /** A row of the transactions table. */
  datatype Transaction = Transaction(
    kind: TransactionType,
    heading: Heading,
    messageCost: real, storageCost: real, sessionCost: real,
    unitTime: Option<real>, unitCost: Option<real>, lengthCost: real,
    sessionCreated: bool, sessionLength: Option<real>,
    markup: real,
    messageCredits: int, storageCredits: int, sessionCredits: int, lengthCredits: int,
    creditAmount: int)

  /** The nearest number of thousandths. */
  function Thousandths(length: real): real
    requires length >= 0.0
  {
    (length * 1000.0 + 0.5).Floor as real / 1000.0
  }

  /** The column for session lengths keeps thousandths of a second, and rounds ties away from zero. */
  function StoredLength(length: Option<real>): Option<real> {
    if length.None? then None
    else if length.value >= 0.0 then Some(Thousandths(length.value))
    else Some(-Thousandths(-length.value))
  }

  /** The nearest number of thousandths, and of two equally near ones the one further from zero. */
  lemma StoredLengthIsNearest(length: real)
    ensures var stored := StoredLength(Some(length)).value;
            && Whole(stored, 1000.0)
            && -0.0005 <= stored - length <= 0.0005
            && (stored - length == 0.0005 ==> length > 0.0) && (stored - length == -0.0005 ==> length < 0.0)
  {
    if length >= 0.0 {
      ThousandthsAreNear(length);
    } else {
      ThousandthsAreNear(-length);
      WholeNegated(Thousandths(-length), 1000.0);
    }
  }

  lemma ThousandthsAreNear(length: real)
    requires length >= 0.0
    ensures var stored := Thousandths(length);
            Whole(stored, 1000.0) && -0.0005 < stored - length <= 0.0005 && (stored - length == 0.0005 ==> length > 0.0)
  {
    var n := (length * 1000.0 + 0.5).Floor;
    WholeThousandths(n);
    NearInThousandths(length, n);
  }

  lemma WholeThousandths(n: int)
    ensures Whole(n as real / 1000.0, 1000.0)
  {
    assert n as real / 1000.0 * 1000.0 == n as real;
  }

  lemma NearInThousandths(length: real, n: int)
    requires length >= 0.0 && n as real <= length * 1000.0 + 0.5 < n as real + 1.0
    ensures var stored := n as real / 1000.0;
            -0.0005 < stored - length <= 0.0005 && (stored - length == 0.0005 ==> length > 0.0)
  {
  }

  lemma WholeNegated(x: real, scale: real)
    requires Whole(x, scale)
    ensures Whole(-x, scale)
  {
    var n := (x * scale).Floor;
    assert -x * scale == (-n) as real;
  }

  /** The transaction that the billing API writes for a message. */
  function ForMessage(h: Heading, p: Price, u: Usage, factor: real): Transaction {
    Transaction(
      MessageTransaction, h,
      p.messageCost, p.storageCost, p.sessionCost,
      p.unitLength, p.unitCost, LengthCost(p, u),
      u.sessionCreated, StoredLength(u.sessionLength),
      p.markup,
      ToCredits(p.messageCost, p.markup, factor), ToCredits(p.storageCost, p.markup, factor),
      ToCredits(p.sessionCost, p.markup, factor), ToCredits(LengthCost(p, u), p.markup, factor),
      -CreditCost(p, u, factor))
  }

  /** A top-up leaves every field that has to do with messages at its default. */
  function ForTopUp(amount: int): Transaction {
    Transaction(TopUp, Heading("", "", None, false), 0.0, 0.0, 0.0, None, None, 0.0, false, None, 0.0, 0, 0, 0, 0, amount)
  }

  function SumAmounts(ts: seq<Transaction>): int {
    if ts == [] then 0 else SumAmounts(ts[..|ts| - 1]) + ts[|ts| - 1].creditAmount
  }

  lemma {:induction false} SumAmountsAdd(ts: seq<Transaction>, t: Transaction)
    ensures SumAmounts(ts + [t]) == SumAmounts(ts) + t.creditAmount
  {
    assert (ts + [t])[..|ts|] == ts;
  }

  /** What changes a balance: a message that is charged for, or a top-up. */
  datatype Event = Charge(heading: Heading, price: Price, usage: Usage) | Load(amount: int)

  function Written(e: Event, factor: real): Transaction {
    match e
    case Charge(h, p, u) => ForMessage(h, p, u, factor)
    case Load(amount) => ForTopUp(amount)
  }

  function AllWritten(events: seq<Event>, factor: real): (ts: seq<Transaction>)
    ensures |ts| == |events|
    ensures forall i :: 0 <= i < |ts| ==> ts[i] == Written(events[i], factor)
  {
    if events == [] then [] else AllWritten(events[..|events| - 1], factor) + [Written(events[|events| - 1], factor)]
  }

  datatype Settings = Settings(factor: real, mapping: seq<int>, notify: bool, cutoff: bool)

  /**
   What the API answers: no price for the message, no charge because credit has run out, an exception,
   which takes the whole database interaction back, or the charge made and the level to alert about.
   */
  datatype Reply = NoPrice | CutOff | Raised | Charged(cutoffReached: bool, alert: Option<int>)

  function AsCredits(quanta: int): real {
    quanta as real / QUANTA_PER_CREDIT
  }

  /** What notifying comes to when `amount` has been charged and `balance` is left. */
  function AlertOf(settings: Settings, balance: int, amount: int, topup: int): Alert {
    if settings.notify then CheckThresholds(settings.mapping, AsCredits(balance), AsCredits(amount), AsCredits(topup)) else NoAlert
  }

  /** The balance stands below the lowest notification level. */
  predicate IsBelow(settings: Settings, balance: int, topup: int)
    requires topup != 0
  {
    settings.mapping != [] && CeilPercent(AsCredits(balance), AsCredits(topup)) < settings.mapping[0]
  }

  /** So little is left that not even a percentage point below the level is: credit has run out. */
  predicate Spent(level: int, balance: int, topup: int) {
    if topup > 0 then balance * 100 <= (level - 1) * topup else balance * 100 >= (level - 1) * topup
  }

  lemma BelowIsSpent(settings: Settings, balance: int, topup: int)
    requires topup != 0
    ensures IsBelow(settings, balance, topup) <==> settings.mapping != [] && Spent(settings.mapping[0], balance, topup)
  {
    if settings.mapping != [] {
      var p := settings.mapping[0] - 1;
      CeilPercentIsLeast(AsCredits(balance), AsCredits(topup), p);
      InQuanta(p, balance, topup);
    }
  }

  lemma InQuanta(p: int, balance: int, topup: int)
    ensures AsCredits(balance) * 100.0 <= p as real * AsCredits(topup) <==> balance * 100 <= p * topup
    ensures AsCredits(balance) * 100.0 >= p as real * AsCredits(topup) <==> balance * 100 >= p * topup
  {
    var q := QUANTA_PER_CREDIT;
    assert p as real * AsCredits(topup) == (p * topup) as real / q by {
      assert p as real * topup as real == (p * topup) as real;
    }
    assert AsCredits(balance) * 100.0 == (balance * 100) as real / q;
  }

  /** With the levels as they are configured, credit has run out below the lowest of them. */
  lemma CutoffIsLowestLevel(settings: Settings, levels: seq<int>, balance: int, topup: int)
    requires Sorted(levels) && Maps(levels, settings.mapping) && levels != [] && topup > 0
    ensures IsBelow(settings, balance, topup) <==> balance * 100 <= (levels[0] - 1) * topup
  {
    MappedEnds(levels, settings.mapping);
    BelowIsSpent(settings, balance, topup);
  }

  class Account {
    const settings: Settings
    const openingBalance: int
    var creditBalance: int
    var lastTopupBalance: int
    var transactions: seq<Transaction>
    ghost var events: seq<Event>

    /** The transactions are those of the account's events, and the balance is what they add up to. */
    ghost predicate Valid()
      reads this
    {
      && transactions == AllWritten(events, settings.factor)
      && creditBalance == openingBalance + SumAmounts(transactions)
    }

    constructor (settings: Settings, balance: int, topup: int)
      ensures Valid() && events == [] && creditBalance == balance && lastTopupBalance == topup
      ensures this.settings == settings && openingBalance == balance
    {
      this.settings := settings;
      openingBalance, creditBalance, lastTopupBalance := balance, balance, topup;
      transactions := [];
      events := [];
    }

    /** With the cutoff on, balances are compared to the lowest notification level. */
    predicate CutoffApplies()
      reads this
    {
      settings.cutoff && lastTopupBalance != 0
    }

    predicate BelowCutoff(balance: int)
      reads this
    {
      CutoffApplies() && IsBelow(settings, balance, lastTopupBalance)
    }

    /** What notifying comes to once the amount is charged. */
    function AlertAfter(amount: int): Alert
      reads this
    {
      AlertOf(settings, creditBalance - amount, amount, lastTopupBalance)
    }

    /** Comparing to the lowest of no levels raises an exception, and so does alerting about no level. */
    predicate Raises(amount: int)
      reads this
    {
      (CutoffApplies() && settings.mapping == []) || AlertAfter(amount) == AlertFails
    }

    method CreateTransaction(h: Heading, price: Option<Price>, u: Usage) returns (r: Reply)
      requires Valid()
      modifies this`creditBalance, this`transactions, this`events
      ensures Valid()
      ensures r.NoPrice? <==> price.None?
      ensures r.CutOff? <==>
              && price.Some? && h.outbound && settings.cutoff && lastTopupBalance != 0 && settings.mapping != []
              && Spent(settings.mapping[0], old(creditBalance), lastTopupBalance)
      ensures r.Raised? <==>
              && price.Some? && !r.CutOff?
              && ((settings.cutoff && lastTopupBalance != 0 && settings.mapping == [])
                  || (settings.notify && old(AlertAfter(CreditCost(price.value, u, settings.factor))) == AlertFails))
      ensures price.Some? && lastTopupBalance == 0 ==> r == Charged(false, None)
      ensures r.Charged? && !settings.notify ==> r.alert.None?
      ensures !r.Charged? ==> creditBalance == old(creditBalance) && transactions == old(transactions) && events == old(events)
      ensures r.Charged? ==>
                && events == old(events) + [Charge(h, price.value, u)]
                && transactions == old(transactions) + [ForMessage(h, price.value, u, settings.factor)]
                && creditBalance == old(creditBalance) - CreditCost(price.value, u, settings.factor)
                && (r.cutoffReached <==>
                    && settings.cutoff && lastTopupBalance != 0 && settings.mapping != []
                    && Spent(settings.mapping[0], creditBalance, lastTopupBalance))
                && AlertOf(settings, creditBalance, CreditCost(price.value, u, settings.factor), lastTopupBalance) ==
                   if r.alert.Some? then AlertAt(r.alert.value) else NoAlert
    {
      if price.None? {
        return NoPrice;
      }
      if CutoffApplies() && h.outbound {
        if settings.mapping == [] {
          return Raised;
        }
        BelowIsSpent(settings, creditBalance, lastTopupBalance);
        if IsBelow(settings, creditBalance, lastTopupBalance) {
          return CutOff;
        }
      }
      r := TakeAndNotify(h, price.value, u, CreditCost(price.value, u, settings.factor));
      if CutoffApplies() {
        BelowIsSpent(settings, creditBalance, lastTopupBalance);
      }
    }

    /** The charge itself; if notifying raises an exception, nothing has been charged. */
    method TakeAndNotify(h: Heading, price: Price, u: Usage, creditAmount: int) returns (r: Reply)
      requires Valid() && creditAmount == CreditCost(price, u, settings.factor)
      modifies this`creditBalance, this`transactions, this`events
      ensures Valid() && (r.Raised? || r.Charged?)
      ensures r.Raised? <==> old(Raises(creditAmount))
      ensures r.Raised? ==> creditBalance == old(creditBalance) && transactions == old(transactions) && events == old(events)
      ensures r.Charged? ==>
                && events == old(events) + [Charge(h, price, u)]
                && transactions == old(transactions) + [ForMessage(h, price, u, settings.factor)]
                && creditBalance == old(creditBalance) - creditAmount
                && (r.cutoffReached <==> BelowCutoff(creditBalance))
                && AlertOf(settings, creditBalance, creditAmount, lastTopupBalance) ==
                   if r.alert.Some? then AlertAt(r.alert.value) else NoAlert
    {
      var saved := (creditBalance, transactions);
      ghost var savedEvents := events;
      Take(h, price, u, creditAmount);
      r := Notify(creditAmount);
      if r.Raised? {
        creditBalance, transactions := saved.0, saved.1;
        events := savedEvents;
      }
    }

    /** Writes the transaction and takes its amount off the balance. */
    method Take(h: Heading, price: Price, u: Usage, creditAmount: int)
      requires Valid() && creditAmount == CreditCost(price, u, settings.factor)
      modifies this`creditBalance, this`transactions, this`events
      ensures Valid()
      ensures events == old(events) + [Charge(h, price, u)]
      ensures transactions == old(transactions) + [ForMessage(h, price, u, settings.factor)]
      ensures creditBalance == old(creditBalance) - creditAmount
    {
      var t := ForMessage(h, price, u, settings.factor);
      SumAmountsAdd(transactions, t);
      transactions := transactions + [t];
      events := events + [Charge(h, price, u)];
      creditBalance := creditBalance - creditAmount;
    }

    /** What follows a charge: the alert, and whether the cutoff has been reached. */
    method Notify(creditAmount: int) returns (r: Reply)
      ensures r.Raised? || r.Charged?
      ensures var alert := AlertOf(settings, creditBalance, creditAmount, lastTopupBalance);
              if (CutoffApplies() && settings.mapping == []) || alert == AlertFails then r.Raised?
              else
                && r.Charged? && (r.cutoffReached <==> BelowCutoff(creditBalance))
                && alert == if r.alert.Some? then AlertAt(r.alert.value) else NoAlert
    {
      var alert := None;
      if settings.notify {
        match AlertOf(settings, creditBalance, creditAmount, lastTopupBalance) {
          case NoAlert =>
          case AlertAt(level) => alert := Some(level);
          case AlertFails => return Raised;
        }
      }
      if CutoffApplies() {
        if settings.mapping == [] {
          return Raised;
        }
        if IsBelow(settings, creditBalance, lastTopupBalance) {
          return Charged(true, alert);
        }
      }
      return Charged(false, alert);
    }

    method LoadCredits(amount: int)
      requires Valid()
      modifies this
      ensures Valid()
      ensures events == old(events) + [Load(amount)] && transactions == old(transactions) + [ForTopUp(amount)]
      ensures creditBalance == old(creditBalance) + amount && lastTopupBalance == creditBalance
    {
      SumAmountsAdd(transactions, ForTopUp(amount));
      transactions := transactions + [ForTopUp(amount)];
      events := events + [Load(amount)];
      creditBalance := creditBalance + amount;
      lastTopupBalance := creditBalance;
    }
  }
}
