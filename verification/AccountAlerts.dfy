/**
 The alerts of an account from one top-up to the next: what the billing API answers to one request
 after another, refusals and exceptions included, is what `LowCredit` says of the charges it made.
 */
module AccountAlerts {
  import opened Wrappers
  import opened Credits
  import opened LowCredit
  import opened Ledger

  datatype Request = Request(heading: Heading, price: Option<Price>, usage: Usage)

  /** The credits charged by the events, in order. */
  function Amounts(events: seq<Event>, factor: real): seq<real> {
    if events == [] then []
    else
      var (before, e) := (Amounts(events[..|events| - 1], factor), events[|events| - 1]);
      if e.Charge? then before + [AsCredits(CreditCost(e.price, e.usage, factor))] else before
  }

  lemma AmountsAdd(events: seq<Event>, e: Event, factor: real)
    requires e.Charge?
    ensures Amounts(events + [e], factor) == Amounts(events, factor) + [AsCredits(CreditCost(e.price, e.usage, factor))]
  {
    assert (events + [e])[..|events|] == events;
  }

  lemma OneMore(events: seq<Event>, e: Event, factor: real)
    requires e.Charge?
    ensures Amounts((events + [e])[|events|..], factor) == [AsCredits(CreditCost(e.price, e.usage, factor))]
  {
    assert (events + [e])[|events|..] == [] + [e];
    AmountsAdd([], e, factor);
  }

  lemma AsCreditsSubtracts(a: int, b: int)
    ensures AsCredits(a - b) == AsCredits(a) - AsCredits(b)
  {
  }

  lemma SumAdds(charges: seq<real>, amount: real)
    ensures Sum(charges + [amount]) == Sum(charges) + amount
  {
    assert (charges + [amount])[..|charges|] == charges;
  }

  /** The alerts so far, and the balance that is left of the start. */
  ghost predicate Recorded(settings: Settings, start: int, topup: int, charges: seq<real>, balance: int, alerts: seq<int>) {
    && AsCredits(balance) == AsCredits(start) - Sum(charges)
    && Alerts(settings.mapping, AsCredits(start), AsCredits(topup), charges) == Some(alerts)
  }

  lemma ChargeIsRecorded(settings: Settings, start: int, topup: int, charges: seq<real>, balance: int, alerts: seq<int>,
                         amount: int, alert: Option<int>)
    requires settings.notify && Recorded(settings, start, topup, charges, balance, alerts)
    requires AlertOf(settings, balance - amount, amount, topup) == if alert.Some? then AlertAt(alert.value) else NoAlert
    ensures Recorded(settings, start, topup, charges + [AsCredits(amount)], balance - amount,
                     if alert.Some? then alerts + [alert.value] else alerts)
  {
    AsCreditsSubtracts(balance, amount);
    SumAdds(charges, AsCredits(amount));
    assert (charges + [AsCredits(amount)])[..|charges|] == charges;
  }

  /** The events since a moment at which there were `n` of them. */
  ghost function Since(account: Account, n: nat): seq<Event>
    reads account
    requires n <= |account.events|
  {
    account.events[n..]
  }

  /** The alerts tell where the balance stands, if they can be expected to. */
  ghost predicate TellsOf(settings: Settings, levels: seq<int>, start: int, topup: int, charges: seq<real>, balance: int, alerts: seq<int>) {
    topup > 0 && NoneNegative(charges) && Sorted(levels) && Maps(levels, settings.mapping) ==>
      Tells(Some(alerts), LevelOf(settings.mapping, AsCredits(start), AsCredits(topup)),
            LevelOf(settings.mapping, AsCredits(balance), AsCredits(topup)))
  }

  lemma RecordedTells(settings: Settings, levels: seq<int>, start: int, topup: int, charges: seq<real>, balance: int, alerts: seq<int>)
    requires Recorded(settings, start, topup, charges, balance, alerts)
    ensures TellsOf(settings, levels, start, topup, charges, balance, alerts)
  {
    if topup > 0 && NoneNegative(charges) && Sorted(levels) && Maps(levels, settings.mapping) {
      AlertsTellLevel(levels, settings.mapping, AsCredits(start), AsCredits(topup), charges);
    }
  }

  /** What a request leaves of the balance, and the alert that goes with it. */
  ghost predicate Answered(settings: Settings, topup: int, before: int, charged: Option<int>, alert: Option<int>, after: int) {
    if charged.None? then after == before
    else
      && after == before - charged.value
      && AlertOf(settings, after, charged.value, topup) == if alert.Some? then AlertAt(alert.value) else NoAlert
  }

  lemma AnswerIsRecorded(settings: Settings, start: int, topup: int, charges: seq<real>, before: int, alerts: seq<int>,
                         charged: Option<int>, alert: Option<int>, after: int, charges': seq<real>, alerts': seq<int>)
    requires settings.notify && Recorded(settings, start, topup, charges, before, alerts)
    requires Answered(settings, topup, before, charged, alert, after)
    requires charges' == charges + if charged.Some? then [AsCredits(charged.value)] else []
    requires alerts' == if charged.Some? && alert.Some? then alerts + [alert.value] else alerts
    ensures Recorded(settings, start, topup, charges', after, alerts')
  {
    if charged.Some? {
      ChargeIsRecorded(settings, start, topup, charges, before, alerts, charged.value, alert);
    } else {
      assert charges' == charges;
    }
  }

  /** One request: the amount charged, if it comes to a charge, and the level to alert about, if there is one. */
  method ChargeRequest(account: Account, request: Request) returns (charged: Option<int>, alert: Option<int>)
    requires account.Valid()
    modifies account`creditBalance, account`transactions, account`events
    ensures account.Valid() && old(account.events) <= account.events
    ensures Amounts(Since(account, |old(account.events)|), account.settings.factor) ==
            if charged.Some? then [AsCredits(charged.value)] else []
    ensures Answered(account.settings, account.lastTopupBalance, old(account.creditBalance), charged, alert, account.creditBalance)
  {
    var r := account.CreateTransaction(request.heading, request.price, request.usage);
    if !r.Charged? {
      assert Since(account, |old(account.events)|) == [];
      return None, None;
    }
    OneMore(old(account.events), Event.Charge(request.heading, request.price.value, request.usage), account.settings.factor);
    charged, alert := Some(CreditCost(request.price.value, request.usage, account.settings.factor)), r.alert;
  }

  /** What one request adds to the record of charges and alerts. */
  method ChargeOne(account: Account, request: Request, ghost start: int, ghost charges: seq<real>, alerts: seq<int>)
    returns (alerts': seq<int>, ghost charges': seq<real>)
    requires account.Valid() && account.settings.notify
    requires Recorded(account.settings, start, account.lastTopupBalance, charges, account.creditBalance, alerts)
    modifies account`creditBalance, account`transactions, account`events
    ensures account.Valid() && old(account.events) <= account.events
    ensures charges' == charges + Amounts(Since(account, |old(account.events)|), account.settings.factor)
    ensures Recorded(account.settings, start, account.lastTopupBalance, charges', account.creditBalance, alerts')
  {
    var charged, alert := ChargeRequest(account, request);
    alerts' := alerts;
    if charged.Some? && alert.Some? {
      alerts' := alerts + [alert.value];
    }
    charges' := charges + Amounts(Since(account, |old(account.events)|), account.settings.factor);
    AnswerIsRecorded(account.settings, start, account.lastTopupBalance, charges, old(account.creditBalance), alerts,
                     charged, alert, account.creditBalance, charges', alerts');
  }

  lemma {:induction false} AmountsAppend(a: seq<Event>, b: seq<Event>, factor: real)
    ensures Amounts(a + b, factor) == Amounts(a, factor) + Amounts(b, factor)
  {
    if b == [] {
      assert a + b == a;
    } else {
      AmountsAppend(a, b[..|b| - 1], factor);
      assert (a + b)[..|a + b| - 1] == a + b[..|b| - 1];
    }
  }

  lemma {:induction false} AmountsSince(before: seq<Event>, after: seq<Event>, n: nat, factor: real)
    requires before <= after && n <= |before|
    ensures Amounts(after[n..], factor) == Amounts(before[n..], factor) + Amounts(after[|before|..], factor)
  {
    AmountsAppend(before[n..], after[|before|..], factor);
    assert after[n..] == before[n..] + after[|before|..];
  }

  /**
   Any sequence of requests, with notifications on. The levels alerted are those of the charges that were
   made; so if these are not negative, and the last top-up left a positive balance, no level is alerted
   twice, each is lower than the one before, and the last one is the level at which the balance stands.
   */
  method ChargeAll(account: Account, requests: seq<Request>, ghost levels: seq<int>) returns (alerts: seq<int>)
    requires account.Valid() && account.settings.notify
    modifies account`creditBalance, account`transactions, account`events
    ensures account.Valid() && old(account.events) <= account.events
    ensures var charges := Amounts(Since(account, |old(account.events)|), account.settings.factor);
            && Recorded(account.settings, old(account.creditBalance), account.lastTopupBalance, charges, account.creditBalance, alerts)
            && TellsOf(account.settings, levels, old(account.creditBalance), account.lastTopupBalance, charges,
                       account.creditBalance, alerts)
  {
    alerts := [];
    ghost var (start, n) := (account.creditBalance, |account.events|);
    ghost var charges: seq<real> := [];
    for i := 0 to |requests|
      invariant account.Valid() && old(account.events) <= account.events
      invariant charges == Amounts(Since(account, n), account.settings.factor)
      invariant Recorded(account.settings, start, account.lastTopupBalance, charges, account.creditBalance, alerts)
    {
      ghost var before := account.events;
      alerts, charges := ChargeOne(account, requests[i], start, charges, alerts);
      AmountsSince(before, account.events, n, account.settings.factor);
    }
    RecordedTells(account.settings, levels, start, account.lastTopupBalance, charges, account.creditBalance, alerts);
  }
}
