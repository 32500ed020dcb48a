/**
 What a statement's credits add up to: the credits that the same transactions took off the balance,
 but for sessions so short that their length is stored as zero.
 */
module StatementCredits {
  import opened Wrappers
  import opened Credits
  import opened Ledger
  import opened Statements
  import Currency
  import opened Summaries

  // ---------- One event ----------

  lemma PricedAs(t: Transaction, units: int)
    requires t.unitTime.Some? && t.unitCost.Some? && t.unitCost.value != 0.0
    requires t.lengthCost == units as real * t.unitCost.value
    ensures PricedByUnit(t) && LengthUnits(t) == units
  {
    assert units as real * t.unitCost.value / t.unitCost.value == units as real;
  }

  lemma LengthIsPriced(e: Event)
    requires e.Charge? && LengthCost(e.price, e.usage) != 0.0
    ensures e.usage.sessionLength.Some? && e.price.unitLength.Some? && e.price.unitLength.value != 0.0
    ensures e.price.unitCost.Some? && e.price.unitCost.value != 0.0
    ensures LengthCost(e.price, e.usage) ==
            Ceiling(e.usage.sessionLength.value / e.price.unitLength.value) as real * e.price.unitCost.value
  {
  }

  /** What the billing API writes for a session's length is the cost of a number of units: each that was started. */
  lemma WrittenIsPriced(e: Event, factor: real)
    ensures PricedByUnit(Written(e, factor))
    ensures e.Charge? && LengthCost(e.price, e.usage) != 0.0 ==>
              LengthUnits(Written(e, factor)) == Ceiling(e.usage.sessionLength.value / e.price.unitLength.value)
  {
    var t := Written(e, factor);
    if t.lengthCost != 0.0 {
      LengthIsPriced(e);
      PricedAs(t, Ceiling(e.usage.sessionLength.value / e.price.unitLength.value));
    }
  }

  lemma AllWrittenArePriced(events: seq<Event>, factor: real)
    ensures forall t :: t in AllWritten(events, factor) ==> PricedByUnit(t)
  {
    var ts := AllWritten(events, factor);
    forall t | t in ts ensures PricedByUnit(t) {
      var i :| 0 <= i < |ts| && ts[i] == t;
      WrittenIsPriced(events[i], factor);
    }
  }

  /** The units that an event's part in a category is billed for: each started unit of a session's length, otherwise one. */
  function BilledUnits(c: Category, e: Event, factor: real): int
    requires Included(c, Written(e, factor))
  {
    if !c.SessionLength? then 1
    else
      LengthIsPriced(e);
      Ceiling(e.usage.sessionLength.value / e.price.unitLength.value)
  }

  /** The units of all events that have a part under the key. */
  function TotalBilled(c: Category, events: seq<Event>, k: Key, factor: real): int {
    if events == [] then 0
    else
      var e := events[|events| - 1];
      TotalBilled(c, events[..|events| - 1], k, factor)
      + if Included(c, Written(e, factor)) && Pick(c, Written(e, factor)).key == k then BilledUnits(c, e, factor) else 0
  }

  lemma UnitsAreBilled(c: Category, e: Event, factor: real)
    requires Included(c, Written(e, factor))
    ensures Units(c, Written(e, factor)) == BilledUnits(c, e, factor)
  {
    WrittenIsPriced(e, factor);
  }

  lemma {:induction false} TotalUnitsAreBilled(c: Category, events: seq<Event>, k: Key, factor: real)
    ensures TotalUnits(c, AllWritten(events, factor), k) == TotalBilled(c, events, k, factor)
  {
    if events == [] {
    } else {
      var last := |events| - 1;
      TotalUnitsAreBilled(c, events[..last], k, factor);
      assert AllWritten(events, factor)[..last] == AllWritten(events[..last], factor);
      if Included(c, Written(events[last], factor)) {
        UnitsAreBilled(c, events[last], factor);
      }
    }
  }

  /**
   Every item of a statement over what the billing API wrote: its units are the sum of what each event
   under its key is billed for, and units times unit cost is exactly the cost.
   */
  lemma StatementItemIsExact(c: Category, events: seq<Event>, k: Key, names: Names, factor: real)
    requires k in KeysOf(Selected(c, AllWritten(events, factor)))
    ensures var row := SummaryOf(Selected(c, AllWritten(events, factor)), k);
            Divisible(c, row) && Exact(MakeItem(c, row, names), TotalBilled(c, events, k, factor), UnitPrice(k))
  {
    AllWrittenArePriced(events, factor);
    ItemIsExact(c, AllWritten(events, factor), k, names);
    TotalUnitsAreBilled(c, events, k, factor);
  }

  // ---------- What an item says of its events ----------

  /** The text, with the provider behind it if there is one, by the name that is shown for it. */
  predicate ReadsAs(text: string, head: string, provider: Option<string>, names: Names) {
    match provider
    case None => text == head
    case Some(p) => text == head + " - " + if p in names.providers then names.providers[p] else p
  }

  /** The item is billed by the tag pool and on the channel of the event's tag, by the names that are shown for them. */
  predicate BilledOn(item: LineItem, h: Heading, names: Names) {
    && item.channel == Some(h.tagName)
    && (if h.tagPool in names.pools && names.pools[h.tagPool].displayName.Some?
        then names.pools[h.tagPool].displayName == Some(item.billedBy) else item.billedBy == h.tagPool)
    && (if h.tagPool in names.pools && names.pools[h.tagPool].deliveryClass.Some?
        then var class_ := names.pools[h.tagPool].deliveryClass.value;
             item.channelType == Some(if class_ in names.deliveryClasses then names.deliveryClasses[class_] else class_)
        else item.channelType == None)
  }

  /** What an item shows of a charge that it is for: where it was made, which way, and the price of a unit. */
  ghost predicate Shows(c: Category, item: LineItem, e: Event, names: Names)
    requires e.Charge?
  {
    var text := DescriptionText(item.description);
    match c
    case Message =>
      && item.unitCost == e.price.messageCost && BilledOn(item, e.heading, names)
      && ReadsAs(text, if e.heading.outbound then "Messages sent" else "Messages received", e.heading.provider, names)
    case Session =>
      && item.unitCost == e.price.sessionCost && BilledOn(item, e.heading, names)
      && ReadsAs(text, "Sessions (billed per session)", e.heading.provider, names)
    case SessionLength =>
      && e.price.unitCost == Some(item.unitCost) && BilledOn(item, e.heading, names)
      && e.price.unitLength.Some?
      && exists seconds ::
           && ReadsAs(text, "Session intervals (billed per " + seconds + "s)", e.heading.provider, names)
           && IsWrittenAs(WithoutFraction(e.price.unitLength.value), seconds)
    case Storage =>
      && item.unitCost == e.price.storageCost
      && item.channel == None && item.channelType == None && item.billedBy == SYSTEM_BILLER && text == "Storage cost"
  }

  /** The text is the number in decimal digits, behind a minus sign if it is negative. */
  predicate IsWrittenAs(n: int, text: string) {
    if n < 0 then text != "" && text[0] == '-' && Currency.AllDigits(text[1..]) && Currency.NatOf(text[1..]) == -n
    else Currency.AllDigits(text) && Currency.NatOf(text) == n
  }

  lemma NumbersAreWritten(n: int)
    ensures IsWrittenAs(n, WithSign(n))
  {
    if n < 0 {
      Currency.DigitsRead(-n);
      assert ("-" + Currency.Digits(-n))[1..] == Currency.Digits(-n);
    } else {
      Currency.DigitsRead(n);
    }
  }

  lemma EventIsShown(c: Category, e: Event, row: Row<Key>, names: Names, factor: real)
    requires Included(c, Written(e, factor)) && Pick(c, Written(e, factor)).key == row.key && Divisible(c, row)
    requires MakeItem(c, row, names).unitCost == UnitPrice(row.key)
    ensures e.Charge? && Shows(c, MakeItem(c, row, names), e, names)
  {
    if c.SessionLength? {
      var n := WithoutFraction(e.price.unitLength.value);
      NumbersAreWritten(n);
      assert ReadsAs(DescriptionText(MakeItem(c, row, names).description),
                     "Session intervals (billed per " + WithSign(n) + "s)", e.heading.provider, names);
    }
  }

  /** Every event that has a part in an item is shown by it. */
  lemma ItemShowsItsEvents(c: Category, events: seq<Event>, e: Event, names: Names, factor: real)
    requires e in events && Included(c, Written(e, factor))
    ensures var ts := AllWritten(events, factor);
            var row := SummaryOf(Selected(c, ts), Pick(c, Written(e, factor)).key);
            e.Charge? && Divisible(c, row) && Shows(c, MakeItem(c, row, names), e, names)
  {
    var ts := AllWritten(events, factor);
    var k := Pick(c, Written(e, factor)).key;
    var i :| 0 <= i < |events| && events[i] == e;
    assert ts[i] == Written(e, factor);
    PickedIsSelected(c, ts, ts[i]);
    StatementItemIsExact(c, events, k, names, factor);
    SummaryKey(Selected(c, ts), k);
    EventIsShown(c, e, SummaryOf(Selected(c, ts), k), names, factor);
  }

  lemma {:induction false} PickedIsSelected(c: Category, ts: seq<Transaction>, t: Transaction)
    requires t in ts && Included(c, t)
    ensures Pick(c, t).key in KeysOf(Selected(c, ts))
  {
    var last := |ts| - 1;
    if ts[last] == t {
      assert Pick(c, t) in Selected(c, ts);
    } else {
      assert t in ts[..last];
      PickedIsSelected(c, ts[..last], t);
      var m :| m in Selected(c, ts[..last]) && m.key == Pick(c, t).key;
      assert m in Selected(c, ts);
    }
  }

  /** What was written for a charge goes with itself: every part's credits are those for its cost, with its markup. */
  lemma CreditsFollowCosts(e: Event, factor: real)
    requires e.Charge?
    ensures var t := Written(e, factor);
            && t.messageCredits == ToCredits(t.messageCost, t.markup, factor)
            && t.storageCredits == ToCredits(t.storageCost, t.markup, factor)
            && t.sessionCredits == ToCredits(t.sessionCost, t.markup, factor)
            && t.lengthCredits == ToCredits(t.lengthCost, t.markup, factor)
            && t.markup == e.price.markup && t.heading == e.heading && (t.sessionCreated <==> e.usage.sessionCreated)
  {
  }

  // ---------- What was taken ----------

  /** The charge for an event, in quanta. */
  function Taken(e: Event, factor: real): int {
    if e.Charge? then CreditCost(e.price, e.usage, factor) else 0
  }

  /** The session has a length, but it is stored as none. */
  predicate LengthIsDropped(e: Event) {
    e.Charge? && e.usage.sessionLength.Some? && StoredLength(e.usage.sessionLength) == Some(0.0)
  }

  /** What was charged for the length of such a session. */
  function Dropped(e: Event, factor: real): int {
    if LengthIsDropped(e) then ToCredits(LengthCost(e.price, e.usage), e.price.markup, factor) else 0
  }

  ghost predicate StoredPrice(e: Event) {
    e.Charge? ==> Stored(e.price)
  }

  lemma NothingCostsNothing(markup: real, factor: real)
    ensures ToCredits(0.0, markup, factor) == 0
  {
    assert 0.0 * markup == 0.0;
  }

  /** A charge's parts are on the statement, or dropped. */
  lemma PartsAreItemised(e: Event, factor: real)
    requires e.Charge?
    ensures Itemised(Written(e, factor)) + Dropped(e, factor) == SumOfParts(e.price, e.usage, factor)
  {
    NothingCostsNothing(e.price.markup, factor);
  }

  /** What one event brings to the statement, and what is dropped, is what was taken; but for rounding with another factor. */
  lemma EventConserves(e: Event, factor: real)
    ensures -2 <= Itemised(Written(e, factor)) + Dropped(e, factor) - Taken(e, factor) <= 2
    ensures StoredPrice(e) && factor == DEFAULT_FACTOR ==>
              Itemised(Written(e, factor)) + Dropped(e, factor) == Taken(e, factor)
    ensures e.Load? ==> Itemised(Written(e, factor)) + Dropped(e, factor) == Taken(e, factor) == 0
  {
    if e.Charge? {
      PartsAreItemised(e, factor);
      RoundingBound(e.price, e.usage, factor);
      if StoredPrice(e) {
        DefaultFactorIsExact(e.price, e.usage);
      }
    }
  }

  // ---------- Whole runs of events ----------

  function TotalTaken(events: seq<Event>, factor: real): int {
    if events == [] then 0 else TotalTaken(events[..|events| - 1], factor) + Taken(events[|events| - 1], factor)
  }

  function TotalDropped(events: seq<Event>, factor: real): int {
    if events == [] then 0 else TotalDropped(events[..|events| - 1], factor) + Dropped(events[|events| - 1], factor)
  }

  function TotalLoaded(events: seq<Event>): int {
    if events == [] then 0
    else
      var last := events[|events| - 1];
      TotalLoaded(events[..|events| - 1]) + if last.Load? then last.amount else 0
  }

  function Charges(events: seq<Event>): nat {
    if events == [] then 0 else Charges(events[..|events| - 1]) + if events[|events| - 1].Charge? then 1 else 0
  }

  lemma WrittenLast(events: seq<Event>, factor: real)
    requires events != []
    ensures var last := |events| - 1;
            TotalItemised(AllWritten(events, factor)) ==
            TotalItemised(AllWritten(events[..last], factor)) + Itemised(Written(events[last], factor))
  {
    var last := |events| - 1;
    assert AllWritten(events, factor)[..last] == AllWritten(events[..last], factor);
  }

  lemma {:induction false} ItemisedOrDropped(events: seq<Event>)
    requires forall e :: e in events ==> StoredPrice(e)
    ensures TotalItemised(AllWritten(events, DEFAULT_FACTOR)) + TotalDropped(events, DEFAULT_FACTOR)
            == TotalTaken(events, DEFAULT_FACTOR)
  {
    if events == [] {
    } else {
      var last := |events| - 1;
      ItemisedOrDropped(events[..last]);
      EventConserves(events[last], DEFAULT_FACTOR);
      WrittenLast(events, DEFAULT_FACTOR);
    }
  }

  lemma {:induction false} ItemisedNearly(events: seq<Event>, factor: real)
    ensures var difference := TotalItemised(AllWritten(events, factor)) + TotalDropped(events, factor) - TotalTaken(events, factor);
            -2 * Charges(events) <= difference <= 2 * Charges(events)
  {
    if events == [] {
    } else {
      var last := |events| - 1;
      ItemisedNearly(events[..last], factor);
      EventConserves(events[last], factor);
      WrittenLast(events, factor);
    }
  }

  lemma {:induction false} AmountsAreTaken(events: seq<Event>, factor: real)
    ensures SumAmounts(AllWritten(events, factor)) == TotalLoaded(events) - TotalTaken(events, factor)
  {
    if events == [] {
    } else {
      var last := |events| - 1;
      AmountsAreTaken(events[..last], factor);
      assert AllWritten(events, factor)[..last] == AllWritten(events[..last], factor);
    }
  }

  /** The credits on a statement and those that were dropped are what was taken. */
  lemma StatementConserves(events: seq<Event>, names: Names, items: seq<LineItem>)
    requires forall e :: e in events ==> StoredPrice(e)
    requires IsStatement(AllWritten(events, DEFAULT_FACTOR), names, items)
    ensures CreditsOf(items) + TotalDropped(events, DEFAULT_FACTOR) == TotalTaken(events, DEFAULT_FACTOR)
  {
    StatementTotals(AllWritten(events, DEFAULT_FACTOR), names, items);
    ItemisedOrDropped(events);
  }

  /** With any factor and any prices they differ by at most two quanta for each charge. */
  lemma StatementNearlyConserves(events: seq<Event>, names: Names, items: seq<LineItem>, factor: real)
    requires IsStatement(AllWritten(events, factor), names, items)
    ensures var difference := CreditsOf(items) + TotalDropped(events, factor) - TotalTaken(events, factor);
            -2 * Charges(events) <= difference <= 2 * Charges(events)
  {
    StatementTotals(AllWritten(events, factor), names, items);
    ItemisedNearly(events, factor);
  }

  /** A statement over all of an account's transactions explains its balance. */
  lemma BalanceIsStated(account: Account, names: Names, items: seq<LineItem>)
    requires account.Valid() && account.settings.factor == DEFAULT_FACTOR
    requires forall e :: e in account.events ==> StoredPrice(e)
    requires IsStatement(account.transactions, names, items)
    ensures account.creditBalance ==
            account.openingBalance + TotalLoaded(account.events) - CreditsOf(items)
            - TotalDropped(account.events, DEFAULT_FACTOR)
  {
    StatementConserves(account.events, names, items);
    AmountsAreTaken(account.events, DEFAULT_FACTOR);
  }

  // ---------- When nothing is dropped ----------

  /** A charge at a price as the database keeps it; unit lengths have three decimal places there. */
  ghost predicate AsStored(e: Event) {
    StoredPrice(e) && (e.Charge? && e.price.unitLength.Some? ==> Whole(e.price.unitLength.value, 1000.0))
  }

  /** A session under half a millisecond of which a unit was started, where started units cost something. */
  predicate TooShort(e: Event) {
    && e.Charge? && e.price.markup != -100.0
    && e.price.unitCost.Some? && e.price.unitCost.value != 0.0
    && e.price.unitLength.Some? && e.price.unitLength.value != 0.0
    && e.usage.sessionLength.Some?
    && var length := e.usage.sessionLength.value;
       -0.0005 < length < 0.0005 && length != 0.0 && (length > 0.0 <==> e.price.unitLength.value > 0.0)
  }

  /** Charging for a session's length takes nothing below zero. */
  predicate ChargesNoLess(e: Event) {
    e.Charge? ==> (e.price.unitCost.Some? ==> e.price.unitCost.value >= 0.0) && e.price.markup >= -100.0
  }

  lemma CreditsOfCost(cost: real, markup: real)
    requires Whole(cost, 1000.0) && Whole(markup, 100.0)
    ensures ToCredits(cost, markup, DEFAULT_FACTOR) == 0 <==> cost == 0.0 || markup == -100.0
    ensures cost >= 0.0 && markup >= -100.0 ==> ToCredits(cost, markup, DEFAULT_FACTOR) >= 0
  {
    WholeCredits(cost, markup);
    assert Unrounded(cost, markup, DEFAULT_FACTOR) == cost * (100.0 + markup) * 100000.0;
    Product(cost, 100.0 + markup);
  }

  lemma Product(x: real, y: real)
    ensures x * y == 0.0 <==> x == 0.0 || y == 0.0
    ensures x >= 0.0 && y >= 0.0 ==> x * y >= 0.0
  {
  }

  lemma StoredAsZero(length: real)
    ensures StoredLength(Some(length)) == Some(0.0) <==> -0.0005 < length < 0.0005
  {
  }

  /** Units are longer than such a session: one of them is started, or none if the session runs the other way. */
  lemma StartedUnits(length: real, unit: real)
    requires -0.0005 < length < 0.0005 && length != 0.0 && unit != 0.0 && Whole(unit, 1000.0)
    ensures Ceiling(length / unit) == if length > 0.0 <==> unit > 0.0 then 1 else 0
  {
    var ratio := length / unit;
    assert ratio * unit == length;
    if unit > 0.0 {
      assert unit * 1000.0 >= 1.0;
      RatioIsSmall(ratio, unit);
    } else {
      assert unit * 1000.0 <= -1.0;
      assert -ratio * -unit == ratio * unit;
      RatioIsSmall(ratio, -unit);
    }
  }

  lemma RatioIsSmall(ratio: real, unit: real)
    requires unit > 0.0 && -unit < ratio * unit < unit && ratio * unit != 0.0
    ensures -1.0 < ratio < 1.0 && (ratio > 0.0 <==> ratio * unit > 0.0) && ratio != 0.0
  {
  }

  lemma DroppedIfTooShort(e: Event)
    requires AsStored(e)
    ensures Dropped(e, DEFAULT_FACTOR) != 0 <==> TooShort(e)
    ensures ChargesNoLess(e) ==> Dropped(e, DEFAULT_FACTOR) >= 0
  {
    if e.Charge? && e.usage.sessionLength.Some? {
      StoredAsZero(e.usage.sessionLength.value);
      if LengthIsDropped(e) {
        WholeLengthCost(e.price, e.usage);
        CreditsOfCost(LengthCost(e.price, e.usage), e.price.markup);
        LengthCostIfTooShort(e.price, e.usage);
      }
    }
  }

  lemma LengthCostIfTooShort(p: Price, u: Usage)
    requires u.sessionLength.Some? && -0.0005 < u.sessionLength.value < 0.0005
    requires p.unitLength.Some? ==> Whole(p.unitLength.value, 1000.0)
    ensures LengthCost(p, u) ==
            if && p.unitCost.Some? && p.unitLength.Some? && p.unitLength.value != 0.0 && u.sessionLength.value != 0.0
               && (u.sessionLength.value > 0.0 <==> p.unitLength.value > 0.0)
            then p.unitCost.value else 0.0
  {
    if p.unitLength.Some? && p.unitLength.value != 0.0 && u.sessionLength.value != 0.0 {
      StartedUnits(u.sessionLength.value, p.unitLength.value);
    }
  }

  ghost predicate AllAsStored(events: seq<Event>) {
    forall e :: e in events ==> AsStored(e)
  }

  predicate NoneTooShort(events: seq<Event>) {
    forall e :: e in events ==> !TooShort(e)
  }

  predicate NoneChargesLess(events: seq<Event>) {
    forall e :: e in events ==> ChargesNoLess(e)
  }

  lemma {:induction false} TotalDroppedIfAny(events: seq<Event>)
    requires AllAsStored(events)
    ensures NoneTooShort(events) ==> TotalDropped(events, DEFAULT_FACTOR) == 0
    ensures NoneChargesLess(events) ==> TotalDropped(events, DEFAULT_FACTOR) >= 0
    ensures NoneChargesLess(events) && TotalDropped(events, DEFAULT_FACTOR) == 0 ==> NoneTooShort(events)
  {
    if events == [] {
    } else {
      var last := |events| - 1;
      TotalDroppedIfAny(events[..last]);
      DroppedIfTooShort(events[last]);
      assert events == events[..last] + [events[last]];
    }
  }

  lemma StatementBalances(events: seq<Event>, names: Names, items: seq<LineItem>)
    requires AllAsStored(events) && IsStatement(AllWritten(events, DEFAULT_FACTOR), names, items)
    ensures CreditsOf(items) + TotalDropped(events, DEFAULT_FACTOR) == TotalTaken(events, DEFAULT_FACTOR)
  {
    StatementConserves(events, names, items);
  }

  /**
   A statement's credits are exactly what was taken off the balance if no session was charged for its length that
   lasted less than half a millisecond; and only then, unless some of what was charged for lengths is negative.
   */
  lemma StatementIsComplete(events: seq<Event>, names: Names, items: seq<LineItem>)
    requires AllAsStored(events) && IsStatement(AllWritten(events, DEFAULT_FACTOR), names, items)
    ensures NoneTooShort(events) ==> CreditsOf(items) == TotalTaken(events, DEFAULT_FACTOR)
    ensures NoneChargesLess(events) ==> (CreditsOf(items) == TotalTaken(events, DEFAULT_FACTOR) <==> NoneTooShort(events))
  {
    StatementBalances(events, names, items);
    CompleteIfNoneDropped(events, CreditsOf(items));
  }

  lemma CompleteIfNoneDropped(events: seq<Event>, credits: int)
    requires AllAsStored(events)
    requires credits + TotalDropped(events, DEFAULT_FACTOR) == TotalTaken(events, DEFAULT_FACTOR)
    ensures NoneTooShort(events) ==> credits == TotalTaken(events, DEFAULT_FACTOR)
    ensures NoneChargesLess(events) ==> (credits == TotalTaken(events, DEFAULT_FACTOR) <==> NoneTooShort(events))
  {
    TotalDroppedIfAny(events);
  }

  /** The statement after each event. */
  ghost predicate StatementsOf(events: seq<Event>, names: Names, statements: seq<seq<LineItem>>) {
    && |statements| == |events| + 1
    && forall n :: 0 <= n < |statements| ==> IsStatement(AllWritten(events[..n], DEFAULT_FACTOR), names, statements[n])
  }

  /** The statement has all that was taken up to an event. */
  predicate CompleteAt(events: seq<Event>, statements: seq<seq<LineItem>>, n: nat)
    requires n <= |events| && |statements| == |events| + 1
  {
    CreditsOf(statements[n]) == TotalTaken(events[..n], DEFAULT_FACTOR)
  }

  /** What was dropped up to an event. */
  function DroppedBy(events: seq<Event>, n: nat): int
    requires n <= |events|
  {
    TotalDropped(events[..n], DEFAULT_FACTOR)
  }

  lemma {:induction false} NextIsDropped(events: seq<Event>, n: nat)
    requires n < |events|
    ensures DroppedBy(events, n + 1) == DroppedBy(events, n) + Dropped(events[n], DEFAULT_FACTOR)
  {
    assert events[..n + 1][..n] == events[..n];
  }

  lemma {:induction false} NothingIsEverDropped(events: seq<Event>)
    requires AllAsStored(events)
    ensures (forall n :: 0 <= n <= |events| ==> DroppedBy(events, n) == 0) <==> NoneTooShort(events)
  {
    if forall n :: 0 <= n <= |events| ==> DroppedBy(events, n) == 0 {
      forall n | 0 <= n < |events| ensures !TooShort(events[n]) {
        NextIsDropped(events, n);
        DroppedIfTooShort(events[n]);
      }
    } else {
      var n :| 0 <= n <= |events| && DroppedBy(events, n) != 0;
      TotalDroppedIfAny(events[..n]);
      var e :| e in events[..n] && TooShort(e);
      assert e in events;
    }
  }

  /** Whatever the signs of prices, all statements of an account as it grows are complete exactly when no session was too short. */
  lemma {:induction false} AllStatementsAreComplete(events: seq<Event>, names: Names, statements: seq<seq<LineItem>>)
    requires AllAsStored(events) && StatementsOf(events, names, statements)
    ensures (forall n :: 0 <= n <= |events| ==> CompleteAt(events, statements, n)) <==> NoneTooShort(events)
  {
    forall n | 0 <= n <= |events| ensures CompleteAt(events, statements, n) <==> DroppedBy(events, n) == 0 {
      EachStatementBalances(events, names, statements, n);
    }
    NothingIsEverDropped(events);
  }

  lemma {:induction false} EachStatementBalances(events: seq<Event>, names: Names, statements: seq<seq<LineItem>>, n: nat)
    requires AllAsStored(events) && StatementsOf(events, names, statements) && n <= |events|
    ensures CompleteAt(events, statements, n) <==> DroppedBy(events, n) == 0
  {
    assert forall e :: e in events[..n] ==> e in events;
    StatementBalances(events[..n], names, statements[n]);
  }

  // A session of less than half a millisecond, where every 20 seconds cost one cent.

  const BRIEF_PRICE := Price(0.0, 0.0, 0.0, Some(1.0), Some(20.0), 0.0)

  const BRIEF_USAGE := Usage(false, Some(0.0004))

  const BRIEF_SESSION := Charge(Heading("pool", "tag", None, true), BRIEF_PRICE, BRIEF_USAGE)

  lemma BriefCost()
    ensures LengthCost(BRIEF_PRICE, BRIEF_USAGE) == 1.0
  {
    StartedUnits(0.0004, 20.0);
  }

  lemma BriefCredits()
    ensures CreditCost(BRIEF_PRICE, BRIEF_USAGE, DEFAULT_FACTOR) == ToCredits(1.0, 0.0, DEFAULT_FACTOR) == 10000000
  {
    BriefCost();
    assert Unrounded(1.0, 0.0, DEFAULT_FACTOR) == 10000000.0;
  }

  lemma BriefIsTooShort()
    ensures AsStored(BRIEF_SESSION) && ChargesNoLess(BRIEF_SESSION) && TooShort(BRIEF_SESSION)
    ensures LengthIsDropped(BRIEF_SESSION)
  {
    StoredAsZero(0.0004);
  }

  /** It is charged ten credits, and no statement has any of them. */
  lemma BriefSessionIsDropped()
    ensures AsStored(BRIEF_SESSION) && ChargesNoLess(BRIEF_SESSION) && TooShort(BRIEF_SESSION)
    ensures Taken(BRIEF_SESSION, DEFAULT_FACTOR) == Dropped(BRIEF_SESSION, DEFAULT_FACTOR) == 10000000
    ensures Itemised(Written(BRIEF_SESSION, DEFAULT_FACTOR)) == 0
  {
    BriefIsTooShort();
    BriefCost();
    BriefCredits();
    EventConserves(BRIEF_SESSION, DEFAULT_FACTOR);
  }
}
