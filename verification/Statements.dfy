/**
 Monthly statements: an account's transactions are grouped and totalled, and every group becomes
 a line item with units, a unit cost, a cost and credits.
 */
module Statements {
  import opened Wrappers
  import opened Credits
  import opened Currency
  import opened Ledger
  import opened Ordering
  import opened Summaries

  /** `settings.SYSTEM_BILLER_NAME` unless the settings say otherwise. */
  const SYSTEM_BILLER := "Vumi"

  datatype Category = Message | Session | SessionLength | Storage

  /** The fields that each category's transactions are grouped by. */
  datatype Key =
    | MessageKey(tagPool: string, tagName: string, provider: Option<string>, outbound: bool,
                 messageCost: real, messageCredits: int, markup: real)
    | SessionKey(tagPool: string, tagName: string, provider: Option<string>,
                 sessionCost: real, sessionCredits: int, markup: real)
    | LengthKey(tagPool: string, tagName: string, provider: Option<string>,
                unitTime: Option<real>, unitCost: Option<real>, markup: real)
    | StorageKey(storageCost: real, storageCredits: int)

  function Optional(text: Option<string>): Field {
    if text.Some? then Word(text.value) else Missing
  }

  function OptionalNumber(x: Option<real>): Field {
    if x.Some? then Number(x.value) else Missing
  }

  /** A key as the tuple that it is in the source, behind a number that tells the categories apart. */
  function Fields(k: Key): seq<Field> {
    match k
    case MessageKey(pool, name, provider, outbound, cost, credits, markup) =>
      [Number(0.0), Word(pool), Word(name), Optional(provider), Word(if outbound then "Outbound" else "Inbound"),
       Number(cost), Number(credits as real), Number(markup)]
    case SessionKey(pool, name, provider, cost, credits, markup) =>
      [Number(1.0), Word(pool), Word(name), Optional(provider), Number(cost), Number(credits as real), Number(markup)]
    case LengthKey(pool, name, provider, unitTime, unitCost, markup) =>
      [Number(2.0), Word(pool), Word(name), Optional(provider), OptionalNumber(unitTime), OptionalNumber(unitCost), Number(markup)]
    case StorageKey(cost, credits) => [Number(3.0), Number(cost), Number(credits as real)]
  }

  predicate ByFields(a: Key, b: Key) {
    TupleLe(Fields(a), Fields(b))
  }

  lemma FieldsTellKeys(a: Key, b: Key)
    requires Fields(a) == Fields(b)
    ensures a == b
  {
    var (f, g) := (Fields(a), Fields(b));
    assert f[0] == g[0] && f[1] == g[1] && f[2] == g[2];
    assert |f| == |g|;
    if !a.StorageKey? {
      assert f[3] == g[3] && f[4] == g[4] && f[5] == g[5] && f[6] == g[6];
      if a.MessageKey? {
        assert f[7] == g[7] && |"Outbound"| != |"Inbound"|;
      }
    }
  }

  lemma KeysAreOrdered()
    ensures TotalOrder(ByFields)
  {
    forall a, b | Fields(a) == Fields(b) ensures a == b {
      FieldsTellKeys(a, b);
    }
    ByTuples(Fields, ByFields);
  }

  /** The first of two fields that differs decides; with none that does, the answer is given. */
  predicate FirstDifference(a: Field, b: Field, otherwise: bool) {
    if a != b then FieldLe(a, b) else otherwise
  }

  lemma {:induction false} TuplesCompare(a: seq<Field>, b: seq<Field>)
    requires |a| == |b|
    ensures TupleLe(a, b) <==> if a == [] then true else FirstDifference(a[0], b[0], TupleLe(a[1..], b[1..]))
  {
  }

  lemma TuplesOfEight(a: seq<Field>, b: seq<Field>)
    requires |a| == |b| == 8 && a[0] == b[0]
    ensures TupleLe(a, b) <==>
            FirstDifference(a[1], b[1], FirstDifference(a[2], b[2], FirstDifference(a[3], b[3], FirstDifference(a[4], b[4],
              FirstDifference(a[5], b[5], FirstDifference(a[6], b[6], FirstDifference(a[7], b[7], true)))))))
  {
    TuplesCompare(a, b);
    TuplesOfSeven(a[1..], b[1..]);
  }

  lemma TuplesOfSeven(a: seq<Field>, b: seq<Field>)
    requires |a| == |b| == 7
    ensures TupleLe(a, b) <==>
            FirstDifference(a[0], b[0], FirstDifference(a[1], b[1], FirstDifference(a[2], b[2], FirstDifference(a[3], b[3],
              FirstDifference(a[4], b[4], FirstDifference(a[5], b[5], FirstDifference(a[6], b[6], true)))))))
  {
    TuplesCompare(a, b);
    TuplesCompare(a[1..], b[1..]);
    TuplesCompare(a[2..], b[2..]);
    TuplesCompare(a[3..], b[3..]);
    TuplesCompare(a[4..], b[4..]);
    TuplesCompare(a[5..], b[5..]);
    TuplesCompare(a[6..], b[6..]);
    TuplesCompare(a[7..], b[7..]);
  }

  /** Rows for messages come by tag pool, then tag, provider, direction, cost, credits and markup; unknown providers first. */
  lemma MessagesInOrder(a: Key, b: Key)
    requires a.MessageKey? && b.MessageKey?
    ensures ByFields(a, b) <==>
            if a.tagPool != b.tagPool then Le(a.tagPool, b.tagPool)
            else if a.tagName != b.tagName then Le(a.tagName, b.tagName)
            else if a.provider != b.provider then KeyLe(a.provider, b.provider)
            else if a.outbound != b.outbound then b.outbound
            else if a.messageCost != b.messageCost then a.messageCost < b.messageCost
            else if a.messageCredits != b.messageCredits then a.messageCredits < b.messageCredits
            else a.markup <= b.markup
  {
    TuplesOfEight(Fields(a), Fields(b));
    DirectionsInOrder();
  }

  lemma SessionsInOrder(a: Key, b: Key)
    requires a.SessionKey? && b.SessionKey?
    ensures ByFields(a, b) <==>
            if a.tagPool != b.tagPool then Le(a.tagPool, b.tagPool)
            else if a.tagName != b.tagName then Le(a.tagName, b.tagName)
            else if a.provider != b.provider then KeyLe(a.provider, b.provider)
            else if a.sessionCost != b.sessionCost then a.sessionCost < b.sessionCost
            else if a.sessionCredits != b.sessionCredits then a.sessionCredits < b.sessionCredits
            else a.markup <= b.markup
  {
    TuplesOfSeven(Fields(a), Fields(b));
  }

  lemma LengthsInOrder(a: Key, b: Key)
    requires a.LengthKey? && b.LengthKey?
    ensures ByFields(a, b) <==>
            if a.tagPool != b.tagPool then Le(a.tagPool, b.tagPool)
            else if a.tagName != b.tagName then Le(a.tagName, b.tagName)
            else if a.provider != b.provider then KeyLe(a.provider, b.provider)
            else if a.unitTime != b.unitTime then a.unitTime.None? || (b.unitTime.Some? && a.unitTime.value < b.unitTime.value)
            else if a.unitCost != b.unitCost then a.unitCost.None? || (b.unitCost.Some? && a.unitCost.value < b.unitCost.value)
            else a.markup <= b.markup
  {
    TuplesOfSeven(Fields(a), Fields(b));
  }

  lemma StorageInOrder(a: Key, b: Key)
    requires a.StorageKey? && b.StorageKey?
    ensures ByFields(a, b) <==>
            if a.storageCost != b.storageCost then a.storageCost < b.storageCost else a.storageCredits <= b.storageCredits
  {
    var (f, g) := (Fields(a), Fields(b));
    TuplesCompare(f, g);
    TuplesCompare(f[1..], g[1..]);
    TuplesCompare(f[2..], g[2..]);
    TuplesCompare(f[3..], g[3..]);
  }

  lemma DirectionsInOrder()
    ensures Le("Inbound", "Outbound") && !Le("Outbound", "Inbound") && "Inbound" != "Outbound"
  {
    assert "Inbound"[0] < "Outbound"[0];
  }

  /** Which transactions have a part in a category. */
  predicate Included(c: Category, t: Transaction) {
    && t.kind.MessageTransaction?
    && (c.Session? ==> t.sessionCreated)
    && (c.SessionLength? ==> t.sessionLength.Some? && t.sessionLength.value != 0.0 && t.lengthCost != 0.0)
  }

  function Pick(c: Category, t: Transaction): Picked<Key> {
    var h := t.heading;
    match c
    case Message =>
      Picked(MessageKey(h.tagPool, h.tagName, h.provider, h.outbound, t.messageCost, t.messageCredits, t.markup),
             Some(t.messageCost), Some(t.messageCredits))
    case Session =>
      Picked(SessionKey(h.tagPool, h.tagName, h.provider, t.sessionCost, t.sessionCredits, t.markup),
             Some(t.sessionCost), Some(t.sessionCredits))
    case SessionLength =>
      Picked(LengthKey(h.tagPool, h.tagName, h.provider, t.unitTime, t.unitCost, t.markup),
             Some(t.lengthCost), Some(t.lengthCredits))
    case Storage =>
      Picked(StorageKey(t.storageCost, t.storageCredits), Some(t.storageCost), Some(t.storageCredits))
  }

  function Selected(c: Category, ts: seq<Transaction>): seq<Picked<Key>> {
    if ts == [] then []
    else
      var last := |ts| - 1;
      var before := Selected(c, ts[..last]);
      if Included(c, ts[last]) then before + [Pick(c, ts[last])] else before
  }

  /** Transactions are grouped together exactly if they are alike in what the category tells apart. */
  predicate GroupedAlike(c: Category, a: Transaction, b: Transaction) {
    match c
    case Message =>
      && a.heading == b.heading
      && a.messageCost == b.messageCost && a.messageCredits == b.messageCredits && a.markup == b.markup
    case Session =>
      && a.heading.tagPool == b.heading.tagPool && a.heading.tagName == b.heading.tagName
      && a.heading.provider == b.heading.provider
      && a.sessionCost == b.sessionCost && a.sessionCredits == b.sessionCredits && a.markup == b.markup
    case SessionLength =>
      && a.heading.tagPool == b.heading.tagPool && a.heading.tagName == b.heading.tagName
      && a.heading.provider == b.heading.provider
      && a.unitTime == b.unitTime && a.unitCost == b.unitCost && a.markup == b.markup
    case Storage => a.storageCost == b.storageCost && a.storageCredits == b.storageCredits
  }

  lemma GroupsAreAlike(c: Category, a: Transaction, b: Transaction)
    ensures Pick(c, a).key == Pick(c, b).key <==> GroupedAlike(c, a, b)
  {
  }

  // ---------- Line items ----------

  datatype Description =
    | MessagesReceived(provider: Option<string>)
    | MessagesSent(provider: Option<string>)
    | SessionsBilledPerSession(provider: Option<string>)
    | SessionIntervals(seconds: int, provider: Option<string>)
    | StorageCost

  function Provided(text: string, provider: Option<string>): string {
    if provider.None? then text else text + " - " + provider.value
  }

  function WithSign(n: int): string {
    if n < 0 then "-" + Digits(-n) else Digits(n)
  }

  function DescriptionText(d: Description): string {
    match d
    case MessagesReceived(p) => Provided("Messages received", p)
    case MessagesSent(p) => Provided("Messages sent", p)
    case SessionsBilledPerSession(p) => Provided("Sessions (billed per session)", p)
    case SessionIntervals(seconds, p) => Provided("Session intervals (billed per " + WithSign(seconds) + "s)", p)
    case StorageCost => "Storage cost"
  }

  datatype LineItem = LineItem(
    units: real, cost: real, unitCost: real, credits: Option<int>,
    channel: Option<string>, billedBy: string, channelType: Option<string>, description: Description)

  /** What is known about a tag pool, and the names that are shown for it. */
  datatype Pool = Pool(displayName: Option<string>, deliveryClass: Option<string>)
  datatype Names = Names(pools: map<string, Pool>, deliveryClasses: map<string, string>, providers: map<string, string>)

  function TagPoolName(pool: string, names: Names): string {
    if pool !in names.pools || names.pools[pool].displayName.None? then pool
    else names.pools[pool].displayName.value
  }

  function ChannelType(pool: string, names: Names): Option<string> {
    if pool !in names.pools || names.pools[pool].deliveryClass.None? then None
    else
      var class_ := names.pools[pool].deliveryClass.value;
      Some(if class_ in names.deliveryClasses then names.deliveryClasses[class_] else class_)
  }

  function ProviderName(provider: Option<string>, names: Names): Option<string> {
    if provider.None? || provider.value !in names.providers then provider
    else Some(names.providers[provider.value])
  }

  /** A number as `%d` prints it, without its fraction. */
  function WithoutFraction(x: real): (n: int)
    ensures if x >= 0.0 then n as real <= x < n as real + 1.0 else n as real - 1.0 < x <= n as real
  {
    if x >= 0.0 then x.Floor else -(-x).Floor
  }

  function CostOrZero(cost: Option<real>): real {
    if cost.Some? then cost.value else 0.0
  }

  predicate OfCategory(c: Category, k: Key) {
    match c
    case Message => k.MessageKey?
    case Session => k.SessionKey?
    case SessionLength => k.LengthKey?
    case Storage => k.StorageKey?
  }

  /** What dividing by a row's count or its unit cost needs. */
  predicate Divisible(c: Category, row: Row<Key>) {
    && OfCategory(c, row.key)
    && (c.SessionLength? ==> row.key.unitTime.Some? && row.key.unitCost.Some? && row.key.unitCost.value != 0.0)
    && (!c.SessionLength? ==> row.count != 0)
  }

  function MakeItem(c: Category, row: Row<Key>, names: Names): LineItem
    requires Divisible(c, row)
  {
    var cost := CostOrZero(row.cost);
    var k := row.key;
    match c
    case Message =>
      LineItem(row.count as real, cost, cost / row.count as real, row.credits,
               Some(k.tagName), TagPoolName(k.tagPool, names), ChannelType(k.tagPool, names),
               if k.outbound then MessagesSent(ProviderName(k.provider, names))
               else MessagesReceived(ProviderName(k.provider, names)))
    case Session =>
      LineItem(row.count as real, cost, cost / row.count as real, row.credits,
               Some(k.tagName), TagPoolName(k.tagPool, names), ChannelType(k.tagPool, names),
               SessionsBilledPerSession(ProviderName(k.provider, names)))
    case SessionLength =>
      LineItem(cost / k.unitCost.value, cost, k.unitCost.value, row.credits,
               Some(k.tagName), TagPoolName(k.tagPool, names), ChannelType(k.tagPool, names),
               SessionIntervals(WithoutFraction(k.unitTime.value), ProviderName(k.provider, names)))
    case Storage =>
      LineItem(row.count as real, cost, cost / row.count as real, row.credits,
               None, SYSTEM_BILLER, None, StorageCost)
  }

  // ---------- Units and their prices ----------

  /** The number of units in a session's length, as its cost and the cost of a unit tell it. */
  function LengthUnits(t: Transaction): int {
    if t.unitCost.None? || t.unitCost.value == 0.0 then 0 else (t.lengthCost / t.unitCost.value).Floor
  }

  /** A cost for a session's length is the cost of a number of units. */
  predicate PricedByUnit(t: Transaction) {
    t.lengthCost != 0.0 ==>
      && t.unitTime.Some? && t.unitCost.Some? && t.unitCost.value != 0.0
      && t.lengthCost == LengthUnits(t) as real * t.unitCost.value
  }

  /** The units a transaction adds to its group. */
  function Units(c: Category, t: Transaction): int {
    if c.SessionLength? then LengthUnits(t) else 1
  }

  function TotalUnits(c: Category, ts: seq<Transaction>, k: Key): int {
    if ts == [] then 0
    else
      var last := |ts| - 1;
      TotalUnits(c, ts[..last], k)
      + if Included(c, ts[last]) && Pick(c, ts[last]).key == k then Units(c, ts[last]) else 0
  }

  /** The price of one unit, as it stands in the key that the units are grouped under. */
  function UnitPrice(k: Key): real {
    match k
    case MessageKey(_, _, _, _, cost, _, _) => cost
    case SessionKey(_, _, _, cost, _, _) => cost
    case LengthKey(_, _, _, _, cost, _) => CostOrZero(cost)
    case StorageKey(cost, _) => cost
  }

  lemma PartIsUnitsTimesPrice(c: Category, t: Transaction)
    requires Included(c, t) && PricedByUnit(t)
    ensures var m := Pick(c, t);
            Amounts(m.cost, Units(c, t), UnitPrice(m.key))
  {
  }

  /** The cost is that of so many units at the price. */
  predicate Amounts(cost: Option<real>, units: int, price: real) {
    cost.Some? && cost.value == units as real * price
  }

  lemma CostOfMoreUnits(cost: Option<real>, more: Option<real>, i: int, j: int, price: real)
    requires if cost.None? then i == 0 else Amounts(cost, i, price)
    requires Amounts(more, j, price)
    ensures Amounts(AddCost(cost, more), i + j, price)
  {
    assert (i + j) as real * price == i as real * price + j as real * price;
  }

  /** A group's cost is that of its units at the price in its key; an empty group has no cost. */
  predicate CostsUnits(c: Category, r: Row<Key>, units: int, k: Key) {
    && (if r.count == 0 then r.cost == None && units == 0 else Amounts(r.cost, units, UnitPrice(k)))
    && (!c.SessionLength? ==> units == r.count)
  }

  lemma CostOfOneMore(c: Category, r: Row<Key>, units: int, k: Key, m: Picked<Key>, more: int)
    requires CostsUnits(c, r, units, k) && m.key == k && Amounts(m.cost, more, UnitPrice(k))
    requires !c.SessionLength? ==> more == 1
    ensures CostsUnits(c, Row(k, r.count + 1, AddCost(r.cost, m.cost), AddCredits(r.credits, m.credits)), units + more, k)
  {
    CostOfMoreUnits(r.cost, m.cost, units, more, UnitPrice(k));
  }

  /** One more transaction in front of which the group's cost is right. */
  lemma CostOfMore(c: Category, models: seq<Picked<Key>>, units: int, t: Transaction, k: Key)
    requires Included(c, t) && PricedByUnit(t)
    requires CostsUnits(c, SummaryOf(models, k), units, k)
    ensures CostsUnits(c, SummaryOf(models + [Pick(c, t)], k), units + if Pick(c, t).key == k then Units(c, t) else 0, k)
  {
    SummaryLast(models, Pick(c, t), k);
    if Pick(c, t).key == k {
      PartIsUnitsTimesPrice(c, t);
      CostOfOneMore(c, SummaryOf(models, k), units, k, Pick(c, t), Units(c, t));
    }
  }

  /** The cost of a group is its units at their common price. */
  lemma {:induction false} GroupCost(c: Category, ts: seq<Transaction>, k: Key)
    requires forall t :: t in ts ==> PricedByUnit(t)
    ensures CostsUnits(c, SummaryOf(Selected(c, ts), k), TotalUnits(c, ts, k), k)
  {
    if ts == [] {
    } else {
      var last := |ts| - 1;
      GroupCost(c, ts[..last], k);
      if Included(c, ts[last]) {
        CostOfMore(c, Selected(c, ts[..last]), TotalUnits(c, ts[..last], k), ts[last], k);
      }
    }
  }

  lemma {:induction false} KeyIsPicked(c: Category, ts: seq<Transaction>, k: Key) returns (t: Transaction)
    requires k in KeysOf(Selected(c, ts))
    ensures t in ts && Included(c, t) && Pick(c, t).key == k
    ensures SummaryOf(Selected(c, ts), k).count != 0
  {
    var last := |ts| - 1;
    t := ts[last];
    var before := Selected(c, ts[..last]);
    if Included(c, t) {
      SummaryLast(before, Pick(c, t), k);
    }
    if !(Included(c, t) && Pick(c, t).key == k) {
      t := KeyIsPicked(c, ts[..last], k);
    }
  }

  lemma GroupIsDivisible(c: Category, ts: seq<Transaction>, k: Key)
    requires forall t :: t in ts ==> PricedByUnit(t)
    requires k in KeysOf(Selected(c, ts))
    ensures var row := SummaryOf(Selected(c, ts), k);
            && row.key == k && Divisible(c, row)
            && Amounts(row.cost, TotalUnits(c, ts, k), UnitPrice(k))
            && (!c.SessionLength? ==> TotalUnits(c, ts, k) == row.count)
  {
    SummaryKey(Selected(c, ts), k);
    var t := KeyIsPicked(c, ts, k);
    GroupCost(c, ts, k);
  }

  /** So many units at the price, and a cost that is exactly theirs. */
  predicate Exact(item: LineItem, units: int, price: real) {
    item.units == units as real && item.unitCost == price && item.units * item.unitCost == item.cost
  }

  lemma ExactItem(c: Category, row: Row<Key>, units: int, names: Names)
    requires Divisible(c, row) && Amounts(row.cost, units, UnitPrice(row.key))
    requires !c.SessionLength? ==> units == row.count
    ensures Exact(MakeItem(c, row, names), units, UnitPrice(row.key))
  {
    var price := UnitPrice(row.key);
    if c.SessionLength? {
      DividedBack(units as real, price);
    } else {
      DividedBack(price, units as real);
    }
  }

  /**
   Every group can be made an item, with nothing divided by zero; its units are whole, the sum of
   the units of its transactions, each at the price that all of them have; and units times unit
   cost is exactly the cost.
   */
  lemma ItemIsExact(c: Category, ts: seq<Transaction>, k: Key, names: Names)
    requires forall t :: t in ts ==> PricedByUnit(t)
    requires k in KeysOf(Selected(c, ts))
    ensures var row := SummaryOf(Selected(c, ts), k);
            && row.key == k && Divisible(c, row)
            && Exact(MakeItem(c, row, names), TotalUnits(c, ts, k), UnitPrice(k))
  {
    GroupIsDivisible(c, ts, k);
    ExactItem(c, SummaryOf(Selected(c, ts), k), TotalUnits(c, ts, k), names);
  }

  lemma DividedBack(x: real, y: real)
    requires y != 0.0
    ensures x * y / y == x && y * x / y == x && x * y == y * x
  {
  }

  // ---------- Generating a statement ----------

  function MakeItems(c: Category, rows: seq<Row<Key>>, names: Names): (items: seq<LineItem>)
    requires forall r :: r in rows ==> Divisible(c, r)
    ensures |items| == |rows|
    ensures forall i :: 0 <= i < |rows| ==> items[i] == MakeItem(c, rows[i], names)
  {
    if rows == [] then []
    else MakeItems(c, rows[..|rows| - 1], names) + [MakeItem(c, rows[|rows| - 1], names)]
  }

  /** The items are one for each group of the category's transactions, in the order of the groups' keys. */
  ghost predicate ItemsFor(c: Category, ts: seq<Transaction>, names: Names, items: seq<LineItem>) {
    exists rows ::
      && RowsOf(Selected(c, ts), rows) && SortedRows(rows, ByFields)
      && (forall r :: r in rows ==> Divisible(c, r))
      && items == MakeItems(c, rows, names)
  }

  /** The items of each category, one category after the other. */
  ghost predicate IsStatement(ts: seq<Transaction>, names: Names, items: seq<LineItem>) {
    exists m, s, l, st ::
      && ItemsFor(Message, ts, names, m) && ItemsFor(Session, ts, names, s)
      && ItemsFor(SessionLength, ts, names, l) && ItemsFor(Storage, ts, names, st)
      && items == m + s + l + st
  }

  method MakeCategoryItems(c: Category, ts: seq<Transaction>, names: Names) returns (items: seq<LineItem>)
    requires forall t :: t in ts ==> PricedByUnit(t)
    ensures ItemsFor(c, ts, names, items)
  {
    KeysAreOrdered();
    var rows := Summarize(Selected(c, ts), ByFields);
    forall r | r in rows ensures Divisible(c, r) {
      GroupIsDivisible(c, ts, r.key);
    }
    items := MakeItems(c, rows, names);
  }

  method GenerateStatementItems(ts: seq<Transaction>, names: Names) returns (items: seq<LineItem>)
    requires forall t :: t in ts ==> PricedByUnit(t)
    ensures IsStatement(ts, names, items)
  {
    var m := MakeCategoryItems(Message, ts, names);
    var s := MakeCategoryItems(Session, ts, names);
    var l := MakeCategoryItems(SessionLength, ts, names);
    var st := MakeCategoryItems(Storage, ts, names);
    items := m;
    items := items + s;
    items := items + l;
    items := items + st;
  }

  // ---------- Conservation ----------

  function CreditsOf(items: seq<LineItem>): int {
    if items == [] then 0 else CreditsOf(items[..|items| - 1]) + CreditsOrZero(items[|items| - 1].credits)
  }

  lemma {:induction false} CreditsOfBoth(a: seq<LineItem>, b: seq<LineItem>)
    ensures CreditsOf(a + b) == CreditsOf(a) + CreditsOf(b)
  {
    if b == [] {
      assert a + b == a;
    } else {
      CreditsOfBoth(a, b[..|b| - 1]);
      assert (a + b)[..|a + b| - 1] == a + b[..|b| - 1];
    }
  }

  lemma {:induction false} CreditsOfItems(c: Category, rows: seq<Row<Key>>, names: Names)
    requires forall r :: r in rows ==> Divisible(c, r)
    ensures CreditsOf(MakeItems(c, rows, names)) == TotalRows(rows)
  {
    if rows == [] {
    } else {
      var before := rows[..|rows| - 1];
      CreditsOfItems(c, before, names);
      assert MakeItems(c, rows, names)[..|rows| - 1] == MakeItems(c, before, names);
    }
  }

  /** The credits that a transaction brings to its groups. */
  function PartCredits(c: Category, t: Transaction): int {
    if Included(c, t) then CreditsOrZero(Pick(c, t).credits) else 0
  }

  function Itemised(t: Transaction): int {
    PartCredits(Message, t) + PartCredits(Session, t) + PartCredits(SessionLength, t) + PartCredits(Storage, t)
  }

  function TotalItemised(ts: seq<Transaction>): int {
    if ts == [] then 0 else TotalItemised(ts[..|ts| - 1]) + Itemised(ts[|ts| - 1])
  }

  function PartsTotal(c: Category, ts: seq<Transaction>): int {
    if ts == [] then 0 else PartsTotal(c, ts[..|ts| - 1]) + PartCredits(c, ts[|ts| - 1])
  }

  lemma {:induction false} SelectedCredits(c: Category, ts: seq<Transaction>)
    ensures TotalPicked(Selected(c, ts)) == PartsTotal(c, ts)
  {
    if ts == [] {
    } else {
      var last := |ts| - 1;
      SelectedCredits(c, ts[..last]);
      if Included(c, ts[last]) {
        TotalPickedLast(Selected(c, ts[..last]), Pick(c, ts[last]));
      }
    }
  }

  lemma {:induction false} FourPartsTotal(ts: seq<Transaction>)
    ensures PartsTotal(Message, ts) + PartsTotal(Session, ts) + PartsTotal(SessionLength, ts) + PartsTotal(Storage, ts)
            == TotalItemised(ts)
  {
    if ts == [] {
    } else {
      FourPartsTotal(ts[..|ts| - 1]);
    }
  }

  lemma CategoryCredits(c: Category, ts: seq<Transaction>, names: Names, items: seq<LineItem>)
    requires ItemsFor(c, ts, names, items)
    ensures CreditsOf(items) == PartsTotal(c, ts)
  {
    SelectedCredits(c, ts);
    var rows :| && RowsOf(Selected(c, ts), rows) && SortedRows(rows, ByFields)
                && (forall r :: r in rows ==> Divisible(c, r))
                && items == MakeItems(c, rows, names);
    CreditsOfItems(c, rows, names);
    SummariesConserve(Selected(c, ts), rows);
  }

  lemma CreditsOfFour(m: seq<LineItem>, s: seq<LineItem>, l: seq<LineItem>, st: seq<LineItem>)
    ensures CreditsOf(m + s + l + st) == CreditsOf(m) + CreditsOf(s) + CreditsOf(l) + CreditsOf(st)
  {
    CreditsOfBoth(m, s);
    CreditsOfBoth(m + s, l);
    CreditsOfBoth(m + s + l, st);
  }

  lemma FourCategories(ts: seq<Transaction>, m: seq<LineItem>, s: seq<LineItem>, l: seq<LineItem>, st: seq<LineItem>)
    requires CreditsOf(m) == PartsTotal(Message, ts) && CreditsOf(s) == PartsTotal(Session, ts)
    requires CreditsOf(l) == PartsTotal(SessionLength, ts) && CreditsOf(st) == PartsTotal(Storage, ts)
    ensures CreditsOf(m + s + l + st) == TotalItemised(ts)
  {
    CreditsOfFour(m, s, l, st);
    FourPartsTotal(ts);
  }

  /** A statement's credits are what its transactions bring to the four categories. */
  lemma StatementTotals(ts: seq<Transaction>, names: Names, items: seq<LineItem>)
    requires IsStatement(ts, names, items)
    ensures CreditsOf(items) == TotalItemised(ts)
  {
    var m, s, l, st :|
      && ItemsFor(Message, ts, names, m) && ItemsFor(Session, ts, names, s)
      && ItemsFor(SessionLength, ts, names, l) && ItemsFor(Storage, ts, names, st)
      && items == m + s + l + st;
    CategoryCredits(Message, ts, names, m);
    CategoryCredits(Session, ts, names, s);
    CategoryCredits(SessionLength, ts, names, l);
    CategoryCredits(Storage, ts, names, st);
    FourCategories(ts, m, s, l, st);
  }
}
