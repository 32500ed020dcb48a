/**
 Low credit alerts: which notification level a balance stands at, as a percentage of the balance
 after the last top-up, and when a charge takes it to another level.
 */
module LowCredit {
  import opened Wrappers
  import opened Credits

  ghost predicate Sorted(levels: seq<int>) {
    forall i, j :: 0 <= i < j < |levels| ==> levels[i] <= levels[j]
  }

  /** No level below the highest is configured twice. */
  ghost predicate NoRepeatsBelowTop(levels: seq<int>) {
    forall i, j :: 0 <= i < j < |levels| && levels[i] == levels[j] ==> levels[i] == levels[|levels| - 1]
  }

  /** `level` is the least configured level that is no lower than the percentage. */
  predicate LeastAbove(levels: seq<int>, percentage: int, level: int) {
    level in levels && level >= percentage && forall l :: l in levels && l >= percentage ==> level <= l
  }

  /** The table has one entry for each percentage from the lowest level to the highest. */
  predicate Spans(levels: seq<int>, mapping: seq<int>) {
    if levels == [] then mapping == []
    else |mapping| == levels[|levels| - 1] - levels[0] + 1
  }

  /** Each entry is the least level no lower than the percentage it stands for. */
  ghost predicate Maps(levels: seq<int>, mapping: seq<int>) {
    && Spans(levels, mapping)
    && forall i :: 0 <= i < |mapping| ==> LeastAbove(levels, levels[0] + i, mapping[i])
  }

  /** The index reached is that of the least level no lower than the next percentage. */
  ghost predicate InStep(levels: seq<int>, idx: nat, next: int) {
    && idx < |levels| && next <= levels[idx]
    && (forall i :: 0 <= i < idx ==> levels[i] < next)
    && (forall i, j :: 0 <= i < j <= idx ==> levels[i] < levels[j])
  }

  /** The index has met a level it has passed already, so it never moves again. */
  predicate Stuck(levels: seq<int>, idx: nat, next: int) {
    0 < idx < |levels| && levels[idx] < next
  }

  /** The table is right exactly when no level but the highest is configured twice: a repeated level stops the loop. */
  method CreateNotificationMapping(levels: seq<int>) returns (mapping: seq<int>)
    requires Sorted(levels)
    ensures Spans(levels, mapping)
    ensures Maps(levels, mapping) <==> NoRepeatsBelowTop(levels)
  {
    mapping := [];
    if levels == [] {
      return;
    }
    var lo, top := levels[0], levels[|levels| - 1];
    var levelIdx := 0;
    var i := lo;
    while i < top + 1
      invariant lo <= i <= top + 1 && |mapping| == i - lo
      invariant 0 <= levelIdx <= |levels|
      invariant i <= top ==> InStep(levels, levelIdx, i) || Stuck(levels, levelIdx, i)
      invariant i <= top && InStep(levels, levelIdx, i) ==> forall k :: 0 <= k < |mapping| ==> LeastAbove(levels, lo + k, mapping[k])
      invariant i <= top && Stuck(levels, levelIdx, i) ==> !NoRepeatsBelowTop(levels)
      invariant i > top ==> ((forall k :: 0 <= k < |mapping| ==> LeastAbove(levels, lo + k, mapping[k])) <==> NoRepeatsBelowTop(levels))
    {
      mapping := mapping + [levels[levelIdx]];
      if mapping[i - lo] == i {
        levelIdx := levelIdx + 1;
      }
      i := i + 1;
    }
  }

  /** The level a percentage stands at; none above the highest level. */
  function NotificationLevel(mapping: seq<int>, percentage: int): Option<int> {
    if mapping == [] then None
    else if percentage < mapping[0] then Some(mapping[0])
    else if percentage > mapping[|mapping| - 1] then None
    else if percentage - mapping[0] < |mapping| then Some(mapping[percentage - mapping[0]])
    else None
  }

  lemma MappedEnds(levels: seq<int>, mapping: seq<int>)
    requires Sorted(levels) && Maps(levels, mapping) && levels != []
    ensures mapping[0] == levels[0] && mapping[|mapping| - 1] == levels[|levels| - 1]
  {
    var top := levels[|levels| - 1];
    assert LeastAbove(levels, levels[0], mapping[0]);
    assert levels[0] in levels && top in levels;
    assert LeastAbove(levels, levels[0] + (|mapping| - 1), mapping[|mapping| - 1]);
  }

  /** For every percentage whatever, the level found is the least configured level that is no lower. */
  lemma LevelIsLeastAbove(levels: seq<int>, mapping: seq<int>, percentage: int)
    requires Sorted(levels) && Maps(levels, mapping)
    ensures match NotificationLevel(mapping, percentage)
            case Some(level) => LeastAbove(levels, percentage, level)
            case None => forall l :: l in levels ==> l < percentage
  {
    if levels != [] {
      MappedEnds(levels, mapping);
      if levels[0] <= percentage <= levels[|levels| - 1] {
        assert LeastAbove(levels, levels[0] + (percentage - levels[0]), mapping[percentage - levels[0]]);
      }
    }
  }

  /** As percentages fall so do the levels; having no level counts as the highest. */
  predicate NoHigher(a: Option<int>, b: Option<int>) {
    b.None? || (a.Some? && a.value <= b.value)
  }

  lemma LevelsFall(levels: seq<int>, mapping: seq<int>, p: int, q: int)
    requires Sorted(levels) && Maps(levels, mapping) && p <= q
    ensures NoHigher(NotificationLevel(mapping, p), NotificationLevel(mapping, q))
  {
    LevelIsLeastAbove(levels, mapping, p);
    LevelIsLeastAbove(levels, mapping, q);
  }

  // ---------- Alerts ----------

  function CeilPercent(num: real, den: real): int
    requires den != 0.0
  {
    Ceiling(num * 100.0 / den)
  }

  /** The level a balance stands at, given the balance after the last top-up. */
  function LevelOf(mapping: seq<int>, balance: real, topup: real): Option<int>
    requires topup != 0.0
  {
    NotificationLevel(mapping, CeilPercent(balance, topup))
  }

  /** The percentage is the least whole one that the balance is no more than, of what the top-up left. */
  lemma CeilPercentIsLeast(num: real, den: real, p: int)
    requires den != 0.0
    ensures CeilPercent(num, den) <= p <==> if den > 0.0 then num * 100.0 <= p as real * den else num * 100.0 >= p as real * den
  {
    var ratio := num * 100.0 / den;
    assert ratio * den == num * 100.0;
    SameSide(ratio, p as real, den);
    assert CeilPercent(num, den) <= p <==> ratio <= p as real;
  }

  lemma SameSide(x: real, y: real, den: real)
    requires den != 0.0
    ensures x <= y <==> if den > 0.0 then x * den <= y * den else x * den >= y * den
  {
    if den > 0.0 {
      Scales(x, y, den);
    } else {
      Scales(x, y, -den);
      assert x * -den == -(x * den) && y * -den == -(y * den);
    }
  }

  lemma Scales(x: real, y: real, scale: real)
    requires scale > 0.0
    ensures x <= y <==> x * scale <= y * scale
  {
    if x <= y {
      assert (y - x) * scale >= 0.0;
    } else {
      assert (x - y) * scale > 0.0;
    }
  }

  /** After a positive top-up a balance stands at the least level that it is no more than, of what the top-up left. */
  lemma LevelOfBalance(levels: seq<int>, mapping: seq<int>, balance: real, topup: real)
    requires Sorted(levels) && Maps(levels, mapping) && topup > 0.0
    ensures match LevelOf(mapping, balance, topup)
            case Some(level) =>
              && level in levels && balance * 100.0 <= level as real * topup
              && forall l :: l in levels && balance * 100.0 <= l as real * topup ==> level <= l
            case None => forall l :: l in levels ==> balance * 100.0 > l as real * topup
  {
    var percentage := CeilPercent(balance, topup);
    LevelIsLeastAbove(levels, mapping, percentage);
    forall l | l in levels ensures percentage <= l <==> balance * 100.0 <= l as real * topup {
      CeilPercentIsLeast(balance, topup, l);
    }
  }

  /** Dividing the level of a balance that has none by a hundred raises an exception. */
  datatype Alert = NoAlert | AlertAt(level: int) | AlertFails

  /** `check_all_low_credit_thresholds`, after `amount` was charged. */
  function CheckThresholds(mapping: seq<int>, balance: real, amount: real, topup: real): Alert {
    if topup == 0.0 then NoAlert
    else
      var current := LevelOf(mapping, balance, topup);
      if current == LevelOf(mapping, balance + amount, topup) then NoAlert
      else if current.None? then AlertFails
      else AlertAt(current.value)
  }

  function Sum(charges: seq<real>): real {
    if charges == [] then 0.0 else Sum(charges[..|charges| - 1]) + charges[|charges| - 1]
  }

  ghost predicate NoneNegative(charges: seq<real>) {
    forall i :: 0 <= i < |charges| ==> charges[i] >= 0.0
  }

  /** The levels alerted while the charges are taken off the balance, in order; None if an alert failed. */
  function Alerts(mapping: seq<int>, start: real, topup: real, charges: seq<real>): Option<seq<int>> {
    if charges == [] then Some([])
    else
      var before := Alerts(mapping, start, topup, charges[..|charges| - 1]);
      if before.None? then None
      else match CheckThresholds(mapping, start - Sum(charges), charges[|charges| - 1], topup)
        case NoAlert => before
        case AlertAt(level) => Some(before.value + [level])
        case AlertFails => None
  }

  /**
   No level is alerted twice, each alert is lower than the one before, and the last one tells where
   the balance stands now, given where it stood first.
   */
  ghost predicate Tells(alerts: Option<seq<int>>, first: Option<int>, now: Option<int>) {
    && alerts.Some?
    && (forall i, j :: 0 <= i < j < |alerts.value| ==> alerts.value[i] > alerts.value[j])
    && (if now == first then alerts.value == []
        else alerts.value != [] && now == Some(alerts.value[|alerts.value| - 1]))
  }

  ghost predicate Telling(mapping: seq<int>, start: real, topup: real, charges: seq<real>)
    requires topup != 0.0
  {
    Tells(Alerts(mapping, start, topup, charges), LevelOf(mapping, start, topup), LevelOf(mapping, start - Sum(charges), topup))
  }

  /** A level that is no higher than the one before it keeps the alerts telling. */
  lemma TellsNext(alerts: seq<int>, first: Option<int>, before: Option<int>, now: Option<int>)
    requires Tells(Some(alerts), first, before) && NoHigher(before, first) && NoHigher(now, before)
    ensures NoHigher(now, first)
    ensures now != before ==> now.Some? && Tells(Some(alerts + [now.value]), first, now)
  {
  }

  lemma PercentFalls(balance: real, amount: real, topup: real)
    requires topup > 0.0 && amount >= 0.0
    ensures CeilPercent(balance, topup) <= CeilPercent(balance + amount, topup)
  {
    assert balance * 100.0 / topup <= (balance + amount) * 100.0 / topup;
  }

  lemma LevelFalls(levels: seq<int>, mapping: seq<int>, balance: real, amount: real, topup: real)
    requires Sorted(levels) && Maps(levels, mapping) && topup > 0.0 && amount >= 0.0
    ensures NoHigher(LevelOf(mapping, balance, topup), LevelOf(mapping, balance + amount, topup))
  {
    PercentFalls(balance, amount, topup);
    LevelsFall(levels, mapping, CeilPercent(balance, topup), CeilPercent(balance + amount, topup));
  }

  lemma PercentOf(p: int, topup: real)
    requires topup != 0.0
    ensures CeilPercent(p as real * topup / 100.0, topup) == p
  {
    var balance := p as real * topup / 100.0;
    assert balance * 100.0 == p as real * topup;
    assert balance * 100.0 / topup == p as real;
  }

  /** What one more charge adds to the alerts. */
  lemma AlertsNext(mapping: seq<int>, start: real, topup: real, charges: seq<real>)
    requires topup != 0.0 && charges != []
    ensures var last := |charges| - 1;
            var (before, now) := (LevelOf(mapping, start - Sum(charges[..last]), topup), LevelOf(mapping, start - Sum(charges), topup));
            var alerts := Alerts(mapping, start, topup, charges[..last]);
            Alerts(mapping, start, topup, charges) ==
            if alerts.None? || now == before then alerts
            else if now.None? then None
            else Some(alerts.value + [now.value])
  {
    assert start - Sum(charges) + charges[|charges| - 1] == start - Sum(charges[..|charges| - 1]);
  }

  lemma LevelFallsNext(levels: seq<int>, mapping: seq<int>, start: real, topup: real, charges: seq<real>)
    requires Sorted(levels) && Maps(levels, mapping)
    requires topup > 0.0 && charges != [] && charges[|charges| - 1] >= 0.0
    ensures NoHigher(LevelOf(mapping, start - Sum(charges), topup), LevelOf(mapping, start - Sum(charges[..|charges| - 1]), topup))
  {
    assert start - Sum(charges[..|charges| - 1]) == start - Sum(charges) + charges[|charges| - 1];
    LevelFalls(levels, mapping, start - Sum(charges), charges[|charges| - 1], topup);
  }

  /** Between top-ups to a positive balance, over any charges. */
  lemma {:induction false} AlertsTellLevel(levels: seq<int>, mapping: seq<int>, start: real, topup: real, charges: seq<real>)
    requires Sorted(levels) && Maps(levels, mapping)
    requires topup > 0.0 && NoneNegative(charges)
    ensures Telling(mapping, start, topup, charges)
    ensures NoHigher(LevelOf(mapping, start - Sum(charges), topup), LevelOf(mapping, start, topup))
  {
    if charges == [] {
    } else {
      var last := |charges| - 1;
      AlertsTellLevel(levels, mapping, start, topup, charges[..last]);
      AlertsNext(mapping, start, topup, charges);
      var (first, before, now) := (LevelOf(mapping, start, topup), LevelOf(mapping, start - Sum(charges[..last]), topup),
                                   LevelOf(mapping, start - Sum(charges), topup));
      LevelFallsNext(levels, mapping, start, topup, charges);
      TellsNext(Alerts(mapping, start, topup, charges[..last]).value, first, before, now);
    }
  }

  // ---------- From one top-up to the next ----------

  // A run of charges starts at the balance that the top-up left.

  lemma TopUpIsAll(topup: real)
    requires topup != 0.0
    ensures CeilPercent(topup, topup) == 100
  {
    assert topup * 100.0 / topup == 100.0;
  }

  lemma PercentRises(balance: real, topup: real)
    requires topup < 0.0 && balance <= topup
    ensures CeilPercent(balance, topup) >= 100
  {
    assert (balance - topup) * 100.0 / topup >= 0.0;
    assert balance * 100.0 / topup == (balance - topup) * 100.0 / topup + topup * 100.0 / topup;
  }

  lemma {:induction false} SumIsNotNegative(charges: seq<real>)
    requires NoneNegative(charges)
    ensures Sum(charges) >= 0.0
  {
    if charges == [] {
    } else {
      SumIsNotNegative(charges[..|charges| - 1]);
    }
  }

  /** No level at or above the percentage of the top-up itself. */
  predicate NoLevelForAll(mapping: seq<int>) {
    mapping == [] || mapping[|mapping| - 1] < 100
  }

  lemma NoLevelBelow(levels: seq<int>, mapping: seq<int>, topup: real, charges: seq<real>)
    requires Sorted(levels) && Maps(levels, mapping)
    requires topup < 0.0 && NoLevelForAll(mapping) && NoneNegative(charges)
    ensures LevelOf(mapping, topup - Sum(charges), topup) == None
  {
    SumIsNotNegative(charges);
    PercentRises(topup - Sum(charges), topup);
    var percentage := CeilPercent(topup - Sum(charges), topup);
    LevelIsLeastAbove(levels, mapping, percentage);
    if levels != [] {
      MappedEnds(levels, mapping);
      assert forall l :: l in levels ==> l <= levels[|levels| - 1];
    }
  }

  /** After a top-up that leaves a negative balance, and with no level that high, there is nothing to alert about. */
  lemma {:induction false} NothingToAlert(levels: seq<int>, mapping: seq<int>, topup: real, charges: seq<real>)
    requires Sorted(levels) && Maps(levels, mapping)
    requires topup < 0.0 && NoLevelForAll(mapping) && NoneNegative(charges)
    ensures Alerts(mapping, topup, topup, charges) == Some([])
    ensures Telling(mapping, topup, topup, charges)
  {
    NoLevelBelow(levels, mapping, topup, charges);
    NoLevelBelow(levels, mapping, topup, []);
    assert topup - Sum([]) == topup;
    if charges == [] {
    } else {
      NothingToAlert(levels, mapping, topup, charges[..|charges| - 1]);
      NoLevelBelow(levels, mapping, topup, charges[..|charges| - 1]);
      AlertsNext(mapping, topup, topup, charges);
    }
  }

  /** Alerts do what they are for over every run of charges from the top-up on. */
  ghost predicate AlwaysTells(mapping: seq<int>, topup: real)
    requires topup != 0.0
  {
    forall charges: seq<real> :: NoneNegative(charges) ==> Telling(mapping, topup, topup, charges)
  }

  /** They do exactly when the top-up left a positive balance, or no level is as high as a hundred percent. */
  lemma AlertsTellLevelExactly(levels: seq<int>, mapping: seq<int>, topup: real)
    requires Sorted(levels) && Maps(levels, mapping) && topup != 0.0
    ensures AlwaysTells(mapping, topup) <==> topup > 0.0 || NoLevelForAll(mapping)
  {
    if topup > 0.0 {
      forall charges: seq<real> | NoneNegative(charges) ensures Telling(mapping, topup, topup, charges) {
        AlertsTellLevel(levels, mapping, topup, topup, charges);
      }
    } else if NoLevelForAll(mapping) {
      forall charges: seq<real> | NoneNegative(charges) ensures Telling(mapping, topup, topup, charges) {
        NothingToAlert(levels, mapping, topup, charges);
      }
    } else {
      var charges := NegativeTopUpFails(levels, mapping, topup);
    }
  }

  /**
   Where a level is a hundred percent or more, spending after a top-up that leaves a negative balance takes the
   percentage from there past the highest level, and the alert about that fails.
   */
  lemma NegativeTopUpFails(levels: seq<int>, mapping: seq<int>, topup: real) returns (charges: seq<real>)
    requires Sorted(levels) && Maps(levels, mapping) && topup < 0.0 && !NoLevelForAll(mapping)
    ensures NoneNegative(charges) && Alerts(mapping, topup, topup, charges) == None
    ensures !Telling(mapping, topup, topup, charges)
  {
    var above := mapping[|mapping| - 1] + 1;
    var end := above as real * topup / 100.0;
    assert levels != [];
    MappedEnds(levels, mapping);
    LevelIsLeastAbove(levels, mapping, 100);
    LevelIsLeastAbove(levels, mapping, above);
    TopUpIsAll(topup);
    PercentOf(above, topup);
    ScaledPast(above, topup);
    charges := [topup - end];
    OneFailingCharge(mapping, topup, end, topup);
  }

  lemma ScaledPast(percentage: int, topup: real)
    requires topup < 0.0 && percentage > 100
    ensures percentage as real * topup / 100.0 <= topup
  {
    assert (percentage as real - 100.0) * topup <= 0.0;
    assert percentage as real * topup == (percentage as real - 100.0) * topup + 100.0 * topup;
  }

  lemma OneFailingCharge(mapping: seq<int>, start: real, end: real, topup: real)
    requires topup != 0.0 && start >= end
    requires LevelOf(mapping, end, topup) == None != LevelOf(mapping, start, topup)
    ensures NoneNegative([start - end])
    ensures Alerts(mapping, start, topup, [start - end]) == None && !Telling(mapping, start, topup, [start - end])
  {
    var charges := [start - end];
    assert charges[..0] == [];
    assert Sum(charges) == start - end;
  }
}
