/**
 Printing amounts of money (`format_currency`): a Decimal, its rounding mode, and the signs to print around the digits.
 */
module Currency {
  import opened Text
  import opened Wrappers

  // ---------- Decimal digits ----------

  function DigitChar(d: nat): char
    requires d < 10
  {
    '0' + d as char
  }

  predicate IsDigit(c: char) {
    '0' <= c <= '9'
  }

  /** The digits of a number without leading zeros, as they are in a Decimal's tuple; zero has one digit. */
  function Digits(n: nat): (s: string)
    ensures s != "" && forall i :: 0 <= i < |s| ==> IsDigit(s[i])
  {
    if n < 10 then [DigitChar(n)] else Digits(n / 10) + [DigitChar(n % 10)]
  }

  /** The number without its last `k` digits. */
  function Without(n: nat, k: nat): nat {
    if k == 0 then n else Without(n, k - 1) / 10
  }

  /** The last `k` digits of the number, padded with zeros. */
  function LastDigits(n: nat, k: nat): (s: string)
    ensures |s| == k && forall i :: 0 <= i < |s| ==> IsDigit(s[i])
  {
    if k == 0 then "" else [DigitChar(Without(n, k - 1) % 10)] + LastDigits(n, k - 1)
  }

  // ---------- Formatting ----------

  /** Three digits at a time, from the right, with separators between them. */
  function GroupedText(whole: string, sep: string): string {
    if |whole| <= 3 then whole
    else GroupedText(whole[..|whole| - 3], sep) + sep + whole[|whole| - 3..]
  }

  datatype Style = Style(curr: string, sep: string, dp: string, pos: string, neg: string, trailneg: string)

  /** What is printed behind the whole digits. */
  function Ending(negative: bool, scaled: nat, places: nat, style: Style): string {
    (if places > 0 then style.dp + LastDigits(scaled, places) else "") + if negative then style.trailneg else ""
  }

  /** The text of an amount whose absolute value is `scaled` units of its last place. */
  function Formatted(negative: bool, scaled: nat, places: nat, style: Style): string {
    (if negative then style.neg else style.pos) + style.curr
    + GroupedText(Digits(Without(scaled, places)), style.sep)
    + Ending(negative, scaled, places, style)
  }

  /** `''.join(reversed(pieces))`. */
  function Backwards(pieces: seq<string>): string {
    if pieces == [] then "" else pieces[|pieces| - 1] + Backwards(pieces[..|pieces| - 1])
  }

  lemma BackwardsAdd(pieces: seq<string>, p: string)
    ensures Backwards(pieces + [p]) == p + Backwards(pieces)
  {
    assert (pieces + [p])[..|pieces|] == pieces;
  }

  function Pow10(k: nat): (p: nat)
    ensures p > 0
  {
    if k == 0 then 1 else 10 * Pow10(k - 1)
  }

  type Magnitude = x: real | x >= 0.0 witness 0.0

  /** A Decimal has a sign apart from its magnitude, so there is a negative zero. */
  datatype Decimal = Decimal(negative: bool, magnitude: Magnitude)

  /** The rounding modes of Python's decimal module. */
  datatype Rounding = Down | Up | TowardCeiling | TowardFloor | HalfDown | HalfUp | HalfEven | Up05

  /** Whether a magnitude that lies between two numbers of units is rounded to the greater one. */
  predicate RoundsUp(rounding: Rounding, negative: bool, below: nat, rest: real) {
    match rounding
    case Down => false
    case Up => true
    case TowardCeiling => !negative
    case TowardFloor => negative
    case HalfDown => rest > 0.5
    case HalfUp => rest >= 0.5
    case HalfEven => rest > 0.5 || (rest == 0.5 && below % 2 == 1)
    case Up05 => below % 5 == 0
  }

  /** How many units of the last of the places a magnitude is. */
  function Scaled(v: Magnitude, places: nat): Magnitude {
    v * Pow10(places) as real
  }

  /** `value.quantize(q, rounding)` without its sign, in units of the last place that is kept. */
  function Quantized(value: Decimal, places: nat, rounding: Rounding): nat {
    InUnits(value, Scaled(value.magnitude, places), rounding)
  }

  function InUnits(value: Decimal, units: real, rounding: Rounding): nat
    requires units >= 0.0
  {
    var below: nat := units.Floor;
    var rest := units - below as real;
    if rest != 0.0 && RoundsUp(rounding, value.negative, below, rest) then below + 1 else below
  }

  method FormatCurrency(value: Decimal, places: nat, rounding: Rounding := Down, style: Style) returns (text: string)
    ensures text == Formatted(value.negative, Quantized(value, places, rounding), places, style)
  {
    text := Build(value.negative, Quantized(value, places, rounding), places, style);
  }

  method Build(negative: bool, scaled: nat, places: nat, style: Style) returns (text: string)
    ensures text == Formatted(negative, scaled, places, style)
  {
    var result: seq<string> := [];
    if negative {
      BackwardsAdd(result, style.trailneg);
      result := result + [style.trailneg];
    }
    ghost var trail := if negative then style.trailneg else "";
    assert Backwards(result) == trail;
    var digits;
    digits, result := BuildFraction(scaled, places, result);
    if places > 0 {
      BackwardsAdd(result, style.dp);
      result := result + [style.dp];
      Associative(style.dp, LastDigits(scaled, places), trail);
    }
    assert Backwards(result) == Ending(negative, scaled, places, style);
    ghost var whole := Digits(Without(scaled, places));
    result := BuildWhole(digits, whole, result, style.sep);
    BackwardsAdd(result, style.curr);
    result := result + [style.curr];
    var sign := if negative then style.neg else style.pos;
    BackwardsAdd(result, sign);
    result := result + [sign];
    text := Backwards(result);
    FourParts(sign, style.curr, GroupedText(whole, style.sep), Ending(negative, scaled, places, style));
  }

  lemma Associative(a: string, b: string, c: string)
    ensures a + b + c == a + (b + c)
  {
  }

  lemma FourParts(a: string, b: string, c: string, d: string)
    ensures a + b + c + d == a + (b + (c + d))
  {
  }

  /** The digits that are left when `k` of them have been taken off. */
  function Rest(n: nat, k: nat): string {
    if k > 0 && Without(n, k) == 0 then "" else Digits(Without(n, k))
  }

  lemma RestPopped(n: nat, k: nat)
    ensures var (r, c) := (Rest(n, k), DigitChar(Without(n, k) % 10));
            if r == "" then c == '0' && Rest(n, k + 1) == ""
            else r[|r| - 1] == c && Rest(n, k + 1) == r[..|r| - 1]
  {
  }

  /** The part that prints the digits behind the point. */
  method BuildFraction(scaled: nat, places: nat, pieces: seq<string>) returns (digits: string, result: seq<string>)
    ensures digits == Rest(scaled, places)
    ensures Backwards(result) == LastDigits(scaled, places) + Backwards(pieces)
  {
    digits := Digits(scaled);
    result := pieces;
    for i := 0 to places
      invariant digits == Rest(scaled, i)
      invariant Backwards(result) == LastDigits(scaled, i) + Backwards(pieces)
    {
      RestPopped(scaled, i);
      if digits != "" {
        BackwardsAdd(result, [digits[|digits| - 1]]);
        Associative([digits[|digits| - 1]], LastDigits(scaled, i), Backwards(pieces));
        result := result + [[digits[|digits| - 1]]];
        digits := digits[..|digits| - 1];
      } else {
        BackwardsAdd(result, "0");
        Associative("0", LastDigits(scaled, i), Backwards(pieces));
        result := result + ["0"];
      }
    }
  }

  /**
   The digits that are still to print, the group that is being built in front of `behind`, and the counter:
   together they come to the text to print.
   */
  ghost predicate Building(digits: string, group: string, behind: string, i: nat, sep: string, goal: string) {
    && |group| <= 3 && (digits != "" ==> |group| == i < 3)
    && GroupedText(digits + group, sep) + behind == goal
  }

  lemma DigitInFront(digits: string, group: string, behind: string, i: nat, sep: string, goal: string)
    requires digits != "" && Building(digits, group, behind, i, sep, goal)
    ensures var (rest, c) := (digits[..|digits| - 1], digits[|digits| - 1]);
            && |[c] + group| == i + 1 <= 3 && GroupedText(rest + ([c] + group), sep) + behind == goal
            && [c] + (group + behind) == [c] + group + behind
  {
    var (rest, c) := (digits[..|digits| - 1], digits[|digits| - 1]);
    Associative([c], group, behind);
    Associative(rest, [c], group);
    assert rest + [c] == digits;
  }

  lemma GroupOff(digits: string, group: string, sep: string)
    requires digits != "" && |group| == 3
    ensures GroupedText(digits + group, sep) == GroupedText(digits, sep) + sep + group
  {
    assert (digits + group)[..|digits + group| - 3] == digits;
    assert (digits + group)[|digits + group| - 3..] == group;
  }

  lemma SeparatorInFront(digits: string, group: string, behind: string, sep: string, goal: string)
    requires digits != "" && |group| == 3 && GroupedText(digits + group, sep) + behind == goal
    ensures Building(digits, "", sep + group + behind, 0, sep, goal)
    ensures sep + (group + behind) == "" + (sep + group + behind)
  {
    GroupOff(digits, group, sep);
    assert digits + "" == digits;
    FourParts(GroupedText(digits, sep), sep, group, behind);
    Associative(sep, group, behind);
  }

  lemma NothingInFront(group: string, behind: string, i: nat, sep: string, goal: string)
    requires Building("", group, behind, i, sep, goal)
    ensures group + behind == goal
  {
    assert "" + group == group;
  }

  /** The part of the function that prints the whole digits; where there are none left it prints a zero. */
  method BuildWhole(whole: string, ghost spelt: string, pieces: seq<string>, sep: string) returns (result: seq<string>)
    requires spelt != "" && (whole == spelt || (whole == "" && spelt == "0"))
    ensures Backwards(result) == GroupedText(spelt, sep) + Backwards(pieces)
  {
    var digits := whole;
    result := pieces;
    ghost var (group, behind, goal) := ("", Backwards(pieces), GroupedText(spelt, sep) + Backwards(pieces));
    if digits == "" {
      BackwardsAdd(result, "0");
      result := result + ["0"];
      group := "0";
    }
    var i := 0;
    assert digits + group == spelt;
    while digits != ""
      invariant 0 <= i && Building(digits, group, behind, i, sep, goal)
      invariant Backwards(result) == group + behind
      decreases |digits|
    {
      DigitInFront(digits, group, behind, i, sep, goal);
      var c := digits[|digits| - 1];
      BackwardsAdd(result, [c]);
      result := result + [[c]];
      group := [c] + group;
      digits := digits[..|digits| - 1];
      i := i + 1;
      if i == 3 && digits != "" {
        i := 0;
        BackwardsAdd(result, sep);
        result := result + [sep];
        SeparatorInFront(digits, group, behind, sep, goal);
        group, behind := "", sep + group + behind;
      }
    }
    NothingInFront(group, behind, i, sep, goal);
  }

  // ---------- Reading amounts back ----------

  function DigitOf(c: char): nat
    requires IsDigit(c)
  {
    (c - '0') as nat
  }

  predicate AllDigits(s: string) {
    forall i :: 0 <= i < |s| ==> IsDigit(s[i])
  }

  function NatOf(s: string): nat
    requires AllDigits(s)
  {
    if s == "" then 0 else NatOf(s[..|s| - 1]) * 10 + DigitOf(s[|s| - 1])
  }

  lemma NatOfAdd(s: string, c: char)
    requires AllDigits(s) && IsDigit(c)
    ensures NatOf(s + [c]) == NatOf(s) * 10 + DigitOf(c)
  {
    assert (s + [c])[..|s|] == s;
  }

  /** Digits read as the number they are of, and there is no zero in front of them but where it is the number. */
  lemma {:induction false} DigitsRead(n: nat)
    ensures NatOf(Digits(n)) == n
    ensures Digits(n)[0] == '0' ==> n == 0
  {
    if n < 10 {
      assert Digits(n) == "" + [DigitChar(n)];
      NatOfAdd("", DigitChar(n));
    } else {
      DigitsRead(n / 10);
      NatOfAdd(Digits(n / 10), DigitChar(n % 10));
    }
  }

  lemma NatOfLast(a: string, s: string)
    requires AllDigits(a) && AllDigits(s) && s != ""
    ensures NatOf(a + s) == NatOf(a + s[..|s| - 1]) * 10 + DigitOf(s[|s| - 1])
  {
    LastAppended(a, s);
    NatOfAdd(a + s[..|s| - 1], s[|s| - 1]);
  }

  lemma LastAppended(a: string, s: string)
    requires s != ""
    ensures a + s[..|s| - 1] + [s[|s| - 1]] == a + s
  {
  }

  lemma {:induction false} SameBehind(a: string, b: string, s: string)
    requires AllDigits(a) && AllDigits(b) && AllDigits(s) && NatOf(a) == NatOf(b)
    ensures NatOf(a + s) == NatOf(b + s)
  {
    if s == "" {
      assert a + s == a && b + s == b;
    } else {
      var last := |s| - 1;
      SameBehind(a, b, s[..last]);
      NatOfLast(a, s);
      NatOfLast(b, s);
    }
  }

  lemma OneDigitMore(m: nat, rest: string)
    requires AllDigits(rest)
    ensures NatOf(Digits(m / 10) + ([DigitChar(m % 10)] + rest)) == NatOf(Digits(m) + rest)
  {
    var c := DigitChar(m % 10);
    DigitsRead(m / 10);
    DigitsRead(m);
    NatOfAdd(Digits(m / 10), c);
    SameBehind(Digits(m / 10) + [c], Digits(m), rest);
    Associative(Digits(m / 10), [c], rest);
  }

  /** The digits before the point and those behind it make up the number. */
  lemma {:induction false} AllPlacesRead(n: nat, k: nat)
    ensures NatOf(Digits(Without(n, k)) + LastDigits(n, k)) == n
  {
    if k == 0 {
      DigitsRead(n);
      assert Digits(n) + "" == Digits(n);
    } else {
      AllPlacesRead(n, k - 1);
      OneDigitMore(Without(n, k - 1), LastDigits(n, k - 1));
    }
  }

  function Flat(groups: seq<string>): string {
    if groups == [] then "" else Flat(groups[..|groups| - 1]) + groups[|groups| - 1]
  }

  function WithSeparators(groups: seq<string>, sep: string): string {
    if groups == [] then ""
    else if |groups| == 1 then groups[0]
    else WithSeparators(groups[..|groups| - 1], sep) + sep + groups[|groups| - 1]
  }

  /** One to three digits at first, and three in every further group. */
  ghost predicate InThrees(groups: seq<string>) {
    groups != [] && 1 <= |groups[0]| <= 3 && forall i :: 1 <= i < |groups| ==> |groups[i]| == 3
  }

  lemma {:induction false} OneGroupMore(groups: seq<string>, group: string, sep: string)
    requires groups != []
    ensures Flat(groups + [group]) == Flat(groups) + group
    ensures WithSeparators(groups + [group], sep) == WithSeparators(groups, sep) + sep + group
  {
    assert (groups + [group])[..|groups|] == groups;
  }

  lemma {:induction false} GroupedInThrees(whole: string, sep: string) returns (groups: seq<string>)
    requires whole != ""
    ensures InThrees(groups) && Flat(groups) == whole && WithSeparators(groups, sep) == GroupedText(whole, sep)
  {
    if |whole| <= 3 {
      groups := [whole];
      assert Flat([]) + whole == whole;
      assert groups[..0] == [];
    } else {
      var before := GroupedInThrees(whole[..|whole| - 3], sep);
      groups := before + [whole[|whole| - 3..]];
      OneGroupMore(before, whole[|whole| - 3..], sep);
    }
  }

  // ---------- Reading a whole text back ----------

  datatype Amount = Amount(negative: bool, scaled: nat, places: nat)

  function Strip(s: string, c: char): string {
    if s == "" then "" else Strip(s[..|s| - 1], c) + if s[|s| - 1] == c then "" else [s[|s| - 1]]
  }

  predicate NoDigits(s: string) {
    forall i :: 0 <= i < |s| ==> !IsDigit(s[i])
  }

  function UpToDigit(s: string): (i: nat)
    ensures i <= |s|
  {
    if s == "" || IsDigit(s[0]) then 0 else 1 + UpToDigit(s[1..])
  }

  function PastDigits(s: string): (i: nat)
    ensures i <= |s|
  {
    if s == "" || IsDigit(s[|s| - 1]) then |s| else PastDigits(s[..|s| - 1])
  }

  /**
   Reads the sign off what stands before the first digit and after the last one. Between them it strips the
   separators and takes what stands behind the point as further digits.
   */
  function Read(text: string, style: Style): Option<Amount>
    requires |style.sep| == 1 && |style.dp| == 1
  {
    var (start, end) := (UpToDigit(text), PastDigits(text));
    if start > end then None
    else
      var negative := text[..start] == style.neg + style.curr && text[end..] == style.trailneg;
      ReadDigits(text[start..end], negative, style.sep[0], style.dp[0])
  }

  function ReadDigits(body: string, negative: bool, sep: char, dp: char): Option<Amount> {
    var parts := Split(Strip(body, sep), dp);
    var (whole, fraction) := (parts[0], if |parts| == 1 then "" else parts[1]);
    if |parts| > 2 || !AllDigits(whole + fraction) then None
    else Some(Amount(negative, NatOf(whole + fraction), |fraction|))
  }

  /** Styles whose numbers can be told: single separators, no digits in any sign, and signs that differ. */
  predicate Readable(style: Style) {
    && |style.sep| == 1 && |style.dp| == 1 && style.sep != style.dp && NoDigits(style.sep) && NoDigits(style.dp)
    && NoDigits(style.curr) && NoDigits(style.pos) && NoDigits(style.neg) && NoDigits(style.trailneg)
    && (style.neg != style.pos || style.trailneg != "")
  }

  lemma {:induction false} StripAdds(a: string, b: string, c: char)
    ensures Strip(a + b, c) == Strip(a, c) + Strip(b, c)
  {
    if b == "" {
      assert a + b == a;
    } else {
      StripAdds(a, b[..|b| - 1], c);
      assert (a + b)[..|a + b| - 1] == a + b[..|b| - 1];
    }
  }

  lemma {:induction false} StripNothing(s: string, c: char)
    requires c !in s
    ensures Strip(s, c) == s
  {
    if s == "" {
    } else {
      StripNothing(s[..|s| - 1], c);
    }
  }

  lemma {:induction false} StripEnd(s: string, c: char)
    ensures Strip(s + [c], c) == Strip(s, c)
  {
    assert (s + [c])[..|s|] == s;
  }

  lemma {:induction false} StripSeparated(a: string, sep: char, b: string)
    requires sep !in b
    ensures Strip(a + [sep] + b, sep) == Strip(a, sep) + b
  {
    StripAdds(a + [sep], b, sep);
    StripEnd(a, sep);
    StripNothing(b, sep);
  }

  lemma {:induction false} StripGroups(whole: string, sep: char)
    requires sep !in whole
    ensures Strip(GroupedText(whole, [sep]), sep) == whole
  {
    if |whole| <= 3 {
      StripNothing(whole, sep);
    } else {
      var (front, group) := (whole[..|whole| - 3], whole[|whole| - 3..]);
      assert whole == front + group;
      StripGroups(front, sep);
      StripSeparated(GroupedText(front, [sep]), sep, group);
    }
  }

  lemma {:induction false} GroupedStart(whole: string, sep: string)
    requires whole != ""
    ensures GroupedText(whole, sep) != "" && GroupedText(whole, sep)[0] == whole[0]
  {
    if |whole| > 3 {
      GroupedStart(whole[..|whole| - 3], sep);
    }
  }

  /** What is printed behind the sign. */
  function Body(whole: string, last: string, sep: char, dp: char): string {
    GroupedText(whole, [sep]) + if last != "" then [dp] + last else ""
  }

  lemma BodyIsStripped(whole: string, last: string, sep: char, dp: char)
    requires sep != dp && !IsDigit(sep) && AllDigits(whole) && AllDigits(last)
    ensures Strip(Body(whole, last, sep, dp), sep) == whole + if last != "" then [dp] + last else ""
  {
    var behind := if last != "" then [dp] + last else "";
    StripGroups(whole, sep);
    StripNothing(behind, sep);
    StripAdds(GroupedText(whole, [sep]), behind, sep);
  }

  lemma SplitAtPoint(whole: string, last: string, dp: char)
    requires !IsDigit(dp) && AllDigits(whole) && AllDigits(last)
    ensures Split(whole + if last != "" then [dp] + last else "", dp) == if last != "" then [whole, last] else [whole]
  {
    if last != "" {
      Associative(whole, [dp], last);
      SplitAtSeparator(whole, last, dp);
      SplitWithoutSeparator(last, dp);
    } else {
      assert whole + "" == whole;
      SplitWithoutSeparator(whole, dp);
    }
  }

  lemma {:induction false} FirstDigit(prefix: string, rest: string)
    requires NoDigits(prefix) && rest != "" && IsDigit(rest[0])
    ensures UpToDigit(prefix + rest) == |prefix|
  {
    if prefix == "" {
      assert prefix + rest == rest;
    } else {
      FirstDigit(prefix[1..], rest);
      assert (prefix + rest)[1..] == prefix[1..] + rest;
    }
  }

  lemma {:induction false} LastDigit(front: string, suffix: string)
    requires NoDigits(suffix) && front != "" && IsDigit(front[|front| - 1])
    ensures PastDigits(front + suffix) == |front|
  {
    if suffix == "" {
      assert front + suffix == front;
    } else {
      LastDigit(front, suffix[..|suffix| - 1]);
      assert (front + suffix)[..|front + suffix| - 1] == front + suffix[..|suffix| - 1];
    }
  }

  /** Signs without digits are taken off again. */
  lemma SignsAreTold(prefix: string, body: string, suffix: string)
    requires NoDigits(prefix) && NoDigits(suffix) && body != "" && IsDigit(body[0]) && IsDigit(body[|body| - 1])
    ensures var text := prefix + body + suffix;
            && UpToDigit(text) == |prefix| && PastDigits(text) == |prefix| + |body|
            && text[..|prefix|] == prefix && text[|prefix|..|prefix| + |body|] == body && text[|prefix| + |body|..] == suffix
  {
    assert prefix + body + suffix == prefix + (body + suffix);
    FirstDigit(prefix, body + suffix);
    LastDigit(prefix + body, suffix);
  }

  lemma {:induction false} GroupedEnd(whole: string, sep: string)
    requires whole != ""
    ensures var grouped := GroupedText(whole, sep); grouped != "" && grouped[|grouped| - 1] == whole[|whole| - 1]
  {
  }

  lemma BodyEnds(whole: string, last: string, sep: char, dp: char)
    requires AllDigits(whole) && AllDigits(last) && whole != ""
    ensures var body := Body(whole, last, sep, dp);
            body != "" && IsDigit(body[0]) && IsDigit(body[|body| - 1])
  {
    GroupedStart(whole, [sep]);
    GroupedEnd(whole, [sep]);
  }

  lemma BodyIsRead(negative: bool, whole: string, last: string, sep: char, dp: char)
    requires sep != dp && !IsDigit(sep) && !IsDigit(dp) && AllDigits(whole) && AllDigits(last)
    ensures ReadDigits(Body(whole, last, sep, dp), negative, sep, dp) == Some(Amount(negative, NatOf(whole + last), |last|))
  {
    BodyIsStripped(whole, last, sep, dp);
    SplitAtPoint(whole, last, dp);
    assert last == "" ==> whole + last == whole;
  }

  function Prefix(negative: bool, style: Style): string {
    (if negative then style.neg else style.pos) + style.curr
  }

  function Suffix(negative: bool, style: Style): string {
    if negative then style.trailneg else ""
  }

  lemma FormattedParts(negative: bool, scaled: nat, places: nat, style: Style)
    requires Readable(style)
    ensures Formatted(negative, scaled, places, style) ==
            Prefix(negative, style) + Body(Digits(Without(scaled, places)), LastDigits(scaled, places), style.sep[0], style.dp[0])
            + Suffix(negative, style)
  {
    var grouped := GroupedText(Digits(Without(scaled, places)), style.sep);
    var fraction := if places > 0 then style.dp + LastDigits(scaled, places) else "";
    assert style.sep == [style.sep[0]] && style.dp == [style.dp[0]];
    Regrouped(Prefix(negative, style), grouped, fraction, Suffix(negative, style));
  }

  lemma Regrouped(a: string, b: string, c: string, d: string)
    ensures a + b + (c + d) == a + (b + c) + d
  {
  }

  /** The sign can be read off what stands around the digits. */
  lemma SignIsRead(negative: bool, style: Style)
    requires Readable(style)
    ensures Prefix(negative, style) == style.neg + style.curr && Suffix(negative, style) == style.trailneg <==> negative
  {
    if !negative && style.pos + style.curr == style.neg + style.curr {
      assert (style.pos + style.curr)[..|style.pos|] == style.pos && (style.neg + style.curr)[..|style.neg|] == style.neg;
    }
  }

  /** Whatever is printed in a readable style reads back as the amount, with its sign and its number of places. */
  lemma ReadBack(negative: bool, scaled: nat, places: nat, style: Style)
    requires Readable(style)
    ensures Read(Formatted(negative, scaled, places, style), style) == Some(Amount(negative, scaled, places))
  {
    var (whole, last) := (Digits(Without(scaled, places)), LastDigits(scaled, places));
    var body := Body(whole, last, style.sep[0], style.dp[0]);
    FormattedParts(negative, scaled, places, style);
    BodyEnds(whole, last, style.sep[0], style.dp[0]);
    SignsAreTold(Prefix(negative, style), body, Suffix(negative, style));
    SignIsRead(negative, style);
    BodyIsRead(negative, whole, last, style.sep[0], style.dp[0]);
    AllPlacesRead(scaled, places);
  }

  ghost predicate ReadsBack(style: Style)
    requires |style.sep| == 1 && |style.dp| == 1
  {
    forall negative, scaled, places ::
      Read(Formatted(negative, scaled, places, style), style) == Some(Amount(negative, scaled, places))
  }

  /** Between single separators, and with no digits in any sign, all amounts read back exactly when the signs differ. */
  lemma ReadBackExactly(style: Style)
    requires |style.sep| == 1 && |style.dp| == 1 && style.sep != style.dp && NoDigits(style.sep) && NoDigits(style.dp)
    requires NoDigits(style.curr) && NoDigits(style.pos) && NoDigits(style.neg) && NoDigits(style.trailneg)
    ensures ReadsBack(style) <==> style.neg != style.pos || style.trailneg != ""
  {
    if Readable(style) {
      forall negative, scaled, places
        ensures Read(Formatted(negative, scaled, places, style), style) == Some(Amount(negative, scaled, places))
      {
        ReadBack(negative, scaled, places, style);
      }
    } else {
      assert Formatted(true, 1, 0, style) == Formatted(false, 1, 0, style);
    }
  }

  // ---------- Rounding ----------

  /** The value of so many units of the last place. */
  function UnitsOf(n: nat, places: nat): real {
    n as real * (1.0 / Pow10(places) as real)
  }

  /** Rounding moves a value by less than one unit of the last place, and by default, toward zero. */
  lemma QuantizedIsNear(value: Decimal, places: nat, rounding: Rounding)
    ensures var (unit, printed) := (UnitsOf(1, places), UnitsOf(Quantized(value, places, rounding), places));
            && printed - unit < value.magnitude < printed + unit
            && (rounding == Down ==> printed <= value.magnitude)
  {
    QuantizedInUnits(value, places, rounding);
    PrintedIsNear(value.magnitude, Quantized(value, places, rounding), places);
  }

  lemma QuantizedInUnits(value: Decimal, places: nat, rounding: Rounding)
    ensures IsNear(value.magnitude, Quantized(value, places, rounding), places)
    ensures rounding == Down ==> Quantized(value, places, rounding) as real <= Scaled(value.magnitude, places)
  {
    InUnitsIsNear(value, Scaled(value.magnitude, places), rounding);
  }

  predicate IsNear(v: Magnitude, n: nat, places: nat) {
    n as real - 1.0 < Scaled(v, places) < n as real + 1.0
  }

  lemma PrintedIsNear(v: Magnitude, n: nat, places: nat)
    requires IsNear(v, n, places)
    ensures UnitsOf(n, places) - UnitsOf(1, places) < v < UnitsOf(n, places) + UnitsOf(1, places)
    ensures n as real <= Scaled(v, places) ==> UnitsOf(n, places) <= v
  {
    ScaledDown(v, Pow10(places) as real, n as real);
  }

  lemma InUnitsIsNear(value: Decimal, units: real, rounding: Rounding)
    requires units >= 0.0
    ensures var n := InUnits(value, units, rounding) as real; n - 1.0 < units < n + 1.0 && (rounding == Down ==> n <= units)
  {
  }

  /** Toward zero: what is printed is no more than the magnitude. */
  predicate CutOff(units: real, n: nat) {
    n as real <= units < n as real + 1.0
  }

  /** Away from zero: what is printed is no less. */
  predicate FilledUp(units: real, n: nat) {
    n as real - 1.0 < units <= n as real
  }

  predicate Nearest(units: real, n: nat) {
    -0.5 <= units - n as real <= 0.5
  }

  /** Half way between two numbers of units. */
  predicate HalfWay(units: real, n: nat) {
    units - n as real == 0.5 || units - n as real == -0.5
  }

  /** What each rounding mode promises; it leaves one number for every value. */
  predicate RoundedBy(rounding: Rounding, negative: bool, units: real, n: nat) {
    match rounding
    case Down => CutOff(units, n)
    case Up => FilledUp(units, n)
    case TowardCeiling => if negative then CutOff(units, n) else FilledUp(units, n)
    case TowardFloor => if negative then FilledUp(units, n) else CutOff(units, n)
    case HalfDown => Nearest(units, n) && (HalfWay(units, n) ==> n as real < units)
    case HalfUp => Nearest(units, n) && (HalfWay(units, n) ==> n as real > units)
    case HalfEven => Nearest(units, n) && (HalfWay(units, n) ==> n % 2 == 0)
    case Up05 => if CutOff(units, n) && n as real != units then n % 5 != 0 else FilledUp(units, n) && (n as real == units || (n - 1) % 5 == 0)
  }

  /** Every value is rounded as its mode promises. */
  lemma QuantizedKeepsMode(value: Decimal, places: nat, rounding: Rounding)
    ensures RoundedBy(rounding, value.negative, Scaled(value.magnitude, places), Quantized(value, places, rounding))
  {
    RoundedInUnits(value, Scaled(value.magnitude, places), rounding);
  }

  lemma RoundedInUnits(value: Decimal, units: Magnitude, rounding: Rounding)
    ensures RoundedBy(rounding, value.negative, units, InUnits(value, units, rounding))
  {
    var below: nat := units.Floor;
    assert below as real <= units < below as real + 1.0;
  }

  /** No two numbers keep the same promise. */
  lemma ModesDecide(rounding: Rounding, negative: bool, units: Magnitude, m: nat, n: nat)
    requires RoundedBy(rounding, negative, units, m) && RoundedBy(rounding, negative, units, n)
    ensures m == n
  {
  }

  lemma ScaledDown(v: real, p: real, q: real)
    requires p > 0.0 && q - 1.0 < v * p < q + 1.0
    ensures q * (1.0 / p) - 1.0 / p < v < q * (1.0 / p) + 1.0 / p
    ensures q <= v * p ==> q * (1.0 / p) <= v
  {
    assert q * (1.0 / p) == q / p;
    assert (q + 1.0) / p == q / p + 1.0 / p;
    assert (q - 1.0) / p == q / p - 1.0 / p;
    assert v * p / p == v;
    Divided(q, v * p, p);
    Divided(q - 1.0, v * p, p);
    Divided(v * p, q + 1.0, p);
  }

  lemma Divided(x: real, y: real, p: real)
    requires p > 0.0
    ensures x <= y ==> x / p <= y / p
    ensures x < y ==> x / p < y / p
  {
  }
}
