/**
 * Reading a receipt from OCR text: the merchant, the date, the total, the
 * article lines and a category guess. Every regular expression of the
 * parser is written out as a scanner with JavaScript's leftmost-match
 * semantics. Amounts are whole cents: the amount pattern
 * `(\d{1,6})[,.](\d{2})` always denotes `units + cents / 100` exactly.
 */
module ReceiptParser {
  import opened Options
  import opened Text
  import opened Seqs
  import opened JsNumber
  import opened CivilDate

  /** An article line: the text before its amount, and the amount in cents. */
  datatype Item = Item(description: string, amount: nat)

  /** What `parseReceipt` reads off a receipt; `total` is in cents. */
  datatype ReceiptData = ReceiptData(merchant: string, date: string, total: nat, items: seq<Item>, category: string)

  // ---------------------------------------------------------------------
  // Lines
  // ---------------------------------------------------------------------

  /** `xs.map(l => l.trim())`. */
  function TrimAll(xs: seq<string>): seq<string>
  {
    seq(|xs|, k requires 0 <= k < |xs| => Trim(xs[k]))
  }

  predicate NonEmpty(s: string) { |s| > 0 }

  /** `text.split('\n').map(l => l.trim()).filter(l => l.length > 0)`. */
  function OcrLines(text: string): seq<string>
  {
    Filter(TrimAll(Split(text, '\n')), NonEmpty)
  }

  /** Every line the extractors see is trimmed and non-empty. */
  lemma OcrLinesAreClean(text: string)
    ensures forall k :: 0 <= k < |OcrLines(text)| ==> OcrLines(text)[k] != [] && IsTrimmed(OcrLines(text)[k])
  {
    var trimmed := TrimAll(Split(text, '\n'));
    assert forall x :: x in trimmed ==> IsTrimmed(x);
  }

  /** Trimming lines that are already trimmed changes nothing. */
  lemma TrimAllOfTrimmed(ls: seq<string>)
    requires forall k :: 0 <= k < |ls| ==> IsTrimmed(ls[k])
    ensures TrimAll(ls) == ls
  {
    forall k | 0 <= k < |ls|
      ensures Trim(ls[k]) == ls[k]
    {
      TrimOfTrimmed(ls[k]);
    }
  }

  /** A text whose lines are already trimmed and non-empty yields exactly those lines, in order. */
  lemma OcrLinesOfCleanText(ls: seq<string>)
    requires forall k :: 0 <= k < |ls| ==> ls[k] != [] && IsTrimmed(ls[k]) && '\n' !in ls[k]
    ensures OcrLines(Join(ls, '\n')) == ls
  {
    if ls == [] {
      assert Join(ls, '\n') == "";
      assert Split("", '\n') == [""];
      var t := TrimAll([""]);
      assert t == [""];
      assert Filter(t, NonEmpty) == [];
    } else {
      SplitJoin(ls, '\n');
      TrimAllOfTrimmed(ls);
      FilterAll(ls, NonEmpty);
    }
  }

  // ---------------------------------------------------------------------
  // The amount pattern (\d{1,6})[,.](\d{2})
  // ---------------------------------------------------------------------

  predicate IsAmountSep(c: char) { c == ',' || c == '.' }

  /**
   * The amount pattern matches at position `i`: the run of digits starting
   * there has 1 to 6 digits and is followed by `,` or `.` and two digits.
   */
  predicate AmountAt(s: string, i: nat)
  {
    i <= |s| &&
    var n := DigitRun(s, i);
    1 <= n <= 6 && i + n + 2 < |s| && IsAmountSep(s[i + n]) && IsDigit(s[i + n + 1]) && IsDigit(s[i + n + 2])
  }

  /**
   * However the regular expression matches at `i` (its first group may in
   * principle take 1 to 6 digits), the first group is the whole digit run,
   * so `AmountAt` is exactly when the pattern matches there.
   */
  lemma AmountGroupIsRun(s: string, i: nat, len: nat)
    requires 1 <= len <= 6 && i + len + 3 <= |s|
    requires forall k :: i <= k < i + len ==> IsDigit(s[k])
    requires IsAmountSep(s[i + len]) && IsDigit(s[i + len + 1]) && IsDigit(s[i + len + 2])
    ensures DigitRun(s, i) == len && AmountAt(s, i)
  {
    DigitRunExact(s, i, len);
  }

  /** The first capture group: the digits before the separator. */
  function AmountUnits(s: string, i: nat): (g: string)
    requires AmountAt(s, i)
    ensures 1 <= |g| <= 6 && AllDigits(g)
  {
    s[i..i + DigitRun(s, i)]
  }

  /** The second capture group: the two digits after the separator. */
  function AmountHundredths(s: string, i: nat): (g: string)
    requires AmountAt(s, i)
    ensures |g| == 2 && AllDigits(g)
  {
    var n := DigitRun(s, i);
    s[i + n + 1..i + n + 3]
  }

  /** The amount matched at `i`, in cents. */
  function AmountCents(s: string, i: nat): nat
    requires AmountAt(s, i)
  {
    DigitsValue(AmountUnits(s, i)) * 100 + DigitsValue(AmountHundredths(s, i))
  }

  /** `parseFloat(`${match[1]}.${match[2]}`)` is the matched amount in cents divided by 100. */
  lemma AmountValue(s: string, i: nat)
    requires AmountAt(s, i)
    ensures ParseFloat(AmountUnits(s, i) + "." + AmountHundredths(s, i)) == Some(AmountCents(s, i) as real / 100.0)
  {
    var u, h := AmountUnits(s, i), AmountHundredths(s, i);
    var c := AmountCents(s, i);
    FractionTwoDigits(h);
    assert c as real == DigitsValue(u) as real * 100.0 + DigitsValue(h) as real;
    ParseFloatDecimal(u, h, u + "." + h, c as real / 100.0);
  }

  datatype AmountMatch = AmountMatch(index: nat, cents: nat)

  /** Leftmost match of the amount pattern at or after `from`. */
  function FindAmount(s: string, from: nat): (r: Option<AmountMatch>)
    ensures r.Some? ==> (from <= r.value.index && AmountAt(s, r.value.index)
      && r.value.cents == AmountCents(s, r.value.index))
    ensures forall j :: from <= j && (r.None? || j < r.value.index) ==> !AmountAt(s, j)
    decreases |s| - from
  {
    if from >= |s| then None
    else if AmountAt(s, from) then Some(AmountMatch(from, AmountCents(s, from)))
    else FindAmount(s, from + 1)
  }

  /** `line.match(amountPattern)` reduced to the amount it yields, in cents. */
  function LineAmount(line: string): Option<nat>
  {
    match FindAmount(line, 0)
    case None => None
    case Some(m) => Some(m.cents)
  }

  // ---------------------------------------------------------------------
  // The two date patterns
  // ---------------------------------------------------------------------

  predicate IsDateSep(c: char) { c == '/' || c == '-' || c == '.' }

  /** The three capture groups of a date match. */
  datatype DateGroups = DateGroups(first: string, second: string, third: string)

  predicate DigitGroups(g: DateGroups)
  {
    AllDigits(g.first) && AllDigits(g.second) && AllDigits(g.third)
  }

  function Min(a: int, b: int): int { if a <= b then a else b }

  /**
   * `(\d{1,2})[/.-](\d{1,2})[/.-](\d{2,4})` at position `i`. The first two
   * groups must each be a whole digit run (a longer run leaves a digit where
   * the separator is needed); the greedy third group takes up to four
   * digits of the run.
   */
  function DayFirstAt(s: string, i: nat): (r: Option<DateGroups>)
    requires i <= |s|
    ensures r.Some? ==> (DigitGroups(r.value) && 1 <= |r.value.first| <= 2 && 1 <= |r.value.second| <= 2
      && 2 <= |r.value.third| <= 4)
  {
    var a := DigitRun(s, i);
    if !(1 <= a <= 2 && i + a < |s| && IsDateSep(s[i + a])) then None
    else
      var j := i + a + 1;
      var b := DigitRun(s, j);
      if !(1 <= b <= 2 && j + b < |s| && IsDateSep(s[j + b])) then None
      else
        var k := j + b + 1;
        var c := DigitRun(s, k);
        if c < 2 then None
        else Some(DateGroups(s[i..i + a], s[j..j + b], s[k..k + Min(c, 4)]))
  }

  /**
   * `(\d{4})[/.-](\d{1,2})[/.-](\d{1,2})` at position `i`: a run of exactly
   * four digits, then as above, with a greedy third group of up to two digits.
   */
  function YearFirstAt(s: string, i: nat): (r: Option<DateGroups>)
    requires i <= |s|
    ensures r.Some? ==> (DigitGroups(r.value) && |r.value.first| == 4 && 1 <= |r.value.second| <= 2
      && 1 <= |r.value.third| <= 2)
  {
    var a := DigitRun(s, i);
    if !(a == 4 && i + a < |s| && IsDateSep(s[i + a])) then None
    else
      var j := i + a + 1;
      var b := DigitRun(s, j);
      if !(1 <= b <= 2 && j + b < |s| && IsDateSep(s[j + b])) then None
      else
        var k := j + b + 1;
        var c := DigitRun(s, k);
        if c < 1 then None
        else Some(DateGroups(s[i..i + a], s[j..j + b], s[k..k + Min(c, 2)]))
  }

  /**
   * Any lengths of the first two groups that fit the day-first pattern at
   * `i` are the ones `DayFirstAt` finds: the regular expression has no other
   * way to match there.
   */
  lemma DayFirstGroupsAreRuns(s: string, i: nat, la: nat, lb: nat, lc: nat)
    requires 1 <= la <= 2 && 1 <= lb <= 2 && 2 <= lc <= 4 && i + la + lb + 2 + lc <= |s|
    requires forall k :: i <= k < i + la ==> IsDigit(s[k])
    requires IsDateSep(s[i + la])
    requires forall k :: i + la + 1 <= k < i + la + 1 + lb ==> IsDigit(s[k])
    requires IsDateSep(s[i + la + 1 + lb])
    requires forall k :: i + la + lb + 2 <= k < i + la + lb + 2 + lc ==> IsDigit(s[k])
    ensures DayFirstAt(s, i).Some?
    ensures DayFirstAt(s, i).value.first == s[i..i + la]
    ensures DayFirstAt(s, i).value.second == s[i + la + 1..i + la + 1 + lb]
  {
    DigitRunExact(s, i, la);
    DigitRunExact(s, i + la + 1, lb);
    DigitRunAtLeast(s, i + la + lb + 2, lc);
    DayFirstAtOfRuns(s, i, la, lb);
  }

  /** Once the digit runs at `i` are known, `DayFirstAt` takes them as its first two groups. */
  lemma DayFirstAtOfRuns(s: string, i: nat, la: nat, lb: nat)
    requires i + la + lb + 2 <= |s|
    requires DigitRun(s, i) == la && 1 <= la <= 2 && IsDateSep(s[i + la])
    requires DigitRun(s, i + la + 1) == lb && 1 <= lb <= 2 && IsDateSep(s[i + la + 1 + lb])
    requires DigitRun(s, i + la + lb + 2) >= 2
    ensures DayFirstAt(s, i).Some?
    ensures DayFirstAt(s, i).value.first == s[i..i + la]
    ensures DayFirstAt(s, i).value.second == s[i + la + 1..i + la + 1 + lb]
  {
  }

  /** The pattern tried first (`yearFirst == false`) or second, at position `i`. */
  function PatternAt(s: string, i: nat, yearFirst: bool): (r: Option<DateGroups>)
    requires i <= |s|
    ensures r.Some? ==> DigitGroups(r.value) && 1 <= |r.value.second| <= 2 && 1 <= |r.value.third| <= 4
    ensures r.Some? ==> (|r.value.first| == 4 <==> yearFirst)
  {
    if yearFirst then YearFirstAt(s, i) else DayFirstAt(s, i)
  }

  datatype DateMatch = DateMatch(index: nat, groups: DateGroups)

  /** `line.match(pattern)`: the leftmost match at or after `from`. */
  function FindDate(s: string, from: nat, yearFirst: bool): (r: Option<DateMatch>)
    requires from <= |s|
    ensures r.Some? ==> from <= r.value.index <= |s| && DigitGroups(r.value.groups)
    decreases |s| - from
  {
    var here := PatternAt(s, from, yearFirst);
    if here.Some? then Some(DateMatch(from, here.value))
    else if from == |s| then None
    else FindDate(s, from + 1, yearFirst)
  }

  /** `FindDate` returns the leftmost position where the pattern matches, and nothing only when it matches nowhere. */
  lemma {:induction false} FindDateIsLeftmost(s: string, from: nat, yearFirst: bool)
    requires from <= |s|
    ensures var r := FindDate(s, from, yearFirst);
      r.Some? ==> PatternAt(s, r.value.index, yearFirst) == Some(r.value.groups)
    ensures var r := FindDate(s, from, yearFirst);
      forall j :: from <= j <= |s| && (r.None? || j < r.value.index) ==> PatternAt(s, j, yearFirst).None?
    decreases |s| - from
  {
    if PatternAt(s, from, yearFirst).None? && from < |s| {
      FindDateIsLeftmost(s, from + 1, yearFirst);
    }
  }

  /**
   * The date a match stands for: a four-digit first group is the year,
   * otherwise the groups are day, month, year and a year below 100 gets
   * 2000 added. `None` when the month is not in 1..12 or the day not in 1..31.
   */
  function GroupsDate(g: DateGroups): (r: Option<Ymd>)
    requires DigitGroups(g)
    ensures r.Some? ==> 1 <= r.value.month <= 12 && 1 <= r.value.day <= 31 && r.value.year >= 0
  {
    var year :=
      if |g.first| == 4 then DigitsValue(g.first)
      else if DigitsValue(g.third) < 100 then DigitsValue(g.third) + 2000
      else DigitsValue(g.third);
    var month := DigitsValue(g.second);
    var day := if |g.first| == 4 then DigitsValue(g.third) else DigitsValue(g.first);
    if 1 <= month <= 12 && 1 <= day <= 31 then Some(Ymd(year, month, day)) else None
  }

  /**
   * The date one line yields: the day-first pattern is tried first and the
   * year-first pattern only when the first finds nothing valid.
   */
  function LineDate(line: string): (r: Option<Ymd>)
    ensures r.Some? ==> 1 <= r.value.month <= 12 && 1 <= r.value.day <= 31 && r.value.year >= 0
  {
    var m1 := FindDate(line, 0, false);
    if m1.Some? && GroupsDate(m1.value.groups).Some? then GroupsDate(m1.value.groups)
    else
      var m2 := FindDate(line, 0, true);
      if m2.Some? then GroupsDate(m2.value.groups) else None
  }

  /** A date in `YYYY-MM-DD` form, as the parser formats it. */
  function DateText(d: Ymd): string
    requires 1 <= d.month <= 12 && 1 <= d.day <= 31
  {
    IsoText(d.year, d.month, d.day)
  }

  /** The three groups of a date read from `2025-12-04` by the day-first pattern. */
  lemma IsoTextDayFirstGroups(s: string)
    requires s == "2025-12-04"
    ensures DayFirstAt(s, 0).None? && DayFirstAt(s, 1).None?
    ensures DayFirstAt(s, 2) == Some(DateGroups("25", "12", "04"))
  {
    DigitRunExact(s, 0, 4);
    DigitRunExact(s, 1, 3);
    DigitRunExact(s, 2, 2);
    DigitRunExact(s, 5, 2);
    DigitRunExact(s, 8, 2);
    assert s[2..4] == "25" && s[5..7] == "12" && s[8..10] == "04";
  }

  /** The leftmost day-first match in `2025-12-04` starts at its third character. */
  lemma IsoTextDayFirstMatch(s: string)
    requires s == "2025-12-04"
    ensures FindDate(s, 0, false) == Some(DateMatch(2, DateGroups("25", "12", "04")))
  {
    IsoTextDayFirstGroups(s);
    assert FindDate(s, 2, false) == Some(DateMatch(2, DateGroups("25", "12", "04")));
    assert FindDate(s, 1, false) == FindDate(s, 2, false);
  }

  /** The groups `25`, `12`, `04` stand for the 25th of December 2004. */
  lemma IsoTextGroupsDate(g: DateGroups)
    requires g == DateGroups("25", "12", "04")
    ensures DigitGroups(g) && GroupsDate(g) == Some(Ymd(2004, 12, 25))
  {
    assert g.first == Pad2(25) && g.second == Pad2(12) && g.third == Pad2(4);
    Pad2Digits(25);
    Pad2Digits(12);
    Pad2Digits(4);
  }

  /**
   * The unanchored day-first pattern wins even on an ISO date: in
   * `2025-12-04` it matches `25-12-04`, read as the 25th of December 2004.
   */
  lemma IsoDateReadDayFirst(s: string)
    requires s == "2025-12-04"
    ensures LineDate(s) == Some(Ymd(2004, 12, 25))
  {
    IsoTextDayFirstMatch(s);
    IsoTextGroupsDate(DateGroups("25", "12", "04"));
  }

  /** The day-first pattern reads `04/12/2025` from its first character. */
  lemma FrenchDateMatch(t: string)
    requires t == "04/12/2025"
    ensures FindDate(t, 0, false) == Some(DateMatch(0, DateGroups("04", "12", "2025")))
  {
    DigitRunExact(t, 0, 2);
    DigitRunExact(t, 3, 2);
    DigitRunExact(t, 6, 4);
    assert t[0..2] == "04" && t[3..5] == "12" && t[6..10] == "2025";
    assert DayFirstAt(t, 0) == Some(DateGroups("04", "12", "2025"));
  }

  /** The groups `04`, `12`, `2025` stand for the 4th of December 2025. */
  lemma FrenchGroupsDate(g: DateGroups)
    requires g == DateGroups("04", "12", "2025")
    ensures DigitGroups(g) && GroupsDate(g) == Some(Ymd(2025, 12, 4))
  {
    assert g.first == Pad2(4) && g.second == Pad2(12) && g.third == NatToString(2025);
    Pad2Digits(4);
    Pad2Digits(12);
    NatToStringRoundTrip(2025);
  }

  /** A French day-first date is read as written. */
  lemma FrenchDateRead(t: string)
    requires t == "04/12/2025"
    ensures LineDate(t) == Some(Ymd(2025, 12, 4))
  {
    FrenchDateMatch(t);
    FrenchGroupsDate(DateGroups("04", "12", "2025"));
  }

  // ---------------------------------------------------------------------
  // extractMerchant
  // ---------------------------------------------------------------------

  const KnownMerchants: seq<string> := [
    "CARREFOUR", "AUCHAN", "LECLERC", "INTERMARCHE", "CASINO",
    "MONOPRIX", "FRANPRIX", "LIDL", "ALDI", "SUPER U",
    "PICARD", "BIOCOOP", "NATURALIA", "SEPHORA", "DECATHLON",
    "FNAC", "DARTY", "IKEA", "LEROY MERLIN", "BRICORAMA"]

  const UnknownMerchant: string := "Commerçant inconnu"

  /** Index of the first of `names` the upper-cased line contains, or `|names|`. */
  function NameIndex(line: string, names: seq<string>): (k: nat)
    ensures k <= |names|
  {
    FirstContained(ToUpper(line), names)
  }

  /** Number of lines scanned for a merchant: at most the first five. */
  function TopCount(lines: seq<string>): nat
  {
    if |lines| < 5 then |lines| else 5
  }

  /** `topLines[0] || 'Commerçant inconnu'`. */
  function FallbackMerchant(lines: seq<string>): string
  {
    if lines == [] || lines[0] == [] then UnknownMerchant else lines[0]
  }

  /** The name found in the first of `lines` that contains one of `names`, if any. */
  function FirstNamed(lines: seq<string>, names: seq<string>): Option<string>
  {
    if lines == [] then None
    else if NameIndex(lines[0], names) < |names| then Some(names[NameIndex(lines[0], names)])
    else FirstNamed(lines[1..], names)
  }

  /** `extractMerchant(lines)`: the chain found in the top five lines, else the first line. */
  function MerchantOf(lines: seq<string>): string
  {
    match FirstNamed(lines[..TopCount(lines)], KnownMerchants)
    case Some(m) => m
    case None => FallbackMerchant(lines)
  }

  /** Line `l` is the first of `lines` that contains one of `names`. */
  predicate NamedAt(lines: seq<string>, names: seq<string>, l: int)
  {
    0 <= l < |lines| && NameIndex(lines[l], names) < |names|
    && forall l' :: 0 <= l' < l ==> NameIndex(lines[l'], names) == |names|
  }

  /**
   * `m` is the first known chain (in list order) in the first of the top
   * five lines that holds one, else the first line.
   */
  ghost predicate IsMerchantOf(lines: seq<string>, m: string)
  {
    var top := lines[..TopCount(lines)];
    if exists l :: NamedAt(top, KnownMerchants, l) then
      exists l :: NamedAt(top, KnownMerchants, l) && m == KnownMerchants[NameIndex(top[l], KnownMerchants)]
    else m == FallbackMerchant(lines)
  }

  /** `FirstNamed` finds the name of the first line that holds one, and finds nothing only when none does. */
  lemma {:induction false} FirstNamedIsFirst(lines: seq<string>, names: seq<string>)
    ensures FirstNamed(lines, names).None? ==> forall l :: 0 <= l < |lines| ==> NameIndex(lines[l], names) == |names|
    ensures FirstNamed(lines, names).Some? ==>
      exists l :: NamedAt(lines, names, l) && FirstNamed(lines, names).value == names[NameIndex(lines[l], names)]
  {
    if lines != [] && NameIndex(lines[0], names) == |names| {
      var rest := lines[1..];
      FirstNamedIsFirst(rest, names);
      assert forall l :: 1 <= l < |lines| ==> lines[l] == rest[l - 1];
      if FirstNamed(rest, names).Some? {
        var l :| NamedAt(rest, names, l) && FirstNamed(rest, names).value == names[NameIndex(rest[l], names)];
        assert NamedAt(lines, names, l + 1);
      }
    } else if lines != [] {
      assert NamedAt(lines, names, 0);
    }
  }

  /** Only one line can be the first to hold a name. */
  lemma NamedAtUnique(lines: seq<string>, names: seq<string>, l1: int, l2: int)
    requires NamedAt(lines, names, l1) && NamedAt(lines, names, l2)
    ensures l1 == l2
  {
  }

  /** `MerchantOf` meets the description of `extractMerchant`. */
  lemma MerchantOfDescribed(lines: seq<string>)
    ensures IsMerchantOf(lines, MerchantOf(lines))
  {
    var top := lines[..TopCount(lines)];
    FirstNamedIsFirst(top, KnownMerchants);
  }

  /** At most one merchant meets the description. */
  lemma MerchantIsUnique(lines: seq<string>, m1: string, m2: string)
    requires IsMerchantOf(lines, m1) && IsMerchantOf(lines, m2)
    ensures m1 == m2
  {
    var top := lines[..TopCount(lines)];
    if exists l :: NamedAt(top, KnownMerchants, l) {
      var l1 :| NamedAt(top, KnownMerchants, l1) && m1 == KnownMerchants[NameIndex(top[l1], KnownMerchants)];
      var l2 :| NamedAt(top, KnownMerchants, l2) && m2 == KnownMerchants[NameIndex(top[l2], KnownMerchants)];
      NamedAtUnique(top, KnownMerchants, l1, l2);
    }
  }

  /** The merchant is always one of the known chains or the fallback. */
  lemma MerchantIsKnownOrFirstLine(lines: seq<string>)
    ensures MerchantOf(lines) in KnownMerchants || MerchantOf(lines) == FallbackMerchant(lines)
  {
    FirstNamedIsFirst(lines[..TopCount(lines)], KnownMerchants);
  }

  /** A hit in line `i`, with none before it, is what `FirstNamed` finds. */
  lemma FirstNamedHit(lines: seq<string>, names: seq<string>, i: nat)
    requires i < |lines| && FirstNamed(lines, names) == FirstNamed(lines[i..], names)
    requires NameIndex(lines[i], names) < |names|
    ensures FirstNamed(lines, names) == Some(names[NameIndex(lines[i], names)])
  {
  }

  /** A miss in line `i` moves the search to the next line. */
  lemma FirstNamedMiss(lines: seq<string>, names: seq<string>, i: nat)
    requires i < |lines| && FirstNamed(lines, names) == FirstNamed(lines[i..], names)
    requires NameIndex(lines[i], names) == |names|
    ensures FirstNamed(lines, names) == FirstNamed(lines[i + 1..], names)
  {
    assert lines[i..][1..] == lines[i + 1..];
  }

  /** `extractMerchant`. */
  method ExtractMerchant(lines: seq<string>) returns (merchant: string)
    ensures merchant == MerchantOf(lines)
  {
    var topLines := lines[..TopCount(lines)];
    for i := 0 to |topLines|
      invariant FirstNamed(topLines, KnownMerchants) == FirstNamed(topLines[i..], KnownMerchants)
    {
      var upperLine := ToUpper(topLines[i]);
      for j := 0 to |KnownMerchants|
        invariant j <= FirstContained(upperLine, KnownMerchants)
      {
        if Contains(upperLine, KnownMerchants[j]) {
          FirstContainedHit(upperLine, KnownMerchants, j);
          FirstNamedHit(topLines, KnownMerchants, i);
          return KnownMerchants[j];
        }
        FirstContainedMiss(upperLine, KnownMerchants, j);
      }
      FirstNamedMiss(topLines, KnownMerchants, i);
    }
    merchant := if topLines == [] || topLines[0] == [] then UnknownMerchant else topLines[0];
  }

  // ---------------------------------------------------------------------
  // extractDate
  // ---------------------------------------------------------------------

  /** The date yielded by the first line that yields one, if any. */
  function FirstDate(lines: seq<string>): (r: Option<Ymd>)
    ensures r.Some? ==> 1 <= r.value.month <= 12 && 1 <= r.value.day <= 31
  {
    if lines == [] then None
    else if LineDate(lines[0]).Some? then LineDate(lines[0])
    else FirstDate(lines[1..])
  }

  /** `extractDate(lines)` on a day whose ISO date is `today`. */
  function DateOf(lines: seq<string>, today: string): string
  {
    match FirstDate(lines)
    case Some(d) => DateText(d)
    case None => today
  }

  /** Line `l` is the first of `lines` that yields a date. */
  predicate DatedAt(lines: seq<string>, l: int)
  {
    0 <= l < |lines| && LineDate(lines[l]).Some?
    && forall l' :: 0 <= l' < l ==> LineDate(lines[l']).None?
  }

  /** `d` is the date of the first line that yields one, else `today`. */
  ghost predicate IsDateOf(lines: seq<string>, today: string, d: string)
  {
    if exists l :: DatedAt(lines, l) then
      exists l :: DatedAt(lines, l) && d == DateText(LineDate(lines[l]).value)
    else d == today
  }

  /** `FirstDate` finds the date of the first dated line, and nothing only when no line is dated. */
  lemma {:induction false} FirstDateIsFirst(lines: seq<string>)
    ensures FirstDate(lines).None? ==> forall l :: 0 <= l < |lines| ==> LineDate(lines[l]).None?
    ensures FirstDate(lines).Some? ==> exists l :: DatedAt(lines, l) && FirstDate(lines) == LineDate(lines[l])
  {
    if lines != [] && LineDate(lines[0]).None? {
      var rest := lines[1..];
      FirstDateIsFirst(rest);
      assert forall l :: 1 <= l < |lines| ==> lines[l] == rest[l - 1];
      if FirstDate(rest).Some? {
        var l :| DatedAt(rest, l) && FirstDate(rest) == LineDate(rest[l]);
        DatedAtShift(lines, l);
      }
    } else if lines != [] {
      assert DatedAt(lines, 0);
    }
  }

  /** Behind an undated line, the first dated line of the rest is the first one. */
  lemma DatedAtShift(lines: seq<string>, l: int)
    requires lines != [] && LineDate(lines[0]).None? && DatedAt(lines[1..], l)
    ensures DatedAt(lines, l + 1)
  {
    var rest := lines[1..];
    forall l' | 0 <= l' < l + 1
      ensures LineDate(lines[l']).None?
    {
      if l' > 0 {
        assert lines[l'] == rest[l' - 1];
      }
    }
  }

  /** Only one line can be the first dated one. */
  lemma DatedAtUnique(lines: seq<string>, l1: int, l2: int)
    requires DatedAt(lines, l1) && DatedAt(lines, l2)
    ensures l1 == l2
  {
  }

  /** `DateOf` meets the description of `extractDate`. */
  lemma DateOfDescribed(lines: seq<string>, today: string)
    ensures IsDateOf(lines, today, DateOf(lines, today))
  {
    FirstDateIsFirst(lines);
  }

  /** At most one date meets the description. */
  lemma DateIsUnique(lines: seq<string>, today: string, d1: string, d2: string)
    requires IsDateOf(lines, today, d1) && IsDateOf(lines, today, d2)
    ensures d1 == d2
  {
    if exists l :: DatedAt(lines, l) {
      var l1 :| DatedAt(lines, l1) && d1 == DateText(LineDate(lines[l1]).value);
      var l2 :| DatedAt(lines, l2) && d2 == DateText(LineDate(lines[l2]).value);
      DatedAtUnique(lines, l1, l2);
    }
  }

  /** A dated line `i`, with no dated line before it, gives the date. */
  lemma FirstDateHit(lines: seq<string>, i: nat)
    requires i < |lines| && FirstDate(lines) == FirstDate(lines[i..])
    requires LineDate(lines[i]).Some?
    ensures FirstDate(lines) == LineDate(lines[i])
  {
  }

  /** An undated line `i` moves the search to the next line. */
  lemma FirstDateMiss(lines: seq<string>, i: nat)
    requires i < |lines| && FirstDate(lines) == FirstDate(lines[i..])
    requires LineDate(lines[i]).None?
    ensures FirstDate(lines) == FirstDate(lines[i + 1..])
  {
    assert lines[i..][1..] == lines[i + 1..];
  }

  /** `extractDate`: each line is tried with the day-first pattern, then the year-first one. */
  method ExtractDate(lines: seq<string>, today: string) returns (date: string)
    ensures date == DateOf(lines, today)
  {
    for i := 0 to |lines|
      invariant FirstDate(lines) == FirstDate(lines[i..])
    {
      var line := lines[i];
      var dayFirst := FindDate(line, 0, false);
      if dayFirst.Some? && GroupsDate(dayFirst.value.groups).Some? {
        FirstDateHit(lines, i);
        return DateText(GroupsDate(dayFirst.value.groups).value);
      }
      var yearFirst := FindDate(line, 0, true);
      if yearFirst.Some? && GroupsDate(yearFirst.value.groups).Some? {
        FirstDateHit(lines, i);
        return DateText(GroupsDate(yearFirst.value.groups).value);
      }
      FirstDateMiss(lines, i);
    }
    return today;
  }

  // ---------------------------------------------------------------------
  // extractTotal
  // ---------------------------------------------------------------------

  const TotalKeywords: seq<string> := ["TOTAL", "MONTANT", "A PAYER", "APAYER", "SOMME"]

  /** The fallback only considers amounts below 10000 (in cents, 1000000). */
  const FallbackLimit: nat := 1000000

  /** A line that names the total and holds an amount. */
  predicate TotalLine(line: string)
  {
    ContainsAny(ToUpper(line), TotalKeywords) && LineAmount(line).Some?
  }

  /** An amount the fallback considers: one was found and it is below the limit. */
  predicate UnderLimit(a: Option<nat>)
  {
    a.Some? && a.value < FallbackLimit
  }

  /** A line whose first amount the fallback considers. */
  predicate Candidate(line: string)
  {
    UnderLimit(LineAmount(line))
  }

  /** The amount of the first total line, if any. */
  function FirstTotal(lines: seq<string>): Option<nat>
  {
    if lines == [] then None
    else if TotalLine(lines[0]) then LineAmount(lines[0])
    else FirstTotal(lines[1..])
  }

  /** The first amount of each line. */
  function Amounts(lines: seq<string>): seq<Option<nat>>
  {
    seq(|lines|, l requires 0 <= l < |lines| => LineAmount(lines[l]))
  }

  /** The largest of `amounts` under the limit, or 0 when there is none, scanning from the front. */
  function MaxUnderLimit(amounts: seq<Option<nat>>): nat
  {
    if amounts == [] then 0
    else
      var m := MaxUnderLimit(amounts[..|amounts| - 1]);
      var last := amounts[|amounts| - 1];
      if UnderLimit(last) && last.value > m then last.value else m
  }

  /** The fallback pass: the largest candidate amount, or 0 when there is none. */
  function MaxCandidate(lines: seq<string>): nat
  {
    MaxUnderLimit(Amounts(lines))
  }

  /** `extractTotal(lines)`: the first total line's amount, else the fallback. */
  function TotalOf(lines: seq<string>): nat
  {
    match FirstTotal(lines)
    case Some(t) => t
    case None => MaxCandidate(lines)
  }

  /** Line `l` is the first total line of `lines`. */
  predicate TotalAt(lines: seq<string>, l: int)
  {
    0 <= l < |lines| && TotalLine(lines[l])
    && forall l' :: 0 <= l' < l ==> !TotalLine(lines[l'])
  }

  /** `t` is below the limit, at least every amount under it, and 0 or one of them. */
  ghost predicate IsLargestUnderLimit(amounts: seq<Option<nat>>, t: nat)
  {
    t < FallbackLimit
    && (forall k :: 0 <= k < |amounts| && UnderLimit(amounts[k]) ==> amounts[k].value <= t)
    && (t == 0 || exists k :: 0 <= k < |amounts| && UnderLimit(amounts[k]) && amounts[k].value == t)
  }

  /** `t` is below the limit, at least every candidate's amount, and 0 or one of them. */
  ghost predicate IsLargestCandidate(lines: seq<string>, t: nat)
  {
    t < FallbackLimit
    && (forall l :: 0 <= l < |lines| && Candidate(lines[l]) ==> LineAmount(lines[l]).value <= t)
    && (t == 0 || exists l :: 0 <= l < |lines| && Candidate(lines[l]) && LineAmount(lines[l]).value == t)
  }

  /**
   * `t` is the amount of the first total line; with no total line, the
   * largest amount below the limit, or 0.
   */
  ghost predicate IsTotalOf(lines: seq<string>, t: nat)
  {
    if exists l :: TotalAt(lines, l) then
      exists l :: TotalAt(lines, l) && t == LineAmount(lines[l]).value
    else IsLargestCandidate(lines, t)
  }

  /** `FirstTotal` finds the amount of the first total line, and nothing only when there is none. */
  lemma {:induction false} FirstTotalIsFirst(lines: seq<string>)
    ensures FirstTotal(lines).None? ==> forall l :: 0 <= l < |lines| ==> !TotalLine(lines[l])
    ensures FirstTotal(lines).Some? ==> exists l :: TotalAt(lines, l) && FirstTotal(lines) == LineAmount(lines[l])
  {
    if lines != [] && !TotalLine(lines[0]) {
      var rest := lines[1..];
      FirstTotalIsFirst(rest);
      assert forall l :: 1 <= l < |lines| ==> lines[l] == rest[l - 1];
      if FirstTotal(rest).Some? {
        var l :| TotalAt(rest, l) && FirstTotal(rest) == LineAmount(rest[l]);
        TotalAtShift(lines, l);
      }
    } else if lines != [] {
      assert TotalAt(lines, 0);
    }
  }

  /** Behind a line that is not a total line, the first total line of the rest is the first one. */
  lemma TotalAtShift(lines: seq<string>, l: int)
    requires lines != [] && !TotalLine(lines[0]) && TotalAt(lines[1..], l)
    ensures TotalAt(lines, l + 1)
  {
    var rest := lines[1..];
    forall l' | 0 <= l' < l + 1
      ensures !TotalLine(lines[l'])
    {
      if l' > 0 {
        assert lines[l'] == rest[l' - 1];
      }
    }
  }

  /** `MaxUnderLimit` finds the largest amount under the limit. */
  lemma {:induction false} MaxUnderLimitIsLargest(amounts: seq<Option<nat>>)
    ensures IsLargestUnderLimit(amounts, MaxUnderLimit(amounts))
  {
    if amounts != [] {
      var n := |amounts| - 1;
      var init := amounts[..n];
      MaxUnderLimitIsLargest(init);
      assert forall k :: 0 <= k < n ==> amounts[k] == init[k];
      var m := MaxUnderLimit(init);
      if m != 0 && MaxUnderLimit(amounts) == m {
        var k :| 0 <= k < n && UnderLimit(init[k]) && init[k].value == m;
        assert amounts[k] == init[k];
      }
    }
  }

  /** The fallback's result is the largest candidate amount. */
  lemma MaxCandidateIsLargest(lines: seq<string>)
    ensures IsLargestCandidate(lines, MaxCandidate(lines))
  {
    var amounts := Amounts(lines);
    MaxUnderLimitIsLargest(amounts);
    assert forall l :: 0 <= l < |lines| ==> amounts[l] == LineAmount(lines[l]);
  }

  /** Only one line can be the first total line. */
  lemma TotalAtUnique(lines: seq<string>, l1: int, l2: int)
    requires TotalAt(lines, l1) && TotalAt(lines, l2)
    ensures l1 == l2
  {
  }

  /** `TotalOf` meets the description of `extractTotal`. */
  lemma TotalOfDescribed(lines: seq<string>)
    ensures IsTotalOf(lines, TotalOf(lines))
  {
    FirstTotalIsFirst(lines);
    if FirstTotal(lines).None? {
      MaxCandidateIsLargest(lines);
    }
  }

  /** At most one amount is the largest candidate. */
  lemma LargestCandidateIsUnique(lines: seq<string>, t1: nat, t2: nat)
    requires IsLargestCandidate(lines, t1) && IsLargestCandidate(lines, t2)
    ensures t1 == t2
  {
    if t1 != 0 {
      var l1 :| 0 <= l1 < |lines| && Candidate(lines[l1]) && LineAmount(lines[l1]).value == t1;
    }
    if t2 != 0 {
      var l2 :| 0 <= l2 < |lines| && Candidate(lines[l2]) && LineAmount(lines[l2]).value == t2;
    }
  }

  /** At most one amount meets the description of the total. */
  lemma TotalIsUnique(lines: seq<string>, t1: nat, t2: nat)
    requires IsTotalOf(lines, t1) && IsTotalOf(lines, t2)
    ensures t1 == t2
  {
    if exists l :: TotalAt(lines, l) {
      var l1 :| TotalAt(lines, l1) && t1 == LineAmount(lines[l1]).value;
      var l2 :| TotalAt(lines, l2) && t2 == LineAmount(lines[l2]).value;
      TotalAtUnique(lines, l1, l2);
    } else {
      LargestCandidateIsUnique(lines, t1, t2);
    }
  }

  /** A total line `i`, with none before it, gives the total. */
  lemma FirstTotalHit(lines: seq<string>, i: nat)
    requires i < |lines| && FirstTotal(lines) == FirstTotal(lines[i..])
    requires TotalLine(lines[i])
    ensures FirstTotal(lines) == LineAmount(lines[i])
  {
  }

  /** A line that is not a total line moves the search to the next line. */
  lemma FirstTotalMiss(lines: seq<string>, i: nat)
    requires i < |lines| && FirstTotal(lines) == FirstTotal(lines[i..])
    requires !TotalLine(lines[i])
    ensures FirstTotal(lines) == FirstTotal(lines[i + 1..])
  {
    assert lines[i..][1..] == lines[i + 1..];
  }

  /** One more line in the fallback pass: its amount replaces a smaller maximum if below the limit. */
  lemma MaxCandidateStep(lines: seq<string>, i: nat)
    requires i < |lines|
    ensures MaxCandidate(lines[..i + 1]) ==
      if Candidate(lines[i]) && LineAmount(lines[i]).value > MaxCandidate(lines[..i]) then LineAmount(lines[i]).value
      else MaxCandidate(lines[..i])
  {
    var amounts := Amounts(lines[..i + 1]);
    assert amounts[..i] == Amounts(lines[..i]);
    assert amounts[i] == LineAmount(lines[i]);
  }

  /** `extractTotal`: the keyword pass, then the fallback pass. */
  method ExtractTotal(lines: seq<string>) returns (total: nat)
    ensures total == TotalOf(lines)
  {
    for i := 0 to |lines|
      invariant FirstTotal(lines) == FirstTotal(lines[i..])
    {
      var upperLine := ToUpper(lines[i]);
      var hasKeyword := ContainsAny(upperLine, TotalKeywords);
      if hasKeyword {
        var m := FindAmount(lines[i], 0);
        if m.Some? {
          FirstTotalHit(lines, i);
          return m.value.cents;
        }
      }
      FirstTotalMiss(lines, i);
    }
    var maxAmount := 0;
    for i := 0 to |lines|
      invariant maxAmount == MaxCandidate(lines[..i])
    {
      MaxCandidateStep(lines, i);
      var m := FindAmount(lines[i], 0);
      if m.Some? {
        var amount := m.value.cents;
        if amount > maxAmount && amount < FallbackLimit {
          maxAmount := amount;
        }
      }
    }
    assert lines[..|lines|] == lines;
    return maxAmount;
  }

  // ---------------------------------------------------------------------
  // extractItems
  // ---------------------------------------------------------------------

  const SkipKeywords: seq<string> := [
    "TOTAL", "SOUS-TOTAL", "TVA", "CARTE", "CB", "ESPECES",
    "RENDU", "TICKET", "MERCI", "BONNE JOURNEE"]

  /** Items must cost less than 1000 (in cents, 100000). */
  const ItemLimit: nat := 100000

  /** The article one line yields, if any. */
  function LineItem(line: string): (r: Option<Item>)
    ensures r.Some? ==> !ContainsAny(ToUpper(line), SkipKeywords)
    ensures r.Some? ==> (r.value.description != [] && IsTrimmed(r.value.description)
      && 0 < r.value.amount < ItemLimit)
    ensures r.Some? ==> var m := FindAmount(line, 0);
      m.Some? && r.value.amount == m.value.cents && r.value.description == Trim(line[..m.value.index])
    ensures var m := FindAmount(line, 0);
      (!ContainsAny(ToUpper(line), SkipKeywords) && m.Some? && Trim(line[..m.value.index]) != []
       && 0 < m.value.cents < ItemLimit) ==> r == Some(Item(Trim(line[..m.value.index]), m.value.cents))
  {
    if ContainsAny(ToUpper(line), SkipKeywords) then None
    else
      match FindAmount(line, 0)
      case None => None
      case Some(m) =>
        var description := Trim(line[..m.index]);
        if |description| > 0 && 0 < m.cents < ItemLimit then Some(Item(description, m.cents)) else None
  }

  /** The articles of all lines, in line order. */
  function ItemsOf(lines: seq<string>): (items: seq<Item>)
    ensures |items| <= |lines|
    ensures forall k :: 0 <= k < |items| ==>
      items[k].description != [] && IsTrimmed(items[k].description) && 0 < items[k].amount < ItemLimit
  {
    if lines == [] then []
    else
      var rest := ItemsOf(lines[..|lines| - 1]);
      match LineItem(lines[|lines| - 1])
      case None => rest
      case Some(item) => rest + [item]
  }

  /** The articles of two runs of lines are those of the first run followed by those of the second. */
  lemma {:induction false} ItemsOfAppend(xs: seq<string>, ys: seq<string>)
    ensures ItemsOf(xs + ys) == ItemsOf(xs) + ItemsOf(ys)
    decreases |ys|
  {
    if ys == [] {
      assert xs + ys == xs;
    } else {
      var init, last := ys[..|ys| - 1], ys[|ys| - 1];
      ItemsOfAppend(xs, init);
      assert (xs + ys)[..|xs + ys| - 1] == xs + init && (xs + ys)[|xs + ys| - 1] == last;
    }
  }

  /** A line with a skip keyword contributes nothing, wherever it stands. */
  lemma SkippedLinesIgnored(before: seq<string>, line: string, after: seq<string>)
    requires ContainsAny(ToUpper(line), SkipKeywords)
    ensures ItemsOf(before + [line] + after) == ItemsOf(before + after)
  {
    assert LineItem(line).None?;
    assert ItemsOf([line]) == [] by {
      assert [line][..0] == [];
    }
    ItemsOfAppend(before, [line]);
    ItemsOfAppend(before + [line], after);
    ItemsOfAppend(before, after);
  }

  /** `extractItems`. */
  method ExtractItems(lines: seq<string>) returns (items: seq<Item>)
    ensures items == ItemsOf(lines)
  {
    items := [];
    for i := 0 to |lines|
      invariant items == ItemsOf(lines[..i])
    {
      assert lines[..i + 1][..i] == lines[..i];
      var line := lines[i];
      var upperLine := ToUpper(line);
      if ContainsAny(upperLine, SkipKeywords) {
        continue;
      }
      var m := FindAmount(line, 0);
      if m.Some? {
        var amount := m.value.cents;
        var description := Trim(line[..m.value.index]);
        if |description| > 0 && amount > 0 && amount < ItemLimit {
          items := items + [Item(description, amount)];
        }
      }
    }
    assert lines[..|lines|] == lines;
  }

  // ---------------------------------------------------------------------
  // guessCategory
  // ---------------------------------------------------------------------

  /** The keyword groups, in the order they are tried, with their category. */
  const CategoryRules: seq<(string, seq<string>)> := [
    ("Alimentation", ["CARREFOUR", "AUCHAN", "LECLERC", "INTERMARCHE", "CASINO", "MONOPRIX", "FRANPRIX",
      "LIDL", "ALDI", "SUPER U", "PICARD"]),
    ("Santé & Beauté", ["PHARMACIE", "SEPHORA", "YVES ROCHER", "MARIONNAUD"]),
    ("Sport & Loisirs", ["DECATHLON", "GO SPORT", "INTERSPORT"]),
    ("Bricolage & Maison", ["LEROY MERLIN", "BRICORAMA", "BRICO DEPOT", "CASTORAMA"]),
    ("High-Tech", ["FNAC", "DARTY", "BOULANGER", "APPLE STORE"]),
    ("Restaurants", ["RESTAURANT", "CAFE", "BAR", "BRASSERIE", "PIZZERIA"])]

  const DefaultCategory: string := "Divers"

  /** The text the category rules look at: the lines joined by spaces, upper-cased. */
  function FullText(lines: seq<string>): string
  {
    ToUpper(Join(lines, ' '))
  }

  /** The first of `rules` from `g` on whose keywords the text matches, or `|rules|`. */
  function RuleFrom(text: string, rules: seq<(string, seq<string>)>, g: nat): (r: nat)
    requires g <= |rules|
    ensures g <= r <= |rules|
    decreases |rules| - g
  {
    if g == |rules| then g
    else if ContainsAny(text, rules[g].1) then g
    else RuleFrom(text, rules, g + 1)
  }

  /** `RuleFrom` stops at a matching rule and skips only rules that do not match. */
  lemma {:induction false} RuleFromIsFirst(text: string, rules: seq<(string, seq<string>)>, g: nat)
    requires g <= |rules|
    ensures var r := RuleFrom(text, rules, g);
      (r < |rules| ==> ContainsAny(text, rules[r].1))
      && forall h :: g <= h < r ==> !ContainsAny(text, rules[h].1)
    decreases |rules| - g
  {
    if g < |rules| && !ContainsAny(text, rules[g].1) {
      RuleFromIsFirst(text, rules, g + 1);
    }
  }

  /** Group `g` is the first whose keywords occur in `text`. */
  predicate FirstRuleHit(text: string, g: int)
  {
    0 <= g < |CategoryRules| && ContainsAny(text, CategoryRules[g].1)
    && forall h :: 0 <= h < g ==> !ContainsAny(text, CategoryRules[h].1)
  }

  /** `guessCategory`: the category of the first group with a keyword in the text, else `Divers`. */
  function GuessCategory(lines: seq<string>): string
  {
    var g := RuleFrom(FullText(lines), CategoryRules, 0);
    if g < |CategoryRules| then CategoryRules[g].0 else DefaultCategory
  }

  /**
   * The guess is the label of the first group with a keyword in the text, or
   * `Divers` when no group has one; so it is always one of the labels or `Divers`.
   */
  lemma GuessCategoryIsFirstRule(lines: seq<string>)
    ensures var category := GuessCategory(lines);
      category == DefaultCategory || exists g :: 0 <= g < |CategoryRules| && category == CategoryRules[g].0
    ensures forall g :: FirstRuleHit(FullText(lines), g) ==> GuessCategory(lines) == CategoryRules[g].0
    ensures (forall g :: 0 <= g < |CategoryRules| ==> !ContainsAny(FullText(lines), CategoryRules[g].1))
      ==> GuessCategory(lines) == DefaultCategory
  {
    RuleFromIsFirst(FullText(lines), CategoryRules, 0);
  }

  // ---------------------------------------------------------------------
  // parseReceipt
  // ---------------------------------------------------------------------

  /** `parseReceipt` on a day whose ISO date is `today`. */
  method ParseReceipt(ocrText: string, today: string) returns (data: ReceiptData)
    ensures data.merchant == MerchantOf(OcrLines(ocrText))
    ensures data.date == DateOf(OcrLines(ocrText), today)
    ensures data.total == TotalOf(OcrLines(ocrText))
    ensures data.items == ItemsOf(OcrLines(ocrText))
    ensures data.category == GuessCategory(OcrLines(ocrText))
  {
    var lines := OcrLines(ocrText);
    var merchant := ExtractMerchant(lines);
    var date := ExtractDate(lines, today);
    var total := ExtractTotal(lines);
    var items := ExtractItems(lines);
    data := ReceiptData(merchant, date, total, items, GuessCategory(lines));
  }
}
