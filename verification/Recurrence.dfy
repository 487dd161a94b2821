/** Bounding a recurrence request: calendar dates, the default three-month cutoff, the
    occurrence count, and the rule text that is written and read back. */
module Recurrence {
  import opened Wrappers

  // ----- Civil dates and day numbers -----

  datatype Date = Date(year: nat, month: nat, day: nat)

  predicate Leap(year: nat) {
    year % 4 == 0 && (year % 100 != 0 || year % 400 == 0)
  }

  function DaysInMonth(year: nat, month: nat): nat {
    if month == 2 then (if Leap(year) then 29 else 28)
    else if month == 4 || month == 6 || month == 9 || month == 11 then 30
    else 31
  }

  predicate Valid(d: Date) {
    1 <= d.month <= 12 && 1 <= d.day <= DaysInMonth(d.year, d.month)
  }

  function DaysBeforeYear(year: nat): nat {
    if year == 0 then 0 else DaysBeforeYear(year - 1) + if Leap(year - 1) then 366 else 365
  }

  function DaysBeforeMonth(year: nat, month: nat): nat
    requires 1 <= month <= 12
  {
    (match month
     case 1 => 0 case 2 => 31 case 3 => 59 case 4 => 90 case 5 => 120 case 6 => 151
     case 7 => 181 case 8 => 212 case 9 => 243 case 10 => 273 case 11 => 304 case _ => 334)
    + if month > 2 && Leap(year) then 1 else 0
  }

  function DayNumber(d: Date): int
    requires 1 <= d.month <= 12
  {
    DaysBeforeYear(d.year) + DaysBeforeMonth(d.year, d.month) + d.day - 1
  }

  /** Month starts and month lengths agree. */
  lemma MonthsAdjoin(year: nat, month: nat)
    requires 1 <= month <= 12
    ensures DaysBeforeMonth(year, month) + DaysInMonth(year, month)
         == if month < 12 then DaysBeforeMonth(year, month + 1) else DaysBeforeYear(year + 1) - DaysBeforeYear(year)
  {
  }

  // ----- Date.UTC -----

  function Remapped(year: nat): nat {
    if year <= 99 then 1900 + year else year
  }

  /** Day number of Date.UTC(year, month index, day): month indices carry into the year,
      and the years 0 to 99 mean 1900 to 1999. */
  function Utc(year: nat, monthIndex: nat, day: int): int {
    var y := Remapped(year) + monthIndex / 12;
    DayNumber(Date(y, monthIndex % 12 + 1, 1)) + day - 1
  }

  /** The date three months on, its day clamped to the length of that month. */
  function ThreeMonthsOn(d: Date): Date
    requires 1 <= d.month <= 12
  {
    var year, month := if d.month <= 9 then d.year else d.year + 1, if d.month <= 9 then d.month + 3 else d.month - 9;
    Date(year, month, Min(d.day, DaysInMonth(year, month)))
  }

  /** getUTCDate of day 0 of the month after `monthIndex`: that date is in the month itself. */
  function LastDayOfMonth(year: nat, monthIndex: nat): int {
    Utc(year, monthIndex + 1, 0) - Utc(year, monthIndex, 1) + 1
  }

  function DefaultCutoff(start: Date): int
    requires 1 <= start.month <= 12
  {
    var index := start.month + 2;
    Utc(start.year, index, Min(start.day, LastDayOfMonth(start.year, index))) - 1
  }

  lemma NextIndex(monthIndex: nat)
    ensures (monthIndex + 1) / 12 == monthIndex / 12 + (if monthIndex % 12 == 11 then 1 else 0)
    ensures (monthIndex + 1) % 12 == if monthIndex % 12 == 11 then 0 else monthIndex % 12 + 1
  {
  }

  lemma LastDayIsMonthLength(year: nat, monthIndex: nat)
    requires year >= 100
    ensures LastDayOfMonth(year, monthIndex) == DaysInMonth(year + monthIndex / 12, monthIndex % 12 + 1)
  {
    hide Leap, DaysInMonth, DaysBeforeYear;
    MonthsAdjoin(year + monthIndex / 12, monthIndex % 12 + 1);
    NextIndex(monthIndex);
  }

  /** Three months span between 89 and 92 days, clamped or not. */
  lemma ThreeMonthsSpan(start: Date)
    requires Valid(start)
    ensures Valid(ThreeMonthsOn(start)) && 89 <= DayNumber(ThreeMonthsOn(start)) - DayNumber(start) <= 92
  {
  }

  lemma YearLength(year: nat)
    ensures DaysBeforeYear(year + 1) == DaysBeforeYear(year) + if Leap(year) then 366 else 365
  {
  }

  lemma NoTwoLeapYears(year: nat)
    ensures Leap(year) ==> !Leap(year + 1)
  {
  }

  lemma IndexSplit(month: nat)
    requires 1 <= month <= 12
    ensures (month + 2) / 12 == (if month <= 9 then 0 else 1)
    ensures (month + 2) % 12 + 1 == if month <= 9 then month + 3 else month - 9
  {
  }

  lemma SameRemapping(year: nat, monthIndex: nat)
    ensures LastDayOfMonth(year, monthIndex) == LastDayOfMonth(Remapped(year), monthIndex)
  {
    hide DayNumber;
  }

  lemma UtcInCivilTerms(year: nat, month: nat, day: nat)
    requires 1 <= month <= 12
    ensures var on := if month <= 9 then Date(Remapped(year), month + 3, day)
                      else Date(Remapped(year) + 1, month - 9, day);
            Utc(year, month + 2, day) == DayNumber(on)
            && LastDayOfMonth(year, month + 2) == DaysInMonth(on.year, on.month)
  {
    hide Leap, DaysInMonth, DaysBeforeYear, LastDayOfMonth;
    IndexSplit(month);
    LastDayIsMonthLength(Remapped(year), month + 2);
    SameRemapping(year, month + 2);
  }

  /** The default cutoff in civil terms, with the year remapping made explicit. */
  lemma CutoffIsThreeMonthsFrom(start: Date)
    requires Valid(start)
    ensures DefaultCutoff(start) == DayNumber(ThreeMonthsOn(start.(year := Remapped(start.year)))) - 1
  {
    hide DayNumber, DaysInMonth, Utc, LastDayOfMonth, Leap;
    var on := ThreeMonthsOn(start.(year := Remapped(start.year)));
    UtcInCivilTerms(start.year, start.month, on.day);
  }

  /** The default cutoff is the day before the clamped date three months on. */
  lemma DefaultCutoffIsThreeMonths(start: Date)
    requires Valid(start) && start.year >= 100
    ensures DefaultCutoff(start) == DayNumber(ThreeMonthsOn(start)) - 1
    ensures 88 <= DefaultCutoff(start) - DayNumber(start) <= 91
  {
    hide Leap, DaysInMonth, DaysBeforeYear, DefaultCutoff, DayNumber;
    CutoffIsThreeMonthsFrom(start);
    assert start.(year := start.year) == start;
    ThreeMonthsSpan(start);
  }

  lemma {:induction false} YearsApart(first: nat, last: nat)
    requires first <= last
    ensures DaysBeforeYear(last) >= DaysBeforeYear(first) + 365 * (last - first)
    decreases last - first
  {
    if first < last { YearsApart(first, last - 1); }
  }

  lemma LaterYearsAreLater(start: Date)
    requires Valid(start)
    ensures DayNumber(ThreeMonthsOn(start.(year := 1900 + start.year))) - DayNumber(start) > 1900 * 365
  {
    hide Leap, DaysBeforeYear;
    var later := 1900 + start.year;
    YearsApart(start.year, later);
    YearLength(later);
    NoTwoLeapYears(later);
  }

  /** In the first century the remapping puts the cutoff nineteen centuries late. */
  lemma CutoffOfFirstCentury(start: Date)
    requires Valid(start) && start.year <= 99
    ensures DefaultCutoff(start) - DayNumber(start) >= 1900 * 365
  {
    hide Leap, DaysInMonth, DaysBeforeYear, DefaultCutoff, DayNumber;
    CutoffIsThreeMonthsFrom(start);
    LaterYearsAreLater(start);
  }

  // ----- Rules -----

  datatype Frequency = Daily | Weekly

  datatype Error = Unsupported | Limit | Invalid

  datatype Rule = Rule(frequency: Frequency, interval: int, count: int, days: int)

  function Period(f: Frequency, interval: int): int {
    (if f == Weekly then 7 else 1) * interval
  }

  function CheckRule(f: Frequency, interval: int, count: int): Result<Rule, Error> {
    if !(1 <= interval <= 99) || !(1 <= count <= 999) then Err(Unsupported)
    else if interval > 12 || count < 2 || count > 366 then Err(Unsupported)
    else if Period(f, interval) * (count - 1) > 366 then Err(Limit)
    else Ok(Rule(f, interval, count, Period(f, interval)))
  }

  datatype Recurrence =
    | Counted(frequency: Frequency, interval: int, count: int)
    | Open(frequency: Frequency, interval: int, until: Option<Date>)

  datatype Request = Request(recurrence: Recurrence, start: Date)

  function Cutoff(start: Date, until: Option<Date>): int
    requires 1 <= start.month <= 12 && (until.Some? ==> 1 <= until.value.month <= 12)
  {
    if until.Some? then DayNumber(until.value) else DefaultCutoff(start)
  }

  /** Floor division by a positive period. */
  function CountTo(start: int, cutoff: int, period: int): int
    requires period > 0
  {
    (cutoff - start) / period + 1
  }

  function Bound(r: Request): Result<Request, Error> {
    match r.recurrence
    case Counted(_, _, _) => Ok(r)
    case Open(f, interval, until) =>
      if !(1 <= interval <= 99) then Err(Unsupported)
      else if !Valid(r.start) || (until.Some? && !Valid(until.value)) then Err(Invalid)
      else if CheckRule(f, interval, 2).Err? then Err(CheckRule(f, interval, 2).error)
      else
        var count := CountTo(DayNumber(r.start), Cutoff(r.start, until), Period(f, interval));
        var checked := CheckRule(f, interval, count);
        if checked.Err? then Err(checked.error) else Ok(Request(Counted(f, interval, count), r.start))
  }

  lemma CountToIsLast(start: int, cutoff: int, period: int)
    requires period > 0
    ensures var n := CountTo(start, cutoff, period);
            start + period * (n - 1) <= cutoff < start + period * n
  {
  }

  // ----- The rule text -----

  function Split(s: string, separator: char): (parts: seq<string>)
    ensures parts != []
  {
    if s == [] then [[]]
    else
      var rest := Split(s[1..], separator);
      if s[0] == separator then [[]] + rest else [[s[0]] + rest[0]] + rest[1..]
  }

  predicate Digits(s: string) {
    forall i :: 0 <= i < |s| ==> '0' <= s[i] <= '9'
  }

  function ParseNat(s: string): nat
    requires Digits(s)
  {
    if s == [] then 0 else 10 * ParseNat(s[..|s| - 1]) + (s[|s| - 1] - '0') as nat
  }

  /** One to `width` digits, the first of them not zero. */
  predicate Counting(s: string, width: nat) {
    1 <= |s| <= width && Digits(s) && s[0] != '0'
  }

  function Lookup(pairs: seq<seq<string>>, key: string): Option<string>
    requires forall i :: 0 <= i < |pairs| ==> |pairs[i]| == 2
  {
    if pairs == [] then None
    else if pairs[0][0] == key then Some(pairs[0][1])
    else Lookup(pairs[1..], key)
  }

  predicate Known(pair: seq<string>) {
    |pair| == 2 && (pair[0] == "FREQ" || pair[0] == "INTERVAL" || pair[0] == "COUNT") && pair[1] != ""
  }

  const PREFIX := "RRULE:"

  function SplitAll(parts: seq<string>): (pairs: seq<seq<string>>)
    ensures |pairs| == |parts|
  {
    if parts == [] then [] else [Split(parts[0], '=')] + SplitAll(parts[1..])
  }

  function ParseRule(value: string): Result<Rule, Error> {
    if !(PREFIX <= value) then Err(Unsupported)
    else
      var pairs := SplitAll(Split(value[|PREFIX|..], ';'));
      if exists i :: 0 <= i < |pairs| && !Known(pairs[i]) then Err(Unsupported)
      else if exists i, j :: 0 <= i < j < |pairs| && pairs[i][0] == pairs[j][0] then Err(Unsupported)
      else
        var frequency := Lookup(pairs, "FREQ");
        var interval := Lookup(pairs, "INTERVAL").Or("1");
        var count := Lookup(pairs, "COUNT").Or("");
        if frequency != Some("DAILY") && frequency != Some("WEEKLY") then Err(Unsupported)
        else if !Counting(interval, 2) || !Counting(count, 3) then Err(Unsupported)
        else CheckRule(if frequency == Some("DAILY") then Daily else Weekly, ParseNat(interval), ParseNat(count))
  }

  function PrintNat(n: nat): (s: string) {
    if n < 10 then [('0' as int + n) as char] else PrintNat(n / 10) + [('0' as int + n % 10) as char]
  }

  function PrintInt(n: int): string {
    if n < 0 then "-" + PrintNat(-n) else PrintNat(n)
  }

  function Name(f: Frequency): string {
    if f == Daily then "DAILY" else "WEEKLY"
  }

  function PrintRule(f: Frequency, interval: int, count: int): string {
    PREFIX + (("FREQ" + "=" + Name(f)) + ";" + ("INTERVAL" + "=" + PrintInt(interval)) + ";"
              + ("COUNT" + "=" + PrintInt(count)))
  }

  lemma {:induction false} PrintNatDigits(n: nat)
    ensures Digits(PrintNat(n)) && ParseNat(PrintNat(n)) == n && PrintNat(n) != []
    ensures n > 0 ==> PrintNat(n)[0] != '0'
    ensures |PrintNat(n)| <= 2 <==> n < 100
    ensures |PrintNat(n)| <= 3 <==> n < 1000
    ensures |PrintNat(n)| <= 1 <==> n < 10
  {
    if n >= 10 {
      PrintNatDigits(n / 10);
      assert PrintNat(n)[..|PrintNat(n)| - 1] == PrintNat(n / 10);
    } else {
      assert PrintNat(n)[..0] == [];
    }
  }

  lemma PrintIntIsClean(n: int)
    ensures ';' !in PrintInt(n) && '=' !in PrintInt(n) && PrintInt(n) != ""
    ensures Counting(PrintInt(n), 2) <==> 1 <= n <= 99
    ensures Counting(PrintInt(n), 3) <==> 1 <= n <= 999
    ensures n >= 0 ==> Digits(PrintInt(n)) && ParseNat(PrintInt(n)) == n
  {
    PrintNatDigits(if n < 0 then -n else n);
    if n < 0 { assert PrintInt(n)[0] == '-'; }
    forall c | c in PrintInt(n) ensures c != ';' && c != '=' {
      var digits := PrintNat(if n < 0 then -n else n);
      assert c == '-' || c in digits;
    }
  }

  function PairsOf(f: Frequency, interval: int, count: int): seq<seq<string>> {
    [["FREQ", Name(f)], ["INTERVAL", PrintInt(interval)], ["COUNT", PrintInt(count)]]
  }

  lemma {:induction false} SplitClean(s: string, separator: char)
    requires separator !in s
    ensures Split(s, separator) == [s]
  {
    if s != [] {
      SplitClean(s[1..], separator);
      assert [s[0]] + s[1..] == s;
    }
  }

  lemma {:induction false} SplitAt(first: string, separator: char, rest: string)
    requires separator !in first
    ensures Split(first + [separator] + rest, separator) == [first] + Split(rest, separator)
  {
    var s := first + [separator] + rest;
    if first == [] {
      assert s[1..] == rest;
    } else {
      assert s[1..] == first[1..] + [separator] + rest;
      SplitAt(first[1..], separator, rest);
      assert [first[0]] + first[1..] == first;
    }
  }

  lemma PairSplits(key: string, value: string)
    requires '=' !in key && '=' !in value
    ensures Split(key + "=" + value, '=') == [key, value]
  {
    SplitAt(key, '=', value);
    SplitClean(value, '=');
  }

  lemma ThreeParts(a: string, b: string, c: string)
    requires ';' !in a && ';' !in b && ';' !in c
    ensures Split(a + ";" + b + ";" + c, ';') == [a, b, c]
  {
    assert a + ";" + b + ";" + c == a + ";" + (b + ";" + c);
    SplitAt(a, ';', b + ";" + c);
    SplitAt(b, ';', c);
    SplitClean(c, ';');
  }

  lemma SplitThree(a: string, b: string, c: string)
    ensures SplitAll([a, b, c]) == [Split(a, '='), Split(b, '='), Split(c, '=')]
  {
    assert [a, b, c][1..] == [b, c] && [b, c][1..] == [c] && [c][1..] == [];
    assert SplitAll([b, c]) == [Split(b, '='), Split(c, '=')];
  }

  lemma PrintedPairs(f: Frequency, interval: int, count: int)
    ensures PREFIX <= PrintRule(f, interval, count)
    ensures SplitAll(Split(PrintRule(f, interval, count)[|PREFIX|..], ';')) == PairsOf(f, interval, count)
  {
    PrintIntIsClean(interval);
    PrintIntIsClean(count);
    var a, b, c := "FREQ" + "=" + Name(f), "INTERVAL" + "=" + PrintInt(interval), "COUNT" + "=" + PrintInt(count);
    assert PrintRule(f, interval, count)[|PREFIX|..] == a + ";" + b + ";" + c;
    ThreeParts(a, b, c);
    PairSplits("FREQ", Name(f));
    PairSplits("INTERVAL", PrintInt(interval));
    PairSplits("COUNT", PrintInt(count));
    SplitThree(a, b, c);
  }

  lemma KeysDiffer()
    ensures "FREQ" != "INTERVAL" && "FREQ" != "COUNT" && "INTERVAL" != "COUNT" && "DAILY" != "WEEKLY"
  {
  }

  lemma PairsLookUp(f: Frequency, interval: int, count: int)
    ensures var pairs := PairsOf(f, interval, count);
            Lookup(pairs, "FREQ") == Some(Name(f)) && Lookup(pairs, "INTERVAL") == Some(PrintInt(interval))
            && Lookup(pairs, "COUNT") == Some(PrintInt(count))
    ensures var pairs := PairsOf(f, interval, count); forall i, j :: 0 <= i < j < 3 ==> pairs[i][0] != pairs[j][0]
  {
    KeysDiffer();
    var pairs := PairsOf(f, interval, count);
    assert pairs[1..][0] == pairs[1] && pairs[1..][1..][0] == pairs[2];
    assert Lookup(pairs[1..], "COUNT") == Lookup(pairs[1..][1..], "COUNT") == Some(PrintInt(count));
  }

  /** Reading back a printed rule gives the numeric check on the printed numbers, so every
      bounded request prints a rule that is read back as itself. */
  lemma PrintedRuleParses(f: Frequency, interval: int, count: int)
    ensures ParseRule(PrintRule(f, interval, count)) == CheckRule(f, interval, count)
  {
    PrintedPairs(f, interval, count);
    PairsLookUp(f, interval, count);
    PrintIntIsClean(interval);
    PrintIntIsClean(count);
    KeysDiffer();
    var pairs := PairsOf(f, interval, count);
    forall i | 0 <= i < |pairs| ensures Known(pairs[i]) {}
  }

  lemma TwoPairs(f: Frequency, count: int, rule: string)
    requires rule == PREFIX + ("FREQ" + "=" + Name(f)) + ";" + ("COUNT" + "=" + PrintInt(count))
    ensures PREFIX <= rule
    ensures SplitAll(Split(rule[|PREFIX|..], ';')) == [["FREQ", Name(f)], ["COUNT", PrintInt(count)]]
  {
    PrintIntIsClean(count);
    var a, b := "FREQ" + "=" + Name(f), "COUNT" + "=" + PrintInt(count);
    assert rule[|PREFIX|..] == a + ";" + b;
    SplitAt(a, ';', b);
    SplitClean(b, ';');
    PairSplits("FREQ", Name(f));
    PairSplits("COUNT", PrintInt(count));
    assert [a, b][1..] == [b] && [b][1..] == [];
  }

  lemma TwoLookUp(frequency: string, count: string)
    ensures var pairs := [["FREQ", frequency], ["COUNT", count]];
            && Lookup(pairs, "INTERVAL") == None
            && Lookup(pairs, "FREQ") == Some(frequency) && Lookup(pairs, "COUNT") == Some(count)
  {
    KeysDiffer();
    var pairs := [["FREQ", frequency], ["COUNT", count]];
    assert pairs[1..] == [["COUNT", count]] && pairs[1..][1..] == [];
    assert Lookup(pairs, "INTERVAL") == Lookup(pairs[1..], "INTERVAL") == Lookup([], "INTERVAL") == None;
  }

  /** A rule that names no interval has the interval one. */
  lemma IntervalDefaultsToOne(f: Frequency, count: int)
    ensures ParseRule(PREFIX + ("FREQ" + "=" + Name(f)) + ";" + ("COUNT" + "=" + PrintInt(count)))
            == CheckRule(f, 1, count)
  {
    TwoPairs(f, count, PREFIX + ("FREQ" + "=" + Name(f)) + ";" + ("COUNT" + "=" + PrintInt(count)));
    PrintIntIsClean(count);
    TwoLookUp(Name(f), PrintInt(count));
    KeysDiffer();
    var pairs := [["FREQ", Name(f)], ["COUNT", PrintInt(count)]];
    forall i | 0 <= i < |pairs| ensures Known(pairs[i]) {}
    hide Lookup;
    assert ParseNat("1") == 1 by { assert "1"[..0] == ""; }
  }

  /** The order of the refusals: an interval of no or too many digits, then a date that is none, then a rule that
      is outside the subset. */
  lemma RefusalsInOrder(r: Request)
    requires r.recurrence.Open?
    ensures var i, dates := r.recurrence.interval,
                            Valid(r.start) && (r.recurrence.until.Some? ==> Valid(r.recurrence.until.value));
            && (!(1 <= i <= 99) ==> Bound(r) == Err(Unsupported))
            && (1 <= i <= 99 && !dates ==> Bound(r) == Err(Invalid))
            && (1 <= i <= 99 && dates && i > 12 ==> Bound(r) == Err(Unsupported))
            && (Bound(r) == Err(Invalid) ==> 1 <= i <= 99 && !dates)
  {
    hide DayNumber, DefaultCutoff, DaysInMonth;
  }

  /** A bounded request ends on or before its cutoff, one more occurrence would pass it,
      its rule is accepted, and bounding it again changes nothing. */
  lemma BoundStopsAtCutoff(r: Request)
    requires r.recurrence.Open? && Bound(r).Ok?
    ensures var b, f, i := Bound(r).value, r.recurrence.frequency, r.recurrence.interval;
            && b.recurrence.Counted? && b.start == r.start && Valid(r.start)
            && CheckRule(f, i, b.recurrence.count) == Ok(Rule(f, i, b.recurrence.count, Period(f, i)))
            && 2 <= b.recurrence.count <= 366
            && (r.recurrence.until.Some? ==> Valid(r.recurrence.until.value))
            && DayNumber(r.start) + Period(f, i) * (b.recurrence.count - 1) <= Cutoff(r.start, r.recurrence.until)
                 < DayNumber(r.start) + Period(f, i) * b.recurrence.count
            && ParseRule(PrintRule(f, i, b.recurrence.count)) == Ok(Rule(f, i, b.recurrence.count, Period(f, i)))
            && Bound(b) == Ok(b)
  {
    var f, i := r.recurrence.frequency, r.recurrence.interval;
    CountToIsLast(DayNumber(r.start), Cutoff(r.start, r.recurrence.until), Period(f, i));
    PrintedRuleParses(f, i, Bound(r).value.recurrence.count);
  }

  lemma QuotientBounds(span: int, period: int)
    requires 88 <= span <= 91 && 1 <= period <= 84
    ensures 1 <= span / period <= 91 && period * (span / period) <= 91
  {
  }

  lemma LargeQuotient(span: int, period: int)
    requires span >= 1900 * 365 && 1 <= period <= 84
    ensures span / period >= 1000
  {
  }

  /** Without an end date, every accepted interval succeeds except in the first century. */
  lemma DefaultBoundSucceedsIff(r: Request)
    requires r.recurrence.Open? && r.recurrence.until == None && Valid(r.start) && 1 <= r.recurrence.interval <= 12
    ensures Bound(r).Ok? <==> r.start.year >= 100
    ensures r.start.year < 100 ==> Bound(r) == Err(Unsupported)
  {
    hide DefaultCutoff, DayNumber, DaysInMonth;
    var start, cutoff := DayNumber(r.start), DefaultCutoff(r.start);
    var period := Period(r.recurrence.frequency, r.recurrence.interval);
    CountToIsLast(start, cutoff, period);
    var n := CountTo(start, cutoff, period);
    if r.start.year >= 100 {
      DefaultCutoffIsThreeMonths(r.start);
      QuotientBounds(cutoff - start, period);
    } else {
      CutoffOfFirstCentury(r.start);
      LargeQuotient(cutoff - start, period);
    }
  }

  lemma Product(a: int, b: int, c: int)
    requires a >= 0 && b <= c
    ensures a * b <= a * c
  {
  }

  lemma QuotientBelow(span: int, period: int, k: int)
    requires period > 0
    ensures span / period < k <==> span < period * k
    ensures period * (span / period) <= span
  {
    var q := span / period;
    assert period * (q + 1) == period * q + period && period * q <= span < period * q + period;
    if q < k { Product(period, q + 1, k); } else { Product(period, k, q); }
  }

  lemma HalfYear(period: int)
    requires 2 <= period
    ensures 366 / period <= 183
  {
  }

  /** With an end date, success is exactly a span of at least one period in which no more
      than 366 occurrences fit into 366 days. */
  lemma UntilBoundSucceedsIff(r: Request)
    requires r.recurrence.Open? && r.recurrence.until.Some? && Valid(r.start) && Valid(r.recurrence.until.value)
    requires 1 <= r.recurrence.interval <= 12
    ensures var span := DayNumber(r.recurrence.until.value) - DayNumber(r.start);
            var period := Period(r.recurrence.frequency, r.recurrence.interval);
            Bound(r).Ok? <==> period <= span < if period == 1 then 366 else period * (366 / period + 1)
  {
    var span := DayNumber(r.recurrence.until.value) - DayNumber(r.start);
    var period := Period(r.recurrence.frequency, r.recurrence.interval);
    QuotientBelow(span, period, 1);
    QuotientBelow(span, period, 366 / period + 1);
    QuotientBelow(366, period, span / period);
    QuotientBelow(span, period, 366);
    if period > 1 { HalfYear(period); }
  }

  // ----- The series on the calendar, day by day -----

  function NextDay(d: Date): (next: Date)
    requires Valid(d)
    ensures Valid(next)
  {
    if d.day < DaysInMonth(d.year, d.month) then Date(d.year, d.month, d.day + 1)
    else if d.month < 12 then Date(d.year, d.month + 1, 1)
    else Date(d.year + 1, 1, 1)
  }

  /** The date `n` days on. */
  function Later(d: Date, n: nat): (later: Date)
    requires Valid(d)
    ensures Valid(later)
    decreases n
  {
    if n == 0 then d else Later(NextDay(d), n - 1)
  }

  lemma NextDayCounts(d: Date)
    requires Valid(d)
    ensures DayNumber(NextDay(d)) == DayNumber(d) + 1
  {
    hide DaysInMonth, DaysBeforeYear, Leap;
    MonthsAdjoin(d.year, d.month);
  }

  /** Day numbers count days. */
  lemma {:induction false} LaterCounts(d: Date, n: nat)
    requires Valid(d)
    ensures DayNumber(Later(d, n)) == DayNumber(d) + n
    decreases n
  {
    hide DayNumber, NextDay;
    if n > 0 {
      NextDayCounts(d);
      LaterCounts(NextDay(d), n - 1);
    }
  }

  lemma Fourths(year: nat)
    ensures (year + 4) / 4 - (year + 3) / 4 == if year % 4 == 0 then 1 else 0
  {
  }

  lemma HundredsIn(x: nat, q: nat)
    requires 100 * q <= x < 100 * q + 100
    ensures x / 100 == q
  {
  }

  lemma FourHundredsIn(x: nat, q: nat)
    requires 400 * q <= x < 400 * q + 400
    ensures x / 400 == q
  {
  }

  lemma Hundredths(year: nat, q: nat, r: nat)
    requires year == 100 * q + r && r < 100
    ensures (year + 100) / 100 - (year + 99) / 100 == if r == 0 then 1 else 0
  {
    HundredsIn(year + 100, q + 1);
    HundredsIn(year + 99, if r == 0 then q else q + 1);
  }

  lemma FourHundredths(year: nat, q: nat, r: nat)
    requires year == 400 * q + r && r < 400
    ensures (year + 400) / 400 - (year + 399) / 400 == if r == 0 then 1 else 0
  {
    FourHundredsIn(year + 400, q + 1);
    FourHundredsIn(year + 399, if r == 0 then q else q + 1);
  }

  lemma LeapByRemainders(year: nat)
    ensures Leap(year) <==> (year % 4 == 0 && year % 100 != 0) || year % 400 == 0
    ensures year % 100 == 0 ==> year % 4 == 0
    ensures year % 400 == 0 ==> year % 100 == 0
  {
    assert year == 100 * (year / 100) + year % 100 && year == 400 * (year / 400) + year % 400;
    assert year % 100 == 0 ==> year == 4 * (25 * (year / 100));
    assert year % 400 == 0 ==> year == 100 * (4 * (year / 400));
  }

  /** A leap day every fourth year, except every hundredth, except every four hundredth. */
  lemma {:induction false} YearsInClosedForm(year: nat)
    ensures DaysBeforeYear(year) == 365 * year + (year + 3) / 4 - (year + 99) / 100 + (year + 399) / 400
  {
    if year > 0 {
      var y := year - 1;
      YearsInClosedForm(y);
      Fourths(y);
      Hundredths(y, y / 100, y % 100);
      FourHundredths(y, y / 400, y % 400);
      LeapByRemainders(y);
      hide Leap;
    }
  }

  lemma LaterMonthsAreLater(year: nat, m: nat, n: nat)
    requires 1 <= m < n <= 12
    ensures DaysBeforeMonth(year, m) + DaysInMonth(year, m) <= DaysBeforeMonth(year, n)
    decreases n - m
  {
    MonthsAdjoin(year, m);
    hide DaysInMonth, DaysBeforeMonth, Leap;
    if m + 1 < n {
      LaterMonthsAreLater(year, m + 1, n);
      assert DaysInMonth(year, m + 1) >= 0;
    }
  }

  /** A date lies in its year. */
  lemma InsideYear(d: Date)
    requires Valid(d)
    ensures DaysBeforeYear(d.year) <= DayNumber(d) < DaysBeforeYear(d.year + 1)
  {
    hide DaysInMonth, DaysBeforeYear;
    MonthsAdjoin(d.year, 12);
    if d.month < 12 { LaterMonthsAreLater(d.year, d.month, 12); }
    hide Leap;
  }

  lemma NumbersDiffer(d: Date, e: Date)
    requires Valid(d) && Valid(e) && (d.year < e.year || (d.year == e.year && d.month < e.month))
    ensures DayNumber(d) < DayNumber(e)
  {
    hide DaysInMonth, DaysBeforeYear, DaysBeforeMonth, Leap;
    if d.year < e.year {
      InsideYear(d);
      InsideYear(e);
      YearsApart(d.year + 1, e.year);
    } else {
      LaterMonthsAreLater(d.year, d.month, e.month);
    }
  }

  /** Two dates with one number are one date. */
  lemma NumberIsDate(d: Date, e: Date)
    requires Valid(d) && Valid(e) && DayNumber(d) == DayNumber(e)
    ensures d == e
  {
    hide Valid, DaysBeforeYear, DaysBeforeMonth;
    if d.year < e.year || (d.year == e.year && d.month < e.month) { NumbersDiffer(d, e); }
    if e.year < d.year || (d.year == e.year && e.month < d.month) { NumbersDiffer(e, d); }
  }

  /** The rule that is accepted, in plain numbers. */
  lemma CheckRuleIff(f: Frequency, interval: int, count: int)
    ensures var step := if f == Weekly then 7 * interval else interval;
            && (CheckRule(f, interval, count).Ok? <==>
                  1 <= interval <= 12 && 2 <= count <= 366 && step * (count - 1) <= 366)
            && (CheckRule(f, interval, count).Ok? ==>
                  CheckRule(f, interval, count).value == Rule(f, interval, count, step))
            && (CheckRule(f, interval, count) == Err(Limit) <==>
                  1 <= interval <= 12 && 2 <= count <= 366 && step * (count - 1) > 366)
            && CheckRule(f, interval, count) != Err(Invalid)
  {
  }

  /** What `last` is for a series: the end date it names, or the day before the same day three months on, that
      day taken back to the end of its month where the month is shorter. */
  ghost predicate LastDay(r: Request, last: Date)
    requires Valid(r.start) && r.recurrence.Open?
  {
    Valid(last)
    && match r.recurrence.until
       case Some(until) => last == until
       case None =>
         var on := NextDay(last);
         on.year * 12 + on.month == r.start.year * 12 + r.start.month + 3
         && on.day == if r.start.day <= DaysInMonth(on.year, on.month) then r.start.day
                      else DaysInMonth(on.year, on.month)
  }

  lemma OnlyThreeMonthsOn(start: Date, on: Date)
    requires Valid(start) && Valid(on) && on.year * 12 + on.month == start.year * 12 + start.month + 3
    requires on.day == if start.day <= DaysInMonth(on.year, on.month) then start.day else DaysInMonth(on.year, on.month)
    ensures on == ThreeMonthsOn(start)
  {
    hide DaysInMonth;
  }

  lemma LastDayIsCutoff(r: Request, last: Date)
    requires r.recurrence.Open? && Valid(r.start) && r.start.year >= 100 && LastDay(r, last)
    ensures Valid(last) && DayNumber(last) == Cutoff(r.start, r.recurrence.until)
  {
    hide DayNumber, DefaultCutoff, DaysInMonth, NextDay, Valid, ThreeMonthsOn;
    if r.recurrence.until == None {
      OnlyThreeMonthsOn(r.start, NextDay(last));
      NextDayCounts(last);
      DefaultCutoffIsThreeMonths(r.start);
    }
  }

  lemma WalkReaches(start: Date, last: Date, between: nat, left: nat)
    requires Valid(start) && Valid(last) && DayNumber(last) == DayNumber(start) + between + left
    ensures last == Later(Later(start, between), left)
  {
    hide *;
    LaterCounts(start, between);
    LaterCounts(Later(start, between), left);
    NumberIsDate(last, Later(Later(start, between), left));
  }

  lemma BoundIsCounted(r: Request)
    requires r.recurrence.Open? && Bound(r).Ok?
    ensures Bound(r).value.recurrence.Counted? && 1 <= r.recurrence.interval <= 12
    ensures 2 <= Bound(r).value.recurrence.count
    ensures Bound(r).value == Request(Counted(r.recurrence.frequency, r.recurrence.interval,
                                              Bound(r).value.recurrence.count), r.start)
  {
    hide Cutoff, DayNumber, CountTo, Period;
  }

  lemma ValidMonth(d: Date)
    requires Valid(d)
    ensures 1 <= d.month <= 12
  {
  }

  lemma PeriodIsStep(f: Frequency, interval: int)
    requires 1 <= interval
    ensures 1 <= Period(f, interval) == if f == Weekly then 7 * interval else interval
  {
  }

  lemma Gap(first: int, last: int, step: nat, count: nat) returns (between: nat, left: nat)
    requires 1 <= step && 1 <= count && first + step * (count - 1) <= last < first + step * count
    ensures between == step * (count - 1) && last == first + between + left && left < step
  {
    between := step * (count - 1);
    assert step * count == between + step;
    left := last - first - between;
  }

  /** A bounded series on the calendar: walking from the start, a daily series every `interval` days and a weekly
      one every `interval` weeks on the weekday it started, the last occurrence comes no later than the last day
      and the next one would be after it. */
  lemma SeriesEndsOnTheCalendar(r: Request, last: Date) returns (step: nat, between: nat, left: nat)
    requires r.recurrence.Open? && Bound(r).Ok? && Valid(r.start) && r.start.year >= 100 && LastDay(r, last)
    ensures step == if r.recurrence.frequency == Weekly then 7 * r.recurrence.interval else r.recurrence.interval
    ensures Bound(r).value.recurrence.Counted? && between == step * (Bound(r).value.recurrence.count - 1)
    ensures last == Later(Later(r.start, between), left) && left < step
    ensures var count := Bound(r).value.recurrence.count;
            Bound(r).value == Request(Counted(r.recurrence.frequency, r.recurrence.interval, count), r.start)
  {
    hide *;
    BoundIsCounted(r);
    var f, i, count := r.recurrence.frequency, r.recurrence.interval, Bound(r).value.recurrence.count;
    BoundStopsAtCutoff(r);
    LastDayIsCutoff(r, last);
    ValidMonth(r.start);
    ValidMonth(last);
    PeriodIsStep(f, i);
    step := Period(f, i);
    between, left := Gap(DayNumber(r.start), Cutoff(r.start, r.recurrence.until), step, count);
    WalkReaches(r.start, last, between, left);
  }
}
