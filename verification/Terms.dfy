/** The grammar of the term a role is exported for: days, weeks, a date, or a Go duration. */
module Terms {
  import opened Records

  const NANOS_PER_DAY := 24 * 3600 * NANOS_PER_SECOND
  const NANOS_PER_WEEK := 7 * NANOS_PER_DAY
  const MAX_INT64 := 0x7fff_ffff_ffff_ffff
  const TWO_TO_64 := 0x1_0000_0000_0000_0000

  /** Two's complement wrap-around of int64. */
  function Wrap64(n: int): (r: int)
    ensures -MAX_INT64 - 1 <= r <= MAX_INT64
    ensures (n - r) % TWO_TO_64 == 0
    ensures -MAX_INT64 - 1 <= n <= MAX_INT64 ==> r == n
  {
    var m := n % TWO_TO_64;
    if m > MAX_INT64 then m - TWO_TO_64 else m
  }

  predicate IsDigit(c: char) {
    '0' <= c <= '9'
  }

  function Digit(c: char): nat
    requires IsDigit(c)
  {
    c as int - '0' as int
  }

  predicate AllDigits(s: string) {
    forall i :: 0 <= i < |s| ==> IsDigit(s[i])
  }

  function ValueOf(s: string): nat
    requires AllDigits(s)
  {
    if s == "" then 0 else 10 * ValueOf(s[..|s| - 1]) + Digit(s[|s| - 1])
  }

  function Decimal(n: nat): (s: string)
    ensures |s| > 0 && AllDigits(s) && ValueOf(s) == n
  {
    var last := [(n % 10 + '0' as int) as char];
    if n < 10 then
      assert last[..0] == "";
      last
    else
      var s := Decimal(n / 10) + last;
      assert s[..|s| - 1] == Decimal(n / 10);
      s
  }

  /** `strconv.Atoi` with its error dropped: a number that does not fit becomes the largest int64. */
  function Atoi(s: string): int
    requires AllDigits(s)
  {
    if ValueOf(s) > MAX_INT64 then MAX_INT64 else ValueOf(s)
  }

  /** The end of the digit run that covers position `i`. */
  function RunEnd(s: string, i: nat): (e: nat)
    requires i <= |s|
    ensures i <= e <= |s| && AllDigits(s[i..e])
    ensures e < |s| ==> !IsDigit(s[e])
    decreases |s| - i
  {
    if i < |s| && IsDigit(s[i]) then
      var e := RunEnd(s, i + 1);
      assert s[i..e] == [s[i]] + s[i + 1..e];
      e
    else i
  }

  /** The pattern `(\d+)u`: where its leftmost match starts, and what the group captures. */
  function FindCount(s: string, unit: char, i: nat): (r: Option<(nat, string)>)
    requires i <= |s|
    ensures r.Some? ==> |r.value.1| > 0 && AllDigits(r.value.1)
    decreases |s| - i
  {
    if i == |s| then None
    else if !IsDigit(s[i]) then FindCount(s, unit, i + 1)
    else
      var e := RunEnd(s, i + 1);
      if e < |s| && s[e] == unit then
        assert s[i..e] == [s[i]] + s[i + 1..e];
        Some((i, s[i..e]))
      else FindCount(s, unit, e)
  }

  /** One match of the pattern: at least one digit from `i` to `e`, and the unit at `e`. */
  ghost predicate IsMatch(s: string, unit: char, i: nat, e: nat) {
    i < e < |s| && AllDigits(s[i..e]) && s[e] == unit
  }

  lemma {:induction false} MatchIsWholeRun(s: string, unit: char, i: nat, e: nat)
    requires IsMatch(s, unit, i, e) && !IsDigit(unit)
    ensures RunEnd(s, i) == e
    decreases e - i
  {
    assert s[i..e][0] == s[i];
    if i + 1 < e {
      assert s[i + 1..e] == s[i..e][1..];
      MatchIsWholeRun(s, unit, i + 1, e);
    }
  }

  /** The search finds a match exactly when there is one, and then the leftmost, with the whole digit run. */
  lemma {:induction false} FindCountIsLeftmost(s: string, unit: char, i: nat)
    requires i <= |s| && !IsDigit(unit)
    ensures FindCount(s, unit, i) == None ==> forall j: nat, e: nat :: i <= j ==> !IsMatch(s, unit, j, e)
    ensures FindCount(s, unit, i).Some? ==>
              var (start, digits) := FindCount(s, unit, i).value;
              && i <= start && IsMatch(s, unit, start, start + |digits|) && digits == s[start..start + |digits|]
              && forall j: nat, e: nat :: i <= j < start ==> !IsMatch(s, unit, j, e)
    decreases |s| - i
  {
    if i == |s| {
    } else if !IsDigit(s[i]) {
      FindCountIsLeftmost(s, unit, i + 1);
      forall e: nat ensures !IsMatch(s, unit, i, e) {
        if i < e <= |s| { assert s[i..e][0] == s[i]; }
      }
    } else {
      var e := RunEnd(s, i + 1);
      assert RunEnd(s, i) == e;
      if e < |s| && s[e] == unit {
        assert s[i..e] == [s[i]] + s[i + 1..e];
      } else {
        FindCountIsLeftmost(s, unit, e);
        forall j: nat, e': nat | i <= j < e ensures !IsMatch(s, unit, j, e') {
          if IsMatch(s, unit, j, e') {
            MatchIsWholeRun(s, unit, j, e');
            RunEndInside(s, i, j);
          }
        }
      }
    }
  }

  lemma {:induction false} RunEndInside(s: string, i: nat, j: nat)
    requires i <= j <= |s| && j <= RunEnd(s, i)
    ensures RunEnd(s, j) == RunEnd(s, i)
    decreases j - i
  {
    if i < j { RunEndInside(s, i + 1, j); }
  }

  predicate DigitsAt(s: string, i: nat, n: nat) {
    i + n <= |s| && AllDigits(s[i..i + n])
  }

  /** The pattern `(\d{4})-(\d{1,2})-(\d{1,2})` at its leftmost match. */
  function FindDate(s: string, i: nat): (r: Option<(int, int, int)>)
    requires i <= |s|
    decreases |s| - i
  {
    if i == |s| then None
    else if DigitsAt(s, i, 4) && i + 4 < |s| && s[i + 4] == '-' then
      var m := if DigitsAt(s, i + 5, 2) then 2 else 1;
      if DigitsAt(s, i + 5, m) && i + 5 + m < |s| && s[i + 5 + m] == '-' && DigitsAt(s, i + 6 + m, 1) then
        var d := if DigitsAt(s, i + 6 + m, 2) then 2 else 1;
        Some((Atoi(s[i..i + 4]), Atoi(s[i + 5..i + 5 + m]), Atoi(s[i + 6 + m..i + 6 + m + d])))
      else FindDate(s, i + 1)
    else FindDate(s, i + 1)
  }

  /** The parts of the Go library the parser leans on: durations, and calendar dates as instants. */
  datatype Library = Library(duration: string -> Option<int>, date: (int, int, int) -> int)

  /** `Time.Sub` saturates at the ends of int64. */
  function Saturated(n: int): int {
    if n > MAX_INT64 then MAX_INT64 else if n < -MAX_INT64 - 1 then -MAX_INT64 - 1 else n
  }

  /** The parsed term in nanoseconds, or nothing for input that no format accepts. */
  function ParseUserInputDuration(s: string, now: int, lib: Library): Option<int> {
    match FindCount(s, 'd', 0)
    case Some((_, days)) => Some(Wrap64(NANOS_PER_DAY * Atoi(days)))
    case None =>
      match FindCount(s, 'w', 0)
      case Some((_, weeks)) => Some(Wrap64(NANOS_PER_WEEK * Atoi(weeks)))
      case None =>
        match FindDate(s, 0)
        case Some((year, month, day)) => Some(Saturated(lib.date(year, month, day) - now))
        case None => lib.duration(s)
  }

  lemma CountOfDecimal(n: nat, unit: char)
    requires !IsDigit(unit)
    ensures FindCount(Decimal(n) + [unit], unit, 0) == Some((0, Decimal(n)))
    ensures forall other :: other != unit && !IsDigit(other) ==> FindCount(Decimal(n) + [unit], other, 0) == None
  {
    var s := Decimal(n) + [unit];
    FindCountIsLeftmost(s, unit, 0);
    assert s[0..|s| - 1] == Decimal(n);
    assert IsMatch(s, unit, 0, |s| - 1);
    MatchIsWholeRun(s, unit, 0, |s| - 1);
    assert s[0] == Decimal(n)[0];
    forall other | other != unit && !IsDigit(other) ensures FindCount(s, other, 0) == None {
      FindCountIsLeftmost(s, other, 0);
      forall j: nat, e: nat ensures !IsMatch(s, other, j, e) {
        if e < |s| - 1 { assert s[e] == Decimal(n)[e]; }
      }
    }
  }

  lemma TermIsExact(unit: nat, largest: nat, n: nat)
    requires unit * largest <= MAX_INT64 < unit * (largest + 1)
    ensures Wrap64(unit * Atoi(Decimal(n))) == n * unit <==> n <= largest
  {
    if n <= largest {
      assert n * unit <= largest * unit by { MulMonotone(n, largest, unit); }
      assert n <= n * unit by { MulMonotone(1, unit, n); }
    } else {
      assert (largest + 1) * unit <= n * unit by { MulMonotone(largest + 1, n, unit); }
    }
  }

  lemma MulMonotone(a: int, b: int, c: nat)
    requires a <= b
    ensures a * c <= b * c
  {}

  /** What the parser makes of a bare count of days. */
  lemma DaysParsed(n: nat, now: int, lib: Library)
    ensures ParseUserInputDuration(Decimal(n) + "d", now, lib) == Some(Wrap64(NANOS_PER_DAY * Atoi(Decimal(n))))
  {
    CountOfDecimal(n, 'd');
    hide FindCount, FindDate, Wrap64, Atoi, Decimal, ValueOf;
  }

  /** `nd` means exactly n days if and only if n is at most 106751; beyond that the product leaves int64. */
  lemma DaysAreExact(n: nat, now: int, lib: Library)
    ensures ParseUserInputDuration(Decimal(n) + "d", now, lib) == Some(n * NANOS_PER_DAY) <==> n <= 106751
  {
    DaysParsed(n, now, lib);
    TermIsExact(NANOS_PER_DAY, 106751, n);
    hide ParseUserInputDuration, Wrap64, Atoi, Decimal, ValueOf;
  }

  /** What the parser makes of a bare count of weeks. */
  lemma WeeksParsed(n: nat, now: int, lib: Library)
    ensures ParseUserInputDuration(Decimal(n) + "w", now, lib) == Some(Wrap64(NANOS_PER_WEEK * Atoi(Decimal(n))))
  {
    CountOfDecimal(n, 'w');
    hide FindCount, FindDate, Wrap64, Atoi, Decimal, ValueOf;
  }

  /** `nw` means exactly n weeks if and only if n is at most 15250. */
  lemma WeeksAreExact(n: nat, now: int, lib: Library)
    ensures ParseUserInputDuration(Decimal(n) + "w", now, lib) == Some(n * NANOS_PER_WEEK) <==> n <= 15250
  {
    WeeksParsed(n, now, lib);
    TermIsExact(NANOS_PER_WEEK, 15250, n);
    hide ParseUserInputDuration, Wrap64, Atoi, Decimal, ValueOf;
  }

  lemma WrapsToMinusOne(unit: int)
    requires 0 < unit <= MAX_INT64 && unit % 2 == 0
    ensures Wrap64(unit * MAX_INT64) == -unit
  {
    assert unit * MAX_INT64 == (unit / 2 - 1) * TWO_TO_64 + (TWO_TO_64 - unit);
    assert (unit * MAX_INT64) % TWO_TO_64 == TWO_TO_64 - unit;
  }

  /** A count that does not even fit int64 is read as the largest that does, and its product wraps around: such a term is
      one unit in the past. */
  lemma HugeCountsAreOneInThePast(n: nat, now: int, lib: Library)
    requires n > MAX_INT64
    ensures ParseUserInputDuration(Decimal(n) + "d", now, lib) == Some(-86_400_000_000_000)
    ensures ParseUserInputDuration(Decimal(n) + "w", now, lib) == Some(-604_800_000_000_000)
  {
    hide *;
    UnitsInNanos();
    DaysParsed(n, now, lib);
    WeeksParsed(n, now, lib);
    HugeProduct(NANOS_PER_DAY, n);
    HugeProduct(NANOS_PER_WEEK, n);
  }

  lemma HugeProduct(unit: int, n: nat)
    requires 0 < unit <= MAX_INT64 && unit % 2 == 0 && n > MAX_INT64
    ensures Wrap64(unit * Atoi(Decimal(n))) == -unit
  {
    hide Wrap64, Decimal, Atoi, ValueOf;
    AtoiOfDecimal(n);
    WrapsToMinusOne(unit);
  }

  lemma UnitsInNanos()
    ensures NANOS_PER_DAY == 86_400_000_000_000 && NANOS_PER_WEEK == 604_800_000_000_000
    ensures 0 < NANOS_PER_DAY <= MAX_INT64 && NANOS_PER_DAY % 2 == 0
    ensures 0 < NANOS_PER_WEEK <= MAX_INT64 && NANOS_PER_WEEK % 2 == 0
  {}

  lemma Sevenfold(unit: int, n: int)
    ensures unit * (7 * n) == 7 * unit * n
  {}

  lemma AtoiOfDecimal(n: nat)
    ensures Atoi(Decimal(n)) == if n > MAX_INT64 then MAX_INT64 else n
  {}

  /** Weeks are seven days each even where both wrap around, as long as the day count itself fits. */
  lemma WeekIsSevenDays(n: nat, now: int, lib: Library)
    requires 7 * n <= MAX_INT64
    ensures ParseUserInputDuration(Decimal(n) + "w", now, lib) ==
            ParseUserInputDuration(Decimal(7 * n) + "d", now, lib)
  {
    WeeksParsed(n, now, lib);
    DaysParsed(7 * n, now, lib);
    AtoiOfDecimal(n);
    AtoiOfDecimal(7 * n);
    hide ParseUserInputDuration, Wrap64, Atoi, Decimal, ValueOf;
    Sevenfold(NANOS_PER_DAY, n);
  }

  /** Whatever else the input holds, a digit run followed by `d` decides, and the leftmost such run. */
  lemma DaysWin(s: string, now: int, lib: Library, i: nat, e: nat)
    requires IsMatch(s, 'd', i, e)
    requires forall j: nat, e': nat :: j < i ==> !IsMatch(s, 'd', j, e')
    ensures ParseUserInputDuration(s, now, lib) == Some(Wrap64(NANOS_PER_DAY * Atoi(s[i..e])))
  {
    FindCountIsLeftmost(s, 'd', 0);
    MatchIsWholeRun(s, 'd', i, e);
    var (start, digits) := FindCount(s, 'd', 0).value;
    MatchIsWholeRun(s, 'd', start, start + |digits|);
  }

  /** Without a digit run followed by `d` the leftmost one followed by `w` decides. */
  lemma WeeksWin(s: string, now: int, lib: Library, i: nat, e: nat)
    requires forall j: nat, e': nat :: !IsMatch(s, 'd', j, e')
    requires IsMatch(s, 'w', i, e) && forall j: nat, e': nat :: j < i ==> !IsMatch(s, 'w', j, e')
    ensures ParseUserInputDuration(s, now, lib) == Some(Wrap64(NANOS_PER_WEEK * Atoi(s[i..e])))
  {
    FindCountIsLeftmost(s, 'd', 0);
    FindCountIsLeftmost(s, 'w', 0);
    MatchIsWholeRun(s, 'w', i, e);
    var (start, digits) := FindCount(s, 'w', 0).value;
    MatchIsWholeRun(s, 'w', start, start + |digits|);
  }

  /** A date at `i`: four digits, then one or two and one or two, as many as there are, with dashes between. */
  ghost predicate IsDate(s: string, i: nat, year: string, month: string, day: string) {
    && |year| == 4 && 1 <= |month| <= 2 && 1 <= |day| <= 2 && i + 6 + |month| + |day| <= |s|
    && AllDigits(year) && AllDigits(month) && AllDigits(day)
    && s[i..i + 4] == year && s[i + 4] == '-'
    && s[i + 5..i + 5 + |month|] == month && s[i + 5 + |month|] == '-'
    && s[i + 6 + |month|..i + 6 + |month| + |day|] == day
    && (|day| == 1 && i + 7 + |month| < |s| ==> !IsDigit(s[i + 7 + |month|]))
  }

  lemma DateIsFound(s: string, i: nat, year: string, month: string, day: string)
    requires IsDate(s, i, year, month, day)
    ensures i < |s| && FindDate(s, i) == Some((Atoi(year), Atoi(month), Atoi(day)))
  {
    var j := i + 6 + |month|;
    assert s[i + 5..i + 7][1] == s[i + 6];
    if |day| == 2 { assert s[j] == s[j..j + 2][0] && AllDigits(s[j..j + 1]); }
    assert j + 2 <= |s| ==> s[j..j + 2][1] == s[j + 1];
  }

  lemma {:induction false} DateIsLeftmost(s: string, i: nat, year: string, month: string, day: string, k: nat)
    requires k <= i < |s| && IsDate(s, i, year, month, day)
    requires forall j: nat, y, m, d :: j < i ==> !IsDate(s, j, y, m, d)
    ensures FindDate(s, k) == FindDate(s, i)
    decreases i - k
  {
    hide IsDate, FindDate;
    if k < i {
      NoDateHere(s, k);
      DateIsLeftmost(s, i, year, month, day, k + 1);
    }
  }

  lemma NoDateHere(s: string, k: nat)
    requires k < |s| && forall y, m, d :: !IsDate(s, k, y, m, d)
    ensures FindDate(s, k) == FindDate(s, k + 1)
  {
    if DigitsAt(s, k, 4) && k + 4 < |s| && s[k + 4] == '-' {
      var m := if DigitsAt(s, k + 5, 2) then 2 else 1;
      var j := k + 6 + m;
      if DigitsAt(s, k + 5, m) && j - 1 < |s| && s[j - 1] == '-' && DigitsAt(s, j, 1) {
        var d := if DigitsAt(s, j, 2) then 2 else 1;
        assert s[j] == s[j..j + 1][0];
        assert IsDate(s, k, s[k..k + 4], s[k + 5..k + 5 + m], s[j..j + d]);
        assert false;
      }
    }
  }

  /** Without a count of days or weeks the leftmost date decides: the term is what lies between now and then, as far as a
      duration can hold it. */
  lemma DatesDecide(s: string, now: int, lib: Library, i: nat, year: string, month: string, day: string)
    requires forall j: nat, e: nat :: !IsMatch(s, 'd', j, e) && !IsMatch(s, 'w', j, e)
    requires IsDate(s, i, year, month, day) && forall j: nat, y, m, d :: j < i ==> !IsDate(s, j, y, m, d)
    ensures var ahead := lib.date(ValueOf(year), ValueOf(month), ValueOf(day)) - now;
            ParseUserInputDuration(s, now, lib) ==
            Some(if ahead > 9_223_372_036_854_775_807 then 9_223_372_036_854_775_807
                 else if ahead < -9_223_372_036_854_775_808 then -9_223_372_036_854_775_808
                 else ahead)
  {
    hide *;
    DateIsFound(s, i, year, month, day);
    DateIsLeftmost(s, i, year, month, day, 0);
    DateHasDigits(s, i, year, month, day);
    ShortNumber(year);
    ShortNumber(month);
    ShortNumber(day);
    NoCounts(s);
    ParsedDate(s, ValueOf(year), ValueOf(month), ValueOf(day), now, lib);
  }

  lemma NoCounts(s: string)
    requires forall j: nat, e: nat :: !IsMatch(s, 'd', j, e) && !IsMatch(s, 'w', j, e)
    ensures FindCount(s, 'd', 0) == None && FindCount(s, 'w', 0) == None
  {
    hide IsMatch, FindCount;
    NotADigit();
    FindCountIsLeftmost(s, 'd', 0);
    FindCountIsLeftmost(s, 'w', 0);
  }

  lemma NotADigit()
    ensures !IsDigit('d') && !IsDigit('w')
  {}

  lemma ParsedDate(s: string, year: int, month: int, day: int, now: int, lib: Library)
    requires FindCount(s, 'd', 0) == None && FindCount(s, 'w', 0) == None && FindDate(s, 0) == Some((year, month, day))
    ensures var ahead := lib.date(year, month, day) - now;
            ParseUserInputDuration(s, now, lib) ==
            Some(if ahead > 9_223_372_036_854_775_807 then 9_223_372_036_854_775_807
                 else if ahead < -9_223_372_036_854_775_808 then -9_223_372_036_854_775_808
                 else ahead)
  {
    hide FindCount, FindDate;
  }

  lemma DateHasDigits(s: string, i: nat, year: string, month: string, day: string)
    requires IsDate(s, i, year, month, day)
    ensures AllDigits(year) && AllDigits(month) && AllDigits(day) && |year| == 4 && |month| <= 2 && |day| <= 2
  {}

  /** A bare date, `YYYY-MM-DD`: the year, the month and the day in this order, less now, cut off at the ends of int64. */
  lemma DatesAreExact(year: string, month: string, day: string, now: int, lib: Library)
    requires AllDigits(year) && AllDigits(month) && AllDigits(day)
    requires |year| == 4 && 1 <= |month| <= 2 && 1 <= |day| <= 2
    ensures var ahead := lib.date(ValueOf(year), ValueOf(month), ValueOf(day)) - now;
            ParseUserInputDuration(year + "-" + month + "-" + day, now, lib) ==
            Some(if ahead > 9_223_372_036_854_775_807 then 9_223_372_036_854_775_807
                 else if ahead < -9_223_372_036_854_775_808 then -9_223_372_036_854_775_808
                 else ahead)
  {
    hide *;
    BareDate(year, month, day);
    DatesDecide(year + "-" + month + "-" + day, now, lib, 0, year, month, day);
  }

  lemma BareDate(year: string, month: string, day: string)
    requires AllDigits(year) && AllDigits(month) && AllDigits(day)
    requires |year| == 4 && 1 <= |month| <= 2 && 1 <= |day| <= 2
    ensures var s := year + "-" + month + "-" + day;
            && IsDate(s, 0, year, month, day)
            && forall j: nat, e: nat :: !IsMatch(s, 'd', j, e) && !IsMatch(s, 'w', j, e)
  {
    var s := year + "-" + month + "-" + day;
    assert forall k :: 0 <= k < |s| ==> IsDigit(s[k]) || s[k] == '-';
  }

  lemma ShortNumber(s: string)
    requires AllDigits(s) && |s| <= 4
    ensures Atoi(s) == ValueOf(s)
  {
    ValueIsBounded(s);
    if |s| <= 3 { assert Power10(3) == 1000; }
    PowerGrows(|s|, 4);
    assert Power10(4) == 10000;
  }

  function Power10(n: nat): nat {
    if n == 0 then 1 else 10 * Power10(n - 1)
  }

  lemma {:induction false} PowerGrows(n: nat, m: nat)
    requires n <= m
    ensures Power10(n) <= Power10(m)
    decreases m - n
  {
    if n < m { PowerGrows(n + 1, m); }
  }

  lemma {:induction false} ValueIsBounded(s: string)
    requires AllDigits(s)
    ensures ValueOf(s) < Power10(|s|)
    decreases |s|
  {
    if s != "" { ValueIsBounded(s[..|s| - 1]); }
  }

  /** Anything else is left to the library's own grammar of durations. */
  lemma OthersAreDurations(s: string, now: int, lib: Library)
    requires forall j: nat, e: nat :: !IsMatch(s, 'd', j, e) && !IsMatch(s, 'w', j, e)
    requires forall j: nat, y, m, d :: !IsDate(s, j, y, m, d)
    ensures ParseUserInputDuration(s, now, lib) == lib.duration(s)
  {
    FindCountIsLeftmost(s, 'd', 0);
    FindCountIsLeftmost(s, 'w', 0);
    NoDateAnywhere(s, 0);
  }

  lemma {:induction false} NoDateAnywhere(s: string, k: nat)
    requires k <= |s| && forall j: nat, y, m, d :: !IsDate(s, j, y, m, d)
    ensures FindDate(s, k) == None
    decreases |s| - k
  {
    if k < |s| {
      NoDateHere(s, k);
      NoDateAnywhere(s, k + 1);
    }
  }
}
