/**
 * The two aggregate reports of the ledger: select trips (by exact date or by
 * year and month), then fold fuel, toll and freight from 0 and derive profit.
 */
module Reports {
  import opened Wrappers
  import opened Trips

  /** The three amounts a report sums. */
  datatype Amount = Fuel | Toll | Freight

  function AmountOf(t: Trip, a: Amount): int {
    match a
    case Fuel => t.fuel
    case Toll => t.toll
    case Freight => t.freight
  }

  /** `reduce((acc, v) => acc + v.<amount>, 0)`: a left fold starting from 0. */
  function Total(ts: seq<Trip>, a: Amount): int {
    if ts == [] then 0 else Total(ts[..|ts| - 1], a) + AmountOf(ts[|ts| - 1], a)
  }

  /** `filter(keep)`: the trips satisfying `keep`, in their original order. */
  function Select(ts: seq<Trip>, keep: Trip -> bool): (r: seq<Trip>)
    ensures |r| <= |ts|
    ensures forall t :: t in r <==> t in ts && keep(t)
    ensures forall t :: multiset(r)[t] == if keep(t) then multiset(ts)[t] else 0
  {
    if ts == [] then []
    else
      var head := if keep(ts[0]) then [ts[0]] else [];
      var rest := Select(ts[1..], keep);
      assert ts == [ts[0]] + ts[1..];
      assert multiset(ts) == multiset{ts[0]} + multiset(ts[1..]);
      assert multiset(head + rest) == multiset(head) + multiset(rest);
      head + rest
  }

  /** The errors a report request can produce. */
  datatype Error = MissingDate | MissingMonthOrYear

  /** Totals of a selection of trips. */
  datatype Totals = Totals(count: nat, fuel: int, toll: int, freight: int, profit: int)

  /** A report, echoing the query it answers. */
  datatype Report =
    | Daily(date: string, totals: Totals)
    | Monthly(month: int, year: int, totals: Totals)

  /** Trip count, the three totals, and profit = freight - (fuel + toll). */
  function Summarize(ts: seq<Trip>): (r: Totals)
    ensures r.count == |ts|
    ensures r.fuel == Total(ts, Fuel) && r.toll == Total(ts, Toll) && r.freight == Total(ts, Freight)
    ensures r.profit == r.freight - (r.fuel + r.toll)
  {
    var fuel := Total(ts, Fuel);
    var toll := Total(ts, Toll);
    var freight := Total(ts, Freight);
    Totals(|ts|, fuel, toll, freight, freight - (fuel + toll))
  }

  // ---- dates ----

  predicate IsDigit(c: char) {
    '0' <= c <= '9'
  }

  predicate AllDigits(s: string) {
    forall i :: 0 <= i < |s| ==> IsDigit(s[i])
  }

  /** The decimal value of a string of digits, most significant first. */
  function DigitsValue(s: string): (n: nat)
    requires AllDigits(s)
  {
    if s == [] then 0 else 10 * DigitsValue(s[..|s| - 1]) + (s[|s| - 1] as int - '0' as int)
  }

  /** Year and 1-based month of a `YYYY-MM-DD` date; `None` for anything unparseable. */
  function ParseYearMonth(s: string): (r: Option<(int, int)>)
    ensures r.Some? ==> 0 <= r.value.0 <= 9999 && 1 <= r.value.1 <= 12
    ensures r.Some? ==> |s| == 10 && s[4] == '-' && s[7] == '-'
    ensures r.Some? ==> AllDigits(s[..4]) && AllDigits(s[5..7]) && AllDigits(s[8..])
  {
    if |s| == 10 && s[4] == '-' && s[7] == '-'
       && AllDigits(s[..4]) && AllDigits(s[5..7]) && AllDigits(s[8..])
    then
      var y, m, d := DigitsValue(s[..4]), DigitsValue(s[5..7]), DigitsValue(s[8..]);
      DigitsBound(s[..4]);
      if 1 <= m <= 12 && 1 <= d <= 31 then Some((y, m)) else None
    else None
  }

  function Pow10(w: nat): (p: nat)
    ensures p >= 1
  {
    if w == 0 then 1 else 10 * Pow10(w - 1)
  }

  lemma {:induction false} DigitsBound(s: string)
    requires AllDigits(s)
    ensures DigitsValue(s) < Pow10(|s|)
  {
    if s != [] {
      assert AllDigits(s[..|s| - 1]);
      DigitsBound(s[..|s| - 1]);
    }
  }

  /** `n` written with exactly `w` digits, zero-padded on the left. */
  function Pad(n: nat, w: nat): (s: string)
    ensures |s| == w && AllDigits(s)
  {
    if w == 0 then [] else Pad(n / 10, w - 1) + [('0' as int + n % 10) as char]
  }

  /** The `YYYY-MM-DD` text of a calendar date. */
  function FormatDate(y: nat, m: nat, d: nat): (s: string)
    ensures |s| == 10
  {
    Pad(y, 4) + "-" + Pad(m, 2) + "-" + Pad(d, 2)
  }

  lemma {:induction false} PadValue(n: nat, w: nat)
    requires n < Pow10(w)
    ensures DigitsValue(Pad(n, w)) == n
  {
    if w > 0 {
      var s := Pad(n, w);
      assert s[..|s| - 1] == Pad(n / 10, w - 1);
      PadValue(n / 10, w - 1);
    }
  }

  /** Parsing a formatted date gives back its year and month. */
  lemma ParseFormatRoundTrip(y: nat, m: nat, d: nat)
    requires y <= 9999 && 1 <= m <= 12 && 1 <= d <= 31
    ensures ParseYearMonth(FormatDate(y, m, d)) == Some((y, m))
  {
    var s := FormatDate(y, m, d);
    assert s[..4] == Pad(y, 4);
    assert s[5..7] == Pad(m, 2);
    assert s[8..] == Pad(d, 2);
    PadValue(y, 4);
    PadValue(m, 2);
    PadValue(d, 2);
  }

  /** A string of digits is the zero-padded text of its own value. */
  lemma {:induction false} PadDigits(s: string)
    requires AllDigits(s)
    ensures Pad(DigitsValue(s), |s|) == s
  {
    if s != [] {
      var p := s[..|s| - 1];
      assert AllDigits(p);
      PadDigits(p);
      var v := DigitsValue(s);
      assert v / 10 == DigitsValue(p) && v % 10 == s[|s| - 1] as int - '0' as int;
      assert s == p + [s[|s| - 1]];
    }
  }

  /** Every date text that parses is the `YYYY-MM-DD` text of that year, that
      month and some day 1..31: nothing else is ever counted in a month. */
  lemma ParseFormatInverse(s: string, y: int, m: int)
    requires ParseYearMonth(s) == Some((y, m))
    ensures exists d: nat :: 1 <= d <= 31 && s == FormatDate(y, m, d)
  {
    var d := DigitsValue(s[8..]);
    PadDigits(s[..4]);
    PadDigits(s[5..7]);
    PadDigits(s[8..]);
    assert s == s[..4] + "-" + s[5..7] + "-" + s[8..];
    assert s == FormatDate(y, m, d);
  }

  // ---- selections ----

  /** `viagens.filter(v => v.data === data)` */
  function OnDate(ts: seq<Trip>, date: string): (r: seq<Trip>)
    ensures forall t :: t in r <==> t in ts && t.date == date
    ensures forall t :: multiset(r)[t] == if t.date == date then multiset(ts)[t] else 0
  {
    Select(ts, (t: Trip) => t.date == date)
  }

  /** Trips whose date parses to the given year and 1-based month. */
  function InMonth(ts: seq<Trip>, month: int, year: int): (r: seq<Trip>)
    ensures forall t :: t in r <==> t in ts && ParseYearMonth(t.date) == Some((year, month))
    ensures forall t :: multiset(r)[t] == if ParseYearMonth(t.date) == Some((year, month)) then multiset(ts)[t] else 0
  {
    Select(ts, (t: Trip) => ParseYearMonth(t.date) == Some((year, month)))
  }

  // ---- the two reports ----

  /** `GET /relatorio/dia?data=...`: an error when the date is absent or empty. */
  function DailyReport(ts: seq<Trip>, date: Option<string>): (r: Result<Report, Error>)
    ensures r.Failure? <==> !TextGiven(date)
    ensures r.Failure? ==> r.error == MissingDate
    ensures r.Success? ==> r.value.Daily? && r.value.date == date.value
    ensures r.Success? ==> r.value.totals.count == |OnDate(ts, date.value)|
    ensures r.Success? ==> r.value.totals.fuel == Total(OnDate(ts, date.value), Fuel)
    ensures r.Success? ==> r.value.totals.toll == Total(OnDate(ts, date.value), Toll)
    ensures r.Success? ==> r.value.totals.freight == Total(OnDate(ts, date.value), Freight)
    ensures r.Success? ==> r.value.totals.profit == r.value.totals.freight - (r.value.totals.fuel + r.value.totals.toll)
  {
    if !TextGiven(date) then Failure(MissingDate)
    else Success(Daily(date.value, Summarize(OnDate(ts, date.value))))
  }

  /** `GET /relatorio/mes?mes=...&ano=...`: an error when either parameter is absent. */
  function MonthlyReport(ts: seq<Trip>, month: Option<int>, year: Option<int>): (r: Result<Report, Error>)
    ensures r.Failure? <==> month.None? || year.None?
    ensures r.Failure? ==> r.error == MissingMonthOrYear
    ensures r.Success? ==> r.value.Monthly? && r.value.month == month.value && r.value.year == year.value
    ensures r.Success? ==> r.value.totals.count == |InMonth(ts, month.value, year.value)|
    ensures r.Success? ==> r.value.totals.fuel == Total(InMonth(ts, month.value, year.value), Fuel)
    ensures r.Success? ==> r.value.totals.toll == Total(InMonth(ts, month.value, year.value), Toll)
    ensures r.Success? ==> r.value.totals.freight == Total(InMonth(ts, month.value, year.value), Freight)
    ensures r.Success? ==> r.value.totals.profit == r.value.totals.freight - (r.value.totals.fuel + r.value.totals.toll)
  {
    if month.None? || year.None? then Failure(MissingMonthOrYear)
    else Success(Monthly(month.value, year.value, Summarize(InMonth(ts, month.value, year.value))))
  }
}

/** Properties of the report fold and of the selections. */
module ReportLaws {
  import opened Wrappers
  import opened Trips
  import opened Reports

  /** Folding a concatenation is the sum of folding each part. */
  lemma {:induction false} TotalAppend(a: seq<Trip>, b: seq<Trip>, k: Amount)
    ensures Total(a + b, k) == Total(a, k) + Total(b, k)
  {
    if b == [] {
      assert a + b == a;
    } else {
      var b' := b[..|b| - 1];
      assert (a + b)[..|a + b| - 1] == a + b';
      TotalAppend(a, b', k);
    }
  }

  /** The total of a single trip is its amount. */
  lemma TotalSingleton(x: Trip, k: Amount)
    ensures Total([x], k) == AmountOf(x, k)
  {
    assert [x][..0] == [];
  }

  /** Totals do not depend on the order of the trips. */
  lemma {:induction false} TotalPermutation(a: seq<Trip>, b: seq<Trip>, k: Amount)
    requires multiset(a) == multiset(b)
    ensures Total(a, k) == Total(b, k)
  {
    if a == [] {
      assert |b| == |multiset(b)| == 0;
    } else {
      var x := a[0];
      assert x in multiset(b);
      var i :| 0 <= i < |b| && b[i] == x;
      var rest := b[..i] + b[i + 1..];
      assert b == b[..i] + [x] + b[i + 1..];
      assert a == [x] + a[1..];
      assert multiset(b) == multiset(b[..i]) + multiset([x]) + multiset(b[i + 1..]);
      assert multiset(a) == multiset([x]) + multiset(a[1..]);
      assert multiset(rest) == multiset(b[..i]) + multiset(b[i + 1..]);
      assert multiset(a[1..]) == multiset(a) - multiset{x};
      assert multiset(rest) == multiset(b) - multiset{x};
      TotalPermutation(a[1..], rest, k);
      TotalAppend([x], a[1..], k);
      TotalAppend(b[..i] + [x], b[i + 1..], k);
      TotalAppend(b[..i], [x], k);
      TotalAppend(b[..i], b[i + 1..], k);
      TotalSingleton(x, k);
    }
  }

  /** A report over no trips is all zero. */
  lemma SummarizeEmpty()
    ensures Summarize([]) == Totals(0, 0, 0, 0, 0)
  {
  }

  /** Reports are additive: the report of two concatenated selections is the
      componentwise sum of their reports. */
  lemma SummarizeAppend(a: seq<Trip>, b: seq<Trip>)
    ensures Summarize(a + b).count == Summarize(a).count + Summarize(b).count
    ensures Summarize(a + b).fuel == Summarize(a).fuel + Summarize(b).fuel
    ensures Summarize(a + b).toll == Summarize(a).toll + Summarize(b).toll
    ensures Summarize(a + b).freight == Summarize(a).freight + Summarize(b).freight
    ensures Summarize(a + b).profit == Summarize(a).profit + Summarize(b).profit
  {
    TotalAppend(a, b, Fuel);
    TotalAppend(a, b, Toll);
    TotalAppend(a, b, Freight);
  }

  /** Reports are order independent. */
  lemma SummarizePermutation(a: seq<Trip>, b: seq<Trip>)
    requires multiset(a) == multiset(b)
    ensures Summarize(a) == Summarize(b)
  {
    assert |a| == |multiset(a)| == |multiset(b)| == |b|;
    TotalPermutation(a, b, Fuel);
    TotalPermutation(a, b, Toll);
    TotalPermutation(a, b, Freight);
  }

  /** Selection keeps insertion order: selecting from a concatenation
      concatenates the selections. */
  lemma {:induction false} SelectAppend(a: seq<Trip>, b: seq<Trip>, keep: Trip -> bool)
    ensures Select(a + b, keep) == Select(a, keep) + Select(b, keep)
  {
    if a == [] {
      assert a + b == b;
    } else {
      assert (a + b)[1..] == a[1..] + b;
      SelectAppend(a[1..], b, keep);
    }
  }

  /** A selection and its complement split every total of the whole sequence. */
  lemma {:induction false} SelectSplitsTotal(ts: seq<Trip>, keep: Trip -> bool, k: Amount)
    ensures Total(ts, k) == Total(Select(ts, keep), k) + Total(Select(ts, (t: Trip) => !keep(t)), k)
  {
    if ts != [] {
      var x, rest := ts[0], ts[1..];
      assert ts == [x] + rest;
      SelectSplitsTotal(rest, keep, k);
      var drop := (t: Trip) => !keep(t);
      var inKeep := if keep(x) then [x] else [];
      var inDrop := if drop(x) then [x] else [];
      TotalAppend(inKeep, Select(rest, keep), k);
      TotalAppend(inDrop, Select(rest, drop), k);
      TotalAppend([x], rest, k);
      TotalSingleton(x, k);
    }
  }

  /** Every trip of a daily report falls in the monthly report of that day's month. */
  lemma DayWithinMonth(ts: seq<Trip>, date: string, year: int, month: int)
    requires ParseYearMonth(date) == Some((year, month))
    ensures forall t :: t in OnDate(ts, date) ==> t in InMonth(ts, month, year)
  {
  }

  /** Worked example: two trips on 2024-03-01 give totals 150/30/450 and profit 270. */
  lemma DailyScenario(a: Trip, b: Trip)
    requires a.date == "2024-03-01" && a.fuel == 100 && a.toll == 20 && a.freight == 300
    requires b.date == "2024-03-01" && b.fuel == 50 && b.toll == 10 && b.freight == 150
    ensures DailyReport([a, b], Some("2024-03-01")) == Success(Daily("2024-03-01", Totals(2, 150, 30, 450, 270)))
  {
    assert [a, b][1..] == [b] && [b][1..] == [];
    assert OnDate([a, b], "2024-03-01") == [a, b];
    assert [a, b][..1] == [a];
    assert [a][..0] == [];
    assert Total([a], Fuel) == 100 && Total([a], Toll) == 20 && Total([a], Freight) == 300;
    assert Total([a, b], Fuel) == 150;
    assert Total([a, b], Toll) == 30;
    assert Total([a, b], Freight) == 450;
  }

  /** Parsing a well-formed literal date, digit by digit. */
  lemma ParseLiteral(s: string, y: int, m: int)
    requires |s| == 10 && s[4] == '-' && s[7] == '-'
    requires AllDigits(s[..4]) && AllDigits(s[5..7]) && AllDigits(s[8..])
    requires y == 1000 * (s[0] as int - '0' as int) + 100 * (s[1] as int - '0' as int)
                + 10 * (s[2] as int - '0' as int) + (s[3] as int - '0' as int)
    requires m == 10 * (s[5] as int - '0' as int) + (s[6] as int - '0' as int) && 1 <= m <= 12
    requires 1 <= 10 * (s[8] as int - '0' as int) + (s[9] as int - '0' as int) <= 31
    ensures ParseYearMonth(s) == Some((y, m))
  {
    var ys, ms, ds := s[..4], s[5..7], s[8..];
    assert ys[..3] == s[..3] && s[..3][..2] == s[..2] && s[..2][..1] == s[..1] && s[..1][..0] == [];
    assert DigitsValue(s[..1]) == s[0] as int - '0' as int;
    assert DigitsValue(s[..2]) == 10 * DigitsValue(s[..1]) + (s[1] as int - '0' as int);
    assert DigitsValue(s[..3]) == 10 * DigitsValue(s[..2]) + (s[2] as int - '0' as int);
    assert DigitsValue(ys) == y;
    assert ms[..1] == [s[5]] && [s[5]][..0] == [];
    assert DigitsValue(ms) == m;
    assert ds[..1] == [s[8]] && [s[8]][..0] == [];
    assert DigitsValue(ds) == 10 * (s[8] as int - '0' as int) + (s[9] as int - '0' as int);
  }

  /** Of a trip dated 2024-03-15 and one dated 2024-04-01, only the first is in March 2024. */
  lemma MarchSelection(a: Trip, b: Trip)
    requires a.date == "2024-03-15" && b.date == "2024-04-01"
    ensures InMonth([a, b], 3, 2024) == [a]
  {
    ParseLiteral("2024-03-15", 2024, 3);
    ParseLiteral("2024-04-01", 2024, 4);
    assert [a, b][1..] == [b] && [b][1..] == [];
    var keep := (t: Trip) => ParseYearMonth(t.date) == Some((2024, 3));
    assert keep(a) && !keep(b);
    assert Select([b], keep) == [];
    assert Select([a, b], keep) == [a];
  }

  /** Worked example: the report for month 3 of 2024 over those two trips
      carries only the March trip's amounts. */
  lemma MonthlyScenario(a: Trip, b: Trip)
    requires a.date == "2024-03-15" && b.date == "2024-04-01"
    ensures MonthlyReport([a, b], Some(3), Some(2024))
            == Success(Monthly(3, 2024, Totals(1, a.fuel, a.toll, a.freight, a.freight - (a.fuel + a.toll))))
  {
    MarchSelection(a, b);
    TotalSingleton(a, Fuel);
    TotalSingleton(a, Toll);
    TotalSingleton(a, Freight);
  }
}
