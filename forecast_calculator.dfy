/** app/models/forecast_calculator.rb: daily averages of the 3-hourly forecast
    samples. Samples are grouped by the `YYYY-MM-DD` of their `dt_txt` in order of
    first appearance (the code never sorts), dates before tomorrow are dropped, each
    remaining day's Kelvin temperatures are averaged and converted to Celsius rounded
    to two decimals, and the first five days are kept. */
module ForecastCalculator {
  import opened Optional
  import opened Text
  import opened RubyJson
  import opened Dates
  import opened Records

  /** The keys of a list of key/value pairs, in order. */
  function KeysOf<T>(xs: seq<(string, T)>): (ks: seq<string>)
    ensures |ks| == |xs|
    ensures forall i :: 0 <= i < |xs| ==> ks[i] == xs[i].0
  {
    if xs == [] then [] else KeysOf(xs[..|xs| - 1]) + [xs[|xs| - 1].0]
  }

  /** The position of the first occurrence of `k`. */
  function FirstIndex(ks: seq<string>, k: string): (i: nat)
    requires k in ks
    ensures i < |ks| && ks[i] == k
    ensures forall j :: 0 <= j < i ==> ks[j] != k
  {
    if ks[0] == k then 0 else 1 + FirstIndex(ks[1..], k)
  }

  /** The keys without repetition, each where it first occurs. */
  function Distinct(ks: seq<string>): (d: seq<string>)
    ensures forall k :: k in d <==> k in ks
    ensures forall i, j :: 0 <= i < j < |d| ==> d[i] != d[j]
  {
    if ks == [] then []
    else
      var p := Distinct(ks[..|ks| - 1]);
      var k := ks[|ks| - 1];
      assert ks == ks[..|ks| - 1] + [k];
      if k in p then p else p + [k]
  }

  /** `Distinct` lists the keys in the order of their first occurrence. */
  lemma {:induction false} DistinctFirstOccurrence(ks: seq<string>)
    ensures forall i, j :: 0 <= i < j < |Distinct(ks)| ==>
      FirstIndex(ks, Distinct(ks)[i]) < FirstIndex(ks, Distinct(ks)[j])
  {
    if ks != [] {
      var p := ks[..|ks| - 1];
      var k := ks[|ks| - 1];
      assert ks == p + [k];
      DistinctFirstOccurrence(p);
      forall x | x in p
        ensures FirstIndex(ks, x) == FirstIndex(p, x)
      {
        var a := FirstIndex(ks, x);
        var b := FirstIndex(p, x);
        assert ks[b] == x;
        assert a <= b;
        assert p[a] == x;
      }
      if k !in p {
        assert forall j :: 0 <= j < |p| ==> ks[j] != k;
        assert FirstIndex(ks, k) == |p|;
      }
    }
  }

  /** The values paired with key `k`, in order (one group of `group_by`). */
  function Select<T>(xs: seq<(string, T)>, k: string): (s: seq<T>)
    ensures |s| <= |xs|
    ensures |s| > 0 <==> k in KeysOf(xs)
  {
    if xs == [] then []
    else
      var p := xs[..|xs| - 1];
      assert KeysOf(xs) == KeysOf(p) + [xs[|xs| - 1].0];
      Select(p, k) + (if xs[|xs| - 1].0 == k then [xs[|xs| - 1].1] else [])
  }

  function FindGroup<T>(g: seq<(string, seq<T>)>, k: string): (r: Option<nat>)
    ensures r.Some? ==> r.value < |g| && g[r.value].0 == k
    ensures r.None? ==> forall i :: 0 <= i < |g| ==> g[i].0 != k
  {
    if g == [] then None
    else if g[0].0 == k then Some(0)
    else
      match FindGroup(g[1..], k)
      case None => None
      case Some(i) => Some(i + 1)
  }

  /** `Enumerable#group_by` with the key already computed: one pass that appends each
      value to its key's group, opening a new group at the end for a new key.
      The groups are the distinct keys in first-occurrence order, each holding
      exactly the values with that key. */
  function GroupBy<T>(xs: seq<(string, T)>): (g: seq<(string, seq<T>)>)
    ensures |g| == |Distinct(KeysOf(xs))|
    ensures forall i :: 0 <= i < |g| ==> g[i].0 == Distinct(KeysOf(xs))[i]
    ensures forall i :: 0 <= i < |g| ==> g[i].1 == Select(xs, g[i].0)
  {
    if xs == [] then []
    else
      var p := xs[..|xs| - 1];
      var k := xs[|xs| - 1].0;
      var v := xs[|xs| - 1].1;
      var g := GroupBy(p);
      assert KeysOf(xs)[..|xs| - 1] == KeysOf(p);
      match FindGroup(g, k)
      case Some(j) => g[j := (k, g[j].1 + [v])]
      case None => g + [(k, [v])]
  }

  /** Every group is non-empty, so no average divides by zero, and the group keys
      are exactly the distinct keys. */
  lemma GroupsNonEmpty<T>(xs: seq<(string, T)>)
    ensures forall i :: 0 <= i < |GroupBy(xs)| ==> |GroupBy(xs)[i].1| > 0
    ensures KeysOf(GroupBy(xs)) == Distinct(KeysOf(xs))
  {
    var g := GroupBy(xs);
    forall i | 0 <= i < |g|
      ensures |g[i].1| > 0
    {
      assert g[i].0 in Distinct(KeysOf(xs));
    }
  }

  function TotalSize<T>(g: seq<(string, seq<T>)>): nat {
    if g == [] then 0 else |g[0].1| + TotalSize(g[1..])
  }

  lemma {:induction false} TotalSizeAppend<T>(g: seq<(string, seq<T>)>, e: (string, seq<T>))
    ensures TotalSize(g + [e]) == TotalSize(g) + |e.1|
  {
    if g != [] {
      assert (g + [e])[1..] == g[1..] + [e];
      TotalSizeAppend(g[1..], e);
    }
  }

  lemma {:induction false} TotalSizeGrow<T>(g: seq<(string, seq<T>)>, j: nat, k: string, v: T)
    requires j < |g|
    ensures TotalSize(g[j := (k, g[j].1 + [v])]) == TotalSize(g) + 1
  {
    if j > 0 {
      assert g[j := (k, g[j].1 + [v])][1..] == g[1..][j - 1 := (k, g[j].1 + [v])];
      TotalSizeGrow(g[1..], j - 1, k, v);
    }
  }

  /** Each sample lands in exactly one group: the group sizes add up to the input
      length. */
  lemma {:induction false} GroupSizesSum<T>(xs: seq<(string, T)>)
    ensures TotalSize(GroupBy(xs)) == |xs|
  {
    if xs != [] {
      var p := xs[..|xs| - 1];
      var k := xs[|xs| - 1].0;
      var v := xs[|xs| - 1].1;
      GroupSizesSum(p);
      var g := GroupBy(p);
      match FindGroup(g, k)
      case Some(j) => TotalSizeGrow(g, j, k, v);
      case None => TotalSizeAppend(g, (k, [v]));
    }
  }

  /** `Date.parse(forecast['dt_txt']).strftime('%Y-%m-%d')`: the date key of one
      sample. A text that is not a date raises `Date::Error`; a value that is not a
      string raises a TypeError. */
  function DateKey(forecast: Json): (r: Eval<string>)
    ensures r.Value? ==> ParseYmd(r.value).Some? && |r.value| == 10
    ensures forecast.JObj? && Lookup(forecast.members, "dt_txt").JStr?
            && ParseYmd(Lookup(forecast.members, "dt_txt").s).Some? ==>
      r == Value(Lookup(forecast.members, "dt_txt").s[..10])
  {
    match Index(forecast, "dt_txt")
    case Raise(m) => Raise(m)
    case Value(t) =>
      match t
      case JStr(s) =>
        (match ParseYmd(s)
         case None => Raise("invalid date")
         case Some(d) =>
           FormatParse(s);
           ParseFormat(d, []);
           assert FormatYmd(d) + [] == FormatYmd(d);
           Value(FormatYmd(d)))
      case _ => Raise(NoConversion(CoerceName(t), "String"))
  }

  /** The date keys of all samples, in order; the first sample that raises stops
      the grouping. */
  function DateKeys(items: seq<Json>): (r: Eval<seq<string>>)
    ensures r.Value? <==> forall i :: 0 <= i < |items| ==> DateKey(items[i]).Value?
    ensures r.Value? ==> |r.value| == |items| && forall i :: 0 <= i < |items| ==> DateKey(items[i]) == Value(r.value[i])
  {
    if items == [] then Value([])
    else
      match DateKey(items[0])
      case Raise(m) => Raise(m)
      case Value(k) =>
        assert forall i :: 1 <= i < |items| ==> items[i] == items[1..][i - 1];
        match DateKeys(items[1..])
        case Raise(m) => Raise(m)
        case Value(ks) => Value([k] + ks)
  }

  function Zip(keys: seq<string>, items: seq<Json>): (xs: seq<(string, Json)>)
    requires |keys| == |items|
    ensures |xs| == |items| && forall i :: 0 <= i < |xs| ==> xs[i] == (keys[i], items[i])
  {
    seq(|keys|, i requires 0 <= i < |keys| => (keys[i], items[i]))
  }

  /** The elements `group_by` iterates over: an array's elements, or a hash's
      [key, value] pairs; other values have no `group_by`. */
  function ForecastItems(list: Json): (r: Eval<seq<Json>>)
    ensures list.JArr? ==> r == Value(list.items)
    ensures r.Value? <==> list.JArr? || list.JObj?
    ensures list.JObj? ==> (r.Value? && |r.value| == |list.members|
      && forall i :: 0 <= i < |r.value| ==> r.value[i].JArr?)
  {
    match list
    case JArr(items) => Value(items)
    case JObj(ms) => Value(seq(|ms|, i requires 0 <= i < |ms| => JArr([JStr(ms[i].key), ms[i].value])))
    case _ => Raise(NoMethod("group_by", list))
  }

  /** `Date.parse(date) >= tomorrow` for a formatted key. */
  predicate IsFuture(key: string, today: CalendarDate) {
    ParseYmd(key).Some? && !Before(ParseYmd(key).value, Succ(today))
  }

  /** "From tomorrow on" is "strictly after today". */
  lemma FutureIsAfterToday(key: string, today: CalendarDate)
    requires ParseYmd(key).Some?
    ensures IsFuture(key, today) <==> Before(today, ParseYmd(key).value)
  {
    OnOrAfterTomorrow(today, ParseYmd(key).value);
  }

  /** The keys from tomorrow on, in their order. */
  function FutureDates(ks: seq<string>, today: CalendarDate): (r: seq<string>)
    ensures forall k :: k in r <==> k in ks && IsFuture(k, today)
    ensures |r| <= |ks|
  {
    if ks == [] then []
    else (if IsFuture(ks[0], today) then [ks[0]] else []) + FutureDates(ks[1..], today)
  }

  /** Distinct keys stay distinct once filtered. */
  lemma {:induction false} FutureDatesDistinct(ks: seq<string>, today: CalendarDate)
    requires forall i, j :: 0 <= i < j < |ks| ==> ks[i] != ks[j]
    ensures forall i, j :: 0 <= i < j < |FutureDates(ks, today)| ==> FutureDates(ks, today)[i] != FutureDates(ks, today)[j]
  {
    if ks != [] {
      assert forall i, j :: 0 <= i < j < |ks[1..]| ==> ks[1..][i] != ks[1..][j] by {
        forall i, j | 0 <= i < j < |ks[1..]|
          ensures ks[1..][i] != ks[1..][j]
        {
          assert ks[1..][i] == ks[i + 1] && ks[1..][j] == ks[j + 1];
        }
      }
      FutureDatesDistinct(ks[1..], today);
      assert ks[0] !in ks[1..];
    }
  }

  /** One step of FutureGroups: the kept head's key followed by the rest's keys
      are the future keys of all of `g`. */
  lemma FutureGroupsStep<T>(g: seq<(string, seq<T>)>, today: CalendarDate, head: seq<(string, seq<T>)>, rest: seq<(string, seq<T>)>)
    requires g != [] && head == (if IsFuture(g[0].0, today) then [g[0]] else [])
    requires KeysOf(rest) == FutureDates(KeysOf(g[1..]), today)
    ensures KeysOf(head + rest) == FutureDates(KeysOf(g), today)
  {
    var ks := KeysOf(g);
    assert ks[1..] == KeysOf(g[1..]);
    assert ks[0] == g[0].0;
    KeysOfAppend(head, rest);
    assert KeysOf(head) == (if IsFuture(ks[0], today) then [ks[0]] else []);
  }

  lemma KeysOfAppend<T>(a: seq<(string, T)>, b: seq<(string, T)>)
    ensures KeysOf(a + b) == KeysOf(a) + KeysOf(b)
  {
    assert forall i :: 0 <= i < |a + b| ==> KeysOf(a + b)[i] == (KeysOf(a) + KeysOf(b))[i];
  }

  /** `grouped_by_date.select { |date, _| Date.parse(date) >= tomorrow }`. */
  function FutureGroups<T>(g: seq<(string, seq<T>)>, today: CalendarDate): (r: seq<(string, seq<T>)>)
    ensures KeysOf(r) == FutureDates(KeysOf(g), today)
    ensures forall i :: 0 <= i < |r| ==> r[i] in g
  {
    if g == [] then []
    else
      var head := if IsFuture(g[0].0, today) then [g[0]] else [];
      var rest := FutureGroups(g[1..], today);
      FutureGroupsStep(g, today, head, rest);
      head + rest
  }

  /** `f['main']['temp']` for each sample, in order; the first raise wins. */
  function Temperatures(forecasts: seq<Json>): (r: Eval<seq<Json>>)
    ensures r.Value? ==> |r.value| == |forecasts|
    ensures r.Value? <==> forall i :: 0 <= i < |forecasts| ==> MainTemp(forecasts[i]).Value?
    ensures r.Value? ==> forall i :: 0 <= i < |forecasts| ==> MainTemp(forecasts[i]) == Value(r.value[i])
  {
    if forecasts == [] then Value([])
    else
      match MainTemp(forecasts[0])
      case Raise(m) => Raise(m)
      case Value(t) =>
        match Temperatures(forecasts[1..])
        case Raise(m) => Raise(m)
        case Value(ts) =>
          assert forall i :: 1 <= i < |forecasts| ==> forecasts[i] == forecasts[1..][i - 1];
          Value([t] + ts)
  }

  function MainTemp(f: Json): Eval<Json> {
    match Index(f, "main")
    case Raise(m) => Raise(m)
    case Value(main) => Index(main, "temp")
  }

  /** `((temperatures.sum / temperatures.count) - 273.15).round(2)`, in hundredths of
      a degree. With Integer temperatures the division floors before the
      conversion; with any Float among them the exact mean, less 273.15, is
      rounded to hundredths half away from zero. */
  function AverageHundredths(temps: seq<Json>): (r: Eval<int>)
    requires |temps| > 0
    ensures r.Value? <==> forall i :: 0 <= i < |temps| ==> temps[i].JNum?
    ensures (forall i :: 0 <= i < |temps| ==> temps[i].JNum? && temps[i].n.Int?) ==>
      r == Value(100 * (IntTotal(temps) / |temps|) - 27315)
    ensures r.Value? && (exists i :: 0 <= i < |temps| && temps[i].JNum? && temps[i].n.Dec?) ==>
      NearestHalfAway(r.value, 100.0 * ExactTotal(temps) / |temps| as real - 27315.0)
  {
    SumOfIntegers(temps);
    match Sum(temps)
    case Raise(m) => Raise(m)
    case Value(acc) =>
      match acc
      case IntAcc(s) => Value(100 * (s / |temps|) - 27315)
      case RealAcc(n, d) =>
        PositiveProduct(d, |temps|);
        SumIsExactTotal(temps);
        MeanShift(n, d, |temps|);
        RoundHalfAwayNearest(100 * n - 27315 * d * |temps|, d * |temps|);
        Value(RoundHalfAway(100 * n - 27315 * d * |temps|, d * |temps|))
  }

  lemma DivBy(a: real, b: real, c: real)
    requires b != 0.0 && a == c * b
    ensures a / b == c
  {
  }

  /** The exact mean n / d / k less 273.15, in hundredths, over one denominator. */
  lemma MeanShift(n: int, d: int, k: int)
    requires d > 0 && k > 0
    ensures ((100 * n - 27315 * d * k) as real) / ((d * k) as real)
            == 100.0 * (n as real / d as real) / k as real - 27315.0
  {
    CastMul(d, k);
    CastMul(27315 * d, k);
    var q := n as real / d as real;
    assert n as real == q * d as real;
    var dk := (d as real) * (k as real);
    var t := 100.0 * q / k as real - 27315.0;
    assert 100.0 * q == (100.0 * q / k as real) * k as real;
    assert (100 * n - 27315 * d * k) as real == t * dk;
    DivBy((100 * n - 27315 * d * k) as real, dk, t);
  }

  lemma SumOfIntegers(temps: seq<Json>)
    ensures (forall i :: 0 <= i < |temps| ==> temps[i].JNum? && temps[i].n.Int?) ==>
      Sum(temps) == Value(IntAcc(IntTotal(temps)))
  {
    if forall i :: 0 <= i < |temps| ==> temps[i].JNum? && temps[i].n.Int? {
      SumFromInts(0, temps);
    }
  }

  /** `calculate_average_temperature(forecasts)`. */
  function GroupAverage(forecasts: seq<Json>): (r: Eval<int>)
    requires |forecasts| > 0
    ensures r.Value? <==> Temperatures(forecasts).Value? && AverageHundredths(Temperatures(forecasts).value).Value?
    ensures r.Value? ==> r == AverageHundredths(Temperatures(forecasts).value)
  {
    match Temperatures(forecasts)
    case Raise(m) => Raise(m)
    case Value(ts) => AverageHundredths(ts)
  }

  /** The `map` over the future groups: every group is averaged, in order, before
      `first(5)`; the first raise wins. */
  function Averages(groups: seq<(string, seq<Json>)>): (r: Eval<seq<DailyAverage>>)
    requires forall i :: 0 <= i < |groups| ==> |groups[i].1| > 0
    ensures r.Value? <==> forall i :: 0 <= i < |groups| ==> GroupAverage(groups[i].1).Value?
    ensures r.Value? ==> (|r.value| == |groups|
      && forall i :: 0 <= i < |groups| ==>
           r.value[i] == DailyAverage(groups[i].0, GroupAverage(groups[i].1).value))
  {
    if groups == [] then Value([])
    else
      match GroupAverage(groups[0].1)
      case Raise(m) => Raise(m)
      case Value(a) =>
        match Averages(groups[1..])
        case Raise(m) => Raise(m)
        case Value(rest) =>
          assert forall i :: 1 <= i < |groups| ==> groups[i] == groups[1..][i - 1];
          Value([DailyAverage(groups[0].0, a)] + rest)
  }

  /** The days reported for samples with these keys: the distinct dates from
      tomorrow on, in order of first appearance. */
  function ReportedDates(keys: seq<string>, today: CalendarDate): seq<string> {
    FutureDates(Distinct(keys), today)
  }

  lemma ZipKeys(keys: seq<string>, items: seq<Json>)
    requires |keys| == |items|
    ensures KeysOf(Zip(keys, items)) == keys
  {
    var ks := KeysOf(Zip(keys, items));
    assert forall i :: 0 <= i < |ks| ==> ks[i] == keys[i];
  }

  /** The groups from tomorrow on, before averaging. */
  function DayGroups(keys: seq<string>, items: seq<Json>, today: CalendarDate): seq<(string, seq<Json>)>
    requires |keys| == |items|
  {
    FutureGroups(GroupBy(Zip(keys, items)), today)
  }

  /** The future groups carry the reported dates, in order. */
  lemma DayGroupKeys(keys: seq<string>, items: seq<Json>, today: CalendarDate)
    requires |keys| == |items|
    ensures KeysOf(DayGroups(keys, items, today)) == ReportedDates(keys, today)
  {
    GroupsNonEmpty(Zip(keys, items));
    ZipKeys(keys, items);
  }

  /** The future groups are the reported dates, in order, each non-empty and holding
      exactly the samples with that date. */
  lemma DayGroupsFacts(keys: seq<string>, items: seq<Json>, today: CalendarDate)
    requires |keys| == |items|
    ensures var g := DayGroups(keys, items, today);
      && KeysOf(g) == ReportedDates(keys, today)
      && (forall i :: 0 <= i < |g| ==> |g[i].1| > 0)
      && (forall i :: 0 <= i < |g| ==> g[i].1 == Select(Zip(keys, items), g[i].0))
      && (forall i :: 0 <= i < |g| ==> g[i].0 in KeysOf(Zip(keys, items)))
  {
    var xs := Zip(keys, items);
    var groups := GroupBy(xs);
    GroupsNonEmpty(xs);
    DayGroupKeys(keys, items, today);
    FutureGroupsSelect(groups, xs, today);
  }

  /** Filtering keeps each group holding exactly the values of its key. */
  lemma FutureGroupsSelect(groups: seq<(string, seq<Json>)>, xs: seq<(string, Json)>, today: CalendarDate)
    requires forall j :: 0 <= j < |groups| ==> |groups[j].1| > 0 && groups[j].1 == Select(xs, groups[j].0)
    ensures var g := FutureGroups(groups, today);
      forall i :: 0 <= i < |g| ==> |g[i].1| > 0 && g[i].1 == Select(xs, g[i].0)
  {
    var g := FutureGroups(groups, today);
    forall i | 0 <= i < |g|
      ensures |g[i].1| > 0 && g[i].1 == Select(xs, g[i].0)
    {
      assert g[i] in groups;
    }
  }

  /** The reported dates are distinct and all after today. */
  lemma ReportedDatesFacts(keys: seq<string>, today: CalendarDate)
    ensures var f := ReportedDates(keys, today);
      && (forall i :: 0 <= i < |f| ==> IsFuture(f[i], today))
      && (forall i, j :: 0 <= i < j < |f| ==> f[i] != f[j])
  {
    FutureDatesDistinct(Distinct(keys), today);
    var f := ReportedDates(keys, today);
    assert forall i :: 0 <= i < |f| ==> f[i] in f;
  }

  function Min(a: int, b: int): int {
    if a <= b then a else b
  }

  /** The averaged days carry the reported dates, so they are distinct and after
      today. */
  lemma AveragedDates(keys: seq<string>, items: seq<Json>, today: CalendarDate, avgs: seq<DailyAverage>)
    requires |keys| == |items|
    requires (forall i :: 0 <= i < |DayGroups(keys, items, today)| ==> |DayGroups(keys, items, today)[i].1| > 0)
    requires Averages(DayGroups(keys, items, today)) == Value(avgs)
    ensures forall i :: 0 <= i < |avgs| ==> IsFuture(avgs[i].date, today)
    ensures forall i, j :: 0 <= i < j < |avgs| ==> avgs[i].date != avgs[j].date
  {
    var g := DayGroups(keys, items, today);
    DayGroupKeys(keys, items, today);
    ReportedDatesFacts(keys, today);
    AveragesCarryKeys(g, avgs);
  }

  /** Each average carries its group's date. */
  lemma AveragesCarryKeys(g: seq<(string, seq<Json>)>, avgs: seq<DailyAverage>)
    requires forall i :: 0 <= i < |g| ==> |g[i].1| > 0
    requires Averages(g) == Value(avgs)
    ensures |avgs| == |KeysOf(g)| && forall i :: 0 <= i < |avgs| ==> avgs[i].date == KeysOf(g)[i]
  {
  }

  lemma DayGroupsNonEmpty(keys: seq<string>, items: seq<Json>, today: CalendarDate)
    requires |keys| == |items|
    ensures forall i :: 0 <= i < |DayGroups(keys, items, today)| ==> |DayGroups(keys, items, today)[i].1| > 0
  {
    DayGroupsFacts(keys, items, today);
  }

  /** `first(5)`. */
  function FirstFive(avgs: seq<DailyAverage>, ghost today: CalendarDate): (r: seq<DailyAverage>)
    requires forall i :: 0 <= i < |avgs| ==> IsFuture(avgs[i].date, today)
    requires forall i, j :: 0 <= i < j < |avgs| ==> avgs[i].date != avgs[j].date
    ensures |r| == Min(5, |avgs|) && r == avgs[..|r|]
    ensures forall i :: 0 <= i < |r| ==> IsFuture(r[i].date, today)
    ensures forall i, j :: 0 <= i < j < |r| ==> r[i].date != r[j].date
  {
    if |avgs| <= 5 then avgs else avgs[..5]
  }

  /** The average days of samples with the given keys: averaged in full, then the
      first five kept. */
  function AverageDays(keys: seq<string>, items: seq<Json>, today: CalendarDate): (r: Eval<seq<DailyAverage>>)
    requires |keys| == |items|
    ensures r.Value? ==> |r.value| <= 5
    ensures r.Value? ==> forall i :: 0 <= i < |r.value| ==> IsFuture(r.value[i].date, today)
    ensures r.Value? ==> forall i, j :: 0 <= i < j < |r.value| ==> r.value[i].date != r.value[j].date
  {
    var future := DayGroups(keys, items, today);
    DayGroupsNonEmpty(keys, items, today);
    match Averages(future)
    case Raise(m) => Raise(m)
    case Value(avgs) =>
      AveragedDates(keys, items, today, avgs);
      Value(FirstFive(avgs, today))
  }

  /** `calculate_daily_averages(forecast_list)` with `Date.current` given as `today`:
      at most five days, all after today, no date twice. */
  function DailyAverages(list: Json, today: CalendarDate): (r: Eval<seq<DailyAverage>>)
    ensures r.Value? ==> |r.value| <= 5
    ensures r.Value? ==> forall i :: 0 <= i < |r.value| ==> IsFuture(r.value[i].date, today)
    ensures r.Value? ==> forall i, j :: 0 <= i < j < |r.value| ==> r.value[i].date != r.value[j].date
    ensures !(list.JArr? || list.JObj?) ==> r == Raise(NoMethod("group_by", list))
  {
    match ForecastItems(list)
    case Raise(m) => Raise(m)
    case Value(items) =>
      match DateKeys(items)
      case Raise(m) => Raise(m)
      case Value(keys) => AverageDays(keys, items, today)
  }

  /** Every future group of readable samples averages without raising. */
  lemma GroupsAverage(keys: seq<string>, items: seq<Json>, today: CalendarDate)
    requires |keys| == |items|
    requires forall i :: 0 <= i < |items| ==> MainTemp(items[i]).Value? && MainTemp(items[i]).value.JNum?
    ensures var g := DayGroups(keys, items, today);
      && (forall i :: 0 <= i < |g| ==> |g[i].1| > 0)
      && Averages(g).Value?
  {
    var xs := Zip(keys, items);
    var g := DayGroups(keys, items, today);
    DayGroupsFacts(keys, items, today);
    assert forall i :: 0 <= i < |xs| ==> MainTemp(xs[i].1).Value? && MainTemp(xs[i].1).value.JNum?;
    forall i | 0 <= i < |g|
      ensures GroupAverage(g[i].1).Value?
    {
      SelectedSamplesRead(xs, g[i].0);
    }
  }

  /** `avgs` holds, for the first five of the dates `f`, each date with the
      average of the samples in `xs` carrying it. */
  predicate AveragesOf(avgs: seq<DailyAverage>, f: seq<string>, xs: seq<(string, Json)>) {
    && |avgs| == Min(5, |f|)
    && forall i :: 0 <= i < |avgs| && i < |f| ==>
         && avgs[i].date == f[i]
         && |Select(xs, f[i])| > 0
         && GroupAverage(Select(xs, f[i])) == Value(avgs[i].averageHundredths)
  }

  /** For a list of samples whose dates and temperatures all read: the result has
      min(5, number of distinct future dates) entries; entry i is the i-th such
      date in order of first appearance and the average of exactly the samples
      carrying that date. */
  lemma DailyAveragesSpec(items: seq<Json>, today: CalendarDate, keys: seq<string>)
    requires DateKeys(items) == Value(keys)
    requires forall i :: 0 <= i < |items| ==> MainTemp(items[i]).Value? && MainTemp(items[i]).value.JNum?
    ensures DailyAverages(JArr(items), today).Value?
    ensures AveragesOf(DailyAverages(JArr(items), today).value, ReportedDates(keys, today), Zip(keys, items))
  {
    var g := DayGroups(keys, items, today);
    assert DailyAverages(JArr(items), today) == AverageDays(keys, items, today);
    GroupsAverage(keys, items, today);
    var avgs := Averages(g).value;
    AverageDaysKeepsFive(keys, items, today, avgs);
    DayGroupsFacts(keys, items, today);
    AveragedGroups(g, ReportedDates(keys, today), Zip(keys, items), avgs);
  }

  lemma AverageDaysKeepsFive(keys: seq<string>, items: seq<Json>, today: CalendarDate, avgs: seq<DailyAverage>)
    requires |keys| == |items|
    requires forall i :: 0 <= i < |DayGroups(keys, items, today)| ==> |DayGroups(keys, items, today)[i].1| > 0
    requires Averages(DayGroups(keys, items, today)) == Value(avgs)
    ensures AverageDays(keys, items, today) == Value(avgs[..Min(5, |avgs|)])
  {
  }

  /** Averaging groups that carry the dates `f`, each holding the samples of its
      date, then keeping five, gives the averages of those dates. */
  lemma AveragedGroups(g: seq<(string, seq<Json>)>, f: seq<string>, xs: seq<(string, Json)>, avgs: seq<DailyAverage>)
    requires forall i :: 0 <= i < |g| ==> |g[i].1| > 0
    requires KeysOf(g) == f
    requires forall i :: 0 <= i < |g| ==> g[i].1 == Select(xs, g[i].0)
    requires Averages(g) == Value(avgs)
    ensures AveragesOf(avgs[..Min(5, |avgs|)], f, xs)
  {
    forall i | 0 <= i < Min(5, |avgs|)
      ensures avgs[i].date == f[i] && |Select(xs, f[i])| > 0 && GroupAverage(Select(xs, f[i])) == Value(avgs[i].averageHundredths)
    {
      assert g[i].0 == f[i];
    }
  }

  /** The samples selected for one date all have a readable numeric temperature when
      every sample does, so their average reads. */
  lemma SelectedSamplesRead(xs: seq<(string, Json)>, k: string)
    requires forall i :: 0 <= i < |xs| ==> MainTemp(xs[i].1).Value? && MainTemp(xs[i].1).value.JNum?
    requires k in KeysOf(xs)
    ensures GroupAverage(Select(xs, k)).Value?
  {
    var s := Select(xs, k);
    SelectMembers(xs, k);
    forall i | 0 <= i < |s|
      ensures MainTemp(s[i]).Value? && MainTemp(s[i]).value.JNum?
    {
      assert s[i] in s;
      var j :| 0 <= j < |xs| && xs[j] == (k, s[i]);
    }
    var ts := Temperatures(s).value;
    assert forall i :: 0 <= i < |ts| ==> MainTemp(s[i]) == Value(ts[i]);
  }

  lemma {:induction false} SelectMembers<T>(xs: seq<(string, T)>, k: string)
    ensures forall v :: v in Select(xs, k) ==> (k, v) in xs
  {
    if xs != [] {
      SelectMembers(xs[..|xs| - 1], k);
      assert xs == xs[..|xs| - 1] + [xs[|xs| - 1]];
    }
  }

  lemma {:induction false} NoFutureDates(ks: seq<string>, today: CalendarDate)
    requires forall i :: 0 <= i < |ks| ==> !IsFuture(ks[i], today)
    ensures FutureDates(ks, today) == []
  {
    if ks != [] {
      assert forall i :: 0 <= i < |ks[1..]| ==> ks[1..][i] == ks[i + 1];
      NoFutureDates(ks[1..], today);
    }
  }

  lemma NoReportedDates(keys: seq<string>, today: CalendarDate)
    requires forall i :: 0 <= i < |keys| ==> !IsFuture(keys[i], today)
    ensures ReportedDates(keys, today) == []
  {
    var d := Distinct(keys);
    assert forall i :: 0 <= i < |d| ==> d[i] in keys;
    NoFutureDates(d, today);
  }

  /** Samples all dated today or earlier give no averages. */
  lemma AllPastGivesEmpty(items: seq<Json>, today: CalendarDate, keys: seq<string>)
    requires DateKeys(items) == Value(keys)
    requires forall i :: 0 <= i < |keys| ==> !IsFuture(keys[i], today)
    ensures DailyAverages(JArr(items), today) == Value([])
  {
    DayGroupsFacts(keys, items, today);
    NoReportedDates(keys, today);
    assert |DayGroups(keys, items, today)| == 0;
    assert DailyAverages(JArr(items), today) == AverageDays(keys, items, today);
  }

  /** The averages of the examples: {300, 310, 290} K is 26.85 °C and {290, 295} K
      is 18.85 °C because the Integer mean 292 is truncated, while {300.123, 300.456}
      K is 27.14 °C. */
  lemma AverageExamples()
    ensures AverageHundredths([JNum(Int(300)), JNum(Int(310)), JNum(Int(290))]) == Value(2685)
    ensures AverageHundredths([JNum(Int(290)), JNum(Int(295))]) == Value(1885)
    ensures AverageHundredths([JNum(Dec(300123, 3)), JNum(Dec(300456, 3))]) == Value(2714)
  {
    assert IntTotal([JNum(Int(300)), JNum(Int(310)), JNum(Int(290))]) == 900;
    assert IntTotal([JNum(Int(290)), JNum(Int(295))]) == 585;
    assert Sum([JNum(Dec(300123, 3)), JNum(Dec(300456, 3))]) == Value(RealAcc(300123 * 1000 + 300456 * 1000, 1000000));
  }

  function Sample(dtTxt: string, kelvin: int): Json {
    JObj([Member("dt_txt", JStr(dtTxt)), Member("main", JObj([Member("temp", JNum(Int(kelvin)))]))])
  }

  /** A sample whose `dt_txt` is a formatted date followed by a time has that date
      as its key. */
  lemma SampleKey(d: Date, time: string, kelvin: int)
    requires Valid(d) && 0 <= d.year < 10000
    requires time == [] || !IsDigit(time[0])
    ensures DateKey(Sample(FormatYmd(d) + time, kelvin)) == Value(FormatYmd(d))
  {
    ParseFormat(d, time);
    SampleDtTxt(FormatYmd(d) + time, kelvin);
    assert (FormatYmd(d) + time)[..10] == FormatYmd(d);
  }

  lemma SampleDtTxt(dtTxt: string, kelvin: int)
    ensures Lookup(Sample(dtTxt, kelvin).members, "dt_txt") == JStr(dtTxt)
  {
    var ms := Sample(dtTxt, kelvin).members;
    assert ms[1].key != "dt_txt" by { assert ms[1].key[0] != "dt_txt"[0]; }
    assert ms[..1] == [Member("dt_txt", JStr(dtTxt))];
  }

  lemma SampleTemp(dtTxt: string, kelvin: int)
    ensures MainTemp(Sample(dtTxt, kelvin)) == Value(JNum(Int(kelvin)))
  {
    var main := JObj([Member("temp", JNum(Int(kelvin)))]);
    assert Lookup(Sample(dtTxt, kelvin).members, "main") == main;
  }

  /** Today's key is not future, tomorrow's is, and they differ. */
  lemma TodayAndTomorrow(today: CalendarDate)
    requires 0 <= today.year < 9999
    ensures FormatYmd(today) != FormatYmd(Succ(today))
    ensures !IsFuture(FormatYmd(today), today) && IsFuture(FormatYmd(Succ(today)), today)
  {
    ParseFormat(today, []);
    ParseFormat(Succ(today), []);
    assert FormatYmd(today) + [] == FormatYmd(today);
    assert FormatYmd(Succ(today)) + [] == FormatYmd(Succ(today));
  }

  /** Four samples keyed today, today, tomorrow, tomorrow, the last two averaging
      18.85 °C (see SecondDayAverage): only tomorrow is reported. */
  lemma TwoDays(s: seq<Json>, a: string, b: string, today: CalendarDate)
    requires |s| == 4 && a != b && !IsFuture(a, today) && IsFuture(b, today)
    requires DateKeys(s) == Value([a, a, b, b])
    requires forall i :: 0 <= i < 4 ==> MainTemp(s[i]).Value? && MainTemp(s[i]).value.JNum?
    requires GroupAverage(s[2..]) == Value(1885)
    ensures DailyAverages(JArr(s), today) == Value([DailyAverage(b, 1885)])
  {
    var keys := [a, a, b, b];
    DailyAveragesSpec(s, today, keys);
    TwoDaysReported(a, b, today);
    TwoDaysSelect(a, b, s);
    OneReportedDate(DailyAverages(JArr(s), today).value, b, Zip(keys, s), 1885);
  }

  lemma OneReportedDate(avgs: seq<DailyAverage>, b: string, xs: seq<(string, Json)>, avg: int)
    requires AveragesOf(avgs, [b], xs)
    requires |Select(xs, b)| > 0 && GroupAverage(Select(xs, b)) == Value(avg)
    ensures avgs == [DailyAverage(b, avg)]
  {
    assert |avgs| == 1;
  }

  lemma TwoDaysReported(a: string, b: string, today: CalendarDate)
    requires a != b && !IsFuture(a, today) && IsFuture(b, today)
    ensures ReportedDates([a, a, b, b], today) == [b]
  {
    var ks := [a, a, b, b];
    assert ks[..3] == [a, a, b];
    assert [a, a, b][..2] == [a, a];
    assert [a, a][..1] == [a];
    assert Distinct([a]) == [a];
    assert Distinct([a, a]) == [a];
    assert Distinct([a, a, b]) == [a, b];
    assert Distinct(ks) == [a, b];
    assert [a, b][1..] == [b];
  }

  lemma TwoDaysSelect(a: string, b: string, s: seq<Json>)
    requires a != b && |s| == 4
    ensures Select(Zip([a, a, b, b], s), b) == s[2..]
  {
    var xs := Zip([a, a, b, b], s);
    assert xs == [(a, s[0]), (a, s[1]), (b, s[2]), (b, s[3])];
    assert xs[..3] == [(a, s[0]), (a, s[1]), (b, s[2])];
    assert xs[..3][..2] == [(a, s[0]), (a, s[1])];
    assert xs[..3][..2][..1] == [(a, s[0])];
    assert Select(xs[..1], b) == [];
    assert Select(xs[..2], b) == [];
    assert Select(xs[..3], b) == [s[2]];
  }

  lemma SecondDayAverage(s: seq<Json>, x: string, y: string)
    requires s == [Sample(x, 290), Sample(y, 295)]
    ensures GroupAverage(s) == Value(1885)
  {
    SampleTemp(x, 290);
    SampleTemp(y, 295);
    var t := Temperatures(s);
    assert forall i :: 0 <= i < 2 ==> MainTemp(s[i]).Value?;
    assert t.Value? && |t.value| == 2 && t.value[0] == JNum(Int(290)) && t.value[1] == JNum(Int(295));
    assert t.value == [JNum(Int(290)), JNum(Int(295))];
    AverageExamples();
  }
}
