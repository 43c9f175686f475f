/**
 The intra-day report service: it fetches the trades of a day from the power
 service, sums their volumes per period index, and turns the sums into a report
 record with a two-column grid of text cells (time label, formatted volume).
 */
module IntraDayReportService {
  import opened Entities

  /** The one error message of a failed trade fetch. */
  const TradeDataUnavailable: string := "Unable to get trade data"

  /** The two kinds of exception the power service can raise. */
  datatype SourceFailure = PowerServiceException(message: string) | UnexpectedException(message: string)

  /** What the power service answered for the requested date: its trades, or an exception. */
  datatype TradeSource = Trades(trades: seq<PowerTrade>) | Throws(failure: SourceFailure)

  /**
   The culture-dependent text conversions the report uses: the "N2" rendering of
   a volume and the two custom date/time renderings of the report time stamp.
   They are supplied by the caller, not modelled.
   */
  datatype TextFormats = TextFormats(volumeN2: real -> string, stampDate: DateTime -> string, stampTime: DateTime -> string)

  // ---------------------------------------------------------------------------
  // Reference definitions of "the sum over every trade period with index k"
  // ---------------------------------------------------------------------------

  /** Period index k occurs in some period of some trade. */
  ghost predicate Occurs(trades: seq<PowerTrade>, k: int)
  {
    exists t, m :: 0 <= t < |trades| && 0 <= m < |trades[t].periods| && trades[t].periods[m].period == k
  }

  /** The set of period indices of a sequence of trade periods. */
  ghost function PeriodSet(ps: seq<PowerPeriod>): (indices: set<int>)
  {
    set m | 0 <= m < |ps| :: ps[m].period
  }

  /** The trade periods of ps that carry index k, in their order in ps. */
  function Filter(ps: seq<PowerPeriod>, k: int): (r: seq<PowerPeriod>)
    ensures forall i :: 0 <= i < |r| ==> r[i].period == k
  {
    if |ps| == 0 then []
    else (if ps[0].period == k then [ps[0]] else []) + Filter(ps[1..], k)
  }

  /** The sum of the volumes of ps, added from first to last (what Sum does). */
  function SumVolumes(ps: seq<PowerPeriod>): (total: real)
  {
    if |ps| == 0 then 0.0 else SumVolumes(ps[..|ps| - 1]) + ps[|ps| - 1].volume
  }

  /** Trade by trade, the sum of the volumes of the periods with index k. */
  function TradeTotal(trades: seq<PowerTrade>, k: int): (total: real)
  {
    if |trades| == 0 then 0.0
    else SumVolumes(Filter(trades[0].periods, k)) + TradeTotal(trades[1..], k)
  }

  // ---------------------------------------------------------------------------
  // GenerateDataAsync: SelectMany, GroupBy, ToDictionary(Sum), Select
  // ---------------------------------------------------------------------------

  /** All periods of all trades, trade after trade (SelectMany). */
  function Flatten(trades: seq<PowerTrade>): (ps: seq<PowerPeriod>)
    ensures forall p :: p in ps <==> exists t :: 0 <= t < |trades| && p in trades[t].periods
  {
    if |trades| == 0 then [] else trades[0].periods + Flatten(trades[1..])
  }

  /** A group of trade periods sharing one period index. */
  datatype Grouping = Grouping(key: int, elements: seq<PowerPeriod>)

  /** The position of the group with the given key, or -1 when there is none. */
  function FindGroup(groups: seq<Grouping>, key: int): (j: int)
    ensures -1 <= j < |groups|
    ensures 0 <= j ==> groups[j].key == key
    ensures j < 0 ==> forall i :: 0 <= i < |groups| ==> groups[i].key != key
  {
    if |groups| == 0 then -1
    else if groups[0].key == key then 0
    else
      var j := FindGroup(groups[1..], key);
      if j < 0 then -1 else j + 1
  }

  /** No group is empty. */
  predicate NonEmptyGroups(groups: seq<Grouping>)
  {
    forall i :: 0 <= i < |groups| ==> groups[i].elements != []
  }

  /** One step of GroupBy: p joins the group of its index, or opens a new group at the end. */
  function AddToGroups(groups: seq<Grouping>, p: PowerPeriod): (result: seq<Grouping>)
    ensures |groups| <= |result| <= |groups| + 1 && 1 <= |result|
    ensures NonEmptyGroups(groups) ==> NonEmptyGroups(result)
  {
    var j := FindGroup(groups, p.period);
    if j < 0 then groups + [Grouping(p.period, [p])]
    else groups[j := Grouping(p.period, groups[j].elements + [p])]
  }

  /** GroupBy on the period index: the trade periods added to the groups one after the other. */
  function GroupByPeriod(ps: seq<PowerPeriod>): (groups: seq<Grouping>)
    ensures |groups| <= |ps|
    ensures ps != [] ==> groups != []
    ensures NonEmptyGroups(groups)
  {
    if |ps| == 0 then [] else AddToGroups(GroupByPeriod(ps[..|ps| - 1]), ps[|ps| - 1])
  }

  /** One aggregation per group: its key and the sum of its volumes. */
  function Aggregate(ps: seq<PowerPeriod>): (aggs: seq<AggregatedPowerPeriod>)
    ensures |aggs| <= |ps|
    ensures aggs == [] <==> ps == []
  {
    var groups := GroupByPeriod(ps);
    seq(|groups|, i requires 0 <= i < |groups| => AggregatedPowerPeriod(groups[i].key, SumVolumes(groups[i].elements)))
  }

  /**
   GenerateDataAsync: any exception of the power service becomes the fixed
   failure; otherwise the volumes of all trades are summed per period index and
   stamped with the requested date.
   */
  function GenerateData(date: DateTime, source: TradeSource): (r: Result<AggregatedPowerTrade>)
    ensures r.Fail? <==> source.Throws?
    ensures r.Fail? ==> r.errors == [TradeDataUnavailable]
    ensures r.Ok? ==> r.value.timeStamp == date
  {
    match source
    case Throws(_) => Fail([TradeDataUnavailable])
    case Trades(trades) => Ok(AggregatedPowerTrade(date, Aggregate(Flatten(trades))))
  }

  // ---------------------------------------------------------------------------
  // Lemmas: the aggregation is a group-by-sum
  // ---------------------------------------------------------------------------

  lemma {:induction false} FilterConcat(a: seq<PowerPeriod>, b: seq<PowerPeriod>, k: int)
    ensures Filter(a + b, k) == Filter(a, k) + Filter(b, k)
  {
    if |a| != 0 {
      assert (a + b)[1..] == a[1..] + b;
      FilterConcat(a[1..], b, k);
    } else {
      assert a + b == b;
    }
  }

  lemma {:induction false} FilterAbsent(ps: seq<PowerPeriod>, k: int)
    requires k !in PeriodSet(ps)
    ensures Filter(ps, k) == []
  {
    if |ps| != 0 {
      assert ps[0].period in PeriodSet(ps);
      assert PeriodSet(ps[1..]) <= PeriodSet(ps) by {
        forall x | x in PeriodSet(ps[1..]) ensures x in PeriodSet(ps) {
          var m :| 0 <= m < |ps[1..]| && ps[1..][m].period == x;
          assert ps[m + 1].period == x;
        }
      }
      FilterAbsent(ps[1..], k);
    }
  }

  lemma {:induction false} SumVolumesConcat(a: seq<PowerPeriod>, b: seq<PowerPeriod>)
    ensures SumVolumes(a + b) == SumVolumes(a) + SumVolumes(b)
  {
    if |b| != 0 {
      assert (a + b)[..|a + b| - 1] == a + b[..|b| - 1];
      SumVolumesConcat(a, b[..|b| - 1]);
    } else {
      assert a + b == a;
    }
  }

  /** Summing the index-k periods of all trades at once equals summing trade by trade. */
  lemma {:induction false} FlattenTotal(trades: seq<PowerTrade>, k: int)
    ensures SumVolumes(Filter(Flatten(trades), k)) == TradeTotal(trades, k)
  {
    if |trades| != 0 {
      FilterConcat(trades[0].periods, Flatten(trades[1..]), k);
      SumVolumesConcat(Filter(trades[0].periods, k), Filter(Flatten(trades[1..]), k));
      FlattenTotal(trades[1..], k);
    }
  }

  /** An index occurs among the flattened periods exactly when it occurs in some trade. */
  lemma {:induction false} FlattenOccurs(trades: seq<PowerTrade>, k: int)
    ensures k in PeriodSet(Flatten(trades)) <==> Occurs(trades, k)
  {
    if |trades| != 0 {
      var ps: seq<PowerPeriod> := trades[0].periods;
      var rest: seq<PowerPeriod> := Flatten(trades[1..]);
      var all: seq<PowerPeriod> := ps + rest;
      assert Flatten(trades) == all;
      FlattenOccurs(trades[1..], k);
      if k in PeriodSet(all) {
        var m :| 0 <= m < |all| && all[m].period == k;
        if m < |ps| {
          assert trades[0].periods[m].period == k;
        } else {
          assert rest[m - |ps|].period == k;
          assert k in PeriodSet(rest);
          var t, m' :| 0 <= t < |trades[1..]| && 0 <= m' < |trades[1..][t].periods| && trades[1..][t].periods[m'].period == k;
          assert trades[t + 1].periods[m'].period == k;
        }
      }
      if Occurs(trades, k) {
        var t, m :| 0 <= t < |trades| && 0 <= m < |trades[t].periods| && trades[t].periods[m].period == k;
        if t == 0 {
          assert all[m].period == k;
        } else {
          assert trades[1..][t - 1].periods[m].period == k;
          var m' :| 0 <= m' < |rest| && rest[m'].period == k;
          assert all[|ps| + m'].period == k;
        }
      }
    }
  }

  /** The period indices that have an aggregation. */
  ghost function AggregatedPeriods(aggs: seq<AggregatedPowerPeriod>): (indices: set<int>)
  {
    set i | 0 <= i < |aggs| :: aggs[i].period
  }

  /** The set of keys of a list of groups. */
  ghost function KeySet(groups: seq<Grouping>): (keys: set<int>)
  {
    set i | 0 <= i < |groups| :: groups[i].key
  }

  /** Appending a trade period adds its index to the set of indices. */
  lemma PeriodSetSnoc(front: seq<PowerPeriod>, p: PowerPeriod)
    ensures PeriodSet(front + [p]) == PeriodSet(front) + {p.period}
  {
    var ps := front + [p];
    forall x | x in PeriodSet(ps) ensures x in PeriodSet(front) + {p.period} {
      var m :| 0 <= m < |ps| && ps[m].period == x;
      if m < |front| { assert front[m].period == x; }
    }
    forall x | x in PeriodSet(front) ensures x in PeriodSet(ps) {
      var m :| 0 <= m < |front| && front[m].period == x;
      assert ps[m].period == x;
    }
    assert ps[|front|].period == p.period;
  }

  /** Opening a group adds its key to the set of keys. */
  lemma KeySetAppend(groups: seq<Grouping>, g: Grouping)
    ensures KeySet(groups + [g]) == KeySet(groups) + {g.key}
  {
    var result := groups + [g];
    forall x | x in KeySet(result) ensures x in KeySet(groups) + {g.key} {
      var i :| 0 <= i < |result| && result[i].key == x;
      if i < |groups| { assert groups[i].key == x; }
    }
    forall x | x in KeySet(groups) ensures x in KeySet(result) {
      var i :| 0 <= i < |groups| && groups[i].key == x;
      assert result[i].key == x;
    }
    assert result[|groups|].key == g.key;
  }

  /** Replacing a group by one with the same key keeps the set of keys. */
  lemma KeySetUpdate(groups: seq<Grouping>, j: int, g: Grouping)
    requires 0 <= j < |groups| && groups[j].key == g.key
    ensures KeySet(groups[j := g]) == KeySet(groups)
  {
    var result := groups[j := g];
    forall x | x in KeySet(result) ensures x in KeySet(groups) {
      var i :| 0 <= i < |result| && result[i].key == x;
      assert groups[i].key == x;
    }
    forall x | x in KeySet(groups) ensures x in KeySet(result) {
      var i :| 0 <= i < |groups| && groups[i].key == x;
      assert result[i].key == x;
    }
  }

  /**
   The groups of ps: each holds exactly the trade periods of ps with its key, in
   their order; no key appears twice; the keys are the indices that occur in ps.
   */
  ghost predicate GroupsOf(groups: seq<Grouping>, ps: seq<PowerPeriod>)
  {
    && (forall i :: 0 <= i < |groups| ==> groups[i].elements == Filter(ps, groups[i].key))
    && (forall i, j :: 0 <= i < j < |groups| ==> groups[i].key != groups[j].key)
    && KeySet(groups) == PeriodSet(ps)
  }

  /** A period whose index has no group yet opens a new group at the end. */
  lemma AddToNewGroup(groups: seq<Grouping>, front: seq<PowerPeriod>, p: PowerPeriod)
    requires GroupsOf(groups, front)
    requires FindGroup(groups, p.period) < 0
    ensures GroupsOf(AddToGroups(groups, p), front + [p])
  {
    var ps := front + [p];
    var g := Grouping(p.period, [p]);
    var result := AddToGroups(groups, p);
    assert result == groups + [g];
    assert p.period !in KeySet(groups);
    FilterAbsent(front, p.period);
    KeySetAppend(groups, g);
    PeriodSetSnoc(front, p);
    forall i | 0 <= i < |result| ensures result[i].elements == Filter(ps, result[i].key) {
      FilterConcat(front, [p], result[i].key);
      if i < |groups| { assert result[i] == groups[i]; }
    }
  }

  /** A period whose index has a group joins it at the end. */
  lemma AddToExistingGroup(groups: seq<Grouping>, front: seq<PowerPeriod>, p: PowerPeriod)
    requires GroupsOf(groups, front)
    requires 0 <= FindGroup(groups, p.period)
    ensures GroupsOf(AddToGroups(groups, p), front + [p])
  {
    var ps := front + [p];
    var j := FindGroup(groups, p.period);
    var g := Grouping(p.period, groups[j].elements + [p]);
    var result := AddToGroups(groups, p);
    assert result == groups[j := g];
    KeySetUpdate(groups, j, g);
    assert p.period in KeySet(groups);
    PeriodSetSnoc(front, p);
    forall i | 0 <= i < |result| ensures result[i].elements == Filter(ps, result[i].key) {
      FilterConcat(front, [p], result[i].key);
      if i != j { assert result[i] == groups[i]; }
    }
  }

  /**
   GroupByPeriod puts every trade period with index k, and only those, into the
   one group with key k, and has a group for exactly the indices that occur.
   */
  lemma {:induction false} GroupByPeriodCorrect(ps: seq<PowerPeriod>)
    ensures var groups := GroupByPeriod(ps);
      && (forall i :: 0 <= i < |groups| ==> groups[i].elements == Filter(ps, groups[i].key))
      && (forall i, j :: 0 <= i < j < |groups| ==> groups[i].key != groups[j].key)
      && KeySet(groups) == PeriodSet(ps)
  {
    if |ps| != 0 {
      var front, p := ps[..|ps| - 1], ps[|ps| - 1];
      assert ps == front + [p];
      GroupByPeriodCorrect(front);
      var groups := GroupByPeriod(front);
      if FindGroup(groups, p.period) < 0 {
        AddToNewGroup(groups, front, p);
      } else {
        AddToExistingGroup(groups, front, p);
      }
    }
  }

  /**
   The aggregation promise of GenerateDataAsync: the result carries the requested
   date; every entry's volume is the sum, over all trades, of the volumes of the
   trade periods with that entry's index; no index appears twice; and an index
   appears exactly when some trade has a period with it (absent, not zero, otherwise).
   */
  lemma GenerateDataAggregates(date: DateTime, trades: seq<PowerTrade>)
    ensures var r := GenerateData(date, Trades(trades));
      && r.Ok?
      && r.value.timeStamp == date
      && (forall i :: 0 <= i < |r.value.aggregations| ==>
            r.value.aggregations[i].aggregatedVolume == TradeTotal(trades, r.value.aggregations[i].period))
      && (forall i, j :: 0 <= i < j < |r.value.aggregations| ==>
            r.value.aggregations[i].period != r.value.aggregations[j].period)
      && (forall k :: k in AggregatedPeriods(r.value.aggregations) <==> Occurs(trades, k))
  {
    var ps := Flatten(trades);
    var groups := GroupByPeriod(ps);
    var aggs := Aggregate(ps);
    GroupByPeriodCorrect(ps);
    forall i | 0 <= i < |aggs| ensures aggs[i].aggregatedVolume == TradeTotal(trades, aggs[i].period) {
      FlattenTotal(trades, groups[i].key);
    }
    forall k ensures k in AggregatedPeriods(aggs) <==> Occurs(trades, k) {
      FlattenOccurs(trades, k);
      if k in KeySet(groups) {
        var i :| 0 <= i < |groups| && groups[i].key == k;
        assert aggs[i].period == k;
      }
      if k in AggregatedPeriods(aggs) {
        var i :| 0 <= i < |aggs| && aggs[i].period == k;
        assert groups[i].key == k;
      }
    }
  }

  /**
   The aggregation is empty exactly when no trade has any period; in particular
   an empty trade collection succeeds with no aggregations.
   */
  lemma GenerateDataEmpty(date: DateTime, trades: seq<PowerTrade>)
    ensures var r := GenerateData(date, Trades(trades));
      r.Ok? && (r.value.aggregations == [] <==> forall t :: 0 <= t < |trades| ==> trades[t].periods == [])
  {
    GenerateDataAggregates(date, trades);
    var aggs := GenerateData(date, Trades(trades)).value.aggregations;
    if aggs != [] {
      assert aggs[0].period in AggregatedPeriods(aggs);
    }
    if exists t :: 0 <= t < |trades| && trades[t].periods != [] {
      var t :| 0 <= t < |trades| && trades[t].periods != [];
      assert Occurs(trades, trades[t].periods[0].period);
    } else {
      forall k ensures k !in AggregatedPeriods(aggs) {
        assert !Occurs(trades, k);
      }
    }
  }

  /** A trade of the tests: periods 1 to 4, each with a volume equal to its index. */
  function IndexVolumeTrade(date: DateTime): (t: PowerTrade)
  {
    PowerTrade(date, [PowerPeriod(1, 1.0), PowerPeriod(2, 2.0), PowerPeriod(3, 3.0), PowerPeriod(4, 4.0)])
  }

  /** When only ps[i] carries index k, filtering by k leaves just ps[i]. */
  lemma {:induction false} FilterSingle(ps: seq<PowerPeriod>, i: int, k: int)
    requires 0 <= i < |ps| && ps[i].period == k
    requires forall m :: 0 <= m < |ps| && m != i ==> ps[m].period != k
    ensures Filter(ps, k) == [ps[i]]
  {
    if i == 0 {
      assert k !in PeriodSet(ps[1..]) by {
        forall x | x in PeriodSet(ps[1..]) ensures x != k {
          var m :| 0 <= m < |ps[1..]| && ps[1..][m].period == x;
          assert ps[m + 1].period == x;
        }
      }
      FilterAbsent(ps[1..], k);
    } else {
      FilterSingle(ps[1..], i - 1, k);
    }
  }

  /** In the test trade, only the period with index k carries k, with volume k. */
  lemma IndexVolumeFilter(date: DateTime, k: int)
    requires 1 <= k <= 4
    ensures Filter(IndexVolumeTrade(date).periods, k) == [PowerPeriod(k, k as real)]
  {
    var ps := IndexVolumeTrade(date).periods;
    assert ps[0].period == 1 && ps[1].period == 2 && ps[2].period == 3 && ps[3].period == 4;
    FilterSingle(ps, k - 1, k);
  }

  /** Two test trades give each of their periods k the total 2k. */
  lemma IndexVolumeTradeTotal(date: DateTime, k: int)
    requires 1 <= k <= 4
    ensures TradeTotal([IndexVolumeTrade(date), IndexVolumeTrade(date)], k) == 2.0 * k as real
  {
    var t := IndexVolumeTrade(date);
    var one := [PowerPeriod(k, k as real)];
    IndexVolumeFilter(date, k);
    assert SumVolumes(one) == k as real by {
      assert one[..0] == [];
    }
    assert TradeTotal([t], k) == k as real by {
      assert [t][1..] == [];
    }
    assert [t, t][1..] == [t];
  }

  /**
   The scenario of the tests: two such trades aggregate to the indices 1 to 4,
   each with twice its index as volume (2, 4, 6, 8), in whatever order.
   */
  lemma GenerateDataTwoTrades(date: DateTime)
    ensures var r := GenerateData(date, Trades([IndexVolumeTrade(date), IndexVolumeTrade(date)]));
      && r.Ok?
      && (forall i :: 0 <= i < |r.value.aggregations| ==>
            r.value.aggregations[i].aggregatedVolume == 2.0 * r.value.aggregations[i].period as real)
      && AggregatedPeriods(r.value.aggregations) == {1, 2, 3, 4}
  {
    var t := IndexVolumeTrade(date);
    var trades := [t, t];
    GenerateDataAggregates(date, trades);
    forall k ensures Occurs(trades, k) <==> 1 <= k <= 4 {
      if 1 <= k <= 4 {
        assert trades[0].periods[k - 1].period == k;
      }
    }
    var aggs := GenerateData(date, Trades(trades)).value.aggregations;
    forall i | 0 <= i < |aggs| ensures aggs[i].period in AggregatedPeriods(aggs) {
    }
    forall k | 1 <= k <= 4 ensures TradeTotal(trades, k) == 2.0 * k as real {
      IndexVolumeTradeTotal(date, k);
    }
  }

  // ---------------------------------------------------------------------------
  // TransformAggregatedPowerPeriod: period index -> "HH:00"
  // ---------------------------------------------------------------------------

  predicate IsDigit(c: char)
  {
    '0' <= c <= '9'
  }

  predicate AllDigits(s: string)
  {
    forall i :: 0 <= i < |s| ==> IsDigit(s[i])
  }

  function DigitChar(d: nat): (c: char)
    requires d < 10
    ensures IsDigit(c)
  {
    ('0' as int + d) as char
  }

  /** The decimal text of a non-negative integer, without leading zeros (int.ToString()). */
  function DecimalText(n: nat): (s: string)
    ensures AllDigits(s)
    ensures |s| == 1 <==> n < 10
    ensures n < 100 ==> |s| <= 2
    ensures 1 <= |s|
    ensures 10 <= n ==> s[0] != '0'
  {
    if n < 10 then [DigitChar(n)] else DecimalText(n / 10) + [DigitChar(n % 10)]
  }

  /** The "00" custom format: at least two digits, padded with a leading zero. */
  function TwoDigitText(n: nat): (s: string)
    ensures AllDigits(s) && ParseDecimal(s) == n
    ensures 2 <= |s|
    ensures n < 100 ==> |s| == 2
    ensures s[0] == '0' <==> n < 10
  {
    DecimalTextRoundTrip(n);
    if n < 10 then LeadingZero(DecimalText(n)); "0" + DecimalText(n) else DecimalText(n)
  }

  /**
   TransformAggregatedPowerPeriod: period 1 (and any smaller index) is the hour
   starting at 23:00 of the previous day; every later period p is hour p - 2.
   */
  function PeriodLabel(period: int): (text: string)
    ensures |text| >= 5 && text[|text| - 3..] == ":00"
    ensures period <= 1 ==> text == "23:00"
  {
    var hour: nat := if period > 1 then period - 2 else 23;
    TwoDigitText(hour) + ":00"
  }

  /** The value of a string of decimal digits, read from left to right. */
  function ParseDecimal(s: string): (n: nat)
    requires AllDigits(s)
  {
    if |s| == 0 then 0 else ParseDecimal(s[..|s| - 1]) * 10 + (s[|s| - 1] as int - '0' as int)
  }

  lemma {:induction false} DecimalTextRoundTrip(n: nat)
    ensures ParseDecimal(DecimalText(n)) == n
  {
    if n >= 10 {
      var s := DecimalText(n);
      assert s[..|s| - 1] == DecimalText(n / 10);
      DecimalTextRoundTrip(n / 10);
    }
  }

  lemma {:induction false} LeadingZero(t: string)
    requires AllDigits(t)
    ensures AllDigits("0" + t) && ParseDecimal("0" + t) == ParseDecimal(t)
  {
    if |t| != 0 {
      var s := "0" + t;
      assert s[..|s| - 1] == "0" + t[..|t| - 1];
      LeadingZero(t[..|t| - 1]);
    }
  }

  /**
   The period label rule: the label is a zero-padded hour of at least two digits
   followed by ":00"; the hour is 23 for period 1 and below, and period - 2 for
   later periods, with no wrap-around at 24.
   */
  lemma PeriodLabelMeaning(period: int)
    ensures var text := PeriodLabel(period);
      && |text| >= 5
      && text[|text| - 3..] == ":00"
      && AllDigits(text[..|text| - 3])
      && (period <= 1 ==> text == "23:00")
      && (period > 1 ==> ParseDecimal(text[..|text| - 3]) == period - 2)
      && (1 < period < 12 ==> text[0] == '0')
      && (12 <= period ==> text[0] != '0')
      && (period < 102 ==> |text| == 5)
  {
    var text := PeriodLabel(period);
    var hour: nat := if period > 1 then period - 2 else 23;
    var hh := TwoDigitText(hour);
    assert text[..|text| - 3] == hh;
    DecimalTextRoundTrip(hour);
    if hour < 10 {
      LeadingZero(DecimalText(hour));
    }
  }

  /** Two periods after the first have the same label only if they are the same period. */
  lemma PeriodLabelInjective(p: int, q: int)
    requires 1 < p && 1 < q
    requires PeriodLabel(p) == PeriodLabel(q)
    ensures p == q
  {
    PeriodLabelMeaning(p);
    PeriodLabelMeaning(q);
  }

  /** The labels of the periods used by the tests. */
  lemma PeriodLabelExamples()
    ensures PeriodLabel(1) == "23:00"
    ensures PeriodLabel(2) == "00:00"
    ensures PeriodLabel(5) == "03:00"
    ensures PeriodLabel(20) == "18:00"
  {
    assert DecimalText(18) == DecimalText(1) + ['8'];
  }

  /** Periods past 24 are not wrapped: they go on counting hours. */
  lemma PeriodLabelPast24()
    ensures PeriodLabel(25) == "23:00"
    ensures PeriodLabel(26) == "24:00"
  {
    assert DecimalText(23) == DecimalText(2) + ['3'];
    assert DecimalText(24) == DecimalText(2) + ['4'];
  }

  // ---------------------------------------------------------------------------
  // PrepareDataForCsvExportAsync
  // ---------------------------------------------------------------------------

  /** The report file name: "PowerPosition_<date>_<time>.csv" from the time stamp. */
  function ReportFileName(stamp: DateTime, formats: TextFormats): (name: string)
    ensures |name| >= 19
    ensures name[..14] == "PowerPosition_"
    ensures name[|name| - 4..] == ".csv"
  {
    "PowerPosition_" + formats.stampDate(stamp) + "_" + formats.stampTime(stamp) + ".csv"
  }

  /**
   PrepareDataForCsvExportAsync: always succeeds; the record keeps the export
   path, names the file after the time stamp, has the headers [Local Time, Volume],
   and a grid of one row per aggregation, in input order, holding the period
   label and the formatted volume.
   */
  method PrepareDataForCsvExport(trade: AggregatedPowerTrade, exportPath: string, formats: TextFormats)
    returns (r: Result<ReportFile>)
    ensures r.Ok?
    ensures r.value.filePath == exportPath
    ensures r.value.fileName == ReportFileName(trade.timeStamp, formats)
    ensures r.value.headers == [LocalTimeHeader, VolumeHeader]
    ensures fresh(r.value.tabularData)
    ensures r.value.tabularData.Length0 == |trade.aggregations| && r.value.tabularData.Length1 == 2
    ensures forall i :: 0 <= i < |trade.aggregations| ==>
      && r.value.tabularData[i, 0] == PeriodLabel(trade.aggregations[i].period)
      && r.value.tabularData[i, 1] == formats.volumeN2(trade.aggregations[i].aggregatedVolume)
  {
    var aggregations := trade.aggregations;
    var aggregationsLength := |aggregations|;
    var tabularData := new string[aggregationsLength, 2];
    var result := ReportFile(exportPath, ReportFileName(trade.timeStamp, formats),
                             [LocalTimeHeader, VolumeHeader], tabularData);
    for i := 0 to aggregationsLength
      invariant forall k :: 0 <= k < i ==>
        && tabularData[k, 0] == PeriodLabel(aggregations[k].period)
        && tabularData[k, 1] == formats.volumeN2(aggregations[k].aggregatedVolume)
    {
      var aggregation := aggregations[i];
      tabularData[i, 0] := PeriodLabel(aggregation.period);
      tabularData[i, 1] := formats.volumeN2(aggregation.aggregatedVolume);
    }
    r := Ok(result);
  }
}
