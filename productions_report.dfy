/** `ProductionsReport.parse`: the day list and the day-to-productions map
    the report template is filled from. */
module ProductionsReport {
  import opened Productions
  import opened Grouping
  import ReportWizard

  /** Every day from start to end inclusive, one day apart; no day when the
      end comes before the start. */
  function DaysBetween(start: int, end: int): (dates: seq<int>)
    ensures |dates| == if start <= end then end - start + 1 else 0
    ensures forall d :: d in dates <==> start <= d <= end
    ensures forall i :: 0 < i < |dates| ==> dates[i] == dates[i - 1] + 1
    ensures forall i, j :: 0 <= i < j < |dates| ==> dates[i] < dates[j]
    ensures |dates| > 0 ==> dates[0] == start && dates[|dates| - 1] == end
  {
    var n := end - start + 1;
    var dates := seq(if n > 0 then n else 0, i => start + i);
    assert forall d :: start <= d <= end ==> d in dates by {
      forall d | start <= d <= end ensures d in dates {
        assert dates[d - start] == d;
      }
    }
    dates
  }

  /** `dict.fromkeys(dates, [])`: every day mapped to an empty list. */
  function EmptyBuckets(dates: seq<int>): map<int, seq<Production>> {
    map d | d in dates :: []
  }

  datatype Report = Report(productionsByDate: map<int, seq<Production>>, dates: seq<int>)

  /** Query, day list, grouping, and the grouped map laid over the empty
      buckets (`dict.update`: the grouped value wins on a shared day). */
  function Parse(records: seq<Production>, start: int, end: int): Report {
    var found := Search(records, start, end);
    var dates := DaysBetween(start, end);
    Report(EmptyBuckets(dates) + GroupedByDate(found), dates)
  }

  /** The map has exactly the listed days as keys, and under each day the
      records the query returned for that day, in the query's order (empty
      when there are none). */
  lemma ParseBuckets(records: seq<Production>, start: int, end: int)
    ensures var r := Parse(records, start, end);
      && (forall d :: d in r.productionsByDate <==> d in r.dates)
      && (forall d :: d in r.productionsByDate ==>
            r.productionsByDate[d] == OnDate(Search(records, start, end), d))
  {
    var found := Search(records, start, end);
    GroupedByDateSpec(found);
    DatesWithin(found, start, end);
    OverlayBuckets(DaysBetween(start, end), GroupedByDate(found), found);
  }

  /** Laying the grouped map over the empty buckets of the listed days gives
      every listed day the records of that day, when the grouped map is keyed
      by days among the listed ones. */
  lemma OverlayBuckets(dates: seq<int>, grouped: map<int, seq<Production>>, found: seq<Production>)
    requires grouped.Keys == DatesOf(found)
    requires forall d :: d in grouped ==> grouped[d] == OnDate(found, d)
    requires forall d :: d in DatesOf(found) ==> d in dates
    ensures forall d :: d in EmptyBuckets(dates) + grouped <==> d in dates
    ensures forall d :: d in EmptyBuckets(dates) + grouped ==>
      (EmptyBuckets(dates) + grouped)[d] == OnDate(found, d)
  {
    forall d | d in dates && d !in grouped
      ensures (EmptyBuckets(dates) + grouped)[d] == OnDate(found, d)
    {
      OnDateEmpty(found, d);
    }
  }

  /** A record is in the bucket of day d exactly when the store holds it,
      it is planned for d, d lies in the window and its state is not
      excluded; so each reported record is in one bucket only. */
  lemma ParseMembership(records: seq<Production>, start: int, end: int, p: Production, d: int)
    ensures var m := Parse(records, start, end).productionsByDate;
      d in m && p in m[d] <==> p in records && InReport(p, start, end) && p.plannedDate == d
  {
    ParseBuckets(records, start, end);
    OnDateMembers(Search(records, start, end), d);
  }

  /** Each bucket lists its records in the order the store returned them. */
  lemma ParseKeepsOrder(records: seq<Production>, start: int, end: int, d: int)
    requires start <= d <= end
    ensures d in Parse(records, start, end).productionsByDate
    ensures IsSubsequence(Parse(records, start, end).productionsByDate[d], records)
  {
    var found := Search(records, start, end);
    ParseBuckets(records, start, end);
    OnDateKeepsOrder(found, d);
    SearchKeepsOrder(records, start, end);
    SubsequenceTransitive(OnDate(found, d), found, records);
  }

  /** The sizes of the buckets, taken day by day along `dates`. */
  function BucketTotal(m: map<int, seq<Production>>, dates: seq<int>): nat
    requires forall i :: 0 <= i < |dates| ==> dates[i] in m
  {
    if dates == [] then 0
    else
      |m[dates[0]]| + BucketTotal(m, dates[1..])
  }

  /** How many times `v` occurs in `ds`. */
  function Occurrences(ds: seq<int>, v: int): nat {
    if ds == [] then 0 else (if ds[0] == v then 1 else 0) + Occurrences(ds[1..], v)
  }

  function SumOnDates(s: seq<Production>, ds: seq<int>): nat {
    if ds == [] then 0 else |OnDate(s, ds[0])| + SumOnDates(s, ds[1..])
  }

  lemma {:induction false} SumOnDatesCons(x: Production, s: seq<Production>, ds: seq<int>)
    ensures SumOnDates([x] + s, ds) == SumOnDates(s, ds) + Occurrences(ds, x.plannedDate)
  {
    if ds != [] {
      SumOnDatesCons(x, s, ds[1..]);
      assert ([x] + s)[1..] == s;
    }
  }

  lemma {:induction false} SumOnDatesEmpty(ds: seq<int>)
    ensures SumOnDates([], ds) == 0
  {
    if ds != [] {
      SumOnDatesEmpty(ds[1..]);
    }
  }

  lemma {:induction false} OccursOnce(ds: seq<int>, v: int)
    requires forall i, j :: 0 <= i < j < |ds| ==> ds[i] < ds[j]
    requires v in ds
    ensures Occurrences(ds, v) == 1
  {
    if ds[0] == v {
      assert v !in ds[1..] by {
        forall k | 0 <= k < |ds[1..]| ensures ds[1..][k] != v {
          assert ds[1..][k] == ds[k + 1];
        }
      }
      OccursNot(ds[1..], v);
    } else {
      OccursOnce(ds[1..], v);
    }
  }

  lemma {:induction false} OccursNot(ds: seq<int>, v: int)
    requires v !in ds
    ensures Occurrences(ds, v) == 0
  {
    if ds != [] {
      OccursNot(ds[1..], v);
    }
  }

  /** Summed over ascending days that cover every record, the per-day counts
      add up to the number of records. */
  lemma {:induction false} SumOnCoveringDates(s: seq<Production>, ds: seq<int>)
    requires forall i, j :: 0 <= i < j < |ds| ==> ds[i] < ds[j]
    requires forall p :: p in s ==> p.plannedDate in ds
    ensures SumOnDates(s, ds) == |s|
  {
    if s == [] {
      SumOnDatesEmpty(ds);
    } else {
      assert s == [s[0]] + s[1..];
      SumOnCoveringDates(s[1..], ds);
      SumOnDatesCons(s[0], s[1..], ds);
      OccursOnce(ds, s[0].plannedDate);
    }
  }

  lemma {:induction false} BucketTotalIsSum(m: map<int, seq<Production>>, s: seq<Production>, ds: seq<int>)
    requires forall i :: 0 <= i < |ds| ==> ds[i] in m && m[ds[i]] == OnDate(s, ds[i])
    ensures BucketTotal(m, ds) == SumOnDates(s, ds)
  {
    if ds != [] {
      BucketTotalIsSum(m, s, ds[1..]);
    }
  }

  lemma BucketTotalOfCover(m: map<int, seq<Production>>, dates: seq<int>, found: seq<Production>)
    requires forall i, j :: 0 <= i < j < |dates| ==> dates[i] < dates[j]
    requires forall d :: d in m <==> d in dates
    requires forall d :: d in m ==> m[d] == OnDate(found, d)
    requires forall p :: p in found ==> p.plannedDate in dates
    ensures forall i :: 0 <= i < |dates| ==> dates[i] in m
    ensures BucketTotal(m, dates) == |found|
  {
    forall i | 0 <= i < |dates|
      ensures dates[i] in m && m[dates[i]] == OnDate(found, dates[i])
    {
      assert dates[i] in dates;
    }
    BucketTotalIsSum(m, found, dates);
    SumOnCoveringDates(found, dates);
  }

  /** No record is lost or counted twice: the bucket sizes, day by day, add
      up to the number of records the query returned. */
  lemma ParseCount(records: seq<Production>, start: int, end: int)
    ensures var r := Parse(records, start, end);
      (forall i :: 0 <= i < |r.dates| ==> r.dates[i] in r.productionsByDate)
      && BucketTotal(r.productionsByDate, r.dates) == |Search(records, start, end)|
  {
    var r := Parse(records, start, end);
    var found := Search(records, start, end);
    ParseBuckets(records, start, end);
    assert r.dates == DaysBetween(start, end);
    BucketTotalOfCover(r.productionsByDate, r.dates, found);
  }

  lemma DaysOfFirstJuneWeek()
    ensures DaysBetween(739040, 739045) == [739040, 739041, 739042, 739043, 739044, 739045]
  {
    var dates := DaysBetween(739040, 739045);
    assert dates[0] == 739040;
    assert dates[1] == dates[0] + 1;
    assert dates[2] == dates[1] + 1;
    assert dates[3] == dates[2] + 1;
    assert dates[4] == dates[3] + 1;
    assert dates[5] == dates[4] + 1;
  }

  /** A week from Monday 2024-06-03 (ordinal 739040) to Saturday 2024-06-08
      with one finished production on Wednesday 2024-06-05: that day holds
      it and the other five days are empty. */
  lemma OneProductionWeek(p: Production, start: int, end: int)
    requires p == Production(1, 739042, "done") && start == 739040 && end == 739045
    ensures var r := Parse([p], start, end);
      && r.dates == [739040, 739041, 739042, 739043, 739044, 739045]
      && (forall d :: d in r.productionsByDate <==> start <= d <= end)
      && r.productionsByDate[739042] == [p]
      && forall d :: d in r.productionsByDate && d != 739042 ==> r.productionsByDate[d] == []
  {
    DaysOfFirstJuneWeek();
    assert Search([p], start, end) == [p] by {
      assert InReport(p, start, end);
      assert [p][1..] == [];
    }
    ParseBuckets([p], start, end);
    var m := Parse([p], start, end).productionsByDate;
    forall d | d in m ensures m[d] == (if d == 739042 then [p] else []) {
      assert m[d] == OnDate([p], d);
      assert [p][1..] == [];
    }
  }

  /** The report the wizard launches covers exactly the days of its start
      view: the parameters it passes are the ones `parse` looks up. */
  lemma WizardLaunchesReport<A>(view: ReportWizard.StartView, action: A, records: seq<Production>)
    ensures var run := ReportWizard.RunWizard(view, ReportWizard.GenerateButton, action);
      && |run.launched| == 1
      && "start_date" in run.launched[0].1 && "end_date" in run.launched[0].1
      && Parse(records, run.launched[0].1["start_date"], run.launched[0].1["end_date"]).dates
         == DaysBetween(view.startDate, view.endDate)
  {
    var run := ReportWizard.RunWizard(view, ReportWizard.GenerateButton, action);
    assert run.launched[0] in run.launched;
  }

  /** The render context the template reads; values of other kinds are not
      part of this model. */
  datatype ContextValue =
    | ProductionsByDate(buckets: map<int, seq<Production>>)
    | Dates(days: seq<int>)
    | Unmodelled(description: string)

  class LocalContext {
    var entries: map<string, ContextValue>

    constructor (initial: map<string, ContextValue>)
      ensures entries == initial
    {
      entries := initial;
    }
  }

  /** A `parse` call either fills the context or stops on the first report
      parameter it cannot find. */
  datatype ParseOutcome = Parsed | KeyError(key: string)

  /** The part of `ProductionsReport.parse` before rendering: looks up the
      report parameters, and adds the bucket map and the day list to the
      caller's context in place. */
  method ParseInto(records: seq<Production>, data: map<string, int>, localcontext: LocalContext)
    returns (outcome: ParseOutcome)
    modifies localcontext
    ensures "start_date" !in data ==>
      outcome == KeyError("start_date") && localcontext.entries == old(localcontext.entries)
    ensures "start_date" in data && "end_date" !in data ==>
      outcome == KeyError("end_date") && localcontext.entries == old(localcontext.entries)
    ensures "start_date" in data && "end_date" in data ==>
      var r := Parse(records, data["start_date"], data["end_date"]);
      && outcome == Parsed
      && localcontext.entries == old(localcontext.entries)
           ["productions_by_date" := ProductionsByDate(r.productionsByDate)]
           ["dates" := Dates(r.dates)]
  {
    if "start_date" !in data {
      return KeyError("start_date");
    }
    if "end_date" !in data {
      return KeyError("end_date");
    }
    var r := Parse(records, data["start_date"], data["end_date"]);
    localcontext.entries := localcontext.entries
      ["productions_by_date" := ProductionsByDate(r.productionsByDate)]
      ["dates" := Dates(r.dates)];
    outcome := Parsed;
  }
}
