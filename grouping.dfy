/** The three Python building blocks that `ProductionsReport.parse` groups
    with, applied to productions keyed by their planned date: `sorted`
    (a stable sort), `itertools.groupby` (maximal runs of equal keys) and
    `dict` over (key, list) pairs (a later pair overrides an earlier one). */
module Grouping {
  import opened Productions

  predicate SortedByDate(s: seq<Production>) {
    forall i, j :: 0 <= i < j < |s| ==> s[i].plannedDate <= s[j].plannedDate
  }

  lemma SortedTail(s: seq<Production>)
    requires SortedByDate(s) && s != []
    ensures SortedByDate(s[1..])
    ensures forall p :: p in s[1..] ==> s[0].plannedDate <= p.plannedDate
  {
    forall p | p in s[1..] ensures s[0].plannedDate <= p.plannedDate {
      var k :| 0 <= k < |s[1..]| && s[1..][k] == p;
      assert s[k + 1] == p;
    }
  }

  /** A record planned no later than every record of a sorted sequence can
      head it. */
  lemma LowerBoundSorted(y: Production, s: seq<Production>)
    requires SortedByDate(s)
    requires forall z :: z in s ==> y.plannedDate <= z.plannedDate
    ensures SortedByDate([y] + s)
  {
    forall i, j | 0 <= i < j < |[y] + s|
      ensures ([y] + s)[i].plannedDate <= ([y] + s)[j].plannedDate
    {
      if i == 0 {
        assert ([y] + s)[j] == s[j - 1];
        assert s[j - 1] in s;
      } else {
        assert ([y] + s)[i] == s[i - 1] && ([y] + s)[j] == s[j - 1];
      }
    }
  }

  /** Puts `x` before the first record of `s` that is not planned earlier. */
  function Insert(x: Production, s: seq<Production>): seq<Production> {
    if s == [] then [x]
    else if x.plannedDate <= s[0].plannedDate then [x] + s
    else [s[0]] + Insert(x, s[1..])
  }

  /** `sorted(s, key=planned_date)`, as an insertion sort. */
  function SortByDate(s: seq<Production>): seq<Production> {
    if s == [] then [] else Insert(s[0], SortByDate(s[1..]))
  }

  lemma {:induction false} InsertPermutes(x: Production, s: seq<Production>)
    ensures multiset(Insert(x, s)) == multiset(s) + multiset{x}
  {
    if s != [] && x.plannedDate > s[0].plannedDate {
      InsertPermutes(x, s[1..]);
      assert s == [s[0]] + s[1..];
    }
  }

  lemma {:induction false} InsertSorted(x: Production, s: seq<Production>)
    requires SortedByDate(s)
    ensures SortedByDate(Insert(x, s))
  {
    if s != [] && x.plannedDate > s[0].plannedDate {
      SortedTail(s);
      InsertSorted(x, s[1..]);
      var rest := Insert(x, s[1..]);
      forall z | z in rest ensures s[0].plannedDate <= z.plannedDate {
        InsertPermutes(x, s[1..]);
        assert z in multiset(rest);
      }
      LowerBoundSorted(s[0], rest);
    } else if s != [] {
      LowerBoundSorted(x, s);
    }
  }

  /** The result of `sorted` is ordered by date and is a permutation of the
      input. */
  lemma {:induction false} SortByDateSortsAndPermutes(s: seq<Production>)
    ensures SortedByDate(SortByDate(s))
    ensures multiset(SortByDate(s)) == multiset(s)
  {
    if s != [] {
      SortByDateSortsAndPermutes(s[1..]);
      InsertSorted(s[0], SortByDate(s[1..]));
      InsertPermutes(s[0], SortByDate(s[1..]));
      assert s == [s[0]] + s[1..];
    }
  }

  lemma {:induction false} InsertOnDate(x: Production, s: seq<Production>, d: int)
    requires SortedByDate(s)
    ensures OnDate(Insert(x, s), d) == (if x.plannedDate == d then [x] else []) + OnDate(s, d)
  {
    var own := if x.plannedDate == d then [x] else [];
    if s == [] {
      assert [x][1..] == [];
    } else if x.plannedDate <= s[0].plannedDate {
      assert ([x] + s)[1..] == s;
    } else {
      var y, s' := s[0], s[1..];
      SortedTail(s);
      var rest := Insert(x, s');
      var head := if y.plannedDate == d then [y] else [];
      assert Insert(x, s) == [y] + rest;
      assert OnDate(rest, d) == own + OnDate(s', d) by {
        InsertOnDate(x, s', d);
      }
      assert OnDate([y] + rest, d) == head + OnDate(rest, d) by {
        assert ([y] + rest)[1..] == rest;
      }
      assert OnDate(s, d) == head + OnDate(s', d);
      if y.plannedDate == d {
        assert own == [];
      } else {
        assert head == [];
      }
    }
  }

  /** The sort is stable: the records of any one day keep their order. */
  lemma {:induction false} SortByDateIsStable(s: seq<Production>, d: int)
    ensures OnDate(SortByDate(s), d) == OnDate(s, d)
  {
    if s != [] {
      SortByDateIsStable(s[1..], d);
      SortByDateSortsAndPermutes(s[1..]);
      InsertOnDate(s[0], SortByDate(s[1..]), d);
    }
  }

  /** One group yielded by `groupby`, with its iterator drawn into a list. */
  datatype Group = Group(date: int, members: seq<Production>)

  function Concat(gs: seq<Group>): seq<Production> {
    if gs == [] then [] else gs[0].members + Concat(gs[1..])
  }

  /** `gs` cuts `s` into maximal runs of one planned date: the groups put
      back together give `s`, every group is non-empty and all of one date,
      and neighbouring groups have different dates. */
  predicate IsRuns(s: seq<Production>, gs: seq<Group>) {
    && Concat(gs) == s
    && (forall i :: 0 <= i < |gs| ==>
          gs[i].members != [] && forall p :: p in gs[i].members ==> p.plannedDate == gs[i].date)
    && (forall i :: 0 < i < |gs| ==> gs[i - 1].date != gs[i].date)
    && (s != [] ==> |gs| > 0 && gs[0].date == s[0].plannedDate)
  }

  lemma ExtendFirstRun(x: Production, r: seq<Production>, rest: seq<Group>)
    requires IsRuns(r, rest) && rest != [] && rest[0].date == x.plannedDate
    ensures IsRuns([x] + r, [Group(x.plannedDate, [x] + rest[0].members)] + rest[1..])
  {
    var gs := [Group(x.plannedDate, [x] + rest[0].members)] + rest[1..];
    assert Concat(rest) == rest[0].members + Concat(rest[1..]);
    assert gs[1..] == rest[1..];
    assert forall i :: 0 < i < |gs| ==> gs[i] == rest[i];
  }

  lemma StartNewRun(x: Production, r: seq<Production>, rest: seq<Group>)
    requires IsRuns(r, rest) && (rest != [] ==> rest[0].date != x.plannedDate)
    ensures IsRuns([x] + r, [Group(x.plannedDate, [x])] + rest)
  {
    var gs := [Group(x.plannedDate, [x])] + rest;
    assert gs[1..] == rest;
    assert forall i :: 0 < i < |gs| ==> gs[i] == rest[i - 1];
  }

  /** `groupby(s, key=planned_date)`: `s` cut into maximal runs of records
      planned on the same day. */
  function GroupBy(s: seq<Production>): (gs: seq<Group>)
    ensures IsRuns(s, gs)
  {
    if s == [] then []
    else
      var rest := GroupBy(s[1..]);
      assert s == [s[0]] + s[1..];
      if rest != [] && rest[0].date == s[0].plannedDate then
        ExtendFirstRun(s[0], s[1..], rest);
        [Group(s[0].plannedDate, [s[0]] + rest[0].members)] + rest[1..]
      else
        StartNewRun(s[0], s[1..], rest);
        [Group(s[0].plannedDate, [s[0]])] + rest
  }

  predicate DatesAscending(gs: seq<Group>) {
    forall i, j :: 0 <= i < j < |gs| ==> gs[i].date < gs[j].date
  }

  function DatesOfGroups(gs: seq<Group>): set<int> {
    if gs == [] then {} else {gs[0].date} + DatesOfGroups(gs[1..])
  }

  lemma {:induction false} InDatesOfGroups(gs: seq<Group>, i: int)
    requires 0 <= i < |gs|
    ensures gs[i].date in DatesOfGroups(gs)
  {
    if i > 0 {
      InDatesOfGroups(gs[1..], i - 1);
    }
  }

  /** `gs` has one group per day of `s`, in ascending order of days, and each
      group holds the records of its day in their order in `s`. */
  predicate OneGroupPerDay(s: seq<Production>, gs: seq<Group>) {
    && DatesAscending(gs)
    && DatesOfGroups(gs) == DatesOf(s)
    && forall i :: 0 <= i < |gs| ==> gs[i].members == OnDate(s, gs[i].date)
  }

  /** Step case where the head record joins the first group of the rest. */
  lemma JoinFirstGroup(x: Production, r: seq<Production>, rest: seq<Group>)
    requires r != [] && rest != [] && rest[0].date == x.plannedDate && r[0].plannedDate == x.plannedDate
    requires OneGroupPerDay(r, rest)
    ensures OneGroupPerDay([x] + r, [Group(x.plannedDate, [x] + rest[0].members)] + rest[1..])
  {
    var s := [x] + r;
    var gs := [Group(x.plannedDate, [x] + rest[0].members)] + rest[1..];
    assert s[1..] == r;
    assert gs[1..] == rest[1..];
    assert DatesOf(r) == {x.plannedDate} + DatesOf(r[1..]);
    forall i | 0 < i < |gs| ensures gs[i] == rest[i] && gs[i].members == OnDate(s, gs[i].date) {
      assert gs[i] == rest[i];
    }
  }

  /** Step case where the head record, planned before every other, opens a
      group of its own. */
  lemma OpenNewGroup(x: Production, r: seq<Production>, rest: seq<Group>)
    requires x.plannedDate !in DatesOf(r)
    requires rest != [] ==> x.plannedDate < rest[0].date
    requires OneGroupPerDay(r, rest)
    ensures OneGroupPerDay([x] + r, [Group(x.plannedDate, [x])] + rest)
  {
    var s := [x] + r;
    var gs := [Group(x.plannedDate, [x])] + rest;
    assert s[1..] == r;
    assert gs[1..] == rest;
    OnDateEmpty(r, x.plannedDate);
    assert OnDate(s, x.plannedDate) == [x];
    forall i | 0 < i < |gs| ensures gs[i].members == OnDate(s, gs[i].date) && x.plannedDate < gs[i].date {
      assert gs[i] == rest[i - 1];
      InDatesOfGroups(rest, i - 1);
    }
  }

  /** On date-sorted input every day forms exactly one group, and that group
      holds the records of that day in input order. */
  lemma {:induction false} GroupBySorted(s: seq<Production>)
    requires SortedByDate(s)
    ensures OneGroupPerDay(s, GroupBy(s))
  {
    if s != [] {
      var x, r := s[0], s[1..];
      assert s == [x] + r;
      GroupBySorted(r);
      var rest := GroupBy(r);
      if r != [] && rest[0].date == x.plannedDate {
        JoinFirstGroup(x, r, rest);
      } else {
        forall p | p in r ensures p.plannedDate != x.plannedDate {
          var k :| 0 <= k < |r| && r[k] == p;
          assert s[k + 1] == p && s[1] == r[0];
        }
        NotPlannedOn(r, x.plannedDate);
        assert r != [] ==> s[0].plannedDate <= s[1].plannedDate;
        OpenNewGroup(x, r, rest);
      }
    }
  }

  /** `dict(pairs)`: each pair in turn sets its key, so a later pair overrides
      an earlier one with the same key. */
  function ToDict(gs: seq<Group>): map<int, seq<Production>> {
    if gs == [] then map[] else map[gs[0].date := gs[0].members] + ToDict(gs[1..])
  }

  lemma {:induction false} ToDictKeys(gs: seq<Group>)
    ensures ToDict(gs).Keys == DatesOfGroups(gs)
  {
    if gs != [] {
      ToDictKeys(gs[1..]);
    }
  }

  /** When every pair holds the records of its own day, so does the dict,
      whichever of several pairs for one day comes last. */
  lemma {:induction false} ToDictValues(gs: seq<Group>, s: seq<Production>)
    requires forall i :: 0 <= i < |gs| ==> gs[i].members == OnDate(s, gs[i].date)
    ensures forall d :: d in ToDict(gs) ==> ToDict(gs)[d] == OnDate(s, d)
  {
    if gs != [] {
      var tail := gs[1..];
      assert forall i :: 0 <= i < |tail| ==> tail[i] == gs[i + 1];
      ToDictValues(tail, s);
    }
  }

  /** `dict((k, list(v)) for k, v in groupby(sorted(s, key), key))`. */
  function GroupedByDate(s: seq<Production>): map<int, seq<Production>> {
    ToDict(GroupBy(SortByDate(s)))
  }

  /** The grouped map has one key per day some record is planned on, and
      under it every record of that day in input order. */
  lemma GroupedByDateSpec(s: seq<Production>)
    ensures GroupedByDate(s).Keys == DatesOf(s)
    ensures forall d :: d in GroupedByDate(s) ==> GroupedByDate(s)[d] == OnDate(s, d)
  {
    var t := SortByDate(s);
    var gs := GroupBy(t);
    SortByDateSortsAndPermutes(s);
    GroupBySorted(t);
    ToDictKeys(gs);
    ToDictValues(gs, t);
    forall d ensures d in DatesOf(t) <==> d in DatesOf(s) {
      SortByDateIsStable(s, d);
      OnDateEmpty(t, d);
      OnDateEmpty(s, d);
    }
    forall d | d in GroupedByDate(s) ensures GroupedByDate(s)[d] == OnDate(s, d) {
      SortByDateIsStable(s, d);
    }
  }
}
