/** Production records as the report reads them: only the planned date
    and the state matter, plus an identity that keeps two records with the
    same date and state apart. */
module Productions {

  datatype Production = Production(id: int, plannedDate: int, state: string)

  /** States the report query leaves out. */
  const ExcludedStates: set<string> := {"request", "cancel"}

  /** The search domain of the report: planned between start and end (both
      inclusive) and not in an excluded state. */
  predicate InReport(p: Production, start: int, end: int) {
    start <= p.plannedDate <= end && p.state !in ExcludedStates
  }

  /** The records the production store returns for the report query, in the
      order the store lists them. */
  function Search(records: seq<Production>, start: int, end: int): (found: seq<Production>)
    ensures |found| <= |records|
    ensures forall p :: p in found <==> p in records && InReport(p, start, end)
  {
    if records == [] then []
    else if InReport(records[0], start, end) then [records[0]] + Search(records[1..], start, end)
    else Search(records[1..], start, end)
  }

  /** The records of `s` planned for day `d`, in their order in `s`. */
  function OnDate(s: seq<Production>, d: int): seq<Production> {
    if s == [] then []
    else if s[0].plannedDate == d then [s[0]] + OnDate(s[1..], d)
    else OnDate(s[1..], d)
  }

  /** The days on which some record of `s` is planned. */
  function DatesOf(s: seq<Production>): set<int> {
    if s == [] then {} else {s[0].plannedDate} + DatesOf(s[1..])
  }

  lemma {:induction false} OnDateMembers(s: seq<Production>, d: int)
    ensures forall p :: p in OnDate(s, d) <==> p in s && p.plannedDate == d
  {
    if s != [] {
      OnDateMembers(s[1..], d);
      assert s == [s[0]] + s[1..];
    }
  }

  lemma {:induction false} NotPlannedOn(s: seq<Production>, d: int)
    requires forall p :: p in s ==> p.plannedDate != d
    ensures d !in DatesOf(s)
  {
    if s != [] {
      assert s[0] in s;
      NotPlannedOn(s[1..], d);
    }
  }

  lemma {:induction false} DatesWithin(s: seq<Production>, lo: int, hi: int)
    requires forall p :: p in s ==> lo <= p.plannedDate <= hi
    ensures forall d :: d in DatesOf(s) ==> lo <= d <= hi
  {
    if s != [] {
      assert s[0] in s;
      DatesWithin(s[1..], lo, hi);
    }
  }

  /** A day has no records exactly when no record is planned on it. */
  lemma {:induction false} OnDateEmpty(s: seq<Production>, d: int)
    ensures OnDate(s, d) == [] <==> d !in DatesOf(s)
  {
    if s != [] {
      OnDateEmpty(s[1..], d);
    }
  }

  /** `a` is `b` with some elements dropped and the rest kept in order. */
  predicate IsSubsequence(a: seq<Production>, b: seq<Production>)
    decreases |b|
  {
    if a == [] then true
    else if b == [] then false
    else (a[0] == b[0] && IsSubsequence(a[1..], b[1..])) || IsSubsequence(a, b[1..])
  }

  lemma {:induction false} SubsequenceTransitive(a: seq<Production>, b: seq<Production>, c: seq<Production>)
    requires IsSubsequence(a, b) && IsSubsequence(b, c)
    ensures IsSubsequence(a, c)
    decreases |c|
  {
    if a != [] {
      assert b != [] && c != [];
      if IsSubsequence(b, c[1..]) {
        SubsequenceTransitive(a, b, c[1..]);
      } else if a[0] == b[0] && IsSubsequence(a[1..], b[1..]) {
        SubsequenceTransitive(a[1..], b[1..], c[1..]);
      } else {
        SubsequenceTransitive(a, b[1..], c[1..]);
      }
    }
  }

  /** The query keeps the records it returns in the store's order. */
  lemma {:induction false} SearchKeepsOrder(records: seq<Production>, start: int, end: int)
    ensures IsSubsequence(Search(records, start, end), records)
  {
    if records != [] {
      SearchKeepsOrder(records[1..], start, end);
    }
  }

  /** Picking out one day keeps the records in their order. */
  lemma {:induction false} OnDateKeepsOrder(s: seq<Production>, d: int)
    ensures IsSubsequence(OnDate(s, d), s)
  {
    if s != [] {
      OnDateKeepsOrder(s[1..], d);
    }
  }
}
