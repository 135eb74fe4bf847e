/** The teacher dashboard: a fixed roster of four students, the class
    figures computed from it, the "top performers" and "need attention"
    lists of the analytics tab, and the choice of the tab to show. */
module Teacher {
  import opened Types
  import Dashboard

  /** One row of the roster. `progress` is a percentage. */
  datatype Member = Member(
    id: string,
    name: string,
    grade: string,
    readingLevel: int,
    mathLevel: int,
    completedLessons: int,
    totalLessons: int,
    lastActive: string,
    progress: int)

  const Roster: seq<Member> := [
    Member("1", "Maria Santos", "Grade 8", 7, 6, 45, 100, "2 hours ago", 75),
    Member("2", "James Ochieng", "Grade 7", 8, 9, 62, 100, "1 day ago", 82),
    Member("3", "Fatima Al-Rashid", "Grade 9", 9, 7, 38, 100, "3 hours ago", 68),
    Member("4", "Carlos Rodriguez", "Grade 8", 6, 8, 51, 100, "5 minutes ago", 71)
  ]

  // ---------------------------------------------------------------------------
  // Class figures
  // ---------------------------------------------------------------------------

  /** The numeric columns the class figures add up. */
  datatype Column = ProgressColumn | ReadingColumn | MathColumn | LessonsColumn

  function Value(m: Member, c: Column): int
  {
    match c
    case ProgressColumn => m.progress
    case ReadingColumn => m.readingLevel
    case MathColumn => m.mathLevel
    case LessonsColumn => m.completedLessons
  }

  /** The sum of one column over a list of members. */
  function Total(s: seq<Member>, c: Column): int
  {
    if s == [] then 0 else Value(s[0], c) + Total(s[1..], c)
  }

  /** `Math.round(sum / n)`, halves rounded up; `None` for an empty class,
      where the page shows `NaN`. */
  function RoundedAverage(sum: int, n: int): (r: Option<int>)
    requires n >= 0
    ensures r.None? <==> n == 0
    ensures r.Some? ==> 2 * r.value * n - n <= 2 * sum < 2 * r.value * n + n
  {
    if n == 0 then None else Some(Dashboard.FloorDiv(2 * sum + n, 2 * n))
  }

  datatype Stats = Stats(
    totalStudents: int,
    averageProgress: Option<int>,
    lessonsCompleted: int,
    averageReadingLevel: Option<int>,
    averageMathLevel: Option<int>)

  /** The average a figure shows for one of the three averaged columns. */
  function Average(st: Stats, c: Column): Option<int>
    requires c != LessonsColumn
  {
    match c
    case ProgressColumn => st.averageProgress
    case ReadingColumn => st.averageReadingLevel
    case MathColumn => st.averageMathLevel
  }

  /** The five figures at the top of the overview: the head count, the
      lessons summed over the class, and for progress, reading and math the
      column's mean rounded to the nearest whole number, halves up (no
      average at all for an empty class). */
  function ClassStats(roster: seq<Member>): (r: Stats)
    ensures r.totalStudents == |roster|
    ensures r.lessonsCompleted == Total(roster, LessonsColumn)
    ensures forall c | c != LessonsColumn :: Average(r, c).None? <==> roster == []
    ensures forall c | c != LessonsColumn && Average(r, c).Some? ::
      var v, n := Average(r, c).value, |roster|;
      2 * v * n - n <= 2 * Total(roster, c) < 2 * v * n + n
  {
    Stats(|roster|,
      RoundedAverage(Total(roster, ProgressColumn), |roster|),
      Total(roster, LessonsColumn),
      RoundedAverage(Total(roster, ReadingColumn), |roster|),
      RoundedAverage(Total(roster, MathColumn), |roster|))
  }

  /** The class figures do not depend on the order of the roster. */
  lemma ClassStatsPermutation(a: seq<Member>, b: seq<Member>)
    requires multiset(a) == multiset(b)
    ensures ClassStats(a) == ClassStats(b)
  {
    assert |a| == |multiset(a)| == |multiset(b)| == |b|;
    TotalPermutation(a, b, ProgressColumn);
    TotalPermutation(a, b, ReadingColumn);
    TotalPermutation(a, b, MathColumn);
    TotalPermutation(a, b, LessonsColumn);
  }

  /** Each class average lies between the lowest and the highest value in
      its column. */
  lemma ClassAverageBetween(roster: seq<Member>, c: Column, lo: int, hi: int)
    requires c != LessonsColumn && roster != []
    requires forall k | 0 <= k < |roster| :: lo <= Value(roster[k], c) <= hi
    ensures lo <= Average(ClassStats(roster), c).value <= hi
  {
    AverageBetween(roster, c, lo, hi);
  }

  lemma {:induction false} TotalAppend(a: seq<Member>, b: seq<Member>, c: Column)
    ensures Total(a + b, c) == Total(a, c) + Total(b, c)
  {
    if a == [] {
      assert a + b == b;
    } else {
      assert (a + b)[0] == a[0];
      assert (a + b)[1..] == a[1..] + b;
      TotalAppend(a[1..], b, c);
    }
  }

  /** A column total does not depend on the order of the members, so
      reordering the roster (as the analytics lists do) leaves every class
      figure as it was. */
  lemma {:induction false} TotalPermutation(a: seq<Member>, b: seq<Member>, c: Column)
    requires multiset(a) == multiset(b)
    ensures Total(a, c) == Total(b, c)
    decreases |a|
  {
    if a == [] {
      assert |b| == |multiset(b)| == 0;
    } else {
      assert a[0] in multiset(b);
      var i :| 0 <= i < |b| && b[i] == a[0];
      var rest := b[..i] + b[i + 1..];
      RemoveOne(a, b, i);
      TotalPermutation(a[1..], rest, c);
      TotalRemove(b, i, c);
    }
  }

  /** Taking the same member out of two lists with equal contents leaves
      lists with equal contents. */
  lemma RemoveOne(a: seq<Member>, b: seq<Member>, i: nat)
    requires a != [] && i < |b| && b[i] == a[0] && multiset(a) == multiset(b)
    ensures multiset(a[1..]) == multiset(b[..i] + b[i + 1..])
  {
    assert b == b[..i] + [b[i]] + b[i + 1..];
    assert a == [a[0]] + a[1..];
    assert multiset(a) - multiset{a[0]} == multiset(a[1..]);
    assert multiset(b) - multiset{b[i]} == multiset(b[..i] + b[i + 1..]);
  }

  lemma TotalRemove(b: seq<Member>, i: nat, c: Column)
    requires i < |b|
    ensures Total(b, c) == Value(b[i], c) + Total(b[..i] + b[i + 1..], c)
  {
    assert b == b[..i] + [b[i]] + b[i + 1..];
    TotalAppend(b[..i] + [b[i]], b[i + 1..], c);
    TotalAppend(b[..i], [b[i]], c);
    TotalAppend(b[..i], b[i + 1..], c);
    assert Total([b[i]], c) == Value(b[i], c) + Total([], c);
  }

  /** A rounded average lies between the smallest and the largest value. */
  lemma AverageBetween(s: seq<Member>, c: Column, lo: int, hi: int)
    requires s != []
    requires forall k | 0 <= k < |s| :: lo <= Value(s[k], c) <= hi
    ensures var avg := RoundedAverage(Total(s, c), |s|).value; lo <= avg <= hi
  {
    var n, sum := |s|, Total(s, c);
    TotalBounds(s, c, lo, hi);
    RoundedBetween(sum, n, lo, hi);
  }

  lemma RoundedBetween(sum: int, n: int, lo: int, hi: int)
    requires n > 0 && n * lo <= sum <= n * hi
    ensures lo <= RoundedAverage(sum, n).value <= hi
  {
    var avg := RoundedAverage(sum, n).value;
    var an := avg * n;
    assert 2 * an - n <= 2 * sum < 2 * an + n by {
      assert 2 * avg * n == 2 * an;
    }
    if avg > hi {
      Dashboard.MulMonotonic(avg, hi + 1, n);
    }
    if avg < lo {
      Dashboard.MulMonotonic(lo, avg + 1, n);
    }
  }

  lemma {:induction false} TotalBounds(s: seq<Member>, c: Column, lo: int, hi: int)
    requires forall k | 0 <= k < |s| :: lo <= Value(s[k], c) <= hi
    ensures |s| * lo <= Total(s, c) <= |s| * hi
  {
    if s != [] {
      TotalBounds(s[1..], c, lo, hi);
      assert Value(s[0], c) == Value(s[..1][0], c);
    }
  }

  /** The figures for the class as shipped: four students, 196 lessons, and
      averages 74% progress, reading 8/10 (30 / 4 = 7.5 rounds up) and
      math 8/10. */
  lemma RosterStats(roster: seq<Member>)
    requires roster == Roster
    ensures ClassStats(roster) == Stats(4, Some(74), 196, Some(8), Some(8))
  {
    var tail := roster[1..];
    assert tail[1..] == roster[2..];
    assert roster[2..][1..] == roster[3..];
    assert roster[3..][1..] == [];
    assert Total(roster, ProgressColumn) == 296;
    assert Total(roster, ReadingColumn) == 30;
    assert Total(roster, MathColumn) == 30;
    assert Total(roster, LessonsColumn) == 196;
  }

  // ---------------------------------------------------------------------------
  // The analytics lists
  // ---------------------------------------------------------------------------

  /** The two comparators: highest progress first, or lowest first. */
  datatype Order = Descending | Ascending

  /** `a` may stand before `b` under the order: the comparator does not put
      `b` strictly first. */
  predicate InOrder(a: Member, b: Member, order: Order)
  {
    match order
    case Descending => a.progress >= b.progress
    case Ascending => a.progress <= b.progress
  }

  predicate Sorted(s: seq<Member>, order: Order)
  {
    forall i, j | 0 <= i < j < |s| :: InOrder(s[i], s[j], order)
  }

  /** Insert `x` before the first member it may precede. Members with the
      same progress as `x` that are already placed stay after it, which is
      what a stable sort does when `x` came first. */
  function Insert(x: Member, t: seq<Member>, order: Order): seq<Member>
  {
    if t == [] || InOrder(x, t[0], order) then [x] + t
    else [t[0]] + Insert(x, t[1..], order)
  }

  /** Inserting adds exactly the one member. */
  lemma {:induction false} InsertContents(x: Member, t: seq<Member>, order: Order)
    ensures multiset(Insert(x, t, order)) == multiset(t) + multiset{x}
    ensures |Insert(x, t, order)| == |t| + 1
  {
    if t != [] && !InOrder(x, t[0], order) {
      assert t == [t[0]] + t[1..];
      InsertContents(x, t[1..], order);
    }
  }

  /** Inserting into a sorted list keeps it sorted. */
  lemma {:induction false} InsertSorted(x: Member, t: seq<Member>, order: Order)
    requires Sorted(t, order)
    ensures Sorted(Insert(x, t, order), order)
  {
    if t == [] || InOrder(x, t[0], order) {
      forall j | 0 <= j < |t| ensures InOrder(x, t[j], order) {
        assert InOrder(t[0], t[j], order) || j == 0;
      }
      ConsSorted(x, t, order);
    } else {
      var rest := Insert(x, t[1..], order);
      InsertContents(x, t[1..], order);
      TailSorted(t, order);
      InsertSorted(x, t[1..], order);
      forall j | 0 <= j < |rest| ensures InOrder(t[0], rest[j], order) {
        var y := rest[j];
        assert y in multiset(rest);
        if y != x {
          assert y in multiset(t[1..]);
          var k :| 0 <= k < |t[1..]| && t[1..][k] == y;
          assert t[k + 1] == y;
        }
      }
      ConsSorted(t[0], rest, order);
    }
  }

  lemma TailSorted(t: seq<Member>, order: Order)
    requires t != [] && Sorted(t, order)
    ensures Sorted(t[1..], order)
  {
    forall i, j | 0 <= i < j < |t[1..]| ensures InOrder(t[1..][i], t[1..][j], order) {
      assert t[1..][i] == t[i + 1] && t[1..][j] == t[j + 1];
    }
  }

  lemma ConsSorted(h: Member, t: seq<Member>, order: Order)
    requires Sorted(t, order)
    requires forall j | 0 <= j < |t| :: InOrder(h, t[j], order)
    ensures Sorted([h] + t, order)
  {
    var r := [h] + t;
    forall i, j | 0 <= i < j < |r| ensures InOrder(r[i], r[j], order) {
      assert r[j] == t[j - 1];
      if i > 0 {
        assert r[i] == t[i - 1];
      }
    }
  }

  /** `Array.prototype.sort` with a comparator: a stable sort, modelled as an
      insertion sort that keeps the members' relative order on ties. */
  function Sort(s: seq<Member>, order: Order): seq<Member>
  {
    if s == [] then [] else Insert(s[0], Sort(s[1..], order), order)
  }

  /** The sort returns the same members, in order. */
  lemma {:induction false} SortProperties(s: seq<Member>, order: Order)
    ensures multiset(Sort(s, order)) == multiset(s)
    ensures |Sort(s, order)| == |s|
    ensures Sorted(Sort(s, order), order)
  {
    if s != [] {
      assert s == [s[0]] + s[1..];
      SortProperties(s[1..], order);
      InsertContents(s[0], Sort(s[1..], order), order);
      InsertSorted(s[0], Sort(s[1..], order), order);
    }
  }

  /** The first up to three members of a list. */
  function Take3(s: seq<Member>): (r: seq<Member>)
    ensures |r| == if |s| < 3 then |s| else 3
    ensures r == s[..|r|]
  {
    if |s| < 3 then s else s[..3]
  }

  /** "Top performers": the roster sorted by progress, highest first, cut to
      three. */
  function TopPerformers(roster: seq<Member>): (r: seq<Member>)
    ensures |r| == if |roster| < 3 then |roster| else 3
    ensures Sorted(r, Descending)
    ensures multiset(r) <= multiset(roster)
    ensures forall x, y | x in r && y in multiset(roster) - multiset(r) :: y.progress <= x.progress
  {
    var sorted := Sort(roster, Descending);
    SortProperties(roster, Descending);
    var r := Take3(sorted);
    PrefixFacts(sorted, |r|, Descending);
    r
  }

  /** "Need attention": the list the page shows sorts the roster by progress,
      lowest first, and cuts it to three. The page sorts the roster array in
      place, so it sorts the list the top-performer sort has already
      reordered. */
  function NeedAttention(roster: seq<Member>): (r: seq<Member>)
    ensures |r| == if |roster| < 3 then |roster| else 3
    ensures Sorted(r, Ascending)
    ensures multiset(r) <= multiset(roster)
    ensures forall x, y | x in r && y in multiset(roster) - multiset(r) :: x.progress <= y.progress
  {
    var reordered := Sort(roster, Descending);
    var sorted := Sort(reordered, Ascending);
    SortProperties(roster, Descending);
    SortProperties(reordered, Ascending);
    var r := Take3(sorted);
    PrefixFacts(sorted, |r|, Ascending);
    r
  }

  /** A prefix of a sorted list is sorted, is part of the list, and stands in
      order before everything that is left out. */
  lemma PrefixFacts(s: seq<Member>, k: nat, order: Order)
    requires Sorted(s, order) && k <= |s|
    ensures Sorted(s[..k], order)
    ensures multiset(s[..k]) <= multiset(s)
    ensures forall x, y | x in s[..k] && y in multiset(s) - multiset(s[..k]) :: InOrder(x, y, order)
  {
    assert s == s[..k] + s[k..];
    assert multiset(s) - multiset(s[..k]) == multiset(s[k..]);
    PrefixBeforeRest(s, k, order);
  }

  lemma PrefixBeforeRest(s: seq<Member>, k: nat, order: Order)
    requires Sorted(s, order) && k <= |s|
    ensures forall x, y | x in s[..k] && y in multiset(s[k..]) :: InOrder(x, y, order)
  {
    forall x, y | x in s[..k] && y in multiset(s[k..])
      ensures InOrder(x, y, order)
    {
      var i :| 0 <= i < k && s[..k][i] == x;
      var j :| 0 <= j < |s[k..]| && s[k..][j] == y;
      assert s[i] == x && s[k + j] == y;
    }
  }

  /** For the class as shipped: the top performers are James (82%), Maria
      (75%) and Carlos (71%); the need-attention list is Fatima (68%),
      Carlos (71%) and Maria (75%). */
  lemma RosterLists(roster: seq<Member>)
    requires roster == Roster
    ensures TopPerformers(roster) == [roster[1], roster[0], roster[3]]
    ensures NeedAttention(roster) == [roster[2], roster[3], roster[0]]
  {
    var m1, m2, m3, m4 := roster[0], roster[1], roster[2], roster[3];
    assert roster == [m1, m2, m3, m4];
    SortFour(m1, m2, m3, m4);
    var d := Sort(roster, Descending);
    assert d == [m2, m1, m4, m3];
    assert Take3(d) == [m2, m1, m4];
    assert Take3(Sort(d, Ascending)) == [m3, m4, m1];
  }

  /** Four members with progress 75, 82, 68 and 71 sort highest first as
      82, 75, 71, 68, and that order sorts lowest first as 68, 71, 75, 82. */
  lemma SortFour(m1: Member, m2: Member, m3: Member, m4: Member)
    requires m1.progress == 75 && m2.progress == 82 && m3.progress == 68 && m4.progress == 71
    ensures Sort([m1, m2, m3, m4], Descending) == [m2, m1, m4, m3]
    ensures Sort([m2, m1, m4, m3], Ascending) == [m3, m4, m1, m2]
  {
    DescendingFour(m1, m2, m3, m4);
    AscendingFour(m1, m2, m3, m4);
  }

  lemma DescendingFour(m1: Member, m2: Member, m3: Member, m4: Member)
    requires m1.progress == 75 && m2.progress == 82 && m3.progress == 68 && m4.progress == 71
    ensures Sort([m1, m2, m3, m4], Descending) == [m2, m1, m4, m3]
  {
    SortStep([m3, m4], Descending);
    assert [m3, m4][1..] == [m4];
    assert Sort([m3, m4], Descending) == [m4, m3];
    SortStep([m2, m3, m4], Descending);
    assert [m2, m3, m4][1..] == [m3, m4];
    assert Sort([m2, m3, m4], Descending) == [m2, m4, m3];
    SortStep([m1, m2, m3, m4], Descending);
    assert [m1, m2, m3, m4][1..] == [m2, m3, m4];
    InsertPast(m1, [m2, m4, m3], Descending);
    assert [m2, m4, m3][1..] == [m4, m3];
  }

  lemma AscendingFour(m1: Member, m2: Member, m3: Member, m4: Member)
    requires m1.progress == 75 && m2.progress == 82 && m3.progress == 68 && m4.progress == 71
    ensures Sort([m2, m1, m4, m3], Ascending) == [m3, m4, m1, m2]
  {
    SortStep([m4, m3], Ascending);
    assert [m4, m3][1..] == [m3];
    assert Sort([m4, m3], Ascending) == [m3, m4];
    SortStep([m1, m4, m3], Ascending);
    assert [m1, m4, m3][1..] == [m4, m3];
    InsertPast(m1, [m3, m4], Ascending);
    assert [m3, m4][1..] == [m4];
    assert Sort([m1, m4, m3], Ascending) == [m3, m4, m1];
    SortStep([m2, m1, m4, m3], Ascending);
    assert [m2, m1, m4, m3][1..] == [m1, m4, m3];
    InsertPast(m2, [m3, m4, m1], Ascending);
    assert [m3, m4, m1][1..] == [m4, m1];
    InsertPast(m2, [m4, m1], Ascending);
    assert [m4, m1][1..] == [m1];
  }

  lemma InsertPast(x: Member, t: seq<Member>, order: Order)
    requires t != [] && !InOrder(x, t[0], order)
    ensures Insert(x, t, order) == [t[0]] + Insert(x, t[1..], order)
  {
  }

  lemma SortStep(s: seq<Member>, order: Order)
    requires s != []
    ensures Sort(s, order) == Insert(s[0], Sort(s[1..], order), order)
  {
  }

  // ---------------------------------------------------------------------------
  // Tabs
  // ---------------------------------------------------------------------------

  datatype Tab = Overview | Students | Content | Analytics | Settings

  /** The id of each tab in the side menu. */
  function TabId(t: Tab): string
  {
    match t
    case Overview => "overview"
    case Students => "students"
    case Content => "content"
    case Analytics => "analytics"
    case Settings => "settings"
  }

  /** The panel shown for the selected tab id: the tab with that id, or the
      overview for an id no tab has. */
  function ShownTab(id: string): Tab
  {
    if id == "students" then Students
    else if id == "content" then Content
    else if id == "analytics" then Analytics
    else if id == "settings" then Settings
    else Overview
  }

  /** Every tab in the menu shows its own panel, and the page opens on the
      overview. */
  lemma TabsShowThemselves(t: Tab)
    ensures ShownTab(TabId(t)) == t
    ensures ShownTab("overview") == Overview
  {
  }

  /** An id that belongs to no tab shows the overview. */
  lemma UnknownTabShowsOverview(id: string)
    requires forall t: Tab :: TabId(t) != id
    ensures ShownTab(id) == Overview
  {
    assert TabId(Students) != id && TabId(Content) != id;
    assert TabId(Analytics) != id && TabId(Settings) != id;
  }
}
