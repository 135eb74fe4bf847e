/** The student dashboard's derived figures: the progress shown on the four
    quick-action cards, the achievement cards and the overall-progress
    percentage, all computed from the student's progress counters. */
module Dashboard {
  import opened Types
  import opened Text
  import Login

  /** `Math.floor(a / b)` for integers, `b` non-zero. */
  function FloorDiv(a: int, b: int): (q: int)
    requires b != 0
    ensures b > 0 ==> q * b <= a < q * b + b
    ensures b < 0 ==> q * b >= a > q * b + b
  {
    if b > 0 then a / b else (-a) / (-b)
  }

  /** `Math.floor((value / max) * 100)`. */
  function Percent(value: int, max: int): int
    requires max != 0
  {
    FloorDiv(value * 100, max)
  }

  /** A quick-action card: the panel it opens and its progress bar. */
  datatype Card = Card(id: string, progress: int)

  function QuickActions(p: Progress): (r: seq<Card>)
    ensures |r| == 4
    ensures r[0].id == "reading" && r[1].id == "homework" && r[2].id == "health" && r[3].id == "offline"
    ensures r[0].progress * 10 <= p.readingLevel * 100 < r[0].progress * 10 + 10
    ensures r[1].progress * 10 <= p.mathLevel * 100 < r[1].progress * 10 + 10
    ensures r[2].progress == 75 && r[3].progress == 60
  {
    [Card("reading", Percent(p.readingLevel, 10)),
     Card("homework", Percent(p.mathLevel, 10)),
     Card("health", 75),
     Card("offline", 60)]
  }

  /** An achievement card: its title and the text it shows. */
  datatype Achievement = Achievement(title: string, value: string)

  /** Study time in minutes credited for the completed lessons. */
  function StudyMinutes(p: Progress): (m: int)
    ensures p.completedLessons >= 0 ==> m >= 0
    ensures m % 15 == 0
  {
    p.completedLessons * 15
  }

  /** Each completed lesson is worth 15 minutes: none for no lessons, and one
      more lesson adds exactly 15. */
  lemma StudyMinutesPerLesson(p: Progress)
    ensures StudyMinutes(p.(completedLessons := 0)) == 0
    ensures StudyMinutes(p.(completedLessons := p.completedLessons + 1)) == StudyMinutes(p) + 15
  {
  }

  /** The achievement cards: each shows its number as text, which reads back
      as that number, followed by its unit. */
  function Achievements(p: Progress): (r: seq<Achievement>)
    ensures |r| == 3
    ensures ParseLeadingInt(r[0].value) == Some(p.streakDays) && EndsWith(r[0].value, " days")
    ensures ParseIntText(r[1].value) == Some(p.completedLessons)
    ensures ParseLeadingInt(r[2].value) == Some(15 * p.completedLessons) && EndsWith(r[2].value, " mins")
  {
    IntTextRoundTrip(p.completedLessons);
    var minutes := StudyMinutes(p);
    assert minutes == 15 * p.completedLessons;
    var study := NumberCard("Study Time", minutes, " mins");
    [NumberCard("Reading Streak", p.streakDays, " days"),
     Achievement("Lessons Completed", IntToString(p.completedLessons)),
     study]
  }

  /** A card showing a number and its unit, as in `${n} days`. */
  function NumberCard(title: string, n: int, unit: string): (a: Achievement)
    requires unit == [] || !IsDigit(unit[0])
    ensures ParseLeadingInt(a.value) == Some(n) && EndsWith(a.value, unit)
  {
    ParseIntToString(n, unit);
    var v := IntToString(n) + unit;
    assert v[|v| - |unit|..] == unit;
    Achievement(title, v)
  }

  /** The overall-progress percentage. There is no guard for a total of zero:
      the page then shows `NaN` or `Infinity`, represented here as `None`. */
  function OverallProgress(p: Progress): (r: Option<int>)
    ensures r.None? <==> p.totalLessons == 0
    ensures r.Some? && p.totalLessons > 0 ==>
      r.value * p.totalLessons <= p.completedLessons * 100 < (r.value + 1) * p.totalLessons
  {
    if p.totalLessons == 0 then None else Some(Percent(p.completedLessons, p.totalLessons))
  }

  /** With the total fixed at 100, the overall percentage is the completed count. */
  lemma OverallOfHundred(p: Progress)
    requires p.totalLessons == 100
    ensures OverallProgress(p) == Some(p.completedLessons)
  {
  }

  /** A whole level out of ten is shown as ten times the level. */
  lemma LevelPercent(level: int)
    ensures Percent(level, 10) == 10 * level
  {
  }

  /** Percentages over a positive maximum never decrease as the value grows. */
  lemma PercentMonotonic(v1: int, v2: int, max: int)
    requires max > 0 && v1 <= v2
    ensures Percent(v1, max) <= Percent(v2, max)
  {
    var q1, q2 := Percent(v1, max), Percent(v2, max);
    assert q1 * max <= v1 * 100;
    assert v2 * 100 < q2 * max + max;
    if q1 > q2 {
      MulMonotonic(q1, q2 + 1, max);
    }
  }

  lemma MulMonotonic(a: int, b: int, m: int)
    requires a >= b && m > 0
    ensures a * m >= b * m
  {
    assert a * m - b * m == (a - b) * m;
  }

  /** For a student made up at login: the reading and math cards show 10..100
      in steps of ten, the overall percentage is the completed count (0..49),
      and the study time is at most 49 * 15 minutes. */
  lemma DemoStudentDashboard(f: Login.Form, d: Login.DemoDraws, id: string, joinDate: string)
    requires Login.ValidDraws(d)
    ensures var p := Login.DemoStudent(f, d, id, joinDate).progress;
      && 10 <= QuickActions(p)[0].progress <= 100 && QuickActions(p)[0].progress % 10 == 0
      && 10 <= QuickActions(p)[1].progress <= 100 && QuickActions(p)[1].progress % 10 == 0
      && OverallProgress(p) == Some(p.completedLessons)
      && 0 <= p.completedLessons <= 49
      && 0 <= StudyMinutes(p) <= 735
  {
    var p := Login.DemoStudent(f, d, id, joinDate).progress;
    LevelPercent(p.readingLevel);
    LevelPercent(p.mathLevel);
    OverallOfHundred(p);
  }
}
