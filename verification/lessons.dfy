/** The life-skills lessons panel: the fixed three-category catalogue, the
    set of lessons marked complete in this panel, the totals shown above the
    cards, and the classifier that turns each line of a lesson into a heading,
    blank line, list item, numbered item or paragraph. */
module Lessons {
  import opened Types
  import opened Text

  datatype Difficulty = Beginner | Intermediate | Advanced

  /** A catalogue lesson; its prose is presentation and is not modelled. */
  datatype Lesson = Lesson(id: string, title: string, difficulty: Difficulty, duration: nat)

  datatype Category = Category(id: string, lessons: seq<Lesson>)

  const Catalogue: seq<Category> := [
    Category("health", [
      Lesson("h1", "Personal Hygiene Basics", Beginner, 10),
      Lesson("h2", "Exercise and Physical Activity", Intermediate, 15),
      Lesson("h3", "Mental Health and Well-being", Advanced, 20)]),
    Category("nutrition", [
      Lesson("n1", "Understanding Balanced Nutrition", Beginner, 12),
      Lesson("n2", "Food Safety and Hygiene", Intermediate, 15)]),
    Category("water", [
      Lesson("w1", "Importance of Clean Water", Beginner, 10),
      Lesson("w2", "Water Purification Methods", Intermediate, 18)])
  ]

  /** All catalogue lessons, category by category. */
  function Flatten(cats: seq<Category>): seq<Lesson>
  {
    if cats == [] then [] else cats[0].lessons + Flatten(cats[1..])
  }

  function Ids(ls: seq<Lesson>): set<string>
  {
    set i | 0 <= i < |ls| :: ls[i].id
  }

  /** No two lessons share an id. */
  predicate UniqueIds(ls: seq<Lesson>)
  {
    forall i, j | 0 <= i < j < |ls| :: ls[i].id != ls[j].id
  }

  /** The panel's state: the category tab, the open lesson, and the ids of the
      lessons marked complete (kept only in this panel). */
  datatype LessonsState = LessonsState(
    activeCategory: string,
    selected: Option<Lesson>,
    completed: set<string>)

  const Initial := LessonsState("health", None, {})

  /** The cards shown for a category; an unknown category shows none. */
  function CardsFor(cats: seq<Category>, id: string): (r: seq<Lesson>)
    ensures (forall k | 0 <= k < |cats| :: cats[k].id != id) ==> r == []
    ensures (exists k | 0 <= k < |cats| :: cats[k].id == id && r == cats[k].lessons)
      || (forall k | 0 <= k < |cats| :: cats[k].id != id)
  {
    if cats == [] then []
    else if cats[0].id == id then cats[0].lessons
    else
      var r := CardsFor(cats[1..], id);
      assert forall k | 1 <= k < |cats| :: cats[k] == cats[1..][k - 1];
      r
  }

  function SelectCategory(st: LessonsState, id: string): (r: LessonsState)
    ensures r.activeCategory == id && r.selected == st.selected && r.completed == st.completed
  {
    st.(activeCategory := id)
  }

  function OpenLesson(st: LessonsState, l: Lesson): (r: LessonsState)
    ensures r.selected == Some(l) && r.completed == st.completed
  {
    st.(selected := Some(l))
  }

  function CloseLesson(st: LessonsState): (r: LessonsState)
    ensures r.selected == None && r.completed == st.completed
  {
    st.(selected := None)
  }

  /** Marking a lesson complete adds its id to the set and changes nothing else. */
  function CompleteLesson(st: LessonsState, id: string): (r: LessonsState)
    ensures id in r.completed
    ensures forall x :: x in r.completed <==> x == id || x in st.completed
    ensures r.activeCategory == st.activeCategory && r.selected == st.selected
  {
    st.(completed := st.completed + {id})
  }

  /** Completing is idempotent, never un-completes a lesson, and raises the
      completed count by one exactly for a new id. */
  lemma CompleteLessonProperties(st: LessonsState, id: string)
    ensures CompleteLesson(CompleteLesson(st, id), id) == CompleteLesson(st, id)
    ensures st.completed <= CompleteLesson(st, id).completed
    ensures |CompleteLesson(st, id).completed| == |st.completed| + (if id in st.completed then 0 else 1)
  {
    if id in st.completed {
      assert st.completed + {id} == st.completed;
    } else {
      assert |st.completed + {id}| == |st.completed| + |{id}|;
    }
  }

  /** The complete button is disabled exactly for a lesson already completed. */
  function CompleteDisabled(st: LessonsState, l: Lesson): bool
  {
    l.id in st.completed
  }

  /** After completing the open lesson its button is disabled. */
  lemma CompletingDisables(st: LessonsState, l: Lesson)
    ensures CompleteDisabled(CompleteLesson(st, l.id), l)
    ensures !CompleteDisabled(st, l) <==> l.id !in st.completed
  {
  }

  function CompletedCount(st: LessonsState): nat
  {
    |st.completed|
  }

  /** Number of lessons across categories. */
  function AvailableCount(cats: seq<Category>): (n: nat)
    ensures n == |Flatten(cats)|
  {
    if cats == [] then 0 else |cats[0].lessons| + AvailableCount(cats[1..])
  }

  /** Minutes of the lessons in `ls` whose id is completed. */
  function Minutes(ls: seq<Lesson>, done: set<string>): nat
  {
    if ls == [] then 0
    else (if ls[0].id in done then ls[0].duration else 0) + Minutes(ls[1..], done)
  }

  /** Total study time as the panel sums it: per category, then across. */
  function StudyTime(cats: seq<Category>, done: set<string>): nat
  {
    if cats == [] then 0 else Minutes(cats[0].lessons, done) + StudyTime(cats[1..], done)
  }

  function TotalDuration(ls: seq<Lesson>): nat
  {
    if ls == [] then 0 else ls[0].duration + TotalDuration(ls[1..])
  }

  /** The per-category sums add up to the sum over the whole catalogue. */
  lemma {:induction false} StudyTimeIsFlatMinutes(cats: seq<Category>, done: set<string>)
    ensures StudyTime(cats, done) == Minutes(Flatten(cats), done)
  {
    if cats != [] {
      StudyTimeIsFlatMinutes(cats[1..], done);
      MinutesAppend(cats[0].lessons, Flatten(cats[1..]), done);
    }
  }

  lemma {:induction false} MinutesAppend(a: seq<Lesson>, b: seq<Lesson>, done: set<string>)
    ensures Minutes(a + b, done) == Minutes(a, done) + Minutes(b, done)
  {
    if a == [] {
      assert a + b == b;
    } else {
      assert (a + b)[0] == a[0] && (a + b)[1..] == a[1..] + b;
      MinutesAppend(a[1..], b, done);
    }
  }

  /** Study time never exceeds the duration of all lessons. */
  lemma {:induction false} MinutesBounded(ls: seq<Lesson>, done: set<string>)
    ensures Minutes(ls, done) <= TotalDuration(ls)
  {
    if ls != [] {
      MinutesBounded(ls[1..], done);
    }
  }

  /** Completing every catalogue lesson credits the full duration. */
  lemma {:induction false} MinutesAll(ls: seq<Lesson>, done: set<string>)
    requires Ids(ls) <= done
    ensures Minutes(ls, done) == TotalDuration(ls)
  {
    if ls != [] {
      assert ls[0].id in Ids(ls);
      assert Ids(ls[1..]) <= Ids(ls) by {
        forall x | x in Ids(ls[1..]) ensures x in Ids(ls) {
          var i :| 0 <= i < |ls[1..]| && ls[1..][i].id == x;
          assert ls[i + 1].id == x;
        }
      }
      MinutesAll(ls[1..], done);
    }
  }

  /** With unique ids, completing a not-yet-completed lesson `l` of the list
      adds exactly `l.duration` minutes; a completed or unknown id adds none. */
  lemma {:induction false} MinutesAfterComplete(ls: seq<Lesson>, done: set<string>, id: string)
    requires UniqueIds(ls)
    ensures id in done || id !in Ids(ls) ==> Minutes(ls, done + {id}) == Minutes(ls, done)
    ensures forall i | 0 <= i < |ls| && ls[i].id == id && id !in done ::
      Minutes(ls, done + {id}) == Minutes(ls, done) + ls[i].duration
  {
    if ls != [] {
      var tail := ls[1..];
      assert UniqueIds(tail) by {
        forall i, j | 0 <= i < j < |tail| ensures tail[i].id != tail[j].id {
          assert tail[i] == ls[i + 1] && tail[j] == ls[j + 1];
        }
      }
      MinutesAfterComplete(tail, done, id);
      if ls[0].id == id {
        assert id !in Ids(tail) by {
          forall i | 0 <= i < |tail| ensures tail[i].id != id {
            assert tail[i] == ls[i + 1];
          }
        }
      } else {
        forall i | 0 <= i < |ls| && ls[i].id == id
          ensures i >= 1 && tail[i - 1].id == id
        {
        }
        if id !in Ids(ls) {
          assert id !in Ids(tail) by {
            forall i | 0 <= i < |tail| ensures tail[i].id != id {
              assert tail[i] == ls[i + 1];
            }
          }
        }
      }
    }
  }

  /** The catalogue as shipped: seven lessons, unique ids, 100 minutes. */
  lemma CatalogueFacts()
    ensures AvailableCount(Catalogue) == 7
    ensures UniqueIds(Flatten(Catalogue))
    ensures TotalDuration(Flatten(Catalogue)) == 100
  {
    var all := Flatten(Catalogue);
    assert all == Catalogue[0].lessons + (Catalogue[1].lessons + Catalogue[2].lessons);
    CatalogueMinutes(Catalogue[0].lessons, Catalogue[1].lessons, Catalogue[2].lessons);
  }

  /** The three categories last 45, 27 and 28 minutes. */
  lemma CatalogueMinutes(health: seq<Lesson>, nutrition: seq<Lesson>, water: seq<Lesson>)
    requires health == Catalogue[0].lessons && nutrition == Catalogue[1].lessons
    requires water == Catalogue[2].lessons
    ensures TotalDuration(health + (nutrition + water)) == 100
  {
    TotalDurationAppend(health, nutrition + water);
    TotalDurationAppend(nutrition, water);
    assert TotalDuration(health) == 45;
    assert TotalDuration(nutrition) == 27;
    assert TotalDuration(water) == 28;
  }

  lemma {:induction false} TotalDurationAppend(a: seq<Lesson>, b: seq<Lesson>)
    ensures TotalDuration(a + b) == TotalDuration(a) + TotalDuration(b)
  {
    if a == [] {
      assert a + b == b;
    } else {
      assert (a + b)[0] == a[0] && (a + b)[1..] == a[1..] + b;
      TotalDurationAppend(a[1..], b);
    }
  }

  /** The totals the panel shows: completed count is the set size, available
      lessons is always 7 whatever is completed, and study time lies between
      0 and the catalogue's 100 minutes; completing a new catalogue lesson adds
      exactly its duration. */
  lemma PanelTotals(st: LessonsState, i: nat)
    requires i < |Flatten(Catalogue)|
    ensures StudyTime(Catalogue, st.completed) <= 100
    ensures var l := Flatten(Catalogue)[i];
      l.id !in st.completed ==>
        StudyTime(Catalogue, CompleteLesson(st, l.id).completed) ==
        StudyTime(Catalogue, st.completed) + l.duration
  {
    CatalogueFacts();
    var all := Flatten(Catalogue);
    StudyTimeIsFlatMinutes(Catalogue, st.completed);
    MinutesBounded(all, st.completed);
    var l := all[i];
    StudyTimeIsFlatMinutes(Catalogue, st.completed + {l.id});
    MinutesAfterComplete(all, st.completed, l.id);
  }

  // ---------------------------------------------------------------------------
  // Lesson text rendering
  // ---------------------------------------------------------------------------

  /** How one line of lesson text is shown. */
  datatype Line =
    | Heading(text: string)
    | Blank
    | ListItem(text: string)
    | Numbered(text: string)
    | Paragraph(text: string)

  /** The heading text with every `**` pair removed, scanning left to right
      (a global regular-expression replace). */
  function RemoveStars(s: string): (r: string)
    ensures |r| <= |s|
    ensures NoDoubleStar(r)
    ensures s != [] && s[0] != '*' ==> r != [] && r[0] == s[0]
  {
    if |s| >= 2 && s[0] == '*' && s[1] == '*' then RemoveStars(s[2..])
    else if s == [] then []
    else [s[0]] + RemoveStars(s[1..])
  }

  predicate NoDoubleStar(s: string)
  {
    forall i | 0 <= i < |s| - 1 :: !(s[i] == '*' && s[i + 1] == '*')
  }

  /** Text without stars is left unchanged by the removal. */
  lemma {:induction false} RemoveStarsNoStars(t: string)
    requires '*' !in t
    ensures RemoveStars(t) == t
  {
    if t != [] {
      RemoveStarsNoStars(t[1..]);
      assert t == [t[0]] + t[1..];
    }
  }

  /** Removal distributes over a star-free prefix. */
  lemma {:induction false} RemoveStarsAfterPlain(t: string, u: string)
    requires '*' !in t
    ensures RemoveStars(t + u) == t + RemoveStars(u)
  {
    if t == [] {
      assert t + u == u;
    } else {
      var s := t + u;
      assert s[0] == t[0] && s[0] != '*' && s[1..] == t[1..] + u;
      assert RemoveStars(s) == [s[0]] + RemoveStars(s[1..]);
      RemoveStarsAfterPlain(t[1..], u);
      assert t == [t[0]] + t[1..];
    }
  }

  /** A bold line `**title**` with a star-free title is shown as the title. */
  lemma HeadingText(t: string)
    requires '*' !in t
    ensures ClassifyLine("**" + t + "**") == Heading(t)
  {
    var line := "**" + t + "**";
    assert StartsWith(line, "**") && EndsWith(line, "**");
    assert line[2..] == t + "**";
    RemoveStarsAfterPlain(t, "**");
    assert RemoveStars("**") == "";
  }

  /** `/^\d+\./`: one or more ASCII digits, then a full stop. */
  predicate NumberedPrefix(line: string)
  {
    var n := DigitRun(line);
    n >= 1 && n < |line| && line[n] == '.'
  }

  /** The bullet literal as it appears in the component's text: the bytes of
      `•` (U+2022) shown through the wrong character set, four characters. */
  const MisdecodedBullet := "\U{201A}\U{00C4}\U{00A2} "

  /** The bullet marker the list rule is meant to recognise: `•` and a space. */
  const Bullet := "\U{2022} "

  /** The classifier, checked in the component's order, for a given bullet literal. */
  function ClassifyWith(bullet: string, line: string): Line
    requires |bullet| >= 2
  {
    if StartsWith(line, "**") && EndsWith(line, "**") then Heading(RemoveStars(line))
    else if Trim(line) == "" then Blank
    else if StartsWith(line, "- ") || StartsWith(line, bullet) then ListItem(line[2..])
    else if NumberedPrefix(line) then Numbered(line)
    else Paragraph(line)
  }

  /** The classifier exactly as written, with the misdecoded bullet literal. */
  function ClassifyLineAsWritten(line: string): Line
  {
    ClassifyWith(MisdecodedBullet, line)
  }

  /** The classifier with the intended `• ` bullet. */
  function ClassifyLine(line: string): Line
  {
    ClassifyWith(Bullet, line)
  }

  /** As written, a `• ` line is not recognised as a list item: it is shown
      as a plain paragraph with its bullet. */
  lemma BulletAsWrittenMisses(t: string)
    ensures ClassifyLineAsWritten(Bullet + t) == Paragraph(Bullet + t)
  {
    var b := Bullet + t;
    assert b[0] == '\U{2022}';
    assert !StartsWith(b, "**") by { assert b[..2][0] == b[0]; }
    assert !IsBlank(b) by { assert !IsSpace(b[0]); }
    TrimEmptyIffBlank(b);
    assert !StartsWith(b, "- ") by { assert b[..2][0] == b[0]; }
    assert !StartsWith(b, MisdecodedBullet) by { assert |b| < 4 || b[..4][0] == b[0]; }
    assert !IsDigit(b[0]);
    assert DigitRun(b) == 0;
  }

  /** As written, a line that does start with the misdecoded literal is a list
      item whose text keeps a stray `¢` from the literal. */
  lemma MisdecodedBulletLeaksCharacter(t: string)
    ensures ClassifyLineAsWritten(MisdecodedBullet + t) == ListItem("\U{00A2} " + t)
  {
    var m := MisdecodedBullet + t;
    assert m[0] == '\U{201A}';
    assert !StartsWith(m, "**") by { assert m[..2][0] == m[0]; }
    assert !IsBlank(m) by { assert !IsSpace(m[0]); }
    TrimEmptyIffBlank(m);
    assert m[..4] == MisdecodedBullet;
    assert MisdecodedBullet[2..] == "\U{00A2} " by {
      assert MisdecodedBullet[2] == '\U{00A2}' && MisdecodedBullet[3] == ' ';
    }
    assert m[2..] == MisdecodedBullet[2..] + t;
  }

  /** Line classification, in order: a line both starting and ending with
      `**` is a heading with no `**` left in its text; otherwise a blank line
      is a break; numbered items and paragraphs keep the whole line, and a
      numbered item starts with digits and a full stop. */
  lemma ClassifyLineRules(line: string)
    ensures ClassifyLine(line).Heading? <==> StartsWith(line, "**") && EndsWith(line, "**")
    ensures ClassifyLine(line).Heading? ==> NoDoubleStar(ClassifyLine(line).text)
    ensures ClassifyLine(line).Blank? <==> !ClassifyLine(line).Heading? && IsBlank(line)
    ensures ClassifyLine(line).Numbered? ==> NumberedPrefix(line) && ClassifyLine(line).text == line
    ensures ClassifyLine(line).Paragraph? ==> ClassifyLine(line).text == line && !NumberedPrefix(line)
  {
    TrimEmptyIffBlank(line);
  }

  /** A `- ` or `• ` line is a list item showing the text after the
      two-character marker. */
  lemma ListItemRules(t: string)
    ensures ClassifyLine("- " + t) == ListItem(t)
    ensures ClassifyLine(Bullet + t) == ListItem(t)
  {
    var d := "- " + t;
    assert d[0] == '-';
    assert !IsBlank(d) by { assert !IsSpace(d[0]); }
    TrimEmptyIffBlank(d);
    assert !StartsWith(d, "**") by { assert d[0] != '*'; }
    assert d[..2] == "- " && d[2..] == t;
    var b := Bullet + t;
    assert b[0] == '\U{2022}';
    assert !IsBlank(b) by { assert !IsSpace(b[0]); }
    TrimEmptyIffBlank(b);
    assert !StartsWith(b, "**") by { assert b[0] != '*'; }
    assert b[..2] == Bullet && b[2..] == t;
  }

  /** As the corrected classifier sees it, a line starting with the
      misdecoded literal is a plain paragraph. */
  lemma MisdecodedBulletIsParagraph(t: string)
    ensures ClassifyLine(MisdecodedBullet + t) == Paragraph(MisdecodedBullet + t)
  {
    var m := MisdecodedBullet + t;
    assert m[0] == '\U{201A}';
    assert !StartsWith(m, "**") by { assert m[..2][0] == m[0]; }
    assert !IsBlank(m) by { assert !IsSpace(m[0]); }
    TrimEmptyIffBlank(m);
    assert !StartsWith(m, "- ") by { assert m[..2][0] == m[0]; }
    assert !StartsWith(m, Bullet) by { assert m[..2][0] == m[0]; }
    assert !IsDigit(m[0]);
    assert DigitRun(m) == 0;
  }

  /** The two classifiers differ on a line exactly when it starts with one
      of the two bullet literals. */
  lemma ClassifiersAgree(line: string)
    ensures ClassifyLineAsWritten(line) == ClassifyLine(line) <==>
      !StartsWith(line, Bullet) && !StartsWith(line, MisdecodedBullet)
  {
    if StartsWith(line, Bullet) {
      assert line == Bullet + line[2..];
      BulletAsWrittenMisses(line[2..]);
      ListItemRules(line[2..]);
    } else if StartsWith(line, MisdecodedBullet) {
      assert line == MisdecodedBullet + line[4..];
      MisdecodedBulletLeaksCharacter(line[4..]);
      MisdecodedBulletIsParagraph(line[4..]);
    }
  }

  /** A lesson's text, line by line (`content.split('\n')`), for a given
      bullet literal. */
  function RenderWith(bullet: string, content: string): (r: seq<Line>)
    requires |bullet| >= 2
    ensures |r| == |Split(content, '\n')|
    ensures forall i | 0 <= i < |r| :: r[i] == ClassifyWith(bullet, Split(content, '\n')[i])
  {
    var lines := Split(content, '\n');
    seq(|lines|, i requires 0 <= i < |lines| => ClassifyWith(bullet, lines[i]))
  }

  /** The lesson view exactly as written, with the misdecoded bullet literal. */
  function RenderAsWritten(content: string): (r: seq<Line>)
    ensures |r| == |Split(content, '\n')|
  {
    RenderWith(MisdecodedBullet, content)
  }

  /** The lesson view with the intended `• ` bullet. */
  function Render(content: string): (r: seq<Line>)
    ensures |r| == |Split(content, '\n')|
  {
    RenderWith(Bullet, content)
  }

  /** Text without a line break renders as that one line. */
  lemma RenderOneLine(bullet: string, line: string)
    requires |bullet| >= 2 && '\n' !in line
    ensures RenderWith(bullet, line) == [ClassifyWith(bullet, line)]
  {
  }

  /** Text joined at a line break renders as the two parts rendered one
      after the other: each line is classified on its own, whatever
      surrounds it. */
  lemma RenderLineByLine(bullet: string, a: string, b: string)
    requires |bullet| >= 2
    ensures RenderWith(bullet, a + "\n" + b) == RenderWith(bullet, a) + RenderWith(bullet, b)
  {
    SplitAppend(a, '\n', b);
  }

  /** The page as written shows a lesson just as the corrected view does
      exactly when none of its lines starts with either bullet literal. */
  lemma RenderAgreesWithoutBullets(content: string)
    ensures (forall i | 0 <= i < |Split(content, '\n')| ::
        !StartsWith(Split(content, '\n')[i], Bullet) &&
        !StartsWith(Split(content, '\n')[i], MisdecodedBullet)) ==>
      RenderAsWritten(content) == Render(content)
    ensures RenderAsWritten(content) == Render(content) ==>
      forall i | 0 <= i < |Split(content, '\n')| ::
        !StartsWith(Split(content, '\n')[i], Bullet) &&
        !StartsWith(Split(content, '\n')[i], MisdecodedBullet)
  {
    var lines := Split(content, '\n');
    var shown, meant := RenderAsWritten(content), Render(content);
    if forall i | 0 <= i < |lines| :: !StartsWith(lines[i], Bullet) && !StartsWith(lines[i], MisdecodedBullet) {
      forall i | 0 <= i < |lines| ensures shown[i] == meant[i] {
        ClassifiersAgree(lines[i]);
      }
      assert shown == meant;
    } else {
      var i :| 0 <= i < |lines| && (StartsWith(lines[i], Bullet) || StartsWith(lines[i], MisdecodedBullet));
      ClassifiersAgree(lines[i]);
      assert shown[i] != meant[i];
      assert shown != meant;
    }
  }
}
