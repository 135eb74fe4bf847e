/** The reading coach: the three reading exercises, the audio guide that
    steps through the words of the text, the simulated practice session and
    its feedback, the reading-progress bar, and the highlighting of the
    current word and of the exercise's target words. */
module Reading {
  import opened Types
  import opened Text

  datatype Difficulty = Beginner | Intermediate | Advanced

  /** The reading text of an exercise. The three texts are named here and
      spelled out by `PassageText`, so that facts about an exercise record do
      not drag its whole text along. */
  datatype Passage = EatingPassage | WaterPassage | MovementPassage

  datatype Exercise = Exercise(
    id: string,
    title: string,
    text: Passage,
    difficulty: Difficulty,
    targetWords: seq<string>)

  function PassageText(p: Passage): string
  {
    match p
    case EatingPassage =>
      "Eating healthy foods is very important for our bodies. Fresh fruits and vegetables give us vitamins and minerals that help us grow strong. When we eat colorful foods like red tomatoes, green spinach, and orange carrots, we get different nutrients that our bodies need. \n\nIt's also important to drink plenty of water every day. Water helps our bodies work properly and keeps us hydrated. Try to eat three meals a day and choose foods that will give you energy to play and learn.\n\nRemember, a balanced diet includes fruits, vegetables, grains, and proteins. When we take care of our bodies by eating well, we feel better and can focus better in school."
    case WaterPassage =>
      "Clean water is essential for life. Every person needs access to safe drinking water to stay healthy. Dirty water can contain harmful germs that make people sick. That's why it's important to always drink water that has been properly cleaned or boiled.\n\nIn many communities, people work together to protect their water sources. They keep rivers and wells clean by not throwing garbage near them. When we all do our part, everyone can have access to clean, safe water.\n\nIf you're not sure if water is safe to drink, it's better to boil it first or use water purification tablets. Taking care of our water helps take care of our health."
    case MovementPassage =>
      "Regular exercise helps keep our bodies strong and healthy. When we move our bodies through activities like walking, running, dancing, or playing sports, our muscles get stronger and our hearts get healthier.\n\nExercise doesn't have to be difficult or boring. You can exercise by playing games with friends, helping with chores around the house, or even dancing to your favorite music. The important thing is to move your body every day.\n\nWhen we exercise regularly, we sleep better at night, feel more energetic during the day, and can concentrate better on our studies. Movement is medicine for our bodies and minds."
  }

  const HealthyEating := Exercise("1", "Healthy Eating Habits",
    EatingPassage,
    Intermediate, ["healthy", "vitamins", "nutrients", "balanced", "hydrated"])

  const CleanWater := Exercise("2", "Clean Water Importance",
    WaterPassage,
    Beginner, ["essential", "access", "harmful", "communities", "purification"])

  const Movement := Exercise("3", "Exercise and Movement",
    MovementPassage,
    Advanced, ["regular", "activities", "muscles", "concentrate", "energetic"])

  /** The result of one practice session. */
  datatype Feedback = Feedback(
    accuracy: int,
    wordsCorrect: int,
    totalWords: int,
    tips: seq<string>,
    overallScore: int)

  const Tips: seq<string> := [
    "Great job with pronunciation of 'healthy'!",
    "Try to slow down when reading complex words like 'nutrients'.",
    "Your intonation improved significantly during this session.",
    "Focus on the 'th' sound in words like 'the' and 'that'."
  ]

  /** The three random draws of one feedback: `accuracyDraw` is
      `floor(random * 20)`, `tipsDraw` is `floor(random * 3)`, and `scoreDraw`
      is `random * 20`. */
  datatype FeedbackDraws = FeedbackDraws(accuracyDraw: int, tipsDraw: int, scoreDraw: real)

  predicate ValidDraws(d: FeedbackDraws)
  {
    0 <= d.accuracyDraw < 20 && 0 <= d.tipsDraw < 3 && 0.0 <= d.scoreDraw < 20.0
  }

  /** The panel's state; `wordIndex` is -1 when no word is being read aloud. */
  datatype CoachState = CoachState(
    exercise: Exercise,
    recording: bool,
    playing: bool,
    feedback: Option<Feedback>,
    progress: int,
    wordIndex: int)

  const Initial := CoachState(HealthyEating, false, false, None, 0, -1)

  /** The words of the current text, split at runs of whitespace. */
  function Words(st: CoachState): (r: seq<string>)
    ensures |r| >= 1
  {
    SplitOnSpaces(PassageText(st.exercise.text))
  }

  /** The progress bar lies in [0, 100]; the guide is on exactly when an
      index into the words is set. */
  predicate Valid(st: CoachState)
  {
    && 0 <= st.progress <= 100
    && (st.playing ==> 0 <= st.wordIndex < |Words(st)|)
    && (!st.playing ==> st.wordIndex == -1)
  }

  lemma InitialValid(st: CoachState)
    requires st == Initial
    ensures Valid(st)
  {
  }

  // ---------------------------------------------------------------------------
  // Feedback
  // ---------------------------------------------------------------------------

  /** One feedback for a text of `totalWords` words. */
  function MakeFeedback(totalWords: nat, d: FeedbackDraws): (f: Feedback)
    requires ValidDraws(d)
    ensures 80 <= f.accuracy <= 99
    ensures f.totalWords == totalWords
    ensures 0 <= f.wordsCorrect <= totalWords
    ensures f.wordsCorrect * 100 <= f.accuracy * totalWords < (f.wordsCorrect + 1) * 100
    ensures 1 <= |f.tips| <= 3 && f.tips == Tips[..|f.tips|]
    ensures 64 <= f.overallScore <= 99
  {
    var accuracy := d.accuracyDraw + 80;
    Feedback(accuracy, WordsCorrect(accuracy, totalWords), totalWords, Tips[..d.tipsDraw + 1],
      Score(accuracy, d.scoreDraw))
  }

  /** `Math.floor((accuracy / 100) * totalWords)`. */
  function WordsCorrect(accuracy: int, totalWords: nat): (w: int)
    requires 0 <= accuracy <= 100
    ensures 0 <= w <= totalWords
    ensures w * 100 <= accuracy * totalWords < (w + 1) * 100
  {
    var w := accuracy * totalWords / 100;
    assert accuracy * totalWords <= 100 * totalWords;
    w
  }

  /** `Math.floor(accuracy * 0.8 + random * 20)`. */
  function Score(accuracy: int, draw: real): (s: int)
    requires 80 <= accuracy <= 99 && 0.0 <= draw < 20.0
    ensures 64 <= s <= 99
  {
    assert 64.0 <= accuracy as real * 0.8 + draw < 100.0;
    (accuracy as real * 0.8 + draw).Floor
  }

  /** A practice session ends with feedback for a text of `totalWords`
      words: the feedback is shown and the progress bar grows by ten, capped
      at 100 (an update of the current progress, whenever it runs). */
  function GiveFeedback(st: CoachState, totalWords: nat, d: FeedbackDraws): (r: CoachState)
    requires ValidDraws(d)
    ensures r.feedback.Some? && r.feedback.value.totalWords == totalWords
    ensures r.progress == if st.progress + 10 < 100 then st.progress + 10 else 100
    ensures r.exercise == st.exercise && r.playing == st.playing && r.wordIndex == st.wordIndex
    ensures r.recording == st.recording
  {
    st.(feedback := Some(MakeFeedback(totalWords, d)),
        progress := if st.progress + 10 < 100 then st.progress + 10 else 100)
  }

  /** Feedback computed in the current state: the word count is that of the
      text now shown. */
  function ProvideFeedback(st: CoachState, d: FeedbackDraws): (r: CoachState)
    requires ValidDraws(d)
    ensures r.feedback.Some? && r.feedback.value.totalWords == |Words(st)|
    ensures r.progress == if st.progress + 10 < 100 then st.progress + 10 else 100
    ensures r.exercise == st.exercise && r.playing == st.playing && r.wordIndex == st.wordIndex
    ensures r.recording == st.recording
  {
    GiveFeedback(st, |Words(st)|, d)
  }

  /** The progress bar stays in [0, 100] and never moves back on feedback; from
      below 100 it moves up. */
  lemma FeedbackProgress(st: CoachState, d: FeedbackDraws)
    requires ValidDraws(d) && 0 <= st.progress <= 100
    ensures var p := ProvideFeedback(st, d).progress;
      && 0 <= p <= 100
      && st.progress <= p
      && (st.progress < 100 ==> st.progress < p)
      && (st.progress >= 90 ==> p == 100)
  {
  }

  /** Starting practice turns recording on and hides the last feedback. */
  function StartRecording(st: CoachState): (r: CoachState)
    ensures r.recording && r.feedback.None?
    ensures r.progress == st.progress && r.playing == st.playing && r.wordIndex == st.wordIndex
    ensures r.exercise == st.exercise
  {
    st.(recording := true, feedback := None)
  }

  /** Stopping practice by hand turns recording off and gives feedback for
      the text now shown. */
  function StopRecording(st: CoachState, d: FeedbackDraws): (r: CoachState)
    requires ValidDraws(d)
    ensures !r.recording && r.feedback.Some? && r.feedback.value.totalWords == |Words(st)|
    ensures r.progress == if st.progress + 10 < 100 then st.progress + 10 else 100
    ensures r.exercise == st.exercise && r.playing == st.playing && r.wordIndex == st.wordIndex
  {
    ProvideFeedback(st.(recording := false), d)
  }

  /** The five-second timeout set when practice started fires. It is never
      cancelled, and its callback still holds the word count `startWords` of
      the text shown when practice started: it turns recording off and gives
      feedback for that count, whatever happened in between. */
  function RecordingTimeout(st: CoachState, startWords: nat, d: FeedbackDraws): (r: CoachState)
    requires ValidDraws(d)
    ensures !r.recording && r.feedback.Some? && r.feedback.value.totalWords == startWords
    ensures r.progress == if st.progress + 10 < 100 then st.progress + 10 else 100
    ensures r.exercise == st.exercise && r.playing == st.playing && r.wordIndex == st.wordIndex
  {
    GiveFeedback(st.(recording := false), startWords, d)
  }

  /** Practice started, then another exercise chosen before the timeout
      fires: the timeout still shows feedback, on the reset panel (progress
      10), counting the words of the text practice started on; stopping by
      hand instead would count the new text, so the two differ whenever the
      texts' word counts do. */
  lemma TimeoutCountsStartText(st: CoachState, k: nat, d: FeedbackDraws)
    requires k < 3 && ValidDraws(d)
    ensures var switched := SelectExercise(StartRecording(st), Menu[k].id);
      var r := RecordingTimeout(switched, |Words(st)|, d);
      && r.exercise == Menu[k]
      && r.feedback.Some? && r.feedback.value.totalWords == |Words(st)|
      && r.progress == 10 && !r.recording
      && (|Words(switched)| != |Words(st)| ==> r != StopRecording(switched, d))
  {
    EveryExerciseSelectable(StartRecording(st), k);
  }

  /** The practice button is disabled while the guide plays. */
  function CanRecord(st: CoachState): bool
  {
    !st.playing
  }

  // ---------------------------------------------------------------------------
  // Audio guide
  // ---------------------------------------------------------------------------

  /** The guide button: switching it on starts at the first word, switching
      it off clears the index. */
  function ToggleGuide(st: CoachState): (r: CoachState)
    ensures r.playing == !st.playing
    ensures r.wordIndex == if st.playing then -1 else 0
    ensures Valid(st) ==> Valid(r)
    ensures r.exercise == st.exercise && r.progress == st.progress && r.feedback == st.feedback
  {
    st.(playing := !st.playing, wordIndex := if st.playing then -1 else 0)
  }

  /** One firing of the guide's timer over a text of `count` words (the timer
      only runs while the guide plays): the index moves to the next word, and
      after the last word the guide stops and the index is cleared. */
  function GuideStep(st: CoachState, count: int): (r: CoachState)
    ensures !st.playing ==> r == st
    ensures st.playing && st.wordIndex < count - 1 ==> r.playing && r.wordIndex == st.wordIndex + 1
    ensures st.playing && st.wordIndex >= count - 1 ==> !r.playing && r.wordIndex == -1
    ensures r.exercise == st.exercise && r.progress == st.progress && r.feedback == st.feedback
  {
    if !st.playing then st
    else if st.wordIndex < count - 1 then st.(wordIndex := st.wordIndex + 1)
    else st.(playing := false, wordIndex := -1)
  }

  /** The guide's timer fires for the current text. */
  function GuideTick(st: CoachState): (r: CoachState)
    ensures Valid(st) ==> Valid(r)
  {
    GuideStep(st, |Words(st)|)
  }

  /** `n` firings of the guide's timer over a text of `count` words. */
  function GuideRun(st: CoachState, count: int, n: nat): CoachState
    decreases n
  {
    if n == 0 then st else GuideRun(GuideStep(st, count), count, n - 1)
  }

  /** Once switched on, the guide visits every word in order: after `n`
      firings with `n` less than the word count it is on word `n`, and one
      more firing after the last word switches it off. */
  lemma GuideVisitsEveryWord(st: CoachState, count: int, n: nat)
    requires st.playing && st.wordIndex == 0
    requires n < count
    ensures GuideRun(st, count, n).playing && GuideRun(st, count, n).wordIndex == n
    ensures n == count - 1 ==>
      !GuideRun(st, count, n + 1).playing && GuideRun(st, count, n + 1).wordIndex == -1
  {
    GuideRunFrom(st, count, n);
    GuideRunSplit(st, count, n);
  }

  lemma {:induction false} GuideRunFrom(st: CoachState, count: int, n: nat)
    requires st.playing && 0 <= st.wordIndex && st.wordIndex + n < count
    ensures GuideRun(st, count, n).playing && GuideRun(st, count, n).wordIndex == st.wordIndex + n
    decreases n
  {
    if n > 0 {
      GuideRunFrom(GuideStep(st, count), count, n - 1);
    }
  }

  lemma {:induction false} GuideRunSplit(st: CoachState, count: int, n: nat)
    ensures GuideRun(st, count, n + 1) == GuideStep(GuideRun(st, count, n), count)
    decreases n
  {
    if n > 0 {
      GuideRunSplit(GuideStep(st, count), count, n - 1);
    }
  }

  /** Reset: no feedback, progress 0, no word, guide and recording off. */
  function Reset(st: CoachState): (r: CoachState)
    ensures r.feedback.None? && r.progress == 0 && r.wordIndex == -1
    ensures !r.playing && !r.recording
    ensures r.exercise == st.exercise
    ensures Valid(r)
  {
    st.(feedback := None, progress := 0, wordIndex := -1, playing := false, recording := false)
  }

  /** Every event keeps the panel's invariant. */
  lemma EventsKeepValid(st: CoachState, d: FeedbackDraws, startWords: nat)
    requires Valid(st) && ValidDraws(d)
    ensures Valid(StartRecording(st)) && Valid(StopRecording(st, d))
    ensures Valid(RecordingTimeout(st, startWords, d))
    ensures Valid(ToggleGuide(st)) && Valid(GuideTick(st)) && Valid(Reset(st))
  {
  }

  // ---------------------------------------------------------------------------
  // Highlighting
  // ---------------------------------------------------------------------------

  predicate IsPunctuation(c: char)
  {
    c == '.' || c == ',' || c == '!' || c == '?'
  }

  /** The characters of `s` other than `.`, `,`, `!` and `?`, in order. */
  function DropPunctuation(s: string): (r: string)
    ensures |r| <= |s|
    ensures forall i | 0 <= i < |r| :: !IsPunctuation(r[i])
    ensures (forall i | 0 <= i < |s| :: !IsPunctuation(s[i])) ==> r == s
  {
    if s == [] then []
    else if IsPunctuation(s[0]) then DropPunctuation(s[1..])
    else [s[0]] + DropPunctuation(s[1..])
  }

  /** A word's comparison key: lower-cased, punctuation removed. */
  function Normalize(word: string): string
  {
    DropPunctuation(Lower(word))
  }

  /** A word is a target word when its key equals some lower-cased target. */
  predicate IsTarget(word: string, targets: seq<string>)
  {
    exists k | 0 <= k < |targets| :: Normalize(word) == Lower(targets[k])
  }

  datatype Mark = CurrentWord | TargetWord | Plain

  /** How the word at `index` is shown: the word being read aloud first,
      then a target word, otherwise plain. */
  function MarkOf(st: CoachState, index: int, word: string): (m: Mark)
    ensures m == CurrentWord <==> index == st.wordIndex
    ensures m == TargetWord <==> index != st.wordIndex && IsTarget(word, st.exercise.targetWords)
  {
    if index == st.wordIndex then CurrentWord
    else if IsTarget(word, st.exercise.targetWords) then TargetWord
    else Plain
  }

  lemma {:induction false} DropPunctuationAppend(a: string, b: string)
    ensures DropPunctuation(a + b) == DropPunctuation(a) + DropPunctuation(b)
  {
    if a == [] {
      assert a + b == b;
    } else {
      assert (a + b)[0] == a[0] && (a + b)[1..] == a[1..] + b;
      DropPunctuationAppend(a[1..], b);
    }
  }

  lemma {:induction false} LowerAppend(a: string, b: string)
    ensures Lower(a + b) == Lower(a) + Lower(b)
  {
    assert |Lower(a + b)| == |Lower(a) + Lower(b)|;
    forall i | 0 <= i < |a + b| ensures Lower(a + b)[i] == (Lower(a) + Lower(b))[i] {
      if i < |a| {
        assert (a + b)[i] == a[i];
      } else {
        assert (a + b)[i] == b[i - |a|];
      }
    }
  }

  /** A target word in any letter case, followed by trailing punctuation
      such as a full stop or comma, is highlighted as that target. */
  lemma TargetWithPunctuation(w: string, p: string, targets: seq<string>, k: nat)
    requires k < |targets| && Lower(w) == Lower(targets[k])
    requires forall i | 0 <= i < |w| :: !IsPunctuation(LowerChar(w[i]))
    requires forall i | 0 <= i < |p| :: IsPunctuation(p[i])
    ensures Normalize(w + p) == Lower(targets[k])
    ensures IsTarget(w + p, targets)
  {
    LowerAppend(w, p);
    DropPunctuationAppend(Lower(w), Lower(p));
    assert Lower(p) == p by {
      forall i | 0 <= i < |p| ensures Lower(p)[i] == p[i] {
        assert IsPunctuation(p[i]);
      }
    }
    assert DropPunctuation(p) == [] by { DropAllPunctuation(p); }
    assert DropPunctuation(Lower(w)) == Lower(w);
  }

  lemma {:induction false} DropAllPunctuation(p: string)
    requires forall i | 0 <= i < |p| :: IsPunctuation(p[i])
    ensures DropPunctuation(p) == []
  {
    if p != [] {
      DropAllPunctuation(p[1..]);
    }
  }

  // ---------------------------------------------------------------------------
  // Choosing an exercise
  // ---------------------------------------------------------------------------

  /** An exercise's key in the menu. */
  function ExerciseId(e: Exercise): string
  {
    e.id
  }

  /** The menu as written: its first entry is the exercise currently shown,
      not the first exercise. */
  function MenuAsWritten(st: CoachState): seq<Exercise>
  {
    [st.exercise, CleanWater, Movement]
  }

  /** The menu as intended: the three exercises. */
  const Menu: seq<Exercise> := [HealthyEating, CleanWater, Movement]

  /** Choosing from a menu: an id not in it changes nothing; a listed id
      shows that exercise and resets the panel. */
  function SelectFrom(menu: seq<Exercise>, st: CoachState, id: string): (r: CoachState)
    ensures (forall k | 0 <= k < |menu| :: menu[k].id != id) ==> r == st
    ensures (exists k | 0 <= k < |menu| :: menu[k].id == id) ==>
      r.exercise.id == id && r.exercise in menu && r == Reset(st).(exercise := r.exercise)
  {
    match FindBy(menu, ExerciseId, id)
    case None => st
    case Some(ex) => Reset(st).(exercise := ex)
  }

  function SelectExerciseAsWritten(st: CoachState, id: string): CoachState
  {
    SelectFrom(MenuAsWritten(st), st, id)
  }

  function SelectExercise(st: CoachState, id: string): CoachState
  {
    SelectFrom(Menu, st, id)
  }

  /** As written, after switching to exercise 2 the first exercise can no
      longer be chosen: the menu then lists exercise 2 twice and exercise 1
      not at all. */
  lemma FirstExerciseLostAsWritten(init: CoachState)
    requires init.exercise == HealthyEating
    ensures var st := SelectExerciseAsWritten(init, "2");
      && st.exercise == CleanWater
      && SelectExerciseAsWritten(st, "1") == st
  {
    var st := SelectExerciseAsWritten(init, "2");
    assert MenuAsWritten(init)[0].id == "1" && MenuAsWritten(init)[1].id == "2";
    assert st.exercise == CleanWater;
    assert forall k | 0 <= k < 3 :: MenuAsWritten(st)[k].id != "1";
  }

  /** With the fixed menu, each of the three ids can be chosen from any state,
      and the panel is reset. */
  lemma EveryExerciseSelectable(st: CoachState, k: nat)
    requires k < 3
    ensures SelectExercise(st, Menu[k].id).exercise == Menu[k]
    ensures Valid(SelectExercise(st, Menu[k].id))
  {
    assert Menu[0].id == "1" && Menu[1].id == "2" && Menu[2].id == "3";
  }
}
