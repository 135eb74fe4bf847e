/** The homework helper: a photographed problem is "recognised" after a
    delay by picking one of three sample problems at random, a sample problem
    can be opened directly, and the page shows the upload, demo, processing,
    preview and solution sections depending on the state. */
module Homework {
  import opened Types

  datatype Subject = MathSubject | ScienceSubject

  datatype Problem = Problem(
    id: string,
    subject: Subject,
    problem: string,
    solution: string,
    steps: seq<string>)

  const SampleProblems: seq<Problem> := [
    Problem("1", MathSubject, "Solve for x: 2x + 5 = 13", "x = 4", [
      "Start with the equation: 2x + 5 = 13",
      "Subtract 5 from both sides: 2x = 13 - 5",
      "Simplify: 2x = 8",
      "Divide both sides by 2: x = 8 \U{00F7} 2",
      "Final answer: x = 4"]),
    Problem("2", MathSubject, "Calculate the area of a circle with radius 5cm", "Area = 78.5 cm\U{00B2}", [
      "Formula for circle area: A = \U{03C0}r\U{00B2}",
      "Given radius r = 5 cm",
      "Substitute: A = \U{03C0} \U{00D7} 5\U{00B2}",
      "Calculate: A = \U{03C0} \U{00D7} 25",
      "A = 3.14159 \U{00D7} 25 = 78.5 cm\U{00B2}"]),
    Problem("3", ScienceSubject, "What is photosynthesis?",
      "Photosynthesis is the process by which plants make food using sunlight.", [
      "Plants absorb sunlight through their leaves",
      "They take in carbon dioxide from the air",
      "Water is absorbed through their roots",
      "Chlorophyll helps convert these into glucose (sugar)",
      "Oxygen is released as a by-product",
      "This process provides food for the plant and oxygen for us"])
  ]

  /** The page's state; `image` is the uploaded picture as a data URL. */
  datatype HelperState = HelperState(
    image: Option<string>,
    processing: bool,
    solution: Option<Problem>,
    showSteps: bool)

  const Initial := HelperState(None, false, None, false)

  /** An image counts as present when there is one and it is not the empty
      text (which the page treats as no image). */
  predicate HasImage(st: HelperState)
  {
    st.image.Some? && st.image.value != ""
  }

  /** Recognition starts: processing on, previous solution gone, steps hidden. */
  function ProcessProblem(st: HelperState): (r: HelperState)
    ensures r.processing && r.solution.None? && !r.showSteps
    ensures r.image == st.image
  {
    st.(processing := true, solution := None, showSteps := false)
  }

  /** A picture has been read: it is kept and recognition starts. */
  function Upload(st: HelperState, dataUrl: string): (r: HelperState)
    ensures r.image == Some(dataUrl)
    ensures r.processing && r.solution.None? && !r.showSteps
  {
    ProcessProblem(st.(image := Some(dataUrl)))
  }

  /** The recognition timer fires with a draw in [0, 3): one of the sample
      problems becomes the solution and processing ends. The image is kept. */
  function ProcessingDone(st: HelperState, draw: int): (r: HelperState)
    requires 0 <= draw < |SampleProblems|
    ensures r.solution.Some? && r.solution.value in SampleProblems
    ensures !r.processing
    ensures r.image == st.image && r.showSteps == st.showSteps
  {
    st.(solution := Some(SampleProblems[draw]), processing := false)
  }

  /** Start over: no image, no solution, steps hidden, not processing. */
  function Reset(st: HelperState): (r: HelperState)
    ensures r.image.None? && r.solution.None? && !r.processing && !r.showSteps
  {
    HelperState(None, false, None, false)
  }

  /** A problem's key in the demo list. */
  function ProblemId(p: Problem): string
  {
    p.id
  }

  /** Opening a demo problem: a known id shows that problem with no image and
      the steps hidden; an unknown id changes nothing. Processing is not
      touched. */
  function TryDemoProblem(st: HelperState, id: string): (r: HelperState)
    ensures (forall k | 0 <= k < |SampleProblems| :: SampleProblems[k].id != id) ==> r == st
    ensures (exists k | 0 <= k < |SampleProblems| :: SampleProblems[k].id == id) ==>
      && r.solution.Some? && r.solution.value.id == id && r.solution.value in SampleProblems
      && r.image.None? && !r.showSteps && r.processing == st.processing
  {
    match FindBy(SampleProblems, ProblemId, id)
    case None => st
    case Some(p) => st.(solution := Some(p), image := None, showSteps := false)
  }

  function ToggleSteps(st: HelperState): (r: HelperState)
    ensures r.showSteps == !st.showSteps
    ensures r.image == st.image && r.solution == st.solution && r.processing == st.processing
  {
    st.(showSteps := !st.showSteps)
  }

  // ---------------------------------------------------------------------------
  // Which sections are shown
  // ---------------------------------------------------------------------------

  /** The upload area and the demo list share one condition. */
  predicate ShowsUploadAndDemos(st: HelperState)
  {
    !HasImage(st) && st.solution.None?
  }

  predicate ShowsProcessing(st: HelperState)
  {
    st.processing
  }

  predicate ShowsPreview(st: HelperState)
  {
    HasImage(st) && !st.processing
  }

  predicate ShowsSolution(st: HelperState)
  {
    st.solution.Some? && !st.processing
  }

  predicate ShowsSteps(st: HelperState)
  {
    ShowsSolution(st) && st.showSteps
  }

  /** In every state: the upload and demo area is never shown together with
      the preview or the solution, and the spinner never together with the
      preview or the solution. */
  lemma SectionsExclusive(st: HelperState)
    ensures ShowsUploadAndDemos(st) ==> !ShowsPreview(st) && !ShowsSolution(st)
    ensures ShowsProcessing(st) ==> !ShowsPreview(st) && !ShowsSolution(st)
  {
  }

  /** After an upload only the spinner is shown; when recognition finishes
      the picture and a sample solution are shown, with the steps hidden. */
  lemma UploadThenDone(st: HelperState, dataUrl: string, draw: int)
    requires dataUrl != "" && 0 <= draw < |SampleProblems|
    ensures var u := Upload(st, dataUrl);
      ShowsProcessing(u) && !ShowsUploadAndDemos(u) && !ShowsPreview(u) && !ShowsSolution(u)
    ensures var d := ProcessingDone(Upload(st, dataUrl), draw);
      ShowsPreview(d) && ShowsSolution(d) && !ShowsSteps(d) && !ShowsProcessing(d)
  {
  }

  /** After a reset only the upload and demo area is shown. */
  lemma ResetShowsUploadOnly(st: HelperState)
    ensures var r := Reset(st);
      ShowsUploadAndDemos(r) && !ShowsProcessing(r) && !ShowsPreview(r) && !ShowsSolution(r)
  {
  }

  /** Opening a demo problem from the start page shows its solution and
      nothing else; the steps appear after one toggle and go after another. */
  lemma DemoFromStartPage(st: HelperState, k: nat)
    requires ShowsUploadAndDemos(st) && !st.processing && k < |SampleProblems|
    ensures var r := TryDemoProblem(st, SampleProblems[k].id);
      && ShowsSolution(r) && r.solution == Some(SampleProblems[k])
      && !ShowsUploadAndDemos(r) && !ShowsPreview(r) && !ShowsSteps(r)
      && ShowsSteps(ToggleSteps(r))
      && ToggleSteps(ToggleSteps(r)) == r
  {
    DistinctIds(k);
  }

  /** The sample problems have distinct ids, so a demo id picks exactly its
      own problem. */
  lemma DistinctIds(k: nat)
    requires k < |SampleProblems|
    ensures FindBy(SampleProblems, ProblemId, SampleProblems[k].id) == Some(SampleProblems[k])
  {
    assert SampleProblems[0].id == "1" && SampleProblems[1].id == "2" && SampleProblems[2].id == "3";
  }

  // ---------------------------------------------------------------------------
  // Text shown
  // ---------------------------------------------------------------------------

  /** A demo card's preview: the first 50 characters of the problem (all of a
      shorter one), then an ellipsis. */
  function Preview(problem: string): (r: string)
    ensures |r| == (if |problem| < 50 then |problem| else 50) + 3
    ensures r[..|r| - 3] == problem[..|r| - 3] && r[|r| - 3..] == "..."
    ensures |problem| <= 50 ==> r == problem + "..."
  {
    (if |problem| < 50 then problem else problem[..50]) + "..."
  }

  /** The step list as shown: each step with its number, counting from 1. */
  function NumberedSteps(steps: seq<string>): (r: seq<(int, string)>)
    ensures |r| == |steps|
    ensures forall i | 0 <= i < |r| :: r[i].1 == steps[i]
    ensures forall i | 0 <= i < |r| :: r[i].0 == i + 1
  {
    seq(|steps|, i requires 0 <= i < |steps| => (i + 1, steps[i]))
  }

  /** Step numbers run 1, 2, ..., n without gaps, ending at the step count. */
  lemma StepNumbersConsecutive(steps: seq<string>)
    requires steps != []
    ensures NumberedSteps(steps)[0].0 == 1
    ensures NumberedSteps(steps)[|steps| - 1].0 == |steps|
    ensures forall i | 0 <= i < |steps| - 1 :: NumberedSteps(steps)[i + 1].0 == NumberedSteps(steps)[i].0 + 1
  {
  }
}
