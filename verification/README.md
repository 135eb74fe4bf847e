# EDU-AI core, modelled in Dafny

EDU-AI is a React demo of a learning app with no backend. Its logic lives in
the state of its components. This project models that state as immutable
records and each handler as a pure transition function, then proves what the
handlers promise. A timer firing is an explicit event, and every
`Math.random()` becomes an argument limited to the range the code produces.

One module per component:

| module | component |
|---|---|
| `Session` (session.dfy) | `App.tsx`: the session state machine, its write-through to browser storage and its reload, the greeting, the routing rule |
| `Login` (login.dfy) | `LoginPage.tsx`: field validation with the unanchored e-mail pattern, the made-up demo student, error clearing |
| `Dashboard` (dashboard.dfy) | `Dashboard.tsx`: card percentages, study time, overall progress |
| `Lessons` (lessons.dfy) | `CrossSDGLessons.tsx`: the catalogue, the set of completed lessons, the totals, the lesson-line classifier |
| `Offline` (offline.dfy) | `OfflineContent.tsx`: download ticks, delete, the downloaded/available split, storage and lesson totals |
| `Reading` (reading.dfy) | `ReadingCoach.tsx`: feedback, the progress bar, the audio guide, target-word matching, exercise choice |
| `Homework` (homework.dfy) | `HomeworkHelper.tsx`: recognition, reset, demo problems, which sections show |
| `Parent` (parent.dfy) | `ParentCommunication.tsx`: the 3 × 4 message templates, the send/deliver pair, the message log |
| `Teacher` (teacher.dfy) | `TeacherDashboard.tsx`: class figures, the top-3 and bottom-3 lists, the tab fallback |

Three support modules:

- `Types` (types.dfy) holds the shapes from `types.ts`.
- `Text` (text.dfy) holds the JavaScript string operations the components use:
  - `\s` and `trim`;
  - `split` on a character and on `/\s+/`;
  - ASCII lower-casing;
  - `${n}` for integers;
  - `parseInt`.
- `Codec` (codec.dfy) stands in for `JSON.stringify`/`JSON.parse` of the
  stored student. It is a length-prefixed encoding with a proved round trip.

Modelling choices that shape the contracts:

- **Storage.** Browser storage is a `map<string, string>`. An empty stored
  string is falsy in the start-up check, so it counts as missing.
- **Stored language.** The session keeps the stored language code as raw
  text, because the page casts it without checking. So a greeting or
  template lookup returns an `Option`:
  - for `Session.Greeting`, `None` stands for the `TypeError` that reading a
    property of the missing language entry throws, which aborts the
    dashboard's render;
  - for `Parent.TemplateFor`, `None` stands for an `undefined` message.
- **Integers.** Percentages use integer floor and round, through
  `Dashboard.FloorDiv`. Download progress and the feedback score draw are
  `real`s.
- **Teacher sort.** The analytics tab sorts the roster array in place, once
  descending for the top performers and then ascending for the
  need-attention list. The second sort therefore starts from the first
  one's output, and `Teacher.NeedAttention` models it that way. `sort` is
  stable, and is modelled as an insertion sort that keeps ties in their
  order.

## Model

| member | source | states |
|---|---|---|
| Types.ParseCode | project/src/types.ts:54 | a code is read as a language only if that language's code is exactly that text |
| Types.CodeRoundTrip | project/src/types.ts:54 | each of the four languages is read back from its own code, so the codes are distinct |
| Types.FindBy | project/src/components/HomeworkHelper.tsx:101 | `find` by id, as the homework demo list and the exercise menu (ReadingCoach.tsx:183) use it: nothing exactly when no element has the id; otherwise an element with that id before which no element has it |
| Codec.DecodeEncodeFields | project/src/App.tsx:40 | reading back the encoding of any list of fields gives exactly that list |
| Codec.StudentRoundTrip | project/src/App.tsx:28 | a stored student, read back, is the same student, including every progress counter |
| Codec.DecodeBool | project/src/App.tsx:34 | a stored flag parses only when it is `true` or `false` |
| Codec.BoolRoundTrip | project/src/App.tsx:60 | a stored teacher-mode flag reads back as the same boolean |
| Session.Saved | project/src/App.tsx:23-33 | a stored value is used exactly when its key is present and its text is not empty; it is then the stored text |
| Session.Load | project/src/App.tsx:22-36 | the reload succeeds exactly when every stored student and flag it uses can be parsed; the tab always starts at `dashboard` |
| Session.Start | project/src/App.tsx:16-36 | start-up yields a session exactly when the reload succeeds, and memory then agrees with storage |
| Session.LoadEmptyStore | project/src/App.tsx:16-19 | with none of the three keys stored: no student, English, student mode, dashboard tab |
| Session.Login | project/src/App.tsx:38-42 | the student becomes current and is written under `currentStudent`; the tab becomes `dashboard`; no other stored key changes |
| Session.Logout | project/src/App.tsx:44-50 | student and teacher mode are cleared; exactly `currentStudent` and `isTeacherMode` leave storage; the language and every other stored value stay |
| Session.ChangeLanguage | project/src/App.tsx:52-55 | only the language changes in memory; it is written under `currentLanguage`; no other stored key changes |
| Session.ToggleTeacherMode | project/src/App.tsx:57-62 | the flag flips; the stored flag parses back to the new value; the tab is `teacher` exactly when the new mode is on, otherwise `dashboard` |
| Session.SelectTab | project/src/App.tsx:188 | a sidebar click changes only the tab, and nothing is stored |
| Session.LoginReload | project/src/App.tsx:27-29 | after a login, a reload restores that student and keeps everything else it restored before |
| Session.LogoutReload | project/src/App.tsx:44-50 | after a logout, a reload gives no student and student mode, and the language stored before the logout (English when none was stored) |
| Session.LanguageReload | project/src/App.tsx:30-32 | a language change survives a reload |
| Session.TeacherModeReload | project/src/App.tsx:33-35 | a teacher-mode toggle survives a reload |
| Session.ToggleTwice | project/src/App.tsx:57-62 | toggling twice restores the flag, its stored value and the student |
| Session.TransitionsPersist | project/src/App.tsx:38-62 | if memory and storage agree, they still agree after a login, logout, language change, toggle or tab click |
| Session.DayPartOf | project/src/App.tsx:89-91 | morning exactly before 12, afternoon exactly from 12 to before 18, evening exactly from 18 |
| Session.Greeting | project/src/App.tsx:93 | a greeting exists exactly when the session's code names one of the four languages |
| Session.GreetingBuckets | project/src/App.tsx:64-94 | for each language the three buckets give three different texts, split at 12 and at 18 |
| Session.RouteRules | project/src/App.tsx:96-129 | login page exactly when there is no student; teacher dashboard exactly when teacher mode is on and the tab is `teacher`; student dashboard for a tab without its own panel; the sidebar shows exactly when the teacher dashboard does not (line 179) |
| Session.LoginShowsDashboard | project/src/App.tsx:38-42 | right after a login the student dashboard and the sidebar show |
| Session.ToggleRoutes | project/src/App.tsx:57-62 | toggling on shows the teacher dashboard without a sidebar; toggling off shows the student dashboard with it |
| Login.Validate | project/src/components/LoginPage.tsx:27-51 | each field has an entry exactly when its own rule reports an error, and the entry is that rule's message; so each field has at most one error |
| Login.NameError | project/src/components/LoginPage.tsx:30-32 | a name error exactly on sign-up with a whitespace-only name |
| Login.EmailError | project/src/components/LoginPage.tsx:34-38 | "required" for a whitespace-only e-mail; otherwise "invalid" exactly when no `\S+@\S+\.\S+` match occurs anywhere in it |
| Login.PasswordError | project/src/components/LoginPage.tsx:40-44 | "required" for a whitespace-only password; otherwise "too short" exactly when the untrimmed `.length`, in UTF-16 code units, is below 6 |
| Login.GradeError | project/src/components/LoginPage.tsx:46-48 | a grade error exactly on sign-up with no grade chosen |
| Login.ValidIff | project/src/components/LoginPage.tsx:27-51 | the error map is empty exactly when all rules pass; login mode checks only e-mail and password |
| Login.LoginModeChecksOnlyCredentials | project/src/components/LoginPage.tsx:30-32 | in login mode name and grade never produce an error |
| Login.EmailExamples | project/src/components/LoginPage.tsx:36 | `a@b.c` and an address inside other text match; `not-an-email`, `a@.c` and `a @b.c` do not |
| Login.MatchSurvivesContext | project/src/components/LoginPage.tsx:36 | the pattern is unanchored: text around a matching address keeps the match |
| Login.RejectsNonAddress | project/src/components/LoginPage.tsx:34-38 | `not-an-email` with a good password gives the e-mail error alone, and the form does not start loading |
| Login.PasswordExamples | project/src/components/LoginPage.tsx:40-44 | six spaces are "required"; `  a   ` passes, because spaces count toward six; `abcde` is too short |
| Login.PasswordCountsCodeUnits | project/src/components/LoginPage.tsx:42 | three emoji (six code units) pass the length rule; two emoji (four code units) are too short |
| Login.Submit | project/src/components/LoginPage.tsx:54-58 | the shown errors become the computed map; loading starts exactly when there is no error (or it already ran) |
| Login.DemoStudent | project/src/components/LoginPage.tsx:62-76 | name defaults to `Demo Student` and grade to `Grade 8`; reading and math in 1..10; completed in 0..49 of a total of 100; streak in 1..14; e-mail and language from the form |
| Login.DemoRangesAreTight | project/src/components/LoginPage.tsx:62-76 | every student within those ranges is produced by some draw, so the ranges are exact |
| Login.FinishSubmit | project/src/components/LoginPage.tsx:61-79 | the request ends: loading stops, the form and errors stay, and the demo student, built from the form as submitted, goes to the shell |
| Login.SignInUsesSubmittedForm | project/src/components/LoginPage.tsx:54-79 | after a valid submit, edits to an input, the language or the mode before the request ends show on the form but not in the student, which carries the submitted name, e-mail, grade and language |
| Login.EditField | project/src/components/LoginPage.tsx:83-89 | the typed value is stored in its own field only; that field's error, if shown, is blanked; every other error stays |
| Login.EditHidesOnlyThatError | project/src/components/LoginPage.tsx:83-89 | after typing, the edited field shows no error, and every other field shows what it showed before |
| Login.SetSignup | project/src/components/LoginPage.tsx:116 | the mode tabs change the mode only |
| Login.PickLanguage | project/src/components/LoginPage.tsx:108-109 | the login-page selector changes only the form's preferred language |
| Dashboard.FloorDiv | project/src/components/Dashboard.tsx:22 | the result is the floor of the quotient, for either sign of the divisor |
| Dashboard.QuickActions | project/src/components/Dashboard.tsx:15-48 | the four cards in order; reading and math show floor(level × 100 / 10); health 75 and offline 60 |
| Dashboard.StudyMinutes | project/src/components/Dashboard.tsx:67 | study time is a multiple of 15, and not negative for a non-negative count |
| Dashboard.StudyMinutesPerLesson | project/src/components/Dashboard.tsx:67 | no lessons give 0 minutes, and each further completed lesson adds exactly 15 |
| Dashboard.Achievements | project/src/components/Dashboard.tsx:50-70 | three cards; each card's text reads back as its number (the streak, the completed count, 15 minutes per completed lesson), and the first and last end in ` days` and ` mins` |
| Dashboard.NumberCard | project/src/components/Dashboard.tsx:53 | a number followed by a unit that does not start with a digit reads back as that number, and the text ends with the unit |
| Dashboard.OverallProgress | project/src/components/Dashboard.tsx:140 | no number for a total of zero (the page shows `NaN` or `Infinity`); otherwise floor(completed × 100 / total) |
| Dashboard.OverallOfHundred | project/src/components/Dashboard.tsx:140 | with a total of 100 the overall percentage is the completed count |
| Dashboard.LevelPercent | project/src/components/Dashboard.tsx:22 | a whole level out of ten shows as ten times the level |
| Dashboard.PercentMonotonic | project/src/components/Dashboard.tsx:22 | a percentage never drops as the value grows |
| Dashboard.DemoStudentDashboard | project/src/components/Dashboard.tsx:22-67 | for a made-up student: reading and math cards in 10..100 in steps of ten, overall = completed, study time at most 735 minutes |
| Lessons.CardsFor | project/src/components/CrossSDGLessons.tsx:604 | the cards of the category with that id; no cards for an unknown category |
| Lessons.SelectCategory | project/src/components/CrossSDGLessons.tsx:542 | only the active category changes |
| Lessons.OpenLesson | project/src/components/CrossSDGLessons.tsx:399 | the lesson opens; the completed set stays |
| Lessons.CloseLesson | project/src/components/CrossSDGLessons.tsx:445 | the lesson closes; the completed set stays |
| Lessons.CompleteLesson | project/src/components/CrossSDGLessons.tsx:388-390 | the new set is the old set plus that id, and nothing else changes |
| Lessons.CompleteLessonProperties | project/src/components/CrossSDGLessons.tsx:388-390 | completing is idempotent and never removes an id; the count rises by one exactly for a new id |
| Lessons.CompletingDisables | project/src/components/CrossSDGLessons.tsx:501 | the button is disabled exactly for a completed lesson, and is disabled right after completing |
| Lessons.AvailableCount | project/src/components/CrossSDGLessons.tsx:583 | the available count is the number of catalogue lessons, whatever is completed |
| Lessons.StudyTimeIsFlatMinutes | project/src/components/CrossSDGLessons.tsx:593-597 | summing per category, then across, gives the sum over all lessons |
| Lessons.MinutesBounded | project/src/components/CrossSDGLessons.tsx:593-597 | study time never exceeds the total duration |
| Lessons.MinutesAll | project/src/components/CrossSDGLessons.tsx:593-597 | with every lesson completed, study time is the total duration |
| Lessons.MinutesAfterComplete | project/src/components/CrossSDGLessons.tsx:593-597 | with unique ids, completing a new lesson adds exactly its minutes; a completed or unknown id adds none |
| Lessons.CatalogueFacts | project/src/components/CrossSDGLessons.tsx:15-386 | the catalogue has seven lessons, no repeated id, and 100 minutes in total |
| Lessons.PanelTotals | project/src/components/CrossSDGLessons.tsx:573-597 | study time lies within the catalogue's 100 minutes, and completing a new catalogue lesson adds exactly its duration |
| Lessons.RemoveStars | project/src/components/CrossSDGLessons.tsx:469 | removing `**` pairs leaves no `**` and never lengthens the text |
| Lessons.HeadingText | project/src/components/CrossSDGLessons.tsx:466-471 | `**title**` with a star-free title shows as the title |
| Lessons.ClassifyLineRules | project/src/components/CrossSDGLessons.tsx:465-493 | heading exactly when the line starts and ends with `**`, with no `**` left; otherwise a break exactly for a whitespace-only line; numbered items start with digits and a full stop; numbered items and paragraphs keep the whole line |
| Lessons.ListItemRules | project/src/components/CrossSDGLessons.tsx:474-479 | a `- ` or `• ` line is a list item showing the text after the two-character marker |
| Lessons.MisdecodedBulletIsParagraph | project/src/components/CrossSDGLessons.tsx:474-493 | for the corrected classifier, a line starting with the misdecoded literal is a paragraph |
| Lessons.ClassifiersAgree | project/src/components/CrossSDGLessons.tsx:466-493 | the classifier as written and the corrected one agree on a line exactly when it starts with neither bullet literal |
| Lessons.RenderWith | project/src/components/CrossSDGLessons.tsx:465 | one rendered line for each piece of `split('\n')`, the i-th classified from the i-th piece |
| Lessons.RenderAsWritten | project/src/components/CrossSDGLessons.tsx:465-493 | the page's view, with the literal as written: one rendered line per piece of the split |
| Lessons.Render | project/src/components/CrossSDGLessons.tsx:465-493 | the corrected view, with the `• ` bullet: one rendered line per piece of the split |
| Lessons.RenderOneLine | project/src/components/CrossSDGLessons.tsx:465 | text without a line break renders as that one line, classified |
| Lessons.RenderLineByLine | project/src/components/CrossSDGLessons.tsx:465 | text joined at a line break renders as its two parts rendered one after the other |
| Lessons.RenderAgreesWithoutBullets | project/src/components/CrossSDGLessons.tsx:465-493 | the page as written shows a lesson as the corrected view does exactly when no line starts with either bullet literal |
| Lessons.BulletAsWrittenMisses | project/src/components/CrossSDGLessons.tsx:474 | with the literal as written, a `• ` line shows as a paragraph that keeps its bullet |
| Lessons.MisdecodedBulletLeaksCharacter | project/src/components/CrossSDGLessons.tsx:474 | with the literal as written, a line that starts with it becomes a list item that still shows a stray `¢` |
| Offline.InitValid | project/src/components/OfflineContent.tsx:11-74 | the panel starts with nothing downloading and the six packs, in a valid state |
| Offline.SetOnline | project/src/components/OfflineContent.tsx:77 | a connectivity event changes only the online flag |
| Offline.StartDownload | project/src/components/OfflineContent.tsx:88-95 | offline nothing changes; online the id joins the downloading set and a timer starts at 0, with no card touched |
| Offline.Cap | project/src/components/OfflineContent.tsx:100 | `min(progress, 100)` |
| Offline.Tick | project/src/components/OfflineContent.tsx:95-117 | a stopped timer changes nothing; otherwise the draw is added and only the target pack's card changes; below 100 it shows the total; from 100 it is marked downloaded at exactly 100, leaves the downloading set, and the timer stops; the state stays valid |
| Offline.Delete | project/src/components/OfflineContent.tsx:120-126 | only packs with that id become not downloaded at 0 |
| Offline.StoppedTimerIsInert | project/src/components/OfflineContent.tsx:104-105 | once a timer has stopped, no later firing changes anything |
| Offline.Downloaded | project/src/components/OfflineContent.tsx:138 | every pack listed is downloaded |
| Offline.Available | project/src/components/OfflineContent.tsx:139 | every pack listed is not downloaded |
| Offline.Membership | project/src/components/OfflineContent.tsx:138-139 | a pack is listed as downloaded exactly when it is in the list and downloaded, and offered exactly when it is in the list and not downloaded |
| Offline.Partition | project/src/components/OfflineContent.tsx:138-139 | together the two lists hold every pack exactly as often as the pack list does |
| Offline.DownloadedSizes | project/src/components/OfflineContent.tsx:140 | one leading-integer parse per downloaded pack, in order |
| Offline.SumSizes | project/src/components/OfflineContent.tsx:140 | the sum is not a number exactly when some label had no leading integer |
| Offline.StorageUsed | project/src/components/OfflineContent.tsx:140 | storage is not a number exactly when a downloaded pack's label has no leading integer |
| Offline.LessonsAfterStatus | project/src/components/OfflineContent.tsx:185 | with unique ids, changing one pack's status moves the offline lesson total by exactly its lessons |
| Offline.DeleteAndFinishTotals | project/src/components/OfflineContent.tsx:104-126 | deleting a downloaded pack removes its lessons from the total; finishing a download adds them |
| Offline.InitialLists | project/src/components/OfflineContent.tsx:13-74 | packs 1 and 3 start downloaded with 27 lessons, four packs are offered, and ids are unique |
| Offline.InitialStorage | project/src/components/OfflineContent.tsx:140 | the starting downloaded packs use 15 + 18 = 33 MB |
| Offline.SizeLabel | project/src/components/OfflineContent.tsx:140 | a label `<n> MB` parses to `n` |
| Offline.LanguageName | project/src/components/OfflineContent.tsx:128-136 | every language has a name |
| Offline.LanguageNamesDistinct | project/src/components/OfflineContent.tsx:128-136 | two languages share a name only if they are the same language |
| Reading.Words | project/src/components/ReadingCoach.tsx:66 | a whitespace split always has at least one piece |
| Reading.InitialValid | project/src/components/ReadingCoach.tsx:11-35 | the panel starts in a valid state |
| Reading.MakeFeedback | project/src/components/ReadingCoach.tsx:100-121 | accuracy in 80..99; words correct is floor(accuracy × total / 100), between 0 and the word count; 1 to 3 tips, taken from the front of the list; score in 64..99 |
| Reading.WordsCorrect | project/src/components/ReadingCoach.tsx:104 | the words counted correct lie between 0 and the word count, and are the floor of accuracy × total / 100 |
| Reading.Score | project/src/components/ReadingCoach.tsx:120 | for accuracy in 80..99 and a draw in [0, 20), the score lies in 64..99 |
| Reading.GiveFeedback | project/src/components/ReadingCoach.tsx:100-124 | feedback is shown for the given word count, progress becomes min(progress + 10, 100), and nothing else changes |
| Reading.ProvideFeedback | project/src/components/ReadingCoach.tsx:100-124 | feedback is shown for the word count of the text now shown, and progress becomes min(progress + 10, 100) |
| Reading.FeedbackProgress | project/src/components/ReadingCoach.tsx:123 | progress stays in 0..100 and never goes down; below 100 it goes up; from 90 it reaches 100 |
| Reading.StartRecording | project/src/components/ReadingCoach.tsx:85-87 | recording starts and the last feedback is hidden |
| Reading.StopRecording | project/src/components/ReadingCoach.tsx:95-98 | a manual stop turns recording off and gives feedback for the word count of the text now shown |
| Reading.RecordingTimeout | project/src/components/ReadingCoach.tsx:85-93 | the five-second timeout turns recording off and gives feedback for the word count captured when practice started |
| Reading.TimeoutCountsStartText | project/src/components/ReadingCoach.tsx:85-104 | after starting practice and switching exercise, the timeout still shows feedback, with progress 10, counting the first text's words; a manual stop would count the new text instead |
| Reading.ToggleGuide | project/src/components/ReadingCoach.tsx:126-129 | the guide flips; switching on starts at word 0, switching off clears the index |
| Reading.GuideStep | project/src/components/ReadingCoach.tsx:71-78 | a firing moves to the next word; after the last word it stops the guide and clears the index |
| Reading.GuideTick | project/src/components/ReadingCoach.tsx:68-83 | a firing over the current text keeps the state valid |
| Reading.GuideVisitsEveryWord | project/src/components/ReadingCoach.tsx:68-83 | once on, the guide is on word `n` after `n` firings, and one firing after the last word switches it off |
| Reading.Reset | project/src/components/ReadingCoach.tsx:131-137 | no feedback, progress 0, no word, guide and recording off, same exercise |
| Reading.EventsKeepValid | project/src/components/ReadingCoach.tsx:85-137 | every event, the recording timeout included, keeps progress in 0..100 and the word index in range while the guide plays |
| Reading.DropPunctuation | project/src/components/ReadingCoach.tsx:147 | no `.,!?` is left, and text without them is unchanged |
| Reading.MarkOf | project/src/components/ReadingCoach.tsx:143-150 | the current word wins; otherwise a word is a target exactly when its key equals a lower-cased target |
| Reading.TargetWithPunctuation | project/src/components/ReadingCoach.tsx:146-148 | a target word in any letter case with trailing punctuation is highlighted |
| Reading.SelectFrom | project/src/components/ReadingCoach.tsx:182-187 | an unlisted id changes nothing; a listed id shows that exercise and resets the panel |
| Reading.FirstExerciseLostAsWritten | project/src/components/ReadingCoach.tsx:38-39 | with the menu as written, after switching to exercise 2, exercise 1 can no longer be chosen |
| Reading.EveryExerciseSelectable | project/src/components/ReadingCoach.tsx:38-64 | with the fixed menu, each of the three exercises can be chosen from any state, and the panel is reset |
| Homework.ProcessProblem | project/src/components/HomeworkHelper.tsx:78-81 | processing starts, the solution is cleared, the steps are hidden, and the image is kept |
| Homework.Upload | project/src/components/HomeworkHelper.tsx:62-72 | the picture is kept and recognition starts |
| Homework.ProcessingDone | project/src/components/HomeworkHelper.tsx:84-88 | the solution is one of the sample problems and processing stops |
| Homework.Reset | project/src/components/HomeworkHelper.tsx:91-95 | no image, no solution, steps hidden, not processing |
| Homework.TryDemoProblem | project/src/components/HomeworkHelper.tsx:100-107 | an unknown id changes nothing; a known id shows that problem with no image and the steps hidden |
| Homework.ToggleSteps | project/src/components/HomeworkHelper.tsx:260 | only the steps flag flips |
| Homework.SectionsExclusive | project/src/components/HomeworkHelper.tsx:126-230 | the upload area never shows with the preview or the solution, and the spinner never does either |
| Homework.UploadThenDone | project/src/components/HomeworkHelper.tsx:62-88 | after an upload only the spinner shows; after recognition the picture and a solution show, with the steps hidden |
| Homework.ResetShowsUploadOnly | project/src/components/HomeworkHelper.tsx:91-95 | after a reset only the upload and demo area shows |
| Homework.DemoFromStartPage | project/src/components/HomeworkHelper.tsx:174-194 | a demo card shows its own solution only; the steps show after one toggle, and two toggles restore the state |
| Homework.DistinctIds | project/src/components/HomeworkHelper.tsx:17-60 | the sample ids are distinct, so each demo id picks its own problem |
| Homework.Preview | project/src/components/HomeworkHelper.tsx:194 | the first 50 characters (all of a shorter text), then `...` |
| Homework.NumberedSteps | project/src/components/HomeworkHelper.tsx:277-281 | each step keeps its text and is numbered from 1 |
| Homework.StepNumbersConsecutive | project/src/components/HomeworkHelper.tsx:280 | step numbers run 1, 2, …, n without gaps |
| Parent.RoundedPercent | project/src/components/ParentCommunication.tsx:44 | the nearest integer to completed × 100 / total, halves rounded up |
| Parent.TemplateFor | project/src/components/ParentCommunication.tsx:42-61 | a template exists exactly when the code names one of the four languages |
| Parent.TemplateForCode | project/src/components/ParentCommunication.tsx:42-61 | every kind and language has its template |
| Parent.TemplateNamesStudent | project/src/components/ParentCommunication.tsx:42-61 | every one of the twelve templates names the student |
| Parent.InitialLogFacts | project/src/components/ParentCommunication.tsx:15-40 | the log starts with three messages (achievement, progress, reminder), each about the student, to the default number |
| Parent.StartMessageNamesStudent | project/src/components/ParentCommunication.tsx:15-40 | every starting message names the student |
| Parent.Message | project/src/components/ParentCommunication.tsx:68 | the typed text, trimmed, unless it is whitespace only; otherwise the template for the chosen kind and language |
| Parent.BeginSend | project/src/components/ParentCommunication.tsx:63-68 | a whitespace-only phone does nothing; otherwise sending starts with the text, phone and kind fixed at the click |
| Parent.Deliver | project/src/components/ParentCommunication.tsx:73-84 | the new entry goes on top and earlier entries keep their order; it records name, phone, kind and text; the typed text clears and sending stops |
| Parent.SendThenDeliver | project/src/components/ParentCommunication.tsx:63-85 | from an enabled form (line 183), a send and its delivery add exactly one entry with the chosen text, which names the student for a template, and the form can send again |
| Parent.RoundedAgainstFloored | project/src/components/ParentCommunication.tsx:44 | the rounded percentage in a message is the dashboard's floored one or one more |
| Parent.TwoThirds | project/src/components/ParentCommunication.tsx:44 | two of three lessons: 66% on the dashboard, 67% in the message |
| Teacher.RoundedAverage | project/src/components/TeacherDashboard.tsx:62 | no number for an empty class; otherwise the nearest integer to sum / n, halves rounded up |
| Teacher.ClassStats | project/src/components/TeacherDashboard.tsx:60-66 | student count and lessons summed; each average is absent exactly for an empty class and is otherwise the column mean rounded to nearest, halves up (2·avg·n − n ≤ 2·sum < 2·avg·n + n) |
| Teacher.ClassStatsPermutation | project/src/components/TeacherDashboard.tsx:60-66 | reordering the roster leaves all five figures as they were |
| Teacher.ClassAverageBetween | project/src/components/TeacherDashboard.tsx:62-65 | each class average lies between the lowest and the highest value of its column |
| Teacher.TotalAppend | project/src/components/TeacherDashboard.tsx:63 | a column total over two lists is the sum of their totals |
| Teacher.TotalPermutation | project/src/components/TeacherDashboard.tsx:60-66 | reordering the roster leaves every column total as it was |
| Teacher.AverageBetween | project/src/components/TeacherDashboard.tsx:62-65 | a rounded average lies between the smallest and the largest value |
| Teacher.RosterStats | project/src/components/TeacherDashboard.tsx:13-66 | the shipped class: 4 students, 196 lessons, averages 74%, reading 8 (30 / 4 rounds up), math 8 |
| Teacher.SortProperties | project/src/components/TeacherDashboard.tsx:401-403 | the sort keeps the same members, same count, in order |
| Teacher.Take3 | project/src/components/TeacherDashboard.tsx:403 | the first three members, or all of a shorter list |
| Teacher.TopPerformers | project/src/components/TeacherDashboard.tsx:401-403 | up to three roster members, highest progress first, and no member left out has higher progress than one shown |
| Teacher.NeedAttention | project/src/components/TeacherDashboard.tsx:425-427 | up to three roster members, lowest progress first, and no member left out has lower progress than one shown |
| Teacher.PrefixFacts | project/src/components/TeacherDashboard.tsx:402-403 | the front of a sorted list is sorted, is part of it, and stands before everything left out |
| Teacher.RosterLists | project/src/components/TeacherDashboard.tsx:401-427 | the shipped class: top performers James, Maria, Carlos; need attention Fatima, Carlos, Maria |
| Teacher.TabsShowThemselves | project/src/components/TeacherDashboard.tsx:507-521 | every tab id shows its own panel, and `overview` shows the overview |
| Teacher.UnknownTabShowsOverview | project/src/components/TeacherDashboard.tsx:519-520 | an id that belongs to no tab shows the overview |
| Text.TrimStart | project/src/components/LoginPage.tsx:30 | the result is a suffix of the input that does not start with a space, and only spaces were dropped |
| Text.TrimEnd | project/src/components/LoginPage.tsx:30 | the result is a prefix of the input that does not end with a space, and only spaces were dropped |
| Text.TrimEmptyIffBlank | project/src/components/LoginPage.tsx:30-40 | trimming leaves nothing exactly when the text is whitespace only |
| Text.TrimEnds | project/src/components/ParentCommunication.tsx:68 | a trimmed text neither starts nor ends with a space |
| Text.TrimStartShape | project/src/components/ParentCommunication.tsx:68 | `trimStart` keeps the text after a whitespace-only start |
| Text.TrimEndShape | project/src/components/ParentCommunication.tsx:68 | `trimEnd` keeps the text before a whitespace-only end |
| Text.Lower | project/src/components/ReadingCoach.tsx:147 | same length, each character lower-cased on its own |
| Text.Split | project/src/components/CrossSDGLessons.tsx:465 | at least one piece, and no piece contains the separator |
| Text.SplitAppend | project/src/components/CrossSDGLessons.tsx:465 | splitting two texts joined by the separator gives the pieces of the first, then those of the second |
| Text.JoinSplit | project/src/components/CrossSDGLessons.tsx:465 | joining the pieces back on the separator gives the original text |
| Text.SplitOnSpacesPiecesHaveNoSpace | project/src/components/ReadingCoach.tsx:66 | no piece of a whitespace split contains a space |
| Text.SplitOnSpacesKeepsContent | project/src/components/ReadingCoach.tsx:66 | the pieces, joined, are exactly the non-space characters of the text, in order |
| Text.NatToString | project/src/components/Dashboard.tsx:60 | decimal digits only, at least one, and no leading zero |
| Text.DigitsValueOfNatToString | project/src/components/Dashboard.tsx:60 | reading the decimal text of `n` gives `n` |
| Text.IntTextRoundTrip | project/src/components/Dashboard.tsx:53-67 | the text of any integer reads back as that integer |
| Text.DigitRun | project/src/components/OfflineContent.tsx:140 | the longest run of digits at the front of the text |
| Text.ParseLeadingInt | project/src/components/OfflineContent.tsx:140 | `parseInt` gives `NaN` exactly when no digit follows the leading whitespace and optional sign; a number only if the text has a digit |
| Text.ParseSignedNumber | project/src/components/OfflineContent.tsx:140 | whitespace, an optional sign, the decimal text of `n` and text not starting with a digit parse to `n` or `-n` |
| Text.ParseIntToString | project/src/components/Dashboard.tsx:53 | the text of any integer followed by text not starting with a digit parses back to that integer |
| Text.ParseLeadingDigits | project/src/components/OfflineContent.tsx:140 | a text that starts with a digit parses to the value of its leading run of digits |
| Text.ParseSizeLabel | project/src/components/OfflineContent.tsx:140 | `<n>` followed by text that does not start with a digit parses to `n` |
| Text.Utf16Length | project/src/components/LoginPage.tsx:42 | `.length` lies between the number of characters and twice that number |
| Text.Utf16LengthOfBmp | project/src/components/LoginPage.tsx:42 | without characters beyond U+FFFF, `.length` is the number of characters |
| Text.Utf16LengthOfAstral | project/src/components/LoginPage.tsx:42 | with only characters beyond U+FFFF, `.length` is twice the number of characters |

## Left out

- Rendering, styling, icons, the lesson and exercise prose beyond what the
  contracts use, and the static copy of every page.
- `LanguageSelector.tsx`: a static list of four languages with no logic.
- The teacher dashboard's settings and content tabs, and its unused
  `progressData` table (TeacherDashboard.tsx:68-74): static markup and data.
- The dashboard's static statistics cards (for example the 100% delivery
  rate on the parent page): fixed text.
- `JSON.stringify`/`JSON.parse`: replaced by `Codec`, whose round trip is the
  only property the session relies on. A stored value that does not parse
  makes `Session.Load` return `None`. The page has no fallback for that
  case, so none is modelled.
- Session.Load: does not check that a stored language is one of the four,
  because the page casts it without a check.
- Floating point:
  - Percentages use exact integer floor and round. A few inputs differ in
    JavaScript: `Math.floor(29 / 100 * 100)` is 28 there.
  - The feedback score's `real` draw is floored exactly.
  - Download progress uses exact `real` addition.
- Reading.MakeFeedback: bounds the overall score to 64..99 and does not
  state its exact value, because the page computes it in floating point.
- `parseInt` with a radix prefix such as `0x`: size labels are decimal.
- Text.Lower: lowers ASCII letters only, unlike `toLowerCase`; so does
  `Reading.Normalize`, which uses it. The passages and target words are
  ASCII, so the highlighting is unaffected.
- The one-shot timeouts (recognition, recording, sign-in) are never
  cancelled in the source; the intervals are cleared (OfflineContent.tsx:105,
  ReadingCoach.tsx:81).
  - A reset or a manual stop leaves a pending recording timeout running;
    `Reading.RecordingTimeout` may fire in any later state, and
    `Reading.TimeoutCountsStartText` states what it does after the panel
    was reset by a change of exercise.
  - Which firings happen, and in what order, is left to the caller: each
    firing is an explicit event.
- Double start and double send: the page relies on hiding or disabling
  buttons, and the model does not add a guard.
- The download progress bar's markup, `navigator.onLine` (an event here),
  `FileReader` (the data URL is a parameter), `Date.now` ids and
  `toISOString` times (parameters), and `toLocaleString`.
- Lessons.RenderAgreesWithoutBullets: the lessons' prose is not modelled,
  so the model does not apply the lemma to the shipped lessons, none of
  whose lines starts with either bullet literal.
- Word counts in templates and prose: only the whitespace split the reading
  coach uses is modelled.
- Writing lesson completion back into the student's progress: the page does
  not do it.
- Teacher.Sort: stability is a design note. Ties are kept in order by
  construction, but no lemma states it.
- Text.TrimStart: the `\s` set is the ECMAScript whitespace and line
  terminator set. No Unicode categories beyond it are modelled.

## Findings

| source | as written | input that shows it | evidently intended | confidence | as-written member | corrected member |
|---|---|---|---|---|---|---|
| project/src/components/CrossSDGLessons.tsx:474 | the bullet literal is the four characters `‚Ä¢ `, the UTF-8 bytes of `•` read in the wrong character set | a lesson line `• Wash hands` shows as a paragraph with its bullet; a line starting with `‚Ä¢ ` shows as a list item beginning with `¢` | a line starting with `• ` is a list item showing the text after the marker | not executed | Lessons.RenderAsWritten (Lessons.BulletAsWrittenMisses, Lessons.MisdecodedBulletLeaksCharacter, Lessons.RenderAgreesWithoutBullets) | Lessons.Render (Lessons.ListItemRules, Lessons.RenderAgreesWithoutBullets) |
| project/src/components/ReadingCoach.tsx:38-39 | the exercise menu's first entry is the current exercise, not the first exercise | choose exercise 2, then try to choose exercise 1: the menu now lists exercise 2 twice, and exercise 1 cannot be chosen | the menu always lists the three exercises | not executed | Reading.SelectExerciseAsWritten (Reading.FirstExerciseLostAsWritten) | Reading.SelectExercise (Reading.EveryExerciseSelectable) |
