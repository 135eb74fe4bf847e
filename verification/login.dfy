/** The login / sign-up form: per-field validation, the demo student the form
    makes up on a valid submit, and per-field error clearing while typing. */
module Login {
  import opened Types
  import opened Text

  datatype Field = NameField | EmailField | PasswordField | GradeField

  /** The form's inputs; the preferred language is the selector's code. */
  datatype Form = Form(
    name: string,
    email: string,
    password: string,
    grade: string,
    preferredLanguage: string)

  /** Form state: mode (sign-up or login), inputs, the error map shown next to
      the inputs, and whether the simulated request is in flight. */
  datatype LoginState = LoginState(
    isSignup: bool,
    form: Form,
    errors: map<Field, string>,
    isLoading: bool)

  /** The form as first shown, in the shell's current language. */
  function InitialState(code: string): LoginState
  {
    LoginState(false, Form("", "", "", "", code), map[], false)
  }

  const NameRequired := "Name is required"
  const EmailRequired := "Email is required"
  const EmailInvalid := "Please enter a valid email"
  const PasswordRequired := "Password is required"
  const PasswordTooShort := "Password must be at least 6 characters"
  const GradeRequired := "Grade level is required"

  /** The pattern `\S+@\S+\.\S+` matches with the `@` at `at` and the `.` at
      `dot`: a non-space before the `@`, only non-spaces (at least one) between
      them, and a non-space after the `.`. */
  predicate EmailMatchAt(s: string, at: int, dot: int)
  {
    && 0 < at && at + 2 <= dot && dot + 1 < |s|
    && s[at] == '@' && s[dot] == '.'
    && !IsSpace(s[at - 1]) && !IsSpace(s[dot + 1])
    && forall k | at < k < dot :: !IsSpace(s[k])
  }

  /** `/\S+@\S+\.\S+/.test(s)`: the pattern is not anchored, so it matches
      when it matches anywhere inside `s`. */
  predicate MatchesEmailPattern(s: string)
  {
    exists at, dot | 0 <= at < dot < |s| :: EmailMatchAt(s, at, dot)
  }

  /** The error map a submit computes: each field's entry is present exactly
      when that field's rule reports an error, and holds its message. */
  function Validate(isSignup: bool, f: Form): (r: map<Field, string>)
    ensures NameField in r <==> NameError(isSignup, f.name).Some?
    ensures EmailField in r <==> EmailError(f.email).Some?
    ensures PasswordField in r <==> PasswordError(f.password).Some?
    ensures GradeField in r <==> GradeError(isSignup, f.grade).Some?
    ensures NameField in r ==> r[NameField] == NameError(isSignup, f.name).value
    ensures EmailField in r ==> r[EmailField] == EmailError(f.email).value
    ensures PasswordField in r ==> r[PasswordField] == PasswordError(f.password).value
    ensures GradeField in r ==> r[GradeField] == GradeError(isSignup, f.grade).value
  {
    var e1 := Record(map[], NameField, NameError(isSignup, f.name));
    var e2 := Record(e1, EmailField, EmailError(f.email));
    var e3 := Record(e2, PasswordField, PasswordError(f.password));
    Record(e3, GradeField, GradeError(isSignup, f.grade))
  }

  /** Adds an error for `field`, if there is one; other entries are kept. */
  function Record(errors: map<Field, string>, field: Field, e: Option<string>): map<Field, string>
  {
    if e.Some? then errors[field := e.value] else errors
  }

  // Each `!x.trim()` test of the page is written `IsBlank(x)`: the two agree
  // on every text (Text.TrimEmptyIffBlank).

  /** The name rule, checked on sign-up only: the trimmed name must be non-empty. */
  function NameError(isSignup: bool, name: string): (r: Option<string>)
    ensures r.Some? <==> isSignup && IsBlank(name)
    ensures r.Some? ==> r.value == NameRequired
  {
    if isSignup && IsBlank(name) then Some(NameRequired) else None
  }

  /** The e-mail rule: present after trimming, then matching the pattern. */
  function EmailError(email: string): (r: Option<string>)
    ensures r.Some? <==> IsBlank(email) || !MatchesEmailPattern(email)
    ensures r.Some? ==> r.value == if IsBlank(email) then EmailRequired else EmailInvalid
  {
    if IsBlank(email) then Some(EmailRequired)
    else if !MatchesEmailPattern(email) then Some(EmailInvalid)
    else None
  }

  /** The password rule: present after trimming, then at least six UTF-16
      code units (`.length`) counted untrimmed. */
  function PasswordError(password: string): (r: Option<string>)
    ensures r.Some? <==> IsBlank(password) || Utf16Length(password) < 6
    ensures r.Some? ==> r.value == if IsBlank(password) then PasswordRequired else PasswordTooShort
  {
    if IsBlank(password) then Some(PasswordRequired)
    else if Utf16Length(password) < 6 then Some(PasswordTooShort)
    else None
  }

  /** The grade rule, checked on sign-up only: a grade must be chosen. */
  function GradeError(isSignup: bool, grade: string): (r: Option<string>)
    ensures r.Some? <==> isSignup && grade == ""
    ensures r.Some? ==> r.value == GradeRequired
  {
    if isSignup && grade == "" then Some(GradeRequired) else None
  }

  /** The form is accepted exactly when every field rule passes: in login mode
      only e-mail and password are checked; the password length is the raw,
      untrimmed length. */
  lemma ValidIff(isSignup: bool, f: Form)
    ensures Validate(isSignup, f) == map[] <==>
      && (isSignup ==> !IsBlank(f.name) && f.grade != "")
      && !IsBlank(f.email) && MatchesEmailPattern(f.email)
      && !IsBlank(f.password) && Utf16Length(f.password) >= 6
  {
    var r := Validate(isSignup, f);
    if r != map[] {
      var k :| k in r;
    }
  }

  /** In login mode name and grade never produce an error, whatever they hold. */
  lemma LoginModeChecksOnlyCredentials(f: Form)
    ensures NameField !in Validate(false, f) && GradeField !in Validate(false, f)
  {
  }

  lemma EmailExamples()
    ensures MatchesEmailPattern("a@b.c")
    ensures MatchesEmailPattern("see me@home.org today")
    ensures !MatchesEmailPattern("not-an-email")
    ensures !MatchesEmailPattern("a@.c")
    ensures !MatchesEmailPattern("a @b.c")
  {
    assert EmailMatchAt("a@b.c", 1, 3);
    var s := "see me@home.org today";
    assert EmailMatchAt(s, 6, 11);
    var n := "not-an-email";
    assert forall at | 0 <= at < |n| :: n[at] != '@';
    var b := "a @b.c";
    assert forall at | 0 <= at < |b| && b[at] == '@' :: at == 2;
  }

  /** Because the pattern is unanchored, text around a matching address never
      spoils the match. */
  lemma MatchSurvivesContext(pre: string, s: string, post: string)
    requires MatchesEmailPattern(s)
    ensures MatchesEmailPattern(pre + s + post)
  {
    var at, dot :| 0 <= at < dot < |s| && EmailMatchAt(s, at, dot);
    var t := pre + s + post;
    var n := |pre|;
    assert forall k | 0 <= k < |s| :: t[n + k] == s[k];
    assert EmailMatchAt(t, n + at, n + dot);
  }

  /** A non-address e-mail is refused with the e-mail message alone and the
      form does not submit. */
  lemma RejectsNonAddress(f: Form)
    requires f.email == "not-an-email"
    requires !IsBlank(f.password) && Utf16Length(f.password) >= 6
    ensures Validate(false, f).Keys == {EmailField}
    ensures Validate(false, f)[EmailField] == EmailInvalid
    ensures !Submit(LoginState(false, f, map[], false)).isLoading
  {
    assert !MatchesEmailPattern(f.email) by {
      assert forall at | 0 <= at < |f.email| :: f.email[at] != '@';
    }
    assert !IsBlank(f.email) by { assert !IsSpace(f.email[0]); }
    var r := Validate(false, f);
    assert EmailField in r && PasswordField !in r;
    assert NameField !in r && GradeField !in r;
    assert forall k | k in r :: k == EmailField;
  }

  /** Password rules: whitespace only is "required" whatever its length, and
      otherwise spaces count toward the six characters. */
  lemma PasswordExamples(f: Form, g: Form, h: Form)
    requires f.password == "      " && g.password == "  a   " && h.password == "abcde"
    ensures Validate(false, f)[PasswordField] == PasswordRequired
    ensures PasswordField !in Validate(false, g)
    ensures PasswordField in Validate(false, h) && Validate(false, h)[PasswordField] == PasswordTooShort
  {
    assert IsBlank(f.password);
    assert !IsBlank(g.password) by { assert !IsSpace(g.password[2]); }
    assert !IsBlank(h.password) by { assert !IsSpace(h.password[0]); }
    Utf16LengthOfBmp(f.password);
    Utf16LengthOfBmp(g.password);
    Utf16LengthOfBmp(h.password);
  }

  /** The length rule counts UTF-16 code units, not characters: three emoji
      are long enough, two are not. */
  lemma PasswordCountsCodeUnits(f: Form, g: Form)
    requires f.password == "\U{1F600}\U{1F600}\U{1F600}" && g.password == "\U{1F600}\U{1F600}"
    ensures PasswordField !in Validate(false, f)
    ensures PasswordField in Validate(false, g) && Validate(false, g)[PasswordField] == PasswordTooShort
  {
    assert !IsBlank(f.password) by { assert !IsSpace(f.password[0]); }
    assert !IsBlank(g.password) by { assert !IsSpace(g.password[0]); }
    Utf16LengthOfAstral(f.password);
    Utf16LengthOfAstral(g.password);
  }

  /** Submit: the errors are replaced by the computed map; a form with errors
      goes no further, a clean one starts the simulated request. */
  function Submit(st: LoginState): (r: LoginState)
    ensures r.errors == Validate(st.isSignup, st.form)
    ensures r.form == st.form && r.isSignup == st.isSignup
    ensures r.isLoading <==> st.isLoading || r.errors == map[]
  {
    var errors := Validate(st.isSignup, st.form);
    if errors != map[] then st.(errors := errors)
    else st.(errors := errors, isLoading := true)
  }

  /** The random integers the simulated request draws:
      `floor(random * 10)` twice, `floor(random * 50)` and `floor(random * 14)`. */
  datatype DemoDraws = DemoDraws(reading: int, math: int, completed: int, streak: int)

  predicate ValidDraws(d: DemoDraws)
  {
    0 <= d.reading < 10 && 0 <= d.math < 10 && 0 <= d.completed < 50 && 0 <= d.streak < 14
  }

  /** The student the simulated request returns. Empty name and grade fall back
      to the demo values; the progress counters are drawn at random. */
  function DemoStudent(f: Form, d: DemoDraws, id: string, joinDate: string): (st: Student)
    requires ValidDraws(d)
    ensures st.name == (if f.name == "" then "Demo Student" else f.name)
    ensures st.grade == (if f.grade == "" then "Grade 8" else f.grade)
    ensures st.email == f.email && st.preferredLanguage == f.preferredLanguage
    ensures 1 <= st.progress.readingLevel <= 10 && 1 <= st.progress.mathLevel <= 10
    ensures 0 <= st.progress.completedLessons < 50 && st.progress.totalLessons == 100
    ensures 1 <= st.progress.streakDays <= 14
  {
    Student(
      id,
      if f.name == "" then "Demo Student" else f.name,
      f.email,
      if f.grade == "" then "Grade 8" else f.grade,
      f.preferredLanguage,
      joinDate,
      Progress(d.reading + 1, d.math + 1, d.completed, 100, d.streak + 1))
  }

  /** Any student with these bounds can be made up by some draw, so the
      bounds above are exact. */
  lemma DemoRangesAreTight(f: Form, st: Student)
    requires 1 <= st.progress.readingLevel <= 10 && 1 <= st.progress.mathLevel <= 10
    requires 0 <= st.progress.completedLessons < 50 && st.progress.totalLessons == 100
    requires 1 <= st.progress.streakDays <= 14
    requires st.name == (if f.name == "" then "Demo Student" else f.name)
    requires st.grade == (if f.grade == "" then "Grade 8" else f.grade)
    requires st.email == f.email && st.preferredLanguage == f.preferredLanguage
    ensures exists d :: ValidDraws(d) && DemoStudent(f, d, st.id, st.joinDate) == st
  {
    var p := st.progress;
    var d := DemoDraws(p.readingLevel - 1, p.mathLevel - 1, p.completedLessons, p.streakDays - 1);
    assert DemoStudent(f, d, st.id, st.joinDate) == st;
  }

  /** The simulated request finishes, 1.5 seconds after the submit: the form
      stops loading and hands the made-up student to the shell's login. The
      timer's callback holds `submitted`, the form as it was when the user
      submitted; the inputs stay editable meanwhile, and what is typed after
      the submit does not reach the student. */
  function FinishSubmit(st: LoginState, submitted: Form, d: DemoDraws, id: string, joinDate: string): (r: (LoginState, Student))
    requires ValidDraws(d)
    ensures !r.0.isLoading && r.0.form == st.form && r.0.errors == st.errors && r.0.isSignup == st.isSignup
    ensures r.1 == DemoStudent(submitted, d, id, joinDate)
  {
    (st.(isLoading := false), DemoStudent(submitted, d, id, joinDate))
  }

  function SetField(f: Form, field: Field, value: string): Form
  {
    match field
    case NameField => f.(name := value)
    case EmailField => f.(email := value)
    case PasswordField => f.(password := value)
    case GradeField => f.(grade := value)
  }

  function FieldValue(f: Form, field: Field): string
  {
    match field
    case NameField => f.name
    case EmailField => f.email
    case PasswordField => f.password
    case GradeField => f.grade
  }

  /** Typing in an input: the value is stored, and if that input shows an
      error the error is blanked. */
  function EditField(st: LoginState, field: Field, value: string): (r: LoginState)
    ensures FieldValue(r.form, field) == value
    ensures forall g | g != field :: FieldValue(r.form, g) == FieldValue(st.form, g)
    ensures r.form.preferredLanguage == st.form.preferredLanguage
    ensures r.errors.Keys == st.errors.Keys
    ensures field in r.errors ==> r.errors[field] == ""
    ensures forall g | g in st.errors && g != field :: r.errors[g] == st.errors[g]
    ensures r.isSignup == st.isSignup && r.isLoading == st.isLoading
  {
    var errors := if field in st.errors && st.errors[field] != "" then st.errors[field := ""] else st.errors;
    st.(form := SetField(st.form, field, value), errors := errors)
  }

  /** The error text displayed under an input: only a non-empty entry shows. */
  function ShownError(st: LoginState, field: Field): Option<string>
  {
    if field in st.errors && st.errors[field] != "" then Some(st.errors[field]) else None
  }

  /** After editing a field its error is hidden and every other field's
      displayed error is unchanged. */
  lemma EditHidesOnlyThatError(st: LoginState, field: Field, value: string)
    ensures ShownError(EditField(st, field, value), field) == None
    ensures forall g | g != field :: ShownError(EditField(st, field, value), g) == ShownError(st, g)
  {
  }

  /** The sign-up / login tabs switch the mode only. */
  function SetSignup(st: LoginState, signup: bool): (r: LoginState)
    ensures r.isSignup == signup
    ensures r.form == st.form && r.errors == st.errors && r.isLoading == st.isLoading
  {
    st.(isSignup := signup)
  }

  /** The language selector on the login page changes the form's preferred
      language and nothing else. */
  function PickLanguage(st: LoginState, lang: Language): (r: LoginState)
    ensures r.form.preferredLanguage == Code(lang)
    ensures r.form.(preferredLanguage := st.form.preferredLanguage) == st.form
    ensures r.(form := st.form) == st
  {
    st.(form := st.form.(preferredLanguage := Code(lang)))
  }

  /** A valid form is submitted, and before the request finishes an input is
      edited, the language is changed and the mode tab is clicked: the
      student still carries the submitted name, e-mail, grade and language,
      while the form on screen shows the edits. */
  lemma SignInUsesSubmittedForm(st: LoginState, field: Field, value: string, lang: Language,
                                signup: bool, d: DemoDraws, id: string, joinDate: string)
    requires Validate(st.isSignup, st.form) == map[] && ValidDraws(d)
    ensures var sent := Submit(st);
      var edited := SetSignup(PickLanguage(EditField(sent, field, value), lang), signup);
      var r := FinishSubmit(edited, st.form, d, id, joinDate);
      && sent.isLoading && edited.isLoading
      && FieldValue(edited.form, field) == value && edited.form.preferredLanguage == Code(lang)
      && r.1.email == st.form.email && r.1.preferredLanguage == st.form.preferredLanguage
      && r.1.name == (if st.form.name == "" then "Demo Student" else st.form.name)
      && r.1.grade == (if st.form.grade == "" then "Grade 8" else st.form.grade)
      && !r.0.isLoading && r.0.form == edited.form
  {
  }
}
