/** The application shell: the session (student, language, teacher mode,
    active tab), its write-through to the browser's key/value storage and its
    reload, the time-of-day greeting and the rule that picks the panel to show. */
module Session {
  import opened Types
  import opened Codec

  /** Browser storage: string keys to string values. */
  type Store = map<string, string>

  const StudentKey := "currentStudent"
  const LanguageKey := "currentLanguage"
  const TeacherKey := "isTeacherMode"

  /** The shell's state. The language is kept as the raw stored code: a value
      read back from storage is used without checking it is one of the four. */
  datatype Session = Session(
    student: Option<Student>,
    activeTab: string,
    language: string,
    teacherMode: bool)

  /** The shell's state together with the storage it writes through to. */
  datatype App = App(session: Session, store: Store)

  /** State before the stored session is read. */
  const Initial := Session(None, "dashboard", "en", false)

  /** A stored value the start-up check accepts: present and non-empty (an
      empty string is falsy and is skipped like a missing key). */
  function Saved(store: Store, key: string): (r: Option<string>)
    ensures r.Some? <==> key in store && store[key] != ""
    ensures r.Some? ==> r.value == store[key]
  {
    if key in store && store[key] != "" then Some(store[key]) else None
  }

  /** The start-up read of storage. `None` stands for a stored student or flag
      that cannot be parsed: the application does not guard that parse, so no
      session results. The tab is not stored and starts at the dashboard. */
  function Load(store: Store): (r: Option<Session>)
    ensures r.Some? <==>
      && (Saved(store, StudentKey).Some? ==> DecodeStudent(store[StudentKey]).Some?)
      && (Saved(store, TeacherKey).Some? ==> DecodeBool(store[TeacherKey]).Some?)
    ensures r.Some? ==> r.value.activeTab == "dashboard"
  {
    var student := Saved(store, StudentKey);
    var language := Saved(store, LanguageKey);
    var teacher := Saved(store, TeacherKey);
    if student.Some? && DecodeStudent(student.value).None? then None
    else if teacher.Some? && DecodeBool(teacher.value).None? then None
    else
      Some(Session(
        if student.Some? then DecodeStudent(student.value) else None,
        "dashboard",
        if language.Some? then language.value else "en",
        if teacher.Some? then DecodeBool(teacher.value).value else false))
  }

  /** Memory and storage agree: reloading now would give back the in-memory
      session (apart from the tab, which is not stored). */
  predicate Persisted(app: App)
  {
    Load(app.store) == Some(app.session.(activeTab := "dashboard"))
  }

  /** Start-up: the session read from storage, or none when storage cannot be
      read. The resulting application state is persisted by construction. */
  function Start(store: Store): (r: Option<App>)
    ensures r.Some? ==> Persisted(r.value) && r.value.session.activeTab == "dashboard"
    ensures r.Some? <==> Load(store).Some?
  {
    match Load(store)
    case None => None
    case Some(s) => Some(App(s, store))
  }

  /** With no stored keys the session has no student, English, and student mode. */
  lemma LoadEmptyStore(store: Store)
    requires StudentKey !in store && LanguageKey !in store && TeacherKey !in store
    ensures Load(store) == Some(Initial)
  {
  }

  // ---------------------------------------------------------------------------
  // Transitions
  // ---------------------------------------------------------------------------

  /** Login: the student becomes current, is written under `currentStudent`,
      and the dashboard tab is selected. */
  function Login(app: App, st: Student): (r: App)
    ensures r.session.student == Some(st) && r.session.activeTab == "dashboard"
    ensures r.session.language == app.session.language
    ensures r.session.teacherMode == app.session.teacherMode
    ensures StudentKey in r.store && r.store.Keys == app.store.Keys + {StudentKey}
    ensures forall k | k in app.store && k != StudentKey :: r.store[k] == app.store[k]
  {
    App(app.session.(student := Some(st), activeTab := "dashboard"),
        app.store[StudentKey := EncodeStudent(st)])
  }

  /** Logout: student and teacher mode are cleared in memory and their keys
      removed from storage; the stored language is left alone. */
  function Logout(app: App): (r: App)
    ensures r.session.student == None && !r.session.teacherMode
    ensures r.session.activeTab == "dashboard"
    ensures r.session.language == app.session.language
    ensures r.store.Keys == app.store.Keys - {StudentKey, TeacherKey}
    ensures forall k | k in r.store :: r.store[k] == app.store[k]
  {
    App(app.session.(student := None, activeTab := "dashboard", teacherMode := false),
        app.store - {StudentKey, TeacherKey})
  }

  /** Language change from the header selector: set and written through. */
  function ChangeLanguage(app: App, lang: Language): (r: App)
    ensures r.session == app.session.(language := Code(lang))
    ensures r.store.Keys == app.store.Keys + {LanguageKey}
    ensures r.store[LanguageKey] == Code(lang)
    ensures forall k | k in app.store && k != LanguageKey :: r.store[k] == app.store[k]
  {
    App(app.session.(language := Code(lang)), app.store[LanguageKey := Code(lang)])
  }

  /** Teacher-mode toggle: the flag flips, the new value is written through,
      and the tab becomes the teacher dashboard exactly when the mode is on. */
  function ToggleTeacherMode(app: App): (r: App)
    ensures r.session.teacherMode == !app.session.teacherMode
    ensures r.session.activeTab == (if r.session.teacherMode then "teacher" else "dashboard")
    ensures r.session.student == app.session.student
    ensures r.session.language == app.session.language
    ensures TeacherKey in r.store && DecodeBool(r.store[TeacherKey]) == Some(r.session.teacherMode)
    ensures forall k | k in app.store && k != TeacherKey :: k in r.store && r.store[k] == app.store[k]
  {
    var on := !app.session.teacherMode;
    App(app.session.(teacherMode := on, activeTab := if on then "teacher" else "dashboard"),
        app.store[TeacherKey := EncodeBool(on)])
  }

  /** A click in the sidebar selects a tab; nothing is stored. */
  function SelectTab(app: App, tab: string): (r: App)
    ensures r.session.activeTab == tab && r.store == app.store
    ensures r.session.(activeTab := app.session.activeTab) == app.session
  {
    App(app.session.(activeTab := tab), app.store)
  }

  // ---------------------------------------------------------------------------
  // Reload properties
  // ---------------------------------------------------------------------------

  /** After a login, a reload restores that student and changes nothing else. */
  lemma LoginReload(app: App, st: Student)
    requires Load(app.store).Some?
    ensures Load(Login(app, st).store) == Some(Load(app.store).value.(student := Some(st)))
  {
    StudentRoundTrip(st);
  }

  /** After a logout, a reload has no student and student mode, and keeps the
      language that was stored before: logout never loses the language. */
  lemma LogoutReload(app: App)
    ensures Load(Logout(app).store) ==
      Some(Session(None, "dashboard",
        if LanguageKey in app.store && app.store[LanguageKey] != "" then app.store[LanguageKey] else "en",
        false))
  {
  }

  /** A language change survives a reload. */
  lemma LanguageReload(app: App, lang: Language)
    requires Load(app.store).Some?
    ensures Load(ChangeLanguage(app, lang).store) == Some(Load(app.store).value.(language := Code(lang)))
  {
  }

  /** The teacher-mode flag survives a reload. */
  lemma TeacherModeReload(app: App)
    requires Load(app.store).Some?
    ensures Load(ToggleTeacherMode(app).store) ==
      Some(Load(app.store).value.(teacherMode := !app.session.teacherMode))
  {
  }

  /** Toggling twice restores the flag, the stored flag and the student. */
  lemma ToggleTwice(app: App)
    ensures var r := ToggleTeacherMode(ToggleTeacherMode(app));
      && r.session.teacherMode == app.session.teacherMode
      && r.session.student == app.session.student
      && r.store[TeacherKey] == EncodeBool(app.session.teacherMode)
  {
  }

  /** Every transition writes through: if memory and storage agreed before,
      they agree after, so a reload always shows the latest state. */
  lemma TransitionsPersist(app: App, st: Student, lang: Language, tab: string)
    requires Persisted(app)
    ensures Persisted(Login(app, st))
    ensures Persisted(Logout(app))
    ensures Persisted(ChangeLanguage(app, lang))
    ensures Persisted(ToggleTeacherMode(app))
    ensures Persisted(SelectTab(app, tab))
  {
    LoginReload(app, st);
    LogoutReload(app);
    LanguageReload(app, lang);
    TeacherModeReload(app);
  }

  // ---------------------------------------------------------------------------
  // Greeting
  // ---------------------------------------------------------------------------

  datatype DayPart = Morning | Afternoon | Evening

  /** The bucket for an hour of the local clock (0..23). */
  function DayPartOf(hour: int): (p: DayPart)
    ensures p == Morning <==> hour < 12
    ensures p == Afternoon <==> 12 <= hour < 18
    ensures p == Evening <==> 18 <= hour
  {
    if hour >= 12 && hour < 18 then Afternoon
    else if hour >= 18 then Evening
    else Morning
  }

  /** The greeting table: three texts for each of the four languages. */
  function GreetingText(lang: Language, part: DayPart): string
  {
    match (lang, part)
    case (En, Morning) => "Good morning"
    case (En, Afternoon) => "Good afternoon"
    case (En, Evening) => "Good evening"
    case (Es, Morning) => "Buenos d\U{00ED}as"
    case (Es, Afternoon) => "Buenas tardes"
    case (Es, Evening) => "Buenas noches"
    case (Fr, Morning) => "Bonjour"
    case (Fr, Afternoon) => "Bon apr\U{00E8}s-midi"
    case (Fr, Evening) => "Bonsoir"
    case (Sw, Morning) => "Habari za asubuhi"
    case (Sw, Afternoon) => "Habari za mchana"
    case (Sw, Evening) => "Habari za jioni"
  }

  /** The greeting for the session's language code at an hour; `None` for a
      code outside the table, where reading the hour's entry of the missing
      language throws a `TypeError` and the dashboard does not render. */
  function Greeting(code: string, hour: int): (r: Option<string>)
    ensures r.Some? <==> ParseCode(code).Some?
  {
    match ParseCode(code)
    case None => None
    case Some(lang) => Some(GreetingText(lang, DayPartOf(hour)))
  }

  /** For every language the three buckets give three different non-empty
      texts, split at 12 and 18 o'clock. */
  lemma GreetingBuckets(lang: Language, hour: int)
    requires 0 <= hour < 24
    ensures GreetingText(lang, Morning) != GreetingText(lang, Afternoon)
    ensures GreetingText(lang, Afternoon) != GreetingText(lang, Evening)
    ensures GreetingText(lang, Morning) != GreetingText(lang, Evening)
    ensures Greeting(Code(lang), hour) == Some(GreetingText(lang,
      if hour < 12 then Morning else if hour < 18 then Afternoon else Evening))
  {
    CodeRoundTrip(lang);
  }

  // ---------------------------------------------------------------------------
  // Routing
  // ---------------------------------------------------------------------------

  datatype View =
    | LoginPage | TeacherPanel | DashboardPanel | ReadingPanel
    | HomeworkPanel | LessonsPanel | OfflinePanel | ParentPanel

  /** The panel rendered for a session. */
  function Route(s: Session): View
  {
    if s.student.None? then LoginPage
    else if s.teacherMode && s.activeTab == "teacher" then TeacherPanel
    else if s.activeTab == "reading" then ReadingPanel
    else if s.activeTab == "homework" then HomeworkPanel
    else if s.activeTab == "lessons" then LessonsPanel
    else if s.activeTab == "offline" then OfflinePanel
    else if s.activeTab == "parent" then ParentPanel
    else DashboardPanel
  }

  /** Sidebar visibility. */
  function ShowSidebar(s: Session): bool
  {
    !s.teacherMode || s.activeTab != "teacher"
  }

  /** Tabs that have their own student panel. */
  const PanelTabs := {"reading", "homework", "lessons", "offline", "parent"}

  /** Routing: the login page exactly when there is no student; the teacher
      dashboard exactly when teacher mode is on and the tab is `teacher`; the
      student dashboard for any other tab without its own panel; and a
      logged-in sidebar exactly when the teacher dashboard is not shown. */
  lemma RouteRules(s: Session)
    ensures Route(s) == LoginPage <==> s.student.None?
    ensures Route(s) == TeacherPanel <==> s.student.Some? && s.teacherMode && s.activeTab == "teacher"
    ensures Route(s) == DashboardPanel <==>
      s.student.Some? && !(s.teacherMode && s.activeTab == "teacher") && s.activeTab !in PanelTabs
    ensures s.student.Some? ==> (ShowSidebar(s) <==> Route(s) != TeacherPanel)
  {
  }

  /** Logging in always lands on the student dashboard, with the sidebar. */
  lemma LoginShowsDashboard(app: App, st: Student)
    ensures Route(Login(app, st).session) == DashboardPanel
    ensures ShowSidebar(Login(app, st).session)
  {
  }

  /** Toggling teacher mode on (when logged in) shows the teacher dashboard
      without a sidebar; toggling it off shows the student dashboard. */
  lemma ToggleRoutes(app: App)
    requires app.session.student.Some?
    ensures var s := ToggleTeacherMode(app).session;
      && (s.teacherMode ==> Route(s) == TeacherPanel && !ShowSidebar(s))
      && (!s.teacherMode ==> Route(s) == DashboardPanel && ShowSidebar(s))
  {
  }
}
