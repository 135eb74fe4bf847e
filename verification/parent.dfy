/** Messages to a parent: the template table (three kinds of message in
    four languages), the choice between a typed message and a template, and
    the log of sent messages, to which a send adds one entry after a delay. */
module Parent {
  import opened Types
  import opened Text
  import Dashboard

  datatype Kind = ProgressKind | AchievementKind | ReminderKind

  /** One logged message. `id` and `sentAt` come from the clock. */
  datatype Update = Update(
    id: string,
    studentName: string,
    parentPhone: string,
    message: string,
    kind: Kind,
    sentAt: string)

  /** `Math.round(completed / total * 100)` as text. Rounding is half up.
      A total of zero gives the texts JavaScript prints for a division by
      zero. */
  function RoundedPercentText(completed: int, total: int): string
  {
    if total == 0 then
      (if completed == 0 then "NaN" else if completed > 0 then "Infinity" else "-Infinity")
    else IntToString(RoundedPercent(completed, total))
  }

  /** The nearest integer to `completed * 100 / total`, halves rounded up. */
  function RoundedPercent(completed: int, total: int): (r: int)
    requires total != 0
    ensures total > 0 ==> 2 * r * total - total <= 200 * completed < 2 * r * total + total
  {
    Dashboard.FloorDiv(200 * completed + total, 2 * total)
  }

  /** The template text before the student's name. */
  function TemplatePrefix(kind: Kind, lang: Language): string
  {
    match (kind, lang)
    case (ProgressKind, En) => "Progress Update: "
    case (ProgressKind, Es) => "Actualizaci\U{00F3}n de Progreso: "
    case (ProgressKind, Fr) => "Mise \U{00E0} jour des progr\U{00E8}s: "
    case (ProgressKind, Sw) => "Masasisho ya Maendeleo: "
    case (AchievementKind, En) => "\U{1F389} Great news! "
    case (AchievementKind, Es) => "\U{1F389} \U{00A1}Excelente noticia! "
    case (AchievementKind, Fr) => "\U{1F389} Excellente nouvelle! "
    case (AchievementKind, Sw) => "\U{1F389} Habari nzuri! "
    case (ReminderKind, En) => "Hi! "
    case (ReminderKind, Es) => "\U{00A1}Hola! "
    case (ReminderKind, Fr) => "Salut! "
    case (ReminderKind, Sw) => "Hujambo! "
  }

  /** The template text after the student's name. */
  function TemplateRest(kind: Kind, lang: Language, st: Student): string
  {
    match (kind, lang)
    case (ProgressKind, En) =>
      " has completed "
        + IntToString(st.progress.completedLessons)
        + " lessons with "
        + RoundedPercentText(st.progress.completedLessons, st.progress.totalLessons)
        + "% overall progress. Reading level: "
        + IntToString(st.progress.readingLevel)
        + "/10, Math level: "
        + IntToString(st.progress.mathLevel)
        + "/10."
    case (ProgressKind, Es) =>
      " ha completado "
        + IntToString(st.progress.completedLessons)
        + " lecciones con "
        + RoundedPercentText(st.progress.completedLessons, st.progress.totalLessons)
        + "% de progreso general. Nivel de lectura: "
        + IntToString(st.progress.readingLevel)
        + "/10, Nivel de matem\U{00E1}ticas: "
        + IntToString(st.progress.mathLevel)
        + "/10."
    case (ProgressKind, Fr) =>
      " a termin\U{00E9} "
        + IntToString(st.progress.completedLessons)
        + " le\U{00E7}ons avec "
        + RoundedPercentText(st.progress.completedLessons, st.progress.totalLessons)
        + "% de progr\U{00E8}s global. Niveau de lecture: "
        + IntToString(st.progress.readingLevel)
        + "/10, Niveau de math\U{00E9}matiques: "
        + IntToString(st.progress.mathLevel)
        + "/10."
    case (ProgressKind, Sw) =>
      " amekamilisha masomo "
        + IntToString(st.progress.completedLessons)
        + " na anapata "
        + RoundedPercentText(st.progress.completedLessons, st.progress.totalLessons)
        + "% ya maendeleo kwa ujumla. Kiwango cha kusoma: "
        + IntToString(st.progress.readingLevel)
        + "/10, Kiwango cha hisabati: "
        + IntToString(st.progress.mathLevel)
        + "/10."
    case (AchievementKind, En) =>
      " has achieved a "
        + IntToString(st.progress.streakDays)
        + "-day learning streak and scored excellent marks in recent exercises. They are doing wonderfully!"
    case (AchievementKind, Es) =>
      " ha logrado una racha de aprendizaje de "
        + IntToString(st.progress.streakDays)
        + " d\U{00ED}as y obtuvo excelentes calificaciones en ejercicios recientes. \U{00A1}Lo est\U{00E1} haciendo maravillosamente!"
    case (AchievementKind, Fr) =>
      " a r\U{00E9}alis\U{00E9} une s\U{00E9}rie d'apprentissage de "
        + IntToString(st.progress.streakDays)
        + " jours et a obtenu d'excellentes notes dans les exercices r\U{00E9}cents. Il/elle fait un travail merveilleux!"
    case (AchievementKind, Sw) =>
      " amepata mtiririko wa kujifunza wa siku "
        + IntToString(st.progress.streakDays)
        + " na amepata alama nzuri katika mazoezi ya hivi karibuni. Anafanya vizuri sana!"
    case (ReminderKind, En) =>
      " hasn't studied in the past few days. Please encourage them to continue their learning journey. Regular practice helps maintain progress."
    case (ReminderKind, Es) =>
      " no ha estudiado en los \U{00FA}ltimos d\U{00ED}as. Por favor, an\U{00ED}malos a continuar su viaje de aprendizaje. La pr\U{00E1}ctica regular ayuda a mantener el progreso."
    case (ReminderKind, Fr) =>
      " n'a pas \U{00E9}tudi\U{00E9} ces derniers jours. Veuillez l'encourager \U{00E0} continuer son parcours d'apprentissage. La pratique r\U{00E9}guli\U{00E8}re aide \U{00E0} maintenir les progr\U{00E8}s."
    case (ReminderKind, Sw) =>
      " hajafunza katika siku chache zilizopita. Tafadhali mhimize aendelee na safari yake ya kujifunza. Mazoezi ya kila siku yanasaidia kudumisha maendeleo."
  }

  /** The message template for a kind and language, filled in for a student. */
  function Template(kind: Kind, lang: Language, st: Student): string
  {
    TemplatePrefix(kind, lang) + st.name + TemplateRest(kind, lang, st)
  }

  /** The template for a language code as the page looks it up; `None` for a
      code that names no language (the lookup then yields `undefined`). */
  function TemplateFor(kind: Kind, code: string, st: Student): (r: Option<string>)
    ensures r.None? <==> ParseCode(code).None?
  {
    var lang := ParseCode(code);
    if lang.Some? then Some(Template(kind, lang.value, st)) else None
  }

  /** Looking a language up by its own code gives that language's template. */
  lemma TemplateForCode(kind: Kind, lang: Language, st: Student)
    ensures TemplateFor(kind, Code(lang), st) == Some(Template(kind, lang, st))
  {
    CodeRoundTrip(lang);
  }

  /** Every template, in every language, names the student. */
  lemma TemplateNamesStudent(kind: Kind, lang: Language, st: Student)
    ensures Contains(Template(kind, lang, st), st.name)
  {
    ContainsMiddle(TemplatePrefix(kind, lang), st.name, TemplateRest(kind, lang, st));
  }

  // ---------------------------------------------------------------------------
  // The message log
  // ---------------------------------------------------------------------------

  /** The texts of the three messages the log starts with: the part before
      the student's name and the part after it. */
  function StartPrefix(kind: Kind): string
  {
    match kind
    case AchievementKind => "Great news! "
    case ProgressKind => "Weekly Progress: "
    case ReminderKind => "Reminder: "
  }

  function StartRest(kind: Kind, st: Student): string
  {
    match kind
    case AchievementKind =>
      " completed 3 lessons today and scored 95% in reading practice. Keep encouraging them!"
    case ProgressKind =>
      " has completed " + IntToString(st.progress.completedLessons)
        + " lessons this week. Reading level improved from "
        + IntToString(st.progress.readingLevel - 1) + " to "
        + IntToString(st.progress.readingLevel) + "."
    case ReminderKind =>
      " has been away from studies for 2 days. Please encourage them to continue their learning journey."
  }

  /** The id and the time of the starting message of each kind. */
  function StartId(kind: Kind): string
  {
    match kind
    case AchievementKind => "1"
    case ProgressKind => "2"
    case ReminderKind => "3"
  }

  function StartTime(kind: Kind): string
  {
    match kind
    case AchievementKind => "2024-01-15T10:30:00Z"
    case ProgressKind => "2024-01-14T18:00:00Z"
    case ReminderKind => "2024-01-13T16:15:00Z"
  }

  function StartEntry(kind: Kind, st: Student): Update
  {
    Update(StartId(kind), st.name, DefaultPhone, StartMessage(kind, st), kind, StartTime(kind))
  }

  function StartMessage(kind: Kind, st: Student): string
  {
    StartPrefix(kind) + st.name + StartRest(kind, st)
  }

  /** The log as it starts: three messages about the current student to the
      default number, newest first. */
  function InitialLog(st: Student): seq<Update>
  {
    seq(|StartKinds|, i requires 0 <= i < |StartKinds| => StartEntry(StartKinds[i], st))
  }

  const StartKinds := [AchievementKind, ProgressKind, ReminderKind]

  const DefaultPhone := "+254712345678"

  /** The form and the log. `sending` is on between the click and delivery. */
  datatype ParentState = ParentState(
    phone: string,
    kind: Kind,
    custom: string,
    sending: bool,
    log: seq<Update>)

  function Initial(st: Student): ParentState
  {
    ParentState(DefaultPhone, ProgressKind, "", false, InitialLog(st))
  }

  /** The log starts with one message of each kind, in the order of
      `StartKinds` (achievement first, reminder last); each is about the
      current student, addressed to the default number, and carries the
      starting id and text for its kind. */
  lemma InitialLogFacts(st: Student, i: nat)
    requires i < 3
    ensures |Initial(st).log| == 3
    ensures Initial(st).log[i].kind == StartKinds[i]
    ensures Initial(st).log[i].id == StartId(StartKinds[i])
    ensures Initial(st).log[i].message == StartMessage(StartKinds[i], st)
    ensures Initial(st).log[i].studentName == st.name && Initial(st).log[i].parentPhone == DefaultPhone
  {
  }

  /** Every starting message names the student. */
  lemma StartMessageNamesStudent(kind: Kind, st: Student)
    ensures Contains(StartMessage(kind, st), st.name)
  {
    ContainsMiddle(StartPrefix(kind), st.name, StartRest(kind, st));
  }

  /** The send button is enabled when nothing is being sent and the phone
      number is not blank. */
  predicate CanSend(ps: ParentState)
  {
    !ps.sending && !IsBlank(ps.phone)
  }

  /** The text a click sends: the typed message, trimmed, unless it is blank;
      otherwise the template for the chosen kind and the language code. */
  function Message(custom: string, kind: Kind, code: string, st: Student): (r: Option<string>)
    ensures !IsBlank(custom) ==> r == Some(Trim(custom)) && r.value != ""
    ensures IsBlank(custom) ==> r == TemplateFor(kind, code, st)
  {
    TrimEmptyIffBlank(custom);
    var typed := Trim(custom);
    if typed != "" then Some(typed) else TemplateFor(kind, code, st)
  }

  /** What a click fixes before the two-second delay: the text, the number,
      the kind and the student's name, all as they were at the click. */
  datatype Outgoing = Outgoing(
    studentName: string,
    parentPhone: string,
    message: Option<string>,
    kind: Kind)

  /** A click on send. A blank phone number does nothing; otherwise the
      message is fixed and `sending` goes on. Nothing else changes until
      delivery. */
  function BeginSend(ps: ParentState, code: string, st: Student): (r: (ParentState, Option<Outgoing>))
    ensures IsBlank(ps.phone) <==> r.1.None?
    ensures IsBlank(ps.phone) ==> r.0 == ps
    ensures r.1.Some? ==>
      && r.0 == ps.(sending := true)
      && r.1.value == Outgoing(st.name, ps.phone, Message(ps.custom, ps.kind, code, st), ps.kind)
  {
    TrimEmptyIffBlank(ps.phone);
    if Trim(ps.phone) == "" then (ps, None)
    else (ps.(sending := true), Some(Outgoing(st.name, ps.phone, Message(ps.custom, ps.kind, code, st), ps.kind)))
  }

  /** Delivery after the delay: the new entry goes to the top of the log with
      an id and a time from the clock, the typed message is cleared and
      `sending` goes off. The phone and kind fields are left as they are. */
  function Deliver(ps: ParentState, out: Outgoing, id: string, sentAt: string): (r: ParentState)
    ensures |r.log| == |ps.log| + 1 && r.log[1..] == ps.log
    ensures out.message.Some? ==> r.log[0].message == out.message.value
    ensures r.log[0].kind == out.kind
    ensures r.log[0].id == id && r.log[0].sentAt == sentAt
    ensures r.log[0].parentPhone == out.parentPhone && r.log[0].studentName == out.studentName
    ensures r.custom == "" && !r.sending
    ensures r.phone == ps.phone && r.kind == ps.kind
  {
    // An undefined message is rendered as nothing.
    var text := if out.message.Some? then out.message.value else "";
    ps.(log := [Update(id, out.studentName, out.parentPhone, text, out.kind, sentAt)] + ps.log,
        custom := "", sending := false)
  }

  /** A send from an enabled form, followed by its delivery, puts exactly one
      entry on top of the log with the chosen text and leaves the form ready
      for the next send. With no typed text and a known language the entry
      is the template, which names the student. */
  lemma SendThenDeliver(ps: ParentState, code: string, st: Student, id: string, sentAt: string)
    requires CanSend(ps)
    ensures var (mid, out) := BeginSend(ps, code, st);
      && out.Some? && mid.sending && !CanSend(mid)
      && var r := Deliver(mid, out.value, id, sentAt);
      && r.log[1..] == ps.log && |r.log| == |ps.log| + 1
      && r.log[0].studentName == st.name && r.log[0].parentPhone == ps.phone && r.log[0].kind == ps.kind
      && (!IsBlank(ps.custom) ==> r.log[0].message == Trim(ps.custom))
      && (IsBlank(ps.custom) && ParseCode(code).Some? ==>
            r.log[0].message == Template(ps.kind, ParseCode(code).value, st)
            && Contains(r.log[0].message, st.name))
      && CanSend(r) && r.custom == ""
  {
    if IsBlank(ps.custom) && ParseCode(code).Some? {
      TemplateNamesStudent(ps.kind, ParseCode(code).value, st);
    }
  }

  // ---------------------------------------------------------------------------
  // Rounding
  // ---------------------------------------------------------------------------

  /** The rounded percentage in a message is the floored percentage on the
      dashboard or one more. */
  lemma RoundedAgainstFloored(completed: int, total: int)
    requires total > 0
    ensures Dashboard.Percent(completed, total) <= RoundedPercent(completed, total)
                                                <= Dashboard.Percent(completed, total) + 1
  {
    var f, r := Dashboard.Percent(completed, total), RoundedPercent(completed, total);
    assert f * total <= 100 * completed < f * total + total;
    assert 2 * r * total - total <= 200 * completed < 2 * r * total + total;
    if r < f {
      Dashboard.MulMonotonic(f, r + 1, 2 * total);
    }
    if r > f + 1 {
      Dashboard.MulMonotonic(r, f + 2, 2 * total);
    }
  }

  /** Two lessons out of three show as 66% on the dashboard and 67% in the
      progress message. */
  lemma TwoThirds()
    ensures Dashboard.Percent(2, 3) == 66 && RoundedPercent(2, 3) == 67
  {
  }
}
