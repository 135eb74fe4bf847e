/** Shapes shared by every panel: the optional value, the four interface
    languages and the student record with its embedded progress counters. */
module Types {

  /** A value that may be absent (`null` / `undefined` in the application). */
  datatype Option<+T> = None | Some(value: T)

  /** `list.find(x => key(x) === id)`: the first element whose key is `id`,
      and `undefined` exactly when no element has that key. */
  function FindBy<T(==)>(list: seq<T>, key: T -> string, id: string): (r: Option<T>)
    ensures r.None? <==> forall k | 0 <= k < |list| :: key(list[k]) != id
    ensures r.Some? ==> exists i | 0 <= i < |list| ::
      list[i] == r.value && key(list[i]) == id && forall j | 0 <= j < i :: key(list[j]) != id
  {
    if list == [] then None
    else if key(list[0]) == id then Some(list[0])
    else
      var r := FindBy(list[1..], key, id);
      assert forall k | 1 <= k < |list| :: list[k] == list[1..][k - 1];
      if r.Some? then
        var i :| 0 <= i < |list| - 1 && list[1..][i] == r.value && key(list[1..][i]) == id
          && forall j | 0 <= j < i :: key(list[1..][j]) != id;
        assert list[i + 1] == r.value && forall j | 0 <= j < i + 1 :: key(list[j]) != id;
        r
      else r
  }

  /** The four interface languages. */
  datatype Language = En | Es | Fr | Sw

  /** The two-letter code under which a language is stored and looked up. */
  function Code(lang: Language): string
  {
    match lang
    case En => "en"
    case Es => "es"
    case Fr => "fr"
    case Sw => "sw"
  }

  /** The language a two-letter code names, if any. */
  function ParseCode(code: string): (r: Option<Language>)
    ensures r.Some? ==> Code(r.value) == code
  {
    if code == "en" then Some(En)
    else if code == "es" then Some(Es)
    else if code == "fr" then Some(Fr)
    else if code == "sw" then Some(Sw)
    else None
  }

  /** Every language is recovered from its code, so the codes are distinct. */
  lemma CodeRoundTrip(lang: Language)
    ensures ParseCode(Code(lang)) == Some(lang)
  {
  }

  /** Numeric progress counters of a student. JavaScript numbers; the
      application only ever stores integers here. */
  datatype Progress = Progress(
    readingLevel: int,
    mathLevel: int,
    completedLessons: int,
    totalLessons: int,
    streakDays: int)

  datatype Student = Student(
    id: string,
    name: string,
    email: string,
    grade: string,
    preferredLanguage: string,
    joinDate: string,
    progress: Progress)
}
