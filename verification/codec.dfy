/** Text form of the values the session writes to storage.

    The application stores a student with `JSON.stringify` and reads it back
    with `JSON.parse`; the only property the session relies on is that the
    parse inverts the stringify. This module stands in for that pair with a
    length-prefixed encoding (each field as `<length>:<text>`) whose round trip
    is proved. Booleans are written exactly as `JSON.stringify` writes them. */
module Codec {
  import opened Types
  import opened Text

  /** One field: its length in decimal, a colon, then the text itself. */
  function Field(x: string): string
  {
    NatToString(|x|) + ":" + x
  }

  function EncodeFields(fields: seq<string>): string
  {
    if fields == [] then "" else Field(fields[0]) + EncodeFields(fields[1..])
  }

  /** Reads one field off the front of `s`, returning it and the remaining text. */
  function DecodeField(s: string): Option<(string, string)>
  {
    if ':' !in s then None
    else
      var k := FirstIndex(s, ':');
      if k == 0 || !AllDigits(s[..k]) then None
      else
        var n := DigitsValue(s[..k]);
        if k + 1 + n > |s| then None
        else Some((s[k + 1..k + 1 + n], s[k + 1 + n..]))
  }

  /** Reads exactly `count` fields and requires nothing to be left over. */
  function DecodeFields(s: string, count: nat): Option<seq<string>>
  {
    if count == 0 then (if s == "" then Some([]) else None)
    else
      match DecodeField(s)
      case None => None
      case Some((x, rest)) =>
        match DecodeFields(rest, count - 1)
        case None => None
        case Some(xs) => Some([x] + xs)
  }

  /** A field followed by any text decodes to that field and that text. */
  lemma DecodeFieldOfField(x: string, rest: string)
    ensures DecodeField(Field(x) + rest) == Some((x, rest))
  {
    var d := NatToString(|x|);
    var s := Field(x) + rest;
    assert s == d + ":" + x + rest;
    assert s[..|d|] == d;
    assert s[|d|] == ':';
    assert ':' !in d by {
      forall i | 0 <= i < |d| ensures d[i] != ':' {
        assert IsDigit(d[i]);
      }
    }
    FirstIndexAt(s, ':', |d|);
    DigitsValueOfNatToString(|x|);
    assert s[|d| + 1..|d| + 1 + |x|] == x;
    assert s[|d| + 1 + |x|..] == rest;
  }

  /** Reading back the encoding of a field list yields exactly that list. */
  lemma {:induction false} DecodeEncodeFields(fields: seq<string>)
    ensures DecodeFields(EncodeFields(fields), |fields|) == Some(fields)
  {
    if fields != [] {
      var rest := EncodeFields(fields[1..]);
      DecodeFieldOfField(fields[0], rest);
      DecodeEncodeFields(fields[1..]);
      assert [fields[0]] + fields[1..] == fields;
    }
  }

  function StudentFields(st: Student): seq<string>
  {
    [st.id, st.name, st.email, st.grade, st.preferredLanguage, st.joinDate,
     IntToString(st.progress.readingLevel), IntToString(st.progress.mathLevel),
     IntToString(st.progress.completedLessons), IntToString(st.progress.totalLessons),
     IntToString(st.progress.streakDays)]
  }

  /** Stand-in for `JSON.stringify(student)`. */
  function EncodeStudent(st: Student): string
  {
    EncodeFields(StudentFields(st))
  }

  /** Stand-in for `JSON.parse` of a stored student; `None` where the
      application's parse would throw. */
  function DecodeStudent(s: string): Option<Student>
  {
    match DecodeFields(s, 11)
    case None => None
    case Some(f) =>
      if |f| != 11 then None
      else
        match (ParseIntText(f[6]), ParseIntText(f[7]), ParseIntText(f[8]),
               ParseIntText(f[9]), ParseIntText(f[10]))
        case (Some(r), Some(m), Some(c), Some(t), Some(d)) =>
          Some(Student(f[0], f[1], f[2], f[3], f[4], f[5], Progress(r, m, c, t, d)))
        case _ => None
  }

  /** Whatever student is written can be read back unchanged. */
  lemma StudentRoundTrip(st: Student)
    ensures DecodeStudent(EncodeStudent(st)) == Some(st)
  {
    var f := StudentFields(st);
    DecodeEncodeFields(f);
    IntTextRoundTrip(st.progress.readingLevel);
    IntTextRoundTrip(st.progress.mathLevel);
    IntTextRoundTrip(st.progress.completedLessons);
    IntTextRoundTrip(st.progress.totalLessons);
    IntTextRoundTrip(st.progress.streakDays);
  }

  /** `JSON.stringify` of a boolean. */
  function EncodeBool(b: bool): string
  {
    if b then "true" else "false"
  }

  /** `JSON.parse` of a stored flag, restricted to the two boolean literals;
      `None` for any other text. */
  function DecodeBool(s: string): (r: Option<bool>)
    ensures r.Some? <==> s == "true" || s == "false"
  {
    if s == "true" then Some(true) else if s == "false" then Some(false) else None
  }

  lemma BoolRoundTrip(b: bool)
    ensures DecodeBool(EncodeBool(b)) == Some(b)
  {
  }
}
