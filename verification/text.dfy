/** The JavaScript string operations the application relies on: the `\s`
    character class and `trim`, `startsWith`/`endsWith`, `split`, ASCII
    lower-casing, number-to-text conversion and `parseInt`. */
module Text {
  import opened Types

  /** ECMAScript WhiteSpace and LineTerminator code points: exactly the
      characters `\s` matches and `trim` removes. */
  predicate IsSpace(c: char)
  {
    || c == '\t' || c == '\n' || c == '\U{000B}' || c == '\U{000C}' || c == '\r'
    || c == ' ' || c == '\U{00A0}' || c == '\U{1680}'
    || ('\U{2000}' <= c <= '\U{200A}')
    || c == '\U{2028}' || c == '\U{2029}' || c == '\U{202F}' || c == '\U{205F}'
    || c == '\U{3000}' || c == '\U{FEFF}'
  }

  /** Reference meaning of "whitespace only": every character is a space. */
  predicate IsBlank(s: string)
  {
    forall i | 0 <= i < |s| :: IsSpace(s[i])
  }

  /** No character of `s` is a space. */
  predicate Spaceless(s: string)
  {
    forall i | 0 <= i < |s| :: !IsSpace(s[i])
  }

  /** `trimStart`: drops the leading run of spaces. */
  function TrimStart(s: string): (r: string)
    ensures |r| <= |s| && r == s[|s| - |r|..]
    ensures r == [] || !IsSpace(r[0])
    ensures forall i | 0 <= i < |s| - |r| :: IsSpace(s[i])
  {
    if s != [] && IsSpace(s[0]) then
      var r := TrimStart(s[1..]);
      assert forall i | 1 <= i < |s| :: s[1..][i - 1] == s[i];
      r
    else s
  }

  /** `trimEnd`: drops the trailing run of spaces. */
  function TrimEnd(s: string): (r: string)
    ensures |r| <= |s| && r == s[..|r|]
    ensures r == [] || !IsSpace(r[|r| - 1])
    ensures forall i | |r| <= i < |s| :: IsSpace(s[i])
  {
    if s != [] && IsSpace(s[|s| - 1]) then
      var r := TrimEnd(s[..|s| - 1]);
      assert forall i | 0 <= i < |s| - 1 :: s[..|s| - 1][i] == s[i];
      r
    else s
  }

  /** `trim`: the longest slice of `s` that neither starts nor ends with a space. */
  function Trim(s: string): (r: string)
  {
    TrimEnd(TrimStart(s))
  }

  /** Trimming leaves nothing exactly when the text is whitespace only; this is
      what every `!x.trim()` test in the application decides. */
  lemma TrimEmptyIffBlank(s: string)
    ensures Trim(s) == [] <==> IsBlank(s)
  {
  }

  /** How many characters `trimStart` drops. */
  function LeadingSpaces(s: string): nat
  {
    |s| - |TrimStart(s)|
  }

  /** A trimmed text neither starts nor ends with a space. */
  lemma TrimEnds(s: string)
    ensures Trim(s) == [] || (!IsSpace(Trim(s)[0]) && !IsSpace(Trim(s)[|Trim(s)| - 1]))
  {
    var t := TrimStart(s);
    if Trim(s) != [] {
      assert Trim(s)[0] == t[0];
    }
  }

  /** What `trimStart` removes is a run of spaces: the result is the input
      after a blank start. */
  lemma TrimStartShape(s: string)
    ensures TrimStart(s) == s[LeadingSpaces(s)..]
    ensures IsBlank(s[..LeadingSpaces(s)])
  {
    var k := LeadingSpaces(s);
    forall i | 0 <= i < k ensures IsSpace(s[..k][i]) {
      assert s[..k][i] == s[i];
    }
  }

  /** What `trimEnd` removes is a run of spaces: the result is the input
      before a blank end. Since `trim` is `trimEnd` after `trimStart`, the two
      together say that `trim` keeps the slice between a blank start and a
      blank end. */
  lemma TrimEndShape(t: string)
    ensures TrimEnd(t) == t[..|TrimEnd(t)|]
    ensures IsBlank(t[|TrimEnd(t)|..])
  {
    var n := |TrimEnd(t)|;
    forall i | 0 <= i < |t| - n ensures IsSpace(t[n..][i]) {
      assert t[n..][i] == t[n + i];
    }
  }

  predicate StartsWith(s: string, prefix: string)
  {
    |prefix| <= |s| && s[..|prefix|] == prefix
  }

  predicate EndsWith(s: string, suffix: string)
  {
    |suffix| <= |s| && s[|s| - |suffix|..] == suffix
  }

  /** `s` has `sub` as a contiguous substring. */
  predicate Contains(s: string, sub: string)
  {
    exists i | 0 <= i <= |s| - |sub| :: OccursAt(s, sub, i)
  }

  /** `sub` occurs in `s` starting at index `i`. */
  predicate OccursAt(s: string, sub: string, i: int)
  {
    0 <= i <= |s| - |sub| && s[i..i + |sub|] == sub
  }

  /** A text placed between two others is contained in the result. */
  lemma ContainsMiddle(a: string, sub: string, b: string)
    ensures Contains(a + sub + b, sub)
  {
    var s := a + sub + b;
    assert s[|a|..|a| + |sub|] == sub;
    assert OccursAt(s, sub, |a|);
  }

  // ---------------------------------------------------------------------------
  // Lower-casing (ASCII letters only)
  // ---------------------------------------------------------------------------

  function LowerChar(c: char): (r: char)
    ensures 'A' <= c <= 'Z' ==> r as int == c as int + 32
    ensures !('A' <= c <= 'Z') ==> r == c
  {
    if 'A' <= c <= 'Z' then (c as int + 32) as char else c
  }

  function Lower(s: string): (r: string)
    ensures |r| == |s|
    ensures forall i | 0 <= i < |s| :: r[i] == LowerChar(s[i])
  {
    seq(|s|, i requires 0 <= i < |s| => LowerChar(s[i]))
  }

  // ---------------------------------------------------------------------------
  // .length
  // ---------------------------------------------------------------------------

  /** A character outside the Basic Multilingual Plane, stored by JavaScript
      as a surrogate pair. */
  predicate IsAstral(c: char)
  {
    c as int > 0xFFFF
  }

  /** `s.length`: the number of UTF-16 code units, where an astral character
      counts twice. */
  function Utf16Length(s: string): (n: nat)
    ensures |s| <= n <= 2 * |s|
  {
    if s == [] then 0 else (if IsAstral(s[0]) then 2 else 1) + Utf16Length(s[1..])
  }

  /** Without astral characters `.length` is the number of characters. */
  lemma {:induction false} Utf16LengthOfBmp(s: string)
    requires forall i | 0 <= i < |s| :: !IsAstral(s[i])
    ensures Utf16Length(s) == |s|
  {
    if s != [] {
      assert forall i | 0 <= i < |s| - 1 :: s[1..][i] == s[i + 1];
      Utf16LengthOfBmp(s[1..]);
    }
  }

  /** With only astral characters `.length` is twice the number of characters. */
  lemma {:induction false} Utf16LengthOfAstral(s: string)
    requires forall i | 0 <= i < |s| :: IsAstral(s[i])
    ensures Utf16Length(s) == 2 * |s|
  {
    if s != [] {
      assert forall i | 0 <= i < |s| - 1 :: s[1..][i] == s[i + 1];
      Utf16LengthOfAstral(s[1..]);
    }
  }

  // ---------------------------------------------------------------------------
  // split(sep) and its inverse join(sep)
  // ---------------------------------------------------------------------------

  /** `s.split(sep)` for a one-character separator: the pieces between
      consecutive separators, always at least one. */
  function Split(s: string, sep: char): (r: seq<string>)
    ensures |r| >= 1
    ensures forall k | 0 <= k < |r| :: sep !in r[k]
    decreases |s|
  {
    if sep !in s then [s]
    else
      var i := FirstIndex(s, sep);
      [s[..i]] + Split(s[i + 1..], sep)
  }

  /** Index of the first occurrence of `c` in `s`. */
  function FirstIndex(s: string, c: char): (i: nat)
    requires c in s
    ensures i < |s| && s[i] == c && c !in s[..i]
  {
    if s[0] == c then 0 else 1 + FirstIndex(s[1..], c)
  }

  /** The first occurrence of `c` is at `k` when `c` is at `k` and not before. */
  lemma {:induction false} FirstIndexAt(s: string, c: char, k: nat)
    requires k < |s| && s[k] == c && c !in s[..k]
    ensures FirstIndex(s, c) == k
  {
    if k > 0 {
      assert s[0] == s[..k][0];
      assert s[1..][..k - 1] == s[..k][1..];
      FirstIndexAt(s[1..], c, k - 1);
    }
  }

  /** Splitting two texts joined by the separator gives the pieces of the
      first followed by the pieces of the second: `split` works piece by piece. */
  lemma {:induction false} SplitAppend(a: string, sep: char, b: string)
    ensures Split(a + [sep] + b, sep) == Split(a, sep) + Split(b, sep)
    decreases |a|
  {
    var s := a + [sep] + b;
    if sep !in a {
      assert s[..|a|] == a;
      FirstIndexAt(s, sep, |a|);
      assert s[|a| + 1..] == b;
    } else {
      var i := FirstIndex(a, sep);
      assert s[..i] == a[..i];
      FirstIndexAt(s, sep, i);
      assert s[i + 1..] == a[i + 1..] + [sep] + b;
      SplitAppend(a[i + 1..], sep, b);
    }
  }

  /** `pieces.join(sep)`. */
  function Join(pieces: seq<string>, sep: char): string
  {
    if |pieces| <= 1 then (if pieces == [] then "" else pieces[0])
    else pieces[0] + [sep] + Join(pieces[1..], sep)
  }

  /** Splitting on a character and joining back on it restores the text, so
      `split('\n')` loses nothing but the separators. */
  lemma {:induction false} JoinSplit(s: string, sep: char)
    ensures Join(Split(s, sep), sep) == s
    decreases |s|
  {
    if sep in s {
      var i := FirstIndex(s, sep);
      var rest := Split(s[i + 1..], sep);
      assert Split(s, sep) == [s[..i]] + rest;
      assert Join(rest, sep) == s[i + 1..] by { JoinSplit(s[i + 1..], sep); }
      JoinCons(s[..i], rest, sep);
      assert s == s[..i] + [sep] + s[i + 1..] by { assert s[i] == sep; }
    }
  }

  lemma JoinCons(p: string, rest: seq<string>, sep: char)
    requires |rest| >= 1
    ensures Join([p] + rest, sep) == p + [sep] + Join(rest, sep)
  {
    assert ([p] + rest)[1..] == rest;
  }

  // ---------------------------------------------------------------------------
  // split(/\s+/)
  // ---------------------------------------------------------------------------

  /** `s.split(/\s+/)`: the texts between maximal runs of spaces, including an
      empty first or last piece when `s` starts or ends with a space. */
  function SplitOnSpaces(s: string): (r: seq<string>)
    ensures |r| >= 1
    decreases |s|
  {
    if Spaceless(s) then [s]
    else
      var i := FirstSpace(s);
      var j := EndOfSpaces(s, i);
      [s[..i]] + SplitOnSpaces(s[j..])
  }

  /** Index of the first space in `s`. */
  function FirstSpace(s: string): (i: nat)
    requires exists i | 0 <= i < |s| :: IsSpace(s[i])
    ensures i < |s| && IsSpace(s[i])
    ensures forall k | 0 <= k < i :: !IsSpace(s[k])
  {
    if IsSpace(s[0]) then 0
    else
      assert exists i | 0 <= i < |s[1..]| :: IsSpace(s[1..][i]) by {
        var w :| 0 <= w < |s| && IsSpace(s[w]);
        assert s[1..][w - 1] == s[w];
      }
      1 + FirstSpace(s[1..])
  }

  /** End of the run of spaces that starts at `i`. */
  function EndOfSpaces(s: string, i: nat): (j: nat)
    requires i < |s| && IsSpace(s[i])
    ensures i < j <= |s|
    ensures forall k | i <= k < j :: IsSpace(s[k])
    ensures j == |s| || !IsSpace(s[j])
    decreases |s| - i
  {
    if i + 1 < |s| && IsSpace(s[i + 1]) then EndOfSpaces(s, i + 1) else i + 1
  }

  /** No piece of a whitespace split contains a space. */
  lemma {:induction false} SplitOnSpacesPiecesHaveNoSpace(s: string)
    ensures forall k | 0 <= k < |SplitOnSpaces(s)| :: Spaceless(SplitOnSpaces(s)[k])
    decreases |s|
  {
    if !Spaceless(s) {
      var i := FirstSpace(s);
      var j := EndOfSpaces(s, i);
      SplitOnSpacesPiecesHaveNoSpace(s[j..]);
      var rest := SplitOnSpaces(s[j..]);
      var r := SplitOnSpaces(s);
      assert r == [s[..i]] + rest;
      assert Spaceless(s[..i]) by {
        forall m | 0 <= m < i ensures !IsSpace(s[..i][m]) {
          assert s[..i][m] == s[m];
        }
      }
      forall k | 0 <= k < |r| ensures Spaceless(r[k]) {
        if k > 0 {
          assert r[k] == rest[k - 1];
        }
      }
    }
  }

  /** Concatenation of a sequence of texts. */
  function Concat(pieces: seq<string>): string
  {
    if pieces == [] then "" else pieces[0] + Concat(pieces[1..])
  }

  /** The non-space characters of `s`, in order. */
  function NonSpaces(s: string): string
  {
    if s == [] then ""
    else if IsSpace(s[0]) then NonSpaces(s[1..])
    else [s[0]] + NonSpaces(s[1..])
  }

  lemma {:induction false} NonSpacesAppend(a: string, b: string)
    ensures NonSpaces(a + b) == NonSpaces(a) + NonSpaces(b)
    decreases |a|
  {
    if a == [] {
      assert a + b == b;
    } else {
      assert (a + b)[0] == a[0];
      assert (a + b)[1..] == a[1..] + b;
      NonSpacesAppend(a[1..], b);
    }
  }

  lemma {:induction false} NonSpacesOfBlank(s: string)
    requires IsBlank(s)
    ensures NonSpaces(s) == ""
    decreases |s|
  {
    if s != [] {
      NonSpacesOfBlank(s[1..]);
    }
  }

  lemma {:induction false} NonSpacesOfSpaceless(s: string)
    requires Spaceless(s)
    ensures NonSpaces(s) == s
    decreases |s|
  {
    if s != [] {
      NonSpacesOfSpaceless(s[1..]);
      assert s == [s[0]] + s[1..];
    }
  }

  /** The whitespace split keeps every non-space character, in order, and
      nothing else: the words partition the text's non-space content. */
  lemma {:induction false} SplitOnSpacesKeepsContent(s: string)
    ensures Concat(SplitOnSpaces(s)) == NonSpaces(s)
    decreases |s|
  {
    if Spaceless(s) {
      NonSpacesOfSpaceless(s);
    } else {
      var i := FirstSpace(s);
      var j := EndOfSpaces(s, i);
      SplitOnSpacesKeepsContent(s[j..]);
      NonSpacesAroundGap(s, i, j);
      ConcatCons(s[..i], SplitOnSpaces(s[j..]));
    }
  }

  lemma ConcatCons(head: string, rest: seq<string>)
    ensures Concat([head] + rest) == head + Concat(rest)
  {
    assert ([head] + rest)[0] == head;
    assert ([head] + rest)[1..] == rest;
  }

  /** Removing a run of spaces after a space-free prefix keeps the same
      non-space content. */
  lemma NonSpacesAroundGap(s: string, i: nat, j: nat)
    requires i <= j <= |s|
    requires forall k | 0 <= k < i :: !IsSpace(s[k])
    requires forall k | i <= k < j :: IsSpace(s[k])
    ensures NonSpaces(s) == s[..i] + NonSpaces(s[j..])
  {
    var head, gap, tail := s[..i], s[i..j], s[j..];
    SliceThree(s, i, j);
    SliceSpaces(s, i, j);
    NonSpacesGap(head, gap, tail);
  }

  lemma SliceThree(s: string, i: nat, j: nat)
    requires i <= j <= |s|
    ensures s == s[..i] + (s[i..j] + s[j..])
  {
    assert s[i..] == s[i..j] + s[j..];
  }

  /** The space facts of a text carried over to its two leading slices. */
  lemma SliceSpaces(s: string, i: nat, j: nat)
    requires i <= j <= |s|
    requires forall k | 0 <= k < i :: !IsSpace(s[k])
    requires forall k | i <= k < j :: IsSpace(s[k])
    ensures Spaceless(s[..i])
    ensures IsBlank(s[i..j])
  {
    forall k | 0 <= k < i ensures !IsSpace(s[..i][k]) {
      assert s[..i][k] == s[k];
    }
    forall k | 0 <= k < |s[i..j]| ensures IsSpace(s[i..j][k]) {
      assert s[i..j][k] == s[i + k];
    }
  }

  lemma NonSpacesGap(head: string, gap: string, tail: string)
    requires Spaceless(head)
    requires IsBlank(gap)
    ensures NonSpaces(head + (gap + tail)) == head + NonSpaces(tail)
  {
    var rest := gap + tail;
    NonSpacesAppend(head, rest);
    NonSpacesAppend(gap, tail);
    NonSpacesOfSpaceless(head);
    NonSpacesOfBlank(gap);
    assert NonSpaces(rest) == NonSpaces(tail);
  }

  // ---------------------------------------------------------------------------
  // Decimal text of numbers (template literals, `${n}`)
  // ---------------------------------------------------------------------------

  predicate IsDigit(c: char)
  {
    '0' <= c <= '9'
  }

  function DigitChar(d: nat): (c: char)
    requires d < 10
    ensures IsDigit(c) && c as int - '0' as int == d
  {
    ('0' as int + d) as char
  }

  /** Every character is a decimal digit. */
  predicate AllDigits(s: string)
  {
    forall i | 0 <= i < |s| :: IsDigit(s[i])
  }

  function DigitValue(c: char): (d: nat)
    requires IsDigit(c)
    ensures d < 10
  {
    c as int - '0' as int
  }

  /** Decimal text of a natural number, without leading zeros. */
  function NatToString(n: nat): (r: string)
    ensures |r| >= 1
    ensures AllDigits(r)
    ensures n > 0 ==> r[0] != '0'
  {
    if n < 10 then [DigitChar(n)]
    else
      var r := NatToString(n / 10) + [DigitChar(n % 10)];
      assert forall i | 0 <= i < |r| - 1 :: r[i] == NatToString(n / 10)[i];
      r
  }

  /** Value of a string of decimal digits. */
  function DigitsValue(s: string): nat
    requires AllDigits(s)
  {
    if s == [] then 0 else DigitsValue(s[..|s| - 1]) * 10 + DigitValue(s[|s| - 1])
  }

  /** Reading the decimal text of `n` gives back `n`. */
  lemma {:induction false} DigitsValueOfNatToString(n: nat)
    ensures DigitsValue(NatToString(n)) == n
  {
    if n >= 10 {
      DigitsValueOfNatToString(n / 10);
      var r := NatToString(n);
      assert r[..|r| - 1] == NatToString(n / 10);
    }
  }

  /** `${i}` for an integer-valued JavaScript number. */
  function IntToString(i: int): string
  {
    if i < 0 then "-" + NatToString(-i) else NatToString(i)
  }

  /** Reads back exactly the texts `IntToString` produces. */
  function ParseIntText(s: string): (r: Option<int>)
  {
    if |s| >= 2 && s[0] == '-' && AllDigits(s[1..]) then
      var v: int := DigitsValue(s[1..]);
      Some(-v)
    else if s != [] && AllDigits(s) then
      Some(DigitsValue(s))
    else None
  }

  lemma IntTextRoundTrip(i: int)
    ensures ParseIntText(IntToString(i)) == Some(i)
  {
    var s := IntToString(i);
    if i < 0 {
      var d := NatToString(-i);
      assert s == "-" + d;
      assert s[1..] == d;
      DigitsValueOfNatToString(-i);
    } else {
      assert s == NatToString(i);
      assert IsDigit(s[0]);
      DigitsValueOfNatToString(i);
    }
  }

  // ---------------------------------------------------------------------------
  // parseInt(text) with the default radix
  // ---------------------------------------------------------------------------

  /** Length of the leading run of digits of `s`. */
  function DigitRun(s: string): (n: nat)
    ensures n <= |s|
    ensures forall i | 0 <= i < n :: IsDigit(s[i])
    ensures n == |s| || !IsDigit(s[n])
  {
    if s != [] && IsDigit(s[0]) then 1 + DigitRun(s[1..]) else 0
  }

  /** A text without its leading `-` or `+`, if it has one. */
  function Unsigned(t: string): (u: string)
    ensures u == t || (t != [] && t[0] in "-+" && u == t[1..])
  {
    if t != [] && (t[0] == '-' || t[0] == '+') then t[1..] else t
  }

  /** `parseInt(s)`: skips leading spaces, reads an optional sign and the
      longest run of decimal digits after it; `None` stands for `NaN`. */
  function ParseLeadingInt(s: string): (r: Option<int>)
    ensures r.Some? ==> exists k | 0 <= k < |s| :: IsDigit(s[k])
    ensures r.None? <==> DigitRun(Unsigned(TrimStart(s))) == 0
  {
    var t := TrimStart(s);
    var r := ParseSigned(t);
    if r.Some? then
      assert IsDigit(s[|s| - |Unsigned(t)|]) by { assert Unsigned(t)[0] == s[|s| - |Unsigned(t)|]; }
      r
    else r
  }

  /** `parseInt` after the leading spaces: an optional sign, then the longest
      run of digits, whose value the sign applies to. */
  function ParseSigned(t: string): (r: Option<int>)
    ensures r.None? <==> DigitRun(Unsigned(t)) == 0
  {
    var body := Unsigned(t);
    var n := DigitRun(body);
    if n == 0 then None
    else
      var v: int := DigitsValue(body[..n]);
      Some(if t[0] == '-' then -v else v)
  }

  /** `trimStart` drops exactly a blank start that is followed by a
      non-space. */
  lemma {:induction false} TrimStartAfterBlank(ws: string, x: string)
    requires IsBlank(ws) && (x == [] || !IsSpace(x[0]))
    ensures TrimStart(ws + x) == x
    decreases |ws|
  {
    if ws == [] {
      assert ws + x == x;
    } else {
      var s := ws + x;
      assert s[0] == ws[0] && s[1..] == ws[1..] + x;
      TrimStartAfterBlank(ws[1..], x);
    }
  }

  /** `parseInt` of leading spaces, an optional sign, the decimal text of `n`
      and a tail that does not continue the number is `n` with that sign. */
  lemma ParseSignedNumber(ws: string, sign: string, n: nat, rest: string)
    requires IsBlank(ws) && (sign == "" || sign == "+" || sign == "-")
    requires rest == [] || !IsDigit(rest[0])
    ensures ParseLeadingInt(ws + sign + NatToString(n) + rest) == Some(if sign == "-" then -(n as int) else n)
  {
    var d := NatToString(n);
    var x := sign + (d + rest);
    var v := if sign == "-" then -(n as int) else n;
    assert ParseSigned(x) == Some(v) && TrimStart(ws + x) == x by {
      SignThenDigits(sign, d, rest);
      TrimStartAfterBlank(ws, x);
      ParseSignedDigits(x, n, rest);
    }
    assert ParseLeadingInt(ws + x) == Some(v) by {
      ParseLeadingIntIsSigned(ws + x);
    }
    Regroup(ws, sign, d, rest);
  }

  /** After the sign, the decimal text of `n` before a non-digit is read as
      `n`, negated for a `-`. */
  lemma ParseSignedDigits(x: string, n: nat, rest: string)
    requires x != [] && Unsigned(x) == NatToString(n) + rest
    requires rest == [] || !IsDigit(rest[0])
    ensures ParseSigned(x) == Some(if x[0] == '-' then -(n as int) else n)
  {
    DigitsThenValue(n, rest);
  }

  lemma Regroup(a: string, b: string, c: string, e: string)
    ensures a + b + c + e == a + (b + (c + e))
  {
  }

  lemma ParseLeadingIntIsSigned(s: string)
    ensures ParseLeadingInt(s) == ParseSigned(TrimStart(s))
  {
  }

  /** A sign before digits: the text starts with no space, and the sign is
      what `Unsigned` drops. */
  lemma SignThenDigits(sign: string, d: string, rest: string)
    requires sign == "" || sign == "+" || sign == "-"
    requires d != [] && IsDigit(d[0])
    ensures var x := sign + (d + rest);
      && x != [] && !IsSpace(x[0])
      && Unsigned(x) == d + rest
      && (x[0] == '-' <==> sign == "-")
  {
    var x := sign + (d + rest);
    if sign == "" {
      assert x == d + rest;
    } else {
      assert x[0] == sign[0];
      assert x[1..] == d + rest;
    }
  }

  /** The decimal text of `n` before a non-digit is read as `n`. */
  lemma DigitsThenValue(n: nat, rest: string)
    requires rest == [] || !IsDigit(rest[0])
    ensures var body := NatToString(n) + rest;
      && DigitRun(body) == |NatToString(n)|
      && AllDigits(body[..DigitRun(body)])
      && DigitsValue(body[..DigitRun(body)]) == n
  {
    var d := NatToString(n);
    DigitRunOfDigitsThen(d, rest);
    assert (d + rest)[..|d|] == d;
    DigitsValueOfNatToString(n);
  }

  /** `parseInt` reads back `${i}` followed by any text that does not start
      with a digit. */
  lemma ParseIntToString(i: int, rest: string)
    requires rest == [] || !IsDigit(rest[0])
    ensures ParseLeadingInt(IntToString(i) + rest) == Some(i)
  {
    var sign := if i < 0 then "-" else "";
    var n: nat := if i < 0 then -i else i;
    var s := "" + sign + NatToString(n) + rest;
    assert IntToString(i) + rest == s;
    ParseSignedNumber("", sign, n, rest);
  }

  /** A size label "<n> MB" parses to `n`. */
  lemma {:induction false} ParseSizeLabel(n: nat, unit: string)
    requires unit == [] || !IsDigit(unit[0])
    ensures ParseLeadingInt(NatToString(n) + unit) == Some(n)
  {
    var d := NatToString(n);
    var s := d + unit;
    assert s[0] == d[0];
    DigitRunOfDigitsThen(d, unit);
    assert s[..|d|] == d;
    ParseLeadingDigits(s);
    DigitsValueOfNatToString(n);
  }

  /** A text that starts with a digit is read from its first character. */
  lemma ParseLeadingDigits(s: string)
    requires s != [] && IsDigit(s[0])
    ensures AllDigits(s[..DigitRun(s)])
    ensures ParseLeadingInt(s) == Some(DigitsValue(s[..DigitRun(s)]))
  {
    assert !IsSpace(s[0]);
    assert TrimStart(s) == s;
    assert s[0] != '-' && s[0] != '+';
  }

  lemma {:induction false} DigitRunOfDigitsThen(d: string, unit: string)
    requires forall i | 0 <= i < |d| :: IsDigit(d[i])
    requires unit == [] || !IsDigit(unit[0])
    ensures DigitRun(d + unit) == |d|
    decreases |d|
  {
    if d == [] {
      assert d + unit == unit;
    } else {
      assert (d + unit)[1..] == d[1..] + unit;
      DigitRunOfDigitsThen(d[1..], unit);
    }
  }
}
