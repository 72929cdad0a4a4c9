/**
 Input validation of the two forms the core relies on (attendance_app/forms.py): the
 scheduling form's date and time checks, and the normalisation of a submitted remedial code.
 */
module Forms {
  import opened Basics
  import opened Models

  // ---------------------------------------------------------------------------
  // Whitespace and case, for ASCII text
  // ---------------------------------------------------------------------------

  /** `str.isspace()` on ASCII: space, tab, line feed, vertical tab, form feed, carriage return, and the separators 0x1C-0x1F. */
  predicate IsSpace(c: char) {
    c == ' ' || 9 <= c as int <= 13 || 28 <= c as int <= 31
  }

  predicate AllSpace(s: string) {
    forall i :: 0 <= i < |s| ==> IsSpace(s[i])
  }

  /** `str.upper()` on one ASCII character. */
  function UpperChar(c: char): (u: char)
    ensures IsSpace(u) <==> IsSpace(c)
    ensures IsCodeChar(c) ==> u == c
    ensures !('a' <= u <= 'z')
  {
    if 'a' <= c <= 'z' then (c as int - 32) as char else c
  }

  function Upper(s: string): (r: string)
    ensures |r| == |s|
    ensures forall i :: 0 <= i < |s| ==> r[i] == UpperChar(s[i])
  {
    if s == [] then [] else [UpperChar(s[0])] + Upper(s[1..])
  }

  /** The number of whitespace characters `str.lstrip()` drops. */
  function LeadingSpaces(s: string): (k: nat)
    ensures k <= |s|
    ensures forall i :: 0 <= i < k ==> IsSpace(s[i])
    ensures k < |s| ==> !IsSpace(s[k])
  {
    if s != [] && IsSpace(s[0]) then 1 + LeadingSpaces(s[1..]) else 0
  }

  /** `str.lstrip()`: drops the leading whitespace. */
  function LStrip(s: string): (r: string)
    ensures |r| <= |s| && r == s[|s| - |r|..]
    ensures forall i :: 0 <= i < |s| - |r| ==> IsSpace(s[i])
    ensures r != [] ==> !IsSpace(r[0])
  {
    s[LeadingSpaces(s)..]
  }

  /** `str.rstrip()`: drops the trailing whitespace. */
  function RStrip(s: string): (r: string)
    ensures |r| <= |s| && r == s[..|r|]
    ensures forall i :: |r| <= i < |s| ==> IsSpace(s[i])
    ensures r != [] ==> !IsSpace(r[|r| - 1])
  {
    if s != [] && IsSpace(s[|s| - 1]) then RStrip(s[..|s| - 1]) else s
  }

  /** `str.strip()`: drops the leading and the trailing whitespace. */
  function Strip(s: string): (r: string)
    ensures |r| <= |s|
    ensures r != [] ==> !IsSpace(r[0]) && !IsSpace(r[|r| - 1])
  {
    RStrip(LStrip(s))
  }

  /** Stripping removes whitespace at both ends and nothing else: the result is a slice of the input between two runs of whitespace. */
  lemma StripRemovesOnlySpace(s: string)
    ensures exists k :: 0 <= k <= |s| - |Strip(s)| && Strip(s) == s[k..k + |Strip(s)|]
                        && AllSpace(s[..k]) && AllSpace(s[k + |Strip(s)|..])
  {
    var l := LStrip(s);
    var r := RStrip(l);
    var k := |s| - |l|;
    assert r == s[k..k + |r|];
    assert AllSpace(s[..k]);
    assert AllSpace(s[k + |r|..]) by {
      assert s[k + |r|..] == l[|r|..];
    }
  }

  /** Removing whitespace that surrounds a text which neither starts nor ends with whitespace gives back that text. */
  lemma {:induction false} StripPadded(w1: string, s: string, w2: string)
    requires AllSpace(w1) && AllSpace(w2)
    requires s != [] ==> !IsSpace(s[0]) && !IsSpace(s[|s| - 1])
    ensures Strip(w1 + s + w2) == s
  {
    assert w1 + s + w2 == w1 + (s + w2);
    if s == [] {
      assert w1 + s + w2 == (w1 + w2) + [];
      LStripPadded(w1 + w2, []);
    } else {
      LStripPadded(w1, s + w2);
      RStripPadded(s, w2);
    }
  }

  lemma {:induction false} LStripPadded(w: string, t: string)
    requires AllSpace(w)
    requires t != [] ==> !IsSpace(t[0])
    ensures LStrip(w + t) == t
  {
    if w != [] {
      assert (w + t)[1..] == w[1..] + t;
      LStripPadded(w[1..], t);
    }
  }

  lemma {:induction false} RStripPadded(t: string, w: string)
    requires AllSpace(w)
    requires t != [] ==> !IsSpace(t[|t| - 1])
    ensures RStrip(t + w) == t
  {
    if w != [] {
      var n := |w| - 1;
      assert (t + w)[..|t + w| - 1] == t + w[..n];
      RStripPadded(t, w[..n]);
    }
  }

  // ---------------------------------------------------------------------------
  // AttendanceCodeForm
  // ---------------------------------------------------------------------------

  /** `max_length=20` on the code field. */
  const CodeMaxLength := 20

  /** `clean_remedial_code`: strip, then upper-case. */
  function Normalize(raw: string): (code: string)
    ensures |code| <= |raw|
    ensures code != [] ==> !IsSpace(code[0]) && !IsSpace(code[|code| - 1])
    ensures forall i :: 0 <= i < |code| ==> !('a' <= code[i] <= 'z')
  {
    Upper(Strip(raw))
  }

  /** A text without whitespace at either end is its own stripped form. */
  lemma StripOfTrimmed(s: string)
    requires s != [] ==> !IsSpace(s[0]) && !IsSpace(s[|s| - 1])
    ensures Strip(s) == s
  {
    StripPadded([], s, []);
    assert [] + s + [] == s;
  }

  /** Upper-casing a text without lower-case letters changes nothing. */
  lemma UpperOfUpper(s: string)
    requires forall i :: 0 <= i < |s| ==> !('a' <= s[i] <= 'z')
    ensures Upper(s) == s
  {
    assert forall i :: 0 <= i < |s| ==> Upper(s)[i] == s[i];
  }

  /** Normalising an already normalised code changes nothing. */
  lemma NormalizeIsIdempotent(raw: string)
    ensures Normalize(Normalize(raw)) == Normalize(raw)
  {
    var n := Normalize(raw);
    StripOfTrimmed(n);
    UpperOfUpper(n);
  }

  /** A generated code is already in normal form. */
  lemma GeneratedCodeIsNormal(code: string)
    requires IsRemedialCode(code)
    ensures Normalize(code) == code
  {
    assert IsCodeChar(code[0]) && IsCodeChar(code[|code| - 1]);
    StripOfTrimmed(code);
    assert forall i :: 0 <= i < |code| ==> IsCodeChar(code[i]);
    UpperOfUpper(code);
  }

  /**
   A code typed in any mix of cases, with any surrounding whitespace, normalises to the
   stored code: a correctly typed code is matched.
   */
  lemma TypedCodeMatches(code: string, typed: string, w1: string, w2: string)
    requires IsRemedialCode(code)
    requires AllSpace(w1) && AllSpace(w2)
    requires |typed| == |code| && forall i :: 0 <= i < |typed| ==> UpperChar(typed[i]) == code[i]
    ensures Normalize(w1 + typed + w2) == code
  {
    StripPadded(w1, typed, w2);
  }

  datatype CodeError = Required | TooLong | NullCharacter

  /**
   The code field as the form cleans it. Django's CharField first strips the value
   (`strip=True`) and rejects an empty value (`required=True`); its validators then reject a
   value longer than `max_length` and a value holding a null character (both errors are
   reported when both apply; the model names the first). Then `clean_remedial_code` strips
   again and upper-cases.
   */
  function CleanRemedialCode(raw: string): (r: Result<string, CodeError>)
    ensures r == Err(Required) <==> Strip(raw) == []
    ensures r == Err(TooLong) <==> |Strip(raw)| > CodeMaxLength
    ensures r == Err(NullCharacter) <==> Strip(raw) != [] && |Strip(raw)| <= CodeMaxLength && '\0' in Strip(raw)
    ensures r.Ok? ==> 1 <= |r.value| <= CodeMaxLength && '\0' !in r.value
  {
    var value := Strip(raw);
    if value == [] then Err(Required)
    else if |value| > CodeMaxLength then Err(TooLong)
    else if '\0' in value then Err(NullCharacter)
    else Ok(Upper(Strip(value)))
  }

  /** An accepted code is the normal form of what was typed. */
  lemma CleanedCodeIsNormalized(raw: string)
    requires CleanRemedialCode(raw).Ok?
    ensures CleanRemedialCode(raw).value == Normalize(raw)
  {
    StripOfTrimmed(Strip(raw));
  }

  /** A correctly typed code, in any case and with surrounding whitespace, passes the form as the stored code. */
  lemma TypedCodeAccepted(code: string, typed: string, w1: string, w2: string)
    requires IsRemedialCode(code)
    requires AllSpace(w1) && AllSpace(w2)
    requires |typed| == |code| && forall i :: 0 <= i < |typed| ==> UpperChar(typed[i]) == code[i]
    ensures CleanRemedialCode(w1 + typed + w2) == Ok(code)
  {
    StripPadded(w1, typed, w2);
    CleanedCodeIsNormalized(w1 + typed + w2);
    TypedCodeMatches(code, typed, w1, w2);
  }

  // ---------------------------------------------------------------------------
  // MakeUpClassForm
  // ---------------------------------------------------------------------------

  datatype ScheduleError = DateInPast | EndNotAfterStart

  /**
   `MakeUpClassForm.clean`. A field that failed its own validation is absent (None) and its
   check is skipped. The date check is raised first.
   */
  function CleanSchedule(date: Option<Day>, start: Option<TimeOfDay>, end: Option<TimeOfDay>, today: Day)
    : (r: Option<ScheduleError>)
    ensures r.None? <==> (date.Some? ==> date.value >= today)
                         && (start.Some? && end.Some? ==> start.value < end.value)
    ensures r == Some(DateInPast) <==> date.Some? && date.value < today
    ensures r == Some(EndNotAfterStart) ==> start.Some? && end.Some? && start.value >= end.value
  {
    if date.Some? && date.value < today then Some(DateInPast)
    else if start.Some? && end.Some? && start.value >= end.value then Some(EndNotAfterStart)
    else None
  }
}
