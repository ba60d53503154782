/** The account-form validators: password rules checked in a fixed order, username
    length and characters, and input sanitising (strip, then HTML-escape). The email
    check is in module `Email`. Character classes are ASCII. */
module Validators {
  import opened Text

  datatype Verdict = Verdict(ok: bool, message: string)

  const PasswordTooShort: string := "password must be at least 8 characters"
  const PasswordNoUpper: string := "password must contain at least one uppercase letter"
  const PasswordNoDigit: string := "password must contain at least one number"
  const PasswordValid: string := "password valid"
  const MinPasswordLength: int := 8

  predicate HasUpper(s: string) {
    exists i :: 0 <= i < |s| && IsUpper(s[i])
  }

  predicate HasDigit(s: string) {
    exists i :: 0 <= i < |s| && IsDigit(s[i])
  }

  /** `any(pred(c) for c in s)` for the upper-case and digit tests, scanning left to right. */
  method AnyUpper(s: string) returns (found: bool)
    ensures found <==> HasUpper(s)
  {
    var i := 0;
    while i < |s|
      invariant 0 <= i <= |s|
      invariant forall k :: 0 <= k < i ==> !IsUpper(s[k])
    {
      if IsUpper(s[i]) {
        return true;
      }
      i := i + 1;
    }
    return false;
  }

  method AnyDigit(s: string) returns (found: bool)
    ensures found <==> HasDigit(s)
  {
    var i := 0;
    while i < |s|
      invariant 0 <= i <= |s|
      invariant forall k :: 0 <= k < i ==> !IsDigit(s[k])
    {
      if IsDigit(s[i]) {
        return true;
      }
      i := i + 1;
    }
    return false;
  }

  /** `validate_password`: the length rule is reported first, then upper case, then
      digits; the password is accepted exactly when all three hold. */
  method ValidatePassword(password: string) returns (r: Verdict)
    ensures r.ok <==> |password| >= MinPasswordLength && HasUpper(password) && HasDigit(password)
    ensures r.ok ==> r.message == PasswordValid
    ensures |password| < MinPasswordLength ==> r.message == PasswordTooShort
    ensures |password| >= MinPasswordLength && !HasUpper(password) ==> r.message == PasswordNoUpper
    ensures |password| >= MinPasswordLength && HasUpper(password) && !HasDigit(password) ==> r.message == PasswordNoDigit
  {
    if |password| < MinPasswordLength {
      return Verdict(false, PasswordTooShort);
    }
    var upper := AnyUpper(password);
    if !upper {
      return Verdict(false, PasswordNoUpper);
    }
    var digit := AnyDigit(password);
    if !digit {
      return Verdict(false, PasswordNoDigit);
    }
    return Verdict(true, PasswordValid);
  }

  const UsernameTooLong: string := "username must be less than 20 characters"
  const UsernameBadChars: string := "username can only contain letters and numbers"
  const UsernameValid: string := "username valid"
  const MaxUsernameLength: int := 20

  /** `s.isalnum()`: non-empty and every character a letter or digit. */
  predicate AllAlnum(s: string) {
    |s| > 0 && forall i :: 0 <= i < |s| ==> IsAlnum(s[i])
  }

  method IsAlnumString(s: string) returns (b: bool)
    ensures b <==> AllAlnum(s)
  {
    if |s| == 0 {
      return false;
    }
    var i := 0;
    while i < |s|
      invariant 0 <= i <= |s|
      invariant forall k :: 0 <= k < i ==> IsAlnum(s[k])
    {
      if !IsAlnum(s[i]) {
        return false;
      }
      i := i + 1;
    }
    return true;
  }

  /** `validate_username`: longer than 20 is rejected (so exactly 20 passes the length
      rule, whatever the message says); otherwise the name must be non-empty and
      alphanumeric. */
  method ValidateUsername(username: string) returns (r: Verdict)
    ensures r.ok <==> |username| <= MaxUsernameLength && AllAlnum(username)
    ensures |username| > MaxUsernameLength ==> r.message == UsernameTooLong
    ensures |username| <= MaxUsernameLength && !AllAlnum(username) ==> r.message == UsernameBadChars
    ensures r.ok ==> r.message == UsernameValid
  {
    if |username| > MaxUsernameLength {
      return Verdict(false, UsernameTooLong);
    }
    var alnum := IsAlnumString(username);
    if !alnum {
      return Verdict(false, UsernameBadChars);
    }
    return Verdict(true, UsernameValid);
  }

  /** `s.replace(c, rep)` for a one-character pattern. */
  function Replace(s: string, c: char, rep: string): (r: string)
    ensures c !in s ==> r == s
  {
    if |s| == 0 then ""
    else (if s[0] == c then rep else [s[0]]) + Replace(s[1..], c, rep)
  }

  lemma {:induction false} ReplaceAppend(a: string, b: string, c: char, rep: string)
    ensures Replace(a + b, c, rep) == Replace(a, c, rep) + Replace(b, c, rep)
  {
    if |a| == 0 {
      assert a + b == b;
    } else {
      assert (a + b)[0] == a[0];
      assert (a + b)[1..] == a[1..] + b;
      ReplaceAppend(a[1..], b, c, rep);
    }
  }

  /** `html.escape(s)`: five replacements, `&` first so the entities introduced later are
      not escaped again. */
  function Escape(s: string): string {
    var s1 := Replace(s, '&', "&amp;");
    var s2 := Replace(s1, '<', "&lt;");
    var s3 := Replace(s2, '>', "&gt;");
    var s4 := Replace(s3, '"', "&quot;");
    Replace(s4, '\'', "&#x27;")
  }

  /** The entity for one character, or the character itself. */
  function EscapeChar(c: char): string {
    match c
    case '&' => "&amp;"
    case '<' => "&lt;"
    case '>' => "&gt;"
    case '"' => "&quot;"
    case '\'' => "&#x27;"
    case _ => [c]
  }

  /** Character-by-character escaping, the reference for `Escape`. */
  function EscapeEach(s: string): string {
    if |s| == 0 then "" else EscapeChar(s[0]) + EscapeEach(s[1..])
  }

  lemma EscapeOneChar(c: char)
    ensures Escape([c]) == EscapeChar(c)
  {
  }

  /** The chain of replacements escapes each character on its own. */
  lemma {:induction false} EscapeIsPerChar(s: string)
    ensures Escape(s) == EscapeEach(s)
  {
    if |s| > 0 {
      var head := [s[0]];
      var rest := s[1..];
      assert s == head + rest;
      var a1 := Replace(head, '&', "&amp;");
      var b1 := Replace(rest, '&', "&amp;");
      ReplaceAppend(head, rest, '&', "&amp;");
      var a2 := Replace(a1, '<', "&lt;");
      var b2 := Replace(b1, '<', "&lt;");
      ReplaceAppend(a1, b1, '<', "&lt;");
      var a3 := Replace(a2, '>', "&gt;");
      var b3 := Replace(b2, '>', "&gt;");
      ReplaceAppend(a2, b2, '>', "&gt;");
      var a4 := Replace(a3, '"', "&quot;");
      var b4 := Replace(b3, '"', "&quot;");
      ReplaceAppend(a3, b3, '"', "&quot;");
      ReplaceAppend(a4, b4, '\'', "&#x27;");
      EscapeOneChar(s[0]);
      EscapeIsPerChar(rest);
    }
  }

  /** Markup characters that must not survive escaping. */
  predicate Raw(c: char) {
    c == '<' || c == '>' || c == '"' || c == '\''
  }

  lemma {:induction false} EscapeEachHasNoRaw(s: string)
    ensures forall i :: 0 <= i < |EscapeEach(s)| ==> !Raw(EscapeEach(s)[i])
  {
    if |s| > 0 {
      EscapeEachHasNoRaw(s[1..]);
      var e := EscapeEach(s);
      var h := EscapeChar(s[0]);
      forall i | 0 <= i < |e|
        ensures !Raw(e[i])
      {
        if i >= |h| {
          assert e[i] == EscapeEach(s[1..])[i - |h|];
        }
      }
    }
  }

  /** Reading the five entities back: the inverse of escaping. */
  function Unescape(s: string): string {
    if |s| == 0 then ""
    else if |s| >= 5 && s[..5] == "&amp;" then "&" + Unescape(s[5..])
    else if |s| >= 4 && s[..4] == "&lt;" then "<" + Unescape(s[4..])
    else if |s| >= 4 && s[..4] == "&gt;" then ">" + Unescape(s[4..])
    else if |s| >= 6 && s[..6] == "&quot;" then "\"" + Unescape(s[6..])
    else if |s| >= 6 && s[..6] == "&#x27;" then "'" + Unescape(s[6..])
    else [s[0]] + Unescape(s[1..])
  }

  lemma UnescapeStep(c: char, t: string)
    ensures Unescape(EscapeChar(c) + t) == [c] + Unescape(t)
  {
    var e := EscapeChar(c) + t;
    if c == '&' {
      assert e[..5] == "&amp;" && e[5..] == t;
    } else if c == '<' {
      assert |e| >= 5 ==> e[..5] != "&amp;" by { assert e[1] == 'l'; }
      assert e[..4] == "&lt;" && e[4..] == t;
    } else if c == '>' {
      assert |e| >= 5 ==> e[..5] != "&amp;" by { assert e[1] == 'g'; }
      assert e[..4] != "&lt;" by { assert e[1] == 'g'; }
      assert e[..4] == "&gt;" && e[4..] == t;
    } else if c == '"' {
      assert e[..5] != "&amp;" by { assert e[1] == 'q'; }
      assert e[..4] != "&lt;" && e[..4] != "&gt;" by { assert e[1] == 'q'; }
      assert e[..6] == "&quot;" && e[6..] == t;
    } else if c == '\'' {
      assert e[..5] != "&amp;" by { assert e[1] == '#'; }
      assert e[..4] != "&lt;" && e[..4] != "&gt;" by { assert e[1] == '#'; }
      assert e[..6] != "&quot;" by { assert e[1] == '#'; }
      assert e[..6] == "&#x27;" && e[6..] == t;
    } else {
      assert e[0] == c && e[1..] == t;
      assert |e| >= 4 ==> e[..4] != "&lt;" && e[..4] != "&gt;" by {
        if |e| >= 4 { assert e[..4][0] == c; }
      }
      assert |e| >= 5 ==> e[..5] != "&amp;" by {
        if |e| >= 5 { assert e[..5][0] == c; }
      }
      assert |e| >= 6 ==> e[..6] != "&quot;" && e[..6] != "&#x27;" by {
        if |e| >= 6 { assert e[..6][0] == c; }
      }
    }
  }

  /** Unescaping undoes escaping. */
  lemma {:induction false} EscapeRoundTrip(s: string)
    ensures Unescape(EscapeEach(s)) == s
  {
    if |s| > 0 {
      UnescapeStep(s[0], EscapeEach(s[1..]));
      EscapeRoundTrip(s[1..]);
      assert s == [s[0]] + s[1..];
    }
  }

  /** `data` as passed in: a string, or any other value. */
  datatype Value<T> = Text(s: string) | Other(v: T)

  /** `sanitize_input`: a string is stripped and escaped; anything else is returned
      unchanged. The result is the stripped input with each character escaped on its own;
      it has no raw `<`, `>` or quote, and reads back as the stripped input. */
  function SanitizeInput<T>(data: Value<T>): (r: Value<T>)
    ensures data.Other? ==> r == data
    ensures data.Text? ==> r.Text?
    ensures data.Text? ==> r.s == EscapeEach(Strip(data.s))
    ensures data.Text? ==> forall i :: 0 <= i < |r.s| ==> !Raw(r.s[i])
    ensures data.Text? ==> Unescape(r.s) == Strip(data.s)
  {
    match data
    case Text(s) =>
      var t := Strip(s);
      EscapeIsPerChar(t);
      EscapeEachHasNoRaw(t);
      EscapeRoundTrip(t);
      Text(Escape(t))
    case Other(_) => data
  }
}
