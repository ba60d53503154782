/** The email pattern `^[a-zA-Z0-9._%+-]+@[a-zA-Z0-9.-]+\.[a-zA-Z]{2,}$` under Python's
    `re.match`: a declarative reading of the pattern (a local part, `@`, a domain
    prefix, a dot and at least two letters, optionally followed by the one newline that
    `$` admits at the end) and a hand-written recogniser proved equivalent to it. */
module Email {
  import opened Wrappers
  import opened Text

  /** `[a-zA-Z0-9._%+-]` */
  predicate LocalChar(c: char) {
    IsAlnum(c) || c == '.' || c == '_' || c == '%' || c == '+' || c == '-'
  }

  /** `[a-zA-Z0-9.-]` */
  predicate DomainChar(c: char) {
    IsAlnum(c) || c == '.' || c == '-'
  }

  /** `w` matches the pattern with its `@` at `at` and the dot before the final letters
      at `dot`. */
  predicate PatternAt(w: string, at: int, dot: int) {
    && 0 < at && at + 1 < dot && dot + 3 <= |w|
    && w[at] == '@' && w[dot] == '.'
    && (forall k :: 0 <= k < at ==> LocalChar(w[k]))
    && (forall k :: at < k < dot ==> DomainChar(w[k]))
    && (forall k :: dot < k < |w| ==> IsAlpha(w[k]))
  }

  /** The pattern without its end anchor's newline allowance. */
  ghost predicate MatchesBody(w: string) {
    exists at, dot :: PatternAt(w, at, dot)
  }

  /** `re.match(pattern, email)` succeeds: `$` matches at the very end or before a final
      newline. */
  ghost predicate MatchesPattern(email: string) {
    || MatchesBody(email)
    || (|email| > 0 && email[|email| - 1] == '\n' && MatchesBody(email[..|email| - 1]))
  }

  /** The first index of `c` in `s`. */
  function IndexOf(s: string, c: char): (r: Option<nat>)
    ensures r.None? <==> c !in s
    ensures r.Some? ==> r.value < |s| && s[r.value] == c && c !in s[..r.value]
  {
    if |s| == 0 then None
    else if s[0] == c then Some(0)
    else match IndexOf(s[1..], c)
      case None => None
      case Some(i) =>
        assert s[..i + 1] == [s[0]] + s[1..][..i];
        Some(i + 1)
  }

  /** The last index of `c` in `s`. */
  function LastIndexOf(s: string, c: char): (r: Option<nat>)
    ensures r.None? <==> c !in s
    ensures r.Some? ==> r.value < |s| && s[r.value] == c && c !in s[r.value + 1..]
  {
    if |s| == 0 then None
    else if s[|s| - 1] == c then Some(|s| - 1)
    else
      var r := LastIndexOf(s[..|s| - 1], c);
      assert s == s[..|s| - 1] + [s[|s| - 1]];
      r
  }

  predicate AllLocal(s: string) {
    forall k :: 0 <= k < |s| ==> LocalChar(s[k])
  }

  predicate AllDomain(s: string) {
    forall k :: 0 <= k < |s| ==> DomainChar(s[k])
  }

  predicate AllAlpha(s: string) {
    forall k :: 0 <= k < |s| ==> IsAlpha(s[k])
  }

  /** The domain after the `@`: domain characters only, with at least one character
      before its last dot and at least two letters after it. */
  predicate DomainOk(d: string) {
    && AllDomain(d)
    && match LastIndexOf(d, '.')
       case None => false
       case Some(j) => 0 < j && j + 3 <= |d| && AllAlpha(d[j + 1..])
  }

  /** The recogniser: split at the first `@`, check the local part, then the domain. */
  predicate Recognise(w: string) {
    match IndexOf(w, '@')
    case None => false
    case Some(i) => 0 < i && AllLocal(w[..i]) && DomainOk(w[i + 1..])
  }

  /** The recogniser accepts exactly the strings the pattern body matches. */
  lemma RecogniseIsPattern(w: string)
    ensures Recognise(w) <==> MatchesBody(w)
  {
    if Recognise(w) {
      var at := IndexOf(w, '@').value;
      var d := w[at + 1..];
      var j := LastIndexOf(d, '.').value;
      var dot := at + 1 + j;
      assert forall k :: 0 <= k < at ==> w[..at][k] == w[k];
      assert forall k :: at < k < |w| ==> w[k] == d[k - at - 1];
      assert forall k :: dot < k < |w| ==> w[k] == d[j + 1..][k - dot - 1];
      assert PatternAt(w, at, dot);
    }
    if MatchesBody(w) {
      var at, dot :| PatternAt(w, at, dot);
      PatternDetermined(w, at, dot);
    }
  }

  /** A match fixes its split: the `@` is the first one, the dot the last one of the domain. */
  lemma PatternDetermined(w: string, at: int, dot: int)
    requires PatternAt(w, at, dot)
    ensures Recognise(w)
  {
    LocalPartDetermined(w, at, dot);
    DomainDetermined(w, at, dot);
  }

  lemma LocalPartDetermined(w: string, at: int, dot: int)
    requires PatternAt(w, at, dot)
    ensures IndexOf(w, '@') == Some(at) && AllLocal(w[..at])
  {
    var local := w[..at];
    forall k | 0 <= k < |local|
      ensures LocalChar(local[k]) && local[k] != '@'
    {
      assert local[k] == w[k];
    }
    assert '@' !in local;
  }

  lemma DomainDetermined(w: string, at: int, dot: int)
    requires PatternAt(w, at, dot)
    ensures DomainOk(w[at + 1..])
  {
    var d := w[at + 1..];
    var j := dot - at - 1;
    var tail := d[j + 1..];
    forall k | 0 <= k < |d|
      ensures DomainChar(d[k])
    {
      assert d[k] == w[k + at + 1];
    }
    forall k | 0 <= k < |tail|
      ensures IsAlpha(tail[k])
    {
      assert tail[k] == w[k + dot + 1];
    }
    assert '.' !in tail;
    LastIndexIsUnique(d, '.', j);
  }

  lemma LastIndexIsUnique(s: string, c: char, j: nat)
    requires j < |s| && s[j] == c && c !in s[j + 1..]
    ensures LastIndexOf(s, c) == Some(j)
  {
  }

  /** The recogniser with the end anchor's newline allowance. */
  predicate Accepts(email: string) {
    || Recognise(email)
    || (|email| > 0 && email[|email| - 1] == '\n' && Recognise(email[..|email| - 1]))
  }

  lemma AcceptsIsPattern(email: string)
    ensures Accepts(email) <==> MatchesPattern(email)
  {
    RecogniseIsPattern(email);
    if |email| > 0 {
      RecogniseIsPattern(email[..|email| - 1]);
    }
  }

  const EmailValid: string := "email valid"
  const EmailInvalid: string := "invalid email format"

  datatype Verdict = Verdict(ok: bool, message: string)

  /** `validate_email`. */
  function ValidateEmail(email: string): (r: Verdict)
    ensures r.ok <==> MatchesPattern(email)
    ensures r.message == (if r.ok then EmailValid else EmailInvalid)
  {
    AcceptsIsPattern(email);
    if Accepts(email) then Verdict(true, EmailValid) else Verdict(false, EmailInvalid)
  }
}
