/**
 * The sign-in form: the field rules checked before submission (an e-mail pattern and
 * a minimum password length) and the comparison with the credentials kept in browser
 * storage under "User".
 */
module Login {
  import opened Wrappers
  import opened Strings

  datatype Credentials = Credentials(email: string, password: string)

  // ---------------------------------------------------------------------------
  // The e-mail pattern  ^[A-Z0-9._%+-]+@[A-Z0-9.-]+\.[A-Z]{2,}$  (case-insensitive)

  predicate LocalChar(c: char) { IsAsciiLetter(c) || IsDigit(c) || c in "._%+-" }
  predicate DomainChar(c: char) { IsAsciiLetter(c) || IsDigit(c) || c == '.' || c == '-' }

  predicate AllLocal(s: string) { forall k :: 0 <= k < |s| ==> LocalChar(s[k]) }
  predicate AllDomain(s: string) { forall k :: 0 <= k < |s| ==> DomainChar(s[k]) }
  predicate AllLetters(s: string) { forall k :: 0 <= k < |s| ==> IsAsciiLetter(s[k]) }

  /**
   * The pattern read declaratively: an '@' at `at` and a '.' at `dot` split the string
   * into a non-empty local part, a non-empty domain and a suffix of at least two letters.
   */
  ghost predicate EmailSplit(s: string, at: int, dot: int) {
    && 0 < at < dot < |s|
    && s[at] == '@' && s[dot] == '.'
    && AllLocal(s[..at])
    && at + 1 < dot && AllDomain(s[at + 1..dot])
    && |s| - dot - 1 >= 2 && AllLetters(s[dot + 1..])
  }

  ghost predicate MatchesEmailPattern(s: string) {
    exists at, dot :: EmailSplit(s, at, dot)
  }

  /**
   * The matcher: the local part ends at the first '@' (no class admits '@'), and the
   * letter suffix starts after the last '.' (letters admit no '.').
   */
  function IsValidEmail(s: string): bool {
    match FirstIndexOf(s, '@')
    case None => false
    case Some(at) =>
      var local, rest := s[..at], s[at + 1..];
      |local| >= 1 && AllLocal(local) &&
      match LastIndexOf(rest, '.')
      case None => false
      case Some(dot) =>
        var domain, suffix := rest[..dot], rest[dot + 1..];
        |domain| >= 1 && AllDomain(domain) && |suffix| >= 2 && AllLetters(suffix)
  }

  /** Every string the matcher accepts fits the pattern. */
  lemma EmailMatcherSound(s: string)
    requires IsValidEmail(s)
    ensures MatchesEmailPattern(s)
  {
    var at := FirstIndexOf(s, '@').value;
    var rest := s[at + 1..];
    var dot := LastIndexOf(rest, '.').value;
    assert s[at + 1..at + 1 + dot] == rest[..dot];
    assert s[at + 1 + dot + 1..] == rest[dot + 1..];
    assert EmailSplit(s, at, at + 1 + dot);
  }

  /** No allowed local-part character is an '@'. */
  lemma LocalHasNoAt(s: string, at: int)
    requires 0 <= at <= |s| && AllLocal(s[..at])
    ensures forall k :: 0 <= k < at ==> s[k] != '@'
  {
    forall k | 0 <= k < at ensures s[k] != '@' {
      assert LocalChar(s[..at][k]);
    }
  }

  /** Every string of the pattern is accepted, whichever split witnesses it. */
  lemma EmailMatcherComplete(s: string, at: int, dot: int)
    requires EmailSplit(s, at, dot)
    ensures IsValidEmail(s)
  {
    LocalHasNoAt(s, at);
    FirstIndexOfUnique(s, '@', at);
    var rest := s[at + 1..];
    var d := dot - at - 1;
    var suffix := s[dot + 1..];
    assert rest[d + 1..] == suffix;
    forall k | d < k < |rest| ensures rest[k] != '.' {
      assert rest[k] == suffix[k - d - 1];
      assert IsAsciiLetter(suffix[k - d - 1]);
    }
    LastIndexOfUnique(rest, '.', d);
    assert rest[..d] == s[at + 1..dot];
  }

  /** The matcher accepts exactly the strings of the pattern. */
  lemma EmailMatcherCorrect(s: string)
    ensures IsValidEmail(s) <==> MatchesEmailPattern(s)
  {
    if IsValidEmail(s) {
      EmailMatcherSound(s);
    }
    if MatchesEmailPattern(s) {
      var at, dot :| EmailSplit(s, at, dot);
      EmailMatcherComplete(s, at, dot);
    }
  }

  /**
   * What an accepted address looks like: one '@' exactly, a non-empty local part of the
   * allowed characters before it, and a final '.' followed by two or more letters.
   */
  lemma AcceptedEmailShape(s: string)
    requires IsValidEmail(s)
    ensures exists at ::
      0 < at < |s| && s[at] == '@' && AllLocal(s[..at]) && (forall k :: 0 <= k < |s| && k != at ==> s[k] != '@')
    ensures exists dot :: 0 <= dot < |s| - 2 && s[dot] == '.' && AllLetters(s[dot + 1..])
  {
    EmailMatcherCorrect(s);
    var at, dot :| EmailSplit(s, at, dot);
    forall k | 0 <= k < |s| && k != at ensures s[k] != '@' {
      if k < at {
        assert LocalChar(s[..at][k]);
      } else if k < dot {
        assert DomainChar(s[at + 1..dot][k - at - 1]);
      } else if k > dot {
        assert IsAsciiLetter(s[dot + 1..][k - dot - 1]);
      }
    }
  }

  // ---------------------------------------------------------------------------
  // Field rules and submission

  const MinPasswordLength := 6

  /** The field messages the form shows; a form with any of them is not submitted. */
  function EmailError(email: string): (e: Option<string>)
    ensures e.None? <==> IsValidEmail(email)
    ensures email == "" ==> e == Some("Email is required")
    ensures email != "" && !IsValidEmail(email) ==> e == Some("Invalid email address")
  {
    if email == "" then Some("Email is required")
    else if !IsValidEmail(email) then Some("Invalid email address")
    else None
  }

  /** The `minLength` rule counts `password.length`, that is UTF-16 code units. */
  function PasswordError(password: string): (e: Option<string>)
    ensures e.None? <==> JsLength(password) >= MinPasswordLength
    ensures password == "" ==> e == Some("Password is required")
    ensures password != "" && JsLength(password) < MinPasswordLength ==>
      e == Some("Password must be at least 6 characters")
  {
    if password == "" then Some("Password is required")
    else if JsLength(password) < MinPasswordLength then Some("Password must be at least 6 characters")
    else None
  }

  /** The result of `onSubmit`; a missing stored user makes it throw before any alert. */
  datatype Outcome = LoggedIn | InvalidEmail | InvalidPassword | LoginFailed | NoStoredUser

  /** `onSubmit`: the stored record is compared with what was typed, e-mail first. */
  function Submit(stored: Option<Credentials>, typed: Credentials): (r: Outcome)
    ensures r == NoStoredUser <==> stored.None?
    ensures r == LoggedIn <==> stored == Some(typed)
    ensures r == InvalidEmail <==> stored.Some? && stored.value.email != typed.email
    ensures r == InvalidPassword <==>
      stored.Some? && stored.value.email == typed.email && stored.value.password != typed.password
    ensures r != LoginFailed
  {
    match stored
    case None => NoStoredUser
    case Some(user) =>
      if user.email == typed.email && user.password == typed.password then LoggedIn
      else if user.email != typed.email then InvalidEmail
      else if user.password != typed.password then InvalidPassword
      else LoginFailed
  }

  /** The alert `onSubmit` shows; with no stored user it throws before any alert, shown as "". */
  function AlertText(r: Outcome): (text: string)
    ensures text == "" <==> r == NoStoredUser
    ensures text == "successfuly login" <==> r == LoggedIn
  {
    match r
    case LoggedIn => "successfuly login"
    case InvalidEmail => "Invalid email"
    case InvalidPassword => "Invalid password"
    case LoginFailed => "failed to login"
    case NoStoredUser => ""
  }

  /** Different outcomes show different alerts, and a submission never shows "failed to login". */
  lemma AlertsDistinct(stored: Option<Credentials>, typed: Credentials, a: Outcome, b: Outcome)
    ensures AlertText(a) == AlertText(b) ==> a == b
    ensures AlertText(Submit(stored, typed)) != "failed to login"
  {
  }

  datatype FormResult = Blocked(emailError: Option<string>, passwordError: Option<string>) | Submitted(outcome: Outcome)

  /** The form as a whole: the field rules gate the submission. */
  function SubmitForm(stored: Option<Credentials>, typed: Credentials): (r: FormResult)
    ensures r.Submitted? <==> IsValidEmail(typed.email) && JsLength(typed.password) >= MinPasswordLength
    ensures r.Submitted? ==> r.outcome == Submit(stored, typed)
    ensures r.Submitted? && r.outcome == LoggedIn ==> MatchesEmailPattern(stored.value.email)
  {
    var e, p := EmailError(typed.email), PasswordError(typed.password);
    if e.Some? || p.Some? then Blocked(e, p)
    else
      EmailMatcherCorrect(typed.email);
      Submitted(Submit(stored, typed))
  }
}
