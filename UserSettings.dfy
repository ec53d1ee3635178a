/**
 * The password-change form of the account settings page: the ordered validation of a
 * submission, the strength meter, and the show/hide toggles of the three fields.
 */
module UserSettings {
  import opened Wrappers
  import Strings

  datatype PasswordForm = PasswordForm(currentPassword: string, newPassword: string, confirmPassword: string)

  /** The banner under the form; `kind` is "", "error" or "success". */
  datatype Banner = Banner(kind: string, text: string)

  const EmptyForm := PasswordForm("", "", "")
  const MinNewLength := 8
  const SuccessText: string := "Password updated successfully!"

  /**
   * The first problem with a submission, checked in this order: no current password, a new
   * password under 8 UTF-16 code units, a confirmation that differs, a new password equal to the
   * current one.
   */
  function PasswordProblem(f: PasswordForm): (problem: Option<string>)
    ensures problem.None? <==>
      f.currentPassword != "" && Strings.JsLength(f.newPassword) >= MinNewLength
      && f.newPassword == f.confirmPassword && f.currentPassword != f.newPassword
    ensures problem == Some("Current password is required") <==> f.currentPassword == ""
    ensures problem == Some("New password must be at least 8 characters long") <==>
      f.currentPassword != "" && Strings.JsLength(f.newPassword) < MinNewLength
    ensures problem == Some("New passwords do not match") <==>
      f.currentPassword != "" && Strings.JsLength(f.newPassword) >= MinNewLength && f.newPassword != f.confirmPassword
    ensures problem == Some("New password must be different from current password") <==>
      f.currentPassword != "" && Strings.JsLength(f.newPassword) >= MinNewLength
      && f.newPassword == f.confirmPassword && f.currentPassword == f.newPassword
  {
    if f.currentPassword == "" then Some("Current password is required")
    else if Strings.JsLength(f.newPassword) < MinNewLength then Some("New password must be at least 8 characters long")
    else if f.newPassword != f.confirmPassword then Some("New passwords do not match")
    else if f.currentPassword == f.newPassword then Some("New password must be different from current password")
    else None
  }

  predicate IsLowerLetter(c: char) { 'a' <= c <= 'z' }
  predicate IsUpperLetter(c: char) { 'A' <= c <= 'Z' }
  predicate IsDecimalDigit(c: char) { '0' <= c <= '9' }
  /** The meter's special characters. */
  predicate IsSpecial(c: char) { c in "!@#$%^&*(),.?\":{}|<>" }

  predicate HasLower(p: string) { exists i :: 0 <= i < |p| && IsLowerLetter(p[i]) }
  predicate HasUpper(p: string) { exists i :: 0 <= i < |p| && IsUpperLetter(p[i]) }
  predicate HasDigit(p: string) { exists i :: 0 <= i < |p| && IsDecimalDigit(p[i]) }
  predicate HasSpecial(p: string) { exists i :: 0 <= i < |p| && IsSpecial(p[i]) }

  /** The five checks of the meter, in the order the page lists them. */
  function Checks(p: string): (checks: seq<bool>)
    ensures |checks| == 5
  {
    [Strings.JsLength(p) >= 8, HasLower(p), HasUpper(p), HasDigit(p), HasSpecial(p)]
  }

  /** How many entries of `bs` are true (`filter(Boolean).length`). */
  function CountTrue(bs: seq<bool>): (n: nat)
    ensures n <= |bs|
    ensures n == |bs| <==> forall i :: 0 <= i < |bs| ==> bs[i]
    ensures n == 0 <==> forall i :: 0 <= i < |bs| ==> !bs[i]
  {
    if bs == [] then 0
    else (if bs[0] then 1 else 0) + CountTrue(bs[1..])
  }

  /** The count is the multiplicity of `true` in the list: the same number however it is computed. */
  lemma {:induction false} CountTrueIsMultiplicity(bs: seq<bool>)
    ensures CountTrue(bs) == multiset(bs)[true]
  {
    if bs != [] {
      assert bs == [bs[0]] + bs[1..];
      CountTrueIsMultiplicity(bs[1..]);
    }
  }

  datatype Strength = Strength(score: nat, text: string, color: string)

  /** `getPasswordStrength`: nothing for an empty password, else the number of checks met and its label. */
  function PasswordStrength(p: string): (s: Strength)
    ensures p == "" ==> s == Strength(0, "", "")
    ensures p != "" ==> s.score == CountTrue(Checks(p))
    ensures s.score <= 5
    ensures p != "" ==> s.text == StrengthLabel(s.score)
  {
    if p == "" then Strength(0, "", "")
    else
      var score := CountTrue(Checks(p));
      Strength(score, StrengthLabel(score), StrengthColor(score))
  }

  /** Weak up to 2, Fair at 3, Good at 4, Strong above. */
  function StrengthLabel(score: nat): string {
    if score <= 2 then "Weak" else if score <= 3 then "Fair" else if score <= 4 then "Good" else "Strong"
  }

  function StrengthColor(score: nat): string {
    if score <= 2 then "text-red-400" else if score <= 3 then "text-yellow-400"
    else if score <= 4 then "text-blue-400" else "text-green-400"
  }

  /** The meter shows Strong exactly for a password that meets all five checks. */
  lemma StrongIffAllChecks(p: string)
    ensures PasswordStrength(p).text == "Strong" <==>
      Strings.JsLength(p) >= 8 && HasLower(p) && HasUpper(p) && HasDigit(p) && HasSpecial(p)
  {
    var c := Checks(p);
    if Strings.JsLength(p) >= 8 && HasLower(p) && HasUpper(p) && HasDigit(p) && HasSpecial(p) {
      assert forall i :: 0 <= i < |c| ==> c[i];
    } else {
      assert !(c[0] && c[1] && c[2] && c[3] && c[4]);
    }
  }

  /** Four emoji are eight UTF-16 code units, so they pass the 8-character rule. */
  lemma FourEmojiAreLongEnough()
    ensures PasswordProblem(PasswordForm("old", Strings.Repeat('\U{1F600}', 4), Strings.Repeat('\U{1F600}', 4))).None?
  {
    Strings.JsLengthOfAstral('\U{1F600}', 4);
  }

  /** Every password the form accepts scores at least 1, since it meets the length check. */
  lemma AcceptedPasswordScoresAtLeastOne(f: PasswordForm)
    requires PasswordProblem(f).None?
    ensures PasswordStrength(f.newPassword).score >= 1
  {
    assert Checks(f.newPassword)[0];
  }

  /** `togglePasswordVisibility`: flips the named flag; a flag never set reads as false and becomes true. */
  function ToggleVisibility(shown: map<string, bool>, field: string): (r: map<string, bool>)
    ensures r.Keys == shown.Keys + {field}
    ensures r[field] == !(field in shown && shown[field])
    ensures forall k :: k in shown && k != field ==> r[k] == shown[k]
  {
    shown[field := !(field in shown && shown[field])]
  }

  /** Toggling a known field twice restores the flags. */
  lemma ToggleTwice(shown: map<string, bool>, field: string)
    requires field in shown
    ensures ToggleVisibility(ToggleVisibility(shown, field), field) == shown
  {
  }

  /** The settings page's state. */
  class PasswordSettings {
    var form: PasswordForm
    var showPasswords: map<string, bool>
    var isLoading: bool
    var banner: Banner

    constructor ()
      ensures form == EmptyForm && !isLoading && banner == Banner("", "")
      ensures showPasswords == map["current" := false, "new" := false, "confirm" := false]
    {
      form := EmptyForm;
      showPasswords := map["current" := false, "new" := false, "confirm" := false];
      isLoading := false;
      banner := Banner("", "");
    }

    /**
     * `handlePasswordChange`: a submission with a problem shows it and keeps the form; an
     * acceptable one clears all three fields and shows the success banner.
     */
    method HandlePasswordChange()
      modifies this
      ensures showPasswords == old(showPasswords)
      ensures PasswordProblem(old(form)).Some? ==>
        form == old(form) && isLoading == old(isLoading) && banner == Banner("error", PasswordProblem(old(form)).value)
      ensures PasswordProblem(old(form)).None? ==>
        form == EmptyForm && !isLoading && banner == Banner("success", SuccessText)
    {
      banner := Banner("", "");
      var problem := PasswordProblem(form);
      if problem.Some? {
        banner := Banner("error", problem.value);
        return;
      }
      isLoading := true;
      form := EmptyForm;
      banner := Banner("success", SuccessText);
      isLoading := false;
    }

    method TogglePasswordVisibility(field: string)
      modifies this`showPasswords
      ensures showPasswords == ToggleVisibility(old(showPasswords), field)
    {
      showPasswords := ToggleVisibility(showPasswords, field);
    }
  }
}
