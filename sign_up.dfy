/** The sign-up form (src/pages/auth/SignUp.jsx): the password-strength meter, the validation
    schema and the two-step wizard. */
module SignUp {
  predicate IsUpper(c: char) { 'A' <= c <= 'Z' }
  predicate IsDigitChar(c: char) { '0' <= c <= '9' }
  predicate IsAlphanumeric(c: char) { IsUpper(c) || 'a' <= c <= 'z' || IsDigitChar(c) }

  /** `/[A-Z]/.test(p)`. */
  predicate HasUpper(p: string) { exists i :: 0 <= i < |p| && IsUpper(p[i]) }
  /** `/[0-9]/.test(p)`. */
  predicate HasDigit(p: string) { exists i :: 0 <= i < |p| && IsDigitChar(p[i]) }
  /** `/[^A-Za-z0-9]/.test(p)`. */
  predicate HasSymbol(p: string) { exists i :: 0 <= i < |p| && !IsAlphanumeric(p[i]) }

  function Indicator(b: bool): nat { if b then 1 else 0 }

  /** The strength score: one point each for at least 6 characters, at least 10 characters, an
      uppercase letter, a digit, and a character that is neither a letter nor a digit. */
  function Score(p: string): (r: nat)
    ensures r <= 5
    ensures p == "" ==> r == 0
  {
    Indicator(|p| >= 6) + Indicator(|p| >= 10) + Indicator(HasUpper(p)) + Indicator(HasDigit(p))
      + Indicator(HasSymbol(p))
  }

  /** `calculatePasswordStrength`: an empty password scores 0; otherwise the five tests add one
      point each to a running total, capped at 5. */
  method CalculatePasswordStrength(password: string) returns (strength: int)
    ensures strength == Score(password)
    ensures 0 <= strength <= 5
    ensures password == "" ==> strength == 0
  {
    if password == "" {
      return 0;
    }
    strength := 0;
    if |password| >= 6 {
      strength := strength + 1;
    }
    if |password| >= 10 {
      strength := strength + 1;
    }
    if HasUpper(password) {
      strength := strength + 1;
    }
    if HasDigit(password) {
      strength := strength + 1;
    }
    if HasSymbol(password) {
      strength := strength + 1;
    }
    strength := if strength < 5 then strength else 5;
  }

  /** Typing more characters never lowers the score: every test that held still holds. */
  lemma ScoreMonotoneAppend(p: string, q: string)
    ensures Score(p) <= Score(p + q)
  {
    if HasUpper(p) {
      var i :| 0 <= i < |p| && IsUpper(p[i]);
      assert (p + q)[i] == p[i];
    }
    if HasDigit(p) {
      var i :| 0 <= i < |p| && IsDigitChar(p[i]);
      assert (p + q)[i] == p[i];
    }
    if HasSymbol(p) {
      var i :| 0 <= i < |p| && !IsAlphanumeric(p[i]);
      assert (p + q)[i] == p[i];
    }
  }

  /** The three bands shared by the label, its colour and the bar colour. */
  datatype Strength = Weak | Medium | Strong

  function Band(score: int): (r: Strength)
    ensures r == Weak <==> score <= 1
    ensures r == Strong <==> score > 3
  {
    if score <= 1 then Weak else if score <= 3 then Medium else Strong
  }

  /** `getProgressColor`. */
  function ProgressColor(strength: int): string {
    if strength <= 1 then "bg-red-500" else if strength <= 3 then "bg-yellow-500" else "bg-green-500"
  }

  /** The label under the password field. */
  function StrengthLabel(strength: int): string {
    if strength <= 1 then "Weak" else if strength <= 3 then "Medium" else "Strong"
  }

  /** The colour of that label. */
  function LabelColor(strength: int): string {
    if strength <= 1 then "text-red-500" else if strength <= 3 then "text-yellow-500" else "text-green-500"
  }

  /** The bar colour, the label and the label's colour are written separately but agree: each is
      determined by the band of the score, and different bands give different values. */
  lemma DisplaysAgree(s: int, t: int)
    ensures ProgressColor(s) == ProgressColor(t) <==> Band(s) == Band(t)
    ensures StrengthLabel(s) == StrengthLabel(t) <==> Band(s) == Band(t)
    ensures LabelColor(s) == LabelColor(t) <==> Band(s) == Band(t)
    ensures StrengthLabel(s) == "Weak" <==> ProgressColor(s) == "bg-red-500"
    ensures StrengthLabel(s) == "Strong" <==> LabelColor(s) == "text-green-500"
  {
    assert "bg-red-500"[3] != "bg-yellow-500"[3] && "bg-red-500"[3] != "bg-green-500"[3];
    assert "bg-yellow-500"[3] != "bg-green-500"[3];
    assert "text-red-500"[5] != "text-yellow-500"[5] && "text-red-500"[5] != "text-green-500"[5];
    assert "text-yellow-500"[5] != "text-green-500"[5];
    assert "Weak"[0] != "Medium"[0] && "Weak"[0] != "Strong"[0] && "Medium"[0] != "Strong"[0];
  }

  /** The form fields a validation issue can be attached to. */
  datatype Field = Name | Email | Password | ConfirmPassword
  datatype Issue = Issue(path: Field, message: string)

  function NameIssues(name: string): (r: seq<Issue>)
    ensures r == [] <==> |name| >= 2
  {
    if |name| < 2 then [Issue(Name, "Name must be at least 2 characters")] else []
  }

  function EmailIssues(emailWellFormed: bool): (r: seq<Issue>)
    ensures r == [] <==> emailWellFormed
  {
    if emailWellFormed then [] else [Issue(Email, "Please enter a valid email address")]
  }

  /** The password checks run in order and each failing one reports its own message. */
  function PasswordIssues(password: string): (r: seq<Issue>)
    ensures r == [] <==> |password| >= 6 && HasUpper(password) && HasDigit(password)
    ensures forall i :: 0 <= i < |r| ==> r[i].path == Password
  {
    (if |password| < 6 then [Issue(Password, "Password must be at least 6 characters")] else [])
    + (if !HasUpper(password) then [Issue(Password, "Password must contain at least one uppercase letter")] else [])
    + (if !HasDigit(password) then [Issue(Password, "Password must contain at least one number")] else [])
  }

  function MismatchIssues(password: string, confirm: string): (r: seq<Issue>)
    ensures r == [] <==> password == confirm
  {
    if password == confirm then [] else [Issue(ConfirmPassword, "Passwords don't match")]
  }

  /** All issues the schema reports for a submission; the email rule's verdict is an input. The
      schema accepts exactly when every rule holds. */
  function SchemaIssues(name: string, emailWellFormed: bool, password: string, confirm: string): (r: seq<Issue>)
    ensures r == [] <==>
      && |name| >= 2 && emailWellFormed
      && |password| >= 6 && HasUpper(password) && HasDigit(password)
      && password == confirm
  {
    NameIssues(name) + EmailIssues(emailWellFormed) + PasswordIssues(password) + MismatchIssues(password, confirm)
  }

  predicate SchemaAccepts(name: string, emailWellFormed: bool, password: string, confirm: string) {
    SchemaIssues(name, emailWellFormed, password, confirm) == []
  }

  /** A mismatch is reported on the confirmation field exactly when the two passwords differ, and
      no other rule reports on that field. */
  lemma MismatchOnConfirm(name: string, emailWellFormed: bool, password: string, confirm: string)
    ensures var issues := SchemaIssues(name, emailWellFormed, password, confirm);
      (Issue(ConfirmPassword, "Passwords don't match") in issues <==> password != confirm)
      && forall i :: 0 <= i < |issues| && issues[i].path == ConfirmPassword ==>
           issues[i] == Issue(ConfirmPassword, "Passwords don't match")
  {
    var before := NameIssues(name) + EmailIssues(emailWellFormed) + PasswordIssues(password);
    assert forall i :: 0 <= i < |before| ==> before[i].path != ConfirmPassword;
    assert SchemaIssues(name, emailWellFormed, password, confirm) == before + MismatchIssues(password, confirm);
  }

  /** A password the schema accepts has at least six characters, an uppercase letter and a digit,
      so it scores at least 3 and is never shown as weak. */
  lemma AcceptedPasswordNotWeak(name: string, emailWellFormed: bool, password: string, confirm: string)
    requires SchemaAccepts(name, emailWellFormed, password, confirm)
    ensures Score(password) >= 3
    ensures StrengthLabel(Score(password)) != "Weak"
  {
  }

  /** The wizard's step: 1 asks for name and email, 2 for the passwords. */
  class Wizard {
    var step: int

    constructor ()
      ensures step == 1
    {
      step := 1;
    }

    /** The Continue button is enabled only when name and email have both been edited and
        neither has an issue; pressing it moves to step 2. */
    method Continue(nameDirty: bool, emailDirty: bool, name: string, emailWellFormed: bool)
      modifies this
      ensures nameDirty && emailDirty && |name| >= 2 && emailWellFormed ==> step == 2
      ensures !(nameDirty && emailDirty && |name| >= 2 && emailWellFormed) ==> step == old(step)
    {
      if nameDirty && emailDirty && NameIssues(name) == [] && EmailIssues(emailWellFormed) == [] {
        step := 2;
      }
    }

    /** Back returns to step 1. */
    method Back()
      modifies this
      ensures step == 1
    {
      step := 1;
    }
  }
}
