/** The change-password dialog of src/components/ChangePassword.jsx: the
    submit-time validation chain, the strength meter, the per-field
    visibility toggles and the submit button's enablement. */
module ChangePassword {
  import opened Wrappers

  datatype PasswordForm = PasswordForm(oldPassword: string, newPassword: string, confirmPassword: string)

  /** The three password inputs whose visibility can be toggled. */
  datatype Field = OldField | NewField | ConfirmField

  const MismatchError := "New passwords do not match"
  const TooShortError := "New password must be at least 6 characters long"
  const SameAsOldError := "New password must be different from current password"
  const FailureFallback := "Failed to change password. Please check your current password."
  const SuccessNotice := "Password changed successfully! Please sign in with your new password."

  /** The validation chain of `handleSubmit`: the first failing check names
      the error, `None` when all pass. */
  function Validate(f: PasswordForm): (r: Option<string>)
    ensures r.None? <==> f.newPassword == f.confirmPassword && |f.newPassword| >= 6 && f.oldPassword != f.newPassword
    ensures f.newPassword != f.confirmPassword ==> r == Some(MismatchError)
    ensures f.newPassword == f.confirmPassword && |f.newPassword| < 6 ==> r == Some(TooShortError)
    ensures r == Some(SameAsOldError) ==> f.newPassword == f.confirmPassword && |f.newPassword| >= 6
    ensures f.newPassword == f.confirmPassword && |f.newPassword| >= 6 && f.oldPassword == f.newPassword ==>
      r == Some(SameAsOldError)
  {
    if f.newPassword != f.confirmPassword then Some(MismatchError)
    else if |f.newPassword| < 6 then Some(TooShortError)
    else if f.oldPassword == f.newPassword then Some(SameAsOldError)
    else None
  }

  /** The submit button's `disabled` expression. */
  predicate SubmitDisabled(loading: bool, f: PasswordForm)
  {
    loading || f.newPassword != f.confirmPassword || f.oldPassword == ""
  }

  /** An enabled button never submits a form the first check rejects, and a
      form that passes validation is only blocked by loading or an empty
      current password. */
  lemma SubmitEnablement(loading: bool, f: PasswordForm)
    ensures !SubmitDisabled(loading, f) ==> Validate(f) != Some(MismatchError)
    ensures Validate(f).None? ==> (SubmitDisabled(loading, f) <==> loading || f.oldPassword == "")
  {
  }

  // The criteria of the strength meter.

  predicate HasLower(p: string)   { exists i :: 0 <= i < |p| && 'a' <= p[i] <= 'z' }
  predicate HasUpper(p: string)   { exists i :: 0 <= i < |p| && 'A' <= p[i] <= 'Z' }
  predicate HasDigit(p: string)   { exists i :: 0 <= i < |p| && '0' <= p[i] <= '9' }

  /** The characters of the `special` character class. */
  const Specials := "!@#$%^&*(),.?\":{}|<>"

  predicate HasSpecial(p: string) { exists i :: 0 <= i < |p| && p[i] in Specials }

  /** The five checks, in the order the source lists them. */
  function Checks(p: string): (cs: seq<bool>)
    ensures |cs| == 5
  {
    [|p| >= 8, HasLower(p), HasUpper(p), HasDigit(p), HasSpecial(p)]
  }

  /** `filter(Boolean).length`: how many entries hold. */
  function CountTrue(bs: seq<bool>): (n: nat)
    ensures n <= |bs|
    ensures n == 0 <==> forall i :: 0 <= i < |bs| ==> !bs[i]
    ensures n == |bs| <==> forall i :: 0 <= i < |bs| ==> bs[i]
    decreases |bs|
  {
    if bs == [] then 0 else (if bs[0] then 1 else 0) + CountTrue(bs[1..])
  }

  /** The count is the number of `true` entries, whatever their positions. */
  lemma {:induction false} CountTrueIsMultiplicity(bs: seq<bool>)
    ensures CountTrue(bs) == multiset(bs)[true]
    decreases |bs|
  {
    if bs != [] {
      assert bs == [bs[0]] + bs[1..];
      CountTrueIsMultiplicity(bs[1..]);
    }
  }

  /** The label and colour table, indexed by score. */
  function Level(score: nat): (r: (string, string))
    requires score <= 5
  {
    [("Very Weak", "bg-red-500"), ("Weak", "bg-red-400"), ("Fair", "bg-yellow-400"),
     ("Good", "bg-blue-400"), ("Strong", "bg-green-400"), ("Very Strong", "bg-green-500")][score]
  }

  datatype Strength = Strength(score: nat, caption: string, color: string)

  /** `getPasswordStrength`. */
  function GetPasswordStrength(p: string): (r: Strength)
    ensures p == "" ==> r == Strength(0, "", "")
    ensures p != "" ==> r.score <= 5 && (r.caption, r.color) == Level(r.score)
  {
    if p == "" then Strength(0, "", "")
    else
      var score := CountTrue(Checks(p));
      Strength(score, Level(score).0, Level(score).1)
  }

  /** The score of a non-empty password is the number of criteria it meets:
      the top score exactly when all five hold, zero exactly when none does. */
  lemma StrengthCountsCriteria(p: string)
    requires p != ""
    ensures GetPasswordStrength(p).score == 5 <==>
      |p| >= 8 && HasLower(p) && HasUpper(p) && HasDigit(p) && HasSpecial(p)
    ensures GetPasswordStrength(p).score == 0 <==>
      |p| < 8 && !HasLower(p) && !HasUpper(p) && !HasDigit(p) && !HasSpecial(p)
  {
    var cs := Checks(p);
    assert cs[0] == (|p| >= 8) && cs[1] == HasLower(p) && cs[2] == HasUpper(p);
    assert cs[3] == HasDigit(p) && cs[4] == HasSpecial(p);
  }

  /** The score of a non-empty password is how many of the five criteria
      it meets: a score of two means exactly two criteria hold. */
  lemma StrengthIsMetCount(p: string)
    requires p != ""
    ensures GetPasswordStrength(p).score == multiset(Checks(p))[true]
  {
    CountTrueIsMultiplicity(Checks(p));
  }

  /** The dialog's state. */
  class ChangePasswordDialog {
    var form: PasswordForm
    var loading: bool
    var error: string
    var showOld: bool
    var showNew: bool
    var showConfirm: bool

    constructor ()
      ensures form == PasswordForm("", "", "") && !loading && error == ""
      ensures !showOld && !showNew && !showConfirm
    {
      form := PasswordForm("", "", "");
      loading := false;
      error := "";
      showOld, showNew, showConfirm := false, false, false;
    }

    function Visible(f: Field): bool
      reads this
    {
      match f
      case OldField => showOld
      case NewField => showNew
      case ConfirmField => showConfirm
    }

    /** `togglePasswordVisibility(field)`: flips that field only. */
    method TogglePasswordVisibility(f: Field)
      modifies this
      ensures Visible(f) == !old(Visible(f))
      ensures forall g :: g != f ==> Visible(g) == old(Visible(g))
      ensures form == old(form) && loading == old(loading) && error == old(error)
    {
      match f
      case OldField => showOld := !showOld;
      case NewField => showNew := !showNew;
      case ConfirmField => showConfirm := !showConfirm;
    }

    /** `handleSubmit`: a rejected form sets the error and returns before
        loading is set or the backend is called; an accepted one is sent
        (`response` is the backend's answer), closes the dialog with the
        success notice on success and shows the backend's message or the
        fallback on failure. */
    method HandleSubmit(response: Outcome<()>) returns (requested: bool, closed: bool, notice: Option<string>)
      modifies this
      ensures requested <==> Validate(old(form)).None?
      ensures !requested ==> error == Validate(old(form)).value && loading == old(loading) && !closed && notice.None?
      ensures requested ==> !loading
      ensures requested && response.Success? ==> closed && notice == Some(SuccessNotice) && error == ""
      ensures requested && response.Failure? ==>
        !closed && notice.None? && error == MessageOr(response.message, FailureFallback)
      ensures form == old(form)
      ensures showOld == old(showOld) && showNew == old(showNew) && showConfirm == old(showConfirm)
    {
      error := "";
      requested, closed, notice := false, false, None;
      var invalid := Validate(form);
      if invalid.Some? {
        error := invalid.value;
        return;
      }
      loading := true;
      requested := true;
      match response {
        case Success(_) =>
          notice := Some(SuccessNotice);
          closed := true;
        case Failure(message) =>
          error := MessageOr(message, FailureFallback);
      }
      loading := false;
    }
  }
}
