/**
 * The profile page's form check: before saving, the fields of the section
 * on screen are checked, one message is recorded per failing field, and the
 * save goes ahead only when no message was recorded.
 */
module ProfileForm {
  import opened Text

  /** The settings sections the page switches between. */
  datatype Section = Profile | Password | Notifications | Language | Danger

  /** The form fields that can carry an error message. */
  datatype Field = DisplayName | Email | NewPassword | ConfirmPassword

  datatype FormData = FormData(
    displayName: string,
    email: string,
    newPassword: string,
    confirmPassword: string)

  const NameRequired: string := "Display name is required"
  const EmailRequired: string := "Email is required"
  const EmailInvalid: string := "Email is invalid"
  const PasswordTooShort: string := "Password must be at least 6 characters"
  const PasswordsDiffer: string := "Passwords do not match"

  /** The shortest password the page accepts. */
  const MinPasswordLength: nat := 6

  /**
   * The email pattern `\S+@\S+\.\S+`, searched anywhere in the text: some '@'
   * has a non-space character just before it, and is followed by at least one
   * non-space character and then a '.' with a non-space character after it.
   * A longer run of non-space characters on either side only extends the same
   * match, so these positions are all a match needs.
   */
  predicate EmailShaped(s: string) {
    exists at, dot | 0 < at < |s| && at + 1 < dot < |s| - 1 :: MatchAt(s, at, dot)
  }

  /** The pattern matches with its '@' at `at` and its '.' at `dot`. */
  predicate MatchAt(s: string, at: int, dot: int) {
    && 0 < at && at + 1 < dot && dot + 1 < |s|
    && s[at] == '@' && s[dot] == '.'
    && !IsJsSpace(s[at - 1]) && NoSpace(s[at + 1..dot]) && !IsJsSpace(s[dot + 1])
  }

  /** `validateForm`: the recorded messages, and whether the form may be saved. */
  method ValidateForm(section: Section, form: FormData) returns (errors: map<Field, string>, valid: bool)
    ensures DisplayName in errors <==> section == Profile && AllSpace(form.displayName)
    ensures Email in errors <==> section == Profile && (AllSpace(form.email) || !EmailShaped(form.email))
    ensures NewPassword in errors <==>
      section == Password && form.newPassword != [] && |form.newPassword| < MinPasswordLength
    ensures ConfirmPassword in errors <==> section == Password && form.newPassword != form.confirmPassword
    ensures DisplayName in errors ==> errors[DisplayName] == NameRequired
    ensures Email in errors ==> errors[Email] == if AllSpace(form.email) then EmailRequired else EmailInvalid
    ensures NewPassword in errors ==> errors[NewPassword] == PasswordTooShort
    ensures ConfirmPassword in errors ==> errors[ConfirmPassword] == PasswordsDiffer
    ensures valid <==> errors == map[]
    ensures section == Profile ==>
      (valid <==> !AllSpace(form.displayName) && !AllSpace(form.email) && EmailShaped(form.email))
    ensures section == Password ==>
      (valid <==> form.newPassword == form.confirmPassword &&
                  (form.newPassword == [] || |form.newPassword| >= MinPasswordLength))
    ensures section in {Notifications, Language, Danger} ==> valid
  {
    errors := map[];
    if section == Profile {
      TrimEmptyIffAllSpace(form.displayName);
      if Trim(form.displayName) == [] {
        errors := errors[DisplayName := NameRequired];
      }
      TrimEmptyIffAllSpace(form.email);
      if Trim(form.email) == [] {
        errors := errors[Email := EmailRequired];
      } else if !EmailShaped(form.email) {
        errors := errors[Email := EmailInvalid];
      }
    }
    if section == Password {
      if form.newPassword != [] && |form.newPassword| < MinPasswordLength {
        errors := errors[NewPassword := PasswordTooShort];
      }
      if form.newPassword != form.confirmPassword {
        errors := errors[ConfirmPassword := PasswordsDiffer];
      }
    }
    valid := |errors| == 0;
  }

  /** A text of white space never looks like an email, so a blank email field
      gets "Email is required" and never "Email is invalid". */
  lemma BlankIsNotEmailShaped(s: string)
    requires AllSpace(s)
    ensures !EmailShaped(s)
  {
  }

  /** An email-shaped text holds an '@', a later '.', and at least five characters. */
  lemma EmailShapedParts(s: string)
    requires EmailShaped(s)
    ensures |s| >= 5
    ensures exists at, dot :: 0 <= at < dot < |s| && s[at] == '@' && s[dot] == '.'
  {
    var at, dot :| 0 < at < |s| && at + 1 < dot < |s| - 1 && MatchAt(s, at, dot);
    assert 0 <= at < dot < |s|;
  }

  /** The pattern is searched, not anchored: text around an email is accepted. */
  lemma EmailInsideTextIsShaped(s: string)
    requires s == "write to a@b.co today"
    ensures EmailShaped(s)
  {
    assert s[9..13] == "a@b.";
    assert MatchAt(s, 10, 12);
  }

  /** An '@' with white space on its left does not start a match. */
  lemma SpaceBeforeAtIsNotShaped(s: string)
    requires s == "a @b.c"
    ensures !EmailShaped(s)
  {
    forall at, dot ensures !MatchAt(s, at, dot) {
      if 0 < at < |s| && s[at] == '@' {
        assert at == 2 && s[at - 1] == ' ';
      }
    }
  }

  /** A missing '.' after the '@' is rejected. */
  lemma NoDotIsNotShaped(s: string)
    requires s == "name@host"
    ensures !EmailShaped(s)
  {
    forall at, dot ensures !MatchAt(s, at, dot) {
      assert '.' !in s;
    }
  }
}
