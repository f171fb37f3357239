/** The profile screen of mobile/components/profile/ProfileScreen.tsx: the edit
    fields seeded from the signed-in user, `handleSave`, which patches the user
    in the profile store, and the local password-change form with its two
    checks. */
module ProfileScreen {
  import opened Wrappers
  import opened Text
  import UserProfileContext

  /** The screen's text inputs. */
  datatype ProfileInput = FullNameInput | EmailInput | PhoneInput
                        | CurrentPasswordInput | NewPasswordInput | ConfirmNewPasswordInput

  /** The password-change check: matching entries first, then at least six
      UTF-16 code units. The current password is not an argument: it is never
      looked at. */
  function PasswordChangeVerdict(newPassword: string, confirmNewPassword: string): (v: Verdict)
    ensures v.Accepted? <==> newPassword == confirmNewPassword && Utf16Length(newPassword) >= 6
    ensures newPassword != confirmNewPassword ==> v == Rejected("New passwords do not match")
    ensures newPassword == confirmNewPassword && Utf16Length(newPassword) < 6 ==>
      v == Rejected("Password must be at least 6 characters long")
  {
    if newPassword != confirmNewPassword then Rejected("New passwords do not match")
    else if Utf16Length(newPassword) < 6 then Rejected("Password must be at least 6 characters long")
    else Accepted
  }

  /** A mismatch is reported even when the new password is also too short. */
  lemma MismatchReportedBeforeLength()
    ensures PasswordChangeVerdict("abc", "abd") == Rejected("New passwords do not match")
  {
  }

  /** A character from beyond the Basic Multilingual Plane counts as two code
      units, so three of them already pass the six-character length check. */
  lemma AstralCharactersCountTwice()
    ensures PasswordChangeVerdict("\U{1F600}\U{1F600}\U{1F600}", "\U{1F600}\U{1F600}\U{1F600}") == Accepted
  {
  }

  class Profile {
    const store: UserProfileContext.UserProfileProvider
    var isEditingProfile: bool
    var isChangingPassword: bool
    var fullName: string
    var email: string
    var phone: string
    var currentPassword: string
    var newPassword: string
    var confirmNewPassword: string

    /** The screen as it opens: the edit fields hold the user's values, or the
        empty string when there is no user or no phone; both forms closed, the
        password fields empty. */
    constructor (store: UserProfileContext.UserProfileProvider)
      ensures this.store == store
      ensures store.state.user.Some? ==>
        && fullName == store.state.user.value.fullName && email == store.state.user.value.email
        && phone == OrElse(store.state.user.value.phone, "")
      ensures store.state.user.None? ==> fullName == "" && email == "" && phone == ""
      ensures !isEditingProfile && !isChangingPassword
      ensures currentPassword == "" && newPassword == "" && confirmNewPassword == ""
    {
      this.store := store;
      var user := store.state.user;
      fullName := if user.Some? then user.value.fullName else "";
      email := if user.Some? then user.value.email else "";
      phone := if user.Some? then OrElse(user.value.phone, "") else "";
      isEditingProfile := false;
      isChangingPassword := false;
      currentPassword, newPassword, confirmNewPassword := "", "", "";
    }

    /** An `onChangeText` handler: only its own field changes. */
    method Type(input: ProfileInput, text: string)
      modifies this
      ensures input == FullNameInput ==> fullName == text
      ensures input != FullNameInput ==> fullName == old(fullName)
      ensures input == EmailInput ==> email == text
      ensures input != EmailInput ==> email == old(email)
      ensures input == PhoneInput ==> phone == text
      ensures input != PhoneInput ==> phone == old(phone)
      ensures input == CurrentPasswordInput ==> currentPassword == text
      ensures input != CurrentPasswordInput ==> currentPassword == old(currentPassword)
      ensures input == NewPasswordInput ==> newPassword == text
      ensures input != NewPasswordInput ==> newPassword == old(newPassword)
      ensures input == ConfirmNewPasswordInput ==> confirmNewPassword == text
      ensures input != ConfirmNewPasswordInput ==> confirmNewPassword == old(confirmNewPassword)
      ensures isEditingProfile == old(isEditingProfile) && isChangingPassword == old(isChangingPassword)
    {
      match input {
        case FullNameInput => fullName := text;
        case EmailInput => email := text;
        case PhoneInput => phone := text;
        case CurrentPasswordInput => currentPassword := text;
        case NewPasswordInput => newPassword := text;
        case ConfirmNewPasswordInput => confirmNewPassword := text;
      }
    }

    /** The edit icon opens or closes the profile form. */
    method ToggleEditing()
      modifies this
      ensures isEditingProfile == !old(isEditingProfile)
      ensures isChangingPassword == old(isChangingPassword)
    {
      isEditingProfile := !isEditingProfile;
    }

    /** The change-password header opens or closes the password form. */
    method TogglePasswordForm()
      modifies this
      ensures isChangingPassword == !old(isChangingPassword)
      ensures isEditingProfile == old(isEditingProfile)
    {
      isChangingPassword := !isChangingPassword;
    }

    /** `handleSave`: without a user nothing happens; with one, the user's name,
        email and phone become the edit fields' values (through `updateUser`) and
        the form closes. */
    method HandleSave()
      modifies this, store
      ensures store.state.reports == old(store.state.reports) && store.state.loading == old(store.state.loading)
      ensures old(store.state.user).None? ==>
        store.state == old(store.state) && isEditingProfile == old(isEditingProfile)
      ensures old(store.state.user).Some? ==>
        && store.state.user == Some(old(store.state.user).value.(fullName := fullName, email := email, phone := Some(phone)))
        && !isEditingProfile
      ensures fullName == old(fullName) && email == old(email) && phone == old(phone)
      ensures isChangingPassword == old(isChangingPassword)
    {
      if store.state.user.Some? {
        store.UpdateUser(UserProfileContext.UserPatch(None, Some(fullName), Some(email), Some(phone)));
        isEditingProfile := false;
      }
    }

    /** `handleChangePassword`: the verdict depends on the new and confirmation
        fields only. On success the three password fields are cleared and the
        form closes; on a rejection nothing changes. */
    method HandleChangePassword() returns (v: Verdict)
      modifies this
      ensures v == PasswordChangeVerdict(old(newPassword), old(confirmNewPassword))
      ensures v.Accepted? ==>
        currentPassword == "" && newPassword == "" && confirmNewPassword == "" && !isChangingPassword
      ensures v.Rejected? ==>
        && currentPassword == old(currentPassword) && newPassword == old(newPassword)
        && confirmNewPassword == old(confirmNewPassword) && isChangingPassword == old(isChangingPassword)
      ensures fullName == old(fullName) && email == old(email) && phone == old(phone)
      ensures isEditingProfile == old(isEditingProfile)
    {
      if newPassword != confirmNewPassword {
        v := Rejected("New passwords do not match");
        return;
      }
      if Utf16Length(newPassword) < 6 {
        v := Rejected("Password must be at least 6 characters long");
        return;
      }
      v := Accepted;
      currentPassword := "";
      newPassword := "";
      confirmNewPassword := "";
      isChangingPassword := false;
    }
  }
}
