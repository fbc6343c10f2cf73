/** The guards of the profile page (client/src/pages/ProfilePage.js): the
    profile form's population, the two-step password form and the
    type-DELETE confirmation. A request's settled outcome is a parameter of
    the handler that dispatches it; rendering and the delayed auto-close are
    left out. */
module ProfilePage {
  import opened Common
  import UserSlice

  /** The editable profile fields, all strings as the inputs hold them. */
  datatype FormData = FormData(
    name: string, email: string, phone: string, dateOfBirth: string,
    gender: string, ethnicity: string, address: string)

  const EMPTY_FORM: FormData := FormData("", "", "", "", "", "", "")

  /** `obj.key || ''`. */
  function Field(obj: JsonObject, key: string): (r: string)
    ensures Truthy(Get(obj, key)) ==> r == obj[key]
    ensures !Truthy(Get(obj, key)) ==> r == ""
  {
    OrElse(Get(obj, key), "")
  }

  /** The form built from the server's profile; a truthy date of birth is
      shown as its ISO calendar date, given by `isoDate`. */
  function FromProfile(profile: JsonObject, isoDate: string -> string): (r: FormData)
    ensures r.name == Field(profile, "name") && r.email == Field(profile, "email")
    ensures r.phone == Field(profile, "phone") && r.gender == Field(profile, "gender")
    ensures r.ethnicity == Field(profile, "ethnicity") && r.address == Field(profile, "address")
    ensures r.dateOfBirth == (if Truthy(Get(profile, "dateOfBirth")) then isoDate(profile["dateOfBirth"]) else "")
  {
    FormData(Field(profile, "name"), Field(profile, "email"), Field(profile, "phone"),
             if Truthy(Get(profile, "dateOfBirth")) then isoDate(profile["dateOfBirth"]) else "",
             Field(profile, "gender"), Field(profile, "ethnicity"), Field(profile, "address"))
  }

  /** The form built from the logged-in user before the profile has arrived:
      only name, email and phone are known. */
  function FromAuthUser(user: JsonObject): (r: FormData)
    ensures r.name == Field(user, "name") && r.email == Field(user, "email") && r.phone == Field(user, "phone")
    ensures r.dateOfBirth == "" && r.gender == "" && r.ethnicity == "" && r.address == ""
  {
    EMPTY_FORM.(name := Field(user, "name"), email := Field(user, "email"), phone := Field(user, "phone"))
  }

  /** The population effect: the profile wins over the auth user; with
      neither the form is left as it was. */
  function Populate(current: FormData, profile: Option<JsonObject>, user: Option<JsonObject>,
                    isoDate: string -> string): (r: FormData)
    ensures profile.Some? ==> r == FromProfile(profile.value, isoDate)
    ensures profile.None? && user.Some? ==> r == FromAuthUser(user.value)
    ensures profile.None? && user.None? ==> r == current
  {
    if profile.Some? then FromProfile(profile.value, isoDate)
    else if user.Some? then FromAuthUser(user.value)
    else current
  }

  /** The fields the auth user does not carry start empty, whatever the form held before. */
  lemma PopulateFromUserClearsRest(current: FormData, user: JsonObject, isoDate: string -> string)
    ensures var f := Populate(current, None, Some(user), isoDate);
      f.dateOfBirth == "" && f.gender == "" && f.ethnicity == "" && f.address == ""
  {
  }

  const FILL_ALL: string := "Please fill all password fields."
  const MISMATCH: string := "New password and confirmation do not match."
  const PASSWORD_UPDATED: string := "Password updated successfully."
  const PASSWORD_FAILED: string := "Failed to change password."
  const CONFIRM_WORD: string := "DELETE"
  const TYPE_DELETE: string := "Type DELETE in the box to confirm deletion."
  const DELETE_FAILED: string := "Failed to delete account."
  const LOGIN_PATH: string := "/login"

  /** The three inputs of the password form. */
  datatype PasswordData = PasswordData(currentPassword: string, newPassword: string, confirmPassword: string)

  const EMPTY_PASSWORDS: PasswordData := PasswordData("", "", "")

  /** The request body the password form sends. */
  datatype PasswordRequest = PasswordRequest(currentPassword: string, newPassword: string)

  /** The two checks run before anything is sent: every field filled, then
      the new password equal to its confirmation. */
  function PasswordGuard(current: string, next: string, confirm: string): (r: Option<string>)
    ensures r == None <==> current != "" && next != "" && confirm != "" && next == confirm
    ensures (current == "" || next == "" || confirm == "") ==> r == Some(FILL_ALL)
    ensures current != "" && next != "" && confirm != "" && next != confirm ==> r == Some(MISMATCH)
  {
    if current == "" || next == "" || confirm == "" then Some(FILL_ALL)
    else if next != confirm then Some(MISMATCH)
    else None
  }

  /** The message shown when the request rejects: the rejection's text when
      it has one, else a fixed one. */
  function PasswordFailureMessage(rejection: string): (r: string)
    ensures r != ""
    ensures rejection != "" ==> r == rejection
  {
    if rejection != "" then rejection else PASSWORD_FAILED
  }

  /** Whether the confirmation modal's delete button is disabled. */
  function DeleteButtonDisabled(confirmText: string, deleteLoading: bool): (r: bool)
    ensures !r <==> confirmText == CONFIRM_WORD && !deleteLoading
  {
    confirmText != CONFIRM_WORD || deleteLoading
  }

  /** An enabled delete button always passes the handler's own check, so the
      handler's refusal is reachable only when the button is bypassed. */
  lemma EnabledButtonPassesCheck(confirmText: string, deleteLoading: bool)
    requires !DeleteButtonDisabled(confirmText, deleteLoading)
    ensures confirmText == CONFIRM_WORD
  {
  }

  /** The page's local state for the profile, password and deletion parts, as one value. */
  datatype PageView = PageView(
    formData: FormData, isEditMode: bool,
    passwordFormOpen: bool, passwordData: PasswordData,
    passwordLoading: bool, passwordError: string, passwordSuccess: string,
    deleteModalOpen: bool, deleteConfirmText: string, deleteLoading: bool, deleteError: string)

  const INITIAL: PageView := PageView(EMPTY_FORM, false, false, EMPTY_PASSWORDS, false, "", "", false, "", false, "")

  class ProfileForm {
    var formData: FormData
    var isEditMode: bool
    var passwordFormOpen: bool
    var passwordData: PasswordData
    var passwordLoading: bool
    var passwordError: string
    var passwordSuccess: string
    var deleteModalOpen: bool
    var deleteConfirmText: string
    var deleteLoading: bool
    var deleteError: string

    ghost function View(): PageView
      reads this
    {
      PageView(formData, isEditMode, passwordFormOpen, passwordData,
               passwordLoading, passwordError, passwordSuccess,
               deleteModalOpen, deleteConfirmText, deleteLoading, deleteError)
    }

    constructor ()
      ensures View() == INITIAL
    {
      formData, isEditMode := EMPTY_FORM, false;
      passwordFormOpen, passwordData := false, EMPTY_PASSWORDS;
      passwordLoading, passwordError, passwordSuccess := false, "", "";
      deleteModalOpen, deleteConfirmText, deleteLoading, deleteError := false, "", false, "";
    }

    /** The population effect, run when the profile or the auth user changes. */
    method SyncForm(profile: Option<JsonObject>, user: Option<JsonObject>, isoDate: string -> string)
      modifies this
      ensures View() == old(View()).(formData := Populate(old(formData), profile, user, isoDate))
    {
      if profile.Some? {
        formData := FromProfile(profile.value, isoDate);
      } else if user.Some? {
        formData := FromAuthUser(user.value);
      }
    }

    /** handleCancelClick: drop the edits when a profile is loaded, and leave edit mode. */
    method CancelEdit(profile: Option<JsonObject>, isoDate: string -> string)
      modifies this
      ensures profile.Some? ==> View() == old(View()).(formData := FromProfile(profile.value, isoDate), isEditMode := false)
      ensures profile.None? ==> View() == old(View()).(isEditMode := false)
    {
      if profile.Some? {
        formData := FromProfile(profile.value, isoDate);
      }
      isEditMode := false;
    }

    /** openPasswordForm: the form opens with no message shown; the typed
        fields are kept. */
    method OpenPasswordForm()
      modifies this
      ensures View() == old(View()).(passwordFormOpen := true, passwordError := "", passwordSuccess := "")
    {
      passwordError, passwordSuccess := "", "";
      passwordFormOpen := true;
    }

    /** closePasswordForm: the form closes and forgets what was typed. */
    method ClosePasswordForm()
      modifies this
      ensures View() == old(View()).(passwordFormOpen := false, passwordData := EMPTY_PASSWORDS,
                                     passwordError := "", passwordSuccess := "")
    {
      passwordFormOpen := false;
      passwordData := EMPTY_PASSWORDS;
      passwordError, passwordSuccess := "", "";
    }

    /** handlePasswordSubmit: a guard failure shows its message and sends
        nothing; otherwise the current and new passwords are sent and
        `outcome` is how that request settled. Success clears the fields and
        shows a confirmation; failure keeps them and shows the rejection.
        The form stays open either way. */
    method HandlePasswordSubmit(outcome: UserSlice.Settled<string>) returns (sent: Option<PasswordRequest>)
      modifies this
      ensures var before := old(passwordData);
        var guard := PasswordGuard(before.currentPassword, before.newPassword, before.confirmPassword);
        if guard.Some? then
          sent == None && View() == old(View()).(passwordError := guard.value, passwordSuccess := "")
        else
          && sent == Some(PasswordRequest(before.currentPassword, before.newPassword))
          && (outcome.Fulfilled? ==>
                View() == old(View()).(passwordError := "", passwordSuccess := PASSWORD_UPDATED,
                                       passwordData := EMPTY_PASSWORDS, passwordLoading := false))
          && (outcome.Rejected? ==>
                View() == old(View()).(passwordError := PasswordFailureMessage(outcome.message),
                                       passwordSuccess := "", passwordLoading := false))
    {
      passwordError, passwordSuccess := "", "";
      var guard := PasswordGuard(passwordData.currentPassword, passwordData.newPassword,
                                 passwordData.confirmPassword);
      if guard.Some? {
        passwordError := guard.value;
        return None;
      }
      passwordLoading := true;
      sent := Some(PasswordRequest(passwordData.currentPassword, passwordData.newPassword));
      match outcome {
        case Fulfilled(_) =>
          passwordSuccess := PASSWORD_UPDATED;
          passwordData := EMPTY_PASSWORDS;
        case Rejected(message) =>
          passwordError := PasswordFailureMessage(message);
      }
      passwordLoading := false;
    }

    /** openDeleteModal: the modal opens with an empty box and no error. */
    method OpenDeleteModal()
      modifies this
      ensures View() == old(View()).(deleteModalOpen := true, deleteConfirmText := "", deleteError := "")
    {
      deleteConfirmText, deleteError := "", "";
      deleteModalOpen := true;
    }

    /** closeDeleteModal. */
    method CloseDeleteModal()
      modifies this
      ensures View() == old(View()).(deleteModalOpen := false, deleteConfirmText := "", deleteError := "")
    {
      deleteModalOpen := false;
      deleteConfirmText, deleteError := "", "";
    }

    /** handleDeleteAccount: nothing is sent unless the box holds exactly
        DELETE; success navigates to the login page; any failure shows the
        same fixed message, since the rejection is a bare string without a
        `message` property. */
    method HandleDeleteAccount(outcome: UserSlice.Settled<string>) returns (requested: bool, navigated: Option<string>)
      modifies this
      ensures requested <==> old(deleteConfirmText) == CONFIRM_WORD
      ensures !requested ==> navigated == None && View() == old(View()).(deleteError := TYPE_DELETE)
      ensures requested && outcome.Fulfilled? ==>
        navigated == Some(LOGIN_PATH) && View() == old(View()).(deleteLoading := false)
      ensures requested && outcome.Rejected? ==>
        navigated == None && View() == old(View()).(deleteLoading := false, deleteError := DELETE_FAILED)
    {
      if deleteConfirmText != CONFIRM_WORD {
        deleteError := TYPE_DELETE;
        return false, None;
      }
      deleteLoading := true;
      requested := true;
      navigated := None;
      match outcome {
        case Fulfilled(_) =>
          navigated := Some(LOGIN_PATH);
        case Rejected(_) =>
          deleteError := DELETE_FAILED;
      }
      deleteLoading := false;
    }
  }
}
