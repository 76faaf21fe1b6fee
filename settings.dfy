/**
 * The account settings page (frontend/src/pages/Settings.jsx): the
 * password-change form with its confirmation guard, the show-password
 * toggles, and the two-step account deletion.
 */
module Settings {
  import opened Wrappers

  datatype Field = Current | New | Confirm

  datatype Passwords = Passwords(current: string, newPassword: string, confirm: string)

  /** Which of the three inputs show their text. */
  datatype Shown = Shown(current: bool, newPassword: bool, confirm: bool)

  const Cleared := Passwords("", "", "")

  function WithPassword(p: Passwords, f: Field, value: string): (r: Passwords)
    ensures f == Current ==> r == p.(current := value)
    ensures f == New ==> r == p.(newPassword := value)
    ensures f == Confirm ==> r == p.(confirm := value)
  {
    match f
    case Current => p.(current := value)
    case New => p.(newPassword := value)
    case Confirm => p.(confirm := value)
  }

  /** An eye button: flips its own flag and leaves the other two alone. */
  function Toggled(s: Shown, f: Field): (r: Shown)
    ensures r.current == (if f == Current then !s.current else s.current)
    ensures r.newPassword == (if f == New then !s.newPassword else s.newPassword)
    ensures r.confirm == (if f == Confirm then !s.confirm else s.confirm)
  {
    match f
    case Current => s.(current := !s.current)
    case New => s.(newPassword := !s.newPassword)
    case Confirm => s.(confirm := !s.confirm)
  }

  /** Pressing the same eye button twice restores the visibility. */
  lemma ToggleTwice(s: Shown, f: Field)
    ensures Toggled(Toggled(s, f), f) == s
  {
  }

  /** The request body of `PUT /auth/password`. */
  datatype PasswordChange = PasswordChange(currentPassword: string, newPassword: string)

  class SettingsPage {
    var passwords: Passwords
    var showPasswords: Shown
    var loading: bool
    /** 0: the "Delete Account" button is shown; 1: the confirmation box is shown. */
    var deleteStep: int

    ghost predicate Valid()
      reads this
    {
      deleteStep == 0 || deleteStep == 1
    }

    constructor()
      ensures Valid()
      ensures passwords == Cleared && showPasswords == Shown(false, false, false)
      ensures !loading && deleteStep == 0
    {
      passwords := Cleared;
      showPasswords := Shown(false, false, false);
      loading := false;
      deleteStep := 0;
    }

    method SetPassword(f: Field, value: string)
      modifies this`passwords
      ensures passwords == WithPassword(old(passwords), f, value)
    {
      passwords := WithPassword(passwords, f, value);
    }

    method ToggleShow(f: Field)
      modifies this`showPasswords
      ensures showPasswords == Toggled(old(showPasswords), f)
    {
      showPasswords := Toggled(showPasswords, f);
    }

    /**
     * `handlePasswordChange`: when the new password and its confirmation
     * differ nothing is sent and nothing changes. Otherwise the current and
     * new passwords are sent; on success the three fields are emptied, on
     * failure they are kept; `loading` ends false either way.
     */
    method ChangePassword(succeeds: bool) returns (sent: Option<PasswordChange>)
      modifies this`passwords, this`loading
      ensures old(passwords).newPassword != old(passwords).confirm ==>
                sent.None? && passwords == old(passwords) && loading == old(loading)
      ensures old(passwords).newPassword == old(passwords).confirm ==>
                sent == Some(PasswordChange(old(passwords).current, old(passwords).newPassword)) && !loading
      ensures old(passwords).newPassword == old(passwords).confirm ==>
                passwords == (if succeeds then Cleared else old(passwords))
    {
      if passwords.newPassword != passwords.confirm {
        return None;
      }
      loading := true;
      sent := Some(PasswordChange(passwords.current, passwords.newPassword));
      if succeeds {
        passwords := Cleared;
      }
      loading := false;
    }

    /** "Delete Account", shown only at step 0: moves to the confirmation step. */
    method ClickDeleteAccount()
      requires Valid()
      modifies this`deleteStep
      ensures Valid()
      ensures deleteStep == 1
    {
      if deleteStep == 0 {
        deleteStep := 1;
      }
    }

    /** "Cancel", shown only at step 1: back to step 0. */
    method ClickCancel()
      requires Valid()
      modifies this`deleteStep
      ensures Valid()
      ensures deleteStep == 0
    {
      if deleteStep != 0 {
        deleteStep := 0;
      }
    }

    /**
     * "Yes, Delete My Account", shown only at step 1: the delete request
     * can be sent only from there. The page state is not changed.
     */
    method ClickConfirmDelete() returns (sent: bool)
      requires Valid()
      ensures sent <==> deleteStep == 1
    {
      sent := deleteStep != 0;
    }
  }
}
