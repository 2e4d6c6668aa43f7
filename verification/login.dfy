/**
 * The login screen (assets/components/LoginScreen.tsx): registering a first
 * account or signing in against the stored one, the mode switch between
 * the two, and the clock and date shown above the form.
 *
 * Local storage is read through parameters (the stored username and
 * password) and written through the list of writes a step returns. The
 * one-second delay before the desktop opens is the separate `DelayElapsed`
 * step.
 */
module Login {
  import opened Wrappers
  import opened Text
  import opened Clock

  const UsernameKey := "xenzos_username"
  const PasswordKey := "xenzos_password"
  const LoggedInKey := "xenzos_loggedIn"
  const MinPasswordLength := 4
  const ShortPasswordText := "Password must be at least 4 characters"
  const InvalidLoginText := "Invalid username or password"

  /** One `localStorage.setItem(key, value)`. */
  datatype StorageWrite = StorageWrite(key: string, value: string)

  /** The writes of a successful registration: the credentials in clear text and the logged-in flag. */
  function RegistrationWrites(username: string, password: string): (w: seq<StorageWrite>)
    ensures StorageWrite(UsernameKey, username) in w && StorageWrite(PasswordKey, password) in w
    ensures StorageWrite(LoggedInKey, "true") in w && |w| == 3
  {
    [StorageWrite(UsernameKey, username), StorageWrite(PasswordKey, password), StorageWrite(LoggedInKey, "true")]
  }

  /** What a key holds after some writes, starting from `before`: the last write to it wins. */
  function Stored(before: Option<string>, writes: seq<StorageWrite>, key: string): (r: Option<string>)
    ensures (forall i :: 0 <= i < |writes| ==> writes[i].key != key) ==> r == before
    decreases |writes|
  {
    if |writes| == 0 then before
    else if writes[|writes| - 1].key == key then Some(writes[|writes| - 1].value)
    else Stored(before, writes[..|writes| - 1], key)
  }

  /** A registration leaves the chosen username and password stored. */
  lemma RegistrationStoresCredentials(username: string, password: string, oldName: Option<string>, oldPassword: Option<string>)
    ensures Stored(oldName, RegistrationWrites(username, password), UsernameKey) == Some(username)
    ensures Stored(oldPassword, RegistrationWrites(username, password), PasswordKey) == Some(password)
  {
    var w := RegistrationWrites(username, password);
    assert UsernameKey[7] != PasswordKey[7] && UsernameKey[7] != LoggedInKey[7] && PasswordKey[7] != LoggedInKey[7];
    assert w[..2] == [StorageWrite(UsernameKey, username), StorageWrite(PasswordKey, password)];
    assert w[..2][..1] == [StorageWrite(UsernameKey, username)];
    assert Stored(oldName, w, UsernameKey) == Stored(oldName, w[..2], UsernameKey);
    assert Stored(oldName, w[..2], UsernameKey) == Stored(oldName, w[..2][..1], UsernameKey);
    assert Stored(oldPassword, w, PasswordKey) == Stored(oldPassword, w[..2], PasswordKey);
  }

  class LoginScreen {
    var username: string
    var password: string
    var isNewUser: bool
    var error: string
    var loading: bool
    var currentTime: string
    var currentDate: string

    constructor ()
      ensures username == "" && password == "" && !isNewUser && error == "" && !loading
      ensures currentTime == "" && currentDate == ""
    {
      username := "";
      password := "";
      isNewUser := false;
      error := "";
      loading := false;
      currentTime := "";
      currentDate := "";
    }

    /** The mount check: without a stored username the form registers; with one, the name is filled in. */
    method Mount(savedUsername: Option<string>)
      modifies this
      ensures !Truthy(savedUsername) ==> isNewUser && username == old(username)
      ensures Truthy(savedUsername) ==> username == savedUsername.value && isNewUser == old(isNewUser)
      ensures password == old(password) && error == old(error) && loading == old(loading)
      ensures currentTime == old(currentTime) && currentDate == old(currentDate)
    {
      if !Truthy(savedUsername) {
        isNewUser := true;
      } else {
        username := savedUsername.value;
      }
    }

    /** The clock above the form, like "9:41 AM" and "Tuesday, May 21". */
    method UpdateDateTime(hours: int, minutes: nat, weekday: int, month: int, date: nat)
      requires 0 <= hours <= 23 && 0 <= weekday < 7 && 0 <= month < 12
      modifies this
      ensures currentTime == TimeText(hours, minutes) && currentDate == LongDate(weekday, month, date)
      ensures username == old(username) && password == old(password) && isNewUser == old(isNewUser)
      ensures error == old(error) && loading == old(loading)
    {
      currentTime := TimeText(hours, minutes);
      currentDate := LongDate(weekday, month, date);
    }

    method EditCredentials(newUsername: string, newPassword: string)
      modifies this
      ensures username == newUsername && password == newPassword
      ensures isNewUser == old(isNewUser) && error == old(error) && loading == old(loading)
      ensures currentTime == old(currentTime) && currentDate == old(currentDate)
    {
      username := newUsername;
      password := newPassword;
    }

    /** The link under the form switches between registering and signing in, clearing the error. */
    method ToggleMode()
      modifies this
      ensures isNewUser == !old(isNewUser) && error == ""
      ensures username == old(username) && password == old(password) && loading == old(loading)
      ensures currentTime == old(currentTime) && currentDate == old(currentDate)
    {
      isNewUser := !isNewUser;
      error := "";
    }

    /**
     * Submitting the form. Registration refuses a password shorter than four
     * characters and otherwise stores the credentials; signing in succeeds
     * exactly when both fields equal the stored values. A success writes the
     * logged-in flag and keeps loading until the delay elapses; a failure
     * shows its message and writes nothing.
     */
    method HandleSubmit(savedUsername: Option<string>, savedPassword: Option<string>)
      returns (writes: seq<StorageWrite>, accepted: bool)
      modifies this
      ensures accepted <==>
        if old(isNewUser) then Utf16Length(old(password)) >= MinPasswordLength
        else savedUsername == Some(old(username)) && savedPassword == Some(old(password))
      ensures accepted ==> loading && error == ""
      ensures accepted && old(isNewUser) ==> writes == RegistrationWrites(old(username), old(password))
      ensures accepted && !old(isNewUser) ==> writes == [StorageWrite(LoggedInKey, "true")]
      ensures !accepted ==> writes == [] && !loading
      ensures !accepted ==> error == if old(isNewUser) then ShortPasswordText else InvalidLoginText
      ensures username == old(username) && password == old(password) && isNewUser == old(isNewUser)
      ensures currentTime == old(currentTime) && currentDate == old(currentDate)
    {
      error := "";
      loading := true;
      writes := [];
      if isNewUser {
        if Utf16Length(password) < MinPasswordLength {
          error := ShortPasswordText;
          loading := false;
          accepted := false;
          return;
        }
        writes := writes + [StorageWrite(UsernameKey, username)];
        writes := writes + [StorageWrite(PasswordKey, password)];
        writes := writes + [StorageWrite(LoggedInKey, "true")];
        accepted := true;
      } else {
        if savedUsername == Some(username) && savedPassword == Some(password) {
          writes := writes + [StorageWrite(LoggedInKey, "true")];
          accepted := true;
        } else {
          error := InvalidLoginText;
          loading := false;
          accepted := false;
        }
      }
    }

    /** The delay after a success: loading ends and the desktop is told to open. */
    method DelayElapsed()
      modifies this
      ensures !loading
      ensures username == old(username) && password == old(password) && isNewUser == old(isNewUser)
      ensures error == old(error) && currentTime == old(currentTime) && currentDate == old(currentDate)
    {
      loading := false;
    }
  }

  /**
   * The length rule counts UTF-16 code units: two emoji make a password of
   * length 4, which registration accepts.
   */
  lemma TwoEmojiPasswordLongEnough()
    ensures var p := "\U{1F600}\U{1F600}"; |p| == 2 && Utf16Length(p) == 4 >= MinPasswordLength
  {
    var p := "\U{1F600}\U{1F600}";
    assert Astral(p[0]) && Astral(p[1]);
  }

  /**
   * Registering and then, on a later visit, signing in with the same
   * credentials is accepted: the stored name is filled in and the password
   * matches what registration stored.
   */
  method RegisterThenSignIn(name: string, secret: string, oldName: Option<string>, oldPassword: Option<string>)
    returns (accepted: bool)
    requires Utf16Length(secret) >= MinPasswordLength && name != ""
    ensures accepted
  {
    var first := new LoginScreen();
    first.Mount(None);
    first.EditCredentials(name, secret);
    var writes, registered := first.HandleSubmit(oldName, oldPassword);
    RegistrationStoresCredentials(name, secret, oldName, oldPassword);
    var storedName := Stored(oldName, writes, UsernameKey);
    var storedPassword := Stored(oldPassword, writes, PasswordKey);

    var second := new LoginScreen();
    second.Mount(storedName);
    second.EditCredentials(second.username, secret);
    var _, signedIn := second.HandleSubmit(storedName, storedPassword);
    accepted := signedIn;
  }
}
