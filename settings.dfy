/** The settings page (components/Settings.js): reading the signed-in user
    from the `memis-u` cookie, and the password-change form. */
module SettingsView {
  import opened Js
  import Lists
  import Session

  const UserCookiePrefix := "memis-u="
  const PasswordEndpoint := "password-change/"
  const Mismatch := "New passwords do not match"
  const ChangeFallback := "Failed to change password"
  const Changed := "Password changed successfully"

  // ---------------------------------------------------------------------------
  // The user cookie

  function IsUserRow(row: string): bool {
    StartsWith(row, UserCookiePrefix)
  }

  /** `document.cookie.split('; ').find(row => row.startsWith('memis-u='))`. */
  function UserCookieRow(cookie: string): (r: Option<string>)
    ensures r.Some? ==> IsUserRow(r.value)
    ensures r.Some? ==> r.value in Split(cookie, "; ")
    ensures r.None? ==> forall i :: 0 <= i < |Split(cookie, "; ")| ==> !IsUserRow(Split(cookie, "; ")[i])
  {
    var rows := Split(cookie, "; ");
    match Lists.FindIndex(rows, IsUserRow)
    case None => None
    case Some(i) => Some(rows[i])
  }

  /** The row found is the first one that starts with the prefix. */
  lemma UserCookieRowIsFirst(cookie: string)
    requires UserCookieRow(cookie).Some?
    ensures exists i :: (0 <= i < |Split(cookie, "; ")|
      && Split(cookie, "; ")[i] == UserCookieRow(cookie).value
      && forall j :: 0 <= j < i ==> !IsUserRow(Split(cookie, "; ")[j]))
  {
    var rows := Split(cookie, "; ");
    var i := Lists.FindIndex(rows, IsUserRow).value;
    assert rows[i] == UserCookieRow(cookie).value;
  }

  /** `cookie.split('=')[1]`: the text after the first '=', up to the next '='
      or the end of the row. */
  function CookieSegment(row: string): (r: string)
    requires IsUserRow(row)
    ensures var rest := row[|UserCookiePrefix|..];
      r == match IndexOf(rest, "=") case None => rest case Some(k) => rest[..k]
    ensures !Includes(r, "=")
  {
    FirstSeparatorOfUserRow(row);
    SplitHead(row, "=");
    var rest := row[|UserCookiePrefix|..];
    SplitHead(rest, "=");
    SplitHeadHasNoSeparator(rest, "=");
    Split(row, "=")[1]
  }

  /** In a row starting with 'memis-u=', the first '=' is the prefix's own. */
  lemma FirstSeparatorOfUserRow(row: string)
    requires IsUserRow(row)
    ensures IndexOf(row, "=") == Some(|UserCookiePrefix| - 1)
  {
    assert row[..|UserCookiePrefix|] == UserCookiePrefix;
    assert OccursAt(row, "=", 7) by {
      assert row[7..8] == [row[7]];
    }
    forall j | 0 <= j < 7
      ensures !OccursAt(row, "=", j)
    {
      assert row[j..j + 1] == [row[j]];
      assert row[j] == UserCookiePrefix[j];
    }
  }

  /** The first piece of a split has no separator in it. */
  lemma SplitHeadHasNoSeparator(s: string, sep: string)
    requires sep != ""
    ensures !Includes(Split(s, sep)[0], sep)
  {
    SplitHead(s, sep);
    SplitPiecesAreSeparatorFree(s, sep);
  }

  /** A cookie holding only the user row reads back the value it was written with. */
  lemma UserCookieRoundTrip(v: string)
    requires !Includes(v, "=") && !Includes(v, "; ")
    ensures UserCookieRow(UserCookiePrefix + v) == Some(UserCookiePrefix + v)
    ensures CookieSegment(UserCookiePrefix + v) == v
  {
    var row := UserCookiePrefix + v;
    assert row[..|UserCookiePrefix|] == UserCookiePrefix;
    NoSeparatorInUserRow(v);
    SplitHead(row, "; ");
    assert Split(row, "; ") == [row];
    assert row[|UserCookiePrefix|..] == v;
  }

  lemma NoSeparatorInUserRow(v: string)
    requires !Includes(v, "; ")
    ensures IndexOf(UserCookiePrefix + v, "; ").None?
  {
    var row := UserCookiePrefix + v;
    forall j | OccursAt(row, "; ", j)
      ensures false
    {
      assert row[j] == row[j..j + 2][0] == "; "[0] == ';';
      if j >= 8 {
        assert v[j - 8..j - 6] == row[j..j + 2];
        assert OccursAt(v, "; ", j - 8);
        IncludesIff(v, "; ");
      }
    }
  }

  // ---------------------------------------------------------------------------
  // The page

  function EmptyForm(): map<string, string> {
    map["old_password" := "", "new_password" := "", "confirm_password" := ""]
  }

  function Field(form: map<string, string>, key: string): string {
    if key in form then form[key] else ""
  }

  /** The request body: the old and the new password, nothing else. */
  function PasswordPayload(form: map<string, string>): (body: Value)
    ensures body.Obj? && body.fields.Keys == {"old_password", "new_password"}
    ensures body.fields["old_password"] == Str(Field(form, "old_password"))
    ensures body.fields["new_password"] == Str(Field(form, "new_password"))
  {
    Obj(map["old_password" := Str(Field(form, "old_password")),
            "new_password" := Str(Field(form, "new_password"))])
  }

  /** The message an error thrown by `authenticatedRequest` carries; for the
      errors axios raises it is axios's own text, given as `axiosMessage`. */
  function ThrownMessage(e: Session.RequestError, axiosMessage: string): string {
    if e.AuthenticationFailed? then "Authentication failed. Please log in again." else axiosMessage
  }

  class SettingsScreen {
    var userData: Value
    var isLoading: bool
    var formData: map<string, string>
    var error: string
    var successMessage: string
    var showOldPassword: bool
    var showNewPassword: bool
    var showConfirmPassword: bool
    var calls: seq<Session.Call>

    constructor ()
      ensures userData == Null && isLoading && formData == EmptyForm()
      ensures error == "" && successMessage == ""
      ensures !showOldPassword && !showNewPassword && !showConfirmPassword && calls == []
    {
      userData, isLoading, formData := Null, true, EmptyForm();
      error, successMessage := "", "";
      showOldPassword, showNewPassword, showConfirmPassword := false, false, false;
      calls := [];
    }

    /** getUserData: `parse` is decodeURIComponent followed by JSON.parse,
        `None` when either throws. Loading ends on every path. */
    method GetUserData(cookie: string, parse: string -> Option<Value>)
      modifies this`userData, this`isLoading
      ensures !isLoading
      ensures UserCookieRow(cookie).None? ==> userData == old(userData)
      ensures UserCookieRow(cookie).Some? ==>
        var parsed := parse(CookieSegment(UserCookieRow(cookie).value));
        userData == if parsed.Some? then parsed.value else old(userData)
    {
      var row := UserCookieRow(cookie);
      if row.Some? {
        var parsed := parse(CookieSegment(row.value));
        if parsed.Some? {
          userData := parsed.value;
        }
      }
      isLoading := false;
    }

    method HandleInputChange(name: string, value: string)
      modifies this`formData
      ensures formData == old(formData)[name := value]
    {
      formData := formData[name := value];
    }

    /** handleSubmit: mismatched new passwords stop before any request; a
        truthy answer shows the success message and empties the form; a
        thrown error shows its message, or the fallback when it has none. */
    method HandleSubmit(api: Session.Call -> Session.RequestResult, axiosMessage: string)
      returns (sent: Option<Session.Call>)
      modifies this`error, this`successMessage, this`formData, this`calls
      ensures Field(old(formData), "new_password") != Field(old(formData), "confirm_password") ==>
        sent.None? && error == Mismatch && successMessage == ""
        && formData == old(formData) && calls == old(calls)
      ensures Field(old(formData), "new_password") == Field(old(formData), "confirm_password") ==>
        && sent == Some(Session.Call("put", PasswordEndpoint, PasswordPayload(old(formData))))
        && calls == old(calls) + [sent.value]
        && var answer := api(sent.value);
        && (answer.Resolved? ==> successMessage == Changed && error == "" && formData == EmptyForm())
        && (answer.ResolvedUndefined? ==> successMessage == "" && error == "" && formData == old(formData))
        && (answer.Rejected? ==>
              successMessage == "" && formData == old(formData)
              && error == if ThrownMessage(answer.error, axiosMessage) != "" then ThrownMessage(answer.error, axiosMessage)
                          else ChangeFallback)
    {
      error := "";
      successMessage := "";
      if Field(formData, "new_password") != Field(formData, "confirm_password") {
        error := Mismatch;
        return None;
      }
      var call := Session.Call("put", PasswordEndpoint, PasswordPayload(formData));
      calls := calls + [call];
      sent := Some(call);
      var answer := api(call);
      if answer.Resolved? {
        successMessage := Changed;
        formData := EmptyForm();
      } else if answer.Rejected? {
        var message := ThrownMessage(answer.error, axiosMessage);
        error := if message != "" then message else ChangeFallback;
      }
    }

    /** Flips exactly the named visibility flag; any other name changes nothing. */
    method TogglePasswordVisibility(field: string)
      modifies this`showOldPassword, this`showNewPassword, this`showConfirmPassword
      ensures showOldPassword == (if field == "old_password" then !old(showOldPassword) else old(showOldPassword))
      ensures showNewPassword == (if field == "new_password" then !old(showNewPassword) else old(showNewPassword))
      ensures showConfirmPassword ==
        (if field == "confirm_password" then !old(showConfirmPassword) else old(showConfirmPassword))
    {
      if field == "old_password" {
        showOldPassword := !showOldPassword;
      } else if field == "new_password" {
        showNewPassword := !showNewPassword;
      } else if field == "confirm_password" {
        showConfirmPassword := !showConfirmPassword;
      }
    }
  }
}
