/**
 * The create/edit user form (src/app/dashboard/users/components/UserForm.tsx):
 * how the form is reset from the user being edited, and how the validated
 * values are shaped into the request. The schema validation that runs
 * before `onSubmit` is not part of this model; `onSubmit` receives values
 * that passed it.
 */
module UserForm {
  import opened Wrappers
  import opened Types
  import Text

  /** The form's values; `storeId` is the select's string and may be absent. */
  datatype UserFormData = UserFormData(
    username: string,
    fullName: string,
    email: string,
    password: string,
    role: Role,
    storeId: Option<string>)

  const NoStore: string := "none"

  const DefaultValues: UserFormData := UserFormData("", "", "", "", CASHIER, Some(NoStore))

  /**
   * The effect on `initialData`: an edited user fills the form, with
   * `email || ""`, an empty password and `storeId?.toString() ?? "none"`;
   * without one the form goes back to its defaults.
   */
  function ResetValues(initialData: Option<User>): (v: UserFormData)
    ensures initialData.None? ==> v == DefaultValues
    ensures initialData.Some? ==>
      && v.username == initialData.value.username && v.fullName == initialData.value.fullName
      && v.email == initialData.value.email.GetOr("") && v.password == "" && v.role == initialData.value.role
      && v.storeId == Some(if initialData.value.storeId.Some? then Text.IntToString(initialData.value.storeId.value) else NoStore)
  {
    if initialData.Some? then
      var u := initialData.value;
      UserFormData(u.username, u.fullName,
                   if u.email.Some? && u.email.value != "" then u.email.value else "",
                   "", u.role,
                   Some(if u.storeId.Some? then Text.IntToString(u.storeId.value) else NoStore))
    else DefaultValues
  }

  /**
   * `(values.storeId && values.storeId !== "none") ? parseInt(values.storeId, 10) : null`.
   * A string that does not parse gives NaN, which is sent as `null`.
   */
  function StoreIdOf(storeId: Option<string>): (r: Option<int>)
    ensures storeId == None || storeId == Some("") || storeId == Some(NoStore) ==> r == None
    ensures storeId.Some? && storeId.value != "" && storeId.value != NoStore ==> r == Text.ParseInt(storeId.value)
  {
    if storeId.Some? && storeId.value != "" && storeId.value != NoStore then Text.ParseInt(storeId.value) else None
  }

  /** The request body; `password == None` means the key was deleted. */
  datatype UserSubmission = UserSubmission(
    username: string,
    fullName: string,
    email: string,
    password: Option<string>,
    role: Role,
    storeId: Option<int>)

  /**
   * The body `onSubmit` sends: the values as they are, except that an edit
   * with an empty password drops the password and `storeId` becomes a
   * number or `null`.
   */
  function SubmissionOf(values: UserFormData, initialData: Option<User>): (s: UserSubmission)
    ensures s.username == values.username && s.fullName == values.fullName
    ensures s.email == values.email && s.role == values.role
    ensures s.password == None <==> initialData.Some? && values.password == ""
    ensures s.password.Some? ==> s.password.value == values.password
    ensures s.storeId == StoreIdOf(values.storeId)
  {
    UserSubmission(values.username, values.fullName, values.email,
                   if initialData.Some? && values.password == "" then None else Some(values.password),
                   values.role, StoreIdOf(values.storeId))
  }

  const UsersPath: string := "/users"

  /** `` `/users/${id}` ``. */
  function UserPath(id: int): string {
    ItemPath(UsersPath, id)
  }

  datatype Request =
    | Patch(path: string, body: UserSubmission)
    | Post(path: string, body: UserSubmission)

  /** An edit goes to PATCH /users/<id>, a creation to POST /users. */
  function RequestFor(initialData: Option<User>, body: UserSubmission): (r: Request)
    ensures initialData.Some? <==> r.Patch?
    ensures r.body == body
    ensures r.Post? ==> r.path == UsersPath
    ensures r.Patch? ==> r.path == UserPath(initialData.value.id)
  {
    if initialData.Some? then Patch(UserPath(initialData.value.id), body) else Post(UsersPath, body)
  }


  /**
   * Editing a user and submitting the form untouched sends the user's own
   * fields back, with no password and the same store.
   */
  lemma UntouchedEditRoundTrip(u: User)
    ensures SubmissionOf(ResetValues(Some(u)), Some(u)) ==
      UserSubmission(u.username, u.fullName, u.email.GetOr(""), None, u.role, u.storeId)
  {
    var v := ResetValues(Some(u));
    StoreRoundTrip(u.storeId);
    assert StoreIdOf(v.storeId) == u.storeId;
  }

  /** The store select's string for a store id converts back to that id. */
  lemma StoreRoundTrip(storeId: Option<int>)
    ensures StoreIdOf(Some(if storeId.Some? then Text.IntToString(storeId.value) else NoStore)) == storeId
  {
    if storeId.Some? {
      var t := Text.IntToString(storeId.value);
      Text.ParseIntToString(storeId.value);
      assert t != NoStore by {
        assert NoStore[0] == 'n';
      }
    }
  }

  /** The server's answer to the request. */
  datatype Response = Accepted | Rejected(status: Option<int>, message: ServerMessage)

  const PasswordRequired: string := "Password is required for new users."
  const UsernameTaken: string := "Username already exists."
  const UpdatedAlert: string := "User updated successfully!"
  const CreatedAlert: string := "User created successfully!"
  const ErrorPrefix: string := "Error: "
  const DefaultError: string := "Failed to save user."

  class UserFormState {
    var values: UserFormData
    var passwordError: Option<string>
    var usernameError: Option<string>

    constructor ()
      ensures values == DefaultValues && passwordError == None && usernameError == None
    {
      values := DefaultValues;
      passwordError := None;
      usernameError := None;
    }

    /** The reset effect; `form.reset` also clears the field errors. */
    method Reset(initialData: Option<User>)
      modifies this
      ensures values == ResetValues(initialData) && passwordError == None && usernameError == None
    {
      values := ResetValues(initialData);
      passwordError := None;
      usernameError := None;
    }

    /**
     * `onSubmit`. Creating without a password only sets the password error.
     * Otherwise the shaped body is sent; success alerts and calls
     * `onSuccess`; a 409 sets the username error, any other failure alerts.
     */
    method OnSubmit(initialData: Option<User>, response: Response)
      returns (request: Option<Request>, alertText: Option<string>, successCalled: bool)
      modifies this
      ensures values == old(values)
      ensures initialData.None? && values.password == "" ==>
        && request == None && alertText == None && !successCalled
        && passwordError == Some(PasswordRequired) && usernameError == old(usernameError)
      ensures !(initialData.None? && values.password == "") ==>
        && request == Some(RequestFor(initialData, SubmissionOf(values, initialData)))
        && passwordError == old(passwordError)
        && (successCalled <==> response.Accepted?)
        && (response.Accepted? ==>
              alertText == Some(if initialData.Some? then UpdatedAlert else CreatedAlert)
              && usernameError == old(usernameError))
        && (response.Rejected? && response.status == Some(409) ==>
              alertText == None && usernameError == Some(UsernameTaken))
        && (response.Rejected? && response.status != Some(409) ==>
              alertText == Some(ErrorPrefix + MessageText(response.message, DefaultError, TemplateSeparator))
              && usernameError == old(usernameError))
    {
      if initialData.None? && values.password == "" {
        passwordError := Some(PasswordRequired);
        return None, None, false;
      }
      var submissionData := UserSubmission(values.username, values.fullName, values.email,
                                           Some(values.password), values.role, None);
      if initialData.Some? && values.password == "" {
        submissionData := submissionData.(password := None);
      }
      submissionData := submissionData.(storeId := StoreIdOf(values.storeId));
      if initialData.Some? {
        request := Some(Patch(UserPath(initialData.value.id), submissionData));
      } else {
        request := Some(Post(UsersPath, submissionData));
      }
      successCalled := false;
      alertText := None;
      if response.Accepted? {
        alertText := Some(if initialData.Some? then UpdatedAlert else CreatedAlert);
        successCalled := true;
      } else if response.status == Some(409) {
        usernameError := Some(UsernameTaken);
      } else {
        alertText := Some(ErrorPrefix + MessageText(response.message, DefaultError, TemplateSeparator));
      }
    }
  }
}
