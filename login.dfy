/** The login page: role picker, credentials form and the payload of the login call. */
module Login {
  import opened Common

  /** `{ password }` plus exactly one of `email` / `identifier`. */
  datatype LoginPayload = LoginPayload(password: string, email: Option<string>, identifier: Option<string>)

  /** `handleLogin`'s payload: an input with '@' is an email, anything else an identifier. */
  function BuildPayload(loginInput: string, password: string): (p: LoginPayload)
    ensures p.password == password
    ensures '@' in loginInput ==> p.email == Some(loginInput) && p.identifier == None
    ensures '@' !in loginInput ==> p.identifier == Some(loginInput) && p.email == None
  {
    if '@' in loginInput then LoginPayload(password, Some(loginInput), None)
    else LoginPayload(password, None, Some(loginInput))
  }

  /** The input always travels in exactly one of the two fields, so it can be read back. */
  lemma PayloadCarriesInput(loginInput: string, password: string)
    ensures BuildPayload(loginInput, password).email.Some? != BuildPayload(loginInput, password).identifier.Some?
    ensures var p := BuildPayload(loginInput, password);
            (if p.email.Some? then p.email.value else p.identifier.value) == loginInput
  {
  }

  /** Two attempts with different inputs or passwords never send the same payload. */
  lemma PayloadInjective(a: string, pa: string, b: string, pb: string)
    requires BuildPayload(a, pa) == BuildPayload(b, pb)
    ensures a == b && pa == pb
  {
    PayloadCarriesInput(a, pa);
    PayloadCarriesInput(b, pb);
  }

  class LoginPage {
    /** `null`, "admin" or "user": the two role cards set the last two. */
    var selectedRole: Option<string>
    var loginInput: string
    var password: string
    var loading: bool
    var errorMsg: string

    constructor ()
      ensures selectedRole == None && loginInput == "" && password == "" && !loading && errorMsg == ""
    {
      selectedRole := None;
      loginInput, password := "", "";
      loading := false;
      errorMsg := "";
    }

    /** A role card's click. */
    method SelectRole(role: string)
      modifies this`selectedRole
      ensures selectedRole == Some(role)
    {
      selectedRole := Some(role);
    }

    method EnterLoginInput(text: string)
      modifies this`loginInput
      ensures loginInput == text
    {
      loginInput := text;
    }

    method EnterPassword(text: string)
      modifies this`password
      ensures password == text
    {
      password := text;
    }

    /** "Ganti Peran": back to the role picker, forgetting the password and the error. */
    method ChangeRole()
      modifies this`selectedRole, this`errorMsg, this`password
      ensures selectedRole == None && errorMsg == "" && password == ""
    {
      selectedRole := None;
      errorMsg := "";
      password := "";
    }

    /**
     * `handleLogin`: the error is cleared first, the payload sent, and on failure the error
     * becomes the failure's message; `loading` is off again once the call settles.
     */
    method Login(outcome: Outcome) returns (payload: LoginPayload)
      modifies this`loading, this`errorMsg
      ensures payload == BuildPayload(loginInput, password)
      ensures errorMsg == if outcome.Failed? then outcome.message else ""
      ensures !loading
    {
      loading := true;
      errorMsg := "";
      payload := BuildPayload(loginInput, password);
      if outcome.Failed? {
        errorMsg := outcome.message;
      }
      loading := false;
    }
  }
}
