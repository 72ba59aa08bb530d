/** The login page: two fields, and a submit handler that guards against empty fields before calling `login`. */
module LoginPage {
  import opened Wrappers
  import opened Navigation
  import opened AuthContext

  const FillAllMessage := "Please fill in all fields"

  class LoginForm {
    var email: string
    var password: string
    var error: string
    var loading: bool

    constructor ()
      ensures email == "" && password == "" && error == "" && !loading
    {
      email, password, error, loading := "", "", "", false;
    }

    method SetEmail(value: string)
      modifies this
      ensures email == value && password == old(password) && error == old(error) && loading == old(loading)
    {
      email := value;
    }

    method SetPassword(value: string)
      modifies this
      ensures password == value && email == old(email) && error == old(error) && loading == old(loading)
    {
      password := value;
    }

    /** The part of `handleSubmit` before the `login` call: clear the error, refuse empty fields, start loading. */
    method BeginSubmit() returns (proceed: bool)
      modifies this
      ensures email == old(email) && password == old(password)
      ensures proceed <==> email != "" && password != ""
      ensures proceed ==> error == "" && loading
      ensures !proceed ==> error == FillAllMessage && loading == old(loading)
    {
      error := "";
      if email == "" || password == "" {
        error := FillAllMessage;
        proceed := false;
        return;
      }
      loading := true;
      proceed := true;
    }

    /** The part of `handleSubmit` after `login` returned: stop loading, then go to the chat or show the error. */
    method CompleteSubmit(result: AuthResult) returns (navigation: Option<Navigation>)
      modifies this
      ensures email == old(email) && password == old(password) && !loading
      ensures result.Succeeded? ==> navigation == Some(Navigate("/chat", None)) && error == old(error)
      ensures result.Failed? ==> navigation.None? && error == result.error
    {
      loading := false;
      if result.Succeeded? {
        navigation := Some(Navigate("/chat", None));
      } else {
        error := result.error;
        navigation := None;
      }
    }

    /**
     * `handleSubmit` as a whole, against the session `auth` and the login
     * endpoint's `reply`: with a field empty the session is untouched;
     * otherwise the session makes the `login` transition and the page goes
     * to the chat exactly when it succeeded.
     */
    method Submit(auth: AuthProvider, reply: LoginReply, decode: string -> Option<Claims>)
      returns (navigation: Option<Navigation>)
      modifies this, auth
      ensures email == old(email) && password == old(password)
      ensures (old(email) == "" || old(password) == "") ==>
        navigation.None? && error == FillAllMessage && loading == old(loading) && auth.State() == old(auth.State())
      ensures (old(email) != "" && old(password) != "") ==>
        var (session, result) := AfterLogin(old(auth.State()), reply, decode);
        auth.State() == session && !loading
        && (result.Succeeded? ==> navigation == Some(Navigate("/chat", None)) && error == "")
        && (result.Failed? ==> navigation.None? && error == result.error)
    {
      var proceed := BeginSubmit();
      if !proceed {
        navigation := None;
        return;
      }
      var result := auth.Login(email, password, reply, decode);
      navigation := CompleteSubmit(result);
    }
  }
}
