/** The login / sign-up page: which of its two forms is shown, the local
    password confirmation, and what the two submissions do to the session. */
module Auth {
  import opened Wrappers
  import Session
  import Pages

  /** The body of `/login` and `/signup` as the page sends it. */
  datatype Credentials = Credentials(email: string, password: string)

  const LoginOkMessage := "Login successful! Redirecting to profile..."
  const ConnMessage := "Failed to connect to the server. Please try again later."
  const MismatchMessage := "Passwords do not match. Please try again."

  /** The rendered page with its listeners. Both form containers are part of
      the page's own markup, so the binder always finds them. */
  class AuthPage {
    var loginVisible: bool
    var signupVisible: bool
    var loginEmail: string
    var loginPassword: string
    var signupEmail: string
    var signupPassword: string
    var confirmPassword: string

    /** Exactly one of the two forms is on screen. */
    predicate OneFormShown()
      reads this
    {
      loginVisible != signupVisible
    }

    /** A freshly rendered page: the login form is shown and the sign-up form
        is hidden, every input empty. */
    constructor ()
      ensures OneFormShown() && loginVisible && !signupVisible
      ensures loginEmail == "" && loginPassword == ""
      ensures signupEmail == "" && signupPassword == "" && confirmPassword == ""
    {
      loginVisible, signupVisible := true, false;
      loginEmail, loginPassword := "", "";
      signupEmail, signupPassword, confirmPassword := "", "", "";
    }

    /** The "Sign Up" link. Showing it twice is showing it once: the result
        does not depend on which form was shown before. */
    method ShowSignUpForm()
      modifies this`loginVisible, this`signupVisible
      ensures OneFormShown() && signupVisible && !loginVisible
    {
      loginVisible := false;
      signupVisible := true;
    }

    /** The "Login" link. */
    method ShowLoginForm()
      modifies this`loginVisible, this`signupVisible
      ensures OneFormShown() && loginVisible && !signupVisible
    {
      loginVisible := true;
      signupVisible := false;
    }

    /** Typing into the login form. */
    method FillLogin(email: string, password: string)
      modifies this`loginEmail, this`loginPassword
      ensures loginEmail == email && loginPassword == password
    {
      loginEmail, loginPassword := email, password;
    }

    /** Typing into the sign-up form. */
    method FillSignup(email: string, password: string, confirm: string)
      modifies this`signupEmail, this`signupPassword, this`confirmPassword
      ensures signupEmail == email && signupPassword == password && confirmPassword == confirm
    {
      signupEmail, signupPassword, confirmPassword := email, password, confirm;
    }

    /** Submitting the login form; `reply` is what `/login` answers, its body
        the email the server returns. An ok reply makes that email the session,
        rebuilds the header and schedules the profile page (returned as `next`);
        any failure only shows a message and leaves the session alone. */
    method SubmitLogin(shell: Session.Shell, reply: Response<string>) returns (sent: Credentials, next: Option<string>)
      requires shell.Valid()
      modifies shell
      ensures shell.Valid() && shell.ModalFollowsMessages()
      ensures sent == Credentials(loginEmail, loginPassword)
      ensures reply.Ok? ==>
        && shell.currentUser == Some(reply.body) && next == Some(Pages.Profile)
        && shell.notices == old(shell.notices) + [LoginOkMessage]
        && shell.nav == if shell.hasNav then Session.HeaderItems(Some(reply.body)) else old(shell.nav)
      ensures reply.Err? ==>
        && shell.currentUser == old(shell.currentUser) && next == None && shell.nav == old(shell.nav)
        && shell.notices == old(shell.notices) + ["Login failed: " + reply.message]
      ensures reply.ConnFail? ==>
        && shell.currentUser == old(shell.currentUser) && next == None && shell.nav == old(shell.nav)
        && shell.notices == old(shell.notices) + [ConnMessage]
    {
      sent := Credentials(loginEmail, loginPassword);
      next := None;
      match reply {
        case Ok(email) =>
          shell.SetCurrentUser(Some(email));
          shell.ShowMessage(LoginOkMessage);
          shell.UpdateHeaderNavigation();
          next := Some(Pages.Profile);
        case Err(message) =>
          shell.ShowMessage("Login failed: " + message);
        case ConnFail =>
          shell.ShowMessage(ConnMessage);
      }
    }

    /** Submitting the sign-up form; `reply` is what `/signup` answers when a
        request is sent. A password that differs from its confirmation is
        refused on the spot and nothing is sent. An ok reply clears the form
        and switches to the login form; the session is never touched. */
    method SubmitSignup(shell: Session.Shell, reply: Response<string>) returns (sent: Option<Credentials>)
      requires shell.Valid() && OneFormShown()
      modifies this, shell
      ensures shell.Valid() && OneFormShown() && shell.ModalFollowsMessages()
      ensures shell.currentUser == old(shell.currentUser) && shell.nav == old(shell.nav)
      ensures loginEmail == old(loginEmail) && loginPassword == old(loginPassword)
      ensures old(signupPassword) != old(confirmPassword) ==>
        && sent == None && shell.notices == old(shell.notices) + [MismatchMessage]
        && unchanged(this)
      ensures old(signupPassword) == old(confirmPassword) ==>
        sent == Some(Credentials(old(signupEmail), old(signupPassword)))
      ensures old(signupPassword) == old(confirmPassword) && reply.Ok? ==>
        && shell.notices == old(shell.notices) + [reply.body + " You can now log in."]
        && signupEmail == "" && signupPassword == "" && confirmPassword == ""
        && loginVisible && !signupVisible
      ensures old(signupPassword) == old(confirmPassword) && reply.Err? ==>
        && shell.notices == old(shell.notices) + ["Sign up failed: " + reply.message]
        && unchanged(this)
      ensures old(signupPassword) == old(confirmPassword) && reply.ConnFail? ==>
        && shell.notices == old(shell.notices) + [ConnMessage]
        && unchanged(this)
    {
      if signupPassword != confirmPassword {
        shell.ShowMessage(MismatchMessage);
        return None;
      }
      sent := Some(Credentials(signupEmail, signupPassword));
      match reply {
        case Ok(message) =>
          shell.ShowMessage(message + " You can now log in.");
          signupEmail, signupPassword, confirmPassword := "", "", "";
          ShowLoginForm();
        case Err(message) =>
          shell.ShowMessage("Sign up failed: " + message);
        case ConnFail =>
          shell.ShowMessage(ConnMessage);
      }
    }
  }
}
