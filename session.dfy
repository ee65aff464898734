/** The shared client state of the front end: the logged-in principal, the
    message modal and the header navigation list. */
module Session {
  import opened Wrappers
  import Pages

  /** JavaScript truthiness of the session variable: `null` and `''` both
      count as "nobody is logged in". */
  predicate LoggedIn(user: Option<string>): (b: bool)
    ensures b <==> user != None && user != Some("")
  {
    user.Some? && user.value != ""
  }

  /** One header link: its text and the page its click navigates to. */
  datatype NavItem = NavItem(text: string, target: string)

  const HomeItem := NavItem("Home", Pages.Home)
  const JobsItem := NavItem("Apply for Jobs", Pages.ApplyJobs)
  const ProfileItem := NavItem("Profile", Pages.Profile)
  const LoginItem := NavItem("Login/Sign Up", Pages.LoginSignup)

  /** The header list derived from the session alone. */
  function HeaderItems(user: Option<string>): (r: seq<NavItem>)
    ensures |r| == 3 && r[0] == HomeItem && r[1] == JobsItem
    ensures ProfileItem in r <==> LoggedIn(user)
    ensures LoginItem in r <==> !LoggedIn(user)
    ensures forall i :: 0 <= i < |r| ==> Pages.Known(r[i].target)
  {
    [HomeItem, JobsItem, if LoggedIn(user) then ProfileItem else LoginItem]
  }

  const LoggedOutMessage := "You have been logged out."

  class Shell {
    /** The module variable `currentUser`. */
    var currentUser: Option<string>
    /** Whether the page has `#messageModal`, `#modalMessage` and `header nav ul`. */
    const hasModal: bool
    const hasModalMessage: bool
    const hasNav: bool
    var modalVisible: bool
    var modalText: string
    var nav: seq<NavItem>
    /** Every message passed to `showMessage`, oldest first. */
    ghost var notices: seq<string>

    /** The modal is only ever shown when it exists, and it shows the last
        message whenever it can show messages at all. */
    ghost predicate Valid()
      reads this
    {
      && (modalVisible ==> hasModal)
      && (hasModal && hasModalMessage && |notices| > 0 ==> modalText == notices[|notices| - 1])
    }

    /** What a handler that never closes the modal leaves it as: visible if
        it was, and visible once it showed a message with both elements
        present; otherwise as it was. */
    twostate predicate ModalFollowsMessages()
      reads this
    {
      modalVisible == (old(modalVisible) || (hasModal && hasModalMessage && |notices| > |old(notices)|))
    }

    constructor (hasModal: bool, hasModalMessage: bool, hasNav: bool)
      ensures Valid()
      ensures this.hasModal == hasModal && this.hasModalMessage == hasModalMessage && this.hasNav == hasNav
      ensures currentUser == None && !modalVisible && modalText == "" && nav == [] && notices == []
    {
      this.hasModal, this.hasModalMessage, this.hasNav := hasModal, hasModalMessage, hasNav;
      currentUser, modalVisible, modalText, nav, notices := None, false, "", [], [];
    }

    method SetCurrentUser(email: Option<string>)
      modifies this`currentUser
      ensures currentUser == email
    {
      currentUser := email;
    }

    /** Puts `message` in the modal and shows it; a page without the modal
        only reports the problem on the console. */
    method ShowMessage(message: string)
      requires Valid()
      modifies this`modalText, this`modalVisible, this`notices
      ensures Valid() && notices == old(notices) + [message] && ModalFollowsMessages()
      ensures hasModal && hasModalMessage ==> modalText == message && modalVisible
      ensures !(hasModal && hasModalMessage) ==> modalText == old(modalText) && modalVisible == old(modalVisible)
    {
      if hasModal && hasModalMessage {
        modalText := message;
        modalVisible := true;
      }
      notices := notices + [message];
    }

    /** Hides the modal and leaves its text alone. */
    method CloseModal()
      requires Valid()
      modifies this`modalVisible
      ensures Valid()
      ensures modalVisible == (if hasModal then false else old(modalVisible))
    {
      if hasModal {
        modalVisible := false;
      }
    }

    /** The header is rebuilt from empty, one item at a time, so it ends up a
        function of the session and not of what it showed before. */
    method UpdateHeaderNavigation()
      modifies this`nav
      ensures nav == if hasNav then HeaderItems(currentUser) else old(nav)
    {
      if !hasNav {
        return;
      }
      nav := [];
      nav := nav + [HomeItem];
      nav := nav + [JobsItem];
      if LoggedIn(currentUser) {
        nav := nav + [ProfileItem];
      } else {
        nav := nav + [LoginItem];
      }
    }

    /** The modular `logout`: the caller refreshes the header and navigates. */
    method Logout()
      requires Valid()
      modifies this`currentUser, this`modalText, this`modalVisible, this`notices
      ensures Valid() && currentUser == None
      ensures notices == old(notices) + [LoggedOutMessage]
      ensures hasModal && hasModalMessage ==> modalText == LoggedOutMessage && modalVisible
      ensures !(hasModal && hasModalMessage) ==> modalText == old(modalText) && modalVisible == old(modalVisible)
    {
      SetCurrentUser(None);
      ShowMessage(LoggedOutMessage);
    }
  }
}
