/** The earlier single-file front end. Its page providers, binders, header
    rule and profile editor are the same code as the modular one; it
    differs in three ways modelled here: its `showMessage` touches the modal
    without checking that it exists, its `navigateTo` writes into `#app`
    without checking that it exists, and its `logout` also rebuilds the
    header and goes home. */
module Legacy {
  import opened Wrappers
  import Session
  import Pages
  import Navigation

  /** The legacy `navigateTo`: the same routing, guard and fallback as the
      modular router. It demands what it dereferences: the `#app` container,
      and the modal whenever the visit shows a message. */
  method NavigateTo(app: Navigation.AppView, shell: Session.Shell, page: string, net: Navigation.Net)
    requires app.present && shell.Valid()
    requires Navigation.Route(page, shell.currentUser, net).messages != [] ==> shell.hasModal && shell.hasModalMessage
    modifies app`content, app`trace, shell
    ensures shell.Valid() && shell.currentUser == old(shell.currentUser) && shell.nav == old(shell.nav)
    ensures shell.ModalFollowsMessages()
    ensures var v := Navigation.Route(page, old(shell.currentUser), net);
      && app.trace == old(app.trace) + v.ops
      && app.content == Navigation.LastInstalled(v.ops, old(app.content))
      && shell.notices == old(shell.notices) + v.messages
  {
    app.NavigateTo(shell, page, net);
  }

  /** The legacy `logout`: the session is cleared, the logout message shown,
      the header rebuilt for nobody and the home page installed. */
  method Logout(app: Navigation.AppView, shell: Session.Shell, net: Navigation.Net)
    requires app.present && shell.Valid() && shell.hasModal && shell.hasModalMessage
    modifies app`content, app`trace, shell
    ensures shell.Valid() && shell.currentUser == None
    ensures shell.modalVisible && shell.modalText == Session.LoggedOutMessage
    ensures shell.notices == old(shell.notices) + [Session.LoggedOutMessage]
    ensures shell.nav == if shell.hasNav then Session.HeaderItems(None) else old(shell.nav)
    ensures app.content == Navigation.HomeScreen
    ensures app.trace == old(app.trace) + [Navigation.Install(Navigation.Blank), Navigation.Install(Navigation.HomeScreen), Navigation.Bind(Navigation.HomeBinder)]
  {
    shell.SetCurrentUser(None);
    shell.ShowMessage(Session.LoggedOutMessage);
    shell.UpdateHeaderNavigation();
    app.NavigateTo(shell, Pages.Home, net);
  }
}
