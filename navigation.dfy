/** `navigateTo`: the single-page router. It clears the `#app` container,
    may show a loading placeholder, picks one content provider and one
    listener binder by page id, guards the profile page behind the session
    and falls back to "Page not found." for any other id. */
module Navigation {
  import opened Wrappers
  import Session
  import Pages
  import Jobs
  import Store
  import Profile

  /** The listener-setup function a page installs. */
  datatype Binder = HomeBinder | JobsBinder | AuthBinder | ProfileBinder

  /** What `#app` holds. */
  datatype Content =
    | Blank
    | LoadingScreen(caption: string)
    | HomeScreen
    | JobsScreen(buttons: seq<Jobs.ButtonView>)
    | AuthScreen
    | ProfileScreen(page: Profile.ProfileContent)
    | NotFoundScreen

  /** One effect of the router on the page: content written into `#app`, or
      a binder run over it. */
  datatype Op = Install(content: Content) | Bind(binder: Binder)

  /** What the providers' fetches answer during one navigation. */
  datatype Net = Net(profileFetch: Response<Store.Profile>, jobsFetch: Response<seq<Jobs.Job>>)

  /** One navigation: its effects on `#app`, in order, and the messages shown. */
  datatype Visit = Visit(ops: seq<Op>, messages: seq<string>)

  const ProfileLabel := "profile"
  const JobsLabel := "job listings"
  const ProfileLoginMessage := "Please log in to view your profile."

  /** The binder belonging to each content a provider yields. */
  predicate Provides(c: Content, b: Binder) {
    match b
    case HomeBinder => c == HomeScreen
    case JobsBinder => c.JobsScreen?
    case AuthBinder => c == AuthScreen
    case ProfileBinder => c.ProfileScreen?
  }

  /** The page that actually ends up on screen: the profile guard sends a
      visitor without a session to the login page. */
  function Landing(page: string, user: Option<string>): string {
    if page == Pages.Profile && !Session.LoggedIn(user) then Pages.LoginSignup else page
  }

  function BinderOf(page: string): Option<Binder> {
    if page == Pages.Home then Some(HomeBinder)
    else if page == Pages.ApplyJobs then Some(JobsBinder)
    else if page == Pages.LoginSignup then Some(AuthBinder)
    else if page == Pages.Profile then Some(ProfileBinder)
    else None
  }

  predicate IsLoading(op: Op) {
    op.Install? && op.content.LoadingScreen?
  }

  /** The content `#app` is left with: the last one installed. */
  function LastInstalled(ops: seq<Op>, before: Content): Content {
    if ops == [] then before
    else if ops[|ops| - 1].Install? then ops[|ops| - 1].content
    else LastInstalled(ops[..|ops| - 1], before)
  }

  /** The loading placeholder, for the two pages whose provider fetches. */
  function LoadingOps(page: string, user: Option<string>): (r: seq<Op>)
    ensures |r| <= 1
    ensures r != [] <==> (page == Pages.Profile && Session.LoggedIn(user)) || page == Pages.ApplyJobs
    ensures forall k :: 0 <= k < |r| ==> IsLoading(r[k])
  {
    if (page == Pages.Profile && Session.LoggedIn(user)) || page == Pages.ApplyJobs
    then [Install(LoadingScreen(if page == Pages.Profile then ProfileLabel else JobsLabel))]
    else []
  }

  /** `navigateTo(page)` with the session `user`, when `#app` exists: the
      container is cleared, the placeholder may follow, then the `switch`. */
  function Route(page: string, user: Option<string>, net: Net): (v: Visit)
    ensures |v.ops| >= 2 && v.ops[0] == Install(Blank)
    decreases if page == Pages.Profile then 1 else 0, 1
  {
    var body := Dispatch(page, user, net);
    Visit([Install(Blank)] + LoadingOps(page, user) + body.ops, body.messages)
  }

  /** The profile guard: a visit without a session becomes a login visit. */
  lemma RouteGuard(user: Option<string>, net: Net)
    requires !Session.LoggedIn(user)
    ensures Route(Pages.Profile, user, net) == Visit([Install(Blank), Install(Blank), Install(AuthScreen), Bind(AuthBinder)], [ProfileLoginMessage])
  {
    assert Route(Pages.LoginSignup, user, net) == Visit([Install(Blank), Install(AuthScreen), Bind(AuthBinder)], []);
  }

  /** Past the guard, a visit is the clear, the placeholder and the switch. */
  lemma RouteUnguarded(page: string, user: Option<string>, net: Net)
    requires !(page == Pages.Profile && !Session.LoggedIn(user))
    ensures var d := Dispatch(page, user, net);
      Route(page, user, net) == Visit([Install(Blank)] + LoadingOps(page, user) + d.ops, d.messages)
      && (Pages.Known(page) ==> |d.ops| == 2 && d.ops[0].Install? && Provides(d.ops[0].content, BinderOf(page).value) && d.ops[1] == Bind(BinderOf(page).value))
      && (!Pages.Known(page) ==> d == Visit([Install(NotFoundScreen)], []))
  {
  }

  /** What one navigation does. The placeholder appears exactly for a
      profile visit with a session and for the job listing, labelled after
      the page. Every known page installs its provider's content and then
      calls its binder once, last; a profile visit without a session shows
      the login prompt and becomes a login visit; an unknown id installs the
      not-found paragraph and no binder. */
  lemma {:induction false} RouteFacts(page: string, user: Option<string>, net: Net)
    ensures var v := Route(page, user, net);
      && ((page == Pages.Profile && Session.LoggedIn(user)) || page == Pages.ApplyJobs ==>
           v.ops[1] == Install(LoadingScreen(if page == Pages.Profile then ProfileLabel else JobsLabel)))
      && ((exists i :: 0 <= i < |v.ops| && IsLoading(v.ops[i])) <==>
           (page == Pages.Profile && Session.LoggedIn(user)) || page == Pages.ApplyJobs)
      && (Pages.Known(page) ==>
           && BinderOf(Landing(page, user)).Some?
           && v.ops[|v.ops| - 1] == Bind(BinderOf(Landing(page, user)).value)
           && v.ops[|v.ops| - 2].Install? && Provides(v.ops[|v.ops| - 2].content, BinderOf(Landing(page, user)).value)
           && forall i :: 0 <= i < |v.ops| - 1 ==> v.ops[i].Install?)
      && (!Pages.Known(page) ==> v == Visit([Install(Blank), Install(NotFoundScreen)], []))
      && (page == Pages.Profile && !Session.LoggedIn(user) ==>
           v == Visit([Install(Blank), Install(Blank), Install(AuthScreen), Bind(AuthBinder)], [ProfileLoginMessage]))
      && (page == Pages.Profile && Session.LoggedIn(user) ==>
           var r := Profile.ProfilePage(user, net.profileFetch);
           v.ops[|v.ops| - 2] == Install(ProfileScreen(r.page)) && v.messages == r.messages)
      && (page == Pages.ApplyJobs ==>
           var r := Jobs.ApplyJobsPage(user, net.profileFetch, net.jobsFetch);
           v.ops[|v.ops| - 2] == Install(JobsScreen(r.page)) && v.messages == r.messages)
  {
    var v := Route(page, user, net);
    if page == Pages.Profile && !Session.LoggedIn(user) {
      RouteGuard(user, net);
      assert !IsLoading(v.ops[0]) && !IsLoading(v.ops[1]) && !IsLoading(v.ops[2]) && !IsLoading(v.ops[3]);
    } else {
      RouteUnguarded(page, user, net);
      var d := Dispatch(page, user, net);
      var pre := [Install(Blank)] + LoadingOps(page, user);
      assert v.ops == pre + d.ops;
      if pre == [Install(Blank)] {
        assert forall i :: 0 <= i < |v.ops| ==> IsLoading(v.ops[i]) ==> i > 0 && v.ops[i] == d.ops[i - 1];
      }
    }
  }

  /** The `switch` of `navigateTo`: the provider's content and the binder,
      or the profile guard's redirect. */
  function Dispatch(page: string, user: Option<string>, net: Net): (v: Visit)
    ensures Pages.Known(page) && !(page == Pages.Profile && !Session.LoggedIn(user)) ==>
      |v.ops| == 2 && v.ops[0].Install? && Provides(v.ops[0].content, BinderOf(page).value) && v.ops[1] == Bind(BinderOf(page).value)
    ensures page == Pages.Profile && !Session.LoggedIn(user) ==>
      v.messages != [] && v.messages[0] == ProfileLoginMessage
    ensures !Pages.Known(page) ==> v == Visit([Install(NotFoundScreen)], [])
    decreases if page == Pages.Profile then 1 else 0, 0
  {
    if page == Pages.Home then Visit([Install(HomeScreen), Bind(HomeBinder)], [])
    else if page == Pages.ApplyJobs then
      var r := Jobs.ApplyJobsPage(user, net.profileFetch, net.jobsFetch);
      Visit([Install(JobsScreen(r.page)), Bind(JobsBinder)], r.messages)
    else if page == Pages.LoginSignup then Visit([Install(AuthScreen), Bind(AuthBinder)], [])
    else if page == Pages.Profile then
      if !Session.LoggedIn(user) then
        var v := Route(Pages.LoginSignup, user, net);
        Visit(v.ops, [ProfileLoginMessage] + v.messages)
      else
        var r := Profile.ProfilePage(user, net.profileFetch);
        Visit([Install(ProfileScreen(r.page)), Bind(ProfileBinder)], r.messages)
    else Visit([Install(NotFoundScreen)], [])
  }

  /** Whatever was on screen before, a known page leaves `#app` holding the
      content of the page it lands on, with that page's binder run last. */
  lemma {:induction false} RouteLandsOnPage(page: string, user: Option<string>, net: Net, before: Content)
    requires Pages.Known(page)
    ensures var v := Route(page, user, net);
      Provides(LastInstalled(v.ops, before), BinderOf(Landing(page, user)).value)
  {
    RouteFacts(page, user, net);
    var v := Route(page, user, net);
    var ops := v.ops;
    assert ops[..|ops| - 1][|ops| - 2] == ops[|ops| - 2];
  }

  lemma {:induction false} LastInstalledAppend(a: seq<Op>, b: seq<Op>, before: Content)
    ensures LastInstalled(a + b, before) == LastInstalled(b, LastInstalled(a, before))
    decreases |b|
  {
    if b != [] {
      assert (a + b)[|a + b| - 1] == b[|b| - 1];
      assert (a + b)[..|a + b| - 1] == a + b[..|b| - 1];
      LastInstalledAppend(a, b[..|b| - 1], before);
    } else {
      assert a + b == a;
    }
  }

  /** The `#app` container and the effects the router has had on it. */
  class AppView {
    /** Whether the page has an element with id `app`. */
    const present: bool
    var content: Content
    /** Every write into `#app` and every binder run, oldest first. */
    ghost var trace: seq<Op>

    constructor (present: bool)
      ensures this.present == present && content == Blank && trace == []
    {
      this.present := present;
      content := Blank;
      trace := [];
    }

    /** `app.innerHTML = c`. */
    method Install(c: Content)
      modifies this`content, this`trace
      ensures content == c && trace == old(trace) + [Op.Install(c)]
    {
      content := c;
      trace := trace + [Op.Install(c)];
    }

    /** Calling the page's listener-setup function. */
    method RunBinder(b: Binder)
      modifies this`trace
      ensures trace == old(trace) + [Bind(b)]
    {
      trace := trace + [Bind(b)];
    }

    /** `navigateTo(page)`; `net` is what the providers' fetches answer.
        Without `#app` it does nothing; otherwise its effects are those of
        `Route` and the session and header are left alone. */
    method NavigateTo(shell: Session.Shell, page: string, net: Net)
      requires shell.Valid()
      modifies this`content, this`trace, shell
      ensures shell.Valid() && shell.currentUser == old(shell.currentUser) && shell.nav == old(shell.nav)
      ensures shell.ModalFollowsMessages()
      ensures !present ==> content == old(content) && trace == old(trace) && unchanged(shell)
      ensures present ==>
        var v := Route(page, old(shell.currentUser), net);
        && trace == old(trace) + v.ops
        && content == LastInstalled(v.ops, old(content))
        && shell.notices == old(shell.notices) + v.messages
      decreases if page == Pages.Profile then 1 else 0, 1
    {
      if !present {
        return;
      }
      ghost var before, user := content, shell.currentUser;
      ghost var pre := [Op.Install(Blank)] + LoadingOps(page, user);
      ClearAndShowLoading(page, shell.currentUser);
      RunSwitch(shell, page, net);
      ghost var body := Dispatch(page, user, net);
      LastInstalledAppend(pre, body.ops, before);
      assert Route(page, user, net) == Visit(pre + body.ops, body.messages);
    }

    /** Clearing `#app` and the loading placeholder. */
    method ClearAndShowLoading(page: string, user: Option<string>)
      modifies this`content, this`trace
      ensures var pre := [Op.Install(Blank)] + LoadingOps(page, user);
        trace == old(trace) + pre && content == LastInstalled(pre, old(content))
    {
      Install(Blank);
      if (page == Pages.Profile && Session.LoggedIn(user)) || page == Pages.ApplyJobs {
        Install(LoadingScreen(if page == Pages.Profile then ProfileLabel else JobsLabel));
      }
    }

    /** The `switch` and what follows it. */
    method RunSwitch(shell: Session.Shell, page: string, net: Net)
      requires present && shell.Valid()
      modifies this`content, this`trace, shell
      ensures shell.Valid() && shell.currentUser == old(shell.currentUser) && shell.nav == old(shell.nav)
      ensures shell.ModalFollowsMessages()
      ensures var v := Dispatch(page, old(shell.currentUser), net);
        && trace == old(trace) + v.ops
        && content == LastInstalled(v.ops, old(content))
        && shell.notices == old(shell.notices) + v.messages
      decreases if page == Pages.Profile then 1 else 0, 0
    {
      if page == Pages.Profile && !Session.LoggedIn(shell.currentUser) {
        RedirectToLogin(shell, net);
      } else if page == Pages.ApplyJobs || page == Pages.Profile {
        ShowFetched(shell, page, net);
      } else {
        var pageContent := if page == Pages.Home then HomeScreen
          else if page == Pages.LoginSignup then AuthScreen
          else NotFoundScreen;
        InstallAndBind(pageContent, BinderOf(page));
      }
    }

    /** The profile case without a session: the prompt, then the login page. */
    method RedirectToLogin(shell: Session.Shell, net: Net)
      requires present && shell.Valid() && !Session.LoggedIn(shell.currentUser)
      modifies this`content, this`trace, shell
      ensures shell.Valid() && shell.currentUser == old(shell.currentUser) && shell.nav == old(shell.nav)
      ensures shell.ModalFollowsMessages()
      ensures var v := Dispatch(Pages.Profile, old(shell.currentUser), net);
        && trace == old(trace) + v.ops
        && content == LastInstalled(v.ops, old(content))
        && shell.notices == old(shell.notices) + v.messages
      decreases 0, 2
    {
      shell.ShowMessage(ProfileLoginMessage);
      NavigateTo(shell, Pages.LoginSignup, net);
    }

    /** The two pages whose provider fetches: its message, then its content
        and binder. */
    method ShowFetched(shell: Session.Shell, page: string, net: Net)
      requires present && shell.Valid()
      requires page == Pages.ApplyJobs || (page == Pages.Profile && Session.LoggedIn(shell.currentUser))
      modifies this`content, this`trace, shell
      ensures shell.Valid() && shell.currentUser == old(shell.currentUser) && shell.nav == old(shell.nav)
      ensures shell.ModalFollowsMessages()
      ensures var v := Dispatch(page, old(shell.currentUser), net);
        && trace == old(trace) + v.ops
        && content == LastInstalled(v.ops, old(content))
        && shell.notices == old(shell.notices) + v.messages
    {
      if page == Pages.ApplyJobs {
        var r := Jobs.ApplyJobsPage(shell.currentUser, net.profileFetch, net.jobsFetch);
        ShowRendered(shell, r.messages);
        InstallAndBind(JobsScreen(r.page), Some(JobsBinder));
      } else {
        var r := Profile.ProfilePage(shell.currentUser, net.profileFetch);
        ShowRendered(shell, r.messages);
        InstallAndBind(ProfileScreen(r.page), Some(ProfileBinder));
      }
    }

    /** `app.innerHTML = pageContent` and the setup function, if there is one. */
    method InstallAndBind(c: Content, setup: Option<Binder>)
      modifies this`content, this`trace
      ensures content == c
      ensures trace == old(trace) + [Op.Install(c)] + (if setup.Some? then [Bind(setup.value)] else [])
    {
      Install(c);
      if setup.Some? {
        RunBinder(setup.value);
      }
    }
  }

  /** The message a provider showed on its way, if any. */
  method ShowRendered(shell: Session.Shell, messages: seq<string>)
    requires shell.Valid() && |messages| <= 1
    modifies shell`modalText, shell`modalVisible, shell`notices
    ensures shell.Valid() && shell.notices == old(shell.notices) + messages
    ensures shell.ModalFollowsMessages()
  {
    if messages != [] {
      shell.ShowMessage(messages[0]);
    }
  }
}
