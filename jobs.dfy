/** The job listing page: which apply buttons are disabled, and what one
    click on an apply button does. */
module Jobs {
  import opened Wrappers
  import Store
  import Session
  import Pages

  /** The two fields of a job description the page logic reads; the rest
      only go into markup. */
  datatype Job = Job(jobTitle: string, company: string)

  /** The button's `data-job` value and the application key: "<title> at <company>". */
  function FullTitle(j: Job): string {
    j.jobTitle + " at " + j.company
  }

  /** `apps.some(app => app.job === title)`. */
  function AppliedTo(apps: seq<Store.Application>, title: string): (r: bool)
    ensures r <==> exists i :: 0 <= i < |apps| && apps[i].job == title
  {
    if apps == [] then false
    else apps[0].job == title || AppliedTo(apps[1..], title)
  }

  const PendingText := "Application Pending"
  const ApplyText := "Apply Now"

  /** The state the page gives one job's apply button. */
  datatype ButtonView = ButtonView(job: string, text: string, disabled: bool)

  /** An application whose `job` is exactly the job's full title disables its
      button and labels it pending; any other job gets an enabled "Apply Now". */
  function ButtonFor(apps: seq<Store.Application>, j: Job): (b: ButtonView)
    ensures b.job == FullTitle(j)
    ensures b.disabled <==> exists i :: 0 <= i < |apps| && apps[i].job == FullTitle(j)
    ensures b.text == PendingText <==> b.disabled
    ensures b.text == ApplyText <==> !b.disabled
  {
    var applied := AppliedTo(apps, FullTitle(j));
    ButtonView(FullTitle(j), if applied then PendingText else ApplyText, applied)
  }

  /** One button per job, in the server's order. */
  function Listing(apps: seq<Store.Application>, jobs: seq<Job>): (r: seq<ButtonView>)
    ensures |r| == |jobs|
    ensures forall i :: 0 <= i < |jobs| ==> r[i] == ButtonFor(apps, jobs[i])
  {
    if jobs == [] then [] else [ButtonFor(apps, jobs[0])] + Listing(apps, jobs[1..])
  }

  /** The applications the page matches against: those of the fetched
      profile when someone is logged in and the fetch gave a list, else none. */
  function UserApplications(user: Option<string>, profileFetch: Response<Store.Profile>): (r: seq<Store.Application>)
    ensures !Session.LoggedIn(user) || !profileFetch.Ok? ==> r == []
    ensures Session.LoggedIn(user) && profileFetch.Ok? ==> r == profileFetch.body.applications.GetOr([])
  {
    if Session.LoggedIn(user) && profileFetch.Ok? then profileFetch.body.applications.GetOr([]) else []
  }

  const JobsErrorMessage := "Failed to load job listings."
  const JobsConnMessage := "Failed to connect to the server to load job listings."

  /** `getApplyJobsPageContent`: the buttons of the rendered listing. A failed
      jobs fetch shows one message and renders an empty listing; a failed
      profile fetch is silent and suppresses nothing. */
  function ApplyJobsPage(user: Option<string>, profileFetch: Response<Store.Profile>, jobsFetch: Response<seq<Job>>): (r: Pages.Rendered<seq<ButtonView>>)
    ensures jobsFetch.Ok? ==> r.page == Listing(UserApplications(user, profileFetch), jobsFetch.body) && r.messages == []
    ensures jobsFetch.Ok? ==> |r.page| == |jobsFetch.body|
    ensures jobsFetch.Ok? ==> forall i :: 0 <= i < |r.page| ==> r.page[i].job == FullTitle(jobsFetch.body[i])
    ensures jobsFetch.Err? ==> r.page == [] && r.messages == [JobsErrorMessage]
    ensures jobsFetch.ConnFail? ==> r.page == [] && r.messages == [JobsConnMessage]
    ensures !Session.LoggedIn(user) || !profileFetch.Ok? ==> forall i :: 0 <= i < |r.page| ==> !r.page[i].disabled && r.page[i].text == ApplyText
    ensures forall i :: 0 <= i < |r.page| ==>
      (r.page[i].disabled <==> exists k :: 0 <= k < |UserApplications(user, profileFetch)| && UserApplications(user, profileFetch)[k].job == r.page[i].job)
  {
    var apps := UserApplications(user, profileFetch);
    match jobsFetch
    case Ok(jobs) => Pages.Rendered(Listing(apps, jobs), [])
    case Err(_) => Pages.Rendered([], [JobsErrorMessage])
    case ConnFail => Pages.Rendered([], [JobsConnMessage])
  }

  /** After the back end records an application for a job, rendering the
      listing from the updated profile disables that job's button. */
  lemma {:induction false} ApplyThenRenderDisables(p: Store.Profile, j: Job)
    ensures var q := Store.AddApplication(p, FullTitle(j));
      ButtonFor(q.applications.value, j) == ButtonView(FullTitle(j), PendingText, true)
  {
    var q := Store.AddApplication(p, FullTitle(j));
    var apps := q.applications.value;
    assert apps[|apps| - 1].job == FullTitle(j);
  }

  /** The body of `/apply_job` as the page sends it. */
  datatype ApplyRequest = ApplyRequest(email: string, jobTitle: string)

  const LoginToApplyMessage := "Please log in to apply for jobs."
  const ApplyConnMessage := "Failed to connect to the server. Please try again later."

  /** One rendered apply button with its click handler. */
  class ApplyButton {
    const job: string
    var text: string
    var disabled: bool

    constructor (v: ButtonView)
      ensures job == v.job && text == v.text && disabled == v.disabled
    {
      job, text, disabled := v.job, v.text, v.disabled;
    }

    /** A click. `reply` is what `/apply_job` answers when a request is sent.
        Returns the request sent, if any, and the page to navigate to, if any. */
    method Click(shell: Session.Shell, reply: Response<string>) returns (sent: Option<ApplyRequest>, next: Option<string>)
      requires shell.Valid()
      modifies this, shell
      ensures shell.Valid() && shell.currentUser == old(shell.currentUser) && shell.nav == old(shell.nav)
      ensures shell.ModalFollowsMessages()
      ensures old(disabled) ==> sent == None && next == None && text == old(text) && disabled && unchanged(shell)
      ensures !old(disabled) && !Session.LoggedIn(shell.currentUser) ==>
        && sent == None && next == Some(Pages.LoginSignup)
        && text == old(text) && !disabled
        && shell.notices == old(shell.notices) + [LoginToApplyMessage]
      ensures !old(disabled) && Session.LoggedIn(shell.currentUser) ==>
        && sent == Some(ApplyRequest(shell.currentUser.value, job)) && next == None
        && (reply.Ok? ==> text == PendingText && disabled && shell.notices == old(shell.notices) + [reply.body])
        && (reply.Err? ==> text == old(text) && !disabled && shell.notices == old(shell.notices) + ["Error applying for job: " + reply.message])
        && (reply.ConnFail? ==> text == old(text) && !disabled && shell.notices == old(shell.notices) + [ApplyConnMessage])
    {
      sent, next := None, None;
      if disabled {
        return;
      }
      if Session.LoggedIn(shell.currentUser) {
        sent := Some(ApplyRequest(shell.currentUser.value, job));
        match reply {
          case Ok(message) =>
            shell.ShowMessage(message);
            text := PendingText;
            disabled := true;
          case Err(message) =>
            shell.ShowMessage("Error applying for job: " + message);
          case ConnFail =>
            shell.ShowMessage(ApplyConnMessage);
        }
      } else {
        shell.ShowMessage(LoginToApplyMessage);
        next := Some(Pages.LoginSignup);
      }
    }
  }
}
