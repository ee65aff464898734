/** The page ids the single-page front end knows, and what a page's content
    provider yields. */
module Pages {

  const Home: string := "home"
  const ApplyJobs: string := "apply-jobs"
  const LoginSignup: string := "login-signup"
  const Profile: string := "profile"

  predicate Known(page: string) {
    page == Home || page == ApplyJobs || page == LoginSignup || page == Profile
  }

  /** A provider's result: what it renders and the messages it shows on the way. */
  datatype Rendered<T> = Rendered(page: T, messages: seq<string>)
}
