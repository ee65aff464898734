/** The Flask back end: its two JSON files as two maps, `users` (email to
    password) and `profiles` (email to profile), and the request handlers
    that read and update them. */
module Store {
  import opened Wrappers

  datatype Application = Application(job: string, status: string)

  /** A stored profile. A key missing from the JSON object is `None`. */
  datatype Profile = Profile(
    email: string,
    about: Option<string>,
    applications: Option<seq<Application>>,
    fullName: Option<string>,
    linkedinUrl: Option<string>,
    education: Option<string>,
    previousExperience: Option<string>,
    resumeFileName: Option<string>,
    linkedinVerified: Option<bool>)

  /** The body of `/update_profile`; a key the request leaves out is `None`. */
  datatype UpdateRequest = UpdateRequest(
    email: Option<string>,
    fullName: Option<string>,
    linkedinUrl: Option<string>,
    education: Option<string>,
    previousExperience: Option<string>,
    about: Option<string>,
    resumeFileName: Option<string>,
    linkedinVerified: Option<bool>)

  /** A reply: the HTTP status and the `message` of its JSON body; `email`
      and `fileName` are the extra keys of the login and upload replies. */
  datatype Reply = Reply(status: int, message: string, email: Option<string>, fileName: Option<string>)

  const NoFile := "No file uploaded"
  const Pending := "Pending"
  const NewUserAbout := "New user, excited to explore opportunities!"

  /** Python truthiness of a request value that should be a string. */
  predicate Given(v: Option<string>) {
    v.Some? && v.value != ""
  }

  // ----- allowed_file -----

  function LowerAscii(c: char): char {
    if 'A' <= c <= 'Z' then (c as int + 32) as char else c
  }

  function LowerAll(s: string): (r: string)
    ensures |r| == |s| && forall i :: 0 <= i < |s| ==> r[i] == LowerAscii(s[i])
  {
    if s == [] then [] else [LowerAscii(s[0])] + LowerAll(s[1..])
  }

  /** The position of the last '.' in `s`, if any. */
  function LastDot(s: string): (r: Option<nat>)
    ensures r.Some? ==> r.value < |s| && s[r.value] == '.' && forall j :: r.value < j < |s| ==> s[j] != '.'
    ensures r.None? ==> forall j :: 0 <= j < |s| ==> s[j] != '.'
  {
    if s == [] then None
    else if s[|s| - 1] == '.' then Some(|s| - 1)
    else LastDot(s[..|s| - 1])
  }

  /** `'.' in f and f.rsplit('.', 1)[1].lower() in {'pdf'}`: the text after
      the last dot, lower-cased, is "pdf". That is the same as ending in
      ".pdf" in any mix of cases. */
  function AllowedFile(filename: string): (r: bool)
    ensures r <==> |filename| >= 4 && filename[|filename| - 4] == '.' && LowerAll(filename[|filename| - 3..]) == "pdf"
  {
    match LastDot(filename)
    case None => false
    case Some(k) =>
      var ext := filename[k + 1..];
      assert LowerAll(ext) == "pdf" ==> |ext| == 3;
      LowerAll(ext) == "pdf"
  }

  // ----- profile helpers -----

  /** The profile `signup` creates. */
  function NewProfile(email: string): (p: Profile)
    ensures p.email == email && p.applications == Some([])
    ensures p.about == Some(NewUserAbout) && p.resumeFileName == Some(NoFile) && p.linkedinVerified == Some(false)
    ensures p.fullName == Some("") && p.linkedinUrl == Some("") && p.education == Some("") && p.previousExperience == Some("")
  {
    Profile(email, Some(NewUserAbout), Some([]), Some(""), Some(""), Some(""), Some(""), Some(NoFile), Some(false))
  }

  /** `apply_job` on one profile: the list is created when missing, and one
      pending application goes at its end. */
  function AddApplication(p: Profile, jobTitle: string): (q: Profile)
    ensures q.applications.Some?
    ensures q.applications.value == p.applications.GetOr([]) + [Application(jobTitle, Pending)]
    ensures q == p.(applications := q.applications)
  {
    p.(applications := Some(p.applications.GetOr([]) + [Application(jobTitle, Pending)]))
  }

  /** `update_profile` on one profile: each of the seven fields takes the
      request's value when the request has the key, and otherwise keeps the
      stored value or, when the profile lacks it too, the default. */
  function ApplyUpdate(p: Profile, req: UpdateRequest): (q: Profile)
    ensures q.email == p.email && q.applications == p.applications
    ensures q.fullName.Some? && q.linkedinUrl.Some? && q.education.Some? && q.previousExperience.Some?
    ensures q.about.Some? && q.resumeFileName.Some? && q.linkedinVerified.Some?
    ensures req.fullName.Some? ==> q.fullName == req.fullName
    ensures req.fullName.None? ==> q.fullName == Some(p.fullName.GetOr(""))
    ensures req.linkedinUrl.Some? ==> q.linkedinUrl == req.linkedinUrl
    ensures req.linkedinUrl.None? ==> q.linkedinUrl == Some(p.linkedinUrl.GetOr(""))
    ensures req.education.Some? ==> q.education == req.education
    ensures req.education.None? ==> q.education == Some(p.education.GetOr(""))
    ensures req.previousExperience.Some? ==> q.previousExperience == req.previousExperience
    ensures req.previousExperience.None? ==> q.previousExperience == Some(p.previousExperience.GetOr(""))
    ensures req.about.Some? ==> q.about == req.about
    ensures req.about.None? ==> q.about == Some(p.about.GetOr(""))
    ensures req.resumeFileName.Some? ==> q.resumeFileName == req.resumeFileName
    ensures req.resumeFileName.None? ==> q.resumeFileName == Some(p.resumeFileName.GetOr(NoFile))
    ensures req.linkedinVerified.Some? ==> q.linkedinVerified == req.linkedinVerified
    ensures req.linkedinVerified.None? ==> q.linkedinVerified == Some(p.linkedinVerified.GetOr(false))
  {
    p.(fullName := Some(req.fullName.GetOr(p.fullName.GetOr(""))),
       linkedinUrl := Some(req.linkedinUrl.GetOr(p.linkedinUrl.GetOr(""))),
       education := Some(req.education.GetOr(p.education.GetOr(""))),
       previousExperience := Some(req.previousExperience.GetOr(p.previousExperience.GetOr(""))),
       about := Some(req.about.GetOr(p.about.GetOr(""))),
       resumeFileName := Some(req.resumeFileName.GetOr(p.resumeFileName.GetOr(NoFile))),
       linkedinVerified := Some(req.linkedinVerified.GetOr(p.linkedinVerified.GetOr(false))))
  }

  /** Sending the same update twice stores the same profile as sending it once. */
  lemma UpdateIdempotent(p: Profile, req: UpdateRequest)
    ensures ApplyUpdate(ApplyUpdate(p, req), req) == ApplyUpdate(p, req)
  {
  }

  // ----- upload_resume -----

  /** `/upload_resume`. `hasPart` says whether the multipart request has a
      `resume` part, `filename` is its file name, `secure` stands for
      werkzeug's `secure_filename` and `saved` for whether writing the file
      succeeded. Nothing in the two maps changes. */
  function UploadResume(hasPart: bool, filename: string, email: Option<string>, secure: string -> string, saved: bool): (r: Reply)
    ensures r.status == 200 <==> hasPart && filename != "" && AllowedFile(filename) && Given(email) && saved
    ensures r.status == 400 <==> !hasPart || filename == "" || !AllowedFile(filename) || !Given(email)
    ensures r.status == 500 <==> hasPart && filename != "" && AllowedFile(filename) && Given(email) && !saved
    ensures r.status == 200 ==> r.fileName == Some(email.value + "_" + secure(filename))
    ensures r.status != 200 ==> r.fileName == None
  {
    if !hasPart then Reply(400, "No resume file part in the request", None, None)
    else if filename == "" then Reply(400, "No selected file", None, None)
    else if AllowedFile(filename) then
      var name := secure(filename);
      if !Given(email) then Reply(400, "User email not provided for resume upload", None, None)
      else
        var unique := email.value + "_" + name;
        if saved then Reply(200, "Resume uploaded successfully", None, Some(unique))
        else Reply(500, "Failed to save resume file", None, None)
    else Reply(400, "File type not allowed. Only PDF files are accepted.", None, None)
  }

  // ----- the store -----

  class Backend {
    var users: map<string, string>
    var profiles: map<string, Profile>

    /** A store over the given contents of the two JSON files. */
    constructor (users: map<string, string>, profiles: map<string, Profile>)
      ensures this.users == users && this.profiles == profiles
    {
      this.users, this.profiles := users, profiles;
    }

    /** `/signup`. */
    method Signup(email: Option<string>, password: Option<string>) returns (r: Reply)
      modifies this
      ensures r.status == 400 <==> !Given(email) || !Given(password)
      ensures r.status == 409 <==> Given(email) && Given(password) && email.value in old(users)
      ensures r.status == 201 <==> Given(email) && Given(password) && email.value !in old(users)
      ensures r.status == 201 ==> users == old(users)[email.value := password.value]
      ensures r.status == 201 ==> profiles == old(profiles)[email.value := NewProfile(email.value)]
      ensures r.status != 201 ==> users == old(users) && profiles == old(profiles)
    {
      if !Given(email) || !Given(password) {
        return Reply(400, "Email and password are required", None, None);
      }
      var e := email.value;
      if e in users {
        return Reply(409, "User with this email already exists", None, None);
      }
      users := users[e := password.value];
      profiles := profiles[e := NewProfile(e)];
      r := Reply(201, "User registered successfully", None, None);
    }

    /** `/login`: succeeds exactly when the email is a user whose stored
        password is the one given; it changes nothing. */
    method Login(email: Option<string>, password: Option<string>) returns (r: Reply)
      ensures r.status == 200 <==> email.Some? && email.value in users && password == Some(users[email.value])
      ensures r.status == 200 ==> r.email == email
      ensures r.status != 200 ==> r.status == 401 && r.email == None
    {
      if email.Some? && email.value in users && password == Some(users[email.value]) {
        r := Reply(200, "Login successful", email, None);
      } else {
        r := Reply(401, "Invalid email or password", None, None);
      }
    }

    /** `/apply_job`. */
    method ApplyJob(email: Option<string>, jobTitle: Option<string>) returns (r: Reply)
      modifies this`profiles
      ensures r.status == 400 <==> !Given(email) || !Given(jobTitle)
      ensures r.status == 404 <==> Given(email) && Given(jobTitle) && email.value !in old(profiles)
      ensures r.status == 200 <==> Given(email) && Given(jobTitle) && email.value in old(profiles)
      ensures r.status == 200 ==> profiles == old(profiles)[email.value := AddApplication(old(profiles)[email.value], jobTitle.value)]
      ensures r.status == 200 ==> r.message == "Application for \"" + jobTitle.value + "\" submitted successfully"
      ensures r.status != 200 ==> profiles == old(profiles)
    {
      if !Given(email) || !Given(jobTitle) {
        return Reply(400, "Email and job title are required", None, None);
      }
      var e := email.value;
      if e !in profiles {
        return Reply(404, "User profile not found", None, None);
      }
      var p := profiles[e];
      if p.applications.None? {
        p := p.(applications := Some([]));
      }
      p := p.(applications := Some(p.applications.value + [Application(jobTitle.value, Pending)]));
      profiles := profiles[e := p];
      r := Reply(200, "Application for \"" + jobTitle.value + "\" submitted successfully", None, None);
    }

    /** `/update_profile`. */
    method UpdateProfile(req: UpdateRequest) returns (r: Reply)
      modifies this`profiles
      ensures r.status == 400 <==> !Given(req.email)
      ensures r.status == 404 <==> Given(req.email) && req.email.value !in old(profiles)
      ensures r.status == 200 <==> Given(req.email) && req.email.value in old(profiles)
      ensures r.status == 200 ==> profiles == old(profiles)[req.email.value := ApplyUpdate(old(profiles)[req.email.value], req)]
      ensures r.status != 200 ==> profiles == old(profiles)
    {
      if !Given(req.email) {
        return Reply(400, "Email is required", None, None);
      }
      var e := req.email.value;
      if e !in profiles {
        return Reply(404, "Profile not found", None, None);
      }
      var p := profiles[e];
      p := p.(fullName := Some(req.fullName.GetOr(p.fullName.GetOr(""))));
      p := p.(linkedinUrl := Some(req.linkedinUrl.GetOr(p.linkedinUrl.GetOr(""))));
      p := p.(education := Some(req.education.GetOr(p.education.GetOr(""))));
      p := p.(previousExperience := Some(req.previousExperience.GetOr(p.previousExperience.GetOr(""))));
      p := p.(about := Some(req.about.GetOr(p.about.GetOr(""))));
      p := p.(resumeFileName := Some(req.resumeFileName.GetOr(p.resumeFileName.GetOr(NoFile))));
      p := p.(linkedinVerified := Some(req.linkedinVerified.GetOr(p.linkedinVerified.GetOr(false))));
      profiles := profiles[e := p];
      r := Reply(200, "Profile updated successfully", None, None);
    }
  }
}
