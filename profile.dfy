/** The profile page: what `getProfilePageContent` renders from the fetched
    profile, and the edit controller `setupProfilePageListeners` builds over
    the rendered form (Viewing and Editing, with a snapshot for Cancel, a
    LinkedIn verification flag and a staged resume file). */
module Profile {
  import opened Wrappers
  import Text
  import Store
  import Session
  import Pages

  // ===== Rendering =====

  /** The colour class of an application's status: yellow, green or red. */
  datatype StatusStyle = Warning | Success | Danger

  function StatusStyleOf(status: string): (r: StatusStyle)
    ensures r == Warning <==> status == "Pending"
    ensures r == Success <==> status == "Reviewed"
    ensures r == Danger <==> status != "Pending" && status != "Reviewed"
  {
    if status == "Pending" then Warning
    else if status == "Reviewed" then Success
    else Danger
  }

  datatype ApplicationRow = ApplicationRow(job: string, status: string, style: StatusStyle)

  /** The "My Applications" list: the placeholder "No applications submitted
      yet." or one row per application. */
  datatype ApplicationsList = NoApplications | Rows(rows: seq<ApplicationRow>)

  function RowsOf(apps: seq<Store.Application>): (r: seq<ApplicationRow>)
    ensures |r| == |apps|
    ensures forall i :: 0 <= i < |apps| ==>
      r[i].job == apps[i].job && r[i].status == apps[i].status && r[i].style == StatusStyleOf(apps[i].status)
  {
    if apps == [] then [] else [ApplicationRow(apps[0].job, apps[0].status, StatusStyleOf(apps[0].status))] + RowsOf(apps[1..])
  }

  /** JavaScript's `value || fallback` on a string the profile may lack. */
  function OrElse(v: Option<string>, fallback: string): string {
    if v.Some? && v.value != "" then v.value else fallback
  }

  /** The values the rendered form shows. */
  datatype ProfileView = ProfileView(
    email: string,
    fullName: string,
    linkedinUrl: string,
    education: string,
    previousExperience: string,
    resumeFileName: string,
    linkedinVerified: bool,
    about: string,
    applications: ApplicationsList,
    showBadge: bool,
    showResumeLink: bool)

  /** The form for a fetched profile. A missing text field shows as empty,
      a missing or empty resume name as "No file uploaded", and a missing
      flag as not verified; `about` has no default, so a profile without it
      shows the text "undefined". */
  function ViewOf(p: Store.Profile): (v: ProfileView)
    ensures v.email == p.email
    ensures v.fullName == p.fullName.GetOr("") && v.linkedinUrl == p.linkedinUrl.GetOr("")
    ensures v.education == p.education.GetOr("") && v.previousExperience == p.previousExperience.GetOr("")
    ensures v.resumeFileName != ""
    ensures v.resumeFileName == Store.NoFile <==> p.resumeFileName.None? || p.resumeFileName.value in {"", Store.NoFile}
    ensures v.resumeFileName != Store.NoFile ==> p.resumeFileName == Some(v.resumeFileName)
    ensures v.linkedinVerified <==> p.linkedinVerified == Some(true)
    ensures v.about == p.about.GetOr("undefined")
    ensures v.applications == NoApplications <==> p.applications.None? || p.applications.value == []
    ensures v.applications.Rows? ==> v.applications.rows == RowsOf(p.applications.value)
    ensures v.showBadge <==> v.linkedinUrl != ""
    ensures v.showResumeLink <==> v.resumeFileName != Store.NoFile
  {
    var apps := if p.applications.Some? && |p.applications.value| > 0
      then Rows(RowsOf(p.applications.value)) else NoApplications;
    var url := OrElse(p.linkedinUrl, "");
    var resume := OrElse(p.resumeFileName, Store.NoFile);
    ProfileView(p.email, OrElse(p.fullName, ""), url, OrElse(p.education, ""), OrElse(p.previousExperience, ""),
                resume, p.linkedinVerified == Some(true), if p.about.Some? then p.about.value else "undefined",
                apps, url != "", resume != Store.NoFile)
  }

  /** What the profile provider puts in the page. */
  datatype ProfileContent = LoginRequired | LoadError | LoadFailed | Form(view: ProfileView)

  const LoadFailedMessage := "Failed to load profile data. Please try again later."

  /** `getProfilePageContent`: without a session a login prompt, on a failed
      fetch an error paragraph and one message, otherwise the form. */
  function ProfilePage(user: Option<string>, fetch: Response<Store.Profile>): (r: Pages.Rendered<ProfileContent>)
    ensures !Session.LoggedIn(user) ==> r == Pages.Rendered(LoginRequired, [])
    ensures Session.LoggedIn(user) && fetch.Ok? ==> r == Pages.Rendered(Form(ViewOf(fetch.body)), [])
    ensures Session.LoggedIn(user) && fetch.Err? ==> r == Pages.Rendered(LoadError, ["Error fetching profile: " + fetch.message])
    ensures Session.LoggedIn(user) && fetch.ConnFail? ==> r == Pages.Rendered(LoadFailed, [LoadFailedMessage])
  {
    if !Session.LoggedIn(user) then Pages.Rendered(LoginRequired, [])
    else match fetch
      case Ok(p) => Pages.Rendered(Form(ViewOf(p)), [])
      case Err(m) => Pages.Rendered(LoadError, ["Error fetching profile: " + m])
      case ConnFail => Pages.Rendered(LoadFailed, [LoadFailedMessage])
  }

  // ===== The edit controller, as values =====

  /** The ids of the five editable fields, in the order of the `fields` list;
      the LinkedIn URL is the second. */
  const FieldIds: seq<string> := ["profileFullName", "profileLinkedinUrl", "profileEducation", "profileExperience", "profileAbout"]
  const FieldCount: nat := 5
  const UrlField: nat := 1
  /** The two extra keys of the snapshot object. */
  const ResumeKey := "profileResumeFileName"
  const VerifiedKey := "linkedinVerified"

  /** A value in the snapshot object `initialFieldValues`: a field's text or
      the verification flag. */
  datatype Saved = SavedText(text: string) | SavedFlag(flag: bool)

  /** A file picked in the resume file input. */
  datatype ResumeFile = ResumeFile(name: string)

  /** The controller's closure state and the parts of the form it writes. */
  datatype EditorState = EditorState(
    values: seq<string>,           // the five field values, in FieldIds order
    initial: map<string, Saved>,   // initialFieldValues
    verified: bool,                // currentLinkedinVerifiedStatus
    staged: Option<ResumeFile>,    // newResumeFile
    resumeDisplay: string,         // the resume file name field
    editing: bool,                 // fields writable; Save, Cancel and Upload shown
    verifyVisible: bool)           // the Verify button shown

  predicate WellFormed(s: EditorState) {
    |s.values| == FieldCount
  }

  /** The rule of `updateLinkedinVerificationUI`. */
  predicate VerifyShown(url: string, verified: bool) {
    Text.Trim(url) != "" && !verified
  }

  /** The controller right after the binder ran over a rendered form: viewing,
      nothing snapshotted, nothing staged, and not verified until the status
      fetch says otherwise. */
  function Initial(v: ProfileView): (s: EditorState)
    ensures WellFormed(s) && !s.editing && !s.verified && s.staged == None && !s.verifyVisible
    ensures s.initial == map[]
    ensures s.values == [v.fullName, v.linkedinUrl, v.education, v.previousExperience, v.about] && s.resumeDisplay == v.resumeFileName
  {
    EditorState([v.fullName, v.linkedinUrl, v.education, v.previousExperience, v.about], map[], false, None, v.resumeFileName, false, false)
  }

  /** The snapshot object after the first `n` fields were written into it. */
  function SnapshotFields(m: map<string, Saved>, values: seq<string>, n: nat): map<string, Saved>
    requires n <= FieldCount <= |values|
  {
    if n == 0 then m else SnapshotFields(m, values, n - 1)[FieldIds[n - 1] := SavedText(values[n - 1])]
  }

  lemma {:induction false} SnapshotFieldsHolds(m: map<string, Saved>, values: seq<string>, n: nat)
    requires n <= FieldCount <= |values|
    ensures forall i :: 0 <= i < n ==> FieldIds[i] in SnapshotFields(m, values, n) && SnapshotFields(m, values, n)[FieldIds[i]] == SavedText(values[i])
    ensures forall k :: k !in FieldIds[..n] ==> (k in SnapshotFields(m, values, n) <==> k in m)
    ensures forall k :: k !in FieldIds[..n] && k in m ==> SnapshotFields(m, values, n)[k] == m[k]
  {
    if n > 0 {
      SnapshotFieldsHolds(m, values, n - 1);
      assert FieldIds[..n] == FieldIds[..n - 1] + [FieldIds[n - 1]];
    }
  }

  /** Edit: the snapshot takes every field, the resume name and the flag;
      the staged file is dropped; the fields become writable and the Verify
      button follows the current URL and flag. */
  function EnterEdit(s: EditorState): (r: EditorState)
    requires WellFormed(s)
    ensures WellFormed(r) && r.editing && r.staged == None
    ensures r.values == s.values && r.resumeDisplay == s.resumeDisplay && r.verified == s.verified
    ensures forall i :: 0 <= i < FieldCount ==> FieldIds[i] in r.initial && r.initial[FieldIds[i]] == SavedText(s.values[i])
    ensures ResumeKey in r.initial && r.initial[ResumeKey] == SavedText(s.resumeDisplay)
    ensures VerifiedKey in r.initial && r.initial[VerifiedKey] == SavedFlag(s.verified)
    ensures r.verifyVisible <==> Text.Trim(s.values[UrlField]) != "" && !s.verified
  {
    SnapshotFieldsHolds(s.initial, s.values, FieldCount);
    var m := SnapshotFields(s.initial, s.values, FieldCount)[ResumeKey := SavedText(s.resumeDisplay)][VerifiedKey := SavedFlag(s.verified)];
    s.(initial := m, staged := None, editing := true, verifyVisible := VerifyShown(s.values[UrlField], s.verified))
  }

  /** `field.value = saved` for a value found in the snapshot; JavaScript
      writes a boolean as its text. */
  function AsText(v: Saved): string {
    match v
    case SavedText(t) => t
    case SavedFlag(b) => if b then "true" else "false"
  }

  /** The fields after the first `n` were restored from the snapshot; a field
      with no snapshot entry keeps its value. */
  function RestoreFields(values: seq<string>, m: map<string, Saved>, n: nat): (r: seq<string>)
    requires n <= FieldCount <= |values|
    ensures |r| == |values|
    ensures forall i :: 0 <= i < n ==> r[i] == if FieldIds[i] in m then AsText(m[FieldIds[i]]) else values[i]
    ensures forall i :: n <= i < |values| ==> r[i] == values[i]
  {
    if n == 0 then values
    else
      var v := RestoreFields(values, m, n - 1);
      if FieldIds[n - 1] in m then v[n - 1 := AsText(m[FieldIds[n - 1]])] else v
  }

  /** JavaScript truthiness of the snapshot's flag entry (`undefined` when it
      was never written). */
  function SavedTruthy(m: map<string, Saved>, k: string): bool {
    if k !in m then false
    else match m[k]
      case SavedFlag(b) => b
      case SavedText(t) => t != ""
  }

  /** Cancel: every field and the resume name come back from the snapshot, the
      flag comes back from it, the staged file is dropped and the form is
      read-only again with the Verify button hidden. */
  function CancelEdit(s: EditorState): (r: EditorState)
    requires WellFormed(s)
    ensures WellFormed(r) && !r.editing && !r.verifyVisible && r.staged == None && r.initial == s.initial
    ensures forall i :: 0 <= i < FieldCount && FieldIds[i] in s.initial && s.initial[FieldIds[i]].SavedText? ==>
      r.values[i] == s.initial[FieldIds[i]].text
    ensures ResumeKey in s.initial && s.initial[ResumeKey].SavedText? ==> r.resumeDisplay == s.initial[ResumeKey].text
    ensures VerifiedKey in s.initial && s.initial[VerifiedKey].SavedFlag? ==> r.verified == s.initial[VerifiedKey].flag
  {
    var display := if ResumeKey in s.initial then AsText(s.initial[ResumeKey]) else s.resumeDisplay;
    s.(values := RestoreFields(s.values, s.initial, FieldCount), resumeDisplay := display, staged := None,
       verified := SavedTruthy(s.initial, VerifiedKey), editing := false, verifyVisible := false)
  }

  /** Typing `v` into field `i`. A read-only field ignores it. An input event
      on the URL field clears the flag whatever the new text is, and the
      Verify button is then shown exactly when the trimmed URL is non-empty. */
  function TypeInto(s: EditorState, i: nat, v: string): (r: EditorState)
    requires WellFormed(s) && i < FieldCount
    ensures WellFormed(r)
    ensures !s.editing ==> r == s
    ensures s.editing ==> r.values == s.values[i := v]
    ensures s.editing && i == UrlField ==> !r.verified && (r.verifyVisible <==> Text.Trim(v) != "")
    ensures i != UrlField ==> r.verified == s.verified && r.verifyVisible == s.verifyVisible
    ensures r.initial == s.initial && r.staged == s.staged && r.resumeDisplay == s.resumeDisplay && r.editing == s.editing
  {
    if !s.editing then s
    else if i == UrlField then s.(values := s.values[i := v], verified := false, verifyVisible := VerifyShown(v, false))
    else s.(values := s.values[i := v])
  }

  /** The resume input's change event: a picked file is staged and its name
      displayed; an emptied selection unstages and shows "No file uploaded". */
  function ChooseFile(s: EditorState, f: Option<ResumeFile>): (r: EditorState)
    ensures r.staged == f
    ensures r.resumeDisplay == if f.Some? then f.value.name else Store.NoFile
    ensures r == s.(staged := r.staged, resumeDisplay := r.resumeDisplay)
  {
    s.(staged := f, resumeDisplay := if f.Some? then f.value.name else Store.NoFile)
  }

  /** A handler's new state and the messages it shows. */
  datatype Reaction = Reaction(state: EditorState, messages: seq<string>)

  const VerifiedMessage := "LinkedIn URL marked as verified (simulated)."
  const EnterUrlMessage := "Please enter a LinkedIn URL to verify."

  /** The Verify button: a non-empty trimmed URL becomes verified and the
      button hides; an empty one only prompts. */
  function VerifyUrl(s: EditorState): (r: Reaction)
    requires WellFormed(s)
    ensures Text.Trim(s.values[UrlField]) != "" ==> r == Reaction(s.(verified := true, verifyVisible := false), [VerifiedMessage])
    ensures Text.Trim(s.values[UrlField]) == "" ==> r == Reaction(s, [EnterUrlMessage])
  {
    if Text.Trim(s.values[UrlField]) != "" then
      Reaction(s.(verified := true, verifyVisible := VerifyShown(s.values[UrlField], true)), [VerifiedMessage])
    else Reaction(s, [EnterUrlMessage])
  }

  /** The binder's own profile fetch settling: with a session and an ok reply
      that has the flag, the flag is taken from the server and the Verify
      button recomputed; anything else changes nothing. */
  function StatusFetched(s: EditorState, user: Option<string>, fetch: Response<Store.Profile>): (r: EditorState)
    requires WellFormed(s)
    ensures Session.LoggedIn(user) && fetch.Ok? && fetch.body.linkedinVerified.Some? ==>
      r == s.(verified := fetch.body.linkedinVerified.value,
              verifyVisible := VerifyShown(s.values[UrlField], fetch.body.linkedinVerified.value))
    ensures !(Session.LoggedIn(user) && fetch.Ok? && fetch.body.linkedinVerified.Some?) ==> r == s
  {
    if Session.LoggedIn(user) && fetch.Ok? && fetch.body.linkedinVerified.Some? then
      var b := fetch.body.linkedinVerified.value;
      s.(verified := b, verifyVisible := VerifyShown(s.values[UrlField], b))
    else s
  }

  // ----- Save -----

  /** What `/upload_resume` answers on success. */
  datatype UploadReply = UploadReply(fileName: string, message: string)

  /** A request the save handler sends. */
  datatype Request = Upload(file: ResumeFile, email: Option<string>) | Update(body: Store.UpdateRequest)

  /** The save handler's new state, the requests it sent in order, the messages
      it showed and whether it then re-navigates to the profile page. */
  datatype SaveReaction = SaveReaction(state: EditorState, requests: seq<Request>, messages: seq<string>, reload: bool)

  const VerifyFirstMessage := "Please verify your LinkedIn URL before saving changes."
  const UploadConnMessage := "Failed to upload resume. Please try again later."
  const SaveConnMessage := "Failed to save profile. Please try again later."

  /** The update body: the four text fields as typed, the URL trimmed, the
      given resume name and the current flag. */
  function Payload(s: EditorState, user: Option<string>, resumeName: string): (r: Store.UpdateRequest)
    requires WellFormed(s)
    ensures r.email == user
    ensures r.fullName.Some? && r.linkedinUrl.Some? && r.education.Some? && r.previousExperience.Some?
    ensures r.about.Some? && r.resumeFileName == Some(resumeName) && r.linkedinVerified == Some(s.verified)
    ensures r.linkedinUrl.value == Text.Trim(s.values[UrlField])
    ensures [r.fullName.value, s.values[UrlField], r.education.value, r.previousExperience.value, r.about.value] == s.values
  {
    Store.UpdateRequest(user, Some(s.values[0]), Some(Text.Trim(s.values[UrlField])), Some(s.values[2]),
                        Some(s.values[3]), Some(s.values[4]), Some(resumeName), Some(s.verified))
  }

  /** The save guard: a non-empty trimmed URL must be verified. */
  predicate SaveAllowed(s: EditorState): (b: bool)
    requires WellFormed(s)
    ensures !b <==> VerifyShown(s.values[UrlField], s.verified)
  {
    Text.Trim(s.values[UrlField]) == "" || s.verified
  }

  /** Step 2 of the save: the update request and its outcome. */
  function Commit(s: EditorState, user: Option<string>, resumeName: string, update: Response<string>): (r: SaveReaction)
    requires WellFormed(s)
    ensures r.requests == [Update(Payload(s, user, resumeName))] && |r.messages| == 1
    ensures r.reload <==> update.Ok?
    ensures r.state == if update.Ok? then s.(editing := false, verifyVisible := false) else s
    ensures update.Ok? ==> r.messages == [update.body]
  {
    var req := Update(Payload(s, user, resumeName));
    match update
    case Ok(m) => SaveReaction(s.(editing := false, verifyVisible := false), [req], [m], true)
    case Err(m) => SaveReaction(s, [req], ["Failed to save profile: " + m], false)
    case ConnFail => SaveReaction(s, [req], [SaveConnMessage], false)
  }

  /** The save button. Refused by the guard, it sends nothing. With a staged
      file it uploads first, and a failed upload ends the save before the
      update is sent; a successful one puts the server's file name in the
      update. Only an ok update leaves Editing (and reloads the page); every
      failure keeps the state exactly as it was, staged file included. */
  function SaveProfile(s: EditorState, user: Option<string>, upload: Response<UploadReply>, update: Response<string>): (r: SaveReaction)
    requires WellFormed(s)
    ensures !SaveAllowed(s) ==> r == SaveReaction(s, [], [VerifyFirstMessage], false)
    ensures SaveAllowed(s) && s.staged.Some? && !upload.Ok? ==> r.requests == [Upload(s.staged.value, user)]
    ensures SaveAllowed(s) && s.staged.Some? && upload.Ok? ==>
      r.requests == [Upload(s.staged.value, user), Update(Payload(s, user, upload.body.fileName))]
    ensures SaveAllowed(s) && s.staged.None? ==> r.requests == [Update(Payload(s, user, s.resumeDisplay))]
    ensures |r.messages| >= 1
    ensures r.reload <==> SaveAllowed(s) && (s.staged.None? || upload.Ok?) && update.Ok?
    ensures r.state == if r.reload then s.(editing := false, verifyVisible := false) else s
  {
    if !SaveAllowed(s) then SaveReaction(s, [], [VerifyFirstMessage], false)
    else if s.staged.Some? then
      var up := Upload(s.staged.value, user);
      match upload
      case Ok(reply) =>
        var c := Commit(s, user, reply.fileName, update);
        c.(requests := [up] + c.requests, messages := [reply.message] + c.messages)
      case Err(m) => SaveReaction(s, [up], ["Resume upload failed: " + m], false)
      case ConnFail => SaveReaction(s, [up], [UploadConnMessage], false)
    else Commit(s, user, s.resumeDisplay, update)
  }

  /** After a successful save, the back end's copy of the profile, rendered
      again, shows the four text fields as the request carried them, the URL trimmed,
      the sent resume name and the sent flag. */
  lemma SaveThenReloadShowsEdits(s: EditorState, p: Store.Profile, user: Option<string>, resumeName: string)
    requires WellFormed(s) && resumeName != ""
    ensures var v := ViewOf(Store.ApplyUpdate(p, Payload(s, user, resumeName)));
      && Initial(v).values == s.values[UrlField := Text.Trim(s.values[UrlField])]
      && v.resumeFileName == resumeName && v.linkedinVerified == s.verified
  {
  }

  // ----- Runs of events -----

  /** A user action or settled fetch the controller reacts to. */
  datatype EditEvent =
    | EditClick
    | CancelClick
    | TypeEvent(field: nat, value: string)
    | ChooseEvent(file: Option<ResumeFile>)
    | VerifyEvent
    | StatusEvent(user: Option<string>, fetch: Response<Store.Profile>)
    | SaveEvent(user: Option<string>, upload: Response<UploadReply>, update: Response<string>)

  predicate ValidEvent(e: EditEvent) {
    e.TypeEvent? ==> e.field < FieldCount
  }

  predicate AllValid(evs: seq<EditEvent>) {
    forall k :: 0 <= k < |evs| ==> ValidEvent(evs[k])
  }

  /** An event that can happen between Edit and Cancel: the Edit and Cancel
      buttons are the ones being paired, and only an ok update ends editing
      before Cancel is clicked. */
  predicate Interim(e: EditEvent) {
    !e.EditClick? && !e.CancelClick? && !(e.SaveEvent? && e.update.Ok?)
  }

  function Step(s: EditorState, e: EditEvent): (r: EditorState)
    requires WellFormed(s) && ValidEvent(e)
    ensures WellFormed(r)
  {
    match e
    case EditClick => EnterEdit(s)
    case CancelClick => CancelEdit(s)
    case TypeEvent(i, v) => TypeInto(s, i, v)
    case ChooseEvent(f) => ChooseFile(s, f)
    case VerifyEvent => VerifyUrl(s).state
    case StatusEvent(user, fetch) => StatusFetched(s, user, fetch)
    case SaveEvent(user, upload, update) => SaveProfile(s, user, upload, update).state
  }

  function Run(s: EditorState, evs: seq<EditEvent>): (r: EditorState)
    requires WellFormed(s) && AllValid(evs)
    ensures WellFormed(r)
    decreases |evs|
  {
    if evs == [] then s else Run(Step(s, evs[0]), evs[1..])
  }

  /** Interim events leave the snapshot alone and stay in Editing. */
  lemma {:induction false} InterimKeepsSnapshot(s: EditorState, evs: seq<EditEvent>)
    requires WellFormed(s) && s.editing
    requires AllValid(evs) && forall k :: 0 <= k < |evs| ==> Interim(evs[k])
    ensures Run(s, evs).initial == s.initial && Run(s, evs).editing
    decreases |evs|
  {
    if evs != [] {
      InterimKeepsSnapshot(Step(s, evs[0]), evs[1..]);
    }
  }

  /** Edit, then any interim events, then Cancel: every field, the resume
      name and the flag are back to their values before Edit, nothing is
      staged and the form is read-only with the Verify button hidden. */
  lemma EditCancelRoundTrip(s: EditorState, evs: seq<EditEvent>)
    requires WellFormed(s)
    requires AllValid(evs) && forall k :: 0 <= k < |evs| ==> Interim(evs[k])
    ensures var t := CancelEdit(Run(EnterEdit(s), evs));
      && t.values == s.values && t.resumeDisplay == s.resumeDisplay && t.verified == s.verified
      && t.staged == None && !t.editing && !t.verifyVisible
  {
    var e := EnterEdit(s);
    InterimKeepsSnapshot(e, evs);
    CancelRestores(s, Run(e, evs));
  }

  /** Cancel from any state whose snapshot is the one Edit took from `s`. */
  lemma CancelRestores(s: EditorState, u: EditorState)
    requires WellFormed(s) && WellFormed(u) && u.initial == EnterEdit(s).initial
    ensures var t := CancelEdit(u);
      t.values == s.values && t.resumeDisplay == s.resumeDisplay && t.verified == s.verified
  {
    var t := CancelEdit(u);
    assert forall i :: 0 <= i < FieldCount ==> t.values[i] == s.values[i];
  }

  /** The Verify button is never shown for an empty URL or a verified one, and
      while editing it is shown exactly when the URL is non-empty and not
      verified. */
  predicate VerifyButtonAgrees(s: EditorState)
    requires WellFormed(s)
  {
    && (s.verifyVisible ==> VerifyShown(s.values[UrlField], s.verified))
    && (s.editing ==> s.verifyVisible == VerifyShown(s.values[UrlField], s.verified))
  }

  lemma StepKeepsVerifyButton(s: EditorState, e: EditEvent)
    requires WellFormed(s) && ValidEvent(e) && VerifyButtonAgrees(s)
    ensures VerifyButtonAgrees(Step(s, e))
  {
  }

  lemma {:induction false} RunKeepsVerifyButton(s: EditorState, evs: seq<EditEvent>)
    requires WellFormed(s) && VerifyButtonAgrees(s)
    requires AllValid(evs)
    ensures VerifyButtonAgrees(Run(s, evs))
    decreases |evs|
  {
    if evs != [] {
      StepKeepsVerifyButton(s, evs[0]);
      RunKeepsVerifyButton(Step(s, evs[0]), evs[1..]);
    }
  }

  // ===== The edit controller, in place =====

  /** The closure of `setupProfilePageListeners` over one rendered form. */
  class ProfileEditor {
    /** The values of the five editable fields, in FieldIds order. */
    const fields: array<string>
    var initialFieldValues: map<string, Saved>
    var currentLinkedinVerifiedStatus: bool
    var newResumeFile: Option<ResumeFile>
    /** The value of the resume file name field. */
    var resumeFileName: string
    var editing: bool
    var verifyVisible: bool

    ghost predicate Valid()
      reads this
    {
      fields.Length == FieldCount
    }

    function State(): (s: EditorState)
      reads this, fields
      requires Valid()
      ensures WellFormed(s)
    {
      EditorState(fields[..], initialFieldValues, currentLinkedinVerifiedStatus, newResumeFile, resumeFileName, editing, verifyVisible)
    }

    /** The binder over a rendered form. */
    constructor (v: ProfileView)
      ensures Valid() && fresh(fields) && State() == Initial(v)
    {
      fields := new string[FieldCount] [v.fullName, v.linkedinUrl, v.education, v.previousExperience, v.about];
      initialFieldValues, currentLinkedinVerifiedStatus, newResumeFile := map[], false, None;
      resumeFileName, editing, verifyVisible := v.resumeFileName, false, false;
    }

    /** `updateLinkedinVerificationUI`. */
    method UpdateVerifyButton()
      requires Valid()
      modifies this`verifyVisible
      ensures verifyVisible == VerifyShown(fields[UrlField], currentLinkedinVerifiedStatus)
    {
      var url := Text.Trim(fields[UrlField]);
      verifyVisible := url != "" && !currentLinkedinVerifiedStatus;
    }

    /** The Edit button: `toggleEditMode(true)`. */
    method Edit()
      requires Valid()
      modifies this
      ensures Valid() && State() == EnterEdit(old(State()))
    {
      editing := true;
      for i := 0 to FieldCount
        invariant initialFieldValues == SnapshotFields(old(initialFieldValues), fields[..], i)
        invariant editing && resumeFileName == old(resumeFileName) && newResumeFile == old(newResumeFile)
        invariant currentLinkedinVerifiedStatus == old(currentLinkedinVerifiedStatus) && verifyVisible == old(verifyVisible)
      {
        initialFieldValues := initialFieldValues[FieldIds[i] := SavedText(fields[i])];
      }
      initialFieldValues := initialFieldValues[ResumeKey := SavedText(resumeFileName)];
      initialFieldValues := initialFieldValues[VerifiedKey := SavedFlag(currentLinkedinVerifiedStatus)];
      newResumeFile := None;
      UpdateVerifyButton();
    }

    /** The Cancel button. */
    method Cancel()
      requires Valid()
      modifies this, fields
      ensures Valid() && State() == CancelEdit(old(State()))
    {
      for i := 0 to FieldCount
        invariant fields[..] == RestoreFields(old(fields[..]), initialFieldValues, i)
        invariant initialFieldValues == old(initialFieldValues) && resumeFileName == old(resumeFileName)
        invariant newResumeFile == old(newResumeFile) && editing == old(editing)
        invariant currentLinkedinVerifiedStatus == old(currentLinkedinVerifiedStatus) && verifyVisible == old(verifyVisible)
      {
        if FieldIds[i] in initialFieldValues {
          fields[i] := AsText(initialFieldValues[FieldIds[i]]);
        }
      }
      if ResumeKey in initialFieldValues {
        resumeFileName := AsText(initialFieldValues[ResumeKey]);
      }
      newResumeFile := None;
      currentLinkedinVerifiedStatus := SavedTruthy(initialFieldValues, VerifiedKey);
      editing := false;
      verifyVisible := false;
    }

    /** Typing into field `i`, with the URL field's input handler. */
    method Type(i: nat, v: string)
      requires Valid() && i < FieldCount
      modifies this, fields
      ensures Valid() && State() == TypeInto(old(State()), i, v)
    {
      if !editing {
        return;
      }
      fields[i] := v;
      if i == UrlField {
        currentLinkedinVerifiedStatus := false;
        UpdateVerifyButton();
      }
    }

    /** The resume input's change event. */
    method ChooseResume(f: Option<ResumeFile>)
      requires Valid()
      modifies this
      ensures Valid() && State() == ChooseFile(old(State()), f)
    {
      if f.Some? {
        newResumeFile := f;
        resumeFileName := f.value.name;
      } else {
        newResumeFile := None;
        resumeFileName := Store.NoFile;
      }
    }

    /** The Verify button. */
    method Verify(shell: Session.Shell)
      requires Valid() && shell.Valid()
      modifies this, shell
      ensures Valid() && shell.Valid() && shell.currentUser == old(shell.currentUser)
      ensures shell.nav == old(shell.nav) && shell.ModalFollowsMessages()
      ensures State() == VerifyUrl(old(State())).state
      ensures shell.notices == old(shell.notices) + VerifyUrl(old(State())).messages
    {
      var url := Text.Trim(fields[UrlField]);
      if url != "" {
        currentLinkedinVerifiedStatus := true;
        shell.ShowMessage(VerifiedMessage);
        UpdateVerifyButton();
      } else {
        shell.ShowMessage(EnterUrlMessage);
      }
    }

    /** The binder's status fetch settling with `fetch`. */
    method StatusArrived(shell: Session.Shell, fetch: Response<Store.Profile>)
      requires Valid()
      modifies this
      ensures Valid() && State() == StatusFetched(old(State()), shell.currentUser, fetch)
    {
      if Session.LoggedIn(shell.currentUser) && fetch.Ok? && fetch.body.linkedinVerified.Some? {
        currentLinkedinVerifiedStatus := fetch.body.linkedinVerified.value;
        UpdateVerifyButton();
      }
    }

    /** Step 2 of the save: builds the update body from the form, sends it
        and handles the answer. */
    method SendUpdate(shell: Session.Shell, resumeName: string, update: Response<string>)
      returns (request: Request, reload: bool)
      requires Valid() && shell.Valid()
      modifies this, shell
      ensures Valid() && shell.Valid() && shell.currentUser == old(shell.currentUser)
      ensures shell.nav == old(shell.nav) && shell.ModalFollowsMessages()
      ensures var r := Commit(old(State()), old(shell.currentUser), resumeName, update);
        && State() == r.state && [request] == r.requests && reload == r.reload
        && shell.notices == old(shell.notices) + r.messages
    {
      var linkedinUrlValue := Text.Trim(fields[UrlField]);
      request := Update(Store.UpdateRequest(shell.currentUser, Some(fields[0]), Some(linkedinUrlValue), Some(fields[2]),
                                            Some(fields[3]), Some(fields[4]), Some(resumeName),
                                            Some(currentLinkedinVerifiedStatus)));
      reload := false;
      match update {
        case Ok(m) =>
          shell.ShowMessage(m);
          editing := false;
          verifyVisible := false;
          reload := true;
        case Err(m) =>
          shell.ShowMessage("Failed to save profile: " + m);
        case ConnFail =>
          shell.ShowMessage(SaveConnMessage);
      }
    }

    /** The Save button, given what `/upload_resume` and `/update_profile`
        would answer. Returns the requests sent and whether the page is then
        reloaded with `navigateTo('profile')`. */
    method Save(shell: Session.Shell, upload: Response<UploadReply>, update: Response<string>)
      returns (requests: seq<Request>, reload: bool)
      requires Valid() && shell.Valid()
      modifies this, shell
      ensures Valid() && shell.Valid() && shell.currentUser == old(shell.currentUser)
      ensures shell.nav == old(shell.nav) && shell.ModalFollowsMessages()
      ensures var r := SaveProfile(old(State()), old(shell.currentUser), upload, update);
        && State() == r.state && requests == r.requests && reload == r.reload
        && shell.notices == old(shell.notices) + r.messages
    {
      var linkedinUrlValue := Text.Trim(fields[UrlField]);
      if linkedinUrlValue != "" && !currentLinkedinVerifiedStatus {
        shell.ShowMessage(VerifyFirstMessage);
        return [], false;
      }
      if newResumeFile.None? {
        var request;
        request, reload := SendUpdate(shell, resumeFileName, update);
        return [request], reload;
      }
      requests, reload := UploadThenUpdate(shell, upload, update);
    }

    /** Step 1 of a save with a staged file: a failed upload ends the save. */
    method UploadThenUpdate(shell: Session.Shell, upload: Response<UploadReply>, update: Response<string>)
      returns (requests: seq<Request>, reload: bool)
      requires Valid() && shell.Valid() && newResumeFile.Some?
      modifies this, shell
      ensures Valid() && shell.Valid() && shell.currentUser == old(shell.currentUser)
      ensures shell.nav == old(shell.nav) && shell.ModalFollowsMessages()
      ensures var up := Upload(old(newResumeFile.value), old(shell.currentUser));
        match upload
        case Ok(reply) =>
          var c := Commit(old(State()), old(shell.currentUser), reply.fileName, update);
          && State() == c.state && requests == [up] + c.requests && reload == c.reload
          && shell.notices == old(shell.notices) + [reply.message] + c.messages
        case Err(m) =>
          State() == old(State()) && requests == [up] && !reload && shell.notices == old(shell.notices) + ["Resume upload failed: " + m]
        case ConnFail =>
          State() == old(State()) && requests == [up] && !reload && shell.notices == old(shell.notices) + [UploadConnMessage]
    {
      var up := Upload(newResumeFile.value, shell.currentUser);
      match upload {
        case Ok(reply) =>
          shell.ShowMessage(reply.message);
          var request;
          request, reload := SendUpdate(shell, reply.fileName, update);
          requests := [up, request];
        case Err(m) =>
          shell.ShowMessage("Resume upload failed: " + m);
          requests, reload := [up], false;
        case ConnFail =>
          shell.ShowMessage(UploadConnMessage);
          requests, reload := [up], false;
      }
    }
  }
}
