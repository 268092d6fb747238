/** The student profile page (`pages/student/Profile.jsx`): normalising the server's
    profile into the form and the stat cards, the resume size check, the two submit tabs
    and the comma-separated skills. */
module StudentProfile {
  import opened Text
  import opened Net
  import opened Browser
  import opened Session
  import opened Gateway
  import opened JobsPage
  import opened AccountForms

  /** The server's `skills`: an array, or a single string ("" when absent). */
  datatype Skills = SkillList(items: seq<string>) | SkillText(text: string)

  /** The server's counters (an absent counter is 0). */
  datatype ServerStats = ServerStats(applications: nat, interviews: nat, offers: nat)

  /** `GET /student/profile`; an absent text field is "". */
  datatype ProfileData = ProfileData(
    name: string, email: string, phone: string, location: string, education: string,
    skills: Skills, bio: string, linkedin: string, github: string, website: string,
    experience: string, profileImageUrl: string, resumeUrl: string, stats: Option<ServerStats>)

  datatype ProfileForm = ProfileForm(
    name: string, email: string, phone: string, location: string, education: string,
    skills: string, bio: string, linkedin: string, github: string, website: string,
    experience: string, currentPassword: string, newPassword: string, confirmPassword: string,
    profileImage: Option<File>, profileImageUrl: string, resume: Option<File>, resumeUrl: string)

  const EmptyProfile := ProfileForm("", "", "", "", "", "", "", "", "", "", "", "", "", "", None, "", None, "")

  datatype StatsView = StatsView(applications: nat, interviews: nat, offers: nat, skills: nat)

  const ZeroStats := StatsView(0, 0, 0, 0)

  datatype Tab = ProfileTab | PasswordTab

  function UserName(user: Option<User>): string
  {
    if user.Some? then user.value.name else ""
  }

  function UserEmail(user: Option<User>): string
  {
    if user.Some? then user.value.email else ""
  }

  /** The editable skills text: an array is joined with ", ". */
  function SkillsText(s: Skills): (t: string)
    ensures s.SkillList? && |s.items| > 0 && s.items[0] != "" ==> t != ""
    ensures s.SkillText? ==> t == s.text
  {
    match s
    case SkillList(items) => Join(items, ", ")
    case SkillText(text) => text
  }

  /** The skills stat: the array's length, or the string's length in UTF-16 units. */
  function SkillsCount(s: Skills): (n: nat)
    ensures s.SkillList? ==> n == |s.items|
    ensures s.SkillText? ==> |s.text| <= n <= 2 * |s.text|
    ensures s.SkillText? ==> (n == |s.text| <==> forall k :: 0 <= k < |s.text| ==> s.text[k] as int <= 0xFFFF)
  {
    match s
    case SkillList(items) => |items|
    case SkillText(text) => Utf16Length(text)
  }

  /** The form after a successful fetch: every server field or "", name and email falling
      back to the signed-in user; password fields and chosen files are kept. */
  function Loaded(prev: ProfileForm, d: ProfileData, user: Option<User>): (f: ProfileForm)
    ensures f.name == OrElse(d.name, UserName(user)) && f.email == OrElse(d.email, UserEmail(user))
    ensures f.skills == SkillsText(d.skills)
    ensures f.phone == d.phone && f.location == d.location && f.education == d.education
    ensures f.bio == d.bio && f.linkedin == d.linkedin && f.github == d.github
    ensures f.website == d.website && f.experience == d.experience
    ensures f.profileImageUrl == d.profileImageUrl && f.resumeUrl == d.resumeUrl
    ensures f.currentPassword == prev.currentPassword && f.newPassword == prev.newPassword
    ensures f.confirmPassword == prev.confirmPassword
    ensures f.profileImage == prev.profileImage && f.resume == prev.resume
  {
    prev.(name := OrElse(d.name, UserName(user)), email := OrElse(d.email, UserEmail(user)),
          phone := d.phone, location := d.location, education := d.education,
          skills := SkillsText(d.skills), bio := d.bio, linkedin := d.linkedin,
          github := d.github, website := d.website, experience := d.experience,
          profileImageUrl := d.profileImageUrl, resumeUrl := d.resumeUrl)
  }

  /** The form after a failed fetch: only name and email, from the signed-in user. */
  function FailedLoad(prev: ProfileForm, user: Option<User>): (f: ProfileForm)
    ensures f.name == UserName(user) && f.email == UserEmail(user)
    ensures f.(name := prev.name, email := prev.email) == prev
  {
    prev.(name := UserName(user), email := UserEmail(user))
  }

  /** The stat cards after a fetch: the server's counters or 0, and the skills count. */
  function StatsOf(d: ProfileData): (s: StatsView)
    ensures d.stats.None? ==> s.applications == 0 && s.interviews == 0 && s.offers == 0
    ensures d.stats.Some? ==>
      s.applications == d.stats.value.applications && s.interviews == d.stats.value.interviews
      && s.offers == d.stats.value.offers
    ensures s.skills == SkillsCount(d.skills)
  {
    if d.stats.Some? then StatsView(d.stats.value.applications, d.stats.value.interviews, d.stats.value.offers, SkillsCount(d.skills))
    else StatsView(0, 0, 0, SkillsCount(d.skills))
  }

  /** The text fields of the profile submit, in order; never the email. */
  const ProfileKeys := ["name", "phone", "location", "education", "bio", "skills", "linkedin", "github", "website", "experience"]

  /** `formData[key]` for the ten text fields of the profile submit. */
  function Field(f: ProfileForm, key: string): string
  {
    if key == "name" then f.name
    else if key == "phone" then f.phone
    else if key == "location" then f.location
    else if key == "education" then f.education
    else if key == "bio" then f.bio
    else if key == "skills" then f.skills
    else if key == "linkedin" then f.linkedin
    else if key == "github" then f.github
    else if key == "website" then f.website
    else if key == "experience" then f.experience
    else ""
  }

  function FileParts(f: ProfileForm): seq<(string, FormPart)>
  {
    (if f.profileImage.Some? then [("profileImage", FilePart(f.profileImage.value))] else [])
    + (if f.resume.Some? then [("resume", FilePart(f.resume.value))] else [])
  }

  /** The multipart body: the ten text fields, then the image and the resume when chosen. */
  function ProfileParts(f: ProfileForm): (parts: seq<(string, FormPart)>)
    ensures |parts| == 10 + (if f.profileImage.Some? then 1 else 0) + (if f.resume.Some? then 1 else 0)
    ensures forall k :: 0 <= k < 10 ==> parts[k] == (ProfileKeys[k], TextPart(Field(f, ProfileKeys[k])))
    ensures parts[10..] == FileParts(f)
    ensures forall k :: 0 <= k < |parts| ==> parts[k].0 != "email"
  {
    [("name", TextPart(f.name)), ("phone", TextPart(f.phone)), ("location", TextPart(f.location)),
     ("education", TextPart(f.education)), ("bio", TextPart(f.bio)), ("skills", TextPart(f.skills)),
     ("linkedin", TextPart(f.linkedin)), ("github", TextPart(f.github)), ("website", TextPart(f.website)),
     ("experience", TextPart(f.experience))]
    + FileParts(f)
  }

  /** Saving right after a fetch sends back what the server gave (name falling back to the
      user), with the skills array as its joined text. */
  lemma LoadThenSave(prev: ProfileForm, d: ProfileData, user: Option<User>)
    ensures var parts := ProfileParts(Loaded(prev, d, user));
      && parts[0] == ("name", TextPart(OrElse(d.name, UserName(user))))
      && parts[1] == ("phone", TextPart(d.phone))
      && parts[2] == ("location", TextPart(d.location))
      && parts[3] == ("education", TextPart(d.education))
      && parts[4] == ("bio", TextPart(d.bio))
      && parts[5] == ("skills", TextPart(SkillsText(d.skills)))
      && parts[6] == ("linkedin", TextPart(d.linkedin))
      && parts[7] == ("github", TextPart(d.github))
      && parts[8] == ("website", TextPart(d.website))
      && parts[9] == ("experience", TextPart(d.experience))
      && parts[10..] == FileParts(prev)
  {
  }

  function TrimAll(xs: seq<string>): (r: seq<string>)
    ensures |r| == |xs| && forall k :: 0 <= k < |xs| ==> r[k] == Trim(xs[k])
  {
    if xs == [] then [] else [Trim(xs[0])] + TrimAll(xs[1..])
  }

  /** The skill chips shown outside edit mode: the text split on "," with each item
      trimmed, none for empty text. */
  function SkillChips(skills: string): (chips: seq<string>)
    ensures skills == "" <==> chips == []
    ensures forall k :: 0 <= k < |chips| ==> Trimmed(chips[k])
  {
    if skills == "" then [] else TrimAll(Split(skills, ","))
  }

  /** A skills array of trimmed, non-empty items without commas is shown as exactly those
      chips after joining with ", ". */
  lemma SkillsRoundTrip(items: seq<string>)
    requires |items| > 0
    requires forall k :: 0 <= k < |items| ==> items[k] != "" && Trimmed(items[k]) && ',' !in items[k]
    ensures SkillChips(SkillsText(SkillList(items))) == items
  {
    assert [','] + " " == ", ";
    assert "" + Join(items, [','] + " ") == Join(items, ", ");
    assert "" + items[0] == items[0];
    SplitJoinPadded("", items, ',', " ");
    TrimPieces(items);
  }

  /** Trimming the pieces of the split drops the padding space of every piece. */
  lemma TrimPieces(items: seq<string>)
    requires |items| > 0
    requires forall k :: 0 <= k < |items| ==> Trimmed(items[k])
    ensures TrimAll([items[0]] + Prefixed(" ", items[1..])) == items
  {
    var tail := items[1..];
    var rest := Prefixed(" ", tail);
    var pieces := [items[0]] + rest;
    var chips := TrimAll(pieces);
    forall k | 0 <= k < |items| ensures chips[k] == items[k] {
      if k == 0 {
        TrimOfTrimmed(items[0]);
      } else {
        assert pieces[k] == rest[k - 1];
        assert tail[k - 1] == items[k];
        TrimSpaced(tail[k - 1]);
      }
    }
  }

  lemma TrimSpaced(x: string)
    requires Trimmed(x)
    ensures Trim(" " + x) == x
  {
    assert AllSpace(" ") by { assert IsJsSpace(' '); }
    assert AllSpace("");
    TrimPadded(" ", x, "");
    assert " " + x + "" == " " + x;
  }

  /** The student page's password check compares new and confirm only. */
  predicate StudentPasswordMismatch(f: ProfileForm)
  {
    f.newPassword != f.confirmPassword
  }

  function FormPasswords(f: ProfileForm): PasswordFields
  {
    PasswordFields(f.currentPassword, f.newPassword, f.confirmPassword)
  }

  /** Everything the company page refuses, the student page refuses too; unlike the
      company page, it also refuses an empty new password with a non-empty confirmation. */
  lemma StudentCheckVsCompany(f: ProfileForm)
    ensures CompanyPasswordError(FormPasswords(f)).Some? ==> StudentPasswordMismatch(f)
    ensures StudentPasswordMismatch(f) && CompanyPasswordError(FormPasswords(f)).None?
      <==> f.newPassword == "" && f.confirmPassword != ""
  {
  }

  class StudentProfilePage {
    const store: AuthStore
    var isEditing: bool
    var activeTab: Tab
    var form: ProfileForm
    var isLoading: bool
    var stats: StatsView

    constructor (store: AuthStore)
      ensures this.store == store && !isEditing && activeTab == ProfileTab
      ensures form == EmptyProfile && isLoading && stats == ZeroStats
    {
      this.store := store;
      isEditing := false;
      activeTab := ProfileTab;
      form := EmptyProfile;
      isLoading := true;
      stats := ZeroStats;
    }

    method SetTab(t: Tab)
      modifies this`activeTab
      ensures activeTab == t
    {
      activeTab := t;
    }

    method SetEditing(on: bool)
      modifies this`isEditing
      ensures isEditing == on
    {
      isEditing := on;
    }

    /** The fetch effect (run on mount and whenever the user changes), for the answer
        `reply`; `loadingAtSend` is the loading flag while it is out. */
    method FetchProfile(reply: Reply<ProfileData>) returns (ghost loadingAtSend: bool)
      modifies this`form, this`stats, this`isLoading, store.win
      ensures loadingAtSend && !isLoading
      ensures store.win.storage == old(store.win.storage)
      ensures store.win.trace == old(store.win.trace) + [Send(GetStudentProfile, WithBearer(map[], old(store.win.GetItem(TokenKey))))]
      ensures reply.Ok? ==> form == Loaded(old(form), reply.data, store.user) && stats == StatsOf(reply.data)
      ensures reply.Err? ==> form == FailedLoad(old(form), store.user) && stats == old(stats)
    {
      isLoading := true;
      loadingAtSend := isLoading;
      var r := ApiCall(store.win, GetStudentProfile, map[], reply);
      if r.Ok? {
        form := Loaded(form, r.data, store.user);
        stats := StatsOf(r.data);
      } else {
        form := FailedLoad(form, store.user);
      }
      isLoading := false;
    }

    /** The resume picker: no file does nothing, an oversized file raises an alert and
        keeps the form, anything else becomes the chosen resume. */
    method SelectResume(file: Option<File>)
      modifies this`form, store.win
      ensures store.win.storage == old(store.win.storage)
      ensures file.None? ==> form == old(form) && store.win.trace == old(store.win.trace)
      ensures file.Some? && !AcceptsFile(file.value) ==>
        form == old(form) && store.win.trace == old(store.win.trace) + [Alert(SizeAlert)]
      ensures file.Some? && AcceptsFile(file.value) ==>
        form == old(form).(resume := file) && store.win.trace == old(store.win.trace)
    {
      if file.Some? {
        if file.value.size > MaxResumeBytes {
          store.win.Emit(Alert(SizeAlert));
          return;
        }
        form := form.(resume := file);
      }
    }

    /** `handleSubmit` for the answer `reply`: `sent` tells whether a request went out. */
    method HandleSubmit(reply: Reply<()>) returns (sent: bool)
      modifies this`isEditing, this`form, store.win
      ensures sent <==> !(activeTab == PasswordTab && StudentPasswordMismatch(old(form)))
      ensures store.win.storage == old(store.win.storage)
      ensures !sent ==> isEditing == old(isEditing) && form == old(form) && store.win.trace == old(store.win.trace)
      ensures sent && activeTab == ProfileTab ==>
        store.win.trace == old(store.win.trace)
          + [Send(PutStudentProfile(ProfileParts(old(form))), WithBearer(MultipartHeaders, old(store.win.GetItem(TokenKey))))]
      ensures sent && activeTab == PasswordTab ==>
        store.win.trace == old(store.win.trace)
          + [Send(PutAuthUpdate(PasswordPayload(FormPasswords(old(form)))), WithBearer(map[], old(store.win.GetItem(TokenKey))))]
      ensures sent && reply.Ok? ==>
        && !isEditing
        && form == if activeTab == PasswordTab
                   then old(form).(currentPassword := "", newPassword := "", confirmPassword := "")
                   else old(form)
      ensures reply.Err? ==> isEditing == old(isEditing) && form == old(form)
    {
      if activeTab == PasswordTab && form.newPassword != form.confirmPassword {
        return false;
      }
      sent := true;
      var r;
      if activeTab == ProfileTab {
        r := ApiCall(store.win, PutStudentProfile(ProfileParts(form)), MultipartHeaders, reply);
      } else {
        r := ApiCall(store.win, PutAuthUpdate(PasswordPayload(FormPasswords(form))), map[], reply);
      }
      if r.Ok? {
        isEditing := false;
        if activeTab == PasswordTab {
          form := form.(currentPassword := "", newPassword := "", confirmPassword := "");
        }
      }
    }
  }
}
