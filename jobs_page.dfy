/** The student job board (`pages/student/Jobs.jsx`): the search and the query string it
    writes into the address bar (and reads back from it), the apply form with its file-size
    check, and the two-phase submission: the CV upload, then the application carrying the
    uploaded file's URL. */
module JobsPage {
  import opened Text
  import opened Net
  import opened Browser
  import opened Session
  import opened Gateway
  import opened UrlParams

  /** 10 MiB: the largest CV either file input accepts. */
  const MaxResumeBytes := 10 * 1024 * 1024
  const SizeAlert := "File size exceeds 10MB limit"
  const FieldsAlert := "Please fill in all required fields"
  const CvAlert := "Please upload your CV"
  const SuccessAlert := "Application submitted successfully!"
  const SubmitFailure := "Failed to submit application. Please try again."
  const UploadFallback := "Failed to upload resume"
  const MultipartHeaders := map["Content-Type" := "multipart/form-data"]

  /** The `q` the search sends: title and position joined by a space, trimmed. */
  function SearchQuery(title: string, position: string): (q: string)
    ensures Trimmed(q)
    ensures title == "" && position == "" ==> q == ""
  {
    var q := Trim(title + " " + position);
    if title == "" && position == "" then
      assert title + " " + position == "" + "" + " ";
      TrimPadded("", "", " ");
      q
    else q
  }

  /** Trimmed, non-empty title and position are sent as they are, one space apart. */
  lemma SearchQueryJoins(title: string, position: string)
    requires Trimmed(title) && Trimmed(position) && title != "" && position != ""
    ensures SearchQuery(title, position) == title + " " + position
  {
    var s := title + " " + position;
    assert s[0] == title[0] && s[|s| - 1] == position[|position| - 1];
    TrimOfTrimmed(s);
  }

  /** A search on one field alone sends that field (once trimmed) as `q`. */
  lemma SearchQueryOneSided(x: string)
    requires Trimmed(x)
    ensures SearchQuery(x, "") == x
    ensures SearchQuery("", x) == x
  {
    assert AllSpace(" ");
    var s1 := x + " " + "";
    assert s1 == "" + x + " ";
    TrimPadded("", x, " ");
    assert "" + " " == " " && " " + x + "" == " " + x;
    TrimPadded(" ", x, "");
  }

  const TitleKey := "title"
  const PositionKey := "position"
  const LocationKey := "location"

  /** `if (v) params.set(k, v)`. */
  function SetIfGiven(ps: Params, k: string, v: string): Params
  {
    if v != "" then Set(ps, k, v) else ps
  }

  /** The pair a field contributes: one when it is non-empty, none otherwise. */
  function Given(k: string, v: string): Params
  {
    if v != "" then [(k, v)] else []
  }

  /** Setting a field whose key is not yet there appends its pair. */
  lemma SetIfGivenAbsent(ps: Params, k: string, v: string)
    requires !HasKey(ps, k)
    ensures SetIfGiven(ps, k, v) == ps + Given(k, v)
  {
  }

  /** Appending a field's pair does not bring in another key. */
  lemma GivenKeepsAbsent(ps: Params, k: string, v: string, k2: string)
    requires !HasKey(ps, k2) && k != k2
    ensures !HasKey(ps + Given(k, v), k2)
  {
    var r := ps + Given(k, v);
    forall i | 0 <= i < |r| ensures r[i].0 != k2 {
      if i < |ps| { assert r[i] == ps[i]; }
    }
  }

  /** Three fields set one after the other under three different keys give their pairs
      in that order. */
  lemma SetThree(k1: string, v1: string, k2: string, v2: string, k3: string, v3: string)
    requires k1 != k2 && k1 != k3 && k2 != k3
    ensures SetIfGiven(SetIfGiven(SetIfGiven([], k1, v1), k2, v2), k3, v3)
      == Given(k1, v1) + Given(k2, v2) + Given(k3, v3)
  {
    var e: Params := [];
    SetIfGivenAbsent(e, k1, v1);
    GivenKeepsAbsent(e, k1, v1, k2);
    GivenKeepsAbsent(e, k1, v1, k3);
    assert e + Given(k1, v1) == Given(k1, v1);
    var ps1 := Given(k1, v1);
    SetIfGivenAbsent(ps1, k2, v2);
    GivenKeepsAbsent(ps1, k2, v2, k3);
    var ps2 := ps1 + Given(k2, v2);
    SetIfGivenAbsent(ps2, k3, v3);
  }

  lemma KeysDistinct()
    ensures TitleKey != PositionKey && TitleKey != LocationKey && PositionKey != LocationKey
  {
    assert TitleKey[0] == 't' && PositionKey[0] == 'p' && LocationKey[0] == 'l';
  }

  /** The params written after a search (and by the student home page's search box):
      `title`, `position`, `location`, in that order, each only when non-empty. */
  function SearchParams(t: string, p: string, l: string): (ps: Params)
    ensures ps == Given(TitleKey, t) + Given(PositionKey, p) + Given(LocationKey, l)
  {
    KeysDistinct();
    SetThree(TitleKey, t, PositionKey, p, LocationKey, l);
    SetIfGiven(SetIfGiven(SetIfGiven([], TitleKey, t), PositionKey, p), LocationKey, l)
  }

  /** There are no params exactly when all three fields are empty. */
  lemma SearchParamsEmpty(t: string, p: string, l: string)
    ensures SearchParams(t, p, l) == [] <==> t == "" && p == "" && l == ""
  {
    var ps := SearchParams(t, p, l);
    assert |ps| == |Given(TitleKey, t)| + |Given(PositionKey, p)| + |Given(LocationKey, l)|;
  }

  /** Looking up the key of a leading field. */
  lemma GetGivenSame(k: string, v: string, rest: Params)
    ensures Get(Given(k, v) + rest, k) == if v != "" then Some(v) else Get(rest, k)
  {
    if v != "" {
      assert (Given(k, v) + rest)[0] == (k, v);
    } else {
      assert Given(k, v) + rest == rest;
    }
  }

  /** Looking up another key skips a leading field. */
  lemma GetGivenOther(k: string, v: string, rest: Params, k2: string)
    requires k != k2
    ensures Get(Given(k, v) + rest, k2) == Get(rest, k2)
  {
    if v != "" {
      var r := Given(k, v) + rest;
      assert r[0] == (k, v) && r[1..] == rest;
    } else {
      assert Given(k, v) + rest == rest;
    }
  }

  /** The first, second and third of three given pairs under different keys. */
  lemma GetThree(k1: string, v1: string, k2: string, v2: string, k3: string, v3: string)
    requires k1 != k2 && k1 != k3 && k2 != k3
    ensures Get(Given(k1, v1) + Given(k2, v2) + Given(k3, v3), k1) == if v1 != "" then Some(v1) else None
    ensures Get(Given(k1, v1) + Given(k2, v2) + Given(k3, v3), k2) == if v2 != "" then Some(v2) else None
    ensures Get(Given(k1, v1) + Given(k2, v2) + Given(k3, v3), k3) == if v3 != "" then Some(v3) else None
  {
    var a, b, c := Given(k1, v1), Given(k2, v2), Given(k3, v3);
    var e: Params := [];
    assert a + b + c == a + (b + (c + e));
    GetGivenSame(k1, v1, b + (c + e));
    GetGivenOther(k2, v2, c + e, k1);
    GetGivenOther(k3, v3, e, k1);
    GetGivenOther(k1, v1, b + (c + e), k2);
    GetGivenSame(k2, v2, c + e);
    GetGivenOther(k3, v3, e, k2);
    GetGivenOther(k1, v1, b + (c + e), k3);
    GetGivenOther(k2, v2, c + e, k3);
    GetGivenSame(k3, v3, e);
  }

  /** Each of the three keys holds its field when that is non-empty, and is absent otherwise. */
  lemma SearchParamsGet(t: string, p: string, l: string)
    ensures Get(SearchParams(t, p, l), TitleKey) == if t != "" then Some(t) else None
    ensures Get(SearchParams(t, p, l), PositionKey) == if p != "" then Some(p) else None
    ensures Get(SearchParams(t, p, l), LocationKey) == if l != "" then Some(l) else None
  {
    KeysDistinct();
    GetThree(TitleKey, t, PositionKey, p, LocationKey, l);
  }

  /** Reading the three search fields back from the query string written for them gives
      the same values, a missing key reading as the empty string. */
  lemma SearchParamsRoundTrip(t: string, p: string, l: string, encode: string -> string, decode: string -> string)
    requires QueryCodec(encode, decode)
    ensures GetOr(Parse("?" + Serialize(SearchParams(t, p, l), encode), decode), TitleKey) == t
    ensures GetOr(Parse("?" + Serialize(SearchParams(t, p, l), encode), decode), PositionKey) == p
    ensures GetOr(Parse("?" + Serialize(SearchParams(t, p, l), encode), decode), LocationKey) == l
  {
    var ps := SearchParams(t, p, l);
    ParseSerialize(ps, encode, decode);
    SearchParamsGet(t, p, l);
  }

  /** The address pushed after a search: the current path, `?` (always), the params;
      it is the bare `path?` exactly when no filter is set. */
  function SearchUrl(pathname: string, t: string, p: string, l: string, encode: string -> string): (u: string)
    ensures |u| > |pathname| && u[..|pathname| + 1] == pathname + "?"
    ensures u == pathname + "?" <==> t == "" && p == "" && l == ""
  {
    var qs := Serialize(SearchParams(t, p, l), encode);
    SearchParamsEmpty(t, p, l);
    QueryAfterMark(pathname, qs);
    pathname + "?" + qs
  }

  /** The path before the `?` of an address, and the query after it. */
  lemma QueryAfterMark(a: string, q: string)
    ensures (a + "?" + q)[..|a| + 1] == a + "?" && (a + "?" + q)[|a| + 1..] == q
    ensures (a + "?" + q)[|a|..] == "?" + q
    ensures a + "?" + q == a + "?" <==> q == ""
  {
    if a + "?" + q == a + "?" {
      assert |q| == 0;
    }
  }

  /** The pushed address seeds a later visit: its query string (from the `?` on, as
      `location.search` gives it) reads back the three searched fields. */
  lemma SearchUrlSeedsFields(pathname: string, t: string, p: string, l: string, encode: string -> string, decode: string -> string)
    requires QueryCodec(encode, decode)
    ensures var search := SearchUrl(pathname, t, p, l, encode)[|pathname|..];
      && GetOr(Parse(search, decode), TitleKey) == t
      && GetOr(Parse(search, decode), PositionKey) == p
      && GetOr(Parse(search, decode), LocationKey) == l
  {
    var qs := Serialize(SearchParams(t, p, l), encode);
    assert SearchUrl(pathname, t, p, l, encode) == pathname + "?" + qs;
    QueryAfterMark(pathname, qs);
    SearchParamsRoundTrip(t, p, l, encode, decode);
  }

  datatype ApplicationForm = ApplicationForm(name: string, email: string, phone: string, cv: Option<File>)

  const EmptyForm := ApplicationForm("", "", "", None)

  /** The apply form as the Apply button opens it: the signed-in user's contact details
      and no CV. */
  function Prefill(user: Option<User>): (f: ApplicationForm)
    ensures f.cv.None?
    ensures user.None? ==> f.name == "" && f.email == "" && f.phone == ""
    ensures user.Some? ==> f.name == user.value.name && f.email == user.value.email && f.phone == user.value.phone
  {
    if user.Some? then ApplicationForm(user.value.name, user.value.email, user.value.phone, None)
    else EmptyForm
  }

  /** The size check of both CV inputs. */
  predicate AcceptsFile(f: File)
    ensures AcceptsFile(f) <==> f.size <= 10485760
  {
    f.size <= MaxResumeBytes
  }

  /** Exactly 10 MiB is accepted, one byte more is not. */
  lemma SizeLimitBoundary(name: string)
    ensures AcceptsFile(File(name, 10485760))
    ensures !AcceptsFile(File(name, 10485761))
  {
  }

  /** The alert shown when the server answers the upload with `success: false`, as the
      handler is written: the message is put into a plain `Error`, but the catch block reads
      only `response.data.message`, which such an error lacks. The reply `d` is taken only
      to match `UploadRejection`: the alert as written does not depend on it. */
  function UploadRejectionAsWritten(d: UploadData): (m: string)
    ensures m == SubmitFailure
  {
    MessageOr(NoResponse, SubmitFailure)
  }

  /** The alert the thrown error was built for: the server's message, or the upload fallback. */
  function UploadRejection(d: UploadData): (m: string)
    ensures d.message != "" ==> m == d.message
    ensures d.message == "" ==> m == UploadFallback
  {
    OrElse(d.message, UploadFallback)
  }

  /** The rejection message of the upload never reaches the user as the code is written. */
  lemma UploadMessageLost(d: UploadData)
    requires d.message != "" && d.message != SubmitFailure
    ensures UploadRejectionAsWritten(d) != d.message
    ensures UploadRejection(d) == d.message
  {
  }

  datatype SubmitOutcome = NoJobSelected | MissingFields | MissingCv | Failed(message: string) | Submitted

  /** The address-bar update after a successful search: the params built field by field,
      pushed behind the current path. */
  method PushSearchUrl(win: Window, t: string, p: string, l: string)
    modifies win
    ensures win.storage == old(win.storage)
    ensures win.trace == old(win.trace) + [PushState(SearchUrl(win.pathname, t, p, l, win.formEncode))]
  {
    var ps := SearchParams(t, p, l);
    var newUrl := win.pathname + "?" + Serialize(ps, win.formEncode);
    win.Emit(PushState(newUrl));
  }

  /** The first effect after a recorded prefix. */
  lemma FirstAfter(t0: seq<Effect>, xs: seq<Effect>)
    requires |xs| > 0
    ensures |t0 + xs| > |t0| && (t0 + xs)[..|t0| + 1] == t0 + [xs[0]]
  {
    assert (t0 + xs)[..|t0| + 1] == t0 + xs[..1];
  }

  class JobsView {
    const store: AuthStore
    var jobs: seq<Job>
    var title: string
    var position: string
    var location: string
    var loading: bool
    var showApplyModal: bool
    var selectedJob: Option<Job>
    var form: ApplicationForm
    var isSubmitting: bool

    constructor (store: AuthStore)
      ensures this.store == store && jobs == []
      ensures title == "" && position == "" && location == ""
      ensures !loading && !showApplyModal && selectedJob == None && form == EmptyForm && !isSubmitting
    {
      this.store := store;
      jobs := [];
      title, position, location := "", "", "";
      loading := false;
      showApplyModal := false;
      selectedJob := None;
      form := EmptyForm;
      isSubmitting := false;
    }

    /** The token the request hook will find in storage. */
    function Stored(): Option<string>
      reads store.win
    {
      store.win.GetItem(TokenKey)
    }

    /** `loadJobs(t, p, l, updateUrl)` for the server's answer `reply`. There is no catch:
        a failed search leaves the list as it was and rejects to the caller, which
        `r` hands back. */
    method LoadJobs(t: string, p: string, l: string, updateUrl: bool, reply: Reply<seq<Job>>)
      returns (r: Reply<seq<Job>>, ghost loadingAtSend: bool)
      requires store.Valid()
      modifies this`title, this`position, this`location, this`loading, this`jobs, store.win
      ensures store.Valid() && r == reply && store.win.storage == old(store.win.storage)
      ensures title == t && position == p && location == l
      ensures loadingAtSend && !loading
      ensures reply.Ok? ==> jobs == reply.data
      ensures reply.Err? ==> jobs == old(jobs)
      ensures !(reply.Ok? && updateUrl) ==>
        store.win.trace == old(store.win.trace)
          + [Send(SearchJobs(SearchQuery(t, p), l), WithBearer(map[], old(Stored())))]
      ensures reply.Ok? && updateUrl ==>
        store.win.trace == old(store.win.trace)
          + [Send(SearchJobs(SearchQuery(t, p), l), WithBearer(map[], old(Stored())))]
          + [PushState(SearchUrl(store.win.pathname, t, p, l, store.win.formEncode))]
    {
      title, position, location := t, p, l;
      loading := true;
      loadingAtSend := loading;
      var q := SearchQuery(t, p);
      r := ApiCall(store.win, SearchJobs(q, l), map[], reply);
      if r.Ok? {
        jobs := r.data;
        if updateUrl {
          PushSearchUrl(store.win, t, p, l);
        }
      }
      loading := false;
    }

    /** The Search button and the Enter key: `loadJobs()` on the current fields. */
    method Search(reply: Reply<seq<Job>>) returns (r: Reply<seq<Job>>)
      requires store.Valid()
      modifies this`title, this`position, this`location, this`loading, this`jobs, store.win
      ensures store.Valid() && r == reply && !loading && store.win.storage == old(store.win.storage)
      ensures title == old(title) && position == old(position) && location == old(location)
      ensures reply.Ok? ==> jobs == reply.data
      ensures reply.Err? ==> jobs == old(jobs)
      ensures store.win.trace == old(store.win.trace)
        + [Send(SearchJobs(SearchQuery(title, position), location), WithBearer(map[], old(Stored())))]
        + (if reply.Ok? then [PushState(SearchUrl(store.win.pathname, title, position, location, store.win.formEncode))] else [])
    {
      ghost var loadingAtSend;
      r, loadingAtSend := LoadJobs(title, position, location, true, reply);
    }

    /** The mount effect: `loadJobs()` once on the freshly constructed board, so every
        filter is empty: the request carries no filter and the address bar gets a bare `?`. */
    method Mount(reply: Reply<seq<Job>>) returns (r: Reply<seq<Job>>)
      requires store.Valid() && title == "" && position == "" && location == ""
      modifies this`title, this`position, this`location, this`loading, this`jobs, store.win
      ensures store.Valid() && r == reply && !loading && store.win.storage == old(store.win.storage)
      ensures title == "" && position == "" && location == ""
      ensures reply.Ok? ==> jobs == reply.data
      ensures reply.Err? ==> jobs == old(jobs)
      ensures reply.Err? ==>
        store.win.trace == old(store.win.trace) + [Send(SearchJobs(SearchQuery("", ""), ""), WithBearer(map[], old(Stored())))]
      ensures reply.Ok? ==>
        store.win.trace == old(store.win.trace)
          + [Send(SearchJobs(SearchQuery("", ""), ""), WithBearer(map[], old(Stored()))), PushState(store.win.pathname + "?")]
    {
      ghost var loadingAtSend;
      r, loadingAtSend := LoadJobs(title, position, location, true, reply);
      SearchParamsEmpty("", "", "");
    }

    /** The effect on the router's query string `search`: a non-empty one seeds the three
        fields from `title`, `position` and `location` and searches with them. */
    method OnLocationSearch(search: string, reply: Reply<seq<Job>>) returns (r: Option<Reply<seq<Job>>>)
      requires store.Valid()
      modifies this`title, this`position, this`location, this`loading, this`jobs, store.win
      ensures store.Valid()
      ensures search == "" ==> r == None && unchanged(this) && unchanged(store.win)
      ensures search != "" ==> r == Some(reply) && !loading && store.win.storage == old(store.win.storage)
      ensures search != "" ==>
        && title == GetOr(Parse(search, store.win.formDecode), TitleKey)
        && position == GetOr(Parse(search, store.win.formDecode), PositionKey)
        && location == GetOr(Parse(search, store.win.formDecode), LocationKey)
      ensures search != "" && reply.Ok? ==> jobs == reply.data
      ensures search != "" && reply.Err? ==>
        store.win.trace == old(store.win.trace)
          + [Send(SearchJobs(SearchQuery(title, position), location), WithBearer(map[], old(Stored())))]
      ensures search != "" && reply.Ok? ==>
        store.win.trace == old(store.win.trace)
          + [Send(SearchJobs(SearchQuery(title, position), location), WithBearer(map[], old(Stored())))]
          + [PushState(SearchUrl(store.win.pathname, title, position, location, store.win.formEncode))]
    {
      if search == "" {
        r := None;
        return;
      }
      var sp := Parse(search, store.win.formDecode);
      var t := GetOr(sp, TitleKey);
      var p := GetOr(sp, PositionKey);
      var l := GetOr(sp, LocationKey);
      title, position, location := t, p, l;
      var res;
      ghost var loadingAtSend;
      res, loadingAtSend := LoadJobs(t, p, l, true, reply);
      r := Some(res);
    }

    /** The Apply button of a job card. */
    method HandleApplyClick(job: Job)
      modifies this`selectedJob, this`form, this`showApplyModal
      ensures selectedJob == Some(job) && form == Prefill(store.user) && showApplyModal
    {
      selectedJob := Some(job);
      form := Prefill(store.user);
      showApplyModal := true;
    }

    /** The CV input; `file` is the first selected file, if any. */
    method HandleFileChange(file: Option<File>)
      modifies this`form, store.win
      ensures file.None? ==> form == old(form) && unchanged(store.win)
      ensures file.Some? && !AcceptsFile(file.value) ==>
        form == old(form) && store.win.storage == old(store.win.storage) && store.win.trace == old(store.win.trace) + [Alert(SizeAlert)]
      ensures file.Some? && AcceptsFile(file.value) ==> form == old(form).(cv := file) && unchanged(store.win)
    {
      if file.Some? {
        var f := file.value;
        if f.size > MaxResumeBytes {
          store.win.Emit(Alert(SizeAlert));
          return;
        }
        form := form.(cv := Some(f));
      }
    }

    /** The submit handler, for the server's answers to the upload and to the application.
        `submittingAtSend` is the submitting cell when the upload goes out. */
    method HandleSubmitApplication(upload: Reply<UploadData>, apply: Reply<()>)
      returns (outcome: SubmitOutcome, ghost submittingAtSend: bool)
      requires store.Valid()
      modifies this`form, this`showApplyModal, this`selectedJob, this`isSubmitting, store.win
      ensures store.Valid() && store.win.storage == old(store.win.storage)
      ensures outcome == NoJobSelected <==> old(selectedJob).None?
      ensures outcome == MissingFields <==> old(selectedJob).Some? && (old(form).name == "" || old(form).email == "")
      ensures outcome == MissingCv <==> old(selectedJob).Some? && old(form).name != "" && old(form).email != "" && old(form).cv.None?
      ensures outcome in {NoJobSelected, MissingFields, MissingCv} ==> unchanged(this)
      ensures outcome == NoJobSelected ==> store.win.trace == old(store.win.trace)
      ensures outcome == MissingFields ==> store.win.trace == old(store.win.trace) + [Alert(FieldsAlert)]
      ensures outcome == MissingCv ==> store.win.trace == old(store.win.trace) + [Alert(CvAlert)]
      ensures outcome.Failed? || outcome == Submitted ==> Sent(old(form), old(selectedJob), old(Stored()), old(store.win.trace), upload, apply, outcome, submittingAtSend)
      ensures outcome.Failed? ==> showApplyModal == old(showApplyModal)
      ensures outcome == Submitted <==> old(selectedJob).Some? && old(form).name != "" && old(form).email != "" && old(form).cv.Some?
                                        && upload.Ok? && upload.data.success && apply.Ok?
    {
      submittingAtSend := false;
      if selectedJob.None? {
        return NoJobSelected, submittingAtSend;
      }
      if form.name == "" || form.email == "" {
        store.win.Emit(Alert(FieldsAlert));
        return MissingFields, submittingAtSend;
      }
      if form.cv.None? {
        store.win.Emit(Alert(CvAlert));
        return MissingCv, submittingAtSend;
      }
      outcome, submittingAtSend := SendApplication(upload, apply);
    }

    /** What a submission that passed the form checks did: the upload went out first with
        the submitting cell raised; a failed or refused upload alerts its message; a
        successful one is followed by the application carrying the uploaded URL and the
        alert of its result; only a successful application clears the form and closes the
        modal. */
    ghost predicate Sent(form0: ApplicationForm, job0: Option<Job>, token: Option<string>, trace0: seq<Effect>,
                         upload: Reply<UploadData>, apply: Reply<()>, outcome: SubmitOutcome, submittingAtSend: bool)
      requires form0.cv.Some? && job0.Some?
      reads this, store.win
    {
      var send := Send(UploadResume(form0.cv.value), WithBearer(MultipartHeaders, token));
      && submittingAtSend && !isSubmitting
      && (outcome.Failed? || outcome == Submitted)
      && |store.win.trace| > |trace0| && store.win.trace[..|trace0| + 1] == trace0 + [send]
      && (upload.Err? || !upload.data.success ==> outcome.Failed? && store.win.trace == trace0 + [send, Alert(outcome.message)])
      && (upload.Err? ==> outcome.message == MessageOr(upload.failure, SubmitFailure))
      && (upload.Ok? && !upload.data.success ==> outcome.message == UploadRejection(upload.data))
      && (upload.Ok? && upload.data.success ==>
            store.win.trace == trace0
              + [ send,
                  Send(ApplyToJob(job0.value.id, form0.name, form0.email, form0.phone, upload.data.url), WithBearer(map[], token)),
                  Alert(if apply.Ok? then SuccessAlert else MessageOr(apply.failure, SubmitFailure)) ])
      && (outcome == Submitted <==> upload.Ok? && upload.data.success && apply.Ok?)
      && (outcome == Submitted ==> form == EmptyForm && !showApplyModal && selectedJob == None)
      && (outcome.Failed? ==> form == form0 && selectedJob == job0)
    }

    /** The application request after a successful upload, with the uploaded URL, and the
        alert of its result; only a successful request resets the form and closes the modal. */
    method ApplyUploaded(url: Option<string>, apply: Reply<()>) returns (outcome: SubmitOutcome)
      requires store.Valid() && selectedJob.Some?
      modifies this`form, this`showApplyModal, this`selectedJob, store.win
      ensures store.Valid() && store.win.storage == old(store.win.storage)
      ensures store.win.trace == old(store.win.trace)
        + [ Send(ApplyToJob(old(selectedJob).value.id, old(form).name, old(form).email, old(form).phone, url), WithBearer(map[], old(Stored()))),
            Alert(if apply.Ok? then SuccessAlert else MessageOr(apply.failure, SubmitFailure)) ]
      ensures outcome == Submitted <==> apply.Ok?
      ensures outcome == Submitted ==> form == EmptyForm && !showApplyModal && selectedJob == None
      ensures apply.Err? ==>
        && outcome == Failed(MessageOr(apply.failure, SubmitFailure))
        && form == old(form) && selectedJob == old(selectedJob) && showApplyModal == old(showApplyModal)
    {
      var job := selectedJob.value;
      var ap := ApiCall(store.win, ApplyToJob(job.id, form.name, form.email, form.phone, url), map[], apply);
      if ap.Ok? {
        store.win.Emit(Alert(SuccessAlert));
        form := EmptyForm;
        showApplyModal := false;
        selectedJob := None;
        outcome := Submitted;
      } else {
        outcome := Failed(MessageOr(ap.failure, SubmitFailure));
        store.win.Emit(Alert(outcome.message));
      }
    }

    /** The part of the handler after the form checks: the upload, then the application. */
    method SendApplication(upload: Reply<UploadData>, apply: Reply<()>)
      returns (outcome: SubmitOutcome, ghost submittingAtSend: bool)
      requires store.Valid() && selectedJob.Some? && form.name != "" && form.email != "" && form.cv.Some?
      modifies this`form, this`showApplyModal, this`selectedJob, this`isSubmitting, store.win
      ensures store.Valid() && store.win.storage == old(store.win.storage)
      ensures Sent(old(form), old(selectedJob), old(Stored()), old(store.win.trace), upload, apply, outcome, submittingAtSend)
      ensures outcome.Failed? ==> showApplyModal == old(showApplyModal)
    {
      ghost var t0, token := store.win.trace, Stored();
      ghost var send := Send(UploadResume(form.cv.value), WithBearer(MultipartHeaders, token));
      isSubmitting := true;
      submittingAtSend := isSubmitting;
      var up := ApiCall(store.win, UploadResume(form.cv.value), MultipartHeaders, upload);
      if up.Err? || !up.data.success {
        outcome := Failed(if up.Err? then MessageOr(up.failure, SubmitFailure) else UploadRejection(up.data));
        store.win.Emit(Alert(outcome.message));
        assert store.win.trace == t0 + [send, Alert(outcome.message)];
        FirstAfter(t0, [send, Alert(outcome.message)]);
        isSubmitting := false;
        return;
      }
      ghost var applied := Send(ApplyToJob(selectedJob.value.id, form.name, form.email, form.phone, up.data.url), WithBearer(map[], token));
      outcome := ApplyUploaded(up.data.url, apply);
      assert store.win.trace == t0 + [send, applied, Alert(if apply.Ok? then SuccessAlert else MessageOr(apply.failure, SubmitFailure))];
      FirstAfter(t0, [send, applied, Alert(if apply.Ok? then SuccessAlert else MessageOr(apply.failure, SubmitFailure))]);
      isSubmitting := false;
    }
  }
}
