/** The application detail view a company opens from its dashboard
    (`pages/company/ApplicationDetails.jsx`): the status actions offered for a pending
    application, the status badge, and the rewriting of the student's resume URL before it
    is opened in a tab or downloaded. */
module ApplicationDetails {
  import opened Text
  import opened Net
  import opened Browser
  import opened Session
  import opened Gateway
  import opened CompanyDashboard

  datatype Action = Reject | Interview | Accept

  /** The footer buttons: the three status actions exist only for a pending application. */
  function Actions(status: string): (acts: seq<Action>)
    ensures |acts| > 0 <==> status == "PENDING"
    ensures status == "PENDING" ==> Reject in acts && Interview in acts && Accept in acts
  {
    if status == "PENDING" then [Reject, Interview, Accept] else []
  }

  /** The status each action asks for. */
  function TargetStatus(a: Action): string
  {
    match a
    case Reject => "REJECTED"
    case Interview => "INTERVIEW"
    case Accept => "ACCEPTED"
  }

  /** What each button passes to the status callback; `note` is the answer to the
      interview prompt, None when the prompt is cancelled. */
  function ActionArg(a: Action, note: Option<string>): (arg: StatusArg)
  {
    match a
    case Reject => StatusName("REJECTED")
    case Accept => StatusName("ACCEPTED")
    case Interview => StatusObject(StatusPayload("INTERVIEW", Some(if note.Some? then OrElse(note.value, "") else "")))
  }

  /** The PATCH body each action sends: the target status, and a message (empty when the
      prompt was cancelled) only for an interview invitation. Every action leaves PENDING,
      and different actions ask for different statuses. */
  lemma ActionPatches(a: Action, b: Action, note: Option<string>)
    ensures PatchBody(ActionArg(a, note)).status == TargetStatus(a) != "PENDING"
    ensures PatchBody(ActionArg(a, note)).message.Some? <==> a == Interview
    ensures a == Interview ==>
      PatchBody(ActionArg(a, note)).message == Some(if note.Some? then note.value else "")
    ensures a != b ==> TargetStatus(a) != TargetStatus(b)
  {
  }

  /** The badge colour of the detail view: a status missing from its table is grey. */
  function DetailsBadge(status: string): (b: Badge)
    ensures b == Yellow <==> status == "PENDING"
    ensures b == Green <==> status == "ACCEPTED"
    ensures b == Red <==> status == "REJECTED"
    ensures b == Gray <==> status != "PENDING" && status != "ACCEPTED" && status != "REJECTED"
  {
    if status == "PENDING" then Yellow
    else if status == "ACCEPTED" then Green
    else if status == "REJECTED" then Red
    else Gray
  }

  /** The dashboard list and the detail view colour a status alike exactly when the detail
      view's table knows it; an INTERVIEW application is red in the list and grey here. */
  lemma BadgesAgree(status: string)
    ensures DetailsBadge(status) == ListBadge(status) <==> DetailsBadge(status) != Gray
    ensures ListBadge("INTERVIEW") == Red && DetailsBadge("INTERVIEW") == Gray
  {
  }

  const NoResumeAlert := "No resume URL found"
  const GoogleViewer := "https://docs.google.com/viewer?url="
  /** The query a Cloudinary PDF is viewed with, and the one it is downloaded with. */
  const ViewQuery := "?fl_attachment=false"
  const DownloadQuery := "?fl_attachment=true"
  const LocalhostHost := "http://localhost:3001"
  /** The mangled form: the development server's origin glued in front of an https URL. */
  const LocalhostPrefix := "http://localhost:3001https"

  /** In a URL with the mangled prefix, the first "https" is the one right after the
      development origin. */
  lemma FirstHttps(s: string)
    requires StartsWith(s, LocalhostPrefix)
    ensures IndexOf(s, "https") == Some(|LocalhostHost|)
  {
    assert s[..26] == LocalhostPrefix;
    assert s[21..26] == "https";
    forall j | 0 <= j < 21 ensures !OccursAt(s, "https", j) {
      assert s[j] == LocalhostPrefix[j] && s[j + 4] == LocalhostPrefix[j + 4];
      assert LocalhostPrefix[j] != 'h' || LocalhostPrefix[j + 4] != 's';
      assert s[j..j + 5][0] == s[j] && s[j..j + 5][4] == s[j + 4];
    }
    IndexOfAt(s, "https", 21);
  }

  /** The localhost repair as written: `'https' + url.split('https')[1]`. */
  function FixLocalhostAsWritten(u: string): (r: string)
    ensures StartsWith(u, LocalhostPrefix) ==> StartsWith(r, "https") && |r| <= |u| - |LocalhostHost|
    ensures !StartsWith(u, LocalhostPrefix) ==> r == u
  {
    if StartsWith(u, LocalhostPrefix) then
      FirstHttps(u);
      HttpsCut(u);
      "https" + Split(u, "https")[1]
    else u
  }

  /** The piece after the first "https" of a mangled URL runs to the next "https" or the
      end, and lies inside the rest of the URL. */
  lemma HttpsCut(u: string)
    requires StartsWith(u, LocalhostPrefix)
    ensures |Split(u, "https")| >= 2
    ensures Split(u, "https")[1] == Split(u[|LocalhostPrefix|..], "https")[0]
    ensures |Split(u, "https")[1]| <= |u| - |LocalhostPrefix|
  {
    FirstHttps(u);
    var rest := u[26..];
    assert Split(u, "https") == [u[..21]] + Split(rest, "https");
    match IndexOf(rest, "https")
    case None =>
      assert Split(rest, "https") == [rest];
    case Some(i) =>
      assert Split(rest, "https")[0] == rest[..i];
  }

  /** The localhost repair as intended: drop the development origin and keep the whole
      https URL behind it. */
  function FixLocalhost(u: string): (r: string)
    ensures StartsWith(u, LocalhostPrefix) ==> LocalhostHost + r == u && StartsWith(r, "https")
    ensures !StartsWith(u, LocalhostPrefix) ==> r == u
  {
    if StartsWith(u, LocalhostPrefix) then
      assert u == u[..21] + u[21..];
      u[|LocalhostHost|..]
    else u
  }

  /** The written repair agrees with the intended one exactly when the URL behind the
      prefix contains no further "https"; otherwise it cuts the URL at that point. */
  lemma AsWrittenAgrees(rest: string)
    ensures FixLocalhostAsWritten(LocalhostPrefix + rest) == "https" + Split(rest, "https")[0]
    ensures FixLocalhost(LocalhostPrefix + rest) == "https" + rest
    ensures FixLocalhostAsWritten(LocalhostPrefix + rest) == FixLocalhost(LocalhostPrefix + rest)
      <==> !Contains(rest, "https")
  {
    var s := LocalhostPrefix + rest;
    assert s[..26] == LocalhostPrefix;
    assert s[26..] == rest;
    assert s[21..] == "https" + rest;
    HttpsCut(s);
    match IndexOf(rest, "https")
    case None =>
      assert Split(rest, "https") == [rest];
    case Some(i) =>
      assert Split(rest, "https")[0] == rest[..i];
  }

  /** A concrete URL on which the written repair loses the file: the second "https" in
      the path cuts it short. */
  lemma AsWrittenTruncates(rest: string)
    requires rest == "://x.io/https.pdf"
    ensures FixLocalhostAsWritten(LocalhostPrefix + rest) == "https" + rest[..8]
    ensures rest[..8] == "://x.io/" && !IsPdf(rest[..8])
    ensures FixLocalhost(LocalhostPrefix + rest) == "https" + rest
  {
    AsWrittenAgrees(rest);
    SecondHttps(rest);
    assert Split(rest, "https")[0] == rest[..8];
    assert ToLower(rest[..8])[7] == LowerChar('/') == '/';
  }

  lemma SecondHttps(rest: string)
    requires rest == "://x.io/https.pdf"
    ensures IndexOf(rest, "https") == Some(8)
  {
    assert rest[8..13] == "https";
    forall j | 0 <= j < 8 ensures !OccursAt(rest, "https", j) {
      assert rest[j] != 'h';
      assert rest[j..j + 5][0] == rest[j];
    }
    IndexOfAt(rest, "https", 8);
  }

  predicate IsPdf(u: string)
  {
    EndsWith(ToLower(u), ".pdf")
  }

  predicate IsCloudinary(u: string)
  {
    Contains(u, "cloudinary.com")
  }

  /** What the view button opens for a trimmed, repaired URL `v`: a Cloudinary PDF with its
      query replaced by `fl_attachment=false`, another PDF through the Google viewer, and
      anything else as it is. */
  function ViewTarget(v: string, encode: string -> string): (target: string)
    ensures IsCloudinary(v) && IsPdf(v) ==>
      && Head(target, '?') == Head(v, '?') && StartsWith(v, Head(v, '?'))
      && target == Head(v, '?') + ViewQuery
    ensures !IsCloudinary(v) && IsPdf(v) ==> target == GoogleViewer + encode(v) + "&embedded=true"
    ensures !IsPdf(v) ==> target == v
  {
    if IsCloudinary(v) && IsPdf(v) then
      var base := Head(v, '?');
      HeadOfQuery(base, ViewQuery);
      base + ViewQuery
    else if IsPdf(v) then GoogleViewer + encode(v) + "&embedded=true"
    else v
  }

  /** A query `q` glued behind a `?`-free base leaves the base as the part before the
      first `?`. */
  lemma HeadOfQuery(base: string, q: string)
    requires '?' !in base && |q| > 0 && q[0] == '?'
    ensures Head(base + q, '?') == base
  {
    assert base + q == base + ['?'] + q[1..];
    HeadAt(base, '?', q[1..]);
  }

  /** The view button's effect: an alert for an empty URL, otherwise a new tab. */
  function ViewEffect(url: string, encode: string -> string): (e: Effect)
    ensures e.Alert? <==> url == ""
    ensures url != "" ==> e == OpenTab(ViewTarget(FixLocalhost(Trim(url)), encode))
  {
    if url == "" then Alert(NoResumeAlert) else OpenTab(ViewTarget(FixLocalhost(Trim(url)), encode))
  }

  /** `isImageFile`: a non-empty URL with an image extension, in any case. An image resume
      is never a PDF. */
  predicate IsImageFile(u: string)
    ensures IsImageFile(u) ==> !IsPdf(u)
  {
    var l := ToLower(u);
    ImageExtensionNotPdf(l);
    u != "" && (EndsWith(l, ".jpg") || EndsWith(l, ".jpeg") || EndsWith(l, ".png") || EndsWith(l, ".gif"))
  }

  lemma EndsWithBoth(s: string, a: string, b: string)
    requires EndsWith(s, a) && EndsWith(s, b) && |b| <= |a|
    ensures EndsWith(a, b)
  {
    assert a[|a| - |b|..] == s[|s| - |b|..];
  }

  /** No image extension also ends in `.pdf`. */
  lemma ImageExtensionNotPdf(l: string)
    ensures EndsWith(l, ".jpg") || EndsWith(l, ".jpeg") || EndsWith(l, ".png") || EndsWith(l, ".gif")
      ==> !EndsWith(l, ".pdf")
  {
    if EndsWith(l, ".pdf") {
      if EndsWith(l, ".jpeg") {
        EndsWithBoth(l, ".jpeg", ".pdf");
      } else if EndsWith(l, ".jpg") {
        EndsWithBoth(l, ".jpg", ".pdf");
      } else if EndsWith(l, ".png") {
        EndsWithBoth(l, ".png", ".pdf");
      } else if EndsWith(l, ".gif") {
        EndsWithBoth(l, ".gif", ".pdf");
      }
    }
  }

  /** An image resume opens its URL unchanged. */
  lemma ImageOpensDirectly(v: string, encode: string -> string)
    requires IsImageFile(v)
    ensures !IsPdf(v) && ViewTarget(v, encode) == v
  {
  }

  /** The download target: a Cloudinary URL with its query replaced by `fl_attachment=true`. */
  function DownloadTarget(u: string): (d: string)
    ensures IsCloudinary(u) ==> d == Head(u, '?') + DownloadQuery && Head(d, '?') == Head(u, '?')
    ensures !IsCloudinary(u) ==> d == u
  {
    if IsCloudinary(u) then
      HeadOfQuery(Head(u, '?'), DownloadQuery);
      Head(u, '?') + DownloadQuery
    else u
  }

  /** The suggested file name: the last path segment without its query, `resume` when that
      is empty, with `.pdf` added when it has no dot. */
  function FileName(d: string): (f: string)
    ensures f != "" && '.' in f && '/' !in f && '?' !in f
  {
    SplitPiecesFree(d, '/');
    var base := OrElse(Head(Last(Split(d, "/")), '?'), "resume");
    if Contains(base, ".") then
      OccursChar(base, '.', IndexOf(base, ".").value);
      base
    else base + ".pdf"
  }

  /** A query behind the last path segment is not part of the file name. */
  lemma FileNameIgnoresQuery(b: string, q: string)
    requires '?' !in b && '/' !in q
    ensures FileName(b + ['?'] + q) == FileName(b)
  {
    SplitAppendFree(b, ['?'] + q, '/');
    assert b + ['?'] + q == b + (['?'] + q);
    var l := Last(Split(b, "/"));
    LastPieceSuffix(b, '/');
    forall k | 0 <= k < |l| ensures l[k] != '?' {
      assert l[k] == b[|b| - |l| + k];
    }
    HeadAt(l, '?', q);
    assert l + (['?'] + q) == l + ['?'] + q;
    SplitWithout(l, '?');
  }

  /** The name a last path segment `s` (without `/` or `?`) gives: `s` itself, `resume`
      when it is empty, with `.pdf` added when it has no dot. */
  function SegmentName(s: string): (n: string)
    ensures s != "" && '.' in s ==> n == s
    ensures s != "" && '.' !in s ==> n == s + ".pdf"
    ensures s == "" ==> n == "resume.pdf"
  {
    var b := if s == "" then "resume" else s;
    if '.' in b then b else b + ".pdf"
  }

  /** The file name of an address is the name of its last segment, whatever the path
      before it holds. */
  lemma FileNameOfSegment(p: string, s: string)
    requires '/' !in s && '?' !in s
    ensures FileName(p + "/" + s) == SegmentName(s)
  {
    LastAfterSep(p, '/', s);
    var base := OrElse(s, "resume");
    ContainsChar(base, '.');
    assert !('.' in "resume");
  }

  /** The same with a query after the last segment: the query is dropped. */
  lemma FileNameOfSegmentQuery(p: string, s: string, q: string)
    requires '/' !in s && '?' !in s && '/' !in q
    ensures FileName(p + "/" + s + "?" + q) == SegmentName(s)
  {
    assert '/' !in s + "?" + q;
    assert p + "/" + s + "?" + q == p + ['/'] + (s + "?" + q);
    LastAfterSep(p, '/', s + "?" + q);
    HeadAt(s, '?', q);
    var base := OrElse(s, "resume");
    ContainsChar(base, '.');
    assert !('.' in "resume");
  }

  /** The attachment flag added to a Cloudinary download never reaches the file name: it is
      the name of the URL's own last segment. */
  lemma CloudinaryFileName(u: string)
    requires IsCloudinary(u)
    ensures FileName(DownloadTarget(u)) == FileName(Head(u, '?'))
  {
    var q := DownloadQuery[1..];
    assert DownloadQuery == ['?'] + q;
    assert Head(u, '?') + DownloadQuery == Head(u, '?') + ['?'] + q;
    FileNameIgnoresQuery(Head(u, '?'), q);
  }

  /** The `download` attribute is set only for blob and data URLs. */
  function DownloadAttr(d: string): (name: Option<string>)
    ensures name.Some? <==> StartsWith(d, "blob:") || StartsWith(d, "data:")
    ensures name.Some? ==> name.value == FileName(d)
  {
    if StartsWith(d, "blob:") || StartsWith(d, "data:") then Some(FileName(d)) else None
  }

  /** The download button's effect: nothing for an empty URL, otherwise a click on a
      temporary link. */
  function DownloadEffect(url: string): (e: Option<Effect>)
    ensures e.None? <==> url == ""
    ensures url != "" ==>
      var d := DownloadTarget(FixLocalhost(Trim(url)));
      e == Some(ClickLink(d, DownloadAttr(d)))
  {
    if url == "" then None
    else
      var d := DownloadTarget(FixLocalhost(Trim(url)));
      Some(ClickLink(d, DownloadAttr(d)))
  }

  /** The link `handleDownloadResume` builds for a non-empty URL, step by step: its
      address and its `download` attribute, as `DownloadEffect` describes them. */
  method PrepareDownload(url: string) returns (downloadUrl: string, download: Option<string>)
    ensures downloadUrl == DownloadTarget(FixLocalhost(Trim(url)))
    ensures download == DownloadAttr(downloadUrl)
    ensures url != "" ==> DownloadEffect(url) == Some(ClickLink(downloadUrl, download))
  {
    downloadUrl := Trim(url);
    if StartsWith(downloadUrl, LocalhostPrefix) {
      downloadUrl := FixLocalhost(downloadUrl);
    }
    ghost var fixedUrl := downloadUrl;
    assert fixedUrl == FixLocalhost(Trim(url));
    if IsCloudinary(downloadUrl) {
      downloadUrl := Head(downloadUrl, '?');
      downloadUrl := downloadUrl + DownloadQuery;
    }
    var filename := FileName(downloadUrl);
    download := None;
    if StartsWith(downloadUrl, "blob:") || StartsWith(downloadUrl, "data:") {
      download := Some(filename);
    }
  }

  class DetailsView {
    const board: CompanyBoard
    const application: Application
    var isLoading: bool
    var isDownloading: bool

    constructor (board: CompanyBoard, application: Application)
      ensures this.board == board && this.application == application
      ensures !isLoading && !isDownloading
    {
      this.board := board;
      this.application := application;
      isLoading, isDownloading := false, false;
    }

    /** `handleStatusChange`: the board's `setStatus` reports failure by its result, so the
        view is closed either way; `loadingDuring` is the loading cell while it runs. */
    method HandleStatusChange(arg: StatusArg, patch: Reply<()>, appsReply: Reply<seq<Application>>)
      returns (ghost loadingDuring: bool)
      modifies this`isLoading, board`apps, board`selectedApp, board.win
      ensures loadingDuring && !isLoading
      ensures board.selectedApp == None
      ensures board.apps == if patch.Ok? && appsReply.Ok? then appsReply.data else old(board.apps)
      ensures board.win.storage == old(board.win.storage)
      ensures board.win.trace == old(board.win.trace)
        + [Send(PatchApplication(application.id, PatchBody(arg)), WithBearer(map[], old(board.Stored())))]
        + (if patch.Ok? then [Send(ListCompanyApplications, WithBearer(map[], old(board.Stored())))] else [])
    {
      isLoading := true;
      loadingDuring := isLoading;
      var _ := board.SetStatus(application.id, arg, patch, appsReply);
      board.Close();
      isLoading := false;
    }

    /** A footer button: offered only for a pending application and disabled while a change
        is under way. */
    method OnAction(a: Action, note: Option<string>, patch: Reply<()>, appsReply: Reply<seq<Application>>)
      returns (ghost loadingDuring: bool)
      requires a in Actions(application.status) && !isLoading
      modifies this`isLoading, board`apps, board`selectedApp, board.win
      ensures loadingDuring && !isLoading && board.selectedApp == None
      ensures board.apps == if patch.Ok? && appsReply.Ok? then appsReply.data else old(board.apps)
      ensures board.win.storage == old(board.win.storage)
      ensures board.win.trace == old(board.win.trace)
        + [Send(PatchApplication(application.id, PatchBody(ActionArg(a, note))), WithBearer(map[], old(board.Stored())))]
        + (if patch.Ok? then [Send(ListCompanyApplications, WithBearer(map[], old(board.Stored())))] else [])
    {
      loadingDuring := HandleStatusChange(ActionArg(a, note), patch, appsReply);
    }

    /** `handleViewResume`, rewriting the URL step by step. */
    method HandleViewResume(url: string)
      modifies board.win
      ensures board.win.storage == old(board.win.storage)
      ensures board.win.trace == old(board.win.trace) + [ViewEffect(url, board.win.uriEncode)]
    {
      if url == "" {
        board.win.Emit(Alert(NoResumeAlert));
        return;
      }
      var viewUrl := Trim(url);
      if StartsWith(viewUrl, LocalhostPrefix) {
        viewUrl := FixLocalhost(viewUrl);
      }
      if IsCloudinary(viewUrl) && IsPdf(viewUrl) {
        var baseUrl := Head(viewUrl, '?');
        viewUrl := baseUrl + ViewQuery;
        board.win.Emit(OpenTab(viewUrl));
        return;
      }
      if IsPdf(viewUrl) {
        board.win.Emit(OpenTab(GoogleViewer + board.win.uriEncode(viewUrl) + "&embedded=true"));
        return;
      }
      board.win.Emit(OpenTab(viewUrl));
    }

    /** `handleDownloadResume`; `downloadingDuring` is the busy cell while the link is
        clicked. */
    method HandleDownloadResume(url: string) returns (ghost downloadingDuring: bool)
      modifies this`isDownloading, board.win
      ensures board.win.storage == old(board.win.storage)
      ensures url == "" ==> board.win.trace == old(board.win.trace) && isDownloading == old(isDownloading)
      ensures url != "" ==>
        && downloadingDuring && !isDownloading
        && board.win.trace == old(board.win.trace) + [DownloadEffect(url).value]
    {
      downloadingDuring := false;
      if url == "" {
        return;
      }
      isDownloading := true;
      downloadingDuring := isDownloading;
      var downloadUrl, download := PrepareDownload(url);
      ghost var link := DownloadEffect(url).value;
      assert link == ClickLink(downloadUrl, download);
      board.win.Emit(ClickLink(downloadUrl, download));
      isDownloading := false;
    }
  }
}
