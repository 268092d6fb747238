/** The company dashboard (`pages/company/Dashboard.jsx`): posting a job, the job and
    application lists it reloads, the status transition it patches, and the selection of
    the application shown in the detail view. */
module CompanyDashboard {
  import opened Text
  import opened Net
  import opened Browser
  import opened Session
  import opened Gateway

  const PostFallback := "Failed to post job"

  /** The second argument of `setStatus`: a status name, or an object sent as it is. */
  datatype StatusArg = StatusName(name: string) | StatusObject(payload: StatusPayload)

  /** The PATCH body: `{status}` for a name, the object itself otherwise. */
  function PatchBody(arg: StatusArg): (p: StatusPayload)
    ensures arg.StatusName? ==> p.status == arg.name && p.message.None?
    ensures arg.StatusObject? ==> p == arg.payload
  {
    match arg
    case StatusName(s) => StatusPayload(s, None)
    case StatusObject(obj) => obj
  }

  datatype Badge = Yellow | Green | Red | Gray

  /** The badge colour on the application list. */
  function ListBadge(status: string): (b: Badge)
    ensures b == Yellow <==> status == "PENDING"
    ensures b == Green <==> status == "ACCEPTED"
    ensures b == Red <==> status != "PENDING" && status != "ACCEPTED"
  {
    if status == "PENDING" then Yellow
    else if status == "ACCEPTED" then Green
    else Red
  }

  class CompanyBoard {
    const win: Window
    var title: string
    var location: string
    var description: string
    var jobs: seq<Job>
    var apps: seq<Application>
    var selectedApp: Option<Application>

    constructor (win: Window)
      ensures this.win == win && title == "" && location == "" && description == ""
      ensures jobs == [] && apps == [] && selectedApp == None
    {
      this.win := win;
      title, location, description := "", "", "";
      jobs, apps := [], [];
      selectedApp := None;
    }

    function Stored(): Option<string>
      reads win
    {
      win.GetItem(TokenKey)
    }

    /** `loadJobs`: no catch, so a failure keeps the list and rejects to the caller. */
    method LoadJobs(reply: Reply<seq<Job>>) returns (r: Reply<seq<Job>>)
      modifies this`jobs, win
      ensures r == reply && win.storage == old(win.storage)
      ensures reply.Ok? ==> jobs == reply.data
      ensures reply.Err? ==> jobs == old(jobs)
      ensures win.trace == old(win.trace) + [Send(ListJobs, WithBearer(map[], old(Stored())))]
    {
      r := ApiCall(win, ListJobs, map[], reply);
      if r.Ok? {
        jobs := r.data;
      }
    }

    /** `loadApplications`: a failure is swallowed and the list kept. */
    method LoadApplications(reply: Reply<seq<Application>>)
      modifies this`apps, win
      ensures win.storage == old(win.storage)
      ensures reply.Ok? ==> apps == reply.data
      ensures reply.Err? ==> apps == old(apps)
      ensures win.trace == old(win.trace) + [Send(ListCompanyApplications, WithBearer(map[], old(Stored())))]
    {
      var r := ApiCall(win, ListCompanyApplications, map[], reply);
      if r.Ok? {
        apps := r.data;
      }
    }

    /** `postJob` for the answers to the post and to the two reloads that follow it. The
        form is cleared only once the post has succeeded; a failed job reload after a
        successful post still shows the posting alert. */
    method PostJob(post: Reply<()>, jobsReply: Reply<seq<Job>>, appsReply: Reply<seq<Application>>)
      modifies this`title, this`location, this`description, this`jobs, this`apps, win
      ensures win.storage == old(win.storage)
      ensures post.Err? ==>
        && title == old(title) && location == old(location) && description == old(description)
        && jobs == old(jobs) && apps == old(apps)
        && win.trace == old(win.trace)
             + [Send(Request.PostJob(old(title), old(description), old(location)), WithBearer(map[], old(Stored()))),
                Alert(MessageOr(post.failure, PostFallback))]
      ensures post.Ok? ==>
        && title == "" && location == "" && description == ""
        && jobs == (if jobsReply.Ok? then jobsReply.data else old(jobs))
        && apps == (if appsReply.Ok? then appsReply.data else old(apps))
        && win.trace == old(win.trace)
             + [Send(Request.PostJob(old(title), old(description), old(location)), WithBearer(map[], old(Stored()))),
                Send(ListJobs, WithBearer(map[], old(Stored()))),
                Send(ListCompanyApplications, WithBearer(map[], old(Stored())))]
             + (if jobsReply.Err? then [Alert(MessageOr(jobsReply.failure, PostFallback))] else [])
    {
      var r := ApiCall(win, Request.PostJob(title, description, location), map[], post);
      if r.Err? {
        win.Emit(Alert(MessageOr(r.failure, PostFallback)));
        return;
      }
      title, location, description := "", "", "";
      var jr := LoadJobs(jobsReply);
      LoadApplications(appsReply);
      if jr.Err? {
        win.Emit(Alert(MessageOr(jr.failure, PostFallback)));
      }
    }

    /** `setStatus(id, arg)` for the answers to the patch and to the reload it triggers:
        true exactly when the patch succeeded; the reload is sent only then. */
    method SetStatus(id: string, arg: StatusArg, patch: Reply<()>, appsReply: Reply<seq<Application>>) returns (ok: bool)
      modifies this`apps, win
      ensures ok <==> patch.Ok?
      ensures win.storage == old(win.storage)
      ensures win.trace == old(win.trace)
        + [Send(PatchApplication(id, PatchBody(arg)), WithBearer(map[], old(Stored())))]
        + (if patch.Ok? then [Send(ListCompanyApplications, WithBearer(map[], old(Stored())))] else [])
      ensures apps == if patch.Ok? && appsReply.Ok? then appsReply.data else old(apps)
    {
      var r := ApiCall(win, PatchApplication(id, PatchBody(arg)), map[], patch);
      if r.Err? {
        return false;
      }
      LoadApplications(appsReply);
      ok := true;
    }

    /** The mount effect: both lists are loaded; a failed job load is an unhandled
        rejection with no visible effect. */
    method Mount(jobsReply: Reply<seq<Job>>, appsReply: Reply<seq<Application>>)
      modifies this`jobs, this`apps, win
      ensures win.storage == old(win.storage)
      ensures jobs == (if jobsReply.Ok? then jobsReply.data else old(jobs))
      ensures apps == (if appsReply.Ok? then appsReply.data else old(apps))
      ensures win.trace == old(win.trace)
        + [Send(ListJobs, WithBearer(map[], old(Stored()))),
           Send(ListCompanyApplications, WithBearer(map[], old(Stored())))]
    {
      var _ := LoadJobs(jobsReply);
      LoadApplications(appsReply);
    }

    /** A click on a list entry or its "View Details" button opens the detail view. */
    method Select(a: Application)
      modifies this`selectedApp
      ensures selectedApp == Some(a)
    {
      selectedApp := Some(a);
    }

    /** The detail view's close callback. */
    method Close()
      modifies this`selectedApp
      ensures selectedApp == None
    {
      selectedApp := None;
    }
  }
}
