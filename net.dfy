/** The records the client exchanges with the API: the requests it sends, the replies it
    gets back (the network is an oracle that answers each request with one `Reply`), and
    the error-message rule every handler applies to a failed reply. */
module Net {
  import opened Text

  /** A user as the server sends it. Absent text fields are held as "" (every reader
      applies `|| ''` or `|| fallback`, which treats the two alike); the role is kept
      optional because `roles.includes(user.role)` tells them apart. */
  datatype User = User(id: string, name: string, email: string, role: Option<string>, phone: string)

  /** A file chosen in a file input: its name and its size in bytes. */
  datatype File = File(name: string, size: nat)

  datatype Job = Job(id: string, title: string, description: string, location: string)

  datatype Student = Student(name: string, email: string, phone: string, resumeUrl: string)

  datatype Application = Application(id: string, status: string, jobTitle: string, student: Student)

  /** The JSON body of `POST /auth/register`; `companyName: undefined` is dropped by the
      JSON encoder, so an absent company name is `None`. */
  datatype RegisterBody = RegisterBody(name: string, email: string, password: string, role: string, companyName: Option<string>)

  /** The JSON body of `PATCH /applications/:id`. */
  datatype StatusPayload = StatusPayload(status: string, message: Option<string>)

  /** The JSON body of `PUT /auth/update`; a `None` field is not in the object. */
  datatype UpdatePayload = UpdatePayload(name: Option<string>, email: Option<string>, currentPassword: Option<string>, newPassword: Option<string>)

  /** One entry of a multipart `FormData`. */
  datatype FormPart = TextPart(text: string) | FilePart(file: File)

  datatype Request =
    | PostLogin(email: string, password: string)
    | PostRegister(body: RegisterBody)
    | SearchJobs(q: string, location: string)
    | ListJobs
    | PostJob(title: string, description: string, location: string)
    | UploadResume(file: File)
    | ApplyToJob(jobId: string, name: string, email: string, phone: string, resumeUrl: Option<string>)
    | PatchApplication(id: string, status: StatusPayload)
    | ListCompanyApplications
    | GetStudentProfile
    | PutStudentProfile(parts: seq<(string, FormPart)>)
    | PutAuthUpdate(payload: UpdatePayload)

  /** The HTTP method and path each request goes to. */
  function Endpoint(r: Request): (string, string)
  {
    match r
    case PostLogin(_, _) => ("POST", "/auth/login")
    case PostRegister(_) => ("POST", "/auth/register")
    case SearchJobs(_, _) => ("GET", "/jobs")
    case ListJobs => ("GET", "/jobs")
    case PostJob(_, _, _) => ("POST", "/jobs")
    case UploadResume(_) => ("POST", "/upload/resume")
    case ApplyToJob(id, _, _, _, _) => ("POST", "/applications/jobs/" + id + "/apply")
    case PatchApplication(id, _) => ("PATCH", "/applications/" + id)
    case ListCompanyApplications => ("GET", "/applications/company")
    case GetStudentProfile => ("GET", "/student/profile")
    case PutStudentProfile(_) => ("PUT", "/student/profile")
    case PutAuthUpdate(_) => ("PUT", "/auth/update")
  }

  /** A rejected request: either no response arrived (transport error), or the server answered
      with a non-2xx status and `data.message` ("" when the body carries none). */
  datatype Failure = NoResponse | ErrorResponse(status: int, message: string)

  datatype Reply<+T> = Ok(data: T) | Err(failure: Failure)

  /** `{ token, user }` as returned by login and registration. */
  datatype AuthData = AuthData(token: Option<string>, user: Option<User>)

  /** `{ user }` as returned by `PUT /auth/update`. */
  datatype UpdateData = UpdateData(user: Option<User>)

  /** `{ success, url, message }` as returned by the resume upload. */
  datatype UploadData = UploadData(success: bool, url: Option<string>, message: string)

  /** `err?.response?.data?.message || fallback`. */
  function MessageOr(f: Failure, fallback: string): (m: string)
    ensures f.NoResponse? ==> m == fallback
    ensures f.ErrorResponse? && f.message != "" ==> m == f.message
    ensures f.ErrorResponse? && f.message == "" ==> m == fallback
  {
    match f
    case NoResponse => fallback
    case ErrorResponse(_, msg) => OrElse(msg, fallback)
  }
}
