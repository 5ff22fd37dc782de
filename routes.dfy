/** The decisions main.go makes around the role gate: which middleware runs
    in front of each route, the inline check of the pending-approval page,
    and the order of the queries in the approve, reject and cancel handlers. */
module Routes {
  import opened Base
  import opened Middleware
  import opened Auth

  datatype Verb = Get | Post

  /** The routes main.go registers (static files aside). */
  datatype Route =
    | Home | Login | LoginWithRole | Callback | Logout
    | ApplicantDashboard | ApplicantProfile | ApplicantProfileUpdate
    | ApplicantUploadResume | ApplicantInterviewRequests
    | CreateCompanyForm | CreateCompany | CancelCompany | RecruiterPending
    | RecruiterDashboard | JobPosting | JobPostingCreate | JobPostingDelete
    | InterviewScheduling | ResumeParsing
    | AdminDashboard | ViewUsers | PendingRecruiters | ApproveRecruiter | RejectRecruiter

  function VerbOf(r: Route): (v: Verb) {
    match r
    case ApplicantProfileUpdate | CreateCompany | CancelCompany | JobPostingCreate
       | JobPostingDelete | ApproveRecruiter | RejectRecruiter => Post
    case _ => Get
  }

  function PathOf(r: Route): (path: string) {
    match r
    case Home => "/"
    case Login => "/auth/google/login"
    case LoginWithRole => "/auth/google/login/:role"
    case Callback => "/auth/google/callback"
    case Logout => "/auth/logout"
    case ApplicantDashboard => "/applicant/dashboard"
    case ApplicantProfile => "/applicant/profile"
    case ApplicantProfileUpdate => "/applicant/profile/update"
    case ApplicantUploadResume => "/applicant/upload-resume"
    case ApplicantInterviewRequests => "/applicant/interview-requests"
    case CreateCompanyForm => "/recruiter/create-company"
    case CreateCompany => "/recruiter/create-company/:id"
    case CancelCompany => "/recruiter/create-company/:id/cancel"
    case RecruiterPending => "/recruiter/pending"
    case RecruiterDashboard => "/recruiter/dashboard"
    case JobPosting => "/recruiter/job-posting"
    case JobPostingCreate => "/recruiter/job-posting/create"
    case JobPostingDelete => "/recruiter/job-posting/delete/:id"
    case InterviewScheduling => "/recruiter/interview-scheduling"
    case ResumeParsing => "/recruiter/resume-parsing"
    case AdminDashboard => "/admin/dashboard"
    case ViewUsers => "/admin/view-users"
    case PendingRecruiters => "/admin/pending-recruiters"
    case ApproveRecruiter => "/admin/approve-recruiter/:id"
    case RejectRecruiter => "/admin/reject-recruiter/:id"
  }

  /** The router object each route is registered on: the root router or one
      of the three groups that carry a gate. */
  datatype Router = RootRouter | ApplicantGroup | RecruiterGroup | AdminGroup

  function RegisteredOn(r: Route): (g: Router) {
    match r
    case ApplicantDashboard | ApplicantProfile | ApplicantProfileUpdate
       | ApplicantUploadResume | ApplicantInterviewRequests => ApplicantGroup
    case RecruiterDashboard | JobPosting | JobPostingCreate | JobPostingDelete
       | InterviewScheduling | ResumeParsing => RecruiterGroup
    case AdminDashboard | ViewUsers | PendingRecruiters | ApproveRecruiter | RejectRecruiter => AdminGroup
    case _ => RootRouter
  }

  /** Whether the third character of a path is `c`: it tells "/applicant/"
      and "/admin/" from "/auth/" and "/recruiter/". */
  predicate ThirdIs(path: string, c: char) {
    |path| >= 3 && path[2] == c
  }

  lemma NotUnder(prefix: string, path: string)
    requires |prefix| >= 3 && !ThirdIs(path, prefix[2])
    ensures !(prefix <= path)
  {
  }

  lemma ApplicantUnder(r: Route)
    requires RegisteredOn(r) == ApplicantGroup
    ensures "/applicant/" <= PathOf(r)
  {
  }

  lemma RecruiterUnder(r: Route)
    requires RegisteredOn(r) == RecruiterGroup
    ensures "/recruiter/" <= PathOf(r)
  {
  }

  lemma AdminUnder(r: Route)
    requires RegisteredOn(r) == AdminGroup
    ensures "/admin/" <= PathOf(r)
  {
  }

  lemma RootThird(r: Route)
    requires RegisteredOn(r) == RootRouter
    ensures !ThirdIs(PathOf(r), 'p') && !ThirdIs(PathOf(r), 'd')
  {
  }

  /** The route table agrees with the group prefixes: a group's routes lie
      under its prefix, and under "/applicant/" and "/admin/" every route is
      on that group and no other route is. The recruiter prefix does not
      decide the group: see `ChainOf`. */
  lemma {:induction false} PrefixDecidesGroup(r: Route)
    ensures RegisteredOn(r) == RecruiterGroup ==> "/recruiter/" <= PathOf(r)
    ensures "/applicant/" <= PathOf(r) <==> RegisteredOn(r) == ApplicantGroup
    ensures "/admin/" <= PathOf(r) <==> RegisteredOn(r) == AdminGroup
  {
    match RegisteredOn(r)
    case ApplicantGroup =>
      ApplicantUnder(r);
      NotUnder("/admin/", PathOf(r));
    case RecruiterGroup =>
      RecruiterUnder(r);
      NotUnder("/applicant/", PathOf(r));
      NotUnder("/admin/", PathOf(r));
    case AdminGroup =>
      AdminUnder(r);
      NotUnder("/applicant/", PathOf(r));
    case RootRouter =>
      RootThird(r);
      NotUnder("/applicant/", PathOf(r));
      NotUnder("/admin/", PathOf(r));
  }

  datatype GateKind = ApplicantGate | RecruiterGate | AdminGate

  /** The role a gate passes. */
  function GateRole(g: GateKind): (role: string) {
    match g
    case ApplicantGate => "applicant"
    case RecruiterGate => "recruiter"
    case AdminGate => "admin"
  }

  function RunGate(g: GateKind, keys: Keys): (o: GateOutcome)
    ensures o == Pass <==> RoleKey in keys && keys[RoleKey] == Some(GateRole(g))
    ensures o == Reject(Panic) <==> RoleKey in keys && keys[RoleKey].None?
    ensures o != Pass && o != Reject(Panic) ==> o == Reject(Abort(Forbidden))
  {
    match g
    case ApplicantGate => ApplicantOnly(keys)
    case RecruiterGate => RecruiterOnly(keys)
    case AdminGate => AdminOnly(keys)
  }

  /** The middleware in front of a handler: none, `AuthMiddleware` and a
      gate, or `AuthMiddleware` alone (the pending page). */
  datatype Chain = NoMiddleware | AuthThenGate(gate: GateKind) | AuthOnly

  /** A group's gate runs exactly for the routes registered on that group.
      The path does not decide it: the three create-company routes lie under
      "/recruiter/" but are registered on the root router, so no middleware
      runs in front of them. */
  function ChainOf(r: Route): (c: Chain)
    ensures c == AuthThenGate(ApplicantGate) <==> RegisteredOn(r) == ApplicantGroup
    ensures c == AuthThenGate(RecruiterGate) <==> RegisteredOn(r) == RecruiterGroup
    ensures c == AuthThenGate(AdminGate) <==> RegisteredOn(r) == AdminGroup
    ensures c == AuthOnly <==> r == RecruiterPending
    ensures r in {CreateCompanyForm, CreateCompany, CancelCompany} ==>
      c == NoMiddleware && "/recruiter/" <= PathOf(r)
  {
    match RegisteredOn(r)
    case ApplicantGroup => AuthThenGate(ApplicantGate)
    case RecruiterGroup => AuthThenGate(RecruiterGate)
    case AdminGroup => AuthThenGate(AdminGate)
    case RootRouter => if r == RecruiterPending then AuthOnly else NoMiddleware
  }

  /** Whether a request for `r` from a browser with this session reaches the
      route's handler. Each request starts with an empty context. A gated
      route's handler runs exactly when the session holds the gate's role; a
      session with no role makes the gate panic. */
  function Admission(r: Route, session: Session): (o: GateOutcome)
    ensures ChainOf(r) == NoMiddleware || ChainOf(r) == AuthOnly ==> o == Pass
    ensures ChainOf(r).AuthThenGate? ==>
      && (o == Pass <==> Lookup(session, RoleKey) == Some(GateRole(ChainOf(r).gate)))
      && (o == Reject(Panic) <==> RoleKey !in session)
      && (o != Pass && o != Reject(Panic) ==> o == Reject(Abort(Forbidden)))
  {
    match ChainOf(r)
    case NoMiddleware => Pass
    case AuthOnly => Pass
    case AuthThenGate(g) => RunGate(g, WithSessionRole(map[], session))
  }

  /** The handler of `/recruiter/pending`: it reads the context role without
      checking that it exists, so a missing or nil role panics; any role but
      "pending" gets 403. */
  function PendingPage(keys: Keys): (resp: Response)
    ensures resp == Render("pending_page.html") <==> RoleKey in keys && keys[RoleKey] == Some("pending")
    ensures resp == Panic <==> RoleKey !in keys || keys[RoleKey].None?
    ensures resp != Panic && resp != Render("pending_page.html") ==> resp == Abort(Forbidden)
  {
    if RoleKey !in keys then Panic
    else match keys[RoleKey]
      case None => Panic
      case Some(role) => if role != "pending" then Abort(Forbidden) else Render("pending_page.html")
  }

  /** `/recruiter/pending` end to end: `AuthMiddleware`, then the handler. */
  function ServePending(session: Session): (resp: Response)
    ensures resp == Render("pending_page.html") <==> Lookup(session, RoleKey) == Some("pending")
    ensures resp == Panic <==> RoleKey !in session
    ensures resp != Panic && resp != Render("pending_page.html") ==> resp == Abort(Forbidden)
  {
    PendingPage(WithSessionRole(map[], session))
  }

  // ---------------------------------------------- Recruiter approval routes

  /** The queries a handler runs, in order; `LogoutFlow` is the call of the
      logout handler. */
  datatype Call =
    | ApproveRecruiterQuery(id: string)
    | RejectRecruiterQuery(id: string)
    | RejectCompanyQuery(id: string)
    | LogoutFlow

  datatype Run = Run(calls: seq<Call>, response: Response)

  const PendingRecruitersPage := Redirect(SeeOther, Site("/admin/pending-recruiters"))

  /** `/admin/approve-recruiter/:id`. `isUuid` stands for `uuid.Parse`
      succeeding. A malformed id gets 400 before any query runs. */
  function ApproveRecruiterHandler(id: string, isUuid: string -> bool, approveOk: bool): (h: Run)
    ensures !isUuid(id) ==> h == Run([], Abort(BadRequest))
    ensures isUuid(id) ==> h.calls == [ApproveRecruiterQuery(id)]
    ensures h.response == PendingRecruitersPage <==> isUuid(id) && approveOk
    ensures isUuid(id) && !approveOk ==> h.response == Abort(InternalServerError)
  {
    if !isUuid(id) then Run([], Abort(BadRequest))
    else if !approveOk then Run([ApproveRecruiterQuery(id)], Abort(InternalServerError))
    else Run([ApproveRecruiterQuery(id)], PendingRecruitersPage)
  }

  /** `/admin/reject-recruiter/:id`: the company is rejected only after the
      recruiter, and either failure ends with 500 and no redirect. */
  function RejectRecruiterHandler(id: string, isUuid: string -> bool, recruiterOk: bool, companyOk: bool): (h: Run)
    ensures !isUuid(id) ==> h == Run([], Abort(BadRequest))
    ensures RejectCompanyQuery(id) in h.calls <==> isUuid(id) && recruiterOk
    ensures RejectCompanyQuery(id) in h.calls ==> h.calls == [RejectRecruiterQuery(id), RejectCompanyQuery(id)]
    ensures isUuid(id) && !recruiterOk ==> h == Run([RejectRecruiterQuery(id)], Abort(InternalServerError))
    ensures h.response == PendingRecruitersPage <==> isUuid(id) && recruiterOk && companyOk
    ensures isUuid(id) && !(recruiterOk && companyOk) ==> h.response == Abort(InternalServerError)
  {
    if !isUuid(id) then Run([], Abort(BadRequest))
    else if !recruiterOk then Run([RejectRecruiterQuery(id)], Abort(InternalServerError))
    else if !companyOk then Run([RejectRecruiterQuery(id), RejectCompanyQuery(id)], Abort(InternalServerError))
    else Run([RejectRecruiterQuery(id), RejectCompanyQuery(id)], PendingRecruitersPage)
  }

  /** What is on the wire after a handler answers twice. An abort writes its
      status at once, so nothing later changes it. `http.Redirect` writes a
      body only for GET: after a redirect answered to a GET the
      response is written and final, while after one answered to a POST only
      the status and location are recorded, and a later redirect replaces
      both. */
  function Then(verb: Verb, first: Response, second: Response): (r: Response)
    ensures first.Abort? ==> r == first
    ensures first.Redirect? && verb == Get ==> r == first
    ensures first.Redirect? && verb == Post ==> r == second
  {
    if first.Redirect? && verb == Post then second else first
  }

  /** `/recruiter/create-company/:id/cancel`: rejects the recruiter and only
      then runs the logout handler on the same request, then redirects home. */
  method CancelCompanyHandler(svc: AuthService, id: string, isUuid: string -> bool, rejectOk: bool, w: LogoutWorld)
    returns (h: Run)
    modifies svc
    ensures !isUuid(id) ==> h == Run([], Abort(BadRequest)) && svc.State() == old(svc.State())
    ensures isUuid(id) && !rejectOk ==>
      h == Run([RejectRecruiterQuery(id)], Abort(InternalServerError)) && svc.State() == old(svc.State())
    ensures isUuid(id) && rejectOk ==>
      var step := LogoutNext(old(svc.State()), w);
      && h.calls == [RejectRecruiterQuery(id), LogoutFlow]
      && svc.State() == step.next
      && h.response == Then(VerbOf(CancelCompany), step.response, Redirect(SeeOther, Site("/")))
    // the route is a POST, so the redirect home replaces the logout's redirect,
    // while a failed save of the cleared session keeps its 500
    ensures isUuid(id) && rejectOk ==>
      h.response == if w.saveOk then Redirect(SeeOther, Site("/")) else Abort(InternalServerError)
  {
    if !isUuid(id) {
      return Run([], Abort(BadRequest));
    }
    var calls := [RejectRecruiterQuery(id)];
    if !rejectOk {
      return Run(calls, Abort(InternalServerError));
    }
    var first := svc.LogoutHandler(w);
    calls := calls + [LogoutFlow];
    h := Run(calls, Then(VerbOf(CancelCompany), first, Redirect(SeeOther, Site("/"))));
  }
}
