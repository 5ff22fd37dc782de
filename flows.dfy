/** Properties of whole request sequences: login, callback, logout and the
    gates in front of the dashboards. */
module Flows {
  import opened Base
  import opened Middleware
  import opened Base64
  import opened Auth
  import opened Routes

  /** A callback that does not complete (abandoned with another state, or
      any failure, the refused admin signup among them) leaves the session as
      the login left it. */
  predicate Completed(r: Step) {
    r.response.Redirect? && r.response.to.RoleLanding?
  }

  /** As written, the login hint sits under the key the gates read. After
      `/auth/google/login/admin` every admin route, the approval of
      recruiters included, admits the browser, and it keeps doing so when the
      callback is abandoned, refused for a new email, or fails in any other
      way. */
  lemma AdminHintAdmitted(st: AuthState, random: seq<byte>, query: string, w: CallbackWorld, r: Route)
    requires |random| == 32 && |w.tokenBytes| == 32
    requires RegisteredOn(r) == AdminGroup
    ensures var login := LoginNext(st, RoleKey, Some("admin"), random, true);
      && Admission(r, login.next.session) == Pass
      && Admission(ApproveRecruiter, login.next.session) == Pass
      && var cb := CallbackNext(login.next, RoleKey, query, w);
      && (!Completed(cb) ==> Admission(r, cb.next.session) == Pass)
      && (!Completed(cb) ==> Admission(ApproveRecruiter, cb.next.session) == Pass)
      && ((query == login.response.to.state && w.profile.Some? && !w.lookupFails
           && w.profile.value.email !in st.users) ==> cb == Step(login.next, Redirect(Found, Site("/"))))
  {
  }

  /** The intended behaviour: with the hint under a key of its own, neither a
      login nor a callback that does not complete changes what any route's
      middleware sees, so only a completed callback, whose role comes from
      the users table, can open a gate. */
  lemma SeparateHintKeepsGates(st: AuthState, role: Option<string>, random: seq<byte>, saveOk: bool,
                               query: string, w: CallbackWorld, r: Route)
    requires |random| == 32 && |w.tokenBytes| == 32
    ensures var login := LoginNext(st, RequestedRoleKey, role, random, saveOk);
      && Admission(r, login.next.session) == Admission(r, st.session)
      && var cb := CallbackNext(login.next, RequestedRoleKey, query, w);
      && (!Completed(cb) ==> Admission(r, cb.next.session) == Admission(r, st.session))
      && (Completed(cb) ==>
            (w.profile.Some? && w.profile.value.email in cb.next.users
             && Lookup(cb.next.session, RoleKey) == Some(cb.next.users[w.profile.value.email].role)))
  {
    var login := LoginNext(st, RequestedRoleKey, role, random, saveOk);
    assert Lookup(login.next.session, RoleKey) == Lookup(st.session, RoleKey);
  }

  /** A fresh browser that signs up through `/auth/google/login/recruiter`
      ends as "pending" with the picture as its logo: the recruiter routes
      refuse it and only the pending page renders. */
  lemma RecruiterSignupIsPending(st: AuthState, random: seq<byte>, w: CallbackWorld, r: Route)
    requires |random| == 32 && |w.tokenBytes| == 32
    requires w.profile.Some? && w.profile.value.email !in st.users
    requires !w.lookupFails && w.createOk && w.upsertOk && w.saveOk
    requires RegisteredOn(r) == RecruiterGroup
    ensures var login := LoginNext(st, RoleKey, Some("recruiter"), random, true);
      var cb := CallbackNext(login.next, RoleKey, login.response.to.state, w);
      && cb.response == Redirect(Found, RoleLanding("pending"))
      && cb.next.users[w.profile.value.email].role == "pending"
      && Lookup(cb.next.session, LogoKey) == Some(w.profile.value.picture)
      && Admission(r, cb.next.session) == Reject(Abort(Forbidden))
      && ServePending(cb.next.session) == Render("pending_page.html")
  {
    var login := LoginNext(st, RoleKey, Some("recruiter"), random, true);
    assert Lookup(login.next.session, RoleKey) == Some("recruiter");
    var p := w.profile.value;
    var res := Resolve(login.next, RoleKey, p, w);
    assert res.Resolved? && res.user.role == "pending";
    var cb := CallbackNext(login.next, RoleKey, login.response.to.state, w);
    assert cb.next.users == res.users;
    assert Lookup(cb.next.session, RoleKey) == Some("pending");
  }

  /** A user already in the table keeps the stored role whatever login
      route was used: an admin coming back through the recruiter login is
      still an admin. */
  lemma ReturningUserKeepsRole(st: AuthState, hint: Option<string>, random: seq<byte>, w: CallbackWorld)
    requires |random| == 32 && |w.tokenBytes| == 32
    requires w.profile.Some? && w.profile.value.email in st.users
    requires !w.lookupFails && w.upsertOk && w.saveOk
    ensures var login := LoginNext(st, RoleKey, hint, random, true);
      var cb := CallbackNext(login.next, RoleKey, login.response.to.state, w);
      var u := st.users[w.profile.value.email];
      && cb.next.users == st.users
      && cb.response == Redirect(Found, RoleLanding(u.role))
      && Lookup(cb.next.session, RoleKey) == Some(u.role)
  {
  }

  /** The state of a login is not consumed: after a completed callback it is
      still stored, so the same callback passes the state check again. */
  lemma StateSurvivesCallback(st: AuthState, query: string, w: CallbackWorld)
    requires |w.tokenBytes| == 32
    requires Completed(CallbackNext(st, RoleKey, query, w))
    ensures Lookup(CallbackNext(st, RoleKey, query, w).next.session, StateKey) == Some(query)
  {
  }

  /** Logging out of a browser that never logged in changes no table,
      leaves an empty session and redirects to the logout page. */
  lemma LogoutWithoutLogin(users: map<string, User>, durable: map<UserId, string>, w: LogoutWorld)
    requires w.saveOk
    ensures LogoutNext(AuthState(map[], users, durable), w)
      == Step(AuthState(map[], users, durable), Redirect(Found, LogoutLanding))
  {
  }

  /** Logging in again supersedes the durable row: the user's row holds only
      the token of the latest completed callback. */
  lemma SecondLoginSupersedes(st: AuthState, q1: string, w1: CallbackWorld, q2: string, w2: CallbackWorld)
    requires |w1.tokenBytes| == 32 && |w2.tokenBytes| == 32
    requires w1.profile.Some? && w2.profile == w1.profile
    requires Completed(CallbackNext(st, RoleKey, q1, w1))
    requires Completed(CallbackNext(CallbackNext(st, RoleKey, q1, w1).next, RoleKey, q2, w2))
    ensures var s1 := CallbackNext(st, RoleKey, q1, w1).next;
      var s2 := CallbackNext(s1, RoleKey, q2, w2).next;
      var u := s1.users[w1.profile.value.email];
      && s2.users == s1.users
      && s2.durable == s1.durable[u.id := RandToken(w2.tokenBytes)]
  {
  }
}
