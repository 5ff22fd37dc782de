/** The login flow of auth/auth.go: `LoginHandler`, `AuthHandler` (the OAuth
    callback) and `LogoutHandler`, acting on three pieces of state: the
    browser's cookie session, the users table keyed by email, and the durable
    session table keyed by user id.

    Each handler is given twice: a function on an `AuthState` value that says
    what one request does (the specification, about which the properties are
    stated), and a method of the class `AuthService` that updates the three
    fields step by step as the handler does, proved equal to that function.

    The specification functions take the session key under which the login
    hint is kept as a parameter: auth/auth.go keeps it under "role", the same
    key as the authenticated role, and the class passes `RoleKey`. */
module Auth {
  import opened Base
  import opened Base64

  /** A user id in its printed form (`ID.String()`). */
  type UserId = string

  /** A row of the users table; the picture column is nullable. */
  datatype User = User(id: UserId, name: string, email: string, picture: Option<string>, role: string)

  /** `Picture.String`: the stored picture, or "" for NULL. */
  function PictureText(p: Option<string>): (t: string) {
    if p.Some? then p.value else ""
  }

  /** The userinfo profile the callback decodes. */
  datatype Profile = Profile(
    sub: string, name: string, givenName: string, familyName: string, profile: string,
    picture: string, email: string, emailVerified: bool, gender: string)

  /** The cookie session, the users table and the durable session table. */
  datatype AuthState = AuthState(session: Session, users: map<string, User>, durable: map<UserId, string>)

  /** The state after one request and the response it ends with. */
  datatype Step = Step(next: AuthState, response: Response)

  /** The session key under which a corrected login keeps its hint. */
  const RequestedRoleKey: string := "requested_role"

  /** What holds of every state the handlers can reach: the users table is
      keyed by each user's own email, and a stored login state always comes
      with a stored hint. */
  predicate Invariant(st: AuthState, hintKey: string) {
    && (forall e :: e in st.users ==> st.users[e].email == e)
    && (StateKey in st.session ==> hintKey in st.session)
  }

  // ---------------------------------------------------------------- Login

  /** `c.Param("role")`: the route without `:role` gives "". */
  function RoleParam(role: Option<string>): (r: string)
    ensures role.None? ==> r == ""
    ensures role.Some? ==> r == role.value
  {
    if role.Some? then role.value else ""
  }

  /** `LoginHandler`: stores a fresh state token and the raw role parameter,
      then redirects to the provider with that state. The result of saving the
      session is ignored, so a failed save still redirects. */
  function LoginNext(st: AuthState, hintKey: string, role: Option<string>, random: seq<byte>, saveOk: bool): (r: Step)
    requires |random| == 32
    ensures r.next.users == st.users && r.next.durable == st.durable
    ensures r.response.Redirect? && r.response.code == Found && r.response.to.ProviderConsent?
    ensures var state := r.response.to.state;
      |state| == 44 && state[43] == '=' && Decode(state) == Some(random)
    ensures saveOk && hintKey != StateKey ==>
      && Lookup(r.next.session, StateKey) == Some(r.response.to.state)
      && Lookup(r.next.session, hintKey) == Some(RoleParam(role))
      && forall k :: k != StateKey && k != hintKey ==> Lookup(r.next.session, k) == Lookup(st.session, k)
    ensures !saveOk ==> r.next.session == st.session
  {
    var state := RandToken(random);
    var s := st.session[StateKey := state][hintKey := RoleParam(role)];
    Step(st.(session := if saveOk then s else st.session), Redirect(Found, ProviderConsent(state)))
  }

  // ------------------------------------------------------------- Callback

  /** What the collaborators of one callback do. `profile` is None when the
      code exchange, the userinfo request, reading its body or decoding it
      fails. `lookupFails` is a lookup error other than "no rows". `newId` is
      the id the database gives a created row. `tokenBytes` are the random
      bytes of the new session token. */
  datatype CallbackWorld = CallbackWorld(
    profile: Option<Profile>, lookupFails: bool, newId: UserId, createOk: bool,
    tokenBytes: seq<byte>, upsertOk: bool, saveOk: bool)

  /** How the user of a callback is found or created. */
  datatype Resolution =
    | Resolved(user: User, users: map<string, User>, session: Session)
    | Stop(response: Response)

  /** The role a new user gets from the stored hint: "recruiter" becomes
      "pending", anything else is kept verbatim, "admin" is refused and a
      missing hint makes the type assertion on it panic. */
  datatype Provision = Blocked | NilHint | Grant(role: string)

  function ProvisionFor(hint: Option<string>): (p: Provision)
    ensures p == Blocked <==> hint == Some("admin")
    ensures p == NilHint <==> hint.None?
    ensures p.Grant? ==> p.role == if hint.value == "recruiter" then "pending" else hint.value
  {
    match hint
    case None => NilHint
    case Some(h) =>
      if h == "recruiter" then Grant("pending")
      else if h == "admin" then Blocked
      else Grant(h)
  }

  /** The user lookup and, for an unknown email, the provisioning policy. A
      created user keeps the profile's picture as present even when it is
      empty; a user created as "pending" also gets the `logo` session key. */
  function Resolve(st: AuthState, hintKey: string, p: Profile, w: CallbackWorld): (r: Resolution)
    ensures w.lookupFails ==> r == Stop(Abort(InternalServerError))
    // a known email: nothing is created and the stored role is used, whatever the hint
    ensures !w.lookupFails && p.email in st.users ==>
      r == Resolved(st.users[p.email], st.users, st.session)
    ensures !w.lookupFails && p.email !in st.users ==>
      var hint := Lookup(st.session, hintKey);
      && (hint == Some("admin") ==> r == Stop(Redirect(Found, Site("/"))))
      && (hint.None? ==> r == Stop(Panic))
      && (hint.Some? && hint.value != "admin" ==>
            var role := if hint.value == "recruiter" then "pending" else hint.value;
            var u := User(w.newId, p.name, p.email, Some(p.picture), role);
            if !w.createOk then r == Stop(Abort(InternalServerError))
            else
              && r.Resolved? && r.user == u && r.users == st.users[p.email := u]
              && r.session == if role == "pending" then st.session[LogoKey := p.picture] else st.session)
    ensures r.Resolved? ==> p.email in r.users && r.users[p.email] == r.user
  {
    if w.lookupFails then Stop(Abort(InternalServerError))
    else if p.email in st.users then Resolved(st.users[p.email], st.users, st.session)
    else match ProvisionFor(Lookup(st.session, hintKey))
      case Blocked => Stop(Redirect(Found, Site("/")))
      case NilHint => Stop(Panic)
      case Grant(role) =>
        if !w.createOk then Stop(Abort(InternalServerError))
        else
          var u := User(w.newId, p.name, p.email, Some(p.picture), role);
          Resolved(u, st.users[p.email := u],
                   if role == "pending" then st.session[LogoKey := PictureText(u.picture)] else st.session)
  }

  /** The six session keys a completed callback writes, holding the user's
      fields and the session token. */
  predicate SignedIn(s: Session, u: User, token: string) {
    && Lookup(s, EmailKey) == Some(u.email)
    && Lookup(s, NameKey) == Some(u.name)
    && Lookup(s, RoleKey) == Some(u.role)
    && Lookup(s, IdKey) == Some(u.id)
    && Lookup(s, PictureKey) == Some(PictureText(u.picture))
    && Lookup(s, TokenKey) == Some(token)
  }

  /** `session.Set` of the six keys, in the handler's order. */
  function SignIn(s: Session, u: User, token: string): (r: Session)
    ensures SignedIn(r, u, token)
    ensures forall k :: k !in {EmailKey, NameKey, RoleKey, IdKey, PictureKey, TokenKey} ==> Lookup(r, k) == Lookup(s, k)
  {
    s[EmailKey := u.email][NameKey := u.name][RoleKey := u.role][IdKey := u.id]
     [PictureKey := PictureText(u.picture)][TokenKey := token]
  }

  /** `AuthHandler`. The state check comes first and a mismatch (a missing
      stored state included) ends with 401 before anything else happens. On
      success the durable row of the user and the session's `token` hold the
      same fresh token and the session holds the user's fields. The session is
      written only by the final save, so every other ending leaves it as it
      was; a user created before a later failure stays created. */
  function CallbackNext(st: AuthState, hintKey: string, queryState: string, w: CallbackWorld): (r: Step)
    requires |w.tokenBytes| == 32
    ensures r.response == Abort(Unauthorized) <==> Lookup(st.session, StateKey) != Some(queryState)
    ensures Lookup(st.session, StateKey) != Some(queryState) ==> r.next == st
    ensures Lookup(st.session, StateKey) == Some(queryState) && w.profile.None? ==>
      r == Step(st, Abort(BadRequest))
    // nothing but a completed callback writes the session
    ensures r.next.session != st.session ==> r.response.Redirect? && r.response.to.RoleLanding?
    // a known email is never re-created and keeps its stored role
    ensures w.profile.Some? && w.profile.value.email in st.users ==> r.next.users == st.users
    ensures w.profile.Some? && w.profile.value.email in st.users && r.response.Redirect? && r.response.to.RoleLanding? ==>
      Lookup(r.next.session, RoleKey) == Some(st.users[w.profile.value.email].role)
    // the only change to the users table is one new row for the profile's email
    ensures r.next.users != st.users ==>
      && w.profile.Some? && w.profile.value.email !in st.users && w.profile.value.email in r.next.users
      && r.next.users == st.users[w.profile.value.email := r.next.users[w.profile.value.email]]
    // the durable table changes only by the upsert of the user's row
    ensures r.next.durable != st.durable ==>
      && w.profile.Some? && w.profile.value.email in r.next.users
      && r.next.durable == st.durable[r.next.users[w.profile.value.email].id := RandToken(w.tokenBytes)]
    // what a completed callback leaves
    ensures r.response.Redirect? && r.response.to.RoleLanding? ==>
      && w.profile.Some? && w.profile.value.email in r.next.users
      && var u := r.next.users[w.profile.value.email];
      && var token := RandToken(w.tokenBytes);
      && r.response == Redirect(Found, RoleLanding(u.role))
      && u.id in r.next.durable && r.next.durable[u.id] == token
      && SignedIn(r.next.session, u, token)
    ensures r.response.Redirect? && r.response.to.RoleLanding? <==>
      && Lookup(st.session, StateKey) == Some(queryState) && w.profile.Some? && !w.lookupFails
      && Resolve(st, hintKey, w.profile.value, w).Resolved? && w.upsertOk && w.saveOk
    // how a callback past the state check ends when a later step stops it
    ensures Lookup(st.session, StateKey) == Some(queryState) && w.profile.Some?
            && Resolve(st, hintKey, w.profile.value, w).Stop? ==>
      r == Step(st, Resolve(st, hintKey, w.profile.value, w).response)
    ensures Lookup(st.session, StateKey) == Some(queryState) && w.profile.Some?
            && Resolve(st, hintKey, w.profile.value, w).Resolved? && !w.upsertOk ==>
      r == Step(st.(users := Resolve(st, hintKey, w.profile.value, w).users), Abort(InternalServerError))
    ensures Lookup(st.session, StateKey) == Some(queryState) && w.profile.Some?
            && Resolve(st, hintKey, w.profile.value, w).Resolved? && w.upsertOk && !w.saveOk ==>
      && r.response == Abort(InternalServerError) && r.next.session == st.session
      && r.next.users == Resolve(st, hintKey, w.profile.value, w).users
      && r.next.durable == st.durable[Resolve(st, hintKey, w.profile.value, w).user.id := RandToken(w.tokenBytes)]
    // a completed callback keeps the user the lookup found or created, and signs
    // in on top of the session that lookup left (the `logo` of a pending user included)
    ensures r.response.Redirect? && r.response.to.RoleLanding? ==>
      && w.profile.Some?
      && var res := Resolve(st, hintKey, w.profile.value, w);
      && res.Resolved?
      && r.next.users == res.users
      && r.next.session == SignIn(res.session, res.user, RandToken(w.tokenBytes))
  {
    if Lookup(st.session, StateKey) != Some(queryState) then Step(st, Abort(Unauthorized))
    else if w.profile.None? then Step(st, Abort(BadRequest))
    else match Resolve(st, hintKey, w.profile.value, w)
      case Stop(response) => Step(st, response)
      case Resolved(u, users, s) =>
        var token := RandToken(w.tokenBytes);
        if !w.upsertOk then Step(st.(users := users), Abort(InternalServerError))
        else
          var durable := st.durable[u.id := token];
          if !w.saveOk then Step(AuthState(st.session, users, durable), Abort(InternalServerError))
          else Step(AuthState(SignIn(s, u, token), users, durable), Redirect(Found, RoleLanding(u.role)))
  }

  // --------------------------------------------------------------- Logout

  /** What the collaborators of one logout do. */
  datatype LogoutWorld = LogoutWorld(lookupFails: bool, deleteOk: bool, saveOk: bool)

  /** `DeleteSession`: removes the durable row only when it holds exactly
      this token; any other row, or none, is left alone. */
  function DeleteSession(durable: map<UserId, string>, id: UserId, token: string): (d: map<UserId, string>)
    ensures id in durable && durable[id] == token ==> d == durable - {id}
    ensures !(id in durable && durable[id] == token) ==> d == durable
  {
    if id in durable && durable[id] == token then durable - {id} else durable
  }

  /** Whether logout asks the database to delete a row: only when both the
      session token and the email are present and the email's user is
      found. */
  predicate Revokes(st: AuthState, w: LogoutWorld) {
    TokenKey in st.session && EmailKey in st.session && !w.lookupFails
    && st.session[EmailKey] in st.users && w.deleteOk
  }

  /** `LogoutHandler`: revokes on a best-effort basis (a failed lookup or
      delete is only logged), always clears the session, and fails with 500
      only when saving the cleared session fails. */
  function LogoutNext(st: AuthState, w: LogoutWorld): (r: Step)
    ensures r.next.users == st.users
    ensures r.response == (if w.saveOk then Redirect(Found, LogoutLanding) else Abort(InternalServerError))
    ensures r.next.session == if w.saveOk then map[] else st.session
    ensures !(TokenKey in st.session && EmailKey in st.session) ==> r.next.durable == st.durable
    ensures r.next.durable != st.durable ==>
      && Revokes(st, w)
      && var id := st.users[st.session[EmailKey]].id;
      && id in st.durable && st.durable[id] == st.session[TokenKey]
      && r.next.durable == st.durable - {id}
    // a found user's row is deleted when it holds the session's token
    ensures Revokes(st, w) ==>
      r.next.durable == DeleteSession(st.durable, st.users[st.session[EmailKey]].id, st.session[TokenKey])
  {
    var durable :=
      if Revokes(st, w) then DeleteSession(st.durable, st.users[st.session[EmailKey]].id, st.session[TokenKey])
      else st.durable;
    if w.saveOk then Step(AuthState(map[], st.users, durable), Redirect(Found, LogoutLanding))
    else Step(AuthState(st.session, st.users, durable), Abort(InternalServerError))
  }

  // ----------------------------------------------------------- Invariants

  lemma LoginKeepsInvariant(st: AuthState, hintKey: string, role: Option<string>, random: seq<byte>, saveOk: bool)
    requires |random| == 32 && Invariant(st, hintKey)
    ensures Invariant(LoginNext(st, hintKey, role, random, saveOk).next, hintKey)
  {
  }

  lemma CallbackKeepsInvariant(st: AuthState, hintKey: string, queryState: string, w: CallbackWorld)
    requires |w.tokenBytes| == 32 && Invariant(st, hintKey)
    ensures Invariant(CallbackNext(st, hintKey, queryState, w).next, hintKey)
  {
  }

  lemma LogoutKeepsInvariant(st: AuthState, w: LogoutWorld, hintKey: string)
    requires Invariant(st, hintKey)
    ensures Invariant(LogoutNext(st, w).next, hintKey)
  {
  }

  /** In a reachable state the type assertion on the hint never panics: a
      callback that passes the state check always finds a stored hint. */
  lemma CallbackNeverPanics(st: AuthState, hintKey: string, queryState: string, w: CallbackWorld)
    requires |w.tokenBytes| == 32 && Invariant(st, hintKey)
    ensures CallbackNext(st, hintKey, queryState, w).response != Panic
  {
  }

  // ------------------------------------------------------ The handlers

  /** The handlers as the source runs them, on one browser's session and the
      two tables. Each method works on a copy of the session (`session.Set`)
      and commits it only where the source calls `session.Save`. */
  class AuthService {
    var session: Session
    var users: map<string, User>
    var durable: map<UserId, string>

    ghost function State(): AuthState
      reads this
    {
      AuthState(session, users, durable)
    }

    /** A browser with an empty session, in front of the given tables. */
    constructor (users: map<string, User>, durable: map<UserId, string>)
      ensures State() == AuthState(map[], users, durable)
    {
      this.session := map[];
      this.users := users;
      this.durable := durable;
    }

    method LoginHandler(role: Option<string>, random: seq<byte>, saveOk: bool) returns (response: Response)
      requires |random| == 32
      modifies this
      ensures Step(State(), response) == LoginNext(old(State()), RoleKey, role, random, saveOk)
    {
      var state := RandToken(random);
      var s := session;
      s := s[StateKey := state];
      var r := RoleParam(role);
      s := s[RoleKey := r];
      if saveOk {
        session := s;
      }
      response := Redirect(Found, ProviderConsent(state));
    }

    method AuthHandler(queryState: string, w: CallbackWorld) returns (response: Response)
      requires |w.tokenBytes| == 32
      modifies this
      ensures Step(State(), response) == CallbackNext(old(State()), RoleKey, queryState, w)
    {
      var retrieved := Lookup(session, StateKey);
      if retrieved != Some(queryState) {
        return Abort(Unauthorized);
      }
      if w.profile.None? {
        return Abort(BadRequest);
      }
      var p := w.profile.value;
      var s := session;
      var user: User;
      if w.lookupFails {
        return Abort(InternalServerError);
      } else if p.email in users {
        user := users[p.email];
      } else {
        var role := Lookup(s, RoleKey);
        if role == Some("recruiter") {
          role := Some("pending");
        } else if role == Some("admin") {
          return Redirect(Found, Site("/"));
        }
        if role.None? {
          return Panic;
        }
        if !w.createOk {
          return Abort(InternalServerError);
        }
        user := User(w.newId, p.name, p.email, Some(p.picture), role.value);
        users := users[p.email := user];
        if role == Some("pending") {
          s := s[LogoKey := PictureText(user.picture)];
        }
      }
      var token := RandToken(w.tokenBytes);
      if !w.upsertOk {
        return Abort(InternalServerError);
      }
      durable := durable[user.id := token];
      s := s[EmailKey := user.email];
      s := s[NameKey := user.name];
      s := s[RoleKey := user.role];
      s := s[IdKey := user.id];
      s := s[PictureKey := PictureText(user.picture)];
      s := s[TokenKey := token];
      if !w.saveOk {
        return Abort(InternalServerError);
      }
      session := s;
      response := Redirect(Found, RoleLanding(user.role));
    }

    method LogoutHandler(w: LogoutWorld) returns (response: Response)
      modifies this
      ensures Step(State(), response) == LogoutNext(old(State()), w)
    {
      var token := Lookup(session, TokenKey);
      var email := Lookup(session, EmailKey);
      if token.Some? && email.Some? {
        if w.lookupFails || email.value !in users {
          // the lookup error is only logged
        } else {
          var user := users[email.value];
          if w.deleteOk {
            durable := DeleteSession(durable, user.id, token.value);
          }
        }
      }
      var s: Session := map[];
      if !w.saveOk {
        return Abort(InternalServerError);
      }
      session := s;
      response := Redirect(Found, LogoutLanding);
    }
  }
}
