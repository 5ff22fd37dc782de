/** The role gate of middlewares/authMiddleware.go: `AuthMiddleware` copies
    the session's role into the request context, and the three `*Only`
    middlewares compare that context role with one fixed role. */
module Middleware {
  import opened Base

  /** The request context's key/value store. A key set to a nil interface
      value is present and maps to None. */
  type Keys = map<string, Option<string>>

  /** The request context; only its key/value store matters here. */
  class RequestContext {
    var keys: Keys

    constructor ()
      ensures keys == map[]
    {
      keys := map[];
    }
  }

  /** The context keys after `AuthMiddleware`: the role key is always set,
      to the session's role or to nil when the session has none; every
      other key is untouched. */
  function WithSessionRole(keys: Keys, session: Session): (k: Keys)
    ensures RoleKey in k && k[RoleKey] == Lookup(session, RoleKey)
    ensures forall key :: key != RoleKey ==> (key in k <==> key in keys)
    ensures forall key :: key != RoleKey && key in keys ==> k[key] == keys[key]
  {
    keys[RoleKey := Lookup(session, RoleKey)]
  }

  /** `AuthMiddleware`: never aborts. The durable-token check of the source
      is commented out, so nothing but the session's role is consulted. */
  method AuthMiddleware(c: RequestContext, session: Session)
    modifies c
    ensures c.keys == WithSessionRole(old(c.keys), session)
  {
    var role := Lookup(session, RoleKey);
    c.keys := c.keys[RoleKey := role];
  }

  /** What a gate does with a request: pass it on, or end it. */
  datatype GateOutcome = Pass | Reject(response: Response)

  /** The shared shape of the three gates: a missing key is refused with
      403, a present key holding nil makes `role.(string)` panic, and a role
      other than the required one is refused with 403. */
  function RoleGate(required: string, keys: Keys): (g: GateOutcome)
    ensures g == Pass <==> RoleKey in keys && keys[RoleKey] == Some(required)
    ensures g == Reject(Panic) <==> RoleKey in keys && keys[RoleKey].None?
    ensures g != Pass && g != Reject(Panic) ==> g == Reject(Abort(Forbidden))
  {
    if RoleKey !in keys then Reject(Abort(Forbidden))
    else match keys[RoleKey]
      case None => Reject(Panic)
      case Some(role) => if role != required then Reject(Abort(Forbidden)) else Pass
  }

  /** `ApplicantOnlyMiddleware`: passes exactly the role "applicant". */
  function ApplicantOnly(keys: Keys): (g: GateOutcome)
    ensures g == Pass <==> RoleKey in keys && keys[RoleKey] == Some("applicant")
    ensures RoleKey in keys && keys[RoleKey].Some? && keys[RoleKey].value != "applicant" ==> g == Reject(Abort(Forbidden))
  {
    RoleGate("applicant", keys)
  }

  /** `RecruiterOnlyMiddleware`: passes exactly the role "recruiter". */
  function RecruiterOnly(keys: Keys): (g: GateOutcome)
    ensures g == Pass <==> RoleKey in keys && keys[RoleKey] == Some("recruiter")
    ensures RoleKey in keys && keys[RoleKey].Some? && keys[RoleKey].value != "recruiter" ==> g == Reject(Abort(Forbidden))
  {
    RoleGate("recruiter", keys)
  }

  /** `AdminOnlyMiddleware`: passes exactly the role "admin". */
  function AdminOnly(keys: Keys): (g: GateOutcome)
    ensures g == Pass <==> RoleKey in keys && keys[RoleKey] == Some("admin")
    ensures RoleKey in keys && keys[RoleKey].Some? && keys[RoleKey].value != "admin" ==> g == Reject(Abort(Forbidden))
  {
    RoleGate("admin", keys)
  }

  /** No context passes two of the gates, and a role that is none of the
      three ("pending", "" or anything else) passes none of them. */
  lemma GatesExclusive(keys: Keys)
    ensures !(ApplicantOnly(keys) == Pass && RecruiterOnly(keys) == Pass)
    ensures !(ApplicantOnly(keys) == Pass && AdminOnly(keys) == Pass)
    ensures !(RecruiterOnly(keys) == Pass && AdminOnly(keys) == Pass)
    ensures RoleKey in keys && keys[RoleKey].Some? && keys[RoleKey].value !in {"applicant", "recruiter", "admin"} ==>
      && ApplicantOnly(keys) == Reject(Abort(Forbidden))
      && RecruiterOnly(keys) == Reject(Abort(Forbidden))
      && AdminOnly(keys) == Reject(Abort(Forbidden))
  {
  }

  /** A session without a role still sets the context key (to nil), so each
      gate behind `AuthMiddleware` panics instead of answering 403. */
  lemma NoRolePanics(keys: Keys, session: Session)
    requires RoleKey !in session
    ensures ApplicantOnly(WithSessionRole(keys, session)) == Reject(Panic)
    ensures RecruiterOnly(WithSessionRole(keys, session)) == Reject(Panic)
    ensures AdminOnly(WithSessionRole(keys, session)) == Reject(Panic)
  {
  }
}
