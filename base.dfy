/** Values shared by the whole model: optional values, bytes, the keys of the
    per-browser cookie session, and the HTTP responses a handler can end with. */
module Base {

  datatype Option<+T> = None | Some(value: T)

  newtype byte = x: int | 0 <= x < 256

  /** Keys the handlers read and write in the browser's sealed cookie session. */
  const StateKey: string := "state"
  const RoleKey: string := "role"
  const EmailKey: string := "email"
  const NameKey: string := "name"
  const IdKey: string := "id"
  const PictureKey: string := "picture"
  const TokenKey: string := "token"
  const LogoKey: string := "logo"

  /** The cookie session: every value the handlers store is a string; a key
      that is not in the map is what `session.Get` reports as nil. */
  type Session = map<string, string>

  /** `session.Get(key)`: the stored string, or None for nil. */
  function Lookup(s: Session, key: string): (v: Option<string>)
    ensures v.Some? <==> key in s
    ensures v.Some? ==> v.value == s[key]
  {
    if key in s then Some(s[key]) else None
  }

  /** Where a redirect points. The provider consent URL built from a state,
      the per-role landing URL read from `<ROLE>_REDIRECT_URL` and the logout
      landing URL read from `LOGOUT_REDIRECT_URL` are configuration, so they
      stay symbolic; `Site` is a literal path of this server. */
  datatype Location =
    | ProviderConsent(state: string)
    | RoleLanding(role: string)
    | LogoutLanding
    | Site(path: string)

  /** How a request ends. `Panic` is a failed type assertion on a nil
      interface value, which the framework's recovery turns into a 500. */
  datatype Response =
    | Redirect(code: int, to: Location)
    | Abort(code: int)
    | Render(page: string)
    | Panic

  const Found := 302
  const SeeOther := 303
  const BadRequest := 400
  const Unauthorized := 401
  const Forbidden := 403
  const InternalServerError := 500
}
