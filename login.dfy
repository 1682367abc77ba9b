/** The login form (pages/Login.tsx). */
module Login {
  import opened Wrappers
  import opened Types
  import opened AppState

  const FieldEmptyError: string := "FIELD_EMPTY: ENTER_IDENTIFIER"
  const AccessDeniedError: string := "ACCESS_DENIED: INVALID_MASTER_ID"

  /** The only credentials the admin role accepts. */
  const MasterId: string := "ZENKIRA"
  const MasterPassword: string := "1234"

  datatype LoginOutcome = FieldEmpty | AccessDenied | Connecting(role: UserRole)

  /**
   * The decision of `handleSubmit`: an empty field is refused first; the
   * admin role then needs the master credentials exactly; the user role
   * accepts any non-empty pair.
   */
  function Decide(role: UserRole, email: string, password: string): (o: LoginOutcome)
    ensures o.FieldEmpty? <==> email == "" || password == ""
    ensures o.AccessDenied? <==> email != "" && password != "" && role == Admin && (email != MasterId || password != MasterPassword)
    ensures o.Connecting? ==> o.role == role
  {
    if email == "" || password == "" then FieldEmpty
    else if role == Admin && (email != MasterId || password != MasterPassword) then AccessDenied
    else Connecting(role)
  }

  /** Signing in as admin succeeds exactly with `ZENKIRA` / `1234`. */
  lemma AdminNeedsMasterCredentials(email: string, password: string)
    ensures Decide(Admin, email, password).Connecting? <==> email == MasterId && password == MasterPassword
  {
  }

  /** Signing in as a user succeeds with any two non-empty fields. */
  lemma UserAcceptsAnyCredentials(email: string, password: string)
    requires email != "" && password != ""
    ensures Decide(User, email, password) == Connecting(User)
  {
  }

  /** The first line of the connecting screen. */
  function ScanStatus(role: UserRole): string {
    if role == Admin then "AWAKENING_OVERLORD_DOMAIN..." else "SYNCHRONIZING_PROTAGONIST_SOUL..."
  }

  /** Where a successful login leads. */
  function Destination(role: UserRole): (path: string)
    ensures role == Admin ==> path == "/admin"
    ensures role == User ==> path == "/profile"
  {
    if role == Admin then "/admin" else "/profile"
  }

  /** A successful login lands on a page its session may view: the admin page for an admin, the profile otherwise. */
  lemma LoginLandsOnViewablePage(role: UserRole, email: string, password: string)
    requires Decide(role, email, password).Connecting?
    ensures CanView(if role == Admin then AdminRoute else ProfileRoute, LoginSuccess(role))
  {
  }

  class LoginForm {
    var role: UserRole
    var error: string
    var isConnecting: bool
    var scanStatus: string

    constructor ()
      ensures role == User && error == "" && !isConnecting && scanStatus == ""
    {
      role, error, isConnecting, scanStatus := User, "", false, "";
    }

    method SelectRole(r: UserRole)
      modifies this
      ensures role == r && error == old(error) && isConnecting == old(isConnecting) && scanStatus == old(scanStatus)
    {
      role := r;
    }

    /**
     * `handleSubmit`: the error is cleared first, then set again on a
     * refusal; an accepted pair starts the connecting screen and yields the
     * role that `onLoginSuccess` receives once the timers have run.
     */
    method Submit(email: string, password: string) returns (success: Option<UserRole>)
      modifies this
      ensures var o := Decide(old(role), email, password);
        && role == old(role)
        && (o.FieldEmpty? ==> error == FieldEmptyError && isConnecting == old(isConnecting) && scanStatus == old(scanStatus))
        && (o.AccessDenied? ==> error == AccessDeniedError && isConnecting == old(isConnecting) && scanStatus == old(scanStatus))
        && (o.Connecting? ==> error == "" && isConnecting && scanStatus == ScanStatus(role))
        && (success.Some? <==> o.Connecting?)
        && (success.Some? ==> success.value == role)
    {
      error := "";
      success := None;
      if email == "" || password == "" {
        error := FieldEmptyError;
        return;
      }
      if role == Admin {
        if email != MasterId || password != MasterPassword {
          error := AccessDeniedError;
          return;
        }
      }
      isConnecting := true;
      scanStatus := if role == Admin then "AWAKENING_OVERLORD_DOMAIN..." else "SYNCHRONIZING_PROTAGONIST_SOUL...";
      success := Some(role);
    }
  }
}
