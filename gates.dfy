/** The route guards. Each reads only the session's snapshot of the user taken
    at login (or at an admin's signup), never the registrant table. */
module Gates {
  import opened Responses
  import opened UserModel

  /** `isAuthenticated`: any session user passes; otherwise 401. */
  function RequireAuthenticated(session: Option<Registrant>): Result<Registrant> {
    if session.Some? then Ok(session.value) else Err(Unauthenticated)
  }

  /** `isAdmin`: a session user whose role is "admin" passes; otherwise 403. */
  function RequireAdmin(session: Option<Registrant>): Result<Registrant> {
    if session.Some? && RoleName(session.value.role) == "admin" then Ok(session.value) else Err(Forbidden)
  }

  /** `isAuthority`: a session user whose role is "authority" passes; otherwise 403. */
  function RequireAuthority(session: Option<Registrant>): Result<Registrant> {
    if session.Some? && RoleName(session.value.role) == "authority" then Ok(session.value) else Err(Forbidden)
  }

  /** The guard of the voter-update route: "admin" or "authority"; otherwise 403. */
  function RequireUpdater(session: Option<Registrant>): Result<Registrant> {
    if session.Some? && (RoleName(session.value.role) == "admin" || RoleName(session.value.role) == "authority")
    then Ok(session.value)
    else Err(Forbidden)
  }

  /** Every guard hands the route the session's own snapshot, or refuses. */
  lemma GatesPassSnapshot(session: Option<Registrant>)
    ensures RequireAuthenticated(session).Ok? <==> session.Some?
    ensures RequireAuthenticated(session).Ok? ==> RequireAuthenticated(session).value == session.value
    ensures RequireAuthenticated(session).Err? ==> RequireAuthenticated(session).error == Unauthenticated
    ensures RequireAdmin(session).Ok? <==> session.Some? && session.value.role == Admin
    ensures RequireAdmin(session).Ok? ==> RequireAdmin(session).value == session.value
    ensures RequireAdmin(session).Err? ==> RequireAdmin(session).error == Forbidden
  {
    if session.Some? {
      assert RoleName(User) != "admin" by { assert RoleName(User)[0] != "admin"[0]; }
    }
  }

  /** A stored role is "user" or "admin", so the authority guard admits nobody. */
  lemma AuthorityGateAdmitsNobody(session: Option<Registrant>)
    ensures RequireAuthority(session) == Err(Forbidden)
  {
    if session.Some? {
      assert RoleName(User) != "authority" by { assert |RoleName(User)| != |"authority"|; }
      assert RoleName(Admin) != "authority" by { assert RoleName(Admin)[1] != "authority"[1]; }
    }
  }

  /** For the same reason the update guard admits exactly the admins, as the
      create and delete guards do. */
  lemma UpdaterGateIsAdminGate(session: Option<Registrant>)
    ensures RequireUpdater(session) == RequireAdmin(session)
  {
    AuthorityGateAdmitsNobody(session);
  }

  /** Passing the admin guard implies passing the authentication guard with the same user. */
  lemma AdminGateImpliesAuthenticated(session: Option<Registrant>)
    ensures RequireAdmin(session).Ok? ==> RequireAuthenticated(session) == RequireAdmin(session)
  {
  }
}
