/** The registrant record of models/User.js: a username that is required and
    unique, a required password, a role restricted to "user" and "admin"
    (default "user"), an optional constituency and a status restricted to
    "pending", "accepted" and "refused" (default "pending"). */
module UserModel {
  import opened Responses

  datatype Role = User | Admin

  datatype Status = Pending | Accepted | Refused

  datatype Registrant = Registrant(
    username: string,
    password: string,
    role: Role,
    constituency: string,
    status: Status)

  /** The string the store keeps for a role. */
  function RoleName(role: Role): string {
    match role
    case User => "user"
    case Admin => "admin"
  }

  /** The role enum with its default: an absent role becomes "user", a role
      outside the enum fails validation. */
  function ParseRole(role: Option<string>): Option<Role> {
    match role
    case None => Some(User)
    case Some(name) =>
      if name == "user" then Some(User)
      else if name == "admin" then Some(Admin)
      else None
  }

  /** The status a signup stores: accepted for an admin, pending otherwise. */
  function SignupStatus(role: Option<string>): Status {
    if role == Some("admin") then Accepted else Pending
  }

  /** The "required" constraints: Mongoose rejects an empty required string. */
  predicate WellFormed(u: Registrant) {
    u.username != "" && u.password != ""
  }

  /** Building the record a signup saves and validating it against the schema;
      a record that fails validation is a store error. */
  function NewRegistrant(username: string, password: string, role: Option<string>, constituency: string)
    : (r: Result<Registrant>)
    ensures r.Ok? <==> username != "" && password != "" && (role.None? || role.value == "user" || role.value == "admin")
    ensures r.Err? ==> r.error == Internal
    ensures r.Ok? ==> WellFormed(r.value)
    ensures r.Ok? ==> (r.value.username == username && r.value.password == password
                       && r.value.constituency == constituency)
    ensures r.Ok? ==> (r.value.status == Accepted <==> r.value.role == Admin)
    ensures r.Ok? ==> r.value.status != Refused
    ensures r.Ok? ==> (r.value.role == Admin <==> role == Some("admin"))
  {
    var parsed := ParseRole(role);
    if username == "" || password == "" || parsed.None? then Err(Internal)
    else Ok(Registrant(username, password, parsed.value, constituency, SignupStatus(role)))
  }

  /** The role enum round-trips through its stored name, and only the two
      enum names parse. */
  lemma RoleNameRoundTrip(role: Role, name: string)
    ensures ParseRole(Some(RoleName(role))) == Some(role)
    ensures ParseRole(Some(name)).Some? <==> name == RoleName(User) || name == RoleName(Admin)
    ensures ParseRole(None) == Some(User)
  {
  }
}
