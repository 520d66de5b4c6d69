# Voter-registry backend: account approval and per-user voter partitions

This project models the core of a small voter-registry server. People sign up.
Any admin can accept or refuse any non-admin registrant by username; the
dashboard lists only the admin's own constituency. Each accepted user gets a
partition of voter records named `user_<username>_collection`. Only admins
create, update and delete records, each in their own partition, so a non-admin
user can only list and read theirs, which stays empty. Sessions hold a snapshot
of the user taken at login, or at an admin's signup.

The store is replaced by three pieces of state on the class `Server.App`:

- `users`: username to registrant (the registrant table);
- `partitions`: partition name to a map from record key to voter record;
- `sessions`: client to the registrant snapshot of that client's session.

Every route handler is a method of `App` with the source's error outcomes as a
`Result`. `App.Valid()` is the store invariant every handler keeps:

- registrants are keyed by their own unique username and satisfy the schema;
- every accepted registrant, and every session user, has a partition;
- a session always holds an accepted snapshot;
- every stored voter has a canonical object-id key and no `_id` field.

The pure parts are modules of their own:

- `UserModel`: the registrant schema, its role and status enums, and the signup status rule.
- `Partitions`: the partition-naming scheme and its inverse, object-id keys, voter records, create-if-absent provisioning.
- `Gates`: the route guards, as functions of the session snapshot.
- `Pagination`: the arithmetic of the paginated listing.

`Scenarios` states two end-to-end request sequences and proves their outcomes from the handlers' contracts.

Facts of the code the model keeps:

- Accept and refuse match on the username and "role is not admin" only, so
  accepted→refused and refused→accepted are both reachable and neither status is
  terminal (`Scenarios.RefusalDoesNotReachSession`).
- `isAdmin` and the update guard answer 403, not 401, when there is no session.
- A stored role is only `user` or `admin`. So the `authority` guard admits
  nobody, and the update guard admits exactly the admins (`Gates.UpdaterGateIsAdminGate`).
- Create, update and delete write only to the caller's own partition and only for
  an admin session, so nothing ever writes to a non-admin user's partition.
- `GET /api/voters` is registered twice. The full-scan handler ends every
  request, so the paginated handler (Server.js:295-317) is never reached. The
  route is modelled as the full scan (`App.ListVoters`). The pagination is the
  pure function `Pagination.Paginate`.

## Model

| member | source | states |
|---|---|---|
| UserModel.NewRegistrant | Server.js:64-66 | a signup record passes schema validation iff username and password are non-empty and the role is absent, `user` or `admin`; it is accepted iff its role is admin, never refused, and keeps the given username, password and constituency; a failure is a store error |
| UserModel.RoleNameRoundTrip | models/User.js:6 | `ParseRole`, the role enum with its default: the role enum round-trips through its stored name, only `user` and `admin` parse, and an absent role defaults to `user` |
| Partitions.OwnerOf | Server.js:69 | `OwnerOf` inverts `PartitionName`, the `user_<u>_collection` template: the owner recovered from a partition name names that partition again |
| Partitions.OwnerOfPartitionName | Server.js:97 | `PartitionName`, the partition template: the owner of `user_<u>_collection` is exactly `u` |
| Partitions.PartitionNameInjective | Server.js:189 | `PartitionName`, the partition template: two users share a partition name iff they are the same user |
| Partitions.ParseKey | Server.js:216-217 | an id yields a key iff it is 24 hexadecimal digits, and the key is that id with its letters in lower case |
| Partitions.ParseCanonicalKey | Server.js:224 | a key as the store hands it out reads back as itself |
| Partitions.ParseKeyIgnoresCase | Server.js:224 | ids that differ only in letter case address the same record |
| Partitions.FromBody | Server.js:190 | a new voter keeps exactly the request fields that belong to the voter schema, with their values, and never an `_id` field |
| Partitions.MergeOverwritesOnlyPatch | Server.js:253-257 | `Merge`, the `$set`: an update overwrites exactly the supplied fields and keeps every other field |
| Partitions.MergeIdempotent | Server.js:253-257 | `Merge`, the `$set`: repeating the same update changes nothing further |
| Partitions.ProvisionKeepsRecords | Server.js:97-98 | `Provision`, the `createCollection` call: provisioning adds the named partition and never clears or drops any partition |
| Partitions.ProvisionIdempotent | Server.js:69-70 | `Provision`, the `createCollection` call: provisioning the same partition twice is provisioning it once |
| Gates.GatesPassSnapshot | Server.js:31-44 | `RequireAuthenticated` and `RequireAdmin`, the two middleware: `isAuthenticated` passes iff there is a session, else 401; `isAdmin` passes iff the session user is an admin, else 403; both hand on the snapshot itself |
| Gates.AuthorityGateAdmitsNobody | Server.js:47-52 | `RequireAuthority`, the `isAuthority` middleware: no stored user passes the `authority` guard |
| Gates.UpdaterGateIsAdminGate | Server.js:235-240 | `RequireUpdater`, the inline update guard: the update guard admits exactly the sessions the admin guard admits |
| Gates.AdminGateImpliesAuthenticated | Server.js:39-44 | `RequireAdmin` and `RequireAuthenticated`: a session that passes the admin guard passes the authentication guard with the same user |
| Pagination.CeilDiv | Server.js:312 | `totalPages` is the ceiling of count over limit, for either sign of the limit |
| Pagination.Paginate | Server.js:301-312 | with `OrDefault`, the fallback of an unparsable or zero `parseInt` result to the default: page and limit default to 1 and 10 when unparsable or 0; a negative skip is a store error; otherwise the page holds `min(abs(limit), max(0, N - skip))` records, the j-th being record `skip + j`, and `totalPages = ceil(N / limit)` |
| Pagination.PageSlice | Server.js:303-310 | page p with a positive limit is the slice from record `(p-1)*limit` up to record `p*limit`, cut at N |
| Pagination.PageOfIndex | Server.js:303-310 | with a positive limit, record i is on page `i / limit + 1` at position `i % limit`, and that page is within `totalPages` |
| Pagination.PagesCover | Server.js:301-312 | pages 1 to `totalPages` concatenated give back every record once, in order |
| Server.DashboardListsPartition | Server.js:159-161 | `LocalRegistrants`, the two dashboard queries: the pending and accepted lists are disjoint, and together they hold exactly the non-admin, non-refused registrants of the constituency |
| Server.App.Signup | Server.js:55-80 | a taken username gives Conflict and changes nothing; a record failing validation gives a store error and changes nothing; otherwise the registrant is stored, and only an admin signup provisions its partition and opens a session with the new record |
| Server.App.Accept | Server.js:83-105 | without an admin session: Forbidden; an unknown or admin username: NotFound with nothing changed; otherwise the status becomes accepted from any prior status and the partition is provisioned; sessions never change |
| Server.App.Refuse | Server.js:108-127 | as Accept, but the status becomes refused and no partition is provisioned |
| Server.App.Login | Server.js:130-149 | an unknown user or a wrong password gives InvalidCredentials; a non-accepted user gives NotApproved; only success opens the client's session with the stored record; registrants and partitions never change |
| Server.App.CurrentUser | Server.js:152-154 | the client's session snapshot, or Unauthenticated |
| Server.App.AdminDashboard | Server.js:157-168 | an admin session gets the non-admin registrants of its own constituency, split by status pending and accepted; any other caller gets Forbidden |
| Server.App.UserData | Server.js:171-182 | a session user gets every record of its own partition, which exists; otherwise Unauthenticated |
| Server.App.CreateVoter | Server.js:186-197 | an admin session adds the voter under a fresh key to its own partition and to no other; otherwise Forbidden with nothing changed |
| Server.App.ListVoters | Server.js:200-210 | a session user gets every record of its own partition, which exists; otherwise Unauthenticated |
| Server.App.GetVoter | Server.js:213-232 | Unauthenticated without a session; InvalidKey for a malformed id before the partition is read; NotFound for an absent key; otherwise the record under that key in the caller's own partition |
| Server.App.UpdateVoter | Server.js:235-268 | Forbidden unless the session passes the update guard; then InvalidKey, NotFound; a patch naming `_id` is a store error; otherwise only the supplied fields of that record change, and no other record or partition changes |
| Server.App.DeleteVoter | Server.js:271-293 | Forbidden without an admin session; then InvalidKey, NotFound; otherwise exactly that record leaves the caller's partition, and every other record and partition is unchanged |
| Server.App.Logout | Server.js:320-328 | the client's session ends; registrants, partitions and other sessions are unchanged |

## Left out

- Framework plumbing: body parsing, CORS, session-store configuration, the database connection, the listener and console logging (Server.js:1-28, Server.js:331-333).
- Store and driver failures in the `catch` branches. The model keeps only those with a cause in the request: schema validation at signup, a negative skip, and an `_id` in an update.
- Absent request-body fields. Every field except `role` is a present string, so the schema default and "optional" behaviour show up only for `role`.
- Store-side restrictions on collection names (`$`, NUL, length). Every partition name is creatable in the model; the store would answer 500 after the signup or acceptance had already been saved.
- The 12-character string form that some object-id library versions also accept as a valid id. Only the 24-hex-digit form is modelled.
- Mongoose's type casting of voter fields (`Ward_No` and `age` are numbers in models/Voter.js). Values are kept as text, and a client-supplied `_id` on create is not modelled.
- Dotted field paths and operator-like keys in an update body; the empty-`$set` error of MongoDB servers before 5.0 (an empty patch is a no-op here).
- `parseInt` string parsing: the page and limit parameters arrive already parsed, with None for NaN.
- Record order: the full listings return the partition as a map, and the admin dashboard's pending and accepted lists are sets (usernames are unique, so no entry is lost, but the store's order is); `Pagination.Paginate` takes the records as a sequence in the store's order.
- Server.App.Accept: accepting a user whose partition already exists (a re-accept after a refusal) is modelled as success with the partition left as it is; depending on the driver and server version, creating an existing collection may instead fail, and the route then answers 500 with the status change already saved.
- Server.App.CreateVoter: the generated object id is a parameter that must be a canonical key not already in the caller's partition; object-id generation is not modelled.
- Server.App.Logout: the 500 answer when the session store fails to destroy the session, and the cookie clearing.
- Response messages and the driver's result shape (`.value`, `returnOriginal`).
- Session expiry, and concurrent requests with their races between duplicate provisioning calls.
- models/VoteStatus.js is not part of this model (nothing imports it); models/Voter.js is reduced to its field set.
- Passwords are compared verbatim, as the source does; there is no hashing to model.
