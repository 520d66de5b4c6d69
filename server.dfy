/** The route handlers of the server over an in-memory store: the registrant
    table, the partition table and the session store, one session per client. */
module Server {
  import opened Responses
  import opened UserModel
  import opened Partitions
  import opened Gates

  /** The client a session cookie identifies. */
  type ClientId = nat

  datatype Dashboard = Dashboard(pending: set<Registrant>, accepted: set<Registrant>)

  /** The non-admin registrants of a constituency that have the given status. */
  function LocalRegistrants(users: map<string, Registrant>, constituency: string, status: Status): set<Registrant> {
    set u | u in users.Values && u.constituency == constituency && u.status == status && u.role != Admin
  }

  /** The dashboard's two lists are disjoint, hold no admin and no one from
      another constituency, and between them hold every non-admin registrant of
      the constituency that is not refused. */
  lemma DashboardListsPartition(users: map<string, Registrant>, constituency: string, u: Registrant)
    ensures !(u in LocalRegistrants(users, constituency, Pending) && u in LocalRegistrants(users, constituency, Accepted))
    ensures u in LocalRegistrants(users, constituency, Pending) + LocalRegistrants(users, constituency, Accepted)
        <==> u in users.Values && u.role == User && u.constituency == constituency && u.status != Refused
  {
  }

  /** Every stored voter has a canonical key and no `_id` among its fields. */
  ghost predicate WellKeyed(parts: Partitions) {
    forall p, k :: p in parts && k in parts[p] ==> IsCanonicalKey(k) && "_id" !in parts[p][k]
  }

  lemma StoreKeepsWellKeyed(parts: Partitions, name: string, k: RecordKey, rec: VoterRecord)
    requires WellKeyed(parts) && IsCanonicalKey(k) && "_id" !in rec
    ensures WellKeyed(parts[name := RecordsOf(parts, name)[k := rec]])
  {
    var parts' := parts[name := RecordsOf(parts, name)[k := rec]];
    forall p, k' | p in parts' && k' in parts'[p]
      ensures IsCanonicalKey(k') && "_id" !in parts'[p][k']
    {
      if p == name && k' != k {
        assert name in parts && k' in parts[name];
      }
    }
  }

  lemma ProvisionKeepsWellKeyed(parts: Partitions, name: string)
    requires WellKeyed(parts)
    ensures WellKeyed(Provision(parts, name))
  {
    var parts' := Provision(parts, name);
    forall p, k | p in parts' && k in parts'[p]
      ensures IsCanonicalKey(k) && "_id" !in parts'[p][k]
    {
      assert p in parts && parts'[p] == parts[p];
    }
  }

  lemma RemoveKeepsWellKeyed(parts: Partitions, name: string, k: RecordKey)
    requires WellKeyed(parts)
    ensures WellKeyed(parts[name := RecordsOf(parts, name) - {k}])
  {
    var parts' := parts[name := RecordsOf(parts, name) - {k}];
    forall p, k' | p in parts' && k' in parts'[p]
      ensures IsCanonicalKey(k') && "_id" !in parts'[p][k']
    {
      if p == name {
        assert name in parts && k' in parts[name];
      }
    }
  }

  class App {
    var users: map<string, Registrant>
    var partitions: Partitions
    var sessions: map<ClientId, Registrant>

    /** The store's invariant: registrants are keyed by their unique username
        and satisfy the schema; every accepted registrant and every session user
        has a partition; a session holds an accepted snapshot; every stored
        voter has a canonical key and no `_id` field among its fields. */
    ghost predicate Valid()
      reads this
    {
      && (forall name :: name in users ==> users[name].username == name && WellFormed(users[name]))
      && (forall name :: name in users && users[name].status == Accepted ==> PartitionName(name) in partitions)
      && (forall c :: c in sessions ==>
            && WellFormed(sessions[c])
            && sessions[c].status == Accepted
            && PartitionName(sessions[c].username) in partitions)
      && WellKeyed(partitions)
    }

    /** The session a client's cookie refers to, if any. */
    function SessionOf(client: ClientId): Option<Registrant>
      reads this
    {
      if client in sessions then Some(sessions[client]) else None
    }

    constructor ()
      ensures Valid()
      ensures users == map[] && partitions == map[] && sessions == map[]
    {
      users := map[];
      partitions := map[];
      sessions := map[];
    }

    /** POST /api/signup */
    method Signup(client: ClientId, username: string, password: string, role: Option<string>, constituency: string)
      returns (r: Result<Option<Registrant>>)
      requires Valid()
      modifies this
      ensures Valid()
      ensures username in old(users) ==> r == Err(Conflict) && unchanged(this)
      ensures username !in old(users) && NewRegistrant(username, password, role, constituency).Err? ==>
                r == Err(Internal) && unchanged(this)
      ensures username !in old(users) && NewRegistrant(username, password, role, constituency).Ok? ==>
                var u := NewRegistrant(username, password, role, constituency).value;
                && users == old(users)[username := u]
                && (u.role == Admin ==>
                      && partitions == Provision(old(partitions), PartitionName(username))
                      && sessions == old(sessions)[client := u]
                      && r == Ok(Some(u)))
                && (u.role == User ==>
                      partitions == old(partitions) && sessions == old(sessions) && r == Ok(None))
    {
      if username in users {
        return Err(Conflict);
      }
      var made := NewRegistrant(username, password, role, constituency);
      if made.Err? {
        return Err(Internal);
      }
      var user := made.value;
      users := users[username := user];
      if role == Some("admin") {
        ProvisionKeepsWellKeyed(partitions, PartitionName(username));
        partitions := Provision(partitions, PartitionName(username));
        sessions := sessions[client := user];
        return Ok(Some(user));
      }
      return Ok(None);
    }

    /** POST /api/admin/accept */
    method Accept(client: ClientId, username: string) returns (r: Result<Registrant>)
      requires Valid()
      modifies this
      ensures Valid()
      ensures sessions == old(sessions)
      ensures RequireAdmin(old(SessionOf(client))).Err? ==> r == Err(Forbidden) && unchanged(this)
      ensures RequireAdmin(old(SessionOf(client))).Ok? && (username !in old(users) || old(users)[username].role == Admin) ==>
                r == Err(NotFound) && unchanged(this)
      ensures RequireAdmin(old(SessionOf(client))).Ok? && username in old(users) && old(users)[username].role != Admin ==>
                var u := old(users)[username].(status := Accepted);
                && r == Ok(u)
                && users == old(users)[username := u]
                && partitions == Provision(old(partitions), PartitionName(username))
    {
      var caller := RequireAdmin(SessionOf(client));
      if caller.Err? {
        return Err(caller.error);
      }
      if username !in users || users[username].role == Admin {
        return Err(NotFound);
      }
      var user := users[username].(status := Accepted);
      users := users[username := user];
      ProvisionKeepsWellKeyed(partitions, PartitionName(username));
      partitions := Provision(partitions, PartitionName(username));
      return Ok(user);
    }

    /** POST /api/admin/refuse */
    method Refuse(client: ClientId, username: string) returns (r: Result<Registrant>)
      requires Valid()
      modifies this
      ensures Valid()
      ensures sessions == old(sessions) && partitions == old(partitions)
      ensures RequireAdmin(old(SessionOf(client))).Err? ==> r == Err(Forbidden) && unchanged(this)
      ensures RequireAdmin(old(SessionOf(client))).Ok? && (username !in old(users) || old(users)[username].role == Admin) ==>
                r == Err(NotFound) && unchanged(this)
      ensures RequireAdmin(old(SessionOf(client))).Ok? && username in old(users) && old(users)[username].role != Admin ==>
                var u := old(users)[username].(status := Refused);
                r == Ok(u) && users == old(users)[username := u]
    {
      var caller := RequireAdmin(SessionOf(client));
      if caller.Err? {
        return Err(caller.error);
      }
      if username !in users || users[username].role == Admin {
        return Err(NotFound);
      }
      var user := users[username].(status := Refused);
      users := users[username := user];
      return Ok(user);
    }

    /** POST /api/login */
    method Login(client: ClientId, username: string, password: string) returns (r: Result<Registrant>)
      requires Valid()
      modifies this
      ensures Valid()
      ensures users == old(users) && partitions == old(partitions)
      ensures (username !in users || users[username].password != password) ==>
                r == Err(InvalidCredentials) && sessions == old(sessions)
      ensures username in users && users[username].password == password && users[username].status != Accepted ==>
                r == Err(NotApproved) && sessions == old(sessions)
      ensures username in users && users[username].password == password && users[username].status == Accepted ==>
                r == Ok(users[username]) && sessions == old(sessions)[client := users[username]]
    {
      if username !in users || users[username].password != password {
        return Err(InvalidCredentials);
      }
      var user := users[username];
      if user.status != Accepted {
        return Err(NotApproved);
      }
      sessions := sessions[client := user];
      return Ok(user);
    }

    /** GET /api/user */
    method CurrentUser(client: ClientId) returns (r: Result<Registrant>)
      ensures r.Ok? <==> client in sessions
      ensures r.Ok? ==> r.value == sessions[client]
      ensures r.Err? ==> r.error == Unauthenticated
    {
      r := RequireAuthenticated(SessionOf(client));
    }

    /** GET /api/admin/dashboard */
    method AdminDashboard(client: ClientId) returns (r: Result<Dashboard>)
      ensures r.Ok? <==> client in sessions && sessions[client].role == Admin
      ensures r.Err? ==> r.error == Forbidden
      ensures r.Ok? ==>
                var c := sessions[client].constituency;
                && (forall u :: u in r.value.pending <==>
                      u in users.Values && u.role == User && u.constituency == c && u.status == Pending)
                && (forall u :: u in r.value.accepted <==>
                      u in users.Values && u.role == User && u.constituency == c && u.status == Accepted)
    {
      var caller := RequireAdmin(SessionOf(client));
      GatesPassSnapshot(SessionOf(client));
      if caller.Err? {
        return Err(caller.error);
      }
      var c := caller.value.constituency;
      return Ok(Dashboard(LocalRegistrants(users, c, Pending), LocalRegistrants(users, c, Accepted)));
    }

    /** GET /api/voters: every record of the caller's own partition. */
    method ListVoters(client: ClientId) returns (r: Result<map<RecordKey, VoterRecord>>)
      requires Valid()
      ensures r.Ok? <==> client in sessions
      ensures r.Err? ==> r.error == Unauthenticated
      ensures r.Ok? ==> r.value == partitions[PartitionName(sessions[client].username)]
    {
      var caller := RequireAuthenticated(SessionOf(client));
      if caller.Err? {
        return Err(caller.error);
      }
      return Ok(RecordsOf(partitions, PartitionName(caller.value.username)));
    }

    /** GET /api/user/data: the same full scan of the caller's own partition. */
    method UserData(client: ClientId) returns (r: Result<map<RecordKey, VoterRecord>>)
      requires Valid()
      ensures r.Ok? <==> client in sessions
      ensures r.Err? ==> r.error == Unauthenticated
      ensures r.Ok? ==> r.value == partitions[PartitionName(sessions[client].username)]
    {
      r := ListVoters(client);
    }

    /** GET /api/voters/:id */
    method GetVoter(client: ClientId, id: string) returns (r: Result<Voter>)
      requires Valid()
      ensures client !in sessions ==> r == Err(Unauthenticated)
      ensures client in sessions && !ValidKey(id) ==> r == Err(InvalidKey)
      ensures client in sessions && ValidKey(id) ==>
                var records := partitions[PartitionName(sessions[client].username)];
                var key := ParseKey(id).value;
                && (key in records ==> r == Ok(Voter(key, records[key])))
                && (key !in records ==> r == Err(NotFound))
    {
      var caller := RequireAuthenticated(SessionOf(client));
      if caller.Err? {
        return Err(caller.error);
      }
      var key := ParseKey(id);
      if key.None? {
        return Err(InvalidKey);
      }
      var records := RecordsOf(partitions, PartitionName(caller.value.username));
      if key.value !in records {
        return Err(NotFound);
      }
      return Ok(Voter(key.value, records[key.value]));
    }

    /** POST /api/voters: `newKey` is the key the store generates for the new record. */
    method CreateVoter(client: ClientId, body: map<string, string>, newKey: RecordKey) returns (r: Result<Voter>)
      requires Valid()
      requires IsCanonicalKey(newKey)
      requires client in sessions ==> newKey !in RecordsOf(partitions, PartitionName(sessions[client].username))
      modifies this
      ensures Valid()
      ensures users == old(users) && sessions == old(sessions)
      ensures !(client in sessions && sessions[client].role == Admin) ==> r == Err(Forbidden) && unchanged(this)
      ensures client in sessions && sessions[client].role == Admin ==>
                var name := PartitionName(sessions[client].username);
                && r == Ok(Voter(newKey, FromBody(body)))
                && partitions == old(partitions)[name := old(partitions)[name][newKey := FromBody(body)]]
    {
      var caller := RequireAdmin(SessionOf(client));
      GatesPassSnapshot(SessionOf(client));
      if caller.Err? {
        return Err(caller.error);
      }
      var name := PartitionName(caller.value.username);
      var voter := FromBody(body);
      StoreKeepsWellKeyed(partitions, name, newKey, voter);
      partitions := partitions[name := RecordsOf(partitions, name)[newKey := voter]];
      return Ok(Voter(newKey, voter));
    }

    /** PUT /api/voters/:id */
    method UpdateVoter(client: ClientId, id: string, patch: map<string, string>) returns (r: Result<Voter>)
      requires Valid()
      modifies this
      ensures Valid()
      ensures users == old(users) && sessions == old(sessions)
      ensures !(client in sessions && sessions[client].role == Admin) ==> r == Err(Forbidden) && unchanged(this)
      ensures client in sessions && sessions[client].role == Admin && !ValidKey(id) ==>
                r == Err(InvalidKey) && unchanged(this)
      ensures client in sessions && sessions[client].role == Admin && ValidKey(id) ==>
                var name := PartitionName(sessions[client].username);
                var records := old(partitions)[name];
                var key := ParseKey(id).value;
                && (key !in records ==> r == Err(NotFound) && unchanged(this))
                && (key in records && "_id" in patch ==> r == Err(Internal) && unchanged(this))
                && (key in records && "_id" !in patch ==>
                      && r == Ok(Voter(key, Merge(records[key], patch)))
                      && partitions == old(partitions)[name := records[key := Merge(records[key], patch)]])
    {
      var caller := RequireUpdater(SessionOf(client));
      UpdaterGateIsAdminGate(SessionOf(client));
      GatesPassSnapshot(SessionOf(client));
      if caller.Err? {
        return Err(caller.error);
      }
      var key := ParseKey(id);
      if key.None? {
        return Err(InvalidKey);
      }
      var name := PartitionName(caller.value.username);
      var records := RecordsOf(partitions, name);
      if key.value !in records {
        return Err(NotFound);
      }
      if "_id" in patch {
        return Err(Internal);
      }
      var updated := Merge(records[key.value], patch);
      MergeOverwritesOnlyPatch(records[key.value], patch);
      StoreKeepsWellKeyed(partitions, name, key.value, updated);
      partitions := partitions[name := records[key.value := updated]];
      return Ok(Voter(key.value, updated));
    }

    /** DELETE /api/voters/:id */
    method DeleteVoter(client: ClientId, id: string) returns (r: Result<()>)
      requires Valid()
      modifies this
      ensures Valid()
      ensures users == old(users) && sessions == old(sessions)
      ensures !(client in sessions && sessions[client].role == Admin) ==> r == Err(Forbidden) && unchanged(this)
      ensures client in sessions && sessions[client].role == Admin && !ValidKey(id) ==>
                r == Err(InvalidKey) && unchanged(this)
      ensures client in sessions && sessions[client].role == Admin && ValidKey(id) ==>
                var name := PartitionName(sessions[client].username);
                var records := old(partitions)[name];
                var key := ParseKey(id).value;
                && (key !in records ==> r == Err(NotFound) && unchanged(this))
                && (key in records ==> r == Ok(()) && partitions == old(partitions)[name := records - {key}])
    {
      var caller := RequireAdmin(SessionOf(client));
      GatesPassSnapshot(SessionOf(client));
      if caller.Err? {
        return Err(caller.error);
      }
      var key := ParseKey(id);
      if key.None? {
        return Err(InvalidKey);
      }
      var name := PartitionName(caller.value.username);
      var records := RecordsOf(partitions, name);
      if key.value !in records {
        return Err(NotFound);
      }
      RemoveKeepsWellKeyed(partitions, name, key.value);
      partitions := partitions[name := records - {key.value}];
      return Ok(());
    }

    /** POST /api/logout */
    method Logout(client: ClientId)
      requires Valid()
      modifies this
      ensures Valid()
      ensures sessions == old(sessions) - {client}
      ensures users == old(users) && partitions == old(partitions)
    {
      sessions := sessions - {client};
    }
  }
}
