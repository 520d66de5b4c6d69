/** End-to-end request sequences against the server, checked from the
    handlers' contracts alone. Each sequence is cut into steps whose contracts
    describe the store between them. */
module Scenarios {
  import opened Responses
  import opened UserModel
  import opened Partitions
  import opened Server

  const FirstKey: RecordKey := "65a1f0c2b3d4e5f601234567"
  const AdminClient: ClientId := 1
  const BobClient: ClientId := 2

  lemma FirstKeyIsCanonical()
    ensures IsCanonicalKey(FirstKey) && ValidKey(FirstKey) && ParseKey(FirstKey) == Some(FirstKey)
  {
    ParseCanonicalKey(FirstKey);
  }

  /** An admin signs up, is logged in at once and adds a voter, which the listing shows. */
  method AdminAddsVoter() returns (app: App)
    ensures fresh(app) && app.Valid()
    ensures AdminClient in app.sessions && app.sessions[AdminClient].username == "adminA"
    ensures app.sessions[AdminClient].role == Admin
    ensures app.partitions == map[PartitionName("adminA") := map[FirstKey := map["Name" := "X"]]]
  {
    app := new App();
    var s := app.Signup(AdminClient, "adminA", "pw", Some("admin"), "Pune");
    assert NewRegistrant("adminA", "pw", Some("admin"), "Pune").Ok?;
    assert s.Ok? && s.value.Some? && s.value.value.status == Accepted;
    assert app.partitions == map[PartitionName("adminA") := map[]];

    FirstKeyIsCanonical();
    var created := app.CreateVoter(AdminClient, map["Name" := "X"], FirstKey);
    assert FromBody(map["Name" := "X"]) == map["Name" := "X"];
    assert created == Ok(Voter(FirstKey, map["Name" := "X"]));

    var listed := app.ListVoters(AdminClient);
    assert listed == Ok(map[FirstKey := map["Name" := "X"]]);
  }

  /** The admin then sets the voter's ward and reads the update back. */
  method AdminUpdatesVoter(app: App)
    requires app.Valid()
    requires AdminClient in app.sessions && app.sessions[AdminClient].username == "adminA"
    requires app.sessions[AdminClient].role == Admin
    requires app.partitions == map[PartitionName("adminA") := map[FirstKey := map["Name" := "X"]]]
    modifies app
    ensures app.Valid() && app.sessions == old(app.sessions)
    ensures app.partitions == map[PartitionName("adminA") := map[FirstKey := map["Name" := "X", "Ward_No" := "7"]]]
  {
    FirstKeyIsCanonical();
    var rec := map["Name" := "X", "Ward_No" := "7"];
    var updated := app.UpdateVoter(AdminClient, FirstKey, map["Ward_No" := "7"]);
    assert Merge(map["Name" := "X"], map["Ward_No" := "7"]) == rec;
    assert updated == Ok(Voter(FirstKey, rec));
    assert map[FirstKey := map["Name" := "X"]][FirstKey := rec] == map[FirstKey := rec];

    var got := app.GetVoter(AdminClient, FirstKey);
    assert got == Ok(Voter(FirstKey, rec));
  }

  /** The admin deletes the voter and no longer finds it; a malformed id is refused. */
  method AdminDeletesVoter(app: App)
    requires app.Valid()
    requires AdminClient in app.sessions && app.sessions[AdminClient].username == "adminA"
    requires app.sessions[AdminClient].role == Admin
    requires app.partitions == map[PartitionName("adminA") := map[FirstKey := map["Name" := "X", "Ward_No" := "7"]]]
    modifies app
    ensures app.Valid()
    ensures app.partitions == map[PartitionName("adminA") := map[]]
  {
    FirstKeyIsCanonical();
    var deleted := app.DeleteVoter(AdminClient, FirstKey);
    assert deleted == Ok(());
    assert map[FirstKey := map["Name" := "X", "Ward_No" := "7"]] - {FirstKey} == map[];

    var got := app.GetVoter(AdminClient, FirstKey);
    assert got == Err(NotFound);
    got := app.GetVoter(AdminClient, "not-an-id");
    assert got == Err(InvalidKey);
  }

  method AdminRecordLifecycle() {
    var app := AdminAddsVoter();
    AdminUpdatesVoter(app);
    AdminDeletesVoter(app);
  }

  /** A user signs up and cannot log in before an admin accepts them. */
  method BobWaitsForApproval() returns (app: App)
    ensures fresh(app) && app.Valid()
    ensures "bob" in app.users && app.users["bob"].status == Accepted && app.users["bob"].password == "secret"
    ensures app.users["bob"].role == User
    ensures AdminClient in app.sessions && app.sessions[AdminClient].role == Admin
    ensures app.sessions[AdminClient].username == "adminA"
    ensures "adminA" in app.users && app.users["adminA"].role == Admin
    ensures app.partitions == map[PartitionName("adminA") := map[]][PartitionName("bob") := map[]]
    ensures BobClient !in app.sessions
  {
    app := new App();
    var s := app.Signup(BobClient, "bob", "secret", None, "Pune");
    assert NewRegistrant("bob", "secret", None, "Pune").Ok?;
    assert s == Ok(None) && BobClient !in app.sessions;
    var l := app.Login(BobClient, "bob", "secret");
    assert l == Err(NotApproved);

    s := app.Signup(AdminClient, "adminA", "pw", Some("admin"), "Pune");
    assert NewRegistrant("adminA", "pw", Some("admin"), "Pune").Ok?;
    assert AdminClient in app.sessions;
    assert app.partitions == map[PartitionName("adminA") := map[]];
    var a := app.Accept(AdminClient, "bob");
    assert a.Ok? && a.value.status == Accepted;
    PartitionNameInjective("bob", "adminA");
  }

  /** Once accepted, the user logs in and lists their own, empty, partition. */
  method BobLogsIn(app: App)
    requires app.Valid()
    requires "bob" in app.users && app.users["bob"].status == Accepted && app.users["bob"].password == "secret"
    requires app.partitions[PartitionName("bob")] == map[]
    modifies app
    ensures app.Valid() && app.users == old(app.users)
    ensures BobClient in app.sessions && app.sessions[BobClient] == app.users["bob"]
    ensures forall c :: c in old(app.sessions) && c != BobClient ==> c in app.sessions && app.sessions[c] == old(app.sessions)[c]
  {
    var l := app.Login(BobClient, "bob", "wrong");
    assert l == Err(InvalidCredentials);
    l := app.Login(BobClient, "bob", "secret");
    assert l.Ok?;
    var listed := app.ListVoters(BobClient);
    assert listed == Ok(map[]);
  }

  /** A refusal leaves the session already open as it was; a refused user can
      be accepted again; an admin cannot be refused; logging out ends the session. */
  method RefusalDoesNotReachSession(app: App)
    requires app.Valid()
    requires "bob" in app.users && app.users["bob"].role == User
    requires AdminClient in app.sessions && app.sessions[AdminClient].role == Admin
    requires "adminA" in app.users && app.users["adminA"].role == Admin
    requires BobClient in app.sessions && app.sessions[BobClient].status == Accepted
    modifies app
    ensures app.Valid()
    ensures "bob" in app.users && app.users["bob"].status == Accepted
    ensures BobClient !in app.sessions
  {
    var refused := app.Refuse(AdminClient, "bob");
    assert refused.Ok? && app.users["bob"].status == Refused;
    var still := app.CurrentUser(BobClient);
    assert still.Ok? && still.value.status == Accepted;

    var a := app.Accept(AdminClient, "bob");
    assert a.Ok? && app.users["bob"].status == Accepted;

    var adminRefused := app.Refuse(AdminClient, "adminA");
    assert adminRefused == Err(NotFound);

    app.Logout(BobClient);
    still := app.CurrentUser(BobClient);
    assert still == Err(Unauthenticated);
  }

  method ApprovalAndStaleSession() {
    var app := BobWaitsForApproval();
    BobLogsIn(app);
    RefusalDoesNotReachSession(app);
  }
}
