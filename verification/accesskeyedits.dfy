/**
 Single edits of a recorded access key, in a world without faults: when they cost another resource
 its agreement with the server, when the resource itself, and when they leave an account behind.
 */
module AccessKeyEdits {
  import opened Prelude
  import opened Minio
  import opened Kube
  import opened AccessKeys
  import opened AccessKeyChecks
  import opened Credentials
  import opened PolicyHash
  import AccessKeyTeardown

  /** The account the record under `k` and its secret lead to. */
  function AccountOn(w: W, k: Key): RemoteId
    requires k in w.objects && w.objects[k].status.Some?
    requires SecretOf(w.objects[k].status.value, k.namespace) in w.secrets
  {
    var recorded := w.objects[k].status.value;
    RemoteId(TenantOf(recorded, k.namespace), CredsOf(w.secrets[SecretOf(recorded, k.namespace)]).accessKey)
  }

  /** If the recorded secret version is the live one, the account named, where it exists, has that secret key. */
  predicate Agrees(w: W, k: Key) {
    k in w.objects && w.objects[k].status.Some? ==>
      var at := SecretOf(w.objects[k].status.value, k.namespace);
      at in w.secrets && w.secrets[at].version == w.objects[k].stamp && AccountOn(w, k) in w.minio.accounts ==>
        w.minio.accounts[AccountOn(w, k)].secretKey == CredsOf(w.secrets[at]).secretKey
  }

  /** All is as the resource under `k` wants it, and recorded so. */
  ghost predicate Served(w: W, k: Key) {
    && w.Valid() && w.weather.Calm? && k in w.objects
    && var ak := w.objects[k]; var at := SecretOf(ak.spec, k.namespace);
    && ak.finalizer && !ak.deleting && ak.status == Some(ak.spec) && !ak.spec.migrate
    && at in w.secrets && ak.stamp == w.secrets[at].version
    && AccountOn(w, k) in w.minio.accounts
    && w.minio.accounts[AccountOn(w, k)].secretKey == CredsOf(w.secrets[at]).secretKey
  }

  /** The edit can be carried out: references resolve, and a new secret name is free. */
  ghost predicate Feasible(w: W, k: Key, spec: AccessKeySpec, roll: Roll) {
    var u := Apply1(w, k, spec);
    Served(w, k) && k in u.objects && Ready(u, k, u.objects[k], roll)
  }

  /** The credentials the edited resource settles on. */
  function Settling(w: W, k: Key, spec: AccessKeySpec, roll: Roll): Creds
    requires k in w.objects
  {
    var u := Apply1(w, k, spec);
    Chosen(u, k, u.objects[k], roll)
  }

  /** The edit, and the pass that follows. */
  function EditedPass(w: W, k: Key, spec: AccessKeySpec, roll: Roll): W {
    Pass(Apply1(w, k, spec), k, roll)
  }

  lemma EditForm(w: W, j: Key, spec: AccessKeySpec)
    requires Served(w, j)
    ensures var u := Apply1(w, j, spec);
      && j in u.objects && u.objects[j] == w.objects[j].(spec := spec, version := u.objects[j].version)
      && u == w.(objects := w.objects[j := u.objects[j]], clock := u.clock, audit := u.audit) && w.clock <= u.clock
  {
    hide World.Valid;
    assert w.objects[j := w.objects[j]] == w.objects;
  }

  /**
   An edit costs another resource its agreement exactly if it leads to the account of that resource
   with another secret key.
   */
  lemma NeighbourAgreesIff(w: W, j: Key, k: Key, spec: AccessKeySpec, roll: Roll)
    requires Feasible(w, j, spec, roll) && Served(w, k) && j != k
    requires SecretOf(w.objects[k].spec, k.namespace) !in
        {SecretOf(w.objects[j].spec, j.namespace), SecretOf(spec, j.namespace)}
    ensures
      var creds := Settling(w, j, spec, roll);
      Agrees(EditedPass(w, j, spec, roll), k) <==>
        || RemoteId(TenantOf(w.objects[j].spec, j.namespace), creds.accessKey) != AccountOn(w, k)
        || creds.secretKey == w.minio.accounts[AccountOn(w, k)].secretKey
  {
    hide Pass, World.Valid, Differ, Desired, Sent, CredsOf, TenantOf, Apply1;
    EditForm(w, j, spec);
    var u := Apply1(w, j, spec);
    PassForm(u, j, u.objects[j], roll);
  }

  /**
   The resource itself goes on to agree exactly if it keeps its tenant, or there was no account to
   look after, or the new tenant has no account of that access key, or one with that secret key.
   */
  lemma ItselfAgreesIff(w: W, j: Key, spec: AccessKeySpec, roll: Roll)
    requires Feasible(w, j, spec, roll)
    ensures
      var creds := Settling(w, j, spec, roll);
      var old_, new_ := TenantOf(w.objects[j].spec, j.namespace), TenantOf(spec, j.namespace);
      Agrees(EditedPass(w, j, spec, roll), j) <==>
        || new_ == old_
        || RemoteId(old_, creds.accessKey) !in w.minio.accounts
        || RemoteId(new_, creds.accessKey) !in w.minio.accounts
        || w.minio.accounts[RemoteId(new_, creds.accessKey)].secretKey == creds.secretKey
  {
    hide Pass, World.Valid, Differ, Desired, Sent, CredsOf, Apply1;
    EditForm(w, j, spec);
    var u := Apply1(w, j, spec);
    PassForm(u, j, u.objects[j], roll);
  }

  lemma DeletedValid(w: W, k: Key)
    requires w.Valid()
    ensures Delete1(w, k).Valid()
  {
  }

  /**
   When the resource is deleted after the edit, its old account goes exactly if the edit kept tenant and access key.
   */
  lemma OldAccountGoesIff(w: W, k: Key, spec: AccessKeySpec, roll: Roll, again: Roll)
    requires Feasible(w, k, spec, roll)
    ensures
      var x := Pass(Delete1(EditedPass(w, k, spec, roll), k), k, again);
      && k !in x.objects
      && (AccountOn(w, k) !in x.minio.accounts <==>
            && TenantOf(spec, k.namespace) == TenantOf(w.objects[k].spec, k.namespace)
            && Settling(w, k, spec, roll).accessKey == AccountOn(w, k).name)
  {
    hide Pass, World.Valid, Differ, Desired, Sent, CredsOf, Apply1;
    EditForm(w, k, spec);
    var u := Apply1(w, k, spec);
    PassForm(u, k, u.objects[k], roll);
    var v := Pass(u, k, roll);
    var d := Delete1(v, k);
    assert d.Valid() by { DeletedValid(v, k); }
    AccessKeyTeardown.DeletesIfSecret(d, k, again);
  }

  const FIRST := ResourceRef("first", "ns")
  const SECOND := ResourceRef("second", "ns")
  const ANN := Key("ns", "ann")
  const BOB := Key("ns", "bob")

  function SpecFor(accessKey: string, secretName: string): AccessKeySpec {
    AccessKeySpec(accessKey, NO_REF, "", None, false, "", EMPTY_DOC, NO_REF, secretName, FIRST, Parent("", "ldap"))
  }

  function RecordFor(spec: AccessKeySpec, stamp: nat): Resource {
    Object(spec, Some(spec), stamp, true, false, stamp)
  }

  function AccountFor(secretKey: string): Minio.Account {
    Minio.Account("ldap", true, secretKey, Attributes("", "", None, EMPTY_DOC))
  }

  /** Two access keys in service on one tenant, and an account on another that is no business of theirs. */
  function Example(): W {
    World(
      map[ANN := RecordFor(SpecFor("A", "of-ann"), 1), BOB := RecordFor(SpecFor("B", "of-bob"), 2)],
      map[Key("ns", "of-ann") := Secret(DataOf(Creds("A", "alpha")), Some(ANN), 1),
          Key("ns", "of-bob") := Secret(DataOf(Creds("B", "beta")), Some(BOB), 2)],
      Server(map[], {}, {}, map[], map[], {},
          map[RemoteId(FIRST, "A") := AccountFor("alpha"), RemoteId(FIRST, "B") := AccountFor("beta"),
              RemoteId(SECOND, "A") := AccountFor("gamma")], map[], false),
      3, {}, Calm)
  }

  lemma ExampleServed()
    ensures Served(Example(), ANN) && Served(Example(), BOB)
    ensures AccountOn(Example(), ANN) == RemoteId(FIRST, "A") && AccountOn(Example(), BOB) == RemoteId(FIRST, "B")
  {
    assert Key("ns", "of-ann") != Key("ns", "of-bob") && ANN != BOB;
    assert "A" != "B" && FIRST != SECOND;
  }

  lemma StampsLive(w: W, k: Key)
    requires Served(w, k)
    ensures w.objects[k].stamp < w.clock
  {
  }

  /** An edit that names an access key and keeps the rest leaves the secret key as it is. */
  lemma EditSettles(w: W, k: Key, spec: AccessKeySpec, roll: Roll)
    requires Served(w, k) && spec.accessKey != "" && spec.secretKeyRef == NO_REF && !spec.migrate
    requires spec.secretName == w.objects[k].spec.secretName
    requires CredsOf(w.secrets[SecretOf(spec, k.namespace)]).secretKey != ""
    ensures Feasible(w, k, spec, roll)
    ensures Settling(w, k, spec, roll) ==
        Creds(spec.accessKey, CredsOf(w.secrets[SecretOf(spec, k.namespace)]).secretKey)
  {
    hide World.Valid, Apply1, CredsOf, Resolve, TenantOf;
    EditForm(w, k, spec);
    assert Apply1(w, k, spec).Valid() by { ActDrifts(w, Apply(k, spec), k); }
    assert Served(w, k) ==> w.objects[k].stamp < w.clock by { StampsLive(w, k); }
  }

  lemma ExampleFacts()
    ensures var w := Example();
      && Agrees(w, ANN) && w.objects[ANN].spec == SpecFor("A", "of-ann") &&
          w.objects[BOB].spec == SpecFor("B", "of-bob")
      && CredsOf(w.secrets[Key("ns", "of-ann")]) == Creds("A", "alpha")
      && CredsOf(w.secrets[Key("ns", "of-bob")]) == Creds("B", "beta")
      && w.minio.accounts[RemoteId(FIRST, "A")].secretKey == "alpha"
      && w.minio.accounts[RemoteId(SECOND, "A")].secretKey == "gamma"
      && RemoteId(FIRST, "C") !in w.minio.accounts
  {
    assert Key("ns", "of-ann") != Key("ns", "of-bob") && ANN != BOB;
    assert "A" != "B" && "A" != "C" && "B" != "C" && FIRST != SECOND;
  }

  /** Bob edits his access key to that of Ann, and Ann's secret no longer holds the secret key of her account. */
  lemma TakenKeyBreaksNeighbour(roll: Roll)
    ensures var spec := SpecFor("A", "of-bob");
      Agrees(Example(), ANN) && !Agrees(EditedPass(Example(), BOB, spec, roll), ANN)
  {
    hide Served, Feasible, Settling, EditedPass, Agrees;
    var w, spec := Example(), SpecFor("A", "of-bob");
    ExampleServed();
    assert Agrees(w, ANN) && w.objects[BOB].spec.secretName == spec.secretName by { ExampleFacts(); }
    ExampleFacts();
    EditSettles(w, BOB, spec, roll);
    NeighbourAgreesIff(w, BOB, ANN, spec, roll);
  }

  /** Ann moves to the second tenant, where an account of her access key has another secret key. */
  lemma MovedTenantBreaksItself(roll: Roll)
    ensures var spec := SpecFor("A", "of-ann").(tenantRef := SECOND);
      Agrees(Example(), ANN) && !Agrees(EditedPass(Example(), ANN, spec, roll), ANN)
  {
    hide Served, Feasible, Settling, EditedPass, Agrees;
    var w, spec := Example(), SpecFor("A", "of-ann").(tenantRef := SECOND);
    ExampleServed();
    ExampleFacts();
    EditSettles(w, ANN, spec, roll);
    ItselfAgreesIff(w, ANN, spec, roll);
    assert FIRST != SECOND;
  }

  /** Ann moves to another tenant, or to a free access key, and is deleted: her account stays behind. */
  lemma EditsOrphan(roll: Roll, again: Roll)
    ensures
      var w, moved, renamed := Example(), SpecFor("A", "of-ann").(tenantRef := SECOND), SpecFor("C", "of-ann");
      var x, y := Pass(Delete1(EditedPass(w, ANN, moved, roll), ANN), ANN, again),
          Pass(Delete1(EditedPass(w, ANN, renamed, roll), ANN), ANN, again);
      && RemoteId(FIRST, "C") !in w.minio.accounts
      && ANN !in x.objects && RemoteId(FIRST, "A") in x.minio.accounts
      && ANN !in y.objects && RemoteId(FIRST, "A") in y.minio.accounts
  {
    hide Served, Feasible, Settling, EditedPass, Agrees, Pass, Delete1;
    var w, moved, renamed := Example(), SpecFor("A", "of-ann").(tenantRef := SECOND), SpecFor("C", "of-ann");
    ExampleServed();
    ExampleFacts();
    EditSettles(w, ANN, moved, roll);
    EditSettles(w, ANN, renamed, roll);
    OldAccountGoesIff(w, ANN, moved, roll, again);
    OldAccountGoesIff(w, ANN, renamed, roll, again);
    assert FIRST != SECOND && "A" != "C";
  }
}
