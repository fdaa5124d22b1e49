/**
 Access keys allotted to resources: as long as users give the access key of one resource to no other,
 no pass over another resource makes or rewrites its account, whatever calls fail.
 */
module AccessKeyAllotments {
  import opened Prelude
  import opened Minio
  import opened Kube
  import opened AccessKeys
  import opened AccessKeyRecords
  import opened AccessKeySecrets
  import opened Credentials
  import opened PolicyHash

  /** Who is to have an account, and where its access key may stand. */
  datatype Plan = Plan(
    mine: RemoteId,             // the account
    key: Key,                   // the resource it belongs to
    own: set<Key>,              // the generated secrets of that resource
    elsewhere: set<Key>,        // resources kept to other tenants, which may use the same access key there
    theirs: set<Key>,           // the generated secrets of those
    native: bool,               // the resource never asks for migration
    pinned: bool)               // its spec keeps the access key

  predicate Fair(p: Plan) {
    p.mine.name != "" && p.own !! p.theirs && p.key !in p.elsewhere
  }

  /** The reference leads to none of the secrets in which the access key may stand. */
  predicate Apart(ref: SecretKeyRef, ns: string, p: Plan) {
    ref == NO_REF || ref.Target(ns) !in p.own + p.theirs
  }

  /** The spec keeps to the plan. */
  predicate Suits(spec: AccessKeySpec, j: Key, p: Plan) {
    var tenant, at := TenantOf(spec, j.namespace), SecretOf(spec, j.namespace);
    if j == p.key then
      && tenant == p.mine.tenant && at in p.own
      && (p.native ==> !spec.migrate) && (p.pinned ==> spec.accessKey == p.mine.name)
    else if j in p.elsewhere then
      tenant != p.mine.tenant && at in p.theirs
    else
      && at !in p.own + p.theirs && spec.accessKey != p.mine.name
      && Apart(spec.accessKeyRef, j.namespace, p) && Apart(spec.secretKeyRef, j.namespace, p)
  }

  /** The access key does not stand in the data. */
  predicate Clean(data: map<string, string>, p: Plan) {
    forall f | f in data :: data[f] != p.mine.name
  }

  /** Data that may stand in the secret under `at`. */
  predicate Proper(at: Key, data: map<string, string>, p: Plan) {
    if at in p.own then p.pinned ==> ACCESS_KEY in data && data[ACCESS_KEY] == p.mine.name
    else at !in p.theirs ==> Clean(data, p)
  }

  predicate SuitsAll(ak: Resource, j: Key, p: Plan) {
    Suits(ak.spec, j, p) && (ak.status.Some? ==> Suits(ak.status.value.(migrate := false), j, p))
  }

  ghost predicate Allotted(w: W, p: Plan) {
    && Fair(p) && w.Valid() && Unique(w)
    && (forall at | at in w.secrets :: Proper(at, w.secrets[at].data, p))
    && (forall j | j in w.objects :: SuitsAll(w.objects[j], j, p))
  }

  /** Users keep to the plan, and nobody but the operator makes or rewrites the account. */
  predicate Keeping(a: Act<AccessKeySpec>, p: Plan) {
    && (a.Apply? ==> Suits(a.spec, a.key, p))
    && (a.PutSecret? ==> Proper(a.key, a.data, p))
    && (a.Admin? ==> Spared(a.request, p.mine))
  }

  ghost predicate KeptBy(acts: seq<Act<AccessKeySpec>>, p: Plan) {
    forall a | a in acts :: Keeping(a, p)
  }

  ghost predicate Keeps(t: Weather<AccessKeySpec>, p: Plan) {
    t.Storm? ==> forall b | b in t.beats :: KeptBy(b.acts, p)
  }

  /** Random keys made up for a resource the access key is not allotted to are others. */
  predicate Misses(roll: Roll, j: Key, p: Plan) {
    || j == p.key || j in p.elsewhere
    || (roll.AccessKey() != Some(p.mine.name) && roll.SecretKey() != Some(p.mine.name))
  }

  lemma ActKeeps(w: W, a: Act<AccessKeySpec>, p: Plan)
    requires Allotted(w, p) && Keeping(a, p)
    ensures Allotted(Act1(w, a), p)
  {
    hide Server.Serve, Suits, Proper, Spared, Later;
    ActDrifts(w, a, p.key);
    LaterAct(w, a, p.mine);
  }

  lemma {:induction false} SettleKeeps(w: W, acts: seq<Act<AccessKeySpec>>, p: Plan)
    requires Allotted(w, p) && KeptBy(acts, p)
    ensures Allotted(Settle(w, acts), p)
    decreases |acts|
  {
    hide Act1, Allotted, Keeping;
    if acts != [] {
      assert acts[0] in acts;
      ActKeeps(w, acts[0], p);
      SettleKeeps(Act1(w, acts[0]), acts[1..], p);
    }
  }

  /** A pass over `j` that began in `u` has come to `w` without touching what is not its own. */
  ghost predicate Beside(u: W, w: W, j: Key, p: Plan) {
    j != p.key ==> Later(u, w, p.mine) && Along(u, w, j)
  }

  ghost predicate Going(u: W, w: W, j: Key, p: Plan) {
    Allotted(w, p) && Keeps(w.weather, p) && Beside(u, w, j, p)
  }

  lemma UniqueReweather(w: W, t: Weather<AccessKeySpec>)
    requires Unique(w)
    ensures Unique(w.(weather := t))
  {
  }

  lemma KeptSpares(acts: seq<Act<AccessKeySpec>>, p: Plan)
    requires KeptBy(acts, p)
    ensures SparedBy(acts, p.mine)
  {
    hide Suits, Proper, Spared;
  }

  lemma NextGoes(u: W, w: W, j: Key, p: Plan)
    requires Going(u, w, j, p)
    ensures Going(u, Next(w).0, j, p)
  {
    hide Settle, KeptBy, World.Valid, Suits, Proper, Unique, Spared, Later, Along, Held, Weathered, SparedBy;
    NextAlways(w);
    if w.weather.Storm? && w.weather.beats != [] {
      var beats := w.weather.beats;
      assert beats[0] in beats;
      var x := w.(weather := Storm(beats[1..]));
      assert Allotted(x, p) by { ValidReweather(w, x.weather); UniqueReweather(w, x.weather); }
      SettleKeeps(x, beats[0].acts, p);
      assert SparedBy(beats[0].acts, p.mine) by { KeptSpares(beats[0].acts, p); }
      LaterSettle(x, beats[0].acts, p.mine);
      LaterReweather(w, x, Next(w).0, p.mine);
      if j != p.key { LaterTrans(u, w, Next(w).0, p.mine); }
    }
  }

  lemma AskGoes(u: W, w: W, j: Key, p: Plan)
    requires Going(u, w, j, p)
    ensures Going(u, Ask(w).0, j, p)
  {
    hide Next, Going, Kept, Weathered;
    NextGoes(u, w, j, p);
  }

  lemma ServeGoes(u: W, w: W, q: Request, j: Key, p: Plan)
    requires Going(u, w, j, p) && (j != p.key ==> Spared(q, p.mine))
    ensures Going(u, w.(minio := w.minio.Serve(q).0), j, p)
  {
    hide Server.Serve, Server.Valid, Suits, Proper, Spared, Drifted;
    ServeValid(w.minio, q);
    ServeConfig(w.minio, q);
    if j != p.key {
      LaterServe(w.minio, q, p.mine);
      DriftedResource(u, w, w.(minio := w.minio.Serve(q).0));
    }
  }

  lemma SendGoes(u: W, w: W, q: Request, j: Key, p: Plan)
    requires Going(u, w, j, p) && (j != p.key ==> Spared(q, p.mine))
    ensures Going(u, Send(w, q).0, j, p)
  {
    hide Next, Going, Kept, Weathered, Spared, Server.Serve;
    NextGoes(u, w, j, p);
    ServeGoes(u, Next(w).0, q, j, p);
  }

  /** The secrets have changed, by fresh versions or removal. */
  lemma SecretsGo(u: W, w: W, x: W, j: Key, p: Plan)
    requires Going(u, w, j, p) && x == w.(secrets := x.secrets, clock := x.clock) && w.clock <= x.clock
    requires x.Valid() && Unique(x) && Later(w, x, p.mine)
    requires forall at | at in x.secrets :: Proper(at, x.secrets[at].data, p)
    ensures Going(u, x, j, p)
  {
    hide World.Valid, Unique, Suits, Proper, Later, Drifted, Keeps;
    if j != p.key {
      LaterTrans(u, w, x, p.mine);
      DriftedResource(u, w, x);
    }
  }

  lemma GoingAllots(u: W, w: W, j: Key, p: Plan)
    requires Going(u, w, j, p)
    ensures Allotted(w, p) && w.Valid() && Unique(w) && Keeps(w.weather, p)
  {
  }

  lemma CreateSecretGoes(u: W, w: W, at: Key, data: map<string, string>, j: Key, p: Plan)
    requires Going(u, w, j, p) && Proper(at, data, p)
    ensures Going(u, CreateSecret(w, at, data, j).0, j, p)
    ensures CreateSecret(w, at, data, j).1 == Nil ==> CreateSecret(w, at, data, j).2.data == data
  {
    hide Next, Going, Kept, Weathered, Proper, Later, Unique;
    NextGoes(u, w, j, p);
    var x := Next(w).0;
    assert Allotted(x, p) && x.Valid() && Unique(x) by { GoingAllots(u, x, j, p); }
    StoreNewLater(x, at, data, j, p.mine);
    var v := StoreNewSecret(x, at, data, j).0;
    SecretsGo(u, x, v, j, p);
  }

  lemma UpdateSecretGoes(u: W, w: W, at: Key, secret: Secret, data: map<string, string>, j: Key, p: Plan)
    requires Going(u, w, j, p) && Proper(at, data, p)
    ensures Going(u, UpdateSecret(w, at, secret, data).0, j, p)
    ensures UpdateSecret(w, at, secret, data).1 == Nil ==> UpdateSecret(w, at, secret, data).2.data == data
  {
    hide Next, Going, Kept, Weathered, Proper, Later, Unique;
    NextGoes(u, w, j, p);
    var x := Next(w).0;
    assert Allotted(x, p) && x.Valid() && Unique(x) by { GoingAllots(u, x, j, p); }
    StoreSecretLater(x, at, secret, data, p.mine);
    var v := StoreSecret(x, at, secret, data).0;
    SecretsGo(u, x, v, j, p);
  }

  lemma DeleteSecretGoes(u: W, w: W, at: Key, j: Key, p: Plan)
    requires Going(u, w, j, p)
    ensures Going(u, DeleteSecret(w, at).0, j, p)
  {
    hide Next, Going, Kept, Weathered, Proper, Later, Unique;
    NextGoes(u, w, j, p);
    var x := Next(w).0;
    assert Allotted(x, p) && x.Valid() && Unique(x) by { GoingAllots(u, x, j, p); }
    DropLater(x, at, p.mine);
    var v := DropStoredSecret(x, at).0;
    SecretsGo(u, x, v, j, p);
  }

  lemma StoreGoes(u: W, w: W, j: Key, o: Resource, p: Plan)
    requires Going(u, w, j, p) && SuitsAll(o, j, p)
    ensures Going(u, Store(w, j, o).0, j, p)
  {
    hide Suits, Proper, Drifted, Keeps, Held, Written;
    StoreKeeps(w, j, o);
  }

  lemma UpdateGoes(u: W, w: W, j: Key, o: Resource, p: Plan)
    requires Going(u, w, j, p) && SuitsAll(o, j, p)
    ensures Going(u, Update(w, j, o).0, j, p) && Update(w, j, o).2 == o.(version := Update(w, j, o).2.version)
  {
    hide Next, Going, SuitsAll;
    NextGoes(u, w, j, p);
    var x := Next(w).0;
    StoreGoes(u, x, j, o, p);
  }

  /** Credentials that may go into the secrets of `j`. */
  predicate Fitting(creds: Creds, j: Key, p: Plan) {
    if j == p.key then p.pinned ==> creds.accessKey == p.mine.name
    else j in p.elsewhere || (creds.accessKey != p.mine.name && creds.secretKey != p.mine.name)
  }

  lemma GoingProper(u: W, w: W, j: Key, p: Plan, at: Key)
    requires Going(u, w, j, p) && at in w.secrets
    ensures Proper(at, w.secrets[at].data, p)
  {
    hide Proper, Suits;
  }

  lemma ResolveGoes(u: W, w: W, ref: SecretKeyRef, ns: string, j: Key, p: Plan)
    requires Going(u, w, j, p) && ref != NO_REF
    ensures var (v, err, value) := Resolve(w, ref, ns);
      Going(u, v, j, p) && (err == Nil && Apart(ref, ns, p) ==> value != p.mine.name)
  {
    hide Going, Ask;
    AskGoes(u, w, j, p);
    var x := Ask(w).0;
    var at := ref.Target(ns);
    if at in x.secrets { GoingProper(u, x, j, p, at); }
  }

  lemma DesiredGoes(
    u: W, w: W, j: Key, spec: AccessKeySpec, current: Option<Creds>, roll: Roll, p: Plan)
    requires Going(u, w, j, p) && Suits(spec, j, p) && Misses(roll, j, p) && p.mine.name != ""
    requires current.Some? && j != p.key && j !in p.elsewhere ==> Fitting(current.value, j, p)
    ensures var (v, err, creds) := Desired(w, j.namespace, spec, current, roll);
      Going(u, v, j, p) && (err == Nil ==> Fitting(creds, j, p))
  {
    hide Going, Resolve, TenantOf, SecretOf;
    if spec.accessKeyRef != NO_REF { ResolveGoes(u, w, spec.accessKeyRef, j.namespace, j, p); }
    var x := if spec.accessKey != "" || spec.accessKeyRef == NO_REF then w
        else Resolve(w, spec.accessKeyRef, j.namespace).0;
    if spec.secretKeyRef != NO_REF { ResolveGoes(u, x, spec.secretKeyRef, j.namespace, j, p); }
  }

  /** What the credentials of `j` become in its secret. */
  lemma FittingProper(spec: AccessKeySpec, creds: Creds, data: map<string, string>, j: Key, p: Plan)
    requires Suits(spec, j, p) && Fitting(creds, j, p) && Fair(p)
    requires j != p.key && j !in p.elsewhere ==> Clean(data, p)
    ensures Proper(SecretOf(spec, j.namespace), data + DataOf(creds), p)
    ensures Proper(SecretOf(spec, j.namespace), DataOf(creds), p)
  {
  }

  lemma GoingFair(u: W, w: W, j: Key, p: Plan)
    requires Going(u, w, j, p)
    ensures Fair(p)
  {
  }

  lemma CreateCredentialsGoes(u: W, w: W, j: Key, spec: AccessKeySpec, roll: Roll, p: Plan)
    requires Going(u, w, j, p) && Suits(spec, j, p) && Misses(roll, j, p)
    ensures var (v, err, secret) := CreateCredentialsSecret(w, j, spec, roll);
      Going(u, v, j, p) && (err == Nil ==> Fitting(CredsOf(secret), j, p))
  {
    hide Going, Desired, CreateSecret, Suits, Misses, Fitting, Proper;
    GoingFair(u, w, j, p);
    DesiredGoes(u, w, j, spec, None, roll, p);
    var (x, err, creds) := Desired(w, j.namespace, spec, None, roll);
    if err == Nil {
      FittingProper(spec, creds, map[], j, p);
      CreateSecretGoes(u, x, SecretOf(spec, j.namespace), DataOf(creds), j, p);
    }
  }

  /** The status under another secret name. */
  lemma RenamedSuits(ak: Resource, j: Key, p: Plan)
    requires SuitsAll(ak, j, p) && ak.status.Some?
    ensures SuitsAll(ak.(status := Some(ak.status.value.(secretName := ak.spec.secretName))), j, p)
  {
  }

  lemma RenameGoes(u: W, w: W, j: Key, ak: Resource, found: bool, p: Plan)
    requires Going(u, w, j, p) && SuitsAll(ak, j, p) && ak.status.Some?
    ensures var r := Rename(w, j, ak, found);
        Going(u, r.0, j, p) && (r.1 == Nil ==> SuitsAll(r.2, j, p)) && r.2.spec == ak.spec
  {
    hide Going, Ask, DeleteSecret, Update, Suits;
    var at := SecretOf(ak.status.value, j.namespace);
    AskGoes(u, w, j, p);
    DeleteSecretGoes(u, w, at, j, p);
    var x := if found then DeleteSecret(w, at).0 else Ask(w).0;
    RenamedSuits(ak, j, p);
    UpdateGoes(u, x, j, ak.(status := Some(ak.status.value.(secretName := ak.spec.secretName))), p);
  }

  lemma OutsideClean(spec: AccessKeySpec, secret: Secret, j: Key, p: Plan)
    requires Suits(spec, j, p) && Proper(SecretOf(spec, j.namespace), secret.data, p) && p.mine.name != ""
    ensures j != p.key && j !in p.elsewhere ==> Clean(secret.data, p) && Fitting(CredsOf(secret), j, p)
  {
  }

  lemma RefreshGoes(u: W, w: W, j: Key, ak: Resource, roll: Roll, p: Plan)
    requires Going(u, w, j, p) && SuitsAll(ak, j, p) && Misses(roll, j, p) && ak.status.Some?
    requires ak.status.value.secretName == ak.spec.secretName && SecretOf(ak.spec, j.namespace) in w.secrets
    ensures var (v, err, secret) := Refresh(w, j, ak, w.secrets[SecretOf(ak.spec, j.namespace)], roll);
      Going(u, v, j, p) && (err == Nil ==> Fitting(CredsOf(secret), j, p))
  {
    hide Going, Desired, UpdateSecret, Suits, Misses;
    var at := SecretOf(ak.spec, j.namespace);
    var secret := w.secrets[at];
    GoingFair(u, w, j, p);
    GoingProper(u, w, j, p, at);
    OutsideClean(ak.spec, secret, j, p);
    DesiredGoes(u, w, j, ak.spec, Some(CredsOf(secret)), roll, p);
    var (x, err, creds) := Desired(w, j.namespace, ak.spec, Some(CredsOf(secret)), roll);
    if err == Nil {
      FittingProper(ak.spec, creds, secret.data, j, p);
      UpdateSecretGoes(u, x, at, secret, secret.data + DataOf(creds), j, p);
    }
  }

  lemma UpdateCredentialsGoes(u: W, w: W, j: Key, ak: Resource, roll: Roll, p: Plan)
    requires Going(u, w, j, p) && SuitsAll(ak, j, p) && Misses(roll, j, p) && ak.status.Some?
    ensures var (v, err, q, secret) := UpdateCredentialsSecret(w, j, ak, roll);
      && Going(u, v, j, p)
      && (err == Nil ==> SuitsAll(q, j, p) && Fitting(CredsOf(secret), j, p))
  {
    hide Going, Ask, Rename, Refresh, CreateCredentialsSecret, Suits, Misses, Fitting;
    var at := SecretOf(ak.status.value, j.namespace);
    AskGoes(u, w, j, p);
    var x := Ask(w).0;
    RenameGoes(u, x, j, ak, at in x.secrets, p);
    var r := Rename(x, j, ak, at in x.secrets);
    CreateCredentialsGoes(u, r.0, j, ak.spec, roll, p);
    CreateCredentialsGoes(u, x, j, ak.spec, roll, p);
    if at in x.secrets && ak.status.value.secretName == ak.spec.secretName { RefreshGoes(u, x, j, ak, roll, p); }
  }

  /** No request about the account of another resource is about this one. */
  lemma OthersSpare(spec: AccessKeySpec, creds: Creds, j: Key, p: Plan)
    requires Suits(spec, j, p) && Fitting(creds, j, p) && j != p.key
    ensures RemoteId(TenantOf(spec, j.namespace), creds.accessKey) != p.mine
  {
  }

  lemma CorrectGoes(u: W, w: W, j: Key, id: RemoteId, ak: Resource, secret: Secret, p: Plan, digest: Digest)
    requires Going(u, w, j, p) && ak.status.Some? && id in w.minio.accounts && (j != p.key ==> id != p.mine)
    ensures Going(u, Correct(w, id, ak, secret, digest).0, j, p)
  {
    hide Going, Send, Differ;
    var q := UpdateServiceAccount(id, CredsOf(secret).secretKey, ak.status.value.Attributes());
    SendGoes(u, w, q, j, p);
    var x := if Differ(digest, w.minio.accounts[id].attributes, ak.status.value.Attributes()) then Send(w, q).0 else w;
    SendGoes(u, x, UpdateServiceAccount(id, CredsOf(secret).secretKey, Sent(digest, ak.spec.Attributes())), j, p);
  }

  lemma ForgetGoes(u: W, w: W, j: Key, ak: Resource, p: Plan)
    requires Going(u, w, j, p) && SuitsAll(ak, j, p) && ak.status.Some?
    ensures var r := Forget(w, j, ak);
      Going(u, r.0, j, p) && (r.1 == Nil ==> SuitsAll(r.2, j, p) && r.2.spec == ak.spec)
  {
    hide Going, Ask, DeleteSecret, Update, Suits;
    var at := SecretOf(ak.status.value, j.namespace);
    AskGoes(u, w, j, p);
    var x := Ask(w).0;
    DeleteSecretGoes(u, x, at, j, p);
    UpdateGoes(u, if at in x.secrets then DeleteSecret(x, at).0 else x, j, ak.(status := None), p);
  }

  lemma UnmigratedSuits(spec: AccessKeySpec, j: Key, p: Plan)
    requires Suits(spec, j, p)
    ensures Suits(spec.(migrate := false), j, p)
  {
  }

  lemma UpdateKeyGoes(u: W, w: W, j: Key, ak: Resource, secret: Secret, p: Plan, digest: Digest)
    requires Going(u, w, j, p) && SuitsAll(ak, j, p) && Fitting(CredsOf(secret), j, p) && ak.status.Some?
    ensures var r := UpdateAccessKey(w, j, ak, secret, digest);
      Going(u, r.0, j, p) && (r.1 == Nil ==> SuitsAll(r.2, j, p) && !r.2.spec.migrate)
  {
    hide Going, Ask, Update, Correct, Forget, CredsOf, Suits, Fitting;
    var q := ak.(spec := ak.spec.(migrate := false));
    UnmigratedSuits(ak.spec, j, p);
    UpdateGoes(u, w, j, q, p);
    var (x, err, ak1) := if ak.spec.migrate then Update(w, j, q) else (w, Nil, ak);
    AskGoes(u, x, j, p);
    AskGoes(u, Ask(x).0, j, p);
    var y := Ask(Ask(x).0).0;
    if err == Nil {
      ForgetGoes(u, y, j, ak1, p);
      var id := RemoteId(TenantOf(ak1.status.value, j.namespace), CredsOf(secret).accessKey);
      if j != p.key { OthersSpare(ak1.status.value.(migrate := false), CredsOf(secret), j, p); }
      if id in y.minio.accounts { CorrectGoes(u, y, j, id, ak1, secret, p, digest); }
    }
  }

  lemma CheckGoes(u: W, w: W, j: Key, ak: Resource, roll: Roll, p: Plan)
    requires Going(u, w, j, p) && SuitsAll(ak, j, p) && Misses(roll, j, p) && ak.status.Some?
    ensures Going(u, Check(w, j, ak, roll), j, p)
  {
    hide Going, Update, UpdateCredentialsSecret, UpdateAccessKey, Suits, Misses, Fitting, CredsOf;
    var (x, err, ak1, secret) := UpdateCredentialsSecret(w, j, ak, roll);
    UpdateCredentialsGoes(u, w, j, ak, roll, p);
    if err == Nil {
      var (y, err, ak2) := UpdateAccessKey(x, j, ak1, secret, roll.digest);
      UpdateKeyGoes(u, x, j, ak1, secret, p, roll.digest);
      if err == Nil {
        UnmigratedSuits(ak2.spec, j, p);
        UpdateGoes(u, y, j, Recorded(ak2, secret), p);
      }
    }
  }

  lemma CreatedSuits(ak: Resource, secret: Secret, j: Key, p: Plan)
    requires Suits(ak.spec, j, p) && Fitting(CredsOf(secret), j, p)
    ensures SuitsAll(Created(ak, secret), j, p)
  {
  }

  lemma CreateGoes(u: W, w: W, j: Key, ak: Resource, roll: Roll, p: Plan)
    requires Going(u, w, j, p) && SuitsAll(ak, j, p) && Misses(roll, j, p)
    ensures Going(u, Create(w, j, ak, roll), j, p)
  {
    hide Going, Ask, Send, Update, CreateCredentialsSecret, DeleteSecret, CredsOf, Suits, Misses, Fitting;
    var (x, err, secret) := CreateCredentialsSecret(w, j, ak.spec, roll);
    CreateCredentialsGoes(u, w, j, ak.spec, roll, p);
    if err == Nil {
      var y := Ask(x).0;
      AskGoes(u, x, j, p);
      var id := RemoteId(TenantOf(ak.spec, j.namespace), CredsOf(secret).accessKey);
      var q := AddServiceAccount(id, AccountOf(ak.spec, CredsOf(secret), roll.digest));
      if j != p.key { OthersSpare(ak.spec, CredsOf(secret), j, p); }
      SendGoes(u, y, q, j, p);
      DeleteSecretGoes(u, y, SecretOf(ak.spec, j.namespace), j, p);
      DeleteSecretGoes(u, Send(y, q).0, SecretOf(ak.spec, j.namespace), j, p);
      CreatedSuits(ak, secret, j, p);
      UpdateGoes(u, Send(y, q).0, j, Created(ak, secret), p);
    }
  }

  lemma TeardownGoes(u: W, w: W, j: Key, ak: Resource, p: Plan)
    requires Going(u, w, j, p) && SuitsAll(ak, j, p)
    ensures Going(u, Teardown(w, j, ak), j, p)
  {
    hide Going, Ask, Send, Update, CredsOf, Suits;
    AskGoes(u, w, j, p);
    var x, y := Ask(w).0, Ask(Ask(w).0).0;
    AskGoes(u, x, j, p);
    if ak.status.Some? && SecretOf(ak.status.value, j.namespace) in x.secrets {
      var creds := CredsOf(x.secrets[SecretOf(ak.status.value, j.namespace)]);
      SendGoes(u, y, DeleteServiceAccount(RemoteId(TenantOf(ak.status.value, j.namespace), creds.accessKey)), j, p);
    }
    var z := DeleteAccessKey(w, j, ak).0;
    assert Going(u, z, j, p);
    hide DeleteAccessKey;
    UpdateGoes(u, z, j, ak.(status := None), p);
    var (v, err, ak1) := Update(z, j, ak.(status := None));
    UpdateGoes(u, v, j, ak1.(finalizer := false), p);
  }

  lemma AlongRefl(u: W, j: Key)
    ensures Along(u, u, j)
  {
  }

  /** A pass keeps to the plan; one over another resource leaves account and resource to others. */
  lemma PassGoes(u: W, j: Key, roll: Roll, p: Plan)
    requires Allotted(u, p) && Keeps(u.weather, p) && Misses(roll, j, p)
    ensures var v := Pass(u, j, roll); Allotted(v, p) && Beside(u, v, j, p)
  {
    hide Ask, Update, Check, Create, Teardown, World.Valid, Keeps, Suits, Misses, Proper, Unique, Drifted, Later;
    LaterRefl(u, p.mine);
    assert Going(u, u, j, p) by { AlongRefl(u, j); }
    AskGoes(u, u, j, p);
    var x := Ask(u).0;
    if Ask(u).1 == Nil && j in x.objects {
      var ak := x.objects[j];
      TeardownGoes(u, x, j, ak, p);
      UpdateGoes(u, x, j, ak.(finalizer := true), p);
      if ak.status.Some? { CheckGoes(u, x, j, ak, roll, p); }
      CreateGoes(u, x, j, ak, roll, p);
    }
  }
}
