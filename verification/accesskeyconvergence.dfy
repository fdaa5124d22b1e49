/**
 Where the passes over a recorded access key lead: to exactly the secret the spec names, with the
 desired credentials, and to the attributes of the spec on the server, however often a pass is cut short.
 */
module AccessKeyConvergence {
  import opened Prelude
  import opened Minio
  import opened Kube
  import opened AccessKeys
  import opened AccessKeyRecords
  import opened Credentials
  import opened PolicyForm
  import opened PolicyHash
  import AccessKeySecrets

  /** The value a reference leads to, if it leads anywhere; no reference gives the empty value. */
  function Given(w: W, ref: SecretKeyRef, ns: string): Option<string> {
    if ref == NO_REF then Some("")
    else if ref.Target(ns) in w.secrets && ref.key in w.secrets[ref.Target(ns)].data
        then Some(w.secrets[ref.Target(ns)].data[ref.key])
    else None
  }

  /** What is fixed while passes come and go. */
  datatype Course = Course(
    spec: AccessKeySpec,
    accessKey: string,          // the access key in use
    tenant: ResourceRef,
    former: Key,                // the secret recorded at the beginning
    present: bool,              // the server has the access key
    secretKey: Option<string>,  // the secret key, where it is determined
    digest: Digest)             // the digest behind getHash

  /** The account of the access key in use. */
  function Own(c: Course): RemoteId {
    RemoteId(c.tenant, c.accessKey)
  }

  /** The spec, its references or the present secret determine the access key. */
  predicate Pinned(w: W, k: Key, recorded: AccessKeySpec, c: Course) {
    || c.spec.accessKey == c.accessKey
    || (c.spec.accessKey == "" &&
         match Given(w, c.spec.accessKeyRef, k.namespace)
         case None => false
         case Some(value) =>
           if value != "" then value == c.accessKey
           else
             && recorded.secretName == c.spec.secretName && SecretOf(c.spec, k.namespace) in w.secrets
             && CredsOf(w.secrets[SecretOf(c.spec, k.namespace)]).accessKey == c.accessKey)
  }

  /** The reference, or else the present secret, determines the secret key. */
  predicate PinnedSecret(w: W, k: Key, recorded: AccessKeySpec, c: Course) {
    c.secretKey.Some? ==>
      match Given(w, c.spec.secretKeyRef, k.namespace)
      case None => false
      case Some(value) =>
        if value != "" then value == c.secretKey.value
        else
          && recorded.secretName == c.spec.secretName && SecretOf(c.spec, k.namespace) in w.secrets
          && CredsOf(w.secrets[SecretOf(c.spec, k.namespace)]).secretKey == c.secretKey.value != ""
  }

  /** References lead outside the generated secrets. */
  predicate Outside(k: Key, ref: SecretKeyRef, c: Course) {
    ref == NO_REF || ref.Target(k.namespace) !in {c.former, SecretOf(c.spec, k.namespace)}
  }

  predicate OnCourse(w: W, k: Key, recorded: AccessKeySpec, c: Course) {
    var at, here := SecretOf(recorded, k.namespace), SecretOf(c.spec, k.namespace);
    && TenantOf(recorded, k.namespace) == c.tenant == TenantOf(c.spec, k.namespace)
    && (RemoteId(c.tenant, c.accessKey) in w.minio.accounts <==> c.present)
    && Pinned(w, k, recorded, c) && PinnedSecret(w, k, recorded, c)
    && Given(w, c.spec.secretKeyRef, k.namespace).Some?
    && Outside(k, c.spec.accessKeyRef, c) && Outside(k, c.spec.secretKeyRef, c)
    && (at == c.former || (at == here && c.former !in w.secrets))
    && (at != here ==> here !in w.secrets)
  }

  /** Left to the operator, the resource under `k` stays on course. */
  ghost predicate Leads(w: W, k: Key, c: Course) {
    && w.Valid() && Still(w.weather) && k in w.objects
    && var ak := w.objects[k];
    && ak.finalizer && !ak.deleting && ak.status.Some? && ak.spec == c.spec && !c.spec.migrate && c.accessKey != ""
    && OnCourse(w, k, ak.status.value, c)
  }

  ghost predicate Leading(w: W, k: Key, ak: Resource, c: Course) {
    Leads(w, k, c) && w.objects[k] == ak
  }

  /** The two worlds differ in the weather to come. */
  ghost predicate Same(w: W, v: W) {
    v == w.(weather := v.weather) && Still(v.weather) && v.Valid()
  }

  lemma SameLeads(w: W, v: W, k: Key, ak: Resource, c: Course)
    requires Leading(w, k, ak, c) && Same(w, v)
    ensures Leading(v, k, ak, c)
  {
    hide Still, World.Valid;
  }

  lemma LeadsStill(w: W, k: Key, ak: Resource, c: Course)
    requires Leading(w, k, ak, c)
    ensures w.Valid() && Still(w.weather)
  {
  }

  lemma AskSame(w: W)
    requires w.Valid() && Still(w.weather)
    ensures Same(w, Ask(w).0)
  {
    hide Next, World.Valid, Still, Kept, Weathered;
    NextStill(w);
  }

  /** The credentials are those the course leads to. */
  predicate Wanted(w: W, k: Key, c: Course, creds: Creds) {
    && creds.accessKey == c.accessKey && creds.secretKey != ""
    && var given := Given(w, c.spec.secretKeyRef, k.namespace);
    && (given.Some? && given.value != "" ==> creds.secretKey == given.value)
    && (c.secretKey.Some? ==> creds.secretKey == c.secretKey.value)
  }

  lemma ResolveStill(w: W, ref: SecretKeyRef, ns: string)
    requires w.Valid() && Still(w.weather) && ref != NO_REF
    ensures var (v, err, value) := Resolve(w, ref, ns);
      && Same(w, v) && (err == Nil ==> Given(w, ref, ns) == Some(value))
      && (w.weather.Calm? && Given(w, ref, ns).Some? ==> v == w && err == Nil)
  {
    hide Next, World.Valid, Still, Kept, Weathered;
    AskSame(w);
  }

  /** A roll that yields both strings. */
  predicate Lucky(roll: Roll) {
    roll.first.Some? && roll.second.Some?
  }

  /** The access key a pass settles on, its first step. */
  function Begun(w: W, ns: string, spec: AccessKeySpec): (W, Err, string) {
    if spec.accessKey != "" || spec.accessKeyRef == NO_REF then (w, Nil, spec.accessKey)
    else Resolve(w, spec.accessKeyRef, ns)
  }

  /** The recorded secret name is that of the spec. */
  predicate Renamed(ak: Resource, c: Course) {
    ak.status.Some? && ak.status.value.secretName == c.spec.secretName
  }

  /** The secret that stands under the name on record and in the spec. */
  predicate Standing(w: W, k: Key, ak: Resource, current: Option<Creds>, c: Course)
    requires ak.status.Some?
  {
    var here := SecretOf(c.spec, k.namespace);
    current == if Renamed(ak, c) && here in w.secrets then Some(CredsOf(w.secrets[here])) else None
  }

  lemma AccessKeyWanted(w: W, k: Key, ak: Resource, current: Option<Creds>, roll: Roll, c: Course)
    requires Leading(w, k, ak, c) && Standing(w, k, ak, current, c)
    ensures var (x, err, given) := Begun(w, k.namespace, c.spec);
      var chosen := Choose(given, if current.Some? then current.value.accessKey else "", false, roll.AccessKey());
      && Same(w, x)
      && (err == Nil ==> chosen == (Nil, c.accessKey))
      && (w.weather.Calm? ==> x == w && err == Nil)
  {
    hide Next, Still, Resolve, World.Valid;
    LeadsStill(w, k, ak, c);
    if c.spec.accessKey == "" && c.spec.accessKeyRef != NO_REF { ResolveStill(w, c.spec.accessKeyRef, k.namespace); }
  }

  lemma SecretKeyWanted(w: W, k: Key, ak: Resource, current: Option<Creds>, x: W, roll: Roll, c: Course)
    requires Leading(w, k, ak, c) && Standing(w, k, ak, current, c) && Same(w, x)
    ensures var (v, err, given) :=
        if c.spec.secretKeyRef == NO_REF then (x, Nil, "") else Resolve(x, c.spec.secretKeyRef, k.namespace);
      var (failed, secretKey) :=
        Choose(given, if current.Some? then current.value.secretKey else "", false, roll.SecretKey());
      && Same(w, v)
      && (err == Nil && failed == Nil ==> Wanted(w, k, c, Creds(c.accessKey, secretKey)))
      && (w.weather.Calm? && x == w && Lucky(roll) ==> v == w && err == Nil && failed == Nil)
  {
    hide Next, Still, Resolve, World.Valid, Pinned;
    if c.spec.secretKeyRef != NO_REF { ResolveStill(x, c.spec.secretKeyRef, k.namespace); }
  }

  lemma DesiredWanted(w: W, k: Key, ak: Resource, current: Option<Creds>, roll: Roll, c: Course)
    requires Leading(w, k, ak, c) && Standing(w, k, ak, current, c)
    ensures var (v, err, creds) := Desired(w, k.namespace, c.spec, current, roll);
      && Same(w, v)
      && (err == Nil ==> Wanted(w, k, c, creds))
      && (w.weather.Calm? && Lucky(roll) ==> v == w && err == Nil)
  {
    hide Resolve, OnCourse, Standing, Wanted, Same, Choose, CredsOf;
    AccessKeyWanted(w, k, ak, current, roll, c);
    SecretKeyWanted(w, k, ak, current, Begun(w, k.namespace, c.spec).0, roll, c);
  }

  /** The secret named by the spec is there, with the desired credentials. */
  predicate Holds(w: W, k: Key, c: Course, secret: Secret) {
    var here := SecretOf(c.spec, k.namespace);
    here in w.secrets && w.secrets[here] == secret && Wanted(w, k, c, CredsOf(secret))
  }

  lemma SameKept(w: W, v: W, k: Key, c: Course, secret: Secret)
    requires Same(w, v)
    ensures Holds(w, k, c, secret) ==> Holds(v, k, c, secret)
    ensures forall creds :: Wanted(w, k, c, creds) ==> Wanted(v, k, c, creds)
  {
    hide Still, World.Valid;
  }

  lemma SwapLeads(x: W, v: W, k: Key, ak: Resource, stored: Secret, c: Course)
    requires Leading(x, k, ak, c) && Renamed(ak, c) && Wanted(x, k, c, CredsOf(stored))
    requires v == x.(secrets := x.secrets[SecretOf(c.spec, k.namespace) := stored], clock := v.clock)
    requires x.clock <= v.clock && 0 < stored.version < v.clock
    ensures Leading(v, k, ak, c) && Holds(v, k, c, stored)
  {
    hide Still;
  }

  lemma NewSecretLeads(x: W, k: Key, ak: Resource, creds: Creds, c: Course)
    requires Leading(x, k, ak, c) && Renamed(ak, c) && SecretOf(c.spec, k.namespace) !in x.secrets
    requires Wanted(x, k, c, creds)
    ensures var (v, err, secret) := StoreNewSecret(x, SecretOf(c.spec, k.namespace), DataOf(creds), k);
      err == Nil && Leading(v, k, ak, c) && Holds(v, k, c, secret)
  {
    hide Still, OnCourse, Wanted, Holds;
    var (v, _, secret) := StoreNewSecret(x, SecretOf(c.spec, k.namespace), DataOf(creds), k);
    assert CredsOf(secret) == creds;
    SwapLeads(x, v, k, ak, secret, c);
  }

  lemma StoreNewWeather(x: W, at: Key, data: map<string, string>, k: Key)
    ensures StoreNewSecret(x, at, data, k).0.weather == x.weather
  {
  }

  lemma NextSame(w: W)
    requires w.Valid() && Still(w.weather)
    ensures Same(w, Next(w).0) && Next(w).0.secrets == w.secrets && Next(w).0.minio == w.minio
    ensures Next(w).0.objects == w.objects
    ensures w.weather.Calm? ==> Next(w) == (w, Done)
  {
    hide Still, World.Valid;
    NextStill(w);
  }

  lemma CreateSecretLeads(w: W, k: Key, ak: Resource, creds: Creds, c: Course)
    requires Leading(w, k, ak, c) && Renamed(ak, c) && SecretOf(c.spec, k.namespace) !in w.secrets
    requires Wanted(w, k, c, creds)
    ensures var (v, err, secret) := CreateSecret(w, SecretOf(c.spec, k.namespace), DataOf(creds), k);
      && Leading(v, k, ak, c)
      && (err == Nil ==> Holds(v, k, c, secret))
      && (w.weather.Calm? ==> v.weather.Calm? && err == Nil)
  {
    hide Next, Still, World.Valid, Kept, Weathered, Leading, Same, Wanted, Holds, StoreNewSecret;
    var x := Next(w).0;
    LeadsStill(w, k, ak, c);
    NextSame(w);
    SameLeads(w, x, k, ak, c);
    SameKept(w, x, k, c, Secret(map[], None, 0));
    NewSecretLeads(x, k, ak, creds, c);
    StoreNewWeather(x, SecretOf(c.spec, k.namespace), DataOf(creds), k);
  }

  lemma RefreshedSecretLeads(x: W, k: Key, ak: Resource, secret: Secret, creds: Creds, c: Course)
    requires Leading(x, k, ak, c) && Renamed(ak, c) && Wanted(x, k, c, creds)
    requires SecretOf(c.spec, k.namespace) in x.secrets && x.secrets[SecretOf(c.spec, k.namespace)] == secret
    ensures var (v, err, stored) := StoreSecret(x, SecretOf(c.spec, k.namespace), secret, secret.data + DataOf(creds));
      err == Nil && Leading(v, k, ak, c) && Holds(v, k, c, stored) && v.weather == x.weather
  {
    hide Still, OnCourse, Wanted, Holds;
    var here := SecretOf(c.spec, k.namespace);
    var (v, _, stored) := StoreSecret(x, here, secret, secret.data + DataOf(creds));
    assert CredsOf(stored) == creds;
    assert x.secrets[here := secret] == x.secrets;
    SwapLeads(x, v, k, ak, stored, c);
  }

  lemma SameSecrets(w: W, v: W)
    requires Same(w, v)
    ensures v.secrets == w.secrets && v.objects == w.objects && v.minio == w.minio
  {
  }

  lemma RefreshLeads(w: W, k: Key, ak: Resource, roll: Roll, c: Course)
    requires Leading(w, k, ak, c) && Renamed(ak, c) && SecretOf(c.spec, k.namespace) in w.secrets
    ensures var (v, err, secret) := Refresh(w, k, ak, w.secrets[SecretOf(c.spec, k.namespace)], roll);
      && Leading(v, k, ak, c)
      && (err == Nil ==> Holds(v, k, c, secret))
      && (w.weather.Calm? && Lucky(roll) ==> v.weather.Calm? && err == Nil)
  {
    hide Next, Still, World.Valid, Kept, Weathered, Same, Wanted, Desired, StoreSecret, Lucky, OnCourse;
    var secret := w.secrets[SecretOf(c.spec, k.namespace)];
    var (x, err, creds) := Desired(w, k.namespace, c.spec, Some(CredsOf(secret)), roll);
    DesiredWanted(w, k, ak, Some(CredsOf(secret)), roll, c);
    SameLeads(w, x, k, ak, c);
    SameKept(w, x, k, c, secret);
    SameSecrets(w, x);
    if err == Nil {
      LeadsStill(x, k, ak, c);
      var y := Next(x).0;
      NextSame(x);
      SameLeads(x, y, k, ak, c);
      SameKept(x, y, k, c, secret);
      RefreshedSecretLeads(y, k, ak, secret, creds, c);
    }
  }

  lemma RegenerateLeads(w: W, k: Key, ak: Resource, roll: Roll, c: Course)
    requires Leading(w, k, ak, c) && Renamed(ak, c) && SecretOf(c.spec, k.namespace) !in w.secrets
    ensures var (v, err, secret) := CreateCredentialsSecret(w, k, c.spec, roll);
      && Leading(v, k, ak, c)
      && (err == Nil ==> Holds(v, k, c, secret))
      && (w.weather.Calm? && Lucky(roll) ==> v.weather.Calm? && err == Nil)
  {
    hide Next, Still, World.Valid, Kept, Weathered, Same, Wanted, Desired, CreateSecret, Lucky, OnCourse;
    var (x, err, creds) := Desired(w, k.namespace, c.spec, None, roll);
    DesiredWanted(w, k, ak, None, roll, c);
    SameLeads(w, x, k, ak, c);
    SameKept(w, x, k, c, Secret(map[], None, 0));
    SameSecrets(w, x);
    if err == Nil { CreateSecretLeads(x, k, ak, creds, c); }
  }

  /** The old secret goes, if it is there. */
  lemma OldSecretGoes(x: W, k: Key, ak: Resource, c: Course)
    requires Leading(x, k, ak, c) && !Renamed(ak, c)
    ensures var (v, err) := DropStoredSecret(x, SecretOf(ak.status.value, k.namespace));
      && Leading(v, k, ak, c) && c.former !in v.secrets && err in {Nil, NotFound} && v.weather == x.weather
      && SecretOf(c.spec, k.namespace) !in v.secrets
  {
    hide Still;
  }

  lemma NewNameStored(x: W, k: Key, ak: Resource, c: Course)
    requires Leading(x, k, ak, c) && !Renamed(ak, c) && c.former !in x.secrets
    ensures var (v, err, p) := Store(x, k, ak.(status := Some(ak.status.value.(secretName := c.spec.secretName))));
      && err == Nil && Leading(v, k, p, c) && Renamed(p, c) && SecretOf(c.spec, k.namespace) !in v.secrets
      && v.weather == x.weather
  {
    hide Still;
  }

  lemma FormerName(w: W, k: Key, ak: Resource, c: Course)
    requires Leading(w, k, ak, c) && !Renamed(ak, c)
    ensures SecretOf(ak.status.value, k.namespace) == c.former && ak.status.Some? && ak.spec == c.spec
  {
  }

  lemma DropLeads(w: W, k: Key, ak: Resource, found: bool, c: Course)
    requires Leading(w, k, ak, c) && !Renamed(ak, c)
    requires (!found ==> SecretOf(ak.status.value, k.namespace) !in w.secrets)
    ensures var (v, err) := if found then DeleteSecret(w, SecretOf(ak.status.value, k.namespace)) else Ask(w);
      && Leading(v, k, ak, c) && (Ignore(err, NotFound) == Nil ==> c.former !in v.secrets)
      && (w.weather.Calm? ==> v.weather.Calm? && err in {Nil, NotFound})
  {
    hide Next, Still, World.Valid, Kept, Weathered, Same, OnCourse, DropStoredSecret;
    LeadsStill(w, k, ak, c);
    var x := Next(w).0;
    NextSame(w);
    SameLeads(w, x, k, ak, c);
    OldSecretGoes(x, k, ak, c);
    if !found { FormerName(w, k, ak, c); }
  }

  lemma RenameLeads(w: W, k: Key, ak: Resource, found: bool, c: Course)
    requires Leading(w, k, ak, c) && !Renamed(ak, c)
    requires (!found ==> SecretOf(ak.status.value, k.namespace) !in w.secrets)
    ensures var (v, err, p) := Rename(w, k, ak, found);
      && Leads(v, k, c)
      && (err == Nil ==> Leading(v, k, p, c) && Renamed(p, c) && SecretOf(c.spec, k.namespace) !in v.secrets)
      && (w.weather.Calm? ==> v.weather.Calm? && err == Nil)
  {
    hide Next, Still, World.Valid, Kept, Weathered, Same, OnCourse, DeleteSecret, Ask, Along, Held, Written;
    FormerName(w, k, ak, c);
    DropLeads(w, k, ak, found, c);
    var (x, err) := if found then DeleteSecret(w, SecretOf(ak.status.value, k.namespace)) else Ask(w);
    if Ignore(err, NotFound) == Nil {
      LeadsStill(x, k, ak, c);
      var y := Next(x).0;
      NextSame(x);
      SameLeads(x, y, k, ak, c);
      NewNameStored(y, k, ak, c);
    }
  }

  lemma UpdateCredentialsLeads(w: W, k: Key, ak: Resource, roll: Roll, c: Course)
    requires Leading(w, k, ak, c)
    ensures var (v, err, p, secret) := UpdateCredentialsSecret(w, k, ak, roll);
      && Leads(v, k, c)
      && (err == Nil ==> Leading(v, k, p, c) && Renamed(p, c) && Holds(v, k, c, secret))
      && (w.weather.Calm? && Lucky(roll) ==> v.weather.Calm? && err == Nil)
  {
    hide Next, Still, World.Valid, Kept, Weathered, Same, OnCourse, Ask, Rename, Refresh, CreateCredentialsSecret;
    hide Holds, Lucky;
    LeadsStill(w, k, ak, c);
    var x := Ask(w).0;
    AskSame(w);
    SameLeads(w, x, k, ak, c);
    SameSecrets(w, x);
    var at := SecretOf(ak.status.value, k.namespace);
    if ak.spec.secretName != ak.status.value.secretName {
      RenameLeads(x, k, ak, at in x.secrets, c);
      var (y, err, p) := Rename(x, k, ak, at in x.secrets);
      if err == Nil { RegenerateLeads(y, k, p, roll, c); }
    } else if at !in x.secrets {
      RegenerateLeads(x, k, ak, roll, c);
    } else {
      RefreshLeads(x, k, ak, roll, c);
    }
  }

  /** The pass is on course, and the secret in its hands is the one the spec names. */
  ghost predicate Ready(w: W, k: Key, ak: Resource, secret: Secret, c: Course) {
    Leading(w, k, ak, c) && Renamed(ak, c) && Holds(w, k, c, secret)
  }

  lemma SameReady(w: W, v: W, k: Key, ak: Resource, secret: Secret, c: Course)
    requires Ready(w, k, ak, secret, c) && Same(w, v)
    ensures Ready(v, k, ak, secret, c)
  {
    hide Same, Leading, Holds;
    SameLeads(w, v, k, ak, c);
    SameKept(w, v, k, c, secret);
  }

  lemma WrittenAttributesReady(x: W, k: Key, ak: Resource, secret: Secret, key: string, a: Attributes, c: Course)
    requires Ready(x, k, ak, secret, c) && c.present
    ensures
      var id := RemoteId(c.tenant, c.accessKey);
      var (m, err) := x.minio.Serve(UpdateServiceAccount(id, key, a));
      var v := x.(minio := m);
      err == Nil && Ready(v, k, ak, secret, c) && m.accounts[id].attributes == a
  {
    hide Still, Server.Valid;
    ServeValid(x.minio, UpdateServiceAccount(RemoteId(c.tenant, c.accessKey), key, a));
  }

  lemma SendReady(w: W, k: Key, ak: Resource, secret: Secret, key: string, a: Attributes, c: Course)
    requires Ready(w, k, ak, secret, c) && c.present
    ensures
      var id := RemoteId(c.tenant, c.accessKey);
      var (v, err) := Send(w, UpdateServiceAccount(id, key, a));
      && Ready(v, k, ak, secret, c)
      && (err == Nil ==> v.minio.accounts[id].attributes == a)
      && (w.weather.Calm? ==> v.weather.Calm? && err == Nil)
  {
    hide Next, Still, World.Valid, Kept, Weathered, Same, OnCourse, Server.Serve, Holds;
    LeadsStill(w, k, ak, c);
    var x := Next(w).0;
    NextSame(w);
    SameReady(w, x, k, ak, secret, c);
    WrittenAttributesReady(x, k, ak, secret, key, a, c);
  }

  lemma AccountThere(w: W, k: Key, ak: Resource, secret: Secret, c: Course)
    requires Ready(w, k, ak, secret, c)
    ensures RemoteId(c.tenant, c.accessKey) in w.minio.accounts <==> c.present
    ensures ak.status.Some? && TenantOf(ak.status.value, k.namespace) == c.tenant
    ensures CredsOf(secret).accessKey == c.accessKey && ak.spec == c.spec
  {
  }

  lemma CorrectLeads(w: W, k: Key, ak: Resource, secret: Secret, c: Course, digest: Digest)
    requires Ready(w, k, ak, secret, c) && c.present
    ensures
      var id := RemoteId(c.tenant, c.accessKey);
      var (v, err) := Correct(w, id, ak, secret, digest);
      && Ready(v, k, ak, secret, c)
      && (err == Nil ==>
          id in v.minio.accounts && !Differ(digest, v.minio.accounts[id].attributes, c.spec.Attributes()))
      && (w.weather.Calm? ==> v.weather.Calm? && err == Nil)
  {
    hide Send, Ready, DocPreimage, Sent;
    AccountThere(w, k, ak, secret, c);
    var id := RemoteId(c.tenant, c.accessKey);
    var key, recorded, wanted := CredsOf(secret).secretKey, ak.status.value.Attributes(), ak.spec.Attributes();
    SendReady(w, k, ak, secret, key, recorded, c);
    var off := Differ(digest, w.minio.accounts[id].attributes, recorded);
    var sent := Sent(digest, wanted);
    var (x, err) := if off then Send(w, UpdateServiceAccount(id, key, recorded)) else (w, Nil);
    AccountThere(x, k, ak, secret, c);
    if err == Nil {
      SendReady(x, k, ak, secret, key, sent, c);
      AccountThere(Send(x, UpdateServiceAccount(id, key, sent)).0, k, ak, secret, c);
    }
  }

  lemma ReadyStill(w: W, k: Key, ak: Resource, secret: Secret, c: Course)
    requires Ready(w, k, ak, secret, c)
    ensures w.Valid() && Still(w.weather) && Leads(w, k, c) && ak.status.Some?
  {
    hide OnCourse, Holds;
  }

  lemma UpdateKeyLeads(w: W, k: Key, ak: Resource, secret: Secret, c: Course, digest: Digest)
    requires Ready(w, k, ak, secret, c) && !c.spec.migrate && c.present
    ensures
      var id := RemoteId(c.tenant, c.accessKey);
      var (v, err, p) := UpdateAccessKey(w, k, ak, secret, digest);
      && p == ak && Ready(v, k, ak, secret, c)
      && (err == Nil ==>
          id in v.minio.accounts && !Differ(digest, v.minio.accounts[id].attributes, c.spec.Attributes()))
      && (w.weather.Calm? ==> v.weather.Calm? && err == Nil)
  {
    hide Ready, Correct, Forget, Ask, Same, Differ;
    ReadyStill(w, k, ak, secret, c);
    var x := Ask(w).0;
    AskSame(w);
    SameReady(w, x, k, ak, secret, c);
    ReadyStill(x, k, ak, secret, c);
    var y := Ask(x).0;
    AskSame(x);
    SameReady(x, y, k, ak, secret, c);
    AccountThere(w, k, ak, secret, c);
    AccountThere(y, k, ak, secret, c);
    CorrectLeads(y, k, ak, secret, c, digest);
  }

  /**
   The end of the course: exactly the secret the spec names, with the desired credentials, the
   attributes of the spec on the server, and all of it on record.
   */
  ghost predicate Arrived(w: W, k: Key, c: Course) {
    && Leads(w, k, c)
    && var here := SecretOf(c.spec, k.namespace);
    && here in w.secrets && Wanted(w, k, c, CredsOf(w.secrets[here]))
    && (c.former != here ==> c.former !in w.secrets)
    && w.objects[k].status == Some(c.spec) && w.objects[k].stamp == w.secrets[here].version
    && c.present && !Differ(c.digest, w.minio.accounts[RemoteId(c.tenant, c.accessKey)].attributes, c.spec.Attributes())
  }

  lemma RecordedArrives(x: W, k: Key, ak: Resource, secret: Secret, c: Course)
    requires Ready(x, k, ak, secret, c) && c.present
    ensures var (v, err, p) := Store(x, k, Recorded(ak, secret));
      && err == Nil && Leads(v, k, c)
      && (!Differ(c.digest, x.minio.accounts[RemoteId(c.tenant, c.accessKey)].attributes, c.spec.Attributes()) ==>
            Arrived(v, k, c))
  {
    hide Still, SameHash;
  }

  lemma CheckLeads(w: W, k: Key, ak: Resource, roll: Roll, c: Course)
    requires Leading(w, k, ak, c) && c.present
    ensures Leads(Check(w, k, ak, roll), k, c)
    ensures w.weather.Calm? && Lucky(roll) && roll.digest == c.digest ==> Arrived(Check(w, k, ak, roll), k, c)
  {
    hide Next, Still, World.Valid, Kept, Weathered, Same, OnCourse, UpdateCredentialsSecret, UpdateAccessKey, Holds;
    hide Lucky, Differ, Along, Held, Written, Store;
    var (x, err, p, secret) := UpdateCredentialsSecret(w, k, ak, roll);
    UpdateCredentialsLeads(w, k, ak, roll, c);
    if err == Nil {
      assert Ready(x, k, p, secret, c);
      UpdateKeyLeads(x, k, p, secret, c, roll.digest);
      var (y, err, q) := UpdateAccessKey(x, k, p, secret, roll.digest);
      if err == Nil {
        ReadyStill(y, k, p, secret, c);
        var z := Next(y).0;
        NextSame(y);
        SameReady(y, z, k, p, secret, c);
        SameSecrets(y, z);
        RecordedArrives(z, k, p, secret, c);
      }
    }
  }

  /** A pass, cut short anywhere or not, stays on course; a pass without faults arrives. */
  lemma PassLeads(w: W, k: Key, roll: Roll, c: Course)
    requires Leads(w, k, c) && c.present
    ensures Leads(Pass(w, k, roll), k, c)
    ensures w.weather.Calm? && Lucky(roll) && roll.digest == c.digest ==> Arrived(Pass(w, k, roll), k, c)
  {
    hide Next, Still, World.Valid, Same, OnCourse, Check, Lucky, Ask;
    var ak := w.objects[k];
    var x := Ask(w).0;
    AskSame(w);
    SameLeads(w, x, k, ak, c);
    SameSecrets(w, x);
    CheckLeads(x, k, ak, roll, c);
  }

  lemma LeadsReweather(w: W, k: Key, t: Weather<AccessKeySpec>, c: Course)
    requires Leads(w, k, c) && Still(t)
    ensures Leads(w.(weather := t), k, c)
  {
    ValidReweather(w, t);
  }

  lemma {:induction false} RunLeads(w: W, k: Key, turns: seq<KeyTurn>, c: Course)
    requires Leads(w, k, c) && c.present
    requires forall t | t in turns :: t.key == k && Still(t.weather)
    ensures Leads(Play(w, turns), k, c)
    decreases |turns|
  {
    hide World.Valid, Still, Pass, OnCourse;
    if turns != [] {
      var u := Begin(w, turns[0]);
      assert turns[0] in turns;
      ValidReweather(w, turns[0].weather);
      LeadsReweather(w, k, turns[0].weather, c);
      PassLeads(u, k, turns[0].roll, c);
      RunLeads(Pass(u, k, turns[0].roll), k, turns[1..], c);
    }
  }

  lemma CalmStill()
    ensures Still<AccessKeySpec>(Calm)
  {
  }

  /**
   Convergence: with the status set, no migration asked for, the access key present on the server,
   the references resolvable and the new secret name free, one pass without faults arrives; and after
   any number of passes cut short at any calls it arrives just the same.
   */
  lemma Converges(w: W, k: Key, turns: seq<KeyTurn>, roll: Roll, c: Course)
    requires Leads(w.(weather := Calm), k, c) && c.present && Lucky(roll) && roll.digest == c.digest
    requires k in w.objects && w.objects[k].status.Some? && c.former == SecretOf(w.objects[k].status.value, k.namespace)
    requires forall t | t in turns :: t.key == k && Still(t.weather)
    ensures Arrived(Pass(w.(weather := Calm), k, roll), k, c)
    ensures Arrived(Pass(Play(w, turns).(weather := Calm), k, roll), k, c)
  {
    hide Leads, Arrived, Still, Pass, World.Valid;
    var u := w.(weather := Calm);
    PassLeads(u, k, roll, c);
    assert turns != [] ==> Begin(u, turns[0]) == Begin(w, turns[0]);
    RunLeads(u, k, turns, c);
    assert Still<AccessKeySpec>(Calm) by { CalmStill(); }
    var v := if turns == [] then u else Play(w, turns);
    assert v == Play(u, turns);
    LeadsReweather(v, k, Calm, c);
    PassLeads(v.(weather := Calm), k, roll, c);
  }

  /**
   The secret key the resource keeps: the one referred to, or else that of the present secret, if it is not renamed.
   */
  function KeptSecretKey(w: W, k: Key, spec: AccessKeySpec, recorded: AccessKeySpec): Option<string> {
    var given, here := Given(w, spec.secretKeyRef, k.namespace), SecretOf(spec, k.namespace);
    if given.None? || given.value != "" then given
    else if recorded.secretName == spec.secretName && here in w.secrets && CredsOf(w.secrets[here]).secretKey != "" then
      Some(CredsOf(w.secrets[here]).secretKey)
    else None
  }

  /** That key stands in the generated secret in the end, whether passes were cut short on the way or not. */
  lemma KeepsSecretKey(w: W, k: Key, turns: seq<KeyTurn>, roll: Roll, c: Course)
    requires Leads(w.(weather := Calm), k, c) && c.present && Lucky(roll) && roll.digest == c.digest
    requires k in w.objects && w.objects[k].status.Some? && c.former == SecretOf(w.objects[k].status.value, k.namespace)
    requires forall t | t in turns :: t.key == k && Still(t.weather)
    requires KeptSecretKey(w, k, c.spec, w.objects[k].status.value).Some?
    ensures
      var here, kept := SecretOf(c.spec, k.namespace), KeptSecretKey(w, k, c.spec, w.objects[k].status.value).value;
      var v, x := Pass(w.(weather := Calm), k, roll), Pass(Play(w, turns).(weather := Calm), k, roll);
      && here in v.secrets && CredsOf(v.secrets[here]).secretKey == kept
      && here in x.secrets && CredsOf(x.secrets[here]).secretKey == kept
  {
    hide Still, Pass, World.Valid, Differ, Play;
    var d := c.(secretKey := KeptSecretKey(w, k, c.spec, w.objects[k].status.value));
    assert Leads(w.(weather := Calm), k, d);
    Converges(w, k, turns, roll, d);
  }

  /** Plain policies that do not collide agree in the end up to order. */
  lemma ArrivedPoliciesAgree(w: W, k: Key, c: Course)
    requires Arrived(w, k, c)
    requires PlainDoc(w.minio.accounts[RemoteId(c.tenant, c.accessKey)].attributes.policy) && PlainDoc(c.spec.policy)
    requires PolicyHash.NoCollision(c.digest, w.minio.accounts[RemoteId(c.tenant, c.accessKey)].attributes.policy,
        c.spec.policy)
    ensures Equivalent(w.minio.accounts[RemoteId(c.tenant, c.accessKey)].attributes.policy, c.spec.policy)
  {
    hide Still, World.Valid, Pinned, PinnedSecret, Wanted, SameHash, Forms, PolicyHash.NoCollision, PlainDoc;
    HashCanonical(c.digest, w.minio.accounts[RemoteId(c.tenant, c.accessKey)].attributes.policy, c.spec.policy);
  }

  lemma DesiredSettled(w: W, k: Key, roll: Roll, c: Course)
    requires Arrived(w, k, c) && w.weather.Calm?
    ensures
      var current := CredsOf(w.secrets[SecretOf(c.spec, k.namespace)]);
      Desired(w, k.namespace, c.spec, Some(current), roll) == (w, Nil, current)
  {
    hide Next, Still, Resolve, World.Valid, Differ;
    if c.spec.accessKey == "" && c.spec.accessKeyRef != NO_REF { ResolveStill(w, c.spec.accessKeyRef, k.namespace); }
    if c.spec.secretKeyRef != NO_REF { ResolveStill(w, c.spec.secretKeyRef, k.namespace); }
  }

  lemma CorrectSettled(w: W, k: Key, c: Course)
    requires Arrived(w, k, c) && w.weather.Calm?
    ensures
      var ak, secret := w.objects[k], w.secrets[SecretOf(c.spec, k.namespace)];
      UpdateAccessKey(w, k, ak, secret, c.digest) == (w, Nil, ak)
  {
    hide Next, Still, World.Valid, DocPreimage, Pinned, Given;
  }

  /** Having arrived, passes without faults settle: they change nothing at all. */
  lemma Settles(w: W, k: Key, roll: Roll, c: Course)
    requires Arrived(w, k, c) && w.weather.Calm? && roll.digest == c.digest
    ensures Pass(w, k, roll) == w
  {
    hide Next, Still, World.Valid, Desired, UpdateAccessKey, Differ, Pinned, Given, Wanted;
    DesiredSettled(w, k, roll, c);
    CorrectSettled(w, k, c);
  }

  lemma StillLeaves(t: Weather<AccessKeySpec>, k: Key, mine: RemoteId)
    requires Still(t)
    ensures AccessKeySecrets.Leaves(t, k, mine)
  {
  }

  lemma AgreedReweather(w: W, k: Key, t: Weather<AccessKeySpec>, mine: RemoteId)
    requires AccessKeySecrets.Agreed(w, k, mine)
    ensures AccessKeySecrets.Agreed(w.(weather := t), k, mine)
  {
    hide World.Valid;
    ValidReweather(w, t);
    if k in w.objects { AccessKeySecrets.FitReweather(w, k, w.objects[k], t, mine); }
  }

  lemma ArrivedMatches(v: W, k: Key, c: Course)
    requires Arrived(v, k, c) && AccessKeySecrets.Agreed(v, k, Own(c))
    ensures Own(c) in v.minio.accounts
    ensures
      var here := SecretOf(c.spec, k.namespace);
      v.minio.accounts[Own(c)].secretKey == CredsOf(v.secrets[here]).secretKey
  {
    hide World.Valid, Still, Differ, Pinned, Given;
  }

  /** On arrival the server also has the secret key of the secret, if it agreed with it at the start. */
  lemma ArrivesInAgreement(w: W, k: Key, turns: seq<KeyTurn>, roll: Roll, c: Course)
    requires Leads(w.(weather := Calm), k, c) && c.present && Lucky(roll) && roll.digest == c.digest
    requires k in w.objects && w.objects[k].status.Some? && c.former == SecretOf(w.objects[k].status.value, k.namespace)
    requires forall t | t in turns :: t.key == k && Still(t.weather)
    requires AccessKeySecrets.Agreed(w, k, Own(c))
    ensures
      var v, here := Pass(Play(w, turns).(weather := Calm), k, roll), SecretOf(c.spec, k.namespace);
      && Arrived(v, k, c)
      && v.minio.accounts[Own(c)].secretKey == CredsOf(v.secrets[here]).secretKey
  {
    hide Leads, Still, Pass, World.Valid, AccessKeySecrets.Agreed, Wanted, AccessKeySecrets.Leaves;
    Converges(w, k, turns, roll, c);
    forall t | t in turns ensures AccessKeySecrets.Leaves(t.weather, k, Own(c)) { StillLeaves(t.weather, k, Own(c)); }
    AccessKeySecrets.RunAgrees(w, turns, k, Own(c));
    var x := Play(w, turns);
    AgreedReweather(x, k, Calm, Own(c));
    StillLeaves(Calm, k, Own(c)) by { CalmStill(); }
    var v := Pass(x.(weather := Calm), k, roll);
    AccessKeySecrets.PassAgrees(x.(weather := Calm), k, roll, Own(c));
    ArrivedMatches(v, k, c);
  }
}
