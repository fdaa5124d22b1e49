/**
 The secret version an access key resource records stands for the secret key on the server: as
 long as the recorded version is the live one, the server has the secret key of that secret.
 */
module AccessKeySecrets {
  import opened Prelude
  import opened Minio
  import opened Kube
  import opened AccessKeys
  import opened AccessKeyRecords
  import opened Credentials
  import opened PolicyHash

  /** If the secret under `at` names the account `mine`, and that exists, it has the secret key of the secret. */
  ghost predicate Match(w: W, at: Key, mine: RemoteId)
    requires at in w.secrets
  {
    var creds := CredsOf(w.secrets[at]);
    creds.accessKey == mine.name && mine in w.minio.accounts ==> w.minio.accounts[mine].secretKey == creds.secretKey
  }

  /** If version `stamp` is live, it is that of the secret under `at`, and the server has its secret key. */
  ghost predicate Claim(w: W, stamp: nat, at: Key, mine: RemoteId) {
    && stamp < w.clock
    && forall ref | ref in w.secrets && w.secrets[ref].version == stamp :: ref == at && Match(w, at, mine)
  }

  /** The resource is of the tenant, has never asked for migration, and its record is right. */
  ghost predicate Fit(w: W, k: Key, ak: Resource, mine: RemoteId) {
    && TenantOf(ak.spec, k.namespace) == mine.tenant && !ak.spec.migrate && ak.stamp < w.clock
    && (ak.status.Some? ==>
          && TenantOf(ak.status.value, k.namespace) == mine.tenant
          && Claim(w, ak.stamp, SecretOf(ak.status.value, k.namespace), mine))
  }

  /** No two secrets share a version. */
  ghost predicate Unique(w: W) {
    forall i, j | i in w.secrets && j in w.secrets && w.secrets[i].version == w.secrets[j].version :: i == j
  }

  ghost predicate Agreed(w: W, k: Key, mine: RemoteId) {
    w.Valid() && Unique(w) && (k in w.objects ==> Fit(w, k, w.objects[k], mine))
  }

  /** The request neither makes nor rewrites the account; it may remove it. */
  predicate Spared(q: Request, mine: RemoteId) {
    q.AddServiceAccount? || q.UpdateServiceAccount? ==> q.id != mine
  }

  /**
   Users keep the resource under `k` with its tenant and without migration; nobody else makes or rewrites the
   account.
   */
  predicate Leaving(a: Act<AccessKeySpec>, k: Key, mine: RemoteId) {
    && (a.Apply? && a.key == k ==> TenantOf(a.spec, k.namespace) == mine.tenant && !a.spec.migrate)
    && (a.Admin? ==> Spared(a.request, mine))
  }

  ghost predicate SparedBy(acts: seq<Act<AccessKeySpec>>, mine: RemoteId) {
    forall a | a in acts && a.Admin? :: Spared(a.request, mine)
  }

  ghost predicate LeftBy(acts: seq<Act<AccessKeySpec>>, k: Key, mine: RemoteId) {
    forall a | a in acts :: Leaving(a, k, mine)
  }

  ghost predicate Leaves(t: Weather<AccessKeySpec>, k: Key, mine: RemoteId) {
    t.Storm? ==> forall b | b in t.beats :: LeftBy(b.acts, k, mine)
  }

  /** `v` is what the acts of others make of `w`. */
  ghost predicate Later(w: W, v: W, mine: RemoteId) {
    && w.clock <= v.clock
    && (mine in v.minio.accounts ==>
          mine in w.minio.accounts && v.minio.accounts[mine] == w.minio.accounts[mine])
    && (forall ref | ref in v.secrets ::
          || (ref in w.secrets && v.secrets[ref] == w.secrets[ref])
          || v.secrets[ref].version >= w.clock)
  }

  lemma LaterServe(m: Server, q: Request, mine: RemoteId)
    requires Spared(q, mine)
    ensures var n := m.Serve(q).0;
      mine in n.accounts ==> mine in m.accounts && n.accounts[mine] == m.accounts[mine]
  {
  }

  lemma LaterAct(w: W, a: Act<AccessKeySpec>, mine: RemoteId)
    requires w.Valid() && Unique(w) && (a.Admin? ==> Spared(a.request, mine))
    ensures Later(w, Act1(w, a), mine) && Unique(Act1(w, a)) && Act1(w, a).Valid()
  {
    hide Server.Serve, Spared;
    ActDrifts(w, a, Key("", ""));
    if a.Admin? { LaterServe(w.minio, a.request, mine); }
  }

  lemma LaterTrans(u: W, v: W, w: W, mine: RemoteId)
    requires Later(u, v, mine) && Later(v, w, mine)
    ensures Later(u, w, mine)
  {
  }

  lemma LaterRefl(w: W, mine: RemoteId)
    ensures Later(w, w, mine)
  {
  }

  lemma {:induction false} LaterSettle(w: W, acts: seq<Act<AccessKeySpec>>, mine: RemoteId)
    requires w.Valid() && Unique(w) && SparedBy(acts, mine)
    ensures Later(w, Settle(w, acts), mine) && Unique(Settle(w, acts)) && Settle(w, acts).Valid()
    ensures Settle(w, acts).weather == w.weather
    decreases |acts|
  {
    hide Act1, World.Valid, Unique, Spared, Later;
    SettleDrifts(w, acts, Key("", ""));
    if acts != [] {
      var x := Act1(w, acts[0]);
      assert acts[0] in acts;
      LaterAct(w, acts[0], mine);
      LaterSettle(x, acts[1..], mine);
      LaterTrans(w, x, Settle(w, acts), mine);
    } else {
      LaterRefl(w, mine);
    }
  }

  predicate SpecFit(spec: AccessKeySpec, k: Key, mine: RemoteId) {
    TenantOf(spec, k.namespace) == mine.tenant && !spec.migrate
  }

  lemma ActSpec(w: W, a: Act<AccessKeySpec>, k: Key, mine: RemoteId)
    requires Leaving(a, k, mine)
    ensures Act1(w, a).weather == w.weather
    ensures k in w.objects && SpecFit(w.objects[k].spec, k, mine) && k in Act1(w, a).objects ==>
        SpecFit(Act1(w, a).objects[k].spec, k, mine)
    ensures k !in w.objects && k in Act1(w, a).objects ==> SpecFit(Act1(w, a).objects[k].spec, k, mine)
  {
    hide Server.Serve;
  }

  lemma {:induction false} SettleSpecFit(w: W, acts: seq<Act<AccessKeySpec>>, k: Key, mine: RemoteId)
    requires LeftBy(acts, k, mine)
    ensures k in w.objects && SpecFit(w.objects[k].spec, k, mine) && k in Settle(w, acts).objects ==>
        SpecFit(Settle(w, acts).objects[k].spec, k, mine)
    ensures k !in w.objects && k in Settle(w, acts).objects ==> SpecFit(Settle(w, acts).objects[k].spec, k, mine)
    decreases |acts|
  {
    hide Act1, SpecFit, Leaving;
    if acts != [] {
      assert acts[0] in acts;
      ActSpec(w, acts[0], k, mine);
      SettleSpecFit(Act1(w, acts[0]), acts[1..], k, mine);
    }
  }

  lemma LeavesSpare(acts: seq<Act<AccessKeySpec>>, k: Key, mine: RemoteId)
    requires LeftBy(acts, k, mine)
    ensures SparedBy(acts, mine)
  {
    hide SpecFit, Spared;
  }

  lemma LaterReweather(w: W, x: W, v: W, mine: RemoteId)
    requires x == w.(weather := x.weather) && Later(x, v, mine)
    ensures Later(w, v, mine)
  {
  }

  lemma LaterNext(w: W, k: Key, mine: RemoteId)
    requires w.Valid() && Unique(w) && Leaves(w.weather, k, mine)
    ensures var v := Next(w).0;
      && Later(w, v, mine) && Unique(v) && v.Valid() && Leaves(v.weather, k, mine)
      && (k in w.objects && SpecFit(w.objects[k].spec, k, mine) && k in v.objects ==>
          SpecFit(v.objects[k].spec, k, mine))
      && (k !in w.objects && k in v.objects ==> SpecFit(v.objects[k].spec, k, mine))
  {
    hide Settle, LeftBy, World.Valid, Later, SpecFit, SparedBy;
    LaterRefl(w, mine);
    if w.weather.Storm? && w.weather.beats != [] {
      var beats := w.weather.beats;
      var x := w.(weather := Storm(beats[1..]));
      assert beats[0] in beats;
      ValidReweather(w, x.weather);
      assert SparedBy(beats[0].acts, mine) by { LeavesSpare(beats[0].acts, k, mine); }
      LaterSettle(x, beats[0].acts, mine);
      SettleSpecFit(x, beats[0].acts, k, mine);
      assert Later(w, Next(w).0, mine) by { LaterReweather(w, x, Next(w).0, mine); }
    }
  }

  lemma ClaimLater(w: W, v: W, stamp: nat, at: Key, mine: RemoteId)
    requires Claim(w, stamp, at, mine) && Later(w, v, mine)
    ensures Claim(v, stamp, at, mine)
  {
  }

  lemma FitLater(w: W, v: W, k: Key, ak: Resource, mine: RemoteId)
    requires Fit(w, k, ak, mine) && Later(w, v, mine)
    ensures Fit(v, k, ak, mine)
  {
    hide Claim;
    if ak.status.Some? { ClaimLater(w, v, ak.stamp, SecretOf(ak.status.value, k.namespace), mine); }
  }

  /** The pass holds `ak`; what it and the store say is right. */
  ghost predicate InHand(w: W, k: Key, ak: Resource, mine: RemoteId) {
    Agreed(w, k, mine) && Held(w, k, ak) && Fit(w, k, ak, mine) && Leaves(w.weather, k, mine)
  }

  lemma ValidClock(w: W)
    requires w.Valid()
    ensures 0 < w.clock
  {
  }

  lemma NextAgrees(w: W, k: Key, mine: RemoteId)
    requires Agreed(w, k, mine) && Leaves(w.weather, k, mine)
    ensures Agreed(Next(w).0, k, mine) && Leaves(Next(w).0.weather, k, mine)
  {
    hide Next, World.Valid, Leaves, Along, Weathered, Claim, Held, Unique, Later, TenantOf;
    var v := Next(w).0;
    LaterNext(w, k, mine);
    NextAlways(w);
    NextDrifts(w, k);
    if k in v.objects {
      if k in w.objects { FitLater(w, v, k, w.objects[k], mine); }
      ValidClock(v);
    }
  }

  lemma NextInHand(w: W, k: Key, ak: Resource, mine: RemoteId)
    requires InHand(w, k, ak, mine)
    ensures InHand(Next(w).0, k, ak, mine) && Later(w, Next(w).0, mine)
  {
    hide Next, World.Valid, Held, Leaves, Along, Weathered, Fit, Unique, Later;
    LaterNext(w, k, mine);
    NextAlways(w);
    FitLater(w, Next(w).0, k, ak, mine);
    NextAgrees(w, k, mine);
  }

  /** A secret version stands for the same data of the same secret for ever. */
  ghost predicate Issued(w: W, at: Key, secret: Secret) {
    secret.version < w.clock && forall ref | ref in w.secrets && w.secrets[ref].version == secret.version ::
        ref == at && w.secrets[ref].data == secret.data
  }

  /** A secret version that is not live never will be. */
  ghost predicate Spent(w: W, stamp: nat) {
    stamp < w.clock && forall ref | ref in w.secrets :: w.secrets[ref].version != stamp
  }

  lemma IssuedLater(w: W, v: W, at: Key, secret: Secret, mine: RemoteId)
    requires Issued(w, at, secret) && Later(w, v, mine)
    ensures Issued(v, at, secret)
  {
  }

  lemma SpentLater(w: W, v: W, stamp: nat, mine: RemoteId)
    requires Spent(w, stamp) && Later(w, v, mine)
    ensures Spent(v, stamp)
  {
  }

  /** Version `stamp` can only be live in the secret under `at`; when that is gone, it is spent. */
  lemma GoneSpends(w: W, stamp: nat, at: Key, mine: RemoteId)
    requires Claim(w, stamp, at, mine) && (at in w.secrets ==> w.secrets[at].version != stamp)
    ensures Spent(w, stamp)
  {
  }

  lemma LiveIssued(w: W, at: Key)
    requires w.Valid() && Unique(w) && at in w.secrets
    ensures Issued(w, at, w.secrets[at])
  {
  }

  /** The secret in hand is the one on record, or the version on record is no longer live. */
  ghost predicate Tied(w: W, ak: Resource, at: Key, secret: Secret) {
    Issued(w, at, secret) && (secret.version == ak.stamp || Spent(w, ak.stamp))
  }

  lemma TiedLater(w: W, v: W, ak: Resource, at: Key, secret: Secret, mine: RemoteId)
    requires Tied(w, ak, at, secret) && Later(w, v, mine)
    ensures Tied(v, ak, at, secret)
  {
    hide Issued, Spent, Later;
    IssuedLater(w, v, at, secret, mine);
    if Spent(w, ak.stamp) { SpentLater(w, v, ak.stamp, mine); }
  }

  lemma AskInHand(w: W, k: Key, ak: Resource, mine: RemoteId)
    requires InHand(w, k, ak, mine)
    ensures InHand(Ask(w).0, k, ak, mine) && Later(w, Ask(w).0, mine)
  {
    hide Next, InHand, Later, Kept, Weathered;
    NextInHand(w, k, ak, mine);
  }

  lemma LaterClock(w: W, v: W, mine: RemoteId)
    requires Later(w, v, mine)
    ensures w.clock <= v.clock
  {
  }

  /** A call that changes secrets, with fresh versions only. */
  lemma SecretsInHand(w: W, v: W, x: W, k: Key, ak: Resource, mine: RemoteId)
    requires InHand(v, k, ak, mine) && Later(w, v, mine)
    requires x == v.(secrets := x.secrets, clock := x.clock) && Later(v, x, mine) && Unique(x) && x.Valid()
    ensures InHand(x, k, ak, mine) && Later(w, x, mine)
  {
    hide World.Valid, Unique, Later, Leaves;
    FitLater(v, x, k, ak, mine);
    if k in v.objects { FitLater(v, x, k, v.objects[k], mine); }
    LaterTrans(w, v, x, mine);
    assert v.clock <= x.clock by { assert Later(v, x, mine); LaterClock(v, x, mine); }
  }

  lemma HandValid(w: W, k: Key, ak: Resource, mine: RemoteId)
    requires InHand(w, k, ak, mine)
    ensures w.Valid() && Unique(w) && Agreed(w, k, mine) && Leaves(w.weather, k, mine) && Fit(w, k, ak, mine)
  {
  }

  lemma StoreNewLater(x: W, at: Key, data: map<string, string>, k: Key, mine: RemoteId)
    requires x.Valid() && Unique(x)
    ensures var (v, err, secret) := StoreNewSecret(x, at, data, k);
      && v == x.(secrets := v.secrets, clock := v.clock) && Later(x, v, mine) && Unique(v) && v.Valid()
      && (err == Nil ==> at !in x.secrets && Issued(v, at, secret) && secret.data == data)
  {
  }

  lemma CreateSecretInHand(w: W, k: Key, ak: Resource, at: Key, data: map<string, string>, mine: RemoteId)
    requires InHand(w, k, ak, mine)
    ensures var (v, err, secret) := CreateSecret(w, at, data, k);
      && InHand(v, k, ak, mine) && Later(w, v, mine)
      && (err == Nil ==> Issued(v, at, secret) && secret.data == data)
      && (err == Nil && Claim(w, ak.stamp, at, mine) ==> Spent(v, ak.stamp))
  {
    hide Next, InHand, Later, Kept, Weathered, Claim, Unique;
    var x := Next(w).0;
    NextInHand(w, k, ak, mine);
    HandValid(x, k, ak, mine);
    StoreNewLater(x, at, data, k, mine);
    var (v, _, secret) := StoreNewSecret(x, at, data, k);
    SecretsInHand(w, x, v, k, ak, mine);
    if Claim(w, ak.stamp, at, mine) {
      ClaimLater(w, x, ak.stamp, at, mine);
      if at !in x.secrets {
        GoneSpends(x, ak.stamp, at, mine);
        SpentLater(x, v, ak.stamp, mine);
      }
    }
  }

  lemma StoreSecretSteps(x: W, at: Key, secret: Secret, data: map<string, string>, mine: RemoteId)
    requires x.Valid()
    ensures var (v, err, stored) := StoreSecret(x, at, secret, data);
      && v == x.(secrets := v.secrets, clock := v.clock) && Later(x, v, mine) && v.Valid()
      && (err == Nil ==> stored.version == secret.version || stored.version == x.clock)
  {
  }

  lemma StoreSecretLater(x: W, at: Key, secret: Secret, data: map<string, string>, mine: RemoteId)
    requires x.Valid() && Unique(x)
    ensures var (v, err, stored) := StoreSecret(x, at, secret, data);
      && v == x.(secrets := v.secrets, clock := v.clock) && Later(x, v, mine) && Unique(v) && v.Valid()
      && (err == Nil ==> Issued(v, at, stored) && stored.data == data && at in v.secrets && v.secrets[at] == stored)
      && (err == Nil ==> stored.version == secret.version || stored.version == x.clock)
  {
    hide Later;
    StoreSecretSteps(x, at, secret, data, mine);
  }

  lemma UpdateSecretInHand(
    w: W, k: Key, ak: Resource, at: Key, secret: Secret, data: map<string, string>, mine: RemoteId)
    requires InHand(w, k, ak, mine) && Tied(w, ak, at, secret)
    requires ak.status.Some? && at == SecretOf(ak.status.value, k.namespace)
    ensures var (v, err, stored) := UpdateSecret(w, at, secret, data);
      && InHand(v, k, ak, mine) && Later(w, v, mine)
      && (err == Nil ==> Tied(v, ak, at, stored) && stored.data == data)
  {
    hide Next, InHand, Later, Kept, Weathered, Claim, Unique, Issued, Spent;
    var x := Next(w).0;
    NextInHand(w, k, ak, mine);
    HandValid(x, k, ak, mine);
    TiedLater(w, x, ak, at, secret, mine);
    StoreSecretLater(x, at, secret, data, mine);
    var (v, _, stored) := StoreSecret(x, at, secret, data);
    SecretsInHand(w, x, v, k, ak, mine);
    if Spent(x, ak.stamp) {
      SpentLater(x, v, ak.stamp, mine);
    } else if StoreSecret(x, at, secret, data).1 == Nil && stored.version != secret.version {
      ClaimLater(x, v, ak.stamp, at, mine);
      GoneSpends(v, ak.stamp, at, mine);
    }
  }

  lemma DropLater(x: W, at: Key, mine: RemoteId)
    requires x.Valid() && Unique(x)
    ensures var v := DropStoredSecret(x, at).0;
      v == x.(secrets := v.secrets, clock := v.clock) && Later(x, v, mine) && Unique(v) && v.Valid() && at !in v.secrets
  {
  }

  lemma DeleteSecretInHand(w: W, k: Key, ak: Resource, at: Key, mine: RemoteId)
    requires InHand(w, k, ak, mine)
    ensures var (v, err) := DeleteSecret(w, at);
      && InHand(v, k, ak, mine) && Later(w, v, mine)
      && (err in {Nil, NotFound} && Claim(w, ak.stamp, at, mine) ==> Spent(v, ak.stamp))
  {
    hide Next, InHand, Later, Kept, Weathered, Claim, Unique, Spent;
    var x := Next(w).0;
    NextInHand(w, k, ak, mine);
    HandValid(x, k, ak, mine);
    DropLater(x, at, mine);
    var v := DropStoredSecret(x, at).0;
    SecretsInHand(w, x, v, k, ak, mine);
    if Claim(w, ak.stamp, at, mine) {
      ClaimLater(w, v, ak.stamp, at, mine);
      GoneSpends(v, ak.stamp, at, mine);
    }
  }

  lemma StoreAgrees(w: W, k: Key, p: Resource, mine: RemoteId)
    requires Agreed(w, k, mine) && Fit(w, k, p, mine)
    ensures var v := Store(w, k, p).0;
      Agreed(v, k, mine) && Fit(v, k, Store(w, k, p).2, mine) && Later(w, v, mine)
  {
    hide Along, Held;
    StoreKeeps(w, k, p);
  }

  /** A write of the resource that is right. */
  lemma UpdateAgrees(w: W, k: Key, ak: Resource, p: Resource, mine: RemoteId)
    requires InHand(w, k, ak, mine) && Fit(w, k, p, mine)
    ensures var (v, err, stored) := Update(w, k, p);
      && Agreed(v, k, mine) && Later(w, v, mine)
      && (err == Nil ==> InHand(v, k, stored, mine))
  {
    hide Next, Leaves, Kept, Weathered, Along, Held, Later, Fit, Unique;
    var x := Next(w).0;
    NextInHand(w, k, ak, mine);
    FitLater(w, x, k, p, mine);
    StoreAgrees(x, k, p, mine);
    LaterTrans(w, x, Store(x, k, p).0, mine);
  }

  /** The account, where it exists, has the key. */
  ghost predicate Keyed(w: W, id: RemoteId, key: string) {
    id in w.minio.accounts ==> w.minio.accounts[id].secretKey == key
  }

  lemma SetKeyServes(x: W, k: Key, ak: Resource, at: Key, secret: Secret, attributes: Attributes, mine: RemoteId)
    requires InHand(x, k, ak, mine) && Tied(x, ak, at, secret)
    requires ak.status.Some? && at == SecretOf(ak.status.value, k.namespace)
    ensures
      var id, key := RemoteId(mine.tenant, CredsOf(secret).accessKey), CredsOf(secret).secretKey;
      var v := x.(minio := x.minio.Serve(UpdateServiceAccount(id, key, attributes)).0);
      InHand(v, k, ak, mine) && Tied(v, ak, at, secret) && Keyed(v, id, key)
  {
    hide Leaves, Server.Valid;
    ServeValid(x.minio,
        UpdateServiceAccount(RemoteId(mine.tenant, CredsOf(secret).accessKey), CredsOf(secret).secretKey, attributes));
  }

  /** The server takes over the secret key in hand. */
  lemma SetKeyInHand(w: W, k: Key, ak: Resource, at: Key, secret: Secret, attributes: Attributes, mine: RemoteId)
    requires InHand(w, k, ak, mine) && Tied(w, ak, at, secret)
    requires ak.status.Some? && at == SecretOf(ak.status.value, k.namespace)
    ensures
      var id, key := RemoteId(mine.tenant, CredsOf(secret).accessKey), CredsOf(secret).secretKey;
      var (v, err) := Send(w, UpdateServiceAccount(id, key, attributes));
      && InHand(v, k, ak, mine) && Tied(v, ak, at, secret)
      && (err == Nil ==> Keyed(v, id, key))
  {
    hide Next, InHand, Later, Kept, Weathered, Tied, Server.Serve;
    var x := Next(w).0;
    var id, key := RemoteId(mine.tenant, CredsOf(secret).accessKey), CredsOf(secret).secretKey;
    NextInHand(w, k, ak, mine);
    TiedLater(w, x, ak, at, secret, mine);
    SetKeyServes(x, k, ak, at, secret, attributes, mine);
    var v := x.(minio := x.minio.Serve(UpdateServiceAccount(id, key, attributes)).0);
    assert Send(w, UpdateServiceAccount(id, key, attributes)).0 in {x, v};
  }

  lemma ResolveInHand(w: W, k: Key, ak: Resource, ref: SecretKeyRef, ns: string, mine: RemoteId)
    requires InHand(w, k, ak, mine)
    ensures var v := Resolve(w, ref, ns).0; InHand(v, k, ak, mine) && Later(w, v, mine)
  {
    hide InHand, Later, Ask;
    AskInHand(w, k, ak, mine);
  }

  lemma DesiredInHand(
    w: W, k: Key, ak: Resource, spec: AccessKeySpec, current: Option<Creds>, roll: Roll, mine: RemoteId)
    requires InHand(w, k, ak, mine)
    ensures var v := Desired(w, k.namespace, spec, current, roll).0; InHand(v, k, ak, mine) && Later(w, v, mine)
  {
    hide InHand, Later, Resolve, Choose;
    LaterRefl(w, mine);
    ResolveInHand(w, k, ak, spec.accessKeyRef, k.namespace, mine);
    var x := if spec.accessKey != "" || spec.accessKeyRef == NO_REF then w
        else Resolve(w, spec.accessKeyRef, k.namespace).0;
    ResolveInHand(x, k, ak, spec.secretKeyRef, k.namespace, mine);
    LaterTrans(w, x, Resolve(x, spec.secretKeyRef, k.namespace).0, mine);
  }

  lemma CreateCredentialsInHand(w: W, k: Key, ak: Resource, spec: AccessKeySpec, roll: Roll, mine: RemoteId)
    requires InHand(w, k, ak, mine)
    ensures var (v, err, secret) := CreateCredentialsSecret(w, k, spec, roll); var at := SecretOf(spec, k.namespace);
      && InHand(v, k, ak, mine)
      && (err == Nil ==> Issued(v, at, secret))
      && (err == Nil && (Spent(w, ak.stamp) || Claim(w, ak.stamp, at, mine)) ==> Spent(v, ak.stamp))
  {
    hide InHand, Later, Desired, CreateSecret, Claim, Issued, Spent;
    var (x, err, creds) := Desired(w, k.namespace, spec, None, roll);
    DesiredInHand(w, k, ak, spec, None, roll, mine);
    var at := SecretOf(spec, k.namespace);
    CreateSecretInHand(x, k, ak, at, DataOf(creds), mine);
    var v := CreateSecret(x, at, DataOf(creds), k).0;
    if Spent(w, ak.stamp) {
      SpentLater(w, x, ak.stamp, mine);
      SpentLater(x, v, ak.stamp, mine);
    } else if Claim(w, ak.stamp, at, mine) {
      ClaimLater(w, x, ak.stamp, at, mine);
    }
  }

  lemma FitClaims(w: W, k: Key, ak: Resource, mine: RemoteId)
    requires InHand(w, k, ak, mine) && ak.status.Some?
    ensures Claim(w, ak.stamp, SecretOf(ak.status.value, k.namespace), mine)
    ensures TenantOf(ak.status.value, k.namespace) == mine.tenant
  {
  }

  /** Under another secret name the record is right as long as its version is spent. */
  lemma RenamedFits(w: W, k: Key, ak: Resource, mine: RemoteId)
    requires InHand(w, k, ak, mine) && ak.status.Some? && Spent(w, ak.stamp)
    ensures Fit(w, k, ak.(status := Some(ak.status.value.(secretName := ak.spec.secretName))), mine)
  {
    hide Held, Leaves, Agreed;
  }

  lemma RenameInHand(w: W, k: Key, ak: Resource, found: bool, mine: RemoteId)
    requires InHand(w, k, ak, mine) && ak.status.Some?
    requires !found ==> Spent(w, ak.stamp)
    ensures var (v, err, p) := Rename(w, k, ak, found);
      && Agreed(v, k, mine)
      && (err == Nil ==> InHand(v, k, p, mine) && Spent(v, p.stamp) && p.spec == ak.spec && p.stamp == ak.stamp)
      && (err == Nil ==> p.status.value.secretName == ak.spec.secretName)
  {
    hide InHand, Later, Ask, DeleteSecret, Claim, Spent, Next, Kept, Weathered, Along, Held, Fit, Agreed;
    var at := SecretOf(ak.status.value, k.namespace);
    FitClaims(w, k, ak, mine);
    AskInHand(w, k, ak, mine);
    DeleteSecretInHand(w, k, ak, at, mine);
    var (x, err) := if found then DeleteSecret(w, at) else Ask(w);
    HandValid(x, k, ak, mine);
    if Ignore(err, NotFound) == Nil {
      if !found { SpentLater(w, x, ak.stamp, mine); }
      RenamedFits(x, k, ak, mine);
      var p := ak.(status := Some(ak.status.value.(secretName := ak.spec.secretName)));
      UpdateAgrees(x, k, ak, p, mine);
      SpentLater(x, Update(x, k, p).0, ak.stamp, mine);
    }
  }

  lemma LiveTied(w: W, k: Key, ak: Resource, mine: RemoteId)
    requires InHand(w, k, ak, mine) && ak.status.Some? && SecretOf(ak.status.value, k.namespace) in w.secrets
    ensures var at := SecretOf(ak.status.value, k.namespace); Tied(w, ak, at, w.secrets[at])
  {
    hide Held, Leaves;
  }

  lemma RefreshInHand(w: W, k: Key, ak: Resource, roll: Roll, mine: RemoteId)
    requires InHand(w, k, ak, mine) && ak.status.Some? && SecretOf(ak.status.value, k.namespace) in w.secrets
    ensures var at := SecretOf(ak.status.value, k.namespace);
      var (v, err, secret) := Refresh(w, k, ak, w.secrets[at], roll);
      && Agreed(v, k, mine)
      && (err == Nil ==> InHand(v, k, ak, mine) && Tied(v, ak, at, secret))
  {
    hide InHand, Later, Desired, UpdateSecret, Tied, Agreed;
    var at := SecretOf(ak.status.value, k.namespace);
    var secret := w.secrets[at];
    LiveTied(w, k, ak, mine);
    var (x, err, desired) := Desired(w, k.namespace, ak.spec, Some(CredsOf(secret)), roll);
    DesiredInHand(w, k, ak, ak.spec, Some(CredsOf(secret)), roll, mine);
    TiedLater(w, x, ak, at, secret, mine);
    HandValid(x, k, ak, mine);
    UpdateSecretInHand(x, k, ak, at, secret, secret.data + DataOf(desired), mine);
    HandValid(UpdateSecret(x, at, secret, secret.data + DataOf(desired)).0, k, ak, mine);
  }

  lemma UpdateCredentialsInHand(w: W, k: Key, ak: Resource, roll: Roll, mine: RemoteId)
    requires InHand(w, k, ak, mine) && ak.status.Some?
    ensures var (v, err, p, secret) := UpdateCredentialsSecret(w, k, ak, roll);
      && Agreed(v, k, mine)
      && (err == Nil ==> InHand(v, k, p, mine) && Tied(v, p, SecretOf(p.status.value, k.namespace), secret))
      && (err == Nil ==> p.status.value.secretName == ak.spec.secretName && p.spec == ak.spec)
  {
    hide InHand, Later, Ask, Claim, Spent, Issued, Agreed, Rename, CreateCredentialsSecret, Refresh;
    var at := SecretOf(ak.status.value, k.namespace);
    var x := Ask(w).0;
    AskInHand(w, k, ak, mine);
    HandValid(x, k, ak, mine);
    FitClaims(x, k, ak, mine);
    if ak.spec.secretName != ak.status.value.secretName {
      if at !in x.secrets { GoneSpends(x, ak.stamp, at, mine); }
      RenameInHand(x, k, ak, at in x.secrets, mine);
      var (y, err, p) := Rename(x, k, ak, at in x.secrets);
      if err == Nil {
        CreateCredentialsInHand(y, k, p, p.spec, roll, mine);
        var z := CreateCredentialsSecret(y, k, p.spec, roll).0;
        HandValid(z, k, p, mine);
      }
    } else if at !in x.secrets {
      CreateCredentialsInHand(x, k, ak, ak.spec, roll, mine);
      HandValid(CreateCredentialsSecret(x, k, ak.spec, roll).0, k, ak, mine);
    } else {
      RefreshInHand(x, k, ak, roll, mine);
    }
  }

  /** The version of the secret in hand may be recorded. */
  lemma KeyedClaims(w: W, at: Key, secret: Secret, mine: RemoteId)
    requires Issued(w, at, secret) &&
        Keyed(w, RemoteId(mine.tenant, CredsOf(secret).accessKey), CredsOf(secret).secretKey)
    ensures Claim(w, secret.version, at, mine)
  {
  }

  lemma TiedIssued(w: W, ak: Resource, at: Key, secret: Secret)
    requires Tied(w, ak, at, secret)
    ensures Issued(w, at, secret)
  {
  }

  lemma CorrectInHand(w: W, k: Key, id: RemoteId, ak: Resource, at: Key, secret: Secret, mine: RemoteId, digest: Digest)
    requires InHand(w, k, ak, mine) && Tied(w, ak, at, secret) && ak.status.Some?
    requires at == SecretOf(ak.status.value, k.namespace)
    requires id == RemoteId(mine.tenant, CredsOf(secret).accessKey) && id in w.minio.accounts
    ensures var (v, err) := Correct(w, id, ak, secret, digest);
      && InHand(v, k, ak, mine)
      && (err == Nil ==> Claim(v, secret.version, at, mine))
  {
    hide InHand, Send, Differ, Sent, Tied, Claim, Keyed, Issued;
    var key, recorded, wanted := CredsOf(secret).secretKey, ak.status.value.Attributes(), ak.spec.Attributes();
    FitClaims(w, k, ak, mine);
    TiedIssued(w, ak, at, secret);
    SetKeyInHand(w, k, ak, at, secret, recorded, mine);
    var off := Differ(digest, w.minio.accounts[id].attributes, recorded);
    var (x, err) := if off then Send(w, UpdateServiceAccount(id, key, recorded)) else (w, Nil);
    if err == Nil {
      TiedIssued(x, ak, at, secret);
      if off { KeyedClaims(x, at, secret, mine); }
      SetKeyInHand(x, k, ak, at, secret, Sent(digest, wanted), mine);
      var (y, err) := Send(x, UpdateServiceAccount(id, key, Sent(digest, wanted)));
      if err == Nil {
        TiedIssued(y, ak, at, secret);
        KeyedClaims(y, at, secret, mine);
      }
    }
  }

  lemma ForgottenFits(w: W, k: Key, ak: Resource, mine: RemoteId)
    requires Fit(w, k, ak, mine)
    ensures Fit(w, k, ak.(status := None), mine)
  {
    hide Claim;
  }

  lemma ForgetInHand(w: W, k: Key, ak: Resource, at: Key, secret: Secret, mine: RemoteId)
    requires InHand(w, k, ak, mine) && Issued(w, at, secret) && ak.status.Some?
    requires RemoteId(mine.tenant, CredsOf(secret).accessKey) !in w.minio.accounts
    ensures var (v, err, p) := Forget(w, k, ak);
      && Agreed(v, k, mine)
      && (err == Nil ==> InHand(v, k, p, mine) && p.spec == ak.spec && Claim(v, secret.version, at, mine))
  {
    hide InHand, Later, Ask, DeleteSecret, Claim, Next, Kept, Weathered, Along, Held, Fit, Agreed, Issued;
    var here := SecretOf(ak.status.value, k.namespace);
    AskInHand(w, k, ak, mine);
    var x := Ask(w).0;
    HandValid(x, k, ak, mine);
    LaterRefl(x, mine);
    DeleteSecretInHand(x, k, ak, here, mine);
    var (y, err) := if here in x.secrets then DeleteSecret(x, here) else (x, Nil);
    HandValid(y, k, ak, mine);
    ForgottenFits(y, k, ak, mine);
    UpdateAgrees(y, k, ak, ak.(status := None), mine);
    KeyedClaims(w, at, secret, mine);
    var v := Update(y, k, ak.(status := None)).0;
    LaterTrans(w, x, y, mine);
    LaterTrans(w, y, v, mine);
    ClaimLater(w, v, secret.version, at, mine);
  }

  /** The record that ends a pass is right. */
  lemma RecordedFits(w: W, k: Key, ak: Resource, at: Key, secret: Secret, mine: RemoteId)
    requires Fit(w, k, ak, mine) && at == SecretOf(ak.spec, k.namespace) && Claim(w, secret.version, at, mine)
    ensures Fit(w, k, Recorded(ak, secret), mine)
  {
    hide Match;
  }

  lemma UpdateKeyInHand(w: W, k: Key, ak: Resource, secret: Secret, mine: RemoteId, digest: Digest)
    requires InHand(w, k, ak, mine) && ak.status.Some? && Tied(w, ak, SecretOf(ak.status.value, k.namespace), secret)
    ensures var (v, err, p) := UpdateAccessKey(w, k, ak, secret, digest);
        var at := SecretOf(ak.status.value, k.namespace);
      && Agreed(v, k, mine)
      && (err == Nil ==> InHand(v, k, p, mine) && p.spec == ak.spec && Claim(v, secret.version, at, mine))
  {
    hide InHand, Later, Ask, Claim, Agreed, Tied, Forget, Correct, Update;
    HandValid(w, k, ak, mine);
    assert !ak.spec.migrate;
    var at := SecretOf(ak.status.value, k.namespace);
    AskInHand(w, k, ak, mine);
    var x := Ask(w).0;
    AskInHand(x, k, ak, mine);
    var y := Ask(x).0;
    HandValid(x, k, ak, mine);
    HandValid(y, k, ak, mine);
    FitClaims(y, k, ak, mine);
    TiedLater(w, x, ak, at, secret, mine);
    TiedLater(x, y, ak, at, secret, mine);
    TiedIssued(y, ak, at, secret);
    var id := RemoteId(TenantOf(ak.status.value, k.namespace), CredsOf(secret).accessKey);
    if id in y.minio.accounts {
      CorrectInHand(y, k, id, ak, at, secret, mine, digest);
      HandValid(Correct(y, id, ak, secret, digest).0, k, ak, mine);
    } else {
      ForgetInHand(y, k, ak, at, secret, mine);
    }
  }

  lemma CheckAgrees(w: W, k: Key, ak: Resource, roll: Roll, mine: RemoteId)
    requires InHand(w, k, ak, mine) && ak.status.Some?
    ensures Agreed(Check(w, k, ak, roll), k, mine)
  {
    hide InHand, Claim, Agreed, Tied, UpdateCredentialsSecret, UpdateAccessKey, Update, Fit, Recorded, Later;
    var (x, err, p, secret) := UpdateCredentialsSecret(w, k, ak, roll);
    UpdateCredentialsInHand(w, k, ak, roll, mine);
    if err == Nil {
      var (y, err, q) := UpdateAccessKey(x, k, p, secret, roll.digest);
      UpdateKeyInHand(x, k, p, secret, mine, roll.digest);
      if err == Nil {
        HandValid(y, k, q, mine);
        RecordedFits(y, k, q, SecretOf(q.spec, k.namespace), secret, mine);
        UpdateAgrees(y, k, q, Recorded(q, secret), mine);
      }
    }
  }

  lemma AddKeys(m: Server, q: Request)
    ensures q.AddServiceAccount? && m.Serve(q).1 == Nil ==>
        q.id in m.Serve(q).0.accounts && m.Serve(q).0.accounts[q.id] == q.account
  {
  }

  lemma IssuedServes(x: W, v: W, at: Key, secret: Secret)
    requires Issued(x, at, secret) && v == x.(minio := v.minio)
    ensures Issued(v, at, secret)
  {
  }

  lemma ServeInHand(x: W, k: Key, ak: Resource, q: Request, mine: RemoteId)
    requires InHand(x, k, ak, mine)
    requires q.DeleteServiceAccount? || (q.AddServiceAccount? && ak.status.None?)
    ensures InHand(x.(minio := x.minio.Serve(q).0), k, ak, mine)
  {
    hide Leaves, Server.Valid;
    ServeValid(x.minio, q);
  }

  /** Creating an account for a resource without a record, or deleting one. */
  lemma SendInHand(w: W, k: Key, ak: Resource, q: Request, at: Key, secret: Secret, mine: RemoteId)
    requires InHand(w, k, ak, mine)
    requires q.DeleteServiceAccount? || (q.AddServiceAccount? && ak.status.None? && Issued(w, at, secret))
    ensures var (v, err) := Send(w, q);
      && InHand(v, k, ak, mine)
      && (q.AddServiceAccount? ==> Issued(v, at, secret))
      && (q.AddServiceAccount? && err == Nil ==> Keyed(v, q.id, q.account.secretKey))
  {
    hide Next, InHand, Later, Kept, Weathered, Issued, Server.Serve;
    var x := Next(w).0;
    NextInHand(w, k, ak, mine);
    if q.AddServiceAccount? { IssuedLater(w, x, at, secret, mine); }
    var v := x.(minio := x.minio.Serve(q).0);
    ServeInHand(x, k, ak, q, mine);
    if q.AddServiceAccount? { IssuedServes(x, v, at, secret); }
    assert Send(w, q).0 in {x, v};
    AddKeys(x.minio, q);
  }

  lemma HandSpec(w: W, k: Key, ak: Resource, mine: RemoteId)
    requires InHand(w, k, ak, mine)
    ensures TenantOf(ak.spec, k.namespace) == mine.tenant && !ak.spec.migrate
  {
  }

  lemma CreatedFits(w: W, k: Key, ak: Resource, at: Key, secret: Secret, mine: RemoteId)
    requires Fit(w, k, ak, mine) && at == SecretOf(ak.spec, k.namespace) && Claim(w, secret.version, at, mine)
    ensures Fit(w, k, Created(ak, secret), mine)
  {
    hide Match;
  }

  lemma CreateAgrees(w: W, k: Key, ak: Resource, roll: Roll, mine: RemoteId)
    requires InHand(w, k, ak, mine) && ak.status.None?
    ensures Agreed(Create(w, k, ak, roll), k, mine)
  {
    hide InHand, Claim, Agreed, Issued, CreateCredentialsSecret, DeleteSecret, Ask, Send, Update, Later, Keyed, CredsOf;
    hide Fit;
    var (x, err, secret) := CreateCredentialsSecret(w, k, ak.spec, roll);
    CreateCredentialsInHand(w, k, ak, ak.spec, roll, mine);
    HandValid(x, k, ak, mine);
    if err == Nil {
      var at := SecretOf(ak.spec, k.namespace);
      var y := Ask(x).0;
      AskInHand(x, k, ak, mine);
      IssuedLater(x, y, at, secret, mine);
      DeleteSecretInHand(y, k, ak, at, mine);
      HandValid(DeleteSecret(y, at).0, k, ak, mine);
      assert TenantOf(ak.spec, k.namespace) == mine.tenant && !ak.spec.migrate by { HandSpec(y, k, ak, mine); }
      var q := AddServiceAccount(RemoteId(TenantOf(ak.spec, k.namespace), CredsOf(secret).accessKey),
          AccountOf(ak.spec, CredsOf(secret), roll.digest));
      SendInHand(y, k, ak, q, at, secret, mine);
      var z := Send(y, q).0;
      HandValid(z, k, ak, mine);
      DeleteSecretInHand(z, k, ak, at, mine);
      HandValid(DeleteSecret(z, at).0, k, ak, mine);
      if Send(y, q).1 == Nil {
        KeyedClaims(z, at, secret, mine);
        CreatedFits(z, k, ak, at, secret, mine);
        UpdateAgrees(z, k, ak, Created(ak, secret), mine);
      }
    }
  }

  lemma UnguardedFits(w: W, k: Key, ak: Resource, mine: RemoteId)
    requires Fit(w, k, ak, mine)
    ensures forall f :: Fit(w, k, ak.(finalizer := f), mine)
  {
    hide Claim;
  }

  lemma DeleteKeyInHand(w: W, k: Key, ak: Resource, mine: RemoteId)
    requires InHand(w, k, ak, mine)
    ensures InHand(DeleteAccessKey(w, k, ak).0, k, ak, mine)
  {
    hide InHand, Ask, Send, Later;
    var x := Ask(w).0;
    AskInHand(w, k, ak, mine);
    var y := Ask(x).0;
    AskInHand(x, k, ak, mine);
    if ak.status.Some? && SecretOf(ak.status.value, k.namespace) in x.secrets {
      var secret := x.secrets[SecretOf(ak.status.value, k.namespace)];
      var q := DeleteServiceAccount(RemoteId(TenantOf(ak.status.value, k.namespace), CredsOf(secret).accessKey));
      SendInHand(y, k, ak, q, k, secret, mine);
    }
  }

  lemma TeardownAgrees(w: W, k: Key, ak: Resource, mine: RemoteId)
    requires InHand(w, k, ak, mine)
    ensures Agreed(Teardown(w, k, ak), k, mine)
  {
    hide InHand, Agreed, DeleteAccessKey, Update, Fit, Later;
    var x := DeleteAccessKey(w, k, ak).0;
    DeleteKeyInHand(w, k, ak, mine);
    HandValid(x, k, ak, mine);
    ForgottenFits(x, k, ak, mine);
    UpdateAgrees(x, k, ak, ak.(status := None), mine);
    var (y, err, p) := Update(x, k, ak.(status := None));
    if err == Nil {
      HandValid(y, k, p, mine);
      UnguardedFits(y, k, p, mine);
      UpdateAgrees(y, k, p, p.(finalizer := false), mine);
    }
  }

  lemma PassAgrees(w: W, k: Key, roll: Roll, mine: RemoteId)
    requires Agreed(w, k, mine) && Leaves(w.weather, k, mine)
    ensures Agreed(Pass(w, k, roll), k, mine)
  {
    hide Next, Update, Fit, Leaves, Check, Create, Teardown, World.Valid, Along, Weathered, Held, Unique, Later;
    var v := Ask(w).0;
    NextAgrees(w, k, mine);
    if Ask(w).1 == Nil && k in v.objects {
      var ak := v.objects[k];
      GetBegins(w, k);
      assert InHand(v, k, ak, mine);
      TeardownAgrees(v, k, ak, mine);
      UnguardedFits(v, k, ak, mine);
      UpdateAgrees(v, k, ak, ak.(finalizer := true), mine);
      if ak.status.Some? { CheckAgrees(v, k, ak, roll, mine); } else { CreateAgrees(v, k, ak, roll, mine); }
    }
  }

  lemma FitReweather(w: W, k: Key, ak: Resource, t: Weather<AccessKeySpec>, mine: RemoteId)
    requires Fit(w, k, ak, mine)
    ensures Fit(w.(weather := t), k, ak, mine)
  {
  }

  lemma {:induction false} RunAgrees(w: W, turns: seq<KeyTurn>, k: Key, mine: RemoteId)
    requires Agreed(w, k, mine)
    requires forall t | t in turns :: t.key == k && Leaves(t.weather, k, mine)
    ensures Agreed(Play(w, turns), k, mine)
    decreases |turns|
  {
    hide World.Valid, Pass, Leaves, Fit;
    if turns != [] {
      var u := Begin(w, turns[0]);
      assert turns[0] in turns;
      ValidReweather(w, turns[0].weather);
      assert Unique(u);
      if k in w.objects { FitReweather(w, k, w.objects[k], turns[0].weather, mine); }
      PassAgrees(u, k, turns[0].roll, mine);
      RunAgrees(Pass(u, k, turns[0].roll), turns[1..], k, mine);
    }
  }

  /**
   In every run over an access key resource that is never migrated and keeps its tenant, with faults,
   with edits of the spec and of any secret, as long as nobody else sets secret keys on that tenant:
   whenever the recorded secret version is the live one, the server has the secret key of that secret.
   */
  lemma StampMeansAgreement(w: W, turns: seq<KeyTurn>, k: Key, mine: RemoteId)
    requires w.Valid() && Unique(w)
    requires k in w.objects ==>
        SpecFit(w.objects[k].spec, k, mine) && w.objects[k].status.None? && w.objects[k].stamp < w.clock
    requires forall t | t in turns :: t.key == k && Leaves(t.weather, k, mine)
    ensures
      var v := Play(w, turns);
      k in v.objects && v.objects[k].status.Some? ==>
        var at := SecretOf(v.objects[k].status.value, k.namespace);
        at in v.secrets && v.secrets[at].version == v.objects[k].stamp ==>
            Match(v, at, mine)
  {
    hide World.Valid, Unique, Match, Pass, Leaves;
    RunAgrees(w, turns, k, mine);
  }
}
