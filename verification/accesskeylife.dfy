/** Access keys without faults: how they come to be, what keeps them from it, and where they are stuck. */
module AccessKeyLife {
  import opened Prelude
  import opened Minio
  import opened Kube
  import opened AccessKeys
  import opened AccessKeyRecords
  import opened Calmness
  import opened Credentials
  import opened PolicyHash

  /** Credentials that are found or made up are never empty. */
  lemma DesiredNeverEmpty(w: W, ns: string, spec: AccessKeySpec, current: Option<Creds>, roll: Roll)
    ensures var (_, err, creds) := Desired(w, ns, spec, current, roll);
      err == Nil ==> creds.accessKey != "" && creds.secretKey != ""
  {
    hide Resolve;
  }

  /** Fed back as the current ones, with the references unchanged, desired credentials are the desired ones again. */
  lemma DesiredFixpoint(w: W, ns: string, spec: AccessKeySpec, current: Option<Creds>, roll: Roll, again: Roll)
    requires w.Valid() && w.weather.Calm? && Desired(w, ns, spec, current, roll).1 == Nil
    ensures var creds := Desired(w, ns, spec, current, roll).2;
      Desired(w, ns, spec, Some(creds), again) == (w, Nil, creds)
  {
    hide Next, World.Valid, Kept, Weathered;
    DesiredNeverEmpty(w, ns, spec, current, roll);
  }

  lemma DesiredCalm(w: W, ns: string, spec: AccessKeySpec, current: Option<Creds>, roll: Roll)
    requires w.weather.Calm?
    ensures Desired(w, ns, spec, current, roll).0 == w
  {
    hide Next, Kept, Weathered;
  }

  /** A resource that is to get its access key, in a world without faults. */
  ghost predicate Unborn(w: W, k: Key) {
    && w.Valid() && w.weather.Calm? && k in w.objects
    && w.objects[k].finalizer && !w.objects[k].deleting && w.objects[k].status.None?
  }

  /** A secret of the chosen name is in the way, with migration or without. */
  lemma LeftoverSecretBlocks(w: W, k: Key, roll: Roll)
    requires Unborn(w, k) && SecretOf(w.objects[k].spec, k.namespace) in w.secrets
    ensures Pass(w, k, roll) == w
  {
    hide Next, World.Valid, Desired, Kept, Weathered;
    DesiredCalm(w, k.namespace, w.objects[k].spec, None, roll);
  }

  /** The server has the parent of the account. */
  predicate HasParent(w: W, k: Key, spec: AccessKeySpec) {
    spec.user.ldap != "" || RemoteId(TenantOf(spec, k.namespace), spec.user.builtin) in w.minio.users
  }

  /** The resource and its secret record the access key in use. */
  ghost predicate Born(w: W, v: W, k: Key, creds: Creds)
    requires k in w.objects
  {
    var spec := w.objects[k].spec.(accessKey := creds.accessKey, migrate := false);
    var at := SecretOf(spec, k.namespace);
    && k in v.objects && v.objects[k].spec == spec && v.objects[k].status == Some(spec) && v.objects[k].finalizer
    && !v.objects[k].deleting
    && v.secrets == w.secrets[at := Secret(DataOf(creds), Some(k), w.clock)] && v.objects[k].stamp == w.clock
    && v.objects == w.objects[k := v.objects[k]] && v.clock == w.clock + 2 && v.weather == w.weather && v.Valid()
  }

  /** How the server answers the request for the account. */
  lemma AddCalm(x: W, k: Key, spec: AccessKeySpec, secret: Secret, creds: Creds, digest: Digest)
    requires x.Valid() && x.weather.Calm? && CredsOf(secret) == creds
    ensures
      var (y, err) := CreateAccessKey(x, k, spec, secret, digest);
      var id := RemoteId(TenantOf(spec, k.namespace), creds.accessKey);
      && y.Valid() && y == x.(minio := y.minio)
      && (err == Nil <==> HasParent(x, k, spec) && (id !in x.minio.accounts || spec.migrate))
      && y.minio == (if HasParent(x, k, spec) && id !in x.minio.accounts
          then x.minio.(accounts := x.minio.accounts[id := AccountOf(spec, creds, digest)]) else x.minio)
  {
    hide Next, Ask, Send, World.Valid, Kept, Weathered;
    CalmSend(x,
        AddServiceAccount(RemoteId(TenantOf(spec, k.namespace), creds.accessKey), AccountOf(spec, creds, digest)));
  }

  lemma RecordCalm(w: W, x: W, y: W, k: Key, ak: Resource, secret: Secret, creds: Creds)
    requires Unborn(w, k) && w.objects[k] == ak && CredsOf(secret) == creds
    requires secret == Secret(DataOf(creds), Some(k), w.clock)
    requires x == w.(secrets := w.secrets[SecretOf(ak.spec, k.namespace) := secret], clock := w.clock + 1)
    requires y.Valid() && y == x.(minio := y.minio)
    ensures var v := Update(y, k, Created(ak, secret)).0; Born(w, v, k, creds) && v.minio == y.minio
  {
    hide Next, Update, World.Valid;
    CalmUpdate(y, k, Created(ak, secret));
  }

  lemma StoredValid(w: W, at: Key, data: map<string, string>, k: Key)
    requires w.Valid()
    ensures StoreNewSecret(w, at, data, k).0.Valid()
  {
  }

  /**
   Without faults a create pass whose credentials resolve and whose secret name is free either makes
   the account, with the attributes of the spec, or adopts it where migration is asked for, or leaves
   everything as it was, its secret included.
   */
  lemma CreatesOrLeaves(w: W, k: Key, roll: Roll)
    requires Unborn(w, k) && SecretOf(w.objects[k].spec, k.namespace) !in w.secrets
    requires Desired(w, k.namespace, w.objects[k].spec, None, roll).1 == Nil
    ensures
      var spec, creds, v := w.objects[k].spec, Desired(w, k.namespace, w.objects[k].spec, None, roll).2,
          Pass(w, k, roll);
      var id := RemoteId(TenantOf(spec, k.namespace), creds.accessKey);
      if HasParent(w, k, spec) && id !in w.minio.accounts then
        Born(w, v, k, creds) &&
            v.minio == w.minio.(accounts := w.minio.accounts[id := AccountOf(spec, creds, roll.digest)])
      else if HasParent(w, k, spec) && spec.migrate then
        Born(w, v, k, creds) && v.minio == w.minio
      else
        v == w.(clock := w.clock + 1)
  {
    hide Next, Ask, Send, Update, World.Valid, Desired, CreateSecret, DeleteSecret, Kept, Weathered, CreateAccessKey;
    hide Server.Serve, Born;
    var ak := w.objects[k];
    var at := SecretOf(ak.spec, k.namespace);
    DesiredCalm(w, k.namespace, ak.spec, None, roll);
    var creds := Desired(w, k.namespace, ak.spec, None, roll).2;
    var (x, _, secret) := CreateSecret(w, at, DataOf(creds), k);
    StoredValid(w, at, DataOf(creds), k);
    AddCalm(x, k, ak.spec, secret, creds, roll.digest);
    var (y, err) := CreateAccessKey(x, k, ak.spec, secret, roll.digest);
    if err == Nil {
      RecordCalm(w, x, y, k, ak, secret, creds);
    } else {
      assert w.secrets[at := secret] - {at} == w.secrets;
    }
  }

  /**
   An adopted account keeps the secret key it had, while the record claims the version of the generated
   secret: the two agree exactly if the account had the desired secret key already.
   */
  lemma MigratedAgreesIff(w: W, k: Key, roll: Roll)
    requires Unborn(w, k) && SecretOf(w.objects[k].spec, k.namespace) !in w.secrets
    requires Desired(w, k.namespace, w.objects[k].spec, None, roll).1 == Nil
    requires w.objects[k].spec.migrate && HasParent(w, k, w.objects[k].spec)
    requires
      var creds := Desired(w, k.namespace, w.objects[k].spec, None, roll).2;
      RemoteId(TenantOf(w.objects[k].spec, k.namespace), creds.accessKey) in w.minio.accounts
    ensures
      var creds := Desired(w, k.namespace, w.objects[k].spec, None, roll).2;
      var v, at := Pass(w, k, roll), SecretOf(w.objects[k].spec, k.namespace);
      && k in v.objects && v.objects[k].status.Some? && at in v.secrets && v.objects[k].stamp == v.secrets[at].version
      && var id := RemoteId(TenantOf(v.objects[k].spec, k.namespace), CredsOf(v.secrets[at]).accessKey);
      && id in v.minio.accounts && id in w.minio.accounts
      && (v.minio.accounts[id].secretKey == CredsOf(v.secrets[at]).secretKey <==>
            w.minio.accounts[id].secretKey == creds.secretKey)
  {
    hide World.Valid, Desired, Pass;
    CreatesOrLeaves(w, k, roll);
  }

  /** A pass holds the resource, whose accounts are those given. */
  ghost predicate Live(w: W, k: Key, ak: Resource, accounts: set<RemoteId>) {
    && w.Valid() && w.weather.Calm? && k in w.objects && w.objects[k] == ak
    && ak.finalizer && !ak.deleting && w.minio.accounts.Keys == accounts
  }

  lemma SecretCallsLive(
    w: W, k: Key, ak: Resource, accounts: set<RemoteId>, at: Key, secret: Secret, data: map<string, string>)
    requires Live(w, k, ak, accounts)
    ensures Live(CreateSecret(w, at, data, k).0, k, ak, accounts)
    ensures Live(UpdateSecret(w, at, secret, data).0, k, ak, accounts)
    ensures Live(DeleteSecret(w, at).0, k, ak, accounts)
    ensures DeleteSecret(w, at).1 in {Nil, NotFound} && (at in w.secrets ==> DeleteSecret(w, at).1 == Nil)
  {
    hide Next, Along, Held, Weathered;
  }

  lemma UpdateLive(w: W, k: Key, ak: Resource, p: Resource, accounts: set<RemoteId>)
    requires Live(w, k, ak, accounts) && p.version == ak.version && p.finalizer && !p.deleting
    ensures var (v, err, stored) := Update(w, k, p);
      err == Nil && Live(v, k, stored, accounts) && stored == p.(version := stored.version)
  {
    hide Next, Update, World.Valid;
    CalmUpdate(w, k, p);
  }

  lemma RenameLive(w: W, k: Key, ak: Resource, found: bool, accounts: set<RemoteId>)
    requires Live(w, k, ak, accounts) && ak.status.Some?
    ensures var (v, err, p) := Rename(w, k, ak, found);
      err == Nil && Live(v, k, p, accounts) && p.status.Some? && p.spec == ak.spec
  {
    hide Next, Ask, Update, World.Valid, DeleteSecret, Kept, Weathered;
    var at := SecretOf(ak.status.value, k.namespace);
    SecretCallsLive(w, k, ak, accounts, at, Secret(map[], None, 0), map[]);
    var x := if found then DeleteSecret(w, at).0 else w;
    UpdateLive(x, k, ak, ak.(status := Some(ak.status.value.(secretName := ak.spec.secretName))), accounts);
  }

  lemma CredentialsLive(w: W, k: Key, ak: Resource, roll: Roll, accounts: set<RemoteId>)
    requires Live(w, k, ak, accounts) && ak.status.Some?
    ensures var (v, err, p, secret) := UpdateCredentialsSecret(w, k, ak, roll);
      Live(v, k, p, accounts) && p.status.Some?
  {
    hide Next, Ask, Update, World.Valid, Desired, CreateSecret, UpdateSecret, DeleteSecret, Kept, Weathered;
    var at := SecretOf(ak.status.value, k.namespace);
    DesiredCalm(w, k.namespace, ak.spec, None, roll);
    if ak.spec.secretName != ak.status.value.secretName {
      RenameLive(w, k, ak, at in w.secrets, accounts);
      var (x, err, p) := Rename(w, k, ak, at in w.secrets);
      DesiredCalm(x, k.namespace, p.spec, None, roll);
      var creds := Desired(x, k.namespace, p.spec, None, roll).2;
      SecretCallsLive(x, k, p, accounts, SecretOf(p.spec, k.namespace), Secret(map[], None, 0), DataOf(creds));
    } else if at !in w.secrets {
      var creds := Desired(w, k.namespace, ak.spec, None, roll).2;
      SecretCallsLive(w, k, ak, accounts, SecretOf(ak.spec, k.namespace), Secret(map[], None, 0), DataOf(creds));
    } else {
      var secret := w.secrets[at];
      DesiredCalm(w, k.namespace, ak.spec, Some(CredsOf(secret)), roll);
      var creds := Desired(w, k.namespace, ak.spec, Some(CredsOf(secret)), roll).2;
      SecretCallsLive(w, k, ak, accounts, at, secret, secret.data + DataOf(creds));
    }
  }

  lemma SendLive(w: W, k: Key, id: RemoteId, key: string, a: Attributes, ak: Resource, accounts: set<RemoteId>)
    requires Live(w, k, ak, accounts) && id in w.minio.accounts
    ensures var (v, err) := Send(w, UpdateServiceAccount(id, key, a));
      err == Nil && Live(v, k, ak, accounts) && id in v.minio.accounts
  {
    hide Next, Send, World.Valid;
    CalmSend(w, UpdateServiceAccount(id, key, a));
  }

  lemma CorrectLive(w: W, k: Key, id: RemoteId, ak: Resource, secret: Secret, accounts: set<RemoteId>, digest: Digest)
    requires Live(w, k, ak, accounts) && ak.status.Some? && id in w.minio.accounts
    ensures var (v, err) := Correct(w, id, ak, secret, digest); err == Nil && Live(v, k, ak, accounts)
  {
    hide Send, Live, Differ, Sent;
    var key, recorded, wanted := CredsOf(secret).secretKey, ak.status.value.Attributes(), ak.spec.Attributes();
    SendLive(w, k, id, key, recorded, ak, accounts);
    var q := UpdateServiceAccount(id, key, recorded);
    var x := if Differ(digest, w.minio.accounts[id].attributes, recorded) then Send(w, q).0 else w;
    SendLive(x, k, id, key, Sent(digest, wanted), ak, accounts);
  }

  lemma ForgetLive(w: W, k: Key, ak: Resource, accounts: set<RemoteId>)
    requires Live(w, k, ak, accounts) && ak.status.Some?
    ensures var (v, err, p) := Forget(w, k, ak); err == Nil && Live(v, k, p, accounts)
  {
    hide Next, Ask, Update, World.Valid, DeleteSecret, Kept, Weathered;
    var at := SecretOf(ak.status.value, k.namespace);
    SecretCallsLive(w, k, ak, accounts, at, Secret(map[], None, 0), map[]);
    var x := if at in w.secrets then DeleteSecret(w, at).0 else w;
    UpdateLive(x, k, ak, ak.(status := None), accounts);
  }

  lemma KeyLive(w: W, k: Key, ak: Resource, secret: Secret, accounts: set<RemoteId>, digest: Digest)
    requires Live(w, k, ak, accounts) && ak.status.Some?
    ensures var (v, err, p) := UpdateAccessKey(w, k, ak, secret, digest);
      err == Nil && Live(v, k, p, accounts)
  {
    hide Next, Ask, Update, World.Valid, Correct, Forget, Kept, Weathered;
    UpdateLive(w, k, ak, ak.(spec := ak.spec.(migrate := false)), accounts);
    var (x, _, p) := if ak.spec.migrate then Update(w, k, ak.(spec := ak.spec.(migrate := false))) else (w, Nil, ak);
    var id := RemoteId(TenantOf(p.status.value, k.namespace), CredsOf(secret).accessKey);
    if id in x.minio.accounts {
      CorrectLive(x, k, id, p, secret, accounts, digest);
    } else {
      ForgetLive(x, k, p, accounts);
    }
  }

  /** Without faults a pass over a recorded access key neither makes an account nor leaves the status unset. */
  lemma RecordedStays(w: W, k: Key, roll: Roll)
    requires w.Valid() && w.weather.Calm? && k in w.objects
    requires w.objects[k].finalizer && !w.objects[k].deleting && w.objects[k].status.Some?
    ensures var v := Pass(w, k, roll);
      && v.Valid() && v.weather.Calm? && k in v.objects
      && v.objects[k].finalizer && !v.objects[k].deleting && v.objects[k].status.Some?
      && v.minio.accounts.Keys == w.minio.accounts.Keys
  {
    hide Next, Ask, Update, World.Valid, UpdateCredentialsSecret, UpdateAccessKey;
    var ak, accounts := w.objects[k], w.minio.accounts.Keys;
    CredentialsLive(w, k, ak, roll, accounts);
    var (x, err, p, secret) := UpdateCredentialsSecret(w, k, ak, roll);
    if err == Nil {
      KeyLive(x, k, p, secret, accounts, roll.digest);
      var (y, _, q) := UpdateAccessKey(x, k, p, secret, roll.digest);
      UpdateLive(y, k, q, Recorded(q, secret), accounts);
    }
  }

  /**
   Livelock: an account removed behind the operator's back is never made again, through any number
   of passes without faults and edits.
   */
  lemma {:induction false} LostAccountStaysLost(w: W, k: Key, turns: seq<KeyTurn>, id: RemoteId)
    requires w.Valid() && w.weather.Calm? && k in w.objects
    requires w.objects[k].finalizer && !w.objects[k].deleting && w.objects[k].status.Some?
    requires id !in w.minio.accounts
    requires forall t | t in turns :: t.key == k && t.weather.Calm?
    ensures var v := Play(w, turns);
      k in v.objects && v.objects[k].status.Some? && id !in v.minio.accounts
    decreases |turns|
  {
    hide World.Valid, Pass;
    if turns != [] {
      assert turns[0] in turns;
      assert Begin(w, turns[0]) == w;
      RecordedStays(w, k, turns[0].roll);
      assert id !in Pass(w, k, turns[0].roll).minio.accounts.Keys;
      LostAccountStaysLost(Pass(w, k, turns[0].roll), k, turns[1..], id);
    }
  }
}
