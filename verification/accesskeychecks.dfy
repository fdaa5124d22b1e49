/** What one pass without faults does over a recorded access key, in closed form. */
module AccessKeyChecks {
  import opened Prelude
  import opened Minio
  import opened Kube
  import opened AccessKeys
  import opened Calmness
  import opened Credentials
  import opened PolicyHash
  import AccessKeyLife

  /** The secret goes by another name in the spec than on record. */
  predicate Renaming(ak: Resource) {
    ak.status.Some? && ak.spec.secretName != ak.status.value.secretName
  }

  /** The world once a secret of the old name has gone. */
  function Bared(w: W, k: Key, ak: Resource): W {
    if Renaming(ak) then w.(secrets := w.secrets - {SecretOf(ak.status.value, k.namespace)}) else w
  }

  /** The credentials of the generated secret, if it is there to stay. */
  function Present(w: W, k: Key, ak: Resource): Option<Creds> {
    var here := SecretOf(ak.spec, k.namespace);
    if !Renaming(ak) && here in w.secrets then Some(CredsOf(w.secrets[here])) else None
  }

  /** The credentials the pass settles on. */
  function Chosen(w: W, k: Key, ak: Resource, roll: Roll): Creds {
    Desired(Bared(w, k, ak), k.namespace, ak.spec, Present(w, k, ak), roll).2
  }

  /** A recorded key whose credentials can be had and whose secret has a place to be. */
  ghost predicate Ready(w: W, k: Key, ak: Resource, roll: Roll) {
    && w.Valid() && w.weather.Calm? && k in w.objects && w.objects[k] == ak
    && ak.finalizer && !ak.deleting && ak.status.Some? && ak.stamp < w.clock
    && Desired(Bared(w, k, ak), k.namespace, ak.spec, Present(w, k, ak), roll).1 == Nil
    && (Present(w, k, ak).None? ==> SecretOf(ak.spec, k.namespace) !in Bared(w, k, ak).secrets)
  }

  /** The account the pass looks after: that of the chosen access key on the recorded tenant. */
  function Account(w: W, k: Key, ak: Resource, roll: Roll): RemoteId
    requires ak.status.Some?
  {
    RemoteId(TenantOf(ak.status.value, k.namespace), Chosen(w, k, ak, roll).accessKey)
  }

  /** The secret in hand has another version than the one on record. */
  predicate Stale(w: W, k: Key, ak: Resource, roll: Roll) {
    Present(w, k, ak) != Some(Chosen(w, k, ak, roll)) || w.secrets[SecretOf(ak.spec, k.namespace)].version != ak.stamp
  }

  /** What becomes of an account: nothing, or it takes over the secret key, with attributes on record or wanted. */
  function Corrected(before: Minio.Account, key: string, ak: Resource, stale: bool, digest: Digest): Minio.Account
    requires ak.status.Some?
  {
    var recorded, wanted := ak.status.value.Attributes(), ak.spec.Attributes();
    if Differ(digest, recorded, wanted) || stale then before.(secretKey := key, attributes := Sent(digest, wanted))
    else if Differ(digest, before.attributes, recorded) then before.(secretKey := key, attributes := recorded)
    else before
  }

  function Amended(w: W, k: Key, ak: Resource, roll: Roll, before: Minio.Account): Minio.Account
    requires ak.status.Some?
  {
    Corrected(before, Chosen(w, k, ak, roll).secretKey, ak, Stale(w, k, ak, roll), roll.digest)
  }

  /** The resource as the pass records it. */
  predicate Settled(ak: Resource, v: Resource) {
    var spec := ak.spec.(migrate := false);
    v.spec == spec && v.status == Some(spec) && v.finalizer && !v.deleting
  }

  /** The pass has looked after the account. */
  ghost predicate Kept(w: W, v: W, k: Key, ak: Resource, roll: Roll)
    requires ak.status.Some?
  {
    var here, id := SecretOf(ak.spec, k.namespace), Account(w, k, ak, roll);
    && id in w.minio.accounts
    && v.minio == w.minio.(accounts := w.minio.accounts[id := Amended(w, k, ak, roll, w.minio.accounts[id])])
    && here in v.secrets && v.secrets == Bared(w, k, ak).secrets[here := v.secrets[here]]
    && CredsOf(v.secrets[here]) == Chosen(w, k, ak, roll)
    && (if Present(w, k, ak) == Some(Chosen(w, k, ak, roll)) then v.secrets[here] == w.secrets[here]
        else v.secrets[here].version >= w.clock)
    && k in v.objects && v.objects[k].stamp == v.secrets[here].version
  }

  /** The pass has found no account, and dropped the secret. */
  ghost predicate Dropped(w: W, v: W, k: Key, ak: Resource, roll: Roll)
    requires ak.status.Some?
  {
    && Account(w, k, ak, roll) !in w.minio.accounts
    && v.minio == w.minio && v.secrets == Bared(w, k, ak).secrets - {SecretOf(ak.spec, k.namespace)}
  }

  lemma ResolveReads(w: W, x: W, ref: SecretKeyRef, ns: string)
    requires w.weather.Calm? && x.weather.Calm? && x.secrets == w.secrets
    ensures Resolve(w, ref, ns).0 == w && Resolve(x, ref, ns).0 == x
    ensures Resolve(x, ref, ns).1 == Resolve(w, ref, ns).1 && Resolve(x, ref, ns).2 == Resolve(w, ref, ns).2
  {
    hide Next, Kube.Kept, Weathered;
  }

  lemma DesiredReads(w: W, x: W, ns: string, spec: AccessKeySpec, current: Option<Creds>, roll: Roll)
    requires w.weather.Calm? && x.weather.Calm? && x.secrets == w.secrets
    ensures Desired(x, ns, spec, current, roll).0 == x
    ensures Desired(x, ns, spec, current, roll).1 == Desired(w, ns, spec, current, roll).1
    ensures Desired(x, ns, spec, current, roll).2 == Desired(w, ns, spec, current, roll).2
  {
    hide Next, Ask, Resolve, Choose, Kube.Kept, Weathered;
    ResolveReads(w, x, spec.accessKeyRef, ns);
    ResolveReads(w, x, spec.secretKeyRef, ns);
  }

  /** The resource under its new secret name. */
  function Renamed(ak: Resource, version: nat): Resource
    requires ak.status.Some?
  {
    ak.(status := Some(ak.status.value.(secretName := ak.spec.secretName)), version := version)
  }

  lemma RenameForm(w: W, k: Key, ak: Resource, roll: Roll)
    requires Ready(w, k, ak, roll) && Renaming(ak)
    ensures
      var (v, err, p) := Rename(w, k, ak, SecretOf(ak.status.value, k.namespace) in w.secrets);
      && err == Nil && p == Renamed(ak, p.version) && v.Valid() && w.clock <= v.clock
      && v == Bared(w, k, ak).(objects := w.objects[k := p], clock := v.clock)
  {
    hide Next, Ask, Update, Desired, Kube.Kept, Weathered;
    var at := SecretOf(ak.status.value, k.namespace);
    var x := if at in w.secrets then DeleteSecret(w, at).0 else w;
    assert w.secrets - {at} == x.secrets;
    CalmUpdate(x, k, Renamed(ak, ak.version));
  }

  /** The secret has been brought about, and nothing else. */
  ghost predicate Secured(w: W, x: W, k: Key, ak: Resource, p: Resource, secret: Secret, roll: Roll) {
    var here, creds := SecretOf(ak.spec, k.namespace), Chosen(w, k, ak, roll);
    && ak.status.Some? && p == Renamed(ak, p.version) && x.Valid() && w.clock <= x.clock
    && x == w.(secrets := Bared(w, k, ak).secrets[here := secret], objects := w.objects[k := p], clock := x.clock)
    && CredsOf(secret) == creds
    && (if Present(w, k, ak) == Some(creds) then secret == w.secrets[here] else secret.version >= w.clock)
  }

  lemma StoreNewForm(x: W, at: Key, data: map<string, string>, k: Key)
    requires x.Valid() && x.weather.Calm? && at !in x.secrets
    ensures var (v, err, secret) := CreateSecret(x, at, data, k);
      && err == Nil && v.Valid() && secret.data == data && secret.version == x.clock
      && v == x.(secrets := x.secrets[at := secret], clock := x.clock + 1)
  {
    hide Next, Kube.Kept, Weathered;
  }

  lemma StoreForm(x: W, at: Key, data: map<string, string>)
    requires x.Valid() && x.weather.Calm? && at in x.secrets && data != x.secrets[at].data
    ensures var (v, err, secret) := UpdateSecret(x, at, x.secrets[at], data);
      && err == Nil && v.Valid() && secret.data == data && secret.version == x.clock
      && v == x.(secrets := x.secrets[at := secret], clock := x.clock + 1)
  {
    hide Next, Kube.Kept, Weathered;
  }

  lemma CredentialsForm(w: W, k: Key, ak: Resource, roll: Roll)
    requires Ready(w, k, ak, roll)
    ensures var (x, err, p, secret) := UpdateCredentialsSecret(w, k, ak, roll);
      err == Nil && Secured(w, x, k, ak, p, secret, roll)
  {
    hide Next, Ask, Update, Desired, Rename, Kube.Kept, Weathered, World.Valid;
    var at, here := SecretOf(ak.status.value, k.namespace), SecretOf(ak.spec, k.namespace);
    var b := Bared(w, k, ak);
    var creds := Chosen(w, k, ak, roll);
    if Renaming(ak) {
      RenameForm(w, k, ak, roll);
      var (x, _, p) := Rename(w, k, ak, at in w.secrets);
      DesiredReads(b, x, k.namespace, ak.spec, None, roll);
      StoreNewForm(x, here, DataOf(creds), k);
    } else {
      DesiredReads(w, w, k.namespace, ak.spec, Present(w, k, ak), roll);
      assert w.objects[k := ak] == w.objects;
      if here in w.secrets {
        assert w.secrets[here := w.secrets[here]] == w.secrets;
        if CredsOf(w.secrets[here]) != creds { StoreForm(w, here, w.secrets[here].data + DataOf(creds)); }
      } else {
        StoreNewForm(w, here, DataOf(creds), k);
      }
    }
  }

  /** The world with another account under `id`. */
  function Rewritten(x: W, id: RemoteId, account: Minio.Account): W {
    x.(minio := x.minio.(accounts := x.minio.accounts[id := account]))
  }

  lemma WriteForm(x: W, id: RemoteId, key: string, a: Attributes)
    requires x.Valid() && x.weather.Calm? && id in x.minio.accounts
    ensures
      var (v, err) := Send(x, UpdateServiceAccount(id, key, a));
      err == Nil && v.Valid() && v == Rewritten(x, id, x.minio.accounts[id].(secretKey := key, attributes := a))
  {
    hide Next, Send, World.Valid;
    CalmSend(x, UpdateServiceAccount(id, key, a));
  }

  lemma RewritesAgree(x: W, id: RemoteId, a: Minio.Account, b: Minio.Account)
    requires id in x.minio.accounts
    ensures Rewritten(x, id, x.minio.accounts[id]) == x && Rewritten(Rewritten(x, id, a), id, b) == Rewritten(x, id, b)
    ensures id in Rewritten(x, id, a).minio.accounts && Rewritten(x, id, a).minio.accounts[id] == a
    ensures Rewritten(x, id, a).weather == x.weather
  {
    assert x.minio.accounts[id := x.minio.accounts[id]] == x.minio.accounts;
  }

  lemma CorrectForm(x: W, id: RemoteId, p: Resource, secret: Secret, digest: Digest)
    requires x.Valid() && x.weather.Calm? && id in x.minio.accounts && p.status.Some?
    ensures
      var (v, err) := Correct(x, id, p, secret, digest);
      var after := Corrected(x.minio.accounts[id], CredsOf(secret).secretKey, p, secret.version != p.stamp, digest);
      err == Nil && v.Valid() && v == Rewritten(x, id, after)
  {
    hide Next, Send, World.Valid, Differ, Sent, CredsOf, Rewritten;
    var key, recorded, wanted := CredsOf(secret).secretKey, p.status.value.Attributes(), p.spec.Attributes();
    var before := x.minio.accounts[id];
    var halfway := before.(secretKey := key, attributes := recorded);
    WriteForm(x, id, key, recorded);
    RewritesAgree(x, id, halfway, halfway.(attributes := Sent(digest, wanted)));
    var y := if Differ(digest, before.attributes, recorded) then Rewritten(x, id, halfway) else x;
    WriteForm(y, id, key, Sent(digest, wanted));
  }

  lemma ForgetForm(x: W, k: Key, p: Resource)
    requires x.Valid() && x.weather.Calm? && k in x.objects && x.objects[k] == p && p.finalizer && p.status.Some?
    requires SecretOf(p.status.value, k.namespace) in x.secrets
    ensures
      var (v, err, q) := Forget(x, k, p);
      && err == Nil && v.Valid() && x.clock <= v.clock && q == p.(status := None, version := q.version)
      && v == x.(secrets := x.secrets - {SecretOf(p.status.value, k.namespace)}, objects := x.objects[k := q],
                 clock := v.clock)
  {
    hide Next, Update, Kube.Kept, Weathered;
    CalmUpdate(DeleteSecret(x, SecretOf(p.status.value, k.namespace)).0, k, p.(status := None));
  }

  /** The spec asks for no migration any more. */
  lemma UnmigratedForm(x: W, k: Key, p: Resource)
    requires x.Valid() && x.weather.Calm? && k in x.objects && x.objects[k] == p && p.finalizer
    ensures
      var (v, err, q) := if p.spec.migrate then Update(x, k, p.(spec := p.spec.(migrate := false))) else (x, Nil, p);
      && err == Nil && v.Valid() && x.clock <= v.clock
      && q == p.(spec := p.spec.(migrate := false), version := q.version)
      && v == x.(objects := x.objects[k := q], clock := v.clock)
  {
    hide Next, Update, World.Valid;
    CalmUpdate(x, k, p.(spec := p.spec.(migrate := false)));
    assert !p.spec.migrate ==> p.spec.(migrate := false) == p.spec;
    assert x.objects[k := p] == x.objects;
  }

  /** What the pass has done before it records the spec. */
  ghost predicate Looked(x: W, y: W, k: Key, p: Resource, q: Resource, secret: Secret, digest: Digest) {
    && p.status.Some? && y.Valid() && y.weather.Calm? && x.clock <= y.clock
    && q == p.(spec := p.spec.(migrate := false), status := q.status, version := q.version)
    && y == x.(minio := y.minio, secrets := y.secrets, objects := x.objects[k := q], clock := y.clock)
    && var id := RemoteId(TenantOf(p.status.value, k.namespace), CredsOf(secret).accessKey);
    if id !in x.minio.accounts then
      y.minio == x.minio && y.secrets == x.secrets - {SecretOf(p.status.value, k.namespace)}
    else
      && y.secrets == x.secrets && id in y.minio.accounts
      && y.minio == x.minio.(accounts := x.minio.accounts[id := y.minio.accounts[id]])
      && y.minio.accounts[id] ==
          Corrected(x.minio.accounts[id], CredsOf(secret).secretKey, p, secret.version != p.stamp, digest)
  }

  lemma UpdateKeyForm(x: W, k: Key, p: Resource, secret: Secret, digest: Digest)
    requires x.Valid() && x.weather.Calm? && k in x.objects && x.objects[k] == p && p.finalizer && p.status.Some?
    requires SecretOf(p.status.value, k.namespace) in x.secrets
    ensures
      var (y, err, q) := UpdateAccessKey(x, k, p, secret, digest);
      err == Nil && Looked(x, y, k, p, q, secret, digest)
  {
    hide Next, Update, World.Valid, Forget, Correct, Differ, Sent, CredsOf, Kube.Kept, Weathered;
    UnmigratedForm(x, k, p);
    var (u, _, q) := if p.spec.migrate then Update(x, k, p.(spec := p.spec.(migrate := false))) else (x, Nil, p);
    var id := RemoteId(TenantOf(p.status.value, k.namespace), CredsOf(secret).accessKey);
    if id in x.minio.accounts { CorrectForm(u, id, q, secret, digest); } else { ForgetForm(u, k, q); }
  }

  /**
   Without faults a pass over a recorded key whose credentials can be had looks after the account of
   the chosen access key on the recorded tenant, if there is one, or else drops the secret; and it
   records the spec in either case.
   */
  lemma PassForm(w: W, k: Key, ak: Resource, roll: Roll)
    requires Ready(w, k, ak, roll)
    ensures
      var v := Pass(w, k, roll);
      && v.Valid() && v.weather.Calm? && w.clock <= v.clock
      && k in v.objects && v.objects == w.objects[k := v.objects[k]] && Settled(ak, v.objects[k])
      && (if Account(w, k, ak, roll) in w.minio.accounts then Kept(w, v, k, ak, roll) else Dropped(w, v, k, ak, roll))
  {
    hide Next, Update, World.Valid, Desired, UpdateCredentialsSecret, UpdateAccessKey, Differ, Sent, CredsOf, Kube.Kept;
    hide Weathered;
    CredentialsForm(w, k, ak, roll);
    var (x, _, p, secret) := UpdateCredentialsSecret(w, k, ak, roll);
    UpdateKeyForm(x, k, p, secret, roll.digest);
    var (y, _, q) := UpdateAccessKey(x, k, p, secret, roll.digest);
    CalmUpdate(y, k, Recorded(q, secret));
    assert Bared(w, k, ak).secrets[SecretOf(ak.spec, k.namespace) := secret] - {SecretOf(ak.spec, k.namespace)}
        == Bared(w, k, ak).secrets - {SecretOf(ak.spec, k.namespace)};
  }

  /**
   After the pass the server has the secret key of the generated secret if the account was rewritten,
   because attributes or the secret version differed, and else exactly if it had that key before.
   */
  lemma AgreesAfterPass(w: W, k: Key, ak: Resource, roll: Roll)
    requires Ready(w, k, ak, roll) && Account(w, k, ak, roll) in w.minio.accounts
    ensures
      var v, id, here := Pass(w, k, roll), Account(w, k, ak, roll), SecretOf(ak.spec, k.namespace);
      var before, recorded := w.minio.accounts[id], ak.status.value.Attributes();
      && id in v.minio.accounts && here in v.secrets
      && (v.minio.accounts[id].secretKey == CredsOf(v.secrets[here]).secretKey <==>
            || Stale(w, k, ak, roll) || Differ(roll.digest, recorded, ak.spec.Attributes())
            || Differ(roll.digest, before.attributes, recorded)
            || before.secretKey == Chosen(w, k, ak, roll).secretKey)
  {
    hide Pass, World.Valid, Differ, Chosen, Stale, Sent;
    PassForm(w, k, ak, roll);
  }
}
