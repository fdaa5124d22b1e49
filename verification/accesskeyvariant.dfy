/**
 What would end the livelock of lost access keys: a pass that stops once it has cleared the status,
 instead of setting the status again.
 */
module AccessKeyVariant {
  import opened Prelude
  import opened Minio
  import opened Kube
  import opened AccessKeys
  import opened AccessKeyConvergence
  import opened Calmness
  import opened Credentials
  import opened PolicyHash
  import AccessKeyLife

  function CheckReturning(w: W, k: Key, ak: Resource, roll: Roll): W
    requires ak.status.Some?
  {
    var (w, err, ak, secret) := UpdateCredentialsSecret(w, k, ak, roll);
    if err != Nil then w else
    var (w, err, ak) := UpdateAccessKey(w, k, ak, secret, roll.digest);
    if err != Nil || ak.status.None? then w else
    Update(w, k, Recorded(ak, secret)).0
  }

  /** A pass that differs from the actual one only in that it returns after clearing the status. */
  function PassReturning(w: W, k: Key, roll: Roll): W {
    var (x, err) := Ask(w);
    if err == Nil && k in x.objects && !x.objects[k].deleting && x.objects[k].finalizer && x.objects[k].status.Some?
    then CheckReturning(x, k, x.objects[k], roll)
    else Pass(w, k, roll)
  }

  /** The status is unset and the secret gone. */
  ghost predicate Cleared(w: W, k: Key, c: Course) {
    && AccessKeyLife.Unborn(w, k) && w.objects[k].spec == c.spec
    && SecretOf(c.spec, k.namespace) !in w.secrets && Given(w, c.spec.secretKeyRef, k.namespace).Some?
    && RemoteId(c.tenant, c.accessKey) !in w.minio.accounts
  }

  lemma DroppedValid(w: W, at: Key)
    requires w.Valid() && w.weather.Calm?
    ensures DeleteSecret(w, at).0.Valid()
  {
    hide Next, Along, Held, Weathered;
  }

  lemma ForgetClears(w: W, k: Key, ak: Resource, secret: Secret, c: Course, digest: Digest)
    requires Ready(w, k, ak, secret, c) && !c.present && w.weather.Calm? && !c.spec.migrate
    ensures var (v, err, p) := UpdateAccessKey(w, k, ak, secret, digest);
      err == Nil && p.status.None? && Cleared(v, k, c) && v.minio == w.minio
  {
    hide Next, Ask, Update, World.Valid, Kept, Weathered, Still, Pinned, Store;
    var here := SecretOf(c.spec, k.namespace);
    var x := DeleteSecret(w, here).0;
    assert x.Valid() by { DroppedValid(w, here); }
    CalmUpdate(x, k, ak.(status := None));
  }

  lemma RenameSparesServer(w: W, k: Key, ak: Resource, found: bool)
    requires w.weather.Calm? && ak.status.Some?
    ensures var r := Rename(w, k, ak, found); r.0.minio == w.minio && r.0.weather.Calm? && r.2.spec == ak.spec
  {
    hide Next, Kept, Weathered, Along, Held, Written;
  }

  lemma SecretsSpareServer(w: W, at: Key, secret: Secret, data: map<string, string>, k: Key)
    requires w.weather.Calm?
    ensures CreateSecret(w, at, data, k).0.minio == w.minio && UpdateSecret(w, at, secret, data).0.minio == w.minio
  {
    hide Next, Kept, Weathered;
  }

  /** Looking after the secret is no business of the server's. */
  lemma CredentialsSpareServer(w: W, k: Key, ak: Resource, roll: Roll)
    requires w.weather.Calm? && ak.status.Some?
    ensures UpdateCredentialsSecret(w, k, ak, roll).0.minio == w.minio
  {
    hide Next, Ask, Desired, CreateSecret, UpdateSecret, Rename, Kept, Weathered;
    var at := SecretOf(ak.status.value, k.namespace);
    if ak.spec.secretName != ak.status.value.secretName {
      var (x, _, p) := Rename(w, k, ak, at in w.secrets);
      RenameSparesServer(w, k, ak, at in w.secrets);
      AccessKeyLife.DesiredCalm(x, k.namespace, p.spec, None, roll);
      SecretsSpareServer(x, SecretOf(p.spec, k.namespace),
          Secret(map[], None, 0), DataOf(Desired(x, k.namespace, p.spec, None, roll).2), k);
    } else {
      var current := if at in w.secrets then Some(CredsOf(w.secrets[at])) else None;
      AccessKeyLife.DesiredCalm(w, k.namespace, ak.spec, current, roll);
      var creds := Desired(w, k.namespace, ak.spec, current, roll).2;
      SecretsSpareServer(w, at, Secret(map[], None, 0), DataOf(creds), k);
      if at in w.secrets { SecretsSpareServer(w, at, w.secrets[at], w.secrets[at].data + DataOf(creds), k); }
    }
  }

  lemma ReturningClears(w: W, k: Key, roll: Roll, c: Course)
    requires Leads(w, k, c) && !c.present && w.weather.Calm? && Lucky(roll)
    ensures Cleared(PassReturning(w, k, roll), k, c)
    ensures PassReturning(w, k, roll).minio == w.minio
  {
    hide Next, Ask, Still, World.Valid, Kept, Weathered, OnCourse, UpdateCredentialsSecret, UpdateAccessKey, Holds;
    hide Cleared, Lucky;
    var ak := w.objects[k];
    UpdateCredentialsLeads(w, k, ak, roll, c);
    var (x, err, p, secret) := UpdateCredentialsSecret(w, k, ak, roll);
    ForgetClears(x, k, p, secret, c, roll.digest);
    CredentialsSpareServer(w, k, ak, roll);
  }

  lemma DesiredAgain(w: W, k: Key, roll: Roll, c: Course)
    requires Cleared(w, k, c) && Lucky(roll) && c.spec.accessKey == c.accessKey != "" && !c.spec.migrate
    ensures var (v, err, creds) := Desired(w, k.namespace, c.spec, None, roll);
      err == Nil && creds.accessKey == c.accessKey
  {
    hide Next, Still, Resolve, World.Valid;
    CalmStill();
    if c.spec.secretKeyRef != NO_REF { ResolveStill(w, c.spec.secretKeyRef, k.namespace); }
  }

  /** With the variant a lost access key is back after two passes without faults. */
  lemma VariantRecovers(w: W, k: Key, first: Roll, second: Roll, c: Course)
    requires Leads(w, k, c) && !c.present && w.weather.Calm? && Lucky(first) && Lucky(second)
    requires c.spec.accessKey == c.accessKey && AccessKeyLife.HasParent(w, k, c.spec)
    ensures var v := Pass(PassReturning(w, k, first), k, second);
      && k in v.objects && v.objects[k].status == Some(c.spec)
      && RemoteId(c.tenant, c.accessKey) in v.minio.accounts
      && v.minio.accounts[RemoteId(c.tenant, c.accessKey)].attributes == Sent(second.digest, c.spec.Attributes())
  {
    hide Pass, PassReturning, Still, World.Valid, Pinned, Given, Desired, Lucky;
    ReturningClears(w, k, first, c);
    var x := PassReturning(w, k, first);
    DesiredAgain(x, k, second, c);
    AccessKeyLife.CreatesOrLeaves(x, k, second);
    assert c.spec.(accessKey := c.accessKey, migrate := false) == c.spec;
  }
}
