/**
 What the records of access key resources keep in every run, whatever calls fail and whatever users
 edit: a status only on a resource with the finalizer, and never one that asks for migration.
 */
module AccessKeyRecords {
  import opened Prelude
  import opened Minio
  import opened Kube
  import opened AccessKeys
  import opened Credentials
  import opened PolicyHash

  /** The controller takes up a resource in some weather, with some luck. */
  datatype KeyTurn = KeyTurn(key: Key, weather: Weather<AccessKeySpec>, roll: Roll)

  function Begin(w: W, t: KeyTurn): W {
    w.(weather := t.weather)
  }

  function Play(w: W, turns: seq<KeyTurn>): W
    decreases |turns|
  {
    if turns == [] then w else Play(Pass(Begin(w, turns[0]), turns[0].key, turns[0].roll), turns[1..])
  }

  ghost predicate SoundRecord(ak: Resource) {
    ak.status.Some? ==> ak.finalizer && !ak.status.value.migrate
  }

  ghost predicate Sound(w: W) {
    w.Valid() && forall k | k in w.objects :: SoundRecord(w.objects[k])
  }

  lemma ActSound(w: W, a: Act<AccessKeySpec>)
    requires Sound(w)
    ensures Sound(Act1(w, a))
  {
    hide Server.Serve;
    ActDrifts(w, a, Key("", ""));
  }

  lemma {:induction false} SettleSound(w: W, acts: seq<Act<AccessKeySpec>>)
    requires Sound(w)
    ensures Sound(Settle(w, acts))
    decreases |acts|
  {
    hide Act1, Sound;
    if acts != [] {
      ActSound(w, acts[0]);
      SettleSound(Act1(w, acts[0]), acts[1..]);
    }
  }

  lemma NextSound(w: W)
    requires Sound(w)
    ensures Sound(Next(w).0)
  {
    hide Settle, World.Valid;
    if w.weather.Storm? && w.weather.beats != [] {
      ValidReweather(w, Storm(w.weather.beats[1..]));
      SettleSound(w.(weather := Storm(w.weather.beats[1..])), w.weather.beats[0].acts);
    }
  }

  /** A call that is not about resources. */
  lemma OtherCallSound(w: W, v: W)
    requires Sound(w) && v.Valid() && v.objects == Next(w).0.objects
    ensures Sound(v)
  {
    hide Next, World.Valid;
    NextSound(w);
  }

  lemma AskSound(w: W)
    requires Sound(w)
    ensures Sound(Ask(w).0)
  {
    hide Next, Along, Held;
    OtherCallSound(w, Ask(w).0);
  }

  lemma SendSound(w: W, q: Request)
    requires Sound(w)
    ensures Sound(Send(w, q).0)
  {
    hide Next, Along, Held, Server.Serve;
    OtherCallSound(w, Send(w, q).0);
  }

  lemma CreateSecretSound(w: W, at: Key, data: map<string, string>, k: Key)
    requires Sound(w)
    ensures Sound(CreateSecret(w, at, data, k).0)
  {
    hide Next, Along, Held;
    OtherCallSound(w, CreateSecret(w, at, data, k).0);
  }

  lemma UpdateSecretSound(w: W, at: Key, secret: Secret, data: map<string, string>)
    requires Sound(w)
    ensures Sound(UpdateSecret(w, at, secret, data).0)
  {
    hide Next, Along, Held;
    OtherCallSound(w, UpdateSecret(w, at, secret, data).0);
  }

  lemma DeleteSecretSound(w: W, at: Key)
    requires Sound(w)
    ensures Sound(DeleteSecret(w, at).0)
  {
    hide Next, Along, Held;
    OtherCallSound(w, DeleteSecret(w, at).0);
  }

  lemma UpdateSound(w: W, k: Key, p: Resource)
    requires Sound(w) && SoundRecord(p)
    ensures Sound(Update(w, k, p).0)
  {
    hide Next, Along, Held;
    NextSound(w);
    StoreKeeps(Next(w).0, k, p);
  }

  lemma DesiredSound(w: W, ns: string, spec: AccessKeySpec, current: Option<Creds>, roll: Roll)
    requires Sound(w)
    ensures Sound(Desired(w, ns, spec, current, roll).0)
  {
    hide Sound, Ask, Choose;
    forall x: W | Sound(x) ensures Sound(Ask(x).0) { AskSound(x); }
  }

  lemma CreateCredentialsSound(w: W, k: Key, spec: AccessKeySpec, roll: Roll)
    requires Sound(w)
    ensures Sound(CreateCredentialsSecret(w, k, spec, roll).0)
  {
    hide Sound, Desired, CreateSecret;
    DesiredSound(w, k.namespace, spec, None, roll);
    var (w1, err, creds) := Desired(w, k.namespace, spec, None, roll);
    CreateSecretSound(w1, SecretOf(spec, k.namespace), DataOf(creds), k);
  }

  /** The pass holds a resource with the finalizer and a sound record. */
  ghost predicate SoundHand(w: W, ak: Resource) {
    Sound(w) && ak.finalizer && SoundRecord(ak)
  }

  lemma RenameSound(w: W, k: Key, ak: Resource, found: bool)
    requires SoundHand(w, ak) && ak.status.Some?
    ensures var r := Rename(w, k, ak, found);
      SoundHand(r.0, r.2) && r.2.spec == ak.spec
  {
    hide Sound, Ask, DeleteSecret, Next, Along, Held, Weathered, Kept;
    var at := SecretOf(ak.status.value, k.namespace);
    AskSound(w);
    DeleteSecretSound(w, at);
    var w1 := if found then DeleteSecret(w, at).0 else Ask(w).0;
    UpdateSound(w1, k, ak.(status := Some(ak.status.value.(secretName := ak.spec.secretName))));
  }

  lemma UpdateCredentialsSound(w: W, k: Key, ak: Resource, roll: Roll)
    requires SoundHand(w, ak) && ak.status.Some?
    ensures var r := UpdateCredentialsSecret(w, k, ak, roll);
      SoundHand(r.0, r.2) && r.2.spec == ak.spec
  {
    hide Sound, Ask, Desired, CreateCredentialsSecret, UpdateSecret, Rename;
    var w1 := Ask(w).0;
    AskSound(w);
    var at := SecretOf(ak.status.value, k.namespace);
    RenameSound(w1, k, ak, at in w1.secrets);
    CreateCredentialsSound(Rename(w1, k, ak, at in w1.secrets).0, k, ak.spec, roll);
    CreateCredentialsSound(w1, k, ak.spec, roll);
    if at in w1.secrets {
      var secret := w1.secrets[at];
      var (w2, err, desired) := Desired(w1, k.namespace, ak.spec, Some(CredsOf(secret)), roll);
      DesiredSound(w1, k.namespace, ak.spec, Some(CredsOf(secret)), roll);
      UpdateSecretSound(w2, at, secret, secret.data + DataOf(desired));
    }
  }

  lemma CorrectSound(w: W, id: RemoteId, ak: Resource, secret: Secret, digest: Digest)
    requires Sound(w) && ak.status.Some? && id in w.minio.accounts
    ensures Sound(Correct(w, id, ak, secret, digest).0)
  {
    hide Sound, Send, Differ;
    var q := UpdateServiceAccount(id, CredsOf(secret).secretKey, ak.status.value.Attributes());
    SendSound(w, q);
    var w1 := if Differ(digest, w.minio.accounts[id].attributes, ak.status.value.Attributes()) then Send(w, q).0 else w;
    SendSound(w1, UpdateServiceAccount(id, CredsOf(secret).secretKey, Sent(digest, ak.spec.Attributes())));
  }

  lemma ForgetSound(w: W, k: Key, ak: Resource)
    requires SoundHand(w, ak) && ak.status.Some?
    ensures var r := Forget(w, k, ak); SoundHand(r.0, r.2) && r.2.spec == ak.spec
  {
    hide Sound, Ask, DeleteSecret, Next, Along, Held, Weathered, Kept;
    var at := SecretOf(ak.status.value, k.namespace);
    AskSound(w);
    var w1 := Ask(w).0;
    DeleteSecretSound(w1, at);
    var w2 := if at in w1.secrets then DeleteSecret(w1, at).0 else w1;
    UpdateSound(w2, k, ak.(status := None));
  }

  lemma UpdateKeySound(w: W, k: Key, ak: Resource, secret: Secret, digest: Digest)
    requires SoundHand(w, ak) && ak.status.Some?
    ensures var r := UpdateAccessKey(w, k, ak, secret, digest);
      SoundHand(r.0, r.2) && (r.1 == Nil ==> !r.2.spec.migrate)
  {
    hide Sound, Ask, Forget, Correct, Next, Along, Held, Weathered, Kept;
    var p := ak.(spec := ak.spec.(migrate := false));
    UpdateSound(w, k, p);
    var (w1, err, ak1) := if ak.spec.migrate then Update(w, k, p) else (w, Nil, ak);
    if err == Nil {
      AskSound(w1);
      var w2 := Ask(w1).0;
      AskSound(w2);
      var w3 := Ask(w2).0;
      var id := RemoteId(TenantOf(ak1.status.value, k.namespace), CredsOf(secret).accessKey);
      if id in w3.minio.accounts { CorrectSound(w3, id, ak1, secret, digest); } else { ForgetSound(w3, k, ak1); }
    }
  }

  lemma CheckSound(w: W, k: Key, ak: Resource, roll: Roll)
    requires SoundHand(w, ak) && ak.status.Some?
    ensures Sound(Check(w, k, ak, roll))
  {
    hide Sound, Update, UpdateCredentialsSecret, UpdateAccessKey;
    var (w1, err, ak1, secret) := UpdateCredentialsSecret(w, k, ak, roll);
    UpdateCredentialsSound(w, k, ak, roll);
    var (w2, err2, ak2) := UpdateAccessKey(w1, k, ak1, secret, roll.digest);
    UpdateKeySound(w1, k, ak1, secret, roll.digest);
    if err2 == Nil { UpdateSound(w2, k, Recorded(ak2, secret)); }
  }

  lemma CreateSound(w: W, k: Key, ak: Resource, roll: Roll)
    requires SoundHand(w, ak)
    ensures Sound(Create(w, k, ak, roll))
  {
    hide Sound, Ask, Send, Update, CreateCredentialsSecret, DeleteSecret;
    var (w1, err, secret) := CreateCredentialsSecret(w, k, ak.spec, roll);
    CreateCredentialsSound(w, k, ak.spec, roll);
    var w2 := Ask(w1).0;
    AskSound(w1);
    var q := AddServiceAccount(RemoteId(TenantOf(ak.spec, k.namespace), CredsOf(secret).accessKey),
        AccountOf(ak.spec, CredsOf(secret), roll.digest));
    SendSound(w2, q);
    DeleteSecretSound(w2, SecretOf(ak.spec, k.namespace));
    DeleteSecretSound(Send(w2, q).0, SecretOf(ak.spec, k.namespace));
    UpdateSound(Send(w2, q).0, k, Created(ak, secret));
  }

  lemma DeleteKeySound(w: W, k: Key, ak: Resource)
    requires Sound(w)
    ensures Sound(DeleteAccessKey(w, k, ak).0)
  {
    hide Sound, Ask, Send;
    AskSound(w);
    AskSound(Ask(w).0);
    var w1, w2 := Ask(w).0, Ask(Ask(w).0).0;
    if ak.status.Some? && SecretOf(ak.status.value, k.namespace) in w1.secrets {
      var creds := CredsOf(w1.secrets[SecretOf(ak.status.value, k.namespace)]);
      SendSound(w2, DeleteServiceAccount(RemoteId(TenantOf(ak.status.value, k.namespace), creds.accessKey)));
    }
  }

  lemma TeardownSound(w: W, k: Key, ak: Resource)
    requires Sound(w)
    ensures Sound(Teardown(w, k, ak))
  {
    hide Sound, Ask, Send, Next, Along, Held, Weathered, Kept, Store;
    var w1 := DeleteAccessKey(w, k, ak).0;
    DeleteKeySound(w, k, ak);
    hide DeleteAccessKey;
    UpdateSound(w1, k, ak.(status := None));
    var (w2, err, ak2) := Update(w1, k, ak.(status := None));
    UpdateSound(w2, k, ak2.(finalizer := false));
  }

  lemma PassSound(w: W, k: Key, roll: Roll)
    requires Sound(w)
    ensures Sound(Pass(w, k, roll))
  {
    hide Ask, Update, Check, Create, Teardown, World.Valid;
    AskSound(w);
    var v := Ask(w).0;
    if Ask(w).1 == Nil && k in v.objects {
      var ak := v.objects[k];
      TeardownSound(v, k, ak);
      UpdateSound(v, k, ak.(finalizer := true));
      if ak.finalizer {
        if ak.status.Some? { CheckSound(v, k, ak, roll); }
        CreateSound(v, k, ak, roll);
      }
    }
  }

  /** In every run over any resources a status stands under the finalizer and never asks for migration. */
  lemma {:induction false} RecordsSound(w: W, turns: seq<KeyTurn>)
    requires Sound(w)
    ensures Sound(Play(w, turns))
    decreases |turns|
  {
    hide World.Valid, SoundRecord, Pass;
    if turns != [] {
      ValidReweather(w, turns[0].weather);
      PassSound(Begin(w, turns[0]), turns[0].key, turns[0].roll);
      RecordsSound(Pass(Begin(w, turns[0]), turns[0].key, turns[0].roll), turns[1..]);
    }
  }
}
