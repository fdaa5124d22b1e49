/** The teardown of access keys, which finds the key to delete in the generated secret. */
module AccessKeyTeardown {
  import opened Prelude
  import opened Minio
  import opened Kube
  import opened AccessKeys
  import opened AccessKeyAllotments
  import opened AccessKeyRecords
  import opened AccessKeySecrets
  import opened Calmness
  import opened Credentials
  import opened PolicyHash

  /** The account exists only while its resource has it on record. */
  predicate Claimed(w: W, p: Plan) {
    p.mine in w.minio.accounts ==> p.key in w.objects && w.objects[p.key].status.Some?
  }

  /** The access key is pinned in the spec and in the secrets; records are sound; the account is claimed. */
  ghost predicate Steady(w: W, p: Plan) {
    Allotted(w, p) && p.pinned && Sound(w) && Claimed(w, p)
  }

  ghost predicate Moving(w: W, p: Plan) {
    Steady(w, p) && Keeps(w.weather, p)
  }

  predicate Gone(w: W, p: Plan) {
    p.mine !in w.minio.accounts
  }

  /** Neither does the account come back nor the record go. */
  predicate Calmer(w: W, v: W, p: Plan) {
    && (p.mine in v.minio.accounts ==> p.mine in w.minio.accounts)
    && (p.key in w.objects && w.objects[p.key].status.Some? ==> p.key in v.objects && v.objects[p.key].status.Some?)
  }

  lemma NextCalmer(w: W, p: Plan)
    requires Moving(w, p)
    ensures Moving(Next(w).0, p) && Calmer(w, Next(w).0, p)
  {
    hide Next, World.Valid, SuitsAll, Proper, Unique, Keeps;
    var other := Key(p.key.namespace + "x", p.key.name);
    assert |other.namespace| == |p.key.namespace| + 1;
    LaterRefl(w, p.mine);
    assert Going(w, w, other, p) by { AlongRefl(w, other); }
    NextGoes(w, w, other, p);
    NextSound(w);
    assert Drifted(w, Next(w).0, p.key);
    assert p.key in w.objects ==> SoundRecord(w.objects[p.key]);
  }

  lemma AskCalmer(w: W, p: Plan)
    requires Moving(w, p)
    ensures Moving(Ask(w).0, p) && Calmer(w, Ask(w).0, p)
  {
    hide Next, Moving, Kept, Weathered;
    NextCalmer(w, p);
  }

  lemma NothingAdded(m: Server, q: Request, id: RemoteId)
    requires !q.AddServiceAccount?
    ensures id in m.Serve(q).0.accounts ==> id in m.accounts
  {
  }

  lemma SendKeepsObjects(w: W, q: Request)
    ensures Send(w, q).0.objects == Next(w).0.objects
  {
    hide Next, Server.Serve;
  }

  lemma SendCalmer(w: W, q: Request, p: Plan)
    requires Moving(w, p) && !q.AddServiceAccount?
    ensures Moving(Send(w, q).0, p) && Calmer(w, Send(w, q).0, p)
  {
    hide Next, Allotted, Keeps, Sound, Kept, Weathered, Server.Serve;
    NextCalmer(w, p);
    assert Going(w, w, p.key, p);
    SendGoes(w, w, q, p.key, p);
    SendSound(w, q);
    NothingAdded(Next(w).0.minio, q, p.mine);
    SendKeepsObjects(w, q);
  }

  lemma CreateSecretCalmer(w: W, at: Key, data: map<string, string>, p: Plan)
    requires Moving(w, p) && Proper(at, data, p)
    ensures Moving(CreateSecret(w, at, data, p.key).0, p) && Calmer(w, CreateSecret(w, at, data, p.key).0, p)
  {
    hide Next, Allotted, Keeps, Sound, Kept, Weathered, Proper;
    NextCalmer(w, p);
    assert Going(w, w, p.key, p);
    CreateSecretGoes(w, w, at, data, p.key, p);
    CreateSecretSound(w, at, data, p.key);
  }

  lemma UpdateSecretCalmer(w: W, at: Key, secret: Secret, data: map<string, string>, p: Plan)
    requires Moving(w, p) && Proper(at, data, p)
    ensures Moving(UpdateSecret(w, at, secret, data).0, p) && Calmer(w, UpdateSecret(w, at, secret, data).0, p)
  {
    hide Next, Allotted, Keeps, Sound, Kept, Weathered, Proper;
    NextCalmer(w, p);
    assert Going(w, w, p.key, p);
    UpdateSecretGoes(w, w, at, secret, data, p.key, p);
    UpdateSecretSound(w, at, secret, data);
  }

  lemma DeleteSecretCalmer(w: W, at: Key, p: Plan)
    requires Moving(w, p)
    ensures Moving(DeleteSecret(w, at).0, p) && Calmer(w, DeleteSecret(w, at).0, p)
  {
    hide Next, Allotted, Keeps, Sound, Kept, Weathered;
    NextCalmer(w, p);
    assert Going(w, w, p.key, p);
    DeleteSecretGoes(w, w, at, p.key, p);
    DeleteSecretSound(w, at);
  }

  /** A write of the resource that keeps the record, or comes when the account has gone. */
  lemma UpdateCalmer(w: W, o: Resource, p: Plan)
    requires Moving(w, p) && SuitsAll(o, p.key, p) && SoundRecord(o) && (o.status.None? ==> Gone(w, p))
    ensures var (v, err, stored) := Update(w, p.key, o);
      && Moving(v, p) && (Gone(w, p) ==> Gone(v, p)) && stored == o.(version := stored.version)
  {
    hide Next, Allotted, Keeps, Sound, Suits, Kept, Weathered, Along, Held, Written;
    NextCalmer(w, p);
    assert Going(w, w, p.key, p);
    UpdateGoes(w, w, p.key, o, p);
    UpdateSound(w, p.key, o);
  }

  lemma CalmerTrans(u: W, v: W, w: W, p: Plan)
    requires Calmer(u, v, p) && Calmer(v, w, p)
    ensures Calmer(u, w, p)
  {
  }

  lemma ResolveCalmer(w: W, ref: SecretKeyRef, ns: string, p: Plan)
    requires Moving(w, p)
    ensures Moving(Resolve(w, ref, ns).0, p) && Calmer(w, Resolve(w, ref, ns).0, p)
  {
    hide Moving, Ask, Calmer;
    AskCalmer(w, p);
  }

  lemma PinnedSpec(w: W, spec: AccessKeySpec, p: Plan)
    requires Moving(w, p) && Suits(spec, p.key, p)
    ensures spec.accessKey == p.mine.name != "" && TenantOf(spec, p.key.namespace) == p.mine.tenant && Fair(p)
  {
    hide Proper, Unique, World.Valid;
  }

  lemma CalmerRefl(w: W, p: Plan)
    ensures Calmer(w, w, p)
  {
  }

  lemma DesiredCalmer(w: W, spec: AccessKeySpec, current: Option<Creds>, roll: Roll, p: Plan)
    requires Moving(w, p) && Suits(spec, p.key, p)
    ensures var (v, err, creds) := Desired(w, p.key.namespace, spec, current, roll);
      Moving(v, p) && Calmer(w, v, p) && (err == Nil ==> Fitting(creds, p.key, p))
  {
    hide Moving, Resolve, Calmer, Suits;
    var ns := p.key.namespace;
    assert spec.accessKey == p.mine.name != "" by { PinnedSpec(w, spec, p); }
    CalmerRefl(w, p);
    ResolveCalmer(w, spec.secretKeyRef, ns, p);
  }

  lemma CreatedData(w: W, at: Key, creds: Creds, p: Plan)
    requires Moving(w, p)
    ensures var (_, err, secret) := CreateSecret(w, at, DataOf(creds), p.key); err == Nil ==> CredsOf(secret) == creds
  {
    hide Next, Moving, Kept, Weathered;
  }

  lemma CreateCredentialsCalmer(w: W, spec: AccessKeySpec, roll: Roll, p: Plan)
    requires Moving(w, p) && Suits(spec, p.key, p)
    ensures var (v, err, secret) := CreateCredentialsSecret(w, p.key, spec, roll);
      Moving(v, p) && Calmer(w, v, p) && (err == Nil ==> Fitting(CredsOf(secret), p.key, p))
  {
    hide Moving, Desired, CreateSecret, Calmer, Suits, Fitting, Proper;
    var (x, err, creds) := Desired(w, p.key.namespace, spec, None, roll);
    DesiredCalmer(w, spec, None, roll, p);
    if err == Nil {
      var at := SecretOf(spec, p.key.namespace);
      PinnedSpec(w, spec, p);
      FittingProper(spec, creds, map[], p.key, p);
      CreateSecretCalmer(x, at, DataOf(creds), p);
      CalmerTrans(w, x, CreateSecret(x, at, DataOf(creds), p.key).0, p);
      CreatedData(x, at, creds, p);
    }
  }

  lemma UpdatedData(w: W, at: Key, secret: Secret, creds: Creds, p: Plan)
    requires Moving(w, p)
    ensures var (_, err, stored) := UpdateSecret(w, at, secret, secret.data + DataOf(creds));
      err == Nil ==> CredsOf(stored) == creds
  {
    hide Next, Moving, Kept, Weathered;
  }

  lemma RefreshCalmer(w: W, ak: Resource, roll: Roll, p: Plan)
    requires Moving(w, p) && SuitsAll(ak, p.key, p) && ak.status.Some?
    requires ak.status.value.secretName == ak.spec.secretName && SecretOf(ak.spec, p.key.namespace) in w.secrets
    ensures var (v, err, secret) := Refresh(w, p.key, ak, w.secrets[SecretOf(ak.spec, p.key.namespace)], roll);
      Moving(v, p) && Calmer(w, v, p) && (err == Nil ==> Fitting(CredsOf(secret), p.key, p))
  {
    hide Moving, Desired, UpdateSecret, Calmer, Suits, Proper;
    var at := SecretOf(ak.spec, p.key.namespace);
    var secret := w.secrets[at];
    var (x, err, creds) := Desired(w, p.key.namespace, ak.spec, Some(CredsOf(secret)), roll);
    DesiredCalmer(w, ak.spec, Some(CredsOf(secret)), roll, p);
    if err == Nil {
      PinnedSpec(w, ak.spec, p);
      FittingProper(ak.spec, creds, secret.data, p.key, p);
      UpdateSecretCalmer(x, at, secret, secret.data + DataOf(creds), p);
      CalmerTrans(w, x, UpdateSecret(x, at, secret, secret.data + DataOf(creds)).0, p);
      UpdatedData(x, at, secret, creds, p);
    }
  }

  /** The resource in hand has the finalizer and a sound record in keeping with the plan. */
  ghost predicate Handed(ak: Resource, p: Plan) {
    ak.finalizer && SoundRecord(ak) && SuitsAll(ak, p.key, p)
  }

  lemma RenameCalmer(w: W, ak: Resource, found: bool, p: Plan)
    requires Moving(w, p) && Handed(ak, p) && ak.status.Some?
    ensures var (v, err, q) := Rename(w, p.key, ak, found);
      Moving(v, p) && (err == Nil ==> Handed(q, p)) && q.spec == ak.spec
  {
    hide Moving, Ask, DeleteSecret, Update, Suits, Calmer, Gone;
    var at := SecretOf(ak.status.value, p.key.namespace);
    AskCalmer(w, p);
    DeleteSecretCalmer(w, at, p);
    var x := if found then DeleteSecret(w, at).0 else Ask(w).0;
    RenamedSuits(ak, p.key, p);
    UpdateCalmer(x, ak.(status := Some(ak.status.value.(secretName := ak.spec.secretName))), p);
  }

  lemma UpdateCredentialsCalmer(w: W, ak: Resource, roll: Roll, p: Plan)
    requires Moving(w, p) && Handed(ak, p) && ak.status.Some?
    ensures var (v, err, q, secret) := UpdateCredentialsSecret(w, p.key, ak, roll);
      Moving(v, p) && (err == Nil ==> Handed(q, p) && Fitting(CredsOf(secret), p.key, p))
  {
    hide Moving, Ask, Rename, Refresh, CreateCredentialsSecret, Suits, Fitting, Calmer, SoundRecord;
    var at := SecretOf(ak.status.value, p.key.namespace);
    AskCalmer(w, p);
    var x := Ask(w).0;
    RenameCalmer(x, ak, at in x.secrets, p);
    CreateCredentialsCalmer(Rename(x, p.key, ak, at in x.secrets).0, ak.spec, roll, p);
    CreateCredentialsCalmer(x, ak.spec, roll, p);
    if at in x.secrets && ak.status.value.secretName == ak.spec.secretName { RefreshCalmer(x, ak, roll, p); }
  }

  lemma CorrectCalmer(w: W, id: RemoteId, ak: Resource, secret: Secret, p: Plan, digest: Digest)
    requires Moving(w, p) && ak.status.Some? && id in w.minio.accounts
    ensures Moving(Correct(w, id, ak, secret, digest).0, p)
  {
    hide Moving, Send, Differ, Calmer;
    var q := UpdateServiceAccount(id, CredsOf(secret).secretKey, ak.status.value.Attributes());
    SendCalmer(w, q, p);
    var x := if Differ(digest, w.minio.accounts[id].attributes, ak.status.value.Attributes()) then Send(w, q).0 else w;
    SendCalmer(x, UpdateServiceAccount(id, CredsOf(secret).secretKey, Sent(digest, ak.spec.Attributes())), p);
  }

  lemma ForgetCalmer(w: W, ak: Resource, p: Plan)
    requires Moving(w, p) && Handed(ak, p) && ak.status.Some? && Gone(w, p)
    ensures var (v, err, q) := Forget(w, p.key, ak);
      Moving(v, p) && (err == Nil ==> Handed(q, p) && Gone(v, p))
  {
    hide Moving, Ask, DeleteSecret, Update, Suits;
    var at := SecretOf(ak.status.value, p.key.namespace);
    AskCalmer(w, p);
    var x := Ask(w).0;
    DeleteSecretCalmer(x, at, p);
    UpdateCalmer(if at in x.secrets then DeleteSecret(x, at).0 else x, ak.(status := None), p);
  }

  lemma MovingPinned(w: W, p: Plan)
    requires Moving(w, p)
    ensures p.pinned
  {
  }

  lemma ForgetKeepsSpec(w: W, ak: Resource, p: Plan)
    requires Moving(w, p) && Handed(ak, p) && ak.status.Some?
    ensures Forget(w, p.key, ak).2.spec == ak.spec
  {
    hide Moving, Ask, DeleteSecret, Next, Along, Held, Written;
  }

  lemma UpdateKeyCalmer(w: W, ak: Resource, secret: Secret, p: Plan, digest: Digest)
    requires Moving(w, p) && Handed(ak, p) && ak.status.Some? && Fitting(CredsOf(secret), p.key, p)
    ensures var (v, err, q) := UpdateAccessKey(w, p.key, ak, secret, digest);
      Moving(v, p) && (err == Nil ==> Handed(q, p) && !q.spec.migrate)
  {
    hide Moving, Ask, Update, Correct, Forget, CredsOf, Suits, Calmer;
    var o := ak.(spec := ak.spec.(migrate := false));
    UnmigratedSuits(ak.spec, p.key, p);
    UpdateCalmer(w, o, p);
    var (x, err, ak1) := if ak.spec.migrate then Update(w, p.key, o) else (w, Nil, ak);
    AskCalmer(x, p);
    AskCalmer(Ask(x).0, p);
    var y := Ask(Ask(x).0).0;
    if err == Nil {
      var id := RemoteId(TenantOf(ak1.status.value, p.key.namespace), CredsOf(secret).accessKey);
      PinnedSpec(w, ak1.status.value.(migrate := false), p);
      assert p.pinned by { MovingPinned(w, p); }
      assert id == p.mine;
      if id in y.minio.accounts { CorrectCalmer(y, id, ak1, secret, p, digest); } else {
        ForgetCalmer(y, ak1, p);
        ForgetKeepsSpec(y, ak1, p);
      }
    }
  }

  lemma CheckCalmer(w: W, ak: Resource, roll: Roll, p: Plan)
    requires Moving(w, p) && Handed(ak, p) && ak.status.Some?
    ensures Moving(Check(w, p.key, ak, roll), p)
  {
    hide Moving, Update, UpdateCredentialsSecret, UpdateAccessKey, Suits, Fitting, CredsOf;
    var (x, err, ak1, secret) := UpdateCredentialsSecret(w, p.key, ak, roll);
    UpdateCredentialsCalmer(w, ak, roll, p);
    if err == Nil {
      assert ak1.status.Some?;
      var (y, err, ak2) := UpdateAccessKey(x, p.key, ak1, secret, roll.digest);
      UpdateKeyCalmer(x, ak1, secret, p, roll.digest);
      if err == Nil {
        UnmigratedSuits(ak2.spec, p.key, p);
        UpdateCalmer(y, Recorded(ak2, secret), p);
      }
    }
  }

  /** A pass takes up the deletion, looks for the generated secret on record, and finds none. */
  predicate Blind(u: W, k: Key) {
    var x := Ask(u).0;
    && Ask(u).1 == Nil && k in x.objects && x.objects[k].deleting && x.objects[k].status.Some?
    && SecretOf(x.objects[k].status.value, k.namespace) !in Ask(x).0.secrets
  }

  /** A pass makes the account without having it on record in the end. */
  predicate Strays(u: W, v: W, p: Plan) {
    p.mine !in u.minio.accounts && !Claimed(v, p)
  }

  lemma OwnSecret(w: W, ak: Resource, p: Plan)
    requires Moving(w, p) && SuitsAll(ak, p.key, p) && ak.status.Some?
    requires SecretOf(ak.status.value, p.key.namespace) in w.secrets
    ensures CredsOf(w.secrets[SecretOf(ak.status.value, p.key.namespace)]).accessKey == p.mine.name
  {
    hide Unique, World.Valid, Sound;
  }

  lemma DeletedGone(w: W, p: Plan)
    ensures var (v, err) := Send(w, DeleteServiceAccount(p.mine));
        err == Nil || err == InvalidIAMCredentials ==> Gone(v, p)
  {
    hide Next, Kept, Weathered;
  }

  lemma DeleteKeyCalmer(w: W, ak: Resource, p: Plan)
    requires Moving(w, p) && SuitsAll(ak, p.key, p)
    requires ak.status.Some? ==> SecretOf(ak.status.value, p.key.namespace) in Ask(w).0.secrets
    requires ak.status.None? ==> Gone(w, p)
    ensures var (v, err) := DeleteAccessKey(w, p.key, ak);
      Moving(v, p) && (err == Nil ==> Gone(v, p))
  {
    hide Moving, Ask, Send, Suits, CredsOf;
    if ak.status.Some? {
      var x, y := Ask(w).0, Ask(Ask(w).0).0;
      AskCalmer(w, p);
      AskCalmer(x, p);
      var at := SecretOf(ak.status.value, p.key.namespace);
      PinnedSpec(w, ak.status.value.(migrate := false), p);
      assert CredsOf(x.secrets[at]).accessKey == p.mine.name by { OwnSecret(x, ak, p); }
      SendCalmer(y, DeleteServiceAccount(p.mine), p);
      DeletedGone(y, p);
    }
  }

  lemma TeardownCalmer(w: W, ak: Resource, p: Plan)
    requires Moving(w, p) && SuitsAll(ak, p.key, p) && SoundRecord(ak)
    requires ak.status.Some? ==> SecretOf(ak.status.value, p.key.namespace) in Ask(w).0.secrets
    requires ak.status.None? ==> Gone(w, p)
    ensures Moving(Teardown(w, p.key, ak), p)
  {
    hide Moving, DeleteAccessKey, Ask, Update, Suits;
    DeleteKeyCalmer(w, ak, p);
    var (x, err) := DeleteAccessKey(w, p.key, ak);
    if err == Nil {
      UpdateCalmer(x, ak.(status := None), p);
      var (y, err, q) := Update(x, p.key, ak.(status := None));
      if err == Nil { UpdateCalmer(y, q.(finalizer := false), p); }
    }
  }

  lemma HandOf(w: W, p: Plan)
    requires Moving(w, p) && p.key in w.objects
    ensures var ak := w.objects[p.key];
      && SuitsAll(ak, p.key, p) && SoundRecord(ak) && (ak.status.None? ==> Gone(w, p))
  {
    hide Suits, Proper, Unique, World.Valid;
  }

  lemma MovingSteady(w: W, p: Plan)
    requires Moving(w, p)
    ensures Steady(w, p) && Allotted(w, p) && Sound(w) && p.pinned && Claimed(w, p) && Keeps(w.weather, p)
  {
  }

  lemma UnrecordedGone(u: W, x: W, p: Plan)
    requires Claimed(u, p) && Calmer(u, x, p) && p.key in x.objects && x.objects[p.key].status.None?
    ensures Gone(u, p)
  {
  }

  /** A pass over the resource itself. */
  lemma OwnPassSteady(u: W, roll: Roll, p: Plan)
    requires Moving(u, p) && !Blind(u, p.key) && !Strays(u, Pass(u, p.key, roll), p)
    ensures Steady(Pass(u, p.key, roll), p)
  {
    hide Moving, Ask, Update, Check, Create, Teardown, Suits, Allotted, Sound, Keeps, Calmer;
    MovingSteady(u, p);
    var x := Ask(u).0;
    AskCalmer(u, p);
    MovingSteady(x, p);
    if Ask(u).1 == Nil && p.key in x.objects {
      var ak := x.objects[p.key];
      HandOf(x, p);
      if ak.deleting {
        TeardownCalmer(x, ak, p);
        MovingSteady(Teardown(x, p.key, ak), p);
      } else if !ak.finalizer {
        UpdateCalmer(x, ak.(finalizer := true), p);
        MovingSteady(Update(x, p.key, ak.(finalizer := true)).0, p);
      } else if ak.status.Some? {
        CheckCalmer(x, ak, roll, p);
        MovingSteady(Check(x, p.key, ak, roll), p);
      } else {
        MovingSteady(u, p);
        UnrecordedGone(u, x, p);
        PassGoes(u, p.key, roll, p);
        PassSound(u, p.key, roll);
      }
    }
  }

  lemma HandsSound(w: W, p: Plan)
    requires Moving(w, p)
    ensures p.key in w.objects ==> SoundRecord(w.objects[p.key])
  {
    hide Suits, Allotted, World.Valid;
  }

  /** A pass over another resource. */
  lemma OtherPassSteady(u: W, j: Key, roll: Roll, p: Plan)
    requires Moving(u, p) && j != p.key && Misses(roll, j, p)
    ensures Steady(Pass(u, j, roll), p)
  {
    hide Moving, Pass, Suits, Allotted, Sound, Keeps, Misses;
    MovingSteady(u, p);
    var v := Pass(u, j, roll);
    PassGoes(u, j, roll, p);
    PassSound(u, j, roll);
    assert Drifted(u, v, p.key);
    assert p.key in u.objects ==> SoundRecord(u.objects[p.key]) by { HandsSound(u, p); }
  }

  /** No pass of the run goes blind into the deletion, and none makes the account without recording it. */
  ghost predicate Careful(w: W, turns: seq<KeyTurn>, p: Plan)
    decreases |turns|
  {
    turns == [] ||
    var u := Begin(w, turns[0]);
    var v := Pass(u, turns[0].key, turns[0].roll);
    && (turns[0].key == p.key ==> !Blind(u, p.key) && !Strays(u, v, p))
    && Careful(v, turns[1..], p)
  }

  lemma SteadyReweather(w: W, t: Weather<AccessKeySpec>, p: Plan)
    requires Steady(w, p)
    ensures Steady(w.(weather := t), p)
  {
    hide World.Valid, Unique, Suits, Proper;
    ValidReweather(w, t);
    UniqueReweather(w, t);
  }

  lemma {:induction false} RunSteady(w: W, turns: seq<KeyTurn>, p: Plan)
    requires Steady(w, p) && Careful(w, turns, p)
    requires forall t | t in turns :: Keeps(t.weather, p) && Misses(t.roll, t.key, p)
    ensures Steady(Play(w, turns), p)
    decreases |turns|
  {
    hide Steady, Pass, Keeps, Misses, Blind, Strays;
    if turns != [] {
      var u := Begin(w, turns[0]);
      assert turns[0] in turns;
      SteadyReweather(w, turns[0].weather, p);
      if turns[0].key == p.key { OwnPassSteady(u, turns[0].roll, p); } else {
        OtherPassSteady(u, turns[0].key, turns[0].roll, p);
      }
      RunSteady(Pass(u, turns[0].key, turns[0].roll), turns[1..], p);
    }
  }

  /** Status and secret of the resource name the account. */
  lemma NamesMine(w: W, p: Plan)
    requires Steady(w, p) && p.key in w.objects && w.objects[p.key].status.Some?
    ensures
      var recorded := w.objects[p.key].status.value;
      var at := SecretOf(recorded, p.key.namespace);
      && w.objects[p.key].finalizer
      && (at in w.secrets ==> RemoteId(TenantOf(recorded, p.key.namespace), CredsOf(w.secrets[at]).accessKey) == p.mine)
  {
    hide World.Valid, Unique;
  }

  /**
   Crash-tolerant teardown: in every run over any number of access key resources, with faults, renames,
   regenerations and outside edits that keep tenant and access key, as long as every deletion finds the
   generated secret and no create pass loses its last write: once the status is unset or the resource is
   gone, the account that status and secret named is gone.
   */
  lemma ForgottenMeansGone(w: W, turns: seq<KeyTurn>, p: Plan)
    requires Allotted(w, p) && p.pinned && Sound(w)
    requires p.mine in w.minio.accounts ==> p.key in w.objects && w.objects[p.key].status.Some?
    requires forall t | t in turns :: Keeps(t.weather, p) && Misses(t.roll, t.key, p)
    requires Careful(w, turns, p)
    ensures
      var v := Play(w, turns);
      if p.key in v.objects && v.objects[p.key].status.Some? then
        var recorded := v.objects[p.key].status.value;
        var at := SecretOf(recorded, p.key.namespace);
        && v.objects[p.key].finalizer
        && (at in v.secrets ==>
            RemoteId(TenantOf(recorded, p.key.namespace), CredsOf(v.secrets[at]).accessKey) == p.mine)
      else
        p.mine !in v.minio.accounts
  {
    hide Pass, Keeps, Misses, Blind, Strays, CredsOf, TenantOf;
    RunSteady(w, turns, p);
    var v := Play(w, turns);
    if p.key in v.objects && v.objects[p.key].status.Some? { NamesMine(v, p); }
  }

  lemma Forgets(x: W, k: Key, ak: Resource)
    requires x.Valid() && x.weather.Calm? && k in x.objects && x.objects[k] == ak && ak.deleting && ak.finalizer
    requires ak.status.Some?
    ensures var (y, err, p) := Update(x, k, ak.(status := None));
      err == Nil && Update(y, k, p.(finalizer := false)).0 == x.(objects := x.objects - {k}, clock := x.clock + 1)
  {
    hide Next, Along, Held, Written, Weathered, World.Valid;
  }

  /**
   Without faults the resource goes in one pass, and the account with it exactly if the secret was there to name it.
   */
  lemma DeletesIfSecret(w: W, k: Key, roll: Roll)
    requires w.Valid() && w.weather.Calm? && k in w.objects
    requires w.objects[k].deleting && w.objects[k].finalizer && w.objects[k].status.Some?
    ensures
      var v, recorded := Pass(w, k, roll), w.objects[k].status.value;
      var at := SecretOf(recorded, k.namespace);
      && v.objects == w.objects - {k}
      && v.minio.accounts ==
           if at in w.secrets then w.minio.accounts - {RemoteId(TenantOf(recorded, k.namespace),
               CredsOf(w.secrets[at]).accessKey)}
           else w.minio.accounts
  {
    hide Next, Ask, Send, Update, World.Valid, Kept, Weathered, Store;
    var ak := w.objects[k];
    var at := SecretOf(ak.status.value, k.namespace);
    var q := DeleteServiceAccount(RemoteId(TenantOf(ak.status.value, k.namespace),
        CredsOf(if at in w.secrets then w.secrets[at] else Secret(map[], None, 0)).accessKey));
    CalmSend(w, q);
    var x := DeleteAccessKey(w, k, ak).0;
    hide Server.Serve;
    Forgets(x, k, ak);
  }
}
