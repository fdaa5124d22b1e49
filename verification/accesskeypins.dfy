/**
 Access key pinning: a create puts the access key in use into the spec, and from then on every secret
 a pass over the resource writes carries that key, through any deletions, renames and regenerations,
 whatever calls fail and whatever users put into secrets.
 */
module AccessKeyPins {
  import opened Prelude
  import opened Minio
  import opened Kube
  import opened AccessKeys
  import opened AccessKeyRecords
  import opened Credentials
  import opened PolicyHash
  import AccessKeyLife

  /** The resource whose access key is pinned, and the secrets users write during the pass at hand. */
  datatype Pin = Pin(key: Key, accessKey: string, touched: set<Key>)

  /** The spec gives the access key outright, if it is that of the pinned resource. */
  predicate PinnedSpec(spec: AccessKeySpec, j: Key, p: Pin) {
    j == p.key ==> spec.accessKey == p.accessKey != ""
  }

  ghost predicate Pinned(w: W, p: Pin) {
    w.Valid() && (p.key in w.objects ==> PinnedSpec(w.objects[p.key].spec, p.key, p))
  }

  /** Users keep the access key in the spec. */
  predicate Keeping(a: Act<AccessKeySpec>, p: Pin) {
    a.Apply? ==> PinnedSpec(a.spec, a.key, p)
  }

  predicate Leaving(a: Act<AccessKeySpec>, p: Pin) {
    Keeping(a, p) && (a.PutSecret? ==> a.key in p.touched)
  }

  ghost predicate LeftBy(acts: seq<Act<AccessKeySpec>>, p: Pin) {
    forall a | a in acts :: Leaving(a, p)
  }

  ghost predicate Leaves(t: Weather<AccessKeySpec>, p: Pin) {
    t.Storm? ==> forall b | b in t.beats :: LeftBy(b.acts, p)
  }

  /** Every secret written since `u` carries the access key, but for those users have written. */
  ghost predicate Carry(u: W, w: W, p: Pin) {
    forall at | at in w.secrets && w.secrets[at].version >= u.clock && at !in p.touched ::
      CredsOf(w.secrets[at]).accessKey == p.accessKey
  }

  /** A pass over `j` that began in `u` has come to `w`. */
  ghost predicate Going(u: W, w: W, j: Key, p: Pin) {
    && Pinned(w, p) && Leaves(w.weather, p) && u.clock <= w.clock
    && (j == p.key ==> Carry(u, w, p))
  }

  lemma ActGoes(u: W, w: W, a: Act<AccessKeySpec>, p: Pin)
    requires Pinned(w, p) && u.clock <= w.clock && Leaving(a, p)
    ensures Pinned(Act1(w, a), p) && u.clock <= Act1(w, a).clock
    ensures Carry(u, w, p) ==> Carry(u, Act1(w, a), p)
  {
    hide Server.Serve, CredsOf;
    ActDrifts(w, a, p.key);
  }

  lemma {:induction false} SettleGoes(u: W, w: W, acts: seq<Act<AccessKeySpec>>, p: Pin)
    requires Pinned(w, p) && u.clock <= w.clock && LeftBy(acts, p)
    ensures Pinned(Settle(w, acts), p) && u.clock <= Settle(w, acts).clock
    ensures Carry(u, w, p) ==> Carry(u, Settle(w, acts), p)
    decreases |acts|
  {
    hide Act1, Pinned, Leaving, Carry;
    if acts != [] {
      assert acts[0] in acts;
      ActGoes(u, w, acts[0], p);
      SettleGoes(u, Act1(w, acts[0]), acts[1..], p);
    }
  }

  lemma SettleWeather(w: W, acts: seq<Act<AccessKeySpec>>, p: Pin)
    requires w.Valid()
    ensures Settle(w, acts).weather == w.weather
  {
    SettleDrifts(w, acts, p.key);
  }

  lemma NextGoes(u: W, w: W, j: Key, p: Pin)
    requires Going(u, w, j, p)
    ensures Going(u, Next(w).0, j, p)
  {
    hide Settle, LeftBy, World.Valid, CredsOf;
    if w.weather.Storm? && w.weather.beats != [] {
      var beats := w.weather.beats;
      assert beats[0] in beats;
      var x := w.(weather := Storm(beats[1..]));
      ValidReweather(w, x.weather);
      SettleGoes(u, x, beats[0].acts, p);
      SettleWeather(x, beats[0].acts, p);
    }
  }

  lemma AskGoes(u: W, w: W, j: Key, p: Pin)
    requires Going(u, w, j, p)
    ensures Going(u, Ask(w).0, j, p)
  {
    hide Next, Going;
    NextGoes(u, w, j, p);
  }

  lemma SendGoes(u: W, w: W, q: Request, j: Key, p: Pin)
    requires Going(u, w, j, p)
    ensures Going(u, Send(w, q).0, j, p)
  {
    hide Next, Leaves, Along, Held, Server.Serve, CredsOf;
    NextGoes(u, w, j, p);
  }

  /** Credentials that may go into the secrets of `j`. */
  predicate Fitting(creds: Creds, j: Key, p: Pin) {
    j == p.key ==> creds.accessKey == p.accessKey
  }

  lemma CreateSecretGoes(u: W, w: W, at: Key, creds: Creds, j: Key, p: Pin)
    requires Going(u, w, j, p) && Fitting(creds, j, p)
    ensures Going(u, CreateSecret(w, at, DataOf(creds), j).0, j, p)
    ensures CreateSecret(w, at, DataOf(creds), j).1 == Nil ==> CredsOf(CreateSecret(w, at, DataOf(creds), j).2) == creds
  {
    hide Next, Leaves, Along, Held, Weathered;
    NextGoes(u, w, j, p);
  }

  lemma UpdateSecretGoes(u: W, w: W, at: Key, secret: Secret, creds: Creds, j: Key, p: Pin)
    requires Going(u, w, j, p) && Fitting(creds, j, p)
    ensures Going(u, UpdateSecret(w, at, secret, secret.data + DataOf(creds)).0, j, p)
  {
    hide Next, Leaves, Along, Held, Weathered;
    NextGoes(u, w, j, p);
  }

  lemma DeleteSecretGoes(u: W, w: W, at: Key, j: Key, p: Pin)
    requires Going(u, w, j, p)
    ensures Going(u, DeleteSecret(w, at).0, j, p)
  {
    hide Next, Leaves, Along, Held, Weathered, CredsOf;
    NextGoes(u, w, j, p);
  }

  lemma UpdateGoes(u: W, w: W, j: Key, o: Resource, p: Pin)
    requires Going(u, w, j, p) && PinnedSpec(o.spec, j, p)
    ensures Going(u, Update(w, j, o).0, j, p) && Update(w, j, o).2 == o.(version := Update(w, j, o).2.version)
  {
    hide Next, Leaves, Along, Held, CredsOf, Weathered, Kept;
    NextGoes(u, w, j, p);
    StoreKeeps(Next(w).0, j, o);
  }

  lemma ResolveGoes(u: W, w: W, ref: SecretKeyRef, ns: string, j: Key, p: Pin)
    requires Going(u, w, j, p)
    ensures Going(u, Resolve(w, ref, ns).0, j, p)
  {
    hide Going, Ask;
    AskGoes(u, w, j, p);
  }

  lemma DesiredGoes(u: W, w: W, j: Key, spec: AccessKeySpec, current: Option<Creds>, roll: Roll, p: Pin)
    requires Going(u, w, j, p) && PinnedSpec(spec, j, p)
    ensures var (v, err, creds) := Desired(w, j.namespace, spec, current, roll);
      Going(u, v, j, p) && (err == Nil ==> Fitting(creds, j, p))
  {
    hide Going, Resolve;
    ResolveGoes(u, w, spec.accessKeyRef, j.namespace, j, p);
    var x := if spec.accessKey != "" || spec.accessKeyRef == NO_REF then w
        else Resolve(w, spec.accessKeyRef, j.namespace).0;
    ResolveGoes(u, x, spec.secretKeyRef, j.namespace, j, p);
  }

  lemma CreateCredentialsGoes(u: W, w: W, j: Key, spec: AccessKeySpec, roll: Roll, p: Pin)
    requires Going(u, w, j, p) && PinnedSpec(spec, j, p)
    ensures var (v, err, secret) := CreateCredentialsSecret(w, j, spec, roll);
      Going(u, v, j, p) && (err == Nil ==> Fitting(CredsOf(secret), j, p))
  {
    hide Going, Desired, CreateSecret, CredsOf;
    DesiredGoes(u, w, j, spec, None, roll, p);
    var (x, err, creds) := Desired(w, j.namespace, spec, None, roll);
    if err == Nil { CreateSecretGoes(u, x, SecretOf(spec, j.namespace), creds, j, p); }
  }

  lemma RenameGoes(u: W, w: W, j: Key, ak: Resource, found: bool, p: Pin)
    requires Going(u, w, j, p) && PinnedSpec(ak.spec, j, p) && ak.status.Some?
    ensures var r := Rename(w, j, ak, found); Going(u, r.0, j, p) && r.2.spec == ak.spec
  {
    hide Going, Ask, DeleteSecret, Update;
    var at := SecretOf(ak.status.value, j.namespace);
    AskGoes(u, w, j, p);
    DeleteSecretGoes(u, w, at, j, p);
    var x := if found then DeleteSecret(w, at).0 else Ask(w).0;
    UpdateGoes(u, x, j, ak.(status := Some(ak.status.value.(secretName := ak.spec.secretName))), p);
  }

  lemma RefreshGoes(u: W, w: W, j: Key, ak: Resource, secret: Secret, roll: Roll, p: Pin)
    requires Going(u, w, j, p) && PinnedSpec(ak.spec, j, p) && ak.status.Some?
    ensures Going(u, Refresh(w, j, ak, secret, roll).0, j, p)
  {
    hide Going, Desired, UpdateSecret, CredsOf;
    var (x, err, creds) := Desired(w, j.namespace, ak.spec, Some(CredsOf(secret)), roll);
    DesiredGoes(u, w, j, ak.spec, Some(CredsOf(secret)), roll, p);
    if err == Nil { UpdateSecretGoes(u, x, SecretOf(ak.status.value, j.namespace), secret, creds, j, p); }
  }

  lemma UpdateCredentialsGoes(u: W, w: W, j: Key, ak: Resource, roll: Roll, p: Pin)
    requires Going(u, w, j, p) && PinnedSpec(ak.spec, j, p) && ak.status.Some?
    ensures var r := UpdateCredentialsSecret(w, j, ak, roll); Going(u, r.0, j, p) && r.2.spec == ak.spec
  {
    hide Going, Ask, Rename, Refresh, CreateCredentialsSecret, PinnedSpec;
    var at := SecretOf(ak.status.value, j.namespace);
    AskGoes(u, w, j, p);
    var x := Ask(w).0;
    RenameGoes(u, x, j, ak, at in x.secrets, p);
    CreateCredentialsGoes(u, Rename(x, j, ak, at in x.secrets).0, j, ak.spec, roll, p);
    CreateCredentialsGoes(u, x, j, ak.spec, roll, p);
    if at in x.secrets { RefreshGoes(u, x, j, ak, x.secrets[at], roll, p); }
  }

  lemma CorrectGoes(u: W, w: W, j: Key, id: RemoteId, ak: Resource, secret: Secret, p: Pin, digest: Digest)
    requires Going(u, w, j, p) && ak.status.Some? && id in w.minio.accounts
    ensures Going(u, Correct(w, id, ak, secret, digest).0, j, p)
  {
    hide Going, Send, Differ;
    var q := UpdateServiceAccount(id, CredsOf(secret).secretKey, ak.status.value.Attributes());
    SendGoes(u, w, q, j, p);
    var x := if Differ(digest, w.minio.accounts[id].attributes, ak.status.value.Attributes()) then Send(w, q).0 else w;
    SendGoes(u, x, UpdateServiceAccount(id, CredsOf(secret).secretKey, Sent(digest, ak.spec.Attributes())), j, p);
  }

  lemma ForgetGoes(u: W, w: W, j: Key, ak: Resource, p: Pin)
    requires Going(u, w, j, p) && PinnedSpec(ak.spec, j, p) && ak.status.Some?
    ensures var r := Forget(w, j, ak); Going(u, r.0, j, p) && r.2.spec == ak.spec
  {
    hide Going, Ask, DeleteSecret, Update;
    var at := SecretOf(ak.status.value, j.namespace);
    AskGoes(u, w, j, p);
    var x := Ask(w).0;
    DeleteSecretGoes(u, x, at, j, p);
    UpdateGoes(u, if at in x.secrets then DeleteSecret(x, at).0 else x, j, ak.(status := None), p);
  }

  lemma UpdateKeyGoes(u: W, w: W, j: Key, ak: Resource, secret: Secret, p: Pin, digest: Digest)
    requires Going(u, w, j, p) && PinnedSpec(ak.spec, j, p) && ak.status.Some?
    ensures var r := UpdateAccessKey(w, j, ak, secret, digest); Going(u, r.0, j, p) && PinnedSpec(r.2.spec, j, p)
  {
    hide Going, Ask, Update, Correct, Forget, CredsOf;
    var q := ak.(spec := ak.spec.(migrate := false));
    UpdateGoes(u, w, j, q, p);
    var (x, err, ak1) := if ak.spec.migrate then Update(w, j, q) else (w, Nil, ak);
    AskGoes(u, x, j, p);
    AskGoes(u, Ask(x).0, j, p);
    var y := Ask(Ask(x).0).0;
    if err == Nil {
      ForgetGoes(u, y, j, ak1, p);
      var id := RemoteId(TenantOf(ak1.status.value, j.namespace), CredsOf(secret).accessKey);
      if id in y.minio.accounts { CorrectGoes(u, y, j, id, ak1, secret, p, digest); }
    }
  }

  lemma CheckGoes(u: W, w: W, j: Key, ak: Resource, roll: Roll, p: Pin)
    requires Going(u, w, j, p) && PinnedSpec(ak.spec, j, p) && ak.status.Some?
    ensures Going(u, Check(w, j, ak, roll), j, p)
  {
    hide Going, Update, UpdateCredentialsSecret, UpdateAccessKey, PinnedSpec;
    var (x, err, ak1, secret) := UpdateCredentialsSecret(w, j, ak, roll);
    UpdateCredentialsGoes(u, w, j, ak, roll, p);
    if err == Nil {
      var (y, err, ak2) := UpdateAccessKey(x, j, ak1, secret, roll.digest);
      UpdateKeyGoes(u, x, j, ak1, secret, p, roll.digest);
      UpdateGoes(u, y, j, Recorded(ak2, secret), p);
    }
  }

  lemma CreateGoes(u: W, w: W, j: Key, ak: Resource, roll: Roll, p: Pin)
    requires Going(u, w, j, p) && PinnedSpec(ak.spec, j, p)
    ensures Going(u, Create(w, j, ak, roll), j, p)
  {
    hide Going, Ask, Send, Update, CreateCredentialsSecret, DeleteSecret, CredsOf;
    var (x, err, secret) := CreateCredentialsSecret(w, j, ak.spec, roll);
    CreateCredentialsGoes(u, w, j, ak.spec, roll, p);
    if err == Nil {
      var y := Ask(x).0;
      AskGoes(u, x, j, p);
      var q := AddServiceAccount(RemoteId(TenantOf(ak.spec, j.namespace), CredsOf(secret).accessKey),
          AccountOf(ak.spec, CredsOf(secret), roll.digest));
      SendGoes(u, y, q, j, p);
      DeleteSecretGoes(u, y, SecretOf(ak.spec, j.namespace), j, p);
      DeleteSecretGoes(u, Send(y, q).0, SecretOf(ak.spec, j.namespace), j, p);
      UpdateGoes(u, Send(y, q).0, j, Created(ak, secret), p);
    }
  }

  lemma TeardownGoes(u: W, w: W, j: Key, ak: Resource, p: Pin)
    requires Going(u, w, j, p) && PinnedSpec(ak.spec, j, p)
    ensures Going(u, Teardown(w, j, ak), j, p)
  {
    hide Going, Ask, Send, Update, CredsOf;
    AskGoes(u, w, j, p);
    var x, y := Ask(w).0, Ask(Ask(w).0).0;
    AskGoes(u, x, j, p);
    if ak.status.Some? && SecretOf(ak.status.value, j.namespace) in x.secrets {
      var creds := CredsOf(x.secrets[SecretOf(ak.status.value, j.namespace)]);
      SendGoes(u, y, DeleteServiceAccount(RemoteId(TenantOf(ak.status.value, j.namespace), creds.accessKey)), j, p);
    }
    var z := DeleteAccessKey(w, j, ak).0;
    assert Going(u, z, j, p);
    hide DeleteAccessKey;
    UpdateGoes(u, z, j, ak.(status := None), p);
    var (v, err, ak1) := Update(z, j, ak.(status := None));
    UpdateGoes(u, v, j, ak1.(finalizer := false), p);
  }

  lemma NothingNewer(u: W, p: Pin)
    requires u.Valid()
    ensures Carry(u, u, p)
  {
    hide CredsOf;
  }

  lemma PassGoes(u: W, j: Key, roll: Roll, p: Pin)
    requires Pinned(u, p) && Leaves(u.weather, p)
    ensures Pinned(Pass(u, j, roll), p) && (j == p.key ==> Carry(u, Pass(u, j, roll), p))
  {
    hide Ask, Update, Check, Create, Teardown, World.Valid, CredsOf, Leaves;
    assert Going(u, u, j, p) by { NothingNewer(u, p); }
    AskGoes(u, u, j, p);
    var x := Ask(u).0;
    if Ask(u).1 == Nil && j in x.objects {
      var ak := x.objects[j];
      TeardownGoes(u, x, j, ak, p);
      UpdateGoes(u, x, j, ak.(finalizer := true), p);
      if ak.status.Some? { CheckGoes(u, x, j, ak, roll, p); }
      CreateGoes(u, x, j, ak, roll, p);
    }
  }

  /** The secrets users write in some weather. */
  function UserWritten(t: Weather<AccessKeySpec>): set<Key> {
    if t.Calm? then {} else set b, a | b in t.beats && a in b.acts && a.PutSecret? :: a.key
  }

  /** In every turn of the resource, every secret the pass writes, and users do not, carries the access key. */
  ghost predicate EveryWriteCarries(w: W, turns: seq<KeyTurn>, p: Pin)
    decreases |turns|
  {
    turns == [] ||
    var u := Begin(w, turns[0]);
    var v := Pass(u, turns[0].key, turns[0].roll);
    && (turns[0].key == p.key ==> Carry(u, v, p.(touched := UserWritten(u.weather))))
    && EveryWriteCarries(v, turns[1..], p)
  }

  /** Users keep the access key in the spec, whatever they do to secrets. */
  ghost predicate Keeps(t: Weather<AccessKeySpec>, p: Pin) {
    t.Storm? ==> forall b | b in t.beats :: forall a | a in b.acts :: Keeping(a, p)
  }

  lemma KeepsLeaves(t: Weather<AccessKeySpec>, p: Pin)
    requires Keeps(t, p)
    ensures Leaves(t, p.(touched := UserWritten(t)))
  {
    if t.Storm? {
      forall b | b in t.beats ensures LeftBy(b.acts, p.(touched := UserWritten(t))) {
        forall a | a in b.acts ensures Leaving(a, p.(touched := UserWritten(t))) {
          assert a.PutSecret? ==> a.key in UserWritten(t);
          assert Keeping(a, p);
        }
      }
    }
  }

  /**
   In every run over any resources, with faults, secrets deleted, renamed and tampered with, as long as
   users keep the access key in the spec: every secret that a pass over the resource writes, unless
   users write it themselves during that pass, carries that access key.
   */
  lemma {:induction false} GeneratedSecretsCarry(w: W, turns: seq<KeyTurn>, p: Pin)
    requires Pinned(w, p)
    requires forall t | t in turns :: Keeps(t.weather, p)
    ensures EveryWriteCarries(w, turns, p) && Pinned(Play(w, turns), p)
    decreases |turns|
  {
    hide World.Valid, Pass, Keeps, CredsOf, Leaves, Carry;
    if turns != [] {
      var t := turns[0];
      var u := Begin(w, t);
      assert t in turns;
      ValidReweather(w, t.weather);
      KeepsLeaves(t.weather, p);
      PassGoes(u, t.key, t.roll, p.(touched := UserWritten(t.weather)));
      GeneratedSecretsCarry(Pass(u, t.key, t.roll), turns[1..], p);
    }
  }

  ghost predicate Writes(acts: seq<Act<AccessKeySpec>>, touched: set<Key>) {
    forall a | a in acts && a.PutSecret? :: a.key in touched
  }

  /** The generated secret of a create pass holds the credentials made for it, unless users wrote it meanwhile. */
  ghost predicate Fresh(w: W, at: Key, creds: Creds, touched: set<Key>) {
    && w.Valid() && (at in w.secrets && at !in touched ==> CredsOf(w.secrets[at]) == creds)
    && (w.weather.Storm? ==> forall b | b in w.weather.beats :: Writes(b.acts, touched))
  }

  lemma {:induction false} SettleFresh(w: W, acts: seq<Act<AccessKeySpec>>, at: Key, creds: Creds, touched: set<Key>)
    requires w.Valid() && Writes(acts, touched)
    ensures at in Settle(w, acts).secrets && at !in touched ==>
        at in w.secrets && Settle(w, acts).secrets[at] == w.secrets[at]
    decreases |acts|
  {
    hide Server.Serve;
    if acts != [] {
      assert acts[0] in acts;
      ActDrifts(w, acts[0], at);
      SettleFresh(Act1(w, acts[0]), acts[1..], at, creds, touched);
    }
  }

  lemma NextFresh(w: W, at: Key, creds: Creds, touched: set<Key>)
    requires Fresh(w, at, creds, touched)
    ensures Fresh(Next(w).0, at, creds, touched)
  {
    hide Settle, Writes, World.Valid, CredsOf;
    if w.weather.Storm? && w.weather.beats != [] {
      var beats := w.weather.beats;
      assert beats[0] in beats;
      var x := w.(weather := Storm(beats[1..]));
      ValidReweather(w, x.weather);
      SettleFresh(x, beats[0].acts, at, creds, touched);
      SettleDrifts(x, beats[0].acts, at);
    }
  }

  /** The pass holds the resource it read, and the secret it made has not been written by others but users. */
  ghost predicate Making(w: W, k: Key, ak: Resource, at: Key, creds: Creds, touched: set<Key>) {
    Fresh(w, at, creds, touched) && Held(w, k, ak)
  }

  lemma UnrecordedHeld(w: W, k: Key, o: Resource)
    requires Held(w, k, o) && o.status.None? && k in w.objects
    ensures w.objects[k].status.None?
  {
  }

  /** Users write only the given secrets. */
  ghost predicate Unwritten(w: W, touched: set<Key>) {
    w.weather.Storm? ==> forall b | b in w.weather.beats :: Writes(b.acts, touched)
  }

  lemma NextUnwritten(w: W, touched: set<Key>)
    requires w.Valid() && Unwritten(w, touched)
    ensures Unwritten(Next(w).0, touched)
  {
    hide Settle, Writes, World.Valid;
    if w.weather.Storm? && w.weather.beats != [] {
      var x := w.(weather := Storm(w.weather.beats[1..]));
      ValidReweather(w, x.weather);
      SettleDrifts(x, w.weather.beats[0].acts, Key("", ""));
    }
  }

  lemma AskHolds(w: W, k: Key, ak: Resource, touched: set<Key>)
    requires w.Valid() && Held(w, k, ak) && Unwritten(w, touched)
    ensures var v := Ask(w).0; v.Valid() && Held(v, k, ak) && Unwritten(v, touched)
  {
    hide Next, World.Valid, Held, Writes, Weathered, Along;
    NextUnwritten(w, touched);
  }

  /** Before its first write of the resource, a pass holds it. */
  lemma DesiredHolds(w: W, k: Key, ak: Resource, spec: AccessKeySpec, roll: Roll, touched: set<Key>)
    requires w.Valid() && Held(w, k, ak) && Unwritten(w, touched)
    ensures var v := Desired(w, k.namespace, spec, None, roll).0; v.Valid() && Held(v, k, ak) && Unwritten(v, touched)
  {
    hide World.Valid, Held, Unwritten, Ask, Choose;
    forall y: W | y.Valid() && Held(y, k, ak) && Unwritten(y, touched)
      ensures var v := Ask(y).0; v.Valid() && Held(v, k, ak) && Unwritten(v, touched)
    {
      AskHolds(y, k, ak, touched);
    }
  }

  lemma NewSecretFresh(w: W, k: Key, ak: Resource, at: Key, creds: Creds, touched: set<Key>)
    requires w.Valid() && Held(w, k, ak) && Unwritten(w, touched)
    ensures var (v, err, secret) := CreateSecret(w, at, DataOf(creds), k);
      && v.Valid() && Held(v, k, ak)
      && (err == Nil ==> Making(v, k, ak, at, creds, touched) && CredsOf(secret) == creds)
  {
    hide Next, World.Valid, Held, Writes, Weathered, Along;
    NextUnwritten(w, touched);
  }

  lemma MakingValid(w: W, k: Key, ak: Resource, at: Key, creds: Creds, touched: set<Key>)
    requires Making(w, k, ak, at, creds, touched)
    ensures w.Valid() && Held(w, k, ak)
  {
  }

  lemma MakingNext(w: W, k: Key, ak: Resource, at: Key, creds: Creds, touched: set<Key>)
    requires Making(w, k, ak, at, creds, touched)
    ensures Making(Next(w).0, k, ak, at, creds, touched)
  {
    hide Next, Fresh, Held, Weathered, Along, World.Valid;
    NextFresh(w, at, creds, touched);
    MakingValid(w, k, ak, at, creds, touched);
    NextAlways(w);
  }

  lemma MakingAsk(w: W, k: Key, ak: Resource, at: Key, creds: Creds, touched: set<Key>)
    requires Making(w, k, ak, at, creds, touched)
    ensures Making(Ask(w).0, k, ak, at, creds, touched)
  {
    hide Next, Making, Kept, Weathered;
    MakingNext(w, k, ak, at, creds, touched);
  }

  lemma MakingSend(w: W, q: Request, k: Key, ak: Resource, at: Key, creds: Creds, touched: set<Key>)
    requires Making(w, k, ak, at, creds, touched)
    ensures Making(Send(w, q).0, k, ak, at, creds, touched)
  {
    hide Next, Weathered, Along, Server.Serve, World.Valid, Held, Writes, CredsOf;
    MakingNext(w, k, ak, at, creds, touched);
  }

  /** The last write: what is recorded then is what was made, or nothing. */
  lemma MakingUpdate(w: W, k: Key, ak: Resource, p: Resource, at: Key, creds: Creds, touched: set<Key>)
    requires Making(w, k, ak, at, creds, touched) && ak.status.None? && p.status.Some? && p.finalizer
    ensures var v := Update(w, k, p).0;
      && (k in v.objects && v.objects[k].status.Some? ==>
          v.objects[k].spec == p.spec && v.objects[k].status == p.status)
      && (at in v.secrets && at !in touched ==> CredsOf(v.secrets[at]) == creds)
  {
    hide Next, Kept, Weathered, Along, World.Valid, CredsOf, Writes;
    MakingNext(w, k, ak, at, creds, touched);
  }

  lemma AskWeather(w: W)
    ensures Ask(w).0 == Next(w).0
  {
    hide Next;
  }

  lemma FromTheStart(w: W)
    ensures Unwritten(w, UserWritten(w.weather))
  {
  }

  lemma NothingRecorded(w: W, k: Key, ak: Resource)
    requires w.Valid() && Held(w, k, ak) && ak.status.None?
    ensures var v := Teardown(w, k, ak); k in v.objects ==> v.objects[k].status.None?
    ensures var v := Update(w, k, ak.(finalizer := true)).0; k in v.objects ==> v.objects[k].status.None?
  {
    hide Next, World.Valid, Along, Weathered;
    assert ak.(status := None) == ak;
  }

  lemma AccountHolds(
    w: W, k: Key, ak: Resource, secret: Secret, creds: Creds, digest: Digest, touched: set<Key>)
    requires Making(w, k, ak, SecretOf(ak.spec, k.namespace), creds, touched)
    ensures Making(CreateAccessKey(w, k, ak.spec, secret, digest).0, k, ak, SecretOf(ak.spec, k.namespace),
        creds, touched)
  {
    hide Next, Ask, Send, Making, CredsOf;
    var at := SecretOf(ak.spec, k.namespace);
    MakingAsk(w, k, ak, at, creds, touched);
    var id := RemoteId(TenantOf(ak.spec, k.namespace), CredsOf(secret).accessKey);
    MakingSend(Ask(w).0, AddServiceAccount(id, AccountOf(ak.spec, CredsOf(secret), digest)), k, ak, at, creds, touched);
  }

  lemma RolledBack(w: W, k: Key, ak: Resource, at: Key, creds: Creds, touched: set<Key>)
    requires Making(w, k, ak, at, creds, touched) && ak.status.None?
    ensures var v := DeleteSecret(w, at).0; k in v.objects ==> v.objects[k].status.None?
  {
    hide Next, World.Valid, Along, Weathered, Held, Fresh;
    MakingValid(w, k, ak, at, creds, touched);
    var v := DeleteSecret(w, at).0;
    assert Held(v, k, ak);
    if k in v.objects { UnrecordedHeld(v, k, ak); }
  }

  lemma CreateRecords(w: W, k: Key, ak: Resource, roll: Roll, touched: set<Key>)
    requires w.Valid() && Held(w, k, ak) && ak.status.None? && ak.finalizer && Unwritten(w, touched)
    ensures var v := Create(w, k, ak, roll);
      k in v.objects && v.objects[k].status.Some? ==>
        var spec, at := v.objects[k].spec, SecretOf(v.objects[k].spec, k.namespace);
        && v.objects[k].status == Some(spec) && !spec.migrate && spec.accessKey != ""
        && (at in v.secrets && at !in touched ==> CredsOf(v.secrets[at]).accessKey == spec.accessKey)
  {
    hide Next, Update, Desired, CreateSecret, CreateAccessKey, DeleteSecret, World.Valid, Held, Making, CredsOf;
    hide Unwritten;
    var at := SecretOf(ak.spec, k.namespace);
    DesiredHolds(w, k, ak, ak.spec, roll, touched);
    AccessKeyLife.DesiredNeverEmpty(w, k.namespace, ak.spec, None, roll);
    var (x, err, creds) := Desired(w, k.namespace, ak.spec, None, roll);
    if k in x.objects { UnrecordedHeld(x, k, ak); }
    if err == Nil {
      NewSecretFresh(x, k, ak, at, creds, touched);
      var (y, err, secret) := CreateSecret(x, at, DataOf(creds), k);
      if k in y.objects { UnrecordedHeld(y, k, ak); }
      if err == Nil {
        AccountHolds(y, k, ak, secret, creds, roll.digest, touched);
        var z := CreateAccessKey(y, k, ak.spec, secret, roll.digest).0;
        RolledBack(z, k, ak, at, creds, touched);
        MakingUpdate(z, k, ak, Created(ak, secret), at, creds, touched);
      }
    }
  }

  /**
   A pass that comes to record an access key, whatever calls fail, records a spec that names it, free of
   migration; and the secret it made holds that access key, unless users wrote the secret meanwhile.
   */
  lemma CreatePins(u: W, k: Key, roll: Roll)
    requires u.Valid() && Ask(u).1 == Nil && k in Ask(u).0.objects && Ask(u).0.objects[k].status.None?
    requires var v := Pass(u, k, roll); k in v.objects && v.objects[k].status.Some?
    ensures
      var v := Pass(u, k, roll);
      var spec, at := v.objects[k].spec, SecretOf(v.objects[k].spec, k.namespace);
      && v.objects[k].status == Some(spec) && !spec.migrate && spec.accessKey != ""
      && (at in v.secrets && at !in UserWritten(u.weather) ==> CredsOf(v.secrets[at]).accessKey == spec.accessKey)
  {
    hide Next, Update, Create, Teardown, World.Valid, Along, Held, Weathered, Kept, CredsOf, UserWritten, Check;
    var x := Ask(u).0;
    var ak := x.objects[k];
    GetBegins(u, k);
    FromTheStart(u);
    assert Unwritten(x, UserWritten(u.weather)) by { NextUnwritten(u, UserWritten(u.weather)); AskWeather(u); }
    if ak.deleting || !ak.finalizer { NothingRecorded(x, k, ak); } else {
      CreateRecords(x, k, ak, roll, UserWritten(u.weather));
    }
  }
}
