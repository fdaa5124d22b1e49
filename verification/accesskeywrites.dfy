/** What a pass over an access key resource writes, in the fields of its spec. */
module AccessKeyWrites {
  import opened Prelude
  import opened Minio
  import opened Kube
  import opened AccessKeys
  import opened Addresses
  import opened Calmness
  import opened Credentials
  import opened PolicyHash
  import opened RandomKeys
  import opened Writes
  import AccessKeyChecks
  import AccessKeyLife
  import AccessKeyTeardown

  /** A value given outright or by reference; none if the reference leads nowhere. */
  function Given(secrets: map<Key, Secret>, text: string, ref: SecretKeyRef, ns: string): Option<string> {
    if text != "" || Unset(ref) then Some(text) else Read(secrets, ref, ns)
  }

  lemma Resolves(w: W, ref: SecretKeyRef, ns: string)
    requires w.weather.Calm?
    ensures
      var (v, err, value) := Resolve(w, ref, ns);
      v == w && (err == Nil <==> Read(w.secrets, ref, ns).Some?)
      && (err == Nil ==> Read(w.secrets, ref, ns) == Some(value))
  {
    hide Next, Kept, Weathered;
  }

  /**
   Without faults each half of the credentials is the value given, or else the current one, or else a
   random one of its own: twenty symbols from the first draw, forty from the second. Nothing is made up
   for a key that migrates.
   */
  lemma DesiredIs(w: W, ns: string, spec: AccessKeySpec, current: Option<Creds>, roll: Roll)
    requires w.weather.Calm?
    ensures
      var (v, err, creds) := Desired(w, ns, spec, current, roll);
      var one := Given(w.secrets, spec.accessKey, spec.accessKeyRef, ns);
      var two := Given(w.secrets, "", spec.secretKeyRef, ns);
      var now := if current.Some? then current.value else Creds("", "");
      && v == w
      && (err == Nil <==>
            && one.Some? && (one.value != "" || now.accessKey != "" || (!spec.migrate && roll.first.Some?))
            && two.Some? && (two.value != "" || now.secretKey != "" || (!spec.migrate && roll.second.Some?)))
      && (err == Nil ==>
            && creds.accessKey == (if one.value != "" then one.value
                else if now.accessKey != "" then now.accessKey else RandomString(roll.first.value, 20))
            && creds.secretKey == (if two.value != "" then two.value
                else if now.secretKey != "" then now.secretKey else RandomString(roll.second.value, 40)))
  {
    hide Resolve, Read, RandomString;
    Resolves(w, spec.accessKeyRef, ns);
    Resolves(w, spec.secretKeyRef, ns);
  }

  /** A half that no reference and no present secret gives is its own draw's, whatever the weather. */
  lemma MadeUp(w: W, ns: string, spec: AccessKeySpec, current: Option<Creds>, roll: Roll)
    ensures
      var (_, err, creds) := Desired(w, ns, spec, current, roll);
      && (err == Nil && Unset(spec.secretKeyRef) && (current.Some? ==> current.value.secretKey == "") ==>
            !spec.migrate && roll.second.Some? && creds.secretKey == RandomString(roll.second.value, 40))
      && (err == Nil && spec.accessKey == "" && Unset(spec.accessKeyRef)
          && (current.Some? ==> current.value.accessKey == "") ==>
            !spec.migrate && roll.first.Some? && creds.accessKey == RandomString(roll.first.value, 20))
  {
    hide Resolve;
  }

  /** The access key depends on the first draw alone and the secret key on the second. */
  lemma DrawsApart(w: W, ns: string, spec: AccessKeySpec, current: Option<Creds>, roll: Roll, other: Roll)
    requires Desired(w, ns, spec, current, roll).1 == Nil && Desired(w, ns, spec, current, other).1 == Nil
    ensures
      var creds, others := Desired(w, ns, spec, current, roll).2, Desired(w, ns, spec, current, other).2;
      && (roll.first == other.first ==> creds.accessKey == others.accessKey)
      && (roll.second == other.second ==> creds.secretKey == others.secretKey)
  {
    hide Resolve;
  }

  lemma DrawsFor(key: string)
    requires |key| in {20, 40} && forall c | c in key :: c in CROCKFORD
    ensures |BuffersFor(key)| == if |key| == 20 then 16 else 1
    ensures forall buf: seq<Byte> :: buf in BuffersFor(key) <==>
        |buf| == (if |key| == 20 then 13 else 25) && RandomString(buf, |key|) == key
  {
    hide BuffersFor, RandomString;
    Unbiased(key);
    assert Pow2(2) == 4 && Pow2(4) == 16;
  }

  /** A machine with these draws. */
  function Drawn(first: Option<seq<Byte>>, second: Option<seq<Byte>>, digest: Digest): Roll
    requires (first.Some? ==> |first.value| == 13) && (second.Some? ==> |second.value| == 25)
  {
    Machine(first, second, digest)
  }

  /** Every secret key of forty symbols is made up from exactly one second draw, whatever the first. */
  lemma SecretKeysEven(w: W, ns: string, spec: AccessKeySpec, first: Option<seq<Byte>>, digest: Digest, key: string)
    requires first.Some? ==> |first.value| == 13
    requires Unset(spec.secretKeyRef) && |key| == 40 && forall c | c in key :: c in CROCKFORD
    ensures |BuffersFor(key)| == 1
    ensures forall buf: seq<Byte> | |buf| == 25 ::
        var (_, err, creds) := Desired(w, ns, spec, None, Drawn(first, Some(buf), digest));
        err == Nil ==> (creds.secretKey == key <==> buf in BuffersFor(key))
  {
    hide Desired, BuffersFor, RandomString;
    DrawsFor(key);
    forall buf: seq<Byte> | |buf| == 25
      ensures
        var (_, err, creds) := Desired(w, ns, spec, None, Drawn(first, Some(buf), digest));
        err == Nil ==> (creds.secretKey == key <==> buf in BuffersFor(key))
    {
      MadeUp(w, ns, spec, None, Drawn(first, Some(buf), digest));
    }
  }

  /** Every access key of twenty symbols is made up from exactly sixteen first draws, whatever the second. */
  lemma AccessKeysEven(w: W, ns: string, spec: AccessKeySpec, second: Option<seq<Byte>>, digest: Digest, key: string)
    requires second.Some? ==> |second.value| == 25
    requires spec.accessKey == "" && Unset(spec.accessKeyRef) && |key| == 20 && forall c | c in key :: c in CROCKFORD
    ensures |BuffersFor(key)| == 16
    ensures forall buf: seq<Byte> | |buf| == 13 ::
        var (_, err, creds) := Desired(w, ns, spec, None, Drawn(Some(buf), second, digest));
        err == Nil ==> (creds.accessKey == key <==> buf in BuffersFor(key))
  {
    hide Desired, BuffersFor, RandomString;
    DrawsFor(key);
    forall buf: seq<Byte> | |buf| == 13
      ensures
        var (_, err, creds) := Desired(w, ns, spec, None, Drawn(Some(buf), second, digest));
        err == Nil ==> (creds.accessKey == key <==> buf in BuffersFor(key))
    {
      MadeUp(w, ns, spec, None, Drawn(Some(buf), second, digest));
    }
  }

  /** The secret that names the credentials, under the two keys its users look for. */
  function Stored(creds: Creds, owner: Key, version: nat): Secret {
    Secret(map["accessKey" := creds.accessKey, "secretKey" := creds.secretKey], Some(owner), version)
  }

  /** The account a spec asks for, with a policy unless it is hashed like the empty one. */
  predicate Wanted(a: Account, spec: AccessKeySpec, secretKey: string, digest: Digest) {
    && (a.ldap <==> spec.user.ldap != "") && a.parent == (if a.ldap then spec.user.ldap else spec.user.builtin)
    && a.secretKey == secretKey && a.attributes.name == spec.name && a.attributes.description == spec.description
    && a.attributes.expiration == spec.expiration
    && a.attributes.policy == if SameHash(digest, spec.policy, Doc("", [])) then Doc("", []) else spec.policy
  }

  lemma Undesired(w: W, k: Key, roll: Roll)
    requires Awaiting(w, k) && Desired(w, k.namespace, w.objects[k].spec, None, roll).1 != Nil
    ensures Pass(w, k, roll) == w
  {
    hide Next, World.Valid, Desired, Kube.Kept, Weathered;
    AccessKeyLife.DesiredCalm(w, k.namespace, w.objects[k].spec, None, roll);
  }

  /** The resource, its secret and its account after a create pass that succeeds. */
  ghost predicate Made(w: W, v: W, k: Key, ak: Resource, creds: Creds, digest: Digest) {
    var spec, ns, m := ak.spec, k.namespace, w.minio;
    var at, id := Key(ns, spec.secretName), Place(spec.tenantRef, ns, creds.accessKey);
    var recorded := spec.(accessKey := creds.accessKey, migrate := false);
    && v.secrets == w.secrets[at := Stored(creds, k, w.clock)]
    && k in v.objects && v.objects == w.objects[k := v.objects[k]]
    && v.objects[k] == ak.(spec := recorded, status := Some(recorded), stamp := w.clock,
        version := v.objects[k].version)
    && if id in m.accounts then v.minio == m
       else
         && id in v.minio.accounts && Wanted(v.minio.accounts[id], spec, creds.secretKey, digest)
         && v.minio == m.(accounts := m.accounts[id := v.minio.accounts[id]])
  }

  lemma StoredIs(creds: Creds, k: Key, version: nat)
    ensures Stored(creds, k, version) == Secret(DataOf(creds), Some(k), version)
  {
  }

  lemma AccountWanted(spec: AccessKeySpec, creds: Creds, digest: Digest)
    ensures Wanted(AccountOf(spec, creds, digest), spec, creds.secretKey, digest)
  {
    hide SameHash;
  }

  lemma BornMade(w: W, v: W, k: Key, ak: Resource, creds: Creds, digest: Digest)
    requires Awaiting(w, k) && w.objects[k] == ak && AccessKeyLife.Born(w, v, k, creds)
    requires
      var id := RemoteId(TenantOf(ak.spec, k.namespace), creds.accessKey);
      if id in w.minio.accounts then v.minio == w.minio
      else v.minio == w.minio.(accounts := w.minio.accounts[id := AccountOf(ak.spec, creds, digest)])
    ensures Made(w, v, k, ak, creds, digest)
  {
    hide World.Valid, AccountOf, Wanted, DataOf, Stored;
    StoredIs(creds, k, w.clock);
    AccountWanted(ak.spec, creds, digest);
  }

  /**
   With the desired credentials a secret of the chosen name is made, and in the tenant referred to an
   account of that access key, for the LDAP user named or else the built-in one, unless it is there to
   be adopted. The record keeps the access key. A secret of that name, credentials that cannot be had, a
   missing parent or somebody else's account leave things as they are.
   */
  lemma Creates(w: W, k: Key, roll: Roll)
    requires Awaiting(w, k)
    ensures
      var ak, spec, ns, m := w.objects[k], w.objects[k].spec, k.namespace, w.minio;
      var (_, err, creds) := Desired(w, ns, spec, None, roll);
      var id, parent := Place(spec.tenantRef, ns, creds.accessKey), Place(spec.tenantRef, ns, spec.user.builtin);
      if err != Nil || Key(ns, spec.secretName) in w.secrets then Pass(w, k, roll) == w
      else if (spec.user.ldap == "" && parent !in m.users) || (id in m.accounts && !spec.migrate) then
        Pass(w, k, roll) == w.(clock := w.clock + 1)
      else
        Made(w, Pass(w, k, roll), k, ak, creds, roll.digest)
  {
    hide World.Valid, Desired, Pass, Made, AccessKeyLife.Born, AccountOf, Wanted;
    var ak, spec, ns := w.objects[k], w.objects[k].spec, k.namespace;
    var (_, err, creds) := Desired(w, ns, spec, None, roll);
    if Key(ns, spec.secretName) in w.secrets {
      AccessKeyLife.LeftoverSecretBlocks(w, k, roll);
    } else if err != Nil {
      Undesired(w, k, roll);
    } else {
      AccessKeyLife.CreatesOrLeaves(w, k, roll);
      var id, v := Place(spec.tenantRef, ns, creds.accessKey), Pass(w, k, roll);
      if AccessKeyLife.HasParent(w, k, spec) && (id !in w.minio.accounts || spec.migrate) {
        BornMade(w, v, k, ak, creds, roll.digest);
      }
    }
  }

  /** The spec with every namespace it leaves out written in. */
  function InFullSpec(spec: AccessKeySpec, ns: string): AccessKeySpec {
    spec.(
      tenantRef := if spec.tenantRef.namespace == "" then ResourceRef(spec.tenantRef.name, ns) else spec.tenantRef,
      accessKeyRef := if Unset(spec.accessKeyRef) then spec.accessKeyRef else InFull(spec.accessKeyRef, ns),
      secretKeyRef := if Unset(spec.secretKeyRef) then spec.secretKeyRef else InFull(spec.secretKeyRef, ns))
  }

  lemma FullAgree(w: W, k: Key, o: Resource, roll: Roll)
    requires Awaiting(w, k) && o == w.objects[k].(spec := InFullSpec(w.objects[k].spec, k.namespace))
    ensures
      var x, ns := w.(objects := w.objects[k := o]), k.namespace;
      Desired(x, ns, o.spec, None, roll).1 == Nil <==> Desired(w, ns, w.objects[k].spec, None, roll).1 == Nil
    ensures
      var x, ns := w.(objects := w.objects[k := o]), k.namespace;
      Desired(w, ns, w.objects[k].spec, None, roll).1 == Nil ==>
        Desired(x, ns, o.spec, None, roll).2 == Desired(w, ns, w.objects[k].spec, None, roll).2
  {
    hide Desired, World.Valid, RandomString;
    DesiredIs(w, k.namespace, w.objects[k].spec, None, roll);
    DesiredIs(w.(objects := w.objects[k := o]), k.namespace, o.spec, None, roll);
  }

  /** Leaving namespaces out, of tenant and secrets, comes to the same as writing the resource's own. */
  lemma NamespaceDefaults(w: W, k: Key, roll: Roll)
    requires Awaiting(w, k)
    ensures
      var x := w.(objects := w.objects[k := w.objects[k].(spec := InFullSpec(w.objects[k].spec, k.namespace))]);
      Pass(x, k, roll).minio == Pass(w, k, roll).minio && Pass(x, k, roll).secrets == Pass(w, k, roll).secrets
  {
    hide Pass, Desired, World.Valid;
    var o := w.objects[k].(spec := InFullSpec(w.objects[k].spec, k.namespace));
    var x := w.(objects := w.objects[k := o]);
    FullAgree(w, k, o, roll);
    Writes.Rewritten(w, k, o);
    Creates(w, k, roll);
    Creates(x, k, roll);
  }

  lemma Brackets(w: W, k: Key, roll: Roll)
    ensures Bracketed(w, k, Pass(w, k, roll))
  {
    hide Next, Update, Store, Along, Held, Kube.Kept, Weathered, World.Valid, Check, Create;
    if w.Valid() && w.weather.Calm? && k in w.objects {
      var ak := w.objects[k];
      if ak.finalizer && ak.deleting && ak.status.None? {
        UpdateBecomes(w, k, ak);
        CalmDrop(w, k);
      }
      if !ak.finalizer && !ak.deleting { UpdateBecomes(w, k, ak.(finalizer := true)); }
    }
  }

  /** A weather in which the answer to the fourth call is lost. */
  function Unanswered(): Weather<AccessKeySpec> {
    Storm([Beat([], Done), Beat([], Done), Beat([], Done), Beat([], Unacked), Beat([], Done)])
  }

  lemma UnansweredNext(w: W, n: nat)
    requires n < 5 && w.weather == Storm(Unanswered().beats[n..])
    ensures Next(w) == (w.(weather := Storm(Unanswered().beats[n + 1..])), if n == 3 then Unacked else Done)
  {
    StormNext(w);
    assert Unanswered().beats[n..][1..] == Unanswered().beats[n + 1..];
  }

  /** Both halves of the credentials are to be had without a look at another secret. */
  predicate Unreferred(spec: AccessKeySpec) {
    (spec.accessKey != "" || Unset(spec.accessKeyRef)) && Unset(spec.secretKeyRef)
  }

  lemma UnreferredDesired(w: W, x: W, ns: string, spec: AccessKeySpec, roll: Roll)
    requires Unreferred(spec)
    ensures Desired(x, ns, spec, None, roll) ==
        (x, Desired(w, ns, spec, None, roll).1, Desired(w, ns, spec, None, roll).2)
  {
  }

  /** The world before the `n`th of these calls. */
  function Before(w: W, n: nat): W
    requires n <= 5
  {
    w.(weather := Storm(Unanswered().beats[n..]))
  }

  lemma CredsStored(creds: Creds, k: Key, version: nat)
    ensures CredsOf(Secret(DataOf(creds), Some(k), version)) == creds
  {
  }

  lemma SecretMade(w: W, at: Key, data: map<string, string>, k: Key)
    requires at !in w.secrets
    ensures
      var secret := Secret(data, Some(k), w.clock);
      CreateSecret(Before(w, 1), at, data, k) ==
      (Before(w.(secrets := w.secrets[at := secret], clock := w.clock + 1), 2), Nil, secret)
  {
    hide Next, Kube.Kept, Weathered, World.Valid;
    UnansweredNext(Before(w, 1), 1);
  }

  lemma AccountServed(w: W, k: Key, spec: AccessKeySpec, creds: Creds, digest: Digest)
    requires AccessKeyLife.HasParent(w, k, spec)
    requires RemoteId(TenantOf(spec, k.namespace), creds.accessKey) !in w.minio.accounts
    ensures
      var id, account := RemoteId(TenantOf(spec, k.namespace), creds.accessKey), AccountOf(spec, creds, digest);
      w.minio.Serve(AddServiceAccount(id, account)) ==
          (w.minio.(accounts := w.minio.accounts[id := account]), Nil)
  {
    hide Sent;
  }

  lemma AccountMadeUnanswered(w: W, k: Key, spec: AccessKeySpec, secret: Secret, digest: Digest)
    requires AccessKeyLife.HasParent(w, k, spec)
    requires RemoteId(TenantOf(spec, k.namespace), CredsOf(secret).accessKey) !in w.minio.accounts
    ensures
      var creds := CredsOf(secret);
      var id := RemoteId(TenantOf(spec, k.namespace), creds.accessKey);
      CreateAccessKey(Before(w, 2), k, spec, secret, digest) ==
      (Before(w.(minio := w.minio.(accounts := w.minio.accounts[id := AccountOf(spec, creds, digest)])), 4), Transport)
  {
    hide Next, Kube.Kept, Weathered, World.Valid, Server.Serve, AccountOf, Server.Valid;
    UnansweredNext(Before(w, 2), 2);
    UnansweredNext(Before(w, 3), 3);
    AccountServed(w, k, spec, CredsOf(secret), digest);
  }

  lemma SecretTakenBack(w: W, at: Key)
    requires at in w.secrets
    ensures DeleteSecret(Before(w, 4), at).0 == Before(w.(secrets := w.secrets - {at}), 5)
  {
    hide Next, Kube.Kept, Weathered, World.Valid;
    UnansweredNext(Before(w, 4), 4);
  }

  /**
   An account whose creation is carried out but not answered stays behind with a secret key nobody has:
   the pass takes its secret back and records nothing.
   */
  lemma UnansweredRequestOrphans(w: W, k: Key, roll: Roll)
    requires Awaiting(w, k) && Unreferred(w.objects[k].spec)
    requires Desired(w, k.namespace, w.objects[k].spec, None, roll).1 == Nil
    requires
      var spec, creds := w.objects[k].spec, Desired(w, k.namespace, w.objects[k].spec, None, roll).2;
      && Key(k.namespace, spec.secretName) !in w.secrets && AccessKeyLife.HasParent(w, k, spec)
      && Place(spec.tenantRef, k.namespace, creds.accessKey) !in w.minio.accounts
    ensures
      var spec, creds := w.objects[k].spec, Desired(w, k.namespace, w.objects[k].spec, None, roll).2;
      var v := Pass(w.(weather := Unanswered()), k, roll);
      var id := Place(spec.tenantRef, k.namespace, creds.accessKey);
      && v.objects == w.objects && v.secrets == w.secrets && id in v.minio.accounts
      && Wanted(v.minio.accounts[id], spec, creds.secretKey, roll.digest)
      && v.minio == w.minio.(accounts := w.minio.accounts[id := v.minio.accounts[id]])
  {
    hide Next, Update, World.Valid, Desired, Kube.Kept, Weathered, AccountOf, Wanted, Server.Valid;
    hide CreateSecret, CreateAccessKey, DeleteSecret, DataOf, CredsOf, Server.Serve, UpdateAccessKey;
    hide UpdateCredentialsSecret, Teardown;
    var ak, spec, at := w.objects[k], w.objects[k].spec, SecretOf(w.objects[k].spec, k.namespace);
    var creds := Desired(w, k.namespace, spec, None, roll).2;
    assert w.(weather := Unanswered()) == Before(w, 0);
    UnansweredNext(Before(w, 0), 0);
    UnreferredDesired(w, Before(w, 1), k.namespace, spec, roll);
    SecretMade(w, at, DataOf(creds), k);
    var secret := Secret(DataOf(creds), Some(k), w.clock);
    var x := w.(secrets := w.secrets[at := secret], clock := w.clock + 1);
    CredsStored(creds, k, w.clock);
    AccountMadeUnanswered(x, k, spec, secret, roll.digest);
    var id := Place(spec.tenantRef, k.namespace, creds.accessKey);
    SecretTakenBack(x.(minio := w.minio.(accounts := w.minio.accounts[id := AccountOf(spec, creds, roll.digest)])), at);
    AccountWanted(spec, creds, roll.digest);
    assert w.secrets[at := secret] - {at} == w.secrets;
  }

  /** The secrets once the one recorded under another name has gone. */
  function Left(w: W, k: Key, ak: Resource): map<Key, Secret>
    requires ak.status.Some?
  {
    if ak.spec.secretName == ak.status.value.secretName then w.secrets
    else w.secrets - {Key(k.namespace, ak.status.value.secretName)}
  }

  /** The credentials in use: those of the generated secret, unless it changes its name. */
  function InUse(w: W, k: Key, ak: Resource): Option<Creds>
    requires ak.status.Some?
  {
    var at := Key(k.namespace, ak.spec.secretName);
    if ak.spec.secretName != ak.status.value.secretName || at !in w.secrets then None
    else Some(Creds(w.secrets[at].Field("accessKey"), w.secrets[at].Field("secretKey")))
  }

  /** The credentials the pass settles on, if they can be had. */
  function Settles(w: W, k: Key, ak: Resource, roll: Roll): (Err, Creds)
    requires ak.status.Some?
  {
    var (_, err, creds) := Desired(w.(secrets := Left(w, k, ak)), k.namespace, ak.spec, InUse(w, k, ak), roll);
    (err, creds)
  }

  lemma SettlesChosen(w: W, k: Key, ak: Resource, roll: Roll)
    requires Keeping(w, k) && w.objects[k] == ak && ak.stamp < w.clock
    requires
      var at := Key(k.namespace, ak.spec.secretName);
      Settles(w, k, ak, roll).0 == Nil && (InUse(w, k, ak).None? ==> at !in Left(w, k, ak))
    ensures AccessKeyChecks.Ready(w, k, ak, roll) && AccessKeyChecks.Chosen(w, k, ak, roll) == Settles(w, k, ak, roll).1
    ensures AccessKeyChecks.Bared(w, k, ak).secrets == Left(w, k, ak)
    ensures AccessKeyChecks.Present(w, k, ak) == InUse(w, k, ak)
  {
    hide World.Valid, Desired;
  }

  /** The account carries the attributes of the spec; its policy has the hash of the spec's. */
  predicate Carries(a: Attributes, spec: AccessKeySpec, digest: Digest) {
    && a.name == spec.name && a.description == spec.description && a.expiration == spec.expiration
    && SameHash(digest, a.policy, spec.policy)
  }

  lemma CorrectedCarries(before: Account, key: string, ak: Resource, stale: bool, digest: Digest)
    requires ak.status.Some?
    ensures
      var after := AccessKeyChecks.Corrected(before, key, ak, stale, digest);
      && Carries(after.attributes, ak.spec, digest) && after.ldap == before.ldap && after.parent == before.parent
      && after.secretKey in {key, before.secretKey} && (stale ==> after.secretKey == key)
  {
    hide Sent, DocPreimage;
  }

  /** A pass has looked after the account `id`. */
  ghost predicate Tended(w: W, v: W, k: Key, ak: Resource, creds: Creds, id: RemoteId, digest: Digest)
    requires ak.status.Some? && id in w.minio.accounts
  {
    var at, before := Key(k.namespace, ak.spec.secretName), w.minio.accounts[id];
    && at in v.secrets && v.secrets == Left(w, k, ak)[at := v.secrets[at]]
    && v.secrets[at].Field("accessKey") == creds.accessKey && v.secrets[at].Field("secretKey") == creds.secretKey
    && id in v.minio.accounts && v.minio == w.minio.(accounts := w.minio.accounts[id := v.minio.accounts[id]])
    && Carries(v.minio.accounts[id].attributes, ak.spec, digest)
    && v.minio.accounts[id].ldap == before.ldap && v.minio.accounts[id].parent == before.parent
    && v.minio.accounts[id].secretKey in {creds.secretKey, before.secretKey}
    && (v.secrets[at].version != ak.stamp ==> v.minio.accounts[id].secretKey == creds.secretKey)
    && k in v.objects && v.objects[k].stamp == v.secrets[at].version
  }

  lemma KeptTended(w: W, v: W, k: Key, ak: Resource, roll: Roll)
    requires Keeping(w, k) && w.objects[k] == ak && AccessKeyChecks.Ready(w, k, ak, roll)
    requires AccessKeyChecks.Kept(w, v, k, ak, roll)
    requires AccessKeyChecks.Bared(w, k, ak).secrets == Left(w, k, ak)
    ensures
      var creds := AccessKeyChecks.Chosen(w, k, ak, roll);
      var id := Place(ak.status.value.tenantRef, k.namespace, creds.accessKey);
      id in w.minio.accounts && Tended(w, v, k, ak, creds, id, roll.digest)
  {
    hide World.Valid, Desired, AccessKeyChecks.Chosen, AccessKeyChecks.Corrected, Carries, AccessKeyChecks.Bared, Left;
    var creds := AccessKeyChecks.Chosen(w, k, ak, roll);
    var id := Place(ak.status.value.tenantRef, k.namespace, creds.accessKey);
    CorrectedCarries(w.minio.accounts[id], creds.secretKey, ak, AccessKeyChecks.Stale(w, k, ak, roll), roll.digest);
  }

  /**
   The spec is recorded. If the account of the credentials settled on is in the tenant on record, it
   carries the attributes of the spec afterwards, and the secret under its new name those credentials;
   else the secret goes.
   */
  lemma Checks(w: W, k: Key, roll: Roll)
    requires Keeping(w, k) && w.objects[k].stamp < w.clock
    requires
      var ak, at := w.objects[k], Key(k.namespace, w.objects[k].spec.secretName);
      Settles(w, k, ak, roll).0 == Nil && (InUse(w, k, ak).None? ==> at !in Left(w, k, ak))
    ensures
      var ak, v, creds := w.objects[k], Pass(w, k, roll), Settles(w, k, w.objects[k], roll).1;
      var id, spec := Place(ak.status.value.tenantRef, k.namespace, creds.accessKey), ak.spec.(migrate := false);
      && k in v.objects && v.objects == w.objects[k := v.objects[k]]
      && v.objects[k] == ak.(spec := spec, status := Some(spec), stamp := v.objects[k].stamp,
          version := v.objects[k].version)
      && if id in w.minio.accounts then Tended(w, v, k, ak, creds, id, roll.digest)
         else v.minio == w.minio && v.secrets == Left(w, k, ak) - {Key(k.namespace, ak.spec.secretName)}
  {
    hide World.Valid, Desired, Pass, Settles, Left, InUse, Tended, AccessKeyChecks.Kept;
    hide AccessKeyChecks.Chosen, AccessKeyChecks.Bared, AccessKeyChecks.Present, AccessKeyChecks.Ready;
    var ak := w.objects[k];
    SettlesChosen(w, k, ak, roll);
    AccessKeyChecks.PassForm(w, k, ak, roll);
    if AccessKeyChecks.Account(w, k, ak, roll) in w.minio.accounts {
      KeptTended(w, Pass(w, k, roll), k, ak, roll);
    }
  }

  lemma RenameBecomes(w: W, k: Key, ak: Resource)
    requires Keeping(w, k) && w.objects[k] == ak && ak.spec.secretName != ak.status.value.secretName
    ensures
      var (v, err, p) := Rename(w, k, ak, SecretOf(ak.status.value, k.namespace) in w.secrets);
      var renamed := ak.(status := Some(ak.status.value.(secretName := ak.spec.secretName)));
      && err == Nil && v.Valid() && k in v.objects && v.objects[k] == p && p == renamed.(version := p.version)
      && v == Becomes(w.(secrets := Left(w, k, ak)), k, renamed, w.minio)
  {
    hide Next, Update, Store, Along, Held, Kube.Kept, Weathered;
    var at := SecretOf(ak.status.value, k.namespace);
    var x := if at in w.secrets then DeleteSecret(w, at).0 else w;
    assert x == w.(secrets := Left(w, k, ak)) by {
      assert w.secrets - {at} == x.secrets;
    }
    UpdateBecomes(x, k, ak.(status := Some(ak.status.value.(secretName := ak.spec.secretName))));
  }

  /**
   While the credentials cannot be had, or another secret of the new name is in the way, nothing
   happens but the renaming: the old secret goes and the record takes over the name.
   */
  lemma Waits(w: W, k: Key, roll: Roll)
    requires Keeping(w, k)
    requires
      var ak, at := w.objects[k], Key(k.namespace, w.objects[k].spec.secretName);
      Settles(w, k, ak, roll).0 != Nil || (InUse(w, k, ak).None? && at in Left(w, k, ak))
    ensures
      var ak := w.objects[k];
      var renamed := ak.(status := Some(ak.status.value.(secretName := ak.spec.secretName)));
      Pass(w, k, roll) == Becomes(w.(secrets := Left(w, k, ak)), k, renamed, w.minio)
  {
    hide Next, Update, Store, Along, Held, Kube.Kept, Weathered, World.Valid, Desired, Rename, UpdateAccessKey;
    var ak, at := w.objects[k], Key(k.namespace, w.objects[k].spec.secretName);
    var b := w.(secrets := Left(w, k, ak));
    if ak.spec.secretName != ak.status.value.secretName {
      RenameBecomes(w, k, ak);
      var (x, _, p) := Rename(w, k, ak, SecretOf(ak.status.value, k.namespace) in w.secrets);
      AccessKeyChecks.DesiredReads(b, x, k.namespace, ak.spec, None, roll);
    } else {
      AccessKeyChecks.DesiredReads(b, w, k.namespace, ak.spec, InUse(w, k, ak), roll);
      assert ak.status.value.(secretName := ak.spec.secretName) == ak.status.value;
    }
  }

  /** The account that the generated secret names, on the tenant on record, goes with the resource. */
  lemma Deletes(w: W, k: Key, roll: Roll)
    requires Leaving(w, k)
    ensures
      var v, r := Pass(w, k, roll), w.objects[k].status.value;
      var at := Key(k.namespace, r.secretName);
      && v.objects == w.objects - {k}
      && v.minio.accounts ==
           if at !in w.secrets then w.minio.accounts
           else w.minio.accounts - {Place(r.tenantRef, k.namespace, w.secrets[at].Field("accessKey"))}
  {
    hide World.Valid, Pass;
    AccessKeyTeardown.DeletesIfSecret(w, k, roll);
  }
}
