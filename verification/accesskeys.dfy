/** MinioAccessKey: internal/operator/minio_access_key_reconciler.go. */
module AccessKeys {
  import opened Prelude
  import opened Minio
  import opened Kube
  import opened Clients
  import opened Credentials
  import opened PolicyHash
  import opened RandomKeys

  datatype Parent = Parent(builtin: string, ldap: string)

  datatype AccessKeySpec = AccessKeySpec(
    accessKey: string,
    accessKeyRef: SecretKeyRef,
    description: string,
    expiration: Option<int>,
    migrate: bool,
    name: string,
    policy: Doc,
    secretKeyRef: SecretKeyRef,
    secretName: string,
    tenantRef: ResourceRef,
    user: Parent)
  {
    function Attributes(): Attributes {
      Minio.Attributes(name, description, expiration, policy)
    }
  }

  type W = World<AccessKeySpec>
  type Resource = Object<AccessKeySpec>

  const ACCESS_KEY := "accessKey"
  const SECRET_KEY := "secretKey"

  /** What a pass finds on its machine: random bytes, if the source yields any, and the digest behind getHash. */
  datatype Machine = Machine(first: Option<seq<Byte>>, second: Option<seq<Byte>>, digest: Digest) {
    predicate Enough() {
      && (first.Some? ==> |first.value| == NumBytes(20))
      && (second.Some? ==> |second.value| == NumBytes(40))
    }

    function AccessKey(): (r: Option<string>)
      requires Enough()
      ensures r.Some? <==> first.Some?
      ensures r.Some? ==> |r.value| == 20
    {
      if first.Some? then Some(RandomString(first.value, 20)) else None
    }

    function SecretKey(): (r: Option<string>)
      requires Enough()
      ensures r.Some? <==> second.Some?
      ensures r.Some? ==> |r.value| == 40
    {
      if second.Some? then Some(RandomString(second.value, 40)) else None
    }
  }

  type Roll = m: Machine | m.Enough() witness Machine(None, None, (s: string) => s)

  function CredsOf(secret: Secret): Creds {
    Creds(secret.Field(ACCESS_KEY), secret.Field(SECRET_KEY))
  }

  function DataOf(creds: Creds): map<string, string> {
    map[ACCESS_KEY := creds.accessKey, SECRET_KEY := creds.secretKey]
  }

  function TenantOf(spec: AccessKeySpec, ns: string): ResourceRef {
    spec.tenantRef.SetDefaultNamespace(ns)
  }

  function SecretOf(spec: AccessKeySpec, ns: string): Key {
    Key(ns, spec.secretName)
  }

  /** The value a reference to a secret leads to. */
  function Resolve(w: W, ref: SecretKeyRef, ns: string): (W, Err, string) {
    var (w, err) := Ask(w);                                     // get the secret
    var at := ref.Target(ns);
    if err != Nil then (w, err, "")
    else if at !in w.secrets then (w, NotFound, "")
    else if ref.key !in w.secrets[at].data then (w, Refused, "")
    else (w, Nil, w.secrets[at].data[ref.key])
  }

  /** The first of the given values that is not empty; without migration a random one in the last resort. */
  function Choose(given: string, current: string, migrate: bool, random: Option<string>): (Err, string) {
    if given != "" then (Nil, given)
    else if current != "" then (Nil, current)
    else if migrate then (Nil, "")
    else if random.None? then (Refused, "")
    else (Nil, random.value)
  }

  /** The credentials the resource should have: given outright or by reference, kept, or made up. */
  function Desired(w: W, ns: string, spec: AccessKeySpec, current: Option<Creds>, roll: Roll): (W, Err, Creds) {
    var none := Creds("", "");
    var kept := if current.Some? then current.value else none;
    var (w, err, given) :=
      if spec.accessKey != "" || spec.accessKeyRef == NO_REF then (w, Nil, spec.accessKey)
          else Resolve(w, spec.accessKeyRef, ns);
    if err != Nil then (w, err, none) else
    var (err, accessKey) := Choose(given, kept.accessKey, spec.migrate, roll.AccessKey());
    if err != Nil then (w, err, none) else
    var (w, err, given) := if spec.secretKeyRef == NO_REF then (w, Nil, "") else Resolve(w, spec.secretKeyRef, ns);
    if err != Nil then (w, err, none) else
    var (err, secretKey) := Choose(given, kept.secretKey, spec.migrate, roll.SecretKey());
    if err != Nil then (w, err, none) else
    if spec.migrate && (accessKey == "" || secretKey == "") then (w, Refused, none)
    else (w, Nil, Creds(accessKey, secretKey))
  }

  function CreateCredentialsSecret(w: W, k: Key, spec: AccessKeySpec, roll: Roll): (W, Err, Secret) {
    var (w, err, creds) := Desired(w, k.namespace, spec, None, roll);
    if err != Nil then (w, err, Secret(map[], None, 0))
    else CreateSecret(w, SecretOf(spec, k.namespace), DataOf(creds), k)
  }

  /** The secret has been given another name: the old one goes, and the new name is recorded. */
  function Rename(w: W, k: Key, ak: Resource, found: bool): (r: (W, Err, Resource))
    requires ak.status.Some?
    ensures r.2.status.Some?
  {
    var (w, err) := if found then DeleteSecret(w, SecretOf(ak.status.value, k.namespace)) else Ask(w);
    if Ignore(err, NotFound) != Nil then (w, err, ak)
    else Update(w, k, ak.(status := Some(ak.status.value.(secretName := ak.spec.secretName))))
  }

  /** Brings an existing secret up to date. */
  function Refresh(w: W, k: Key, ak: Resource, secret: Secret, roll: Roll): (W, Err, Secret)
    requires ak.status.Some?
  {
    var (w, err, desired) := Desired(w, k.namespace, ak.spec, Some(CredsOf(secret)), roll);
    if err != Nil then (w, err, secret)
    else if CredsOf(secret) == desired then (w, Nil, secret)
    else UpdateSecret(w, SecretOf(ak.status.value, k.namespace), secret, secret.data + DataOf(desired))
  }

  function UpdateCredentialsSecret(w: W, k: Key, ak: Resource, roll: Roll): (r: (W, Err, Resource, Secret))
    requires ak.status.Some?
    ensures r.2.status.Some?
  {
    var none := Secret(map[], None, 0);
    var at := SecretOf(ak.status.value, k.namespace);
    var (w, err) := Ask(w);                                     // get the generated secret
    if err != Nil then (w, err, ak, none) else
    var found := at in w.secrets;
    if ak.spec.secretName != ak.status.value.secretName then
      var (w, err, ak) := Rename(w, k, ak, found);
      if err != Nil then (w, err, ak, none) else
      var (w, err, secret) := CreateCredentialsSecret(w, k, ak.spec, roll);
      (w, err, ak, secret)
    else if !found then
      var (w, err, secret) := CreateCredentialsSecret(w, k, ak.spec, roll);
      (w, err, ak, secret)
    else
      var (w, err, secret) := Refresh(w, k, ak, w.secrets[at], roll);
      (w, err, ak, secret)
  }

  /** Attributes that must be written; policies are compared by their hashes. */
  predicate Differ(digest: Digest, a: Attributes, b: Attributes) {
    || a.description != b.description || a.expiration != b.expiration || a.name != b.name
    || !SameHash(digest, a.policy, b.policy)
  }

  /** The attributes as they are sent: a policy hashed like the empty one is left out. */
  function Sent(digest: Digest, a: Attributes): (r: Attributes)
    ensures !Differ(digest, r, a)
  {
    if SameHash(digest, a.policy, EMPTY_DOC) then a.(policy := EMPTY_DOC) else a
  }

  lemma DifferMeans(digest: Digest, a: Attributes, b: Attributes)
    ensures Differ(digest, a, b) <==>
        || a.description != b.description || a.expiration != b.expiration || a.name != b.name
        || digest(DocPreimage(digest, a.policy)) != digest(DocPreimage(digest, b.policy))
    ensures Sent(digest, b) ==
        if digest(DocPreimage(digest, b.policy)) == digest(DocPreimage(digest, EMPTY_DOC)) then b.(policy := EMPTY_DOC)
        else b
  {
  }

  /** The key is missing on the server: the secret goes, and the status with it. */
  function Forget(w: W, k: Key, ak: Resource): (W, Err, Resource)
    requires ak.status.Some?
  {
    var at := SecretOf(ak.status.value, k.namespace);
    var (w, err) := Ask(w);                                     // get the secret
    if err != Nil then (w, err, ak) else
    var (w, err) := if at in w.secrets then DeleteSecret(w, at) else (w, Nil);
    if err != Nil then (w, err, ak) else
    Update(w, k, ak.(status := None))
  }

  /** Attributes and secret key of an access key that exists. */
  function Correct(w: W, id: RemoteId, ak: Resource, secret: Secret, digest: Digest): (W, Err)
    requires ak.status.Some? && id in w.minio.accounts
  {
    var key, recorded, wanted := CredsOf(secret).secretKey, ak.status.value.Attributes(), ak.spec.Attributes();
    var (w, err) :=
      if Differ(digest, w.minio.accounts[id].attributes, recorded) then Send(w, UpdateServiceAccount(id, key, recorded))
      else (w, Nil);
    if err != Nil then (w, err)
    else if Differ(digest, recorded, wanted) || secret.version != ak.stamp then
      Send(w, UpdateServiceAccount(id, key, Sent(digest, wanted)))
    else (w, Nil)
  }

  lemma CorrectSteps(w: W, id: RemoteId, ak: Resource, secret: Secret, digest: Digest)
    requires ak.status.Some? && id in w.minio.accounts
    ensures
      var key, recorded, wanted := CredsOf(secret).secretKey, ak.status.value.Attributes(), ak.spec.Attributes();
      var r := if Differ(digest, w.minio.accounts[id].attributes, recorded)
        then Send(w, UpdateServiceAccount(id, key, recorded)) else (w, Nil);
      Correct(w, id, ak, secret, digest) ==
        if r.1 == Nil && (Differ(digest, recorded, wanted) || secret.version != ak.stamp)
        then Send(r.0, UpdateServiceAccount(id, key, Sent(digest, wanted))) else r
  {
    hide Send, Differ, Sent;
  }

  function UpdateAccessKey(w: W, k: Key, ak: Resource, secret: Secret, digest: Digest): (W, Err, Resource)
    requires ak.status.Some?
  {
    var (w, err, ak) := if ak.spec.migrate then Update(w, k, ak.(spec := ak.spec.(migrate := false))) else (w, Nil, ak);
    if err != Nil then (w, err, ak) else
    var (w, err) := Ask(w);                                     // get tenant admin client
    if err != Nil then (w, err, ak) else
    var id := RemoteId(TenantOf(ak.status.value, k.namespace), CredsOf(secret).accessKey);
    var (w, err) := Ask(w);                                     // get minio access key
    if err != Nil then (w, err, ak)
    else if id !in w.minio.accounts then Forget(w, k, ak)
    else
      var (w, err) := Correct(w, id, ak, secret, digest);
      (w, err, ak)
  }

  /** The spec as it stands is recorded, with the version of the secret. */
  function Recorded(ak: Resource, secret: Secret): Resource {
    ak.(status := Some(ak.spec), stamp := secret.version)
  }

  function Check(w: W, k: Key, ak: Resource, roll: Roll): W
    requires ak.status.Some?
  {
    var (w, err, ak, secret) := UpdateCredentialsSecret(w, k, ak, roll);
    if err != Nil then w else
    var (w, err, ak) := UpdateAccessKey(w, k, ak, secret, roll.digest);
    if err != Nil then w else
    Update(w, k, Recorded(ak, secret)).0
  }

  function AccountOf(spec: AccessKeySpec, creds: Creds, digest: Digest): Account {
    var ldap := spec.user.ldap != "";
    Account(if ldap then spec.user.ldap else spec.user.builtin, ldap, creds.secretKey, Sent(digest, spec.Attributes()))
  }

  function CreateAccessKey(w: W, k: Key, spec: AccessKeySpec, secret: Secret, digest: Digest): (W, Err) {
    var (w, err) := Ask(w);                                     // get tenant admin client
    if err != Nil then (w, err) else
    var creds := CredsOf(secret);
    var id := RemoteId(TenantOf(spec, k.namespace), creds.accessKey);
    var (w, err) := Send(w, AddServiceAccount(id, AccountOf(spec, creds, digest)));
    (w, if spec.migrate then Ignore(err, AccessKeyTaken) else err)
  }

  /** The access key in use becomes part of the spec, so that regenerated secrets keep it. */
  function Created(ak: Resource, secret: Secret): Resource {
    Recorded(ak.(spec := ak.spec.(accessKey := CredsOf(secret).accessKey, migrate := false)), secret)
  }

  function Create(w: W, k: Key, ak: Resource, roll: Roll): W {
    var (w, err, secret) := CreateCredentialsSecret(w, k, ak.spec, roll);
    if err != Nil then w else
    var (w, err) := CreateAccessKey(w, k, ak.spec, secret, roll.digest);
    if err != Nil then DeleteSecret(w, SecretOf(ak.spec, k.namespace)).0
    else Update(w, k, Created(ak, secret)).0
  }

  function DeleteAccessKey(w: W, k: Key, ak: Resource): (W, Err) {
    if ak.status.None? then (w, Nil) else
    var at := SecretOf(ak.status.value, k.namespace);
    var (w, err) := Ask(w);                                     // get the generated secret
    if err != Nil then (w, err) else
    if at !in w.secrets then (w, Nil) else                      // no way to tell the access key
    var id := RemoteId(TenantOf(ak.status.value, k.namespace), CredsOf(w.secrets[at]).accessKey);
    var (w, err) := Ask(w);                                     // get tenant admin client
    if err != Nil then (w, err) else
    var (w, err) := Send(w, DeleteServiceAccount(id));
    (w, Ignore(err, InvalidIAMCredentials))
  }

  function Teardown(w: W, k: Key, ak: Resource): W {
    var (w, err) := DeleteAccessKey(w, k, ak);
    if err != Nil then w else
    var (w, err, ak) := Update(w, k, ak.(status := None));
    if err != Nil then w else
    Update(w, k, ak.(finalizer := false)).0
  }

  /** One reconciliation of the access key resource under `k`. */
  function Pass(w: W, k: Key, roll: Roll): W {
    var (w, err) := Ask(w);                                     // get the resource
    if err != Nil || k !in w.objects then w else
    var ak := w.objects[k];
    if ak.deleting then Teardown(w, k, ak)
    else if !ak.finalizer then Update(w, k, ak.(finalizer := true)).0
    else if ak.status.Some? then Check(w, k, ak, roll)
    else Create(w, k, ak, roll)
  }

  class Reconciler {
    const client: Client<AccessKeySpec>
    var ak: Resource                                            // the resource in the hands of the pass

    constructor (client: Client<AccessKeySpec>)
      ensures this.client == client
    {
      this.client := client;
      ak := Object(
        AccessKeySpec("", NO_REF, "", None, false, "", EMPTY_DOC, NO_REF, "", ResourceRef("", ""), Parent("", "")),
        None, 0, false, false, 0);
    }

    /** Follows a reference to a key of a secret. */
    method Follow(ref: SecretKeyRef, ns: string) returns (err: Err, value: string)
      modifies client
      ensures (client.State(), err) ==
          (Resolve(old(client.State()), ref, ns).0, Resolve(old(client.State()), ref, ns).1)
      ensures err == Nil ==> value == Resolve(old(client.State()), ref, ns).2
    {
      var secret;
      value := "";
      err, secret := client.GetSecret(ref.Target(ns));
      if err != Nil { return; }
      if ref.key !in secret.data {
        err := Refused;
        return;
      }
      value := secret.data[ref.key];
    }

    /** Fills in the credentials the resource in hand should have, step by step. */
    method GetDesiredCredentials(ns: string, current: Option<Creds>, roll: Roll) returns (err: Err, creds: Creds)
      modifies client
      ensures
        var r := Desired(old(client.State()), ns, ak.spec, current, roll);
        (client.State(), err) == (r.0, r.1) && (err == Nil ==> creds == r.2)
    {
      hide Resolve, Next, Ask, RandomString, NumBytes;
      var random;
      err, creds := Nil, Creds(ak.spec.accessKey, "");

      // determine the desired access key
      if creds.accessKey == "" && ak.spec.accessKeyRef != NO_REF {
        var value;
        err, value := Follow(ak.spec.accessKeyRef, ns);
        if err != Nil { return; }
        creds := creds.(accessKey := value);
      }
      if creds.accessKey == "" && current.Some? {
        creds := creds.(accessKey := current.value.accessKey);
      }
      if creds.accessKey == "" && !ak.spec.migrate {
        random := CreateRandomString(20, roll.first);
        if random.None? { return Refused, creds; }
        creds := creds.(accessKey := random.value);
      }

      // determine the desired secret key
      if ak.spec.secretKeyRef != NO_REF {
        var value;
        err, value := Follow(ak.spec.secretKeyRef, ns);
        if err != Nil { return; }
        creds := creds.(secretKey := value);
      }
      if creds.secretKey == "" && current.Some? {
        creds := creds.(secretKey := current.value.secretKey);
      }
      if creds.secretKey == "" && !ak.spec.migrate {
        random := CreateRandomString(40, roll.second);
        if random.None? { return Refused, creds; }
        creds := creds.(secretKey := random.value);
      }

      if ak.spec.migrate && (creds.accessKey == "" || creds.secretKey == "") { err := Refused; }
    }

    /** Creates the generated secret of the resource in hand. */
    method CreateSecretOfResource(req: Key, roll: Roll) returns (err: Err, secret: Secret)
      modifies client
      ensures
        var r := CreateCredentialsSecret(old(client.State()), req, ak.spec, roll);
        (client.State(), err) == (r.0, r.1) && (err == Nil ==> secret == r.2)
    {
      hide Desired;
      var creds;
      secret := Secret(map[], None, 0);
      err, creds := GetDesiredCredentials(req.namespace, None, roll);
      if err != Nil { return; }
      err, secret := client.CreateSecret(SecretOf(ak.spec, req.namespace), DataOf(creds), req);
    }

    /** Renames, regenerates or refreshes the generated secret of the resource in hand. */
    method UpdateSecretOfResource(req: Key, roll: Roll) returns (err: Err, secret: Secret)
      requires ak.status.Some?
      modifies client, this`ak
      ensures
        var r := UpdateCredentialsSecret(old(client.State()), req, old(ak), roll);
        (client.State(), err) == (r.0, r.1) && (err == Nil ==> ak == r.2 && secret == r.3)
    {
      hide Desired, CreateCredentialsSecret, Kube.DeleteSecret, Kube.UpdateSecret, Update, Next;
      var at := SecretOf(ak.status.value, req.namespace);
      err, secret := client.GetSecret(at);
      var found := err != NotFound;
      err := Ignore(err, NotFound);
      if err != Nil { return; }

      if ak.spec.secretName != ak.status.value.secretName {
        if found { err := client.DeleteSecret(at); } else { err := client.Read(); }
        err := Ignore(err, NotFound);
        if err != Nil { return; }
        found := false;
        ak := ak.(status := Some(ak.status.value.(secretName := ak.spec.secretName)));
        err, ak := client.Put(req, ak);
        if err != Nil { return; }
      }

      if !found {
        err, secret := CreateSecretOfResource(req, roll);
        return;
      }

      var current, desired := CredsOf(secret), Creds("", "");
      err, desired := GetDesiredCredentials(req.namespace, Some(current), roll);
      if err != Nil { return; }
      if current != desired {
        err, secret := client.UpdateSecret(at, secret, secret.data + DataOf(desired));
      }
    }

    /** The key of the resource in hand is missing on the server. */
    method ForgetKey(req: Key) returns (err: Err)
      requires ak.status.Some?
      modifies client, this`ak
      ensures
        var r := Forget(old(client.State()), req, old(ak));
        (client.State(), err) == (r.0, r.1) && (err == Nil ==> ak == r.2)
    {
      hide Kube.DeleteSecret, Update, Next;
      var at, secret := SecretOf(ak.status.value, req.namespace), Secret(map[], None, 0);
      err, secret := client.GetSecret(at);
      var found := err != NotFound;
      err := Ignore(err, NotFound);
      if err != Nil { return; }
      if found {
        err := client.DeleteSecret(at);
        if err != Nil { return; }
      }
      ak := ak.(status := None);
      err, ak := client.Put(req, ak);
    }

    /** Writes the attributes on record, then those asked for, where they differ. */
    method CorrectKey(id: RemoteId, secret: Secret, msa: Attributes, digest: Digest) returns (err: Err)
      requires ak.status.Some? && id in client.minio.accounts && client.minio.accounts[id].attributes == msa
      modifies client
      ensures (client.State(), err) == Correct(old(client.State()), id, ak, secret, digest)
    {
      hide Send, Next, DocPreimage, CredsOf, Differ, Sent, Kept, Weathered, World.Valid;
      err := Nil;
      var creds, current := CredsOf(secret), ak.status.value;
      var remote := GetHash(digest, msa.policy);
      var recorded := GetHash(digest, current.policy);
      var wanted := GetHash(digest, ak.spec.policy);
      var empty := GetHash(digest, EMPTY_DOC);
      var drifted :=
        || msa.description != current.description || msa.expiration != current.expiration || msa.name != current.name
        || remote != recorded;
      var edited :=
        || current.description != ak.spec.description || current.expiration != ak.spec.expiration
        || current.name != ak.spec.name || recorded != wanted;
      var policy := if wanted != empty then ak.spec.policy else EMPTY_DOC;
      DifferMeans(digest, msa, current.Attributes());
      DifferMeans(digest, current.Attributes(), ak.spec.Attributes());
      var asked := ak.spec.Attributes().(policy := policy);
      CorrectSteps(client.State(), id, ak, secret, digest);
      hide Correct;
      if drifted {
        err := client.Request(UpdateServiceAccount(id, creds.secretKey, current.Attributes()));
        if err != Nil { return; }
      }
      if edited || secret.version != ak.stamp {
        err := client.Request(UpdateServiceAccount(id, creds.secretKey, asked));
      }
    }

    /** Updates the access key on the server. */
    method UpdateKeyOfResource(req: Key, secret: Secret, digest: Digest) returns (err: Err)
      requires ak.status.Some?
      modifies client, this`ak
      ensures
        var r := UpdateAccessKey(old(client.State()), req, old(ak), secret, digest);
        (client.State(), err) == (r.0, r.1) && (err == Nil ==> ak == r.2)
    {
      hide Forget, Update, Send, Next, Correct;
      if ak.spec.migrate {
        ak := ak.(spec := ak.spec.(migrate := false));
        err, ak := client.Put(req, ak);
        if err != Nil { return; }
      }
      err := client.Read();                                     // get tenant admin client
      if err != Nil { return; }
      var creds := CredsOf(secret);
      var id := RemoteId(TenantOf(ak.status.value, req.namespace), creds.accessKey);
      var msa;
      err, msa := client.InfoServiceAccount(id);
      var found := err != InvalidIAMCredentials;
      err := Ignore(err, InvalidIAMCredentials);
      if err != Nil { return; }
      if !found {
        err := ForgetKey(req);
        return;
      }
      err := CorrectKey(id, secret, msa.value, digest);
    }

    /** Creates the access key on the server. */
    method CreateKeyOfResource(req: Key, secret: Secret, digest: Digest) returns (err: Err)
      modifies client
      ensures (client.State(), err) == CreateAccessKey(old(client.State()), req, ak.spec, secret, digest)
    {
      hide Send, Next, DocPreimage;
      err := client.Read();                                     // get tenant admin client
      if err != Nil { return; }
      var creds := CredsOf(secret);
      var policy := EMPTY_DOC;
      var wanted := GetHash(digest, ak.spec.policy);
      var empty := GetHash(digest, EMPTY_DOC);
      if wanted != empty { policy := ak.spec.policy; }
      var ldap, user := false, ak.spec.user.builtin;
      if ak.spec.user.ldap != "" {
        user := ak.spec.user.ldap;
        ldap := true;
      }
      var account := Account(user, ldap, creds.secretKey, ak.spec.Attributes().(policy := policy));
      err := client.Request(AddServiceAccount(RemoteId(TenantOf(ak.spec, req.namespace), creds.accessKey), account));
      if err == AccessKeyTaken && ak.spec.migrate { err := Nil; }
    }

    /** Deletes the access key the generated secret names. */
    method DeleteKeyOfResource(req: Key) returns (err: Err)
      modifies client
      ensures (client.State(), err) == DeleteAccessKey(old(client.State()), req, ak)
    {
      hide Send, Next;
      err := Nil;
      if ak.status.Some? {
        var secret;
        err, secret := client.GetSecret(SecretOf(ak.status.value, req.namespace));
        if err == NotFound { return Nil; }
        if err != Nil { return; }
        err := client.Read();                                   // get tenant admin client
        if err != Nil { return; }
        err := client.Request(DeleteServiceAccount(RemoteId(TenantOf(ak.status.value, req.namespace),
            CredsOf(secret).accessKey)));
        err := Ignore(err, InvalidIAMCredentials);
      }
    }

    /** Reconciles the access key resource under `req`. */
    method Reconcile(req: Key, roll: Roll)
      modifies client, this`ak
      ensures client.State() == Pass(old(client.State()), req, roll)
    {
      hide Next, UpdateCredentialsSecret, UpdateAccessKey, CreateCredentialsSecret, CreateAccessKey, DeleteAccessKey;
      hide Update, Kube.DeleteSecret;
      var err, found := client.Get(req);
      if err != Nil { return; }
      ak := found.value;

      if ak.deleting {
        err := DeleteKeyOfResource(req);
        if err != Nil { return; }
        ak := ak.(status := None);
        err, ak := client.Put(req, ak);
        if err != Nil { return; }
        ak := ak.(finalizer := false);
        err, ak := client.Put(req, ak);
        return;
      }

      if !ak.finalizer {
        ak := ak.(finalizer := true);
        err, ak := client.Put(req, ak);
        return;
      }

      var secret;
      if ak.status.Some? {
        err, secret := UpdateSecretOfResource(req, roll);
        if err != Nil { return; }
        err := UpdateKeyOfResource(req, secret, roll.digest);
        if err != Nil { return; }
        ak := ak.(status := Some(ak.spec));
        ak := ak.(stamp := secret.version);
        err, ak := client.Put(req, ak);
        return;
      }

      if ak.status.None? {
        err, secret := CreateSecretOfResource(req, roll);
        if err != Nil { return; }
        err := CreateKeyOfResource(req, secret, roll.digest);
        if err != Nil {
          var _ := client.DeleteSecret(SecretOf(ak.spec, req.namespace));
          return;
        }
        ak := ak.(spec := ak.spec.(accessKey := secret.Field(ACCESS_KEY)));
        ak := ak.(spec := ak.spec.(migrate := false));
        ak := ak.(status := Some(ak.spec));
        ak := ak.(stamp := secret.version);
        err, ak := client.Put(req, ak);
      }
    }
  }
}
