/** MinioUser: internal/operator/minio_user_reconciler.go. */
module Users {
  import opened Prelude
  import opened Minio
  import opened Kube
  import opened Ownership
  import opened Branches
  import opened Clients
  import opened Runs

  datatype UserSpec = UserSpec(
    accessKey: string,
    accessKeyRef: SecretKeyRef,
    migrate: bool,
    secretKeyRef: SecretKeyRef,
    tenantRef: ResourceRef)

  type W = World<UserSpec>
  type Resource = Object<UserSpec>

  /** The user a recorded spec names; its access key has been resolved. */
  function Target(idp: Idp, spec: UserSpec, ns: string): RemoteId {
    RemoteId(spec.tenantRef.SetDefaultNamespace(ns), spec.accessKey)
  }

  const KIND: Kind<UserSpec, RemoteId, string> :=
    Kind(Target, (s: UserSpec) => s.migrate, (s: UserSpec) => s.migrate ||
        s.accessKey == "", (m: Server) => m.users, Part.Users, (w: W, k: Key) => true)

  function Settled(u: Resource): Resource {
    u.(spec := u.spec.(migrate := false))
  }

  function Created(u: Resource, accessKey: string, stamp: nat): Resource {
    var spec := u.spec.(accessKey := accessKey, migrate := false);
    u.(spec := spec, status := Some(spec), stamp := stamp)
  }

  /** The access key of a spec: given outright, or looked up; never empty on success. */
  function AccessKey(w: W, spec: UserSpec, ns: string): (r: (W, Err, string))
    ensures spec.accessKey != "" ==> r == (w, Nil, spec.accessKey)
    ensures r.1 == Nil ==> r.2 != ""
    ensures r.1 == Nil ==> r.0 == w || (r.0 == Ask(w).0 && Ask(w).1 == Nil)
    ensures r.0 == w || r.0 == Ask(w).0
  {
    if spec.accessKey != "" then (w, Nil, spec.accessKey)
    else if spec.accessKeyRef == NO_REF then (w, Refused, "")
    else
      var (w, err) := Ask(w);                                   // get the secret
      var ref := spec.accessKeyRef.Target(ns);
      if err != Nil then (w, err, "")
      else if ref !in w.secrets then (w, NotFound, "")
      else if spec.accessKeyRef.key !in w.secrets[ref].data then (w, Refused, "")
      else if w.secrets[ref].data[spec.accessKeyRef.key] == "" then (w, Refused, "")
      else (w, Nil, w.secrets[ref].data[spec.accessKeyRef.key])
  }

  function Teardown(w: W, k: Key, u: Resource): W {
    if u.status.None? then Update(w, k, u.(finalizer := false)).0 else
    var (w, err) := Ask(w);                                     // get tenant admin client
    if err != Nil then w else
    var (w, err, accessKey) := AccessKey(w, u.status.value, k.namespace);
    if err != Nil then w else
    Release(w, k, u, RemoveUser(Target(w.minio.idp, u.status.value.(accessKey := accessKey), k.namespace)),
        {NoSuchUser})
  }

  function Compare(w: W, k: Key, u: Resource): W
    requires u.status.Some?
  {
    var spec := u.status.value;
    var (w, err) := Ask(w);                                     // get tenant admin client
    if err != Nil then w else
    var (w, err, accessKey) := AccessKey(w, spec, k.namespace);
    if err != Nil then w else
    var id := Target(w.minio.idp, spec.(accessKey := accessKey), k.namespace);
    var (w, err) := Ask(w);                                     // get user info
    if err != Nil then w else
    if id !in w.minio.users then Update(w, k, u.(status := None)).0 else
    var (w, err) := Ask(w);                                     // get the secret of the secret key
    var ref := spec.secretKeyRef.Target(k.namespace);
    if err != Nil || ref !in w.secrets || w.secrets[ref].version == u.stamp then w else
    Adopt(w, k, u.(stamp := w.secrets[ref].version), AddUser(id, w.secrets[ref].Field(spec.secretKeyRef.key)), {})
  }

  function Check(w: W, k: Key, u: Resource): W
    requires u.status.Some?
  {
    var (w, err, u) := if u.spec.migrate then Update(w, k, Settled(u)) else (w, Nil, u);
    if err != Nil then w else Compare(w, k, u)
  }

  function Create(w: W, k: Key, u: Resource): W {
    var (w, err) := Ask(w);                                     // get tenant admin client
    if err != Nil then w else
    var (w, err, accessKey) := AccessKey(w, u.spec, k.namespace);
    if err != Nil then w else
    var id := Target(w.minio.idp, u.spec.(accessKey := accessKey), k.namespace);
    var (w, err) := Ask(w);                                     // get user info
    if err != Nil || (id in w.minio.users && !u.spec.migrate) then w else
    var (w, err) := Ask(w);                                     // get the secret of the secret key
    var ref := u.spec.secretKeyRef.Target(k.namespace);
    if err != Nil || ref !in w.secrets then w else
    Adopt(w, k, Created(u, accessKey, w.secrets[ref].version),
        AddUser(id, w.secrets[ref].Field(u.spec.secretKeyRef.key)), {})
  }

  /** One reconciliation of the user resource under `k`. */
  function Pass(w: W, k: Key): W {
    var (w, err) := Ask(w);                                     // get the resource
    if err != Nil || k !in w.objects then w else
    var u := w.objects[k];
    if u.deleting then Teardown(w, k, u)
    else if !u.finalizer then Update(w, k, u.(finalizer := true)).0
    else if u.status.Some? then Check(w, k, u)
    else Create(w, k, u)
  }

  lemma KindLawful()
    ensures Lawful(KIND)
  {
  }

  lemma RemoveUserRemoves(idp: Idp, id: RemoteId)
    ensures Removes(KIND, idp, RemoveUser(id), {NoSuchUser}, id)
  {
  }

  lemma AddUserMakes(idp: Idp, id: RemoteId, secretKey: string)
    ensures Makes(KIND, idp, AddUser(id, secretKey), {}, id) && Alters(KIND, idp, AddUser(id, secretKey), id)
  {
  }

  lemma AccessKeyReaches(u0: W, w: W, k: Key, u: Resource, spec: UserSpec)
    requires Reached(u0, w, k, u, Part.Users)
    ensures Reached(u0, AccessKey(w, spec, k.namespace).0, k, u, Part.Users)
  {
    hide Reached, AccessKey, Ask;
    AskReaches(u0, w, k, u, Part.Users);
  }

  lemma CreateAdopts(u0: W, w: W, w3: W, w4: W, k: Key, u: Resource, accessKey: string, secret: Secret)
    requires Inv(View(KIND, u0)) && Begun(u0, w, k, u) && Reached(u0, w3, k, u, Part.Users)
    requires Reached(u0, w4, k, u, Part.Users)
    requires u.finalizer && u.status.None? && (Plain(KIND, u0, k) ==> !u.spec.migrate) && accessKey != ""
    requires Target(w4.minio.idp, u.spec.(accessKey := accessKey), k.namespace) !in w3.minio.users || u.spec.migrate
    ensures
      var id := Target(w4.minio.idp, u.spec.(accessKey := accessKey), k.namespace);
      var v := Adopt(w4, k, Created(u, accessKey, secret.version),
          AddUser(id, secret.Field(u.spec.secretKeyRef.key)), {});
      v.Valid() && Moves(View(KIND, u0), View(KIND, v), k, ModeOf(KIND, u0, k))
  {
    hide Next, Begun, Moves, Plain, View, Inv, Adopt, Ask, Makes, Alters, Spares, Lawful, Calmly, Along, Held;
    var id := Target(w4.minio.idp, u.spec.(accessKey := accessKey), k.namespace);
    var q := AddUser(id, secret.Field(u.spec.secretKeyRef.key));
    KindLawful();
    AddUserMakes(u0.minio.idp, id, secret.Field(u.spec.secretKeyRef.key));
    SameIdp(u0, w4, k, u, Part.Users);
    CalmRemote(KIND, u0, w3);
    CalmRemote(KIND, u0, w4);
    AdoptMoves(KIND, u0, w, w4, k, u, Created(u, accessKey, secret.version), q, {}, id);
  }

  lemma CreateMoves(u0: W, w: W, k: Key, u: Resource)
    requires Inv(View(KIND, u0)) && Begun(u0, w, k, u) && Reached(u0, w, k, u, Part.Users)
    requires u.finalizer && u.status.None? && (Plain(KIND, u0, k) ==> !u.spec.migrate)
    ensures Create(w, k, u).Valid() && Moves(View(KIND, u0), View(KIND, Create(w, k, u)), k, ModeOf(KIND, u0, k))
  {
    hide Next, Begun, Reached, Moves, Plain, View, Inv, Adopt, Ask, Makes, Alters, Removes, AccessKey, Spares, Lawful;
    hide Calmly;
    KindLawful();
    AskReaches(u0, w, k, u, Part.Users);
    var w1 := Ask(w).0;
    StopMoves(KIND, u0, w, w1, k, u, u);
    var (w2, err, accessKey) := AccessKey(w1, u.spec, k.namespace);
    AccessKeyReaches(u0, w1, k, u, u.spec);
    StopMoves(KIND, u0, w, w2, k, u, u);
    var w3 := Ask(w2).0;
    AskReaches(u0, w2, k, u, Part.Users);
    StopMoves(KIND, u0, w, w3, k, u, u);
    var id := Target(w2.minio.idp, u.spec.(accessKey := accessKey), k.namespace);
    if err == Nil && (id !in w3.minio.users || u.spec.migrate) {
      var w4 := Ask(w3).0;
      AskReaches(u0, w3, k, u, Part.Users);
      StopMoves(KIND, u0, w, w4, k, u, u);
      var ref := u.spec.secretKeyRef.Target(k.namespace);
      if ref in w4.secrets {
        CreateAdopts(u0, w, w3, w4, k, u, accessKey, w4.secrets[ref]);
        SameIdp(u0, w2, k, u, Part.Users);
        SameIdp(u0, w4, k, u, Part.Users);
      }
    }
  }

  lemma TeardownMoves(u0: W, w: W, k: Key, u: Resource)
    requires Inv(View(KIND, u0)) && Begun(u0, w, k, u) && Reached(u0, w, k, u, Part.Users)
    ensures Teardown(w, k, u).Valid() && Moves(View(KIND, u0), View(KIND, Teardown(w, k, u)), k, ModeOf(KIND, u0, k))
  {
    hide Next, Begun, Reached, Moves, View, Inv, Release, Ask, Removes, Update;
    KindLawful();
    ReadGuarded(KIND, u0, w, k, u);
    if u.status.None? {
      PatchMoves(KIND, u0, w, w, k, u, u, u.(finalizer := false));
    } else {
      var w1 := Ask(w).0;
      var id := Target(w1.minio.idp, u.status.value, k.namespace);
      AskReaches(u0, w, k, u, Part.Users);
      StopMoves(KIND, u0, w, w1, k, u, u);
      RemoveUserRemoves(u0.minio.idp, id);
      SameIdp(u0, w1, k, u, Part.Users);
      ReleaseMoves(KIND, u0, w, w1, k, u, u, RemoveUser(id), {NoSuchUser}, id);
      assert u.status.value.(accessKey := u.status.value.accessKey) == u.status.value;
    }
  }

  lemma CheckRefreshes(u0: W, w: W, w3: W, k: Key, u: Resource, u1: Resource, id: RemoteId)
    requires Inv(View(KIND, u0)) && Begun(u0, w, k, u) && Reached(u0, w3, k, u1, Part.Users)
    requires SameClaim(KIND, u0, k, u, u1)
    requires u.status.Some? && id == Named(KIND, u0, k, u.status.value) && id in w3.minio.users
    ensures
      var w4 := Ask(w3).0;
      w4.Valid() && Moves(View(KIND, u0), View(KIND, w4), k, ModeOf(KIND, u0, k))
      && forall stamp, secretKey ::
          var v := Adopt(w4, k, u1.(stamp := stamp), AddUser(id, secretKey), {});
          v.Valid() && Moves(View(KIND, u0), View(KIND, v), k, ModeOf(KIND, u0, k))
  {
    hide Next, Begun, Moves, View, Inv, Ask, Update, Worked, Along, Held, Calmly, Lawful, Send;
    KindLawful();
    var w4 := Ask(w3).0;
    SeenOnRecord(KIND, u0, w3, k, u, id);
    AskReaches(u0, w3, k, u1, Part.Users);
    StopMoves(KIND, u0, w, w4, k, u, u1);
    ReachWorks(KIND, u0, w4, k, u1, id);
    forall stamp, secretKey
      ensures
        var v := Adopt(w4, k, u1.(stamp := stamp), AddUser(id, secretKey), {});
        v.Valid() && Moves(View(KIND, u0), View(KIND, v), k, ModeOf(KIND, u0, k))
    {
      AddUserMakes(u0.minio.idp, id, secretKey);
      SendWorks(KIND, u0, w4, k, u1, AddUser(id, secretKey), id);
      var w5 := Send(w4, AddUser(id, secretKey)).0;
      WorkMoves(KIND, u0, w, w5, k, u, u1, id);
      WorkPatchMoves(KIND, u0, w, w5, k, u, u1, u1.(stamp := stamp), id);
    }
  }

  lemma CompareMoves(u0: W, w: W, w1: W, k: Key, u: Resource, u1: Resource)
    requires Inv(View(KIND, u0)) && Begun(u0, w, k, u) && Reached(u0, w1, k, u1, Part.Users)
    requires u1.status.Some? && u1.status == u.status && SameClaim(KIND, u0, k, u, u1)
    ensures Compare(w1, k, u1).Valid() && Moves(View(KIND, u0), View(KIND, Compare(w1, k, u1)), k, ModeOf(KIND, u0, k))
  {
    hide Next, Begun, Reached, Moves, View, Inv, Ask, Update, Adopt, Worked, Alters, AccessKey;
    KindLawful();
    var spec := u.status.value;
    var w2 := Ask(w1).0;
    var w3 := Ask(w2).0;
    AskReaches(u0, w1, k, u1, Part.Users);
    AskReaches(u0, w2, k, u1, Part.Users);
    StopMoves(KIND, u0, w, w2, k, u, u1);
    StopMoves(KIND, u0, w, w3, k, u, u1);
    SameIdp(u0, w2, k, u1, Part.Users);
    SameIdp(u0, w3, k, u1, Part.Users);
    assert spec.(accessKey := spec.accessKey) == spec;
    var id := Target(w2.minio.idp, spec, k.namespace);
    if id !in w3.minio.users {
      ForgetMoves(KIND, u0, w, w3, k, u, u1);
    } else {
      CheckRefreshes(u0, w, w3, k, u, u1, id);
    }
  }

  lemma CheckMoves(u0: W, w: W, k: Key, u: Resource)
    requires Inv(View(KIND, u0)) && Begun(u0, w, k, u) && Reached(u0, w, k, u, Part.Users) && u.status.Some?
    ensures Check(w, k, u).Valid() && Moves(View(KIND, u0), View(KIND, Check(w, k, u)), k, ModeOf(KIND, u0, k))
  {
    hide Next, Begun, Reached, Moves, View, Inv, Update, Compare;
    KindLawful();
    ReadGuarded(KIND, u0, w, k, u);
    PatchMoves(KIND, u0, w, w, k, u, u, Settled(u));
    var (w1, err, u1) := if u.spec.migrate then Update(w, k, Settled(u)) else (w, Nil, u);
    if err == Nil {
      if u.spec.migrate { UpdateReaches(u0, w, k, u, Settled(u), Part.Users); }
      CompareMoves(u0, w, w1, k, u, u1);
    }
  }

  lemma PassMoves(u0: W, k: Key)
    requires u0.Valid() && Inv(View(KIND, u0))
    ensures Pass(u0, k).Valid() && Moves(View(KIND, u0), View(KIND, Pass(u0, k)), k, ModeOf(KIND, u0, k))
  {
    hide Next, Begun, Reached, Moves, View, Inv, Ask, Update, Check, Create, Teardown, Plain;
    KindLawful();
    var w := Ask(u0).0;
    GetBegins(u0, k);
    if Ask(u0).1 != Nil || k !in w.objects {
      IdleMoves(KIND, u0, w, k);
    } else {
      var u := w.objects[k];
      BeginReaches(u0, w, k, u, Part.Users);
      if u.deleting {
        TeardownMoves(u0, w, k, u);
      } else if !u.finalizer {
        ReadGuarded(KIND, u0, w, k, u);
        PatchMoves(KIND, u0, w, w, k, u, u, u.(finalizer := true));
      } else if u.status.Some? {
        CheckMoves(u0, w, k, u);
      } else {
        if Plain(KIND, u0, k) { AskPlain(KIND, u0, k); }
        CreateMoves(u0, w, k, u);
      }
    }
  }

  /** Whatever the weather, a pass over a user resource is a move of the ownership protocol. */
  lemma PassRefines()
    ensures Refines(Pass, KIND)
  {
    hide Pass, Moves, View, Inv, ModeOf;
    forall w: W, k: Key | w.Valid() && Inv(View(KIND, w))
      ensures Pass(w, k).Valid() && Moves(View(KIND, w), View(KIND, Pass(w, k)), k, ModeOf(KIND, w, k))
    {
      PassMoves(w, k);
    }
  }

  class Reconciler {
    const client: Client<UserSpec>

    constructor (client: Client<UserSpec>)
      ensures this.client == client
    {
      this.client := client;
    }

    /** Resolves the access key of `spec`. */
    method GetAccessKey(spec: UserSpec, defaultNamespace: string) returns (err: Err, accessKey: string)
      modifies client
      ensures (client.State(), err) == (AccessKey(old(client.State()), spec, defaultNamespace).0,
          AccessKey(old(client.State()), spec, defaultNamespace).1)
      ensures err == Nil ==> accessKey == AccessKey(old(client.State()), spec, defaultNamespace).2
    {
      accessKey := "";
      if spec.accessKey != "" {
        accessKey := spec.accessKey;
      }
      if accessKey == "" && spec.accessKeyRef != NO_REF {
        var secret;
        err, secret := client.GetSecret(spec.accessKeyRef.Target(defaultNamespace));
        if err != Nil { return; }
        if spec.accessKeyRef.key !in secret.data {
          err := Refused;
          return;
        }
        accessKey := secret.data[spec.accessKeyRef.key];
      }
      err := if accessKey == "" then Refused else Nil;
    }

    /** Reconciles the user resource under `req`. */
    method Reconcile(req: Key)
      modifies client
      ensures client.State() == Pass(old(client.State()), req)
    {
      hide Next, Store, Ask, Send, Update, AccessKey;
      var err, found := client.Get(req);
      if err != Nil { return; }
      var u := found.value;
      var accessKey, secret;

      if u.deleting {
        if u.status.Some? {
          err := client.Read();                                 // get tenant admin client
          if err != Nil { return; }
          err, accessKey := GetAccessKey(u.status.value, req.namespace);
          if err != Nil { return; }
          err := client.Request(RemoveUser(RemoteId(u.status.value.tenantRef.SetDefaultNamespace(req.namespace),
              accessKey)));
          err := Ignore(err, NoSuchUser);
          if err != Nil { return; }
          u := u.(status := None);
          err, u := client.Put(req, u);
          return;
        }
        u := u.(finalizer := false);
        err, u := client.Put(req, u);
        return;
      }

      if !u.finalizer {
        u := u.(finalizer := true);
        err, u := client.Put(req, u);
        return;
      }

      if u.status.Some? {
        if u.spec.migrate {
          u := u.(spec := u.spec.(migrate := false));
          err, u := client.Put(req, u);
          if err != Nil { return; }
        }
        err := client.Read();                                   // get tenant admin client
        if err != Nil { return; }
        err, accessKey := GetAccessKey(u.status.value, req.namespace);
        if err != Nil { return; }
        var id := RemoteId(u.status.value.tenantRef.SetDefaultNamespace(req.namespace), accessKey);
        err := client.GetUserInfo(id);
        var e := err != NoSuchUser;
        err := Ignore(err, NoSuchUser);
        if err != Nil { return; }
        if !e {
          u := u.(status := None);
          err, u := client.Put(req, u);
          return;
        }
        err, secret := client.GetSecret(u.status.value.secretKeyRef.Target(req.namespace));
        if err != Nil { return; }
        if secret.version != u.stamp {
          err := client.Request(AddUser(id, secret.Field(u.status.value.secretKeyRef.key)));
          if err != Nil { return; }
          u := u.(stamp := secret.version);
          err, u := client.Put(req, u);
          return;
        }
      }

      if u.status.None? {
        err := client.Read();                                   // get tenant admin client
        if err != Nil { return; }
        err, accessKey := GetAccessKey(u.spec, req.namespace);
        if err != Nil { return; }
        var id := RemoteId(u.spec.tenantRef.SetDefaultNamespace(req.namespace), accessKey);
        err := client.GetUserInfo(id);
        if err == Nil && !u.spec.migrate { err := AlreadyExists; }
        err := Ignore(err, NoSuchUser);
        if err != Nil { return; }
        err, secret := client.GetSecret(u.spec.secretKeyRef.Target(req.namespace));
        if err != Nil { return; }
        err := client.Request(AddUser(id, secret.Field(u.spec.secretKeyRef.key)));
        if err != Nil { return; }
        u := u.(spec := u.spec.(accessKey := accessKey, migrate := false));
        u := u.(status := Some(u.spec), stamp := secret.version);
        err, u := client.Put(req, u);
      }
    }
  }
}
