/** MinioGroup: internal/operator/minio_group_reconciler.go. */
module Groups {
  import opened Prelude
  import opened Minio
  import opened Kube
  import opened Ownership
  import opened Branches
  import opened Clients
  import opened Runs

  datatype GroupSpec = GroupSpec(name: string, tenantRef: ResourceRef, migrate: bool)

  type W = World<GroupSpec>
  type Resource = Object<GroupSpec>

  /** The group a spec names, for a resource in namespace `ns`. */
  function Target(idp: Idp, spec: GroupSpec, ns: string): RemoteId {
    RemoteId(spec.tenantRef.SetDefaultNamespace(ns), spec.name)
  }

  const KIND: Kind<GroupSpec, RemoteId, ()> :=
    Kind(Target, (s: GroupSpec) => s.migrate, (s: GroupSpec) => s.migrate,
        (m: Server) => Units(m.groups), Part.Groups, (w: W, k: Key) => true)

  function Settled(g: Resource): Resource {
    g.(spec := g.spec.(migrate := false))
  }

  function Created(g: Resource): Resource {
    Settled(g).(status := Some(Settled(g).spec))
  }

  function Teardown(w: W, k: Key, g: Resource): W {
    if g.status.None? then Update(w, k, g.(finalizer := false)).0 else
    var (w, err) := Ask(w);                                     // get tenant admin client
    if err != Nil then w else
    Release(w, k, g, RemoveGroup(Target(w.minio.idp, g.status.value, k.namespace)), {NoSuchGroup})
  }

  function Check(w: W, k: Key, g: Resource): W
    requires g.status.Some?
  {
    var (w, err, g) := if g.spec.migrate then Update(w, k, Settled(g)) else (w, Nil, g);
    if err != Nil then w else
    var (w, err) := Ask(w);                                     // get tenant admin client
    if err != Nil then w else
    var (w, err) := Ask(w);                                     // get group description
    if err != Nil then w else
    if Target(w.minio.idp, g.status.value, k.namespace) !in w.minio.groups then
        Update(w, k, g.(status := None)).0 else w
  }

  function Create(w: W, k: Key, g: Resource): W {
    var (w, err) := Ask(w);                                     // get tenant admin client
    if err != Nil then w else
    var (w, err) := Ask(w);                                     // get group description
    var id := Target(w.minio.idp, g.spec, k.namespace);
    if err != Nil || (id in w.minio.groups && !g.spec.migrate) then w else
    Adopt(w, k, Created(g), AddGroup(id), {})
  }

  /** One reconciliation of the group resource under `k`. */
  function Pass(w: W, k: Key): W {
    var (w, err) := Ask(w);                                     // get the resource
    if err != Nil || k !in w.objects then w else
    var g := w.objects[k];
    if g.deleting then Teardown(w, k, g)
    else if !g.finalizer then Update(w, k, g.(finalizer := true)).0
    else if g.status.Some? then Check(w, k, g)
    else Create(w, k, g)
  }

  lemma KindLawful()
    ensures Lawful(KIND)
  {
  }

  lemma RemoveGroupRemoves(idp: Idp, id: RemoteId)
    ensures Removes(KIND, idp, RemoveGroup(id), {NoSuchGroup}, id)
  {
  }

  lemma AddGroupMakes(idp: Idp, id: RemoteId)
    ensures Makes(KIND, idp, AddGroup(id), {}, id)
  {
  }

  lemma CreateMoves(u: W, w: W, k: Key, g: Resource)
    requires Inv(View(KIND, u)) && Begun(u, w, k, g) && Reached(u, w, k, g, Part.Groups)
    requires g.finalizer && g.status.None? && (Plain(KIND, u, k) ==> !g.spec.migrate)
    ensures Create(w, k, g).Valid() && Moves(View(KIND, u), View(KIND, Create(w, k, g)), k, ModeOf(KIND, u, k))
  {
    hide Next, Begun, Reached, Moves, Plain, View, Inv, Adopt, Ask, Makes, Removes;
    var w1 := Ask(w).0;
    var w2 := Ask(w1).0;
    var id := Target(w2.minio.idp, g.spec, k.namespace);
    KindLawful();
    AskReaches(u, w, k, g, Part.Groups);
    AskReaches(u, w1, k, g, Part.Groups);
    StopMoves(KIND, u, w, w1, k, g, g);
    StopMoves(KIND, u, w, w2, k, g, g);
    if id !in w2.minio.groups || g.spec.migrate {
      AddGroupMakes(u.minio.idp, id);
      SameIdp(u, w2, k, g, Part.Groups);
      AdoptMoves(KIND, u, w, w2, k, g, Created(g), AddGroup(id), {}, id);
    }
  }

  lemma TeardownMoves(u: W, w: W, k: Key, g: Resource)
    requires Inv(View(KIND, u)) && Begun(u, w, k, g) && Reached(u, w, k, g, Part.Groups)
    ensures Teardown(w, k, g).Valid() && Moves(View(KIND, u), View(KIND, Teardown(w, k, g)), k, ModeOf(KIND, u, k))
  {
    hide Next, Begun, Reached, Moves, View, Inv, Release, Ask, Makes, Removes, Update;
    KindLawful();
    ReadGuarded(KIND, u, w, k, g);
    if g.status.None? {
      PatchMoves(KIND, u, w, w, k, g, g, g.(finalizer := false));
    } else {
      var w1 := Ask(w).0;
      var id := Target(w1.minio.idp, g.status.value, k.namespace);
      AskReaches(u, w, k, g, Part.Groups);
      StopMoves(KIND, u, w, w1, k, g, g);
      RemoveGroupRemoves(u.minio.idp, id);
      SameIdp(u, w1, k, g, Part.Groups);
      ReleaseMoves(KIND, u, w, w1, k, g, g, RemoveGroup(id), {NoSuchGroup}, id);
    }
  }

  lemma CheckMoves(u: W, w: W, k: Key, g: Resource)
    requires Inv(View(KIND, u)) && Begun(u, w, k, g) && Reached(u, w, k, g, Part.Groups) && g.status.Some?
    ensures Check(w, k, g).Valid() && Moves(View(KIND, u), View(KIND, Check(w, k, g)), k, ModeOf(KIND, u, k))
  {
    hide Next, Begun, Reached, Moves, View, Inv, Ask, Update;
    KindLawful();
    ReadGuarded(KIND, u, w, k, g);
    PatchMoves(KIND, u, w, w, k, g, g, Settled(g));
    var (w1, err, g1) := if g.spec.migrate then Update(w, k, Settled(g)) else (w, Nil, g);
    if err == Nil {
      if g.spec.migrate { UpdateReaches(u, w, k, g, Settled(g), Part.Groups); }
      var w2 := Ask(w1).0;
      var w3 := Ask(w2).0;
      AskReaches(u, w1, k, g1, Part.Groups);
      AskReaches(u, w2, k, g1, Part.Groups);
      StopMoves(KIND, u, w, w2, k, g, g1);
      StopMoves(KIND, u, w, w3, k, g, g1);
      SameIdp(u, w3, k, g1, Part.Groups);
      if Target(w3.minio.idp, g1.status.value, k.namespace) !in w3.minio.groups {
        ForgetMoves(KIND, u, w, w3, k, g, g1);
      }
    }
  }

  lemma PassMoves(u: W, k: Key)
    requires u.Valid() && Inv(View(KIND, u))
    ensures Pass(u, k).Valid() && Moves(View(KIND, u), View(KIND, Pass(u, k)), k, ModeOf(KIND, u, k))
  {
    hide Next, Begun, Reached, Moves, View, Inv, Ask, Update, Check, Create, Teardown, Plain;
    KindLawful();
    var w := Ask(u).0;
    GetBegins(u, k);
    if Ask(u).1 != Nil || k !in w.objects {
      IdleMoves(KIND, u, w, k);
    } else {
      var g := w.objects[k];
      BeginReaches(u, w, k, g, Part.Groups);
      if g.deleting {
        TeardownMoves(u, w, k, g);
      } else if !g.finalizer {
        ReadGuarded(KIND, u, w, k, g);
        PatchMoves(KIND, u, w, w, k, g, g, g.(finalizer := true));
      } else if g.status.Some? {
        CheckMoves(u, w, k, g);
      } else {
        if Plain(KIND, u, k) { AskPlain(KIND, u, k); }
        CreateMoves(u, w, k, g);
      }
    }
  }

  /** Whatever the weather, a pass over a group resource is a move of the ownership protocol. */
  lemma PassRefines()
    ensures Refines(Pass, KIND)
  {
    hide Pass, Moves, View, Inv, ModeOf;
    forall w: W, k: Key | w.Valid() && Inv(View(KIND, w))
      ensures Pass(w, k).Valid() && Moves(View(KIND, w), View(KIND, Pass(w, k)), k, ModeOf(KIND, w, k))
    {
      PassMoves(w, k);
    }
  }

  class Reconciler {
    const client: Client<GroupSpec>

    constructor (client: Client<GroupSpec>)
      ensures this.client == client
    {
      this.client := client;
    }

    /** Reconciles the group resource under `req`. */
    method Reconcile(req: Key)
      modifies client
      ensures client.State() == Pass(old(client.State()), req)
    {
      hide Next, Store, Ask, Send, Update;
      var err, found := client.Get(req);
      if err != Nil { return; }
      var g := found.value;

      if g.deleting {
        if g.status.Some? {
          err := client.Read();                                 // get tenant admin client
          if err != Nil { return; }
          err := client.Request(RemoveGroup(Target(client.minio.idp, g.status.value, req.namespace)));
          if Ignore(err, NoSuchGroup) != Nil { return; }
          g := g.(status := None);
          err, g := client.Put(req, g);
          return;
        }
        g := g.(finalizer := false);
        err, g := client.Put(req, g);
        return;
      }

      if !g.finalizer {
        g := g.(finalizer := true);
        err, g := client.Put(req, g);
        return;
      }

      if g.status.Some? {
        if g.spec.migrate {
          g := g.(spec := g.spec.(migrate := false));
          err, g := client.Put(req, g);
          if err != Nil { return; }
        }
        err := client.Read();                                   // get tenant admin client
        if err != Nil { return; }
        err := client.Read();                                   // get group description
        if err != Nil { return; }
        if Target(client.minio.idp, g.status.value, req.namespace) !in client.minio.groups {
          g := g.(status := None);
          err, g := client.Put(req, g);
          return;
        }
      }

      if g.status.None? {
        err := client.Read();                                   // get tenant admin client
        if err != Nil { return; }
        err := client.Read();                                   // get group description
        var id := Target(client.minio.idp, g.spec, req.namespace);
        if err == Nil && id in client.minio.groups && !g.spec.migrate { err := AlreadyExists; }
        if err != Nil { return; }
        err := client.Request(AddGroup(id));
        if err != Nil { return; }
        g := g.(spec := g.spec.(migrate := false));
        g := g.(status := Some(g.spec));
        err, g := client.Put(req, g);
      }
    }
  }
}
