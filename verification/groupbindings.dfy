/** MinioGroupBinding: internal/operator/minio_group_binding_reconciler.go. */
module GroupBindings {
  import opened Prelude
  import opened Minio
  import opened Kube
  import opened Ownership
  import opened Branches
  import opened Clients
  import opened Runs

  datatype GroupBindingSpec = GroupBindingSpec(group: string, migrate: bool, tenantRef: ResourceRef, user: string)

  type W = World<GroupBindingSpec>
  type Resource = Object<GroupBindingSpec>

  function GroupId(spec: GroupBindingSpec, ns: string): RemoteId {
    RemoteId(spec.tenantRef.SetDefaultNamespace(ns), spec.group)
  }

  /** The membership a spec names, for a resource in namespace `ns`. */
  function Target(idp: Idp, spec: GroupBindingSpec, ns: string): Membership {
    Membership(GroupId(spec, ns), spec.user)
  }

  const KIND: Kind<GroupBindingSpec, Membership, ()> :=
    Kind(Target, (s: GroupBindingSpec) => s.migrate, (s: GroupBindingSpec) => s.migrate,
        (m: Server) => Units(m.members), Part.Members, (w: W, k: Key) => true)

  function Settled(g: Resource): Resource {
    g.(spec := g.spec.(migrate := false))
  }

  function Created(g: Resource): Resource {
    Settled(g).(status := Some(Settled(g).spec))
  }

  /** Ends the membership on record. */
  function DeleteGroupMember(w: W, k: Key, g: Resource): W
    requires g.status.Some?
  {
    var (w, err) := Ask(w);                                     // get tenant admin client
    if err != Nil then w else
    Release(w, k, g, RemoveMember(GroupId(g.status.value, k.namespace), g.status.value.user), {NoSuchUser})
  }

  function Teardown(w: W, k: Key, g: Resource): W {
    if g.status.Some? then DeleteGroupMember(w, k, g) else Update(w, k, g.(finalizer := false)).0
  }

  function Compare(w: W, k: Key, g: Resource): W
    requires g.status.Some?
  {
    var (w, err) := Ask(w);                                     // get tenant admin client
    if err != Nil then w else
    var (w, err) := Ask(w);                                     // get group description
    if err != Nil || GroupId(g.status.value, k.namespace) !in w.minio.groups then w
    else if Target(w.minio.idp, g.status.value, k.namespace) !in w.minio.members then Update(w, k, g.(status := None)).0
    else if g.status.value != g.spec then DeleteGroupMember(w, k, g)
    else w
  }

  function Check(w: W, k: Key, g: Resource): W
    requires g.status.Some?
  {
    var (w, err, g) := if g.spec.migrate then Update(w, k, Settled(g)) else (w, Nil, g);
    if err != Nil then w else Compare(w, k, g)
  }

  function Create(w: W, k: Key, g: Resource): W {
    var (w, err) := Ask(w);                                     // get tenant admin client
    if err != Nil then w else
    var (w, err) := Ask(w);                                     // get group description
    if err != Nil || GroupId(g.spec, k.namespace) !in w.minio.groups then w
    else if Target(w.minio.idp, g.spec, k.namespace) in w.minio.members && !g.spec.migrate then w
    else Adopt(w, k, Created(g), AddMember(GroupId(g.spec, k.namespace), g.spec.user), {})
  }

  /** One reconciliation of the group binding resource under `k`. */
  function Pass(w: W, k: Key): W {
    var (w, err) := Ask(w);                                     // get the resource
    if err != Nil || k !in w.objects then w else
    var g := w.objects[k];
    if g.deleting then Teardown(w, k, g)
    else if !g.finalizer then Update(w, k, g.(finalizer := true)).0
    else if g.status.Some? then Check(w, k, g)
    else Create(w, k, g)
  }

  lemma KindLawful()
    ensures Lawful(KIND)
  {
  }

  lemma MemberLeaves(m: Server, id: RemoteId, user: string)
    requires m.Valid()
    ensures var (n, err) := m.Serve(RemoveMember(id, user));
      n.members == if err == Nil || err == NoSuchUser then m.members - {Membership(id, user)} else m.members
  {
  }

  lemma RemoveMemberRemoves(idp: Idp, id: RemoteId, user: string)
    ensures Removes(KIND, idp, RemoveMember(id, user), {NoSuchUser}, Membership(id, user))
  {
    hide Server.Serve, Server.Valid;
    forall m: Server | m.Valid() && m.idp == idp
      ensures var (n, err) := m.Serve(RemoveMember(id, user));
        n.members == if err == Nil || err == NoSuchUser then m.members - {Membership(id, user)} else m.members
    {
      MemberLeaves(m, id, user);
    }
    assert forall a: set<Membership>, x :: Units(a - {x}) == Units(a) - {x};
  }

  lemma AddMemberMakes(idp: Idp, id: RemoteId, user: string)
    ensures Makes(KIND, idp, AddMember(id, user), {}, Membership(id, user))
  {
  }

  lemma DeleteGroupMemberMoves(u: W, w0: W, w: W, k: Key, g0: Resource, g: Resource)
    requires Inv(View(KIND, u)) && Begun(u, w0, k, g0) && Reached(u, w, k, g, Part.Members)
    requires g.status.Some? && g.status == g0.status && SameClaim(KIND, u, k, g0, g)
    ensures DeleteGroupMember(w, k, g).Valid()
    ensures Moves(View(KIND, u), View(KIND, DeleteGroupMember(w, k, g)), k, ModeOf(KIND, u, k))
  {
    hide Next, Begun, Reached, Moves, View, Inv, Release, Ask, Removes, Update;
    KindLawful();
    var w1 := Ask(w).0;
    AskReaches(u, w, k, g, Part.Members);
    StopMoves(KIND, u, w0, w1, k, g0, g);
    RemoveMemberRemoves(u.minio.idp, GroupId(g.status.value, k.namespace), g.status.value.user);
    ReleaseMoves(KIND, u, w0, w1, k, g0, g, RemoveMember(GroupId(g.status.value, k.namespace), g.status.value.user),
        {NoSuchUser},
      Target(u.minio.idp, g.status.value, k.namespace));
  }

  lemma CreateMoves(u: W, w: W, k: Key, g: Resource)
    requires Inv(View(KIND, u)) && Begun(u, w, k, g) && Reached(u, w, k, g, Part.Members)
    requires g.finalizer && g.status.None? && (Plain(KIND, u, k) ==> !g.spec.migrate)
    ensures Create(w, k, g).Valid() && Moves(View(KIND, u), View(KIND, Create(w, k, g)), k, ModeOf(KIND, u, k))
  {
    hide Next, Begun, Reached, Moves, Plain, View, Inv, Adopt, Ask, Makes, Spares;
    var w1 := Ask(w).0;
    var w2 := Ask(w1).0;
    var id := Target(w2.minio.idp, g.spec, k.namespace);
    KindLawful();
    AskReaches(u, w, k, g, Part.Members);
    AskReaches(u, w1, k, g, Part.Members);
    StopMoves(KIND, u, w, w1, k, g, g);
    StopMoves(KIND, u, w, w2, k, g, g);
    if id !in w2.minio.members || g.spec.migrate {
      AddMemberMakes(u.minio.idp, id.group, id.user);
      AdoptMoves(KIND, u, w, w2, k, g, Created(g), AddMember(id.group, id.user), {}, id);
    }
  }

  lemma TeardownMoves(u: W, w: W, k: Key, g: Resource)
    requires Inv(View(KIND, u)) && Begun(u, w, k, g) && Reached(u, w, k, g, Part.Members)
    ensures Teardown(w, k, g).Valid() && Moves(View(KIND, u), View(KIND, Teardown(w, k, g)), k, ModeOf(KIND, u, k))
  {
    hide Next, Begun, Reached, Moves, View, Inv, DeleteGroupMember, Update;
    KindLawful();
    ReadGuarded(KIND, u, w, k, g);
    if g.status.Some? {
      DeleteGroupMemberMoves(u, w, w, k, g, g);
    } else {
      PatchMoves(KIND, u, w, w, k, g, g, g.(finalizer := false));
    }
  }

  lemma CompareMoves(u: W, w: W, w1: W, k: Key, g: Resource, g1: Resource)
    requires Inv(View(KIND, u)) && Begun(u, w, k, g) && Reached(u, w1, k, g1, Part.Members)
    requires g1.status.Some? && g1.status == g.status && SameClaim(KIND, u, k, g, g1)
    ensures Compare(w1, k, g1).Valid() && Moves(View(KIND, u), View(KIND, Compare(w1, k, g1)), k, ModeOf(KIND, u, k))
  {
    hide Next, Begun, Reached, Moves, View, Inv, Ask, Update, DeleteGroupMember;
    KindLawful();
    var w2 := Ask(w1).0;
    var w3 := Ask(w2).0;
    AskReaches(u, w1, k, g1, Part.Members);
    AskReaches(u, w2, k, g1, Part.Members);
    StopMoves(KIND, u, w, w2, k, g, g1);
    StopMoves(KIND, u, w, w3, k, g, g1);
    DeleteGroupMemberMoves(u, w, w3, k, g, g1);
    if Target(w3.minio.idp, g1.status.value, k.namespace) !in w3.minio.members {
      ForgetMoves(KIND, u, w, w3, k, g, g1);
    }
  }

  lemma CheckMoves(u: W, w: W, k: Key, g: Resource)
    requires Inv(View(KIND, u)) && Begun(u, w, k, g) && Reached(u, w, k, g, Part.Members) && g.status.Some?
    ensures Check(w, k, g).Valid() && Moves(View(KIND, u), View(KIND, Check(w, k, g)), k, ModeOf(KIND, u, k))
  {
    hide Next, Begun, Reached, Moves, View, Inv, Update, Compare;
    KindLawful();
    ReadGuarded(KIND, u, w, k, g);
    PatchMoves(KIND, u, w, w, k, g, g, Settled(g));
    var (w1, err, g1) := if g.spec.migrate then Update(w, k, Settled(g)) else (w, Nil, g);
    if err == Nil {
      if g.spec.migrate { UpdateReaches(u, w, k, g, Settled(g), Part.Members); }
      CompareMoves(u, w, w1, k, g, g1);
    }
  }

  lemma PassMoves(u: W, k: Key)
    requires u.Valid() && Inv(View(KIND, u))
    ensures Pass(u, k).Valid() && Moves(View(KIND, u), View(KIND, Pass(u, k)), k, ModeOf(KIND, u, k))
  {
    hide Next, Begun, Reached, Moves, View, Inv, Ask, Update, Check, Create, Teardown, Plain;
    KindLawful();
    var w := Ask(u).0;
    GetBegins(u, k);
    if Ask(u).1 != Nil || k !in w.objects {
      IdleMoves(KIND, u, w, k);
    } else {
      var g := w.objects[k];
      BeginReaches(u, w, k, g, Part.Members);
      if g.deleting {
        TeardownMoves(u, w, k, g);
      } else if !g.finalizer {
        ReadGuarded(KIND, u, w, k, g);
        PatchMoves(KIND, u, w, w, k, g, g, g.(finalizer := true));
      } else if g.status.Some? {
        CheckMoves(u, w, k, g);
      } else {
        if Plain(KIND, u, k) { AskPlain(KIND, u, k); }
        CreateMoves(u, w, k, g);
      }
    }
  }

  /** Whatever the weather, a pass over a group binding resource is a move of the ownership protocol. */
  lemma PassRefines()
    ensures Refines(Pass, KIND)
  {
    hide Pass, Moves, View, Inv, ModeOf;
    forall w: W, k: Key | w.Valid() && Inv(View(KIND, w))
      ensures Pass(w, k).Valid() && Moves(View(KIND, w), View(KIND, Pass(w, k)), k, ModeOf(KIND, w, k))
    {
      PassMoves(w, k);
    }
  }

  class Reconciler {
    const client: Client<GroupBindingSpec>
    var gb: Resource                                            // the resource in the hands of the pass

    constructor (client: Client<GroupBindingSpec>)
      ensures this.client == client
    {
      this.client := client;
      gb := Object(GroupBindingSpec("", false, ResourceRef("", ""), ""), None, 0, false, false, 0);
    }

    /** Ends the membership on record of the resource in hand, and forgets it. */
    method DeleteMember(req: Key) returns (err: Err)
      requires gb.status.Some?
      modifies client, this`gb
      ensures client.State() == DeleteGroupMember(old(client.State()), req, old(gb))
    {
      hide Next, Store, Ask, Send, Update;
      err := client.Read();                                     // get tenant admin client
      if err != Nil { return; }
      err := client.Request(RemoveMember(GroupId(gb.status.value, req.namespace), gb.status.value.user));
      err := Ignore(err, NoSuchUser);
      if err != Nil { return; }
      gb := gb.(status := None);
      err, gb := client.Put(req, gb);
    }

    /** Reconciles the group binding resource under `req`. */
    method Reconcile(req: Key)
      modifies client, this`gb
      ensures client.State() == Pass(old(client.State()), req)
    {
      hide Next, Store, Ask, Send, Update, DeleteGroupMember;
      var err, found := client.Get(req);
      if err != Nil { return; }
      gb := found.value;

      if gb.deleting {
        if gb.status.Some? {
          err := DeleteMember(req);
          return;
        }
        gb := gb.(finalizer := false);
        err, gb := client.Put(req, gb);
        return;
      }

      if !gb.finalizer {
        gb := gb.(finalizer := true);
        err, gb := client.Put(req, gb);
        return;
      }

      var members;
      if gb.status.Some? {
        if gb.spec.migrate {
          gb := gb.(spec := gb.spec.(migrate := false));
          err, gb := client.Put(req, gb);
          if err != Nil { return; }
        }
        err := client.Read();                                   // get tenant admin client
        if err != Nil { return; }
        err, members := client.GetGroupDescription(GroupId(gb.status.value, req.namespace));
        if err != Nil { return; }
        if gb.status.value.user !in members {
          gb := gb.(status := None);
          err, gb := client.Put(req, gb);
          return;
        }
        if gb.status.value != gb.spec {
          err := DeleteMember(req);
          return;
        }
      }

      if gb.status.None? {
        err := client.Read();                                   // get tenant admin client
        if err != Nil { return; }
        err, members := client.GetGroupDescription(GroupId(gb.spec, req.namespace));
        if err != Nil { return; }
        if gb.spec.user in members && !gb.spec.migrate { err := AlreadyExists; }
        if err != Nil { return; }
        err := client.Request(AddMember(GroupId(gb.spec, req.namespace), gb.spec.user));
        if err != Nil { return; }
        gb := gb.(spec := gb.spec.(migrate := false));
        gb := gb.(status := Some(gb.spec));
        err, gb := client.Put(req, gb);
      }
    }
  }
}
