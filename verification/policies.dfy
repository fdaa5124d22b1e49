/** MinioPolicy: internal/operator/minio_policy_reconciler.go. */
module Policies {
  import opened Prelude
  import opened Minio
  import opened Kube
  import opened Ownership
  import opened Branches
  import opened Clients
  import opened Runs
  import opened PolicyHash

  datatype PolicySpec = PolicySpec(
    migrate: bool,
    name: string,
    statement: seq<Statement>,
    tenantRef: ResourceRef,
    version: string)
  {
    function Document(): Doc {
      Doc(version, statement)
    }
  }

  type W = World<PolicySpec>
  type Resource = Object<PolicySpec>

  /** The policy a spec names, for a resource in namespace `ns`. */
  function Target(idp: Idp, spec: PolicySpec, ns: string): RemoteId {
    RemoteId(spec.tenantRef.SetDefaultNamespace(ns), spec.name)
  }

  /** The create branch gets an answer when it asks whether the policy exists. */
  predicate Looks(w: W, k: Key) {
    Ask(Ask(Ask(w).0).0).1 == Nil
  }

  const KIND: Kind<PolicySpec, RemoteId, Doc> :=
    Kind(Target, (s: PolicySpec) => s.migrate, (s: PolicySpec) => s.migrate, (m: Server) => m.policies,
        Part.Policies, Looks)

  function Settled(p: Resource): Resource {
    p.(spec := p.spec.(migrate := false))
  }

  function Created(p: Resource): Resource {
    Settled(p).(status := Some(Settled(p).spec))
  }

  /** The recorded spec takes over statement and version. */
  function Revised(p: Resource): Resource
    requires p.status.Some?
  {
    p.(status := Some(p.status.value.(statement := p.spec.statement, version := p.spec.version)))
  }

  function Teardown(w: W, k: Key, p: Resource): W {
    if p.status.None? then Update(w, k, p.(finalizer := false)).0 else
    var (w, err) := Ask(w);                                     // get tenant admin client
    if err != Nil then w else
    Release(w, k, p, RemoveCannedPolicy(Target(w.minio.idp, p.status.value, k.namespace)), {})
  }

  function Compare(digest: Digest, w: W, k: Key, p: Resource): W
    requires p.status.Some?
  {
    var (w, err) := Ask(w);                                     // get tenant admin client
    if err != Nil then w else
    var (w, err) := Ask(w);                                     // get minio policy
    if err != Nil then w else
    var id := Target(w.minio.idp, p.status.value, k.namespace);
    if id !in w.minio.policies then Update(w, k, p.(status := None)).0
    else if p.status.value.Document() != p.spec.Document() then
      Adopt(w, k, Revised(p), AddCannedPolicy(id, p.spec.Document()), {})
    else if !SameHash(digest, w.minio.policies[id], p.status.value.Document()) then
      Send(w, AddCannedPolicy(id, p.status.value.Document())).0
    else w
  }

  function Check(digest: Digest, w: W, k: Key, p: Resource): W
    requires p.status.Some?
  {
    var (w, err, p) := if p.spec.migrate then Update(w, k, Settled(p)) else (w, Nil, p);
    if err != Nil then w else Compare(digest, w, k, p)
  }

  /** An unanswered look for an existing policy counts as finding none. */
  function Create(w: W, k: Key, p: Resource): W {
    var (w, err) := Ask(w);                                     // get tenant admin client
    if err != Nil then w else
    var (w, err) := Ask(w);                                     // get minio policy
    var id := Target(w.minio.idp, p.spec, k.namespace);
    if err == Nil && id in w.minio.policies && !p.spec.migrate then w else
    Adopt(w, k, Created(p), AddCannedPolicy(id, p.spec.Document()), {})
  }

  /** One reconciliation of the policy resource under `k`, hashes being computed with `digest`. */
  function Pass(digest: Digest, w: W, k: Key): W {
    var (w, err) := Ask(w);                                     // get the resource
    if err != Nil || k !in w.objects then w else
    var p := w.objects[k];
    if p.deleting then Teardown(w, k, p)
    else if !p.finalizer then Update(w, k, p.(finalizer := true)).0
    else if p.status.Some? then Check(digest, w, k, p)
    else Create(w, k, p)
  }

  /** The reconciler that computes hashes with `digest`. */
  function Passes(digest: Digest): (W, Key) -> W {
    (w: W, k: Key) => Pass(digest, w, k)
  }

  lemma KindLawful()
    ensures Lawful(KIND)
  {
  }

  lemma RemovePolicyRemoves(idp: Idp, id: RemoteId)
    ensures Removes(KIND, idp, RemoveCannedPolicy(id), {}, id)
  {
  }

  lemma AddPolicyMakes(idp: Idp, id: RemoteId, doc: Doc)
    ensures Makes(KIND, idp, AddCannedPolicy(id, doc), {}, id) && Alters(KIND, idp, AddCannedPolicy(id, doc), id)
  {
  }

  lemma CreateMoves(u: W, w: W, k: Key, p: Resource)
    requires Inv(View(KIND, u)) && Begun(u, w, k, p) && Reached(u, w, k, p, Part.Policies) && w == Ask(u).0
    requires p.finalizer && p.status.None? && (Plain(KIND, u, k) ==> !p.spec.migrate)
    ensures Create(w, k, p).Valid() && Moves(View(KIND, u), View(KIND, Create(w, k, p)), k, ModeOf(KIND, u, k))
  {
    hide Next, Begun, Reached, Moves, View, Inv, Adopt, Ask, Makes, Alters, AsksMigration, Spares;
    var w1 := Ask(w).0;
    var w2 := Ask(w1).0;
    var id := Target(w2.minio.idp, p.spec, k.namespace);
    KindLawful();
    AskReaches(u, w, k, p, Part.Policies);
    AskReaches(u, w1, k, p, Part.Policies);
    StopMoves(KIND, u, w, w1, k, p, p);
    StopMoves(KIND, u, w, w2, k, p, p);
    if !(Ask(w1).1 == Nil && id in w2.minio.policies && !p.spec.migrate) {
      AddPolicyMakes(u.minio.idp, id, p.spec.Document());
      SameIdp(u, w2, k, p, Part.Policies);
      AdoptMoves(KIND, u, w, w2, k, p, Created(p), AddCannedPolicy(id, p.spec.Document()), {}, id);
    }
  }

  lemma TeardownMoves(u: W, w: W, k: Key, p: Resource)
    requires Inv(View(KIND, u)) && Begun(u, w, k, p) && Reached(u, w, k, p, Part.Policies)
    ensures Teardown(w, k, p).Valid() && Moves(View(KIND, u), View(KIND, Teardown(w, k, p)), k, ModeOf(KIND, u, k))
  {
    hide Next, Begun, Reached, Moves, View, Inv, Release, Ask, Removes, Update;
    KindLawful();
    ReadGuarded(KIND, u, w, k, p);
    if p.status.None? {
      PatchMoves(KIND, u, w, w, k, p, p, p.(finalizer := false));
    } else {
      var w1 := Ask(w).0;
      var id := Target(w1.minio.idp, p.status.value, k.namespace);
      AskReaches(u, w, k, p, Part.Policies);
      StopMoves(KIND, u, w, w1, k, p, p);
      RemovePolicyRemoves(u.minio.idp, id);
      SameIdp(u, w1, k, p, Part.Policies);
      ReleaseMoves(KIND, u, w, w1, k, p, p, RemoveCannedPolicy(id), {}, id);
    }
  }

  lemma CheckRewrites(u: W, w: W, w3: W, k: Key, p: Resource, p1: Resource, id: RemoteId, doc: Doc)
    requires Inv(View(KIND, u)) && Begun(u, w, k, p) && Reached(u, w3, k, p1, Part.Policies)
    requires SameClaim(KIND, u, k, p, p1)
    requires p.status.Some? && p1.status.Some? && id == Named(KIND, u, k, p.status.value) && id in w3.minio.policies
    ensures var v := Send(w3, AddCannedPolicy(id, doc)).0;
      v.Valid() && Moves(View(KIND, u), View(KIND, v), k, ModeOf(KIND, u, k))
    ensures var v := Adopt(w3, k, Revised(p1), AddCannedPolicy(id, doc), {});
      v.Valid() && Moves(View(KIND, u), View(KIND, v), k, ModeOf(KIND, u, k))
  {
    hide Next, Begun, Moves, View, Inv, Ask, Update, Worked, Along, Held, Calmly, Lawful, Send, Alters, Makes;
    KindLawful();
    SeenOnRecord(KIND, u, w3, k, p, id);
    ReachWorks(KIND, u, w3, k, p1, id);
    AddPolicyMakes(u.minio.idp, id, doc);
    SendWorks(KIND, u, w3, k, p1, AddCannedPolicy(id, doc), id);
    var w5 := Send(w3, AddCannedPolicy(id, doc)).0;
    WorkMoves(KIND, u, w, w5, k, p, p1, id);
    WorkPatchMoves(KIND, u, w, w5, k, p, p1, Revised(p1), id);
  }

  lemma CompareMoves(digest: Digest, u: W, w: W, w1: W, k: Key, p: Resource, p1: Resource)
    requires Inv(View(KIND, u)) && Begun(u, w, k, p) && Reached(u, w1, k, p1, Part.Policies)
    requires p1.status.Some? && p1.status == p.status && SameClaim(KIND, u, k, p, p1)
    ensures var v := Compare(digest, w1, k, p1); v.Valid() && Moves(View(KIND, u), View(KIND, v), k, ModeOf(KIND, u, k))
  {
    hide Next, Begun, Reached, Moves, View, Inv, Ask, Update, Adopt, Send, SameHash;
    KindLawful();
    var w2 := Ask(w1).0;
    var w3 := Ask(w2).0;
    AskReaches(u, w1, k, p1, Part.Policies);
    AskReaches(u, w2, k, p1, Part.Policies);
    StopMoves(KIND, u, w, w2, k, p, p1);
    StopMoves(KIND, u, w, w3, k, p, p1);
    SameIdp(u, w3, k, p1, Part.Policies);
    var id := Target(w3.minio.idp, p1.status.value, k.namespace);
    if id !in w3.minio.policies {
      ForgetMoves(KIND, u, w, w3, k, p, p1);
    } else {
      CheckRewrites(u, w, w3, k, p, p1, id, p1.spec.Document());
      CheckRewrites(u, w, w3, k, p, p1, id, p1.status.value.Document());
    }
  }

  lemma CheckMoves(digest: Digest, u: W, w: W, k: Key, p: Resource)
    requires Inv(View(KIND, u)) && Begun(u, w, k, p) && Reached(u, w, k, p, Part.Policies) && p.status.Some?
    ensures var v := Check(digest, w, k, p); v.Valid() && Moves(View(KIND, u), View(KIND, v), k, ModeOf(KIND, u, k))
  {
    hide Next, Begun, Reached, Moves, View, Inv, Update, Compare;
    KindLawful();
    ReadGuarded(KIND, u, w, k, p);
    PatchMoves(KIND, u, w, w, k, p, p, Settled(p));
    var (w1, err, p1) := if p.spec.migrate then Update(w, k, Settled(p)) else (w, Nil, p);
    if err == Nil {
      if p.spec.migrate { UpdateReaches(u, w, k, p, Settled(p), Part.Policies); }
      CompareMoves(digest, u, w, w1, k, p, p1);
    }
  }

  lemma PassMoves(digest: Digest, u: W, k: Key)
    requires u.Valid() && Inv(View(KIND, u))
    ensures Pass(digest, u, k).Valid() && Moves(View(KIND, u), View(KIND, Pass(digest, u, k)), k, ModeOf(KIND, u, k))
  {
    hide Next, Begun, Reached, Moves, View, Inv, Ask, Update, Check, Create, Teardown, Plain;
    KindLawful();
    var w := Ask(u).0;
    GetBegins(u, k);
    if Ask(u).1 != Nil || k !in w.objects {
      IdleMoves(KIND, u, w, k);
    } else {
      var p := w.objects[k];
      BeginReaches(u, w, k, p, Part.Policies);
      if p.deleting {
        TeardownMoves(u, w, k, p);
      } else if !p.finalizer {
        ReadGuarded(KIND, u, w, k, p);
        PatchMoves(KIND, u, w, w, k, p, p, p.(finalizer := true));
      } else if p.status.Some? {
        CheckMoves(digest, u, w, k, p);
      } else {
        if Plain(KIND, u, k) { AskPlain(KIND, u, k); }
        CreateMoves(u, w, k, p);
      }
    }
  }

  /** Whatever the weather, a pass over a policy resource is a move of the ownership protocol. */
  lemma PassRefines(digest: Digest)
    ensures Refines(Passes(digest), KIND)
  {
    hide Pass, Moves, View, Inv, ModeOf;
    forall w: W, k: Key | w.Valid() && Inv(View(KIND, w))
      ensures Pass(digest, w, k).Valid()
      ensures Moves(View(KIND, w), View(KIND, Pass(digest, w, k)), k, ModeOf(KIND, w, k))
    {
      PassMoves(digest, w, k);
    }
  }

  class Reconciler {
    const client: Client<PolicySpec>
    const digest: Digest

    constructor (client: Client<PolicySpec>, digest: Digest)
      ensures this.client == client && this.digest == digest
    {
      this.client := client;
      this.digest := digest;
    }

    /** Reconciles the policy resource under `req`. */
    method Reconcile(req: Key)
      modifies client
      ensures client.State() == Pass(digest, old(client.State()), req)
    {
      hide Next, Store, Ask, Send, Update, DocPreimage;
      var err, found := client.Get(req);
      if err != Nil { return; }
      var p := found.value;

      if p.deleting {
        if p.status.Some? {
          err := client.Read();                                 // get tenant admin client
          if err != Nil { return; }
          err := client.Request(RemoveCannedPolicy(Target(client.minio.idp, p.status.value, req.namespace)));
          if err != Nil { return; }
          p := p.(status := None);
          err, p := client.Put(req, p);
          return;
        }
        p := p.(finalizer := false);
        err, p := client.Put(req, p);
        return;
      }

      if !p.finalizer {
        p := p.(finalizer := true);
        err, p := client.Put(req, p);
        return;
      }

      if p.status.Some? {
        if p.spec.migrate {
          p := p.(spec := p.spec.(migrate := false));
          err, p := client.Put(req, p);
          if err != Nil { return; }
        }
        err := client.Read();                                   // get tenant admin client
        if err != Nil { return; }
        var id := Target(client.minio.idp, p.status.value, req.namespace);
        var doc;
        err, doc := client.InfoCannedPolicy(id);
        var e := err != NoSuchPolicy;
        err := Ignore(err, NoSuchPolicy);
        if err != Nil { return; }
        if !e {
          p := p.(status := None);
          err, p := client.Put(req, p);
          return;
        }
        if p.status.value.version != p.spec.version || p.status.value.statement != p.spec.statement {
          err := client.Request(AddCannedPolicy(id, p.spec.Document()));
          if err != Nil { return; }
          p := p.(status := Some(p.status.value.(statement := p.spec.statement)));
          p := p.(status := Some(p.status.value.(version := p.spec.version)));
          err, p := client.Put(req, p);
          return;
        }
        var remote := GetHash(digest, doc);
        var recorded := GetHash(digest, p.status.value.Document());
        if remote != recorded {
          err := client.Request(AddCannedPolicy(id, p.status.value.Document()));
          return;
        }
        return;
      }

      if p.status.None? {
        err := client.Read();                                   // get tenant admin client
        if err != Nil { return; }
        var id, doc := Target(client.minio.idp, p.spec, req.namespace), EMPTY_DOC;
        err, doc := client.InfoCannedPolicy(id);
        var exists_ := err == Nil;
        if exists_ && !p.spec.migrate { return; }
        err := client.Request(AddCannedPolicy(id, p.spec.Document()));
        if err != Nil { return; }
        p := p.(spec := p.spec.(migrate := false));
        p := p.(status := Some(p.spec));
        err, p := client.Put(req, p);
      }
    }
  }
}
