/** MinioPolicyBinding: internal/operator/minio_policy_binding_reconciler.go. */
module PolicyBindings {
  import opened Prelude
  import opened Minio
  import opened Kube
  import opened Ownership
  import opened Branches
  import opened Clients
  import opened Runs
  import opened Addresses

  datatype Identity = Identity(builtin: string, ldap: string)

  datatype PolicyBindingSpec = PolicyBindingSpec(
    group: Identity,
    migrate: bool,
    policy: string,
    tenantRef: ResourceRef,
    user: Identity)
  {
    predicate Ldap() {
      group.ldap != "" || user.ldap != ""
    }

    /** The one identity the policy is bound to; the server refuses a request that names none or two. */
    function Entity(): Option<Entity> {
      var g, u := if Ldap() then group.ldap else group.builtin, if Ldap() then user.ldap else user.builtin;
      if (g == "") == (u == "") then None
      else if Ldap() then Some(if g != "" then LdapGroup(g) else LdapUser(u))
      else Some(if g != "" then Minio.Entity.Group(g) else Minio.Entity.User(u))
    }
  }

  type W = World<PolicyBindingSpec>
  type Resource = Object<PolicyBindingSpec>

  function PolicyId(spec: PolicyBindingSpec, ns: string): RemoteId {
    RemoteId(spec.tenantRef.SetDefaultNamespace(ns), spec.policy)
  }

  /** The attachment a spec names, for a resource in namespace `ns`. */
  function Target(idp: Idp, spec: PolicyBindingSpec, ns: string): Attachment {
    var id := PolicyId(spec, ns);
    Attachment(id,
        StoredName(idp, id.tenant, if spec.Entity().Some? then spec.Entity().value else Minio.Entity.User("")))
  }

  const KIND: Kind<PolicyBindingSpec, Attachment, ()> :=
    Kind(
      Target, (s: PolicyBindingSpec) => s.migrate, (s: PolicyBindingSpec) => s.migrate || s.Entity().None?,
      (m: Server) => Units(m.attachments), Part.Attachments, (w: W, k: Key) => true)

  function Settled(b: Resource): Resource {
    b.(spec := b.spec.(migrate := false))
  }

  function Created(b: Resource): Resource {
    Settled(b).(status := Some(Settled(b).spec))
  }

  /** Detaches the policy on record. */
  function DetachPolicyMember(w: W, k: Key, b: Resource): W
    requires b.status.Some?
  {
    var (w, err) := Ask(w);                                     // get tenant admin client
    if err != Nil then w
    else if b.status.value.Entity().None? then Ask(w).0         // the server refuses the request
    else Release(w, k, b, DetachPolicy(PolicyId(b.status.value, k.namespace), b.status.value.Entity().value),
        {NoSuchUser, NoSuchGroup})
  }

  function Teardown(w: W, k: Key, b: Resource): W {
    if b.status.Some? then DetachPolicyMember(w, k, b) else Update(w, k, b.(finalizer := false)).0
  }

  /** The lists of policy entities name the bound identity. */
  predicate Found(attached: set<Attachment>, info: seq<(string, string)>, spec: PolicyBindingSpec, ns: string) {
    var id := PolicyId(spec, ns);
    if spec.Ldap() then
      Attachment(id, LdapGroup(spec.group.ldap)) in attached
      || Attachment(id, LdapUser(UserDn(spec.user.ldap, SearchBase(info)))) in attached
    else
      Attachment(id, Minio.Entity.Group(spec.group.builtin)) in attached
      || Attachment(id, Minio.Entity.User(spec.user.builtin)) in attached
  }

  /**
   The attachment is one a spec means: its policy, attached to its group or its user under the name
   it has in the lists of policy entities, `base` being where the tenant looks for LDAP users.
   */
  predicate Meant(a: Attachment, base: string, spec: PolicyBindingSpec, ns: string) {
    && a.policy == Place(spec.tenantRef, ns, spec.policy)
    && match a.entity
       case Group(name) => spec.group.ldap == "" && spec.user.ldap == "" && name == spec.group.builtin
       case User(name) => spec.group.ldap == "" && spec.user.ldap == "" && name == spec.user.builtin
       case LdapGroup(name) => !(spec.group.ldap == "" && spec.user.ldap == "") && name == spec.group.ldap
       case LdapUser(name) => !(spec.group.ldap == "" && spec.user.ldap == "") && IsDn(name, spec.user.ldap, base)
  }

  /** The search for the bound identity finds an attachment that is meant, if there is one. */
  lemma FoundMeans(
      attached: set<Attachment>, info: seq<(string, string)>, base: string, spec: PolicyBindingSpec, ns: string)
    requires IsBase(info, base)
    ensures Found(attached, info, spec, ns) <==> exists a | a in attached :: Meant(a, base, spec, ns)
  {
    hide UserDn, IsDn, SearchBase, IsBase;
    var id, dn := PolicyId(spec, ns), UserDn(spec.user.ldap, SearchBase(info));
    SearchBaseIs(info);
    BaseUnique(info, base, SearchBase(info));
    forall name | true ensures name == dn <==> IsDn(name, spec.user.ldap, base) {
      UserDnIs(spec.user.ldap, base, name);
    }
    if Found(attached, info, spec, ns) {
      var e := if spec.Ldap() then
          if Attachment(id, LdapGroup(spec.group.ldap)) in attached then LdapGroup(spec.group.ldap) else LdapUser(dn)
        else if Attachment(id, Minio.Entity.Group(spec.group.builtin)) in attached
          then Minio.Entity.Group(spec.group.builtin) else Minio.Entity.User(spec.user.builtin);
      assert Attachment(id, e) in attached && Meant(Attachment(id, e), base, spec, ns);
    }
  }

  function Search(w: W, k: Key, b: Resource): W
    requires b.status.Some?
  {
    var spec, id := b.status.value, PolicyId(b.status.value, k.namespace);
    var (w, err) := Ask(w);                                     // list policy entities
    if err != Nil || id !in w.minio.policies then w else
    var attached := w.minio.attachments;
    var (w, err) := if spec.Ldap() then Ask(w) else (w, Nil);   // get the LDAP configuration
    if err != Nil || Found(attached, IdpOf(w.minio.idp, id.tenant), spec, k.namespace) then w
    else Update(w, k, b.(status := None)).0
  }

  function Compare(w: W, k: Key, b: Resource): W
    requires b.status.Some?
  {
    var (w, err) := Ask(w);                                     // get tenant admin client
    if err != Nil then w
    else if b.status.value != b.spec then DetachPolicyMember(w, k, b)
    else Search(w, k, b)
  }

  function Check(w: W, k: Key, b: Resource): W
    requires b.status.Some?
  {
    var (w, err, b) := if b.spec.migrate then Update(w, k, Settled(b)) else (w, Nil, b);
    if err != Nil then w else Compare(w, k, b)
  }

  function Create(w: W, k: Key, b: Resource): W {
    var (w, err) := Ask(w);                                     // get tenant admin client
    if err != Nil then w
    else if b.spec.Entity().None? then Ask(w).0                 // the server refuses the request
    else
      Adopt(w, k, Created(b), AttachPolicy(PolicyId(b.spec, k.namespace), b.spec.Entity().value),
        if b.spec.migrate then {PolicyChangeAlreadyApplied} else {})
  }

  /** One reconciliation of the policy binding resource under `k`. */
  function Pass(w: W, k: Key): W {
    var (w, err) := Ask(w);                                     // get the resource
    if err != Nil || k !in w.objects then w else
    var b := w.objects[k];
    if b.deleting then Teardown(w, k, b)
    else if !b.finalizer then Update(w, k, b.(finalizer := true)).0
    else if b.status.Some? then Check(w, k, b)
    else Create(w, k, b)
  }

  lemma KindLawful()
    ensures Lawful(KIND)
  {
  }

  lemma DetachRemoves(idp: Idp, id: RemoteId, e: Entity)
    ensures Removes(KIND, idp, DetachPolicy(id, e), {NoSuchUser, NoSuchGroup},
        Attachment(id, StoredName(idp, id.tenant, e)))
  {
    hide SearchBase, IdpOf;
  }

  lemma Attaches(m: Server, id: RemoteId, e: Entity)
    ensures
      var (n, err), at := m.Serve(AttachPolicy(id, e)), Attachment(id, StoredName(m.idp, id.tenant, e));
      && (err == Nil ==> n.attachments == m.attachments + {at})
      && (err == PolicyChangeAlreadyApplied ==> at in m.attachments)
      && (err != Nil ==> n == m) && err != Transport
  {
    hide UserDn, SearchBase, IdpOf, StoredName;
  }

  lemma AttachMakes(idp: Idp, id: RemoteId, e: Entity, excused: set<Err>)
    requires excused <= {PolicyChangeAlreadyApplied}
    ensures Makes(KIND, idp, AttachPolicy(id, e), excused, Attachment(id, StoredName(idp, id.tenant, e)))
  {
    hide StoredName, Server.Serve, Server.Valid;
    forall m: Server | m.Valid() && m.idp == idp
      ensures
        var (n, err), at := m.Serve(AttachPolicy(id, e)), Attachment(id, StoredName(m.idp, id.tenant, e));
        && (err == Nil ==> n.attachments == m.attachments + {at})
        && (err == PolicyChangeAlreadyApplied ==> at in m.attachments)
        && (err != Nil ==> n == m) && err != Transport
    {
      Attaches(m, id, e);
    }
  }

  lemma AttachRefuses(idp: Idp, id: RemoteId, e: Entity)
    ensures Refuses(KIND, idp, AttachPolicy(id, e), {}, Attachment(id, StoredName(idp, id.tenant, e)))
  {
    hide UserDn, SearchBase, IdpOf;
  }

  lemma StaysGuarded(u: W, w0: W, k: Key, g0: Resource, g: Resource)
    requires g.status.Some? && SameClaim(KIND, u, k, g0, g)
    ensures g.finalizer
  {
  }

  lemma ReadFit(u: W, w: W, k: Key, g: Resource)
    requires Inv(View(KIND, u)) && Begun(u, w, k, g)
    ensures g.status.Some? ==> g.status.value.Entity().Some?
  {
    hide View, Begun;
    ReadGuarded(KIND, u, w, k, g);
  }

  lemma DetachPolicyMemberMoves(u: W, w0: W, w: W, k: Key, g0: Resource, g: Resource)
    requires Inv(View(KIND, u)) && Begun(u, w0, k, g0) && Reached(u, w, k, g, Part.Attachments)
    requires g.status.Some? && g.status == g0.status && SameClaim(KIND, u, k, g0, g)
    ensures DetachPolicyMember(w, k, g).Valid()
    ensures Moves(View(KIND, u), View(KIND, DetachPolicyMember(w, k, g)), k, ModeOf(KIND, u, k))
  {
    hide Next, Begun, Reached, Moves, View, Inv, Release, Ask, Removes, Update, SameClaim, UserDn, SearchBase, IdpOf;
    KindLawful();
    ReadFit(u, w0, k, g0);
    var w1 := Ask(w).0;
    AskReaches(u, w, k, g, Part.Attachments);
    StopMoves(KIND, u, w0, w1, k, g0, g);
    var id, e := PolicyId(g.status.value, k.namespace), g.status.value.Entity().value;
    DetachRemoves(u.minio.idp, id, e);
    assert g.finalizer by { StaysGuarded(u, w0, k, g0, g); }
    ReleaseMoves(KIND, u, w0, w1, k, g0, g, DetachPolicy(id, e),
        {NoSuchUser, NoSuchGroup}, Target(u.minio.idp, g.status.value, k.namespace));
  }

  lemma CreateMoves(u: W, w: W, k: Key, g: Resource)
    requires Inv(View(KIND, u)) && Begun(u, w, k, g) && Reached(u, w, k, g, Part.Attachments)
    requires g.finalizer && g.status.None? && (Plain(KIND, u, k) ==> !g.spec.migrate)
    ensures Create(w, k, g).Valid() && Moves(View(KIND, u), View(KIND, Create(w, k, g)), k, ModeOf(KIND, u, k))
  {
    hide Next, Begun, Reached, Moves, Plain, View, Inv, Adopt, Ask, Makes, Refuses, Spares, UserDn, SearchBase, IdpOf;
    var w1 := Ask(w).0;
    KindLawful();
    AskReaches(u, w, k, g, Part.Attachments);
    StopMoves(KIND, u, w, w1, k, g, g);
    if g.spec.Entity().None? {
      AskReaches(u, w1, k, g, Part.Attachments);
      StopMoves(KIND, u, w, Ask(w1).0, k, g, g);
    } else {
      var id, e := PolicyId(g.spec, k.namespace), g.spec.Entity().value;
      var excused := if g.spec.migrate then {PolicyChangeAlreadyApplied} else {};
      AttachMakes(u.minio.idp, id, e, excused);
      AttachRefuses(u.minio.idp, id, e);
      assert Settled(g).spec.Entity() == g.spec.Entity();
      AdoptMoves(KIND, u, w, w1, k, g, Created(g), AttachPolicy(id, e), excused,
          Target(u.minio.idp, g.spec, k.namespace));
    }
  }

  lemma TeardownMoves(u: W, w: W, k: Key, g: Resource)
    requires Inv(View(KIND, u)) && Begun(u, w, k, g) && Reached(u, w, k, g, Part.Attachments)
    ensures Teardown(w, k, g).Valid() && Moves(View(KIND, u), View(KIND, Teardown(w, k, g)), k, ModeOf(KIND, u, k))
  {
    hide Next, Begun, Reached, Moves, View, Inv, DetachPolicyMember, Update;
    KindLawful();
    ReadGuarded(KIND, u, w, k, g);
    if g.status.Some? {
      DetachPolicyMemberMoves(u, w, w, k, g, g);
    } else {
      PatchMoves(KIND, u, w, w, k, g, g, g.(finalizer := false));
    }
  }

  /** The search loops find the bound identity exactly when the attachment exists. */
  lemma FoundIsTarget(idp: Idp, attached: set<Attachment>, spec: PolicyBindingSpec, ns: string)
    requires spec.Entity().Some?
    ensures Target(idp, spec, ns) in attached ==> Found(attached, IdpOf(idp, PolicyId(spec, ns).tenant), spec, ns)
    ensures (forall a | a in attached :: a.entity.name != "") ==>
      (Found(attached, IdpOf(idp, PolicyId(spec, ns).tenant), spec, ns) <==> Target(idp, spec, ns) in attached)
  {
  }

  lemma SearchForgets(u: W, w: W, w3: W, w4: W, k: Key, g: Resource, g1: Resource)
    requires Inv(View(KIND, u)) && Begun(u, w, k, g) && Reached(u, w3, k, g1, Part.Attachments)
    requires Reached(u, w4, k, g1, Part.Attachments)
    requires w4 == w3 || w4 == Ask(w3).0
    requires g1.status.Some? && g1.status == g.status && SameClaim(KIND, u, k, g, g1)
    requires !Found(w3.minio.attachments, IdpOf(w4.minio.idp, PolicyId(g1.status.value, k.namespace).tenant),
        g1.status.value, k.namespace)
    ensures var v := Update(w4, k, g1.(status := None)).0;
      v.Valid() && Moves(View(KIND, u), View(KIND, v), k, ModeOf(KIND, u, k))
  {
    hide Next, Begun, Moves, View, Inv, Ask, Update, Calmly, Along, Held;
    KindLawful();
    SameIdp(u, w4, k, g1, Part.Attachments);
    ReadFit(u, w, k, g);
    FoundIsTarget(u.minio.idp, w3.minio.attachments, g1.status.value, k.namespace);
    ForgetLateMoves(KIND, u, w, w3, w4, k, g, g1);
  }

  lemma SearchMoves(u: W, w: W, w2: W, k: Key, g: Resource, g1: Resource)
    requires Inv(View(KIND, u)) && Begun(u, w, k, g) && Reached(u, w2, k, g1, Part.Attachments)
    requires g1.status.Some? && g1.status == g.status && SameClaim(KIND, u, k, g, g1)
    ensures Search(w2, k, g1).Valid() && Moves(View(KIND, u), View(KIND, Search(w2, k, g1)), k, ModeOf(KIND, u, k))
  {
    hide Next, Begun, Reached, Moves, View, Inv, Ask, Update, SameClaim, UserDn, SearchBase, IdpOf, Found, Calmly;
    KindLawful();
    var spec := g1.status.value;
    var w3 := Ask(w2).0;
    AskReaches(u, w2, k, g1, Part.Attachments);
    StopMoves(KIND, u, w, w3, k, g, g1);
    var w4 := if spec.Ldap() then Ask(w3).0 else w3;
    if spec.Ldap() { AskReaches(u, w3, k, g1, Part.Attachments); }
    StopMoves(KIND, u, w, w4, k, g, g1);
    if !Found(w3.minio.attachments, IdpOf(w4.minio.idp, PolicyId(spec, k.namespace).tenant), spec, k.namespace) {
      SearchForgets(u, w, w3, w4, k, g, g1);
    }
  }

  lemma CompareMoves(u: W, w: W, w1: W, k: Key, g: Resource, g1: Resource)
    requires Inv(View(KIND, u)) && Begun(u, w, k, g) && Reached(u, w1, k, g1, Part.Attachments)
    requires g1.status.Some? && g1.status == g.status && SameClaim(KIND, u, k, g, g1)
    ensures Compare(w1, k, g1).Valid() && Moves(View(KIND, u), View(KIND, Compare(w1, k, g1)), k, ModeOf(KIND, u, k))
  {
    hide Next, Begun, Reached, Moves, View, Inv, Ask, Update, DetachPolicyMember, Search, SameClaim;
    KindLawful();
    var w2 := Ask(w1).0;
    AskReaches(u, w1, k, g1, Part.Attachments);
    StopMoves(KIND, u, w, w2, k, g, g1);
    DetachPolicyMemberMoves(u, w, w2, k, g, g1);
    SearchMoves(u, w, w2, k, g, g1);
  }

  lemma CheckMoves(u: W, w: W, k: Key, g: Resource)
    requires Inv(View(KIND, u)) && Begun(u, w, k, g) && Reached(u, w, k, g, Part.Attachments) && g.status.Some?
    ensures Check(w, k, g).Valid() && Moves(View(KIND, u), View(KIND, Check(w, k, g)), k, ModeOf(KIND, u, k))
  {
    hide Next, Begun, Reached, Moves, View, Inv, Update, Compare;
    KindLawful();
    ReadGuarded(KIND, u, w, k, g);
    PatchMoves(KIND, u, w, w, k, g, g, Settled(g));
    var (w1, err, g1) := if g.spec.migrate then Update(w, k, Settled(g)) else (w, Nil, g);
    if err == Nil {
      if g.spec.migrate { UpdateReaches(u, w, k, g, Settled(g), Part.Attachments); }
      CompareMoves(u, w, w1, k, g, g1);
    }
  }

  lemma PassMoves(u: W, k: Key)
    requires u.Valid() && Inv(View(KIND, u))
    ensures Pass(u, k).Valid() && Moves(View(KIND, u), View(KIND, Pass(u, k)), k, ModeOf(KIND, u, k))
  {
    hide Next, Begun, Reached, Moves, View, Inv, Ask, Update, Check, Create, Teardown, Plain;
    KindLawful();
    var w := Ask(u).0;
    GetBegins(u, k);
    if Ask(u).1 != Nil || k !in w.objects {
      IdleMoves(KIND, u, w, k);
    } else {
      var g := w.objects[k];
      BeginReaches(u, w, k, g, Part.Attachments);
      if g.deleting {
        TeardownMoves(u, w, k, g);
      } else if !g.finalizer {
        ReadGuarded(KIND, u, w, k, g);
        PatchMoves(KIND, u, w, w, k, g, g, g.(finalizer := true));
      } else if g.status.Some? {
        CheckMoves(u, w, k, g);
      } else {
        if Plain(KIND, u, k) { AskPlain(KIND, u, k); }
        CreateMoves(u, w, k, g);
      }
    }
  }

  /** Whatever the weather, a pass over a policy binding resource is a move of the ownership protocol. */
  lemma PassRefines()
    ensures Refines(Pass, KIND)
  {
    hide Pass, Moves, View, Inv, ModeOf;
    forall w: W, k: Key | w.Valid() && Inv(View(KIND, w))
      ensures Pass(w, k).Valid() && Moves(View(KIND, w), View(KIND, Pass(w, k)), k, ModeOf(KIND, w, k))
    {
      PassMoves(w, k);
    }
  }

  class Reconciler {
    const client: Client<PolicyBindingSpec>
    var pb: Resource                                            // the resource in the hands of the pass

    constructor (client: Client<PolicyBindingSpec>)
      ensures this.client == client
    {
      this.client := client;
      pb := Object(PolicyBindingSpec(Identity("", ""), false, "", ResourceRef("", ""), Identity("", "")), None, 0,
          false, false, 0);
    }

    /** A request that names no identity, or two, never gets past the server. */
    method Associate(attach: bool, id: RemoteId, spec: PolicyBindingSpec) returns (err: Err)
      modifies client
      ensures spec.Entity().None? ==> client.State() == Ask(old(client.State())).0 && err in {Transport, Refused}
      ensures spec.Entity().Some? ==>
        (client.State(), err) == Send(old(client.State()), if attach then AttachPolicy(id, spec.Entity().value)
            else DetachPolicy(id, spec.Entity().value))
    {
      hide Next, Server.Serve;
      if spec.Entity().None? {
        err := client.Read();
        if err == Nil { err := Refused; }
      } else if attach {
        err := client.Request(AttachPolicy(id, spec.Entity().value));
      } else {
        err := client.Request(DetachPolicy(id, spec.Entity().value));
      }
    }

    /** Detaches the policy on record of the resource in hand, and forgets it. */
    method DetachMember(req: Key) returns (err: Err)
      requires pb.status.Some?
      modifies client, this`pb
      ensures client.State() == DetachPolicyMember(old(client.State()), req, old(pb))
    {
      hide Next, Store, Ask, Send, Update, Server.Serve, PolicyBindingSpec.Entity;
      err := client.Read();                                     // get tenant admin client
      if err != Nil { return; }
      err := Associate(false, PolicyId(pb.status.value, req.namespace), pb.status.value);
      err := Ignore(err, NoSuchUser);
      err := Ignore(err, NoSuchGroup);
      if err != Nil { return; }
      pb := pb.(status := None);
      err, pb := client.Put(req, pb);
    }

    /** The base under which the tenant looks for LDAP users. */
    method FindSearchBase(info: seq<(string, string)>) returns (base: string)
      ensures base == SearchBase(info) && IsBase(info, base)
    {
      SearchBaseIs(info);
      base := "";
      var i := 0;
      while i < |info|
        invariant 0 <= i <= |info|
        invariant SearchBase(info) == SearchBase(info[i..])
      {
        assert info[i..][1..] == info[i + 1..];
        if info[i].0 == USER_DN_SEARCH_BASE {
          base := info[i].1;
          return;
        }
        i := i + 1;
      }
    }

    /** Some list names the group or the user. */
    method FindMember(mappings: seq<PolicyMapping>, group: string, user: string) returns (found: bool)
      ensures found <==> exists i :: 0 <= i < |mappings| && (group in mappings[i].groups || user in mappings[i].users)
    {
      found := false;
      var i := 0;
      while i < |mappings|
        invariant 0 <= i <= |mappings|
        invariant forall j :: 0 <= j < i ==> group !in mappings[j].groups && user !in mappings[j].users
      {
        if group in mappings[i].groups || user in mappings[i].users {
          found := true;
          return;
        }
        i := i + 1;
      }
    }

    /** Lists the entities of the policy on record and looks for the bound identity. */
    method LookUp(req: Key) returns (err: Err, found: bool)
      requires pb.status.Some?
      modifies client
      ensures
        var w, spec, id := old(client.State()), pb.status.value, PolicyId(pb.status.value, req.namespace);
        var (w1, e1) := Ask(w);
        if e1 != Nil || id !in w1.minio.policies then err != Nil && client.State() == w1
        else
          var (w2, e2) := if spec.Ldap() then Ask(w1) else (w1, Nil);
          && client.State() == w2 && err == e2
          && (err == Nil ==>
              (found <==> Found(w1.minio.attachments, IdpOf(w2.minio.idp, id.tenant), spec, req.namespace)))
          && (err == Nil ==> forall base | IsBase(IdpOf(w2.minio.idp, id.tenant), base) ::
                (found <==> exists a | a in w1.minio.attachments :: Meant(a, base, spec, req.namespace)))
    {
      hide Next, UserDn, SearchBase, IdpOf, IsBase, Meant;
      var spec, id := pb.status.value, PolicyId(pb.status.value, req.namespace);
      var mappings;
      ghost var attached;
      found := false;
      if spec.Ldap() {
        err, mappings := client.GetLdapPolicyEntities(id);
        if err != Nil { return; }
        attached := client.minio.attachments;
        var info;
        err, info := client.GetIdpConfig(id.tenant);
        if err != Nil { return; }
        var base := FindSearchBase(info);
        found := FindMember(mappings, spec.group.ldap, UserDn(spec.user.ldap, base));
      } else {
        err, mappings := client.GetPolicyEntities(id);
        if err != Nil { return; }
        attached := client.minio.attachments;
        found := FindMember(mappings, spec.group.builtin, spec.user.builtin);
      }
      ghost var tenant := IdpOf(client.minio.idp, id.tenant);
      forall base | err == Nil && IsBase(tenant, base)
        ensures found <==> exists a | a in attached :: Meant(a, base, spec, req.namespace)
      {
        FoundMeans(attached, tenant, base, spec, req.namespace);
      }
    }

    /** Reconciles the policy binding resource under `req`. */
    method Reconcile(req: Key)
      modifies client, this`pb
      ensures client.State() == Pass(old(client.State()), req)
    {
      hide Next, Store, Ask, Send, Update, DetachPolicyMember, PolicyBindingSpec.Entity, Found, Server.Serve;
      hide Meant, IsBase, IdpOf;
      var err, found := client.Get(req);
      if err != Nil { return; }
      pb := found.value;

      if pb.deleting {
        if pb.status.Some? {
          err := DetachMember(req);
          return;
        }
        pb := pb.(finalizer := false);
        err, pb := client.Put(req, pb);
        return;
      }

      if !pb.finalizer {
        pb := pb.(finalizer := true);
        err, pb := client.Put(req, pb);
        return;
      }

      if pb.status.Some? {
        if pb.spec.migrate {
          pb := pb.(spec := pb.spec.(migrate := false));
          err, pb := client.Put(req, pb);
          if err != Nil { return; }
        }
        err := client.Read();                                   // get tenant admin client
        if err != Nil { return; }
        if pb.status.value != pb.spec {
          err := DetachMember(req);
          return;
        }
        var attached;
        err, attached := LookUp(req);
        if err != Nil { return; }
        if !attached {
          pb := pb.(status := None);
          err, pb := client.Put(req, pb);
          return;
        }
      }

      if pb.status.None? {
        err := client.Read();                                   // get tenant admin client
        if err != Nil { return; }
        err := Associate(true, PolicyId(pb.spec, req.namespace), pb.spec);
        if pb.spec.migrate { err := Ignore(err, PolicyChangeAlreadyApplied); }
        if err != Nil { return; }
        pb := pb.(spec := pb.spec.(migrate := false));
        pb := pb.(status := Some(pb.spec));
        err, pb := client.Put(req, pb);
      }
    }
  }
}
