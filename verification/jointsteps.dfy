/** Single passes without faults over resources that are yet to get their remote objects, in closed form. */
module JointSteps {
  import opened Prelude
  import opened Minio
  import opened Kube
  import opened Calmness
  import opened PolicyHash
  import Users
  import Groups
  import Policies
  import GroupBindings
  import PolicyBindings
  import AccessKeys
  import AccessKeyLife
  import AccessKeyConvergence

  /** A world without faults whose resource under `k` is wanted. */
  ghost predicate Wanted<S>(w: World<S>, k: Key) {
    w.Valid() && w.weather.Calm? && k in w.objects && !w.objects[k].deleting
  }

  lemma GroupSteps(w: Groups.W, k: Key)
    requires Wanted(w, k) && !w.objects[k].spec.migrate
    ensures
      var g, v := w.objects[k], Groups.Pass(w, k);
      var id := Groups.Target(w.minio.idp, g.spec, k.namespace);
      && (!g.finalizer ==> v == Stored(w, k, g.(finalizer := true)) && v.Valid())
      && (g.finalizer && g.status.None? && id !in w.minio.groups ==>
            v == Stored(w.(minio := w.minio.(groups := w.minio.groups + {id})), k,
                g.(status := Some(g.spec))) && v.Valid())
      && (g.finalizer && g.status == Some(g.spec) && id in w.minio.groups ==> v == w)
  {
    hide Next, Ask, Send, Update, World.Valid, Kept, Weathered;
    var g := w.objects[k];
    var q := AddGroup(Groups.Target(w.minio.idp, g.spec, k.namespace));
    if !g.finalizer { CalmStored(w, k, g.(finalizer := true)); }
    CalmSend(w, q);
    if g.finalizer && g.status.None? {
      assert g.spec.(migrate := false) == g.spec;
      CalmStored(Send(w, q).0, k, g.(status := Some(g.spec)));
    }
  }

  /** The access key a user spec leads to, outright or by reference, if it leads to one. */
  function UserKey(secrets: map<Key, Secret>, spec: Users.UserSpec, ns: string): Option<string> {
    var at := spec.accessKeyRef.Target(ns);
    if spec.accessKey != "" then Some(spec.accessKey)
    else if spec.accessKeyRef == NO_REF || at !in secrets || secrets[at].Field(spec.accessKeyRef.key) == "" then None
    else Some(secrets[at].Field(spec.accessKeyRef.key))
  }

  lemma UserKeyFound(w: Users.W, spec: Users.UserSpec, ns: string)
    requires w.weather.Calm? && UserKey(w.secrets, spec, ns).Some?
    ensures Users.AccessKey(w, spec, ns) == (w, Nil, UserKey(w.secrets, spec, ns).value)
  {
    hide Next, Kept, Weathered;
  }

  lemma UserSteps(w: Users.W, k: Key)
    requires Wanted(w, k) && !w.objects[k].spec.migrate && UserKey(w.secrets, w.objects[k].spec, k.namespace).Some?
    requires w.objects[k].spec.secretKeyRef.Target(k.namespace) in w.secrets
    ensures
      var u, v := w.objects[k], Users.Pass(w, k);
      var spec := u.spec.(accessKey := UserKey(w.secrets, u.spec, k.namespace).value);
      var id, secret := Users.Target(w.minio.idp, spec, k.namespace), w.secrets[spec.secretKeyRef.Target(k.namespace)];
      && (!u.finalizer ==> v == Stored(w, k, u.(finalizer := true)) && v.Valid())
      && (u.finalizer && u.status.None? && id !in w.minio.users ==>
            v == Stored(w.(minio := w.minio.(users := w.minio.users[id := secret.Field(spec.secretKeyRef.key)])), k,
                        u.(spec := spec, status := Some(spec), stamp := secret.version)) && v.Valid())
      && (u.finalizer && u.status == Some(u.spec) && id in w.minio.users && u.stamp == secret.version ==> v == w)
  {
    hide Next, Ask, Send, Update, World.Valid, Kept, Weathered, Users.AccessKey, UserKey;
    var u := w.objects[k];
    UserKeyFound(w, u.spec, k.namespace);
    var spec := u.spec.(accessKey := UserKey(w.secrets, u.spec, k.namespace).value);
    var secret := w.secrets[spec.secretKeyRef.Target(k.namespace)];
    var q := AddUser(Users.Target(w.minio.idp, spec, k.namespace), secret.Field(spec.secretKeyRef.key));
    assert spec.(migrate := false) == spec;
    if !u.finalizer { CalmStored(w, k, u.(finalizer := true)); }
    CalmSend(w, q);
    if u.finalizer && u.status.None? {
      CalmStored(Send(w, q).0, k, u.(spec := spec, status := Some(spec), stamp := secret.version));
    }
  }

  lemma PolicySteps(digest: Digest, w: Policies.W, k: Key)
    requires Wanted(w, k) && !w.objects[k].spec.migrate
    ensures
      var p, v := w.objects[k], Policies.Pass(digest, w, k);
      var id := Policies.Target(w.minio.idp, p.spec, k.namespace);
      && (!p.finalizer ==> v == Stored(w, k, p.(finalizer := true)) && v.Valid())
      && (p.finalizer && p.status.None? && id !in w.minio.policies ==>
            v == Stored(w.(minio := w.minio.(policies := w.minio.policies[id := p.spec.Document()])),
                k, p.(status := Some(p.spec))) && v.Valid())
      && (p.finalizer && p.status == Some(p.spec) && id in w.minio.policies &&
          w.minio.policies[id] == p.spec.Document() ==>
          v == w)
  {
    hide Next, Ask, Send, Update, World.Valid, Kept, Weathered, DocPreimage;
    var p := w.objects[k];
    var q := AddCannedPolicy(Policies.Target(w.minio.idp, p.spec, k.namespace), p.spec.Document());
    if !p.finalizer { CalmStored(w, k, p.(finalizer := true)); }
    CalmSend(w, q);
    if p.finalizer && p.status.None? {
      assert p.spec.(migrate := false) == p.spec;
      CalmStored(Send(w, q).0, k, p.(status := Some(p.spec)));
    }
  }

  lemma GroupBindingSteps(w: GroupBindings.W, k: Key)
    requires Wanted(w, k) && !w.objects[k].spec.migrate
    ensures
      var b, v := w.objects[k], GroupBindings.Pass(w, k);
      var member := GroupBindings.Target(w.minio.idp, b.spec, k.namespace);
      var bound := member.group in w.minio.groups && RemoteId(member.group.tenant, member.user) in w.minio.users;
      && (!b.finalizer ==> v == Stored(w, k, b.(finalizer := true)) && v.Valid())
      && (b.finalizer && b.status.None? && member !in w.minio.members && bound ==>
            v == Stored(w.(minio := w.minio.(members := w.minio.members + {member})), k,
                b.(status := Some(b.spec))) && v.Valid())
      && (b.finalizer && b.status.None? && !bound ==> v == w)
      && (b.finalizer && b.status == Some(b.spec) && bound && member in w.minio.members ==> v == w)
  {
    hide Next, Ask, Send, Update, World.Valid, Kept, Weathered;
    var b := w.objects[k];
    var member := GroupBindings.Target(w.minio.idp, b.spec, k.namespace);
    var q := AddMember(member.group, member.user);
    if !b.finalizer { CalmStored(w, k, b.(finalizer := true)); }
    CalmSend(w, q);
    if b.finalizer && b.status.None? {
      assert b.spec.(migrate := false) == b.spec;
      CalmStored(Send(w, q).0, k, b.(status := Some(b.spec)));
      assert member.group in w.minio.groups ==> w.minio.groups + {member.group} == w.minio.groups;
    }
  }

  lemma PolicyBindingSteps(w: PolicyBindings.W, k: Key)
    requires Wanted(w, k) && !w.objects[k].spec.migrate && w.objects[k].spec.Entity().Some?
    ensures
      var b, v := w.objects[k], PolicyBindings.Pass(w, k);
      var at := PolicyBindings.Target(w.minio.idp, b.spec, k.namespace);
      var bound := at.policy in w.minio.policies && w.minio.Known(at.policy.tenant, b.spec.Entity().value);
      && (!b.finalizer ==> v == Stored(w, k, b.(finalizer := true)) && v.Valid())
      && (b.finalizer && b.status.None? && at !in w.minio.attachments && bound ==>
            v == Stored(w.(minio := w.minio.(attachments := w.minio.attachments + {at})), k, b.(status := Some(b.spec)))
                && v.Valid())
      && (b.finalizer && b.status.None? && !bound ==> v == w)
      && (b.finalizer && b.status == Some(b.spec) && at.policy in w.minio.policies && at in w.minio.attachments ==>
            v == w)
  {
    hide Next, Ask, Send, Update, World.Valid, Kept, Weathered, UserDn, SearchBase, IdpOf;
    hide PolicyBindings.PolicyBindingSpec.Entity, PolicyBindings.Found;
    var b := w.objects[k];
    var q := AttachPolicy(PolicyBindings.PolicyId(b.spec, k.namespace), b.spec.Entity().value);
    if !b.finalizer { CalmStored(w, k, b.(finalizer := true)); }
    CalmSend(w, q);
    if b.finalizer && b.status.None? {
      assert b.spec.(migrate := false) == b.spec;
      CalmStored(Send(w, q).0, k, b.(status := Some(b.spec)));
    }
    if b.status == Some(b.spec) {
      PolicyBindings.FoundIsTarget(w.minio.idp, w.minio.attachments, b.status.value, k.namespace);
    }
  }

  /** What is referred to is there, outside the generated secret. */
  predicate Provided(w: AccessKeys.W, k: Key, spec: AccessKeys.AccessKeySpec) {
    var at := AccessKeys.SecretOf(spec, k.namespace);
    && !spec.migrate
    && (spec.accessKey == "" ==> AccessKeyConvergence.Given(w, spec.accessKeyRef, k.namespace).Some?)
    && AccessKeyConvergence.Given(w, spec.secretKeyRef, k.namespace).Some?
    && (spec.accessKeyRef == NO_REF || spec.accessKeyRef.Target(k.namespace) != at)
    && (spec.secretKeyRef == NO_REF || spec.secretKeyRef.Target(k.namespace) != at)
  }

  /** The access key the spec gives, outright or by reference; empty when it is to be made up. */
  function GivenKey(w: AccessKeys.W, k: Key, spec: AccessKeys.AccessKeySpec): string {
    var given := AccessKeyConvergence.Given(w, spec.accessKeyRef, k.namespace);
    if spec.accessKey != "" then spec.accessKey else if given.Some? then given.value else ""
  }

  /** The access key a pass takes. */
  function TakenKey(w: AccessKeys.W, k: Key, spec: AccessKeys.AccessKeySpec, roll: AccessKeys.Roll): string
    requires roll.first.Some?
  {
    if GivenKey(w, k, spec) != "" then GivenKey(w, k, spec) else roll.AccessKey().value
  }

  lemma ProvidedDesired(w: AccessKeys.W, k: Key, spec: AccessKeys.AccessKeySpec, roll: AccessKeys.Roll)
    requires w.Valid() && w.weather.Calm? && Provided(w, k, spec) && AccessKeyConvergence.Lucky(roll)
    ensures var (v, err, creds) := AccessKeys.Desired(w, k.namespace, spec, None, roll);
      && err == Nil && creds.accessKey == TakenKey(w, k, spec, roll) != "" && creds.secretKey != ""
      && var given := AccessKeyConvergence.Given(w, spec.secretKeyRef, k.namespace);
      (given.value != "" ==> creds.secretKey == given.value)
  {
    hide Next, Still, AccessKeys.Resolve, World.Valid;
    AccessKeyConvergence.CalmStill();
    if spec.accessKeyRef != NO_REF { AccessKeyConvergence.ResolveStill(w, spec.accessKeyRef, k.namespace); }
    if spec.secretKeyRef != NO_REF { AccessKeyConvergence.ResolveStill(w, spec.secretKeyRef, k.namespace); }
  }

  /** The account and the generated secret are as the pass that made them left them. */
  predicate KeySettled(w: AccessKeys.W, k: Key, digest: Digest) {
    k in w.objects && w.objects[k].status == Some(w.objects[k].spec) && w.objects[k].spec.accessKey != "" &&
    var ak := w.objects[k];
    var at := AccessKeys.SecretOf(ak.spec, k.namespace);
    var id := RemoteId(AccessKeys.TenantOf(ak.spec, k.namespace), ak.spec.accessKey);
    && at in w.secrets && ak.stamp == w.secrets[at].version
    && id in w.minio.accounts && !AccessKeys.Differ(digest, w.minio.accounts[id].attributes, ak.spec.Attributes())
    && var creds := AccessKeys.CredsOf(w.secrets[at]);
    var given := AccessKeyConvergence.Given(w, ak.spec.secretKeyRef, k.namespace);
    && creds.accessKey == ak.spec.accessKey && creds.secretKey != ""
    && (given.Some? && given.value != "" ==> creds.secretKey == given.value)
  }

  lemma AccessKeySteps(w: AccessKeys.W, k: Key, roll: AccessKeys.Roll)
    requires Wanted(w, k) && Provided(w, k, w.objects[k].spec) && AccessKeyConvergence.Lucky(roll)
    ensures
      var ak, v := w.objects[k], AccessKeys.Pass(w, k, roll);
      var at := AccessKeys.SecretOf(ak.spec, k.namespace);
      && (!ak.finalizer ==> v == Stored(w, k, ak.(finalizer := true)) && v.Valid())
      && (ak.finalizer && ak.status.None? && at !in w.secrets && !AccessKeyLife.HasParent(w, k, ak.spec) ==>
          v == w.(clock := w.clock + 1))
  {
    hide Next, Ask, Update, World.Valid, Kept, Weathered, AccessKeys.Desired, AccessKeys.Create, AccessKeys.Check;
    hide AccessKeyConvergence.Given;
    var ak := w.objects[k];
    if !ak.finalizer { CalmStored(w, k, ak.(finalizer := true)); }
    ProvidedDesired(w, k, ak.spec, roll);
    if ak.finalizer && ak.status.None? && AccessKeys.SecretOf(ak.spec, k.namespace) !in w.secrets {
      AccessKeyLife.CreatesOrLeaves(w, k, roll);
    }
  }

  lemma SameAttributes(spec: AccessKeys.AccessKeySpec, accessKey: string)
    ensures spec.(accessKey := accessKey, migrate := false).Attributes() == spec.Attributes()
  {
  }

  lemma GivenElsewhere(w: AccessKeys.W, v: AccessKeys.W, k: Key, spec: AccessKeys.AccessKeySpec)
    requires Provided(w, k, spec)
    requires forall ref | ref != AccessKeys.SecretOf(spec, k.namespace) && ref in w.secrets ::
        ref in v.secrets && v.secrets[ref] == w.secrets[ref]
    ensures
      var ref, ns := spec.secretKeyRef, k.namespace;
      AccessKeyConvergence.Given(v, ref, ns) == AccessKeyConvergence.Given(w, ref, ns)
    ensures GivenKey(v, k, spec) == GivenKey(w, k, spec) && Provided(v, k, spec)
  {
  }

  lemma AccessKeyCreated(w: AccessKeys.W, k: Key, roll: AccessKeys.Roll)
    requires Wanted(w, k) && Provided(w, k, w.objects[k].spec) && AccessKeyConvergence.Lucky(roll)
    requires w.objects[k].finalizer && w.objects[k].status.None? && AccessKeyLife.HasParent(w, k, w.objects[k].spec)
    requires AccessKeys.SecretOf(w.objects[k].spec, k.namespace) !in w.secrets
    requires RemoteId(AccessKeys.TenantOf(w.objects[k].spec, k.namespace), TakenKey(w, k, w.objects[k].spec, roll)) !in
        w.minio.accounts
    ensures
      var ak, v := w.objects[k], AccessKeys.Pass(w, k, roll);
      var at := AccessKeys.SecretOf(ak.spec, k.namespace);
      var id := RemoteId(AccessKeys.TenantOf(ak.spec, k.namespace), TakenKey(w, k, ak.spec, roll));
      && v.Valid() && w.clock <= v.clock
      && k in v.objects && v.objects == w.objects[k := v.objects[k]]
      && v.objects[k].spec == ak.spec.(accessKey := id.name)
      && v.objects[k].finalizer && !v.objects[k].deleting
      && at in v.secrets && v.secrets == w.secrets[at := v.secrets[at]]
      && id in v.minio.accounts && v.minio == w.minio.(accounts := w.minio.accounts[id := v.minio.accounts[id]])
      && KeySettled(v, k, roll.digest)
  {
    hide Next, Ask, Update, World.Valid, Kept, Weathered, AccessKeys.Desired, AccessKeys.Pass, AccessKeys.Differ;
    hide AccessKeyConvergence.Given;
    var ak := w.objects[k];
    ProvidedDesired(w, k, ak.spec, roll);
    AccessKeyLife.CreatesOrLeaves(w, k, roll);
    GivenElsewhere(w, AccessKeys.Pass(w, k, roll), k, ak.spec);
    SameAttributes(ak.spec, TakenKey(w, k, ak.spec, roll));
  }

  lemma AccessKeySettled(w: AccessKeys.W, k: Key, roll: AccessKeys.Roll)
    requires Wanted(w, k) && Provided(w, k, w.objects[k].spec) && w.objects[k].finalizer
    requires KeySettled(w, k, roll.digest)
    ensures AccessKeys.Pass(w, k, roll) == w
  {
    hide World.Valid, AccessKeyConvergence.Given, AccessKeys.Pass, AccessKeys.Differ;
    var spec := w.objects[k].spec;
    var at := AccessKeys.SecretOf(spec, k.namespace);
    var c := AccessKeyConvergence.Course(
      spec, spec.accessKey, AccessKeys.TenantOf(spec, k.namespace), at, true, None, roll.digest);
    AccessKeyConvergence.CalmStill();
    assert AccessKeyConvergence.Arrived(w, k, c);
    AccessKeyConvergence.Settles(w, k, roll, c);
  }
}
