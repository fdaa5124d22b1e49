/**
 All kinds together: whatever the order of their passes, declared users, groups, policies, bindings
 and access keys are all in place after three rounds.
 */
module JointConvergence {
  import opened Prelude
  import opened Minio
  import opened Kube
  import opened JointSteps
  import opened Calmness
  import opened PolicyHash
  import Users
  import Groups
  import Policies
  import GroupBindings
  import PolicyBindings
  import AccessKeys
  import AccessKeyLife
  import AccessKeyConvergence

  /** The resources of all kinds, over one store of secrets and one MinIO server. */
  datatype Cluster = Cluster(
    users: map<Key, Users.Resource>,
    groups: map<Key, Groups.Resource>,
    policies: map<Key, Policies.Resource>,
    members: map<Key, GroupBindings.Resource>,
    attachments: map<Key, PolicyBindings.Resource>,
    keys: map<Key, AccessKeys.Resource>,
    secrets: map<Key, Secret>,
    minio: Server,
    clock: nat,
    digest: Digest)             // the digest behind getHash

  predicate Dated<S>(objects: map<Key, Object<S>>, clock: nat) {
    forall k | k in objects :: objects[k].version < clock
  }

  ghost predicate Valid(c: Cluster) {
    && 0 < c.clock && c.minio.Valid() && (forall k | k in c.secrets :: 0 < c.secrets[k].version < c.clock)
    && Dated(c.users, c.clock) && Dated(c.groups, c.clock) && Dated(c.policies, c.clock)
    && Dated(c.members, c.clock) && Dated(c.attachments, c.clock) && Dated(c.keys, c.clock)
  }

  /** The world of one kind, without faults. */
  function WorldOf<S>(c: Cluster, objects: map<Key, Object<S>>): (w: World<S>)
    ensures Valid(c) && Dated(objects, c.clock) ==> w.Valid()
  {
    World(objects, c.secrets, c.minio, c.clock, {}, Calm)
  }

  /** A place a resource may take up, or need to be taken. */
  datatype Spot =
    | UserSpot(user: RemoteId)
    | GroupSpot(group: RemoteId)
    | PolicySpot(policy: RemoteId)
    | MemberSpot(member: Membership)
    | AttachSpot(attachment: Attachment)
    | AccountSpot(account: RemoteId)
    | SecretSpot(secret: Key)

  predicate There(c: Cluster, s: Spot) {
    match s
    case UserSpot(id) => id in c.minio.users
    case GroupSpot(id) => id in c.minio.groups
    case PolicySpot(id) => id in c.minio.policies
    case MemberSpot(m) => m in c.minio.members
    case AttachSpot(a) => a in c.minio.attachments
    case AccountSpot(id) => id in c.minio.accounts
    case SecretSpot(k) => k in c.secrets
  }

  predicate AllThere(c: Cluster, spots: set<Spot>) {
    forall s | s in spots :: There(c, s)
  }

  /** How far a resource has come: fresh, guarded, served. */
  function StageOf<S>(o: Object<S>): (n: nat)
    ensures n <= 2
  {
    if !o.finalizer then 0 else if o.status.None? then 1 else 2
  }

  /** A declared resource. */
  datatype Item =
    | UserItem(key: Key)
    | GroupItem(key: Key)
    | PolicyItem(key: Key)
    | MemberItem(key: Key)
    | AttachItem(key: Key)
    | KeyItem(key: Key, draws: set<string>)     // with the access keys that may be made up for it

  /** A cluster in which a step may have put its resource, and the spots it claims, where they belong. */
  ghost predicate Frame(c: Cluster, d: Cluster, x: Item, claims: set<Spot>) {
    && c.clock <= d.clock && d.minio.idp == c.minio.idp && d.digest == c.digest
    && (forall k | k in c.users && x != UserItem(k) :: k in d.users && d.users[k] == c.users[k])
    && (forall k | k in c.groups && x != GroupItem(k) :: k in d.groups && d.groups[k] == c.groups[k])
    && (forall k | k in c.policies && x != PolicyItem(k) :: k in d.policies && d.policies[k] == c.policies[k])
    && (forall k | k in c.members && x != MemberItem(k) :: k in d.members && d.members[k] == c.members[k])
    && (forall k | k in c.attachments && x != AttachItem(k) ::
          k in d.attachments && d.attachments[k] == c.attachments[k])
    && (forall k | k in c.keys && !(x.KeyItem? && x.key == k) :: k in d.keys && d.keys[k] == c.keys[k])
    && (forall s | There(c, s) :: There(d, s))
    && (forall s | There(d, s) :: There(c, s) || s in claims)
    && Submap(c.minio.policies, d.minio.policies) && Submap(c.minio.accounts, d.minio.accounts)
    && Submap(c.secrets, d.secrets)
  }

  /** The user of the resource, its access key given outright or by reference. */
  function UserTarget(c: Cluster, k: Key): RemoteId
    requires k in c.users
  {
    var key := UserKey(c.secrets, c.users[k].spec, k.namespace);
    Users.Target(c.minio.idp, c.users[k].spec.(accessKey := if key.Some? then key.value else ""), k.namespace)
  }

  function UserClaims(c: Cluster, k: Key): set<Spot>
    requires k in c.users
  {
    {UserSpot(UserTarget(c, k))}
  }

  /** The resource is wanted, its supplies are in order, and it is where its stage says. */
  predicate UserSound(c: Cluster, k: Key) {
    && k in c.users
    && var o, at := c.users[k], UserTarget(c, k);
    && !o.deleting && !o.spec.migrate && UserKey(c.secrets, o.spec, k.namespace).Some?
    && o.spec.secretKeyRef.Target(k.namespace) in c.secrets
    && if StageOf(o) < 2 then o.status.None? && at !in c.minio.users
       else
         && o.status == Some(o.spec) && o.spec.accessKey != "" && at in c.minio.users
         && o.stamp == c.secrets[o.spec.secretKeyRef.Target(k.namespace)].version
  }

  function UserNext(c: Cluster, k: Key): Cluster {
    var v := Users.Pass(WorldOf(c, c.users), k);
    c.(users := v.objects, secrets := v.secrets, minio := v.minio, clock := v.clock)
  }

  lemma StaysValid<S>(c: Cluster, v: World<S>, d: Cluster)
    requires Valid(c) && v.Valid() && c.clock <= v.clock && d.clock == v.clock && d.minio == v.minio
    requires d.secrets == v.secrets
    requires d.users == c.users || Dated(d.users, d.clock)
    requires d.groups == c.groups || Dated(d.groups, d.clock)
    requires d.policies == c.policies || Dated(d.policies, d.clock)
    requires d.members == c.members || Dated(d.members, d.clock)
    requires d.attachments == c.attachments || Dated(d.attachments, d.clock)
    requires d.keys == c.keys || Dated(d.keys, d.clock)
    ensures Valid(d)
  {
    hide Server.Valid;
  }

  lemma SameUserKey(secrets: map<Key, Secret>, spec: Users.UserSpec, ns: string)
    requires UserKey(secrets, spec, ns).Some?
    ensures
      var key := UserKey(secrets, spec, ns);
      key.value != "" && UserKey(secrets, spec.(accessKey := key.value), ns) == key
      && (spec.accessKey != "" ==> spec.(accessKey := key.value) == spec)
  {
  }

  lemma UserMoves(c: Cluster, k: Key)
    requires Valid(c) && UserSound(c, k)
    ensures
      var d, o, at := UserNext(c, k), c.users[k], UserTarget(c, k);
      && Valid(d) && UserSound(d, k) && UserTarget(d, k) == at && c.clock <= d.clock
      && d == c.(users := c.users[k := d.users[k]], minio := c.minio.(users := d.minio.users), clock := d.clock)
      && (|| d.minio.users == c.minio.users
          || (at !in c.minio.users && at in d.minio.users
              && d.minio.users == c.minio.users[at := d.minio.users[at]]))
      && (StageOf(o) == 0 ==> StageOf(d.users[k]) == 1)
      && (StageOf(o) == 1 ==> StageOf(d.users[k]) == 2)
      && (StageOf(o) == 2 ==> d == c)
  {
    hide Users.Pass, World.Valid;
    var w := WorldOf(c, c.users);
    UserSteps(w, k);
    var v := Users.Pass(w, k);
    SameUserKey(c.secrets, c.users[k].spec, k.namespace);
    if v != w { StaysValid(c, v, UserNext(c, k)); }
  }

  lemma UserFrame(c: Cluster, d: Cluster, k: Key)
    requires k in c.users && k in d.users && c.clock <= d.clock
    requires d == c.(users := c.users[k := d.users[k]], minio := c.minio.(users := d.minio.users), clock := d.clock)
    requires
      var at := UserTarget(c, k);
      (|| d.minio.users == c.minio.users
          || (at !in c.minio.users && at in d.minio.users
              && d.minio.users == c.minio.users[at := d.minio.users[at]]))
    ensures Frame(c, d, UserItem(k), UserClaims(c, k))
  {
  }

  function GroupClaims(c: Cluster, k: Key): set<Spot>
    requires k in c.groups
  {
    {GroupSpot(Groups.Target(c.minio.idp, c.groups[k].spec, k.namespace))}
  }

  /** The resource is wanted, its supplies are in order, and it is where its stage says. */
  predicate GroupSound(c: Cluster, k: Key) {
    && k in c.groups
    && var o, at := c.groups[k], Groups.Target(c.minio.idp, c.groups[k].spec, k.namespace);
    && !o.deleting && !o.spec.migrate
    && if StageOf(o) < 2 then o.status.None? && at !in c.minio.groups
       else o.status == Some(o.spec) && at in c.minio.groups
  }

  function GroupNext(c: Cluster, k: Key): Cluster {
    var v := Groups.Pass(WorldOf(c, c.groups), k);
    c.(groups := v.objects, secrets := v.secrets, minio := v.minio, clock := v.clock)
  }

  lemma GroupMoves(c: Cluster, k: Key)
    requires Valid(c) && GroupSound(c, k)
    ensures
      var d, o, at := GroupNext(c, k), c.groups[k], Groups.Target(c.minio.idp, c.groups[k].spec, k.namespace);
      && Valid(d) && GroupSound(d, k) && d.groups[k].spec == o.spec && c.clock <= d.clock
      && d == c.(groups := c.groups[k := d.groups[k]], minio := c.minio.(groups := d.minio.groups), clock := d.clock)
      && (d.minio.groups == c.minio.groups || d.minio.groups == c.minio.groups + {at})
      && (StageOf(o) == 0 ==> StageOf(d.groups[k]) == 1)
      && (StageOf(o) == 1 ==> StageOf(d.groups[k]) == 2)
      && (StageOf(o) == 2 ==> d == c)
  {
    hide Groups.Pass, World.Valid;
    var w := WorldOf(c, c.groups);
    GroupSteps(w, k);
    var v := Groups.Pass(w, k);
    if v != w { StaysValid(c, v, GroupNext(c, k)); }
  }

  lemma GroupFrame(c: Cluster, d: Cluster, k: Key)
    requires k in c.groups && k in d.groups && c.clock <= d.clock
    requires d ==
        c.(groups := c.groups[k := d.groups[k]], minio := c.minio.(groups := d.minio.groups), clock := d.clock)
    requires
      var at := Groups.Target(c.minio.idp, c.groups[k].spec, k.namespace);
      (d.minio.groups == c.minio.groups || d.minio.groups == c.minio.groups + {at})
    ensures Frame(c, d, GroupItem(k), GroupClaims(c, k))
  {
  }

  function PolicyClaims(c: Cluster, k: Key): set<Spot>
    requires k in c.policies
  {
    {PolicySpot(Policies.Target(c.minio.idp, c.policies[k].spec, k.namespace))}
  }

  /** The resource is wanted, its supplies are in order, and it is where its stage says. */
  predicate PolicySound(c: Cluster, k: Key) {
    && k in c.policies
    && var o, at := c.policies[k], Policies.Target(c.minio.idp, c.policies[k].spec, k.namespace);
    && !o.deleting && !o.spec.migrate
    && if StageOf(o) < 2 then o.status.None? && at !in c.minio.policies
       else o.status == Some(o.spec) && at in c.minio.policies && c.minio.policies[at] == o.spec.Document()
  }

  function PolicyNext(c: Cluster, k: Key): Cluster {
    var v := Policies.Pass(c.digest, WorldOf(c, c.policies), k);
    c.(policies := v.objects, secrets := v.secrets, minio := v.minio, clock := v.clock)
  }

  lemma PolicyMoves(c: Cluster, k: Key)
    requires Valid(c) && PolicySound(c, k)
    ensures
      var d, o, at := PolicyNext(c, k), c.policies[k], Policies.Target(c.minio.idp, c.policies[k].spec, k.namespace);
      && Valid(d) && PolicySound(d, k) && d.policies[k].spec == o.spec && c.clock <= d.clock
      && d == c.(policies := c.policies[k := d.policies[k]], minio := c.minio.(policies := d.minio.policies),
          clock := d.clock)
      && (|| d.minio.policies == c.minio.policies
          || (at !in c.minio.policies && at in d.minio.policies
              && d.minio.policies == c.minio.policies[at := d.minio.policies[at]]))
      && (StageOf(o) == 0 ==> StageOf(d.policies[k]) == 1)
      && (StageOf(o) == 1 ==> StageOf(d.policies[k]) == 2)
      && (StageOf(o) == 2 ==> d == c)
  {
    hide Policies.Pass, World.Valid;
    var w := WorldOf(c, c.policies);
    PolicySteps(c.digest, w, k);
    var v := Policies.Pass(c.digest, w, k);
    if v != w { StaysValid(c, v, PolicyNext(c, k)); }
  }

  lemma PolicyFrame(c: Cluster, d: Cluster, k: Key)
    requires k in c.policies && k in d.policies && c.clock <= d.clock
    requires d == c.(policies := c.policies[k := d.policies[k]],
        minio := c.minio.(policies := d.minio.policies), clock := d.clock)
    requires
      var at := Policies.Target(c.minio.idp, c.policies[k].spec, k.namespace);
      (|| d.minio.policies == c.minio.policies
          || (at !in c.minio.policies && at in d.minio.policies
              && d.minio.policies == c.minio.policies[at := d.minio.policies[at]]))
    ensures Frame(c, d, PolicyItem(k), PolicyClaims(c, k))
  {
  }

  function MemberClaims(c: Cluster, k: Key): set<Spot>
    requires k in c.members
  {
    {MemberSpot(GroupBindings.Target(c.minio.idp, c.members[k].spec, k.namespace))}
  }

  function MemberNeeds(c: Cluster, k: Key): set<Spot>
    requires k in c.members
  {
    var at := GroupBindings.Target(c.minio.idp, c.members[k].spec, k.namespace);
    {GroupSpot(at.group), UserSpot(RemoteId(at.group.tenant, at.user))}
  }

  /** The resource is wanted, its supplies are in order, and it is where its stage says. */
  predicate MemberSound(c: Cluster, k: Key) {
    && k in c.members
    && var o, at := c.members[k], GroupBindings.Target(c.minio.idp, c.members[k].spec, k.namespace);
    && !o.deleting && !o.spec.migrate
    && if StageOf(o) < 2 then o.status.None? && at !in c.minio.members
       else o.status == Some(o.spec) && at in c.minio.members && AllThere(c, MemberNeeds(c, k))
  }

  function MemberNext(c: Cluster, k: Key): Cluster {
    var v := GroupBindings.Pass(WorldOf(c, c.members), k);
    c.(members := v.objects, secrets := v.secrets, minio := v.minio, clock := v.clock)
  }

  lemma MemberNeedsMean(c: Cluster, k: Key)
    requires k in c.members
    ensures
      var m := GroupBindings.Target(c.minio.idp, c.members[k].spec, k.namespace);
      AllThere(c, MemberNeeds(c, k)) <==> m.group in c.minio.groups && RemoteId(m.group.tenant, m.user) in c.minio.users
  {
    var m := GroupBindings.Target(c.minio.idp, c.members[k].spec, k.namespace);
    assert GroupSpot(m.group) in MemberNeeds(c, k) && UserSpot(RemoteId(m.group.tenant, m.user)) in MemberNeeds(c, k);
  }

  /** The step has moved the resource by its stage and changed nothing but the resource and its place. */
  ghost predicate MemberMoved(c: Cluster, d: Cluster, k: Key)
    requires k in c.members
  {
    var o, at := c.members[k], GroupBindings.Target(c.minio.idp, c.members[k].spec, k.namespace);
    && Valid(d) && MemberSound(d, k) && d.members[k].spec == o.spec && c.clock <= d.clock
    && d == c.(members := c.members[k := d.members[k]], minio := c.minio.(members := d.minio.members), clock := d.clock)
    && (d.minio.members == c.minio.members || d.minio.members == c.minio.members + {at})
    && (StageOf(o) == 0 ==> StageOf(d.members[k]) == 1)
    && (StageOf(o) == 1 ==> if AllThere(c, MemberNeeds(c, k)) then StageOf(d.members[k]) == 2 else d == c)
    && (StageOf(o) == 2 ==> d == c)
  }

  function MemberGuarded(c: Cluster, k: Key): Cluster
    requires k in c.members
  {
    c.(members := c.members[k := c.members[k].(finalizer := true, version := c.clock)], clock := c.clock + 1)
  }

  function MemberServed(c: Cluster, k: Key): Cluster
    requires k in c.members
  {
    var o, at := c.members[k], GroupBindings.Target(c.minio.idp, c.members[k].spec, k.namespace);
    c.(members := c.members[k := o.(status := Some(o.spec), version := c.clock)],
       minio := c.minio.(members := c.minio.members + {at}),
       clock := c.clock + 1)
  }

  lemma MemberShape(c: Cluster, k: Key)
    requires Valid(c) && MemberSound(c, k)
    ensures
      var d, o, at := MemberNext(c, k), c.members[k], GroupBindings.Target(c.minio.idp, c.members[k].spec, k.namespace);
      && Valid(d)
      && d == (if StageOf(o) == 0 then MemberGuarded(c, k)
               else if StageOf(o) == 1 && at.group in c.minio.groups
                   && RemoteId(at.group.tenant, at.user) in c.minio.users then MemberServed(c, k)
               else c)
  {
    hide GroupBindings.Pass, World.Valid, AllThere, MemberNeeds, GroupBindings.Target;
    var w := WorldOf(c, c.members);
    GroupBindingSteps(w, k);
    MemberNeedsMean(c, k);
    var v := GroupBindings.Pass(w, k);
    if v != w { StaysValid(c, v, MemberNext(c, k)); }
  }

  lemma MemberServedMoves(c: Cluster, k: Key)
    requires MemberSound(c, k) && Valid(MemberServed(c, k)) && StageOf(c.members[k]) == 1
    requires AllThere(c, MemberNeeds(c, k))
    ensures MemberMoved(c, MemberServed(c, k), k)
  {
    hide Valid, AllThere, MemberNeeds;
    MemberNeedsMean(c, k);
    MemberNeedsMean(MemberServed(c, k), k);
  }

  lemma MemberGuardedMoves(c: Cluster, k: Key)
    requires MemberSound(c, k) && Valid(MemberGuarded(c, k)) && StageOf(c.members[k]) == 0
    ensures MemberMoved(c, MemberGuarded(c, k), k)
  {
    hide Valid, AllThere, MemberNeeds;
  }

  lemma MemberStands(c: Cluster, k: Key)
    requires Valid(c) && MemberSound(c, k) && StageOf(c.members[k]) != 0
    requires (StageOf(c.members[k]) == 1 ==> !AllThere(c, MemberNeeds(c, k)))
    ensures MemberMoved(c, c, k)
  {
    hide Valid, AllThere, MemberNeeds;
    assert c.members == c.members[k := c.members[k]];
  }

  lemma MemberKnown(c: Cluster, k: Key)
    requires MemberSound(c, k)
    ensures k in c.members
  {
  }

  lemma MemberMoves(c: Cluster, k: Key)
    requires Valid(c) && MemberSound(c, k)
    ensures MemberMoved(c, MemberNext(c, k), k)
  {
    hide MemberNext, MemberGuarded, MemberServed, MemberMoved, MemberSound, Valid, AllThere, MemberNeeds;
    MemberShape(c, k);
    assert k in c.members by { MemberKnown(c, k); }
    MemberNeedsMean(c, k);
    if StageOf(c.members[k]) == 0 {
      MemberGuardedMoves(c, k);
    } else if StageOf(c.members[k]) == 1 && AllThere(c, MemberNeeds(c, k)) {
      MemberServedMoves(c, k);
    } else {
      MemberStands(c, k);
    }
  }

  lemma MemberFrame(c: Cluster, d: Cluster, k: Key)
    requires k in c.members && k in d.members && c.clock <= d.clock
    requires d ==
        c.(members := c.members[k := d.members[k]], minio := c.minio.(members := d.minio.members), clock := d.clock)
    requires
      var at := GroupBindings.Target(c.minio.idp, c.members[k].spec, k.namespace);
      (d.minio.members == c.minio.members || d.minio.members == c.minio.members + {at})
    ensures Frame(c, d, MemberItem(k), MemberClaims(c, k))
  {
  }

  function AttachClaims(c: Cluster, k: Key): set<Spot>
    requires k in c.attachments
  {
    {AttachSpot(PolicyBindings.Target(c.minio.idp, c.attachments[k].spec, k.namespace))}
  }

  function AttachNeeds(c: Cluster, k: Key): set<Spot>
    requires k in c.attachments
  {
    var o, at := c.attachments[k], PolicyBindings.Target(c.minio.idp, c.attachments[k].spec, k.namespace);
    {PolicySpot(at.policy)} +
      (match o.spec.Entity()
       case Some(User(n)) => {UserSpot(RemoteId(at.policy.tenant, n))}
       case Some(Group(n)) => {GroupSpot(RemoteId(at.policy.tenant, n))}
       case _ => {})
  }

  /** The resource is wanted, its supplies are in order, and it is where its stage says. */
  predicate AttachSound(c: Cluster, k: Key) {
    && k in c.attachments
    && var o, at := c.attachments[k], PolicyBindings.Target(c.minio.idp, c.attachments[k].spec, k.namespace);
    && !o.deleting && !o.spec.migrate && o.spec.Entity().Some?
    && if StageOf(o) < 2 then o.status.None? && at !in c.minio.attachments
       else o.status == Some(o.spec) && at in c.minio.attachments && AllThere(c, AttachNeeds(c, k))
  }

  function AttachNext(c: Cluster, k: Key): Cluster {
    var v := PolicyBindings.Pass(WorldOf(c, c.attachments), k);
    c.(attachments := v.objects, secrets := v.secrets, minio := v.minio, clock := v.clock)
  }

  lemma AttachNeedsMean(c: Cluster, k: Key)
    requires k in c.attachments && c.attachments[k].spec.Entity().Some?
    ensures
      var id := PolicyBindings.PolicyId(c.attachments[k].spec, k.namespace);
      AllThere(c, AttachNeeds(c, k)) <==>
          id in c.minio.policies && c.minio.Known(id.tenant, c.attachments[k].spec.Entity().value)
  {
    hide StoredName;
    var id := PolicyBindings.PolicyId(c.attachments[k].spec, k.namespace);
    assert PolicySpot(id) in AttachNeeds(c, k);
    match c.attachments[k].spec.Entity().value
    case User(n) => assert UserSpot(RemoteId(id.tenant, n)) in AttachNeeds(c, k);
    case Group(n) => assert GroupSpot(RemoteId(id.tenant, n)) in AttachNeeds(c, k);
    case _ =>
  }

  /** The step has moved the resource by its stage and changed nothing but the resource and its place. */
  ghost predicate AttachMoved(c: Cluster, d: Cluster, k: Key)
    requires k in c.attachments
  {
    var o, at := c.attachments[k], PolicyBindings.Target(c.minio.idp, c.attachments[k].spec, k.namespace);
    && Valid(d) && AttachSound(d, k) && d.attachments[k].spec == o.spec && c.clock <= d.clock
    && d == c.(attachments := c.attachments[k := d.attachments[k]],
        minio := c.minio.(attachments := d.minio.attachments), clock := d.clock)
    && (d.minio.attachments == c.minio.attachments || d.minio.attachments == c.minio.attachments + {at})
    && (StageOf(o) == 0 ==> StageOf(d.attachments[k]) == 1)
    && (StageOf(o) == 1 ==> if AllThere(c, AttachNeeds(c, k)) then StageOf(d.attachments[k]) == 2 else d == c)
    && (StageOf(o) == 2 ==> d == c)
  }

  function AttachGuarded(c: Cluster, k: Key): Cluster
    requires k in c.attachments
  {
    c.(attachments := c.attachments[k := c.attachments[k].(finalizer := true, version := c.clock)], clock :=
        c.clock + 1)
  }

  function AttachServed(c: Cluster, k: Key): Cluster
    requires k in c.attachments
  {
    var o, at := c.attachments[k], PolicyBindings.Target(c.minio.idp, c.attachments[k].spec, k.namespace);
    c.(attachments := c.attachments[k := o.(status := Some(o.spec), version := c.clock)],
       minio := c.minio.(attachments := c.minio.attachments + {at}),
       clock := c.clock + 1)
  }

  lemma AttachShape(c: Cluster, k: Key)
    requires Valid(c) && AttachSound(c, k)
    ensures
      var d, o, at := AttachNext(c, k), c.attachments[k],
          PolicyBindings.Target(c.minio.idp, c.attachments[k].spec, k.namespace);
      && Valid(d)
      && d == (if StageOf(o) == 0 then AttachGuarded(c, k)
               else if StageOf(o) == 1 && at.policy in c.minio.policies
                   && c.minio.Known(at.policy.tenant, o.spec.Entity().value) then AttachServed(c, k)
               else c)
  {
    hide PolicyBindings.Pass, World.Valid, AllThere, AttachNeeds, PolicyBindings.PolicyBindingSpec.Entity, StoredName;
    hide PolicyBindings.Target;
    var w := WorldOf(c, c.attachments);
    PolicyBindingSteps(w, k);
    AttachNeedsMean(c, k);
    var v := PolicyBindings.Pass(w, k);
    if v != w { StaysValid(c, v, AttachNext(c, k)); }
  }

  lemma AttachServedMoves(c: Cluster, k: Key)
    requires AttachSound(c, k) && Valid(AttachServed(c, k)) && StageOf(c.attachments[k]) == 1
    requires AllThere(c, AttachNeeds(c, k))
    ensures AttachMoved(c, AttachServed(c, k), k)
  {
    hide Valid, AllThere, AttachNeeds, PolicyBindings.PolicyBindingSpec.Entity, StoredName;
    AttachNeedsMean(c, k);
    AttachNeedsMean(AttachServed(c, k), k);
  }

  lemma AttachGuardedMoves(c: Cluster, k: Key)
    requires AttachSound(c, k) && Valid(AttachGuarded(c, k)) && StageOf(c.attachments[k]) == 0
    ensures AttachMoved(c, AttachGuarded(c, k), k)
  {
    hide Valid, AllThere, AttachNeeds, PolicyBindings.PolicyBindingSpec.Entity, StoredName;
  }

  lemma AttachStands(c: Cluster, k: Key)
    requires Valid(c) && AttachSound(c, k) && StageOf(c.attachments[k]) != 0
    requires (StageOf(c.attachments[k]) == 1 ==> !AllThere(c, AttachNeeds(c, k)))
    ensures AttachMoved(c, c, k)
  {
    hide Valid, AllThere, AttachNeeds, PolicyBindings.PolicyBindingSpec.Entity, StoredName;
    assert c.attachments == c.attachments[k := c.attachments[k]];
  }

  lemma AttachKnown(c: Cluster, k: Key)
    requires AttachSound(c, k)
    ensures k in c.attachments && c.attachments[k].spec.Entity().Some?
  {
  }

  lemma AttachMoves(c: Cluster, k: Key)
    requires Valid(c) && AttachSound(c, k)
    ensures AttachMoved(c, AttachNext(c, k), k)
  {
    hide AttachNext, AttachGuarded, AttachServed, AttachMoved, AttachSound, Valid, AllThere, AttachNeeds;
    AttachShape(c, k);
    assert k in c.attachments && c.attachments[k].spec.Entity().Some? by { AttachKnown(c, k); }
    AttachNeedsMean(c, k);
    if StageOf(c.attachments[k]) == 0 {
      AttachGuardedMoves(c, k);
    } else if StageOf(c.attachments[k]) == 1 && AllThere(c, AttachNeeds(c, k)) {
      AttachServedMoves(c, k);
    } else {
      AttachStands(c, k);
    }
  }

  lemma AttachFrame(c: Cluster, d: Cluster, k: Key)
    requires k in c.attachments && k in d.attachments && c.clock <= d.clock
    requires d == c.(attachments := c.attachments[k := d.attachments[k]],
        minio := c.minio.(attachments := d.minio.attachments), clock := d.clock)
    requires
      var at := PolicyBindings.Target(c.minio.idp, c.attachments[k].spec, k.namespace);
      (d.minio.attachments == c.minio.attachments || d.minio.attachments == c.minio.attachments + {at})
    ensures Frame(c, d, AttachItem(k), AttachClaims(c, k))
  {
  }

  /** The access keys the resource may take: the one given outright or by reference, or else one made up. */
  function KeyNames(c: Cluster, k: Key, draws: set<string>): set<string>
    requires k in c.keys
  {
    var given := GivenKey(WorldOf(c, c.keys), k, c.keys[k].spec);
    if given != "" then {given} else draws
  }

  function AccountFor(c: Cluster, k: Key, name: string): RemoteId
    requires k in c.keys
  {
    RemoteId(AccessKeys.TenantOf(c.keys[k].spec, k.namespace), name)
  }

  function SecretFor(c: Cluster, k: Key): Key
    requires k in c.keys
  {
    AccessKeys.SecretOf(c.keys[k].spec, k.namespace)
  }

  function KeyClaims(c: Cluster, k: Key, draws: set<string>): set<Spot>
    requires k in c.keys
  {
    (set s | s in KeyNames(c, k, draws) :: AccountSpot(AccountFor(c, k, s))) + {SecretSpot(SecretFor(c, k))}
  }

  function KeyNeeds(c: Cluster, k: Key): set<Spot>
    requires k in c.keys
  {
    var spec := c.keys[k].spec;
    if spec.user.ldap != "" then {} else {UserSpot(RemoteId(AccessKeys.TenantOf(spec, k.namespace), spec.user.builtin))}
  }

  predicate KeySound(c: Cluster, k: Key, draws: set<string>) {
    && k in c.keys
    && var o := c.keys[k];
    && !o.deleting && Provided(WorldOf(c, c.keys), k, o.spec)
    && if StageOf(o) < 2 then
         && o.status.None? && SecretFor(c, k) !in c.secrets
         && forall s | s in KeyNames(c, k, draws) :: AccountFor(c, k, s) !in c.minio.accounts
       else KeySettled(WorldOf(c, c.keys), k, c.digest)
  }

  function KeyNext(c: Cluster, k: Key, roll: AccessKeys.Roll): Cluster {
    var v := AccessKeys.Pass(WorldOf(c, c.keys), k, roll);
    c.(keys := v.objects, secrets := v.secrets, minio := v.minio, clock := v.clock)
  }

  /**
   What the machine brings to a turn: randomness that works, a made-up access key among those foreseen, and the
   digest.
   */
  ghost predicate Suited(c: Cluster, draws: set<string>, roll: AccessKeys.Roll) {
    AccessKeyConvergence.Lucky(roll) && roll.AccessKey().value in draws && roll.digest == c.digest
  }

  lemma KeyNeedsMean(c: Cluster, k: Key)
    requires k in c.keys
    ensures AllThere(c, KeyNeeds(c, k)) <==> AccessKeyLife.HasParent(WorldOf(c, c.keys), k, c.keys[k].spec)
  {
    var spec := c.keys[k].spec;
    if spec.user.ldap == "" {
      assert UserSpot(RemoteId(AccessKeys.TenantOf(spec, k.namespace), spec.user.builtin)) in KeyNeeds(c, k);
    }
  }

  /** The step has moved the resource by its stage and changed nothing but the resource, its account and its secret. */
  ghost predicate KeyMoved(c: Cluster, d: Cluster, k: Key, draws: set<string>)
    requires k in c.keys
  {
    var o, at := c.keys[k], SecretFor(c, k);
    && Valid(d) && KeySound(d, k, draws) && c.clock <= d.clock
    && KeyClaims(d, k, draws) <= KeyClaims(c, k, draws) && KeyNeeds(d, k) == KeyNeeds(c, k) && SecretFor(d, k) == at
    && d == c.(keys := c.keys[k := d.keys[k]], secrets := d.secrets,
        minio := c.minio.(accounts := d.minio.accounts), clock := d.clock)
    && (|| (d.minio.accounts == c.minio.accounts && d.secrets == c.secrets)
        || (&& var id := AccountFor(c, k, d.keys[k].spec.accessKey);
            && AccountSpot(id) in KeyClaims(c, k, draws) && id !in c.minio.accounts && id in d.minio.accounts
            && d.minio.accounts == c.minio.accounts[id := d.minio.accounts[id]]
            && at !in c.secrets && at in d.secrets && d.secrets == c.secrets[at := d.secrets[at]]))
    && (StageOf(o) == 0 ==> StageOf(d.keys[k]) == 1)
    && (StageOf(o) == 1 ==> if AllThere(c, KeyNeeds(c, k)) then StageOf(d.keys[k]) == 2 else d == c.(clock := d.clock))
    && (StageOf(o) == 2 ==> d == c)
  }

  /** The same spec over the same secrets claims the same. */
  lemma SameSpecSameClaims(c: Cluster, d: Cluster, k: Key, draws: set<string>)
    requires k in c.keys && k in d.keys && d.keys[k].spec == c.keys[k].spec && d.secrets == c.secrets
    ensures KeyClaims(d, k, draws) == KeyClaims(c, k, draws) && KeyNeeds(d, k) == KeyNeeds(c, k)
    ensures KeyNames(d, k, draws) == KeyNames(c, k, draws) && SecretFor(d, k) == SecretFor(c, k)
    ensures Provided(WorldOf(c, c.keys), k, c.keys[k].spec) ==> Provided(WorldOf(d, d.keys), k, c.keys[k].spec)
  {
    assert forall s :: AccountFor(d, k, s) == AccountFor(c, k, s);
  }

  lemma KeyGuardedMoves(c: Cluster, k: Key, draws: set<string>, roll: AccessKeys.Roll)
    requires Valid(c) && KeySound(c, k, draws) && Suited(c, draws, roll) && StageOf(c.keys[k]) == 0
    ensures KeyMoved(c, KeyNext(c, k, roll), k, draws)
  {
    hide AccessKeys.Pass, World.Valid, AllThere, KeyNeeds, AccessKeyLife.HasParent, AccessKeyConvergence.Given;
    hide KeyNames, KeyClaims, GivenKey, Provided;
    var w, d := WorldOf(c, c.keys), KeyNext(c, k, roll);
    AccessKeySteps(w, k, roll);
    StaysValid(c, AccessKeys.Pass(w, k, roll), d);
    SameSpecSameClaims(c, d, k, draws);
  }

  lemma TakenNamed(c: Cluster, k: Key, draws: set<string>, roll: AccessKeys.Roll)
    requires k in c.keys && Suited(c, draws, roll)
    ensures
      var name := TakenKey(WorldOf(c, c.keys), k, c.keys[k].spec, roll);
      name in KeyNames(c, k, draws) && name != "" && AccountSpot(AccountFor(c, k, name)) in KeyClaims(c, k, draws)
  {
    hide GivenKey;
  }

  lemma ValidDated<S>(w: World<S>)
    requires w.Valid()
    ensures Dated(w.objects, w.clock)
  {
  }

  lemma KeyCreatedSound(c: Cluster, d: Cluster, k: Key, draws: set<string>, v: AccessKeys.W, name: string)
    requires KeySound(c, k, draws) && name in KeyNames(c, k, draws) && name != ""
    requires k in v.objects && v.objects[k].spec == c.keys[k].spec.(accessKey := name) && !v.objects[k].deleting
    requires v.objects[k].finalizer
    requires KeySettled(v, k, c.digest)
    requires d == c.(keys := v.objects, secrets := v.secrets, minio := v.minio, clock := v.clock)
    requires SecretFor(c, k) in v.secrets && v.secrets == c.secrets[SecretFor(c, k) := v.secrets[SecretFor(c, k)]]
    ensures KeySound(d, k, draws) && KeyClaims(d, k, draws) <= KeyClaims(c, k, draws) &&
        KeyNeeds(d, k) == KeyNeeds(c, k)
    ensures SecretFor(d, k) == SecretFor(c, k)
  {
    hide AccessKeys.Differ;
    GivenElsewhere(WorldOf(c, c.keys), WorldOf(d, d.keys), k, c.keys[k].spec);
    assert KeyNames(d, k, draws) == {name};
    assert forall s :: AccountFor(d, k, s) == AccountFor(c, k, s);
  }

  lemma KeyServedMoves(c: Cluster, k: Key, draws: set<string>, roll: AccessKeys.Roll)
    requires Valid(c) && KeySound(c, k, draws) && Suited(c, draws, roll) && StageOf(c.keys[k]) == 1
    requires AccessKeyLife.HasParent(WorldOf(c, c.keys), k, c.keys[k].spec)
    ensures KeyMoved(c, KeyNext(c, k, roll), k, draws)
  {
    hide AccessKeys.Pass, World.Valid, AllThere, AccessKeyLife.HasParent, AccessKeyConvergence.Given, KeySettled;
    hide KeyClaims, KeyNames, Provided, GivenKey;
    var w, d := WorldOf(c, c.keys), KeyNext(c, k, roll);
    var v := AccessKeys.Pass(w, k, roll);
    var name := TakenKey(w, k, c.keys[k].spec, roll);
    KeyNeedsMean(c, k);
    TakenNamed(c, k, draws, roll);
    AccessKeyCreated(w, k, roll);
    ValidDated(v);
    StaysValid(c, v, d);
    KeyCreatedSound(c, d, k, draws, v, name);
  }

  lemma SettledGuarded(c: Cluster, k: Key)
    requires k in c.keys && StageOf(c.keys[k]) == 2
    ensures c.keys[k].finalizer
  {
  }

  lemma LaterValid(c: Cluster, d: Cluster)
    requires Valid(c) && d == c.(clock := d.clock) && c.clock <= d.clock
    ensures Valid(d)
  {
    hide Server.Valid;
  }

  /** A settled key, or one whose parent is missing. */
  lemma KeyStands(c: Cluster, k: Key, draws: set<string>, roll: AccessKeys.Roll)
    requires Valid(c) && KeySound(c, k, draws) && Suited(c, draws, roll) && StageOf(c.keys[k]) != 0
    requires StageOf(c.keys[k]) == 1 ==> !AccessKeyLife.HasParent(WorldOf(c, c.keys), k, c.keys[k].spec)
    ensures KeyMoved(c, KeyNext(c, k, roll), k, draws)
  {
    hide AccessKeys.Pass, World.Valid, AllThere, KeyNeeds, AccessKeyLife.HasParent, AccessKeyConvergence.Given;
    hide KeyNames, KeyClaims, GivenKey, Provided, KeySettled;
    var w, d := WorldOf(c, c.keys), KeyNext(c, k, roll);
    KeyNeedsMean(c, k);
    assert c.keys == c.keys[k := c.keys[k]];
    if StageOf(c.keys[k]) == 2 {
      SettledGuarded(c, k);
      AccessKeySettled(w, k, roll);
    } else {
      AccessKeySteps(w, k, roll);
      LaterValid(c, d);
      SameSpecSameClaims(c, d, k, draws);
    }
  }

  lemma KeyMoves(c: Cluster, k: Key, draws: set<string>, roll: AccessKeys.Roll)
    requires Valid(c) && KeySound(c, k, draws) && Suited(c, draws, roll)
    ensures KeyMoved(c, KeyNext(c, k, roll), k, draws)
  {
    hide AccessKeys.Pass, World.Valid, AllThere, KeyNeeds, AccessKeyLife.HasParent, AccessKeyConvergence.Given, Valid;
    hide KeyMoved, Suited;
    var w := WorldOf(c, c.keys);
    KeyNeedsMean(c, k);
    if StageOf(c.keys[k]) == 0 {
      KeyGuardedMoves(c, k, draws, roll);
    } else if StageOf(c.keys[k]) == 1 && AccessKeyLife.HasParent(w, k, c.keys[k].spec) {
      KeyServedMoves(c, k, draws, roll);
    } else {
      KeyStands(c, k, draws, roll);
    }
  }

  lemma KeySpots(c: Cluster, d: Cluster, k: Key, draws: set<string>)
    requires k in c.keys && KeyMoved(c, d, k, draws)
    ensures (forall s | There(c, s) :: There(d, s))
    ensures (forall s | There(d, s) :: There(c, s) || s in KeyClaims(c, k, draws))
    ensures Submap(c.minio.accounts, d.minio.accounts) && Submap(c.secrets, d.secrets)
  {
    hide Valid, KeySound, KeyNeeds, AllThere, KeyNames;
  }

  lemma KeyFrame(c: Cluster, d: Cluster, k: Key, draws: set<string>)
    requires k in c.keys && KeyMoved(c, d, k, draws)
    ensures Frame(c, d, KeyItem(k, draws), KeyClaims(c, k, draws))
  {
    hide Valid, KeySound, KeyNeeds, AllThere, There, KeyClaims;
    KeySpots(c, d, k, draws);
  }

  predicate Has(c: Cluster, x: Item) {
    match x
    case UserItem(k) => k in c.users
    case GroupItem(k) => k in c.groups
    case PolicyItem(k) => k in c.policies
    case MemberItem(k) => k in c.members
    case AttachItem(k) => k in c.attachments
    case KeyItem(k, _) => k in c.keys
  }

  /** What the resource is to take up. */
  function Claims(c: Cluster, x: Item): set<Spot>
    requires Has(c, x)
  {
    match x
    case UserItem(k) => UserClaims(c, k)
    case GroupItem(k) => GroupClaims(c, k)
    case PolicyItem(k) => PolicyClaims(c, k)
    case MemberItem(k) => MemberClaims(c, k)
    case AttachItem(k) => AttachClaims(c, k)
    case KeyItem(k, draws) => KeyClaims(c, k, draws)
  }

  /** What must be there before the resource can be served. */
  function Needs(c: Cluster, x: Item): set<Spot>
    requires Has(c, x)
  {
    match x
    case MemberItem(k) => MemberNeeds(c, k)
    case AttachItem(k) => AttachNeeds(c, k)
    case KeyItem(k, _) => KeyNeeds(c, k)
    case _ => {}
  }

  function Stage(c: Cluster, x: Item): nat
    requires Has(c, x)
  {
    match x
    case UserItem(k) => StageOf(c.users[k])
    case GroupItem(k) => StageOf(c.groups[k])
    case PolicyItem(k) => StageOf(c.policies[k])
    case MemberItem(k) => StageOf(c.members[k])
    case AttachItem(k) => StageOf(c.attachments[k])
    case KeyItem(k, _) => StageOf(c.keys[k])
  }

  predicate Sound(c: Cluster, x: Item)
    ensures Sound(c, x) ==> Has(c, x)
  {
    match x
    case UserItem(k) => UserSound(c, k)
    case GroupItem(k) => GroupSound(c, k)
    case PolicyItem(k) => PolicySound(c, k)
    case MemberItem(k) => MemberSound(c, k)
    case AttachItem(k) => AttachSound(c, k)
    case KeyItem(k, draws) => KeySound(c, k, draws)
  }

  /** One pass without faults over the resource. */
  function Step(c: Cluster, x: Item, roll: AccessKeys.Roll): Cluster {
    match x
    case UserItem(k) => UserNext(c, k)
    case GroupItem(k) => GroupNext(c, k)
    case PolicyItem(k) => PolicyNext(c, k)
    case MemberItem(k) => MemberNext(c, k)
    case AttachItem(k) => AttachNext(c, k)
    case KeyItem(k, _) => KeyNext(c, k, roll)
  }

  /** What a resource claims may narrow to one of the accounts it might have taken. */
  predicate Narrows(before: set<Spot>, after: set<Spot>) {
    after <= before && forall s | s in before - after :: s.AccountSpot?
  }

  /** How a step moves its own resource, and that it does nothing where a dependency is missing. */
  ghost predicate Advances(c: Cluster, d: Cluster, x: Item)
    requires Has(c, x)
  {
    && Valid(d) && Sound(d, x) && Frame(c, d, x, Claims(c, x)) && Narrows(Claims(c, x), Claims(d, x))
    && Needs(d, x) == Needs(c, x)
    && Stage(c, x) <= Stage(d, x)
    && (Stage(c, x) == 0 ==> Stage(d, x) == 1)
    && (Stage(c, x) == 1 ==> if AllThere(c, Needs(c, x)) then Stage(d, x) == 2 else d == c.(clock := d.clock))
    && (Stage(c, x) == 2 ==> d == c)
  }

  lemma UserAdvances(c: Cluster, k: Key)
    requires Valid(c) && UserSound(c, k)
    ensures Advances(c, UserNext(c, k), UserItem(k))
  {
    hide Valid, Frame, UserNext, StoredName;
    UserMoves(c, k);
    UserFrame(c, UserNext(c, k), k);
  }

  lemma GroupAdvances(c: Cluster, k: Key)
    requires Valid(c) && GroupSound(c, k)
    ensures Advances(c, GroupNext(c, k), GroupItem(k))
  {
    hide Valid, Frame, GroupNext, StoredName;
    GroupMoves(c, k);
    GroupFrame(c, GroupNext(c, k), k);
  }

  lemma PolicyAdvances(c: Cluster, k: Key)
    requires Valid(c) && PolicySound(c, k)
    ensures Advances(c, PolicyNext(c, k), PolicyItem(k))
  {
    hide Valid, Frame, PolicyNext, StoredName;
    PolicyMoves(c, k);
    PolicyFrame(c, PolicyNext(c, k), k);
  }

  lemma MemberAdvances(c: Cluster, k: Key)
    requires Valid(c) && MemberSound(c, k)
    ensures Advances(c, MemberNext(c, k), MemberItem(k))
  {
    hide Valid, Frame, MemberNext, StoredName;
    MemberMoves(c, k);
    MemberFrame(c, MemberNext(c, k), k);
  }

  lemma AttachAdvances(c: Cluster, k: Key)
    requires Valid(c) && AttachSound(c, k)
    ensures Advances(c, AttachNext(c, k), AttachItem(k))
  {
    hide Valid, Frame, AttachNext, StoredName;
    AttachMoves(c, k);
    AttachFrame(c, AttachNext(c, k), k);
  }

  lemma KeyThere(c: Cluster, k: Key, draws: set<string>)
    requires KeySound(c, k, draws)
    ensures k in c.keys
  {
  }

  lemma KeyAdvances(c: Cluster, d: Cluster, k: Key, draws: set<string>)
    requires k in c.keys && KeyMoved(c, d, k, draws)
    ensures Advances(c, d, KeyItem(k, draws))
  {
    hide Valid, Frame, KeySound, AllThere, KeyNames;
    KeyFrame(c, d, k, draws);
    KeyThere(d, k, draws);
  }

  /** The turn brings what the resource may need. */
  ghost predicate Equipped(c: Cluster, x: Item, roll: AccessKeys.Roll) {
    x.KeyItem? ==> Suited(c, x.draws, roll)
  }

  lemma StepAdvances(c: Cluster, x: Item, roll: AccessKeys.Roll)
    requires Valid(c) && Sound(c, x) && Equipped(c, x, roll)
    ensures Advances(c, Step(c, x, roll), x)
  {
    hide Valid, Advances, Suited, UserSound, GroupSound, PolicySound, MemberSound, AttachSound, KeySound,
        UserNext, GroupNext;
    hide PolicyNext, MemberNext, AttachNext, KeyNext;
    match x
    case UserItem(k) => UserAdvances(c, k);
    case GroupItem(k) => GroupAdvances(c, k);
    case PolicyItem(k) => PolicyAdvances(c, k);
    case MemberItem(k) => MemberAdvances(c, k);
    case AttachItem(k) => AttachAdvances(c, k);
    case KeyItem(k, draws) =>
      KeyThere(c, k, draws);
      KeyMoves(c, k, draws, roll);
      KeyAdvances(c, KeyNext(c, k, roll), k, draws);
  }

  /** What `y` is and wants is untouched. */
  ghost predicate Kept(c: Cluster, d: Cluster, y: Item) {
    Sound(c, y) && Sound(d, y) && Stage(d, y) == Stage(c, y) && Claims(d, y) == Claims(c, y) &&
        Needs(d, y) == Needs(c, y)
  }

  lemma ThereGrows(c: Cluster, d: Cluster, x: Item, claims: set<Spot>, spots: set<Spot>)
    requires Frame(c, d, x, claims) && AllThere(c, spots)
    ensures AllThere(d, spots)
  {
  }

  lemma UserKept(c: Cluster, d: Cluster, x: Item, claims: set<Spot>, k: Key)
    requires Frame(c, d, x, claims) && x != UserItem(k) && UserSound(c, k) && claims !! UserClaims(c, k)
    ensures Kept(c, d, UserItem(k))
  {
    var s := UserSpot(UserTarget(c, k));
    assert s in UserClaims(c, k);
    assert There(d, s) <==> There(c, s);
    assert UserTarget(d, k) == UserTarget(c, k);
  }

  lemma GroupKept(c: Cluster, d: Cluster, x: Item, claims: set<Spot>, k: Key)
    requires Frame(c, d, x, claims) && x != GroupItem(k) && GroupSound(c, k) && claims !! GroupClaims(c, k)
    ensures Kept(c, d, GroupItem(k))
  {
    var s := GroupSpot(Groups.Target(c.minio.idp, c.groups[k].spec, k.namespace));
    assert s in GroupClaims(c, k);
    assert There(d, s) <==> There(c, s);
  }

  lemma PolicyKept(c: Cluster, d: Cluster, x: Item, claims: set<Spot>, k: Key)
    requires Frame(c, d, x, claims) && x != PolicyItem(k) && PolicySound(c, k) && claims !! PolicyClaims(c, k)
    ensures Kept(c, d, PolicyItem(k))
  {
    var s := PolicySpot(Policies.Target(c.minio.idp, c.policies[k].spec, k.namespace));
    assert s in PolicyClaims(c, k);
    assert There(d, s) <==> There(c, s);
  }

  lemma MemberKept(c: Cluster, d: Cluster, x: Item, claims: set<Spot>, k: Key)
    requires Frame(c, d, x, claims) && x != MemberItem(k) && MemberSound(c, k) && claims !! MemberClaims(c, k)
    ensures Kept(c, d, MemberItem(k))
  {
    hide AllThere;
    var s := MemberSpot(GroupBindings.Target(c.minio.idp, c.members[k].spec, k.namespace));
    assert s in MemberClaims(c, k);
    assert There(d, s) <==> There(c, s);
    if AllThere(c, MemberNeeds(c, k)) { ThereGrows(c, d, x, claims, MemberNeeds(c, k)); }
  }

  lemma AttachKept(c: Cluster, d: Cluster, x: Item, claims: set<Spot>, k: Key)
    requires Frame(c, d, x, claims) && x != AttachItem(k) && AttachSound(c, k) && claims !! AttachClaims(c, k)
    ensures Kept(c, d, AttachItem(k))
  {
    hide AllThere, StoredName;
    var s := AttachSpot(PolicyBindings.Target(c.minio.idp, c.attachments[k].spec, k.namespace));
    assert s in AttachClaims(c, k);
    assert There(d, s) <==> There(c, s);
    if AllThere(c, AttachNeeds(c, k)) { ThereGrows(c, d, x, claims, AttachNeeds(c, k)); }
  }

  lemma KeyKept(c: Cluster, d: Cluster, x: Item, claims: set<Spot>, k: Key, draws: set<string>)
    requires Frame(c, d, x, claims) && !(x.KeyItem? && x.key == k) && KeySound(c, k, draws)
    requires claims !! KeyClaims(c, k, draws)
    ensures Kept(c, d, KeyItem(k, draws))
  {
    hide AllThere, AccessKeys.Differ;
    var t := SecretSpot(SecretFor(c, k));
    assert t in KeyClaims(c, k, draws);
    assert There(d, t) <==> There(c, t);
    GivenElsewhere(WorldOf(c, c.keys), WorldOf(d, d.keys), k, c.keys[k].spec);
    assert KeyNames(d, k, draws) == KeyNames(c, k, draws);
    forall s | s in KeyNames(c, k, draws)
      ensures AccountFor(d, k, s) in d.minio.accounts <==> AccountFor(c, k, s) in c.minio.accounts
    {
      assert AccountSpot(AccountFor(c, k, s)) in KeyClaims(c, k, draws);
      assert There(d, AccountSpot(AccountFor(c, k, s))) <==> There(c, AccountSpot(AccountFor(c, k, s)));
    }
  }

  /** Whatever may be made up for a resource, its claims include its secret. */
  lemma ClaimsMeet(c: Cluster, k: Key, draws: set<string>, others: set<string>)
    requires k in c.keys
    ensures SecretSpot(SecretFor(c, k)) in KeyClaims(c, k, draws) * KeyClaims(c, k, others)
  {
  }

  lemma KeysDiffer(c: Cluster, x: Item, y: Item)
    requires x.KeyItem? && y.KeyItem? && Has(c, x) && Has(c, y) && Claims(c, x) !! Claims(c, y)
    ensures x.key != y.key
  {
    ClaimsMeet(c, x.key, x.draws, y.draws);
  }

  /** A step leaves every resource alone that claims other spots. */
  lemma OthersKept(c: Cluster, d: Cluster, x: Item, y: Item)
    requires Sound(c, x) && Frame(c, d, x, Claims(c, x)) && x != y && Sound(c, y) && Claims(c, x) !! Claims(c, y)
    ensures Kept(c, d, y)
  {
    if x.KeyItem? && y.KeyItem? { KeysDiffer(c, x, y); }
    hide Frame, UserSound, GroupSound, PolicySound, MemberSound, AttachSound, KeySound, Kept;
    match y
    case UserItem(k) => UserKept(c, d, x, Claims(c, x), k);
    case GroupItem(k) => GroupKept(c, d, x, Claims(c, x), k);
    case PolicyItem(k) => PolicyKept(c, d, x, Claims(c, x), k);
    case MemberItem(k) => MemberKept(c, d, x, Claims(c, x), k);
    case AttachItem(k) => AttachKept(c, d, x, Claims(c, x), k);
    case KeyItem(k, draws) => KeyKept(c, d, x, Claims(c, x), k, draws);
  }

  datatype Turn = Turn(item: Item, roll: AccessKeys.Roll)

  function Run(c: Cluster, turns: seq<Turn>): Cluster
    decreases |turns|
  {
    if turns == [] then c else Run(Step(c, turns[0].item, turns[0].roll), turns[1..])
  }

  /** Sound resources that claim different spots. */
  ghost predicate Declared(c: Cluster, all: set<Item>) {
    && Valid(c)
    && (forall x | x in all :: Sound(c, x))
    && (forall x, y | x in all && y in all && x != y :: Claims(c, x) !! Claims(c, y))
  }

  /** Only declared resources are taken up, with what they may need. */
  ghost predicate Among(c: Cluster, turns: seq<Turn>, all: set<Item>) {
    forall t | t in turns :: t.item in all && Equipped(c, t.item, t.roll)
  }

  /** The declared resources stay declared, and none falls back. */
  ghost predicate Onward(c: Cluster, d: Cluster, all: set<Item>)
    requires Declared(c, all)
  {
    && Declared(d, all) && d.digest == c.digest
    && (forall y | y in all :: Narrows(Claims(c, y), Claims(d, y)))
    && (forall y | y in all :: Needs(d, y) == Needs(c, y) && Stage(c, y) <= Stage(d, y))
    && (forall s | There(c, s) :: There(d, s))
  }

  lemma StageBound(c: Cluster, x: Item)
    requires Has(c, x)
    ensures Stage(c, x) <= 2
  {
  }

  lemma StepOnward(c: Cluster, all: set<Item>, x: Item, roll: AccessKeys.Roll)
    requires Declared(c, all) && x in all && Equipped(c, x, roll)
    ensures Advances(c, Step(c, x, roll), x) && Onward(c, Step(c, x, roll), all)
  {
    hide Valid, Sound, Claims, Needs, Stage, Step, Equipped;
    var d := Step(c, x, roll);
    StepAdvances(c, x, roll);
    forall y | y in all && y != x ensures Kept(c, d, y) {
      assert Claims(c, x) !! Claims(c, y);
      OthersKept(c, d, x, y);
    }
    StageBound(c, x);
    StageBound(d, x);
    forall y | y in all ensures Sound(d, y) && Narrows(Claims(c, y), Claims(d, y))
        && Needs(d, y) == Needs(c, y) && Stage(c, y) <= Stage(d, y) {
      assert y != x ==> Kept(c, d, y);
    }
    forall y, z | y in all && z in all && y != z ensures Claims(d, y) !! Claims(d, z) {
      assert Claims(c, y) !! Claims(c, z);
    }
  }

  lemma DeclaredHas(c: Cluster, all: set<Item>)
    requires Declared(c, all)
    ensures forall x | x in all :: Has(c, x)
  {
    hide Has;
  }

  lemma OnwardTrans(c: Cluster, d: Cluster, e: Cluster, all: set<Item>)
    requires Declared(c, all) && Onward(c, d, all) && Onward(d, e, all)
    ensures Onward(c, e, all)
  {
    hide Declared, Claims, Needs, Stage, Sound, There;
    assert forall x | x in all :: Has(c, x) && Has(d, x) && Has(e, x) by {
      DeclaredHas(c, all);
      DeclaredHas(d, all);
      DeclaredHas(e, all);
    }
  }

  lemma OnwardRefl(c: Cluster, all: set<Item>)
    requires Declared(c, all)
    ensures Onward(c, c, all)
  {
    hide Valid, Sound, Claims, Needs, Stage;
  }

  lemma OnwardDeclared(c: Cluster, d: Cluster, all: set<Item>)
    requires Declared(c, all) && Onward(c, d, all)
    ensures Declared(d, all) && d.digest == c.digest
  {
  }

  lemma AmongLater(c: Cluster, d: Cluster, turns: seq<Turn>, all: set<Item>)
    requires Among(c, turns, all) && d.digest == c.digest
    ensures Among(d, turns, all)
  {
  }

  lemma {:induction false} RunOnward(c: Cluster, all: set<Item>, turns: seq<Turn>)
    requires Declared(c, all) && Among(c, turns, all)
    ensures Onward(c, Run(c, turns), all)
    decreases |turns|
  {
    hide Declared, Onward, Step, Equipped;
    if turns == [] {
      OnwardRefl(c, all);
    } else {
      assert turns[0] in turns;
      StepOnward(c, all, turns[0].item, turns[0].roll);
      var d := Step(c, turns[0].item, turns[0].roll);
      assert Declared(d, all) && d.digest == c.digest by { OnwardDeclared(c, d, all); }
      AmongLater(c, d, turns[1..], all);
      RunOnward(d, all, turns[1..]);
      OnwardTrans(c, d, Run(c, turns), all);
    }
  }

  /** A resource that has its turn is guarded afterwards, and served if it was guarded before and its needs were met. */
  lemma {:induction false} RunReaches(c: Cluster, all: set<Item>, turns: seq<Turn>, x: Item)
    requires Declared(c, all) && Among(c, turns, all) && x in all
    requires exists t :: t in turns && t.item == x
    ensures Onward(c, Run(c, turns), all) && Has(Run(c, turns), x) && Has(c, x)
    ensures Stage(Run(c, turns), x) >= 1
    ensures Stage(c, x) >= 1 && AllThere(c, Needs(c, x)) ==> Stage(Run(c, turns), x) == 2
    decreases |turns|
  {
    hide Valid, Sound, Claims, Needs, Stage, Step, Equipped, There;
    var d := Step(c, turns[0].item, turns[0].roll);
    assert turns[0] in turns;
    StepOnward(c, all, turns[0].item, turns[0].roll);
    RunOnward(c, all, turns);
    assert d.digest == c.digest by { OnwardDeclared(c, d, all); }
    AmongLater(c, d, turns[1..], all);
    RunOnward(d, all, turns[1..]);
    StageBound(c, x);
    StageBound(d, x);
    StageBound(Run(c, turns), x);
    if turns[0].item != x {
      assert exists t :: t in turns[1..] && t.item == x by {
        var t :| t in turns && t.item == x;
        assert t in turns[1..];
      }
      RunReaches(d, all, turns[1..], x);
    }
  }

  /** Every need is met already, or is the claim of a declared resource without needs of its own. */
  ghost predicate Closed(c: Cluster, all: set<Item>)
    requires Declared(c, all)
  {
    forall x, s | x in all && s in Needs(c, x) ::
      There(c, s) || exists y :: y in all && Needs(c, y) == {} && s in Claims(c, y)
  }

  /** Every declared resource has a turn. */
  ghost predicate Round(c: Cluster, turns: seq<Turn>, all: set<Item>) {
    Among(c, turns, all) && forall x | x in all :: exists t :: t in turns && t.item == x
  }

  lemma {:induction false} RoundReaches(c: Cluster, all: set<Item>, turns: seq<Turn>)
    requires Declared(c, all) && Round(c, turns, all)
    ensures Onward(c, Run(c, turns), all)
    ensures forall x | x in all :: Stage(Run(c, turns), x) >= 1
    ensures forall x | x in all && Stage(c, x) >= 1 && AllThere(c, Needs(c, x)) :: Stage(Run(c, turns), x) == 2
  {
    hide Valid, Sound, Claims, Needs, Stage, Among, There, Run;
    RunOnward(c, all, turns);
    DeclaredHas(c, all);
    DeclaredHas(Run(c, turns), all);
    forall x | x in all
      ensures Stage(Run(c, turns), x) >= 1
      ensures Stage(c, x) >= 1 && AllThere(c, Needs(c, x)) ==> Stage(Run(c, turns), x) == 2
    {
      RunReaches(c, all, turns, x);
    }
  }

  lemma ServedThere(c: Cluster, x: Item)
    requires Sound(c, x) && Stage(c, x) == 2
    ensures AllThere(c, Claims(c, x))
  {
    hide StoredName, AccessKeyConvergence.Given;
  }

  lemma RoundLater(c: Cluster, d: Cluster, turns: seq<Turn>, all: set<Item>)
    requires Round(c, turns, all) && d.digest == c.digest
    ensures Round(d, turns, all)
  {
    hide Among;
    AmongLater(c, d, turns, all);
  }

  lemma NeedsNoAccount(c: Cluster, x: Item, s: Spot)
    requires Has(c, x) && s in Needs(c, x)
    ensures !s.AccountSpot?
  {
    hide StoredName;
  }

  /**
   Joint convergence: declared resources with distinct targets that were absent, with the secrets they
   refer to present and their needs declared too, are all served after three rounds of passes without
   faults, in whatever order: every status equals its spec and every remote object is there.
   */
  lemma ThreeRounds(c: Cluster, all: set<Item>, first: seq<Turn>, second: seq<Turn>, third: seq<Turn>)
    requires Declared(c, all) && Closed(c, all)
    requires Round(c, first, all) && Round(c, second, all) && Round(c, third, all)
    ensures
      var v := Run(Run(Run(c, first), second), third);
      Declared(v, all) && forall x | x in all :: Stage(v, x) == 2 && AllThere(v, Claims(v, x))
  {
    hide Valid, Sound, Claims, Needs, Stage, Round, There, Run;
    var c1 := Run(c, first);
    RoundReaches(c, all, first);
    RoundLater(c, c1, second, all);
    var c2 := Run(c1, second);
    RoundReaches(c1, all, second);
    RoundLater(c, c2, third, all);
    var c3 := Run(c2, third);
    RoundReaches(c2, all, third);
    forall x | x in all ensures AllThere(c2, Needs(c2, x)) {
      forall s | s in Needs(c2, x) ensures There(c2, s) {
        NeedsNoAccount(c2, x, s);
        if !There(c, s) {
          var y :| y in all && Needs(c, y) == {} && s in Claims(c, y);
          assert AllThere(c1, Needs(c1, y));
          ServedThere(c2, y);
        }
      }
    }
    forall x | x in all ensures Stage(c3, x) == 2 && AllThere(c3, Claims(c3, x)) {
      ServedThere(c3, x);
    }
  }

  /** Once all are served, passes change nothing. */
  lemma {:induction false} ServedRests(c: Cluster, all: set<Item>, turns: seq<Turn>)
    requires Declared(c, all) && Among(c, turns, all) && (forall x | x in all :: Stage(c, x) == 2)
    ensures Run(c, turns) == c
    decreases |turns|
  {
    hide Valid, Sound, Claims, Needs, Stage, Step, Equipped, There;
    if turns != [] {
      assert turns[0] in turns;
      StepAdvances(c, turns[0].item, turns[0].roll);
      ServedRests(c, all, turns[1..]);
    }
  }
}
