/** Small failure-free containers shared by every module. */
module Prelude {
  datatype Option<+T> = None | Some(value: T)

  /** The set `s` as a map without content. */
  function Units<T>(s: set<T>): map<T, ()> {
    map x | x in s :: ()
  }
}

/**
 The MinIO tenants as the operator sees them through the admin and object clients: what each
 request does to the stored objects and which error code comes back.
 */
module Minio {
  import opened Prelude

  /** The error a client call hands back; `Nil` is success. */
  datatype Err =
    | Nil
    | Transport                    // the call failed without an answer from the server
    | Conflict                     // the resource version moved on
    | NotFound
    | AlreadyExists
    | Refused                      // an error the operator raises itself, or an unnamed server error
    | NoSuchBucket
    | NoSuchLifecycleConfiguration
    | BucketAlreadyOwnedByYou
    | BucketNotEmpty
    | NoSuchGroup
    | GroupNotEmpty
    | NoSuchUser
    | NoSuchPolicy
    | PolicyInUse
    | PolicyChangeAlreadyApplied
    | InvalidIAMCredentials
    | AccessKeyTaken

  /** Drops the error when it carries the given code. */
  function Ignore(e: Err, code: Err): Err {
    if e == code then Nil else e
  }

  /** Reference to a tenant; an empty namespace means the namespace of the referring resource. */
  datatype ResourceRef = ResourceRef(name: string, namespace: string) {
    function SetDefaultNamespace(ns: string): ResourceRef {
      if namespace == "" then ResourceRef(name, ns) else this
    }
  }

  /** A named object inside a tenant. */
  datatype RemoteId = RemoteId(tenant: ResourceRef, name: string)

  datatype Statement = Statement(action: seq<string>, effect: string, resource: seq<string>)

  datatype Doc = Doc(version: string, statement: seq<Statement>)

  const EMPTY_DOC := Doc("", [])

  datatype Versioning = Versioning(status: string, mfaDelete: string, excludedPrefixes: seq<string>,
      excludeFolders: bool)

  const NO_VERSIONING := Versioning("", "", [], false)
  const SUSPENDED := Versioning("Suspended", "", [], false)

  /** A lifecycle rule in its serialised form. */
  datatype Lifecycle = Lifecycle(rules: seq<string>)

  const NO_LIFECYCLE := Lifecycle([])

  datatype Bucket = Bucket(versioning: Versioning, lifecycle: Lifecycle, empty: bool)

  const NEW_BUCKET := Bucket(NO_VERSIONING, NO_LIFECYCLE, true)

  datatype Membership = Membership(group: RemoteId, user: string)

  datatype Entity = User(name: string) | Group(name: string) | LdapUser(name: string) | LdapGroup(name: string)

  datatype Attachment = Attachment(policy: RemoteId, entity: Entity)

  datatype Attributes = Attributes(name: string, description: string, expiration: Option<int>, policy: Doc)

  datatype Account = Account(parent: string, ldap: bool, secretKey: string, attributes: Attributes)

  /** The kinds of object a tenant stores. */
  datatype Part = Buckets | Groups | Members | Users | Policies | Attachments | Accounts

  datatype Request =
    | MakeBucket(id: RemoteId)
    | RemoveBucket(id: RemoteId, force: bool)
    | SetBucketVersioning(id: RemoteId, versioning: Versioning)
    | SetBucketLifecycle(id: RemoteId, lifecycle: Lifecycle)
    | PutObject(id: RemoteId)
    | RemoveObjects(id: RemoteId)
    | AddGroup(id: RemoteId)
    | RemoveGroup(id: RemoteId)
    | AddMember(id: RemoteId, user: string)
    | RemoveMember(id: RemoteId, user: string)
    | AddUser(id: RemoteId, secretKey: string)
    | RemoveUser(id: RemoteId)
    | AddCannedPolicy(id: RemoteId, doc: Doc)
    | RemoveCannedPolicy(id: RemoteId)
    | AttachPolicy(id: RemoteId, entity: Entity)
    | DetachPolicy(id: RemoteId, entity: Entity)
    | AddServiceAccount(id: RemoteId, account: Account)
    | UpdateServiceAccount(id: RemoteId, secretKey: string, attributes: Attributes)
    | DeleteServiceAccount(id: RemoteId)

  /** The request may create or rewrite objects of the given kind. */
  predicate Writes(r: Request, p: Part) {
    match p
    case Buckets => r.MakeBucket? || r.SetBucketVersioning? || r.SetBucketLifecycle? || r.PutObject? || r.RemoveObjects?
    case Groups => r.AddGroup? || r.AddMember?
    case Members => r.AddMember?
    case Users => r.AddUser?
    case Policies => r.AddCannedPolicy?
    case Attachments => r.AttachPolicy?
    case Accounts => r.AddServiceAccount? || r.UpdateServiceAccount?
  }

  /** The request may create, rewrite or remove objects of the given kind. */
  predicate Touches(r: Request, p: Part) {
    Writes(r, p) ||
    match p
    case Buckets => r.RemoveBucket?
    case Groups => r.RemoveGroup?
    case Members => r.RemoveMember? || r.RemoveUser?
    case Users => r.RemoveUser?
    case Policies => r.RemoveCannedPolicy?
    case Attachments => r.DetachPolicy? || r.RemoveUser? || r.RemoveGroup?
    case Accounts => r.DeleteServiceAccount? || r.RemoveUser?
  }

  const USER_DN_SEARCH_BASE := "user_dn_search_base_dn"

  /** The value of the first configuration entry that names the user search base. */
  function SearchBase(info: seq<(string, string)>): string {
    if info == [] then ""
    else if info[0].0 == USER_DN_SEARCH_BASE then info[0].1
    else SearchBase(info[1..])
  }

  /** The distinguished name of an LDAP user, from its short name. */
  function UserDn(user: string, base: string): string {
    if user != "" && base != "" && !("cn=" <= user) then "cn=" + user + "," + base else user
  }

  type Idp = map<ResourceRef, seq<(string, string)>>

  function IdpOf(idp: Idp, tenant: ResourceRef): seq<(string, string)> {
    if tenant in idp then idp[tenant] else []
  }

  /** The entity under the name the server stores it by. */
  function StoredName(idp: Idp, tenant: ResourceRef, e: Entity): Entity {
    match e
    case LdapUser(n) => LdapUser(UserDn(n, SearchBase(IdpOf(idp, tenant))))
    case _ => e
  }

  datatype Server = Server(
    buckets: map<RemoteId, Bucket>,
    groups: set<RemoteId>,
    members: set<Membership>,
    users: map<RemoteId, string>,
    policies: map<RemoteId, Doc>,
    attachments: set<Attachment>,
    accounts: map<RemoteId, Account>,
    idp: Idp,                                      // LDAP configuration of each tenant
    strictDetach: bool                             // detaching what is not attached is an error
  ) {
    /** References between stored objects resolve. */
    ghost predicate Valid() {
      MembersValid() && PoliciesValid() && EntitiesValid()
    }

    ghost predicate MembersValid() {
      forall m | m in members :: m.group in groups && RemoteId(m.group.tenant, m.user) in users
    }

    ghost predicate PoliciesValid() {
      forall a | a in attachments :: a.policy in policies
    }

    ghost predicate EntitiesValid() {
      forall a | a in attachments :: Known(a.policy.tenant, a.entity)
    }

    predicate Known(tenant: ResourceRef, e: Entity) {
      match e
      case User(n) => n != "" && RemoteId(tenant, n) in users
      case Group(n) => n != "" && RemoteId(tenant, n) in groups
      case _ => e.name != ""
    }

    function Unknown(e: Entity): Err {
      if e.Group? then NoSuchGroup else NoSuchUser
    }

    function Attached(id: RemoteId, e: Entity): Attachment {
      Attachment(id, StoredName(idp, id.tenant, e))
    }

    function Serve(r: Request): (Server, Err) {
      match r
      case MakeBucket(id) =>
        if id in buckets then (this, BucketAlreadyOwnedByYou)
        else (this.(buckets := buckets[id := NEW_BUCKET]), Nil)
      case RemoveBucket(id, force) =>
        if id !in buckets then (this, NoSuchBucket)
        else if !buckets[id].empty && !force then (this, BucketNotEmpty)
        else (this.(buckets := buckets - {id}), Nil)
      case SetBucketVersioning(id, v) =>
        if id !in buckets then (this, NoSuchBucket)
        else (this.(buckets := buckets[id := buckets[id].(versioning := v)]), Nil)
      case SetBucketLifecycle(id, l) =>
        if id !in buckets then (this, NoSuchBucket)
        else (this.(buckets := buckets[id := buckets[id].(lifecycle := l)]), Nil)
      case PutObject(id) =>
        if id !in buckets then (this, NoSuchBucket)
        else (this.(buckets := buckets[id := buckets[id].(empty := false)]), Nil)
      case RemoveObjects(id) =>
        if id !in buckets then (this, NoSuchBucket)
        else (this.(buckets := buckets[id := buckets[id].(empty := true)]), Nil)
      case AddGroup(id) => (this.(groups := groups + {id}), Nil)
      case RemoveGroup(id) =>
        if id !in groups then (this, NoSuchGroup)
        else if exists m | m in members :: m.group == id then (this, GroupNotEmpty)
        else
          (this.(groups := groups - {id},
                 attachments :=
                     (set a | a in attachments && !(a.policy.tenant == id.tenant && a.entity == Group(id.name)))), Nil)
      case AddMember(id, user) =>
        if RemoteId(id.tenant, user) !in users then (this, NoSuchUser)
        else (this.(groups := groups + {id}, members := members + {Membership(id, user)}), Nil)
      case RemoveMember(id, user) =>
        if RemoteId(id.tenant, user) !in users then (this, NoSuchUser)
        else if id !in groups then (this, NoSuchGroup)
        else (this.(members := members - {Membership(id, user)}), Nil)
      case AddUser(id, secretKey) => (this.(users := users[id := secretKey]), Nil)
      case RemoveUser(id) =>
        if id !in users then (this, NoSuchUser)
        else
          (this.(users := users - {id},
                 members := (set m | m in members && !(m.group.tenant == id.tenant && m.user == id.name)),
                 attachments :=
                     (set a | a in attachments && !(a.policy.tenant == id.tenant && a.entity == User(id.name))),
                 accounts := (map x | x in accounts
                     && !(x.tenant == id.tenant && !accounts[x].ldap && accounts[x].parent == id.name)
                             :: accounts[x])), Nil)
      case AddCannedPolicy(id, doc) => (this.(policies := policies[id := doc]), Nil)
      case RemoveCannedPolicy(id) =>
        if exists a | a in attachments :: a.policy == id then (this, PolicyInUse)
        else (this.(policies := policies - {id}), Nil)
      case AttachPolicy(id, e) =>
        if id !in policies then (this, NoSuchPolicy)
        else if !Known(id.tenant, e) then (this, Unknown(e))
        else if Attached(id, e) in attachments then (this, PolicyChangeAlreadyApplied)
        else (this.(attachments := attachments + {Attached(id, e)}), Nil)
      case DetachPolicy(id, e) =>
        if !Known(id.tenant, e) then (this, Unknown(e))
        else if Attached(id, e) !in attachments then (this, if strictDetach then PolicyChangeAlreadyApplied else Nil)
        else (this.(attachments := attachments - {Attached(id, e)}), Nil)
      case AddServiceAccount(id, account) =>
        if !account.ldap && RemoteId(id.tenant, account.parent) !in users then (this, NoSuchUser)
        else if id in accounts then (this, AccessKeyTaken)
        else (this.(accounts := accounts[id := account]), Nil)
      case UpdateServiceAccount(id, secretKey, attributes) =>
        if id !in accounts then (this, InvalidIAMCredentials)
        else (this.(accounts := accounts[id := accounts[id].(secretKey := secretKey, attributes := attributes)]), Nil)
      case DeleteServiceAccount(id) =>
        if id !in accounts then (this, InvalidIAMCredentials)
        else (this.(accounts := accounts - {id}), Nil)
    }
  }

  /** The objects of one kind are the same on both servers. */
  ghost predicate SamePart(m: Server, n: Server, p: Part) {
    match p
    case Buckets => n.buckets == m.buckets
    case Groups => n.groups == m.groups
    case Members => n.members == m.members
    case Users => n.users == m.users
    case Policies => n.policies == m.policies
    case Attachments => n.attachments == m.attachments
    case Accounts => n.accounts == m.accounts
  }

  ghost predicate Submap<K, V>(n: map<K, V>, m: map<K, V>) {
    forall x | x in n :: x in m && n[x] == m[x]
  }

  /** Every object of one kind in `n` is in `m` with the same content. */
  ghost predicate Shrinks(m: Server, n: Server, p: Part) {
    match p
    case Buckets => Submap(n.buckets, m.buckets)
    case Groups => n.groups <= m.groups
    case Members => n.members <= m.members
    case Users => Submap(n.users, m.users)
    case Policies => Submap(n.policies, m.policies)
    case Attachments => n.attachments <= m.attachments
    case Accounts => Submap(n.accounts, m.accounts)
  }

  lemma ServeMembersValid(m: Server, r: Request)
    requires m.MembersValid()
    ensures m.Serve(r).0.MembersValid()
  {
  }

  lemma ServePoliciesValid(m: Server, r: Request)
    requires m.PoliciesValid()
    ensures m.Serve(r).0.PoliciesValid()
  {
  }

  lemma ServeEntitiesValid(m: Server, r: Request)
    requires m.EntitiesValid()
    ensures m.Serve(r).0.EntitiesValid()
  {
  }

  lemma ServeValid(m: Server, r: Request)
    requires m.Valid()
    ensures m.Serve(r).0.Valid()
  {
    hide Server.Serve, Server.MembersValid, Server.PoliciesValid, Server.EntitiesValid;
    ServeMembersValid(m, r);
    ServePoliciesValid(m, r);
    ServeEntitiesValid(m, r);
  }

  lemma ServeConfig(m: Server, r: Request)
    ensures m.Serve(r).0.idp == m.idp && m.Serve(r).0.strictDetach == m.strictDetach
  {
  }

  lemma SparesBuckets(m: Server, r: Request)
    ensures !Touches(r, Buckets) ==> SamePart(m, m.Serve(r).0, Buckets)
    ensures !Writes(r, Buckets) ==> Shrinks(m, m.Serve(r).0, Buckets)
  {
  }

  lemma SparesGroups(m: Server, r: Request)
    ensures !Touches(r, Groups) ==> SamePart(m, m.Serve(r).0, Groups)
    ensures !Writes(r, Groups) ==> Shrinks(m, m.Serve(r).0, Groups)
  {
  }

  lemma SparesMembers(m: Server, r: Request)
    ensures !Touches(r, Members) ==> SamePart(m, m.Serve(r).0, Members)
    ensures !Writes(r, Members) ==> Shrinks(m, m.Serve(r).0, Members)
  {
  }

  lemma SparesUsers(m: Server, r: Request)
    ensures !Touches(r, Users) ==> SamePart(m, m.Serve(r).0, Users)
    ensures !Writes(r, Users) ==> Shrinks(m, m.Serve(r).0, Users)
  {
  }

  lemma SparesPolicies(m: Server, r: Request)
    ensures !Touches(r, Policies) ==> SamePart(m, m.Serve(r).0, Policies)
    ensures !Writes(r, Policies) ==> Shrinks(m, m.Serve(r).0, Policies)
  {
  }

  lemma SparesAttachments(m: Server, r: Request)
    ensures !Touches(r, Attachments) ==> SamePart(m, m.Serve(r).0, Attachments)
    ensures !Writes(r, Attachments) ==> Shrinks(m, m.Serve(r).0, Attachments)
  {
  }

  lemma SparesAccounts(m: Server, r: Request)
    ensures !Touches(r, Accounts) ==> SamePart(m, m.Serve(r).0, Accounts)
    ensures !Writes(r, Accounts) ==> Shrinks(m, m.Serve(r).0, Accounts)
  {
  }

  lemma ServeSpares(m: Server, r: Request, p: Part)
    ensures !Touches(r, p) ==> SamePart(m, m.Serve(r).0, p)
    ensures !Writes(r, p) ==> Shrinks(m, m.Serve(r).0, p)
  {
    hide Server.Serve, Touches, Writes, SamePart, Shrinks;
    match p
    case Buckets => SparesBuckets(m, r);
    case Groups => SparesGroups(m, r);
    case Members => SparesMembers(m, r);
    case Users => SparesUsers(m, r);
    case Policies => SparesPolicies(m, r);
    case Attachments => SparesAttachments(m, r);
    case Accounts => SparesAccounts(m, r);
  }
}
