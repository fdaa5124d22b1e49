/** The clients a reconciler holds: every call meets the weather and changes the cluster in place. */
module Clients {
  import opened Prelude
  import opened Minio
  import opened Kube

  /** The groups and users a policy is attached to, in one of the lists a server answers with. */
  datatype PolicyMapping = PolicyMapping(groups: set<string>, users: set<string>)

  class Client<S(==,!new)> {
    var objects: map<Key, Object<S>>
    var secrets: map<Key, Secret>
    var minio: Server
    var clock: nat
    var audit: set<(Key, S)>
    var weather: Weather<S>

    function State(): World<S>
      reads this
    {
      World(objects, secrets, minio, clock, audit, weather)
    }

    constructor (w: World<S>)
      ensures State() == w
    {
      objects, secrets, minio, clock, audit, weather := w.objects, w.secrets, w.minio, w.clock, w.audit, w.weather;
    }

    method Become(w: World<S>)
      modifies this
      ensures State() == w
    {
      objects, secrets, minio, clock, audit, weather := w.objects, w.secrets, w.minio, w.clock, w.audit, w.weather;
    }

    /** A call that reads; what it reads is in the fields when it returns. */
    method Read() returns (err: Err)
      modifies this
      ensures (State(), err) == Ask(old(State()))
    {
      var (w, e) := Ask(State());
      Become(w);
      err := e;
    }

    /** Reads the resource under `k`. */
    method Get(k: Key) returns (err: Err, found: Option<Object<S>>)
      modifies this
      ensures State() == Ask(old(State())).0
      ensures found.Some? <==> Ask(old(State())).1 == Nil && k in objects
      ensures found.Some? ==> found.value == objects[k]
      ensures err ==
          (if Ask(old(State())).1 != Nil then Ask(old(State())).1 else if k in objects then Nil else NotFound)
    {
      err := Read();
      found := None;
      if err == Nil {
        if k in objects { found := Some(objects[k]); } else { err := NotFound; }
      }
    }

    method Request(q: Request) returns (err: Err)
      modifies this
      ensures (State(), err) == Send(old(State()), q)
    {
      var (w, e) := Send(State(), q);
      Become(w);
      err := e;
    }

    /** Writes a resource back; `stored` is the resource as the server answers it. */
    method Put(k: Key, o: Object<S>) returns (err: Err, stored: Object<S>)
      modifies this
      ensures (State(), err, stored) == Update(old(State()), k, o)
    {
      var (w, e, p) := Update(State(), k, o);
      Become(w);
      err, stored := e, p;
    }

    method GetGroupDescription(id: RemoteId) returns (err: Err, members: set<string>)
      modifies this
      ensures State() == Ask(old(State())).0
      ensures err == (if Ask(old(State())).1 != Nil then Transport else if id in minio.groups then Nil else NoSuchGroup)
      ensures err == Nil ==> forall u :: u in members <==> Membership(id, u) in minio.members
    {
      err := Read();
      members := {};
      if err == Nil {
        if id in minio.groups {
          members := set m | m in minio.members && m.group == id :: m.user;
          assert forall u :: Membership(id, u) in minio.members ==> Membership(id, u).user in members;
        } else {
          err := NoSuchGroup;
        }
      }
    }

    method GetUserInfo(id: RemoteId) returns (err: Err)
      modifies this
      ensures State() == Ask(old(State())).0
      ensures err == (if Ask(old(State())).1 != Nil then Transport else if id in minio.users then Nil else NoSuchUser)
    {
      err := Read();
      if err == Nil && id !in minio.users { err := NoSuchUser; }
    }

    method InfoCannedPolicy(id: RemoteId) returns (err: Err, doc: Doc)
      modifies this
      ensures State() == Ask(old(State())).0
      ensures err ==
          (if Ask(old(State())).1 != Nil then Transport else if id in minio.policies then Nil else NoSuchPolicy)
      ensures err == Nil ==> doc == minio.policies[id]
    {
      err := Read();
      doc := EMPTY_DOC;
      if err == Nil {
        if id in minio.policies { doc := minio.policies[id]; } else { err := NoSuchPolicy; }
      }
    }

    method BucketExists(id: RemoteId) returns (err: Err, found: bool)
      modifies this
      ensures (State(), err) == Ask(old(State()))
      ensures found <==> id in minio.buckets
    {
      err := Read();
      found := id in minio.buckets;
    }

    method GetBucketVersioning(id: RemoteId) returns (err: Err, v: Versioning)
      modifies this
      ensures State() == Ask(old(State())).0
      ensures err ==
          (if Ask(old(State())).1 != Nil then Transport else if id in minio.buckets then Nil else NoSuchBucket)
      ensures err == Nil ==> v == minio.buckets[id].versioning
    {
      err := Read();
      v := NO_VERSIONING;
      if err == Nil {
        if id in minio.buckets { v := minio.buckets[id].versioning; } else { err := NoSuchBucket; }
      }
    }

    method GetBucketLifecycle(id: RemoteId) returns (err: Err, l: Option<Lifecycle>)
      modifies this
      ensures State() == Ask(old(State())).0
      ensures err == (if Ask(old(State())).1 != Nil then Transport
                      else if id !in minio.buckets then NoSuchBucket
                      else if minio.buckets[id].lifecycle == NO_LIFECYCLE then NoSuchLifecycleConfiguration
                      else Nil)
      ensures err == Nil ==> l == Some(minio.buckets[id].lifecycle)
      ensures err != Nil ==> l == None
    {
      err := Read();
      l := None;
      if err == Nil {
        if id !in minio.buckets {
          err := NoSuchBucket;
        } else if minio.buckets[id].lifecycle == NO_LIFECYCLE {
          err := NoSuchLifecycleConfiguration;
        } else {
          l := Some(minio.buckets[id].lifecycle);
        }
      }
    }

    method GetSecret(k: Key) returns (err: Err, secret: Secret)
      modifies this
      ensures State() == Ask(old(State())).0
      ensures err == (if Ask(old(State())).1 != Nil then Transport else if k in secrets then Nil else NotFound)
      ensures err == Nil ==> secret == secrets[k]
    {
      err := Read();
      secret := Secret(map[], None, 0);
      if err == Nil {
        if k in secrets { secret := secrets[k]; } else { err := NotFound; }
      }
    }

    method GetPolicyEntities(id: RemoteId) returns (err: Err, mappings: seq<PolicyMapping>)
      modifies this
      ensures State() == Ask(old(State())).0
      ensures err ==
          (if Ask(old(State())).1 != Nil then Transport else if id in minio.policies then Nil else NoSuchPolicy)
      ensures err == Nil ==> |mappings| == 1
      ensures err == Nil ==> forall n :: n in mappings[0].groups <==>
          Attachment(id, Entity.Group(n)) in minio.attachments
      ensures err == Nil ==> forall n :: n in mappings[0].users <==> Attachment(id, Entity.User(n)) in minio.attachments
    {
      err := Read();
      mappings := [];
      if err == Nil {
        if id in minio.policies {
          var groups := set a | a in minio.attachments && a.policy == id && a.entity.Group? :: a.entity.name;
          var users := set a | a in minio.attachments && a.policy == id && a.entity.User? :: a.entity.name;
          mappings := [PolicyMapping(groups, users)];
          assert forall n :: Attachment(id, Entity.Group(n)) in minio.attachments ==>
              Attachment(id, Entity.Group(n)).entity.name in groups;
          assert forall n :: Attachment(id, Entity.User(n)) in minio.attachments ==>
              Attachment(id, Entity.User(n)).entity.name in users;
        } else {
          err := NoSuchPolicy;
        }
      }
    }

    method GetLdapPolicyEntities(id: RemoteId) returns (err: Err, mappings: seq<PolicyMapping>)
      modifies this
      ensures State() == Ask(old(State())).0
      ensures err ==
          (if Ask(old(State())).1 != Nil then Transport else if id in minio.policies then Nil else NoSuchPolicy)
      ensures err == Nil ==> |mappings| == 1
      ensures err == Nil ==> forall n :: n in mappings[0].groups <==> Attachment(id, LdapGroup(n)) in minio.attachments
      ensures err == Nil ==> forall n :: n in mappings[0].users <==> Attachment(id, LdapUser(n)) in minio.attachments
    {
      err := Read();
      mappings := [];
      if err == Nil {
        if id in minio.policies {
          var groups := set a | a in minio.attachments && a.policy == id && a.entity.LdapGroup? :: a.entity.name;
          var users := set a | a in minio.attachments && a.policy == id && a.entity.LdapUser? :: a.entity.name;
          mappings := [PolicyMapping(groups, users)];
          assert forall n :: Attachment(id, LdapGroup(n)) in minio.attachments ==>
              Attachment(id, LdapGroup(n)).entity.name in groups;
          assert forall n :: Attachment(id, LdapUser(n)) in minio.attachments ==>
              Attachment(id, LdapUser(n)).entity.name in users;
        } else {
          err := NoSuchPolicy;
        }
      }
    }

    method GetIdpConfig(tenant: ResourceRef) returns (err: Err, info: seq<(string, string)>)
      modifies this
      ensures (State(), err) == Ask(old(State()))
      ensures info == IdpOf(minio.idp, tenant)
    {
      err := Read();
      info := IdpOf(minio.idp, tenant);
    }

    method CreateSecret(k: Key, data: map<string, string>, owner: Key) returns (err: Err, secret: Secret)
      modifies this
      ensures (State(), err, secret) == Kube.CreateSecret(old(State()), k, data, owner)
    {
      var (w, e, s) := Kube.CreateSecret(State(), k, data, owner);
      Become(w);
      err, secret := e, s;
    }

    method UpdateSecret(k: Key, read: Secret, data: map<string, string>) returns (err: Err, secret: Secret)
      modifies this
      ensures (State(), err, secret) == Kube.UpdateSecret(old(State()), k, read, data)
    {
      var (w, e, s) := Kube.UpdateSecret(State(), k, read, data);
      Become(w);
      err, secret := e, s;
    }

    method DeleteSecret(k: Key) returns (err: Err)
      modifies this
      ensures (State(), err) == Kube.DeleteSecret(old(State()), k)
    {
      var (w, e) := Kube.DeleteSecret(State(), k);
      Become(w);
      err := e;
    }

    method InfoServiceAccount(id: RemoteId) returns (err: Err, attributes: Option<Attributes>)
      modifies this
      ensures State() == Ask(old(State())).0
      ensures err == (if Ask(old(State())).1 != Nil then Transport
          else if id in minio.accounts then Nil else InvalidIAMCredentials)
      ensures err == Nil ==> attributes == Some(minio.accounts[id].attributes)
    {
      err := Read();
      attributes := None;
      if err == Nil {
        if id in minio.accounts {
          attributes := Some(minio.accounts[id].attributes);
        } else {
          err := InvalidIAMCredentials;
        }
      }
    }
  }
}
