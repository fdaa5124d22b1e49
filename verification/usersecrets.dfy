/**
 The secret version a user resource records stands for the secret key on the server: as long as
 the recorded version is the live one, the server has the key of that secret.
 */
module UserSecrets {
  import opened Prelude
  import opened Minio
  import opened Kube
  import opened Users
  import opened Branches
  import opened Runs

  /** If version `stamp` of the secret is the live one, the user `id`, where it exists, has its key. */
  ghost predicate Match(w: W, ref: Key, field: string, stamp: nat, id: RemoteId) {
    ref in w.secrets && w.secrets[ref].version == stamp && id in w.minio.users ==>
        w.minio.users[id] == w.secrets[ref].Field(field)
  }

  /** What the resource `u` records about the user `id` is right. */
  ghost predicate Fit(w: W, k: Key, u: Resource, id: RemoteId) {
    && u.stamp < w.clock
    && (u.status.Some? ==>
          && u.status.value.accessKey != ""
          && (Target(w.minio.idp, u.status.value, k.namespace) == id ==>
                Match(w, u.status.value.secretKeyRef.Target(k.namespace), u.status.value.secretKeyRef.key,
                    u.stamp, id)))
  }

  /** What is stored under `k` about the user `id` is right. */
  ghost predicate Agreed(w: W, k: Key, id: RemoteId) {
    w.Valid() && (k in w.objects ==> Fit(w, k, w.objects[k], id))
  }

  ghost predicate LeftBy(acts: seq<Act<UserSpec>>, id: RemoteId) {
    forall a | a in acts && a.Admin? && a.request.AddUser? :: a.request.id != id
  }

  /** Nobody else sets the secret key of `id`. */
  ghost predicate Leaves(t: Weather<UserSpec>, id: RemoteId) {
    t.Storm? ==> forall b | b in t.beats :: LeftBy(b.acts, id)
  }

  /** A secret version that is not live never will be. */
  ghost predicate Spent(w: W, ref: Key, stamp: nat) {
    stamp < w.clock && (ref in w.secrets ==> w.secrets[ref].version != stamp)
  }

  /** A secret version stands for the same data for ever. */
  ghost predicate Sealed(w: W, ref: Key, secret: Secret) {
    secret.version < w.clock && (ref in w.secrets && w.secrets[ref].version == secret.version ==>
        w.secrets[ref].data == secret.data)
  }

  /** The user `id`, where it exists, has the key `key`. */
  ghost predicate Keyed(w: W, id: RemoteId, key: string) {
    id in w.minio.users ==> w.minio.users[id] == key
  }

  /** `v` is what the acts of others, who leave `id` alone, make of `w`. */
  ghost predicate Later(w: W, v: W, id: RemoteId) {
    && w.clock <= v.clock && v.minio.idp == w.minio.idp
    && (id in v.minio.users ==> id in w.minio.users && v.minio.users[id] == w.minio.users[id])
    && (forall ref | ref in v.secrets ::
          || (ref in w.secrets && v.secrets[ref] == w.secrets[ref])
          || v.secrets[ref].version >= w.clock)
  }

  lemma LaterServe(m: Server, q: Request, id: RemoteId)
    requires q.AddUser? ==> q.id != id
    ensures var n := m.Serve(q).0; n.idp == m.idp && (id in n.users ==> id in m.users && n.users[id] == m.users[id])
  {
  }

  lemma LaterAct(w: W, a: Act<UserSpec>, id: RemoteId)
    requires a.Admin? && a.request.AddUser? ==> a.request.id != id
    ensures Later(w, Act1(w, a), id)
  {
    hide Server.Serve;
    if a.Admin? { LaterServe(w.minio, a.request, id); }
  }

  lemma {:induction false} LaterSettle(w: W, acts: seq<Act<UserSpec>>, id: RemoteId)
    requires LeftBy(acts, id)
    ensures Later(w, Settle(w, acts), id)
    decreases |acts|
  {
    hide Act1;
    if acts != [] {
      assert acts[0] in acts;
      LaterAct(w, acts[0], id);
      LaterSettle(Act1(w, acts[0]), acts[1..], id);
    }
  }

  lemma {:induction false} SettleWeather(w: W, acts: seq<Act<UserSpec>>)
    ensures Settle(w, acts).weather == w.weather
    decreases |acts|
  {
    hide Server.Serve;
    if acts != [] { SettleWeather(Act1(w, acts[0]), acts[1..]); }
  }

  lemma LaterNext(w: W, id: RemoteId)
    requires Leaves(w.weather, id)
    ensures Later(w, Next(w).0, id) && Leaves(Next(w).0.weather, id)
  {
    hide Settle, LeftBy;
    if w.weather.Storm? && w.weather.beats != [] {
      var beats := w.weather.beats;
      assert beats[0] in beats;
      LaterSettle(w.(weather := Storm(beats[1..])), beats[0].acts, id);
      SettleWeather(w.(weather := Storm(beats[1..])), beats[0].acts);
    }
  }

  lemma FitLater(w: W, v: W, k: Key, u: Resource, id: RemoteId)
    requires Fit(w, k, u, id) && Later(w, v, id)
    ensures Fit(v, k, u, id)
  {
  }

  lemma SpentLater(w: W, v: W, ref: Key, stamp: nat, id: RemoteId)
    requires Spent(w, ref, stamp) && Later(w, v, id)
    ensures Spent(v, ref, stamp)
  {
  }

  lemma SealedLater(w: W, v: W, ref: Key, secret: Secret, id: RemoteId)
    requires Sealed(w, ref, secret) && Later(w, v, id)
    ensures Sealed(v, ref, secret)
  {
  }

  /** The pass holds `u`; what it and the store say about `id` is right. */
  ghost predicate InHand(w: W, k: Key, u: Resource, id: RemoteId) {
    Agreed(w, k, id) && Held(w, k, u) && Fit(w, k, u, id) && Leaves(w.weather, id)
  }

  lemma ValidClock(w: W)
    requires w.Valid()
    ensures 0 < w.clock
  {
  }

  lemma NextAgrees(w: W, k: Key, id: RemoteId)
    requires Agreed(w, k, id) && Leaves(w.weather, id)
    ensures Agreed(Next(w).0, k, id) && Leaves(Next(w).0.weather, id)
  {
    hide Next, World.Valid, Leaves, Along, Weathered, Match, Held;
    var v := Next(w).0;
    LaterNext(w, id);
    NextAlways(w);
    NextDrifts(w, k);
    if k in v.objects {
      if k in w.objects { FitLater(w, v, k, w.objects[k], id); }
      ValidClock(w);
    }
  }

  lemma NextInHand(w: W, k: Key, u: Resource, id: RemoteId)
    requires InHand(w, k, u, id)
    ensures InHand(Next(w).0, k, u, id) && Later(w, Next(w).0, id)
  {
    hide Next, World.Valid, Held, Leaves, Along, Weathered;
    var v := Next(w).0;
    LaterNext(w, id);
    NextAlways(w);
    FitLater(w, v, k, u, id);
    NextAgrees(w, k, id);
  }

  lemma AskInHand(w: W, k: Key, u: Resource, id: RemoteId)
    requires InHand(w, k, u, id)
    ensures InHand(Ask(w).0, k, u, id) && Later(w, Ask(w).0, id)
  {
    hide Next, InHand, Later, Kept, Weathered;
    NextInHand(w, k, u, id);
  }

  lemma StoreAgrees(w: W, k: Key, p: Resource, id: RemoteId)
    requires Agreed(w, k, id) && Fit(w, k, p, id)
    ensures Agreed(Store(w, k, p).0, k, id) && Fit(Store(w, k, p).0, k, Store(w, k, p).2, id)
  {
    hide Along, Held;
    StoreKeeps(w, k, p);
  }

  /** A write of the resource that is right about `id`. */
  lemma UpdateAgrees(w: W, k: Key, u: Resource, p: Resource, id: RemoteId)
    requires InHand(w, k, u, id) && Fit(w, k, p, id)
    ensures Agreed(Update(w, k, p).0, k, id) && Leaves(Update(w, k, p).0.weather, id)
    ensures Update(w, k, p).1 == Nil ==> InHand(Update(w, k, p).0, k, Update(w, k, p).2, id)
  {
    hide Next, Leaves, Kept, Weathered, Along, Held;
    NextInHand(w, k, u, id);
    FitLater(w, Next(w).0, k, p, id);
    StoreAgrees(Next(w).0, k, p, id);
  }

  lemma ServeAgrees(v: W, k: Key, u: Resource, q: Request, id: RemoteId)
    requires InHand(v, k, u, id) && (q.AddUser? ==> q.id != id)
    ensures InHand(v.(minio := v.minio.Serve(q).0), k, u, id)
  {
    hide Leaves, Server.Serve, Server.Valid;
    LaterServe(v.minio, q, id);
    ServeValid(v.minio, q);
  }

  lemma SetAgrees(v: W, k: Key, u: Resource, q: Request, id: RemoteId)
    requires InHand(v, k, u, id) && q.AddUser? && q.id == id
    requires u.status.Some? ==> Spent(v, u.status.value.secretKeyRef.Target(k.namespace), u.stamp)
    ensures var x := v.(minio := v.minio.Serve(q).0); InHand(x, k, u, id) && Keyed(x, id, q.secretKey)
  {
    hide Leaves, Server.Valid;
    ServeValid(v.minio, q);
  }

  /** A request that leaves `id` alone, or sets its key while the record is out of date. */
  lemma SendAgrees(w: W, k: Key, u: Resource, q: Request, id: RemoteId)
    requires InHand(w, k, u, id)
    requires q.AddUser? && q.id == id && u.status.Some? ==>
        Spent(w, u.status.value.secretKeyRef.Target(k.namespace), u.stamp)
    ensures InHand(Send(w, q).0, k, u, id)
    ensures q.AddUser? && q.id == id && Send(w, q).1 == Nil ==> Keyed(Send(w, q).0, id, q.secretKey)
  {
    hide Next, Leaves, Weathered, Along, Server.Serve, Later, Spent, Agreed, Held, Fit;
    var v := Next(w).0;
    NextInHand(w, k, u, id);
    if q.AddUser? && q.id == id {
      if u.status.Some? { SpentLater(w, v, u.status.value.secretKeyRef.Target(k.namespace), u.stamp, id); }
      SetAgrees(v, k, u, q, id);
    } else {
      ServeAgrees(v, k, u, q, id);
    }
    assert Send(w, q).0 == v || Send(w, q).0 == v.(minio := v.minio.Serve(q).0);
  }

  /** A resource with the same record is as right as before; one without a record is right. */
  lemma SameRecordFits(w: W, k: Key, u: Resource, p: Resource, id: RemoteId)
    requires Fit(w, k, u, id) && p.stamp == u.stamp && (p.status == u.status || p.status.None?)
    ensures Fit(w, k, p, id)
  {
  }

  lemma HandAgrees(w: W, k: Key, u: Resource, id: RemoteId)
    requires InHand(w, k, u, id)
    ensures Agreed(w, k, id) && Leaves(w.weather, id) && Fit(w, k, u, id)
  {
  }

  /** A release never sets a key. */
  lemma ReleaseAgrees(w: W, k: Key, u: Resource, q: Request, excused: set<Err>, id: RemoteId)
    requires InHand(w, k, u, id) && !q.AddUser?
    ensures Agreed(Release(w, k, u, q, excused), k, id) && Leaves(Release(w, k, u, q, excused).weather, id)
  {
    hide Send, Update, InHand, Fit, Agreed, Leaves;
    var v := Send(w, q).0;
    SendAgrees(w, k, u, q, id);
    HandAgrees(v, k, u, id);
    SameRecordFits(v, k, u, u.(status := None), id);
    UpdateAgrees(v, k, u, u.(status := None), id);
  }

  lemma SendSeals(w: W, k: Key, u: Resource, q: Request, ref: Key, secret: Secret, id: RemoteId)
    requires InHand(w, k, u, id) && Sealed(w, ref, secret)
    ensures Sealed(Send(w, q).0, ref, secret) && Send(w, q).0.minio.idp == w.minio.idp
  {
    hide Next, InHand, Server.Serve, Kept, Weathered;
    NextInHand(w, k, u, id);
    SealedLater(w, Next(w).0, ref, secret, id);
    ServeConfig(Next(w).0.minio, q);
  }

  lemma KeyedFits(w: W, k: Key, p: Resource, to: RemoteId, secret: Secret, id: RemoteId)
    requires p.status.Some? && p.status.value.accessKey != "" && to == Target(w.minio.idp, p.status.value, k.namespace)
    requires Sealed(w, p.status.value.secretKeyRef.Target(k.namespace), secret) && p.stamp == secret.version
    requires to == id ==> Keyed(w, id, secret.Field(p.status.value.secretKeyRef.key))
    ensures Fit(w, k, p, id)
  {
  }

  /** The key of `secret` is set, then its version recorded. */
  lemma AdoptAgrees(w: W, k: Key, u: Resource, p: Resource, to: RemoteId, secret: Secret, id: RemoteId)
    requires InHand(w, k, u, id) && p.status.Some? && p.status.value.accessKey != ""
    requires to == Target(w.minio.idp, p.status.value, k.namespace)
    requires Sealed(w, p.status.value.secretKeyRef.Target(k.namespace), secret) && p.stamp == secret.version
    requires to == id && u.status.Some? ==> Spent(w, u.status.value.secretKeyRef.Target(k.namespace), u.stamp)
    ensures
      var v := Adopt(w, k, p, AddUser(to, secret.Field(p.status.value.secretKeyRef.key)), {});
      Agreed(v, k, id) && Leaves(v.weather, id)
  {
    hide Send, Update, InHand, Fit, Agreed, Leaves, Sealed, Target, Later;
    var q := AddUser(to, secret.Field(p.status.value.secretKeyRef.key));
    var v := Send(w, q).0;
    SendAgrees(w, k, u, q, id);
    HandAgrees(v, k, u, id);
    if Send(w, q).1 == Nil {
      SendSeals(w, k, u, q, p.status.value.secretKeyRef.Target(k.namespace), secret, id);
      KeyedFits(v, k, p, to, secret, id);
      UpdateAgrees(v, k, u, p, id);
    }
  }

  lemma AccessKeyInHand(w: W, k: Key, u: Resource, spec: UserSpec, id: RemoteId)
    requires InHand(w, k, u, id)
    ensures InHand(AccessKey(w, spec, k.namespace).0, k, u, id)
    ensures AccessKey(w, spec, k.namespace).0.minio.idp == w.minio.idp
  {
    hide InHand, AccessKey, Ask;
    AskInHand(w, k, u, id);
  }

  lemma LiveSealed(w: W, ref: Key)
    requires w.Valid() && ref in w.secrets
    ensures Sealed(w, ref, w.secrets[ref])
  {
  }

  /** A recorded version that is not the live one is spent. */
  lemma StaleSpent(w: W, k: Key, u: Resource, ref: Key, id: RemoteId)
    requires InHand(w, k, u, id) && ref in w.secrets && w.secrets[ref].version != u.stamp
    ensures Spent(w, ref, u.stamp) && Sealed(w, ref, w.secrets[ref])
  {
    hide Held, Leaves;
  }

  lemma LaterIdp(w: W, w1: W, w2: W, w3: W, id: RemoteId)
    requires Later(w, w1, id) && Later(w1, w2, id) && Later(w2, w3, id)
    ensures w3.minio.idp == w2.minio.idp == w1.minio.idp == w.minio.idp
  {
  }

  lemma CompareAgrees(w: W, k: Key, u: Resource, id: RemoteId)
    requires InHand(w, k, u, id) && u.status.Some?
    ensures Agreed(Compare(w, k, u), k, id) && Leaves(Compare(w, k, u).weather, id)
  {
    hide Ask, Send, Update, InHand, Agreed, Leaves, Match, AccessKey, Later, Adopt, Sealed, Spent;
    var spec := u.status.value;
    var w1 := Ask(w).0;
    AskInHand(w, k, u, id);
    HandAgrees(w1, k, u, id);
    assert spec.(accessKey := spec.accessKey) == spec && AccessKey(w1, spec, k.namespace) == (w1, Nil, spec.accessKey);
    var w2 := Ask(w1).0;
    AskInHand(w1, k, u, id);
    HandAgrees(w2, k, u, id);
    SameRecordFits(w2, k, u, u.(status := None), id);
    UpdateAgrees(w2, k, u, u.(status := None), id);
    var w3 := Ask(w2).0;
    AskInHand(w2, k, u, id);
    HandAgrees(w3, k, u, id);
    var ref := spec.secretKeyRef.Target(k.namespace);
    if ref in w3.secrets && w3.secrets[ref].version != u.stamp {
      StaleSpent(w3, k, u, ref, id);
      LaterIdp(w, w1, w2, w3, id);
      AdoptAgrees(w3, k, u, u.(stamp := w3.secrets[ref].version), Target(w1.minio.idp, spec, k.namespace),
          w3.secrets[ref], id);
    }
  }

  lemma CheckAgrees(w: W, k: Key, u: Resource, id: RemoteId)
    requires InHand(w, k, u, id) && u.status.Some?
    ensures Agreed(Check(w, k, u), k, id) && Leaves(Check(w, k, u).weather, id)
  {
    hide Update, InHand, Agreed, Leaves, Fit, Compare;
    HandAgrees(w, k, u, id);
    SameRecordFits(w, k, u, Settled(u), id);
    UpdateAgrees(w, k, u, Settled(u), id);
    assert Update(w, k, Settled(u)).2.status == u.status;
    var (w1, err, u1) := if u.spec.migrate then Update(w, k, Settled(u)) else (w, Nil, u);
    if err == Nil { CompareAgrees(w1, k, u1, id); }
  }

  lemma LaterRefl(w: W, id: RemoteId)
    ensures Later(w, w, id)
  {
  }

  lemma AgreedValid(w: W, k: Key, id: RemoteId)
    requires Agreed(w, k, id)
    ensures w.Valid()
  {
  }

  lemma CreateAgrees(w: W, k: Key, u: Resource, id: RemoteId)
    requires InHand(w, k, u, id) && u.status.None?
    ensures Agreed(Create(w, k, u), k, id) && Leaves(Create(w, k, u).weather, id)
  {
    hide Ask, Send, Update, InHand, Agreed, Leaves, Fit, AccessKey, Later, Adopt, Sealed, Spent, World.Valid;
    var w1 := Ask(w).0;
    AskInHand(w, k, u, id);
    HandAgrees(w1, k, u, id);
    var (w2, err, accessKey) := AccessKey(w1, u.spec, k.namespace);
    AccessKeyInHand(w1, k, u, u.spec, id);
    HandAgrees(w2, k, u, id);
    var w3 := Ask(w2).0;
    AskInHand(w2, k, u, id);
    HandAgrees(w3, k, u, id);
    var w4 := Ask(w3).0;
    AskInHand(w3, k, u, id);
    HandAgrees(w4, k, u, id);
    var ref := u.spec.secretKeyRef.Target(k.namespace);
    if err == Nil && ref in w4.secrets {
      LaterRefl(w2, id);
      LaterIdp(w2, w2, w3, w4, id);
      assert w4.Valid() by { AgreedValid(w4, k, id); }
      LiveSealed(w4, ref);
      AdoptAgrees(w4, k, u, Created(u, accessKey, w4.secrets[ref].version),
          Target(w2.minio.idp, u.spec.(accessKey := accessKey), k.namespace), w4.secrets[ref], id);
    }
  }

  lemma TeardownAgrees(w: W, k: Key, u: Resource, id: RemoteId)
    requires InHand(w, k, u, id)
    ensures Agreed(Teardown(w, k, u), k, id) && Leaves(Teardown(w, k, u).weather, id)
  {
    hide Ask, Update, InHand, Agreed, Leaves, Fit, AccessKey, Later, Release;
    HandAgrees(w, k, u, id);
    SameRecordFits(w, k, u, u.(finalizer := false), id);
    UpdateAgrees(w, k, u, u.(finalizer := false), id);
    if u.status.Some? {
      var w1 := Ask(w).0;
      AskInHand(w, k, u, id);
      HandAgrees(w1, k, u, id);
      var (w2, err, accessKey) := AccessKey(w1, u.status.value, k.namespace);
      AccessKeyInHand(w1, k, u, u.status.value, id);
      HandAgrees(w2, k, u, id);
      ReleaseAgrees(w2, k, u, RemoveUser(Target(w2.minio.idp, u.status.value.(accessKey := accessKey), k.namespace)),
          {NoSuchUser}, id);
    }
  }

  lemma PassAgrees(w: W, k: Key, id: RemoteId)
    requires Agreed(w, k, id) && Leaves(w.weather, id)
    ensures Agreed(Pass(w, k), k, id)
  {
    hide Next, Update, Fit, Leaves, Check, Create, Teardown, World.Valid, Along, Weathered, Held;
    var v := Ask(w).0;
    NextAgrees(w, k, id);
    if Ask(w).1 == Nil && k in v.objects {
      var u := v.objects[k];
      GetBegins(w, k);
      assert InHand(v, k, u, id);
      TeardownAgrees(v, k, u, id);
      SameRecordFits(v, k, u, u.(finalizer := true), id);
      UpdateAgrees(v, k, u, u.(finalizer := true), id);
      if u.status.Some? { CheckAgrees(v, k, u, id); } else { CreateAgrees(v, k, u, id); }
    }
  }

  lemma {:induction false} RunAgrees(w: W, turns: seq<Turn<UserSpec>>, k: Key, id: RemoteId)
    requires Agreed(w, k, id)
    requires forall t | t in turns :: t.key == k && Leaves(t.weather, id)
    ensures Agreed(Play(Pass, w, turns), k, id)
    decreases |turns|
  {
    hide World.Valid, Pass, Leaves;
    if turns != [] {
      var u := Begin(w, turns[0]);
      assert turns[0] in turns;
      ValidReweather(w, turns[0].weather);
      PassAgrees(u, k, id);
      RunAgrees(Pass(u, k), turns[1..], k, id);
    }
  }

  /**
   In every run over a user resource, with faults, with edits of the spec and of secrets, as long as
   nobody else sets the key of the user: whenever the recorded secret version is the live one, the
   server has the key of that secret.
   */
  lemma {:induction false} StampMeansAgreement(w: W, turns: seq<Turn<UserSpec>>, k: Key, id: RemoteId)
    requires w.Valid() && (k in w.objects ==> w.objects[k].status.None? && w.objects[k].stamp < w.clock)
    requires forall t | t in turns :: t.key == k && Leaves(t.weather, id)
    ensures
      var v := Play(Pass, w, turns);
      k in v.objects && v.objects[k].status.Some? &&
          Target(v.minio.idp, v.objects[k].status.value, k.namespace) == id ==>
        var spec := v.objects[k].status.value;
        Match(v, spec.secretKeyRef.Target(k.namespace), spec.secretKeyRef.key, v.objects[k].stamp, id)
  {
    hide World.Valid, Match, Pass, Leaves;
    RunAgrees(w, turns, k, id);
  }
}
