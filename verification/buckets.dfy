/** MinioBucket: internal/operator/minio_bucket_reconciler.go. */
module Buckets {
  import opened Prelude
  import opened Minio
  import opened Kube
  import opened Ownership
  import opened Branches
  import opened Clients
  import opened Runs

  datatype BucketSpec = BucketSpec(
    deletionPolicy: string,
    lifecycle: Option<Lifecycle>,
    migrate: bool,
    name: string,
    tenantRef: ResourceRef,
    versioning: Option<Versioning>)

  const ALWAYS := "Always"
  const IF_EMPTY := "IfEmpty"

  type W = World<BucketSpec>
  type Resource = Object<BucketSpec>

  /** The bucket a spec names, for a resource in namespace `ns`. */
  function Target(idp: Idp, spec: BucketSpec, ns: string): RemoteId {
    RemoteId(spec.tenantRef.SetDefaultNamespace(ns), spec.name)
  }

  const KIND: Kind<BucketSpec, RemoteId, Bucket> :=
    Kind(Target, (s: BucketSpec) => s.migrate, (s: BucketSpec) => s.migrate,
        (m: Server) => m.buckets, Part.Buckets, (w: W, k: Key) => true)

  function Settled(b: Resource): Resource {
    b.(spec := b.spec.(migrate := false))
  }

  function Created(b: Resource): Resource {
    Settled(b).(status := Some(Settled(b).spec))
  }

  /** The value of an optional setting, an absent one counting as the empty value. */
  function NilToEmpty<T>(v: Option<T>, zero: T): T {
    if v.Some? then v.value else zero
  }

  /** What is written for a versioning setting: once a bucket is versioned, absence means suspension. */
  function WrittenVersioning(v: Option<Versioning>): Versioning {
    NilToEmpty(v, SUSPENDED)
  }

  function WrittenLifecycle(l: Option<Lifecycle>): Lifecycle {
    NilToEmpty(l, NO_LIFECYCLE)
  }

  /** Deletion removes what the bucket holds only under the policy `Always`; no policy means `IfEmpty`. */
  function Forces(spec: BucketSpec): bool {
    (if spec.deletionPolicy == "" then IF_EMPTY else spec.deletionPolicy) == ALWAYS
  }

  function Teardown(w: W, k: Key, b: Resource): W {
    if b.status.None? then Update(w, k, b.(finalizer := false)).0 else
    var (w, err) := Ask(w);                                     // get tenant client
    if err != Nil then w else
    Release(w, k, b, RemoveBucket(Target(w.minio.idp, b.status.value, k.namespace), Forces(b.status.value)),
        {NoSuchBucket})
  }

  /** The versioning on record is put right, then the one asked for is written and recorded. */
  function ReviseVersioning(w: W, k: Key, b: Resource): (r: (W, Err, Resource))
    requires b.status.Some?
    ensures r.2.status.Some?
  {
    var id := Target(w.minio.idp, b.status.value, k.namespace);
    var (w, err) := Ask(w);                                     // get bucket versioning
    if err != Nil then (w, err, b) else
    if id !in w.minio.buckets then (w, NoSuchBucket, b) else
    var recorded, wanted := b.status.value.versioning, b.spec.versioning;
    var (w, err) :=
      if w.minio.buckets[id].versioning != NilToEmpty(recorded, NO_VERSIONING)
      then Send(w, SetBucketVersioning(id, WrittenVersioning(recorded))) else (w, Nil);
    if err != Nil then (w, err, b) else
    if wanted == recorded then (w, Nil, b) else
    var (w, err) := Send(w, SetBucketVersioning(id, WrittenVersioning(wanted)));
    if err != Nil then (w, err, b) else
    Update(w, k, b.(status := Some(b.status.value.(versioning := wanted))))
  }

  function ReviseLifecycle(w: W, k: Key, b: Resource): (r: (W, Err, Resource))
    requires b.status.Some?
    ensures r.2.status.Some?
  {
    var id := Target(w.minio.idp, b.status.value, k.namespace);
    var (w, err) := Ask(w);                                     // get bucket lifecycle
    if err != Nil then (w, err, b) else
    if id !in w.minio.buckets then (w, NoSuchBucket, b) else
    var recorded, wanted := b.status.value.lifecycle, b.spec.lifecycle;
    var (w, err) :=
      if w.minio.buckets[id].lifecycle != NilToEmpty(recorded, NO_LIFECYCLE)
      then Send(w, SetBucketLifecycle(id, WrittenLifecycle(recorded))) else (w, Nil);
    if err != Nil then (w, err, b) else
    if wanted == recorded then (w, Nil, b) else
    var (w, err) := Send(w, SetBucketLifecycle(id, WrittenLifecycle(wanted)));
    if err != Nil then (w, err, b) else
    Update(w, k, b.(status := Some(b.status.value.(lifecycle := wanted))))
  }

  /** Versioning, lifecycle and deletion policy of a bucket that exists. */
  function Revise(w: W, k: Key, b: Resource): W
    requires b.status.Some?
  {
    var (w, err, b) := ReviseVersioning(w, k, b);
    if err != Nil then w else
    var (w, err, b) := ReviseLifecycle(w, k, b);
    if err != Nil || b.status.value.deletionPolicy == b.spec.deletionPolicy then w
    else Update(w, k, b.(status := Some(b.status.value.(deletionPolicy := b.spec.deletionPolicy)))).0
  }

  function Compare(w: W, k: Key, b: Resource): W
    requires b.status.Some?
  {
    var (w, err) := Ask(w);                                     // get tenant client
    if err != Nil then w else
    var (w, err) := Ask(w);                                     // check if the bucket exists
    if err != Nil then w
    else if Target(w.minio.idp, b.status.value, k.namespace) !in w.minio.buckets then Update(w, k, b.(status := None)).0
    else Revise(w, k, b)
  }

  function Check(w: W, k: Key, b: Resource): W
    requires b.status.Some?
  {
    var (w, err, b) := if b.spec.migrate then Update(w, k, Settled(b)) else (w, Nil, b);
    if err != Nil then w else Compare(w, k, b)
  }

  /** The settings of a bucket that was just made, and its record. */
  function Furnish(w: W, k: Key, b: Resource, id: RemoteId): W {
    var (w, err) := if b.spec.versioning.Some? then Send(w, SetBucketVersioning(id, b.spec.versioning.value))
        else (w, Nil);
    if err != Nil then w else
    var (w, err) := if b.spec.lifecycle.Some? then Send(w, SetBucketLifecycle(id, b.spec.lifecycle.value))
        else (w, Nil);
    if err != Nil then w else
    Update(w, k, Created(b)).0
  }

  function Create(w: W, k: Key, b: Resource): W {
    var (w, err) := Ask(w);                                     // get tenant client
    if err != Nil then w else
    var id := Target(w.minio.idp, b.spec, k.namespace);
    var (w, err) := Send(w, MakeBucket(id));
    if (if b.spec.migrate then Ignore(err, BucketAlreadyOwnedByYou) else err) != Nil then w else
    Furnish(w, k, b, id)
  }

  /** One reconciliation of the bucket resource under `k`. */
  function Pass(w: W, k: Key): W {
    var (w, err) := Ask(w);                                     // get the resource
    if err != Nil || k !in w.objects then w else
    var b := w.objects[k];
    if b.deleting then Teardown(w, k, b)
    else if !b.finalizer then Update(w, k, b.(finalizer := true)).0
    else if b.status.Some? then Check(w, k, b)
    else Create(w, k, b)
  }

  lemma KindLawful()
    ensures Lawful(KIND)
  {
  }

  lemma RemoveBucketRemoves(idp: Idp, id: RemoteId, force: bool)
    ensures Removes(KIND, idp, RemoveBucket(id, force), {NoSuchBucket}, id)
  {
  }

  lemma MakeAlters(idp: Idp, id: RemoteId)
    ensures Alters(KIND, idp, MakeBucket(id), id)
  {
  }

  lemma VersioningAlters(idp: Idp, id: RemoteId, v: Versioning)
    ensures Alters(KIND, idp, SetBucketVersioning(id, v), id)
  {
  }

  lemma LifecycleAlters(idp: Idp, id: RemoteId, l: Lifecycle)
    ensures Alters(KIND, idp, SetBucketLifecycle(id, l), id)
  {
  }

  lemma TeardownMoves(u: W, w: W, k: Key, g: Resource)
    requires Inv(View(KIND, u)) && Begun(u, w, k, g) && Reached(u, w, k, g, Part.Buckets)
    ensures Teardown(w, k, g).Valid() && Moves(View(KIND, u), View(KIND, Teardown(w, k, g)), k, ModeOf(KIND, u, k))
  {
    hide Next, Begun, Reached, Moves, View, Inv, Release, Ask, Makes, Removes, Update, Forces;
    KindLawful();
    ReadGuarded(KIND, u, w, k, g);
    if g.status.None? {
      PatchMoves(KIND, u, w, w, k, g, g, g.(finalizer := false));
    } else {
      var w1 := Ask(w).0;
      var id := Target(w1.minio.idp, g.status.value, k.namespace);
      AskReaches(u, w, k, g, Part.Buckets);
      StopMoves(KIND, u, w, w1, k, g, g);
      RemoveBucketRemoves(u.minio.idp, id, Forces(g.status.value));
      SameIdp(u, w1, k, g, Part.Buckets);
      ReleaseMoves(KIND, u, w, w1, k, g, g, RemoveBucket(id, Forces(g.status.value)), {NoSuchBucket}, id);
    }
  }

  lemma SeenBegins(u: W, w3: W, k: Key, g: Resource, g1: Resource, id: RemoteId)
    requires Reached(u, w3, k, g1, Part.Buckets) && g.status.Some? && id == Named(KIND, u, k, g.status.value)
    requires id in w3.minio.buckets
    ensures OnRecord(KIND, u, k, g, id) && Worked(KIND, u, w3, k, g1, id)
  {
    hide Calmly, Along, Held, Spares, WorkedOn, Lawful, OnRecord;
    KindLawful();
    SeenOnRecord(KIND, u, w3, k, g, id);
    ReachWorks(KIND, u, w3, k, g1, id);
  }

  /** Where a phase of the revision leaves the pass, for good or to go on. */
  ghost predicate Revised(u: W, k: Key, g: Resource, id: RemoteId, r: (W, Err, Resource)) {
    && r.0.Valid() && Moves(View(KIND, u), View(KIND, r.0), k, ModeOf(KIND, u, k))
    && (r.1 == Nil ==> Worked(KIND, u, r.0, k, r.2, id) && SameClaim(KIND, u, k, g, r.2) && r.2.status.Some?)
  }

  lemma Restamped(w: W, k: Key, p: Resource)
    ensures Update(w, k, p).2 == p.(version := Update(w, k, p).2.version)
  {
  }

  /** A phase that ends by recording the new setting. */
  lemma RecordRevises(u: W, w0: W, w: W, k: Key, g: Resource, g1: Resource, p: Resource, id: RemoteId)
    requires Inv(View(KIND, u)) && Begun(u, w0, k, g) && Worked(KIND, u, w, k, g1, id)
    requires OnRecord(KIND, u, k, g, id) && SameClaim(KIND, u, k, g, g1) && SameClaim(KIND, u, k, g, p)
    requires g1.status.Some? && p.status.Some? && p.version == g1.version && p.finalizer
    ensures Revised(u, k, g, id, Update(w, k, p))
  {
    hide Begun, Worked, Moves, View, Inv, OnRecord, Update;
    KindLawful();
    WorkPatchMoves(KIND, u, w0, w, k, g, g1, p, id);
    if Update(w, k, p).1 == Nil {
      UpdateWorks(KIND, u, w, k, g1, p, id);
      Restamped(w, k, p);
    }
  }

  /** The resource with another setting recorded makes the same claim. */
  lemma SettingKeepsClaim(
    u: W, k: Key, g: Resource, g1: Resource, v: Option<Versioning>, l: Option<Lifecycle>, d: string)
    requires SameClaim(KIND, u, k, g, g1) && g1.status.Some?
    ensures g1.finalizer && SameClaim(KIND, u, k, g, g1.(status := Some(g1.status.value.(versioning := v))))
    ensures SameClaim(KIND, u, k, g, g1.(status := Some(g1.status.value.(lifecycle := l))))
    ensures SameClaim(KIND, u, k, g, g1.(status := Some(g1.status.value.(deletionPolicy := d))))
    ensures Target(u.minio.idp, g1.status.value, k.namespace) == Target(u.minio.idp, g.status.value, k.namespace)
  {
  }

  lemma WorkRevises(u: W, w0: W, w: W, k: Key, g: Resource, g1: Resource, id: RemoteId)
    requires Inv(View(KIND, u)) && Begun(u, w0, k, g) && Worked(KIND, u, w, k, g1, id)
    requires OnRecord(KIND, u, k, g, id) && SameClaim(KIND, u, k, g, g1) && g1.status.Some?
    ensures forall err :: Revised(u, k, g, id, (w, err, g1))
  {
    hide Begun, Worked, Moves, View, Inv, OnRecord, SameClaim;
    KindLawful();
    WorkMoves(KIND, u, w0, w, k, g, g1, id);
  }

  lemma WorkedIdp(u: W, w: W, k: Key, g: Resource, id: RemoteId)
    requires Worked(KIND, u, w, k, g, id)
    ensures w.minio.idp == u.minio.idp
  {
    hide WorkedOn, Held;
  }

  lemma ReviseVersioningMoves(u: W, w0: W, w: W, k: Key, g: Resource, g1: Resource, id: RemoteId)
    requires Inv(View(KIND, u)) && Begun(u, w0, k, g) && Worked(KIND, u, w, k, g1, id)
    requires OnRecord(KIND, u, k, g, id) && SameClaim(KIND, u, k, g, g1) && g1.status.Some?
    ensures Revised(u, k, g, id, ReviseVersioning(w, k, g1))
  {
    hide Begun, Worked, Moves, View, Inv, Update, Ask, Send, SameClaim, Next, Alters, WrittenVersioning, Target;
    KindLawful();
    SettingKeepsClaim(u, k, g, g1, g1.spec.versioning, None, "");
    WorkedIdp(u, w, k, g1, id);
    assert id == Target(w.minio.idp, g1.status.value, k.namespace);
    hide OnRecord, NilToEmpty, Revised;
    var w1 := Ask(w).0;
    AskWorks(KIND, u, w, k, g1, id);
    WorkRevises(u, w0, w1, k, g, g1, id);
    var recorded, wanted := g1.status.value.versioning, g1.spec.versioning;
    VersioningAlters(u.minio.idp, id, WrittenVersioning(recorded));
    VersioningAlters(u.minio.idp, id, WrittenVersioning(wanted));
    var q := SetBucketVersioning(id, WrittenVersioning(recorded));
    SendWorks(KIND, u, w1, k, g1, q, id);
    WorkRevises(u, w0, Send(w1, q).0, k, g, g1, id);
    var w2 := if id in w1.minio.buckets && w1.minio.buckets[id].versioning != NilToEmpty(recorded, NO_VERSIONING)
        then Send(w1, q).0 else w1;
    var r := SetBucketVersioning(id, WrittenVersioning(wanted));
    SendWorks(KIND, u, w2, k, g1, r, id);
    WorkRevises(u, w0, Send(w2, r).0, k, g, g1, id);
    RecordRevises(u, w0, Send(w2, r).0, k, g, g1, g1.(status := Some(g1.status.value.(versioning := wanted))), id);
  }

  lemma ReviseLifecycleMoves(u: W, w0: W, w: W, k: Key, g: Resource, g1: Resource, id: RemoteId)
    requires Inv(View(KIND, u)) && Begun(u, w0, k, g) && Worked(KIND, u, w, k, g1, id)
    requires OnRecord(KIND, u, k, g, id) && SameClaim(KIND, u, k, g, g1) && g1.status.Some?
    ensures Revised(u, k, g, id, ReviseLifecycle(w, k, g1))
  {
    hide Begun, Worked, Moves, View, Inv, Update, Ask, Send, SameClaim, Next, Alters, WrittenLifecycle, Target;
    KindLawful();
    SettingKeepsClaim(u, k, g, g1, None, g1.spec.lifecycle, "");
    WorkedIdp(u, w, k, g1, id);
    assert id == Target(w.minio.idp, g1.status.value, k.namespace);
    hide OnRecord, NilToEmpty, Revised;
    var w1 := Ask(w).0;
    AskWorks(KIND, u, w, k, g1, id);
    WorkRevises(u, w0, w1, k, g, g1, id);
    var recorded, wanted := g1.status.value.lifecycle, g1.spec.lifecycle;
    LifecycleAlters(u.minio.idp, id, WrittenLifecycle(recorded));
    LifecycleAlters(u.minio.idp, id, WrittenLifecycle(wanted));
    var q := SetBucketLifecycle(id, WrittenLifecycle(recorded));
    SendWorks(KIND, u, w1, k, g1, q, id);
    WorkRevises(u, w0, Send(w1, q).0, k, g, g1, id);
    var w2 := if id in w1.minio.buckets && w1.minio.buckets[id].lifecycle != NilToEmpty(recorded, NO_LIFECYCLE)
        then Send(w1, q).0 else w1;
    var r := SetBucketLifecycle(id, WrittenLifecycle(wanted));
    SendWorks(KIND, u, w2, k, g1, r, id);
    WorkRevises(u, w0, Send(w2, r).0, k, g, g1, id);
    RecordRevises(u, w0, Send(w2, r).0, k, g, g1, g1.(status := Some(g1.status.value.(lifecycle := wanted))), id);
  }

  lemma ReviseMoves(u: W, w0: W, w: W, k: Key, g: Resource, g1: Resource, id: RemoteId)
    requires Inv(View(KIND, u)) && Begun(u, w0, k, g) && Worked(KIND, u, w, k, g1, id)
    requires OnRecord(KIND, u, k, g, id) && SameClaim(KIND, u, k, g, g1) && g1.status.Some?
    ensures Revise(w, k, g1).Valid() && Moves(View(KIND, u), View(KIND, Revise(w, k, g1)), k, ModeOf(KIND, u, k))
  {
    hide Begun, Worked, Moves, View, Inv, Update, SameClaim, OnRecord, ReviseVersioning, ReviseLifecycle;
    var (w1, e1, b1) := ReviseVersioning(w, k, g1);
    ReviseVersioningMoves(u, w0, w, k, g, g1, id);
    if e1 == Nil {
      var (w2, e2, b2) := ReviseLifecycle(w1, k, b1);
      ReviseLifecycleMoves(u, w0, w1, k, g, b1, id);
      if e2 == Nil {
        SettingKeepsClaim(u, k, g, b2, None, None, b2.spec.deletionPolicy);
        RecordRevises(u, w0, w2, k, g, b2,
            b2.(status := Some(b2.status.value.(deletionPolicy := b2.spec.deletionPolicy))), id);
      }
    }
  }

  lemma CompareMoves(u: W, w: W, w1: W, k: Key, g: Resource, g1: Resource)
    requires Inv(View(KIND, u)) && Begun(u, w, k, g) && Reached(u, w1, k, g1, Part.Buckets)
    requires g1.status.Some? && g1.status == g.status && SameClaim(KIND, u, k, g, g1)
    ensures Compare(w1, k, g1).Valid() && Moves(View(KIND, u), View(KIND, Compare(w1, k, g1)), k, ModeOf(KIND, u, k))
  {
    hide Next, Begun, Reached, Moves, View, Inv, Ask, Update, Revise, Worked;
    KindLawful();
    var w2 := Ask(w1).0;
    var w3 := Ask(w2).0;
    AskReaches(u, w1, k, g1, Part.Buckets);
    AskReaches(u, w2, k, g1, Part.Buckets);
    StopMoves(KIND, u, w, w2, k, g, g1);
    StopMoves(KIND, u, w, w3, k, g, g1);
    SameIdp(u, w3, k, g1, Part.Buckets);
    var id := Target(w3.minio.idp, g1.status.value, k.namespace);
    if id !in w3.minio.buckets {
      ForgetMoves(KIND, u, w, w3, k, g, g1);
    } else {
      SeenBegins(u, w3, k, g, g1, id);
      ReviseMoves(u, w, w3, k, g, g1, id);
    }
  }

  lemma CheckMoves(u: W, w: W, k: Key, g: Resource)
    requires Inv(View(KIND, u)) && Begun(u, w, k, g) && Reached(u, w, k, g, Part.Buckets) && g.status.Some?
    ensures Check(w, k, g).Valid() && Moves(View(KIND, u), View(KIND, Check(w, k, g)), k, ModeOf(KIND, u, k))
  {
    hide Next, Begun, Reached, Moves, View, Inv, Update, Compare;
    KindLawful();
    ReadGuarded(KIND, u, w, k, g);
    PatchMoves(KIND, u, w, w, k, g, g, Settled(g));
    var (w1, err, g1) := if g.spec.migrate then Update(w, k, Settled(g)) else (w, Nil, g);
    if err == Nil {
      if g.spec.migrate { UpdateReaches(u, w, k, g, Settled(g), Part.Buckets); }
      CompareMoves(u, w, w1, k, g, g1);
    }
  }

  /** A bucket made by this pass was not there before. */
  lemma MakeMoves(u: W, w0: W, w: W, k: Key, g: Resource, id: RemoteId)
    requires Inv(View(KIND, u)) && Begun(u, w0, k, g) && Reached(u, w, k, g, Part.Buckets)
    requires g.status.None? && g.finalizer
    ensures var (v, err) := Send(w, MakeBucket(id));
      && v.Valid() && Moves(View(KIND, u), View(KIND, v), k, ModeOf(KIND, u, k)) && Worked(KIND, u, v, k, g, id)
      && (err == Nil && Spares(u.weather, Part.Buckets, true) ==> id !in u.minio.buckets)
      && (u.weather.Calm? && err in {Nil, BucketAlreadyOwnedByYou} ==> id in v.minio.buckets)
  {
    hide Begun, Worked, Moves, View, Inv, Next, Along, Held, Calmly, Spares, Lawful, Alters, Drifted;
    KindLawful();
    var x, v := Next(w).0, Send(w, MakeBucket(id)).0;
    NextAlways(w);
    CalmRemote(KIND, u, x);
    MakeAlters(u.minio.idp, id);
    ReachWorks(KIND, u, w, k, g, id);
    SendWorks(KIND, u, w, k, g, MakeBucket(id), id);
    if id in x.minio.buckets {
      assert v == Ask(w).0;
      AskReaches(u, w, k, g, Part.Buckets);
      StopMoves(KIND, u, w0, v, k, g, g);
    } else {
      AbandonMoves(KIND, u, w0, v, k, g, id);
    }
  }

  /** The pass has made the bucket `id` and goes on to furnish it. */
  ghost predicate Made(u: W, w0: W, w: W, k: Key, g: Resource, id: RemoteId) {
    && Inv(View(KIND, u)) && Begun(u, w0, k, g) && Worked(KIND, u, w, k, g, id)
    && g.status.None? && g.finalizer && id == Named(KIND, u, k, g.spec)
    && (Spares(u.weather, Part.Buckets, true) && Plain(KIND, u, k) ==> id !in u.minio.buckets)
    && (u.weather.Calm? ==> id in w.minio.buckets)
  }

  lemma MadeStops(u: W, w0: W, w: W, k: Key, g: Resource, id: RemoteId)
    requires Made(u, w0, w, k, g, id)
    ensures w.Valid() && Moves(View(KIND, u), View(KIND, w), k, ModeOf(KIND, u, k))
  {
    hide Begun, Moves, Plain, View, Inv, Spares, Worked;
    KindLawful();
    AbandonMoves(KIND, u, w0, w, k, g, id);
  }

  lemma MadeCommits(u: W, w0: W, w: W, k: Key, g: Resource, id: RemoteId)
    requires Made(u, w0, w, k, g, id)
    ensures var v := Update(w, k, Created(g)).0; v.Valid() && Moves(View(KIND, u), View(KIND, v), k, ModeOf(KIND, u, k))
  {
    hide Begun, Moves, Plain, View, Inv, Spares, Worked, Update;
    KindLawful();
    CommitMoves(KIND, u, w0, w, k, g, Created(g), id);
  }

  lemma SendStays(u: W, w0: W, w: W, k: Key, g: Resource, q: Request, id: RemoteId)
    requires Made(u, w0, w, k, g, id) && Alters(KIND, u.minio.idp, q, id)
    ensures Made(u, w0, Send(w, q).0, k, g, id)
  {
    hide Along, Held, WorkedOn, Next, Server.Serve, Begun, Plain, View, Inv, Spares;
    KindLawful();
    SendWorks(KIND, u, w, k, g, q, id);
    AlongIdp(u, w, k);
  }

  lemma FurnishMoves(u: W, w0: W, w: W, k: Key, g: Resource, id: RemoteId)
    requires Made(u, w0, w, k, g, id)
    ensures Furnish(w, k, g, id).Valid()
    ensures Moves(View(KIND, u), View(KIND, Furnish(w, k, g, id)), k, ModeOf(KIND, u, k))
  {
    hide Moves, View, Send, Alters, Update, Made, Created;
    var q := SetBucketVersioning(id, NilToEmpty(g.spec.versioning, NO_VERSIONING));
    var r := SetBucketLifecycle(id, NilToEmpty(g.spec.lifecycle, NO_LIFECYCLE));
    VersioningAlters(u.minio.idp, id, NilToEmpty(g.spec.versioning, NO_VERSIONING));
    LifecycleAlters(u.minio.idp, id, NilToEmpty(g.spec.lifecycle, NO_LIFECYCLE));
    SendStays(u, w0, w, k, g, q, id);
    var w1 := if g.spec.versioning.Some? then Send(w, q).0 else w;
    MadeStops(u, w0, w1, k, g, id);
    SendStays(u, w0, w1, k, g, r, id);
    var w2 := if g.spec.lifecycle.Some? then Send(w1, r).0 else w1;
    MadeStops(u, w0, w2, k, g, id);
    MadeCommits(u, w0, w2, k, g, id);
  }

  lemma CreateMoves(u: W, w: W, k: Key, g: Resource)
    requires Inv(View(KIND, u)) && Begun(u, w, k, g) && Reached(u, w, k, g, Part.Buckets)
    requires g.finalizer && g.status.None? && (Plain(KIND, u, k) ==> !g.spec.migrate)
    ensures Create(w, k, g).Valid() && Moves(View(KIND, u), View(KIND, Create(w, k, g)), k, ModeOf(KIND, u, k))
  {
    hide Next, Begun, Reached, Moves, Plain, View, Inv, Ask, Send, Spares, Worked, Furnish;
    var w1 := Ask(w).0;
    var id := Target(w1.minio.idp, g.spec, k.namespace);
    KindLawful();
    AskReaches(u, w, k, g, Part.Buckets);
    StopMoves(KIND, u, w, w1, k, g, g);
    var (w2, err) := Send(w1, MakeBucket(id));
    MakeMoves(u, w, w1, k, g, id);
    SameIdp(u, w1, k, g, Part.Buckets);
    if (if g.spec.migrate then Ignore(err, BucketAlreadyOwnedByYou) else err) == Nil {
      FurnishMoves(u, w, w2, k, g, id);
    }
  }

  lemma PassMoves(u: W, k: Key)
    requires u.Valid() && Inv(View(KIND, u))
    ensures Pass(u, k).Valid() && Moves(View(KIND, u), View(KIND, Pass(u, k)), k, ModeOf(KIND, u, k))
  {
    hide Next, Begun, Reached, Moves, View, Inv, Ask, Update, Check, Create, Teardown, Plain;
    KindLawful();
    var w := Ask(u).0;
    GetBegins(u, k);
    if Ask(u).1 != Nil || k !in w.objects {
      IdleMoves(KIND, u, w, k);
    } else {
      var g := w.objects[k];
      BeginReaches(u, w, k, g, Part.Buckets);
      if g.deleting {
        TeardownMoves(u, w, k, g);
      } else if !g.finalizer {
        ReadGuarded(KIND, u, w, k, g);
        PatchMoves(KIND, u, w, w, k, g, g, g.(finalizer := true));
      } else if g.status.Some? {
        CheckMoves(u, w, k, g);
      } else {
        if Plain(KIND, u, k) { AskPlain(KIND, u, k); }
        CreateMoves(u, w, k, g);
      }
    }
  }

  /** Whatever the weather, a pass over a bucket resource is a move of the ownership protocol. */
  lemma PassRefines()
    ensures Refines(Pass, KIND)
  {
    hide Pass, Moves, View, Inv, ModeOf;
    forall w: W, k: Key | w.Valid() && Inv(View(KIND, w))
      ensures Pass(w, k).Valid() && Moves(View(KIND, w), View(KIND, Pass(w, k)), k, ModeOf(KIND, w, k))
    {
      PassMoves(w, k);
    }
  }

  class Reconciler {
    const client: Client<BucketSpec>
    var b: Resource                                             // the resource in the hands of the pass

    constructor (client: Client<BucketSpec>)
      ensures this.client == client
    {
      this.client := client;
      b := Object(BucketSpec("", None, false, "", ResourceRef("", ""), None), None, 0, false, false, 0);
    }

    /** Puts the versioning on record right and moves on to the versioning asked for. */
    method CorrectVersioning(req: Key) returns (err: Err)
      requires b.status.Some?
      modifies client, this`b
      ensures (client.State(), err) == (ReviseVersioning(old(client.State()), req, old(b)).0,
          ReviseVersioning(old(client.State()), req, old(b)).1)
      ensures err == Nil ==> b == ReviseVersioning(old(client.State()), req, old(b)).2
    {
      hide Next, Store, Send, Update, Server.Serve;
      var id := Target(client.minio.idp, b.status.value, req.namespace);
      var remote, config;
      err, remote := client.GetBucketVersioning(id);
      if err != Nil { return; }
      if remote != NilToEmpty(b.status.value.versioning, NO_VERSIONING) {
        config := SUSPENDED;
        if b.status.value.versioning.Some? { config := b.status.value.versioning.value; }
        err := client.Request(SetBucketVersioning(id, config));
        if err != Nil { return; }
      }
      if b.spec.versioning != b.status.value.versioning {
        config := SUSPENDED;
        if b.spec.versioning.Some? { config := b.spec.versioning.value; }
        err := client.Request(SetBucketVersioning(id, config));
        if err != Nil { return; }
        b := b.(status := Some(b.status.value.(versioning := b.spec.versioning)));
        err, b := client.Put(req, b);
      }
    }

    /** Puts the lifecycle on record right and moves on to the lifecycle asked for. */
    method CorrectLifecycle(req: Key) returns (err: Err)
      requires b.status.Some?
      modifies client, this`b
      ensures (client.State(), err) == (ReviseLifecycle(old(client.State()), req, old(b)).0,
          ReviseLifecycle(old(client.State()), req, old(b)).1)
      ensures err == Nil ==> b == ReviseLifecycle(old(client.State()), req, old(b)).2
    {
      hide Next, Store, Send, Update, Server.Serve;
      var id := Target(client.minio.idp, b.status.value, req.namespace);
      var found, remote, config;
      err, found := client.GetBucketLifecycle(id);
      err := Ignore(err, NoSuchLifecycleConfiguration);
      if err != Nil { return; }
      remote := NO_LIFECYCLE;
      if found.Some? { remote := found.value; }
      if remote != NilToEmpty(b.status.value.lifecycle, NO_LIFECYCLE) {
        config := NO_LIFECYCLE;
        if b.status.value.lifecycle.Some? { config := b.status.value.lifecycle.value; }
        err := client.Request(SetBucketLifecycle(id, config));
        if err != Nil { return; }
      }
      if b.spec.lifecycle != b.status.value.lifecycle {
        config := NO_LIFECYCLE;
        if b.spec.lifecycle.Some? { config := b.spec.lifecycle.value; }
        err := client.Request(SetBucketLifecycle(id, config));
        if err != Nil { return; }
        b := b.(status := Some(b.status.value.(lifecycle := b.spec.lifecycle)));
        err, b := client.Put(req, b);
      }
    }

    /** Reconciles the bucket resource under `req`. */
    method Reconcile(req: Key)
      modifies client, this`b
      ensures client.State() == Pass(old(client.State()), req)
    {
      hide Next, Store, Ask, Send, Update, ReviseVersioning, ReviseLifecycle, Server.Serve;
      var err, found := client.Get(req);
      if err != Nil { return; }
      b := found.value;

      if b.deleting {
        if b.status.Some? {
          err := client.Read();                                 // get tenant client
          if err != Nil { return; }
          var dp := b.status.value.deletionPolicy;
          if dp == "" { dp := IF_EMPTY; }
          err := client.Request(RemoveBucket(Target(client.minio.idp, b.status.value, req.namespace), dp == ALWAYS));
          err := Ignore(err, NoSuchBucket);
          if err != Nil { return; }
          b := b.(status := None);
          err, b := client.Put(req, b);
          return;
        }
        b := b.(finalizer := false);
        err, b := client.Put(req, b);
        return;
      }

      if !b.finalizer {
        b := b.(finalizer := true);
        err, b := client.Put(req, b);
        return;
      }

      if b.status.Some? {
        if b.spec.migrate {
          b := b.(spec := b.spec.(migrate := false));
          err, b := client.Put(req, b);
          if err != Nil { return; }
        }
        err := client.Read();                                   // get tenant client
        if err != Nil { return; }
        var be;
        err, be := client.BucketExists(Target(client.minio.idp, b.status.value, req.namespace));
        if err != Nil { return; }
        if !be {
          b := b.(status := None);
          err, b := client.Put(req, b);
          return;
        }
        err := CorrectVersioning(req);
        if err != Nil { return; }
        err := CorrectLifecycle(req);
        if err != Nil { return; }
        if b.status.value.deletionPolicy != b.spec.deletionPolicy {
          b := b.(status := Some(b.status.value.(deletionPolicy := b.spec.deletionPolicy)));
          err, b := client.Put(req, b);
        }
        return;
      }

      if b.status.None? {
        err := client.Read();                                   // get tenant client
        if err != Nil { return; }
        var id := Target(client.minio.idp, b.spec, req.namespace);
        err := client.Request(MakeBucket(id));
        if b.spec.migrate { err := Ignore(err, BucketAlreadyOwnedByYou); }
        if err != Nil { return; }
        if b.spec.versioning.Some? {
          err := client.Request(SetBucketVersioning(id, b.spec.versioning.value));
          if err != Nil { return; }
        }
        if b.spec.lifecycle.Some? {
          err := client.Request(SetBucketLifecycle(id, b.spec.lifecycle.value));
          if err != Nil { return; }
        }
        b := b.(spec := b.spec.(migrate := false));
        b := b.(status := Some(b.spec));
        err, b := client.Put(req, b);
      }
    }
  }
}
