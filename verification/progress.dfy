/** What calls do when no call fails and nobody interferes. */
module Calmness {
  import opened Prelude
  import opened Minio
  import opened Kube

  lemma CalmUpdate<S(!new)>(w: World<S>, k: Key, o: Object<S>)
    requires w.Valid() && w.weather.Calm? && k in w.objects && o.version == w.objects[k].version
    requires (o.finalizer || !o.deleting)
    ensures var (v, err, p) := Update(w, k, o);
      && err == Nil && v.Valid() && v == w.(objects := v.objects, clock := v.clock)
      && k in v.objects && v.objects[k] == p == o.(version := p.version)
  {
    hide Next, Weathered, Along, Held, Written;
  }

  /** The world with `o` stored under `k` at a new version. */
  function Stored<S(==)>(w: World<S>, k: Key, o: Object<S>): World<S> {
    w.(objects := w.objects[k := o.(version := w.clock)], clock := w.clock + 1)
  }

  lemma CalmStored<S(!new)>(w: World<S>, k: Key, o: Object<S>)
    requires w.Valid() && w.weather.Calm? && k in w.objects && o.version == w.objects[k].version
    requires (o.finalizer || !o.deleting)
    requires o != w.objects[k]
    ensures Update(w, k, o).0 == Stored(w, k, o) && Stored(w, k, o).Valid()
  {
    hide Next, Weathered, Along, Held, Written;
  }

  /** A resource marked for deletion goes with its finalizer. */
  lemma CalmDrop<S(!new)>(w: World<S>, k: Key)
    requires w.Valid() && w.weather.Calm? && k in w.objects && w.objects[k].deleting && w.objects[k].finalizer
    ensures Update(w, k, w.objects[k].(finalizer := false)).0 == w.(objects := w.objects - {k})
  {
    hide Next, Weathered, Along, Held, Written;
  }

  /** The next call of a storm in which nobody else acts. */
  lemma StormNext<S>(w: World<S>)
    requires w.weather.Storm? && (w.weather.beats != [] ==> w.weather.beats[0].acts == [])
    ensures Next(w) == if w.weather.beats == [] then (w, Lost)
        else (w.(weather := Storm(w.weather.beats[1..])), w.weather.beats[0].fate)
  {
  }

  /** `n` calls succeed, then all are lost. */
  function Cut<S>(n: nat): (t: Weather<S>)
    ensures t.Storm? && |t.beats| == n && forall b | b in t.beats :: b == Beat([], Done)
  {
    Storm(seq(n, _ => Beat([], Done)))
  }

  lemma CutNext<S>(w: World<S>, n: nat)
    requires w.weather == Cut(n)
    ensures Next(w) == if n == 0 then (w, Lost) else (w.(weather := Cut(n - 1)), Done)
  {
    StormNext(w);
    if n > 0 { assert w.weather.beats[1..] == Cut<S>(n - 1).beats; }
  }

  lemma CalmSend<S(!new)>(w: World<S>, q: Request)
    requires w.Valid() && w.weather.Calm?
    ensures var (v, err) := Send(w, q);
      v.Valid() && v == w.(minio := w.minio.Serve(q).0) && err == w.minio.Serve(q).1 && v.minio.idp == w.minio.idp
  {
    hide Next, Weathered, Along, Held, Server.Serve;
    ServeConfig(w.minio, q);
  }
}

/**
 Left alone, with no faults and no edits, every pass over a group resource makes headway, until the
 group is there or somebody else's group is in the way.
 */
module GroupProgress {
  import opened Prelude
  import opened Minio
  import opened Kube
  import opened Groups
  import opened Calmness

  predicate Exists(w: W, k: Key, spec: GroupSpec) {
    Target(w.minio.idp, spec, k.namespace) in w.minio.groups
  }

  /** The resource has its group and asks for nothing more. */
  predicate Converged(w: W, k: Key) {
    k in w.objects && var g := w.objects[k];
    g.finalizer && g.status.Some? && !g.spec.migrate && Exists(w, k, g.status.value)
  }

  /** Somebody else's group is in the way. */
  predicate Blocked(w: W, k: Key) {
    k in w.objects && var g := w.objects[k];
    g.finalizer && g.status.None? && !g.spec.migrate && Exists(w, k, g.spec)
  }

  /** Passes that remain, at most. */
  function Rank(w: W, k: Key): nat
    requires k in w.objects
  {
    var g := w.objects[k];
    if Converged(w, k) || Blocked(w, k) then 0
    else if !g.finalizer then 3
    else if g.status.Some? && !Exists(w, k, g.status.value) then 2
    else 1
  }

  ghost predicate Undisturbed(w: W, k: Key) {
    w.Valid() && w.weather.Calm? && k in w.objects && !w.objects[k].deleting
  }

  lemma Progress(w: W, k: Key)
    requires Undisturbed(w, k)
    ensures var v := Pass(w, k);
      if Converged(w, k) || Blocked(w, k) then v == w
      else Undisturbed(v, k) && Rank(v, k) < Rank(w, k)
  {
    hide Next, Weathered, Along, Held, Written, World.Valid;
  }

  lemma AppliedValid(w: W, k: Key, spec: GroupSpec)
    requires w.Valid()
    ensures Apply1(w, k, spec).Valid()
  {
  }

  /**
   A create pass whose commit is lost leaves a group behind that no status names, and that keeps the
   resource from its group until migration is asked for.
   */
  lemma LostCommitBlocks(w: W, k: Key)
    requires Undisturbed(w, k) && w.objects[k].finalizer && w.objects[k].status.None? && !w.objects[k].spec.migrate
    requires !Exists(w, k, w.objects[k].spec)
    ensures var v := Pass(w.(weather := Cut(4)), k).(weather := Calm);
      && Blocked(v, k) && Pass(v, k) == v
      && var m := Apply1(v, k, w.objects[k].spec.(migrate := true)); Converged(Pass(m, k), k)
  {
    hide Next, Weathered, Along, Held, Written, World.Valid, Kept, Server.Valid;
    var g := w.objects[k];
    var id := Target(w.minio.idp, g.spec, k.namespace);
    var x := w.(minio := w.minio.Serve(AddGroup(id)).0);
    CutNext(w.(weather := Cut(4)), 4);
    CutNext(w.(weather := Cut(3)), 3);
    CutNext(w.(weather := Cut(2)), 2);
    CutNext(w.(weather := Cut(1)), 1);
    CutNext(x.(weather := Cut(0)), 0);
    assert Pass(w.(weather := Cut(4)), k) == x.(weather := Cut(0));
    CalmSend(w.(weather := Calm), AddGroup(id));
    var v := x.(weather := Calm);
    Progress(v, k);
    var m := Apply1(v, k, g.spec.(migrate := true));
    assert m.Valid() by { AppliedValid(v, k, g.spec.(migrate := true)); }
    Progress(m, k);
  }

  /** The server will not remove a group that has members. */
  predicate Refused(w: W, k: Key) {
    k in w.objects && w.objects[k].status.Some? &&
    var id := Target(w.minio.idp, w.objects[k].status.value, k.namespace);
    id in w.minio.groups && exists m | m in w.minio.members :: m.group == id
  }

  /** A resource marked for deletion is gone after two passes, and its group with it, unless the server refuses. */
  lemma DeletionCompletes(w: W, k: Key)
    requires w.Valid() && w.weather.Calm? && k in w.objects && w.objects[k].deleting && w.objects[k].finalizer
    ensures var v := Pass(Pass(w, k), k);
      if Refused(w, k) then v == w
      else k !in v.objects && (w.objects[k].status.Some? ==> !Exists(v, k, w.objects[k].status.value))
  {
    hide Next, Weathered, Along, Held, Written, World.Valid, Create, Check;
  }

  /** The resource has lost its remote object behind the operator's back. */
  predicate Missing(w: W, k: Key) {
    k in w.objects && w.objects[k].finalizer && w.objects[k].status.Some? &&
    var g := w.objects[k];
    !Exists(w, k, g.status.value)
  }

  /** A lost remote object is back after two passes, if its prerequisites hold and its place is free. */
  lemma LostIsRemade(w: W, k: Key)
    requires Undisturbed(w, k) && Missing(w, k)
    requires !Blocked(w.(objects := w.objects[k := Settled(w.objects[k]).(status := None)]), k)
    ensures Undisturbed(Pass(Pass(w, k), k), k) && Converged(Pass(Pass(w, k), k), k)
  {
    hide Next, Weathered, Along, Held, Written, World.Valid;
    Progress(w, k);
    Progress(Pass(w, k), k);
  }
}

/** The same for buckets: headway towards a bucket with the settings of the spec. */
module BucketProgress {
  import opened Prelude
  import opened Minio
  import opened Kube
  import opened Buckets
  import opened Calmness
  import BucketSettings

  predicate Exists(w: W, k: Key, spec: BucketSpec) {
    Target(w.minio.idp, spec, k.namespace) in w.minio.buckets
  }

  /** The resource has its bucket, and a revision would change neither the bucket nor the record. */
  predicate Converged(w: W, k: Key) {
    k in w.objects && var b := w.objects[k];
    b.finalizer && b.status.Some? && !b.spec.migrate && Exists(w, k, b.status.value) &&
    var remote := w.minio.buckets[Target(w.minio.idp, b.status.value, k.namespace)];
    BucketSettings.EndBucket(remote, b.status.value, b.spec) == remote
        && BucketSettings.EndRecord(b.status.value, b.spec) == b.status.value
  }

  /** Somebody else's bucket is in the way. */
  predicate Blocked(w: W, k: Key) {
    k in w.objects && var b := w.objects[k];
    b.finalizer && b.status.None? && !b.spec.migrate && Exists(w, k, b.spec)
  }

  /** Passes that remain, at most; an adopted bucket may need a revision of its own. */
  function Rank(w: W, k: Key): nat
    requires k in w.objects
  {
    var b := w.objects[k];
    if Converged(w, k) || Blocked(w, k) then 0
    else if !b.finalizer then 3
    else if b.status.Some? && !Exists(w, k, b.status.value) then 2
    else if b.status.None? && Exists(w, k, b.spec) then 2
    else 1
  }

  ghost predicate Undisturbed(w: W, k: Key) {
    w.Valid() && w.weather.Calm? && k in w.objects && !w.objects[k].deleting
  }

  /** The world with other settings on one bucket. */
  function Furnished(w: W, id: RemoteId, bucket: Bucket): W {
    w.(minio := w.minio.(buckets := w.minio.buckets[id := bucket]))
  }

  /** A pass holds `b`, whose bucket is `id`. */
  ghost predicate Ready(w: W, k: Key, b: Resource, id: RemoteId) {
    && Undisturbed(w, k) && w.objects[k] == b && b.finalizer && b.status.Some?
    && id == Target(w.minio.idp, b.status.value, k.namespace) && id in w.minio.buckets
  }

  lemma FurnishedReady(w: W, k: Key, b: Resource, id: RemoteId, bucket: Bucket)
    requires Ready(w, k, b, id)
    ensures Ready(Furnished(w, id, bucket), k, b, id)
  {
  }

  lemma SetVersioningCalm(w: W, k: Key, id: RemoteId, v: Versioning)
    requires Undisturbed(w, k) && id in w.minio.buckets
    ensures var (x, err) := Send(w, SetBucketVersioning(id, v));
      && err == Nil && Undisturbed(x, k)
      && x == w.(minio := w.minio.(buckets := w.minio.buckets[id := w.minio.buckets[id].(versioning := v)]))
  {
    hide Next, Send, World.Valid;
    CalmSend(w, SetBucketVersioning(id, v));
  }

  /** Where spec and status agree, the versioning on record is restored. */
  lemma RestoreVersioningCalm(w: W, k: Key, b: Resource, id: RemoteId)
    requires Ready(w, k, b, id) && b.spec.versioning == b.status.value.versioning
    ensures var remote, end := w.minio.buckets[id],
        BucketSettings.EndVersioning(w.minio.buckets[id].versioning, b.status.value.versioning, b.spec.versioning);
      ReviseVersioning(w, k, b) == (Furnished(w, id, remote.(versioning := end)), Nil, b)
  {
    hide Next, Ask, Send, Update, Store, World.Valid, Kept, Weathered, Server.Serve, Target;
    SetVersioningCalm(w, k, id, WrittenVersioning(b.status.value.versioning));
    if w.minio.buckets[id].versioning == NilToEmpty(b.status.value.versioning, NO_VERSIONING) {
      assert ReviseVersioning(w, k, b) == (w, Nil, b);
      assert w.minio.buckets[id := w.minio.buckets[id]] == w.minio.buckets;
    } else {
      var x := Send(w, SetBucketVersioning(id, WrittenVersioning(b.status.value.versioning))).0;
      assert ReviseVersioning(w, k, b) == (x, Nil, b);
    }
  }

  lemma ReplaceVersioningCalm(w: W, k: Key, b: Resource, id: RemoteId)
    requires Ready(w, k, b, id) && b.spec.versioning != b.status.value.versioning
    ensures var end :=
        BucketSettings.EndVersioning(w.minio.buckets[id].versioning, b.status.value.versioning, b.spec.versioning);
      ReviseVersioning(w, k, b) == Update(Furnished(w, id, w.minio.buckets[id].(versioning := end)),
          k, b.(status := Some(b.status.value.(versioning := b.spec.versioning))))
  {
    hide Next, Ask, Send, Update, Store, World.Valid, Kept, Weathered, Server.Serve, Target;
    var recorded, wanted := b.status.value.versioning, b.spec.versioning;
    SetVersioningCalm(w, k, id, WrittenVersioning(recorded));
    var w1 := if w.minio.buckets[id].versioning == NilToEmpty(recorded, NO_VERSIONING) then w
        else Send(w, SetBucketVersioning(id, WrittenVersioning(recorded))).0;
    SetVersioningCalm(w1, k, id, WrittenVersioning(wanted));
    assert Send(w1, SetBucketVersioning(id, WrittenVersioning(wanted))).0.minio.buckets ==
        w.minio.buckets[id := w.minio.buckets[id].(versioning := WrittenVersioning(wanted))];
  }

  lemma ReviseVersioningCalm(w: W, k: Key, b: Resource, id: RemoteId)
    requires Ready(w, k, b, id)
    ensures var (v, err, p) := ReviseVersioning(w, k, b);
      var remote, end := w.minio.buckets[id], BucketSettings.EndVersioning(w.minio.buckets[id].versioning,
          b.status.value.versioning, b.spec.versioning);
      && err == Nil && Ready(v, k, p, id) && v.minio == Furnished(w, id, remote.(versioning := end)).minio
      && p == b.(status := Some(b.status.value.(versioning := b.spec.versioning)), version := p.version)
      && (b.status.value.versioning == b.spec.versioning && end == remote.versioning ==> v == w)
  {
    hide Next, Ask, Send, Update, Store, World.Valid, Kept, Weathered, Server.Serve, ReviseVersioning;
    hide BucketSettings.EndVersioning, WrittenLifecycle;
    var end := BucketSettings.EndVersioning(w.minio.buckets[id].versioning, b.status.value.versioning,
        b.spec.versioning);
    if b.spec.versioning == b.status.value.versioning {
      RestoreVersioningCalm(w, k, b, id);
      assert w.minio.buckets[id := w.minio.buckets[id]] == w.minio.buckets;
      FurnishedReady(w, k, b, id, w.minio.buckets[id].(versioning := end));
    } else {
      ReplaceVersioningCalm(w, k, b, id);
      FurnishedReady(w, k, b, id, w.minio.buckets[id].(versioning := end));
      CalmUpdate(Furnished(w, id, w.minio.buckets[id].(versioning := end)),
          k, b.(status := Some(b.status.value.(versioning := b.spec.versioning))));
    }
  }

  lemma SetLifecycleCalm(w: W, k: Key, id: RemoteId, l: Lifecycle)
    requires Undisturbed(w, k) && id in w.minio.buckets
    ensures var (x, err) := Send(w, SetBucketLifecycle(id, l));
      && err == Nil && Undisturbed(x, k)
      && x == w.(minio := w.minio.(buckets := w.minio.buckets[id := w.minio.buckets[id].(lifecycle := l)]))
  {
    hide Next, Send, World.Valid;
    CalmSend(w, SetBucketLifecycle(id, l));
  }

  /** Where spec and status agree, the lifecycle on record is restored. */
  lemma RestoreLifecycleCalm(w: W, k: Key, b: Resource, id: RemoteId)
    requires Ready(w, k, b, id) && b.spec.lifecycle == b.status.value.lifecycle
    ensures var remote, end := w.minio.buckets[id], WrittenLifecycle(b.spec.lifecycle);
      ReviseLifecycle(w, k, b) == (Furnished(w, id, remote.(lifecycle := end)), Nil, b)
  {
    hide Next, Ask, Send, Update, Store, World.Valid, Kept, Weathered, Server.Serve, Target;
    SetLifecycleCalm(w, k, id, WrittenLifecycle(b.status.value.lifecycle));
    if w.minio.buckets[id].lifecycle == NilToEmpty(b.status.value.lifecycle, NO_LIFECYCLE) {
      assert ReviseLifecycle(w, k, b) == (w, Nil, b);
      assert w.minio.buckets[id := w.minio.buckets[id]] == w.minio.buckets;
    } else {
      var x := Send(w, SetBucketLifecycle(id, WrittenLifecycle(b.status.value.lifecycle))).0;
      assert ReviseLifecycle(w, k, b) == (x, Nil, b);
    }
  }

  lemma ReplaceLifecycleCalm(w: W, k: Key, b: Resource, id: RemoteId)
    requires Ready(w, k, b, id) && b.spec.lifecycle != b.status.value.lifecycle
    ensures var end := WrittenLifecycle(b.spec.lifecycle);
      ReviseLifecycle(w, k, b) == Update(Furnished(w, id, w.minio.buckets[id].(lifecycle := end)),
          k, b.(status := Some(b.status.value.(lifecycle := b.spec.lifecycle))))
  {
    hide Next, Ask, Send, Update, Store, World.Valid, Kept, Weathered, Server.Serve, Target;
    var recorded, wanted := b.status.value.lifecycle, b.spec.lifecycle;
    SetLifecycleCalm(w, k, id, WrittenLifecycle(recorded));
    var w1 := if w.minio.buckets[id].lifecycle == NilToEmpty(recorded, NO_LIFECYCLE) then w
        else Send(w, SetBucketLifecycle(id, WrittenLifecycle(recorded))).0;
    SetLifecycleCalm(w1, k, id, WrittenLifecycle(wanted));
    assert Send(w1, SetBucketLifecycle(id, WrittenLifecycle(wanted))).0.minio.buckets ==
        w.minio.buckets[id := w.minio.buckets[id].(lifecycle := WrittenLifecycle(wanted))];
  }

  lemma ReviseLifecycleCalm(w: W, k: Key, b: Resource, id: RemoteId)
    requires Ready(w, k, b, id)
    ensures var (v, err, p) := ReviseLifecycle(w, k, b);
      var remote, end := w.minio.buckets[id], WrittenLifecycle(b.spec.lifecycle);
      && err == Nil && Ready(v, k, p, id) && v.minio == Furnished(w, id, remote.(lifecycle := end)).minio
      && p == b.(status := Some(b.status.value.(lifecycle := b.spec.lifecycle)), version := p.version)
      && (b.status.value.lifecycle == b.spec.lifecycle && end == remote.lifecycle ==> v == w)
  {
    hide Next, Ask, Send, Update, Store, World.Valid, Kept, Weathered, Server.Serve, ReviseLifecycle;
    hide BucketSettings.EndVersioning, WrittenLifecycle;
    var end := WrittenLifecycle(b.spec.lifecycle);
    if b.spec.lifecycle == b.status.value.lifecycle {
      RestoreLifecycleCalm(w, k, b, id);
      assert w.minio.buckets[id := w.minio.buckets[id]] == w.minio.buckets;
      FurnishedReady(w, k, b, id, w.minio.buckets[id].(lifecycle := end));
    } else {
      ReplaceLifecycleCalm(w, k, b, id);
      FurnishedReady(w, k, b, id, w.minio.buckets[id].(lifecycle := end));
      CalmUpdate(Furnished(w, id, w.minio.buckets[id].(lifecycle := end)),
          k, b.(status := Some(b.status.value.(lifecycle := b.spec.lifecycle))));
    }
  }

  lemma ReviseProgress(w: W, k: Key, b: Resource)
    requires Undisturbed(w, k) && w.objects[k] == b && b.finalizer && b.status.Some? && !b.spec.migrate
    requires Exists(w, k, b.status.value)
    ensures var v := Revise(w, k, b);
      if Converged(w, k) then v == w else Undisturbed(v, k) && Converged(v, k)
  {
    hide Next, Ask, Send, Update, Store, World.Valid, Kept, Weathered, Server.Serve, ReviseVersioning, ReviseLifecycle;
    var id := Target(w.minio.idp, b.status.value, k.namespace);
    ReviseVersioningCalm(w, k, b, id);
    var (w1, _, b1) := ReviseVersioning(w, k, b);
    ReviseLifecycleCalm(w1, k, b1, id);
    var (w2, _, b2) := ReviseLifecycle(w1, k, b1);
    CalmUpdate(w2, k, b2.(status := Some(b2.status.value.(deletionPolicy := b2.spec.deletionPolicy))));
  }

  /** The resource has lost its remote object behind the operator's back. */
  predicate Missing(w: W, k: Key) {
    k in w.objects && w.objects[k].finalizer && w.objects[k].status.Some? &&
    var b := w.objects[k];
    !Exists(w, k, b.status.value)
  }

  /** All that has changed is that the record is gone, and the migrate flag with it. */
  ghost predicate Forgotten(w: W, v: W, k: Key)
    requires k in w.objects
  {
    && Undisturbed(v, k) && v == w.(objects := v.objects, clock := v.clock)
    && v.objects[k] == Settled(w.objects[k]).(status := None, version := v.objects[k].version)
  }

  lemma CheckProgress(w: W, k: Key, b: Resource)
    requires Undisturbed(w, k) && w.objects[k] == b && b.finalizer && b.status.Some?
    ensures var v := Check(w, k, b);
      if Converged(w, k) || Blocked(w, k) then v == w else Undisturbed(v, k) && Rank(v, k) < Rank(w, k)
    ensures Missing(w, k) ==> Forgotten(w, Check(w, k, b), k)
  {
    hide Next, Ask, Send, Update, Store, World.Valid, Kept, Weathered, Server.Serve, Revise, BucketSettings.EndBucket;
    hide BucketSettings.EndRecord, Target;
    CalmUpdate(w, k, Settled(b));
    var (w1, _, b1) := if b.spec.migrate then Update(w, k, Settled(b)) else (w, Nil, b);
    if Exists(w, k, b.status.value) {
      ReviseProgress(w1, k, b1);
    } else {
      CalmUpdate(w1, k, b1.(status := None));
    }
  }

  /** A bucket that was just made has the settings of the spec when its resource records it. */
  lemma FurnishCalm(w: W, k: Key, b: Resource, id: RemoteId)
    requires Undisturbed(w, k) && w.objects[k] == b && b.finalizer && b.status.None?
    requires id == Target(w.minio.idp, b.spec, k.namespace) && id in w.minio.buckets
    ensures var v := Furnish(w, k, b, id);
      Undisturbed(v, k) && Rank(v, k) <= 1 && (w.minio.buckets[id] == NEW_BUCKET ==> Converged(v, k))
  {
    hide Next, Ask, Send, Update, Store, World.Valid, Kept, Weathered, Server.Serve;
    var remote := w.minio.buckets[id];
    var v := NilToEmpty(b.spec.versioning, remote.versioning);
    var l := NilToEmpty(b.spec.lifecycle, remote.lifecycle);
    assert w.minio.buckets[id := remote] == w.minio.buckets;
    SetVersioningCalm(w, k, id, v);
    var w1 := Furnished(w, id, remote.(versioning := v));
    SetLifecycleCalm(w1, k, id, l);
    var w2 := Furnished(w, id, remote.(versioning := v, lifecycle := l));
    assert w2.minio.buckets == w1.minio.buckets[id := w1.minio.buckets[id].(lifecycle := l)];
    assert Furnish(w, k, b, id) == Update(w2, k, Created(b)).0;
    CalmUpdate(w2, k, Created(b));
  }

  lemma CreateProgress(w: W, k: Key, b: Resource)
    requires Undisturbed(w, k) && w.objects[k] == b && b.finalizer && b.status.None?
    ensures var v := Create(w, k, b);
      if Converged(w, k) || Blocked(w, k) then v == w else Undisturbed(v, k) && Rank(v, k) < Rank(w, k)
    ensures !Exists(w, k, b.spec) ==> Converged(Create(w, k, b), k)
  {
    hide Next, Ask, Send, Update, Store, World.Valid, Kept, Weathered, Furnish;
    var id := Target(w.minio.idp, b.spec, k.namespace);
    CalmSend(w, MakeBucket(id));
    if !Blocked(w, k) {
      FurnishCalm(Send(w, MakeBucket(id)).0, k, b, id);
    }
  }

  lemma Progress(w: W, k: Key)
    requires Undisturbed(w, k)
    ensures var v := Pass(w, k);
      if Converged(w, k) || Blocked(w, k) then v == w
      else Undisturbed(v, k) && Rank(v, k) < Rank(w, k)
  {
    hide Next, Ask, Send, Update, Store, World.Valid, Check, Create, Kept, Weathered, BucketSettings.EndBucket;
    hide BucketSettings.EndRecord;
    var b := w.objects[k];
    CalmUpdate(w, k, b.(finalizer := true));
    if b.finalizer {
      if b.status.Some? { CheckProgress(w, k, b); } else { CreateProgress(w, k, b); }
    }
  }

  /** The server will not remove a bucket that holds something, unless it is forced to. */
  predicate Refused(w: W, k: Key) {
    k in w.objects && w.objects[k].status.Some? && Exists(w, k, w.objects[k].status.value) &&
    !w.minio.buckets[Target(w.minio.idp, w.objects[k].status.value, k.namespace)].empty
        && w.objects[k].status.value.deletionPolicy != ALWAYS
  }

  /** A resource marked for deletion is gone after two passes, and its bucket with it, unless the server refuses. */
  lemma DeletionCompletes(w: W, k: Key)
    requires w.Valid() && w.weather.Calm? && k in w.objects && w.objects[k].deleting && w.objects[k].finalizer
    ensures var v := Pass(Pass(w, k), k);
      if Refused(w, k) then v == w
      else k !in v.objects && (w.objects[k].status.Some? ==> !Exists(v, k, w.objects[k].status.value))
  {
    hide Next, Weathered, Along, Held, Written, World.Valid, Create, Check;
  }

  /** A lost remote object is back after two passes, if its prerequisites hold and its place is free. */
  lemma LostIsRemade(w: W, k: Key)
    requires Undisturbed(w, k) && Missing(w, k)
    requires !Blocked(w.(objects := w.objects[k := Settled(w.objects[k]).(status := None)]), k)
    ensures Undisturbed(Pass(Pass(w, k), k), k) && Converged(Pass(Pass(w, k), k), k)
  {
    hide Next, Ask, Send, Update, Store, World.Valid, Kept, Weathered, Check, Create, Target, BucketSettings.EndBucket;
    hide BucketSettings.EndRecord;
    CheckProgress(w, k, w.objects[k]);
    var v := Pass(w, k);
    CreateProgress(v, k, v.objects[k]);
  }
}

/** The same for users. */
module UserProgress {
  import opened Prelude
  import opened Minio
  import opened Kube
  import opened Users
  import opened Calmness

  predicate Exists(w: W, k: Key, spec: UserSpec) {
    Target(w.minio.idp, spec, k.namespace) in w.minio.users
  }

  /** The secret that holds the secret key of the user. */
  predicate HasSecret(w: W, k: Key, spec: UserSpec) {
    spec.secretKeyRef.Target(k.namespace) in w.secrets
  }

  /** The resource has its user, under the secret key of the present secret. */
  predicate Converged(w: W, k: Key) {
    k in w.objects && var u := w.objects[k];
    u.finalizer && u.status.Some? && !u.spec.migrate && Exists(w, k, u.status.value) && HasSecret(w, k, u.status.value)
    && w.secrets[u.status.value.secretKeyRef.Target(k.namespace)].version == u.stamp
  }

  /** Somebody else's user is in the way, or a secret is missing. */
  predicate Blocked(w: W, k: Key) {
    k in w.objects && var u := w.objects[k];
    u.finalizer &&
    if u.status.Some? then !u.spec.migrate && Exists(w, k, u.status.value) && !HasSecret(w, k, u.status.value)
    else
      var (_, err, accessKey) := AccessKey(w, u.spec, k.namespace);
      || err != Nil
      || (!u.spec.migrate && Exists(w, k, u.spec.(accessKey := accessKey)))
      || !HasSecret(w, k, u.spec)
  }

  function Rank(w: W, k: Key): nat
    requires k in w.objects
  {
    var u := w.objects[k];
    if Converged(w, k) || Blocked(w, k) then 0
    else if !u.finalizer then 3
    else if u.status.Some? && !Exists(w, k, u.status.value) then 2
    else 1
  }

  /** A recorded access key is never empty; see Users.PassRefines. */
  ghost predicate Undisturbed(w: W, k: Key) {
    && w.Valid() && w.weather.Calm? && k in w.objects && !w.objects[k].deleting
    && (w.objects[k].status.Some? ==> w.objects[k].status.value.accessKey != "")
  }

  /** The resource has lost its remote object behind the operator's back. */
  predicate Missing(w: W, k: Key) {
    k in w.objects && w.objects[k].finalizer && w.objects[k].status.Some? &&
    var u := w.objects[k];
    !Exists(w, k, u.status.value)
  }

  /** All that has changed is that the record is gone, and the migrate flag with it. */
  ghost predicate Forgotten(w: W, v: W, k: Key)
    requires k in w.objects
  {
    && Undisturbed(v, k) && v == w.(objects := v.objects, clock := v.clock)
    && v.objects[k] == Settled(w.objects[k]).(status := None, version := v.objects[k].version)
  }

  lemma CompareProgress(w: W, k: Key, u: Resource)
    requires Undisturbed(w, k) && w.objects[k] == u && u.finalizer && u.status.Some? && !u.spec.migrate
    ensures var v := Compare(w, k, u);
      if Converged(w, k) || Blocked(w, k) then v == w
      else Undisturbed(v, k) && Rank(v, k) < Rank(w, k) && (Exists(w, k, u.status.value) ==> Converged(v, k))
    ensures Missing(w, k) ==> Forgotten(w, Compare(w, k, u), k)
  {
    hide Next, Ask, Send, Update, Store, World.Valid, Kept, Weathered;
    var spec := u.status.value;
    var id, ref := Target(w.minio.idp, spec, k.namespace), spec.secretKeyRef.Target(k.namespace);
    assert spec.(accessKey := spec.accessKey) == spec;
    CalmUpdate(w, k, u.(status := None));
    if ref in w.secrets {
      var q := AddUser(id, w.secrets[ref].Field(spec.secretKeyRef.key));
      CalmSend(w, q);
      CalmUpdate(Send(w, q).0, k, u.(stamp := w.secrets[ref].version));
    }
  }

  lemma CheckProgress(w: W, k: Key, u: Resource)
    requires Undisturbed(w, k) && w.objects[k] == u && u.finalizer && u.status.Some?
    ensures var v := Check(w, k, u);
      if Converged(w, k) || Blocked(w, k) then v == w else Undisturbed(v, k) && Rank(v, k) < Rank(w, k)
    ensures Missing(w, k) ==> Forgotten(w, Check(w, k, u), k)
  {
    hide Next, Ask, Send, Update, Store, World.Valid, Kept, Weathered, Compare;
    CalmUpdate(w, k, Settled(u));
    var (w1, _, u1) := if u.spec.migrate then Update(w, k, Settled(u)) else (w, Nil, u);
    CompareProgress(w1, k, u1);
  }

  lemma CreateProgress(w: W, k: Key, u: Resource)
    requires Undisturbed(w, k) && w.objects[k] == u && u.finalizer && u.status.None?
    ensures var v := Create(w, k, u);
      if Converged(w, k) || Blocked(w, k) then v == w else Undisturbed(v, k) && Converged(v, k)
  {
    hide Next, Ask, Send, Update, Store, World.Valid, Kept, Weathered, AccessKey;
    var (w1, err, accessKey) := AccessKey(w, u.spec, k.namespace);
    assert w1 == w;
    var id, ref := Target(w.minio.idp, u.spec.(accessKey := accessKey), k.namespace),
        u.spec.secretKeyRef.Target(k.namespace);
    if ref in w.secrets {
      var q := AddUser(id, w.secrets[ref].Field(u.spec.secretKeyRef.key));
      CalmSend(w, q);
      CalmUpdate(Send(w, q).0, k, Created(u, accessKey, w.secrets[ref].version));
    }
  }

  lemma Progress(w: W, k: Key)
    requires Undisturbed(w, k)
    ensures var v := Pass(w, k);
      if Converged(w, k) || Blocked(w, k) then v == w
      else Undisturbed(v, k) && Rank(v, k) < Rank(w, k)
  {
    hide Next, Ask, Send, Update, Store, World.Valid, Kept, Weathered, Check, Create, AccessKey;
    var u := w.objects[k];
    CalmUpdate(w, k, u.(finalizer := true));
    if u.finalizer {
      if u.status.Some? { CheckProgress(w, k, u); } else { CreateProgress(w, k, u); }
    }
  }

  lemma UserLeft(w: W, k: Key, u: Resource)
    requires w.Valid() && w.weather.Calm? && k in w.objects && w.objects[k] == u && u.deleting && u.finalizer
    requires u.status.Some? && u.status.value.accessKey != ""
    ensures var v := Teardown(w, k, u);
      && v.Valid() && v.weather.Calm? && k in v.objects
      && v.objects[k] == u.(status := None, version := v.objects[k].version)
      && !Exists(v, k, u.status.value)
  {
    hide Next, Ask, Send, Update, Store, World.Valid, Kept, Weathered;
    assert u.status.value.(accessKey := u.status.value.accessKey) == u.status.value;
    var q := RemoveUser(Target(w.minio.idp, u.status.value, k.namespace));
    CalmSend(w, q);
    CalmUpdate(Send(w, q).0, k, u.(status := None));
  }

  /** A resource marked for deletion is gone after two passes, and its user with it. */
  lemma DeletionCompletes(w: W, k: Key)
    requires w.Valid() && w.weather.Calm? && k in w.objects && w.objects[k].deleting && w.objects[k].finalizer
    requires w.objects[k].status.Some? ==> w.objects[k].status.value.accessKey != ""
    ensures var v := Pass(Pass(w, k), k);
      k !in v.objects && (w.objects[k].status.Some? ==> !Exists(v, k, w.objects[k].status.value))
  {
    hide Next, Ask, Send, Update, Store, World.Valid, Kept, Weathered, Create, Check;
    var u := w.objects[k];
    if u.status.Some? {
      UserLeft(w, k, u);
      CalmDrop(Pass(w, k), k);
    } else {
      CalmDrop(w, k);
    }
  }

  /** A lost remote object is back after two passes, if its prerequisites hold and its place is free. */
  lemma LostIsRemade(w: W, k: Key)
    requires Undisturbed(w, k) && Missing(w, k)
    requires !Blocked(w.(objects := w.objects[k := Settled(w.objects[k]).(status := None)]), k)
    ensures Undisturbed(Pass(Pass(w, k), k), k) && Converged(Pass(Pass(w, k), k), k)
  {
    hide Next, Ask, Send, Update, Store, World.Valid, Kept, Weathered, Check, Create, Target;
    CheckProgress(w, k, w.objects[k]);
    var v := Pass(w, k);
    CreateProgress(v, k, v.objects[k]);
  }
}

/** The same for policies. */
module PolicyProgress {
  import opened Prelude
  import opened Minio
  import opened Kube
  import opened Policies
  import opened PolicyForm
  import opened PolicyHash
  import opened Calmness

  predicate Exists(w: W, k: Key, spec: PolicySpec) {
    Target(w.minio.idp, spec, k.namespace) in w.minio.policies
  }

  /** The policy is there and says what the spec says. */
  predicate Converged(digest: Digest, w: W, k: Key) {
    k in w.objects && var p := w.objects[k];
    && p.finalizer && p.status.Some? && !p.spec.migrate && Exists(w, k, p.status.value)
    && p.status.value.Document() == p.spec.Document()
    && SameHash(digest, w.minio.policies[Target(w.minio.idp, p.status.value, k.namespace)], p.spec.Document())
  }

  /** Somebody else's policy is in the way. */
  predicate Blocked(w: W, k: Key) {
    k in w.objects && var p := w.objects[k];
    p.finalizer && p.status.None? && !p.spec.migrate && Exists(w, k, p.spec)
  }

  function Rank(digest: Digest, w: W, k: Key): nat
    requires k in w.objects
  {
    var p := w.objects[k];
    if Converged(digest, w, k) || Blocked(w, k) then 0
    else if !p.finalizer then 3
    else if p.status.Some? && !Exists(w, k, p.status.value) then 2
    else 1
  }

  ghost predicate Undisturbed(w: W, k: Key) {
    w.Valid() && w.weather.Calm? && k in w.objects && !w.objects[k].deleting
  }

  /** The resource has lost its remote object behind the operator's back. */
  predicate Missing(w: W, k: Key) {
    k in w.objects && w.objects[k].finalizer && w.objects[k].status.Some? &&
    var p := w.objects[k];
    !Exists(w, k, p.status.value)
  }

  /** All that has changed is that the record is gone, and the migrate flag with it. */
  ghost predicate Forgotten(w: W, v: W, k: Key)
    requires k in w.objects
  {
    && Undisturbed(v, k) && v == w.(objects := v.objects, clock := v.clock)
    && v.objects[k] == Settled(w.objects[k]).(status := None, version := v.objects[k].version)
  }

  lemma CompareProgress(digest: Digest, w: W, k: Key, p: Resource)
    requires Undisturbed(w, k) && w.objects[k] == p && p.finalizer && p.status.Some? && !p.spec.migrate
    ensures var v := Compare(digest, w, k, p);
      if Converged(digest, w, k) then v == w
      else
        && Undisturbed(v, k) && Rank(digest, v, k) < Rank(digest, w, k)
        && (Exists(w, k, p.status.value) ==> Converged(digest, v, k))
    ensures Missing(w, k) ==> Forgotten(w, Compare(digest, w, k, p), k)
  {
    hide Next, Ask, Send, Update, Store, World.Valid, Kept, Weathered, DocPreimage;
    var id := Target(w.minio.idp, p.status.value, k.namespace);
    CalmUpdate(w, k, p.(status := None));
    CalmSend(w, AddCannedPolicy(id, p.spec.Document()));
    CalmUpdate(Send(w, AddCannedPolicy(id, p.spec.Document())).0, k, Revised(p));
  }

  lemma CheckProgress(digest: Digest, w: W, k: Key, p: Resource)
    requires Undisturbed(w, k) && w.objects[k] == p && p.finalizer && p.status.Some?
    ensures var v := Check(digest, w, k, p);
      if Converged(digest, w, k) || Blocked(w, k) then v == w
      else Undisturbed(v, k) && Rank(digest, v, k) < Rank(digest, w, k)
    ensures Missing(w, k) ==> Forgotten(w, Check(digest, w, k, p), k)
  {
    hide Next, Ask, Send, Update, Store, World.Valid, Kept, Weathered, Compare, SameHash;
    CalmUpdate(w, k, Settled(p));
    var (w1, _, p1) := if p.spec.migrate then Update(w, k, Settled(p)) else (w, Nil, p);
    CompareProgress(digest, w1, k, p1);
  }

  lemma CreateProgress(digest: Digest, w: W, k: Key, p: Resource)
    requires Undisturbed(w, k) && w.objects[k] == p && p.finalizer && p.status.None?
    ensures var v := Create(w, k, p);
      if Converged(digest, w, k) || Blocked(w, k) then v == w else Undisturbed(v, k) && Converged(digest, v, k)
  {
    hide Next, Ask, Send, Update, Store, World.Valid, Kept, Weathered, DocPreimage;
    var q := AddCannedPolicy(Target(w.minio.idp, p.spec, k.namespace), p.spec.Document());
    CalmSend(w, q);
    CalmUpdate(Send(w, q).0, k, Created(p));
  }

  lemma Progress(digest: Digest, w: W, k: Key)
    requires Undisturbed(w, k)
    ensures var v := Pass(digest, w, k);
      if Converged(digest, w, k) || Blocked(w, k) then v == w
      else Undisturbed(v, k) && Rank(digest, v, k) < Rank(digest, w, k)
  {
    hide Next, Ask, Send, Update, Store, World.Valid, Kept, Weathered, Check, Create, SameHash;
    var p := w.objects[k];
    CalmUpdate(w, k, p.(finalizer := true));
    if p.finalizer {
      if p.status.Some? { CheckProgress(digest, w, k, p); } else { CreateProgress(digest, w, k, p); }
    }
  }

  /** The resource is to keep its policy as it recorded it; the documents at hand are plain and do not collide. */
  ghost predicate Comparable(digest: Digest, w: W, k: Key) {
    && Undisturbed(w, k) && var p := w.objects[k];
    && p.finalizer && p.status.Some? && !p.spec.migrate && p.status.value.Document() == p.spec.Document()
    && Exists(w, k, p.status.value)
    && var remote := w.minio.policies[Target(w.minio.idp, p.status.value, k.namespace)];
    PlainDoc(remote) && PlainDoc(p.spec.Document()) && NoCollision(digest, remote, p.spec.Document())
  }

  lemma SameAsItself(digest: Digest, d: Doc)
    ensures SameHash(digest, d, d)
  {
  }

  /** Plain policies without a collision are rewritten exactly if they really differ. */
  lemma RewrittenIfDifferent(digest: Digest, w: W, k: Key)
    requires Comparable(digest, w, k)
    ensures
      var p, v := w.objects[k], Pass(digest, w, k);
      var id := Target(w.minio.idp, p.status.value, k.namespace);
      && Converged(digest, v, k) && Equivalent(v.minio.policies[id], p.spec.Document())
      && (if Equivalent(w.minio.policies[id], p.spec.Document()) then v == w
          else v == w.(minio := w.minio.(policies := w.minio.policies[id := p.spec.Document()])))
  {
    hide Next, Ask, Send, Update, World.Valid, Kept, Weathered, SameHash, Forms, PlainStatement, NoCollision;
    var p := w.objects[k];
    var id := Target(w.minio.idp, p.status.value, k.namespace);
    HashCanonical(digest, w.minio.policies[id], p.spec.Document());
    CalmSend(w, AddCannedPolicy(id, p.status.value.Document()));
    assert SameHash(digest, p.spec.Document(), p.spec.Document()) by { SameAsItself(digest, p.spec.Document()); }
  }

  /** A policy with a comma where the spec has two actions is taken for the one wanted, and stays. */
  lemma ConfusedPolicyStays(digest: Digest, w: W, k: Key)
    requires Undisturbed(w, k) && w.objects[k].finalizer && !w.objects[k].spec.migrate
    requires w.objects[k].status == Some(w.objects[k].spec) && Exists(w, k, w.objects[k].spec)
    requires w.objects[k].spec.Document() == Doc("v", [Statement(["a", "b"], "Allow", ["r"])])
    requires w.minio.policies[Target(w.minio.idp, w.objects[k].spec, k.namespace)] ==
        Doc("v", [Statement(["a,b"], "Allow", ["r"])])
    ensures Pass(digest, w, k) == w
    ensures !Equivalent(w.minio.policies[Target(w.minio.idp, w.objects[k].spec, k.namespace)],
        w.objects[k].spec.Document())
  {
    hide Next, Ask, Send, Update, World.Valid, Kept, Weathered, Forms, DocPreimage;
    SeparatorsConfuse(digest);
  }

  /**
   A look for an existing policy that fails counts as having found none: then a pass overwrites and
   records a policy that was there, although nobody asked for migration.
   */
  lemma UnansweredLookOverwrites(digest: Digest, w: W, k: Key)
    requires Undisturbed(w, k) && w.objects[k].finalizer && w.objects[k].status.None? && !w.objects[k].spec.migrate
    requires Exists(w, k, w.objects[k].spec)
    ensures
      var p, id := w.objects[k], Target(w.minio.idp, w.objects[k].spec, k.namespace);
      var t := Storm([Beat([], Done), Beat([], Done), Beat([], Lost)] + Cut<PolicySpec>(2).beats);
      var v := Pass(digest, w.(weather := t), k);
      && id in v.minio.policies && v.minio.policies[id] == p.spec.Document()
      && k in v.objects && v.objects[k].status == Some(p.spec)
  {
    hide Next, Weathered, Along, Held, Written, World.Valid, Kept, Server.Valid;
    var p, id := w.objects[k], Target(w.minio.idp, w.objects[k].spec, k.namespace);
    var rest := Cut<PolicySpec>(2).beats;
    var t3, t2, t1 := Storm([Beat([], Done), Beat([], Done), Beat([], Lost)] + rest),
        Storm([Beat([], Done), Beat([], Lost)] + rest), Storm([Beat([], Lost)] + rest);
    assert t3.beats[1..] == t2.beats && t2.beats[1..] == t1.beats && t1.beats[1..] == rest;
    StormNext(w.(weather := t3));
    StormNext(w.(weather := t2));
    StormNext(w.(weather := t1));
    var q := AddCannedPolicy(id, p.spec.Document());
    var x := w.(minio := w.minio.Serve(q).0);
    CutNext(w.(weather := Cut(2)), 2);
    CutNext(x.(weather := Cut(1)), 1);
    assert p.spec.(migrate := false) == p.spec;
    assert Pass(digest, w.(weather := t3), k) == Update(x.(weather := Cut(1)), k, Created(p)).0;
  }

  /** The server will not remove a policy that is attached. */
  predicate Refused(w: W, k: Key) {
    k in w.objects && w.objects[k].status.Some? &&
    exists a | a in w.minio.attachments :: a.policy == Target(w.minio.idp, w.objects[k].status.value, k.namespace)
  }

  /** A resource marked for deletion is gone after two passes, and its policy with it, unless the server refuses. */
  lemma DeletionCompletes(digest: Digest, w: W, k: Key)
    requires w.Valid() && w.weather.Calm? && k in w.objects && w.objects[k].deleting && w.objects[k].finalizer
    ensures var v := Pass(digest, Pass(digest, w, k), k);
      if Refused(w, k) then v == w
      else k !in v.objects && (w.objects[k].status.Some? ==> !Exists(v, k, w.objects[k].status.value))
  {
    hide Next, Weathered, Along, Held, Written, World.Valid, Create, Check;
  }

  /** A lost remote object is back after two passes, if its prerequisites hold and its place is free. */
  lemma LostIsRemade(digest: Digest, w: W, k: Key)
    requires Undisturbed(w, k) && Missing(w, k)
    requires !Blocked(w.(objects := w.objects[k := Settled(w.objects[k]).(status := None)]), k)
    ensures Undisturbed(Pass(digest, Pass(digest, w, k), k), k) &&
        Converged(digest, Pass(digest, Pass(digest, w, k), k), k)
  {
    hide Next, Ask, Send, Update, Store, World.Valid, Kept, Weathered, Check, Create, Target, SameHash;
    CheckProgress(digest, w, k, w.objects[k]);
    var v := Pass(digest, w, k);
    CreateProgress(digest, v, k, v.objects[k]);
  }
}

/** The same for group bindings; a changed spec first ends the old membership. */
module GroupBindingProgress {
  import opened Prelude
  import opened Minio
  import opened Kube
  import opened GroupBindings
  import opened Calmness

  predicate Exists(w: W, k: Key, spec: GroupBindingSpec) {
    Target(w.minio.idp, spec, k.namespace) in w.minio.members
  }

  predicate HasGroup(w: W, k: Key, spec: GroupBindingSpec) {
    GroupId(spec, k.namespace) in w.minio.groups
  }

  predicate HasUser(w: W, k: Key, spec: GroupBindingSpec) {
    RemoteId(GroupId(spec, k.namespace).tenant, spec.user) in w.minio.users
  }

  predicate Converged(w: W, k: Key) {
    k in w.objects && var g := w.objects[k];
    g.finalizer && !g.spec.migrate && g.status == Some(g.spec) && Exists(w, k, g.spec)
  }

  /** The group or the user is missing, or somebody else's membership is in the way. */
  predicate Blocked(w: W, k: Key) {
    k in w.objects && var g := w.objects[k];
    g.finalizer &&
    if g.status.Some? then !g.spec.migrate && !HasGroup(w, k, g.status.value)
    else !HasGroup(w, k, g.spec) || !HasUser(w, k, g.spec) || (!g.spec.migrate && Exists(w, k, g.spec))
  }

  function Rank(w: W, k: Key): nat
    requires k in w.objects
  {
    var g := w.objects[k];
    if Converged(w, k) || Blocked(w, k) then 0
    else if !g.finalizer then 3
    else if g.status.Some? && HasGroup(w, k, g.status.value)
        && !(Exists(w, k, g.status.value) && g.status.value == Settled(g).spec) then 2
    else 1
  }

  ghost predicate Undisturbed(w: W, k: Key) {
    w.Valid() && w.weather.Calm? && k in w.objects && !w.objects[k].deleting
  }

  /** A membership has its group and its user. */
  lemma MembersKnown(w: W, k: Key, spec: GroupBindingSpec)
    requires w.Valid() && Exists(w, k, spec)
    ensures HasGroup(w, k, spec) && HasUser(w, k, spec)
  {
  }

  /** The resource has lost its remote object behind the operator's back. */
  predicate Missing(w: W, k: Key) {
    k in w.objects && w.objects[k].finalizer && w.objects[k].status.Some? &&
    var g := w.objects[k];
    HasGroup(w, k, g.status.value) && !Exists(w, k, g.status.value)
  }

  /** All that has changed is that the record is gone, and the migrate flag with it. */
  ghost predicate Forgotten(w: W, v: W, k: Key)
    requires k in w.objects
  {
    && Undisturbed(v, k) && v == w.(objects := v.objects, clock := v.clock)
    && v.objects[k] == Settled(w.objects[k]).(status := None, version := v.objects[k].version)
  }

  lemma CompareProgress(w: W, k: Key, g: Resource)
    requires Undisturbed(w, k) && w.objects[k] == g && g.finalizer && g.status.Some? && !g.spec.migrate
    ensures var v := Compare(w, k, g);
      if Converged(w, k) || Blocked(w, k) then v == w
      else Undisturbed(v, k) && Rank(v, k) < Rank(w, k)
    ensures Missing(w, k) ==> Forgotten(w, Compare(w, k, g), k)
  {
    hide Next, Ask, Send, Update, Store, World.Valid, Kept, Weathered;
    CalmUpdate(w, k, g.(status := None));
    if Exists(w, k, g.status.value) {
      MembersKnown(w, k, g.status.value);
      var q := RemoveMember(GroupId(g.status.value, k.namespace), g.status.value.user);
      CalmSend(w, q);
      CalmUpdate(Send(w, q).0, k, g.(status := None));
    }
  }

  lemma CheckProgress(w: W, k: Key, g: Resource)
    requires Undisturbed(w, k) && w.objects[k] == g && g.finalizer && g.status.Some?
    ensures var v := Check(w, k, g);
      if Converged(w, k) || Blocked(w, k) then v == w else Undisturbed(v, k) && Rank(v, k) < Rank(w, k)
    ensures Missing(w, k) ==> Forgotten(w, Check(w, k, g), k)
  {
    hide Next, Ask, Send, Update, Store, World.Valid, Kept, Weathered, Compare, Target, GroupId;
    CalmUpdate(w, k, Settled(g));
    var (w1, _, g1) := if g.spec.migrate then Update(w, k, Settled(g)) else (w, Nil, g);
    CompareProgress(w1, k, g1);
  }

  lemma CreateProgress(w: W, k: Key, g: Resource)
    requires Undisturbed(w, k) && w.objects[k] == g && g.finalizer && g.status.None?
    ensures var v := Create(w, k, g);
      if Converged(w, k) || Blocked(w, k) then v == w else Undisturbed(v, k) && Converged(v, k)
  {
    hide Next, Ask, Send, Update, Store, World.Valid, Kept, Weathered;
    var q := AddMember(GroupId(g.spec, k.namespace), g.spec.user);
    CalmSend(w, q);
    CalmUpdate(Send(w, q).0, k, Created(g));
  }

  lemma Progress(w: W, k: Key)
    requires Undisturbed(w, k)
    ensures var v := Pass(w, k);
      if Converged(w, k) || Blocked(w, k) then v == w
      else Undisturbed(v, k) && Rank(v, k) < Rank(w, k)
  {
    hide Next, Ask, Send, Update, Store, World.Valid, Kept, Weathered, Check, Create;
    var g := w.objects[k];
    CalmUpdate(w, k, g.(finalizer := true));
    if g.finalizer {
      if g.status.Some? { CheckProgress(w, k, g); } else { CreateProgress(w, k, g); }
    }
  }

  /** A group that has gone while its user stays keeps the binding from going. */
  predicate Refused(w: W, k: Key) {
    k in w.objects && w.objects[k].status.Some? && HasUser(w, k, w.objects[k].status.value)
        && !HasGroup(w, k, w.objects[k].status.value)
  }

  lemma MemberLeft(w: W, k: Key, g: Resource)
    requires w.Valid() && w.weather.Calm? && k in w.objects && w.objects[k] == g && g.deleting && g.finalizer
    requires g.status.Some?
    ensures var v := DeleteGroupMember(w, k, g);
      if Refused(w, k) then v == w
      else
        && v.Valid() && v.weather.Calm? && k in v.objects
        && v.objects[k] == g.(status := None, version := v.objects[k].version)
        && !Exists(v, k, g.status.value)
  {
    hide Next, Ask, Send, Update, Store, World.Valid, Kept, Weathered;
    if Exists(w, k, g.status.value) { MembersKnown(w, k, g.status.value); }
    var q := RemoveMember(GroupId(g.status.value, k.namespace), g.status.value.user);
    CalmSend(w, q);
    CalmUpdate(Send(w, q).0, k, g.(status := None));
  }

  lemma DeletionCompletes(w: W, k: Key)
    requires w.Valid() && w.weather.Calm? && k in w.objects && w.objects[k].deleting && w.objects[k].finalizer
    ensures var v := Pass(Pass(w, k), k);
      if Refused(w, k) then v == w
      else k !in v.objects && (w.objects[k].status.Some? ==> !Exists(v, k, w.objects[k].status.value))
  {
    hide Next, Ask, Send, Update, Store, World.Valid, Kept, Weathered, Create, Check;
    var g := w.objects[k];
    if g.status.Some? {
      MemberLeft(w, k, g);
      if !Refused(w, k) { CalmDrop(Pass(w, k), k); }
    } else {
      CalmDrop(w, k);
    }
  }

  /** A lost remote object is back after two passes, if its prerequisites hold and its place is free. */
  lemma LostIsRemade(w: W, k: Key)
    requires Undisturbed(w, k) && Missing(w, k)
    requires !Blocked(w.(objects := w.objects[k := Settled(w.objects[k]).(status := None)]), k)
    ensures Undisturbed(Pass(Pass(w, k), k), k) && Converged(Pass(Pass(w, k), k), k)
  {
    hide Next, Ask, Send, Update, Store, World.Valid, Kept, Weathered, Check, Create, Target, GroupId;
    CheckProgress(w, k, w.objects[k]);
    var v := Pass(w, k);
    CreateProgress(v, k, v.objects[k]);
  }
}

/** The same for policy bindings; a changed spec first detaches the old policy. */
module PolicyBindingProgress {
  import opened Prelude
  import opened Minio
  import opened Kube
  import opened PolicyBindings
  import opened Calmness

  predicate Exists(w: W, k: Key, spec: PolicyBindingSpec) {
    Target(w.minio.idp, spec, k.namespace) in w.minio.attachments
  }

  predicate HasPolicy(w: W, k: Key, spec: PolicyBindingSpec) {
    PolicyId(spec, k.namespace) in w.minio.policies
  }

  /** The server knows the one identity the spec names. */
  predicate HasEntity(w: W, k: Key, spec: PolicyBindingSpec) {
    spec.Entity().Some? && w.minio.Known(PolicyId(spec, k.namespace).tenant, spec.Entity().value)
  }

  predicate Converged(w: W, k: Key) {
    k in w.objects && var b := w.objects[k];
    b.finalizer && !b.spec.migrate && b.status == Some(b.spec) && Exists(w, k, b.spec)
  }

  /** The server will not detach what is not attached. */
  predicate DetachRefused(w: W, k: Key, spec: PolicyBindingSpec) {
    w.minio.strictDetach && HasEntity(w, k, spec) && !Exists(w, k, spec)
  }

  /** Policy or identity are missing, somebody else's attachment is in the way, or the old one cannot be detached. */
  predicate Blocked(w: W, k: Key) {
    k in w.objects && var b := w.objects[k];
    b.finalizer &&
    if b.status.Some? then
      !b.spec.migrate && if b.status.value == b.spec then !HasPolicy(w, k, b.spec)
          else DetachRefused(w, k, b.status.value)
    else !HasPolicy(w, k, b.spec) || !HasEntity(w, k, b.spec) || (!b.spec.migrate && Exists(w, k, b.spec))
  }

  function Rank(w: W, k: Key): nat
    requires k in w.objects
  {
    var b := w.objects[k];
    if Converged(w, k) || Blocked(w, k) then 0
    else if !b.finalizer then 3
    else if b.status.Some? && !(Exists(w, k, b.status.value) && b.status.value == Settled(b).spec) then 2
    else 1
  }

  /** A recorded binding names one identity; see PolicyBindings.PassRefines. */
  ghost predicate Undisturbed(w: W, k: Key) {
    && w.Valid() && w.weather.Calm? && k in w.objects && !w.objects[k].deleting
    && (w.objects[k].status.Some? ==> w.objects[k].status.value.Entity().Some?)
  }

  /** An attachment has its policy and an identity with a name. */
  lemma AttachmentsKnown(w: W)
    requires w.Valid()
    ensures forall a | a in w.minio.attachments :: a.policy in w.minio.policies && a.entity.name != ""
  {
    forall a | a in w.minio.attachments ensures a.entity.name != "" {
      assert w.minio.Known(a.policy.tenant, a.entity);
    }
  }

  lemma UnknownUnattached(w: W, k: Key, spec: PolicyBindingSpec)
    requires w.Valid() && spec.Entity().Some? && !HasEntity(w, k, spec)
    ensures !Exists(w, k, spec)
  {
    hide SearchBase, IdpOf;
  }

  lemma DetachProgress(w: W, k: Key, b: Resource)
    requires w.Valid() && w.weather.Calm? && k in w.objects && w.objects[k] == b && b.finalizer && b.status.Some?
    requires b.status.value.Entity().Some?
    ensures var v := DetachPolicyMember(w, k, b);
      if DetachRefused(w, k, b.status.value) then v == w
      else
        && v.Valid() && v.weather.Calm? && k in v.objects
        && v.objects[k] == b.(status := None, version := v.objects[k].version)
        && !Exists(v, k, b.status.value)
  {
    hide Next, Ask, Send, Update, Store, World.Valid, Kept, Weathered, UserDn, SearchBase, IdpOf;
    hide PolicyBindingSpec.Entity;
    var q := DetachPolicy(PolicyId(b.status.value, k.namespace), b.status.value.Entity().value);
    CalmSend(w, q);
    CalmUpdate(Send(w, q).0, k, b.(status := None));
    if !HasEntity(w, k, b.status.value) { UnknownUnattached(w, k, b.status.value); }
  }

  /** The resource has lost its remote object behind the operator's back. */
  predicate Missing(w: W, k: Key) {
    k in w.objects && w.objects[k].finalizer && w.objects[k].status.Some? &&
    var b := w.objects[k];
    b.status.value == Settled(b).spec && HasPolicy(w, k, b.spec) && !Exists(w, k, b.status.value)
  }

  /** All that has changed is that the record is gone, and the migrate flag with it. */
  ghost predicate Forgotten(w: W, v: W, k: Key)
    requires k in w.objects
  {
    && Undisturbed(v, k) && v == w.(objects := v.objects, clock := v.clock)
    && v.objects[k] == Settled(w.objects[k]).(status := None, version := v.objects[k].version)
  }

  lemma CompareProgress(w: W, k: Key, b: Resource)
    requires Undisturbed(w, k) && w.objects[k] == b && b.finalizer && b.status.Some? && !b.spec.migrate
    ensures var v := Compare(w, k, b);
      if Converged(w, k) || Blocked(w, k) then v == w
      else Undisturbed(v, k) && Rank(v, k) < Rank(w, k)
    ensures Missing(w, k) ==> Forgotten(w, Compare(w, k, b), k)
  {
    hide Next, Ask, Send, Update, Store, World.Valid, Kept, Weathered, Target, PolicyBindingSpec.Entity;
    hide DetachPolicyMember, Found;
    if b.status.value == b.spec {
      AttachmentsKnown(w);
      FoundIsTarget(w.minio.idp, w.minio.attachments, b.spec, k.namespace);
      CalmUpdate(w, k, b.(status := None));
    } else {
      DetachProgress(w, k, b);
    }
  }

  lemma CheckProgress(w: W, k: Key, b: Resource)
    requires Undisturbed(w, k) && w.objects[k] == b && b.finalizer && b.status.Some?
    ensures var v := Check(w, k, b);
      if Converged(w, k) || Blocked(w, k) then v == w else Undisturbed(v, k) && Rank(v, k) < Rank(w, k)
    ensures Missing(w, k) ==> Forgotten(w, Check(w, k, b), k)
  {
    hide Next, Ask, Send, Update, Store, World.Valid, Kept, Weathered, Compare, Target, PolicyBindingSpec.Entity;
    CalmUpdate(w, k, Settled(b));
    var (w1, _, b1) := if b.spec.migrate then Update(w, k, Settled(b)) else (w, Nil, b);
    CompareProgress(w1, k, b1);
  }

  lemma SettledEntity(b: Resource)
    ensures Settled(b).spec.Entity() == b.spec.Entity()
  {
  }

  lemma CreateProgress(w: W, k: Key, b: Resource)
    requires Undisturbed(w, k) && w.objects[k] == b && b.finalizer && b.status.None?
    ensures var v := Create(w, k, b);
      if Converged(w, k) || Blocked(w, k) then v == w else Undisturbed(v, k) && Converged(v, k)
  {
    hide Next, Ask, Send, Update, Store, World.Valid, Kept, Weathered, StoredName, PolicyBindingSpec.Entity;
    assert Settled(b).spec.Entity() == b.spec.Entity() by { SettledEntity(b); }
    if b.spec.Entity().Some? {
      var q := AttachPolicy(PolicyId(b.spec, k.namespace), b.spec.Entity().value);
      CalmSend(w, q);
      CalmUpdate(Send(w, q).0, k, Created(b));
    }
  }

  lemma Progress(w: W, k: Key)
    requires Undisturbed(w, k)
    ensures var v := Pass(w, k);
      if Converged(w, k) || Blocked(w, k) then v == w
      else Undisturbed(v, k) && Rank(v, k) < Rank(w, k)
  {
    hide Next, Ask, Send, Update, Store, World.Valid, Kept, Weathered, Check, Create, Target, PolicyBindingSpec.Entity;
    var b := w.objects[k];
    CalmUpdate(w, k, b.(finalizer := true));
    if b.finalizer {
      if b.status.Some? { CheckProgress(w, k, b); } else { CreateProgress(w, k, b); }
    }
  }

  /** A resource marked for deletion is gone after two passes, and its attachment with it, unless the server refuses. */
  lemma DeletionCompletes(w: W, k: Key)
    requires w.Valid() && w.weather.Calm? && k in w.objects && w.objects[k].deleting && w.objects[k].finalizer
    requires w.objects[k].status.Some? ==> w.objects[k].status.value.Entity().Some?
    ensures var v, b := Pass(Pass(w, k), k), w.objects[k];
      if b.status.Some? && DetachRefused(w, k, b.status.value) then v == w
      else k !in v.objects && (b.status.Some? ==> !Exists(v, k, b.status.value))
  {
    hide Next, Ask, Send, Update, Store, World.Valid, Kept, Weathered, Create, Check, Target, PolicyBindingSpec.Entity;
    hide DetachPolicyMember;
    var b := w.objects[k];
    if b.status.Some? {
      DetachProgress(w, k, b);
      if !DetachRefused(w, k, b.status.value) { CalmDrop(Pass(w, k), k); }
    } else {
      CalmDrop(w, k);
    }
  }

  /** A lost remote object is back after two passes, if its prerequisites hold and its place is free. */
  lemma LostIsRemade(w: W, k: Key)
    requires Undisturbed(w, k) && Missing(w, k)
    requires !Blocked(w.(objects := w.objects[k := Settled(w.objects[k]).(status := None)]), k)
    ensures Undisturbed(Pass(Pass(w, k), k), k) && Converged(Pass(Pass(w, k), k), k)
  {
    hide Next, Ask, Send, Update, Store, World.Valid, Kept, Weathered, Check, Create, Target, PolicyBindingSpec.Entity;
    CheckProgress(w, k, w.objects[k]);
    var v := Pass(w, k);
    CreateProgress(v, k, v.objects[k]);
  }
}
