/** The world a pass leaves behind when no call fails and nobody interferes. */
module Writes {
  import opened Prelude
  import opened Minio
  import opened Kube

  /** The resource under `k` is stored as `o`, at a new version if anything is new, and the server is `m`. */
  function Becomes<S(==)>(w: World<S>, k: Key, o: Object<S>, m: Server): World<S>
    requires k in w.objects
  {
    if o.(version := w.objects[k].version) == w.objects[k] then w.(minio := m)
    else w.(objects := w.objects[k := o.(version := w.clock)], clock := w.clock + 1, minio := m)
  }

  /** The same in short, however many times the resource was stored on the way. */
  ghost predicate Ends<S(!new)>(w: World<S>, k: Key, v: World<S>, o: Object<S>, m: Server) {
    && k in v.objects
    && v == w.(objects := w.objects[k := o.(version := v.objects[k].version)], clock := v.clock, minio := m)
  }

  /** A pass over the resource under `k` meets no faults and no interference. */
  ghost predicate Calmed<S>(w: World<S>, k: Key) {
    w.Valid() && w.weather.Calm? && k in w.objects && w.objects[k].finalizer
  }

  /** The resource has no remote object on record and is to get one. */
  ghost predicate Awaiting<S>(w: World<S>, k: Key) {
    Calmed(w, k) && !w.objects[k].deleting && w.objects[k].status.None?
  }

  /** The resource has a remote object on record and is to keep it. */
  ghost predicate Keeping<S>(w: World<S>, k: Key) {
    Calmed(w, k) && !w.objects[k].deleting && w.objects[k].status.Some?
  }

  /** The resource has a remote object on record and is to go. */
  ghost predicate Leaving<S>(w: World<S>, k: Key) {
    Calmed(w, k) && w.objects[k].deleting && w.objects[k].status.Some?
  }

  /** Where nothing is on record: a resource gets its finalizer first, and one marked for deletion just goes. */
  ghost predicate Bracketed<S>(w: World<S>, k: Key, v: World<S>) {
    w.Valid() && w.weather.Calm? ==>
      if k !in w.objects then v == w
      else
        var o := w.objects[k];
        && (o.finalizer && o.deleting && o.status.None? ==> v == w.(objects := w.objects - {k}))
        && (!o.finalizer && !o.deleting ==> v == Becomes(w, k, o.(finalizer := true), w.minio))
  }

  lemma UpdateBecomes<S(!new)>(w: World<S>, k: Key, o: Object<S>)
    requires w.Valid() && w.weather.Calm? && k in w.objects && o.version == w.objects[k].version
    requires o.finalizer || !o.deleting
    ensures var (v, err, p) := Update(w, k, o);
      && v == Becomes(w, k, o, w.minio) && err == Nil && v.Valid() && k in v.objects && v.objects[k] == p
      && p == o.(version := p.version)
  {
    hide Next, Weathered, Along, Held, Written;
  }

  /** The resource is stored once more. */
  lemma EndsOn<S(!new)>(w: World<S>, k: Key, v: World<S>, o: Object<S>, m: Server, p: Object<S>, n: Server)
    requires k in w.objects && (v == w || Ends(w, k, v, o, m))
    ensures Ends(w, k, Becomes(v, k, p, n), p, n)
    ensures Becomes(v, k, p, n).objects[k] == p.(version := Becomes(v, k, p, n).objects[k].version)
    ensures Becomes(v, k, p, n).minio == n
  {
  }

  lemma Rewritten<S>(w: World<S>, k: Key, o: Object<S>)
    requires w.Valid() && k in w.objects && o.version == w.objects[k].version
    ensures w.(objects := w.objects[k := o]).Valid()
  {
  }
}

/** The same where calls may fail or be cut off, but nobody else acts. */
module Stillness {
  import opened Prelude
  import opened Minio
  import opened Kube

  lemma AskStill<S(!new)>(w: World<S>)
    requires w.Valid() && Still(w.weather)
    ensures var v := Ask(w).0; v == w.(weather := v.weather) && v.Valid() && Still(v.weather)
  {
    hide Next, Still, World.Valid;
    NextStill(w);
  }

  /** A request that is answered has been served, and one that is not may have been. */
  lemma SendStill<S(!new)>(w: World<S>, q: Request)
    requires w.Valid() && Still(w.weather)
    ensures
      var (v, err) := Send(w, q);
      && v == w.(weather := v.weather, minio := v.minio) && v.Valid() && Still(v.weather)
      && v.minio in {w.minio, w.minio.Serve(q).0}
      && (err != Transport ==> v.minio == w.minio.Serve(q).0 && err == w.minio.Serve(q).1)
  {
    hide Next, Still, World.Valid, Server.Serve;
    NextStill(w);
  }

  /** The resource is stored or not. */
  lemma UpdateStill<S(!new)>(w: World<S>, k: Key, o: Object<S>)
    requires w.Valid() && Still(w.weather)
    ensures
      var (v, err, p) := Update(w, k, o);
      && v.Valid() && Still(v.weather) && v.minio == w.minio && v.secrets == w.secrets
      && (v.objects == w.objects || (k in w.objects && k !in v.objects)
          || (k in v.objects && v.objects[k] == o.(version := v.objects[k].version)))
      && (err == Nil && k in v.objects ==> v.objects[k] == p)
  {
    hide Still, World.Valid;
    NextStill(w);
  }
}

/** What a pass over a group resource writes, in the fields of its spec. */
module GroupWrites {
  import opened Prelude
  import opened Minio
  import opened Kube
  import opened Groups
  import opened Addresses
  import opened Calmness
  import opened Writes

  lemma Brackets(w: W, k: Key)
    ensures Bracketed(w, k, Pass(w, k))
  {
    hide Next, Update, Store, Along, Held, Weathered, Kept, World.Valid;
    if w.Valid() && w.weather.Calm? && k in w.objects {
      if w.objects[k].finalizer && w.objects[k].deleting { CalmDrop(w, k); }
      if !w.objects[k].finalizer && !w.objects[k].deleting { UpdateBecomes(w, k, w.objects[k].(finalizer := true)); }
    }
  }

  /** The group of that name on the tenant referred to is made and recorded, unless it is somebody else's. */
  lemma Creates(w: W, k: Key)
    requires Awaiting(w, k)
    ensures
      var g, m := w.objects[k], w.minio;
      var id, spec := Place(g.spec.tenantRef, k.namespace, g.spec.name), g.spec.(migrate := false);
      Pass(w, k) ==
      if id in m.groups && !g.spec.migrate then w
      else Becomes(w, k, g.(spec := spec, status := Some(spec)), m.(groups := m.groups + {id}))
  {
    hide Next, Update, Store, Send, Along, Held, Weathered, Kept, World.Valid;
    var g := w.objects[k];
    var q := AddGroup(Place(g.spec.tenantRef, k.namespace, g.spec.name));
    CalmSend(w, q);
    UpdateBecomes(Send(w, q).0, k, Created(g));
  }

  /** The record goes when the group it names is gone, wherever the spec now points. */
  lemma Checks(w: W, k: Key)
    requires Keeping(w, k)
    ensures
      var g, r := w.objects[k], w.objects[k].status.value;
      var v := Becomes(w, k, g.(spec := g.spec.(migrate := false)), w.minio);
      Pass(w, k) ==
      if Place(r.tenantRef, k.namespace, r.name) in w.minio.groups then v
      else Becomes(v, k, v.objects[k].(status := None), w.minio)
  {
    hide Next, Update, Store, Along, Held, Weathered, Kept, World.Valid;
    var g := w.objects[k];
    UpdateBecomes(w, k, Settled(g));
    var v := Becomes(w, k, Settled(g), w.minio);
    UpdateBecomes(v, k, v.objects[k].(status := None));
  }

  /** The group on record is removed, wherever the spec now points, unless it has members. */
  lemma Deletes(w: W, k: Key)
    requires Leaving(w, k)
    ensures
      var g, r, m := w.objects[k], w.objects[k].status.value, Pass(w, k).minio;
      var id := Place(r.tenantRef, k.namespace, r.name);
      if id in w.minio.groups && exists b | b in w.minio.members :: b.group == id then Pass(w, k) == w
      else
        && Pass(w, k) == Becomes(w, k, g.(status := None), m) && m.groups == w.minio.groups - {id}
        && m == w.minio.(groups := m.groups, attachments := m.attachments)
  {
    hide Next, Update, Store, Send, Along, Held, Weathered, Kept, World.Valid;
    var g, r := w.objects[k], w.objects[k].status.value;
    var q := RemoveGroup(Place(r.tenantRef, k.namespace, r.name));
    CalmSend(w, q);
    UpdateBecomes(Send(w, q).0, k, g.(status := None));
  }

  /** Leaving the tenant's namespace out comes to the same as writing the resource's own. */
  lemma NamespaceDefaults(w: W, k: Key)
    requires Awaiting(w, k) && w.objects[k].spec.tenantRef.namespace == ""
    ensures
      var g, ref := w.objects[k], ResourceRef(w.objects[k].spec.tenantRef.name, k.namespace);
      Pass(w.(objects := w.objects[k := g.(spec := g.spec.(tenantRef := ref))]), k).minio == Pass(w, k).minio
  {
    hide Pass, Ask, World.Valid;
    var g, ref := w.objects[k], ResourceRef(w.objects[k].spec.tenantRef.name, k.namespace);
    var x := w.(objects := w.objects[k := g.(spec := g.spec.(tenantRef := ref))]);
    Rewritten(w, k, x.objects[k]);
    Creates(w, k);
    Creates(x, k);
  }
}

/** What a pass over a bucket resource writes. */
module BucketWrites {
  import opened Prelude
  import opened Minio
  import opened Kube
  import opened Buckets
  import opened BucketProgress
  import BucketSettings
  import opened Addresses
  import opened Calmness
  import opened Stillness
  import opened Writes

  lemma Brackets(w: W, k: Key)
    ensures Bracketed(w, k, Pass(w, k))
  {
    hide Next, Update, Store, Along, Held, Weathered, Kept, World.Valid;
    if w.Valid() && w.weather.Calm? && k in w.objects {
      if w.objects[k].finalizer && w.objects[k].deleting { CalmDrop(w, k); }
      if !w.objects[k].finalizer && !w.objects[k].deleting { UpdateBecomes(w, k, w.objects[k].(finalizer := true)); }
    }
  }

  lemma FurnishBecomes(w: W, k: Key, b: Resource, id: RemoteId)
    requires Awaiting(w, k) && w.objects[k] == b && id in w.minio.buckets
    ensures
      var remote, spec := w.minio.buckets[id], b.spec.(migrate := false);
      var v := if b.spec.versioning.Some? then b.spec.versioning.value else remote.versioning;
      var l := if b.spec.lifecycle.Some? then b.spec.lifecycle.value else remote.lifecycle;
      Furnish(w, k, b, id) == Becomes(w, k, b.(spec := spec, status := Some(spec)),
          w.minio.(buckets := w.minio.buckets[id := Bucket(v, l, remote.empty)]))
  {
    hide Next, Ask, Send, Update, Store, World.Valid, Kept, Weathered, Server.Serve;
    var remote := w.minio.buckets[id];
    var v := NilToEmpty(b.spec.versioning, remote.versioning);
    var l := NilToEmpty(b.spec.lifecycle, remote.lifecycle);
    assert w.minio.buckets[id := remote] == w.minio.buckets;
    SetVersioningCalm(w, k, id, v);
    var w1 := Furnished(w, id, remote.(versioning := v));
    SetLifecycleCalm(w1, k, id, l);
    var w2 := Furnished(w, id, remote.(versioning := v, lifecycle := l));
    assert w2.minio.buckets == w1.minio.buckets[id := w1.minio.buckets[id].(lifecycle := l)];
    assert Furnish(w, k, b, id) == Update(w2, k, Created(b)).0;
    UpdateBecomes(w2, k, Created(b));
  }

  /**
   A bucket that was not there gets the settings of the spec, and none where it gives none; one that
   is adopted keeps what the spec does not mention, and what it holds.
   */
  lemma Creates(w: W, k: Key)
    requires Awaiting(w, k)
    ensures
      var b, m := w.objects[k], w.minio;
      var id, spec := Place(b.spec.tenantRef, k.namespace, b.spec.name), b.spec.(migrate := false);
      var before := if id in m.buckets then m.buckets[id]
          else Bucket(Versioning("", "", [], false), Lifecycle([]), true);
      var after := Bucket(
          if spec.versioning.Some? then spec.versioning.value else before.versioning,
          if spec.lifecycle.Some? then spec.lifecycle.value else before.lifecycle, before.empty);
      Pass(w, k) ==
      if id in m.buckets && !b.spec.migrate then w
      else Becomes(w, k, b.(spec := spec, status := Some(spec)), m.(buckets := m.buckets[id := after]))
  {
    hide Next, Update, Store, Send, Along, Held, Weathered, Kept, World.Valid, Furnish;
    var b := w.objects[k];
    var id := Place(b.spec.tenantRef, k.namespace, b.spec.name);
    CalmSend(w, MakeBucket(id));
    var x := Send(w, MakeBucket(id)).0;
    if id !in w.minio.buckets || b.spec.migrate {
      FurnishBecomes(x, k, b, id);
    }
  }

  /** A pass has a bucket resource in hand, whose bucket is there. */
  ghost predicate Holding(w: W, k: Key, b: Resource, id: RemoteId) {
    Keeping(w, k) && w.objects[k] == b && id == Place(b.status.value.tenantRef, k.namespace, b.status.value.name)
    && id in w.minio.buckets
  }

  function Versioned(remote: Bucket, recorded: BucketSpec, spec: BucketSpec): Versioning {
    if spec.versioning.Some? then spec.versioning.value
    else if remote.versioning == Versioning("", "", [], false) && recorded.versioning.None? then remote.versioning
    else Versioning("Suspended", "", [], false)
  }

  function Cycled(spec: BucketSpec): Lifecycle {
    if spec.lifecycle.Some? then spec.lifecycle.value else Lifecycle([])
  }

  lemma VersioningBecomes(w: W, k: Key, b: Resource, id: RemoteId)
    requires Holding(w, k, b, id)
    ensures
      var (v, err, p) := ReviseVersioning(w, k, b);
      var r, remote := b.status.value, w.minio.buckets[id];
      var end := remote.(versioning := Versioned(remote, r, b.spec));
      && v == Becomes(w, k, b.(status := Some(r.(versioning := b.spec.versioning))),
          w.minio.(buckets := w.minio.buckets[id := end]))
      && err == Nil && Holding(v, k, p, id)
  {
    hide Next, Ask, Send, Update, Store, World.Valid, Kept, Weathered, Server.Serve, ReviseVersioning;
    BucketSettings.VersioningIsOneWrite(w.minio.buckets[id].versioning, b.status.value.versioning, b.spec.versioning);
    var end := w.minio.buckets[id].(versioning := Versioned(w.minio.buckets[id], b.status.value, b.spec));
    FurnishedReady(w, k, b, id, end);
    if b.spec.versioning == b.status.value.versioning {
      RestoreVersioningCalm(w, k, b, id);
    } else {
      ReplaceVersioningCalm(w, k, b, id);
      UpdateBecomes(Furnished(w, id, end), k, b.(status := Some(b.status.value.(versioning := b.spec.versioning))));
    }
  }

  lemma LifecycleBecomes(w: W, k: Key, b: Resource, id: RemoteId)
    requires Holding(w, k, b, id)
    ensures
      var (v, err, p) := ReviseLifecycle(w, k, b);
      var end := w.minio.buckets[id].(lifecycle := Cycled(b.spec));
      && v == Becomes(w, k, b.(status := Some(b.status.value.(lifecycle := b.spec.lifecycle))),
          w.minio.(buckets := w.minio.buckets[id := end]))
      && err == Nil && Holding(v, k, p, id)
  {
    hide Next, Ask, Send, Update, Store, World.Valid, Kept, Weathered, Server.Serve, ReviseLifecycle;
    var end := w.minio.buckets[id].(lifecycle := Cycled(b.spec));
    FurnishedReady(w, k, b, id, end);
    if b.spec.lifecycle == b.status.value.lifecycle {
      RestoreLifecycleCalm(w, k, b, id);
    } else {
      ReplaceLifecycleCalm(w, k, b, id);
      UpdateBecomes(Furnished(w, id, end), k, b.(status := Some(b.status.value.(lifecycle := b.spec.lifecycle))));
    }
  }

  lemma ReviseEnds(w: W, k: Key, b: Resource, id: RemoteId)
    requires Holding(w, k, b, id)
    ensures
      var r, remote := b.status.value, w.minio.buckets[id];
      var record := r.(versioning := b.spec.versioning, lifecycle := b.spec.lifecycle,
          deletionPolicy := b.spec.deletionPolicy);
      var end := Bucket(Versioned(remote, r, b.spec), Cycled(b.spec), remote.empty);
      Ends(w, k, Revise(w, k, b), b.(status := Some(record)), w.minio.(buckets := w.minio.buckets[id := end]))
  {
    hide Next, Ask, Send, Update, Store, World.Valid, Kept, Weathered, Server.Serve, ReviseVersioning, ReviseLifecycle;
    hide Versioned, Cycled, Becomes;
    var r, remote := b.status.value, w.minio.buckets[id];
    VersioningBecomes(w, k, b, id);
    var (w1, _, b1) := ReviseVersioning(w, k, b);
    var o1 := b.(status := Some(r.(versioning := b.spec.versioning)));
    var m1 := w.minio.(buckets := w.minio.buckets[id := remote.(versioning := Versioned(remote, r, b.spec))]);
    EndsOn(w, k, w, b, w.minio, o1, m1);
    LifecycleBecomes(w1, k, b1, id);
    var (w2, _, b2) := ReviseLifecycle(w1, k, b1);
    var o2 := b1.(status := Some(b1.status.value.(lifecycle := b.spec.lifecycle)));
    var m2 := m1.(buckets := m1.buckets[id := m1.buckets[id].(lifecycle := Cycled(b.spec))]);
    EndsOn(w, k, w1, o1, m1, o2, m2);
    var o3 := b2.(status := Some(b2.status.value.(deletionPolicy := b2.spec.deletionPolicy)));
    UpdateBecomes(w2, k, o3);
    EndsOn(w, k, w2, o2, m2, o3, m2);
    assert m2.buckets == w.minio.buckets[id := m2.buckets[id]];
  }

  /** Versioning, lifecycle and deletion policy are brought to the spec, whatever they were before. */
  lemma Checks(w: W, k: Key)
    requires Keeping(w, k)
    ensures
      var b, r, m := w.objects[k], w.objects[k].status.value, w.minio;
      var id, spec := Place(r.tenantRef, k.namespace, r.name), b.spec.(migrate := false);
      if id !in m.buckets then Ends(w, k, Pass(w, k), b.(spec := spec, status := None), m)
      else
        var record := r.(versioning := spec.versioning, lifecycle := spec.lifecycle,
            deletionPolicy := spec.deletionPolicy);
        var end := Bucket(Versioned(m.buckets[id], r, spec), Cycled(spec), m.buckets[id].empty);
        Ends(w, k, Pass(w, k), b.(spec := spec, status := Some(record)), m.(buckets := m.buckets[id := end]))
  {
    hide Next, Update, Store, Send, Along, Held, Weathered, Kept, World.Valid, Revise, Versioned, Cycled;
    var b, r := w.objects[k], w.objects[k].status.value;
    UpdateBecomes(w, k, Settled(b));
    var v := Becomes(w, k, Settled(b), w.minio);
    var id := Place(r.tenantRef, k.namespace, r.name);
    if id in w.minio.buckets {
      ReviseEnds(v, k, v.objects[k], id);
    } else {
      UpdateBecomes(v, k, v.objects[k].(status := None));
    }
  }

  /** The bucket on record is removed, with what it holds exactly if the recorded policy is "Always". */
  lemma Deletes(w: W, k: Key)
    requires Leaving(w, k)
    ensures
      var b, r, m := w.objects[k], w.objects[k].status.value, w.minio;
      var id := Place(r.tenantRef, k.namespace, r.name);
      Pass(w, k) ==
      if id in m.buckets && !m.buckets[id].empty && r.deletionPolicy != "Always" then w
      else Becomes(w, k, b.(status := None), m.(buckets := m.buckets - {id}))
  {
    hide Next, Update, Store, Send, Along, Held, Weathered, Kept, World.Valid;
    var b, r := w.objects[k], w.objects[k].status.value;
    var q := RemoveBucket(Place(r.tenantRef, k.namespace, r.name), r.deletionPolicy == "Always");
    CalmSend(w, q);
    UpdateBecomes(Send(w, q).0, k, b.(status := None));
  }

  /** Leaving the tenant's namespace out comes to the same as writing the resource's own. */
  lemma NamespaceDefaults(w: W, k: Key)
    requires Awaiting(w, k) && w.objects[k].spec.tenantRef.namespace == ""
    ensures
      var g, ref := w.objects[k], ResourceRef(w.objects[k].spec.tenantRef.name, k.namespace);
      Pass(w.(objects := w.objects[k := g.(spec := g.spec.(tenantRef := ref))]), k).minio == Pass(w, k).minio
  {
    hide Pass, World.Valid;
    var g, ref := w.objects[k], ResourceRef(w.objects[k].spec.tenantRef.name, k.namespace);
    var x := w.(objects := w.objects[k := g.(spec := g.spec.(tenantRef := ref))]);
    Rewritten(w, k, x.objects[k]);
    Creates(w, k);
    Creates(x, k);
  }

  /** The bucket is there, with the settings that are given. */
  predicate Equipped(m: Server, id: RemoteId, versioning: Option<Versioning>, lifecycle: Option<Lifecycle>) {
    && id in m.buckets && (versioning.Some? ==> m.buckets[id].versioning == versioning.value)
    && (lifecycle.Some? ==> m.buckets[id].lifecycle == lifecycle.value)
  }

  lemma SetsVersioning(w: W, id: RemoteId, v: Versioning)
    requires w.Valid() && Still(w.weather) && id in w.minio.buckets
    ensures
      var (x, err) := Send(w, SetBucketVersioning(id, v));
      && x.Valid() && Still(x.weather) && x.objects == w.objects
      && (err == Nil ==> Equipped(x.minio, id, Some(v), None))
  {
    hide Still, World.Valid, Send;
    SendStill(w, SetBucketVersioning(id, v));
  }

  lemma SetsLifecycle(w: W, id: RemoteId, v: Option<Versioning>, l: Lifecycle)
    requires w.Valid() && Still(w.weather) && Equipped(w.minio, id, v, None)
    ensures
      var (x, err) := Send(w, SetBucketLifecycle(id, l));
      && x.Valid() && Still(x.weather) && x.objects == w.objects
      && (err == Nil ==> Equipped(x.minio, id, v, Some(l)))
  {
    hide Still, World.Valid, Send;
    SendStill(w, SetBucketLifecycle(id, l));
  }

  lemma FurnishEquips(w: W, k: Key, b: Resource, id: RemoteId)
    requires w.Valid() && Still(w.weather) && id in w.minio.buckets && k in w.objects && w.objects[k].status.None?
    ensures
      var v := Furnish(w, k, b, id);
      k in v.objects && v.objects[k].status.Some? ==>
        v.objects[k].status == Some(b.spec.(migrate := false))
            && Equipped(v.minio, id, b.spec.versioning, b.spec.lifecycle)
  {
    hide Still, World.Valid, Send, Update;
    var v, l := b.spec.versioning, b.spec.lifecycle;
    var x := if v.Some? then Send(w, SetBucketVersioning(id, v.value)).0 else w;
    if v.Some? { SetsVersioning(w, id, v.value); }
    var y := if l.Some? then Send(x, SetBucketLifecycle(id, l.value)).0 else x;
    if l.Some? && Equipped(x.minio, id, v, None) { SetsLifecycle(x, id, v, l.value); }
    if y.Valid() && Still(y.weather) { UpdateStill(y, k, Created(b)); }
  }

  /**
   Where calls fail or are cut off, but nobody else acts: a create pass records the bucket only once it
   is there with every setting the spec gives.
   */
  lemma RecordsWhatIsThere(w: W, k: Key)
    requires w.Valid() && Still(w.weather) && k in w.objects && w.objects[k].status.None?
    ensures
      var v, spec := Pass(w, k), w.objects[k].spec.(migrate := false);
      k in v.objects && v.objects[k].status.Some? ==>
        && v.objects[k].status == Some(spec)
        && Equipped(v.minio, Place(spec.tenantRef, k.namespace, spec.name), spec.versioning, spec.lifecycle)
  {
    hide Still, World.Valid, Send, Update, Ask, Furnish, Equipped;
    var b, x := w.objects[k], Ask(w).0;
    var id := Place(b.spec.tenantRef, k.namespace, b.spec.name);
    AskStill(w);
    UpdateStill(x, k, b.(finalizer := false));
    UpdateStill(x, k, b.(finalizer := true));
    AskStill(x);
    var y := Ask(x).0;
    SendStill(y, MakeBucket(id));
    var (z, err) := Send(y, MakeBucket(id));
    if err in {Nil, BucketAlreadyOwnedByYou} { FurnishEquips(z, k, b, id); }
  }
}

/** What a pass over a user resource writes. */
module UserWrites {
  import opened Prelude
  import opened Minio
  import opened Kube
  import opened Users
  import opened Addresses
  import opened Calmness
  import opened Writes

  lemma Brackets(w: W, k: Key)
    ensures Bracketed(w, k, Pass(w, k))
  {
    hide Next, Update, Store, Along, Held, Weathered, Kept, World.Valid;
    if w.Valid() && w.weather.Calm? && k in w.objects {
      if w.objects[k].finalizer && w.objects[k].deleting { CalmDrop(w, k); }
      if !w.objects[k].finalizer && !w.objects[k].deleting { UpdateBecomes(w, k, w.objects[k].(finalizer := true)); }
    }
  }

  /** The access key of a spec: given outright, or in the secret referred to. */
  function Known(secrets: map<Key, Secret>, spec: UserSpec, ns: string): Option<string> {
    if spec.accessKey != "" then Some(spec.accessKey)
    else if Unset(spec.accessKeyRef) || Read(secrets, spec.accessKeyRef, ns) == Some("") then None
    else Read(secrets, spec.accessKeyRef, ns)
  }

  /** The secret key in the secret a spec refers to; a secret without one stands for the empty key. */
  function SecretKey(secrets: map<Key, Secret>, spec: UserSpec, ns: string): string {
    if Read(secrets, spec.secretKeyRef, ns).Some? then Read(secrets, spec.secretKeyRef, ns).value else ""
  }

  lemma KeyKnown(w: W, spec: UserSpec, ns: string)
    requires w.Valid() && w.weather.Calm?
    ensures
      var (v, err, accessKey) := AccessKey(w, spec, ns);
      v == w && (err == Nil <==> Known(w.secrets, spec, ns).Some?) &&
          (err == Nil ==> Known(w.secrets, spec, ns) == Some(accessKey))
  {
    hide Next, Along, Held, Weathered, Kept, World.Valid;
  }

  /**
   The user gets the secret key found in the secret referred to and the resource records that secret's
   version; nothing happens without an access key or that secret, or if the user is somebody else's.
   */
  lemma Creates(w: W, k: Key)
    requires Awaiting(w, k)
    ensures
      var u, m := w.objects[k], w.minio;
      var accessKey, at := Known(w.secrets, u.spec, k.namespace), SecretPlace(u.spec.secretKeyRef, k.namespace);
      if accessKey.None? || at !in w.secrets then Pass(w, k) == w
      else
        var id := Place(u.spec.tenantRef, k.namespace, accessKey.value);
        var spec := u.spec.(accessKey := accessKey.value, migrate := false);
        Pass(w, k) ==
        if id in m.users && !u.spec.migrate then w
        else Becomes(w, k, u.(spec := spec, status := Some(spec), stamp := w.secrets[at].version),
            m.(users := m.users[id := SecretKey(w.secrets, u.spec, k.namespace)]))
  {
    hide Next, Update, Store, Send, Along, Held, Weathered, Kept, World.Valid, AccessKey, Known;
    var u := w.objects[k];
    KeyKnown(w, u.spec, k.namespace);
    var accessKey, at := Known(w.secrets, u.spec, k.namespace), SecretPlace(u.spec.secretKeyRef, k.namespace);
    if accessKey.Some? && at in w.secrets {
      var q := AddUser(Place(u.spec.tenantRef, k.namespace, accessKey.value),
          SecretKey(w.secrets, u.spec, k.namespace));
      CalmSend(w, q);
      UpdateBecomes(Send(w, q).0, k, Created(u, accessKey.value, w.secrets[at].version));
    }
  }

  lemma SecretKeyIs(secrets: map<Key, Secret>, spec: UserSpec, ns: string)
    ensures
      var at := SecretPlace(spec.secretKeyRef, ns);
      at in secrets ==> SecretKey(secrets, spec, ns) == secrets[at].Field(spec.secretKeyRef.key)
  {
  }

  lemma CompareBecomes(v: W, k: Key, u: Resource)
    requires Keeping(v, k) && v.objects[k] == u
    ensures
      var r, m := u.status.value, v.minio;
      var accessKey, at := Known(v.secrets, r, k.namespace), SecretPlace(r.secretKeyRef, k.namespace);
      if accessKey.None? then Compare(v, k, u) == v
      else
        var id := Place(r.tenantRef, k.namespace, accessKey.value);
        Compare(v, k, u) ==
        if id !in m.users then Becomes(v, k, u.(status := None), m)
        else if at !in v.secrets || v.secrets[at].version == u.stamp then v
        else Becomes(v, k, u.(stamp := v.secrets[at].version),
            m.(users := m.users[id := SecretKey(v.secrets, r, k.namespace)]))
  {
    hide Next, Update, Store, Send, Along, Held, Weathered, Kept, World.Valid, AccessKey, Known;
    hide SecretKey, Secret.Field;
    var r := u.status.value;
    KeyKnown(v, r, k.namespace);
    SecretKeyIs(v.secrets, r, k.namespace);
    var accessKey, at := Known(v.secrets, r, k.namespace), SecretPlace(r.secretKeyRef, k.namespace);
    UpdateBecomes(v, k, u.(status := None));
    if accessKey.Some? && at in v.secrets {
      var q := AddUser(Place(r.tenantRef, k.namespace, accessKey.value), SecretKey(v.secrets, r, k.namespace));
      CalmSend(v, q);
      UpdateBecomes(Send(v, q).0, k, u.(stamp := v.secrets[at].version));
    }
  }

  /** A new version of the secret on record is written to the user and recorded; a lost user is forgotten. */
  lemma Checks(w: W, k: Key)
    requires Keeping(w, k)
    ensures
      var u, r, m := w.objects[k], w.objects[k].status.value, w.minio;
      var v := Becomes(w, k, u.(spec := u.spec.(migrate := false)), m);
      var accessKey, at := Known(w.secrets, r, k.namespace), SecretPlace(r.secretKeyRef, k.namespace);
      if accessKey.None? then Pass(w, k) == v
      else
        var id := Place(r.tenantRef, k.namespace, accessKey.value);
        Pass(w, k) ==
        if id !in m.users then Becomes(v, k, v.objects[k].(status := None), m)
        else if at !in w.secrets || w.secrets[at].version == u.stamp then v
        else Becomes(v, k, v.objects[k].(stamp := w.secrets[at].version),
            m.(users := m.users[id := SecretKey(w.secrets, r, k.namespace)]))
  {
    hide Next, Update, Store, Send, Along, Held, Weathered, Kept, World.Valid, AccessKey, Known, SecretKey, Compare;
    var u := w.objects[k];
    UpdateBecomes(w, k, Settled(u));
    var v := Becomes(w, k, Settled(u), w.minio);
    CompareBecomes(v, k, v.objects[k]);
  }

  /** The user on record is removed, wherever the spec now points. */
  lemma Deletes(w: W, k: Key)
    requires Leaving(w, k)
    ensures
      var u, r, m := w.objects[k], w.objects[k].status.value, Pass(w, k).minio;
      var accessKey := Known(w.secrets, r, k.namespace);
      if accessKey.None? then Pass(w, k) == w
      else
        && Pass(w, k) == Becomes(w, k, u.(status := None), m)
        && m.users == w.minio.users - {Place(r.tenantRef, k.namespace, accessKey.value)}
        && m == w.minio.(users := m.users, members := m.members, attachments := m.attachments, accounts := m.accounts)
  {
    hide Next, Update, Store, Send, Along, Held, Weathered, Kept, World.Valid, AccessKey, Known;
    var u, r := w.objects[k], w.objects[k].status.value;
    KeyKnown(w, r, k.namespace);
    var accessKey := Known(w.secrets, r, k.namespace);
    if accessKey.Some? {
      var q := RemoveUser(Place(r.tenantRef, k.namespace, accessKey.value));
      CalmSend(w, q);
      UpdateBecomes(Send(w, q).0, k, u.(status := None));
    }
  }

  /** Leaving the tenant's namespace out comes to the same as writing the resource's own. */
  lemma NamespaceDefaults(w: W, k: Key)
    requires Awaiting(w, k) && w.objects[k].spec.tenantRef.namespace == ""
    ensures
      var g, ref := w.objects[k], ResourceRef(w.objects[k].spec.tenantRef.name, k.namespace);
      Pass(w.(objects := w.objects[k := g.(spec := g.spec.(tenantRef := ref))]), k).minio == Pass(w, k).minio
  {
    hide Pass, World.Valid;
    var g, ref := w.objects[k], ResourceRef(w.objects[k].spec.tenantRef.name, k.namespace);
    var x := w.(objects := w.objects[k := g.(spec := g.spec.(tenantRef := ref))]);
    Rewritten(w, k, x.objects[k]);
    Creates(w, k);
    Creates(x, k);
  }

  /** The same for the namespaces of the secrets referred to. */
  lemma SecretNamespaceDefaults(w: W, k: Key)
    requires Awaiting(w, k) && !Unset(w.objects[k].spec.accessKeyRef)
    ensures
      var u, spec := w.objects[k], w.objects[k].spec;
      var written := spec.(accessKeyRef := InFull(spec.accessKeyRef, k.namespace),
          secretKeyRef := InFull(spec.secretKeyRef, k.namespace));
      Pass(w.(objects := w.objects[k := u.(spec := written)]), k).minio == Pass(w, k).minio
  {
    hide Pass, World.Valid;
    var u, spec := w.objects[k], w.objects[k].spec;
    var written := spec.(accessKeyRef := InFull(spec.accessKeyRef, k.namespace),
        secretKeyRef := InFull(spec.secretKeyRef, k.namespace));
    var x := w.(objects := w.objects[k := u.(spec := written)]);
    Rewritten(w, k, x.objects[k]);
    Creates(w, k);
    Creates(x, k);
  }
}

/** What a pass over a policy resource writes. */
module PolicyWrites {
  import opened Prelude
  import opened Minio
  import opened Kube
  import opened Policies
  import opened PolicyHash
  import opened Addresses
  import opened Branches
  import opened Calmness
  import opened Stillness
  import opened Writes

  lemma Brackets(digest: Digest, w: W, k: Key)
    ensures Bracketed(w, k, Pass(digest, w, k))
  {
    hide Next, Update, Store, Along, Held, Weathered, Kept, World.Valid;
    if w.Valid() && w.weather.Calm? && k in w.objects {
      if w.objects[k].finalizer && w.objects[k].deleting { CalmDrop(w, k); }
      if !w.objects[k].finalizer && !w.objects[k].deleting { UpdateBecomes(w, k, w.objects[k].(finalizer := true)); }
    }
  }

  /** The policy on the server has the version and the statements of the spec, and so has the record. */
  lemma Creates(digest: Digest, w: W, k: Key)
    requires Awaiting(w, k)
    ensures
      var p, m := w.objects[k], w.minio;
      var id, spec := Place(p.spec.tenantRef, k.namespace, p.spec.name), p.spec.(migrate := false);
      Pass(digest, w, k) ==
      if id in m.policies && !p.spec.migrate then w
      else Becomes(w, k, p.(spec := spec, status := Some(spec)),
          m.(policies := m.policies[id := Doc(p.spec.version, p.spec.statement)]))
  {
    hide Next, Update, Store, Send, Along, Held, Weathered, Kept, World.Valid;
    var p := w.objects[k];
    var q := AddCannedPolicy(Place(p.spec.tenantRef, k.namespace, p.spec.name), Doc(p.spec.version, p.spec.statement));
    CalmSend(w, q);
    UpdateBecomes(Send(w, q).0, k, Created(p));
  }

  /**
   A change of version or of any statement is written to the policy on record and recorded; else the
   policy is rewritten as recorded if its hash has changed. A lost policy is forgotten.
   */
  lemma Checks(digest: Digest, w: W, k: Key)
    requires Keeping(w, k)
    ensures
      var p, r, m := w.objects[k], w.objects[k].status.value, w.minio;
      var id, version, statement := Place(r.tenantRef, k.namespace, r.name), p.spec.version, p.spec.statement;
      var v := Becomes(w, k, p.(spec := p.spec.(migrate := false)), m);
      Pass(digest, w, k) ==
      if id !in m.policies then Becomes(v, k, v.objects[k].(status := None), m)
      else if r.version != version || r.statement != statement then
        Becomes(v, k, v.objects[k].(status := Some(r.(version := version, statement := statement))),
            m.(policies := m.policies[id := Doc(version, statement)]))
      else if SameHash(digest, m.policies[id], Doc(version, statement)) then v
      else v.(minio := m.(policies := m.policies[id := Doc(version, statement)]))
  {
    hide Next, Update, Store, Send, Along, Held, Weathered, Kept, World.Valid, SameHash;
    var p, r := w.objects[k], w.objects[k].status.value;
    UpdateBecomes(w, k, Settled(p));
    var v := Becomes(w, k, Settled(p), w.minio);
    UpdateBecomes(v, k, v.objects[k].(status := None));
    var q := AddCannedPolicy(Place(r.tenantRef, k.namespace, r.name), Doc(p.spec.version, p.spec.statement));
    CalmSend(v, q);
    UpdateBecomes(Send(v, q).0, k, Revised(v.objects[k]));
  }

  /** The policy on record is removed, wherever the spec now points, unless it is attached. */
  lemma Deletes(digest: Digest, w: W, k: Key)
    requires Leaving(w, k)
    ensures
      var p, r, m := w.objects[k], w.objects[k].status.value, w.minio;
      var id := Place(r.tenantRef, k.namespace, r.name);
      Pass(digest, w, k) ==
      if exists a | a in m.attachments :: a.policy == id then w
      else Becomes(w, k, p.(status := None), m.(policies := m.policies - {id}))
  {
    hide Next, Update, Store, Send, Along, Held, Weathered, Kept, World.Valid;
    var p, r := w.objects[k], w.objects[k].status.value;
    var q := RemoveCannedPolicy(Place(r.tenantRef, k.namespace, r.name));
    CalmSend(w, q);
    UpdateBecomes(Send(w, q).0, k, p.(status := None));
  }

  /** Leaving the tenant's namespace out comes to the same as writing the resource's own. */
  lemma NamespaceDefaults(digest: Digest, w: W, k: Key)
    requires Awaiting(w, k) && w.objects[k].spec.tenantRef.namespace == ""
    ensures
      var g, ref := w.objects[k], ResourceRef(w.objects[k].spec.tenantRef.name, k.namespace);
      Pass(digest, w.(objects := w.objects[k := g.(spec := g.spec.(tenantRef := ref))]), k).minio ==
          Pass(digest, w, k).minio
  {
    hide Pass, World.Valid;
    var g, ref := w.objects[k], ResourceRef(w.objects[k].spec.tenantRef.name, k.namespace);
    var x := w.(objects := w.objects[k := g.(spec := g.spec.(tenantRef := ref))]);
    Rewritten(w, k, x.objects[k]);
    Creates(digest, w, k);
    Creates(digest, x, k);
  }

  /** If the record is not that of `p` any more, it has its version and statements, and so has the policy it names. */
  ghost predicate Truthful(v: W, k: Key, p: Resource) {
    k in v.objects && v.objects[k].status.Some? && v.objects[k].status != p.status ==>
      var r := v.objects[k].status.value;
      var id := Place(r.tenantRef, k.namespace, r.name);
      && r.version == p.spec.version && r.statement == p.spec.statement
      && id in v.minio.policies && v.minio.policies[id] == Doc(r.version, r.statement)
  }

  /** A pass in which others do not act has come to `w` with the record of `p` unchanged. */
  ghost predicate Untold(w: W, k: Key, p: Resource) {
    w.Valid() && Still(w.weather) && (k in w.objects ==> w.objects[k].status == p.status)
  }

  lemma AskUntold(w: W, k: Key, p: Resource)
    requires Untold(w, k, p)
    ensures Untold(Ask(w).0, k, p) && Ask(w).0.objects == w.objects
  {
    hide Ask, Still, World.Valid;
    AskStill(w);
  }

  lemma AdoptTruthful(w: W, k: Key, p: Resource, o: Resource)
    requires Untold(w, k, p) && o.status.Some?
    requires o.status.value.version == p.spec.version && o.status.value.statement == p.spec.statement
    ensures
      var r := o.status.value;
      Truthful(Adopt(w, k, o, AddCannedPolicy(Place(r.tenantRef, k.namespace, r.name), p.spec.Document()), {}), k, p)
  {
    hide Ask, Still, World.Valid, Send, Update, Store, Kept, Weathered;
    var r := o.status.value;
    var q := AddCannedPolicy(Place(r.tenantRef, k.namespace, r.name), p.spec.Document());
    SendStill(w, q);
    UpdateStill(Send(w, q).0, k, o);
  }

  lemma UpdateUntold(w: W, k: Key, p: Resource, o: Resource)
    requires Untold(w, k, p) && (o.status == p.status || o.status.None?)
    ensures
      var (v, err, s) := Update(w, k, o);
      && Truthful(v, k, p) && (o.status == p.status ==> Untold(v, k, p)) && s == o.(version := s.version)
  {
    hide Still, World.Valid, Update, Store, Kept, Weathered;
    UpdateStill(w, k, o);
  }

  lemma CompareTruthful(digest: Digest, w: W, k: Key, p: Resource, o: Resource)
    requires Untold(w, k, p) && o.status.Some? && o.status == p.status
    requires o.spec.version == p.spec.version && o.spec.statement == p.spec.statement
    ensures Truthful(Compare(digest, w, k, o), k, p)
  {
    hide Ask, Still, World.Valid, Send, Update, Store, Kept, Weathered, SameHash, Adopt;
    AskUntold(w, k, p);
    var x := Ask(w).0;
    AskUntold(x, k, p);
    var y := Ask(x).0;
    var r := o.status.value;
    AdoptTruthful(y, k, p, Revised(o));
    UpdateUntold(y, k, p, o.(status := None));
    SendStill(y, AddCannedPolicy(Place(r.tenantRef, k.namespace, r.name), r.Document()));
  }

  lemma CreateTruthful(w: W, k: Key, p: Resource)
    requires Untold(w, k, p)
    ensures Truthful(Create(w, k, p), k, p)
  {
    hide Ask, Still, World.Valid, Send, Update, Store, Kept, Weathered, Adopt;
    AskUntold(w, k, p);
    AskUntold(Ask(w).0, k, p);
    AdoptTruthful(Ask(Ask(w).0).0, k, p, Created(p));
  }

  lemma TeardownTruthful(w: W, k: Key, p: Resource)
    requires Untold(w, k, p)
    ensures Truthful(Teardown(w, k, p), k, p)
  {
    hide Ask, Still, World.Valid, Send, Update, Store, Kept, Weathered;
    AskUntold(w, k, p);
    UpdateUntold(w, k, p, p.(finalizer := false));
    if p.status.Some? {
      var r, x := p.status.value, Ask(w).0;
      var q := RemoveCannedPolicy(Place(r.tenantRef, k.namespace, r.name));
      SendStill(x, q);
      UpdateUntold(Send(x, q).0, k, p, p.(status := None));
    }
  }

  /**
   Where calls fail or are cut off, but nobody else acts: whenever a pass makes a new record, it has the
   version and the statements of the spec, and the policy on the server has them too.
   */
  lemma RecordsWhatIsThere(digest: Digest, w: W, k: Key)
    requires w.Valid() && Still(w.weather) && k in w.objects
    ensures
      var v, p := Pass(digest, w, k), w.objects[k];
      k in v.objects && v.objects[k].status.Some? && v.objects[k].status != p.status ==>
        var r := v.objects[k].status.value;
        var id := Place(r.tenantRef, k.namespace, r.name);
        && r.version == p.spec.version && r.statement == p.spec.statement
        && id in v.minio.policies && v.minio.policies[id] == Doc(r.version, r.statement)
  {
    hide Ask, Still, World.Valid, Update, Store, Kept, Weathered, Create, Compare, Teardown;
    var p, x := w.objects[k], Ask(w).0;
    AskUntold(w, k, p);
    TeardownTruthful(x, k, p);
    UpdateUntold(x, k, p, p.(finalizer := true));
    CreateTruthful(x, k, p);
    if p.status.Some? {
      UpdateUntold(x, k, p, Settled(p));
      var (y, _, o) := if p.spec.migrate then Update(x, k, Settled(p)) else (x, Nil, p);
      CompareTruthful(digest, y, k, p, o);
    }
  }
}

/** What a pass over a group binding resource writes. */
module GroupBindingWrites {
  import opened Prelude
  import opened Minio
  import opened Kube
  import opened GroupBindings
  import opened Addresses
  import opened Calmness
  import opened Writes

  lemma Brackets(w: W, k: Key)
    ensures Bracketed(w, k, Pass(w, k))
  {
    hide Next, Update, Store, Along, Held, Weathered, Kept, World.Valid;
    if w.Valid() && w.weather.Calm? && k in w.objects {
      if w.objects[k].finalizer && w.objects[k].deleting { CalmDrop(w, k); }
      if !w.objects[k].finalizer && !w.objects[k].deleting { UpdateBecomes(w, k, w.objects[k].(finalizer := true)); }
    }
  }

  /** The user becomes a member of the group, both being there, and the membership is recorded. */
  lemma Creates(w: W, k: Key)
    requires Awaiting(w, k)
    ensures
      var b, m := w.objects[k], w.minio;
      var group, user := Place(b.spec.tenantRef, k.namespace, b.spec.group),
          Place(b.spec.tenantRef, k.namespace, b.spec.user);
      var one, spec := Membership(group, b.spec.user), b.spec.(migrate := false);
      Pass(w, k) ==
      if group !in m.groups || user !in m.users || (one in m.members && !b.spec.migrate) then w
      else Becomes(w, k, b.(spec := spec, status := Some(spec)), m.(members := m.members + {one}))
  {
    hide Next, Update, Store, Send, Along, Held, Weathered, Kept, World.Valid;
    var b := w.objects[k];
    var q := AddMember(Place(b.spec.tenantRef, k.namespace, b.spec.group), b.spec.user);
    CalmSend(w, q);
    UpdateBecomes(Send(w, q).0, k, Created(b));
    assert Place(b.spec.tenantRef, k.namespace, b.spec.group) in w.minio.groups ==>
        w.minio.groups + {Place(b.spec.tenantRef, k.namespace, b.spec.group)} == w.minio.groups;
  }

  /** A record that is no longer the spec is ended, and the membership it names with it. */
  lemma Checks(w: W, k: Key)
    requires Keeping(w, k)
    ensures
      var b, r, m := w.objects[k], w.objects[k].status.value, w.minio;
      var group, spec := Place(r.tenantRef, k.namespace, r.group), b.spec.(migrate := false);
      var v := Becomes(w, k, b.(spec := spec), m);
      Pass(w, k) ==
      if group !in m.groups || (Membership(group, r.user) in m.members && r == spec) then v
      else Becomes(v, k, v.objects[k].(status := None), m.(members := m.members - {Membership(group, r.user)}))
  {
    hide Next, Update, Store, Send, Along, Held, Weathered, Kept;
    var b, r := w.objects[k], w.objects[k].status.value;
    UpdateBecomes(w, k, Settled(b));
    var v := Becomes(w, k, Settled(b), w.minio);
    UpdateBecomes(v, k, v.objects[k].(status := None));
    var group := Place(r.tenantRef, k.namespace, r.group);
    var q := RemoveMember(group, r.user);
    CalmSend(v, q);
    UpdateBecomes(Send(v, q).0, k, v.objects[k].(status := None));
    if Membership(group, r.user) !in w.minio.members {
      assert w.minio.members - {Membership(group, r.user)} == w.minio.members;
    }
  }

  /** The membership on record is ended, unless its group has gone while its user stays. */
  lemma Deletes(w: W, k: Key)
    requires Leaving(w, k)
    ensures
      var b, r, m := w.objects[k], w.objects[k].status.value, w.minio;
      var group, user := Place(r.tenantRef, k.namespace, r.group), Place(r.tenantRef, k.namespace, r.user);
      Pass(w, k) ==
      if group !in m.groups && user in m.users then w
      else Becomes(w, k, b.(status := None), m.(members := m.members - {Membership(group, r.user)}))
  {
    hide Next, Update, Store, Send, Along, Held, Weathered, Kept;
    var b, r := w.objects[k], w.objects[k].status.value;
    var group := Place(r.tenantRef, k.namespace, r.group);
    var q := RemoveMember(group, r.user);
    CalmSend(w, q);
    UpdateBecomes(Send(w, q).0, k, b.(status := None));
    if Membership(group, r.user) !in w.minio.members {
      assert w.minio.members - {Membership(group, r.user)} == w.minio.members;
    }
  }

  /** Leaving the tenant's namespace out comes to the same as writing the resource's own. */
  lemma NamespaceDefaults(w: W, k: Key)
    requires Awaiting(w, k) && w.objects[k].spec.tenantRef.namespace == ""
    ensures
      var g, ref := w.objects[k], ResourceRef(w.objects[k].spec.tenantRef.name, k.namespace);
      Pass(w.(objects := w.objects[k := g.(spec := g.spec.(tenantRef := ref))]), k).minio == Pass(w, k).minio
  {
    hide Pass, World.Valid;
    var g, ref := w.objects[k], ResourceRef(w.objects[k].spec.tenantRef.name, k.namespace);
    var x := w.(objects := w.objects[k := g.(spec := g.spec.(tenantRef := ref))]);
    Rewritten(w, k, x.objects[k]);
    Creates(w, k);
    Creates(x, k);
  }
}

/** What a pass over a policy binding resource writes. */
module PolicyBindingWrites {
  import opened Prelude
  import opened Minio
  import opened Kube
  import opened PolicyBindings
  import PolicyBindingProgress
  import opened Addresses
  import opened Calmness
  import opened Writes

  lemma Brackets(w: W, k: Key)
    ensures Bracketed(w, k, Pass(w, k))
  {
    hide Next, Update, Store, Along, Held, Weathered, Kept, World.Valid;
    if w.Valid() && w.weather.Calm? && k in w.objects {
      if w.objects[k].finalizer && w.objects[k].deleting { CalmDrop(w, k); }
      if !w.objects[k].finalizer && !w.objects[k].deleting { UpdateBecomes(w, k, w.objects[k].(finalizer := true)); }
    }
  }

  /** The spec names one identity: a group or a user, all of LDAP as soon as there is one of LDAP. */
  predicate One(spec: PolicyBindingSpec) {
    if spec.group.ldap == "" && spec.user.ldap == "" then (spec.group.builtin == "") != (spec.user.builtin == "")
    else (spec.group.ldap == "") != (spec.user.ldap == "")
  }

  /** `a` is the attachment the spec means on its tenant. */
  ghost predicate Names(w: W, base: string, spec: PolicyBindingSpec, k: Key, a: Attachment) {
    && IsBase(IdpOf(w.minio.idp, Place(spec.tenantRef, k.namespace, spec.policy).tenant), base)
    && One(spec) && Meant(a, base, spec, k.namespace) && a.entity.name != ""
  }

  /** A spec that names one identity means one attachment, which is the one requests lead to. */
  lemma NamesTarget(w: W, base: string, spec: PolicyBindingSpec, k: Key, a: Attachment)
    requires IsBase(IdpOf(w.minio.idp, Place(spec.tenantRef, k.namespace, spec.policy).tenant), base)
    ensures One(spec) <==> spec.Entity().Some?
    ensures Names(w, base, spec, k, a) <==> One(spec) && a == Target(w.minio.idp, spec, k.namespace)
  {
    hide UserDn, IsDn, SearchBase, IsBase, IdpOf;
    var info := IdpOf(w.minio.idp, Place(spec.tenantRef, k.namespace, spec.policy).tenant);
    SearchBaseIs(info);
    BaseUnique(info, base, SearchBase(info));
    if a.entity.LdapUser? { UserDnIs(spec.user.ldap, base, a.entity.name); }
    UserDnIs(spec.user.ldap, base, UserDn(spec.user.ldap, base));
    DnNamed(spec.user.ldap, base);
  }

  /** The attachment is made and recorded, its policy and its identity being there. */
  lemma Creates(w: W, k: Key, base: string, a: Attachment)
    requires Awaiting(w, k) && Names(w, base, w.objects[k].spec, k, a)
    ensures
      var b, m, spec := w.objects[k], w.minio, w.objects[k].spec.(migrate := false);
      Pass(w, k) ==
      if a.policy !in m.policies || !m.Known(a.policy.tenant, a.entity) ||
          (a in m.attachments && !b.spec.migrate) then w
      else Becomes(w, k, b.(spec := spec, status := Some(spec)), m.(attachments := m.attachments + {a}))
  {
    hide Next, Update, Store, Send, Along, Held, Weathered, Kept, World.Valid, IsBase, IsDn, IdpOf, UserDn, SearchBase;
    var b := w.objects[k];
    NamesTarget(w, base, b.spec, k, a);
    var q := AttachPolicy(a.policy, b.spec.Entity().value);
    CalmSend(w, q);
    UpdateBecomes(Send(w, q).0, k, Created(b));
    if a in w.minio.attachments { assert w.minio.attachments + {a} == w.minio.attachments; }
  }

  /** Without one identity nothing is attached. */
  lemma LeavesUnclear(w: W, k: Key)
    requires Awaiting(w, k) && !One(w.objects[k].spec)
    ensures Pass(w, k) == w
  {
    hide Next, Update, Store, Send, Along, Held, Weathered, Kept, World.Valid;
  }

  lemma DetachBecomes(w: W, k: Key, b: Resource, base: string, a: Attachment)
    requires Calmed(w, k) && w.objects[k] == b && b.status.Some? && Names(w, base, b.status.value, k, a)
    ensures
      DetachPolicyMember(w, k, b) ==
      if w.minio.strictDetach && w.minio.Known(a.policy.tenant, a.entity) && a !in w.minio.attachments then w
      else Becomes(w, k, b.(status := None), w.minio.(attachments := w.minio.attachments - {a}))
  {
    hide Next, Update, Store, Send, Along, Held, Weathered, Kept, IsBase, IsDn, IdpOf, UserDn, SearchBase;
    var r := b.status.value;
    NamesTarget(w, base, r, k, a);
    var q := DetachPolicy(a.policy, r.Entity().value);
    CalmSend(w, q);
    UpdateBecomes(Send(w, q).0, k, b.(status := None));
    if a !in w.minio.attachments { assert w.minio.attachments - {a} == w.minio.attachments; }
  }

  lemma SearchBecomes(w: W, k: Key, b: Resource, base: string, a: Attachment)
    requires Calmed(w, k) && w.objects[k] == b && b.status.Some? && Names(w, base, b.status.value, k, a)
    ensures
      Search(w, k, b) ==
      if a.policy !in w.minio.policies || a in w.minio.attachments then w
      else Becomes(w, k, b.(status := None), w.minio)
  {
    hide Next, Update, Store, Send, Along, Held, Weathered, Kept, IsBase, IsDn, IdpOf, UserDn, SearchBase, Found;
    var r := b.status.value;
    NamesTarget(w, base, r, k, a);
    PolicyBindingProgress.AttachmentsKnown(w);
    FoundIsTarget(w.minio.idp, w.minio.attachments, r, k.namespace);
    UpdateBecomes(w, k, b.(status := None));
  }

  /** A record that is no longer the spec is detached and forgotten; a lost attachment is forgotten. */
  lemma Checks(w: W, k: Key, base: string, a: Attachment)
    requires Keeping(w, k) && Names(w, base, w.objects[k].status.value, k, a)
    ensures
      var b, r, m := w.objects[k], w.objects[k].status.value, w.minio;
      var v := Becomes(w, k, b.(spec := b.spec.(migrate := false)), m);
      var there := a in m.attachments;
      Pass(w, k) ==
      if r == b.spec.(migrate := false) then
        if a.policy !in m.policies || there then v else Becomes(v, k, v.objects[k].(status := None), m)
      else if m.strictDetach && m.Known(a.policy.tenant, a.entity) && !there then v
      else Becomes(v, k, v.objects[k].(status := None), m.(attachments := m.attachments - {a}))
  {
    hide Next, Update, Store, Send, Along, Held, Weathered, Kept, World.Valid, IsBase, IsDn, DetachPolicyMember, Search;
    var b, r := w.objects[k], w.objects[k].status.value;
    UpdateBecomes(w, k, Settled(b));
    var v := Becomes(w, k, Settled(b), w.minio);
    if r == v.objects[k].spec {
      SearchBecomes(v, k, v.objects[k], base, a);
    } else {
      DetachBecomes(v, k, v.objects[k], base, a);
    }
  }

  /** The attachment on record is detached, wherever the spec now points. */
  lemma Deletes(w: W, k: Key, base: string, a: Attachment)
    requires Leaving(w, k) && Names(w, base, w.objects[k].status.value, k, a)
    ensures
      var m := w.minio;
      Pass(w, k) ==
      if m.strictDetach && m.Known(a.policy.tenant, a.entity) && a !in m.attachments then w
      else Becomes(w, k, w.objects[k].(status := None), m.(attachments := m.attachments - {a}))
  {
    hide Next, Update, Store, Send, Along, Held, Weathered, Kept, World.Valid, IsBase, IsDn, DetachPolicyMember;
    DetachBecomes(w, k, w.objects[k], base, a);
  }

  /** Leaving the tenant's namespace out comes to the same as writing the resource's own. */
  lemma NamespaceDefaults(w: W, k: Key, base: string, a: Attachment)
    requires Awaiting(w, k) && w.objects[k].spec.tenantRef.namespace == "" && Names(w, base, w.objects[k].spec, k, a)
    ensures
      var g, ref := w.objects[k], ResourceRef(w.objects[k].spec.tenantRef.name, k.namespace);
      Pass(w.(objects := w.objects[k := g.(spec := g.spec.(tenantRef := ref))]), k).minio == Pass(w, k).minio
  {
    hide Pass, World.Valid, IsBase, IsDn;
    var g, ref := w.objects[k], ResourceRef(w.objects[k].spec.tenantRef.name, k.namespace);
    var x := w.(objects := w.objects[k := g.(spec := g.spec.(tenantRef := ref))]);
    Rewritten(w, k, x.objects[k]);
    Creates(w, k, base, a);
    Creates(x, k, base, a);
  }
}
