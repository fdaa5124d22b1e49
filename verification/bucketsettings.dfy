/**
 What a revision of a bucket's settings comes to. The operator first writes the settings on record
 and then the settings asked for; together, and however often they are cut short, the two amount to
 a single write.
 */
module BucketSettings {
  import opened Prelude
  import opened Minio
  import opened Kube
  import opened Buckets
  import opened Runs

  /** The versioning a revision leads to. */
  function EndVersioning(remote: Versioning, recorded: Option<Versioning>, wanted: Option<Versioning>): Versioning {
    if wanted != recorded then WrittenVersioning(wanted)
    else if remote != NilToEmpty(recorded, NO_VERSIONING) then WrittenVersioning(recorded)
    else remote
  }

  /**
   A single write of the versioning asked for would lead to the same; where none is asked for, a
   bucket that was never versioned and never meant to be stays so, and any other is suspended.
   */
  lemma VersioningIsOneWrite(remote: Versioning, recorded: Option<Versioning>, wanted: Option<Versioning>)
    ensures wanted.Some? ==> EndVersioning(remote, recorded, wanted) == wanted.value
    ensures wanted.None? ==>
      EndVersioning(remote, recorded, wanted) == if remote == NO_VERSIONING && recorded.None? then NO_VERSIONING
          else SUSPENDED
    ensures wanted.None? ==> EndVersioning(remote, recorded, wanted).status != "Enabled"
  {
    if wanted.None? {
      assert "Suspended"[0] == 'S' && "Enabled"[0] == 'E';
    }
  }

  /** The bucket after a revision: versioning and lifecycle as asked for, and what it holds. */
  function EndBucket(remote: Bucket, recorded: BucketSpec, wanted: BucketSpec): Bucket {
    Bucket(EndVersioning(remote.versioning, recorded.versioning, wanted.versioning),
        WrittenLifecycle(wanted.lifecycle), remote.empty)
  }

  /** The record after a revision. */
  function EndRecord(recorded: BucketSpec, wanted: BucketSpec): BucketSpec {
    recorded.(versioning := wanted.versioning, lifecycle := wanted.lifecycle, deletionPolicy := wanted.deletionPolicy)
  }

  /** Left to the operator, the resource under `k` leads its bucket to `end` and its record to `record`. */
  ghost predicate Leads(w: W, k: Key, id: RemoteId, end: Bucket, record: BucketSpec) {
    && w.Valid() && Still(w.weather)
    && k in w.objects && id in w.minio.buckets
    && var b := w.objects[k];
    && b.finalizer && !b.deleting && b.status.Some?
    && Target(w.minio.idp, b.status.value, k.namespace) == id
    && EndBucket(w.minio.buckets[id], b.status.value, b.spec) == end
    && EndRecord(b.status.value, b.spec) == record
  }

  /** The same while a pass that holds `b` is under way. */
  ghost predicate Leading(w: W, k: Key, b: Resource, id: RemoteId, end: Bucket, record: BucketSpec) {
    Leads(w, k, id, end, record) && w.objects[k] == b
  }

  lemma AskLeads(w: W, k: Key, b: Resource, id: RemoteId, end: Bucket, record: BucketSpec)
    requires Leading(w, k, b, id, end, record)
    ensures Leading(Ask(w).0, k, b, id, end, record) && Ask(w).0.minio == w.minio
    ensures w.weather.Calm? ==> Ask(w) == (w, Nil)
  {
    hide Next, Still, World.Valid, EndBucket, EndRecord;
    NextStill(w);
  }

  lemma StoreLeads(w: W, k: Key, b: Resource, p: Resource, id: RemoteId, end: Bucket, record: BucketSpec)
    requires Leading(w, k, b, id, end, record)
    requires p.version == b.version && p.finalizer && !p.deleting && p.status.Some?
    requires Target(w.minio.idp, p.status.value, k.namespace) == id
    requires EndBucket(w.minio.buckets[id], p.status.value, p.spec) == end
    requires EndRecord(p.status.value, p.spec) == record
    ensures Leading(Store(w, k, p).0, k, Store(w, k, p).2, id, end, record) && Store(w, k, p).1 == Nil
    ensures Store(w, k, p).2 == p.(version := Store(w, k, p).2.version)
  {
    hide Still, EndBucket, EndRecord;
  }

  lemma StoreMinio(w: W, k: Key, p: Resource)
    ensures Store(w, k, p).0.minio == w.minio
  {
  }

  lemma UpdateLeads(w: W, k: Key, b: Resource, p: Resource, id: RemoteId, end: Bucket, record: BucketSpec)
    requires Leading(w, k, b, id, end, record)
    requires p.version == b.version && p.finalizer && !p.deleting && p.status.Some?
    requires Target(w.minio.idp, p.status.value, k.namespace) == id
    requires EndBucket(w.minio.buckets[id], p.status.value, p.spec) == end
    requires EndRecord(p.status.value, p.spec) == record
    ensures var r := Update(w, k, p);
      && Leads(r.0, k, id, end, record) && r.0.minio == w.minio
      && (r.1 == Nil ==> Leading(r.0, k, r.2, id, end, record))
      && (w.weather.Calm? ==> r.1 == Nil && r.0.weather.Calm?)
  {
    hide Still, World.Valid, EndBucket, EndRecord, Store, Next;
    var v := Next(w).0;
    NextStill(w);
    StoreLeads(v, k, b, p, id, end, record);
    assert Store(v, k, p).0.minio == w.minio by { StoreMinio(v, k, p); }
    assert Update(w, k, p).0 == v || Update(w, k, p).0 == Store(v, k, p).0;
  }

  lemma SendLeads(w: W, k: Key, b: Resource, q: Request, id: RemoteId, end: Bucket, record: BucketSpec)
    requires Leading(w, k, b, id, end, record)
    requires q.SetBucketVersioning? || q.SetBucketLifecycle?
    requires q.id == id
    requires var x := w.minio.Serve(q).0; id in x.buckets && EndBucket(x.buckets[id], b.status.value, b.spec) == end
    ensures var r := Send(w, q);
      && Leading(r.0, k, b, id, end, record) && (r.1 == Nil ==> r.0.minio == w.minio.Serve(q).0)
      && (w.weather.Calm? ==> r.1 == Nil && r.0.weather.Calm?)
  {
    hide Still, EndBucket, EndRecord, Next, Server.Valid;
    NextStill(w);
    ServeValid(w.minio, q);
    ServeConfig(w.minio, q);
  }

  /** Either write of the phase, and the record that follows, leave the end where it was. */
  lemma VersioningWritesAgree(remote: Versioning, recorded: Option<Versioning>, wanted: Option<Versioning>)
    ensures
      var end := EndVersioning(remote, recorded, wanted);
      && (remote != NilToEmpty(recorded, NO_VERSIONING) ==>
          EndVersioning(WrittenVersioning(recorded), recorded, wanted) == end)
      && (wanted != recorded ==> end == WrittenVersioning(wanted))
      && (wanted != recorded ==> end == EndVersioning(end, recorded, wanted) == EndVersioning(end, wanted, wanted))
      && (wanted == recorded && remote == NilToEmpty(recorded, NO_VERSIONING) ==> remote == end)
      && (wanted == recorded && remote != NilToEmpty(recorded, NO_VERSIONING) ==> WrittenVersioning(recorded) == end)
  {
  }

  lemma WriteVersioningLeads(w: W, k: Key, b: Resource, v: Versioning, id: RemoteId, end: Bucket, record: BucketSpec)
    requires Leading(w, k, b, id, end, record)
    requires EndVersioning(v, b.status.value.versioning, b.spec.versioning) == end.versioning
    ensures var r := Send(w, SetBucketVersioning(id, v));
      && Leading(r.0, k, b, id, end, record)
      && (r.1 == Nil ==> r.0.minio.buckets[id] == w.minio.buckets[id].(versioning := v))
      && (w.weather.Calm? ==> r.1 == Nil && r.0.weather.Calm?)
  {
    hide Next, World.Valid, Send, Still, EndRecord, EndVersioning, WrittenLifecycle;
    SendLeads(w, k, b, SetBucketVersioning(id, v), id, end, record);
  }

  lemma WriteLifecycleLeads(w: W, k: Key, b: Resource, l: Lifecycle, id: RemoteId, end: Bucket, record: BucketSpec)
    requires Leading(w, k, b, id, end, record)
    ensures var r := Send(w, SetBucketLifecycle(id, l));
      && Leading(r.0, k, b, id, end, record)
      && (r.1 == Nil ==> r.0.minio.buckets[id] == w.minio.buckets[id].(lifecycle := l))
      && (w.weather.Calm? ==> r.1 == Nil && r.0.weather.Calm?)
  {
    hide Next, World.Valid, Send, Still, EndRecord, EndVersioning, WrittenLifecycle;
    SendLeads(w, k, b, SetBucketLifecycle(id, l), id, end, record);
  }

  lemma RecordVersioningLeads(w: W, k: Key, b: Resource, id: RemoteId, end: Bucket, record: BucketSpec)
    requires Leading(w, k, b, id, end, record) && b.spec.versioning != b.status.value.versioning
    requires w.minio.buckets[id].versioning == end.versioning
    ensures var r := Update(w, k, b.(status := Some(b.status.value.(versioning := b.spec.versioning))));
      && Leads(r.0, k, id, end, record) && r.0.minio == w.minio
      && (r.1 == Nil ==> Leading(r.0, k, r.2, id, end, record) && r.2.status.value.versioning == r.2.spec.versioning)
      && (w.weather.Calm? ==> r.1 == Nil && r.0.weather.Calm?)
  {
    hide Next, World.Valid, Still, Store, EndVersioning, WrittenLifecycle;
    VersioningWritesAgree(w.minio.buckets[id].versioning, b.status.value.versioning, b.spec.versioning);
    var p := b.(status := Some(b.status.value.(versioning := b.spec.versioning)));
    UpdateLeads(w, k, b, p, id, end, record);
  }

  lemma RecordLifecycleLeads(w: W, k: Key, b: Resource, id: RemoteId, end: Bucket, record: BucketSpec)
    requires Leading(w, k, b, id, end, record)
    ensures var r := Update(w, k, b.(status := Some(b.status.value.(lifecycle := b.spec.lifecycle))));
      && Leads(r.0, k, id, end, record) && r.0.minio == w.minio
      && (r.1 == Nil ==> Leading(r.0, k, r.2, id, end, record) && r.2.status.value.lifecycle == r.2.spec.lifecycle)
      && (r.1 == Nil ==> r.2.status.value.versioning == b.status.value.versioning && r.2.spec == b.spec)
      && (w.weather.Calm? ==> r.1 == Nil && r.0.weather.Calm?)
  {
    hide Next, World.Valid, Still, Store, EndVersioning, WrittenLifecycle;
    UpdateLeads(w, k, b, b.(status := Some(b.status.value.(lifecycle := b.spec.lifecycle))), id, end, record);
  }

  /** The phase of versioning keeps to the way, and done without error it has come there. */
  lemma ReviseVersioningLeads(w: W, k: Key, b: Resource, id: RemoteId, end: Bucket, record: BucketSpec)
    requires Leading(w, k, b, id, end, record)
    ensures var r := ReviseVersioning(w, k, b);
      && Leads(r.0, k, id, end, record)
      && (r.1 == Nil ==> Leading(r.0, k, r.2, id, end, record) && r.2.status.value.versioning == r.2.spec.versioning)
      && (r.1 == Nil ==> r.0.minio.buckets[id].versioning == end.versioning)
      && (w.weather.Calm? ==> r.1 == Nil && r.0.weather.Calm?)
  {
    hide Next, World.Valid, Ask, Send, Update, Still, EndVersioning, WrittenLifecycle, WrittenVersioning, Target;
    hide EndRecord;
    var w1 := Ask(w).0;
    AskLeads(w, k, b, id, end, record);
    var recorded, wanted := b.status.value.versioning, b.spec.versioning;
    VersioningWritesAgree(w1.minio.buckets[id].versioning, recorded, wanted);
    var off := w1.minio.buckets[id].versioning != NilToEmpty(recorded, NO_VERSIONING);
    if off { WriteVersioningLeads(w1, k, b, WrittenVersioning(recorded), id, end, record); }
    var (w2, err) := if off then Send(w1, SetBucketVersioning(id, WrittenVersioning(recorded))) else (w1, Nil);
    if err == Nil && wanted != recorded {
      WriteVersioningLeads(w2, k, b, WrittenVersioning(wanted), id, end, record);
      var (w3, err) := Send(w2, SetBucketVersioning(id, WrittenVersioning(wanted)));
      if err == Nil { RecordVersioningLeads(w3, k, b, id, end, record); }
    }
  }

  lemma ReviseLifecycleLeads(w: W, k: Key, b: Resource, id: RemoteId, end: Bucket, record: BucketSpec)
    requires Leading(w, k, b, id, end, record)
    requires b.status.value.versioning == b.spec.versioning && w.minio.buckets[id].versioning == end.versioning
    ensures var r := ReviseLifecycle(w, k, b);
      && Leads(r.0, k, id, end, record)
      && (r.1 == Nil ==> Leading(r.0, k, r.2, id, end, record) && r.0.minio.buckets[id] == end)
      && (r.1 == Nil ==>
          r.2.status.value.versioning == r.2.spec.versioning && r.2.status.value.lifecycle == r.2.spec.lifecycle)
      && (w.weather.Calm? ==> r.1 == Nil && r.0.weather.Calm?)
  {
    hide Next, World.Valid, Ask, Send, Update, Still, EndVersioning, WrittenVersioning, Target, EndRecord;
    var w1 := Ask(w).0;
    AskLeads(w, k, b, id, end, record);
    var recorded, wanted := b.status.value.lifecycle, b.spec.lifecycle;
    var off := w1.minio.buckets[id].lifecycle != NilToEmpty(recorded, NO_LIFECYCLE);
    if off { WriteLifecycleLeads(w1, k, b, WrittenLifecycle(recorded), id, end, record); }
    var (w2, err) := if off then Send(w1, SetBucketLifecycle(id, WrittenLifecycle(recorded))) else (w1, Nil);
    if err == Nil && wanted != recorded {
      WriteLifecycleLeads(w2, k, b, WrittenLifecycle(wanted), id, end, record);
      var (w3, err) := Send(w2, SetBucketLifecycle(id, WrittenLifecycle(wanted)));
      if err == Nil { RecordLifecycleLeads(w3, k, b, id, end, record); }
    }
  }

  /** The resource has led its bucket and its record to the end. */
  ghost predicate Arrived(w: W, k: Key, id: RemoteId, end: Bucket, record: BucketSpec) {
    Leads(w, k, id, end, record) && w.minio.buckets[id] == end && w.objects[k].status == Some(record)
  }

  lemma RecordPolicyLeads(w: W, k: Key, b: Resource, id: RemoteId, end: Bucket, record: BucketSpec)
    requires Leading(w, k, b, id, end, record)
    requires b.status.value.versioning == b.spec.versioning && b.status.value.lifecycle == b.spec.lifecycle
    ensures var r := Update(w, k, b.(status := Some(b.status.value.(deletionPolicy := b.spec.deletionPolicy))));
      && Leads(r.0, k, id, end, record) && r.0.minio == w.minio
      && (r.1 == Nil ==> r.0.objects[k].status == Some(record))
      && (w.weather.Calm? ==> r.1 == Nil)
  {
    hide Next, World.Valid, Still, Store, EndVersioning, WrittenLifecycle, Update;
    var p := b.(status := Some(b.status.value.(deletionPolicy := b.spec.deletionPolicy)));
    UpdateLeads(w, k, b, p, id, end, record);
    Restamped(w, k, p);
  }

  lemma ReviseLeads(w: W, k: Key, b: Resource, id: RemoteId, end: Bucket, record: BucketSpec)
    requires Leading(w, k, b, id, end, record)
    ensures Leads(Revise(w, k, b), k, id, end, record)
    ensures w.weather.Calm? ==> Arrived(Revise(w, k, b), k, id, end, record)
  {
    hide Next, World.Valid, Ask, Send, Update, Still, EndBucket, Target, ReviseVersioning, ReviseLifecycle;
    var (w1, e1, b1) := ReviseVersioning(w, k, b);
    ReviseVersioningLeads(w, k, b, id, end, record);
    if e1 == Nil {
      var (w2, e2, b2) := ReviseLifecycle(w1, k, b1);
      ReviseLifecycleLeads(w1, k, b1, id, end, record);
      if e2 == Nil && b2.status.value.deletionPolicy != b2.spec.deletionPolicy {
        RecordPolicyLeads(w2, k, b2, id, end, record);
      }
    }
  }

  lemma CompareLeads(w: W, k: Key, b: Resource, id: RemoteId, end: Bucket, record: BucketSpec)
    requires Leading(w, k, b, id, end, record)
    ensures Leads(Compare(w, k, b), k, id, end, record)
    ensures w.weather.Calm? ==> Arrived(Compare(w, k, b), k, id, end, record)
  {
    hide Next, World.Valid, Ask, Update, Still, EndBucket, EndRecord, Revise;
    AskLeads(w, k, b, id, end, record);
    AskLeads(Ask(w).0, k, b, id, end, record);
    ReviseLeads(Ask(Ask(w).0).0, k, b, id, end, record);
  }

  /** A pass, cut short anywhere or not, keeps to the way; a pass without faults arrives. */
  lemma PassLeads(w: W, k: Key, id: RemoteId, end: Bucket, record: BucketSpec)
    requires Leads(w, k, id, end, record)
    ensures Leads(Pass(w, k), k, id, end, record)
    ensures w.weather.Calm? ==> Arrived(Pass(w, k), k, id, end, record)
  {
    hide Next, World.Valid, Ask, Update, Still, EndVersioning, WrittenLifecycle, Revise;
    var b := w.objects[k];
    AskLeads(w, k, b, id, end, record);
    var w1 := Ask(w).0;
    if Ask(w).1 == Nil {
      UpdateLeads(w1, k, b, Settled(b), id, end, record);
      var (w2, err, b2) := if b.spec.migrate then Update(w1, k, Settled(b)) else (w1, Nil, b);
      if err == Nil {
        if b.spec.migrate { Restamped(w1, k, Settled(b)); }
        CompareLeads(w2, k, b2, id, end, record);
      }
    }
  }

  lemma {:induction false} RunLeads(
    w: W, k: Key, turns: seq<Turn<BucketSpec>>, id: RemoteId, end: Bucket, record: BucketSpec)
    requires Leads(w, k, id, end, record)
    requires forall t | t in turns :: t.key == k && Still(t.weather)
    ensures Leads(Play(Pass, w, turns), k, id, end, record)
    decreases |turns|
  {
    hide World.Valid, EndBucket, EndRecord, Still, Pass;
    if turns != [] {
      var u := Begin(w, turns[0]);
      assert turns[0] in turns;
      ValidReweather(w, turns[0].weather);
      PassLeads(u, k, id, end, record);
      RunLeads(Pass(u, k), k, turns[1..], id, end, record);
    }
  }

  /**
   A revision cut short at any calls, any number of times, ends as the same pass would have ended
   without faults in the first place: with the settings of the spec on the bucket and on record.
   */
  lemma InterruptedEndsAlike(w: W, k: Key, turns: seq<Turn<BucketSpec>>)
    requires w.Valid() && k in w.objects
    requires w.objects[k].finalizer && !w.objects[k].deleting && w.objects[k].status.Some?
    requires Target(w.minio.idp, w.objects[k].status.value, k.namespace) in w.minio.buckets
    requires forall t | t in turns :: t.key == k && Still(t.weather)
    ensures
      var x, y := Pass(w.(weather := Calm), k), Pass(Play(Pass, w, turns).(weather := Calm), k);
      var b, id := w.objects[k], Target(w.minio.idp, w.objects[k].status.value, k.namespace);
      && k in x.objects && k in y.objects && id in x.minio.buckets && id in y.minio.buckets
      && x.minio.buckets[id] == y.minio.buckets[id] == EndBucket(w.minio.buckets[id], b.status.value, b.spec)
      && x.objects[k].status == y.objects[k].status == Some(EndRecord(b.status.value, b.spec))
  {
    hide World.Valid, EndBucket, EndRecord, Pass;
    var b, id := w.objects[k], Target(w.minio.idp, w.objects[k].status.value, k.namespace);
    var end, record := EndBucket(w.minio.buckets[id], b.status.value, b.spec), EndRecord(b.status.value, b.spec);
    var c := w.(weather := Calm);
    var v := Play(Pass, c, turns);
    ValidReweather(w, Calm);
    RunLeads(c, k, turns, id, end, record);
    PassLeads(c, k, id, end, record);
    ValidReweather(v, Calm);
    PassLeads(v.(weather := Calm), k, id, end, record);
    assert turns != [] ==> Begin(c, turns[0]) == Begin(w, turns[0]);
  }
}
