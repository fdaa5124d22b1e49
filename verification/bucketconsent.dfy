/** A bucket that holds something goes only where a user asked for it under the policy `Always`. */
module BucketConsent {
  import opened Prelude
  import opened Minio
  import opened Kube
  import Ownership
  import opened Buckets
  import opened Runs

  /** Some user once submitted the policy `Always` for the resource under `k`. */
  ghost predicate Asked(audit: set<(Key, BucketSpec)>, k: Key) {
    exists spec :: (k, spec) in audit && spec.deletionPolicy == ALWAYS
  }

  /** Where the resource says `Always`, a user asked for it. */
  ghost predicate Vouched(audit: set<(Key, BucketSpec)>, k: Key, b: Resource) {
    && (b.spec.deletionPolicy == ALWAYS ==> Asked(audit, k))
    && (b.status.Some? && b.status.value.deletionPolicy == ALWAYS ==> Asked(audit, k))
  }

  ghost predicate Consented(w: W) {
    forall k | k in w.objects :: Vouched(w.audit, k, w.objects[k])
  }

  /** The same, for a pass that has `b` in its hands. */
  ghost predicate Vouching(w: W, k: Key, b: Resource) {
    w.Valid() && Consented(w) && Vouched(w.audit, k, b)
  }

  lemma AskedGrows(a: set<(Key, BucketSpec)>, b: set<(Key, BucketSpec)>, k: Key)
    requires a <= b && Asked(a, k)
    ensures Asked(b, k)
  {
  }

  lemma VouchedGrows(a: set<(Key, BucketSpec)>, b: set<(Key, BucketSpec)>, k: Key, o: Resource)
    requires a <= b && Vouched(a, k, o)
    ensures Vouched(b, k, o)
  {
    hide Asked;
    if Asked(a, k) { AskedGrows(a, b, k); }
  }

  lemma ActVouches(w: W, a: Act<BucketSpec>, k: Key)
    requires k in w.objects ==> Vouched(Act1(w, a).audit, k, w.objects[k])
    ensures k in Act1(w, a).objects ==> Vouched(Act1(w, a).audit, k, Act1(w, a).objects[k])
  {
    hide Server.Serve;
    if a.Apply? {
      assert (a.key, a.spec) in Act1(w, a).audit;
    }
  }

  lemma ActConsents(w: W, a: Act<BucketSpec>)
    requires Consented(w)
    ensures Consented(Act1(w, a)) && w.audit <= Act1(w, a).audit
  {
    hide Server.Serve, Vouched;
    forall k | k in Act1(w, a).objects ensures Vouched(Act1(w, a).audit, k, Act1(w, a).objects[k]) {
      if k in w.objects { VouchedGrows(w.audit, Act1(w, a).audit, k, w.objects[k]); }
      ActVouches(w, a, k);
    }
  }

  lemma {:induction false} SettleConsents(w: W, acts: seq<Act<BucketSpec>>)
    requires Consented(w)
    ensures Consented(Settle(w, acts)) && w.audit <= Settle(w, acts).audit
    decreases |acts|
  {
    hide Act1, Consented;
    if acts != [] {
      ActConsents(w, acts[0]);
      SettleConsents(Act1(w, acts[0]), acts[1..]);
    }
  }

  lemma KeptValid(w: W, v: W)
    requires Kept(w, v)
    ensures v.Valid()
  {
  }

  lemma NextVouches(w: W, k: Key, b: Resource)
    requires Vouching(w, k, b)
    ensures Vouching(Next(w).0, k, b) && w.audit <= Next(w).0.audit
  {
    hide Settle, Vouched, Kept, Weathered;
    NextAlways(w);
    if w.weather.Storm? && w.weather.beats != [] {
      SettleConsents(w.(weather := Storm(w.weather.beats[1..])), w.weather.beats[0].acts);
      VouchedGrows(w.audit, Next(w).0.audit, k, b);
    }
    assert Next(w).0.Valid() by { assert Kept(w, Next(w).0); KeptValid(w, Next(w).0); }
  }

  lemma StoreVouches(w: W, k: Key, b: Resource)
    requires Vouching(w, k, b)
    ensures Vouching(Store(w, k, b).0, k, b) && Vouching(Store(w, k, b).0, k, Store(w, k, b).2)
    ensures w.audit == Store(w, k, b).0.audit
  {
    hide Asked;
  }

  /** Every call of a pass keeps what it has in its hands vouched for. */
  lemma AskVouches(w: W, k: Key, b: Resource)
    requires Vouching(w, k, b)
    ensures Vouching(Ask(w).0, k, b)
  {
    hide Next, Vouched, Consented;
    NextVouches(w, k, b);
  }

  lemma SendVouches(w: W, k: Key, b: Resource, q: Request)
    requires Vouching(w, k, b)
    ensures Vouching(Send(w, q).0, k, b)
  {
    hide Next, Vouched, Server.Serve, Server.Valid;
    NextVouches(w, k, b);
    ServeValid(Next(w).0.minio, q);
  }

  lemma UpdateVouches(w: W, k: Key, b: Resource)
    requires Vouching(w, k, b)
    ensures Vouching(Update(w, k, b).0, k, Update(w, k, b).2)
  {
    hide Next, Vouched, Consented, Store;
    NextVouches(w, k, b);
    StoreVouches(Next(w).0, k, b);
  }

  /** What a resource says under another setting or record of its own stays vouched for. */
  lemma OwnVouches(w: W, k: Key, b: Resource, f: bool)
    requires Vouching(w, k, b)
    ensures Vouching(w, k, Settled(b)) && Vouching(w, k, Created(b)) && Vouching(w, k, b.(status := None))
    ensures Vouching(w, k, b.(finalizer := f))
    ensures b.status.Some? ==>
      && Vouching(w, k, b.(status := Some(b.status.value.(versioning := b.spec.versioning))))
      && Vouching(w, k, b.(status := Some(b.status.value.(lifecycle := b.spec.lifecycle))))
      && Vouching(w, k, b.(status := Some(b.status.value.(deletionPolicy := b.spec.deletionPolicy))))
  {
    hide Asked, Consented, World.Valid;
  }

  lemma ReviseVersioningVouches(w: W, k: Key, b: Resource)
    requires Vouching(w, k, b) && b.status.Some?
    ensures Vouching(ReviseVersioning(w, k, b).0, k, ReviseVersioning(w, k, b).2)
  {
    hide Ask, Send, Update, Vouching, WrittenVersioning, Target;
    var id := Target(w.minio.idp, b.status.value, k.namespace);
    var q, r := SetBucketVersioning(id, WrittenVersioning(b.status.value.versioning)),
        SetBucketVersioning(id, WrittenVersioning(b.spec.versioning));
    AskVouches(w, k, b);
    var w1 := Ask(w).0;
    SendVouches(w1, k, b, q);
    var remote := if id in w1.minio.buckets then w1.minio.buckets[id] else NEW_BUCKET;
    var same := id in w1.minio.buckets && remote.versioning == NilToEmpty(b.status.value.versioning, NO_VERSIONING);
    var w2 := if same then w1 else Send(w1, q).0;
    SendVouches(w2, k, b, r);
    OwnVouches(Send(w2, r).0, k, b, true);
    UpdateVouches(Send(w2, r).0, k, b.(status := Some(b.status.value.(versioning := b.spec.versioning))));
  }

  lemma ReviseLifecycleVouches(w: W, k: Key, b: Resource)
    requires Vouching(w, k, b) && b.status.Some?
    ensures Vouching(ReviseLifecycle(w, k, b).0, k, ReviseLifecycle(w, k, b).2)
  {
    hide Ask, Send, Update, Vouching, WrittenLifecycle, Target;
    var id := Target(w.minio.idp, b.status.value, k.namespace);
    var q, r := SetBucketLifecycle(id, WrittenLifecycle(b.status.value.lifecycle)),
        SetBucketLifecycle(id, WrittenLifecycle(b.spec.lifecycle));
    AskVouches(w, k, b);
    var w1 := Ask(w).0;
    SendVouches(w1, k, b, q);
    var w2 := if id in w1.minio.buckets &&
        w1.minio.buckets[id].lifecycle == NilToEmpty(b.status.value.lifecycle, NO_LIFECYCLE)
        then w1 else Send(w1, q).0;
    SendVouches(w2, k, b, r);
    OwnVouches(Send(w2, r).0, k, b, true);
    UpdateVouches(Send(w2, r).0, k, b.(status := Some(b.status.value.(lifecycle := b.spec.lifecycle))));
  }

  lemma CompareVouches(w: W, k: Key, b: Resource)
    requires Vouching(w, k, b) && b.status.Some?
    ensures Compare(w, k, b).Valid() && Consented(Compare(w, k, b))
  {
    hide Ask, Update, Vouched, Consented, World.Valid, ReviseVersioning, ReviseLifecycle, Target;
    AskVouches(w, k, b);
    AskVouches(Ask(w).0, k, b);
    var w2 := Ask(Ask(w).0).0;
    OwnVouches(w2, k, b, true);
    UpdateVouches(w2, k, b.(status := None));
    ReviseVersioningVouches(w2, k, b);
    var (w3, e3, b3) := ReviseVersioning(w2, k, b);
    ReviseLifecycleVouches(w3, k, b3);
    var (w4, e4, b4) := ReviseLifecycle(w3, k, b3);
    OwnVouches(w4, k, b4, true);
    UpdateVouches(w4, k, b4.(status := Some(b4.status.value.(deletionPolicy := b4.spec.deletionPolicy))));
  }

  lemma CheckVouches(w: W, k: Key, b: Resource)
    requires Vouching(w, k, b) && b.status.Some?
    ensures Check(w, k, b).Valid() && Consented(Check(w, k, b))
  {
    hide Ask, Update, Vouched, Consented, World.Valid, Compare;
    OwnVouches(w, k, b, true);
    UpdateVouches(w, k, Settled(b));
    var (w1, err, b1) := if b.spec.migrate then Update(w, k, Settled(b)) else (w, Nil, b);
    if err == Nil { CompareVouches(w1, k, b1); }
  }

  lemma CreateVouches(w: W, k: Key, b: Resource)
    requires Vouching(w, k, b)
    ensures Create(w, k, b).Valid() && Consented(Create(w, k, b))
  {
    hide Ask, Update, Vouched, Consented, World.Valid, Send;
    AskVouches(w, k, b);
    var id := Target(Ask(w).0.minio.idp, b.spec, k.namespace);
    SendVouches(Ask(w).0, k, b, MakeBucket(id));
    var w1 := Send(Ask(w).0, MakeBucket(id)).0;
    var q, r := SetBucketVersioning(id, NilToEmpty(b.spec.versioning, NO_VERSIONING)),
        SetBucketLifecycle(id, NilToEmpty(b.spec.lifecycle, NO_LIFECYCLE));
    SendVouches(w1, k, b, q);
    var w2 := if b.spec.versioning.Some? then Send(w1, q).0 else w1;
    SendVouches(w2, k, b, r);
    var w3 := if b.spec.lifecycle.Some? then Send(w2, r).0 else w2;
    OwnVouches(w3, k, b, true);
    UpdateVouches(w3, k, Created(b));
  }

  lemma TeardownVouches(w: W, k: Key, b: Resource)
    requires Vouching(w, k, b)
    ensures Teardown(w, k, b).Valid() && Consented(Teardown(w, k, b))
  {
    hide Ask, Update, Vouched, Consented, World.Valid, Send, Target;
    OwnVouches(w, k, b, false);
    UpdateVouches(w, k, b.(finalizer := false));
    if b.status.Some? {
      AskVouches(w, k, b);
      var w1 := Ask(w).0;
      var q := RemoveBucket(Target(w1.minio.idp, b.status.value, k.namespace), Forces(b.status.value));
      SendVouches(w1, k, b, q);
      OwnVouches(Send(w1, q).0, k, b, false);
      UpdateVouches(Send(w1, q).0, k, b.(status := None));
    }
  }

  lemma AskConsents(w: W)
    requires w.Valid() && Consented(w)
    ensures Ask(w).0.Valid() && Consented(Ask(w).0)
  {
    hide Ask, Consented, World.Valid;
    var nothing := Object(BucketSpec("", None, false, "", ResourceRef("", ""), None), None, 0, false, false, 0);
    AskVouches(w, Key("", ""), nothing);
  }

  /** Whatever calls fail and whatever users edit, `Always` stands only where a user asked for it. */
  lemma PassConsents(w: W, k: Key)
    requires w.Valid() && Consented(w)
    ensures Pass(w, k).Valid() && Consented(Pass(w, k))
  {
    hide Ask, Update, Vouched, Teardown, Check, Create, World.Valid;
    AskConsents(w);
    var w1 := Ask(w).0;
    if Ask(w).1 == Nil && k in w1.objects {
      var b := w1.objects[k];
      TeardownVouches(w1, k, b);
      OwnVouches(w1, k, b, true);
      UpdateVouches(w1, k, b.(finalizer := true));
      if b.status.Some? { CheckVouches(w1, k, b); }
      CreateVouches(w1, k, b);
    }
  }

  lemma {:induction false} RunConsents(w: W, turns: seq<Turn<BucketSpec>>)
    requires w.Valid() && Consented(w)
    ensures Play(Pass, w, turns).Valid() && Consented(Play(Pass, w, turns))
    decreases |turns|
  {
    hide World.Valid, Vouched, Pass;
    if turns != [] {
      ValidReweather(w, turns[0].weather);
      PassConsents(Begin(w, turns[0]), turns[0].key);
      RunConsents(Pass(Begin(w, turns[0]), turns[0].key), turns[1..]);
    }
  }

  /** The bucket `id` is there and holds something, and nobody else will touch buckets. */
  ghost predicate Holds(w: W, id: RemoteId) {
    w.Valid() && Spares(w.weather, Part.Buckets, true) && id in w.minio.buckets && !w.minio.buckets[id].empty
  }

  lemma NextHolds(w: W, id: RemoteId)
    requires Holds(w, id)
    ensures Holds(Next(w).0, id)
  {
    hide Next, Spares, Along, Held, World.Valid;
    NextAlways(w);
    CalmlyRefl(w, Part.Buckets);
    assert Calmly(w, Next(w).0, Part.Buckets);
  }

  lemma ServeHolds(m: Server, q: Request, id: RemoteId)
    requires id in m.buckets && !m.buckets[id].empty
    requires (q.RemoveBucket? ==> q.id != id || !q.force) && !q.RemoveObjects?
    ensures var n := m.Serve(q).0; id in n.buckets && !n.buckets[id].empty
  {
  }

  lemma StoreHolds(w: W, k: Key, p: Resource, id: RemoteId)
    requires Holds(w, id)
    ensures Holds(Store(w, k, p).0, id)
  {
    hide Spares;
    StoreKeeps(w, k, p);
  }

  /** Only a request that forces the removal of this very bucket removes it. */
  lemma CallsHold(id: RemoteId)
    ensures forall w: W | Holds(w, id) :: Holds(Ask(w).0, id)
    ensures forall w: W, q: Request | Holds(w, id) && (q.RemoveBucket? ==> q.id != id || !q.force) &&
        !q.RemoveObjects? ::
        Holds(Send(w, q).0, id)
    ensures forall w: W, k: Key, p: Resource | Holds(w, id) :: Holds(Update(w, k, p).0, id)
  {
    hide Next, Spares, World.Valid, Store;
    forall w: W | Holds(w, id) ensures Holds(Ask(w).0, id) {
      NextHolds(w, id);
    }
    forall w: W, q: Request | Holds(w, id) && (q.RemoveBucket? ==> q.id != id || !q.force) && !q.RemoveObjects?
        ensures Holds(Send(w, q).0, id) {
      NextHolds(w, id);
      ServeHolds(Next(w).0.minio, q, id);
    }
    forall w: W, k: Key, p: Resource | Holds(w, id) ensures Holds(Update(w, k, p).0, id) {
      NextHolds(w, id);
      StoreHolds(Next(w).0, k, p, id);
    }
  }

  lemma ReviseVersioningHolds(w: W, k: Key, b: Resource, id: RemoteId)
    requires Holds(w, id) && b.status.Some?
    ensures Holds(ReviseVersioning(w, k, b).0, id)
  {
    hide Ask, Send, Update, Holds, WrittenVersioning, Target;
    CallsHold(id);
  }

  lemma ReviseLifecycleHolds(w: W, k: Key, b: Resource, id: RemoteId)
    requires Holds(w, id) && b.status.Some?
    ensures Holds(ReviseLifecycle(w, k, b).0, id)
  {
    hide Ask, Send, Update, Holds, WrittenLifecycle, Target;
    CallsHold(id);
  }

  lemma ReviseHolds(w: W, k: Key, b: Resource, id: RemoteId)
    requires Holds(w, id) && b.status.Some?
    ensures Holds(Revise(w, k, b), id)
  {
    hide Ask, Send, Update, Holds, ReviseVersioning, ReviseLifecycle;
    CallsHold(id);
    ReviseVersioningHolds(w, k, b, id);
    var (w1, e1, b1) := ReviseVersioning(w, k, b);
    ReviseLifecycleHolds(w1, k, b1, id);
  }

  /** A pass over a live resource leaves every bucket that holds something where it is. */
  lemma CheckHolds(w: W, k: Key, b: Resource, id: RemoteId)
    requires Holds(w, id) && b.status.Some?
    ensures Holds(Check(w, k, b), id)
  {
    hide Ask, Send, Update, Holds, Revise, Target;
    CallsHold(id);
    Restamped(w, k, Settled(b));
    var (w1, err, b1) := if b.spec.migrate then Update(w, k, Settled(b)) else (w, Nil, b);
    if err == Nil { ReviseHolds(Ask(Ask(w1).0).0, k, b1, id); }
  }

  lemma FurnishHolds(w: W, k: Key, b: Resource, made: RemoteId, id: RemoteId)
    requires Holds(w, id)
    ensures Holds(Furnish(w, k, b, made), id)
  {
    hide Ask, Send, Update, Holds;
    CallsHold(id);
  }

  lemma CreateHolds(w: W, k: Key, b: Resource, id: RemoteId)
    requires Holds(w, id)
    ensures Holds(Create(w, k, b), id)
  {
    hide Ask, Send, Update, Holds, Target, Furnish;
    CallsHold(id);
    var w1 := Ask(w).0;
    var made := Target(w1.minio.idp, b.spec, k.namespace);
    FurnishHolds(Send(w1, MakeBucket(made)).0, k, b, made, id);
  }

  lemma DriftedRefl(w: W, j: Key)
    requires w.Valid()
    ensures Drifted(w, w, j)
  {
  }

  lemma HoldsIdp(w: W, id: RemoteId)
    requires Holds(w, id)
    ensures Ask(w).0.minio.idp == w.minio.idp
  {
    hide Next, Drifted, World.Valid, Spares;
    assert Along(w, w, Key("", "")) by { forall j: Key ensures Drifted(w, w, j) { DriftedRefl(w, j); } }
    assert Kept(w, Ask(w).0);
  }

  lemma TeardownHolds(w: W, k: Key, b: Resource, id: RemoteId)
    requires Holds(w, id)
    requires b.status.Some? && Target(w.minio.idp, b.status.value, k.namespace) == id ==>
        b.status.value.deletionPolicy != ALWAYS
    ensures Holds(Teardown(w, k, b), id)
  {
    hide Send, Update, Holds, Target, Ask;
    CallsHold(id);
    assert Ask(w).0.minio.idp == w.minio.idp by { HoldsIdp(w, id); }
  }

  lemma ReadFromRecord(w: W, w1: W, k: Key, b: Resource)
    requires Consented(w) && Ownership.Inv(Ownership.View(KIND, w)) && Begun(w, w1, k, b) && b.status.Some?
    ensures k in w.objects && w.objects[k].status == b.status && w1.minio.idp == w.minio.idp
    ensures b.status.value.deletionPolicy == ALWAYS ==> Asked(w.audit, k)
  {
    if k in w.objects {
      assert Ownership.View(KIND, w).claims[k] == Ownership.ClaimOf(KIND, w.minio.idp, w.objects[k], k);
    }
  }

  /**
   While nobody else touches buckets, a pass removes a bucket that holds something only if the
   record of its resource says `Always`, and then a user once asked for that.
   */
  lemma ForcedOnlyByConsent(w: W, k: Key, id: RemoteId)
    requires w.Valid() && Consented(w) && Ownership.Inv(Ownership.View(KIND, w))
    requires Spares(w.weather, Part.Buckets, true) && id in w.minio.buckets && !w.minio.buckets[id].empty
    requires id !in Pass(w, k).minio.buckets
    ensures k in w.objects && w.objects[k].status.Some?
    ensures Target(w.minio.idp, w.objects[k].status.value, k.namespace) == id
    ensures w.objects[k].status.value.deletionPolicy == ALWAYS && Asked(w.audit, k)
  {
    hide Ask, Send, Update, Teardown, Check, Create, Vouched, Ownership.Inv, Ownership.View, Spares, Asked, Target;
    CallsHold(id);
    GetBegins(w, k);
    var w1 := Ask(w).0;
    if Ask(w).1 == Nil && k in w1.objects {
      var b := w1.objects[k];
      CreateHolds(w1, k, b, id);
      if b.status.Some? {
        CheckHolds(w1, k, b, id);
        ReadFromRecord(w, w1, k, b);
      }
      if !b.status.Some? || Target(w1.minio.idp, b.status.value, k.namespace) != id ||
          b.status.value.deletionPolicy != ALWAYS {
        TeardownHolds(w1, k, b, id);
      }
    }
  }

  lemma BeginConsents(w: W, t: Turn<BucketSpec>)
    requires Consented(w)
    ensures Consented(Begin(w, t)) && Ownership.View(KIND, Begin(w, t)) == Ownership.View(KIND, w)
  {
    hide Vouched;
  }

  lemma {:induction false} PlayOneMore(w: W, turns: seq<Turn<BucketSpec>>, t: Turn<BucketSpec>)
    ensures Play(Pass, w, turns + [t]) == Pass(Begin(Play(Pass, w, turns), t), t.key)
    decreases |turns|
  {
    hide Pass;
    if turns != [] {
      assert (turns + [t])[1..] == turns[1..] + [t];
      PlayOneMore(Pass(Begin(w, turns[0]), turns[0].key), turns[1..], t);
    }
  }

  /** At no point of any run does a bucket that holds something go without the consent of a user. */
  lemma ForcedOnlyByConsentInRuns(w0: W, turns: seq<Turn<BucketSpec>>, t: Turn<BucketSpec>, id: RemoteId)
    requires w0.Valid() && Consented(w0) && Ownership.Inv(Ownership.View(KIND, w0))
    requires Spares(t.weather, Part.Buckets, true)
    requires var w := Play(Pass, w0, turns); id in w.minio.buckets && !w.minio.buckets[id].empty
    requires id !in Play(Pass, w0, turns + [t]).minio.buckets
    ensures var w := Play(Pass, w0, turns);
      && t.key in w.objects && w.objects[t.key].status.Some?
      && w.objects[t.key].status.value.deletionPolicy == ALWAYS && Asked(w.audit, t.key)
  {
    hide World.Valid, Consented, Pass, Asked, Ownership.Inv, Ownership.View, Refines, Spares;
    var w := Play(Pass, w0, turns);
    RunConsents(w0, turns);
    PassRefines();
    StatusImpliesFinalizer(Pass, KIND, w0, turns);
    PlayOneMore(w0, turns, t);
    ValidReweather(w, t.weather);
    var u := Begin(w, t);
    BeginConsents(w, t);
    ForcedOnlyByConsent(u, t.key, id);
  }
}
