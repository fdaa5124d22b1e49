/**
 The Kubernetes API server and the weather a reconciler runs in. A world is everything that
 outlives a pass; each external call of a pass meets the next beat of the weather.
 */
module Kube {
  import opened Prelude
  import opened Minio

  datatype Key = Key(namespace: string, name: string)

  /**
   A custom resource of spec type `S`. `stamp` is the resource version of a secret recorded in
   the status, zero when none was recorded.
   */
  datatype Object<S> = Object(
    spec: S,
    status: Option<S>,
    stamp: nat,
    finalizer: bool,
    deleting: bool,
    version: nat)

  datatype SecretKeyRef = SecretKeyRef(key: string, name: string, namespace: string) {
    function Target(ns: string): Key {
      Key(if namespace == "" then ns else namespace, name)
    }
  }

  const NO_REF := SecretKeyRef("", "", "")

  datatype Secret = Secret(data: map<string, string>, owner: Option<Key>, version: nat) {
    /** The value under `key`, empty when there is none. */
    function Field(key: string): string {
      if key in data then data[key] else ""
    }
  }

  /** What others do between two calls of a pass: users, other controllers, other administrators. */
  datatype Act<S> =
    | Apply(key: Key, spec: S)
    | Delete(key: Key)
    | PutSecret(key: Key, data: map<string, string>)
    | DropSecret(key: Key)
    | Admin(request: Request)

  /** How a call ends: as the server says, without effect, or with its effect but an error. */
  datatype Fate = Done | Lost | Unacked

  datatype Beat<S> = Beat(acts: seq<Act<S>>, fate: Fate)

  /** A process that dies makes no further call take effect, so a storm that has blown out loses every call. */
  datatype Weather<S> = Calm | Storm(beats: seq<Beat<S>>)

  datatype World<S(==)> = World(
    objects: map<Key, Object<S>>,
    secrets: map<Key, Secret>,
    minio: Server,
    clock: nat,                 // the next resource version
    audit: set<(Key, S)>,       // every spec a user has submitted
    weather: Weather<S>)
  {
    ghost predicate Valid() {
      && 0 < clock
      && minio.Valid()
      && (forall k | k in objects :: objects[k].version < clock)
      && (forall k | k in secrets :: 0 < secrets[k].version < clock)
    }
  }

  function Apply1<S(==)>(w: World<S>, k: Key, spec: S): World<S> {
    var w := w.(audit := w.audit + {(k, spec)});
    if k !in w.objects then
      w.(objects := w.objects[k := Object(spec, None, 0, false, false, w.clock)], clock := w.clock + 1)
    else if w.objects[k].spec == spec then w
    else w.(objects := w.objects[k := w.objects[k].(spec := spec, version := w.clock)], clock := w.clock + 1)
  }

  function Delete1<S(==)>(w: World<S>, k: Key): World<S> {
    if k !in w.objects || w.objects[k].deleting then w
    else if !w.objects[k].finalizer then w.(objects := w.objects - {k})
    else w.(objects := w.objects[k := w.objects[k].(deleting := true, version := w.clock)], clock := w.clock + 1)
  }

  function PutSecret1<S>(w: World<S>, k: Key, data: map<string, string>): World<S> {
    if k in w.secrets && w.secrets[k].data == data then w
    else
      var owner := if k in w.secrets then w.secrets[k].owner else None;
      w.(secrets := w.secrets[k := Secret(data, owner, w.clock)], clock := w.clock + 1)
  }

  function Act1<S(==)>(w: World<S>, a: Act<S>): World<S> {
    match a
    case Apply(k, spec) => Apply1(w, k, spec)
    case Delete(k) => Delete1(w, k)
    case PutSecret(k, data) => PutSecret1(w, k, data)
    case DropSecret(k) => w.(secrets := w.secrets - {k})
    case Admin(r) => w.(minio := w.minio.Serve(r).0)
  }

  function Settle<S(==)>(w: World<S>, acts: seq<Act<S>>): World<S>
    decreases |acts|
  {
    if acts == [] then w else Settle(Act1(w, acts[0]), acts[1..])
  }

  /** The world and the fate the next external call meets. */
  function Next<S(==)>(w: World<S>): (World<S>, Fate) {
    match w.weather
    case Calm => (w, Done)
    case Storm(beats) =>
      if beats == [] then (w, Lost)
      else (Settle(w.(weather := Storm(beats[1..])), beats[0].acts), beats[0].fate)
  }

  /** An object nobody but its user has touched. */
  ghost predicate Fresh<S>(o: Object<S>, clock: nat) {
    o.version >= clock && !o.finalizer && o.status == None && o.stamp == 0
  }

  /** `p` is `o` after others have acted, versions from `clock` on being theirs. */
  ghost predicate Kin<S>(o: Object<S>, p: Object<S>, clock: nat) {
    || p == o
    || (p.version >= clock && p.finalizer == o.finalizer && p.status == o.status && p.stamp == o.stamp)
    || (!o.finalizer && Fresh(p, clock))
  }

  /** The resource under `k` in `w` is what others have left of the one in `u`. */
  ghost predicate Drifted<S>(u: World<S>, w: World<S>, k: Key) {
    if k in u.objects then
      if k in w.objects then Kin(u.objects[k], w.objects[k], u.clock) else !u.objects[k].finalizer
    else
      k in w.objects ==> Fresh(w.objects[k], u.clock)
  }

  /** Between `u` and `w` nothing but the resource under `k` was changed by the pass. */
  ghost predicate Along<S>(u: World<S>, w: World<S>, k: Key) {
    && u.clock <= w.clock
    && w.minio.idp == u.minio.idp
    && w.minio.strictDetach == u.minio.strictDetach
    && u.audit <= w.audit
    && (forall j | j != k :: Drifted(u, w, j))
  }

  /** The resource stored under `k` is still `o` or what others have left of it. */
  ghost predicate Held<S>(w: World<S>, k: Key, o: Object<S>) {
    && o.version < w.clock
    && (if k in w.objects then Kin(o, w.objects[k], o.version + 1) else !o.finalizer)
  }

  lemma ActDrifts<S>(w: World<S>, a: Act<S>, k: Key)
    requires w.Valid()
    ensures Act1(w, a).Valid()
    ensures Drifted(w, Act1(w, a), k)
    ensures w.clock <= Act1(w, a).clock && w.audit <= Act1(w, a).audit && Act1(w, a).weather == w.weather
    ensures Act1(w, a).minio.idp == w.minio.idp && Act1(w, a).minio.strictDetach == w.minio.strictDetach
  {
    hide Server.Serve;
    if a.Admin? {
      ServeValid(w.minio, a.request);
      ServeConfig(w.minio, a.request);
    }
  }

  lemma DriftedTrans<S>(u: World<S>, v: World<S>, w: World<S>, k: Key)
    requires u.clock <= v.clock && Drifted(u, v, k) && Drifted(v, w, k)
    ensures Drifted(u, w, k)
  {
  }

  /** No outside request of these acts writes (with `touch`: writes or removes) objects of kind `p`. */
  ghost predicate Mild<S>(acts: seq<Act<S>>, p: Part, touch: bool) {
    forall a | a in acts && a.Admin? :: !Writes(a.request, p) && (touch ==> !Touches(a.request, p))
  }

  /** The same over a whole weather. */
  ghost predicate Spares<S>(t: Weather<S>, p: Part, touch: bool) {
    t.Storm? ==> forall b | b in t.beats :: Mild(b.acts, p, touch)
  }

  /** `n` is `m` after outside requests that spare kind `p`. */
  ghost predicate Remains(m: Server, n: Server, p: Part, touch: bool) {
    if touch then SamePart(m, n, p) else Shrinks(m, n, p)
  }

  lemma RemainsTrans(l: Server, m: Server, n: Server, p: Part, touch: bool)
    requires Remains(l, m, p, touch) && Remains(m, n, p, touch)
    ensures Remains(l, n, p, touch)
  {
  }

  lemma ActLeft<S>(w: World<S>, a: Act<S>, p: Part, touch: bool)
    requires a.Admin? ==> !Writes(a.request, p) && (touch ==> !Touches(a.request, p))
    ensures Remains(w.minio, Act1(w, a).minio, p, touch)
  {
    hide Server.Serve;
    if a.Admin? {
      ServeSpares(w.minio, a.request, p);
    }
  }

  lemma RemainsRefl(m: Server, p: Part, touch: bool)
    ensures Remains(m, m, p, touch)
  {
  }

  lemma {:induction false} SettleLeft<S>(w: World<S>, acts: seq<Act<S>>, p: Part, touch: bool)
    requires Mild(acts, p, touch)
    ensures Remains(w.minio, Settle(w, acts).minio, p, touch)
    decreases |acts|
  {
    hide Act1, Remains, Writes, Touches;
    if acts != [] {
      ActLeft(w, acts[0], p, touch);
      SettleLeft(Act1(w, acts[0]), acts[1..], p, touch);
      RemainsTrans(w.minio, Act1(w, acts[0]).minio, Settle(w, acts).minio, p, touch);
    } else {
      RemainsRefl(w.minio, p, touch);
    }
  }

  lemma {:induction false} SettleDrifts<S>(w: World<S>, acts: seq<Act<S>>, k: Key)
    requires w.Valid()
    ensures Settle(w, acts).Valid()
    ensures Drifted(w, Settle(w, acts), k)
    ensures w.clock <= Settle(w, acts).clock && w.audit <= Settle(w, acts).audit && Settle(w, acts).weather == w.weather
    ensures Settle(w, acts).minio.idp == w.minio.idp && Settle(w, acts).minio.strictDetach == w.minio.strictDetach
    decreases |acts|
  {
    hide Act1, World.Valid;
    if acts != [] {
      ActDrifts(w, acts[0], k);
      SettleDrifts(Act1(w, acts[0]), acts[1..], k);
      DriftedTrans(w, Act1(w, acts[0]), Settle(w, acts), k);
    }
  }

  /** A call that leaves every resource to the others. */
  ghost predicate Kept<S(!new)>(w: World<S>, v: World<S>) {
    && v.Valid()
    && (forall u, k :: Along(u, w, k) ==> Along(u, v, k))
    && (forall k, o :: Held(w, k, o) ==> Held(v, k, o))
  }

  /** Since `u`, kind `p` has changed at most by the acts of others. */
  ghost predicate Calmly<S>(u: World<S>, v: World<S>, p: Part) {
    forall touch :: Spares(u.weather, p, touch) ==> Spares(v.weather, p, touch) && Remains(u.minio, v.minio, p, touch)
  }

  /** The server and the weather of `v` are those of `w` after the others have had a turn. */
  ghost predicate Weathered<S(!new)>(w: World<S>, v: World<S>) {
    && (forall u, p :: Calmly(u, w, p) ==> Calmly(u, v, p))
    && (w.weather.Calm? ==> v.weather.Calm?)
  }

  lemma CalmlyRefl<S>(w: World<S>, p: Part)
    ensures Calmly(w, w, p)
  {
    hide Spares, Remains;
    RemainsRefl(w.minio, p, false);
    RemainsRefl(w.minio, p, true);
  }

  lemma AlongTrans<S>(u: World<S>, v: World<S>, w: World<S>, k: Key)
    requires Along(u, v, k) && Along(v, w, k)
    ensures Along(u, w, k)
  {
    hide Drifted;
    forall j | j != k ensures Drifted(u, w, j) {
      DriftedTrans(u, v, w, j);
    }
  }

  lemma HeldDrifts<S>(w: World<S>, v: World<S>, k: Key, o: Object<S>)
    requires Held(w, k, o) && Drifted(w, v, k) && w.clock <= v.clock
    ensures Held(v, k, o)
  {
  }

  lemma SettleAlong<S>(w: World<S>, acts: seq<Act<S>>, k: Key)
    requires w.Valid()
    ensures Settle(w, acts).Valid() && Along(w, Settle(w, acts), k)
    ensures Settle(w, acts).weather == w.weather
  {
    hide Settle, Drifted, World.Valid;
    SettleDrifts(w, acts, k);
    forall j | j != k ensures Drifted(w, Settle(w, acts), j) {
      SettleDrifts(w, acts, j);
    }
  }

  lemma SettleKept<S(!new)>(w: World<S>, acts: seq<Act<S>>)
    requires w.Valid()
    ensures Kept(w, Settle(w, acts))
  {
    hide Settle, Drifted, Along, Held, World.Valid;
    var v := Settle(w, acts);
    SettleDrifts(w, acts, Key("", ""));
    forall u, k | Along(u, w, k) ensures Along(u, v, k) {
      SettleAlong(w, acts, k);
      AlongTrans(u, w, v, k);
    }
    forall k, o | Held(w, k, o) ensures Held(v, k, o) {
      SettleDrifts(w, acts, k);
      HeldDrifts(w, v, k, o);
    }
  }

  lemma DriftedReweather<S>(u: World<S>, w: World<S>, t: Weather<S>)
    ensures forall j :: Drifted(u, w, j) ==> Drifted(u, w.(weather := t), j)
  {
  }

  lemma KeptReweather<S(!new)>(w: World<S>, t: Weather<S>, v: World<S>)
    requires Kept(w.(weather := t), v)
    ensures Kept(w, v)
  {
    hide World.Valid, Drifted;
    var x := w.(weather := t);
    forall u, k | Along(u, w, k) ensures Along(u, v, k) {
      assert forall j :: Drifted(u, w, j) ==> Drifted(u, x, j) by { DriftedReweather(u, w, t); }
      assert Along(u, x, k);
    }
    forall k, o | Held(w, k, o) ensures Held(v, k, o) {
      assert Held(x, k, o);
    }
  }

  lemma KeptRefl<S(!new)>(w: World<S>)
    requires w.Valid()
    ensures Kept(w, w)
  {
  }

  lemma ValidReweather<S>(w: World<S>, t: Weather<S>)
    requires w.Valid()
    ensures w.(weather := t).Valid()
  {
  }

  lemma NextKept<S(!new)>(w: World<S>)
    requires w.Valid()
    ensures Kept(w, Next(w).0)
  {
    hide Settle, Kept, World.Valid;
    match w.weather
    case Calm => assert Kept(w, w) by { KeptRefl(w); }
    case Storm(beats) =>
      if beats == [] {
        KeptRefl(w);
      } else {
        var x := w.(weather := Storm(beats[1..]));
        assert x.Valid() by { ValidReweather(w, Storm(beats[1..])); }
        SettleKept(x, beats[0].acts);
        KeptReweather(w, Storm(beats[1..]), Settle(x, beats[0].acts));
      }
  }

  lemma NextWeathered<S(!new)>(w: World<S>)
    requires w.Valid()
    ensures Weathered(w, Next(w).0)
  {
    hide Settle, Remains, Mild, World.Valid;
    if w.weather.Storm? && w.weather.beats != [] {
      var beats := w.weather.beats;
      var x := w.(weather := Storm(beats[1..]));
      var v := Settle(x, beats[0].acts);
      assert v.weather == x.weather by {
        ValidReweather(w, Storm(beats[1..]));
        SettleDrifts(x, beats[0].acts, Key("", ""));
      }
      forall u: World<S>, p | Calmly(u, w, p) ensures Calmly(u, v, p) {
        forall touch | Spares(u.weather, p, touch) ensures Spares(v.weather, p, touch) &&
            Remains(u.minio, v.minio, p, touch) {
          assert Spares(w.weather, p, touch) && beats[0] in beats;
          SettleLeft(x, beats[0].acts, p, touch);
          RemainsTrans(u.minio, w.minio, v.minio, p, touch);
        }
      }
    }
  }

  lemma NextAlways<S(!new)>(w: World<S>)
    ensures w.Valid() ==> Kept(w, Next(w).0) && Weathered(w, Next(w).0)
  {
    hide Next, World.Valid;
    if w.Valid() {
      NextKept(w);
      NextWeathered(w);
    }
  }

  /** A call that only reads. */
  function Ask<S(==,!new)>(w: World<S>): (r: (World<S>, Err))
    ensures w.Valid() ==> Kept(w, r.0) && Weathered(w, r.0)
    ensures w.weather.Calm? ==> r == (w, Nil)
  {
    NextAlways(w);
    var (w, fate) := Next(w);
    (w, if fate.Done? then Nil else Transport)
  }

  lemma DriftedResource<S>(u: World<S>, w: World<S>, x: World<S>)
    requires x.objects == w.objects
    ensures forall j :: Drifted(u, w, j) ==> Drifted(u, x, j)
  {
  }

  lemma SendKept<S(!new)>(w: World<S>, v: World<S>, q: Request)
    ensures w.Valid() && Kept(w, v) ==> Kept(w, v.(minio := v.minio.Serve(q).0))
  {
    hide Server.Serve, Server.Valid, Drifted;
    if Kept(w, v) {
      ServeValid(v.minio, q);
      ServeConfig(v.minio, q);
      var x := v.(minio := v.minio.Serve(q).0);
      forall u, k | Along(u, w, k) ensures Along(u, x, k) {
        assert Along(u, v, k);
        assert forall j :: Drifted(u, v, j) ==> Drifted(u, x, j) by { DriftedResource(u, v, x); }
      }
      forall k, o | Held(w, k, o) ensures Held(x, k, o) {
        assert Held(v, k, o);
      }
    }
  }

  /** A request that may change the MinIO server. */
  function Send<S(==,!new)>(w: World<S>, q: Request): (r: (World<S>, Err))
    ensures w.Valid() ==> Kept(w, r.0) && Weathered(w, Next(w).0) && r.0.weather == Next(w).0.weather
    ensures (r.0.minio == Next(w).0.minio && r.1 != Nil) || r.0.minio == Next(w).0.minio.Serve(q).0
    ensures w.weather.Calm? ==> r == (w.(minio := w.minio.Serve(q).0), w.minio.Serve(q).1)
  {
    NextAlways(w);
    var (v, fate) := Next(w);
    if fate.Lost? then (v, Transport)
    else
      SendKept(w, v, q);
      var (m, err) := v.minio.Serve(q);
      (v.(minio := m), if fate.Done? then err else Transport)
  }

  /** Stores `o` in place of the version it was read at; removes it with its last finalizer. */
  function Store<S(==)>(w: World<S>, k: Key, o: Object<S>): (World<S>, Err, Object<S>) {
    if k !in w.objects then (w, NotFound, o)
    else if w.objects[k].version != o.version then (w, Conflict, o)
    else if w.objects[k] == o then (w, Nil, o)
    else if o.deleting && !o.finalizer then (w.(objects := w.objects - {k}), Nil, o)
    else
      var o := o.(version := w.clock);
      (w.(objects := w.objects[k := o], clock := w.clock + 1), Nil, o)
  }

  /** `o` has been written under `k`, or removed with its last finalizer. */
  ghost predicate Written<S>(w: World<S>, k: Key, o: Object<S>) {
    if k in w.objects then
      w.objects[k] == o.(version := w.objects[k].version) && w.objects[k].version < w.clock
    else
      o.deleting && !o.finalizer
  }

  lemma StoreKeeps<S(!new)>(w: World<S>, k: Key, o: Object<S>)
    requires w.Valid()
    ensures Store(w, k, o).0.Valid()
    ensures forall u :: Along(u, w, k) ==> Along(u, Store(w, k, o).0, k)
    ensures Store(w, k, o).1 != Nil ==> Store(w, k, o).0 == w
    ensures Store(w, k, o).1 == Nil ==> Written(Store(w, k, o).0, k, o)
    ensures Store(w, k, o).1 == Nil ==> Store(w, k, o).2 == o.(version := Store(w, k, o).2.version)
    ensures Store(w, k, o).1 == Nil && k in Store(w, k, o).0.objects ==> Store(w, k, o).0.objects[k] == Store(w, k, o).2
    ensures Store(w, k, o).1 == Nil ==> Held(Store(w, k, o).0, k, Store(w, k, o).2)
  {
    var x := Store(w, k, o).0;
    forall u | Along(u, w, k) ensures Along(u, x, k) {
      forall j | j != k ensures Drifted(u, x, j) {
        assert Drifted(u, w, j);
      }
    }
  }

  lemma UpdateKeeps<S(!new)>(w: World<S>, v: World<S>, k: Key, o: Object<S>)
    ensures w.Valid() && Kept(w, v) ==> forall u :: Along(u, w, k) ==> Along(u, Store(v, k, o).0, k)
    ensures w.Valid() && Kept(w, v) ==> Store(v, k, o).0.Valid()
    ensures Store(v, k, o).0.weather == v.weather && Store(v, k, o).0.minio == v.minio
    ensures w.Valid() && Kept(w, v) && Store(v, k, o).1 == Nil ==>
      && Held(Store(v, k, o).0, k, Store(v, k, o).2) && Written(Store(v, k, o).0, k, o)
      && Store(v, k, o).2 == o.(version := Store(v, k, o).2.version)
    ensures w.Valid() && Kept(w, v) && Store(v, k, o).1 == Nil && k in Store(v, k, o).0.objects ==>
        Store(v, k, o).0.objects[k] == Store(v, k, o).2
    ensures Store(v, k, o).1 != Nil ==> Store(v, k, o).0 == v
    ensures Weathered(w, v) ==> Weathered(w, Store(v, k, o).0)
  {
    hide Along, Held, World.Valid, Spares, Remains;
    if w.Valid() && Kept(w, v) {
      StoreKeeps(v, k, o);
    }
  }

  /** Writes the resource back; succeeds only on the version it was read at. */
  function Update<S(==,!new)>(w: World<S>, k: Key, o: Object<S>): (r: (World<S>, Err, Object<S>))
    ensures w.Valid() ==> r.0.Valid() && Weathered(w, r.0) && (forall u :: Along(u, w, k) ==> Along(u, r.0, k))
    ensures r.0.minio == Next(w).0.minio && r.0.weather == Next(w).0.weather
    ensures r.2 == o.(version := r.2.version)
    ensures w.Valid() && r.1 == Nil ==> Held(r.0, k, r.2) && Written(r.0, k, o)
    ensures w.Valid() && r.1 == Nil && k in r.0.objects ==> r.0.objects[k] == r.2
    ensures w.Valid() && r.1 != Nil ==> Kept(w, r.0) || Written(r.0, k, o)
    ensures w.weather.Calm? ==> r == Store(w, k, o)
  {
    NextAlways(w);
    var (v, fate) := Next(w);
    if fate.Lost? then (v, Transport, o)
    else
      UpdateKeeps(w, v, k, o);
      var (x, err, stored) := Store(v, k, o);
      if fate.Done? then (x, err, stored) else (x, Transport, o)
  }

  /** The first call of a pass in this weather fails, so that the pass does nothing. */
  predicate Idle<S>(t: Weather<S>) {
    t.Storm? && (t.beats == [] || !t.beats[0].fate.Done?)
  }

  /** `w` is the world in which a pass that began in `u` has read `g` under `k`. */
  ghost predicate Begun<S>(u: World<S>, w: World<S>, k: Key, g: Object<S>) {
    && !Idle(u.weather)
    && w.Valid() && Along(u, w, k) && Drifted(u, w, k)
    && k in w.objects && w.objects[k] == g && Held(w, k, g)
  }

  lemma NextDrifts<S(!new)>(u: World<S>, k: Key)
    requires u.Valid()
    ensures Along(u, Next(u).0, k) && Drifted(u, Next(u).0, k)
  {
    hide Settle, World.Valid;
    if u.weather.Storm? && u.weather.beats != [] {
      var x := u.(weather := Storm(u.weather.beats[1..]));
      ValidReweather(u, x.weather);
      SettleAlong(x, u.weather.beats[0].acts, k);
      SettleDrifts(x, u.weather.beats[0].acts, k);
      assert forall j :: Drifted(x, Next(u).0, j) ==> Drifted(u, Next(u).0, j);
    }
  }

  lemma GetBegins<S(!new)>(u: World<S>, k: Key)
    requires u.Valid()
    ensures var w := Ask(u).0;
      && w.Valid() && Along(u, w, k) && Drifted(u, w, k) && Weathered(u, w)
      && (Ask(u).1 == Nil <==> !Idle(u.weather))
      && (Ask(u).1 == Nil && k in w.objects ==> Begun(u, w, k, w.objects[k]))
  {
    hide Settle, Drifted, Along, Weathered;
    NextDrifts(u, k);
  }

  /** Creates a secret, unless there is one of that name. */
  function StoreNewSecret<S(==)>(w: World<S>, k: Key, data: map<string, string>, owner: Key): (World<S>, Err, Secret) {
    if k in w.secrets then (w, AlreadyExists, w.secrets[k])
    else
      var secret := Secret(data, Some(owner), w.clock);
      (w.(secrets := w.secrets[k := secret], clock := w.clock + 1), Nil, secret)
  }

  /** Stores new data in a secret at the version it was read; the same data leave it as it is. */
  function StoreSecret<S(==)>(w: World<S>, k: Key, secret: Secret, data: map<string, string>): (World<S>, Err, Secret) {
    if k !in w.secrets then (w, NotFound, secret)
    else if w.secrets[k].version != secret.version then (w, Conflict, secret)
    else if w.secrets[k].data == data then (w, Nil, w.secrets[k])
    else
      var stored := w.secrets[k].(data := data, version := w.clock);
      (w.(secrets := w.secrets[k := stored], clock := w.clock + 1), Nil, stored)
  }

  function DropStoredSecret<S(==)>(w: World<S>, k: Key): (World<S>, Err) {
    if k !in w.secrets then (w, NotFound) else (w.(secrets := w.secrets - {k}), Nil)
  }

  lemma SecretsKept<S(!new)>(w: World<S>, v: World<S>, x: World<S>)
    requires w.Valid() ==> Kept(w, v) && Weathered(w, v)
    requires v.Valid() ==> x.Valid()
    requires v.clock <= x.clock && x == v.(secrets := x.secrets, clock := x.clock)
    ensures w.Valid() ==> Kept(w, x) && Weathered(w, x)
  {
    hide Drifted, World.Valid, Spares, Remains;
    if w.Valid() {
      forall u: World<S>, k: Key | Along(u, w, k) ensures Along(u, x, k) {
        assert Along(u, v, k);
        assert forall j :: Drifted(u, v, j) ==> Drifted(u, x, j) by { DriftedResource(u, v, x); }
      }
      forall k: Key, o: Object<S> | Held(w, k, o) ensures Held(x, k, o) {
        assert Held(v, k, o);
      }
    }
  }

  /** Creates a secret on behalf of the resource `owner`. */
  function CreateSecret<S(==, !new)>(
    w: World<S>, k: Key, data: map<string, string>, owner: Key): (r: (World<S>, Err, Secret))
    ensures w.Valid() ==> Kept(w, r.0) && Weathered(w, r.0)
    ensures w.weather.Calm? ==> r == StoreNewSecret(w, k, data, owner)
  {
    NextAlways(w);
    var (v, fate) := Next(w);
    var (x, err, secret) := StoreNewSecret(v, k, data, owner);
    SecretsKept(w, v, x);
    SecretsKept(w, v, v);
    if fate.Lost? then (v, Transport, Secret(map[], None, 0))
    else (x, if fate.Done? then err else Transport, secret)
  }

  /** Writes new data to a secret; succeeds only on the version it was read at. */
  function UpdateSecret<S(==, !new)>(
    w: World<S>, k: Key, secret: Secret, data: map<string, string>): (r: (World<S>, Err, Secret))
    ensures w.Valid() ==> Kept(w, r.0) && Weathered(w, r.0)
    ensures w.weather.Calm? ==> r == StoreSecret(w, k, secret, data)
  {
    NextAlways(w);
    var (v, fate) := Next(w);
    var (x, err, stored) := StoreSecret(v, k, secret, data);
    SecretsKept(w, v, x);
    SecretsKept(w, v, v);
    if fate.Lost? then (v, Transport, secret)
    else (x, if fate.Done? then err else Transport, stored)
  }

  function DeleteSecret<S(==,!new)>(w: World<S>, k: Key): (r: (World<S>, Err))
    ensures w.Valid() ==> Kept(w, r.0) && Weathered(w, r.0)
    ensures w.weather.Calm? ==> r == DropStoredSecret(w, k)
  {
    NextAlways(w);
    var (v, fate) := Next(w);
    var (x, err) := DropStoredSecret(v, k);
    SecretsKept(w, v, x);
    SecretsKept(w, v, v);
    if fate.Lost? then (v, Transport)
    else (x, if fate.Done? then err else Transport)
  }

  /** Calls may fail or be cut off, but nobody else acts. */
  ghost predicate Still<S>(t: Weather<S>) {
    t.Storm? ==> forall b | b in t.beats :: b.acts == []
  }

  lemma NextStill<S>(w: World<S>)
    requires w.Valid() && Still(w.weather)
    ensures var v := Next(w).0; v == w.(weather := v.weather) && v.Valid() && Still(v.weather)
  {
  }
}
