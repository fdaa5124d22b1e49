/**
 The ways a pass ends that the reconcilers have in common, and that each of them is a legal move
 of the ownership protocol.
 */
module Branches {
  import opened Prelude
  import opened Minio
  import opened Kube
  import opened Ownership

  /** Removes the remote object, then forgets it. */
  function Release<S(==,!new)>(w: World<S>, k: Key, g: Object<S>, q: Request, excused: set<Err>): World<S> {
    var (w, err) := Send(w, q);
    if err != Nil && err !in excused then w else Update(w, k, g.(status := None)).0
  }

  /** Creates the remote object, then records it. */
  function Adopt<S(==,!new)>(w: World<S>, k: Key, p: Object<S>, q: Request, excused: set<Err>): World<S> {
    var (w, err) := Send(w, q);
    if err != Nil && err !in excused then w else Update(w, k, p).0
  }

  /** A pass that has read `g` and only asked since has come to `w`. */
  ghost predicate Reached<S>(u: World<S>, w: World<S>, k: Key, g: Object<S>, p: Part) {
    && w.Valid() && Along(u, w, k) && Held(w, k, g) && Calmly(u, w, p)
    && (u.weather.Calm? ==> w.weather.Calm? && k in w.objects && w.objects[k] == g)
  }

  lemma BeginReaches<S(!new)>(u: World<S>, w: World<S>, k: Key, g: Object<S>, p: Part)
    requires Begun(u, w, k, g) && Weathered(u, w)
    ensures Reached(u, w, k, g, p)
  {
    hide Drifted, Along, Held, Calmly;
    CalmlyRefl(u, p);
  }

  lemma AskReaches<S(!new)>(u: World<S>, w: World<S>, k: Key, g: Object<S>, p: Part)
    requires Reached(u, w, k, g, p)
    ensures Reached(u, Ask(w).0, k, g, p)
  {
    hide Drifted, Along, Held, Calmly, Next;
  }

  /** The request changes nothing but `id`; it removes `id` when it succeeds or is excused, else nothing. */
  ghost predicate Removes<S, Id, C>(kind: Kind<S, Id, C>, idp: Idp, q: Request, excused: set<Err>, id: Id) {
    Transport !in excused &&
    forall m: Server | m.Valid() && m.idp == idp ::
      var before, (n, err) := kind.remote(m), m.Serve(q);
      if err == Nil || err in excused then kind.remote(n) == before - {id} else kind.remote(n) == before
  }

  lemma AlongIdp<S>(u: World<S>, w: World<S>, k: Key)
    requires Along(u, w, k)
    ensures w.minio.idp == u.minio.idp
  {
  }

  /** What a release leaves: the resource as it was, or forgotten with its object gone. */
  lemma ReleaseEnds<S(!new), Id, C>(
    kind: Kind<S, Id, C>, u: World<S>, w: World<S>, k: Key, g: Object<S>, q: Request, excused: set<Err>, id: Id)
    requires Lawful(kind) && Reached(u, w, k, g, kind.part) && Removes(kind, u.minio.idp, q, excused, id)
    ensures var v, x, y := Release(w, k, g, q, excused), Next(w).0, Send(w, q).0;
      && v.Valid() && Along(u, v, k) && Calmly(u, x, kind.part) && x.Valid() && x.minio.idp == u.minio.idp
      && y.weather == x.weather && (y.minio == x.minio || y.minio == x.minio.Serve(q).0)
      && Calmly(y, v, kind.part)
      && (Held(v, k, g) || (Written(v, k, g.(status := None)) && id !in kind.remote(y.minio)))
  {
    hide Drifted, Along, Held, Calmly, Next, Server.Serve, Written, Store, Lawful;
    var y := Send(w, q).0;
    CalmlyRefl(y, kind.part);
    NextAlways(w);
    assert Along(u, Next(w).0, k);
    AlongIdp(u, Next(w).0, k);
  }

  lemma ReleaseCalm<S(!new), Id, C>(
    kind: Kind<S, Id, C>, w: World<S>, k: Key, g: Object<S>, q: Request, excused: set<Err>, id: Id)
    requires Removes(kind, w.minio.idp, q, excused, id) && w.Valid() && w.weather.Calm?
    requires k in w.objects && w.objects[k] == g && g.status.Some? && g.finalizer
    ensures var v := Release(w, k, g, q, excused); Held(v, k, g) ==> kind.remote(v.minio) == kind.remote(w.minio)
  {
    hide Next, Server.Serve;
  }

  lemma CalmlySpares<S>(u: World<S>, v: World<S>, p: Part)
    requires Calmly(u, v, p)
    ensures Spares(u.weather, p, false) ==> Spares(v.weather, p, false)
    ensures Spares(u.weather, p, true) ==> Spares(v.weather, p, true)
  {
    hide Spares, Remains;
  }

  lemma ReleaseMoves<S(!new), Id, C>(
    kind: Kind<S, Id, C>, u: World<S>, w0: World<S>, w: World<S>, k: Key,
        g0: Object<S>, g: Object<S>, q: Request, excused: set<Err>, id: Id)
    requires Lawful(kind) && Inv(View(kind, u)) && Begun(u, w0, k, g0) && Reached(u, w, k, g, kind.part)
    requires g.status.Some? && g.finalizer && SameClaim(kind, u, k, g0, g)
    requires id == Named(kind, u, k, g.status.value) && Removes(kind, u.minio.idp, q, excused, id)
    ensures var v := Release(w, k, g, q, excused);
        v.Valid() && Moves(View(kind, u), View(kind, v), k, ModeOf(kind, u, k))
  {
    hide Drifted, Along, Held, Calmly, Next, Server.Serve, Written, Store, Lawful, View, Inv, Plain, Release, Spares;
    var v, x, y := Release(w, k, g, q, excused), Next(w).0, Send(w, q).0;
    ReleaseEnds(kind, u, w, k, g, q, excused, id);
    AlongIdp(u, w, k);
    CalmRemote(kind, u, x);
    CalmRemote(kind, y, v);
    CalmSpares(u.weather, kind.part);
    CalmlySpares(u, x, kind.part);
    var p := if Held(v, k, g) then g else g.(status := None);
    if u.weather.Calm? {
      ReleaseCalm(kind, w, k, g, q, excused, id);
      CalmRemote(kind, u, w);
    }
    Ownership.PassMoves(kind, u, w0, v, k, g0, p, id);
  }

  /** The maps agree everywhere but at `id`. */
  ghost predicate SameBut<K, V>(m: map<K, V>, n: map<K, V>, id: K) {
    && (forall x | x in m && x != id :: x in n && n[x] == m[x])
    && (forall x | x in n && x != id :: x in m)
  }

  /** The request changes nothing but `id`, which exists when the request succeeds or is excused. */
  ghost predicate Makes<S, Id, C>(kind: Kind<S, Id, C>, idp: Idp, q: Request, excused: set<Err>, id: Id) {
    Transport !in excused &&
    forall m: Server | m.Valid() && m.idp == idp ::
      var before, after, err := kind.remote(m), kind.remote(m.Serve(q).0), m.Serve(q).1;
      && SameBut(before, after, id)
      && (if err == Nil || err in excused then id in after else after == before)
  }

  /** The server itself refuses the request when `id` exists. */
  ghost predicate Refuses<S, Id, C>(kind: Kind<S, Id, C>, idp: Idp, q: Request, excused: set<Err>, id: Id) {
    forall m: Server | m.Valid() && m.idp == idp && id in kind.remote(m) ::
      m.Serve(q).1 != Nil && m.Serve(q).1 !in excused && m.Serve(q).0 == m
  }

  lemma AdoptEnds<S(!new), Id, C>(
    kind: Kind<S, Id, C>, u: World<S>, w: World<S>, k: Key, g: Object<S>, p: Object<S>, q: Request,
        excused: set<Err>, id: Id)
    requires Lawful(kind) && Reached(u, w, k, g, kind.part) && Makes(kind, u.minio.idp, q, excused, id)
    ensures var v, x, y := Adopt(w, k, p, q, excused), Next(w).0, Send(w, q).0;
      && v.Valid() && Along(u, v, k) && Calmly(u, x, kind.part) && x.Valid() && x.minio.idp == u.minio.idp
      && y.weather == x.weather && (y.minio == x.minio || y.minio == x.minio.Serve(q).0)
      && Calmly(y, v, kind.part)
      && (|| Held(v, k, g)
          || (Written(v, k, p) && y.minio == x.minio.Serve(q).0 &&
              (x.minio.Serve(q).1 == Nil || x.minio.Serve(q).1 in excused)))
  {
    hide Drifted, Along, Held, Calmly, Next, Server.Serve, Written, Store, Lawful;
    var y := Send(w, q).0;
    CalmlyRefl(y, kind.part);
    NextAlways(w);
    assert Along(u, Next(w).0, k);
    AlongIdp(u, Next(w).0, k);
  }

  lemma AdoptMoves<S(!new), Id, C>(
    kind: Kind<S, Id, C>, u: World<S>, w0: World<S>, w: World<S>,
        k: Key, g: Object<S>, p: Object<S>, q: Request, excused: set<Err>, id: Id)
    requires Lawful(kind) && Inv(View(kind, u)) && Begun(u, w0, k, g) && Reached(u, w, k, g, kind.part)
    requires g.status.None? && g.finalizer && p.finalizer && p.status == Some(p.spec) && !kind.unfit(p.spec)
    requires id == Named(kind, u, k, p.spec) && Makes(kind, u.minio.idp, q, excused, id)
    requires Spares(u.weather, kind.part, true) && Plain(kind, u, k) ==>
        id !in kind.remote(w.minio) || Refuses(kind, u.minio.idp, q, excused, id)
    ensures var v := Adopt(w, k, p, q, excused); v.Valid() && Moves(View(kind, u), View(kind, v), k, ModeOf(kind, u, k))
  {
    hide Drifted, Along, Held, Calmly, Next, Server.Serve, Written, Store, Lawful, View, Inv, Plain, Adopt, Spares;
    hide Send;
    var v, x, y := Adopt(w, k, p, q, excused), Next(w).0, Send(w, q).0;
    AdoptEnds(kind, u, w, k, g, p, q, excused, id);
    CalmRemote(kind, u, w);
    CalmRemote(kind, u, x);
    CalmRemote(kind, y, v);
    CalmSpares(u.weather, kind.part);
    CalmlySpares(u, x, kind.part);
    var o := if Held(v, k, g) then g else p;
    assert StatusStep(kind, u, v, k, g, o);
    assert RemoteStep(kind, u, v, k, g, o, id);
    Ownership.PassMoves(kind, u, w0, v, k, g, o, id);
  }

  /** A pass that ends without a further word. */
  lemma StopMoves<S(!new), Id, C>(
    kind: Kind<S, Id, C>, u: World<S>, w0: World<S>, w: World<S>, k: Key, g0: Object<S>, g: Object<S>)
    requires Lawful(kind) && Inv(View(kind, u)) && Begun(u, w0, k, g0) && Reached(u, w, k, g, kind.part)
    requires SameClaim(kind, u, k, g0, g)
    ensures w.Valid() && Moves(View(kind, u), View(kind, w), k, ModeOf(kind, u, k))
  {
    hide Drifted, Along, Held, Calmly, Begun, Lawful, View, Inv, SameClaim;
    BareMoves(kind, u, w0, w, k, g0, g);
  }

  /** A pass that ends by writing the resource with its claim unchanged. */
  lemma PatchMoves<S(!new), Id, C>(
    kind: Kind<S, Id, C>, u: World<S>, w0: World<S>, w: World<S>, k: Key, g0: Object<S>, g: Object<S>, p: Object<S>)
    requires Lawful(kind) && Inv(View(kind, u)) && Begun(u, w0, k, g0) && Reached(u, w, k, g, kind.part)
    requires SameClaim(kind, u, k, g0, g) && SameClaim(kind, u, k, g0, p)
    ensures var v := Update(w, k, p).0; v.Valid() && Moves(View(kind, u), View(kind, v), k, ModeOf(kind, u, k))
  {
    hide Drifted, Along, Held, Calmly, Begun, Lawful, View, Inv, SameClaim, Written, Next, Store, Update;
    var v := Update(w, k, p).0;
    BareMoves(kind, u, w0, v, k, g0, if Written(v, k, p) then p else g);
  }

  /** The same when the pass has asked something else since it found the object missing. */
  lemma ForgetLateMoves<S(!new), Id, C>(
    kind: Kind<S, Id, C>, u: World<S>, w0: World<S>, x: World<S>, w: World<S>, k: Key, g0: Object<S>, g: Object<S>)
    requires Lawful(kind) && Inv(View(kind, u)) && Begun(u, w0, k, g0)
    requires Reached(u, x, k, g, kind.part) && Reached(u, w, k, g, kind.part) && (w == x || w == Ask(x).0)
    requires SameClaim(kind, u, k, g0, g) && g0.status.Some?
    requires Named(kind, u, k, g0.status.value) !in kind.remote(x.minio)
    ensures var v := Update(w, k, g.(status := None)).0;
        v.Valid() && Moves(View(kind, u), View(kind, v), k, ModeOf(kind, u, k))
  {
    hide Drifted, Along, Held, Calmly, Begun, Lawful, View, Inv, Written, Next, Store, Update, Plain, Spares;
    var p := g.(status := None);
    var v := Update(w, k, p).0;
    CalmlyRefl(x, kind.part);
    CalmRemote(kind, u, v);
    CalmRemote(kind, x, v);
    CalmRemote(kind, u, w);
    CalmlySpares(u, x, kind.part);
    CalmSpares(u.weather, kind.part);
    if Written(v, k, p) {
      Ownership.PassMoves(kind, u, w0, v, k, g0, p, Named(kind, u, k, g0.spec));
    } else {
      BareMoves(kind, u, w0, v, k, g0, g);
    }
  }

  /** A pass that ends by forgetting an object it has just found missing. */
  lemma ForgetMoves<S(!new), Id, C>(
    kind: Kind<S, Id, C>, u: World<S>, w0: World<S>, w: World<S>, k: Key, g0: Object<S>, g: Object<S>)
    requires Lawful(kind) && Inv(View(kind, u)) && Begun(u, w0, k, g0) && Reached(u, w, k, g, kind.part)
    requires SameClaim(kind, u, k, g0, g) && g0.status.Some?
    requires Named(kind, u, k, g0.status.value) !in kind.remote(w.minio)
    ensures var v := Update(w, k, g.(status := None)).0;
        v.Valid() && Moves(View(kind, u), View(kind, v), k, ModeOf(kind, u, k))
  {
    hide Reached, Begun, Lawful, View, Inv, SameClaim, Update, Moves;
    ForgetLateMoves(kind, u, w0, w, w, k, g0, g);
  }

  /** The pass goes on after writing the resource, for example without its migrate flag. */
  lemma UpdateReaches<S(!new)>(u: World<S>, w: World<S>, k: Key, g: Object<S>, p: Object<S>, part: Part)
    requires Reached(u, w, k, g, part) && p.version == g.version && (p.finalizer || !p.deleting)
    requires Update(w, k, p).1 == Nil
    ensures Reached(u, Update(w, k, p).0, k, Update(w, k, p).2, part)
  {
    hide Drifted, Along, Held, Calmly, Written, Next;
  }

  lemma SameIdp<S>(u: World<S>, w: World<S>, k: Key, g: Object<S>, part: Part)
    requires Reached(u, w, k, g, part)
    ensures w.minio.idp == u.minio.idp
  {
    hide Calmly, Held, World.Valid;
  }

  /** `n` differs from `m` at most in what the pass does to `id`. */
  ghost predicate WorkedOn<S, Id, C>(kind: Kind<S, Id, C>, u: World<S>, w: World<S>, id: Id) {
    var before, after := kind.remote(u.minio), kind.remote(w.minio);
    && (Spares(u.weather, kind.part, false) ==>
          && Spares(w.weather, kind.part, false)
          && (forall x | x in after && x != id :: x in before))
    && (Spares(u.weather, kind.part, true) ==>
          && Spares(w.weather, kind.part, true)
          && (forall x | x in before && x != id :: x in after && after[x] == before[x])
          && (id in before ==> id in after))
  }

  /** A pass that has read `g` has come to `w`, having done things to `id` only. */
  ghost predicate Worked<S, Id, C>(kind: Kind<S, Id, C>, u: World<S>, w: World<S>, k: Key, g: Object<S>, id: Id) {
    && w.Valid() && Along(u, w, k) && Held(w, k, g) && WorkedOn(kind, u, w, id)
    && (u.weather.Calm? ==> w.weather.Calm? && k in w.objects && w.objects[k] == g)
  }

  /** The request changes nothing but `id`, and does not remove it. */
  ghost predicate Alters<S, Id, C>(kind: Kind<S, Id, C>, idp: Idp, q: Request, id: Id) {
    forall m: Server | m.Valid() && m.idp == idp ::
      var before, after := kind.remote(m), kind.remote(m.Serve(q).0);
      SameBut(before, after, id) && (id in before ==> id in after)
  }

  lemma ReachWorks<S(!new), Id, C>(kind: Kind<S, Id, C>, u: World<S>, w: World<S>, k: Key, g: Object<S>, id: Id)
    requires Lawful(kind) && Reached(u, w, k, g, kind.part)
    ensures Worked(kind, u, w, k, g, id)
  {
    hide Along, Held, Lawful, Calmly, Spares;
    CalmRemote(kind, u, w);
    CalmlySpares(u, w, kind.part);
  }

  lemma WorkedTrans<S(!new), Id, C>(kind: Kind<S, Id, C>, u: World<S>, w: World<S>, v: World<S>, id: Id)
    requires Lawful(kind) && WorkedOn(kind, u, w, id) && Calmly(w, v, kind.part)
    ensures WorkedOn(kind, u, v, id)
  {
    hide Lawful, Calmly, Spares;
    CalmRemote(kind, w, v);
    CalmlySpares(w, v, kind.part);
  }

  lemma AskWorks<S(!new), Id, C>(kind: Kind<S, Id, C>, u: World<S>, w: World<S>, k: Key, g: Object<S>, id: Id)
    requires Lawful(kind) && Worked(kind, u, w, k, g, id)
    ensures Worked(kind, u, Ask(w).0, k, g, id)
  {
    hide Along, Held, Lawful, Calmly, Spares, WorkedOn, Next;
    CalmlyRefl(w, kind.part);
    WorkedTrans(kind, u, w, Ask(w).0, id);
  }

  lemma SendWorks<S(!new), Id, C>(
    kind: Kind<S, Id, C>, u: World<S>, w: World<S>, k: Key, g: Object<S>, q: Request, id: Id)
    requires Lawful(kind) && Worked(kind, u, w, k, g, id) && Alters(kind, u.minio.idp, q, id)
    ensures Worked(kind, u, Send(w, q).0, k, g, id)
  {
    hide Along, Held, Lawful, Calmly, Spares, Next, Server.Serve;
    CalmlyRefl(w, kind.part);
    NextAlways(w);
    assert Along(u, Next(w).0, k);
    AlongIdp(u, Next(w).0, k);
    WorkedTrans(kind, u, w, Next(w).0, id);
  }

  lemma UpdateWorks<S(!new), Id, C>(
    kind: Kind<S, Id, C>, u: World<S>, w: World<S>, k: Key, g: Object<S>, p: Object<S>, id: Id)
    requires Lawful(kind) && Worked(kind, u, w, k, g, id) && p.version == g.version && (p.finalizer || !p.deleting)
    requires Update(w, k, p).1 == Nil
    ensures Worked(kind, u, Update(w, k, p).0, k, Update(w, k, p).2, id)
  {
    hide Along, Held, Lawful, Calmly, Spares, WorkedOn, Next, Written;
    CalmlyRefl(w, kind.part);
    WorkedTrans(kind, u, w, Update(w, k, p).0, id);
  }

  /** The pass works on the object its resource records, and saw it exist. */
  ghost predicate OnRecord<S, Id, C>(kind: Kind<S, Id, C>, u: World<S>, k: Key, g: Object<S>, id: Id) {
    && g.status.Some? && id == Named(kind, u, k, g.status.value)
    && (Spares(u.weather, kind.part, false) ==> id in kind.remote(u.minio))
  }

  lemma SeenOnRecord<S(!new), Id, C>(kind: Kind<S, Id, C>, u: World<S>, w: World<S>, k: Key, g: Object<S>, id: Id)
    requires Lawful(kind) && Calmly(u, w, kind.part) && g.status.Some? && id == Named(kind, u, k, g.status.value)
    requires id in kind.remote(w.minio)
    ensures OnRecord(kind, u, k, g, id)
  {
    hide Lawful, Calmly, Spares;
    CalmRemote(kind, u, w);
  }

  /** A pass that stops after work on the recorded object. */
  lemma WorkMoves<S(!new), Id, C>(
    kind: Kind<S, Id, C>, u: World<S>, w0: World<S>, w: World<S>, k: Key, g0: Object<S>, g: Object<S>, id: Id)
    requires Lawful(kind) && Inv(View(kind, u)) && Begun(u, w0, k, g0) && Worked(kind, u, w, k, g, id)
    requires OnRecord(kind, u, k, g0, id) && SameClaim(kind, u, k, g0, g)
    ensures w.Valid() && Moves(View(kind, u), View(kind, w), k, ModeOf(kind, u, k))
  {
    hide Drifted, Along, Held, Begun, Lawful, View, Inv, Spares, Written, Plain;
    CalmSpares(u.weather, kind.part);
    Ownership.PassMoves(kind, u, w0, w, k, g0, g, id);
  }

  lemma WorkEnd<S(!new), Id, C>(
    kind: Kind<S, Id, C>, u: World<S>, v: World<S>, k: Key, g: Object<S>, p: Object<S>, id: Id)
    requires WorkedOn(kind, u, v, id) && OnRecord(kind, u, k, g, id) && SameClaim(kind, u, k, g, p)
    ensures StatusStep(kind, u, v, k, g, p) && RemoteStep(kind, u, v, k, g, p, id)
  {
    hide Spares, Plain;
    CalmSpares(u.weather, kind.part);
  }

  /** The same when its last word is to write the resource. */
  lemma WorkPatchMoves<S(!new), Id, C>(
    kind: Kind<S, Id, C>, u: World<S>, w0: World<S>, w: World<S>, k: Key, g0: Object<S>, g: Object<S>,
        p: Object<S>, id: Id)
    requires Lawful(kind) && Inv(View(kind, u)) && Begun(u, w0, k, g0) && Worked(kind, u, w, k, g, id)
    requires OnRecord(kind, u, k, g0, id) && SameClaim(kind, u, k, g0, g) && SameClaim(kind, u, k, g0, p)
    ensures var v := Update(w, k, p).0; v.Valid() && Moves(View(kind, u), View(kind, v), k, ModeOf(kind, u, k))
  {
    hide Drifted, Along, Held, Begun, Lawful, View, Inv, Spares, Written, Plain, Update, Calmly, Next, SameClaim;
    hide WorkedOn;
    var v := Update(w, k, p).0;
    CalmlyRefl(w, kind.part);
    WorkedTrans(kind, u, w, v, id);
    CalmSpares(u.weather, kind.part);
    WorkEnd(kind, u, v, k, g0, if Written(v, k, p) then p else g, id);
    Ownership.PassMoves(kind, u, w0, v, k, g0, if Written(v, k, p) then p else g, id);
  }

  /** A create pass that stops before its resource records the new object. */
  lemma AbandonMoves<S(!new), Id, C>(
    kind: Kind<S, Id, C>, u: World<S>, w0: World<S>, w: World<S>, k: Key, g: Object<S>, id: Id)
    requires Lawful(kind) && Inv(View(kind, u)) && Begun(u, w0, k, g) && Worked(kind, u, w, k, g, id)
    requires g.status.None? && g.finalizer
    requires Spares(u.weather, kind.part, true) && Plain(kind, u, k) ==> id !in kind.remote(u.minio)
    ensures w.Valid() && Moves(View(kind, u), View(kind, w), k, ModeOf(kind, u, k))
  {
    hide Drifted, Along, Held, Begun, Lawful, View, Inv, Spares, Written, Plain;
    Ownership.PassMoves(kind, u, w0, w, k, g, g, id);
  }

  /** A create pass whose last word is to record the new object. */
  lemma CommitMoves<S(!new), Id, C>(
    kind: Kind<S, Id, C>, u: World<S>, w0: World<S>, w: World<S>, k: Key, g: Object<S>, p: Object<S>, id: Id)
    requires Lawful(kind) && Inv(View(kind, u)) && Begun(u, w0, k, g) && Worked(kind, u, w, k, g, id)
    requires g.status.None? && g.finalizer && p.finalizer && p.status == Some(p.spec) && !kind.unfit(p.spec)
    requires id == Named(kind, u, k, p.spec)
    requires Spares(u.weather, kind.part, true) && Plain(kind, u, k) ==> id !in kind.remote(u.minio)
    requires u.weather.Calm? ==> id in kind.remote(w.minio)
    ensures var v := Update(w, k, p).0; v.Valid() && Moves(View(kind, u), View(kind, v), k, ModeOf(kind, u, k))
  {
    hide Drifted, Along, Held, Begun, Lawful, View, Inv, Spares, Written, Plain, Update, Calmly, Next;
    var v := Update(w, k, p).0;
    CalmlyRefl(w, kind.part);
    CalmRemote(kind, w, v);
    CalmlySpares(w, v, kind.part);
    CalmSpares(u.weather, kind.part);
    WorkedTrans(kind, u, w, v, id);
    Ownership.PassMoves(kind, u, w0, v, k, g, if Written(v, k, p) then p else g, id);
  }
}
