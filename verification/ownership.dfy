/**
 The ownership protocol the reconcilers follow, without their particulars: custom resources
 claim remote objects through their status, and a finalizer guards every claim. A reconciler
 refines the protocol when each of its passes, whatever the weather, is a legal move.
 */
module Ownership {
  import opened Prelude
  import opened Minio
  import opened Kube

  /** `target` is the remote object the status names; `taint`: the recorded spec is unfit to be recorded. */
  datatype Claim<Id> = Claim(target: Option<Id>, finalizer: bool, taint: bool, synced: bool)

  datatype Own<Id(==), C> = Own(claims: map<Key, Claim<Id>>, remote: map<Id, C>)

  /**
   What is known about the turn of a pass. `calm`: no call fails and nobody interferes.
   `idle`: the first call fails, and the pass with it.
   `spared`: nobody else writes remote objects of this kind; `quiet`: nor removes them.
   `plain`: the pass does not adopt an existing object.
   */
  datatype Mode = Mode(calm: bool, idle: bool, spared: bool, quiet: bool, plain: bool)

  function TargetOf<Id(==), C>(a: Own<Id, C>, k: Key): Option<Id> {
    if k in a.claims then a.claims[k].target else None
  }

  predicate Guarded<Id(==), C>(a: Own<Id, C>, k: Key) {
    k in a.claims && a.claims[k].finalizer
  }

  /** Every claim is guarded by a finalizer and no unfit spec is recorded. */
  ghost predicate Inv<Id, C>(a: Own<Id, C>) {
    forall k | k in a.claims && a.claims[k].target.Some? :: a.claims[k].finalizer && !a.claims[k].taint
  }

  /** The claim under `j` is left alone. */
  ghost predicate Left<Id, C>(a: Own<Id, C>, b: Own<Id, C>, j: Key) {
    && TargetOf(b, j) == TargetOf(a, j)
    && Guarded(b, j) == Guarded(a, j)
    && (Guarded(a, j) ==> b.claims[j].taint == a.claims[j].taint)
  }

  /** How a pass may change the claim it works on. */
  ghost predicate ClaimMoves<Id, C>(a: Own<Id, C>, b: Own<Id, C>, k: Key, mode: Mode) {
    var prior, next := TargetOf(a, k), TargetOf(b, k);
    && (next.Some? ==> Guarded(b, k) && !b.claims[k].taint)
    && (prior.Some? && next.Some? ==> next == prior)
    && (prior.Some? && next.None? && mode.spared ==> prior.value !in b.remote)
    && (prior.None? && next.Some? ==> Guarded(a, k) && b.claims[k].synced)
    && (prior.None? && next.Some? && mode.plain && mode.quiet ==> next.value !in a.remote)
    && (mode.idle ==> Left(a, b, k))
    && (mode.calm && next.Some? && (prior.Some? ==> prior.value in a.remote) ==> next.value in b.remote)
  }

  /** How a pass may change the remote objects. */
  ghost predicate RemoteMoves<Id, C>(a: Own<Id, C>, b: Own<Id, C>, k: Key, mode: Mode) {
    var prior, next := TargetOf(a, k), TargetOf(b, k);
    && (mode.spared ==> forall x | x in b.remote && x !in a.remote ::
          Guarded(a, k) && prior.None? && (next.Some? ==> next.value == x))
    && (mode.spared ==> forall x, y | x in b.remote && x !in a.remote && y in b.remote && y !in a.remote :: x == y)
    && (mode.idle && mode.quiet ==> b.remote == a.remote)
    && (mode.quiet && (mode.plain || prior.Some?) ==>
          forall x | x in a.remote && prior != Some(x) :: x in b.remote && b.remote[x] == a.remote[x])
  }

  ghost predicate Moves<Id, C>(a: Own<Id, C>, b: Own<Id, C>, k: Key, mode: Mode) {
    && (forall j | j != k :: Left(a, b, j))
    && ClaimMoves(a, b, k, mode)
    && RemoteMoves(a, b, k, mode)
  }

  lemma MoveKeepsInv<Id, C>(a: Own<Id, C>, b: Own<Id, C>, k: Key, mode: Mode)
    requires Inv(a) && Moves(a, b, k, mode)
    ensures Inv(b)
  {
    forall j | j in b.claims && b.claims[j].target.Some? ensures b.claims[j].finalizer && !b.claims[j].taint {
      if j != k {
        assert Left(a, b, j);
      }
    }
  }

  /** Some claim names `x`. */
  ghost predicate Recorded<Id, C>(a: Own<Id, C>, x: Id) {
    exists k :: k in a.claims && a.claims[k].target == Some(x)
  }

  /** A move that leaves an object behind that no claim names. */
  ghost predicate Orphans<Id, C>(a: Own<Id, C>, b: Own<Id, C>, x: Id) {
    x in b.remote && x !in a.remote && !Recorded(b, x)
  }

  /** Nothing recorded is forgotten while it exists, and only a lost commit leaves an orphan. */
  lemma MoveAccounts<Id, C>(a: Own<Id, C>, b: Own<Id, C>, k: Key, mode: Mode, x: Id)
    requires Inv(a) && Moves(a, b, k, mode) && mode.spared
    requires x in b.remote
    ensures Recorded(b, x) || Orphans(a, b, x) || (x in a.remote && !Recorded(a, x))
  {
    if x in a.remote && Recorded(a, x) {
      var j :| j in a.claims && a.claims[j].target == Some(x);
      if j != k {
        assert Left(a, b, j);
      }
      assert TargetOf(a, j) == TargetOf(b, j) == Some(x);
    }
  }

  /** An object no claim names stays as it is. */
  lemma MoveSparesForeign<Id, C>(a: Own<Id, C>, b: Own<Id, C>, k: Key, mode: Mode, x: Id)
    requires Inv(a) && Moves(a, b, k, mode) && mode.spared && mode.quiet && mode.plain
    requires x in a.remote && !Recorded(a, x)
    ensures x in b.remote && b.remote[x] == a.remote[x] && !Recorded(b, x)
  {
    assert TargetOf(a, k) != Some(x);
    forall j | j in b.claims ensures b.claims[j].target != Some(x) {
      if j != k {
        assert Left(a, b, j) && TargetOf(a, j) != Some(x);
      }
    }
  }

  /** Every claim names an object that exists. */
  ghost predicate Settled<Id, C>(a: Own<Id, C>) {
    forall k | k in a.claims && a.claims[k].target.Some? :: a.claims[k].target.value in a.remote
  }

  /** No two claims name the same object. */
  ghost predicate SingleOwner<Id, C>(a: Own<Id, C>) {
    forall i, j | i in a.claims && j in a.claims && i != j &&
        a.claims[i].target.Some? :: a.claims[i].target != a.claims[j].target
  }

  lemma MoveKeepsSingleOwner<Id, C>(a: Own<Id, C>, b: Own<Id, C>, k: Key, mode: Mode)
    requires Inv(a) && Moves(a, b, k, mode) && mode.quiet && mode.plain
    requires Settled(a) && SingleOwner(a)
    ensures SingleOwner(b)
  {
    forall i, j | i in b.claims && j in b.claims && i != j && b.claims[i].target.Some?
      ensures b.claims[i].target != b.claims[j].target
    {
      assert i != k ==> Left(a, b, i);
      assert j != k ==> Left(a, b, j);
    }
  }

  lemma CalmMoveSettles<Id, C>(a: Own<Id, C>, b: Own<Id, C>, k: Key, mode: Mode)
    requires Inv(a) && Moves(a, b, k, mode) && (mode.calm || mode.idle) && mode.quiet && mode.plain
    requires Settled(a) && SingleOwner(a)
    ensures Settled(b)
  {
    forall j | j in b.claims && b.claims[j].target.Some? ensures b.claims[j].target.value in b.remote {
      if j != k {
        assert Left(a, b, j);
        assert TargetOf(a, k) != TargetOf(a, j);
      }
    }
  }

  /**
   What tells one kind of custom resource from another: the remote object a spec names (for a
   resource in a given namespace), the migrate flag, and where the server keeps the objects.
   */
  datatype Kind<!S(==), !Id, C> = Kind(
    target: (Idp, S, string) -> Id,
    migrates: S -> bool,
    unfit: S -> bool,           // never recorded
    remote: Server -> map<Id, C>,
    part: Part,
    looks: (World<S>, Key) -> bool)  // the look for an existing object, if the pass takes one, is answered

  function ClaimOf<S(==), Id(==), C>(kind: Kind<S, Id, C>, idp: Idp, o: Object<S>, k: Key): Claim<Id> {
    Claim(
      if o.status.Some? then Some(kind.target(idp, o.status.value, k.namespace)) else None,
      o.finalizer,
      o.status.Some? && kind.unfit(o.status.value),
      o.status == Some(o.spec))
  }

  /** The world as the protocol sees it. */
  function View<S(==), Id(==), C>(kind: Kind<S, Id, C>, w: World<S>): Own<Id, C> {
    Own(map k | k in w.objects :: ClaimOf(kind, w.minio.idp, w.objects[k], k), kind.remote(w.minio))
  }

  /** A user asks for migration during this weather. */
  ghost predicate AsksMigration<S, Id, C>(kind: Kind<S, Id, C>, t: Weather<S>) {
    t.Storm? && exists b, a :: b in t.beats && a in b.acts && a.Apply? && kind.migrates(a.spec)
  }

  ghost predicate Plain<S, Id, C>(kind: Kind<S, Id, C>, w: World<S>, k: Key) {
    && !AsksMigration(kind, w.weather)
    && kind.looks(w, k)
    && (k in w.objects ==> !kind.migrates(w.objects[k].spec))
  }

  ghost function ModeOf<S, Id, C>(kind: Kind<S, Id, C>, w: World<S>, k: Key): Mode {
    Mode(
      w.weather.Calm?,
      Idle(w.weather),
      Spares(w.weather, kind.part, false),
      Spares(w.weather, kind.part, true),
      Plain(kind, w, k))
  }

  lemma DriftedLeft<S, Id, C>(kind: Kind<S, Id, C>, u: World<S>, v: World<S>, k: Key)
    requires Inv(View(kind, u)) && Drifted(u, v, k) && v.minio.idp == u.minio.idp
    ensures Left(View(kind, u), View(kind, v), k)
  {
    if k in u.objects {
      assert View(kind, u).claims[k] == ClaimOf(kind, u.minio.idp, u.objects[k], k);
    }
  }

  lemma AlongLeft<S, Id, C>(kind: Kind<S, Id, C>, u: World<S>, v: World<S>, k: Key)
    requires Inv(View(kind, u)) && Along(u, v, k)
    ensures forall j | j != k :: Left(View(kind, u), View(kind, v), j)
  {
    hide Drifted, View, Left;
    forall j | j != k ensures Left(View(kind, u), View(kind, v), j) {
      assert Drifted(u, v, j);
      DriftedLeft(kind, u, v, j);
    }
  }

  /** The claim of a resource that is still as `g`, or as others have left it. */
  ghost predicate ClaimLike<S, Id, C>(kind: Kind<S, Id, C>, v: World<S>, k: Key, g: Object<S>) {
    var a := View(kind, v);
    && TargetOf(a, k) == (if g.status.Some? then Some(kind.target(v.minio.idp, g.status.value, k.namespace)) else None)
    && (g.finalizer ==> Guarded(a, k) && a.claims[k].taint == (g.status.Some? && kind.unfit(g.status.value)))
    && (!g.finalizer ==> !Guarded(a, k))
  }

  lemma HeldClaim<S, Id, C>(kind: Kind<S, Id, C>, v: World<S>, k: Key, g: Object<S>)
    requires Held(v, k, g) && (g.status.Some? ==> g.finalizer)
    ensures ClaimLike(kind, v, k, g)
  {
    if k in v.objects {
      assert View(kind, v).claims[k] == ClaimOf(kind, v.minio.idp, v.objects[k], k);
    }
  }

  lemma WrittenClaim<S, Id, C>(kind: Kind<S, Id, C>, v: World<S>, k: Key, p: Object<S>)
    requires Written(v, k, p) && (p.status.Some? ==> p.finalizer)
    ensures ClaimLike(kind, v, k, p)
    ensures p.status == Some(p.spec) ==> View(kind, v).claims[k].synced
  {
    if k in v.objects {
      assert View(kind, v).claims[k] == ClaimOf(kind, v.minio.idp, v.objects[k], k);
    }
  }

  /** The remote object named by `spec` in the resource under `k`. */
  function Named<S, Id, C>(kind: Kind<S, Id, C>, w: World<S>, k: Key, spec: S): Id {
    kind.target(w.minio.idp, spec, k.namespace)
  }

  /** Both resources are guarded alike and name the same remote object, or none. */
  ghost predicate SameClaim<S, Id, C>(kind: Kind<S, Id, C>, u: World<S>, k: Key, g: Object<S>, p: Object<S>) {
    && (g.status.Some? ==> p.finalizer)
    && (g.status.Some? <==> p.status.Some?)
    && (p.status.Some? ==>
        Named(kind, u, k, p.status.value) == Named(kind, u, k, g.status.value) && !kind.unfit(p.status.value))
  }

  /** How a pass turns the resource `g` it read into the resource `p` it leaves. */
  ghost predicate StatusStep<S, Id, C>(
    kind: Kind<S, Id, C>, u: World<S>, v: World<S>, k: Key, g: Object<S>, p: Object<S>) {
    var before, after := kind.remote(u.minio), kind.remote(v.minio);
    var mode := ModeOf(kind, u, k);
    if SameClaim(kind, u, k, g, p) then
      mode.calm && p.status.Some? && Named(kind, u, k, p.status.value) in before ==>
          Named(kind, u, k, p.status.value) in after
    else if p.status.None? then
      mode.spared ==> Named(kind, u, k, g.status.value) !in after
    else
      && g.status.None? && g.finalizer && p.finalizer && p.status == Some(p.spec) && !kind.unfit(p.spec)
      && (mode.quiet && mode.plain ==> Named(kind, u, k, p.spec) !in before)
      && (mode.calm ==> Named(kind, u, k, p.spec) in after)
  }

  /** How that pass changes the remote objects; `id` is the one it may create. */
  ghost predicate RemoteStep<S, Id, C>(
    kind: Kind<S, Id, C>, u: World<S>, v: World<S>, k: Key, g: Object<S>, p: Object<S>, id: Id) {
    var before, after := kind.remote(u.minio), kind.remote(v.minio);
    var mode := ModeOf(kind, u, k);
    && (mode.spared ==> forall x | x in after && x !in before ::
          x == id && g.finalizer && g.status.None? && (p.status.Some? ==> Named(kind, u, k, p.status.value) == id))
    && (mode.quiet && (mode.plain || g.status.Some?) ==>
          forall x | x in before && (g.status.Some? ==> x != Named(kind, u, k, g.status.value)) ::
              x in after && after[x] == before[x])
  }

  lemma ReadGuarded<S, Id, C>(kind: Kind<S, Id, C>, u: World<S>, w: World<S>, k: Key, g: Object<S>)
    requires Inv(View(kind, u)) && Begun(u, w, k, g)
    ensures g.status.Some? ==> g.finalizer && !kind.unfit(g.status.value)
  {
    if k in u.objects {
      assert View(kind, u).claims[k] == ClaimOf(kind, u.minio.idp, u.objects[k], k);
    }
  }

  lemma ClaimsMove<S, Id, C>(
    kind: Kind<S, Id, C>, u: World<S>, w: World<S>, v: World<S>, k: Key, g: Object<S>, p: Object<S>)
    requires !Idle(u.weather) && Along(u, w, k) && Along(u, v, k) && Inv(View(kind, u))
    requires Left(View(kind, u), View(kind, w), k) && ClaimLike(kind, w, k, g) && ClaimLike(kind, v, k, p)
    requires g.status.Some? ==> g.finalizer && !kind.unfit(g.status.value)
    requires p.status == Some(p.spec) && g.status.None? ==> View(kind, v).claims[k].synced
    requires StatusStep(kind, u, v, k, g, p)
    ensures ClaimMoves(View(kind, u), View(kind, v), k, ModeOf(kind, u, k))
  {
    hide Drifted, Spares, Plain, Idle;
    assert View(kind, u).remote == kind.remote(u.minio) && View(kind, v).remote == kind.remote(v.minio);
    hide View;
  }

  lemma RemotesMove<S, Id, C>(
    kind: Kind<S, Id, C>, u: World<S>, w: World<S>, v: World<S>, k: Key, g: Object<S>, p: Object<S>, id: Id)
    requires !Idle(u.weather) && Along(u, w, k) && Along(u, v, k)
    requires Left(View(kind, u), View(kind, w), k) && ClaimLike(kind, w, k, g) && ClaimLike(kind, v, k, p)
    requires RemoteStep(kind, u, v, k, g, p, id)
    ensures RemoteMoves(View(kind, u), View(kind, v), k, ModeOf(kind, u, k))
  {
    hide Drifted, Spares, Plain, Idle;
    assert View(kind, u).remote == kind.remote(u.minio) && View(kind, v).remote == kind.remote(v.minio);
    hide View;
  }

  lemma PassMoves<S, Id, C>(
    kind: Kind<S, Id, C>, u: World<S>, w: World<S>, v: World<S>, k: Key, g: Object<S>, p: Object<S>, id: Id)
    requires Inv(View(kind, u)) && Begun(u, w, k, g)
    requires Along(u, v, k) && (Held(v, k, p) || Written(v, k, p))
    requires g.status.None? && p.status.Some? ==> Written(v, k, p)
    requires StatusStep(kind, u, v, k, g, p) && RemoteStep(kind, u, v, k, g, p, id)
    ensures Moves(View(kind, u), View(kind, v), k, ModeOf(kind, u, k))
  {
    hide Drifted, ModeOf, Held, Written;
    AlongLeft(kind, u, v, k);
    DriftedLeft(kind, u, w, k);
    ReadGuarded(kind, u, w, k, g);
    HeldClaim(kind, w, k, g);
    hide View;
    if Written(v, k, p) { WrittenClaim(kind, v, k, p); } else { HeldClaim(kind, v, k, p); }
    ClaimsMove(kind, u, w, v, k, g, p);
    RemotesMove(kind, u, w, v, k, g, p, id);
  }

  /** Where the kind keeps its objects is what outside requests on its part of the server change. */
  ghost predicate Lawful<S, Id, C>(kind: Kind<S, Id, C>) {
    forall m, n ::
      && (Remains(m, n, kind.part, false) ==> Submap(kind.remote(n), kind.remote(m)))
      && (Remains(m, n, kind.part, true) ==> kind.remote(n) == kind.remote(m))
  }

  lemma CalmRemote<S, Id, C>(kind: Kind<S, Id, C>, u: World<S>, v: World<S>)
    requires Lawful(kind) && Calmly(u, v, kind.part)
    ensures Spares(u.weather, kind.part, false) ==> Submap(kind.remote(v.minio), kind.remote(u.minio))
    ensures Spares(u.weather, kind.part, true) ==> kind.remote(v.minio) == kind.remote(u.minio)
  {
    hide Remains, Spares;
  }

  lemma CalmSpares<S>(t: Weather<S>, p: Part)
    ensures t.Calm? ==> Spares(t, p, true) && Spares(t, p, false)
  {
  }

  /** A pass that only leaves the world to others, or writes the resource without touching its status. */
  lemma BareMoves<S, Id, C>(
    kind: Kind<S, Id, C>, u: World<S>, w: World<S>, v: World<S>, k: Key, g: Object<S>, p: Object<S>)
    requires Lawful(kind) && Inv(View(kind, u)) && Begun(u, w, k, g)
    requires Along(u, v, k) && (Held(v, k, p) || Written(v, k, p))
    requires Calmly(u, v, kind.part)
    requires SameClaim(kind, u, k, g, p)
    ensures Moves(View(kind, u), View(kind, v), k, ModeOf(kind, u, k))
  {
    hide Spares, Calmly, View, Begun, Along, Held, Written;
    CalmRemote(kind, u, v);
    assert u.weather.Calm? ==> Spares(u.weather, kind.part, true) by { CalmSpares(u.weather, kind.part); }
    PassMoves(kind, u, w, v, k, g, p, Named(kind, u, k, g.spec));
  }

  lemma IdleMoves<S, Id, C>(kind: Kind<S, Id, C>, u: World<S>, v: World<S>, k: Key)
    requires Lawful(kind) && Inv(View(kind, u))
    requires Along(u, v, k) && Drifted(u, v, k) && Calmly(u, v, kind.part)
    ensures Moves(View(kind, u), View(kind, v), k, ModeOf(kind, u, k))
  {
    hide Spares, Calmly, Drifted;
    CalmRemote(kind, u, v);
    CalmSpares(u.weather, kind.part);
    AlongLeft(kind, u, v, k);
    DriftedLeft(kind, u, v, k);
  }

  lemma {:induction false} SettlePlain<S(!new), Id, C>(kind: Kind<S, Id, C>, w: World<S>, acts: seq<Act<S>>, k: Key)
    requires forall a | a in acts && a.Apply? :: !kind.migrates(a.spec)
    requires k in w.objects ==> !kind.migrates(w.objects[k].spec)
    ensures k in Settle(w, acts).objects ==> !kind.migrates(Settle(w, acts).objects[k].spec)
    decreases |acts|
  {
    hide Server.Serve;
    if acts != [] {
      SettlePlain(kind, Act1(w, acts[0]), acts[1..], k);
    }
  }

  /** A plain pass reads a spec that does not ask for migration. */
  lemma AskPlain<S(!new), Id, C>(kind: Kind<S, Id, C>, w: World<S>, k: Key)
    requires Plain(kind, w, k)
    ensures k in Ask(w).0.objects ==> !kind.migrates(Ask(w).0.objects[k].spec)
  {
    hide Settle;
    if w.weather.Storm? && w.weather.beats != [] {
      var b := w.weather.beats[0];
      assert b in w.weather.beats;
      forall a | a in b.acts && a.Apply? ensures !kind.migrates(a.spec) {
        assert !(a.Apply? && kind.migrates(a.spec));
      }
      SettlePlain(kind, w.(weather := Storm(w.weather.beats[1..])), b.acts, k);
    }
  }
}
