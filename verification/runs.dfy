/**
 Whole runs: any number of passes over any resources in any weather. Acts of users and other
 controllers that fall between two passes are those of a turn whose first call is lost.
 */
module Runs {
  import opened Prelude
  import opened Minio
  import opened Kube
  import opened Ownership

  /** The controller takes up a resource in some weather. */
  datatype Turn<S> = Turn(key: Key, weather: Weather<S>)

  /** Every pass on every world is a legal move. */
  ghost predicate Refines<S(!new), Id, C>(pass: (World<S>, Key) -> World<S>, kind: Kind<S, Id, C>) {
    forall w: World<S>, k :: w.Valid() && Inv(View(kind, w)) ==>
      pass(w, k).Valid() && Moves(View(kind, w), View(kind, pass(w, k)), k, ModeOf(kind, w, k))
  }

  function Begin<S(==)>(w: World<S>, t: Turn<S>): World<S> {
    w.(weather := t.weather)
  }

  function Play<S(==)>(pass: (World<S>, Key) -> World<S>, w: World<S>, turns: seq<Turn<S>>): World<S>
    decreases |turns|
  {
    if turns == [] then w else Play(pass, pass(Begin(w, turns[0]), turns[0].key), turns[1..])
  }

  /** Every turn of the run is in a mode that `ok` accepts. */
  ghost predicate Every<S, Id, C>(
    pass: (World<S>, Key) -> World<S>, kind: Kind<S, Id, C>, w: World<S>, turns: seq<Turn<S>>, ok: Mode -> bool)
    decreases |turns|
  {
    turns == [] ||
    (&& ok(ModeOf(kind, Begin(w, turns[0]), turns[0].key))
     && Every(pass, kind, pass(Begin(w, turns[0]), turns[0].key), turns[1..], ok))
  }

  /** Some pass of the run left `x` behind without recording it. */
  ghost predicate Orphaned<S, Id, C>(
    pass: (World<S>, Key) -> World<S>, kind: Kind<S, Id, C>, w: World<S>, turns: seq<Turn<S>>, x: Id)
    decreases |turns|
  {
    turns != [] &&
    var v := pass(Begin(w, turns[0]), turns[0].key);
    Orphans(View(kind, w), View(kind, v), x) || Orphaned(pass, kind, v, turns[1..], x)
  }

  /** Every state of the run, the first and the last included, satisfies `p`. */
  ghost predicate Throughout<S>(
    pass: (World<S>, Key) -> World<S>, w: World<S>, turns: seq<Turn<S>>, p: World<S> -> bool)
    decreases |turns|
  {
    p(w) && (turns == [] || Throughout(pass, pass(Begin(w, turns[0]), turns[0].key), turns[1..], p))
  }

  lemma OneTurn<S(!new), Id, C>(pass: (World<S>, Key) -> World<S>, kind: Kind<S, Id, C>, w: World<S>, t: Turn<S>)
    requires Refines(pass, kind) && w.Valid() && Inv(View(kind, w))
    ensures var u := Begin(w, t); var v := pass(u, t.key);
      && View(kind, u) == View(kind, w) && v.Valid() && Inv(View(kind, v))
      && Moves(View(kind, w), View(kind, v), t.key, ModeOf(kind, u, t.key))
  {
    hide World.Valid, Inv, Moves, ModeOf;
    var u := Begin(w, t);
    ValidReweather(w, t.weather);
    assert View(kind, u) == View(kind, w);
    MoveKeepsInv(View(kind, w), View(kind, pass(u, t.key)), t.key, ModeOf(kind, u, t.key));
  }

  /** In every run a status is only ever set on a resource with the finalizer, and never asks for migration. */
  lemma {:induction false} StatusImpliesFinalizer<S(!new), Id, C>(
    pass: (World<S>, Key) -> World<S>, kind: Kind<S, Id, C>, w: World<S>, turns: seq<Turn<S>>)
    requires Refines(pass, kind) && w.Valid() && Inv(View(kind, w))
    ensures Play(pass, w, turns).Valid() && Inv(View(kind, Play(pass, w, turns)))
    decreases |turns|
  {
    hide World.Valid, Inv, View, Moves, Refines;
    if turns != [] {
      OneTurn(pass, kind, w, turns[0]);
      StatusImpliesFinalizer(pass, kind, pass(Begin(w, turns[0]), turns[0].key), turns[1..]);
    }
  }

  /** Teardown: an object that was once recorded and is recorded no more is gone, unless some pass orphaned it. */
  lemma {:induction false} ForgottenMeansGone<S(!new), Id, C>(
    pass: (World<S>, Key) -> World<S>, kind: Kind<S, Id, C>, w: World<S>, turns: seq<Turn<S>>, x: Id)
    requires Refines(pass, kind) && w.Valid() && Inv(View(kind, w))
    requires Every(pass, kind, w, turns, (m: Mode) => m.spared)
    requires x in kind.remote(w.minio) ==> Recorded(View(kind, w), x)
    requires !Orphaned(pass, kind, w, turns, x)
    ensures var v := Play(pass, w, turns); x in kind.remote(v.minio) ==> Recorded(View(kind, v), x)
    decreases |turns|
  {
    hide World.Valid, Inv, Moves, Refines, ModeOf, Recorded;
    if turns != [] {
      var u := Begin(w, turns[0]);
      var v := pass(u, turns[0].key);
      OneTurn(pass, kind, w, turns[0]);
      if x in kind.remote(v.minio) {
        MoveAccounts(View(kind, w), View(kind, v), turns[0].key, ModeOf(kind, u, turns[0].key), x);
      }
      ForgottenMeansGone(pass, kind, v, turns[1..], x);
    }
  }

  /** No takeover: without migration an object nobody recorded is never touched, whatever calls fail. */
  lemma {:induction false} ForeignUntouched<S(!new), Id, C>(
    pass: (World<S>, Key) -> World<S>, kind: Kind<S, Id, C>, w: World<S>, turns: seq<Turn<S>>, x: Id)
    requires Refines(pass, kind) && w.Valid() && Inv(View(kind, w))
    requires Every(pass, kind, w, turns, (m: Mode) => m.spared && m.quiet && m.plain)
    requires x in kind.remote(w.minio) && !Recorded(View(kind, w), x)
    ensures var v := Play(pass, w, turns);
      x in kind.remote(v.minio) && kind.remote(v.minio)[x] == kind.remote(w.minio)[x] && !Recorded(View(kind, v), x)
    decreases |turns|
  {
    hide World.Valid, Inv, Moves, Refines, ModeOf, Recorded;
    if turns != [] {
      var u := Begin(w, turns[0]);
      var v := pass(u, turns[0].key);
      OneTurn(pass, kind, w, turns[0]);
      MoveSparesForeign(View(kind, w), View(kind, v), turns[0].key, ModeOf(kind, u, turns[0].key), x);
      ForeignUntouched(pass, kind, v, turns[1..], x);
    }
  }

  /**
   Single owner: as long as no turn ends with a status that names a missing object, no two
   resources ever own the same one.
   */
  lemma {:induction false} OneOwner<S(!new), Id, C>(
    pass: (World<S>, Key) -> World<S>, kind: Kind<S, Id, C>, w: World<S>, turns: seq<Turn<S>>)
    requires Refines(pass, kind) && w.Valid() && Inv(View(kind, w)) && SingleOwner(View(kind, w))
    requires Every(pass, kind, w, turns, (m: Mode) => m.quiet && m.plain)
    requires Throughout(pass, w, turns, (v: World<S>) => Settled(View(kind, v)))
    ensures SingleOwner(View(kind, Play(pass, w, turns)))
    decreases |turns|
  {
    hide World.Valid, Inv, Moves, Refines, ModeOf, SingleOwner, Settled, View;
    if turns != [] {
      var u := Begin(w, turns[0]);
      var v := pass(u, turns[0].key);
      OneTurn(pass, kind, w, turns[0]);
      MoveKeepsSingleOwner(View(kind, w), View(kind, v), turns[0].key, ModeOf(kind, u, turns[0].key));
      OneOwner(pass, kind, v, turns[1..]);
    }
  }

  /** Turns without faults never do: creates, spec changes and deletions in any order keep owners apart. */
  lemma {:induction false} OneOwnerInCalm<S(!new), Id, C>(
    pass: (World<S>, Key) -> World<S>, kind: Kind<S, Id, C>, w: World<S>, turns: seq<Turn<S>>)
    requires Refines(pass, kind) && w.Valid() && Inv(View(kind, w))
    requires SingleOwner(View(kind, w)) && Settled(View(kind, w))
    requires Every(pass, kind, w, turns, (m: Mode) => m.quiet && m.plain && (m.calm || m.idle))
    ensures SingleOwner(View(kind, Play(pass, w, turns))) && Settled(View(kind, Play(pass, w, turns)))
    decreases |turns|
  {
    hide World.Valid, Inv, Moves, Refines, ModeOf, SingleOwner, Settled, View;
    if turns != [] {
      var u := Begin(w, turns[0]);
      var v := pass(u, turns[0].key);
      OneTurn(pass, kind, w, turns[0]);
      MoveKeepsSingleOwner(View(kind, w), View(kind, v), turns[0].key, ModeOf(kind, u, turns[0].key));
      CalmMoveSettles(View(kind, w), View(kind, v), turns[0].key, ModeOf(kind, u, turns[0].key));
      OneOwnerInCalm(pass, kind, v, turns[1..]);
    }
  }

  /** The resource under `k` keeps a record of a remote object throughout the run. */
  ghost predicate Owning<S, Id, C>(
    pass: (World<S>, Key) -> World<S>, kind: Kind<S, Id, C>, w: World<S>, turns: seq<Turn<S>>, k: Key)
  {
    Throughout(pass, w, turns, (v: World<S>) => TargetOf(View(kind, v), k).Some?)
  }

  /** From the create that records it until it is forgotten, the target is fixed, whatever users edit. */
  lemma {:induction false} TargetPinned<S(!new), Id, C>(
    pass: (World<S>, Key) -> World<S>, kind: Kind<S, Id, C>, w: World<S>, turns: seq<Turn<S>>, k: Key)
    requires Refines(pass, kind) && w.Valid() && Inv(View(kind, w))
    requires Owning(pass, kind, w, turns, k)
    ensures TargetOf(View(kind, Play(pass, w, turns)), k) == TargetOf(View(kind, w), k)
    decreases |turns|
  {
    hide World.Valid, Inv, Refines, View, ModeOf;
    if turns != [] {
      var v := pass(Begin(w, turns[0]), turns[0].key);
      OneTurn(pass, kind, w, turns[0]);
      assert turns[0].key != k ==> Left(View(kind, w), View(kind, v), k);
      TargetPinned(pass, kind, v, turns[1..], k);
    }
  }

  /** As long as it owns one, the passes over a resource change no other remote object. */
  lemma {:induction false} OnlyItsTarget<S(!new), Id, C>(
    pass: (World<S>, Key) -> World<S>, kind: Kind<S, Id, C>, w: World<S>, turns: seq<Turn<S>>, k: Key, x: Id)
    requires Refines(pass, kind) && w.Valid() && Inv(View(kind, w))
    requires forall t | t in turns :: t.key == k
    requires Owning(pass, kind, w, turns, k) && TargetOf(View(kind, w), k) != Some(x)
    requires Every(pass, kind, w, turns, (m: Mode) => m.spared && m.quiet)
    ensures var before, after := kind.remote(w.minio), kind.remote(Play(pass, w, turns).minio);
      (x in before <==> x in after) && (x in before ==> after[x] == before[x])
    decreases |turns|
  {
    hide World.Valid, Inv, Refines, ModeOf;
    if turns != [] {
      var v := pass(Begin(w, turns[0]), turns[0].key);
      assert turns[0] in turns;
      OneTurn(pass, kind, w, turns[0]);
      assert View(kind, w).remote == kind.remote(w.minio) && View(kind, v).remote == kind.remote(v.minio);
      hide View;
      OnlyItsTarget(pass, kind, v, turns[1..], k, x);
    }
  }

  /**
   A pass over a resource without a record changes no remote object that was there, whatever calls
   fail, unless migration is asked for.
   */
  lemma CreateTakesNothing<S(!new), Id, C>(
    pass: (World<S>, Key) -> World<S>, kind: Kind<S, Id, C>, w: World<S>, k: Key, x: Id)
    requires Refines(pass, kind) && w.Valid() && Inv(View(kind, w))
    requires Spares(w.weather, kind.part, true) && Plain(kind, w, k)
    requires k in w.objects ==> w.objects[k].status.None?
    requires x in kind.remote(w.minio)
    ensures var v := pass(w, k); x in kind.remote(v.minio) && kind.remote(v.minio)[x] == kind.remote(w.minio)[x]
  {
    hide World.Valid, Inv, Spares, Plain, Left, ClaimMoves;
    assert Moves(View(kind, w), View(kind, pass(w, k)), k, ModeOf(kind, w, k));
  }

  /** A create commits status and spec together, fit to be recorded: migration is asked for once. */
  lemma CreateCommitsSpec<S(!new), Id, C>(
    pass: (World<S>, Key) -> World<S>, kind: Kind<S, Id, C>, w: World<S>, k: Key)
    requires Refines(pass, kind) && w.Valid() && Inv(View(kind, w))
    requires TargetOf(View(kind, w), k).None? && TargetOf(View(kind, pass(w, k)), k).Some?
    ensures var v := pass(w, k);
      k in v.objects && v.objects[k].status == Some(v.objects[k].spec) && v.objects[k].finalizer &&
          !kind.unfit(v.objects[k].spec)
  {
    hide World.Valid, Inv, Spares, Plain, Left, RemoteMoves;
    assert Moves(View(kind, w), View(kind, pass(w, k)), k, ModeOf(kind, w, k));
  }
}
