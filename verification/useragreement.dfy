/**
 The recorded secret version of every user resource stands for the key on the server, in runs over any
 number of them: no two own the same user, so that no pass sets the key of another resource's user.
 */
module UserAgreement {
  import opened Prelude
  import opened Minio
  import opened Kube
  import opened Users
  import opened UserSecrets
  import opened Branches
  import opened Runs
  import Ownership

  /** The secrets of `w` are those of `u`, or have been written since. */
  ghost predicate Newer(u: W, w: W) {
    forall ref | ref in w.secrets :: (ref in u.secrets && w.secrets[ref] == u.secrets[ref]) ||
        w.secrets[ref].version >= u.clock
  }

  /** A pass over `j` that began in `u` has come to `w`. */
  ghost predicate Beside(u: W, w: W, j: Key) {
    w.Valid() && Along(u, w, j) && Newer(u, w)
  }

  lemma ActNewer(u: W, w: W, a: Act<UserSpec>)
    requires Newer(u, w) && u.clock <= w.clock
    ensures Newer(u, Act1(w, a))
  {
    hide Server.Serve;
  }

  lemma {:induction false} SettleNewer(u: W, w: W, acts: seq<Act<UserSpec>>)
    requires w.Valid() && Newer(u, w) && u.clock <= w.clock
    ensures Newer(u, Settle(w, acts))
    decreases |acts|
  {
    hide Act1, Newer, World.Valid;
    if acts != [] {
      ActNewer(u, w, acts[0]);
      ActDrifts(w, acts[0], Key("", ""));
      SettleNewer(u, Act1(w, acts[0]), acts[1..]);
    }
  }

  lemma NextBeside(u: W, w: W, j: Key)
    requires Beside(u, w, j)
    ensures Beside(u, Next(w).0, j)
  {
    hide Settle, World.Valid, Drifted, Held, Weathered;
    NextAlways(w);
    if w.weather.Storm? && w.weather.beats != [] {
      var x := w.(weather := Storm(w.weather.beats[1..]));
      ValidReweather(w, x.weather);
      assert Newer(u, x);
      SettleNewer(u, x, w.weather.beats[0].acts);
    }
  }

  lemma AskBeside(u: W, w: W, j: Key)
    requires Beside(u, w, j)
    ensures Beside(u, Ask(w).0, j)
  {
    hide Next, Beside, Kept, Weathered;
    NextBeside(u, w, j);
  }

  lemma SendBeside(u: W, w: W, q: Request, j: Key)
    requires Beside(u, w, j)
    ensures Beside(u, Send(w, q).0, j)
  {
    hide Next, World.Valid, Drifted, Held, Weathered, Server.Serve;
    NextBeside(u, w, j);
  }

  lemma UpdateSecretsKept(w: W, j: Key, o: Resource)
    ensures Update(w, j, o).0.secrets == Next(w).0.secrets
  {
    hide Next;
  }

  lemma UpdateBeside(u: W, w: W, j: Key, o: Resource)
    requires Beside(u, w, j)
    ensures Beside(u, Update(w, j, o).0, j)
  {
    hide Next, World.Valid, Drifted, Held, Weathered, Kept;
    NextBeside(u, w, j);
    UpdateSecretsKept(w, j, o);
  }

  lemma AccessKeyBeside(u: W, w: W, j: Key, spec: UserSpec)
    requires Beside(u, w, j)
    ensures Beside(u, AccessKey(w, spec, j.namespace).0, j)
  {
    hide Beside, AccessKey, Ask;
    AskBeside(u, w, j);
  }

  lemma AdoptBeside(u: W, w: W, j: Key, o: Resource, q: Request)
    requires Beside(u, w, j)
    ensures Beside(u, Adopt(w, j, o, q, {}), j)
  {
    hide Beside, Send, Update;
    SendBeside(u, w, q, j);
    UpdateBeside(u, Send(w, q).0, j, o);
  }

  lemma ReleaseBeside(u: W, w: W, j: Key, o: Resource, q: Request)
    requires Beside(u, w, j)
    ensures Beside(u, Release(w, j, o, q, {NoSuchUser}), j)
  {
    hide Beside, Send, Update;
    SendBeside(u, w, q, j);
    UpdateBeside(u, Send(w, q).0, j, o.(status := None));
  }

  lemma CompareBeside(u: W, w: W, j: Key, o: Resource)
    requires Beside(u, w, j) && o.status.Some?
    ensures Beside(u, Compare(w, j, o), j)
  {
    hide Beside, Ask, Update, AccessKey, Adopt, Target;
    var spec := o.status.value;
    var w1 := Ask(w).0;
    AskBeside(u, w, j);
    var (w2, err, accessKey) := AccessKey(w1, spec, j.namespace);
    AccessKeyBeside(u, w1, j, spec);
    var id := Target(w2.minio.idp, spec.(accessKey := accessKey), j.namespace);
    var w3 := Ask(w2).0;
    AskBeside(u, w2, j);
    UpdateBeside(u, w3, j, o.(status := None));
    var w4 := Ask(w3).0;
    AskBeside(u, w3, j);
    var ref := spec.secretKeyRef.Target(j.namespace);
    if ref in w4.secrets {
      AdoptBeside(u, w4, j, o.(stamp := w4.secrets[ref].version),
          AddUser(id, w4.secrets[ref].Field(spec.secretKeyRef.key)));
    }
  }

  lemma CreateBeside(u: W, w: W, j: Key, o: Resource)
    requires Beside(u, w, j)
    ensures Beside(u, Create(w, j, o), j)
  {
    hide Beside, Ask, AccessKey, Adopt, Target;
    var w1 := Ask(w).0;
    AskBeside(u, w, j);
    var (w2, err, accessKey) := AccessKey(w1, o.spec, j.namespace);
    AccessKeyBeside(u, w1, j, o.spec);
    var id := Target(w2.minio.idp, o.spec.(accessKey := accessKey), j.namespace);
    var w3 := Ask(w2).0;
    AskBeside(u, w2, j);
    var w4 := Ask(w3).0;
    AskBeside(u, w3, j);
    var ref := o.spec.secretKeyRef.Target(j.namespace);
    if ref in w4.secrets {
      AdoptBeside(u, w4, j, Created(o, accessKey, w4.secrets[ref].version),
          AddUser(id, w4.secrets[ref].Field(o.spec.secretKeyRef.key)));
    }
  }

  lemma TeardownBeside(u: W, w: W, j: Key, o: Resource)
    requires Beside(u, w, j)
    ensures Beside(u, Teardown(w, j, o), j)
  {
    hide Beside, Ask, AccessKey, Release, Update, Target;
    UpdateBeside(u, w, j, o.(finalizer := false));
    if o.status.Some? {
      var w1 := Ask(w).0;
      AskBeside(u, w, j);
      var (w2, err, accessKey) := AccessKey(w1, o.status.value, j.namespace);
      AccessKeyBeside(u, w1, j, o.status.value);
      ReleaseBeside(u, w2, j, o,
          RemoveUser(Target(w2.minio.idp, o.status.value.(accessKey := accessKey), j.namespace)));
    }
  }

  lemma SettledStatus(w: W, j: Key, o: Resource)
    ensures Update(w, j, Users.Settled(o)).2.status == o.status
  {
    hide Next;
  }

  lemma BesideRefl(u: W, j: Key)
    requires u.Valid()
    ensures Beside(u, u, j)
  {
    hide World.Valid;
  }

  /** A pass over `j` leaves other resources to others, and writes no secret. */
  lemma PassBeside(u: W, j: Key)
    requires u.Valid()
    ensures Beside(u, Pass(u, j), j)
  {
    hide Beside, Ask, Update, Compare, Create, Teardown;
    assert Beside(u, u, j) by { BesideRefl(u, j); }
    AskBeside(u, u, j);
    var x := Ask(u).0;
    if Ask(u).1 == Nil && j in x.objects {
      var o := x.objects[j];
      TeardownBeside(u, x, j, o);
      UpdateBeside(u, x, j, o.(finalizer := true));
      CreateBeside(u, x, j, o);
      if o.status.Some? {
        UpdateBeside(u, x, j, Users.Settled(o));
        var (y, err, p) := if o.spec.migrate then Update(x, j, Users.Settled(o)) else (x, Nil, o);
        assert p.status == o.status by { SettledStatus(x, j, o); }
        CompareBeside(u, y, j, p);
      }
    }
  }

  /** What every resource records about its user is right. */
  ghost predicate Right(w: W) {
    w.Valid() && forall k, id :: k in w.objects ==> Fit(w, k, w.objects[k], id)
  }

  lemma ClockRuns(w: W)
    requires w.Valid()
    ensures 0 < w.clock
  {
  }

  lemma OthersStayRight(u: W, v: W, j: Key, k: Key, id: RemoteId)
    requires Right(u) && Beside(u, v, j) && j != k && k in v.objects
    requires
      && k in u.objects && u.objects[k].status.Some?
      && id == Target(u.minio.idp, u.objects[k].status.value, k.namespace)
      && id in v.minio.users ==>
        id in u.minio.users && v.minio.users[id] == u.minio.users[id]
    ensures Fit(v, k, v.objects[k], id)
  {
    hide World.Valid;
    assert Drifted(u, v, k);
    assert 0 < v.clock by { ClockRuns(v); }
    if k in u.objects { assert Fit(u, k, u.objects[k], id); }
  }

  /** A pass over one resource leaves the users of all others as they are. */
  lemma OtherUsersKept(u: W, j: Key, k: Key)
    requires u.Valid() && Ownership.Inv(Ownership.View(KIND, u))
    requires Ownership.SingleOwner(Ownership.View(KIND, u)) && Ownership.Settled(Ownership.View(KIND, u))
    requires var mode := Ownership.ModeOf(KIND, u, j); mode.quiet && mode.plain
    requires j != k && k in u.objects && u.objects[k].status.Some?
    ensures
      var id, v := Target(u.minio.idp, u.objects[k].status.value, k.namespace), Pass(u, j);
      id in u.minio.users && id in v.minio.users && v.minio.users[id] == u.minio.users[id]
  {
    hide Pass, World.Valid;
    PassMoves(u, j);
    var a := Ownership.View(KIND, u);
    assert k in a.claims && a.claims[k].target.Some?;
    assert j in a.claims ==> a.claims[j].target != a.claims[k].target;
  }

  lemma BesideValid(u: W, v: W, j: Key)
    requires Beside(u, v, j)
    ensures v.Valid()
  {
  }

  lemma QuietLeaves(t: Weather<UserSpec>, id: RemoteId)
    requires Spares(t, Part.Users, true)
    ensures Leaves(t, id)
  {
  }

  lemma TurnStaysRight(u: W, j: Key)
    requires Right(u) && Ownership.Inv(Ownership.View(KIND, u))
    requires Ownership.SingleOwner(Ownership.View(KIND, u)) && Ownership.Settled(Ownership.View(KIND, u))
    requires var mode := Ownership.ModeOf(KIND, u, j); mode.quiet && mode.plain
    ensures Right(Pass(u, j))
  {
    hide Pass, World.Valid, Fit, Ownership.Inv, Ownership.SingleOwner, Ownership.Settled, Beside, Ownership.Plain;
    var v := Pass(u, j);
    PassBeside(u, j);
    assert v.Valid() by { BesideValid(u, v, j); }
    forall k, id | k in v.objects ensures Fit(v, k, v.objects[k], id) {
      if k == j {
        QuietLeaves(u.weather, id);
        assert Agreed(u, j, id);
        PassAgrees(u, j, id);
      } else {
        if k in u.objects && u.objects[k].status.Some? { OtherUsersKept(u, j, k); }
        OthersStayRight(u, v, j, k, id);
      }
    }
  }

  lemma RightReweather(w: W, t: Weather<UserSpec>)
    requires Right(w)
    ensures Right(w.(weather := t))
  {
    hide World.Valid;
    ValidReweather(w, t);
    forall k, id | k in w.objects ensures Fit(w.(weather := t), k, w.objects[k], id) {
      assert Fit(w, k, w.objects[k], id);
    }
  }

  /**
   In every run over any number of user resources, with faults, edits of specs and of secrets, as long
   as nobody asks for migration, outsiders leave users alone and no status names a missing user:
   whenever a recorded secret version is the live one, the server has the key of that secret.
   */
  lemma {:induction false} EveryStampMeansAgreement(w: W, turns: seq<Turn<UserSpec>>)
    requires Right(w) && Ownership.Inv(Ownership.View(KIND, w)) && Ownership.SingleOwner(Ownership.View(KIND, w))
    requires Every(Pass, KIND, w, turns, (m: Ownership.Mode) => m.quiet && m.plain)
    requires Throughout(Pass, w, turns, (v: W) => Ownership.Settled(Ownership.View(KIND, v)))
    ensures
      var v := Play(Pass, w, turns);
      Right(v) && forall k | k in v.objects && v.objects[k].status.Some? ::
        var spec := v.objects[k].status.value;
        Match(v, spec.secretKeyRef.Target(k.namespace), spec.secretKeyRef.key, v.objects[k].stamp,
            Target(v.minio.idp, spec, k.namespace))
    decreases |turns|
  {
    hide World.Valid, Ownership.Inv, Ownership.SingleOwner, Ownership.Settled, Ownership.ModeOf, Match, Pass;
    hide Ownership.Moves;
    if turns != [] {
      var u := Begin(w, turns[0]);
      RightReweather(w, turns[0].weather);
      PassRefines();
      OneTurn(Pass, KIND, w, turns[0]);
      TurnStaysRight(u, turns[0].key);
      var v := Pass(u, turns[0].key);
      Ownership.MoveKeepsSingleOwner(Ownership.View(KIND, w), Ownership.View(KIND, v), turns[0].key,
          Ownership.ModeOf(KIND, u, turns[0].key));
      EveryStampMeansAgreement(v, turns[1..]);
    } else {
      forall k | k in w.objects && w.objects[k].status.Some?
        ensures
          var spec := w.objects[k].status.value;
          Match(w, spec.secretKeyRef.Target(k.namespace), spec.secretKeyRef.key, w.objects[k].stamp,
              Target(w.minio.idp, spec, k.namespace))
      {
        assert Fit(w, k, w.objects[k], Target(w.minio.idp, w.objects[k].status.value, k.namespace));
      }
    }
  }
}
