/**
 The recorded secret version stands for the secret key on the server in every run over all access
 key resources, as long as users allot the access key to one of them; and single edits that break
 this, with the exact condition for each.
 */
module AccessKeyAgreement {
  import opened Prelude
  import opened Minio
  import opened Kube
  import opened AccessKeys
  import opened AccessKeyRecords
  import opened AccessKeySecrets
  import opened AccessKeyAllotments
  import opened Credentials

  lemma KeepsLeaves(t: Weather<AccessKeySpec>, p: Plan)
    requires Keeps(t, p) && p.native
    ensures Leaves(t, p.key, p.mine)
  {
    hide Spared, TenantOf;
    if t.Storm? {
      forall b | b in t.beats ensures LeftBy(b.acts, p.key, p.mine) {
        assert KeptBy(b.acts, p);
      }
    }
  }

  /** What others have left of the resource is still right. */
  lemma DriftedAgrees(u: W, v: W, p: Plan)
    requires Agreed(u, p.key, p.mine) && Allotted(v, p) && p.native
    requires Later(u, v, p.mine) && Drifted(u, v, p.key)
    ensures Agreed(v, p.key, p.mine)
  {
    hide World.Valid, Unique, Later, Claim, Proper, TenantOf;
    assert u.clock <= v.clock by { LaterClock(u, v, p.mine); }
    assert 0 < v.clock by { ValidClock(v); }
    if p.key in u.objects { FitLater(u, v, p.key, u.objects[p.key], p.mine); }
  }

  lemma TurnAgrees(u: W, j: Key, roll: Roll, p: Plan)
    requires Allotted(u, p) && Agreed(u, p.key, p.mine) && p.native && Keeps(u.weather, p) && Misses(roll, j, p)
    ensures Allotted(Pass(u, j, roll), p) && Agreed(Pass(u, j, roll), p.key, p.mine)
  {
    hide Allotted, Agreed, Keeps, Misses, Pass, Later, Drifted;
    PassGoes(u, j, roll, p);
    if j == p.key {
      KeepsLeaves(u.weather, p);
      PassAgrees(u, j, roll, p.mine);
    } else {
      DriftedAgrees(u, Pass(u, j, roll), p);
    }
  }

  lemma {:induction false} RunAgrees(w: W, turns: seq<KeyTurn>, p: Plan)
    requires Allotted(w, p) && Agreed(w, p.key, p.mine) && p.native
    requires forall t | t in turns :: Keeps(t.weather, p) && Misses(t.roll, t.key, p)
    ensures Allotted(Play(w, turns), p) && Agreed(Play(w, turns), p.key, p.mine)
    decreases |turns|
  {
    hide World.Valid, Pass, Keeps, Misses, Suits, Proper, Fit, Unique;
    if turns != [] {
      var u := Begin(w, turns[0]);
      assert turns[0] in turns;
      ValidReweather(w, turns[0].weather);
      UniqueReweather(w, turns[0].weather);
      if p.key in w.objects { FitReweather(w, p.key, w.objects[p.key], turns[0].weather, p.mine); }
      TurnAgrees(u, turns[0].key, turns[0].roll, p);
      RunAgrees(Pass(u, turns[0].key, turns[0].roll), turns[1..], p);
    }
  }

  /**
   In every run over any number of access key resources, with faults, renames, regenerations,
   deletions and outside edits of specs and secrets: for a resource that keeps its tenant and never
   asks for migration, and an access key that users allot to it alone, whenever the recorded secret
   version is the live one and the secret names that key, the server has the secret key of the secret.
   */
  lemma AllottedMeansAgreement(w: W, turns: seq<KeyTurn>, p: Plan)
    requires Allotted(w, p) && p.native
    requires p.key in w.objects ==> w.objects[p.key].status.None? && w.objects[p.key].stamp < w.clock
    requires forall t | t in turns :: Keeps(t.weather, p) && Misses(t.roll, t.key, p)
    ensures
      var v := Play(w, turns);
      p.key in v.objects && v.objects[p.key].status.Some? ==>
        var at := SecretOf(v.objects[p.key].status.value, p.key.namespace);
        && TenantOf(v.objects[p.key].status.value, p.key.namespace) == p.mine.tenant
        && (at in v.secrets && v.secrets[at].version == v.objects[p.key].stamp
              && CredsOf(v.secrets[at]).accessKey == p.mine.name && p.mine in v.minio.accounts ==>
              v.minio.accounts[p.mine].secretKey == CredsOf(v.secrets[at]).secretKey)
  {
    hide World.Valid, Unique, Pass, Keeps, Misses, Proper;
    RunAgrees(w, turns, p);
  }
}
