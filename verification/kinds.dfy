/** The six kinds of resource that refine the ownership protocol; every theorem of Runs holds of each. */
module Kinds {
  import opened Runs
  import Buckets
  import GroupBindings
  import Groups
  import Policies
  import PolicyBindings
  import opened PolicyHash
  import Users

  lemma AllRefine(digest: Digest)
    ensures Refines(Buckets.Pass, Buckets.KIND)
    ensures Refines(Groups.Pass, Groups.KIND)
    ensures Refines(Users.Pass, Users.KIND)
    ensures Refines(Policies.Passes(digest), Policies.KIND)
    ensures Refines(GroupBindings.Pass, GroupBindings.KIND)
    ensures Refines(PolicyBindings.Pass, PolicyBindings.KIND)
  {
    hide Refines;
    Buckets.PassRefines();
    Groups.PassRefines();
    Users.PassRefines();
    Policies.PassRefines(digest);
    GroupBindings.PassRefines();
    PolicyBindings.PassRefines();
  }
}
