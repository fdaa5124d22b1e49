# The reconcilers of minio-operator-ext, verified

minio-operator-ext turns Kubernetes custom resources into objects on MinIO tenants. Seven reconcilers
work on buckets, groups, users, policies, group bindings, policy bindings and access keys. There is no
transaction across the Kubernetes API server and MinIO. What holds the two together is the order of
the writes, a finalizer, the spec recorded in the status, and the comparison of resource versions.
This project models all seven reconcilers and proves what that discipline achieves over whole runs in
which any call may fail, the process may die anywhere, and users edit and delete at any moment.

## How it is built

- `minio.dfy` and `kube.dfy` are the surroundings: MinIO servers as state with a `Serve` function, and
  the API server as versioned objects whose `Update` compares and swaps. A `World` holds both, and a
  *weather*. In `Calm` no call fails and nobody interferes. In a `Storm` every external call meets a
  beat: first the acts of others (users, other controllers, administrators), then the fate of the call,
  which may be done, lost, or done but reported as failed. A storm that has blown out loses every call,
  which is how a process dies. Acts that fall between two passes are those of a turn whose first call
  is lost.
- `groups.dfy`, `users.dfy`, `policies.dfy`, `groupbindings.dfy`, `policybindings.dfy`, `buckets.dfy`
  and `accesskeys.dfy` each give the reconciliation twice: as a function `Pass` from world to world,
  and as a class `Reconciler` whose methods change the cluster in place through the clients of
  `client.dfy`, in the order and with the branches of the source. Each method is proved equal to its
  function in every weather.
- `writes.dfy` and `accesskeywrites.dfy` say what the passes of each kind write when no call fails and
  nobody interferes, in the fields of the spec, with the tenants and secrets that `addresses.dfy` says in
  plain terms. `Brackets`, `Creates`, `Checks` and `Deletes` of a kind cover the branches of its pass, and
  so give it a second time, as what it comes to. For access keys `Waits` is the check of a resource
  whose credentials cannot be had, and `DesiredIs` says what they are.
- `ownership.dfy` states the protocol without its particulars: claims, finalizers and remote objects,
  and which moves are legal. `branches.dfy` proves that the ways a pass can end are legal moves, and each
  of six kinds proves that all its passes are (`PassRefines`). `runs.dfy` then proves the theorems about
  runs once, for every kind that refines the protocol; `kinds.dfy` lists the six.
- Access keys follow a protocol of their own, with a generated secret between resource and server, and
  have their own theorems in the `accesskey*.dfy` files. `accesskeyallotments.dfy` is the ground of the
  theorems about runs over all of them: a `Plan` says which resource an account belongs to, where its
  access key may stand, and what users keep to; users can see before an edit whether it does.
- Where the code compares hashes of policies, the model compares the digests of the same nested
  preimages, for any digest function. That function is a parameter of the policy reconciler, and one of
  the things an access key pass finds on its machine, with the random bytes.
- `progress.dfy`, `bucketsettings.dfy`, `bucketconsent.dfy`, `usersecrets.dfy` and `useragreement.dfy`
  treat single kinds further; `jointsteps.dfy` and `jointconvergence.dfy` treat them together;
  `policyhash.dfy`, `credentials.dfy` and `randomkeys.dfy` are the hashes and the random keys.

## What the code does not keep

Some properties one would expect are false of the code. Each is shown by a lemma, beside the exact
condition under which the property holds.

- A policy that exists is overwritten without migration when the look for it fails
  (`PolicyProgress.UnansweredLookOverwrites`). The documentation promises that existing objects are
  detected. They are whenever that one call is answered (`Runs.CreateTakesNothing`, whose `Plain`
  asks for the answer).
- A create pass whose last write is lost leaves a remote object that no status names. It blocks the
  resource until migration is asked for (`GroupProgress.LostCommitBlocks`). For access keys the
  leftover secret blocks as well, with migration or without (`AccessKeyLife.LeftoverSecretBlocks`).
- An account whose creation the server carried out without an answer stays behind, with a secret key that
  nobody has (`AccessKeyWrites.UnansweredRequestOrphans`).
- A service account removed behind the operator's back is never made again, since the pass that clears
  the status sets it again at once (`AccessKeyLife.LostAccountStaysLost`). A pass that returned after
  clearing would recover (`AccessKeyVariant.VariantRecovers`). The other six kinds do recover
  (`LostIsRemade`).
- A migrated access key keeps the secret key it had on the server, whatever the generated secret says;
  the two agree exactly if it had the desired one already (`AccessKeyLife.MigratedAgreesIff`). A later
  update of attributes or secret restores agreement (`AccessKeyChecks.AgreesAfterPass`).
- An edit of `accessKey` to that of another resource overwrites the secret key of that resource's
  account, though nobody asked for migration, and the other resource goes on recording a live secret
  version that no longer agrees (`AccessKeyEdits.TakenKeyBreaksNeighbour`). A single edit costs another
  resource its agreement exactly if it leads to that account with another secret key
  (`AccessKeyEdits.NeighbourAgreesIff`). In runs over all access keys agreement holds as long as users
  allot the access key to one resource (`AccessKeyAgreement.AllottedMeansAgreement`).
- An edit of `tenantRef` is recorded without anything being written to the new tenant. If that has an
  account of the same access key with another secret key, the resource itself no longer agrees
  (`AccessKeyEdits.MovedTenantBreaksItself`); `AccessKeyEdits.ItselfAgreesIff` gives the exact condition.
- An edit of `tenantRef`, or of `accessKey` to a free one, followed by the deletion of the resource,
  leaves the old account behind (`AccessKeyEdits.EditsOrphan`). It goes exactly if the edit kept tenant
  and access key (`AccessKeyEdits.OldAccountGoesIff`), and in runs whose edits keep both it goes
  (`AccessKeyTeardown.ForgottenMeansGone`).
- An access key whose generated secret is missing is not deleted on the server when its resource is
  (`AccessKeyTeardown.DeletesIfSecret`).
- The buffer of random bytes is the smallest that fills every symbol of a key, but the smallest that
  encodes to enough symbols only for some lengths (`RandomKeys.NumBytesLeastWhen`); for twenty symbols
  it is one byte longer.
- Two policies whose words contain separators, or are empty, can share a hash
  (`PolicyHash.SeparatorsConfuse`), and then the one on the server is never corrected
  (`PolicyProgress.ConfusedPolicyStays`). For plain policies without a collision among them, the one on
  the server is rewritten exactly if it differs (`PolicyProgress.RewrittenIfDifferent`).

## Model

| member | source | states |
|---|---|---|
| `Groups.Reconciler.Reconcile` | internal/operator/minio_group_reconciler.go:59-217 | the group reconciler, call by call, leaves the cluster as `Groups.Pass` does, in every weather |
| `Users.Reconciler.Reconcile` | internal/operator/minio_user_reconciler.go:61-268 | the same for the user reconciler |
| `Users.Reconciler.GetAccessKey` | internal/operator/minio_user_reconciler.go:272-304 | the access key given outright or found through the reference; missing secret, missing field and empty value are errors |
| `Policies.Reconciler.Reconcile` | internal/operator/minio_policy_reconciler.go:108-328 | the same for the policy reconciler, the dropped errors of the existence check included |
| `GroupBindings.Reconciler.DeleteMember` | internal/operator/minio_group_binding_reconciler.go:73-104 | ends the recorded membership, then the record; a missing user is no error |
| `GroupBindings.Reconciler.Reconcile` | internal/operator/minio_group_binding_reconciler.go:61-242 | the same for the group binding reconciler |
| `PolicyBindings.Reconciler.DetachMember` | internal/operator/minio_policy_binding_reconciler.go:74-115 | detaches the recorded policy, then clears the record; a missing user or group is no error |
| `PolicyBindings.Reconciler.FindSearchBase` | internal/operator/minio_policy_binding_reconciler.go:197-204 | the loop finds the search base, which the first configuration entry under `user_dn_search_base_dn` gives, or which is empty |
| `PolicyBindings.Reconciler.FindMember` | internal/operator/minio_policy_binding_reconciler.go:205-226 | the loop finds the identity exactly if some list of groups or users names it |
| `PolicyBindings.Reconciler.LookUp` | internal/operator/minio_policy_binding_reconciler.go:185-226 | both search loops: found exactly if an attachment is there that the spec means, on its tenant, under the group's or user's name, a short LDAP name completed by "cn=", a comma and the search base |
| `PolicyBindings.FoundIsTarget` | internal/operator/minio_policy_binding_reconciler.go:185-226 | on a server without nameless entities the search finds the binding if and only if the attachment the spec names exists |
| `PolicyBindings.Reconciler.Reconcile` | internal/operator/minio_policy_binding_reconciler.go:62-287 | the same for the policy binding reconciler |
| `Buckets.Reconciler.CorrectVersioning` | internal/operator/minio_bucket_reconciler.go:172-226 | status to remote, spec to remote, record, for versioning |
| `Buckets.Reconciler.CorrectLifecycle` | internal/operator/minio_bucket_reconciler.go:228-280 | status to remote, spec to remote, record, for the lifecycle; no configuration is the empty one |
| `Buckets.Reconciler.Reconcile` | internal/operator/minio_bucket_reconciler.go:62-357 | the same for the bucket reconciler |
| `AccessKeys.Reconciler.GetDesiredCredentials` | internal/operator/minio_access_key_reconciler.go:583-652 | the stepwise choice of credentials agrees with `AccessKeys.Desired`: spec, reference, present secret, random |
| `AccessKeys.Reconciler.CreateSecretOfResource` | internal/operator/minio_access_key_reconciler.go:422-454 | creates the generated secret with the desired credentials |
| `AccessKeys.Reconciler.UpdateSecretOfResource` | internal/operator/minio_access_key_reconciler.go:458-530 | renames, regenerates or refreshes the generated secret |
| `AccessKeys.Reconciler.ForgetKey` | internal/operator/minio_access_key_reconciler.go:202-230 | deletes the secret and clears the status of a key that is missing on the server |
| `AccessKeys.Reconciler.CorrectKey` | internal/operator/minio_access_key_reconciler.go:232-299 | writes recorded attributes where the server differs, then the wanted ones where the record or the secret version differs |
| `AccessKeys.Reconciler.UpdateKeyOfResource` | internal/operator/minio_access_key_reconciler.go:176-302 | the whole update of the key on the server |
| `AccessKeys.Reconciler.CreateKeyOfResource` | internal/operator/minio_access_key_reconciler.go:306-365 | adds the account for the LDAP or builtin parent; an account already taken is excused under migration |
| `AccessKeys.Reconciler.DeleteKeyOfResource` | internal/operator/minio_access_key_reconciler.go:369-403 | deletes the account the generated secret names; without the secret it does nothing |
| `AccessKeys.Reconciler.Reconcile` | internal/operator/minio_access_key_reconciler.go:74-172 | the same for the access key reconciler, its rollback included |
| `Addresses.UserDnIs` | internal/operator/minio_policy_binding_reconciler.go:205-213 | the distinguished name is that of the rule and no other: a name that is empty or starts with "cn=", or an empty base, leaves the name as it is |
| `Addresses.DnParts` | internal/operator/minio_policy_binding_reconciler.go:205-213 | for a short name without a comma the part before the first comma is "cn=" and the name, the part after it the search base |
| `Addresses.DnInjective` | internal/operator/minio_policy_binding_reconciler.go:205-213 | two short names never share a distinguished name |
| `Addresses.DnDetermines` | internal/operator/minio_policy_binding_reconciler.go:205-213 | without commas in the names a distinguished name gives back both the name and the search base |
| `PolicyBindings.FoundMeans` | internal/operator/minio_policy_binding_reconciler.go:185-226 | the search finds the binding exactly if an attachment is there that the spec means |
| `GroupWrites.Brackets` | internal/operator/minio_group_reconciler.go:71-127 | a new resource gets its finalizer and nothing else, one marked for deletion without a record goes, one that is not there is no matter |
| `GroupWrites.Creates` | internal/operator/minio_group_reconciler.go:171-213 | without faults the group of the spec's name is made and recorded, in the tenant named, in the namespace given or else the resource's own; somebody else's group leaves everything as it was |
| `GroupWrites.Checks` | internal/operator/minio_group_reconciler.go:129-168 | a group that is there stays on record and the migrate flag goes; a lost one is forgotten |
| `GroupWrites.Deletes` | internal/operator/minio_group_reconciler.go:71-116 | the group on record goes, wherever the spec points by then, unless it has members |
| `GroupWrites.NamespaceDefaults` | pkg/api/bfiola.dev/v1/common.go:75-84 | leaving the namespace of the tenant out and writing it out lead to the same server |
| `BucketWrites.Brackets` | internal/operator/minio_bucket_reconciler.go:75-131 | as for groups |
| `BucketWrites.Creates` | internal/operator/minio_bucket_reconciler.go:296-354 | a new bucket has exactly the versioning and lifecycle given; an adopted one keeps what is not given, and what it holds |
| `BucketWrites.Checks` | internal/operator/minio_bucket_reconciler.go:133-294 | bucket and record end with versioning, lifecycle and deletion policy of the spec, absent versioning being Suspended unless the bucket never had any; a lost bucket is forgotten |
| `BucketWrites.Deletes` | internal/operator/minio_bucket_reconciler.go:75-120 | the bucket on record goes; one that holds something goes exactly if the recorded policy is `Always` |
| `BucketWrites.NamespaceDefaults` | pkg/api/bfiola.dev/v1/common.go:75-84 | as for groups |
| `BucketWrites.RecordsWhatIsThere` | internal/operator/minio_bucket_reconciler.go:311-354 | also where calls fail or are cut off: a create pass records the bucket only once it is there with every setting given |
| `UserWrites.Brackets` | internal/operator/minio_user_reconciler.go:74-133 | as for groups |
| `UserWrites.Creates` | internal/operator/minio_user_reconciler.go:208-265 | the user of the resolved access key gets the value of the secret referred to, and the version of that secret is recorded; without key or secret, or with somebody else's user, nothing happens |
| `UserWrites.Checks` | internal/operator/minio_user_reconciler.go:135-206 | a new version of the recorded secret is written to the user and recorded; a lost user is forgotten |
| `UserWrites.Deletes` | internal/operator/minio_user_reconciler.go:74-122 | the user on record goes, wherever the spec points by then |
| `UserWrites.NamespaceDefaults` | pkg/api/bfiola.dev/v1/common.go:75-84 | as for groups |
| `UserWrites.SecretNamespaceDefaults` | pkg/api/bfiola.dev/v1/common.go:87-104 | leaving the namespaces of the secrets out and writing them out lead to the same server |
| `PolicyWrites.Brackets` | internal/operator/minio_policy_reconciler.go:121-173 | as for groups |
| `PolicyWrites.Creates` | internal/operator/minio_policy_reconciler.go:276-325 | the policy on the server has version and statements of the spec, and so has the record |
| `PolicyWrites.Checks` | internal/operator/minio_policy_reconciler.go:175-274 | a change of the version or of any statement is written and recorded; else the policy is rewritten as recorded exactly if its hash differs; a lost one is forgotten |
| `PolicyWrites.Deletes` | internal/operator/minio_policy_reconciler.go:121-162 | the policy on record goes, wherever the spec points by then, unless it is attached |
| `PolicyWrites.NamespaceDefaults` | pkg/api/bfiola.dev/v1/common.go:75-84 | as for groups |
| `PolicyWrites.RecordsWhatIsThere` | internal/operator/minio_policy_reconciler.go:216-238 | also where calls fail or are cut off: whenever a pass makes a new record, it has version and statements of the spec, and the policy on the server has them too |
| `GroupBindingWrites.Brackets` | internal/operator/minio_group_binding_reconciler.go:106-139 | as for groups |
| `GroupBindingWrites.Creates` | internal/operator/minio_group_binding_reconciler.go:192-239 | the membership of the spec's user in the spec's group is made and recorded when both are there |
| `GroupBindingWrites.Checks` | internal/operator/minio_group_binding_reconciler.go:141-190 | a record that is no longer the spec is ended together with the membership it names; a lost membership is forgotten |
| `GroupBindingWrites.Deletes` | internal/operator/minio_group_binding_reconciler.go:73-128 | the membership on record ends, unless its group has gone while its user stays |
| `GroupBindingWrites.NamespaceDefaults` | pkg/api/bfiola.dev/v1/common.go:75-84 | as for groups |
| `PolicyBindingWrites.Brackets` | internal/operator/minio_policy_binding_reconciler.go:117-150 | as for groups |
| `PolicyBindingWrites.Creates` | internal/operator/minio_policy_binding_reconciler.go:239-284 | the policy is attached to the one identity the spec names, by the name the server has for it, and recorded |
| `PolicyBindingWrites.LeavesUnclear` | internal/operator/minio_policy_binding_reconciler.go:252-273 | a spec that names no identity, or two, leads to nothing |
| `PolicyBindingWrites.Checks` | internal/operator/minio_policy_binding_reconciler.go:152-237 | a record that is no longer the spec is detached and forgotten; a lost attachment is forgotten |
| `PolicyBindingWrites.Deletes` | internal/operator/minio_policy_binding_reconciler.go:74-139 | the attachment on record goes, unless the server refuses to detach what is not attached |
| `PolicyBindingWrites.NamespaceDefaults` | pkg/api/bfiola.dev/v1/common.go:75-84 | as for groups |
| `AccessKeyWrites.Brackets` | internal/operator/minio_access_key_reconciler.go:78-117 | as for groups |
| `AccessKeyWrites.DesiredIs` | internal/operator/minio_access_key_reconciler.go:583-652 | each half of the credentials is the value given, or the current one, or a random one of its own, twenty symbols of the first draw and forty of the second; they can be had exactly if the references lead somewhere and what is missing may be made up |
| `AccessKeyWrites.MadeUp` | internal/operator/minio_access_key_reconciler.go:603-643 | in every weather: a half that no reference and no present secret gives is that of its own draw, and nothing is made up under migration |
| `AccessKeyWrites.DrawsApart` | internal/operator/minio_access_key_reconciler.go:603-643 | the access key depends on the first draw alone and the secret key on the second |
| `AccessKeyWrites.SecretKeysEven` | internal/operator/minio_access_key_reconciler.go:637-643 | every secret key of forty symbols is made up from exactly one second draw, whatever the first |
| `AccessKeyWrites.AccessKeysEven` | internal/operator/minio_access_key_reconciler.go:609-614 | every access key of twenty symbols is made up from exactly sixteen first draws, whatever the second |
| `AccessKeyWrites.Creates` | internal/operator/minio_access_key_reconciler.go:143-169 | the account is that of the LDAP user named, or else of the built-in one, with name, description, expiration and policy of the spec and the desired secret key; secret and record carry the credentials and the access key; every other case leaves things as they were |
| `AccessKeyWrites.UnansweredRequestOrphans` | internal/operator/minio_access_key_reconciler.go:148-160 | an account that is made without an answer stays behind, while secret and record are as before |
| `AccessKeyWrites.NamespaceDefaults` | pkg/api/bfiola.dev/v1/common.go:75-104 | leaving out the namespaces of tenant and secrets and writing them out lead to the same accounts and secrets |
| `AccessKeyWrites.Checks` | internal/operator/minio_access_key_reconciler.go:119-141 | the account of the desired access key on the recorded tenant ends with name, description and expiration of the spec and a policy of the same hash, and the secret under its new name with the desired credentials; without that account the secret goes |
| `AccessKeyWrites.Waits` | internal/operator/minio_access_key_reconciler.go:458-530 | while the credentials cannot be had, or another secret has the new name, nothing happens but the renaming |
| `AccessKeyWrites.Deletes` | internal/operator/minio_access_key_reconciler.go:369-403 | the account that the generated secret names goes, in the tenant on record |
| `Buckets.PassRefines` | internal/operator/minio_bucket_reconciler.go:75-354 | in every weather every pass is a legal move of the ownership protocol |
| `Groups.PassRefines` | internal/operator/minio_group_reconciler.go:71-216 | the same for groups |
| `Users.PassRefines` | internal/operator/minio_user_reconciler.go:74-265 | the same for users; a recorded access key is never empty |
| `Policies.PassRefines` | internal/operator/minio_policy_reconciler.go:121-325 | the same for policies, a plain create being one whose existence check is answered |
| `GroupBindings.PassRefines` | internal/operator/minio_group_binding_reconciler.go:106-241 | the same for group bindings |
| `PolicyBindings.PassRefines` | internal/operator/minio_policy_binding_reconciler.go:117-284 | the same for policy bindings; a recorded binding names exactly one identity |
| `Kinds.AllRefine` | internal/operator/operator.go:170-184 | six of the seven controllers refine the protocol, so that the theorems of `Runs` hold of each |
| `Runs.StatusImpliesFinalizer` | internal/operator/minio_bucket_reconciler.go:75-131 | in every run a set status stands under the finalizer, and no recorded spec asks for migration |
| `Runs.ForgottenMeansGone` | internal/operator/minio_user_reconciler.go:74-133 | in every run a remote object that was recorded and is recorded no more is gone, unless some pass left it behind unrecorded; nobody else writes objects of the kind |
| `Runs.ForeignUntouched` | internal/operator/minio_group_binding_reconciler.go:206-227 | in every run without migration an object that no status names stays, with its content, whatever calls fail |
| `Runs.CreateTakesNothing` | internal/operator/minio_group_reconciler.go:185-203 | no pass over a resource without a record changes an object that was there when it began |
| `Runs.OneOwner` | internal/operator/minio_group_binding_reconciler.go:181-239 | in every run, faults included, in which no status names a missing object, no two resources own the same one |
| `Runs.OneOwnerInCalm` | internal/operator/minio_bucket_reconciler.go:296-354 | without faults, migration and outside writers no two statuses ever name the same remote object, through any creates, spec changes and deletions |
| `Runs.CreateCommitsSpec` | internal/operator/minio_policy_binding_reconciler.go:275-281 | a create commits status and spec together, equal and without the migrate flag |
| `Runs.TargetPinned` | internal/operator/minio_bucket_reconciler.go:133-294 | from the create that sets the status until it is cleared, the target is fixed, whatever users edit |
| `Runs.OnlyItsTarget` | internal/operator/minio_user_reconciler.go:254-259 | as long as the status is set, the passes over a resource change no remote object but its target |
| `GroupProgress.Progress` | internal/operator/minio_group_reconciler.go:71-216 | without faults every pass lowers a rank of at most three, or the resource is converged or blocked and the pass changes nothing |
| `GroupProgress.DeletionCompletes` | internal/operator/minio_group_reconciler.go:71-116 | a deletion completes in two passes, group included, exactly unless the group has members |
| `GroupProgress.LostIsRemade` | internal/operator/minio_group_reconciler.go:153-168 | a group lost behind the operator's back is back after two passes if its place is free |
| `GroupProgress.LostCommitBlocks` | internal/operator/minio_group_reconciler.go:185-213 | a create whose commit is lost blocks the resource until migration is asked for, and then one pass converges |
| `BucketProgress.Progress` | internal/operator/minio_bucket_reconciler.go:75-354 | the rank for buckets, whose convergence includes versioning, lifecycle and deletion policy |
| `BucketProgress.DeletionCompletes` | internal/operator/minio_bucket_reconciler.go:75-120 | a deletion completes exactly unless the bucket holds something and the recorded policy is not `Always` |
| `BucketProgress.LostIsRemade` | internal/operator/minio_bucket_reconciler.go:156-170 | a lost bucket is back after two passes if its place is free |
| `UserProgress.Progress` | internal/operator/minio_user_reconciler.go:74-265 | the rank for users; a missing secret blocks too |
| `UserProgress.DeletionCompletes` | internal/operator/minio_user_reconciler.go:74-120 | a deletion completes in two passes, user included |
| `UserProgress.LostIsRemade` | internal/operator/minio_user_reconciler.go:164-180 | a lost user is back after two passes if its secret is there and its place free |
| `PolicyProgress.Progress` | internal/operator/minio_policy_reconciler.go:175-325 | the rank for policies; the hash of a converged policy is that of the spec |
| `PolicyProgress.RewrittenIfDifferent` | internal/operator/minio_policy_reconciler.go:252-271 | a plain policy on record is rewritten exactly if the one on the server differs from it, no digests colliding |
| `PolicyProgress.ConfusedPolicyStays` | internal/operator/minio_policy_reconciler.go:252-271 | a policy that a separator makes hash like the one wanted stays as it is |
| `PolicyProgress.DeletionCompletes` | internal/operator/minio_policy_reconciler.go:121-160 | a deletion completes exactly unless the policy is attached |
| `PolicyProgress.LostIsRemade` | internal/operator/minio_policy_reconciler.go:198-214 | a lost policy is back after two passes if its place is free |
| `PolicyProgress.UnansweredLookOverwrites` | internal/operator/minio_policy_reconciler.go:290-325 | an existence check that fails lets the pass overwrite and record an existing policy |
| `GroupBindingProgress.Progress` | internal/operator/minio_group_binding_reconciler.go:106-241 | the rank for group bindings; a changed spec first ends the old membership |
| `GroupBindingProgress.DeletionCompletes` | internal/operator/minio_group_binding_reconciler.go:73-128 | a deletion completes exactly unless the group has gone while the user stays |
| `GroupBindingProgress.LostIsRemade` | internal/operator/minio_group_binding_reconciler.go:164-178 | a lost membership is back after two passes if group and user are there |
| `PolicyBindingProgress.Progress` | internal/operator/minio_policy_binding_reconciler.go:117-284 | the rank for policy bindings; a changed spec first detaches the old policy |
| `PolicyBindingProgress.DeletionCompletes` | internal/operator/minio_policy_binding_reconciler.go:74-139 | a deletion completes exactly unless the server refuses to detach what is not attached |
| `PolicyBindingProgress.LostIsRemade` | internal/operator/minio_policy_binding_reconciler.go:185-236 | a lost attachment is back after two passes if policy and identity are there |
| `BucketSettings.VersioningIsOneWrite` | internal/operator/minio_bucket_reconciler.go:172-226 | writing the recorded and then the wanted versioning amounts to one write; absent versioning ends never versioned or Suspended, never Enabled |
| `BucketSettings.PassLeads` | internal/operator/minio_bucket_reconciler.go:133-294 | a pass cut short at any call keeps the end configuration, a pass without faults reaches it |
| `BucketSettings.InterruptedEndsAlike` | internal/operator/minio_bucket_reconciler.go:172-291 | any number of passes cut short at any calls before a full one give the same bucket and the same record as the full one alone |
| `BucketConsent.RunConsents` | internal/operator/minio_bucket_reconciler.go:282-291 | in every run `Always` stands in a spec or a status only where a user once submitted it for that resource |
| `BucketConsent.ForcedOnlyByConsentInRuns` | internal/operator/minio_bucket_reconciler.go:91-100 | at no point of any run does a pass remove a bucket that holds something unless its recorded policy is `Always` and a user once asked for that |
| `UserAgreement.EveryStampMeansAgreement` | internal/operator/minio_user_reconciler.go:182-263 | in every run over any number of users in which no status names a missing user, without migration and outside writes: whenever a recorded secret version is the live one, the server has the key of that secret |
| `AccessKeyRecords.RecordsSound` | internal/operator/minio_access_key_reconciler.go:84-168 | in every run over access keys a set status stands under the finalizer and never asks for migration |
| `AccessKeyAllotments.PassGoes` | internal/operator/minio_access_key_reconciler.go:78-168 | a pass over any access key, in any weather, keeps to the allotment; one over another resource neither makes nor rewrites the account, nor touches the resource it is allotted to |
| `AccessKeyAgreement.AllottedMeansAgreement` | internal/operator/minio_access_key_reconciler.go:132-299 | in every run over any number of access keys, with faults, renames, regenerations and outside edits, for a resource that is not migrated and keeps its tenant: whenever the recorded secret version is live and names an access key allotted to it alone, the server has that secret key |
| `AccessKeyChecks.PassForm` | internal/operator/minio_access_key_reconciler.go:119-141 | what one pass without faults does over a recorded key, after any edit: secret, account and record, or the secret dropped where the account is missing |
| `AccessKeyChecks.AgreesAfterPass` | internal/operator/minio_access_key_reconciler.go:246-299 | after such a pass secret and account agree exactly if one of the updates was due or they agreed before |
| `AccessKeyEdits.NeighbourAgreesIff` | internal/operator/minio_access_key_reconciler.go:195-299 | an edit of one access key costs another resource its agreement exactly if it leads to that resource's account with another secret key |
| `AccessKeyEdits.ItselfAgreesIff` | internal/operator/minio_access_key_reconciler.go:132-138 | after an edit the resource itself agrees exactly if it keeps its tenant, or there was no account to look after, or the new tenant has none of that access key or one with that secret key |
| `AccessKeyEdits.OldAccountGoesIff` | internal/operator/minio_access_key_reconciler.go:186-230 | when a resource is deleted after an edit, its old account goes exactly if the edit kept tenant and access key |
| `AccessKeyEdits.TakenKeyBreaksNeighbour` | internal/operator/minio_access_key_reconciler.go:510-526 | two keys of one tenant and an edit that costs the first its agreement |
| `AccessKeyEdits.MovedTenantBreaksItself` | internal/operator/minio_access_key_reconciler.go:187-201 | a change of tenant that costs the resource its own agreement |
| `AccessKeyEdits.EditsOrphan` | internal/operator/minio_access_key_reconciler.go:369-399 | a change of tenant, and one to a free access key, that leave the old account behind |
| `AccessKeyPins.CreatePins` | internal/operator/minio_access_key_reconciler.go:148-165 | a pass that comes to record an access key, whatever calls fail, records a spec that names it, and the secret it made holds it |
| `AccessKeyPins.GeneratedSecretsCarry` | internal/operator/minio_access_key_reconciler.go:156-163 | once the spec carries the access key, every secret a pass over the resource writes carries it, through any deletions, renames, regenerations and tampering in any weather |
| `AccessKeyConvergence.Converges` | internal/operator/minio_access_key_reconciler.go:119-141 | one pass without faults ends with exactly the secret the spec names, the desired credentials, the attributes of the spec on the server as far as hashes tell, and the spec on record; so it does after any passes cut short at any calls |
| `AccessKeyConvergence.KeepsSecretKey` | internal/operator/minio_access_key_reconciler.go:617-643 | a secret key given by reference, or else that of a secret that is there and not renamed, stands in the generated secret at either end |
| `AccessKeyConvergence.ArrivedPoliciesAgree` | internal/operator/minio_access_key_reconciler.go:246-299 | there plain policies without a collision agree up to order |
| `AccessKeyConvergence.ArrivesInAgreement` | internal/operator/minio_access_key_reconciler.go:176-302 | there the server also has the secret key of the generated secret |
| `AccessKeyConvergence.Settles` | internal/operator/minio_access_key_reconciler.go:458-530 | from there on passes change nothing at all |
| `AccessKeyLife.DesiredNeverEmpty` | internal/operator/minio_access_key_reconciler.go:583-652 | desired credentials are never empty |
| `AccessKeyLife.DesiredFixpoint` | internal/operator/minio_access_key_reconciler.go:583-652 | fed back as the current ones, desired credentials are desired again, whatever the randomness |
| `AccessKeyLife.CreatesOrLeaves` | internal/operator/minio_access_key_reconciler.go:143-169 | a create pass makes account, secret and record, or adopts under migration, or leaves everything as it was |
| `AccessKeyLife.LeftoverSecretBlocks` | internal/operator/minio_access_key_reconciler.go:448-451 | a secret of the chosen name keeps the key from being created, even under migration |
| `AccessKeyLife.MigratedAgreesIff` | internal/operator/minio_access_key_reconciler.go:356-359 | an adopted account keeps its secret key: record and server agree exactly if it had the desired one |
| `AccessKeyLife.RecordedStays` | internal/operator/minio_access_key_reconciler.go:119-141 | without faults a pass over a recorded key leaves the status set and makes no account |
| `AccessKeyLife.LostAccountStaysLost` | internal/operator/minio_access_key_reconciler.go:202-230 | through any number of such passes a lost account stays lost |
| `AccessKeyVariant.VariantRecovers` | internal/operator/minio_access_key_reconciler.go:127-138 | a pass that returned after clearing the status would be followed by one that makes the account again |
| `AccessKeyTeardown.ForgottenMeansGone` | internal/operator/minio_access_key_reconciler.go:84-117 | in every run over any number of access keys, with faults and edits that keep tenant and access key, in which deletions find the generated secret and no create loses its last write: once the record or the resource is gone, the account that status and secret named is gone |
| `AccessKeyTeardown.DeletesIfSecret` | internal/operator/minio_access_key_reconciler.go:369-403 | without faults the resource goes in one pass, and the account with it exactly if the secret is there |
| `JointConvergence.StepAdvances` | internal/operator/minio_access_key_reconciler.go:143-169 | a pass over a declared resource of any kind moves it on when its needs are met, changes nothing when they are not, and touches nothing but its own place |
| `JointConvergence.ThreeRounds` | internal/operator/operator.go:170-184 | declared users, groups, policies, bindings and access keys, their access keys given outright, by reference or made up, with distinct absent targets, are all served after three rounds, in whatever order |
| `JointConvergence.ServedRests` | internal/operator/operator.go:170-184 | once all are served, passes in any order change nothing |
| `PolicyHash.GetStatementHash` | internal/operator/minio_policy_reconciler.go:88-99 | the hash of a statement is the digest of its canonical preimage |
| `PolicyHash.GetHash` | internal/operator/minio_policy_reconciler.go:60-102 | the hash of a policy is the digest of its canonical preimage, statements hashed in a loop |
| `PolicyHash.SortCanonical` | internal/operator/minio_policy_reconciler.go:69-70 | two lists sort alike exactly if they hold the same words equally often |
| `PolicyHash.StatementPreimageCanonical` | internal/operator/minio_policy_reconciler.go:88-99 | plain statements share a preimage exactly if they agree up to the order of actions and resources |
| `PolicyHash.HashCanonical` | internal/operator/minio_policy_reconciler.go:60-102 | without a digest collision among them, two plain policies hash alike exactly if they agree up to the order of statements, actions and resources; a version, which may be empty, need only be free of the separator |
| `PolicyHash.PreimageOfOne` | internal/operator/minio_policy_reconciler.go:60-102 | the preimage of a policy with one statement, written out: words in order between commas, parts between bars |
| `PolicyHash.SeparatorsConfuse` | internal/operator/minio_policy_reconciler.go:60-102 | words with separators, or empty ones, make different policies hash alike under every digest |
| `Credentials.WriteCredentials` | internal/operator/minio_access_key_reconciler.go:540-548 | the buffer holds both keys, each after its length |
| `Credentials.EncodeLayout` | internal/operator/minio_access_key_reconciler.go:540-548 | the length of the access key as four bytes, the most significant first, then the access key, and the same for the secret key |
| `Credentials.EncodeInjective` | internal/operator/minio_access_key_reconciler.go:540-552 | credentials of keys shorter than four gigabytes never share an encoding |
| `Credentials.HashTellsChange` | internal/operator/minio_access_key_reconciler.go:516-527 | without a digest collision the hashes differ exactly if a credential changed |
| `RandomKeys.CreateRandomString` | internal/operator/minio_access_key_reconciler.go:557-568 | the key is the front of the base32 form of the random bytes; a source that fails gives none |
| `RandomKeys.SymbolAt` | internal/operator/minio_access_key_reconciler.go:554-568 | each symbol of a key is that of the literal alphabet for the next five bits of the buffer, most significant bits first |
| `RandomKeys.NumBytesSuffice` | internal/operator/minio_access_key_reconciler.go:558-566 | the slice is in range, and the buffer is the smallest whose own bits fill every symbol |
| `RandomKeys.NumBytesLeastWhen` | internal/operator/minio_access_key_reconciler.go:558-566 | it is the smallest that encodes to enough symbols if and only if the length modulo eight is 0, 1, 3 or 6 |
| `RandomKeys.Unbiased` | internal/operator/minio_access_key_reconciler.go:554-568 | every string over the alphabet comes from the same number of buffers, a power of two |

## Left out

- Tenant discovery, TLS, the HTTP clients and the wiring of controllers: getting a client is one call that may fail.
- The return values of `Reconcile` (requeue after the sync interval, or an error): the model follows what a pass does to the cluster.
- Logging, contexts, deep copies, the command line and the charts.
- Informer caches: a pass reads the current version of its resource, though others may act before any later call.
- The MinIO server is not part of the repository. `Minio.Server` gives it the behaviour the calls, the handled error codes and the end-to-end tests (internal/e2e/main_test.go) suggest; whether detaching an absent policy is an error is left open as `strictDetach`, and updates of service accounts overwrite all attributes.
- `convertViaXML`: configurations are values for which absent and empty are identified where the code does so.
- SHA-256 and SHA-512/256: lemmas speak of preimages or take "no collision among these" as a hypothesis. The reconcilers compare policies by the digests of their preimages, for any digest, and credentials by equality, as `Credentials.HashTellsChange` justifies.
- Real LDAP lookups: only the rule for the `cn=` prefix, one identity a binding; a request that names none or two is refused by the server.
- Status and spec are values: that the create branches let the status point at the spec itself shows only in later writes to the same copy, of which there are none.
- The stamp of a recorded secret version is a field of every resource; only users and access keys use it.
- A delete of a secret whose get found nothing has no name to send; it is a call that finds nothing.
- Passes of one kind are serial, and passes of other kinds appear as acts of others, except in `JointConvergence`, where all kinds but buckets take turns.
- `JointConvergence.ThreeRounds`: a made-up access key is one of those foreseen for its resource, which no other resource claims and no account has; that the source of randomness collides is not considered.
- `AccessKeyAgreement.AllottedMeansAgreement`: users keep the tenant of the resource and allot the access key to it; `AccessKeyEdits` shows what single edits outside this do.
- `AccessKeyTeardown.ForgottenMeansGone`: a generated secret that is missing when the deletion looks for it leaves the account, as `AccessKeyTeardown.DeletesIfSecret` says.
- `AccessKeyVariant.VariantRecovers`: states the repaired pass for specs that carry the access key, as they do once created.
