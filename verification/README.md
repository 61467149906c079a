# Model of the IBM Cloud Object Storage plug-in

A Dafny model of the plug-in's three state machines and of the string and number code that
links them, with proofs of what they keep.

1. **Bucket lifecycle.** `Provision` is a transaction of up to six requests with a hand-written
   compensation; `Delete` rebuilds its session from the volume's string maps. The store is an
   explicit world (`Store`) in which every request may be served, may never arrive, or may take
   effect while its reply is lost. `Provisioner` gives the transaction as a function on worlds,
   `ProvisionerController` is the controller as written (flags, early returns, compensation) and
   is proved equal to it. `BucketSafety`, `Rollback`, `Deletion` and `VolumeDeletion` hold the
   theorems: what can be lost, when a failed call restores the store, how retried deletion
   converges, and when `Delete` undoes `Provision`. `ExistingBucket` says exactly when a call can
   cost an account a bucket it had, `QuietProvision` exactly when a fault-free call yields a
   volume, `BucketSettings` what versioning and firewall end up stored,
   and `Witnesses` gives concrete claims that reach the corners.
2. **Mount lifecycle.** `Host` is a directory tree and a mount table with an arbitrary answer for
   every system call; `Mounting` and `Driver` are the driver's operations; `MountSafety` proves
   what every run keeps and how unmounting undoes mounting, `MountProgress` exactly when a mount
   and an unmount succeed. `S3fsSettings` reads the s3fs command line back as a table.
3. **Diagnostic queues.** `DiagQueue` (workers that put nodes back) and `LockedQueue` (a lock held
   around a blocking get) are interleaving machines; every run is counted and bounded.

Which claims get that far, and with what, is traced to the claim's own texts: `ClaimMerge`
(validation), `Admission` (secret, namespace, policies), `VolumeContents` (the volume's two maps),
`RecordKeys` (their keys) and `CommandValues` (what s3fs is started with).

The linking code is in `Text`, `Codec`, `Records`, `Uuid`, `IpLists`, `ObjectPath`, `S3fsOptions`,
`Annotations`, `VolumeAcceptance` and `MountableVolume`, which takes a volume from its provisioning
to its mount. An operation that changes state is a method of a class; its
`ensures` ties the new state to a function of the old one, and the theorems are about those
functions. Faults are parameters (`fates`, `answers`), so every theorem that does not restrict them
(`Quiet`, `Calm`) holds for all of them.

`dafny verify dfyconfig.toml` checks the whole project.

## What the code does that one might not expect

- "Already owned by you" is turned into success, so the compensation may delete a bucket, with its
  objects, that the account had before the call (`Witnesses.OwnedBucketIsLost`); exactly when is
  `ExistingBucket.ProvisionSafeIff`.
- Nothing is rolled back from the access check on, so a claim with two access modes leaks its
  bucket without any fault (`Rollback.QuietCreation`, `Witnesses.TwoModesLeak`).
- Auto-delete never finishes on a bucket that was versioned and then filled, nor in one call on
  more than one page (`VolumeDeletion.DeleteUndoesProvision`, `Deletion.RetriesConverge`).
- Versioning accepts every spelling `ParseBool` does, but only "true" enables it: "1" and "t"
  suspend it (`BucketSettings.VersioningObeysIff`, `Witnesses.OneSuspends`). The error text says
  the value must be "true" or "false"; the model follows the code.
- An annotated address list is checked, the provider's is not (`BucketSettings.StoredFirewallIff`,
  `Witnesses.ProviderListIsUnchecked`).
- Auto-create and auto-delete are validated as annotations but not as storage class values. A class
  with auto-delete "yes" gives volumes that can never be deleted (`VolumeDeletion.KeptVolumeIff`,
  `Witnesses.YesCannotBeDeleted`).
- The switches are read by comparing with "true" or "false", so other spellings are accepted and
  read the wrong way: auto-delete "1" keeps the bucket and reports success
  (`VolumeDeletion.AutoDeleteObeysIff`, `Witnesses.OneKeepsBucket`), quota "0" sets the quota
  (`BucketSettings.QuotaObeysIff`, `Witnesses.ZeroSetsQuota`).
- Timeouts of the storage class are not validated, so a volume can be provisioned that the driver
  refuses (`VolumeAcceptance.ProvisionedVolumeAcceptedIff`, `Witnesses.RefusedVolume`).
- A blank API key in the secret counts for the provisioner and not for the driver
  (`MountableVolume.AccountsAgreeIff`).
- A directory that exists only through deeper keys is reported absent (`ObjectPath.PathFoundIff`,
  `Witnesses.DeeperKeyIsNotEnough`),
  and the object path "/" mounts the bucket's root while the check looks for keys that begin with
  a slash (`S3fsOptions.MountedDirectoryIff`).
- With validation "no" and auto-create "false" a claim gets its volume without a single request,
  whether its bucket exists or not (`QuietProvision.QuietProvisionIff`).
- With validation "no", auto-create "false" and versioning or an object path, the session is used
  although it was never created (`Rollback.NilSessionIff`, `Witnesses.NilIsReached`).

## Model

| member | source | states |
|---|---|---|
| `BucketSafety.OnlyRollbackAndAutoDeleteLose` | provisioner/ibm-s3fs-provisioner.go:626-704 | Over any run of provisionings, deletions and uploads, under any faults: if a bucket or an object is lost, some call of the run lost it and that call either compensated its own successful create or deleted an auto-delete volume |
| `BucketSafety.OneCallLoss` | provisioner/ibm-s3fs-provisioner.go:659-704 | A single call loses something of a bucket only by that compensation (and a bucket that was there before then belongs to the caller) or as the deletion of a volume with auto-delete "true" naming that bucket |
| `BucketSafety.CreatedOverExisting` | utils/backend/backend.go:173-182 | A create that counts as successful over an existing bucket was answered "already owned by you"; one answered "already exists" never does |
| `BucketSafety.TransactionLosesOnlyByRollback` | provisioner/ibm-s3fs-provisioner.go:626-751 | From any step of the transaction on: nothing but the call's own bucket changes, and a loss means compensation ran after this call's create succeeded |
| `BucketSafety.PerformKeepsEverything` | provisioner/ibm-s3fs-provisioner.go:644-750 | No request of a provisioning removes an object or a bucket, whatever its fate |
| `BucketSafety.DeletionTouchesOneBucket` | utils/backend/backend.go:187-216 | Deleting one bucket leaves every other bucket as it was, whatever fails |
| `Rollback.TransactionOnFreeName` | provisioner/ibm-s3fs-provisioner.go:644-704 | A call that creates under a free name: the store after it, for every outcome. A successful compensation restores the store; a failed one leaves at most the new bucket; from the access check on the bucket stays, configured as asked |
| `Rollback.SettlesFrom` | provisioner/ibm-s3fs-provisioner.go:659-751 | The same for the transaction resumed at any step on the bucket as configured so far |
| `Rollback.DeleteAddedBucket` | utils/backend/backend.go:187-216 | Deleting the still empty new bucket restores the store whenever it reports success; after a failure the bucket is gone iff just the last reply was lost |
| `Rollback.StepOnAddedBucket` | provisioner/ibm-s3fs-provisioner.go:659-704 | Each step moves the new bucket to exactly its next configuration, or, failing, leaves it there or where it was |
| `Rollback.NothingAdded` | provisioner/ibm-s3fs-provisioner.go:705-736 | A call without auto-create brings no bucket into being |
| `Rollback.SessionIffValidated` | provisioner/ibm-s3fs-provisioner.go:508-523 | A prepared call has a session iff the bucket is validated; without one there is no create, firewall or quota request, because a resource configuration key only comes with credentials |
| `VolumeDeletion.DeleteUndoesProvision` | provisioner/ibm-s3fs-provisioner.go:866-907 | For a created auto-delete bucket into which users put any objects, a fault-free Delete succeeds and restores the store of before the provisioning iff the bucket is empty, or never versioned and within one page; otherwise it fails and the bucket is still there |
| `VolumeDeletion.SessionReopened` | provisioner/ibm-s3fs-provisioner.go:872-904 | From the volume's two string maps Delete rebuilds the very session, bucket and auto-delete switch that Provision used |
| `VolumeDeletion.AnnotationsRebuilt` | provisioner/ibm-s3fs-provisioner.go:809-838 | Unmarshalling the volume's annotations gives back the record Provision wrote, all fields |
| `VolumeDeletion.EndpointsRebuilt` | provisioner/ibm-s3fs-provisioner.go:781-807 | Endpoint, region and IAM endpoint read from the options, with missing keys read as empty, are those of the session |
| `VolumeDeletion.ProvisionedBucket` | provisioner/ibm-s3fs-provisioner.go:644-704 | A new volume's bucket is the one asked for, added to an otherwise unchanged store |
| `VolumeDeletion.VolumeParts` | provisioner/ibm-s3fs-provisioner.go:781-862 | A volume is emitted only for a single access mode, and its maps are the marshalled driver options and annotations |
| `Deletion.DeletionRemovesPrefix` | utils/backend/backend.go:187-216 | Under any faults one call on an unversioned bucket removes a prefix of its first page, or the bucket once that page was all it held; success means the bucket is gone from the session's endpoint |
| `Deletion.DeleteKeysDropsPrefix` | utils/backend/backend.go:198-207 | The deletion loop stops anywhere with exactly the first k listed keys gone |
| `Deletion.VersionedBucketSurvives` | utils/backend/backend.go:187-216 | Once versioning was ever set, a bucket that holds an object survives every call, and deletion reports failure |
| `Deletion.QuietDeletion` | utils/backend/backend.go:187-216 | A fault-free call succeeds iff at most one page is left; the whole store after either outcome |
| `Deletion.CallsNeededIsCeiling` | utils/backend/backend.go:187-216 | CallsNeeded is max(1, ceil(objects / page)) |
| `Deletion.GoneStaysGone` | utils/backend/backend.go:190-196 | Deleting a bucket that is gone succeeds and changes nothing, any number of times |
| `ObjectPath.PathFoundIff` | utils/backend/backend.go:126-150 | Over any sorted key set the one-key listing finds the path iff its normalised form is a key, or that form plus a slash is the least key under it |
| `ObjectPath.SlashesIgnored` | utils/backend/backend.go:127-131 | A path without slashes at its ends is listed with one at its end; otherwise one leading and one trailing slash do not change the answer |
| `ObjectPath.FirstMatch` | utils/backend/backend.go:133-141 | The single listed key is the least key with the prefix; none is listed iff none has it |
| `Backend.CosSession.CheckObjectPathExistence` | utils/backend/backend.go:126-150 | Equals the listing decision on the store |
| `Backend.CosSession.CreateBucket` | utils/backend/backend.go:153-184 | A bucket the account already owns counts as created; every other error is passed on |
| `Backend.CosSession.DeleteBucket` | utils/backend/backend.go:187-216 | The page loop equals the recursive deletion, stopping at the first failure; a missing bucket is success |
| `Backend.CosSession.SetBucketVersioning` | utils/backend/backend.go:218-261 | Enables or suspends, never unsets |
| `ProvisionerController.IBMS3fsProvisioner.Provision` | provisioner/ibm-s3fs-provisioner.go:459-863 | World and outcome equal the transaction of the prepared plan, for every claim, environment and fault |
| `ProvisionerController.IBMS3fsProvisioner.PrepareLocals` | provisioner/ibm-s3fs-provisioner.go:484-624 | Decides as Prepare does, and a call that creates has credentials |
| `ProvisionerController.IBMS3fsProvisioner.NameBucket` | provisioner/ibm-s3fs-provisioner.go:489-506 | The bucket is the given one or a generated one; none without auto-create, and no auto-delete without auto-create |
| `ProvisionerController.IBMS3fsProvisioner.Authorize` | provisioner/ibm-s3fs-provisioner.go:508-537 | Credentials are read iff the bucket is validated, and the namespace must be on the secret's list if there is one (what that decides: Admission.NamespaceIsListed, Admission.UnlistedIsRejected) |
| `ProvisionerController.IBMS3fsProvisioner.PlanPolicies` | provisioner/ibm-s3fs-provisioner.go:541-624 | Quota and firewall are planned iff switched on, and then only with a resource configuration key |
| `ProvisionerController.IBMS3fsProvisioner.UseStore` | provisioner/ibm-s3fs-provisioner.go:626-657 | From the create on: "already exists" goes on without compensation rights, any other error stops |
| `ProvisionerController.IBMS3fsProvisioner.Configure` | provisioner/ibm-s3fs-provisioner.go:659-674 | Versioning, compensated on failure iff this call created the bucket |
| `ProvisionerController.IBMS3fsProvisioner.SetPolicies` | provisioner/ibm-s3fs-provisioner.go:676-736 | Firewall, then quota, compensated alike |
| `ProvisionerController.IBMS3fsProvisioner.Compensate` | provisioner/ibm-s3fs-provisioner.go:680-685 | Deletes the bucket iff this call created it and records how that went |
| `ProvisionerController.IBMS3fsProvisioner.CheckAndAssemble` | provisioner/ibm-s3fs-provisioner.go:738-751 | Access and object path are checked; nothing is rolled back any more |
| `ProvisionerController.IBMS3fsProvisioner.Assemble` | provisioner/ibm-s3fs-provisioner.go:753-862 | The emitted volume, or a stop for more than one access mode, or a panic for none |
| `ProvisionerController.IBMS3fsProvisioner.Delete` | provisioner/ibm-s3fs-provisioner.go:866-889 | Deletes the bucket iff auto-delete is "true"; any other value must be a boolean |
| `ProvisionerController.IBMS3fsProvisioner.DeleteVolumeBucket` | provisioner/ibm-s3fs-provisioner.go:891-907 | Reopens the session from secret and options and deletes the bucket |
| `Annotations.ValidateAnnotations` | provisioner/ibm-s3fs-provisioner.go:228-456 | Accepts, refuses or crashes exactly as Judge, with the merged settings (which those are: ClaimMerge.AcceptedIff, ClaimMerge.MergedTexts) |
| `Annotations.AcceptedIsChecked` | provisioner/ibm-s3fs-provisioner.go:247-448 | What acceptance guarantees: schemes, ranges, readable switches, a secret in the claim's namespace unless others are allowed, valid firewall addresses |
| `Annotations.ValidateClaim` | provisioner/ibm-s3fs-provisioner.go:247-329 | The checks before the first remote call, and the annotations as merged there (text by text: ClaimMerge.MergedTexts) |
| `Annotations.MergeStorageClass` | provisioner/ibm-s3fs-provisioner.go:350-453 | Storage class values overridden one by one; refused iff a check on the merged settings fails |
| `Annotations.MergeVersioning` | provisioner/ibm-s3fs-provisioner.go:283-292 | The versioning switch is trimmed and lower-cased before it is read as a boolean |
| `Annotations.MergeSecret` | provisioner/ibm-s3fs-provisioner.go:247-271 | Which secret in which namespace |
| `ExistingBucket.ProvisionSafeIff` | provisioner/ibm-s3fs-provisioner.go:626-704 | For every claim and every existing bucket: no faults at all can make the provisioning cost it an object or the bucket, iff the claim is refused, or it does not both create over its own account's bucket and ask for versioning, firewall or quota, or the session could delete nothing there. Holds for versioned buckets and any size |
| `ExistingBucket.TransactionSafeIff` | provisioner/ibm-s3fs-provisioner.go:644-704 | The same for the transaction of any plan |
| `ExistingBucket.DeleteSafeIff` | provisioner/ibm-s3fs-provisioner.go:866-907 | No faults can make a deletion cost a bucket anything iff the volume does not aim an auto-delete at something its session can take |
| `ExistingBucket.OnlyCallsAtRiskLose` | provisioner/ibm-s3fs-provisioner.go:626-704 | Over any run, under any faults, a loss happens in a call whose inputs and store already met one of those two conditions |
| `ExistingBucket.RollbackDeletesOwnedBucket` | provisioner/ibm-s3fs-provisioner.go:676-704 | An unversioned one-page bucket at risk is deleted whole when the first configuring request is dropped, whichever that is |
| `Witnesses.OwnedBucketIsLost` | provisioner/ibm-s3fs-provisioner.go:644-674 | A concrete claim does that to any such bucket "b" of its account |
| `Rollback.LeftBehindIff` | provisioner/ibm-s3fs-provisioner.go:644-704 | From the inputs: the new bucket exists afterwards iff the call creates and the create is lost, or served with every configuring request served, or the compensation after the first one that is not does not get its list served or its delete through |
| `Rollback.QuietCreation` | provisioner/ibm-s3fs-provisioner.go:738-775 | Without faults a creating call on a free name leaves the bucket as asked, and yields a volume iff the claim has exactly one access mode |
| `Witnesses.TwoModesLeak` | provisioner/ibm-s3fs-provisioner.go:770-775 | A concrete claim with two access modes leaks its bucket without any fault |
| `Rollback.NilSessionIff` | provisioner/ibm-s3fs-provisioner.go:710-751 | The session is used before it exists iff validation is "no", auto-create is "false" and versioning or an object path is set; no fault matters |
| `Witnesses.NilIsReached` | provisioner/ibm-s3fs-provisioner.go:710-712 | A concrete claim gets there in every store |
| `BucketSettings.VolumeHasSettings` | utils/backend/access_policy.go:97-137 | Whatever versioning, firewall and quota a volume's plan asks for, its bucket exists afterwards and carries them |
| `BucketSettings.VersioningIff` | provisioner/ibm-s3fs-provisioner.go:659-663 | For every volume whose claim says anything about versioning: its bucket is enabled iff the text in force, trimmed and lower-cased, is "true", and suspended otherwise |
| `BucketSettings.NewBucketVersioning` | provisioner/ibm-s3fs-provisioner.go:283-292 | A new bucket is enabled iff that text says "true", and never versioned iff there is no text |
| `BucketSettings.VersioningObeysIff` | provisioner/ibm-s3fs-provisioner.go:287-292 | The bucket is versioned as ParseBool reads the text, except exactly for "1" and "t" |
| `Witnesses.OneSuspends` | provisioner/ibm-s3fs-provisioner.go:660-663 | A concrete claim annotated "1" is accepted and its new bucket suspended |
| `BucketSettings.StoredFirewallIff` | provisioner/ibm-s3fs-provisioner.go:587-605 | For every volume with a firewall: the stored list has one entry per comma plus one and holds only addresses and blanks iff the text was annotated, and so checked, or the provider's text happens to be valid, which is not checked |
| `BucketSettings.OnlyPlannedFirewalls` | provisioner/ibm-s3fs-provisioner.go:676-728 | However a call ends, no bucket's firewall changes except its own, and that only to the planned list |
| `BucketSettings.PlannedFirewall` | provisioner/ibm-s3fs-provisioner.go:560-612 | The addresses are the annotation's, else the provider's; an annotated list was valid |
| `Witnesses.ProviderListIsUnchecked` | provisioner/ibm-s3fs-provisioner.go:592-601 | A concrete cluster whose provider reports no address: the volume is provisioned and its firewall holds that text |
| `VolumeDeletion.DeleteRestoresIff` | provisioner/ibm-s3fs-provisioner.go:866-907 | For every auto-delete volume, over a new or an existing bucket: a successful Delete, under any faults, leaves the store of before the provisioning without that bucket, so it restores it iff the bucket was new |
| `VolumeDeletion.ProvisionedIsReachable` | utils/backend/backend.go:111-123 | A validated call yields a volume only if its session may access the bucket, which the access check saw |
| `VolumeDeletion.ProvisionNeedsSecret` | provisioner/ibm-s3fs-provisioner.go:155-176 | A claim whose secret is missing, cannot be fetched, or holds a certificate that cannot be written becomes no volume and does not touch the store |
| `VolumeDeletion.DeleteNeedsSecret` | provisioner/ibm-s3fs-provisioner.go:894-897 | Once a volume is provisioned, losing its secret or certificate makes its auto-delete fail without touching the store |
| `Provisioner.LoginIsOneKind` | provisioner/ibm-s3fs-provisioner.go:178-226 | A login carries an API key with the secret's instance id and no HMAC keys, or both HMAC keys and neither; its namespaces rejoin to the secret's list |
| `Deletion.RetriesConverge` | utils/backend/backend.go:187-216 | The n-th fault-free call first succeeds at n = CallsNeeded; after n earlier ones the listing is the original without its first n pages, later ones change nothing |
| `Deletion.RetriesRemovePrefix` | utils/backend/backend.go:187-216 | Under any faults n calls remove a prefix of at most n pages, or the bucket, and nothing else |
| `MountSafety.TargetDetachedIff` | driver/driver.go:203-223 | A successful unmount lowers a mounted target by one iff the check failed and the detach worked, or the check said "mounted"; otherwise its depth stays |
| `MountSafety.UnmountTwice` | driver/driver.go:762-780 | After a mount, a second calm unmount succeeds and changes nothing |
| `Witnesses.RefusedVolume` | provisioner/ibm-s3fs-provisioner.go:432-444 | A concrete storage class with timeout "soon": in every store its volume is provisioned, and the driver refuses it whatever the kubelet adds |
| `S3fsOptions.BuildArgs` | driver/driver.go:581-670 | The grown argument list equals the command line as a list of values (value by value: S3fsSettings.FlagIff, S3fsSettings.FixedPositions) |
| `S3fsOptions.FixedArgs` | driver/driver.go:590-604 | The literal the list starts as is bucket, directory and thirteen pairs, in the order of S3fsSettings.FixedPositions |
| `DiagQueue.OneWorkerPerNode` | tools/IBM/ibm-cos-plugin-diag:345-368 | Without duplicates no two workers hold one node |
| `DiagQueue.EveryRunSeparatesWorkers` | tools/IBM/ibm-cos-plugin-diag:345-368 | So it is in every run from a duplicate-free list, and a held node is neither queued nor settled |
| `VolumeDeletion.KeptVolumeIff` | provisioner/ibm-s3fs-provisioner.go:881-888 | Every volume whose auto-delete text is not exactly "true": its deletion never touches the store, and succeeds iff that text is a boolean, which only an unvalidated storage class value can prevent |
| `VolumeDeletion.AutoDeleteObeysIff` | provisioner/ibm-s3fs-provisioner.go:881-888 | A deletion goes for the bucket iff the text is exactly "true"; with the other spellings of true it reports success and changes nothing |
| `VolumeDeletion.OnlyTrueCreates` | provisioner/ibm-s3fs-provisioner.go:705-742 | Auto-create with any text but "true" creates nothing, and with any but "false" a missing bucket means no volume |
| `Witnesses.YesCannotBeDeleted` | provisioner/ibm-s3fs-provisioner.go:294-302 | A concrete storage class with auto-delete "yes": its claim becomes a volume, and no deletion of it ever succeeds |
| `Witnesses.OneKeepsBucket` | provisioner/ibm-s3fs-provisioner.go:881-888 | With auto-delete "1" the deletion reports success and the bucket that was created stays |
| `BucketSettings.QuotaObeysIff` | provisioner/ibm-s3fs-provisioner.go:541-557 | Where quotas are on, every volume's bucket has the claimed storage as quota unless the annotation is exactly "false"; the annotation is obeyed as it reads except for the other spellings of false |
| `BucketSettings.FirewallObeysIff` | provisioner/ibm-s3fs-provisioner.go:560-620 | The same for the firewall switch |
| `Witnesses.ZeroSetsQuota` | provisioner/ibm-s3fs-provisioner.go:541-551 | A concrete claim with quota annotation "0" is accepted and its bucket gets a quota |
| `MountableVolume.ProvisionThenMountIff` | driver/driver.go:330-537 | A volume provisioned with a look at its bucket, mounted with the same secret in an unchanged store without faults, gets past the driver's checks to the mount iff its timeouts are blank or integers, a CA bundle if given can be written, and the bucket is open to the driver's account |
| `MountableVolume.AccountsAgreeIff` | provisioner/ibm-s3fs-provisioner.go:194-210 | Provisioner and driver act as the same account except exactly for a secret with a blank API key next to an access key |
| `MountableVolume.SameAccountOpens` | driver/driver.go:418-449 | With any other secret the provisioned bucket is open to the driver |
| `ObjectPath.ShowsPathIff` | utils/backend/backend.go:143-148 | In listing order the one listed key shows the path iff it is a key, or the path plus a slash is the least key under it |
| `Witnesses.DeeperKeyIsNotEnough` | utils/backend/backend.go:143-149 | A bucket whose only key lies below the path: the path is reported absent |
| `ClaimMerge.AcceptedIff` | provisioner/ibm-s3fs-provisioner.go:247-453 | Exactly which claims validation accepts, in terms of the two texts, the secret and the service, and exactly which make it panic: a service without ports, if nothing was refused before |
| `ClaimMerge.MergedTexts` | provisioner/ibm-s3fs-provisioner.go:247-448 | Every setting of an accepted claim is the annotation's if there is one, else the storage class's, else the default; for the endpoint of an in-cluster store, its service name and first port; the rest is left as it was |
| `Admission.LoginIff` | provisioner/ibm-s3fs-provisioner.go:178-218 | Which secrets can be used: of the driver's kind, and holding an API key with an instance id or both HMAC keys |
| `Admission.LoginEntries` | provisioner/ibm-s3fs-provisioner.go:189-222 | The entries a login takes over from its secret: policy key, root key, API key and the namespace list |
| `Admission.ReadyIff` | provisioner/ibm-s3fs-provisioner.go:489-624 | Exactly which accepted claims go on to the store, clause by clause: name, credentials, namespace, firewall addresses, policy key, instance id |
| `Admission.UnpreparedIsUntouched` | provisioner/ibm-s3fs-provisioner.go:474-624 | All other calls are rejected, or panic in validation, and leave the store as it is |
| `Admission.NamespaceIsListed` | provisioner/ibm-s3fs-provisioner.go:525-537 | A call that looks at its bucket comes from a namespace on the secret's list, if the secret has one |
| `Admission.UnlistedIsRejected` | provisioner/ibm-s3fs-provisioner.go:525-537 | A claim from any other namespace is rejected with the store untouched |
| `Admission.PlannedBucket` | provisioner/ibm-s3fs-provisioner.go:304-306 | The bucket is the annotated one, else the storage class's, else "tmp-s3fs-" and the UUID of the drawn bytes, 45 characters in all |
| `Admission.PlannedTexts` | provisioner/ibm-s3fs-provisioner.go:247-448 | Every other setting of a prepared call, traced to the claim's two texts |
| `Admission.PlannedSession` | provisioner/ibm-s3fs-provisioner.go:508-523 | Endpoint, region, IAM endpoint, keys and root key of the session, entry by entry |
| `Admission.DeletionGoesOnIff` | provisioner/ibm-s3fs-provisioner.go:866-904 | Exactly which volumes, whoever made them, a deletion touches the store for; for all others it does nothing and succeeds iff the switch is a boolean other than "true" |
| `VolumeContents.VolumeOptions` | provisioner/ibm-s3fs-provisioner.go:781-804 | Every option of every provisioned volume, as the driver reads it, traced to the claim's two texts |
| `VolumeContents.VolumeRecord` | provisioner/ibm-s3fs-provisioner.go:809-862 | Name, capacity, secret reference and access modes of a volume, and its annotations field by field |
| `VolumeContents.NewBucketTraced` | provisioner/ibm-s3fs-provisioner.go:644-657 | A new bucket's endpoint, location, owner and root key, traced to the plan and the secret |
| `RecordKeys.PvcFromKeys` | provisioner/ibm-s3fs-provisioner.go:42-72 | The key each annotation field is read from |
| `RecordKeys.ScFromKeys` | provisioner/ibm-s3fs-provisioner.go:76-101 | The key each storage class field is read from |
| `RecordKeys.OptionsFromKeys` | driver/driver.go:68-100 | The key each driver option is read from |
| `RecordKeys.OptionsReadableIff` | utils/parser/parser.go:32-42 | Which option maps unmarshal: numbers and booleans under their keys must read as such |
| `RecordKeys.PvcKeys` | provisioner/ibm-s3fs-provisioner.go:42-72 | Five annotation keys are always written, the others iff their field is not zero |
| `RecordKeys.OptionsKeys` | driver/driver.go:68-100 | Seven option keys are always written, the others iff their field is not zero |
| `MountProgress.DetachSucceedsIff` | driver/driver.go:185-222 | An unmount succeeds iff the path is known to be absent, or is found and the mount on it comes off, at the first try or forced, where `mountpoint` reports one |
| `MountProgress.MountedDetachSucceedsIff` | driver/driver.go:203-222 | On a mounted path that stat finds: iff the check failed, or said "not mounted", or one of the two detaches works |
| `MountProgress.DetachLeaves` | driver/driver.go:203-222 | Tree, mount table and number of calls after an unmount, for all answers |
| `MountProgress.RemovalSucceedsIff` | driver/driver.go:185-234 | Removing a path succeeds iff it is known to be absent, or it detaches, nothing else is mounted there, and the removal works |
| `MountProgress.UnmountSucceedsIff` | driver/driver.go:762-780 | A whole unmount succeeds iff the target detaches and the data path can then be removed |
| `MountProgress.UnmountWhenIff` | driver/driver.go:762-780 | If nothing fails after the target was dealt with, iff the target's own unmount succeeds |
| `MountProgress.TargetFailsIff` | driver/driver.go:295-320 | A mount stops at its target iff stat fails, or the target is missing and cannot be made |
| `MountProgress.StageIff` | driver/driver.go:546-709 | From there on, the stage a mount stops at is that of the first call that fails: clearing, mkdir, tmpfs, password file, s3fs |
| `MountProgress.MountSucceedsIff` | driver/driver.go:539-709 | A mount succeeds iff the target is there or can be made, the data path can be cleared, and four more calls work |
| `MountProgress.CalmMountSucceeds` | driver/driver.go:539-709 | With no failure a mount succeeds, also over a data path left mounted |
| `MountProgress.CalmFirstMountSucceeds` | driver/driver.go:539-709 | And with nothing at the data path, whatever `mountpoint` would answer |
| `MountProgress.FailedMountCleansUp` | driver/driver.go:556-565 | A mount that fails at the password file or at s3fs, with no failure after that, leaves nothing at the data path |
| `MountableVolume.ProvisionThenMountedIff` | driver/driver.go:330-709 | On a node where nothing fails and nothing lies at the data path: a provisioned volume ends up mounted iff both timeouts are blank or integers and the bucket is open to the driver's account |
| `MountableVolume.QuietChecksIff` | driver/driver.go:505-537 | Without faults the driver's two checks pass iff the bucket is open to its account and shows the object path |
| `Driver.NothingBefore` | driver/driver.go:330-537 | Unacceptable options do nothing; the CA bundle is written before the store is asked; the node's tree waits for both |
| `S3fsSettings.FlagIff` | driver/driver.go:590-663 | For each of 28 s3fs options: its value is among the driver's own exactly when its condition holds, and no other value goes by its name |
| `S3fsSettings.FlagCount` | driver/driver.go:590-663 | There are no more values than options given, so each is there once |
| `S3fsSettings.FixedPositions` | driver/driver.go:590-604 | The thirteen fixed values at their places |
| `S3fsSettings.MountSource` | driver/driver.go:581-589 | The first argument: the bucket, or the object path in it with one slash in front |
| `CommandValues.DriverAcceptsIff` | driver/driver.go:330-468 | Exactly which options the driver accepts, whoever wrote them |
| `CommandValues.AcceptedPlan` | driver/driver.go:337-468 | What it then goes by: endpoint, region with its fallback, decoded keys, IAM endpoint with its default |
| `CommandValues.MountedValues` | driver/driver.go:330-468 | For an accepted mount of a provisioned volume: each value s3fs gets is the annotation's, else the storage class's, or the kubelet's |
| `CommandValues.RequestCommand` | driver/driver.go:547-604 | A request that reached the node names its source, its target and the password file in its own data path; one that did not starts nothing |
| `CommandValues.RequestPassword` | driver/driver.go:568-578 | The password file holds the decoded keys: the API key after a colon, or access key, colon, secret |
| `QuietProvision.QuietProvisionIff` | provisioner/ibm-s3fs-provisioner.go:626-862 | Without faults, exactly which prepared claims get a volume: one access mode, and a bucket that is there, open and shows the path, or is created; a claim that opts out of validation gets it without a request, whether the bucket exists or not, iff it asks for neither versioning nor a path |
| `QuietProvision.TakenOverBucket` | provisioner/ibm-s3fs-provisioner.go:644-751 | An existing bucket so taken over gets the settings asked for and keeps the rest; no other bucket changes |
| `DiagQueue.FirstInFirstOut` | tools/IBM/ibm-cos-plugin-diag:314-368 | Over every interleaving: what the workers got, followed by what is still queued, is what was put, in the order it was put |
| `IpLists.EntryIsTrimmed` | utils/backend/access_policy.go:59-78 | One firewall entry for each part between commas, with exactly the white space around it gone |
| `Codec.EmittedIff` | utils/parser/parser.go:45-67 | Which keys a marshalled map has, and the text under each |
| `IpLists.ParseIPs` | utils/parser/parser.go:70-87 | Returns, in order, exactly the trimmed non-empty segments that are not addresses; accepts iff there are none |
| `IpLists.AccessPolicy.UpdateAccessPolicy` | utils/backend/access_policy.go:59-94 | The in-place trimming loop hands the firewall exactly the trimmed segments, in order |
| `Codec.MarshalToMap` | utils/parser/parser.go:45-67 | The loop over the intermediate map, in any order, gives the map of all emitted fields or fails |
| `Codec.RoundTrip` | utils/parser/parser.go:32-67 | For any struct without bare ints marshalling never fails and unmarshalling gives back every field, dropped ones included |
| `Codec.MarshalFailsIff` | utils/parser/parser.go:59-65 | Marshalling fails iff some emitted field is a bare int |
| `Codec.Overlay` | utils/parser/parser.go:32-42 | Adding string fields to a marshalled map changes those fields and no others |
| `Records.OptionsRoundTrip` | driver/driver.go:68-100 | Unmarshal after marshal is the identity on every driver.Options value |
| `Records.PvcRoundTrip` | provisioner/ibm-s3fs-provisioner.go:41-72 | Unmarshal after marshal is the identity on every annotation record |
| `Text.AtoiItoa` | utils/parser/parser.go:32-67 | Printing and parsing a 64-bit int in decimal is the identity |
| `Text.SplitJoin` | driver/driver.go:665-669 | Splitting at a separator yields one more part than separators, none contains it, and joining gives the text back |
| `Uuid.New` | utils/uuid/uuid.go:37-48 | Prints the stamped first 16 bytes, or fails iff the reader yields fewer |
| `Uuid.VersionFour` | utils/uuid/uuid.go:41-47 | Every printed UUID has 36 lower-case characters with hyphens in place, version digit 4, variant digit 8, 9, a or b, and parses back to the stamped bytes (RFC 4122, sections 4.1.1, 4.1.3 and 4.4) |
| `Uuid.CollidesIff` | utils/uuid/uuid.go:41-47 | Two draws print alike iff they agree on the 122 free bits |
| `Uuid.GeneratedBucketName` | provisioner/ibm-s3fs-provisioner.go:499-505 | Generated names have 45 characters, lower-case letters, digits and hyphens only, starting with a letter and not ending in a hyphen |
| `Mounting.Mounter.UnmountAt` | driver/driver.go:185-234 | The detach, forced detach and removal sequence (when it succeeds: MountProgress.DetachSucceedsIff, MountProgress.RemovalSucceedsIff) |
| `Mounting.Mounter.CreateEmptyMountpointAt` | driver/driver.go:236-267 | Clears the path, makes the directory, mounts a tmpfs on it |
| `Mounting.Mounter.CreateDirectoryIfNotExists` | driver/driver.go:295-320 | Takes an existing target as it is, makes a missing one, stops at a stat error (exactly when: MountProgress.TargetFailsIff) |
| `Mounting.Mounter.MountChecked` | driver/driver.go:539-709 | The mount after the checks, its deferred cleanup registered only after the data path is mounted (which stage it reaches: MountProgress.StageIff, MountProgress.MountSucceedsIff) |
| `Mounting.Mounter.UnmountInternal` | driver/driver.go:762-780 | Detaches the target, then detaches and removes the data path |
| `MountSafety.RunsKeepSound` | driver/driver.go:185-267 | In every state any run of mounts and unmounts reaches, under any answers: each data path is mounted at most once, on an existing directory, its password only inside the mount |
| `MountSafety.RunsAreIsolated` | driver/driver.go:547-548 | A directory no call names keeps its data path, password and mounts through any run |
| `MountSafety.CallsAreIsolated` | driver/driver.go:547-566 | A call on one directory changes nothing that belongs to another |
| `MountSafety.MountOutcomes` | driver/driver.go:539-709 | For each way a mount can end, what it leaves at the data path and the target; absent after every cleanup that worked, unmounted otherwise, unless an unmount or removal failed |
| `MountSafety.UnmountOutcomes` | driver/driver.go:762-780 | A successful unmount leaves the data path absent; any unmount keeps it sound |
| `MountSafety.UnmountUndoesMount` | driver/driver.go:762-780 | After a successful mount under any answers, a calm unmount restores mount table and passwords exactly and leaves at most the target and missing parents |
| `MountSafety.DataRootRestored` | driver/driver.go:547-548 | What may remain lies outside the data root |
| `MountSafety.SecondUnmountIsIdle` | driver/driver.go:203-231 | A second unmount succeeds and changes nothing, whichever "not mounted" answer the check gives |
| `MountSafety.UnmountPathReach` | driver/driver.go:185-234 | unmountPath reaches only what is at or below its path, and reports a removal only if nothing is left there |
| `Driver.S3fsPlugin.MountInternal` | driver/driver.go:330-709 | World, node, stage, command line and password text of a request, for every option map and fault |
| `Driver.S3fsPlugin.UnmountInternal` | driver/driver.go:762-780 | Node and result of an unmount of the hashed data path |
| `Driver.S3fsPlugin.CheckBucket` | driver/driver.go:505-537 | Bucket and object path checks, each in a session of its own |
| `Driver.MountNeedsItsBucket` | driver/driver.go:505-537 | A mount attempt never changes the store, and touches the node only if the bucket is there, open to the account, and lists something under the object path |
| `Driver.AttemptIsMountCall` | driver/driver.go:469-709 | Seen from the node, an attempt is one call of the mount machine |
| `Driver.AttemptKeepsSound` | driver/driver.go:469-709 | So any request, accepted or not, keeps every data path sound and every other directory untouched |
| `S3fsOptions.CommandLineShape` | driver/driver.go:590-670 | Bucket spec and directory, then only ("-o", value) pairs; the last values rejoin with commas to the extra parameter |
| `S3fsOptions.CacheFlagsIff` | driver/driver.go:638-644 | Each cache flag is among the driver's own values iff its option is set |
| `S3fsOptions.MountedDirectoryIff` | driver/driver.go:581-589 | The directory s3fs mounts is the one the existence check listed, for every object path but the bare slash |
| `VolumeAcceptance.ProvisionedVolumeAcceptedIff` | driver/driver.go:330-468 | The driver accepts a provisioned volume, whatever the kubelet adds, iff both its timeouts are blank or integers |
| `VolumeAcceptance.TimeoutsComeFromStorageClass` | provisioner/ibm-s3fs-provisioner.go:432-444 | Those fail only through a storage class timeout that no annotation overrides |
| `VolumeAcceptance.NeverBothCaches` | provisioner/ibm-s3fs-provisioner.go:777-803 | No provisioned volume is mounted with both cache flags among the driver's own |
| `VolumeAcceptance.OverlayUnmarshals` | driver/driver.go:330-335 | A volume's options unmarshal to the emitted record in every field but those the kubelet adds |
| `DiagQueue.EveryRunCompletes` | tools/IBM/ibm-cos-plugin-diag:345-368 | Every interleaving is finite, a run that can go no further has joined, and whenever join has returned every scheduled node was settled exactly once |
| `DiagQueue.RunKeepsAccount` | tools/IBM/ibm-cos-plugin-diag:345-368 | Every interleaving keeps: unfinished = queued + workers between get and task_done, no node lost or duplicated, each move costs one unit of the measure |
| `DiagQueue.MoveKeepsAccount` | tools/IBM/ibm-cos-plugin-diag:345-368 | One move keeps it; putting a node back before task_done included |
| `DiagQueue.ZeroMeansSettled` | tools/IBM/ibm-cos-plugin-diag:815-821 | At zero all scheduled nodes are settled; the counter is positive whenever a worker is busy |
| `DiagQueue.SomethingEnabled` | tools/IBM/ibm-cos-plugin-diag:815-821 | Until join returns some move other than "still running" is possible |
| `DiagQueue.RemoveDuplicate` | tools/IBM/ibm-cos-plugin-diag:604-609 | First occurrences, in order, without duplicates |
| `DiagQueue.HealthCheckWorkers` | tools/IBM/diag-util/check-mount-health:113-117 | min(5, ceil(n / 3)) workers, at least one for n >= 1 |
| `DiagQueue.EachMountCheckedOnce` | tools/IBM/diag-util/check-mount-health:69-85 | Without putting back, each mount is checked exactly once |
| `LockedQueue.EveryRunIsSequential` | tools/IBM/run_diagnostic.py:224-260 | Under every interleaving at most one worker is active and nodes are handled in queue order, each once; stuck runs have 5n + 2 moves, joined, the lock's holder waiting in get |
| `LockedQueue.MoveRefinesSequential` | tools/IBM/run_diagnostic.py:224-260 | Every move is a step of the single thread or none at all |
| `LockedQueue.JoinNeedsNoLock` | tools/IBM/run_diagnostic.py:404-421 | With the queue empty and the holder in get, join is the only move left, and it is possible |
| `LockedQueue.StuckIff` | tools/IBM/run_diagnostic.py:404-421 | Some move is possible exactly while moves are left |

## Left out

- Error wording, logging, masking of secrets, command line parsing, gRPC and Kubernetes clients: only whether a call succeeds is modelled.
- The COS and IAM services: modelled as a world of buckets with an arbitrary fate per request (served, dropped, or done with the reply lost). Access is owner or listed guest; an endpoint is a bucket's home.
- S3 version history: a bucket that was ever versioned only counts what its deletions leave behind.
- `encoding/json` beyond string, decimal and boolean scalars: keys are tags that match exactly (Go also matches other letter case), unknown keys are not represented, strings are valid UTF-8, escaping is its own inverse.
- `UnmarshalMap` writing through its argument: modelled as a returned record; Records is a codec on values, keyed by the JSON tags.
- `base64`, `net.ParseIP` and SHA-256: a partial function, a predicate, and digests of 64 characters that do not collide on the directories in use.
- Targets at or below a data path, and one target inside another: the isolation results assume the first away (`Site`) and say nothing about nested targets' contents.
- Partial success of a failing s3fs start, signals, and two driver processes at once: a failing call leaves no mount.
- The bundle file's name and contents and the two environment variables set with it: only the write can fail; a set that fails is the same refusal.
- Flags (`AllowCrossNsSecret` and the like) and `ReclaimPolicy` that are nil: assumed present.
- kubectl calls and text scraping in the diagnostic tools: a node is handled or still running. Endless "still running" answers are excluded by a finite `patience`.
- Exceptions inside a worker thread, which would end it before task_done: not modelled.
- `utils/config`, the provider bindings and the deployment files: they hold no decision the three machines depend on.
- Annotations.AcceptedIsChecked: says what acceptance implies; the storage class values of auto-create and auto-delete are not validated by the code and so are not promised to be booleans.
- VolumeDeletion.DeleteUndoesProvision: assumes the secret still reads as it did and that no fault occurs; under faults VolumeDeletion.DeleteRestoresIff and Deletion.DeletionRemovesPrefix apply.
- Rollback.NilSessionIff: covers the session; a service without ports and a claim without access modes are separate panics, modelled as outcomes of validation and assembly.
- ExistingBucket.ProvisionSafeIff: takes listings without duplicate keys, as a store keeps them; "loses" means gone from the listing, so an object of a versioned bucket counts although its history stays.
- MountableVolume.ProvisionThenMountIff: covers volumes whose bucket was looked at; a claim that opts out of validation promises nothing about its bucket.
- MountSafety.SecondUnmountIsIdle: is stated for calm answers; under faults MountSafety.UnmountOutcomes applies.
