# Verification of the cma-ssh controllers

cma-ssh is a Kubernetes operator. Three controllers (for machines, machine sets
and clusters) work on one object store through a cache that lags behind, and the
machine controller allocates and releases systems of a MAAS server. This project
models that code in Dafny and proves what its runs keep.

## How the model is built

* **One world, changed a step at a time.** `World` holds the machine objects of
  the API server (resource versions, deletion timestamps, finalizers, owner
  references) and the systems of MAAS. A run is a sequence of steps, each taken by
  a user, the machine controller, one of the machine-set controllers or the cluster
  controller. Replaying a prefix of the run gives the state at that moment, which is
  also what an informer cache shows that lags behind.
* **The code is a client of that world.** `ControlPlane.Plane` is the API server,
  cache and MAAS as a controller calls them. Before each call all other actors may
  take any number of steps, the cache may catch up by any amount, the call may be
  refused, and a failed write may still have been carried out. The controllers are
  classes whose methods have the branches of the Go code and issue those calls.
* **Every call and its answer is kept**, oldest first: in the planes, in `Outside.Remote`
  (clusters, secrets, the managed cluster, templates), in `Outside.Publisher`, in
  `SetCalls.Store` and in the front end. The contracts say, for all answers, which call
  comes next and how the method ends, so a body that leaves out a call, asks in another
  order or takes a wrong branch does not meet them. `Preparation.After` is the order of
  questions before MAAS is asked; the predicates named `...Trace` say the same of the
  other parts of a pass.
* **Writers are disciplined, and that is proved of them.** `World.Permitted` says
  into what each actor may turn a stored machine. `Plane.Update` demands it of its
  caller, so the machine, machine-set and cluster controllers in this project are
  proved to obey it, for every copy they may have read. Of users (who also stand for
  the garbage collector and the API front end) it is an assumption: they edit
  metadata and spec, and delete, but write neither the status, nor the controller
  reference, nor remove the machine finalizer.
* **Clusters and secrets** have a world of their own (`ClusterWorld`) in the same
  style, with one cluster and one secret in a namespace.

What is proved about all runs of the two worlds (`Lifecycle`, `Accounting`,
`Uniqueness`, `ClusterWorld`) and what is proved about the methods
(`Creator`, `MachineControl`, `MachineSetControl`, `ClusterControl`) meet in the
methods `RunPasses`: any number of passes with everybody else running in between.

## What turned out to be false, and when it holds

* **Accounting.** A system can be lost in exactly one way: MAAS has deployed it for a
  new master and reported its addresses, and then the kubeconfig cannot be encoded or
  the secret not be stored. `MachineControl.ReconcileMachine.RunPass` states what a
  pass loses in terms of the answers it was given, and `RunPasses` that nothing else
  is ever lost. (That the bundle cannot be read is a third branch of that function. It
  is proved never to be taken, since the bundle was read before MAAS was asked.)
* **No shared system.** No two live machines share a system if MAAS hands out free
  systems, the update after each release for a deletion is accepted and removes the
  object, and no reply to an update that records a system is lost
  (`MachineControl.ReconcileMachine.RunPasses`). Each of the three is needed. If the
  removal is rejected, the system is released again
  (`Sharing.TwiceReleasedIsShared`); so it is if the removal is accepted but a later
  pass still finds the machine in deletion, in an old copy or because of some other
  finalizer (`Sharing.ReleasedAfterRemovalIsShared`); and after a lost reply a pass
  gives back a system that is recorded (`Sharing.RecordedAndGivenBackIsShared`).
  `Sharing.RemovalsAreNeeded`, `HoldingIsNeeded` and `FreedomIsNeeded` are runs from
  the empty store that break one promise, keep the other two, and end with two live
  machines on one system.
  `Uniqueness.ReleaseIsSafeIff` gives the exact condition on a single release: no
  machine other than the one being deleted claims the system.
* **Replica count.** If the list does not show the set as it is, a scale-up
  misses the wanted number by exactly as much
  (`MachineSetControl.ScaleUpIsRightIff`). A just-adopted machine whose adoption the
  list does not show yet is such a case: the second adoption is refused, the machine
  is left out, and one machine too many is created
  (`MachineSetControl.StaleListAddsOne`, and `ReconcileMachineSet.Scale` for the code).
  `MachineSetControl.StaleListOccurs` is a run from the empty store with such a list.
* **Parallel delete.** With negative replicas `wg.Wait` never returns, in any schedule
  (`FanOut.WaitEndsIffReplicasNotNegative`), and neither does the pass, which has then
  chosen every machine of the set for deletion
  (`MachineSetControl.ReconcileMachineSet.SyncReplicas`). Neither validation nor
  `ScaleNodePool` refuses a negative count.
* **Wake-up.** A machine without labels wakes up no set, although a set that takes
  everything but one label value would adopt it
  (`MachineSets.UnlabelledIsNotWokenUp`); `MachineSets.WakeUpIsCompleteIff` says exactly
  when the requests are complete. For match labels they always are.
* **Seekable file.** Reading from beyond the end makes the file lose its position,
  unless the stream is already at its end; later reads then return nothing until
  a seek to before the remembered position
  (`CompressedFile.File.Read`, `CompressedFile.ReadAfterOvershoot`).
* **Stuck cluster.** While the namespace already has a secret, passes over a cluster
  in the empty phase fail without any effect (`ClusterControl.ReconcileCluster.StartCluster`).

## Files

| file | contents |
|---|---|
| `Objects`, `Util`, `Text` | machine objects, string lists, `strings.Split` |
| `World`, `Lifecycle`, `Accounting`, `Uniqueness`, `Handover` | the machine world and what all its runs keep |
| `Sharing` | runs that end with two live machines on one system |
| `ControlPlane`, `MaasClient`, `Outside` | the calls a controller makes |
| `Preparation`, `Creator`, `MachineController`, `Tokens`, `Images`, `CertBundle` | the machine controller |
| `Selectors`, `MachineSets`, `DeletePolicy`, `FanOut`, `Fleet`, `SetCalls`, `MachineSetController` | the machine-set controller |
| `ClusterWorld`, `ClusterController` | clusters, their secrets and the cluster controller |
| `NodePools` | the API front end's machine sets |
| `CompressedFile` | the embedded file system |

`dafny verify dfyconfig.toml` checks everything.

## Model

| member | source | states |
|---|---|---|
| Lifecycle.RunKeepsInv | pkg/controller/machine/machine_controller.go:110-157 | in every state of every run: Creating or Ready implies a system and the finalizer, the empty and the Error phase imply no system, at most one controller reference, versions identify values, every unreleased allocation is recorded, held by the running pass or lost with one |
| Lifecycle.PermittedWrite | pkg/controller/machine/create.go:475-505 | a permitted write keeps identity and deletion mark and moves the object forward; only the recording write sets a system, only a retiring one removes the finalizer |
| Lifecycle.StoredIsLatest | pkg/controller/machine/machine_controller.go:93-108 | any copy ever read evolved into the stored value of the same object |
| Lifecycle.VersionIdentifies | pkg/controller/machine/machine_controller.go:116-118 | a copy whose version is the stored one is the stored object, which is why an accepted update never overwrites unseen changes |
| Accounting.EveryAllocationIsAccounted | pkg/controller/machine/create.go:425-549 | in any run, whatever the machine controller does in its passes, a system with an allocation that no release request followed is recorded in a stored machine with the finalizer, or held by the running pass, or was held when a pass ended; which passes end so is stated by MachineControl.ReconcileMachine.RunPasses |
| Accounting.ObjectHistory | pkg/controller/machine/machine_controller.go:110-157 | between any two moments of any run one machine moves only forward: "" to Creating to Ready, Error only from "", Deleting is final, the system is written once, the controller reference never changes |
| Accounting.ControllerIsUnique | pkg/controller/cluster/cluster_controller.go:278-298 | under every interleaving of cluster and machine-set claims a machine never has two controllers, neither at once nor one after the other |
| Accounting.GoneStaysGone | pkg/controller/machine/delete.go:204-217 | a machine object that left the store never comes back |
| Uniqueness.NoSharedSystem | pkg/controller/machine/delete.go:204-217 | at every moment of a run in which MAAS hands out only free systems, the update after each release for a deletion is accepted and removes the object, and passes give back only what they hold: no two machines in Creating or Ready hold one system, and none of those systems is free |
| Uniqueness.NoSecondRelease | pkg/controller/machine/delete.go:204-217 | under an accepted removal after each release no deletion has its system released twice, not even by a pass on an old copy |
| Uniqueness.ReleaseIsSafeIff | pkg/controller/machine/delete.go:204-217 | with two machines waiting, a release keeps all careful continuations free of sharing if and only if no machine but the one being deleted claims the system |
| Sharing.TwiceReleasedIsShared | pkg/controller/machine/delete.go:204-217 | two deletion passes whose finalizer write is rejected, with a creation after each, end with two live machines on one system |
| Sharing.ReleasedAfterRemovalIsShared | pkg/controller/machine/delete.go:204-217 | the same after an accepted removal, if a later pass finds the machine in deletion in an old copy or kept by another finalizer |
| Sharing.RecordedAndGivenBackIsShared | pkg/controller/machine/machine_controller.go:141-147 | if the reply to the recording update is lost, giving the system back and recording it for another machine ends with two live machines on it |
| Sharing.RemovalsAreNeeded | pkg/controller/machine/delete.go:204-217 | from the empty store there is a run to such a state; going on either way it hands out only free systems and gives back only held ones, and two live machines share a system |
| Sharing.HoldingIsNeeded | pkg/controller/machine/machine_controller.go:141-147 | a run from the empty store that hands out only free systems and leaves no deletion incomplete, in which a recorded system is given back, ends with two live machines on it |
| Sharing.FreedomIsNeeded | pkg/controller/machine/create.go:425-449 | a run from the empty store in which MAAS hands out one system twice, with nothing deleted or given back, ends with two live machines on it |
| Handover.GivesBackMeansHeld | pkg/controller/machine/create.go:425-449 | if each release for no deletion is of a system held after the own steps before it, then it is held at that moment of the run, whatever others do in between |
| ControlPlane.Plane.Update | pkg/controller/machine/machine_controller.go:114-118 | an update is one own step or none; it is accepted only on the stored version; the object goes if it is in deletion without finalizers |
| ControlPlane.Plane.Create | pkg/controller/machineset/machineset_controller.go:264-276 | a creation is one own step under a name never used before, or none |
| ControlPlane.Plane.List | pkg/controller/machineset/machineset_controller.go:164-167 | the list holds exactly the machines of the namespace that the cache shows, each once |
| MaasClient.Client.Create | pkg/maas/client.go:97-137 | the system is allocated by the tag of the instance type, started with the user data and the image of the request, and given back if the start failed; an answer means exactly one allocation that is now held |
| MaasClient.Client.Delete | pkg/maas/client.go:145-159 | with a system id the release is requested exactly once, whatever MAAS makes of it; without one nothing happens and an error is returned |
| Preparation.ClusterThenSecret | pkg/controller/machine/create.go:91-114 | in any conversation the cluster is asked for first and the secret second; a third question is asked only after both were read, and is for a worker the client, built from the kubeconfig in that secret |
| Preparation.WorkerReachesCluster | pkg/controller/machine/create.go:148-170 | MAAS is asked for a worker only if the secret that was read holds a kubeconfig and a client was built from it |
| Preparation.WorkerWaitsForKubeconfig | pkg/controller/machine/create.go:154-158 | if the secret was read and holds no kubeconfig, a worker's pass asks nothing more, neither for tokens nor for a system, and ends not ready |
| Creator.Creator.GetCluster | pkg/controller/machine/create.go:116-138 | no effect after an earlier error; otherwise the clusters of the namespace are listed, and the first one, the error of the call or "not ready" follows |
| Creator.Creator.CreateToken | pkg/controller/machine/create.go:207-251 | no effect after an earlier error, for masters or if a token was chosen; otherwise random bytes are read and a token made of them is stored that expires exactly an hour after it was built, and each failure ends the pass |
| Creator.Creator.CheckIfTokenExists | pkg/controller/machine/create.go:172-205 | no effect after an earlier error; a chosen token is one of those listed and usable at the moment it is chosen; none is chosen exactly if none is usable |
| Creator.Creator.PrepareMaasRequest | pkg/controller/machine/create.go:278-309 | whether MAAS is asked or how the pass ends, for all answers: the ten keys, the user data made for this machine from the bundle, the token and the address, and the first image offered; "unrecoverable" means there is no image |
| Creator.Creator.DoMaasCreate | pkg/controller/machine/create.go:425-449 | MAAS is asked exactly if no earlier step failed, with the prepared request; what is held afterwards, the calls, the own steps and the error are told by its answer |
| Creator.Creator.CreateKubeconfig | pkg/controller/machine/create.go:451-473 | the kubeconfig is encoded from the bundle for the cluster and its new address, and stored in the secret with no other change; the first call that fails decides the error |
| Creator.Creator.UpdateCluster | pkg/controller/machine/create.go:515-541 | the cluster is read and written: what is written is the object that was read, an empty one if the read failed, with the address of the new machine and no other change; any failure asks for the release of the system, and none does not |
| Creator.Creator.UpdateMachine | pkg/controller/machine/create.go:475-513 | records system, host, version, annotations and finalizer in one update; exactly if that is answered with an error the release is asked for, and the system is still held unless the reply to an update that was carried out was lost |
| Creator.Create | pkg/controller/machine/create.go:83-114 | the pass asks in the order of the pipeline and ends as its last answer means, for all answers; MAAS is asked at most once and only with everything in place, for a worker with a kubeconfig, a client and a token usable in this very call; without a kubeconfig a worker ends not ready after two questions |
| Creator.WhatIsHeld | pkg/controller/machine/create.go:425-549 | at the end of the pipeline the pass holds exactly the system of a new master whose kubeconfig could not be published, or one whose release it asks for, or none |
| Creator.ReleaseIsOfAllocated | pkg/controller/machine/create.go:475-541 | a release is asked only for the system this pass allocated, which it still holds unless the reply to the recording update was lost |
| MachineControl.ReconcileMachine.MarkDeleting | pkg/controller/machine/machine_controller.go:110-119 | phase Deleting is stored before anything else is done for a deletion |
| MachineControl.ReconcileMachine.DeleteMachine | pkg/controller/machine/delete.go:204-217 | the release is requested first, if a system is recorded, and then the finalizer is written away, whose answer decides the error; on success the object is gone unless another finalizer holds it |
| MachineControl.ReconcileMachine.HandleDelete | pkg/controller/machine/delete.go:24-202 | for all answers: exactly what DeleteMachine does if there is no cluster, it is being deleted, the machine has no system, the secret or the node is gone, or the node was drained and removed; otherwise nothing, with the error of the answer that stopped it |
| MachineControl.ReconcileMachine.HandleWaitingForReady | pkg/controller/machine/machine_controller.go:210-257 | for all answers: the machine is deleted exactly if the secret is not found; Ready is written exactly if the secret holds a kubeconfig, the client was built, the node was read and one of its conditions is KubeletReady with status True; the error is that of the last answer, or "not ready" |
| MachineControl.ReadyIffKubeletReady | pkg/controller/machine/machine_controller.go:210-257 | a pass over a waiting machine tries to write Ready if and only if it saw a ready kubelet, and to delete the machine if and only if the secret was not found |
| MachineControl.DrainedBeforeRelease | pkg/controller/machine/delete.go:88-202 | a pass that could read the node releases the system only after the node was drained and removed |
| MachineControl.ReconcileMachine.HandleError | pkg/controller/machine/machine_controller.go:128-154 | for each class of error the calls, the own steps and the outcome; an unrecoverable error is reported only if phase Error could not be stored |
| MachineControl.ReconcileMachine.Reconcile | pkg/controller/machine/machine_controller.go:93-161 | the calls and own steps of a pass are those of reading and marking, of the handler and of the cleanup, each as the phase, the error and the answers say; the outcome follows from them |
| MachineControl.ReconcileMachine.RunPass | pkg/controller/machine/create.go:451-473 | the own steps are those of Reconcile and the end of the pass; what is lost is the system MAAS deployed with addresses for a new master whose kubeconfig could then not be encoded or stored, and otherwise nothing |
| MachineControl.ReconcileMachine.RunPasses | pkg/controller/machine/machine_controller.go:93-161 | after any passes every allocation that no release followed is recorded with the finalizer or lost in one of the passes that RunPass tells; and if MAAS hands out free systems, removals after releases are accepted and no reply to a recording update is lost, then at every moment no two live machines share a system |
| MachineControl.PassesGiveBackHeld | pkg/controller/machine/machine_controller.go:141-147 | over any passes, a release for no deletion is of a system held after the own steps before it, if no reply to a recording update was lost |
| Images.LastWriterWins | pkg/controller/machine/images.go:16-29 | a slot holds what the last field that writes it says; type, standard and gpu compete for one slot |
| Images.ParseUndoesPrint | pkg/controller/machine/images.go:32-54 | parsing the printed name of an image returns the image, for all parts without comma and equals sign |
| Images.ShortTypeIsParsed | pkg/controller/machine/images.go:16-54 | in place of a type, standard and gpu as fields of their own name the type |
| Images.Parse | pkg/controller/machine/images.go:32-54 | the loop computes the last-writer-wins meaning; fields with two or more equals signs write nothing |
| Text.JoinSplit | pkg/controller/machine/images.go:35-37 | splitting a name at a separator loses nothing, and no piece holds a separator |
| Images.GetImages | pkg/controller/machine/images.go:56-71 | exactly the uploaded resources that parse, in order |
| Images.ImageRecord.FindIn | pkg/controller/machine/images.go:73-84 | the first equal image, or none |
| Images.GetImage | pkg/controller/machine/images.go:88-98 | a non-empty answer is the name of the first uploaded resource for exactly this request; it is empty if and only if a part is empty or there is none |
| Images.FirstMatchIsFirstOffer | pkg/controller/machine/images.go:73-98 | the first match in the filtered list is the first matching resource |
| Tokens.CheckIfTokenExists | pkg/controller/machine/create.go:172-205 | the first token that never expires or has half an hour left; if none is chosen none is usable |
| Tokens.BootstrapTokenSecret | pkg/controller/machine/create.go:230-251 | the new token, with the given id and secret, may be used to join until half an hour after it was built and not later |
| CertBundle.CABundle.Set | pkg/cert/gen_cert.go:152-175 | a key writes its own part and no other |
| CertBundle.CABundleFromMap | pkg/cert/gen_cert.go:177-199 | succeeds if and only if all ten keys are there, and says what the map says |
| CertBundle.SecretData.MergeBundle | pkg/cert/gen_cert.go:201-212 | exactly the ten keys are written, other keys stay |
| CertBundle.RoundTrip | pkg/cert/gen_cert.go:177-212 | a merged bundle is read back unchanged, also after the kubeconfig was added |
| CertBundle.PartsByName | pkg/cert/gen_cert.go:201-212 | which part of a bundle is kept under which of the ten names |
| MachineSets.CreateMachine | pkg/controller/machineset/machineset_controller.go:360-374 | the new machine is kept by the filter if and only if the set is valid and its selector not empty |
| MachineSets.MachineToMachineSets | pkg/controller/machineset/machineset_controller.go:422-452 | the sets with matching labels; none for a machine with a controller or without labels, or if a read fails |
| MachineSets.WakeUpIsCompleteIff | pkg/controller/machineset/machineset-utils.go:50-72 | for an orphan not in deletion the requests are exactly the adopting sets if and only if it has labels or no set matches it |
| MachineSets.UnlabelledIsNotWokenUp | pkg/controller/machineset/machineset-utils.go:50-54 | a valid set for everything but a = b would adopt an orphan without labels, which wakes up no set |
| MachineSets.WakeUpForMatchLabels | pkg/controller/machineset/machineset-utils.go:50-107 | for selectors of match labels the requests are exactly the adopting sets |
| Selectors.OperatorsAreOpposites | pkg/controller/machineset/machineset-utils.go:84-107 | the selector operators come in opposite pairs, and wanting one value is wanting that label |
| MachineSets.CalculateStatus | pkg/controller/machineset/status.go:31-47 | counts the slice and the fully labelled machines in it, never more of them than replicas |
| MachineSets.CountIgnoresOrder | pkg/controller/machineset/status.go:31-47 | the counts are the same before and after the slice was sorted; Reconcile uses it for the status it writes |
| DeletePolicy.SortableMachines.Sort | pkg/controller/machineset/delete_policy.go:51-59 | sorts the shared slice by falling priority, in place, as a permutation |
| DeletePolicy.PriorityIsPreference | pkg/controller/machineset/delete_policy.go:40-48 | one priority is at least another if and only if deletion, and then the annotation, do not speak against it |
| DeletePolicy.GetMachinesToDeletePrioritized | pkg/controller/machineset/delete_policy.go:61-73 | clamp(diff, 0, len) machines; one not in deletion is chosen only if none left is, and one without the annotation only if none left has it or is in deletion; the slice is only permuted |
| FanOut.NoSendBlocks | pkg/controller/machineset/machineset_controller.go:291-312 | in every schedule a worker with an error can send it |
| FanOut.WaitReturnsIff | pkg/controller/machineset/machineset_controller.go:291-312 | in every schedule Wait returns exactly when all workers have left, if as many were spawned as announced |
| FanOut.SelectSeesFailure | pkg/controller/machineset/machineset_controller.go:314-323 | after Wait the channel holds an error if and only if a delete failed |
| FanOut.WaitEndsIffReplicasNotNegative | pkg/controller/machineset/machineset_controller.go:255-294 | some schedule lets Wait return if and only if replicas is not negative |
| FanOut.MovesEnd | pkg/controller/machineset/machineset_controller.go:294-311 | no schedule goes on for ever |
| Fleet.OnlyUsersAndDeletionsDisturb | pkg/controller/machineset/machineset-utils.go:75-107 | other writes of the machine controller, claims of clusters and passes over other sets never change the machines a set counts, if it has no orphans |
| Fleet.AddsCount | pkg/controller/machineset/machineset_controller.go:264-281 | while others are quiet the set grows by exactly the number of own creations |
| Fleet.AllMissing | pkg/controller/machineset/machineset_controller.go:299-312 | once each chosen name was missing the set is what it was without them |
| Fleet.SettledAfterCreation | pkg/controller/machineset/machineset_controller.go:376-397 | a cache that has shown all creations shows the set as it is from then on |
| Fleet.SettledAfterDeletion | pkg/controller/machineset/machineset_controller.go:399-418 | a settled cache that has shown each chosen machine gone is settled again |
| Fleet.CopyTellsController | pkg/controller/machineset/machineset_controller.go:331-349 | a copy of any age with a controller tells the controller of the stored machine |
| Fleet.NeverShared | pkg/controller/machineset/machineset-utils.go:75-82 | two owners never both count one machine, even on copies of different age |
| MachineSetControl.ReconcileMachineSet.AdoptOrphan | pkg/controller/machineset/machineset_controller.go:352-356 | one update is sent, of the copy with the set's controller reference appended; on success the stored machine is controlled by the set; it is refused if the store has held the machine with a controller |
| MachineSetControl.ReconcileMachineSet.FilterMachines | pkg/controller/machineset/machineset_controller.go:331-349 | machine after machine: excluded ones are left out, controlled ones kept, and for each orphan exactly one adopting update is sent and the machine kept if and only if it was accepted; if none is refused every listed machine that is not excluded is controlled by the set and returned |
| SetCalls.EveryOrphanIsKept | pkg/controller/machineset/machineset_controller.go:331-349 | if no update is refused, each listed machine that is not excluded is kept, an orphan as its adopting update stored it |
| SetCalls.AllWantedAreCounted | pkg/controller/machineset/machineset_controller.go:331-349 | and the sync counts exactly as many machines as are listed and not excluded |
| MachineSetControl.ReconcileMachineSet.Scale | pkg/controller/machineset/machineset_controller.go:224-228 | filter and sync together: the slice is a permutation of what was filtered; a trusted list leads to the wanted number, a list that misses one adoption to one machine more |
| MachineSetControl.ReconcileMachineSet.CreateReplicas | pkg/controller/machineset/machineset_controller.go:257-286 | exactly the missing number of machines is requested from the template, whatever the answers; any refusal is reported with their number, and otherwise the created machines are waited for; on success the cache has seen every creation |
| MachineSetControl.ReconcileMachineSet.WaitForMachineCreation | pkg/controller/machineset/machineset_controller.go:376-397 | each machine is looked for, one after the other, until it is found, another error comes or time is up, and success means the cache has shown each of them; no own step |
| MachineSetControl.ReconcileMachineSet.WaitForMachineDeletion | pkg/controller/machineset/machineset_controller.go:399-418 | each machine is looked at, one after the other, until it is gone or marked, an error comes or time is up, and success means that since the sync began the cache has shown that of each of them; no own step |
| MachineSetControl.ReconcileMachineSet.DeleteAll | pkg/controller/machineset/machineset_controller.go:291-323 | in every schedule each chosen machine is asked for once; the wait hangs if and only if fewer were chosen than announced; otherwise an error is returned if and only if a call was answered with one, it is one of those, and without one each machine left the set |
| MachineSetControl.ReconcileMachineSet.SyncReplicas | pkg/controller/machineset/machineset_controller.go:254-328 | the calls and the result, for all answers; deletes only machines once controlled by the set, preferring those in deletion and then those annotated; only permutes the slice; on success did exactly what SyncDone says; it does not return if and only if replicas is negative |
| MachineSetControl.SyncIsExact | pkg/controller/machineset/machineset_controller.go:254-328 | what a successful sync does to the set on a list of any age |
| MachineSetControl.ScaleUpIsRightIff | pkg/controller/machineset/machineset_controller.go:257-286 | scaling up reaches the wanted number if and only if the list showed the true number |
| MachineSetControl.StaleListAddsOne | pkg/controller/machineset/machineset_controller.go:257-349 | from a list that shows one machine as it was before its adoption, a successful sync of a set that has the wanted number ends with one machine more |
| MachineSetControl.StaleListOccurs | pkg/controller/machineset/machineset_controller.go:331-356 | after a user created a machine and the set, which wants one, adopted it, a cache one step behind gives exactly such a list |
| MachineSetControl.ScaleDownIsRightIff | pkg/controller/machineset/machineset_controller.go:287-325 | scaling down reaches it if and only if the true number exceeds it by the chosen machines still there |
| MachineSetControl.SyncReachesReplicas | pkg/controller/machineset/machineset_controller.go:254-328 | from a settled cache a successful sync reaches the wanted number and leaves the cache settled |
| MachineSetControl.DeletionsHitTheSet | pkg/controller/machineset/machineset_controller.go:286-349 | while names are not reused whatever a set deletes is controlled by it at that moment |
| MachineSetControl.ReconcileMachineSet.Admit | pkg/controller/machineset/machineset_controller.go:169-222 | for all answers: a set is scaled only if it is valid, its one cluster was found, it is not in deletion and carries the finalizer; a missing finalizer is written, and only the owner reference was added to the copy |
| MachineSetControl.ReconcileMachineSet.UpdateStatus | pkg/controller/machineset/status.go:50-82 | the set is read, and phase and counts of the filtered slice are written into that copy, which is otherwise left as it is; the status counts as stored if and only if both calls succeeded |
| MachineSetControl.ReconcileMachineSet.Reconcile | pkg/controller/machineset/machineset_controller.go:163-251 | the calls and the outcome, for all answers; a successful pass on a settled cache ends with exactly the replicas of its copy; if no adoption is refused every listed machine that is not excluded is counted; the status it writes tells success in its phase and counts the machines as they were before the sync |
| MachineSetControl.ReconcileMachineSet.RunPasses | pkg/controller/machineset/machineset_controller.go:123-251 | all calls are those of the passes; as long as no pass fails and nobody outside interferes, every pass ends with exactly the wanted number of machines, all of them controlled by the set; in every run only machines of the set are deleted, and passes stop only at one that hangs on negative replicas |
| ClusterWorld.PhaseOnlyMovesForward | pkg/controller/cluster/cluster_controller.go:164-223 | over whole runs the phase of a cluster moves only from "" to Reconciling to Running |
| ClusterWorld.StartedMeansSecret | pkg/controller/cluster/cluster_controller.go:164-181 | in every state of every run a cluster in a non-empty phase has its secret with all ten keys |
| ClusterWorld.SecretKeepsBundle | pkg/controller/machine/create.go:451-473 | as long as a secret lives it yields the bundle it was created with |
| ClusterWorld.VersionIdentifies | pkg/controller/cluster/cluster_controller.go:262-267 | an update accepted on a fresh copy changes the stored cluster, not an older one |
| ClusterControl.Plane.GetCluster | pkg/controller/cluster/cluster_controller.go:121-124 | a cluster the cache does not show is not in a non-empty phase in the store either |
| ClusterControl.Plane.Update | pkg/controller/cluster/cluster_controller.go:248-267 | the cache knows every started cluster, also after this one was started |
| ClusterControl.ReconcileCluster.CanClaim | pkg/controller/cluster/cluster_controller.go:291-298 | a machine may be claimed if and only if it has no controller |
| ClusterControl.ReconcileCluster.ClaimMachines | pkg/controller/cluster/cluster_controller.go:278-289 | one update for each listed machine without a controller, in order, up to the first refusal, and success if and only if there is none; then each of them was given to the cluster |
| ClusterControl.ReconcileCluster.CreateClusterSecrets | pkg/controller/cluster/cluster_controller.go:228-246 | a new bundle is made and its ten parts stored, and success means both worked; it succeeds only if the namespace had no secret, and then no cluster in it is started |
| ClusterControl.ReconcileCluster.UpdateStatus | pkg/controller/cluster/cluster_controller.go:248-276 | the cluster is read, and phase, endpoint and finalizers of the older copy are written into it; success if and only if both calls succeeded |
| ClusterControl.ReconcileCluster.StartCluster | pkg/controller/cluster/cluster_controller.go:164-181 | first the secret, then the phase, and success if and only if both were stored; while the namespace has a secret the pass fails without a step |
| ClusterControl.ReconcileCluster.CheckServices | pkg/controller/cluster/cluster_controller.go:182-223 | for all answers: Running is written if and only if the secret holds a kubeconfig, the client was built and at least one cluster service was listed; success means it was stored |
| ClusterControl.ReconcileCluster.TearDown | pkg/controller/cluster/cluster_controller.go:124-147 | the secret is deleted if and only if no machine was listed and the secret was read, and success means that there was a moment without it |
| ClusterControl.ReconcileCluster.Reconcile | pkg/controller/cluster/cluster_controller.go:119-226 | the calls and the outcome, for all answers; a pass removes a secret only if it saw neither the cluster nor a machine in the namespace; a successful pass over a cluster claims the listed machines and moves the cluster it read one phase on, and without a cluster it leaves no secret |
| ClusterControl.ReconcileCluster.RunPasses | pkg/controller/cluster/cluster_controller.go:119-226 | all calls are those of the passes, and at every moment of the run started clusters have readable secrets |
| NodePools.PoolSetIsValidIff | internal/apiserver/pool.go:40-77 | the set of a pool is valid if and only if the pool's name is a label value, whatever labels are requested; its selector is never empty |
| NodePools.PoolMachinesAreKept | internal/apiserver/pool.go:40-68 | its machines are counted by this set and match no other pool's set |
| NodePools.RequestedLast | internal/apiserver/pool.go:41-44 | of several labels with one name the last counts |
| NodePools.PoolLabelsAre | internal/apiserver/pool.go:40-46 | the labels of a set are exactly the last requested label of each name, and the two that the front end sets itself |
| NodePools.Server.BuildMachineSet | internal/apiserver/pool.go:40-68 | the loop builds the set of the pool; node-pool and the tools label win over requested ones |
| NodePools.Server.AddPools | internal/apiserver/cluster.go:87-131 | exactly one valid set is stored for each pool, in order, before the first pool whose name is no label value or whose set is refused, and nothing else changes |
| NodePools.Server.AddNodePool | internal/apiserver/pool.go:19-88 | the cluster must be found, a missing one being told from other failures; then the pools are added, and the request is accepted if and only if all were |
| NodePools.Server.CreateCluster | internal/apiserver/cluster.go:22-157 | namespace, cluster and control plane are made first, and each failure refuses the request; then it is accepted if and only if all pools were added; a failed app bundle changes nothing |
| NodePools.Server.ScaleNodePool | internal/apiserver/pool.go:136-180 | for each pool in order its set is read and written with the new count, up to the first failure; each named set gets the last count given for it, nothing else changes |
| CompressedFile.File.Read | pkg/crd/crd_vfsdata.go:127-148 | inside the file, on a stream whose position is known or behind the goal, the next bytes; else nothing; and exactly when the position is lost |
| CompressedFile.File.Seek | pkg/crd/crd_vfsdata.go:149-161 | the new position, with 64-bit wrap-around |
| CompressedFile.File.Perform | pkg/crd/crd_vfsdata.go:127-161 | any sequence of in-range seeks and reads answers like a cursor over the bytes |
| CompressedFile.ReadingInOrder | pkg/crd/crd_vfsdata.go:127-148 | reads without seeks return a prefix of the content |
| CompressedFile.ReadAfterOvershoot | pkg/crd/crd_vfsdata.go:127-161 | after one read from beyond the end the beginning reads as empty |
| CompressedFile.ReadTail | pkg/crd/crd_vfsdata.go:127-161 | a read after a seek from the end begins with the last bytes |
| CompressedFile.Dir.Readdir | pkg/crd/crd_vfsdata.go:200-210 | the next entries, all of them for a count of zero or less, the end exactly when none is left |
| CompressedFile.Dir.ReadAll | pkg/crd/crd_vfsdata.go:200-210 | reading in chunks lists every entry once, in order |
| Util.RemoveString | pkg/util/controller-utils.go:151-159 | the other strings, in order |
| Util.WithoutUndoesAppend | pkg/util/controller-utils.go:142-159 | removing a finalizer undoes adding it, and removing twice is removing once |

## Left out

- Accounting.EveryAllocationIsAccounted: speaks of any run of the world and so counts every system held at the end of a pass as lost; that only a failed publication of a kubeconfig leaves one is MachineControl.ReconcileMachine.RunPasses.
- MachineControl.ReconcileMachine.HandleDelete: draining the node is one step that succeeds or fails; the eviction goroutines and their polling loop are library calls.
- MachineSetControl.ReconcileMachineSet.RunPasses: reaches the wanted number only with a non-empty selector, since an empty one passes validation but matches nothing, and without outside machines: no user, and no deletion by the machine controller, changes which machines the set counts.
- MachineSets.CalculateStatus: counts are unbounded numbers, not int32.
- DeletePolicy.SortableMachines.Sort: stands for Go's sort.Sort; only that it sorts by Less through Swap is used.
- ControlPlane.Plane.Create: generated names are taken never to repeat; users may reuse names.
- ControlPlane.Plane.Update: status and spec are written together, as the code does; there is no status subresource.
- Uniqueness.ReleaseIsSafeIff: a reply to AllocateMachine that is lost leaves a system that the operator never learns of; the model has no such call.
- ClusterWorld.StartedMeansSecret: one cluster and one secret in a namespace; users neither delete nor create the secret, and namespaces are not deleted.
- ClusterControl.ReconcileCluster.UpdateStatus: the endpoint is copied from an older read, so nothing is claimed about the endpoint staying as it was written.
- CompressedFile.File.Read: gzip decoding is a forward-only stream over valid content; errors for damaged content cannot occur, and an unknown `whence`, which panics, is not representable.
- Tokens.CheckIfTokenExists: expiration times are integers or unparsable; the text format is not modelled.
- Creator.Creator.PrepareMaasRequest: user data comes from an arbitrary generator that may fail; certificates, kubeconfig encoding and cloud-init templates are opaque.
- Creator.Creator.DoMaasCreate: when MAAS reports no addresses the system is released and a later step of the pass ends it by indexing the empty list; that end counts as a failed pass, not as a crash of the operator.
- A crash of the operator in the middle of a pass.
- The order, within one pass, between calls kept in different places: between those about machines and those about secrets, say.
- handleUpgrade, the machine updateStatus and the Upgrading phase, which no phase leads to.
- GetStatus, IsReadyForDeletion, IsReadyForUpgrade and other short scans: they would only add easy members.
- DeleteNodePool, DeleteCluster, listing and the rest of the gRPC and REST front end, CRD and app-bundle installation, generated code.
- Garbage collection that orphans dependents by removing owner references.
- Timeouts and events: a poll looks at least once, and may give up after any number of looks that did not show what it waits for.
