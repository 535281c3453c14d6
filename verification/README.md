# Verification of the GreatSQL operator

The operator turns two custom resources into Kubernetes objects. A `SingleInstance` X becomes a ConfigMap `X-config`, a
claim `Xdb`, a Deployment X and a Service X; a `GroupReplicationCluster` X becomes a Secret, a numbered ConfigMap and
claim, a StatefulSet and a headless Service. It works by calls to an API server that everybody else writes to as well:
any call may fail, the operator may be killed between two calls, and users create, edit and delete resources meanwhile.
This project models that protocol, the defaulting webhook with the deep copy it depends on, the GTID arithmetic
and the buffer pool setting, and proves what they keep.

## How it is built

| module | what it models |
|---|---|
| `Api`, `Names` | the entities as values; the names and keys that the operator renders |
| `Kube`, `ApiServer` | the API server: `Serve` answers one request on the cell of one key; `Server.Do` lets others act first |
| `InstancePass` | one reconcile pass of a SingleInstance: `Ask` is its next call, `Resume` what it does with the answer, `Run` the whole pass |
| `InstanceController` | the controller and the finalizer as classes, method by method, proved to make the calls of `InstancePass` |
| `Calls`, `Writes` | the pass as the server sees it: which answers end it, which call follows which answer, what each write makes of the resource |
| `AnyEnvironment` | what one pass keeps whatever anybody does between its calls, children included |
| `Fleet`, `Executions` | all instances at once: interleaved passes, failures, crashes and users; whole passes as parts of such runs |
| `Standstill`, `Mounts` | two things that go wrong in every continuation, or in every run |
| `FailedRead`, `Contents` | a pass whose first read fails; what ends up in the children and in the resource |
| `Independence` | passes of different names |
| `Convergence`, `Teardown`, `Lifecycle` | repeated passes without disturbance, interrupted teardown, a whole life |
| `ClusterPass`, `ClusterController`, `ClusterFleet`, `ClusterConvergence`, `ClusterCalls` | the same layers for the GroupReplicationCluster |
| `BufferPool`, `Regex`, `Gtid`, `GtidMax` | the arithmetic, the regular expression, parsing and selection |
| `DeepCopy`, `Webhook` | structs, pointers, maps and slices on the heap; the generated copy; the defaulting call |

The rules of the server are those of the Kubernetes API Conventions, section "Concurrency Control and Consistency":
Create fails if the key is present; Update compares the version unless it is empty; a write that changes
nothing keeps the version; versions are never reused; an object with a deletion timestamp takes no new finalizer and
disappears with its last one. A store keeps a version counter for each key, so that two passes that touch different keys
commute exactly. A call whose effect took place but whose answer was lost is covered by a crash right after the
call, because an error on any write ends the pass.

A child's content is represented by the inputs of its constructor, so two desired children are equal exactly if the
constructors got equal inputs (`Contents.DesiredIff`, `ClusterCalls.StatefulSetsEqualIff`).

## Main results

* Safety over every run (`Fleet`): no Deployment or Service without a custom resource that carries the finalizer;
  the children are a prefix of ConfigMap, claim, Deployment, Service.
* Safety of one pass against anybody (`AnyEnvironment`): no resurrection, the finalizer guard, the safe swap.
* Convergence, with its exact condition and a measure (`Convergence.Converges`): retrying is *not* always enough.
* A spec change reaches the children, and what they settle on is the spec, field by field (`Contents`).
* Teardown is idempotent under crashes (`Teardown`), and it leaves two objects behind that block the next
  life of the same name (`Lifecycle`).
* Passes for different names commute on the store (`Independence`).
* One writing pass for each cluster (`ClusterFleet`); creation completes exactly under a condition on the store, one pass is then enough, and
  an interrupted creation is never taken up again (`ClusterConvergence`).
* A name can get stuck for good: a ConfigMap without a Deployment never gets one, in any run (`Standstill`).
* The regular expression equals a one-pass scanner, and parsing and selection are characterised without
  reference to either (`Regex`, `Gtid`, `GtidMax`).
* The webhook is not idempotent; on a deep copy it never shows in the original (`Webhook`).

## Where the code and what is said of it differ

The code is followed.

* internal/utils/finalizer.go:101-102 and :157 delete `X-db-i` and `Xconfig`, while internal/pkg/kube/volume.go:30 and
  internal/controller/singleinstance_controller.go:187 create `Xdb` and `X-config`: teardown does not remove what was created.
* internal/controller/singleinstance_controller.go:209 lets the Deployment mount the ConfigMap `Xconfig`, which the operator never creates.
* internal/pkg/mysql/gtid.go:30-32 says that the texts "0" and "1" are skipped; the caller returns the error, so one of them anywhere
  makes the whole selection fail.
* `GetSize` of a member (api/v1/groupreplicationcluster_types.go:43-49) returns whether a size is set, not the size. So the webhook's
  comparison with three always succeeds and the ordinal loop runs at most once.
* `updateResource` updates twice. After a change the second write carries the version that the first one replaced, so a pass that
  corrects a child fails with a conflict.
* `updateStatus` compares a status with a pointer to one, so it always writes.

## Model

| member | source | states |
|---|---|---|
| Names.ValueOfDecimal | internal/utils/finalizer.go:101-102 | the `%d` rendering of an ordinal reads back as the ordinal |
| Kube.CreateRule | internal/controller/singleinstance_controller.go:188-191 | the server's side of a Create: refused if the key is present, else the draft under a version and a uid never seen there, without a status |
| Kube.UidRule | internal/controller/singleinstance_controller.go:308-311 | an object keeps its uid as long as it lives |
| Kube.StatusRule | internal/controller/singleinstance_controller.go:393-399 | spec and status are written apart |
| Names.DecimalCanonical | internal/utils/finalizer.go:101-102 | the rendering has no leading zero |
| Names.DecimalOfValue | internal/utils/finalizer.go:101-102 | every numeral without leading zeros is the rendering of the number it denotes |
| Names.NumberedNameInjective | internal/utils/finalizer.go:101-102 | a rendered name and ordinal determine both: the last dash splits them |
| Names.OldConfigIsNoConfig | internal/utils/finalizer.go:152-158 | the ConfigMap key that teardown deletes is the created ConfigMap of no resource, because a valid name never ends in a dash |
| Names.InstancesOwnApart | internal/controller/singleinstance_controller.go:172-231 | two SingleInstances whose passes may name a common key are the same |
| Names.ClustersOwnApart | internal/controller/groupreplicationcluster_controller.go:115-214 | two clusters whose passes may name a common key are the same |
| Names.InstanceAndClusterMeet | internal/utils/finalizer.go:98-167 | over all kinds, an instance and a cluster share a key if and only if they have the same name and namespace, or the instance is called like the cluster's headless Service; in a Service exactly in the second case, in anything else exactly in the first, and then all numbered claims are shared |
| Names.ServicesMeet | internal/controller/groupreplicationcluster_controller.go:204-206 | the Service of an instance is the headless Service of a cluster if and only if the instance is called `Y-headless` in the cluster's namespace |
| Names.TwinIsValid | internal/controller/groupreplicationcluster_controller.go:204-206 | such an instance has a valid name if and only if the cluster's valid name leaves room for the nine characters of the suffix |
| InstancePass.Without | internal/utils/finalizer.go:55-57 | the removed finalizer is gone, every other one is kept and none is new |
| InstancePass.WithoutEntrywise | internal/utils/finalizer.go:55-57 | removal distributes over concatenation and drops or keeps single entries, so the others keep their order and number |
| InstancePass.ResumeDescends | internal/controller/singleinstance_controller.go:71-94 | every answer brings a pass nearer to its end, so it ends whatever the server says |
| InstancePass.TraceIsLegal | internal/controller/singleinstance_controller.go:71-94 | every run of a pass, with any doings of others before each call, is one of the traces that the results for any environment are about |
| Executions.RunIsExecution | internal/controller/singleinstance_controller.go:71-94 | a whole pass, with failures and with whatever users may do before each call, is part of a run of the fleet: same store, same pass at the end |
| Executions.UsersMay | internal/utils/finalizer.go:67-80 | in these runs users may do anything with custom resources, except to take the finalizer off by an Update |
| Executions.CrashAndRestart | internal/controller/singleinstance_controller.go:71-94 | a crash loses the pass and leaves the store; passes of one name are serialised |
| Calls.FailsIff | internal/controller/singleinstance_controller.go:71-329 | a pass fails at an answer if and only if the answer is an error that the code does not tolerate (NotFound on a Delete or on the read of a child, anything on the first read of the Deployment), or the spec just read has no size, size zero or no storage class |
| Calls.SucceedsIff | internal/controller/singleinstance_controller.go:257-281 | a pass succeeds if and only if the last write of the ConfigMap does |
| Calls.AfterFetch | internal/controller/singleinstance_controller.go:97-149 | what follows the first read: teardown from claim 0, the second write of a terminating resource, the finalizer, or the read of the Deployment, with keys and drafts written out |
| Calls.AfterDelete | internal/utils/finalizer.go:36-60 | after a deletion, done or not needed: the next claim below the size (one if unset), Deployment, Service, `Xconfig`, then the write without the finalizer |
| Calls.AfterResourceWrite | internal/controller/singleinstance_controller.go:111-149 | after each write of the resource: the second removal if the finalizer is still there, the plain write, the finalizer again, or the read of the Deployment |
| Calls.AfterCreation | internal/controller/singleinstance_controller.go:152-231 | the read of the Deployment leads to the annotation, or on any error to the Creates of `X-config`, `Xdb`, Deployment and Service in this order |
| Calls.AfterService | internal/controller/singleinstance_controller.go:377-402 | the status report: the size of the spec and the Service just created, under the version last read |
| Calls.AfterReport | internal/controller/singleinstance_controller.go:284-302 | then the write of the resource with its own spec as annotation "spec", then the read of the Deployment |
| Calls.AfterLook | internal/controller/singleinstance_controller.go:305-326 | a child that is read is replaced under the version read, an absent one is created |
| Calls.AfterFirstWrite | internal/controller/singleinstance_controller.go:308-328 | the second write: what was read under the desired finalizers, annotations, labels and owner, or what was created |
| Calls.AfterSecondWrite | internal/controller/singleinstance_controller.go:265-278 | Deployment, Service, ConfigMap |
| Calls.FailedReadCreates | internal/controller/singleinstance_controller.go:153-158 | in every trace the first read of the Deployment never ends the pass; any error on it leads to the Create of `X-config` |
| Calls.Remembers | internal/controller/singleinstance_controller.go:76-93 | the pass goes on with the resource as the latest answer about it showed it |
| FailedRead.FaultIsAbsence | internal/controller/singleinstance_controller.go:153-168 | without a Deployment, a failed read of it makes no difference to anything that follows, whatever happens next |
| FailedRead.FaultBlocked | internal/controller/singleinstance_controller.go:153-158 | with the ConfigMap there, a failed read ends the pass with an error and no effect, Deployment or not |
| FailedRead.FailedReadHeals | internal/controller/singleinstance_controller.go:71-169 | a live resource without a Deployment: the pass whose read of it fails is the undisturbed pass; with no child there it succeeds, makes all four and settles |
| Writes.ResourceWrites | internal/utils/finalizer.go:55-80 | over every trace a write of the resource takes effect only on the object last read, and changes only what it is for: install appends the finalizer, teardown takes it off, the annotation sets the key "spec", the report sets the status; no other object changes |
| Writes.OtherCallsSpareIt | internal/controller/singleinstance_controller.go:71-94 | no other call of a pass touches the resource |
| Writes.StaleWriteConflicts | internal/controller/singleinstance_controller.go:296-396 | a write of the resource, status reports included, is refused and ends the pass if the resource was changed since it was last read |
| Fleet.AskOwned | internal/controller/singleinstance_controller.go:71-94 | every call of a pass names a key that its instance owns |
| AnyEnvironment.TraceCoherent | internal/controller/singleinstance_controller.go:97-132 | at every call of every trace, what the pass holds in memory is what the store holds under the same version |
| AnyEnvironment.NoResurrection | internal/controller/singleinstance_controller.go:97-149 | a pass that saw no custom resource makes no further call; one that saw a deletion timestamp only deletes and writes the custom resource back, whatever other finalizers there are and whatever others do |
| AnyEnvironment.OnlyDropDrops | internal/utils/finalizer.go:55-60 | no call but the last one of HandleFinalizer can take the finalizer off the stored resource |
| AnyEnvironment.FinalizerGuard | internal/utils/finalizer.go:33-62 | when a call takes the finalizer off, an acknowledged deletion of every target (claims 0 to size-1, Deployment, Service, ConfigMap) precedes it in the same pass |
| AnyEnvironment.SafeSwap | internal/controller/singleinstance_controller.go:305-329 | for an object present when read, the first write only ever replaces the version read, the second changes nothing, and if the second succeeds the stored child is the desired one; no other key is touched |
| AnyEnvironment.FreshRewrite | internal/controller/singleinstance_controller.go:305-329 | in every trace the second write has an empty version exactly if the child was just created, and then it writes the desired child |
| AnyEnvironment.UnreadSwapReverts | internal/controller/singleinstance_controller.go:313-328 | in every trace the second write changes the store if and only if the child was just created, the write succeeds, and what is stored by then differs from the desired child; it then reverts it, or removes it if it is marked for deletion |
| Fleet.ExecuteKeepsInvariant | internal/controller/singleinstance_controller.go:71-94 | the invariant of all names holds after every run of starts, calls, failures, crashes and user steps |
| Fleet.NoOrphans | internal/utils/finalizer.go:33-80 | after every run from the empty store, a Deployment or Service X has a custom resource X that carries the finalizer |
| Fleet.ChildrenInOrder | internal/controller/singleinstance_controller.go:152-231 | after every run the children are a prefix of ConfigMap, claim, Deployment, Service, except that an instance marked for deletion may have lost its Deployment first |
| Standstill.NeverDeployed | internal/controller/singleinstance_controller.go:152-194 | once a ConfigMap exists without its Deployment and no pass of the name is between the two, no continuation of the run (users, failures, crashes, deletion, re-creation) ever has a Deployment of that name |
| Standstill.NoSecondDeployment | internal/controller/singleinstance_controller.go:152-194 | in particular after every life that ended with the ConfigMap left behind |
| Mounts.MountsNothing | internal/controller/singleinstance_controller.go:208-216 | after every run, the ConfigMap `Xconfig` does not exist; every Deployment X mounts exactly that one, while the `X-config` created with it exists |
| Independence.RunLocal | internal/controller/singleinstance_controller.go:71-94 | an undisturbed pass depends on the keys it owns and changes no others, whichever of its calls fail |
| Independence.RunElsewhere | internal/controller/singleinstance_controller.go:71-94 | after the pass of another name, all keys of a name are as they were |
| Independence.PassesCommute | internal/controller/singleinstance_controller.go:71-94 | undisturbed passes of two names, each with any failures of its own, give the same store in either order, and each ends as it does alone |
| Convergence.PlayIsRun | internal/controller/singleinstance_controller.go:71-94 | an undisturbed pass that does not come to teardown is a function of five cells: its resource and its four children |
| Convergence.SwapPlay | internal/controller/singleinstance_controller.go:305-329 | undisturbed, updateResource puts a child that differs right and then fails; it leaves an equal one alone and goes on; it makes an absent one |
| Convergence.TendRank | internal/controller/singleinstance_controller.go:257-281 | a pass over the children fails exactly if one differs, puts exactly the first such child right, and so lowers the rank by one |
| Convergence.MakingRound | internal/controller/singleinstance_controller.go:152-231 | with ConfigMap, claim and Deployment absent one pass creates them; it settles everything if there is no Service, and fails at a Service that is there |
| Convergence.GoodRound | internal/controller/singleinstance_controller.go:71-94 | on the convergent side a pass fails exactly if the rank is positive and then lowers it by one; at rank zero it settles |
| Convergence.BadRound | internal/controller/singleinstance_controller.go:152-169 | the other side is closed under passes, every pass there fails, and none gains a Deployment that stays |
| Convergence.SettledRound | internal/controller/singleinstance_controller.go:257-281 | the settled state is a fixed point of a successful pass |
| Convergence.GoodPasses | internal/controller/singleinstance_controller.go:71-94 | after n passes on the convergent side the rank is down by n or everything is settled |
| Convergence.BadPasses | internal/controller/singleinstance_controller.go:152-169 | no number of passes leaves the other side |
| Convergence.Converges | internal/controller/singleinstance_controller.go:71-94 | for a stable valid resource, repeated passes settle if and only if the Deployment is there and staying or ConfigMap and claim are both absent; four passes suffice, and pass n fails exactly if n is below the rank |
| Teardown.DeletedAgain | internal/utils/finalizer.go:97-167 | deleting a first part of the targets and then all of them is deleting all of them |
| Teardown.RunCondemned | internal/utils/finalizer.go:33-65 | an undisturbed pass over an instance marked for deletion comes to the deletions and the last write of HandleFinalizer |
| Teardown.CrashedPass | internal/utils/finalizer.go:33-65 | a teardown pass cut short after any number of calls brings nothing to life and leaves the outcome of a whole pass as it was |
| Teardown.TeardownIdempotent | internal/utils/finalizer.go:33-65 | any number of passes cut short anywhere, then one whole pass, leave the same store as that pass alone, and the remaining targets never grow |
| Contents.TeardownOutcome | internal/utils/finalizer.go:33-65 | key by key and field by field: after an undisturbed teardown pass the targets are deleted, the resource has lost the finalizer and nothing else (and is gone if it was the last), every other key is as it was |
| Contents.GuardedTargets | internal/utils/finalizer.go:98-167 | the targets, by `spec.size` itself: claims below it (one if unset, none if negative), Deployment, Service, `Xconfig` |
| Contents.DesiredIff | internal/pkg/kube/deployment.go:22-102 | two resources want the same Deployment exactly if uid and spec are the same, the same Service exactly if uid, ports and type are, the same claim exactly if storage class and pod spec are; the ConfigMap never depends on them |
| Contents.DesiredContent | internal/pkg/kube/service.go:17-46 | each child field by field: names, labels, owner, volume, ports, settings, storage |
| Contents.SettledShows | internal/controller/singleinstance_controller.go:257-281 | a settled store holds, for each child, exactly the content of the stored spec |
| Contents.ConvergesTo | internal/controller/singleinstance_controller.go:257-281 | what repeated passes settle on: the contents of the spec that the resource has had all along |
| Contents.DeploymentFollows | internal/controller/singleinstance_controller.go:332-339 | a Deployment that is there and staying has the resource's spec after a single pass |
| Contents.EditReaches | internal/controller/singleinstance_controller.go:257-281 | after a user's edit of a settled resource, the next pass puts exactly the new spec into the Deployment, reports an error exactly if the spec changed, and from the fourth pass on all children are as the new spec wants them |
| Lifecycle.FirstPass | internal/controller/singleinstance_controller.go:152-231 | for a new instance the first pass succeeds, creates all children, installs the finalizer and settles; no other key changes |
| Contents.FirstPassContents | internal/controller/singleinstance_controller.go:152-231 | and what it leaves: the resource with the user's spec, the finalizer and the annotation, all four children with the contents of that spec |
| Lifecycle.LastPass | internal/utils/finalizer.go:33-65 | the teardown pass removes the resource and exactly the targets, key by key |
| Lifecycle.WholeLife | internal/utils/finalizer.go:97-167 | create, reconcile, delete, reconcile: what exists afterwards is what existed before, the ConfigMap `X-config` and the claim `Xdb` |
| Lifecycle.SecondLifeNeverSettles | internal/controller/singleinstance_controller.go:152-169 | created again after such a life, an instance never settles, however often its pass is repeated |
| InstanceController.SingleInstanceReconciler.Reconcile | internal/controller/singleinstance_controller.go:71-94 | the pass changes the store, and fails or not, exactly as `InstancePass.Run` says, for any doings of others and any failures |
| InstanceController.SingleInstanceReconciler.GetSingleInstance | internal/controller/singleinstance_controller.go:97-108 | reads the resource; an absent one leaves the zero value and no error |
| InstanceController.SingleInstanceReconciler.HandleFinalizer | internal/controller/singleinstance_controller.go:111-132 | nothing without a deletion timestamp; with one, teardown, a second removal and a write of the resource, the first error ending the pass |
| InstanceController.SingleInstanceReconciler.ValidateAndAddFinalizer | internal/controller/singleinstance_controller.go:135-149 | an invalid spec ends the pass without a call; a valid one goes on with the finalizer in memory, and if it had to be added the store holds the very object in memory just afterwards |
| InstanceController.SingleInstanceReconciler.CreateResources | internal/controller/singleinstance_controller.go:152-169 | a Deployment that is read skips the creation; any error on the read starts it, and the first failing Create ends the pass |
| InstanceController.SingleInstanceReconciler.CreateConfigMap | internal/controller/singleinstance_controller.go:172-194 | one Create of `X-config`; an error ends the pass |
| InstanceController.SingleInstanceReconciler.CreatePersistentVolumeClaim | internal/controller/singleinstance_controller.go:197-205 | one Create of `Xdb`; an error ends the pass |
| InstanceController.SingleInstanceReconciler.CreateDeployment | internal/controller/singleinstance_controller.go:208-216 | one Create of the Deployment for the resource in memory; an error ends the pass |
| InstanceController.SingleInstanceReconciler.CreateService | internal/controller/singleinstance_controller.go:219-231 | one Create of the Service, then the status report for the Service created |
| InstanceController.SingleInstanceReconciler.ReportService | internal/controller/singleinstance_controller.go:377-402 | one status write under the version in memory, which then moves on to the version written |
| InstanceController.SingleInstanceReconciler.WatchResource | internal/controller/singleinstance_controller.go:257-281 | annotation, Deployment, Service, ConfigMap in this order, the first error ending the pass |
| InstanceController.SingleInstanceReconciler.UpdateSpecAnnotation | internal/controller/singleinstance_controller.go:284-302 | one version-checked write of the resource with its spec as annotation |
| InstanceController.SingleInstanceReconciler.UpdateResource | internal/controller/singleinstance_controller.go:305-329 | Get, then Update in the version read or Create, then Update with the object read under the desired metadata |
| InstanceController.GreatSqlFinalizer.HandleFinalizer | internal/utils/finalizer.go:33-65 | without a deletion timestamp it does nothing; with one and the finalizer: claims, Deployment, Service, ConfigMap, then the write without the finalizer; the first error ends the pass |
| InstanceController.GreatSqlFinalizer.AddFinalizer | internal/utils/finalizer.go:68-80 | writes the resource with the finalizer unless it has it already; afterwards memory has it, and the store holds what was written |
| InstanceController.GreatSqlFinalizer.RemoveFinalizer | internal/utils/finalizer.go:83-95 | writes the resource without the finalizer if it has it still |
| InstanceController.GreatSqlFinalizer.TakeOff | internal/utils/finalizer.go:55-60 | one version-checked write of the resource without the finalizer; memory follows the store on success |
| InstanceController.GreatSqlFinalizer.FinalizePersistentVolumeClaims | internal/utils/finalizer.go:98-116 | deletes `X-db-0` to `X-db-(size-1)` in order; absent ones are fine, another error ends the pass |
| InstanceController.GreatSqlFinalizer.FinalizeDeployment | internal/utils/finalizer.go:118-133 | one Delete of the Deployment; absent is fine |
| InstanceController.GreatSqlFinalizer.FinalizeService | internal/utils/finalizer.go:135-150 | one Delete of the Service; absent is fine |
| InstanceController.GreatSqlFinalizer.FinalizeConfigMap | internal/utils/finalizer.go:152-167 | one Delete of `Xconfig`; absent is fine |
| ClusterPass.NeverOrdinalTwo | internal/controller/groupreplicationcluster_controller.go:96-109 | no answer brings a pass to ordinal 2; after the StatefulSet of ordinal 1 comes the headless Service or the end |
| ClusterPass.ResumeDescends | internal/controller/groupreplicationcluster_controller.go:65-112 | every answer brings a cluster pass nearer to its end |
| ClusterPass.AskOwned | internal/controller/groupreplicationcluster_controller.go:115-214 | every call of a cluster pass names a key that its cluster owns |
| ClusterCalls.FailsIff | internal/controller/groupreplicationcluster_controller.go:65-214 | a cluster pass fails at an answer if and only if it is an error that the code does not tolerate (NotFound on the resource or a ConfigMap, anything on the read of the StatefulSet), or there is no first member |
| ClusterCalls.SucceedsIff | internal/controller/groupreplicationcluster_controller.go:65-112 | it succeeds if and only if the resource is absent, the StatefulSet is there, or the headless Service is made |
| ClusterCalls.NextCall | internal/controller/groupreplicationcluster_controller.go:65-214 | which call follows which answer, with the keys written out |
| ClusterCalls.FailedSetRead | internal/controller/groupreplicationcluster_controller.go:80-88 | a failed read of the StatefulSet starts the creation at once, whether there is one or not; with the Secret there it ends with an error and no effect |
| ClusterCalls.FailedConfigRead | internal/controller/groupreplicationcluster_controller.go:127-137 | a failed read of the ConfigMap ends the pass at once |
| ClusterCalls.MemberSettings | internal/controller/groupreplicationcluster_controller.go:139-156 | the settings of the first member: server 1, the group name drawn, its host name, and as buffer pool a numeral that is three quarters of the memory request in megabytes |
| ClusterCalls.StatefulSetsEqualIff | internal/pkg/kube/statefulset.go:21-117 | two resources want the same StatefulSet, Service, Secret or claim exactly if they gave its constructor the same |
| ClusterCalls.ChildContents | internal/controller/groupreplicationcluster_controller.go:115-214 | the other children field by field |
| ClusterCalls.FirstPassContents | internal/controller/groupreplicationcluster_controller.go:91-214 | what the first pass over a sized cluster leaves under each key, in terms of the spec |
| ClusterFleet.ExecuteKeepsInvariant | internal/controller/groupreplicationcluster_controller.go:65-112 | the invariant of all cluster names holds after every run |
| ClusterFleet.OneWritingPass | internal/controller/groupreplicationcluster_controller.go:91-132 | after every run at most one pass of a name has created anything, and one has exactly if the Secret exists; the children are a prefix of Secret, ConfigMap 1, claim 1, StatefulSet, headless Service, or of Secret, headless Service |
| ClusterFleet.SizedChildrenPrefix | internal/controller/groupreplicationcluster_controller.go:91-112 | if every written resource gives its first member a size, the children are a prefix of the full list |
| ClusterFleet.NeverCompleted | internal/controller/groupreplicationcluster_controller.go:81-122 | once the pass that created the Secret is over, no continuation of the run changes the children, so what it left out is never created |
| ClusterConvergence.PlayIsRun | internal/controller/groupreplicationcluster_controller.go:65-112 | an undisturbed cluster pass is a function of six cells: its resource and its five children |
| ClusterConvergence.OneRound | internal/controller/groupreplicationcluster_controller.go:65-112 | from any six cells, one pass ends with all five children if and only if they were there or the way was open (sized first member; Secret, claim 1 and StatefulSet absent); otherwise the way is shut afterwards; the verdict of the pass, and what an open way leads to, cell by cell |
| ClusterConvergence.FirstPass | internal/controller/groupreplicationcluster_controller.go:91-214 | with no child there, the first pass over a sized cluster succeeds, and each of the five children holds exactly its own draft |
| ClusterConvergence.CompletesIff | internal/controller/groupreplicationcluster_controller.go:65-112 | from any store, repeated passes reach all five children if and only if all five exist at the start or the way is open; then one pass is enough; a pass fails exactly if its StatefulSet is missing and one of the objects it sets out to create exists, or there is no member |
| ClusterConvergence.CompletableIff | internal/controller/groupreplicationcluster_controller.go:81-122 | after any run with no pass of the name under way, some continuation by users and passes has all five children if and only if they exist already or the Secret does not |
| ClusterController.GroupReplicationClusterReconciler.Reconcile | internal/controller/groupreplicationcluster_controller.go:65-88 | the pass changes the store, and fails or not, exactly as `ClusterPass.Run` says |
| ClusterController.GroupReplicationClusterReconciler.Fetch | internal/controller/groupreplicationcluster_controller.go:70-78 | an absent resource ends the pass without an error, any other error ends it with one |
| ClusterController.GroupReplicationClusterReconciler.FindStatefulSet | internal/controller/groupreplicationcluster_controller.go:80-87 | a StatefulSet that is read ends the pass; any error on the read starts the creation |
| ClusterController.GroupReplicationClusterReconciler.CreateResources | internal/controller/groupreplicationcluster_controller.go:91-112 | Secret, then ConfigMap, claim and StatefulSet for each ordinal from 1 to GetSize of the first member, then the Service; a missing first member ends the pass after the Secret |
| ClusterController.GroupReplicationClusterReconciler.CreateSecret | internal/controller/groupreplicationcluster_controller.go:115-122 | one Create of the Secret; one that exists ends the pass |
| ClusterController.GroupReplicationClusterReconciler.CreateConfigMap | internal/controller/groupreplicationcluster_controller.go:125-163 | keeps a ConfigMap that is read, creates an absent one, ends the pass on any other error |
| ClusterController.GroupReplicationClusterReconciler.CreatePersistentVolumeClaim | internal/controller/groupreplicationcluster_controller.go:166-175 | one Create of the numbered claim |
| ClusterController.GroupReplicationClusterReconciler.CreateStatefulSet | internal/controller/groupreplicationcluster_controller.go:178-201 | one Create of the StatefulSet for this ordinal |
| ClusterController.GroupReplicationClusterReconciler.CreateService | internal/controller/groupreplicationcluster_controller.go:204-214 | one Create of the headless Service, which decides the verdict of the pass |
| BufferPool.Quotient | internal/pkg/mysql/mysql_util.go:15-16 | integer division that truncates toward zero, for both signs |
| BufferPool.WrapUnique | internal/pkg/mysql/mysql_util.go:15-15 | the product is the one int64 that differs from it by a multiple of 2^64 |
| BufferPool.ShareIffFits | internal/pkg/mysql/mysql_util.go:13-17 | for every request from zero up, the setting is three quarters of the request in whole megabytes if and only if the request is at most 122978293824730344 |
| BufferPool.SharesGrow | internal/pkg/mysql/mysql_util.go:13-17 | up to that limit the setting is monotone in the request |
| BufferPool.LimitIsTight | internal/pkg/mysql/mysql_util.go:13-17 | one byte more and the product wraps: the setting is negative |
| BufferPool.RenderedShare | internal/pkg/mysql/mysql_util.go:13-17 | up to the limit the text is a numeral without leading zeros followed by M, and the numeral denotes the share |
| BufferPool.RenderedSigned | internal/pkg/mysql/mysql_util.go:13-17 | for every request the text is a minus if the number computed is negative, its numeral without leading zeros, and M |
| Regex.RegexIsScanner | internal/pkg/mysql/gtid.go:33-35 | for every string the leftmost-first match of the pattern, by backtracking, is what a one-pass scanner finds: the maximal class run before the first fitting colon and the two maximal digit runs after it |
| Regex.LeftmostAndLongest | internal/pkg/mysql/gtid.go:33-38 | a match is found if and only if some part of the text has the form; the match found has it, starts leftmost and is longest from there |
| Regex.ClassesAreLiteral | internal/pkg/mysql/gtid.go:33-34 | the two classes of the pattern, character by character: "0123456789abcdef-" and "0123456789" |
| Gtid.Submatch | internal/pkg/mysql/gtid.go:33-38 | both numeral groups of a match consist of digits |
| Gtid.AcceptedIff | internal/pkg/mysql/gtid.go:27-55 | a text parses to g if and only if, at its first fitting colon, the scanner cuts out the UUID of g and two numerals, leading zeros or not, that denote its start and end |
| Gtid.ErrorsIff | internal/pkg/mysql/gtid.go:29-48 | exactly the texts "0" and "1" give the first error; every other error names the text |
| Gtid.RoundTrip | internal/pkg/mysql/gtid.go:27-55 | `uuid:start-end` parses back to its fields for every non-empty UUID over the characters "0123456789abcdef-" and all bounds below 2^63, also before text that starts with no digit and after colon-free text that ends in none of these characters |
| Gtid.LaterMatchDoesNotHelp | internal/pkg/mysql/gtid.go:40-48 | for every text, a first match with a numeral that denotes 2^63 or more, leading zeros or not, is an error, whatever stands before and after it |
| GtidMax.CompareGTIDs | internal/pkg/mysql/gtid.go:58-71 | the loop returns the left-biased fold of `Better` |
| GtidMax.GetMaxGTIDMember | internal/pkg/mysql/gtid.go:74-89 | the loop returns `Best`: the first error or the winner of the entries with a non-zero end |
| GtidMax.BestIsHomomorphic | internal/pkg/mysql/gtid.go:58-89 | the result for a concatenation is the combination of the results for its parts, with the zero GTID as identity |
| GtidMax.BestIsChoice | internal/pkg/mysql/gtid.go:58-89 | the result is the first unparseable text's error, or the first entry of maximal non-zero end, or zero if all ends are zero |
| GtidMax.ChoiceIsUnique | internal/pkg/mysql/gtid.go:58-89 | there is only one such result |
| GtidMax.BestIff | internal/pkg/mysql/gtid.go:74-89 | a value is the result if and only if it is that choice |
| GtidMax.ZeroOrOneFails | internal/pkg/mysql/gtid.go:30-32 | one text "0" or "1" anywhere makes the whole call fail |
| DeepCopy.CopyCell | api/v1/zz_generated.deepcopy.go:185-189 | a set pointer is copied to a new cell with the same value, nil stays nil |
| DeepCopy.CopySlice | api/v1/zz_generated.deepcopy.go:32-36 | a slice is copied to a new one with the same elements in order, nil stays nil |
| DeepCopy.CopyText | api/v1/zz_generated.deepcopy.go:283-288 | a map is copied to a new map with the same entries, in whatever order the keys come; nil stays nil |
| DeepCopy.CopyMember | api/v1/zz_generated.deepcopy.go:183-190 | same role and size, the size in a new cell |
| DeepCopy.CopyMembers | api/v1/zz_generated.deepcopy.go:127-133 | a new slice with equal members in order, each size in a new cell of its own, even where the original shares one |
| DeepCopy.CopyAffinity | api/v1/zz_generated.deepcopy.go:256-263 | equal, and all of it new |
| DeepCopy.CopyContainer | api/v1/zz_generated.deepcopy.go:30-53 | equal pull secrets, security context and environment in new slices and a new cell |
| DeepCopy.CopyContainerInto | api/v1/zz_generated.deepcopy.go:322-327 | one turn of the loop: the new element is equal and new, the earlier ones stay as they are |
| DeepCopy.CopyContainers | api/v1/zz_generated.deepcopy.go:322-327 | a new slice with equal containers in order, and everything in them new |
| DeepCopy.CopyMaps | api/v1/zz_generated.deepcopy.go:283-303 | annotation, labels and node selector equal, in new maps |
| DeepCopy.CopyLeaves | api/v1/zz_generated.deepcopy.go:304-333 | tolerations, grace period, security context and claim template equal and new |
| DeepCopy.CopyPod | api/v1/zz_generated.deepcopy.go:276-333 | equal in affinity, three maps, tolerations, grace period, security context, containers and claim template, and all of these new |
| DeepCopy.CopyRolling | api/v1/zz_generated.deepcopy.go:363-375 | equal, and all of it new |
| DeepCopy.CopyStrategy | api/v1/zz_generated.deepcopy.go:546-553 | equal, and all of it new |
| DeepCopy.CopyPodAt | api/v1/zz_generated.deepcopy.go:225-229 | equal behind a new pointer, nil stays nil |
| DeepCopy.CopyCluster | api/v1/zz_generated.deepcopy.go:223-243 | pod spec, ports and update strategy equal and new |
| DeepCopy.CopyClusterAt | api/v1/zz_generated.deepcopy.go:134-138 | equal behind a new pointer, nil stays nil |
| DeepCopy.CopyExpose | api/v1/zz_generated.deepcopy.go:408-429 | equal source ranges, annotations and labels in a new slice and new maps |
| DeepCopy.CopyProxy | api/v1/zz_generated.deepcopy.go:346-350 | equal, and all of it new |
| DeepCopy.CopyProxyAt | api/v1/zz_generated.deepcopy.go:139-143 | equal behind a new pointer, nil stays nil |
| DeepCopy.CopySwitch | api/v1/zz_generated.deepcopy.go:144-153 | equal behind a new pointer, nil stays nil |
| DeepCopy.CopyRest | api/v1/zz_generated.deepcopy.go:134-153 | all parts but the members equal and new |
| DeepCopy.CopySpec | api/v1/zz_generated.deepcopy.go:125-154 | the copy reads the same as the original did, everything reachable from it is newly allocated, and its size cells are shared with nothing, not even with each other |
| DeepCopy.SpecKept | api/v1/zz_generated.deepcopy.go:125-154 | what is reachable from a spec is all it depends on: while nobody writes there, it reads the same |
| Webhook.GroupReplicationCluster.DeepCopy | api/v1/zz_generated.deepcopy.go:66-82 | a new object with an equal spec that shares nothing with the original |
| Webhook.GroupReplicationCluster.Default | api/v1/groupreplicationcluster_webhook.go:46-60 | exactly if no other member and no update strategy points to the second size cell, the effect is that of `Defaulted`: the second size goes up by one in int32 arithmetic, or is set to three if unset, and nothing else changes; the cell stays unshared |
| Webhook.SharedShown | api/v1/groupreplicationcluster_webhook.go:46-60 | a shared size cell is read a second time, by another member or as the partition of the update strategy, so a write to it shows there |
| Webhook.DefaultOnCopy | api/v1/groupreplicationcluster_webhook.go:46-60 | any number of calls on a deep copy leaves the original as it was and gives the copy the value of as many applications of `Defaulted` |
| Webhook.RepeatedRaises | api/v1/groupreplicationcluster_webhook.go:46-60 | k calls, k from one up, make the second size s+k, or k+2 if it was unset, modulo the int32 wrap, and change nothing else |
| Webhook.SameAfter | api/v1/groupreplicationcluster_webhook.go:46-60 | j and k calls have the same effect if and only if there is no second member or j and k differ by a multiple of 2^32 |
| Webhook.IdempotentIff | api/v1/groupreplicationcluster_webhook.go:46-60 | the call is idempotent if and only if there is no second member |

## Left out

- DeepCopy.CopyPod: a toleration, a security context and a claim template are values of library types and opaque here; that the copy has its own slice and its own pointers is proved, what lies inside such a value is copied by the library.
- DeepCopy.CopyContainer: likewise for environment variables, the security context, probes and resources.
- DeepCopy.CopyCluster: likewise for the elements of ports.
- DeepCopy.CopySpec: so its isolation ends at those values.
- Lists and `DeepCopyObject`, `Storage` and the copy of the SingleInstance: more of the same shape.
- The informer cache: reads are modelled as reads of the store itself.
- What the server does beyond versions and finalizers: validating object contents, defaulting, immutable fields, garbage collection by owner reference, other controllers that edit children.
- The contents of the kube constructors, the ConfigMap template and the status: opaque values of their inputs. `resource.Quantity`, `GetServiceAccessPoint` and pod affinity go with them.
- Nil claim template, nil `ClusterSpec` or update strategy and empty container lists: the code dereferences these without a check and would panic; resources are assumed to have them. An empty member list is modelled, as a pass that fails at the index.
- The random group name of a cluster and the creation time of a Service: the first is a parameter of the pass, the second is part of the opaque status.
- Names are assumed to be DNS-1123 subdomains of at most 253 characters, where the server would refuse others. The stricter rules for the names of Services and the limits on derived names are not modelled.
- Decoding of UTF-8: GTID texts are sequences of characters, and both classes of the pattern are ASCII.
- `initializeCluster` and the SQL client, logging, events, command line and manifests.
