# Cox Edge infrastructure provider: a verified model

The provider drives Cox Edge from two level-triggered reconcilers. The CoxMachine reconciler
creates one workload per machine through an asynchronous task, follows it until its instance
runs, and deletes it again. The CoxCluster reconciler keeps two load balancers, which are ordinary
workloads whose configuration lives in two environment variables, in line with the machines, and
publishes the control-plane endpoint. Both know their cloud objects only by a name cut to 18 bytes.

The model is in four layers.

- Values. `Strings`, `Sorting`, `Numbers` and `Naming` hold the string work. `Cloud`,
  `LoadBalancer` and `ProviderID` hold the workload list, the codec and the node search.
  `ClusterPass` and `MachinePass` state one pass of each reconciler as a function.
- Objects. `ClusterController` and `MachineController` are the reconcilers as they are written:
  objects whose fields change between calls, nested search loops with `continue` and `break`,
  arrays sorted in place under aliases. Each method is proved equal to its pass function.
- Passes. `Backends`, `ClusterMeaning` and `MachineMeaning` say what one pass does in plain terms:
  labels and addresses, spec fields, stored variables, instances, nodes and call answers.
- Runs. `ClusterRuns`, `Alignment`, `Convergence`, `ClusterCreation`, `ClusterDeletion`, `Collision`
  and `ClusterPanics` for the cluster, `MachineFrames`, `MachineSafety`, `MachineProgress`,
  `MachineBounds`, `MachineLimits`, `MachineDeletion` and `MachineOrphans` for the machine: what holds
  over every run, how soon a run gets there, exactly when a step does what, and which runs show
  that a guard is needed.

## What the environment may do

Machine passes. Before every call of a pass any list of environment events may happen: tasks move,
workloads are listed, vanish or finish deletion, instances and nodes change, the user requests
deletion. Every call may be served, refused, or carried out with its reply lost, and so may the
patch that closes the pass. Passes on one machine are serial. The cloud gives out each task and
workload id once, and no workload id contains `coxedge://`; a task ends at most once; its
workload is listed at most once, before the task turns SUCCESS if it does, and possibly after it
turned FAILURE; no foreign workload has the
machine's shortened name; a 404 is answered exactly for a workload that is not listed. The API server
owns the deletion mark and removes a deleting machine once its finalizer is off.

Two marks of the history record when the controller itself lost sight of a workload. `untracked`
is set when an accepted create does not end with its task id in the stored machine.
`MachineOrphans.UntrackedMeaning` says exactly when a pass sets it: the reply was lost, the task id
is empty, the closing patch was refused, or the deletion was requested during the very first pass,
before the finalizer is stored. `vanished` is set when a workload of the machine leaves the list
without an accepted delete. Create-once needs both marks unset; never-orphan needs `untracked`
unset and at most one create, which an unset `vanished` implies. `MachineLimits` and
`MachineOrphans` show with runs that they fail without these guards, and `CreateMeaning` and
`OrphanMeaning` say exactly when a pass creates and what a release leaves behind.

Cluster passes. The cloud moves between passes only, but every call of a pass may fail with any
error, and so may the patch that closes it; a call that fails has had no effect. An accepted create
is listed at once and a PUT takes effect at once. Instances change, foreign workloads appear (under
any name) and workloads vanish at any time between passes.

A Go panic is an outcome of the model, not a precondition: a slice bound in `shortenName`, a
missing deployment, a nil load balancer or a nil error. A panicking pass keeps what it had
assigned. A Go string is a sequence of bytes and one `char` stands for one byte.

## What the proofs show about the code

- Deleting a load balancer that is not there is an error, although `DeleteLoadBalancer` and
  `UpdateLoadBalancer` are written as if not-found were success: `ErrWorkloadNotFound` is not an
  apimachinery error, so that branch is dead. A cluster with a missing load balancer is never
  released (`ClusterDeletion.DeletionStuck`).
- Creation leaves half a cluster exactly when one of the two creates is accepted and the other
  refused: with a panic (the message is read off the nil first error) when the second is refused,
  without one when the first is. No later pass creates, publishes or releases anything
  (`ClusterCreation.HalfCreation`, `HalfCreationForever`).
- One failed lookup is enough for a panic: with both load balancers there, a pass that cannot read
  the control-plane one but can read the other dereferences nil. `ClusterPanics.PanicMeaning` says
  exactly when a pass panics.
- The two load-balancer names fall together when the last dash segment of the base name has 15 to
  17 bytes, and shortening panics from 18 bytes on (`Naming.LoadBalancerNamesSeparated`). On
  such a cluster every served pass issues an update, at most every second one publishes, and
  deletion takes the finalizer off while a second workload stays behind
  (`Collision.CollisionChurns`, `CollisionPublishesHalf`, `DeletionLeaks`).
- The loop converges exactly for backends without `;`, since the list is stored joined by it, whose
  base name keeps the two names apart or whose two roles want the same backends
  (`Convergence.Convergence`).
- Half a deletion sticks: when one delete is accepted, the other refused, and the deleted workload
  goes away, the load balancer that was deleted is the one the next pass misses
  (`ClusterDeletion.HalfDeletionSticks`).
- A worker backend may be the placeholder string itself, so the last requeue check can be met with
  workers present (`Backends.WorkerPlaceholder`).
- A failed task keeps a machine being deleted exactly when no workload of it is listed and it was
  never located: for good if the workload has been listed before, and until it is listed otherwise
  (`MachineDeletion.FailureKeepsForever`, `ReleaseMeaning`).
- A release leaves a workload behind exactly when it is neither settled nor the first listed one of
  the machine's name. That happens without any lost create too: when a located workload vanishes,
  a second one is created, and the machine is deleted before that one is listed, the kept
  provider id makes the delete pass believe that nothing started
  (`MachineOrphans.OrphanMeaning`, `VanishedOrphan`).
- A pass creates exactly when no workload of the machine's name is listed and the machine has a
  provider id or no task id (`MachineLimits.CreateMeaning`, `CalmCreate`). So a workload that
  vanishes puts a located machine back on the create path; its task is then never polled and each
  pass creates once more until one is listed (`MachineLimits.CreatesWithoutBound`).
- `Status.Ready` is never withdrawn, neither from a machine (`MachineProgress.ReadyStays`) nor from
  a cluster (`ClusterRuns.ReadyStays`).

## Model

| member | source | states |
|---|---|---|
| Strings.JoinSplit | pkg/cloud/coxedge/loadbalancer.go:200-207 | joining the pieces of a split gives back every string |
| Strings.SplitJoin | pkg/cloud/coxedge/loadbalancer.go:127-136 | splitting undoes joining exactly on the non-empty lists whose elements are free of the separator |
| Sorting.LeqMeaning | controllers/coxcluster_controller.go:293-294 | the order of strings is that of their bytes: a prefix first, else the smaller first differing byte |
| Sorting.SortedMeaning | controllers/coxcluster_controller.go:293-294 | sorting arranges the same elements in order |
| Sorting.SortedByBytes | controllers/coxcluster_controller.go:307-308 | of two elements of a sorted list, the earlier is a prefix of the later or smaller at the first byte in which they differ |
| Sorting.SortedUnique | controllers/coxcluster_controller.go:293-295 | two sorted lists of the same elements are equal |
| Sorting.SortedEqualIffSameMultiset | controllers/coxcluster_controller.go:293-295 | comparing sorted lists is comparing multisets: the sorted arrangement is unique |
| Sorting.SortStrings | controllers/coxcluster_controller.go:293-294 | the in-place sort leaves the sorted arrangement in the array every alias shares |
| Naming.ShortenNameMeaning | pkg/cloud/coxedge/client.go:252-269 | when shortening panics, the length of its result, and which bytes are kept |
| Naming.ShortenKeepsLastSegment | pkg/cloud/coxedge/client.go:263-268 | the last dash segment survives shortening whole |
| Naming.ShortenIdempotent | pkg/cloud/coxedge/client.go:252-269 | shortening a shortened name changes nothing |
| Naming.ShortenCollision | pkg/cloud/coxedge/client.go:252-269 | two over-long dashed names collide exactly when they share the last segment and the leading bytes left beside it |
| Naming.LoadBalancerNamesSeparated | controllers/coxcluster_controller.go:414-428 | both names can be shortened iff the last segment of the base name has at most 17 bytes, and differ iff it has at most 14 |
| Cloud.FindByNameMeaning | pkg/cloud/coxedge/client.go:84-89 | a found workload is listed under that name; nothing is found iff no workload has the name |
| Cloud.FindByNameAt | pkg/cloud/coxedge/client.go:84-88 | the workload found is the first of that name |
| Cloud.ScanByName | pkg/cloud/coxedge/client.go:82-89 | the search loop is the first-match lookup of the shortened name, and not-found means that no workload has it |
| Cloud.LookupAgain | pkg/cloud/coxedge/client.go:77-90 | a found workload is found again under its own, possibly shortened, name |
| LoadBalancer.CodecRoundTrip | pkg/cloud/coxedge/loadbalancer.go:197-220 | in either order of the two variables, decoding returns the encoded backends (ports) iff the list is non-empty and free of `;` (of `,`) |
| LoadBalancer.GetAfterCreate | pkg/cloud/coxedge/loadbalancer.go:58-106 | Get after an accepted Create finds the new workload and decodes what was created, exactly when separator-free |
| LoadBalancer.UpdateMeaning | pkg/cloud/coxedge/loadbalancer.go:108-142 | an update under the existing name hits the workload Get compared, keeps its name, image, placement and ports, and touches no other |
| LoadBalancer.GetAfterUpdate | pkg/cloud/coxedge/loadbalancer.go:117-141 | Get after Update returns the new backends (iff `;`-free) and everything else as stored, whatever ports the payload asked for |
| LoadBalancer.GetOtherAfterUpdate | pkg/cloud/coxedge/loadbalancer.go:108-142 | updating one load balancer does not change what Get reads of a differently named one |
| LoadBalancer.LookupEnvMeaning | pkg/cloud/coxedge/loadbalancer.go:200-207 | of several variables of one key the last decides |
| LoadBalancer.GetReads | pkg/cloud/coxedge/loadbalancer.go:160-220 | what Get reads of a found workload, field by field: name, image, first placement, the two split variables, the last RUNNING address, and the number of RUNNING instances |
| LoadBalancer.RunningIPMeaning | pkg/cloud/coxedge/loadbalancer.go:160-195 | the public address is that of the last RUNNING instance, and is non-empty only with a running count of at least one |
| LoadBalancer.RunningCountMeaning | pkg/cloud/coxedge/loadbalancer.go:160-195 | the running count is the number of positions holding a RUNNING instance |
| Numbers.AtoiMeaning | controllers/coxcluster_controller.go:336-339 | Atoi reads v exactly from the decimal notations of v within 64 bits, with any leading zeros and an optional sign |
| Numbers.Int32 | controllers/coxcluster_controller.go:342 | the published port is congruent to the parsed number modulo 2^32 and equal to it when it fits |
| ClusterRuns.DefaultPort | controllers/coxcluster_controller.go:213-216 | a spec without ports asks for the port list that is published as 6443 |
| Backends.ControlPlaneContribution | controllers/coxcluster_controller.go:162-178 | what one machine contributes: its first external address with port 6443 iff it is labelled for the cluster and as a control-plane machine, else nothing |
| Backends.WorkerContribution | controllers/coxcluster_controller.go:179-203 | what one machine contributes: its first internal address with each configured port in order, or port 80, iff it is labelled for the cluster and with a deployment, else nothing |
| Backends.InListOrder | controllers/coxcluster_controller.go:162-203 | both lists are the contributions of the machines in list order and nothing else |
| Backends.ControlPlaneMembers | controllers/coxcluster_controller.go:162-178 | who is a control-plane backend, both ways, in terms of labels and address indices |
| Backends.WorkerMembers | controllers/coxcluster_controller.go:179-203 | who is a worker backend, both ways, in terms of labels, address indices and configured ports |
| Backends.WorkerBackendCount | controllers/coxcluster_controller.go:179-203 | workers with an internal address times the number of ports (or one) |
| Backends.DesiredPermutation | controllers/coxcluster_controller.go:162-211 | any permutation of the machine list yields the same multisets of desired backends |
| Backends.ControlPlanePlaceholder | controllers/coxcluster_controller.go:204-207 | after the aliasing sort the first apiserver address is the placeholder iff no control-plane machine of the cluster has an external address (also lines 348-354) |
| Backends.WorkerPlaceholder | controllers/coxcluster_controller.go:208-211 | the worker check holds iff there is no worker backend, or the placeholder string is one and is the least (also lines 356-362) |
| Alignment.UpdateDecision | controllers/coxcluster_controller.go:291-317 | an update is issued iff stored and desired backends differ as multisets, and then rewrites just the compared workload |
| Alignment.AlignedStores | controllers/coxcluster_controller.go:291-303 | after an alignment the load balancer is still found and stores the desired backends iff they are `;`-free |
| Alignment.SettledIsQuiet | controllers/coxcluster_controller.go:259-317 | once both store the desired backends a pass leaves the cloud alone, whichever calls fail |
| Alignment.EnsureSettles | controllers/coxcluster_controller.go:259-317 | a pass that created or aligned both separately named load balancers settles the cloud iff no backend contains `;` |
| Alignment.PassUpdatesUnlessSettled | controllers/coxcluster_controller.go:290-317 | a fully served pass issues no update iff the cloud is settled |
| Alignment.QuietForever | controllers/coxcluster_controller.go:153-317 | from a settled cloud, every run over the same machines in any order, with failures and foreign workloads, leaves both load balancers untouched |
| Convergence.AlignedSettles | controllers/coxcluster_controller.go:259-317 | a pass that created or aligned both load balancers leaves a settled cloud iff no backend contains `;` and the names are different or both roles want the same backends |
| Convergence.Convergence | controllers/coxcluster_controller.go:153-317 | from any reachable state, after a pass that created or aligned both: no later run updates or creates if all backends are `;`-free and the last segment of the base name has at most 14 bytes or both lists are equal; if not, the next served pass updates again |
| ClusterRuns.PublicationMeaning | controllers/coxcluster_controller.go:319-345 | a publishing pass writes the last RUNNING instance's address and the port the load balancer was created with |
| ClusterRuns.RunKeepsInvariant | controllers/coxcluster_controller.go:96-145 | over every run, with any answers to calls and closing patches: ids are unique, stored ports stay as created, and a ready cluster carries its last persisted publication |
| ClusterRuns.EndpointPortStable | controllers/coxcluster_controller.go:335-343 | over every run, spec edits included, one load balancer's publications carry one port, the first it was created with, and 6443 for the default list |
| ClusterRuns.ReadyMeaning | controllers/coxcluster_controller.go:319-346 | over every run, Ready implies a non-empty host that was the public address of the last RUNNING instance when it was read |
| ClusterRuns.ReadyStays | controllers/coxcluster_controller.go:345-346 | along every continuation a ready cluster stays ready |
| ClusterDeletion.RemovedMeaning | controllers/coxcluster_controller.go:372-390 | the finalizer goes iff every call was served and both load balancers were found; both then have an accepted delete |
| ClusterDeletion.FinalizerSafety | controllers/coxcluster_controller.go:372-390 | over every run, a step takes the finalizer off iff it is a fully served delete pass that finds both load balancers; that very pass has both deletes accepted and changes nothing else, and they are two workloads iff the last segment of the base name has at most 14 bytes |
| ClusterDeletion.DeletionStuck | pkg/cloud/coxedge/loadbalancer.go:144-158 | with one load balancer missing no run of delete passes ever removes the finalizer |
| ClusterDeletion.DeletesMeaning | controllers/coxcluster_controller.go:372-390 | both deletes are sent whatever the first returns, and each is accepted on its own |
| ClusterDeletion.HalfDeletionSticks | controllers/coxcluster_controller.go:372-390 | after any run, a delete pass with one delete accepted and one refused, whose workload then goes away, is never followed by a release |
| ClusterCreation.FirstPassCreates | controllers/coxcluster_controller.go:259-288 | with neither load balancer there and both creates accepted, the first pass creates both, found again under the ids given, and the cloud is settled at once iff no desired backend contains `;` |
| ClusterCreation.SettledPublishes | controllers/coxcluster_controller.go:319-346 | a served pass over a settled cloud makes the cluster ready, with that address and port, iff a RUNNING instance has an address and the first stored port parses |
| ClusterCreation.ReadyInTwoPasses | controllers/coxcluster_controller.go:147-370 | a creating pass, a running instance, and one served pass over the same machines in any order make an untouched cluster ready |
| ClusterCreation.HalfCreation | controllers/coxcluster_controller.go:270-288 | the outcome by the two answers, exactly (created, failed, panicked), and just one load balancer is left iff exactly one create was accepted |
| ClusterCreation.HalfCreationWedges | controllers/coxcluster_controller.go:259-309 | from half a cluster no run of passes or delete passes creates, publishes, changes readiness or releases |
| ClusterCreation.HalfCreationForever | controllers/coxcluster_controller.go:259-309 | from an untouched cluster, after any run, a creating pass with one of the two creates refused ends there for good |
| Collision.CollidingAligns | controllers/coxcluster_controller.go:290-346 | one served pass over a colliding cluster: it always updates, swaps whose backends are stored, and publishes iff it started with the control plane's, an address and a port |
| Collision.CollisionChurns | controllers/coxcluster_controller.go:290-317 | over every run of served passes on a base name of 15 to 17 bytes with differing backends, every pass updates |
| Collision.CollisionPublishesHalf | controllers/coxcluster_controller.go:290-346 | and of n such passes over the same machines at most half, rounded up, publish |
| Collision.CollidingCreation | controllers/coxcluster_controller.go:259-288 | the first pass still creates two workloads, both names then lead to the first, and it stores the control plane's backends |
| Collision.DeletionLeaks | controllers/coxcluster_controller.go:372-390 | creation and a served deletion of such a cluster take the finalizer off and leave the worker workload listed and never deleted |
| ClusterMeaning.CreatedReadback | controllers/coxcluster_controller.go:204-258 | at the end of a creating pass, under "lb-..." and "lbworker-...": each its own placement, the configured or default image and ports, and the backends or the placeholder (also lines 414-428) |
| ClusterMeaning.DesiredSpecs | controllers/coxcluster_controller.go:213-258 | the two desired load balancers, field by field, over the fields of the CoxCluster |
| ClusterMeaning.PublishedOutcome | controllers/coxcluster_controller.go:347-369 | a publishing pass answers "no apiserver" iff no control-plane machine of the cluster has an external address, else "no worker" iff there is no worker backend or the placeholder is the least, else success |
| ClusterMeaning.ServedOutcomes | controllers/coxcluster_controller.go:290-346 | how a pass ends that read both load balancers, completely: which failing call decides, when it waits, and what it writes |
| ClusterMeaning.GetAnswer | pkg/cloud/coxedge/loadbalancer.go:44-56 | which answer a lookup gives: the failed call, the missing workload, no load balancer, or one |
| ClusterMeaning.UnreadOutcomes | controllers/coxcluster_controller.go:259-270 | a failed list of machines, and lookups that both failed, end the pass with that error and change nothing (also lines 157-161) |
| ClusterMeaning.CreateAnswer | pkg/cloud/coxedge/client.go:148-158 | which answer a create gives, and that only an accepted one changes the cloud |
| ClusterMeaning.CreateFailure | controllers/coxcluster_controller.go:270-276 | a refused first create is what the pass reports |
| ClusterMeaning.DeleteWorkloadAnswer | pkg/cloud/coxedge/client.go:160-173 | the read comes first: an unlisted workload is a 404 and nothing is posted |
| ClusterMeaning.DeleteAnswer | pkg/cloud/coxedge/loadbalancer.go:144-158 | which answer the delete of one load balancer gives |
| ClusterMeaning.DeletionOutcome | controllers/coxcluster_controller.go:372-390 | both deletes are sent in order and the first failure is reported |
| ClusterPanics.GetPanics | pkg/cloud/coxedge/loadbalancer.go:44-56 | GetLoadBalancer panics iff the name cannot be shortened or a found load balancer has no deployment |
| ClusterPanics.PanicMeaning | controllers/coxcluster_controller.go:259-346 | when a pass panics, exactly, over what the lookups read, the answers of the calls, the wanted backends and the stored ports |
| ClusterPanics.FailedLookupPanics | controllers/coxcluster_controller.go:259-291 | a failed lookup of the control-plane load balancer beside a good one of the worker's panics |
| Strings.RemoveAllFirst | pkg/cloud/coxedge/scope/machine.go:151-154 | the first occurrence goes and the search continues behind it |
| ProviderID.ProviderIDRoundTrip | pkg/cloud/coxedge/scope/machine.go:144-154 | the workload id read back has lost every non-overlapping `coxedge://`, and is the id set iff it contained none |
| ProviderID.FirstMatchIsLeast | pkg/cloud/coxedge/scope/machine.go:199-226 | the node selected is the least-index one with an internal address of the machine, and none iff there is none |
| ProviderID.PatchNodesMeaning | pkg/cloud/coxedge/scope/machine.go:187-241 | at most that node is patched, all others are unchanged, and a second call changes nothing |
| MachineMeaning.StoppedMeaning | controllers/coxmachine_controller.go:175-217 | gates shut, or no answer from the list: the finalizer is stored and nothing else happens |
| MachineMeaning.ByNameMeaning | controllers/coxmachine_controller.go:311-358 | a listed workload is found by name: the whole state afterwards - provider id, the two addresses of the first instance, readiness, the one patched node - for each answer of the calls (also lines 514-516) |
| MachineMeaning.ByTaskMeaning | controllers/coxmachine_controller.go:497-513 | otherwise the task is polled, its status stored, and SUCCESS, FAILURE and anything else lead on, err and wait |
| MachineMeaning.CreatingMeaning | controllers/coxmachine_controller.go:222-299 | otherwise a workload is created: the whole state afterwards for each answer |
| MachineMeaning.BecomesReady | controllers/coxmachine_controller.go:311-358 | under every interleaving, readiness is only written by a pass whose list, instances and node calls were all answered |
| MachineMeaning.DeletingUnlocated | controllers/coxmachine_controller.go:361-379 | a delete pass that locates nothing: it errs, or releases at once when there is nothing to poll |
| MachineMeaning.DeletingByName | controllers/coxmachine_controller.go:381-405 | a delete pass over a listed workload: the whole state afterwards for each answer of the three calls |
| MachineMeaning.DeletingByTask | controllers/coxmachine_controller.go:361-405 | a delete pass that has to poll the task: the whole state afterwards (also lines 497-513) |
| MachineSafety.LocateHolds | controllers/coxmachine_controller.go:485-518 | under any interleaving, what each answer of reconcileWorkload guarantees while no create is untracked and at most one was accepted: "located" means that workload, "not started" that nothing is left to lose |
| MachineSafety.RunHolds | controllers/coxmachine_controller.go:105-405 | the lifecycle invariant holds after every run |
| MachineSafety.CreateOnce | controllers/coxmachine_controller.go:222-299 | over every interleaving at most one create is accepted, while none lost its task id and none vanished (also lines 485-518) |
| MachineSafety.NeverOrphan | controllers/coxmachine_controller.go:361-405 | while no create is untracked and at most one was accepted: once the machine is gone, every workload created for it has an accepted delete or has come and gone (also lines 485-518) |
| MachineSafety.MachineTracksWorkload | controllers/coxmachine_controller.go:485-518 | while no create is untracked and exactly one was accepted, the stored machine holds the finalizer and its task, and its provider id, once set, names the created workload |
| MachineProgress.ReadyMeaning | controllers/coxmachine_controller.go:311-358 | over every run, Ready implies a `coxedge://` provider id and exactly the two addresses of an instance observed RUNNING |
| MachineProgress.ReadyStays | controllers/coxmachine_controller.go:354-358 | along every continuation a ready machine stays ready while it exists |
| MachineBounds.SmoothPass | controllers/coxmachine_controller.go:199-358 | what a pass with open gates and served calls can come to in a healthy cloud |
| MachineBounds.Progress | controllers/coxmachine_controller.go:199-358 | over any run, failing passes included, that lost nothing: a machine not yet ready has spent every served pass but at most one on an unfinished task, on an instance not running or without an internal address, or on a create not accepted (also lines 485-518) |
| MachineBounds.FailedPass | controllers/coxmachine_controller.go:508-513 | with a failed task, no listed workload and no provider id, a pass during which the workload is not listed for the first time neither creates nor releases |
| MachineBounds.FailedForever | controllers/coxmachine_controller.go:305-308 | along every continuation of that state, until the workload is listed for the first time, there is no second create and no release; for good if it has been listed already (also lines 376-378, 508-513) |
| MachineDeletion.FailureReached | controllers/coxmachine_controller.go:508-513 | a fresh machine whose create is accepted and whose task then fails is in that state |
| MachineDeletion.LostFailureReached | controllers/coxmachine_controller.go:508-513 | so is one whose workload is listed and gone before a pass sees it, and there it is for good |
| MachineDeletion.FailureKeepsForever | controllers/coxmachine_controller.go:361-405 | a deleting machine whose task failed is kept by one undisturbed pass iff it is in that state, by every run iff moreover its workload has been listed; otherwise a releasing run lists it first, and listing it does let the next pass release |
| MachineDeletion.ReleaseMeaning | controllers/coxmachine_controller.go:361-405 | an undisturbed delete pass releases the machine iff its name can be shortened and its workload is listed, or it has a provider id, or no task, or a SUCCESS task (also lines 485-518) |
| MachineDeletion.ServedDeletePass | controllers/coxmachine_controller.go:361-405 | with the cloud moving between its calls, a served delete pass polls, or loses its workload between two calls, or releases; having lost it, the next one releases |
| MachineDeletion.DeletionProgress | controllers/coxmachine_controller.go:361-405 | from a fresh machine and any run, any number of creates and failing passes included: a machine still being deleted has spent every served pass polling, but at most one per workload created (also lines 485-518) |
| MachineLimits.CreateMeaning | controllers/coxmachine_controller.go:185-299 | under every interleaving and every answer, when a pass has a create accepted, exactly (also lines 485-500) |
| MachineLimits.CalmCreate | controllers/coxmachine_controller.go:222-299 | an undisturbed pass creates iff no workload of the name is listed and the machine has a provider id or no task (also lines 491-497) |
| MachineOrphans.UntrackedMeaning | controllers/coxmachine_controller.go:282-299 | over every run, exactly when a pass loses the task id of a create: an accepted create with a lost reply, an empty id, a refused closing patch, or a deletion requested before the finalizer is stored (also lines 161-182) |
| MachineOrphans.OrphanMeaning | controllers/coxmachine_controller.go:361-405 | an undisturbed releasing delete pass leaves everything taken care of iff every created workload was so before or is the first listed of its name (also lines 485-518) |
| MachineOrphans.ForgottenReached | controllers/coxmachine_controller.go:491-493 | a fresh machine that is located and loses its workload gets to the forgotten state with no create untracked |
| MachineOrphans.VanishedOrphan | controllers/coxmachine_controller.go:366-369 | from there a second, tracked create and a deletion before its workload is listed release the machine and leave that workload (also lines 491-493) |
| MachineLimits.VanishingForgets | controllers/coxmachine_controller.go:491-493 | a vanished workload puts a located machine back on the create path |
| MachineLimits.ForgottenPass | controllers/coxmachine_controller.go:222-299 | in that state every undisturbed pass creates once more and stays in it (also lines 491-493) |
| MachineLimits.CreatesWithoutBound | controllers/coxmachine_controller.go:222-299 | n such passes create n workloads: create-once needs its guard (also lines 491-493) |
| MachineLimits.ReadyInTwoPasses | controllers/coxmachine_controller.go:199-358 | the bound of Progress is reached: two undisturbed passes with the workload listed and running in between make any fresh machine ready |
| MachineLimits.FirstPassOrphans | controllers/coxmachine_controller.go:161-182 | a deletion during the creating first pass leaves the workload behind: never-orphan needs its guard (also lines 298-299) |
| MachineLimits.LostCloseCreatesTwice | controllers/coxmachine_controller.go:161-166 | a refused closing patch after a create leads to a second create (also lines 298-299) |
| MachineController.CoxMachine.SetProviderID | pkg/cloud/coxedge/scope/machine.go:144-149 | sets the provider id and no other field |
| MachineController.CoxMachine.SetAddresses | pkg/cloud/coxedge/scope/machine.go:161-164 | sets the addresses and no other field |
| MachineController.SelectNode | pkg/cloud/coxedge/scope/machine.go:199-222 | the map and the nested loops with two breaks find the first node with an internal address of the machine |
| MachineController.Platform.SetNodeProviderID | pkg/cloud/coxedge/scope/machine.go:186-241 | the node list becomes the patched one |
| MachineController.Platform.GetWorkloadByName | pkg/cloud/coxedge/client.go:77-90 | the lookup of the machine's shortened name in the list as it is when the call is served |
| MachineController.Platform.GetTask | pkg/cloud/coxedge/client.go:122-129 | the task's state when the call is served; a task of an accepted create, and a SUCCESS means its workload has been listed |
| MachineController.Platform.CreateWorkload | pkg/cloud/coxedge/client.go:148-158 | an accepted create adds one task and one receipt, also when its reply is lost |
| MachineController.Platform.GetWorkload | pkg/cloud/coxedge/client.go:68-75 | a 404 exactly for a workload that is not listed; for one that had been listed it means that it came and went |
| MachineController.Platform.DeleteWorkload | pkg/cloud/coxedge/client.go:160-173 | read, then post: both must find the workload for the delete to be accepted |
| MachineController.Platform.PatchMachine | pkg/cloud/coxedge/scope/machine.go:124-127 | what closing a pass persists, and when the create in hand stays untracked |
| MachineController.CoxMachineReconciler.ReconcileWorkload | controllers/coxmachine_controller.go:485-518 | the statement-by-statement method is the function Locate, under every interleaving |
| MachineController.CoxMachineReconciler.ReconcileNormal | controllers/coxmachine_controller.go:175-310 | the method is the function NormalPass |
| MachineController.CoxMachineReconciler.BringUpInstance | controllers/coxmachine_controller.go:311-358 | the method is the function BringUp |
| MachineController.CoxMachineReconciler.ReconcileDelete | controllers/coxmachine_controller.go:361-379 | the method is the function DeletePass |
| MachineController.CoxMachineReconciler.DeleteInstance | controllers/coxmachine_controller.go:381-405 | the method is the function TearDown |
| MachineController.CoxMachineReconciler.Reconcile | controllers/coxmachine_controller.go:105-173 | the whole pass, with the scope closed on every path, keeps the lifecycle invariant |
| MachineController.CoxMachineReconciler.ControlLoop | controllers/coxmachine_controller.go:105-173 | any sequence of events and passes from a fresh machine creates at most once and orphans nothing, under the guards |
| ClusterController.SplitSlice | pkg/cloud/coxedge/loadbalancer.go:203-205 | a fresh slice with the pieces, never nil |
| ClusterController.ParseLoadBalancerSpec | pkg/cloud/coxedge/loadbalancer.go:197-220 | the overwriting loop decodes the last value of each variable into fresh slices; no backends variable is an error |
| ClusterController.ParseInstances | pkg/cloud/coxedge/loadbalancer.go:160-195 | the two loops give the last RUNNING address and the number of RUNNING instances |
| ClusterController.Client.GetWorkloadByName | pkg/cloud/coxedge/client.go:77-90 | the lookup by shortened name, or the failure of the list call |
| ClusterController.Client.GetLoadBalancer | pkg/cloud/coxedge/loadbalancer.go:44-56 | a fresh object with the value of Get, or its error |
| ClusterController.Client.CreateLoadBalancer | pkg/cloud/coxedge/loadbalancer.go:58-106 | the new cloud and result are those of Create |
| ClusterController.Client.UpdateLoadBalancer | pkg/cloud/coxedge/loadbalancer.go:108-142 | the new cloud and result are those of Update |
| ClusterController.Client.DeleteLoadBalancer | pkg/cloud/coxedge/loadbalancer.go:144-158 | the new cloud and result are those of Delete |
| ClusterController.ControlPlaneSlice | controllers/coxcluster_controller.go:162-178 | the loop with `continue` and `break` collects the control-plane backends, or the placeholder (also lines 204-207) |
| ClusterController.WorkerSlice | controllers/coxcluster_controller.go:179-203 | the nested loops collect the worker backends, or the placeholder (also lines 208-211) |
| ClusterController.AlignLoadBalancer | controllers/coxcluster_controller.go:291-303 | sorting both slices in place, comparing and updating is Align; the desired slice stays sorted for every alias |
| ClusterController.AlignLoadBalancers | controllers/coxcluster_controller.go:291-370 | both alignments and the publication, the placeholder checks reading the slices the sort reordered |
| ClusterController.PublishEndpoint | controllers/coxcluster_controller.go:319-370 | endpoint, ready flag and status as Publish states them, for each outcome |
| ClusterController.CreateLoadBalancers | controllers/coxcluster_controller.go:270-287 | both creates are sent whatever the first returns; the outcome is that of CreateBoth |
| ClusterController.EnsureLoadBalancers | controllers/coxcluster_controller.go:259-370 | the pass from the lookups on is Ensure |
| ClusterController.ReconcileNormal | controllers/coxcluster_controller.go:147-370 | the method is the function Reconcile |
| ClusterController.ReconcileDeletion | controllers/coxcluster_controller.go:372-390 | the method is the function ReconcileDelete |
| ClusterController.ClusterStore.Patch | pkg/cloud/coxedge/scope/cluster.go:97-100 | a failed closing patch persists nothing |
| ClusterController.ReconcileCluster | controllers/coxcluster_controller.go:96-145 | the pass reads the stored cluster, branches, and closes the scope on every path; its effect is one step of the run |
| ClusterController.ControlLoop | controllers/coxcluster_controller.go:96-145 | over any sequence of passes, closing patches and cloud events, a ready cluster holds the last published endpoint at its load balancer's original port |

## Left out

- MachineSafety.CreateOnce: guarded by the two marks of the history. Without them the claim is false of the code, as the runs in MachineLimits show; CreateMeaning and UntrackedMeaning are the exact conditions of one pass.
- MachineSafety.NeverOrphan: guarded by the untracked mark and at most one create. Without them the claim is false, as FirstPassOrphans and VanishedOrphan show; OrphanMeaning is the exact condition of a release.
- MachineBounds.Progress: ends at a deletion, a failed task, a lost create or a vanished workload; a pass cut short by a failed call is not counted against the bound.
- Sorting.SortStrings: the algorithm of the library's sort is not part of the repository; its result is, since a list has one sorted arrangement.
- MachineController.Platform.SetNodeProviderID: listing the nodes and patching one is a single step, and its failing parts (tracker, list, patch) are one failure.
- MachineDeletion.DeletionProgress: without a failed task; ReleaseMeaning and FailureKeepsForever say what one does.
- ClusterController.ReconcileNormal: the cloud does not move between the calls of one cluster pass; it does between passes, and every call may fail.
- ClusterController.Client.CreateLoadBalancer: an accepted create is listed at once and a failed one has no effect, so the window in which a load balancer is created twice is not modelled; ports, anycast, scaling limits and network interfaces of the request are not either.
- ClusterController.ControlPlaneSlice: appending to a growing slice is on values; the finished slice is an array.
- HTTP, URLs and JSON: a call succeeds or fails with a tag.
- Copying the machine spec into the create request: nothing later reads it.
- Load-balancer sizes: the desired number of instances is stored in the spec and used nowhere.
- Conditions, events, logging and requeue delays: no decision depends on them.
- Owner lookups, pause annotations, credentials, scope constructors and watches: they decide whether a pass starts, and a run may leave passes out.
- WaitForWorkload: used by the repository's own tests only.
- The `cmd/cox` command line, generated code and manifests.
