# Multi-cri: a verified model of its pod, container and image service

Multi-cri is a Kubernetes CRI server that runs some pods on a Slurm cluster through a local adapter and forwards the others to remote CRI runtimes. This project models its core in Dafny and proves properties of whole runs of it.

How the model is layered:

- `GoStrings`, `ImageNames`, `RemoteRuntimes`, `SlurmText`: the text the service parses, on Go's leftmost, non-overlapping `Split`: image names, the configuration of remote runtimes, `sbatch` output, `scontrol` reports.
- `SliceDeletion`: the loop that takes a container id out of a pod's slice while `append` moves the array under the slice header it ranges over.
- `PodNetwork`, `Persistence`, `Slurm`: the network set-up with its deferred clean-ups, the key/value files and what a restart reads back, the job state machine.
- `Lifecycle`: every handler as a function from the pools, the files and the outcome of each outside call to the new pools, the reply, the file writes in order, and the calls that reached a runtime outside (`Mark`). `Requests` gathers the handlers into one type and proves the invariant `Inv` for each of them. `Runs` has sequences of requests and of crashes after any number of file writes of a request, each crash followed by a restart.
- `ContainerRequests`, and parts of `PodLives`, `PodRuns` and `ImageRuns`: for each request when it succeeds, with the whole state after it, in the terms of its caller.
- `Histories`, `Biographies`, `PodLives`, `PodRuns`, `Listings`, `ImageRuns`: properties over runs: submissions, routing, where each record comes from, pods, listings, images. `Scenarios` has runs from an empty service that reach the cases in which it does not do what a caller expects. `Reconfigurations` has restarts with another configuration.
- `Metadata`, `Stores`, `SlurmAdapter`, `Service`: the same code in its own imperative form. Records are shared objects that the handlers update in place, stores are maps of objects that write through, a pod's list is an array with a length. Each handler of `Service.MulticriRuntime`, and `Handle` for any call, is proved to do what its `Lifecycle` function says: from objects that stand for a world to objects that stand for the world the specification leads to, with the specified reply, file writes in their order and outside calls (`Does`). `Outcomes` spells the specified worlds out write by write.

What the model shows about the code, beyond what its documentation says:

- A status request ends the process when accounting answers with too few columns, as it does for a job it no longer holds (`Runs.BlankAccountingCrashes`, `SlurmText.AccountingPanicsExactlyWhen`): the answer is indexed without a check and nothing recovers. So does a network set-up whose namespace cannot be created, because the error is dropped (`PodRuns.HollowNamespaceCrashes`, pkg/cri/network/netns.go:42-47).
- Accounting is asked for the start time twice, and the second one is read as the job state: a job that only accounting still knows is taken for queued, whatever became of it (`Slurm.AccountingMeansQueued`).
- Removal from a pod's list is right exactly for lists that never hold the id twice in a row and hold it at most once if they end with it; a list that holds the id at least twice and ends with it makes the loop panic. The service keeps its lists free of duplicates, so neither happens to it.
- The network set-up never stores the path of the namespace it opens, so a restart drops every pod and empties the pod file (`Listings.RestartForgetsEveryPod`), stopping a pod never tears its network down (`PodRuns.StopNeverTearsDown`), and all pods share one directory: a pod whose set-up fails in it destroys the directory of the pods that run (`PodRuns.FailedRunDestroysSharedDirectory`).
- A failing network set-up leaves the attachment behind when reading the pod address fails, and an adapter that fails after the set-up leaves everything the set-up acquired (`PodRuns.FailedRunHolds`). The namespace and the attachment of a successful run are never released: they stay held until a later set-up opens the same path or is for the same pod (`PodRuns.SuccessfulRunStaysHeld`).
- Restarting without the default remote that was configured before makes the listing of containers dereference a missing image; no other change of the configuration does (`Reconfigurations.ReconfigurationKeepsListingSafeExactlyWhen`). When no remote is left, a status request for such a container ends the process too (`Reconfigurations.ReconfiguredStatusCrashes`).
- A job that the cluster reports as failed is recorded the wrong way round: exit code 0 of the report becomes 1, and any other code becomes 0 (`Biographies.FailedJobInvertsCode`): the branch that would keep the code (pkg/cri/adapters/slurm/container.go:167-176) repeats the condition of the one before it. An exit code that a control report prints with its signal, as in 5:0, is read as 0 (`SlurmText.SignalHidesExitCode`).
- A creation whose adapter fails replies with the error, but the container stays recorded in memory and in the file, in no pod's list (`ContainerRequests.LocalCreationExactly`).
- A stop whose remote returns an error replies that it is done (`ContainerRequests.RemoteRequestsLeaveNoTrace`).
- A submission report without a number starts the container, without a job number (`SlurmAdapter.SubmissionExactly`).
- Without a network plug-in a status request marks a stopped pod ready again, and it can then not be removed (`PodRuns.StoppedPodRemovableExactlyWhen`).
- The ready state that a status request gives a pod stays in memory, the file keeps the old one (`PodRuns.StatusLagsExactlyWhen`).
- Removing a local container needs its log to be reopened (`ContainerRequests.RemovesContainerExactlyWhen`). The Slurm adapter always refuses that (pkg/cri/adapters/slurm/container.go:191-193), so with this adapter a local removal never succeeds.
- Without a default remote, pods that run locally under a handler other than the empty one are missing from the listing (`Listings.UnlistedExactlyWhen`).
- A job that a status request finds queued puts its container back to created; starting it again submits a second job, and the number of the first is lost (`Histories.QueuedJobIsSubmittedTwice`).
- A start whose remote returns an error runs on the local adapter as well. There it always fails for want of credentials, so no job is ever submitted for a remote container, but its record is marked as exited (`Histories.AdapterReachedExactlyWhen`, `Histories.RemoteContainersHaveNoJobs`, `Scenarios.RemoteStartFallsThroughFromEmpty`). The same fall-through in the stop handler (pkg/cri/runtime/container.go:149-160) is never reached, because a remote container is never recorded as running.
- A stop of a container whose job was found queued replies without sending any cancel command (`Histories.StopReachesClusterExactlyWhen`), and after a status request that got an error from the cluster no later request ever cancels the job (`Histories.FailedStatusAbandonsJob`).
- An image name whose remainder repeats its marker loses everything up to the last marker (`ImageNames.ParseInvertsExactlyWhen`, `ImageNames.RepeatedMarkerLosesText`).
- A pull of a name of no known repository fails and leaves the unparsed entry in the pool and in the file (`ImageRuns.FailedPullRestoresExactlyWhen`).
- A job number of 2^31 or more is stored, but the cancel command then names another job (`Histories.CancelNamesSubmittedJobExactlyWhen`).

Assumptions that hold throughout: ids made by the service or returned by a remote's container creation are not in use (`Requests.FreshIds`); handlers run one after another; requests are well formed, that is, they carry the sub-messages a handler reads without a check, such as the metadata, the image, the sandbox configuration or the filter; a remote call returns a response or an error, never both; writes to the files succeed; the configuration, a command-line option (pkg/cmd/options.go:92), stays the same over the restarts of a run, except in `Reconfigurations`. How every call to the adapter, the cluster, the network and the file system ends (`CallEnd`: it returns, it returns an error, or it ends the process), deferred clean-ups included, the answers of remotes, the clock and the iteration order of maps are parameters, so each statement covers all of them. A request in which the process ends is part of a run as one that is cut off and followed by a restart.

## Model

| member | source | states |
|---|---|---|
| SliceDeletion.DeleteInPlace | pkg/cri/store/sandbox.go:102-106 | The loop on its real array: panics or leaves the list exactly as the stale-header specification says, and touches nothing past the old length |
| SliceDeletion.DeletionOutcome | pkg/cri/store/sandbox.go:102-106 | On every list: a panic exactly when the id occurs at least twice and ends the list, otherwise each removal skips the element after it |
| SliceDeletion.DeletesExactlyWhen | pkg/cri/store/sandbox.go:95-112 | The loop removes the id and nothing else if and only if the id is never adjacent to itself and occurs at most once when it ends the list |
| SliceDeletion.DeletesFromDuplicateFree | pkg/cri/store/sandbox.go:95-112 | For every duplicate-free list: no panic, exactly the given id is removed, order kept, still duplicate-free |
| SliceDeletion.DuplicatesBreakDeletion | pkg/cri/store/sandbox.go:102-106 | Concrete lists on which the loop panics or leaves a copy behind |
| GoStrings.JoinSplit | pkg/cri/store/image.go:263 | Joining the pieces of `strings.Split` restores the string, for every separator |
| GoStrings.PiecesHaveNoSeparator | pkg/cri/store/image.go:263 | No piece still holds the separator |
| GoStrings.SplitJoin | pkg/cri/runtime/remote/runtime.go:96 | Splitting undoes joining of pieces free of a one-character separator |
| GoStrings.PieceCount | pkg/cri/runtime/remote/runtime.go:99 | A string has one more piece than it has separators |
| GoStrings.TrimFinds | pkg/cri/adapters/slurm/cmd/cmd.go:491 | `TrimSpace` finds a solid core between any blanks |
| GoStrings.ItoaInjective | pkg/cri/adapters/slurm/cmd/cmd.go:238 | Printing numbers is one-to-one |
| GoStrings.AtoiDigits | pkg/cri/adapters/slurm/container.go:91 | Parsing printed digits returns the number, or the 64-bit maximum with an error |
| GoStrings.AtoiItoa | pkg/cri/adapters/slurm/container.go:91 | Every 64-bit number, negative ones included, is read back from its decimal text |
| ImageNames.MarkersSelectOneRepository | pkg/cri/store/image.go:242-262 | A name that starts with a repository's marker selects that repository, although the prefixes are tried in order |
| ImageNames.ParseInvertsExactlyWhen | pkg/cri/store/image.go:239-275 | Repository type and pull path give the accepted name back if and only if its remainder does not repeat the marker |
| ImageNames.ParseInjective | pkg/cri/store/image.go:239-275 | Two such names with the same type and pull path are equal |
| ImageNames.ImageNameIsBaseName | pkg/cri/store/image.go:267-269 | The image name is the last path segment up to its first colon, free of slash and colon |
| ImageNames.BaseNameUnique | pkg/cri/store/image.go:267-269 | A path has only one such base name |
| ImageNames.RepeatedMarkerLosesText | pkg/cri/store/image.go:263-264 | Every name that repeats its marker, whatever stands around it, is not recovered |
| ImageNames.PulledFrom | pkg/cri/store/image.go:239-275 | For each of the four kinds of names, with the texts in full: a name that does not repeat its marker is pulled by its scheme and the text after the marker |
| ImageNames.RefusedExactlyWhen | pkg/cri/store/image.go:242-262 | A name is refused if and only if it starts with none of the four texts |
| RemoteRuntimes.ListedNameMeansLocalExactlyWhen | pkg/cri/runtime/remote/runtime.go:113-131 | "Local if and only if equal to the listed name" holds for all handlers exactly when a default remote is configured |
| RemoteRuntimes.RoutesExactlyWhen | pkg/cri/runtime/remote/runtime.go:113-124 | For every configuration and handler: which route the handler leads to, by the names alone, and exactly when and under which name it is not found |
| RemoteRuntimes.NamedRemoteServes | pkg/cri/runtime/remote/runtime.go:113-124 | Every configured name but the service's own leads to the remote of that name, the empty handler to the default one |
| RemoteRuntimes.LoadRemoteRuntimeConfiguration | pkg/cri/runtime/remote/runtime.go:93-111 | The parsing loop computes the specified result, with its format and connection errors |
| RemoteRuntimes.LoadInvertsRender | pkg/cri/runtime/remote/runtime.go:93-111 | Loading a rendered list of pairs free of commas and colons yields exactly its endpoints, the last one of each name winning |
| RemoteRuntimes.LoadsExactlyWhen | pkg/cri/runtime/remote/runtime.go:93-111 | Loading succeeds if and only if every piece has exactly one colon and a reachable endpoint; each error names an offending piece |
| RemoteRuntimes.ServedLocallyExactlyWhen | pkg/cri/runtime/remote/image.go:55-69 | When an image is served locally and under which name, for every map order; a remote gets the rest after its name, or the default one the whole name when no configured name is a prefix |
| SlurmText.JobIdRoundTripExactlyWhen | pkg/cri/adapters/slurm/cmd/cmd.go:487-494 | Number n in an sbatch report is stored if and only if it fits 64 bits, and cancelled by its own number if and only if it is below 2^31 |
| SlurmText.ParseControlStatus | pkg/cri/adapters/slurm/cmd/cmd.go:444-465 | The nested loops fill the specified map; the status of a readable report has the values of its last JobState and Reason fields and the number of its last ExitCode field, or 0 |
| SlurmText.ReportReadsLastFields | pkg/cri/adapters/slurm/cmd/cmd.go:444-465 | For every report layout, words without an equals sign included, and every key: the value of the last field with that key, up to its first equals sign |
| SlurmText.SignalHidesExitCode | pkg/cri/adapters/slurm/cmd/cmd.go:456-459 | An exit code printed with a signal after a colon is read as 0 |
| SlurmText.ValueReadWholeExactlyWhen | pkg/cri/adapters/slurm/cmd/cmd.go:450-452 | A value is read whole if and only if it holds no equals sign |
| SlurmText.AccountingPanicsExactlyWhen | pkg/cri/adapters/slurm/cmd/cmd.go:467-485 | The accounting parser reads past its pieces if and only if the first line has fewer than two bars, or fewer than four and a number in its third piece |
| SlurmText.BlankAccountingPanics | pkg/cri/adapters/slurm/cmd/cmd.go:467-474 | It does so on every blank answer: the check for missing lines never fires |
| SlurmText.AccountingReadsStartAsState | pkg/cri/adapters/slurm/cmd/cmd.go:268-275 | On every answer to the query the job state is the text of the start column, and the state column only the reason |
| Slurm.SubmittedJobIsCancelledExactlyWhen | pkg/cri/adapters/slurm/container.go:70-134 | Start then cancel on one record: pid and cancel command name job n, with the exact bounds |
| Slurm.AccessExactlyWhen | pkg/cri/adapters/slurm/cmd/cmd.go:76-108 | A request gives access to the cluster if and only if for the key or the password variable the last entry of its list has a value |
| Slurm.CancelsExactly | pkg/cri/adapters/slurm/container.go:126-134 | A cancel command is sent if and only if there is access and the loggers open; it names the low 32 bits of the pid |
| Slurm.RefreshSetsExitFields | pkg/cri/adapters/slurm/container.go:136-189 | A status answer sets exit fields only with the exited state, and never touches pid, start time or identity |
| Slurm.StateNameDecides | pkg/cri/adapters/slurm/container.go:149-179 | For each job state by its name: resulting state, exit code, reason and finish time |
| Slurm.AccountingMeansQueued | pkg/cri/adapters/slurm/cmd/cmd.go:479-484 | A status read from accounting puts the container back to created if and only if the start time is not the name of a job state |
| SlurmAdapter.StartContainer | pkg/cri/adapters/slurm/container.go:70-95 | Submission on the shared record: fault, whether a job was submitted, and only the pid changes |
| SlurmAdapter.SubmissionExactly | pkg/cri/adapters/slurm/container.go:70-95 | For every cluster answer and report text: whether a job is submitted, the fault, and the job number |
| SlurmAdapter.StopContainer | pkg/cri/adapters/slurm/container.go:126-134 | The command that is sent carries the stored pid truncated to 32 bits; none is sent without credentials or when the loggers do not open |
| SlurmAdapter.SetJobState | pkg/cri/adapters/slurm/container.go:149-179 | The job-state mapping on the shared record, which `Slurm.StateNameDecides` states by the names; the unreachable second FAILED branch left out |
| SlurmAdapter.ContainerStatus | pkg/cri/adapters/slurm/container.go:136-189 | Status refresh on the shared record, from the text of control or accounting output, with the end of the process as an outcome |
| SlurmAdapter.StatusDiesExactlyWhen | pkg/cri/adapters/slurm/cmd/cmd.go:250-266 | A status answer ends the process if and only if the call does or the accounting line has too few bars |
| SlurmAdapter.ControlReportIsRead | pkg/cri/adapters/slurm/cmd/cmd.go:444-465 | The status answer to every readable control report: its last JobState, ExitCode and Reason |
| SlurmAdapter.StatusFailsExactlyWhen | pkg/cri/adapters/slurm/cmd/cmd.go:250-266 | A status request fails if and only if its call does or the accounting exit code is no number |
| PodNetwork.Host.SetupPodNetwork | pkg/cri/runtime/sandbox.go:248-316 | The set-up with its stack of deferred clean-ups performs exactly the specified host actions, however each call ends, clean-ups included; a step that ends the process is followed by no clean-up |
| PodNetwork.HeldAfterSetup | pkg/cri/runtime/sandbox.go:248-316 | On a host that may already hold anything: what it holds after a set-up, everything that working clean-ups take with them gone. The clean-ups of a failed one run in reverse, the namespace last, and are all unless one ends the process; they cover all acquired steps once the address was read |
| PodNetwork.FailedSetupLeaks | pkg/cri/runtime/sandbox.go:280-309 | With clean-ups succeeding a failed set-up on any host, also one that holds an attachment of this pod from an earlier run, leaves nothing of its own but the attachment when reading the address failed, and destroys its directory with all below it if it failed in it |
| PodNetwork.CleanupsReverse | pkg/cri/runtime/sandbox.go:263-309 | Clean-ups are attempted in reverse order of registration, all of them unless one ends the process without unwinding |
| PodNetwork.SuccessfulSetupHolds | pkg/cri/runtime/sandbox.go:248-316 | A successful set-up adds exactly its directory and, in pod mode, its namespace and attachment |
| PodNetwork.SetupEndsAsItsCalls | pkg/cri/runtime/sandbox.go:248-316 | A set-up ends as the first of its calls that does not return, unless a clean-up then ends the process |
| PodNetwork.SetupSucceedsExactlyWhen | pkg/cri/runtime/sandbox.go:248-316 | It succeeds if and only if all its calls return, and has then read the reported address in pod mode |
| PodNetwork.DirectoryOfName | pkg/cri/runtime/helpers.go:126-129 | The directory of a path by its last piece, dots included |
| PodNetwork.OthersKeepTheirNetworks | pkg/cri/runtime/sandbox.go:257-294 | Whatever a set-up does, namespaces under other paths and attachments of other pods are left alone |
| PodNetwork.DirectoryDestroyedExactlyWhen | pkg/cri/runtime/sandbox.go:297-314 | A directory is destroyed if and only if it lies at or below that of a set-up whose directory step succeeded, whose files step failed and whose removal worked |
| PodNetwork.NetworksOutliveSetups | pkg/cri/runtime/sandbox.go:257-294 | Over any sequence of set-ups a namespace or attachment stays held unless a set-up opens the same path or is for the same pod |
| Persistence.ReloadIsStableExactlyWhen | pkg/cri/store/file_store.go:117-141 | Loading again with the same outcomes resumes the same pods if and only if no reopened path is empty |
| Persistence.LoadKeepsExactly | pkg/cri/store/file_store.go:117-141 | Loading resumes exactly the ready pods with a path that opens again, otherwise as stored, and keeps exactly the ready ones with a path in the file |
| Requests.RequestKeeps | pkg/cri/runtime/container.go:40-239 | Every request, whatever the outside returns, keeps the invariant, and the files are good after each single write it makes |
| Requests.CreateKeeps | pkg/cri/runtime/container.go:40-98 | Creation keeps it because the container record is written before the list that names it |
| Requests.DropKeeps | pkg/cri/store/sandbox.go:95-112 | On reachable lists removal never panics and takes out exactly the id |
| Requests.ObservedAdmissible | pkg/cri/runtime/container.go:227-234 | A local status request leaves a good record of the same container, pod and image |
| Requests.ListKeeps | pkg/cri/store/image.go:202-228 | Pruning while listing keeps the invariant after every removal |
| Requests.RequestChangesOnePool | pkg/cri/runtime/container.go:211 | Every request but creation changes at most one pool; a removed container's record stays in the container pool |
| Runs.RunKeepsInvariant | pkg/cri/store/file_store.go:50-141 | Over every run with crashes between any two writes and restarts, the invariant holds |
| Runs.ReachableStates | pkg/cri/runtime/container.go:76-96 | From an empty service: lists duplicate-free and pointing back, memory equal to the container file, exit fields zero before exit, image present if and only if served locally |
| Runs.RestartResumesContainers | pkg/cri/store/file_store.go:50-62 | A clean restart after any run resumes every container with the record it had, and every image but for its local path and size |
| Runs.CrashesExactlyWhen | pkg/cri/runtime/container.go:186-239 | In every state the invariant allows, the process ends in a handler if and only if the handler reaches a call that ends it or misses the record of an unknown container; the deletion loop and missing images add no case |
| Runs.BlankAccountingCrashes | pkg/cri/adapters/slurm/cmd/cmd.go:260-275 | A blank accounting answer ends the process for every local container that has a job and has not exited |
| Runs.EventEvolves | pkg/cri/runtime/container.go:100-239 | No event loses a container; a crash leaves its record as before the request or as after it |
| Runs.ContainersPersist | pkg/cri/runtime/container.go:113-169 | Over every run: identity, pod copy, handler and image of a container never change, and an exited record never changes at all |
| Runs.PidKept | pkg/cri/adapters/slurm/container.go:93 | Over every run without a start of the container its job number stays |
| Histories.SubmissionsBounded | pkg/cri/runtime/container.go:113-131 | Over every run: submissions for a container are at most one, plus its moves from running back to created, plus submissions lost when the process ended |
| Histories.AtMostOneSubmission | pkg/cri/adapters/slurm/container.go:149-179 | With no queued sighting and no lost submission a job is submitted at most once |
| Histories.QueuedJobIsSubmittedTwice | pkg/cri/adapters/slurm/container.go:177-179 | The bound is met: start, a status that finds the job queued, start again is always a run, submits twice, and forgets the first job number |
| Histories.StopReachesClusterExactlyWhen | pkg/cri/runtime/container.go:140-172 | A stop of a local container asks the adapter if and only if its record says running, and sends exactly the adapter's command; any other stop replies that it is done and does nothing |
| Histories.CommandsNamePid | pkg/cri/adapters/slurm/container.go:126-134 | Over every run without a start of the container, all cancel commands sent for it name the job number it had |
| Histories.CancelNamesSubmittedJobExactlyWhen | pkg/cri/adapters/slurm/container.go:85-133 | A successful start on job n, any run without another start, then a stop: it sends a command if and only if the record still says running, and this command, like any sent meanwhile, names n if and only if n is below 2^31 |
| Histories.ExitedIsNeverCancelled | pkg/cri/runtime/container.go:158-160 | Over every run no cancel command is sent for a container that is recorded as exited |
| Histories.FailedStatusAbandonsJob | pkg/cri/runtime/container.go:228-233 | A status request that gets an error from the cluster marks a running container as exited, and over no later run is its job cancelled |
| Histories.CallsGoHomeOrFallThrough | pkg/cri/runtime/remote/runtime.go:113-124 | Over every run: each request on a container reaches the runtime its pod's handler leads to, or is a start of that container that got an error from its remote and reaches the adapter |
| Histories.RoutingIsSticky | pkg/cri/runtime/remote/runtime.go:113-124 | All requests on a container reach the same runtime in every run in which its own starts get no error from a remote |
| Histories.AdapterReachedExactlyWhen | pkg/cri/runtime/container.go:108-168 | For a remote container the local adapter is reached if and only if a start of it, recorded as created, got an error from its remote; that start then fails for want of credentials and records the container as exited |
| Histories.RemoteContainersHaveNoJobs | pkg/cri/runtime/container.go:90-125 | Over every run no job is submitted or cancelled for a container of a remote |
| PodLives.RequestsReachTheNamedRemote | pkg/cri/runtime/remote/runtime.go:113-124 | Over every run from an empty service: a request on a container reaches the remote whose name was the handler of the run request of its pod, the default one for the empty handler, this service for its own; or it is a start that got an error from there |
| Histories.CreatedWherePodRan | pkg/cri/runtime/container.go:45-52 | Over every run a container is created on the runtime of its pod's last recorded run; a remote run that the process ended before recording shows as orphaned |
| PodRuns.FailedRunLeavesNoRecord | pkg/cri/runtime/sandbox.go:55-85 | A local run of a pod ends as its set-up and then the adapter do; on an error no record stays, when the process ends the unfinished one does |
| PodRuns.RunRepliesAsItsCallsEnd | pkg/cri/runtime/sandbox.go:55-85 | A local run replies as the first of its calls that does not return, the set-up before the adapter |
| PodLives.SuccessfulRunRecords | pkg/cri/runtime/sandbox.go:40-86 | A successful run reaches the runtime its handler names, and pool and file hold the whole record: of a local pod the given log path and the address the plug-in reported in pod mode |
| PodLives.ReadyExactlyWhen | pkg/cri/runtime/sandbox.go:76-167 | Over every run without a stop, removal, second run or restart, a local pod keeps log path and address in pool and file, and a status request finds it ready if and only if it has an address or there is no plug-in |
| PodLives.PodsComeFromRuns | pkg/cri/runtime/sandbox.go:40-86 | Over every run from an empty service: each pod record in pool and file, and each copy in a container, comes from a run request with its handler, id, log path and address |
| PodLives.StopsPodExactlyWhen | pkg/cri/runtime/sandbox.go:88-119 | When stopping a known pod succeeds, local or remote, and the whole state after it |
| PodLives.RemovesPodExactlyWhen | pkg/cri/runtime/sandbox.go:121-149 | When removing a known pod succeeds, local or remote, and the whole state after it |
| PodLives.UnknownPods | pkg/cri/runtime/sandbox.go:88-179 | What requests for an unknown pod reply and leave |
| PodRuns.HollowNamespaceCrashes | pkg/cri/network/netns.go:42-47 | A namespace that cannot be created ends the process and leaves the pod's record in the file |
| PodRuns.FailedRunHolds | pkg/cri/runtime/sandbox.go:59-82 | What a failed run leaves on a host that already held anything, when all clean-ups succeed; a failing set-up also takes what the pod held before |
| PodRuns.FailedRunDestroysSharedDirectory | pkg/cri/runtime/helpers.go:126-129 | A pod failing in its directory destroys that of a running pod, whose namespace and attachment stay |
| PodRuns.StopNeverTearsDown | pkg/cri/runtime/sandbox.go:102-106 | In every reachable state stopping a pod does not depend on how a tear-down would end |
| PodRuns.NetworksOutliveRuns | pkg/cri/runtime/sandbox.go:40-119 | Over every run, with what its requests do to the host: a held namespace or attachment stays held unless a set-up opens the same path or is for the same pod |
| PodRuns.SuccessfulRunStaysHeld | pkg/cri/runtime/sandbox.go:40-86 | After any run from an empty service, the namespace and attachment of a successful local run of a pod stay held under the same condition, also when the pod is stopped or removed |
| PodRuns.StoppedPodRemovableExactlyWhen | pkg/cri/runtime/sandbox.go:88-179 | Stop, a status request that does not end the process, remove: the pod is removed if and only if there is a network plug-in |
| ContainerRequests.RemoteCreationExactly | pkg/cri/runtime/container.go:40-98 | Creation at a remote: reply and whole state, the id at the end of the pod's list in pool and file |
| ContainerRequests.LocalCreationExactly | pkg/cri/runtime/container.go:40-98 | Local creation: reply and whole state, also when the preparation fails and the record stays in no list |
| ContainerRequests.RefusedCreations | pkg/cri/runtime/container.go:45-63 | A creation in an unknown pod or of an image that is not found changes nothing |
| ContainerRequests.LocalStartExactly | pkg/cri/runtime/container.go:100-138 | Starting a local container: reply, with its reason, and whole state, for every state and submission |
| ContainerRequests.FailingRemoteStartExactly | pkg/cri/runtime/container.go:108-137 | A start that got an error from its remote: reply and whole state |
| ContainerRequests.LocalStopExactly | pkg/cri/runtime/container.go:140-172 | Stopping a local container: reply and whole state, for every state and end of the cancellation |
| ContainerRequests.LocalStatusExactly | pkg/cri/runtime/container.go:215-239 | The status of a local container: reply and whole state, for every state, access and answer |
| ContainerRequests.RemoteRequestsLeaveNoTrace | pkg/cri/runtime/container.go:100-239 | What a remote answers to a start, stop or status request leaves no trace; a stop with an error from the remote succeeds |
| ContainerRequests.RemovesContainerExactlyWhen | pkg/cri/runtime/container.go:186-213 | A removal succeeds if and only if the remote answers, or locally the container does not run and its log reopens; then exactly its id leaves the list in pool and file |
| ContainerRequests.RemoteIsAsked | pkg/cri/runtime/container.go:100-239 | Every request on a container of a remote reaches that remote |
| ContainerRequests.AdapterIsAskedExactlyWhen | pkg/cri/runtime/container.go:100-239 | The adapter is asked about a local container if and only if it is created for a start, runs for a stop, does not run for a removal, has not exited for a status |
| ContainerRequests.UnknownContainers | pkg/cri/runtime/container.go:100-239 | What requests for an unknown container reply; they change nothing |
| Biographies.ContainersAreAccountedFor | pkg/cri/runtime/container.go:40-239 | Over every run from an empty service: each container was made by a creation of the run with its name, credentials and time; each with a job has number and time of a start of the run; each exited one has exit code, reason and finish time of the request that ended it |
| Biographies.ZeroExitMeans | pkg/cri/adapters/slurm/container.go:149-179 | An exited container with code 0 was stopped, or reported completed with 0, or failed with another code; one recorded as completed was reported so, one as killed was cancelled or timed out |
| Biographies.EndsExactlyWhen | pkg/cri/runtime/container.go:100-239 | Which requests make a local container exit, exactly |
| Biographies.RunningReportKeepsRunning | pkg/cri/adapters/slurm/cmd/cmd.go:444-465 | A control report whose last JobState is RUNNING leaves a running container as it is, whatever the layout |
| Biographies.FailedJobInvertsCode | pkg/cri/adapters/slurm/container.go:161-166 | A job reported as failed ends with code 0 if and only if the report gives another code |
| Listings.ListsExactlyLocalPods | pkg/cri/store/sandbox.go:124-160 | In every reachable state with a default remote: exactly the locally run pods that meet each filter field given, each once, for every iteration order |
| Listings.UnlistedExactlyWhen | pkg/cri/runtime/remote/runtime.go:126-131 | Which locally run pods a listing without a default remote misses |
| Listings.ListsExactlyContainers | pkg/cri/store/container.go:141-181 | In every reachable state and for every iteration order: exactly the known containers that meet each filter field given and whose pod has the service's own handler, or without a default remote the empty one, each once |
| Listings.ListedContainerExactlyWhen | pkg/cri/runtime/remote/runtime.go:126-131 | Which containers the unfiltered listing shows, under every configuration |
| Listings.ListingNeverMissesImage | pkg/cri/store/container.go:163-197 | Over every run under one configuration, whichever it is, listing containers never dereferences a missing image |
| Reconfigurations.ReconfigurationKeepsListingSafeExactlyWhen | pkg/cri/store/container.go:141-197 | Over every sequence of configurations with any run under each and a restart between them: listing containers never dereferences a missing image if and only if a default remote configured at some time still is |
| Reconfigurations.ReconfiguredStatusCrashes | pkg/cri/store/container.go:199-204 | After a restart without remotes, a status request for a container that the default remote made ends the process |
| Listings.NoPathIsEverSet | pkg/cri/runtime/sandbox.go:262-277 | From states without namespace paths no run ever stores one |
| Listings.RestartForgetsEveryPod | pkg/cri/store/file_store.go:124-135 | After any run of a service that started empty a restart drops all pods and empties the pod file |
| ImageRuns.FoundInEveryOrderExactlyWhen | pkg/cri/store/image.go:131-163 | A lookup, which compares substrings, finds an entry in every iteration order if and only if it is the only match |
| ImageRuns.LookupSucceedsExactlyWhen | pkg/cri/store/image.go:131-163 | A lookup succeeds if and only if the query is part of the id or image name of an entry, or a tag or digest of one |
| ImageRuns.PulledEntry | pkg/cri/runtime/image.go:38-54 | The whole entry of a successful pull, in pool and file, and the reply |
| ImageRuns.PullAddsOneFindable | pkg/cri/runtime/image.go:38-54 | A local pull that succeeds adds exactly one entry; lookups by the stripped name and by the returned reference find an entry in every order |
| ImageRuns.FailedPullRestoresExactlyWhen | pkg/cri/runtime/image.go:38-50 | A failed pull restores pool and file if and only if the name was accepted; otherwise one entry stays in both |
| ImageRuns.PulledImageStaysFindable | pkg/cri/store/image.go:131-146 | Over every run until its entry is removed, crashes included, both lookups keep succeeding, and find the pulled entry when no other matches |
| ImageRuns.RemovalConserves | pkg/cri/runtime/image.go:93-114 | A successful removal takes out exactly one entry, in pool and file, and it matched the query |
| ImageRuns.RemovalSucceedsExactlyWhen | pkg/cri/runtime/image.go:93-114 | A local removal succeeds if and only if the lookup finds an entry and the adapter removes it; else nothing changes |
| ImageRuns.RemoteImagesLeaveNoTrace | pkg/cri/runtime/image.go:27-114 | What a remote replies to a pull or removal, and that nothing changes here |
| ImageRuns.ListingExactly | pkg/cri/store/image.go:202-228 | For every iteration order: exactly the matching images with a file, each once; exactly the matching ones without are dropped from pool and file; every remaining record is unchanged in both |
| ImageRuns.ListingIsIdempotent | pkg/cri/store/image.go:202-228 | Listing again in any order returns the same images and drops nothing |
| Metadata.ImageMetadata.ParseImage | pkg/cri/store/image.go:239-275 | Field assignments of the shared object: the parsed record, or no change and an error |
| Metadata.SandboxMetadata.Append | pkg/cri/runtime/container.go:95 | Appending to the shared slice, in place or into a larger array, adds exactly the id |
| Metadata.SandboxMetadata.Delete | pkg/cri/store/sandbox.go:102-106 | The deletion loop on the object's own array |
| Stores.ContainerStorage.LoadAll | pkg/cri/store/file_store.go:50-62 | Every stored record becomes an object of the pool |
| Stores.ContainerStorage.Update | pkg/cri/store/container.go:77-96 | The pool entry and the file record become the object's current value |
| Stores.ContainerStorage.CreateContainerMetadata | pkg/cri/store/container.go:117-139 | A new object, in the pool and in the file |
| Stores.ContainerStorage.ListK8s | pkg/cri/store/container.go:141-197 | The filter loop returns the specified records, which `Listings.ListsExactlyContainers` states field by field, each with the local path its image object has |
| Stores.SandboxStorage.LoadAll | pkg/cri/store/file_store.go:117-141 | For arbitrary records: resumes exactly the ready pods with a path that opens again, deletes exactly the records not ready or without a path, and leaves the specified pool and file |
| Stores.SandboxStorage.Update | pkg/cri/store/sandbox.go:65-84 | The pool entry and the file record become the object's current value |
| Stores.SandboxStorage.Remove | pkg/cri/store/sandbox.go:86-93 | The entry leaves the pool and the file |
| Stores.SandboxStorage.RemoveContainer | pkg/cri/store/sandbox.go:95-112 | In-place deletion on one pod's array leaves all other pods alone and stores the pod; a panic stores nothing |
| Stores.SandboxStorage.CreateSandboxMetadata | pkg/cri/store/sandbox.go:177-190 | A new object with its own array, in the pool and in the file |
| Stores.SandboxStorage.ListK8s | pkg/cri/store/sandbox.go:124-160 | The filter loop returns the specified pods |
| Stores.ImageStorage.LoadAll | pkg/cri/store/file_store.go:196-209 | Every stored image becomes an object of the pool |
| Stores.ImageStorage.Update | pkg/cri/store/image.go:84-106 | The pool entry and the file record become the object's current value |
| Stores.ImageStorage.Remove | pkg/cri/store/image.go:108-119 | The entry leaves the pool and the file |
| Stores.ImageStorage.GetByID | pkg/cri/store/image.go:131-163 | The search loop returns the object of the first match in iteration order |
| Stores.ImageStorage.ListK8s | pkg/cri/store/image.go:202-228 | Listing while deleting from the pool leaves the specified pool, result and writes |
| Service.MulticriRuntime.constructor | pkg/cri/store/file_store.go:50-209 | Opening the service over files gives the pools and files of the specified restart |
| Service.MulticriRuntime.ObjectsAgree | pkg/cri/store/container.go:77-96 | Whenever the service stands for a state the invariant allows: each live container object equals its stored record, and each id in a live pod's list names a live container that points back |
| Service.MulticriRuntime.CreateContainer | pkg/cri/runtime/container.go:40-98 | The handler on shared objects does what its specification says: all pools, reply, writes in order, outside calls |
| Service.MulticriRuntime.StartContainer | pkg/cri/runtime/container.go:100-138 | The same for starting |
| Service.MulticriRuntime.StopContainer | pkg/cri/runtime/container.go:140-172 | The same for stopping |
| Service.MulticriRuntime.RemoveContainer | pkg/cri/runtime/container.go:186-213 | The same for removing a container |
| Service.MulticriRuntime.ContainerStatus | pkg/cri/runtime/container.go:215-239 | The same for a container's status |
| Service.MulticriRuntime.Observe | pkg/cri/runtime/container.go:228-233 | Asking the adapter unless the container has exited; an error makes it exit |
| Service.MulticriRuntime.RunPodSandbox | pkg/cri/runtime/sandbox.go:40-86 | The same for running a pod, with exactly the host actions of its network set-up |
| Service.MulticriRuntime.StopPodSandbox | pkg/cri/runtime/sandbox.go:88-119 | The same for stopping a pod |
| Service.MulticriRuntime.RemovePodSandbox | pkg/cri/runtime/sandbox.go:121-149 | The same for removing a pod |
| Service.MulticriRuntime.PodSandboxStatus | pkg/cri/runtime/sandbox.go:151-179 | The same for a pod's status: memory changes, no file does |
| Service.MulticriRuntime.PullImage | pkg/cri/runtime/image.go:27-55 | The same for pulling an image |
| Service.MulticriRuntime.RemoveImage | pkg/cri/runtime/image.go:93-114 | The same for removing an image |
| Service.MulticriRuntime.ListImages | pkg/cri/runtime/image.go:57-69 | The same for listing images: the local ones and those of the remotes, whose errors are dropped; the adapter decides the reply |
| Service.MulticriRuntime.ListPodSandbox | pkg/cri/runtime/sandbox.go:181-191 | The local pods that pass the filter, followed by those of the remotes, or the remotes' error |
| Service.MulticriRuntime.ListContainers | pkg/cri/runtime/container.go:174-184 | The local containers that pass the filter, each with the local path of its image, followed by those of the remotes, or the remotes' error |
| Service.MulticriRuntime.Handle | pkg/cri/runtime/container.go:40-239 | For any call: objects that stand for a world go to objects that stand for the world its specification leads to |
| Service.MulticriRuntime.ReadEnvironment | pkg/cri/runtime/container.go:64-69 | The environment loop, read for what a cluster client needs: a key or a password, the last value of each key counting |
| Scenarios.SubmittedTwiceFromEmpty | pkg/cri/adapters/slurm/container.go:177-179 | Under every configuration, for any ids and accepted image name, a run from an empty service submits a container's job twice |
| Scenarios.CrashFromEmpty | pkg/cri/adapters/slurm/cmd/cmd.go:467-474 | Under every configuration, for any ids and accepted image name, a run reaches a container whose next status request ends the process |
| Scenarios.RemoteStartFallsThroughFromEmpty | pkg/cri/runtime/container.go:108-125 | For every handler that leads to a remote a run reaches a container of its own whose failing start goes to the adapter, which marks it as exited |
| Scenarios.StoppedPodStaysFromEmpty | pkg/cri/runtime/sandbox.go:165-171 | Without a network plug-in a run reaches a stopped pod that cannot be removed |

## Left out

- Interleaving inside a handler: the source takes its locks per store operation, so two handlers can interleave; every statement here is about handlers that run one after another.
- Failing file writes, and the end of the process during the loading of a restart: writes succeed, and restarts are complete. The repository's own namespace code opens a path, or else creates a new namespace, or else ends the process while loading (pkg/cri/network/netns.go:63-75); the model's loading has the first two, and records that fail to open as the loading loop foresees them.
- The mode without persistence: stores always have their file.
- Malformed requests: a request without a sub-message that a handler reads without a check would end the process; such requests are assumed away.
- SSH, scp, singularity, iptables, CNI and the operating system: how their calls end is a parameter. Of the network only held namespaces, attachments and directories are modelled; a removal that fails counts as removing nothing, a creation that fails as creating nothing, and the contents of the shared directory, which each set-up overwrites, are left out.
- The gRPC and streaming servers, command-line options, Exec, Attach, ExecSync, PortForward, statistics, ImageFsInfo, ImageStatus and UpdateContainerResources: they change none of the records or only forward a call.
- The loops that ask each remote for its lists: their joint answer is a parameter.
- Error texts: they are one constructor per cause (`Fault`, `Reason`); the text of an outside error is kept as a parameter.
- The container environment is reduced to whether it gives credentials; job headers, scripts, mounts, command, arguments, ports, labels, annotations and the Extra map are not modelled.
- The copy of the pod inside a container record is kept without the copy's own list of container ids, which no code reads.
- The image object inside a stored container record: only its id is compared; after a restart it is a separate object, as in the source, and its other fields are a parameter.
- Time stamps are parameters; a stop writes nanoseconds and a failed start seconds, which the model does not distinguish.
- Dates: both branches of the date parser give 0 for every text (pkg/cri/common/parse.go:27-38), which the model keeps.
- Output retrieval after a job has ended has no effect on the records and is left out.
- How much a growing slice over-allocates: some capacity larger than the length.
- Lookups by short id and by path, and the unfiltered `List` of each store: no modelled handler uses them.
- What the objects hold in memory when the process ends: the contracts of the handlers then speak of the files, writes and outside calls only.
- Service.MulticriRuntime.PullImage: asks for an unused new id, because with a used one the store's `Add` refuses the entry and its error is dropped; ids are generated to be unique.
- Service.MulticriRuntime.ListContainers: asks, like `Stores.ContainerStorage.ListK8s`, that the records it lists carry an image, where the source would dereference nil; `Listings.ListingNeverMissesImage` shows that this holds in every reachable state.
- Service.MulticriRuntime.constructor: asks that stored records sit under their own ids, as in every file that a run leaves behind (`Requests.GoodFiles`).
- Histories.RoutingIsSticky: assumes that remotes answer the container's own starts; without it the statement is false, and `Histories.CallsGoHomeOrFallThrough` gives the exact form.
- Listings.ListsExactlyLocalPods: assumes a default remote; without one the listing misses pods, and `Listings.UnlistedExactlyWhen` says which.
