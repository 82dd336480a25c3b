# Verified models of the Purdue Analysis Facility's services

This project models, in Dafny 4.11, the parts of the facility's services whose
behaviour is decided by code rather than by the systems around it, and proves
what they promise. `dafny verify dfyconfig.toml` checks everything.

Each service that updates its fields is a class whose methods are proved against
functions on values (`GateSpec`, `Linking`, `NrpJob`, `Seats`, ...). What holds on
every interleaving is proved of those functions, as state machines whose steps
are the critical sections, or what runs between two awaits (`GateRuns`,
`LinkingRuns`, `AdmissionRuns`, `NrpRuns`, `Seats`, `LockRuns`). What other systems
answer is an input of a step. The `...Answers` modules say what each of these machines
answers, read off its events or its world alone.

| files | what they model |
|---|---|
| `GateSpec`, `Gate`, `GateRuns`, `GateAnswers` | admission of requests to one LLM: slots, tokens held, output per minute, pauses, a queue that ages |
| `Proxy`, `Forward` | the proxy's choice of a backend, the size of a request, and its retries until a reply or a final error |
| `Reply` | a streamed reply folded from chunks, and rebuilt as a message or as chunks |
| `Regex`, `Prefixes`, `Labels`, `Ownership` | the regex that excludes a set of prefixes, and the matchers of what a caller may see |
| `Promql`, `Scope` | a query language with a meaning, and the rewrite that scopes its queries |
| `Admission`, `AdmissionRuns`, `AdmissionFailures`, `Cluster` | GPU admission of Ray clusters, its ledger of grants, and the clusters built and read |
| `NrpJob`, `NrpRuns`, `NrpAnswers`, `NrpPromises`, `NrpFailures`, `NrpRoom` | the stages of a job on NRP under passes and calls that overlap, and how many workers it starts with |
| `Linking`, `LinkingRuns`, `LinkingAnswers` | tying a Mattermost user to a Hub account |
| `ManagedBlock` | a managed section inside a text that is someone else's |
| `Seats` | seats handed over between task calls |
| `Heartbeat`, `LockRuns` | a lock's frozen heartbeat, and processes that wait for the lock |
| `LogBuffer` | the last bytes kept of a job's logs |
| `Collections`, `Keys`, `Optional` | what several modules share |

## Model

| member | source | states |
|---|---|---|
| Gate.Gate.Out | apps/agentic-analysis/llm_proxy.py:222-225 | pops what left the window from the left, and sums what is left |
| Gate.Gate.Fits | apps/agentic-analysis/llm_proxy.py:227-233 | a request fits by slots, budget or an idle gate, pause and output, and the output is trimmed only when looked at |
| Gate.Gate.First | apps/agentic-analysis/llm_proxy.py:235-240 | whether a request is the first of the least in the aged order, as `min` over the dict finds it |
| Gate.Gate.Enter | apps/agentic-analysis/llm_proxy.py:246-249 | the request joins the queue behind all others with a new number |
| Gate.Gate.Pass | apps/agentic-analysis/llm_proxy.py:250-267 | one pass of the waiting loop: admitted and counted, given up, or still waiting, with its entry removed on every exit |
| Gate.Gate.Release | apps/agentic-analysis/llm_proxy.py:269-275 | one request and its tokens less, and its output on the record if there was any |
| Gate.Gate.Adjust | apps/agentic-analysis/llm_proxy.py:317-328 | slots halve at most once in SHRINK_PERIOD and regain one at most once in GROW_PERIOD |
| Gate.Gate.Failed | apps/agentic-analysis/llm_proxy.py:330-352 | a failure halves the slots at most once in SHRINK_PERIOD, and a 429 pauses the gate |
| GateRuns.StepKeepsInvariant | apps/agentic-analysis/llm_proxy.py:222-352 | every critical section keeps the counts, the queue's order and the output window |
| GateRuns.FairUse | apps/agentic-analysis/llm_proxy.py:227-275 | on every interleaving busy and held are the number and tokens of requests in flight, within the configured slots, and within the budget unless one runs alone, then within SHARE of the context |
| GateRuns.OutputRate | apps/agentic-analysis/llm_proxy.py:222-233 | however the deque was trimmed, a request is admitted only while the whole history's last minute of output is under the limit |
| GateRuns.NoOvertaking | apps/agentic-analysis/llm_proxy.py:235-240 | while a request that waited rank times AGING is in the queue, no later arrival is admitted |
| GateRuns.BoundedOvertaking | apps/agentic-analysis/llm_proxy.py:235-267 | on any run with an aged request waiting throughout, no more requests are admitted than stood ahead of it |
| GateRuns.OvertakingOnRuns | apps/agentic-analysis/llm_proxy.py:235-267 | the same from any point of any run since the gate's start |
| GateRuns.NoDeadlock | apps/agentic-analysis/llm_proxy.py:227-267 | with requests waiting, none in flight, no pause and output under the limit, some request is admitted on its next pass |
| GateAnswers.AdmitsExactly | apps/agentic-analysis/llm_proxy.py:227-267 | on every run a request that looks is admitted if and only if its client is there, a slot is free, the tokens in flight leave room or none are, no pause is on, the last minute's output is under the limit, and, with each whole AGING waited bringing it one below its rank and never below 0, every other waiting request stands higher, or as high and came later |
| GateAnswers.CameAs | apps/agentic-analysis/llm_proxy.py:246-267 | each waiting request stands in the queue with the rank, the time and the tokens it came with |
| GateAnswers.QueueMoves | apps/agentic-analysis/llm_proxy.py:246-267 | an arrival queues last, and a request leaves only by its own look, when it is admitted, its client is gone or its deadline has passed |
| GateAnswers.SlotsFollow | apps/agentic-analysis/llm_proxy.py:317-352 | slow speed or a failure halves the slots, down to one, and a look that is not slow gives one back, up to the most, each only after its period, and nothing else touches them |
| GateAnswers.ChangesApart | apps/agentic-analysis/llm_proxy.py:317-352 | on every run two changes of the slots are SHRINK_PERIOD apart, and GROW_PERIOD if the second gives one back |
| GateAnswers.PauseHolds | apps/agentic-analysis/llm_proxy.py:227-352 | after a 429 nobody is admitted before its wait is over, unless another 429 came since |
| Proxy.ChoiceIsBest | apps/agentic-analysis/llm_proxy.py:559-583 | the pick is a backend of the role, usable if any is, and usable and healthy if any is both |
| Proxy.ChoiceIsFirstBest | apps/agentic-analysis/llm_proxy.py:559-583 | a pick that does not stay with its session's last backend is the first of those with none better, usable before healthy |
| Proxy.ChoiceIsStable | apps/agentic-analysis/llm_proxy.py:562-573 | a session picks the same backend again while nothing changed |
| Proxy.Proxy.Pick | apps/agentic-analysis/llm_proxy.py:559-583 | the choice, remembered for the session and only then, as the last of the entries, of which the others stay in order and the oldest go only past STICKY |
| Proxy.Proxy.Remember | apps/agentic-analysis/llm_proxy.py:578-582 | the entry set and moved to the end, and the oldest dropped past STICKY |
| Forward.SizeIsMost | apps/agentic-analysis/llm_proxy.py:548-551 | the output asked for is positive, fair with its prompt, and as much as the client's wish, the gate's cap, fair use and the last cut's limit allow |
| Forward.TargetIs | apps/agentic-analysis/llm_proxy.py:682-700 | a try goes where its session last went if that is of the role, healthy and usable, and else to the first of the best backends, with its prompt's tokens and the most output allowed |
| Forward.WaitAtLeast | apps/agentic-analysis/llm_proxy.py:346-352 | every wait after a failure lasts at least a fixed positive time, and what a 429 asks for, and a backoff is bounded |
| Forward.BackoffDoubles | apps/agentic-analysis/llm_proxy.py:346-352 | the backoff starts at the configured one and doubles with each failure up to the most |
| Forward.Send | apps/agentic-analysis/llm_proxy.py:699-765 | whatever an exchange ends in, even an exception, what was acquired is released before anything else |
| Forward.Pass | apps/agentic-analysis/llm_proxy.py:670-765 | one pass of the loop ends it or uses up a cut, the whole retry, the client, or time of the hold |
| Forward.Rounds | apps/agentic-analysis/llm_proxy.py:655-765 | the loop ends on every plausible world, in what the client is told of its last round, and has done to the gates exactly what its rounds come to |
| Forward.Run | apps/agentic-analysis/llm_proxy.py:655-765 | ends on every plausible world, holding nothing, having acquired only within fair use and the last cut; the first flawless reply is answered, a flawed one is asked for once more and stands unless a complete one comes of it; what is answered is the reply of a try, never a 429, a 500 or more, or a cut one; 413 is told exactly when no backend is usable and the client is there, 503 only when no turn came or after a failure with the hold used up or the proxy stopping, 502 only after a late cut with the cuts or the hold used up |
| Forward.TryDoes | apps/agentic-analysis/llm_proxy.py:699-765 | each try of a run gives back what it acquired with its reply's tokens, only one after a flawed reply asks for a whole one, and the gate hears of a reply that is handed on, of a failure with its wait, and of a late cut |
| Forward.ToldIsPromised | apps/agentic-analysis/llm_proxy.py:655-765 | what a run promises its client follows from the world and what the last round tells |
| Reply.Reply.Take | apps/agentic-analysis/llm_proxy.py:390-409 | folds a chunk's usage and choices in order into the reply |
| Reply.Reply.TakeOne | apps/agentic-analysis/llm_proxy.py:393-409 | folds one choice: content and reasoning appended, calls by number, a finish reason if it says something |
| Reply.FoldsInOrder | apps/agentic-analysis/llm_proxy.py:390-409 | any stream folds to its text and its reasoning joined in order, the last finish that says something, the last usage, and each call with its last id and the parts of its name and arguments joined |
| Reply.ChunksRoundTrip | apps/agentic-analysis/llm_proxy.py:434-476 | whatever chunks a reply was folded from, rebuilt as chunks and folded back it has the same text, reasoning, finish, usage and ordered calls, with an id for every call |
| Reply.MessageRoundTrip | apps/agentic-analysis/llm_proxy.py:434-455 | the same through the message, whose calls carry no numbers |
| Reply.ChunksFaithful | apps/agentic-analysis/llm_proxy.py:434-476 | for any call numbers with ids, a client cannot tell the rebuilt reply from the first |
| Prefixes.WalkExact | docker/agentic-interface/promql_scope.py:90-97 | a trie node's regex matches exactly the strings that no prefix below it starts |
| Prefixes.BuildHits | docker/agentic-interface/promql_scope.py:83-88 | the trie holds exactly the prefixes put in, prefixes of one another included |
| Prefixes.ExcludesExactly | docker/agentic-interface/promql_scope.py:81-99 | the regex is well formed and matches exactly the strings with none of the prefixes, if and only if there are prefixes and none is empty |
| Prefixes.WithoutPrefixes | docker/agentic-interface/promql_scope.py:81-99 | the loop that grows the trie gives that regex |
| Ownership.DaskObjectsExact | docker/agentic-interface/promql_scope.py:115-122 | a cluster's regex matches exactly its objects' names |
| Ownership.AllowedObjectsExact | docker/agentic-interface/promql_scope.py:125-141 | an object label passes exactly when it has no user prefix, a shared prefix, or is the caller's own |
| Ownership.VisibleExactly | docker/agentic-interface/promql_scope.py:125-141 | a series passes the matchers exactly when each namespace, identity and object label may, absent ones included |
| Ownership.ClustersApart | docker/agentic-interface/promql_scope.py:118-121 | no name belongs to two Dask clusters |
| Ownership.OthersClusterHidden | docker/agentic-interface/promql_scope.py:125-141 | a caller's matchers refuse every object of a Dask cluster that is not theirs |
| Ownership.OthersSessionHidden | docker/agentic-interface/promql_scope.py:125-141 | a caller's matchers refuse every session pod that is not theirs |
| Promql.EnforceFilters | docker/agentic-interface/promql-scope/main.go:79-84 | for every query, database, time and meaning of the operators, the rewritten query means what the first one means on the filtered database |
| Promql.ScopedSeesOnly | docker/agentic-interface/promql-scope/main.go:91-101 | a query whose every selector carries the matchers reads nothing else of a database |
| Scope.ExtendedIsEnforced | docker/agentic-interface/promql-scope/main.go:79-84 | appending to the selector nodes in place is the rewrite |
| Scope.AddMatchers | docker/agentic-interface/promql-scope/main.go:79-84 | the visitor appends the matchers to every selector's node |
| Scope.Has | docker/agentic-interface/promql-scope/main.go:64-71 | whether a selector carries a matcher |
| Scope.Check | docker/agentic-interface/promql-scope/main.go:91-101 | whether every selector of what was printed carries every matcher |
| Scope.Run | docker/agentic-interface/promql-scope/main.go:74-106 | a query is accepted exactly when what is printed parses and is scoped |
| Scope.AcceptedIsBlind | docker/agentic-interface/promql-scope/main.go:74-106 | whatever printer and parser do, an accepted query answers alike on databases that agree on the series satisfying the matchers |
| Scope.FaithfulScope | docker/agentic-interface/promql-scope/main.go:74-106 | with a faithful printer and parser every query is accepted, and means the first one on the filtered database |
| Scope.CallerSeesOnlyTheirs | docker/agentic-interface/promql_scope.py:125-165 | from labels to answers: an accepted query tells nothing of series the caller may not see |
| Admission.GreedyTotal | apps/ray-train/gateway.py:2560-2577 | the mix has as many workers as wanted if they fit, or as fit |
| Admission.GreedyInOrder | apps/ray-train/gateway.py:2560-2577 | a later flavor is used only when the earlier ones are used up |
| Admission.OfferedMix | apps/ray-train/gateway.py:2558-2580 | the offer is that mix, or one single-GPU worker that evicts when nothing fits, never more than wanted |
| Admission.OfferedExactly | apps/ray-train/gateway.py:2539-2580 | with sums over the listing and the live grants of others alone: of each flavor an offer takes no more than what Prometheus shows unheld and the predecessor gives back, less what others were granted, or than the budget less what others hold, and goes past a flavor, or falls short of what is wanted, only when not one more worker fits; it is one worker that evicts, of the first flavor with a GPU to take, if and only if workers are of one GPU, nothing is left of any flavor and there is one to take |
| Admission.Gateway.Count | apps/ray-train/gateway.py:2562-2566 | the GPUs of a resource over all clusters of a map |
| Admission.Gateway.Survey | apps/ray-train/gateway.py:2561-2573 | the whole workers that fit in what is left of a flavor, and whether one there could be evicted |
| Admission.Gateway.Mix | apps/ray-train/gateway.py:2558-2576 | the loop gives the greedy mix and the first flavor to evict from |
| Admission.Gateway.Admit | apps/ray-train/gateway.py:2523-2605 | an admission drops what expired, offers what is left in the sense of `Admission.OfferedExactly`, refuses fewer workers than the least, and otherwise records exactly the offer's GPUs under the name |
| AdmissionRuns.StepKeeps | apps/ray-train/gateway.py:2539-2605 | a step under its guard keeps every name counted with all it may come to hold, and all of it within every budget |
| AdmissionRuns.WithinBudget | apps/ray-train/gateway.py:2539-2605 | on every run with Prometheus silent and steps under their guards, names admitted again and clusters replaced in place included, the most of what each name is listed with, granted, and may still create stays in all within each budget |
| AdmissionRuns.StepIsSafeExactly | apps/ray-train/gateway.py:2432-2470 | whatever a new name is admitted with next, every budget holds, if and only if: a listed name got no more than it is listed with, an unlisted one no less than calls under way may create, a cluster appeared with no less than its grant, and a failed call or an ended cluster left nothing under way that is not granted |
| AdmissionRuns.InFullExactly | apps/ray-train/gateway.py:2549-2566 | a step leaves every name counted with all it may come to hold exactly under its guard |
| AdmissionFailures.ReplacementOverbooks | apps/ray-train/gateway.py:2549-2566 | a run after which a cluster replaced in place while listed lets seven GPUs of a budget of four be granted |
| AdmissionFailures.ReadmissionOverbooks | apps/ray-train/gateway.py:2432-2470 | a run after which two calls under one name, admitted with four and then one, let another name get three and the first still create its four |
| AdmissionRuns.ListedAsGranted | apps/ray-train/gateway.py:841-852 | the cluster built for an admitted mix is read back with exactly the GPUs it was granted |
| AdmissionRuns.BuiltCanAppear | apps/ray-train/gateway.py:2455-2466 | so it can appear in the listing of a run |
| Cluster.BuildGroups | apps/ray-train/gateway.py:648-663 | the loop over the flavors builds their groups with one worker kept from giving way |
| Cluster.HeldGpus | apps/ray-train/gateway.py:841-852 | the GPUs of a resource over all groups and containers |
| Cluster.GroupsHoldMix | apps/ray-train/gateway.py:617-686 | of every flavor a built cluster holds its mix times GPUs per worker, for each container with limits |
| Cluster.ReaderUndoesBuilder | apps/ray-train/gateway.py:841-852 | with one limited container, reading a built cluster gives back the mix times GPUs per worker |
| Cluster.GroupsReplicas | apps/ray-train/gateway.py:648-663 | replicas add up to the mix, and exactly one worker, if there is any, is not preemptible |
| Cluster.GroupsAreOfMix | apps/ray-train/gateway.py:667-686 | every group of a built cluster is of a flavor of its mix, with no more workers, and each container asks for that flavor's GPUs, no other's, and else for what the template's does |
| Cluster.ShapeRoundTrip | apps/ray-train/gateway.py:1126-1133 | a cluster's shape is the one it was built from exactly for Purdue shapes |
| NrpJob.Gateway.Stop | apps/ray-train/gateway.py:1803-1813 | a job read as not ended is suspended, and one read as started with outputs goes on to them |
| NrpJob.Gateway.Advance | apps/ray-train/gateway.py:1860-1933 | a pass on a job as it was listed makes exactly the requests its stage asks for, in their order, on what it finds then |
| NrpJob.Gateway.FinishOutputs | apps/ray-train/gateway.py:1912-1923 | the copy back is started, awaited, or ends the job with its failure recorded |
| NrpJob.Gateway.FinishDone | apps/ray-train/gateway.py:1924-1933 | data goes unless its copy back failed, and the record once old enough |
| NrpJob.Gateway.Delete | apps/ray-train/gateway.py:2042-2059 | the record, the copy Jobs and the data are deleted in turn, whether or not NRP and Kubernetes take the requests |
| NrpRuns.FinishIsExec | apps/ray-train/gateway.py:1860-1933 | with nothing in between, the steps of a pass or call come to what the gateway's methods do |
| NrpRuns.StepKeeps | apps/ray-train/gateway.py:1765-1933 | every read, look and request of passes and calls that overlap, and every move around them, keeps what the record, the data and each pass under way may rely on |
| NrpAnswers.ResumedMayStart | apps/ray-train/gateway.py:1860-1876 | after a pass with nothing in between, a job whose inputs are there, or that was left placing, is running from now on and not suspended, so that KubeRay may start it |
| NrpAnswers.SuspendedExactly | apps/ray-train/gateway.py:1765-1813 | on every run a job is suspended if and only if a stop's suspension came after the last resume, or nothing touched it and it was so at the start |
| NrpAnswers.InputsComeTo | apps/ray-train/gateway.py:1868-1876 | without its inputs a job waits, and is stopped when they cannot come |
| NrpAnswers.RunningComesTo | apps/ray-train/gateway.py:1884-1911 | a running job is stopped if and only if it is idle, or has been starting for START_TIMEOUT_S |
| NrpAnswers.EndComesTo | apps/ray-train/gateway.py:1884-1923 | a running job that ended goes on to its outputs, or is done at once |
| NrpAnswers.OutputsComeTo | apps/ray-train/gateway.py:1912-1933 | a copy back is started, awaited, or ends the job, with its data deleted or, if it failed, marked and kept |
| NrpAnswers.DoneComesTo | apps/ray-train/gateway.py:1924-1933 | a job that is done loses its data, unless its copy back failed, and all after JOB_RECORD_S |
| NrpAnswers.StopStops | apps/ray-train/gateway.py:1803-1813 | a stop suspends the job unless it ended, marks it, and leaves it in outputs if it started and has some, and done otherwise |
| NrpAnswers.UserStopComesTo | apps/ray-train/gateway.py:1977-1987 | a user's stop is taken of exactly the jobs that neither ended nor were stopped |
| NrpAnswers.UserDeleteComesTo | apps/ray-train/gateway.py:1988-1995 | a user's delete is taken of exactly the jobs that are done or have no stage on record, and leaves what NRP and Kubernetes refuse to delete |
| NrpAnswers.ShownAsEndedExactly | apps/ray-train/gateway.py:775-812 | on every run a client sees a job as ended exactly in its last stage, or when it was stopped or ended with no copy under way and no outputs to wait for |
| NrpAnswers.ShownAsRunningExactly | apps/ray-train/gateway.py:775-812 | and as running exactly while its outputs are to be copied back, or KubeRay has it run unstopped |
| NrpPromises.GoesBackExactly | apps/ray-train/gateway.py:1765-1801 | a request takes the stage back if and only if the last stage recorded, after the job was read, was another's and later than the one it writes |
| NrpPromises.StageMovesForward | apps/ray-train/gateway.py:1786-1933 | the stage only moves forward on exactly the runs in which no request is out of date in that way |
| NrpPromises.OutputsLostExactly | apps/ray-train/gateway.py:1803-1933 | outputs are lost if and only if none were copied back and either the job started after a stop had read it, which then recorded it done, and before its data was deleted, or a delete went on to the data of the started job after its DELETE of the record was refused |
| NrpPromises.OutputsAreSafe | apps/ray-train/gateway.py:1912-1933 | while no job starts behind a stop's back and no delete goes on from a refusal, a started job's outputs are gone, with its record there, only after a successful copy back |
| NrpPromises.NoEarlyEnd | apps/ray-train/gateway.py:775-812 | a client sees a terminal status of a job with outputs before its last stage if and only if an out-of-date pass revived it and it runs, and may delete it in no other stage |
| NrpPromises.DeletedEarlyExactly | apps/ray-train/gateway.py:1982-1995 | the DELETE of the record of a job with outputs is made in another stage if and only if another's request recorded that stage since the job was read |
| NrpPromises.RecordOutlivesDone | apps/ray-train/gateway.py:1924-1933 | on every run a record that goes was deleted by its user, outlived the first time its job was done by JOB_RECORD_S, or ends at once a job that ran that long with nothing to copy back |
| NrpPromises.RecordGoesWithItsEnd | apps/ray-train/gateway.py:1884-1933 | the pass that ends a job deletes its record exactly when it has no outputs and ran for JOB_RECORD_S, and NRP takes the request |
| NrpPromises.LongJobVanishes | apps/ray-train/gateway.py:1884-1933 | a job of eight days without outputs loses its record in the pass that ends it |
| NrpFailures.StoppedJobResumes | apps/ray-train/gateway.py:1765-1773 | a run in which a pass that listed a job before its user stopped it sends the stage back from done to running |
| NrpFailures.LateStartLoses | apps/ray-train/gateway.py:1803-1813 | a run in which a job starts between a stop's read and its suspension, and loses its outputs in the next pass |
| NrpFailures.RefusedDeleteLoses | apps/ray-train/gateway.py:2042-2059 | a run in which a job's copy back fails, its user deletes it, NRP refuses, and its outputs go with the record there |
| NrpRoom.FittingIsLargest | apps/ray-train/nrp_gpus.py:107-119 | fitting is the largest count of workers that fits in all three resources |
| NrpRoom.NoMoreThanEmpty | apps/ray-train/nrp_gpus.py:107-119 | what pods hold only takes room away |
| NrpRoom.Tallies | apps/ray-train/nrp_gpus.py:138-144 | each model's tally is the sum over its open nodes, its GPUs over all its nodes |
| NrpRoom.ByModel | apps/ray-train/nrp_gpus.py:122-145 | the models with GPUs, each once, with their memory and what their nodes add up to |
| NrpRoom.FreeIsFree | apps/ray-train/nrp_gpus.py:138-144 | a model's GPUs are those of all its nodes, and the free ones those its open nodes' pods do not hold |
| NrpRoom.AllowedExactly | apps/ray-train/nrp_gpus.py:148-158 | a model is allowed exactly if its GPUs' reported memory is what is asked for, but for the slack, or none is asked for |
| NrpRoom.RoomIsNodes | apps/ray-train/nrp_gpus.py:161-167 | the room now and the room on empty nodes, summed by model, are what the open nodes of the allowed models hold, summed node by node |
| NrpRoom.RoomShrinks | apps/ray-train/nrp_gpus.py:148-167 | for the models of any nodes, asking for more memory leaves no more room, now or empty |
| NrpRoom.StartsWithinRoom | apps/ray-train/gateway.py:1695-1713 | a job starts with as many workers as the allowed nodes have room for now, of those it wants and no fewer than the least, and is refused if and only if these nodes hold fewer than the least when empty |
| Linking.Linking.Token | apps/mattermost-agent/agent.py:404-412 | a token is given while its link is live, and an expired link is forgotten |
| Linking.Linking.LinkUrl | apps/mattermost-agent/agent.py:430-440 | the user's other offers and expired ones go, the new one is pending, and both are saved |
| Linking.Linking.LoginStart | apps/mattermost-agent/agent.py:446-452 | a working state is taken up and saved before the Hub is asked; any other changes nothing |
| Linking.Linking.LoginFinish | apps/mattermost-agent/agent.py:453-465 | a code for the Hub account that logged in is kept for the link's user |
| Linking.Linking.ConfirmStart | apps/mattermost-agent/agent.py:467-480 | only the live code's own text lets a confirm go on; a wrong one counts against it, up to CODE_ATTEMPTS |
| Linking.Linking.ConfirmFinish | apps/mattermost-agent/agent.py:481-490 | the account's other links go, and the user's is saved |
| LinkingRuns.StepKeeps | apps/mattermost-agent/agent.py:404-490 | every step between awaits, and a restart, keeps the history behind states, codes and links |
| LinkingRuns.LinksDescend | apps/mattermost-agent/agent.py:430-490 | on every interleaving a linked pair descends from an offer to that user taken up in time, a Hub login of that account through it, and that user's own correct code in time |
| LinkingRuns.SingleUse | apps/mattermost-agent/agent.py:446-479 | each state is taken up at most once, each code accepted at most once, after fewer than CODE_ATTEMPTS wrong tries, and none survives CODE_ATTEMPTS |
| LinkingRuns.OneOfEach | apps/mattermost-agent/agent.py:430-490 | no two users are linked to one Hub account, and no user has two offers that work |
| LinkingRuns.RestartIsHarmless | apps/mattermost-agent/agent.py:386-402 | a restart loses no link and no offer, and revives none |
| LinkingAnswers.MintLinks | apps/mattermost-agent/agent.py:481-490 | a mint links its user to the account with the token minted, ends what others had with that account, and leaves every other link as it was |
| LinkingAnswers.LinkedExactly | apps/mattermost-agent/agent.py:404-490 | on every run a user is linked if and only if they were bound at some step and since then neither forgotten nor bound again, nor was their account bound to another; and with that step's token |
| LinkingAnswers.StateWorksExactly | apps/mattermost-agent/agent.py:430-452 | on every run a link that was sent works if and only if it was offered less than LINK_SECONDS ago and since then neither taken up in time, nor its user offered another, nor cleared away as expired |
| LinkingAnswers.CodeIsRightExactly | apps/mattermost-agent/agent.py:453-480 | on every run a code is right if and only if the user's last login drew it less than CODE_SECONDS ago, and since then it was not typed, nor any code tried too late, nor CODE_ATTEMPTS wrong ones, nor the bot restarted |
| LinkingAnswers.TakeUpStartsLogin | apps/mattermost-agent/agent.py:446-452 | a link that works starts a login for the user it was sent to, and no other does |
| LinkingAnswers.RightCodeConfirms | apps/mattermost-agent/agent.py:467-480 | a right code starts a confirm for its login's account, and no other try does |
| ManagedBlock.ApplyJoins | docker/purdue-af/scripts/managed-block.py:25-40 | all branches join a head, the block and a tail that do not depend on the section |
| ManagedBlock.MarkerInHead | docker/purdue-af/scripts/managed-block.py:37-40 | no marker straddles the join of a head and a block |
| ManagedBlock.JoinedComesApart | docker/purdue-af/scripts/managed-block.py:25-40 | a written text comes apart into the parts it was joined from |
| ManagedBlock.LastSectionWins | docker/purdue-af/scripts/managed-block.py:25-40 | a section applied before another leaves no trace |
| ManagedBlock.SectionStands | docker/purdue-af/scripts/managed-block.py:17-40 | a section without END stands, but for white space at its ends, on lines of its own between the first BEGIN of what is written and the first END after it |
| ManagedBlock.IdempotentExactly | docker/purdue-af/scripts/managed-block.py:25-40 | applying twice is applying once if and only if the section has no END and the text no BEGIN without an END after it |
| ManagedBlock.ApplyBlockIdempotent | docker/purdue-af/scripts/managed-block.py:17-40 | the same of the markers the script writes |
| ManagedBlock.UnclosedExample | docker/purdue-af/scripts/managed-block.py:25-40 | a text of one BEGIN changes again on the second run |
| ManagedBlock.TextKept | docker/purdue-af/scripts/managed-block.py:37-40 | of a text with a block only newlines next to the markers and at its end are lost |
| ManagedBlock.PlainTextKept | docker/purdue-af/scripts/managed-block.py:31-35 | a text without a block keeps all before its last newlines, unless it is blank |
| Seats.Plugin.Sit | workflows/agentic-analysis/af_opencode.js:30-35 | a free seat is taken at once, and otherwise the call queues |
| Seats.Plugin.Stand | workflows/agentic-analysis/af_opencode.js:37-42 | a seated call's seat goes to the first in the queue or is free again; any other call changes nothing |
| Seats.SeatsAreConserved | workflows/agentic-analysis/af_opencode.js:19-42 | on every interleaving seats free, taken and being handed over add up, a free one means nobody waits, and seats are handed over in arrival order |
| Seats.StandIsIdempotent | workflows/agentic-analysis/af_opencode.js:37-42 | standing up twice is standing up once |
| Seats.EndedHoldsSeatExactly | workflows/agentic-analysis/af_opencode.js:387 | a call whose end was last seen at a step holds a seat afterwards if and only if it still queued then and has taken its seat since |
| Seats.SeatIsStuck | workflows/agentic-analysis/af_opencode.js:387 | a run of one seat and two calls that ends with the seat held by a call whose end was seen |
| Heartbeat.Observer.Frozen | apps/af-utils/pixi-global-sync/sync-global-env.py:170-174 | one look updates what was seen and answers from it |
| Heartbeat.FrozenIffRunIsOld | apps/af-utils/pixi-global-sync/sync-global-env.py:158-174 | the answer is frozen exactly when the current run of equal stamps was first seen more than the threshold ago |
| Heartbeat.LiveHolderTakenOverExactly | apps/af-utils/pixi-global-sync/sync-global-env.py:151-208 | from its first write on, a holder that writes a stamp of its own at least once per threshold is taken over, by a waiter that may have seen earlier holders, if and only if all polls found no stamp since one more than the threshold ago |
| Heartbeat.BeatingHolderIsLeft | apps/af-utils/pixi-global-sync/sync-global-env.py:151-208 | so from its first write on it is not taken over by a poll that reads its heartbeat whole, whatever the polling times |
| Heartbeat.TornReadsTakeOver | apps/af-utils/pixi-global-sync/sync-global-env.py:151-208 | a live holder taken over by a waiter whose reads are all torn |
| Heartbeat.SafeExactlyInTime | apps/af-utils/pixi-global-sync/sync-global-env.py:170-174 | no polls that read its heartbeat whole take a holder over if and only if no two of its writes are more than the threshold apart |
| Heartbeat.AttemptsInTime | apps/af-utils/pixi-global-sync/sync-global-env.py:222-289 | two attempts of an installation beat in time if and only if what is left of the first after its last write, the wait, and BEAT_S are within the threshold |
| Heartbeat.WaitsInTime | apps/af-utils/pixi-global-sync/sync-global-env.py:266-289 | for every such failure, if and only if the wait is half a minute at most |
| Heartbeat.InstallerPauses | apps/af-utils/pixi-global-sync/sync-global-env.py:266-289 | both waits the installer makes are too long for an attempt of 45 seconds, and polls see it |
| Heartbeat.AcquireLock | apps/af-utils/pixi-global-sync/sync-global-env.py:177-208 | the wait ends in the first round that makes the directory or finds the heartbeat frozen, with a heartbeat written then and only then |
| LockRuns.OneInsideExactly | apps/af-utils/pixi-global-sync/sync-global-env.py:177-212 | whatever the interleaving of processes, with heartbeats read whole and written in time, two are past their waits at once if and only if one finds the heartbeat frozen between another's wait and its first write |
| LockRuns.TwoTakeOver | apps/af-utils/pixi-global-sync/sync-global-env.py:177-208 | a run in which two waiters take over a dead holder's lock, and both hold it |
| Heartbeat.SilentHolderIsTakenOver | apps/af-utils/pixi-global-sync/sync-global-env.py:158-208 | a stamp that stays is taken over at the first look more than the threshold later |
| LogBuffer.KeepLogs | apps/ray-train/gateway.py:2954-2977 | for every chunking the last LOG_BYTES are kept, within 2 LOG_BYTES and one message, and a notice tells when the stream was longer |
| LogBuffer.NoticeIff | apps/ray-train/gateway.py:2963-2977 | the notice comes with every longer stream but one whose last bytes made the buffer trim |
| LogBuffer.SilentCut | apps/ray-train/gateway.py:2963-2977 | one message of 2 LOG_BYTES + 1 bytes is cut without the notice |

## Where the code and its promises part

- A cluster replaced in place while it is still listed is counted as it is listed, not as it was granted (apps/ray-train/gateway.py:2549-2566), and a name admitted again before it is listed as it was granted last: `AdmissionRuns.StepIsSafeExactly` says when a step lets the next admission overbook, `AdmissionFailures.ReplacementOverbooks` and `AdmissionFailures.ReadmissionOverbooks` how.
- A job's record is said to be kept seven days after the job ends (apps/ray-train/gateway.py:2183); a job without outputs that ran for as long loses it at once, as the pass measures from when the job began to run (`NrpPromises.RecordGoesWithItsEnd`).
- A pass works on a listing and a call on what it read, so requests are made on what may have changed. Then a stopped job can be revived (`NrpPromises.GoesBackExactly`, `NrpFailures.StoppedJobResumes`), be shown as ended while it runs (`NrpPromises.NoEarlyEnd`), and one that starts behind a stop's back lose its outputs (`NrpPromises.OutputsLostExactly`, `NrpFailures.LateStartLoses`).
- A delete ignores what NRP answers to its DELETE of the record (apps/ray-train/gateway.py:2042-2059), and goes on to data that may be all there is of a failed copy back (`NrpPromises.OutputsLostExactly`, `NrpFailures.RefusedDeleteLoses`).
- An error ends a task call that still queues, and `stand` does nothing for it then (workflows/agentic-analysis/af_opencode.js:37-42): it is later handed a seat that only another end of it would free (`Seats.EndedHoldsSeatExactly`, `Seats.SeatIsStuck`).
- A heartbeat that is missing or torn on every poll freezes like one that stays (apps/af-utils/pixi-global-sync/sync-global-env.py:151-156): `Heartbeat.LiveHolderTakenOverExactly` says when a live holder is taken over for it, `Heartbeat.TornReadsTakeOver` how.
- A live holder is to keep its heartbeat changing (apps/af-utils/pixi-global-sync/sync-global-env.py:152-153), but the installer's waits between attempts are longer than the threshold allows (`Heartbeat.WaitsInTime`, `Heartbeat.InstallerPauses`).
- Two waiters that find a dead holder's heartbeat frozen before either writes both hold the lock (`LockRuns.OneInsideExactly`, `LockRuns.TwoTakeOver`).
- The managed block is said to be idempotent (docker/purdue-af/scripts/managed-block.py:9); it is exactly under the condition of `ManagedBlock.IdempotentExactly`.
- The notice of cut logs can be missing from a longer stream (`LogBuffer.NoticeIff`, `LogBuffer.SilentCut`).

## Left out

- Floating point: times, speeds and shares are reals or rationals (SHARE is 7/20, CUT_SHRINK 4/5); a client's `max_tokens` is not negative.
- Gate.Gate.Adjust: takes as inputs whether there are enough speed samples and whether they are slow; the deques, medians and quantiles behind that, and `cap`'s quantile in `Forward.SizeIsMost`, are not modelled.
- Gate.Gate.Failed: does not model the failure counters and the health they decide; health is an input of `Proxy.Proxy.Pick`.
- Forward.Run: takes the gate's answers, the exchange's outcome, health and the passing of time as inputs; that a client which is gone stays gone is assumed, without which the loop need not end.
- Forward.Send: reads of a reply only its status, completeness, flaw, finish, size and time; the parsing of tool arguments is an input.
- Prefixes.WithoutPrefixes: the trie is a value that each prefix replaces, not a dict changed through a reference; the sharing of nodes during the descent is not modelled.
- Ownership.VisibleExactly: works on regexes, not on their escaped text, with `.` any character and matchers anchored; the names of `Owned` are lists in any order, and the namespace is the default one.
- Scope.Run: the parser and printer are parameters, a visit reaches every selector, and selector nodes are places in an array; error texts are not modelled.
- Admission.Gateway.Admit: the listing and Prometheus's answer are inputs; the answers of Kubernetes, the user and the refusal's text are not modelled.
- AdmissionRuns.WithinBudget: covers runs with Prometheus silent; with its answer, budgets do not bound an admission. No grant runs out while a call under way relies on it, and a cluster is listed once it is created.
- Cluster.BuildGroups: of a template only the worker containers' amounts are modelled, not names, users, environment or priorities beyond preemptible or not.
- NrpPromises.OutputsLostExactly: takes what KubeRay shows of a start to be the start itself, a DELETE that NRP takes to end the record at once, and what a job writes again after a copy back to be copied.
- NrpRuns.StepKeeps: does not model the submission of a job, its refusals, nor the reaper's deletion of code that no listed job took.
- NrpRoom.ByModel: nodes come with their amounts; the five Prometheus queries and the order of the models by name are not modelled.
- LinkingRuns.LinksDescend: states are drawn new each time; encryption, the file's atomic replacement and the Hub's own checks are not modelled.
- Heartbeat.BeatingHolderIsLeft: stamps are all different, and a write is put in place at once.
- Heartbeat.AttemptsInTime: an attempt's first write comes BEAT_S after its start; attempts shorter than that, which write nothing, are not modelled.
- LockRuns.OneInsideExactly: reads are whole and live holders beat in time; what happens otherwise to one waiter is in `Heartbeat`.
- LogBuffer.KeepLogs: decoding and dropping the first, cut line are not modelled.
- HTTP, gRPC, WebSocket and Kubernetes plumbing, token relaying, sessions and spawners: input and output with shallow branching.
- The MCP tools, monitors, exporters, environment checks and the model manager: each turns answers of another system (Prometheus, LDAP, Triton, a file system) into a message, a metric or a file, so that what holds of it is for that system to promise.
