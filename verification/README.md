# Verification of the asynchronous task protocol and of the in-memory VM service

This project models the two concurrent parts of the VM API and proves properties of every run of them.

**The task protocol** (`Tasks`, `Polling`, `Protocol`, `ProtocolInvariant`, `ProtocolTheorems`, `Timing`,
`TaskStore`, `Compute`, `TaskOutcomes`, `Refinement`). A request handler calls Nova, writes a task record under a fresh id
and enqueues a job; a worker runs the job and updates the record; records expire, and every write re-arms
the expiry. `Protocol` is a step system over any number of requests and jobs, one clock, one expiring
store, and a Nova that answers or raises at every call. Every awaited call is a step of its own, so an
update is a GET step and a SET step with anything in between, and any process may die at any await.
`ProtocolInvariant` carries the ownership argument: a task id has one request and at most one job, the job
exists only once the request is over, so at most one live process can write under the id. `TaskStore` and
`Compute` are the classes in their own imperative form, `TaskOutcomes` says in plain statuses and texts
what they leave in the store, and `Refinement` shows that what their updates,
request handlers and job functions do to the store and the queue is what some run of the protocol does.

**The in-memory VM service** (`VmMachine`, `VmInvariant`, `VmTheorems`, `VmDraining`, `VmDying`,
`VmAutomaton`, `VmOutcomes`, `MockService`). Handlers and coroutines share a table of mutable VM dictionaries. A coroutine
either looks its VM up again or keeps an alias to the dictionary, so `VmMachine` has dictionaries as objects
and the table as references to them, and cuts every handler and coroutine at every await, where it may also
die. `MockService` is the same service as a class over real references, whose every request and every
resumption is one step of `VmMachine`.

**The clients** (`Client`, `Provider`) poll a task until it settles and write Terraform state afterwards;
`Client` states what a nil result says about the server's run, and `Provider` carries that through to the
state it writes. **`Pages`** is the slicing and the page arithmetic of the list operations.

Assumptions that the models make explicit:

- task ids, VM ids and snapshot ids drawn by the code are new, and the clock never goes back;
- each enqueued job is run once; a second run would write RUNNING over a terminal status;
- a Redis call that raises has had no effect, and the ttl is positive, as the SET command demands;
- Nova is an oracle: each call returns an arbitrary answer of its type or raises.

Two places where documentation and code differ, and the model follows the code:

- the task endpoint documents `pending → running → success | failed`; a snapshot of the real service goes
  from PENDING straight to SUCCESS and is never RUNNING, and a failing image call leaves it PENDING;
- the store is documented as safe across workers, but its update is not atomic; what is proved is that no
  two live processes ever write one key, whatever their number.

One property is false of the code as it stands: that a VM of the in-memory service never stays in BUILDING,
REBOOT, RESIZE or DELETED once nothing runs. It fails in two ways. `resize_vm` checks the status before an
await and captures the status to restore after it: `InterleavedHandlersStrand` is a run from one ACTIVE VM
that ends with every coroutine done and that VM in REBOOT. And a coroutine whose first store call raises
ends before it has written a status: `DeadThreadStrands` is a run, without a resize and with uninterrupted
handlers, that ends with nothing running and a new VM in BUILDING. Exactly when the code meets the property,
from any state of any run and whatever died before it:

- `SettlesExactlyWhen`, when nothing dies from there on: no VM that is to stay may be in one of three
  situations. It shows a transient status that no thread will replace; a resize holds a transient status to
  restore; a resize stands between its check and its capture while the VM shows a transient status or
  another thread has yet to show one.
- `SurvivesDeathsExactlyWhen`, when anything may die at any time: no VM may show a transient status, and no
  thread may be on its way to make one show it.

Along whole runs with requests, `Quiescence` says that a VM left transient with nothing running has a thread
that died before its last write, and that there is none with every thread done, provided a resize captured
such a status only of a VM whose deletion was accepted; `AtomicQuiescence` says that handlers which are not
interrupted at their await meet that proviso.

## Model

| member | source | states |
|---|---|---|
| Polling.GuardInRounds | app/services/_compute.py:276-279 | the loop goes on exactly while fewer than the timeout over the interval, rounded up, rounds were made |
| Polling.StopIsStreamVerdict | app/services/_compute.py:276-298 | where the polling loop stops, its verdict is that of the first ACTIVE or ERROR among the first ceil(timeout / 5) answers, exceptions and other statuses skipped, else the timeout failure |
| Polling.StopIsVerdict | app/services/_compute.py:276-298 | the verdict read off an endless stream and the verdict read off the answers consumed are the same |
| Polling.StopIsUnique | app/services/_compute.py:269-298 | the answers determine how many of them are asked for and the verdict |
| Polling.PollAnswers | app/services/_compute.py:276-298 | where the loop stops: SUCCESS iff an ACTIVE is among the first (timeout + 4) / 5 answers with no ACTIVE or ERROR before it, "VM entered ERROR state." iff an ERROR is, the timeout text iff neither occurs there; no other answer counts |
| TaskStore.RedisTaskStore.Create | app/services/task_store.py:30-50 | one SET of a PENDING record with one ttl to live; on a raise nothing is stored |
| TaskStore.RedisTaskStore.Update | app/services/task_store.py:52-77 | GET, change of the given fields, SET; no write when the key is missing or a call raises |
| TaskStore.RedisTaskStore.Get | app/services/task_store.py:79-83 | the record while its key lives, else nothing |
| TaskStore.RedisTaskStore.ListAll | app/services/task_store.py:85-90 | for exactly the keys that a get would find, in the order of the scan, the records it would find; no multi-get when there are none; raises when a call of it does |
| TaskStore.UpdateReadsBack | app/services/task_store.py:52-83 | after an update, get returns the old record with exactly the change asked for, and every other key reads as before |
| TaskStore.UpdateTouchesOneKey | app/services/task_store.py:61-77 | no update touches another key, and one that finds no record or raises writes nothing |
| TaskStore.PutExpires | app/services/task_store.py:73-77 | what is put is found for exactly the time to live |
| TaskStore.AliveIsFound | app/services/task_store.py:85-90 | a scan finds exactly the keys that a get does, with the same records |
| Compute.ComputeClient.PollUntilActive | app/services/_compute.py:269-298 | one RUNNING update, at most ceil(timeout / 5) reads, sleep below timeout + 5, then exactly one update with the verdict its answers call for |
| Compute.ComputeClient.DoDelete | app/services/_compute.py:300-314 | RUNNING, then SUCCESS or FAILED with the exception's text; a SUCCESS update that raises is followed by a FAILED one, a RUNNING update that raises by nothing |
| Compute.ComputeClient.DoResize | app/services/_compute.py:316-335 | the confirmation is asked for only after an accepted resize, 5 s later, and the record follows the first call that raises |
| Compute.ComputeClient.EnqueueJob | app/services/_compute.py:174-177 | raises without a pool, else adds one job or raises without adding any |
| Compute.ComputeClient.RecordAndEnqueue | app/services/_compute.py:197-199 | the record is stored before the job is enqueued, under the id the job carries, and stays when enqueueing raises |
| Compute.ComputeClient.CreateVm | app/services/_compute.py:179-199 | a create_server that raises leaves nothing; else the record and then the poll job of the server it named |
| Compute.ComputeClient.DeleteVm | app/services/_compute.py:201-205 | the same for a delete of a VM that can be read |
| Compute.ComputeClient.ResizeVm | app/services/_compute.py:232-241 | the same for a resize, whose job carries the flavor |
| TaskOutcomes.RequestLeaves | app/services/_compute.py:174-205 | a request returns exactly when it recorded and enqueued; the record is PENDING, with both times now, no error and no result; one that could not enqueue leaves that record alone, one that could not record leaves nothing |
| Compute.ComputeClient.CreateSnapshot | app/services/_compute.py:243-267 | the record is made before the image call and stays PENDING when that raises; else it ends SUCCESS with the image id |
| TaskOutcomes.SnapshotLeaves | app/services/_compute.py:243-267 | with Redis up, its record reads SUCCESS with the image id, or PENDING when the image call raised |
| TaskOutcomes.PollEnds | app/services/_compute.py:269-298 | with Redis up and the record outliving the work, it reads SUCCESS, or FAILED with the text for ERROR or for the timeout, as the answers call for, and nothing but status, error and update time changed |
| TaskOutcomes.DeleteEnds | app/services/_compute.py:300-314 | likewise SUCCESS when the delete returned, FAILED with the text of what it raised when it did not |
| TaskOutcomes.ResizeEnds | app/services/_compute.py:316-335 | likewise SUCCESS, or FAILED with the text of the first of the two calls that raised, the confirmation coming 5 s after the resize |
| TaskOutcomes.RedisErrorEnds | app/services/_compute.py:306-314 | when the work is done but the GET or the SET of the SUCCESS update raises, the record reads FAILED with that text |
| TaskOutcomes.PollTakesItsTime | app/services/_compute.py:276-279 | n reads take at least 5 n seconds, and just that when they are answered at once |
| ProtocolInvariant.RunInv | app/services/_compute.py:174-335 | every state of every run satisfies it |
| ProtocolTheorems.RunLater | app/services/_compute.py:174-335 | along a run histories only grow, owners never change, and what has ended stays as it ended |
| ProtocolTheorems.TaskIsolation | app/services/task_store.py:52-77 | in any interleaving the values stored under a key are a prefix of PENDING, RUNNING, SUCCESS or FAILED (PENDING, SUCCESS for snapshots), each the last one with one change; `error` exactly on FAILED, `result` exactly on a finished snapshot, identifying fields fixed, `updated_at` never decreasing; the store holds the last value or nothing |
| ProtocolTheorems.OneWriter | app/services/_compute.py:179-335 | two live processes with one task id are the same process |
| ProtocolTheorems.TerminalIsFinal | app/services/task_store.py:73-77 | once a record is terminal, its key later holds that record or nothing |
| ProtocolTheorems.KeysComeFromRequests | app/services/task_store.py:30-50 | every key present was put there by the request that drew it, starting as PENDING |
| ProtocolTheorems.AbsenceIsFinal | app/services/task_store.py:61-63 | once an update of a task found its key missing, nothing is ever written or found under it again |
| ProtocolTheorems.JobConservation | app/services/_compute.py:174-241 | jobs are in bijection with the create, delete and resize requests that returned, with the same task id, VM and kind of work; no other request has a job |
| ProtocolTheorems.SuccessIsBacked | app/services/_compute.py:284-335 | a stored SUCCESS means the worker saw ACTIVE (create), the delete returned, the resize and then its confirmation returned, or the image was made |
| ProtocolTheorems.PollVerdictInAnyRun | app/services/_compute.py:269-298 | in any run the third value under a creation's key is SUCCESS iff the last answer its job received is ACTIVE, FAILED with the ERROR text iff it is ERROR, FAILED with the timeout text iff none is either, and then (timeout + 4) / 5 were asked for |
| ProtocolTheorems.FailureQuotesFault | app/services/_compute.py:309-335 | in any run the error of a failed delete or resize is the message of the last call of its job that raised, that of Nova's last call when this one did |
| ProtocolTheorems.SnapshotNamesImage | app/services/_compute.py:254-266 | in any run a finished snapshot's result is the id of the image Nova answered with |
| ProtocolTheorems.ListingIsConsistent | app/services/task_store.py:85-90 | with any steps between its scan and its multi-get, a listing has no task twice, every task present at both ends, and each record with its value at the multi-get |
| Timing.TtlSuffices | app/services/task_store.py:73-77 | when ttl exceeds ceil(T / 5) * (5 + L) for a poll, L for a delete, 5 + 2L for a resize (plus the bounds on its Redis calls), a record found at RUNNING is present until the verdict is stored, which happens within that time; a finished job has stored it |
| Timing.DefaultTtlSuffices | app/services/_compute.py:31-33 | the shipped ttl, timeout and intervals meet that condition for Nova calls up to 1400 s |
| Timing.LongestInNumbers | app/services/_compute.py:276-328 | the longest time of each kind of work, written out in numbers |
| Timing.SleepsLast | app/services/_compute.py:277-327 | a poll asks, and a resize is confirmed, no earlier than 5 s after the step before |
| Refinement.UpdateIsTwoMoves | app/services/task_store.py:52-77 | one whole update of the store is the GET move and the SET move of its process, with the same effect and the same exception |
| Refinement.PollIsARun | app/services/_compute.py:269-298 | what PollUntilActive does to its key is what its queued job does in some run of the protocol |
| Refinement.DeleteIsARun | app/services/_compute.py:300-314 | the same for DoDelete |
| Refinement.ResizeIsARun | app/services/_compute.py:316-335 | the same for DoResize |
| Refinement.RequestIsARun | app/services/_compute.py:179-241 | what CreateVm, DeleteVm and ResizeVm do to their key and to the queue is what their request does in some run, the job in the queue being the new waiting process |
| Refinement.SnapshotIsARun | app/services/_compute.py:243-267 | the same for CreateSnapshot |
| Refinement.LeadsExtends | app/services/_compute.py:269-335 | such a stretch, begun in a reachable state, extends its run, so every theorem about runs applies to it |
| VmMachine.FromSeedKeepsLast | tests/mocks/openstack.py:81-83 | of the dictionaries the seed list gives for one id the last is the one in the table |
| VmOutcomes.RequestAccepted | tests/mocks/openstack.py:209-271 | a creation is always accepted, a deletion or a snapshot iff the VM is in the table, a resize iff it is there, ACTIVE or SHUTOFF, and the flavor known; which rejection each refusal gives |
| VmOutcomes.StoreStep | app/services/task_store.py:45-77 | each of the three SETs stores its record until now plus ttl, an expiry removes its key, and nothing else changes an entry |
| VmOutcomes.RecordIsKept | tests/mocks/openstack.py:136-156 | in every state of every run, the record of each accepted request that has not expired is in the store, PENDING until the first update, RUNNING while it works, SUCCESS once done, with its own operation, VM and result |
| VmOutcomes.DrainedSucceeds | tests/mocks/openstack.py:252-293 | with every thread done, each accepted request whose record has not expired has a SUCCESS record, and every snapshot is active |
| VmOutcomes.SnapshotStep | tests/mocks/openstack.py:265-294 | a snapshot appears, saving, when its handler resumes, is active when its sleep is over, and else never changes |
| VmOutcomes.SnapshotIsShown | tests/mocks/openstack.py:272-286 | the snapshot of every request that returned is there |
| VmTheorems.RunInv | tests/mocks/openstack.py:136-294 | every state of every run satisfies these invariants |
| VmTheorems.Quiescence | tests/mocks/openstack.py:136-263 | if a resize captures a transient status only of a VM whose deletion was accepted, a VM in one has a thread still to write or remove it, or one that died before it did; with nothing running only the latter, and with every thread done none |
| VmTheorems.AtomicQuiescence | tests/mocks/openstack.py:242-250 | uninterrupted handlers and clean seed data suffice for the same |
| VmDraining.SettlesExactlyWhen | tests/mocks/openstack.py:136-263 | in any state of any run, dead threads included: every continuation without requests and further deaths leaves no VM transient once nothing runs, if and only if no VM that is to stay is unowed, held or about to be captured in a transient status |
| VmDraining.SettlesBetweenHandlers | tests/mocks/openstack.py:252-260 | with every transient status owed and no resize between check and capture, it is so if and only if no resize holds a transient status to restore to a VM that is in the table and not on its way out |
| VmDraining.InterleavedHandlersStrand | tests/mocks/openstack.py:244-250 | interrupted handlers do reach such a capture: a run from one ACTIVE VM that ends in REBOOT with everything done |
| VmDraining.DeadThreadStrands | tests/mocks/openstack.py:144-151 | without any resize and with uninterrupted handlers: the coroutine of a creation dies at its first update, and with nothing running the new VM is left in BUILDING |
| VmDying.SurvivesDeathsExactlyWhen | tests/mocks/openstack.py:136-263 | in any state of any run: every continuation without requests, whoever dies in it and when, leaves no VM transient once nothing runs, if and only if no VM shows a transient status and no thread is still to make one show it |
| VmTheorems.RemovalIsPermanent | tests/mocks/openstack.py:215-219 | once a delete record is SUCCESS, no later step of any run makes that VM readable or listed |
| VmTheorems.MarkIsSticky | tests/mocks/openstack.py:209-213 | a VM marked DELETED with no other status writer outstanding is never read or listed again, whatever is requested |
| VmTheorems.MarkCanBeUndone | tests/mocks/openstack.py:145-151 | with a status writer outstanding on a VM in the table, that thread alone can make it readable |
| VmTheorems.WorkRunsOut | tests/mocks/openstack.py:136-156 | once requests stop, every resumption uses up work, so at most the remaining work follows |
| VmTheorems.DrainedMeansSuccess | tests/mocks/openstack.py:252-293 | no step is left exactly when no work is, and with every thread done every stored record is SUCCESS and every snapshot active |
| VmTheorems.FlavorIntegrity | tests/mocks/openstack.py:242-258 | in every reachable state a VM's flavor is its seed or creation flavor or one, known to the service, that an accepted resize of it asked for |
| VmTheorems.ListingIsSound | tests/mocks/openstack.py:165-167 | a listing shows only current entries that a read would find and that pass the status filter |
| VmTheorems.ListingIsComplete | tests/mocks/openstack.py:165-167 | and leaves out none of them |
| VmTheorems.ListingHasNoRepeats | tests/mocks/openstack.py:165-171 | and shows no VM twice |
| VmTheorems.ListingKeepsOrder | tests/mocks/openstack.py:165-171 | and keeps the table's order |
| VmAutomaton.SoloUntil | tests/mocks/openstack.py:136-156 | other VMs' requests and coroutines do not disturb a VM with one thread at work |
| VmAutomaton.ActionAccepted | tests/mocks/openstack.py:46-53 | START is accepted iff SHUTOFF, STOP iff ACTIVE or SUSPENDED, a reboot and SUSPEND iff ACTIVE, a hard reboot iff ACTIVE, ERROR or SHUTOFF, RESUME iff SUSPENDED; which of the two rejections the others get |
| VmAutomaton.DrainedOutcome | tests/mocks/openstack.py:224-263 | a drained STOP leaves SHUTOFF, SUSPEND leaves SUSPENDED, any other action ACTIVE, a resize the old status and the new flavor; the VM is stamped after the request was accepted |
| VmAutomaton.RoundTrip | tests/mocks/openstack.py:46-62 | after a drained STOP a START, and after a SUSPEND a RESUME, is accepted and when drained leaves ACTIVE |
| VmAutomaton.ShownMeanwhile | tests/mocks/openstack.py:136-151 | while it sleeps, a resize shows RESIZE, a reboot of either kind REBOOT, any other action the old status |
| VmAutomaton.DrainedCreation | tests/mocks/openstack.py:179-207 | a drained creation leaves its VM ACTIVE with the flavor asked for |
| VmAutomaton.DrainedDeletion | tests/mocks/openstack.py:209-222 | a drained deletion leaves its VM out of the table |
| VmAutomaton.DrainedRunsRefineTables | tests/mocks/openstack.py:46-62 | for any sequence of actions, each drained before the next, the accepted ones and the status reached are those of the action automaton written out status by status, and the flavor does not change |
| MockService.MockOpenStackService.constructor | tests/mocks/openstack.py:68-83 | the service starts in the state its seed list describes |
| MockService.MockOpenStackService.CreateVm | tests/mocks/openstack.py:179-181 | up to its await, the handler is a request event of the machine, enabled when the id it drew is new |
| MockService.MockOpenStackService.DeleteVm | tests/mocks/openstack.py:209-211 | the same; an unknown VM is refused and nothing changes |
| MockService.MockOpenStackService.PerformAction | tests/mocks/openstack.py:224-236 | the same; refused unless the table allows the action in the current status |
| MockService.MockOpenStackService.ResizeVm | tests/mocks/openstack.py:242-248 | the same; refused unless ACTIVE or SHUTOFF and the flavor is known, in this order |
| MockService.MockOpenStackService.CreateSnapshot | tests/mocks/openstack.py:265-271 | the same; an unknown VM is refused |
| MockService.MockOpenStackService.Resume | tests/mocks/openstack.py:136-294 | one resumption of a handler or coroutine, with in-place writes through whatever reference it holds, is one step of the machine |
| MockService.MockOpenStackService.FinishHandler | tests/mocks/openstack.py:182-206 | the rest of each handler has the machine's effect, and a resize captures the status it finds then |
| MockService.MockOpenStackService.Announce | tests/mocks/openstack.py:145-147 | the first status write goes through the table for a transition, through the alias for a resize |
| MockService.MockOpenStackService.Conclude | tests/mocks/openstack.py:149-151 | and so the last one; a delete pops its id, a snapshot becomes active |
| MockService.MockOpenStackService.GetVm | tests/mocks/openstack.py:173-177 | raises exactly when the VM is absent or DELETED |
| MockService.MockOpenStackService.ListVms | tests/mocks/openstack.py:158-171 | the slice of the filtered table, and the length of all of it |
| Pages.PagesTile | app/services/_compute.py:123-125 | the pages concatenate to exactly the list |
| Pages.ElementOnItsPage | app/schemas/common.py:28-41 | element i is at index i mod limit of the response with page number i div limit + 1, and every page carries the length of the list |
| Pages.PageAt | app/schemas/common.py:28-41 | at any offset the page has what is left, at most limit of it, its j-th element is element offset + j of the list, and its number is that of the page the offset is on |
| Pages.ListImages | app/services/_image.py:18-50 | skips what cannot be converted, then slices; the total counts what was kept |
| Pages.ConvertedIsSubsequence | app/services/_image.py:26-49 | what is kept are the convertible elements, all of them, in their order |
| Client.ApiClient.WaitTask | terraform/provider-vmapi/internal/provider/client.go:284-318 | polls the task it was given; nil exactly on an observed success; stops at the first reply that settles; at most floor(T / I) + 1 reads; returns within T + H + I when requests take at most H |
| Client.JudgedRecord | terraform/provider-vmapi/internal/provider/client.go:298-310 | a reply settles nothing iff the record is PENDING or RUNNING, is nil iff SUCCESS, a failure with the record's text iff FAILED, not found iff absent |
| Client.JudgedText | terraform/provider-vmapi/internal/provider/client.go:298-310 | the same by the text of the status, in any case of letters; any other text is an unknown status |
| Client.WaitGoesOn | terraform/provider-vmapi/internal/provider/client.go:287-316 | answered by states of a run, the client asks on exactly while those hold a PENDING or RUNNING record of the task |
| Client.WaitIsSound | terraform/provider-vmapi/internal/provider/client.go:284-300 | a nil wait saw SUCCESS in a state of the run, backed by Nova's answers, and no later state holds another record |
| Client.NilMeansPerformed | app/services/_compute.py:284-335 | a nil wait for the task of a request accepted in a run means that Nova did that work on that VM: ACTIVE seen, deleted, or resized to that flavor and then confirmed |
| Client.NilMeansGone | tests/mocks/openstack.py:209-222 | against the in-memory service, after a nil wait for a deletion no state from the one that gave the last reply on has that VM readable or listed |
| Provider.ResizeHappened | terraform/provider-vmapi/internal/provider/resource_vm.go:225-235 | when the task of a resize that a run accepted was seen to succeed, a job under that task id got the resize of that VM to that flavor and then its confirmation from Nova |
| Provider.VmResource.Create | terraform/provider-vmapi/internal/provider/resource_vm.go:153-176 | state is written exactly when the request, the wait for the task it named, the read-back of the VM it named, flattening and storing all succeeded, and then that VM was seen ACTIVE in the run that served it; else one diagnostic |
| Provider.VmResource.Update | terraform/provider-vmapi/internal/provider/resource_vm.go:225-253 | state is written only if the flavor was unchanged or the task of the resize of this VM to the planned flavor was seen to succeed, and then Nova did resize and confirm it in the run that served it; it holds what was read back of this VM; removed only if that is gone |
| Provider.VmResource.Delete | terraform/provider-vmapi/internal/provider/resource_vm.go:268-280 | no diagnostic exactly when the VM was already gone or the task of its deletion was seen to succeed, and then Nova's delete of it had returned in the run that served it |

## Left out

- Reruns of a job by the queue: each job is run once.
- Redis and queue internals, serialization, connection set-up; a Redis call either happens or raises without effect.
- Response bodies of the requests beyond the VM id and the task record.
- The OpenStack SDK, its state map and response conversion: Nova is an oracle over statuses.
- `perform_action` and `get_console_url` of the real service: a read followed by one SDK call, without task or job.
- Endpoints, authentication, error-to-status table, logging, settings.
- VM fields other than id, status, flavor and `updated_at`, and the name filter of the in-memory `list_vms`.
- MockService.MockOpenStackService.ListVms: takes the insertion order of the table as a parameter, because a map here has none.
- The lengths of the in-memory service's sleeps: any interleaving of its coroutines is a run.
- Resetting the in-memory service by calling its initializer again, which discards state under running coroutines.
- Client.ApiClient.WaitTask: requires a positive interval, which the provider's configuration enforces (provider.go:134-150); the text of a failure without message is not modelled.
- Terraform schemas, plan decoding, field expansion and flattening, data sources and the volume resource.
