# Gandi driver for docker machine, modelled in Dafny

This project models the Gandi driver of docker machine (`gandi.go`). The driver creates, starts, stops,
restarts, kills and removes a Gandi hosting VM through the provider's XML-RPC API. It also maps
the VM's provider state to docker machine's generic machine state, and answers the VM's IP
address and docker URL.

The remote service is an oracle. It is a finite script of replies, one consumed per call, plus
a log of the requests sent, held by the class `Rpc.Api`. A call whose reply is a fault fails
with that fault. A call whose reply does not decode into the result type the driver passes fails
as undecodable. A call made after the script is exhausted does not return, which is the verdict
`Hang`. Together these cover every behaviour of the service that this model distinguishes, including a
`waitForOp` that polls forever.

Modules:

- `Wire`: the records exchanged with the API, the remote procedures with their arguments, and
  the replies.
- `Rpc`: the oracle, the driver's errors, and the shape of a run. A run is a verdict, the
  requests sent in order, and the replies left. `Accounted` says one reply is consumed per
  request.
- `MachineState`: docker machine's generic states.
- `Gandi`: each driver operation as a function of the script (the `...Run` functions), and the
  lemmas about them.
- `GandiDriver`: the driver as a class with the driver's fields. Each of its methods that calls
  the service performs the calls step by step against the oracle, and is proved to perform
  exactly the run of its function in `Gandi`.

The main properties are these:

- `waitForOp` succeeds exactly when "DONE" is read, on the first poll or after re-polled
  statuses that are all "BILL", "WAIT" or "RUN".
- `waitForOp` fails on a bad status only for a re-polled status; the first status is never
  checked. It never returns exactly when no reply decides it.
- `GetState` maps the provider states onto the generic states as a total, exact mapping. It
  returns the Error state together with the call's error instead of failing.
- `Remove` stops the VM only when it reports running. If the stop fails, `Remove` never
  deletes. Otherwise the deletion's verdict is `Remove`'s.
- `Create` records the VM id before reading its IP. A VM without an IP address therefore keeps
  its id and fails on the index.
- `GetURL` is the docker URL of the recorded address, and its host part is that address.
- The bad-status error text names its operation and status unambiguously.

## Model

| member | source | states |
|---|---|---|
| Gandi.StateOf | gandi.go:271-285 | the exact set of provider states behind each generic state: "being_created" is Starting; "paused", "locked" and "legally_locked" are Paused; "running" is Running; "halted" and "deleted" are Stopped; "invalid" is Error; every other state is None |
| Gandi.GetStateRun | gandi.go:264-286 | one `hosting.vm.info` request for the VM id; it is never a failure; a VM reply gives its mapped state without error; a failed call, whether a fault or an undecodable reply, gives Error together with the call's error; it hangs only on an exhausted script |
| Rpc.Exchange | gandi.go:134-136 | one call consumes one reply; it hangs exactly when no reply is left; it returns the reply exactly when that reply is not a fault and decodes into the expected type; a fault becomes the call's error |
| Rpc.Api.Call | gandi.go:134-136 | the oracle logs the request and consumes the reply exactly as `Exchange` describes |
| Gandi.WaitRun | gandi.go:182-204 | `waitForOp` consumes one reply per request and sends at least one request; every request it sends is `operation.info` for the awaited operation |
| Gandi.Repoll | gandi.go:188-202 | the re-polling loop keeps the same accounting, and polls only the awaited operation |
| Gandi.RepollSettles | gandi.go:188-202 | the loop ends with the verdict of the first re-polled reply that is not "BILL", "WAIT" or "RUN": "DONE" succeeds, another status fails with that status, and a failed call fails with its error; it sends exactly one poll per reply up to that one |
| Gandi.RepollHangs | gandi.go:188-202 | while every re-polled status stays in progress, the loop never returns and polls once per reply and once more |
| Gandi.WaitDecided | gandi.go:182-204 | `waitForOp` ends with the verdict of the reply that decides it, after exactly one poll per reply up to it |
| Gandi.WaitHangs | gandi.go:182-204 | with no reply or with a first status other than "DONE" followed only by statuses in progress, `waitForOp` never returns |
| Gandi.DecidedOrHangs | gandi.go:182-204 | for every script, either some reply decides `waitForOp` or it never returns |
| Gandi.WaitSucceeds | gandi.go:182-204 | `waitForOp` succeeds if and only if "DONE" is read first, or after a first non-"DONE" status and re-polled statuses all in progress; it then polls exactly once per reply up to the "DONE" |
| Gandi.WaitRejectsStatus | gandi.go:195-201 | `waitForOp` fails with "Bad operation status" for a status if and only if that status, neither "DONE" nor in progress, is read on a re-poll after statuses in progress |
| Gandi.WaitNeverReturns | gandi.go:182-204 | `waitForOp` never returns if and only if the script runs out with no reply deciding it |
| Gandi.FirstStatusExempt | gandi.go:185-198 | a first status outside "DONE" and in-progress does not fail the wait, while the same status on a re-poll does |
| Gandi.VmOperationRun | gandi.go:288-299 | a VM action sends the action request first, then only polls of the operation the action returned, one reply per request; `VmOperationVerdict` ties those polls, the leftover replies and the verdict to `WaitRun` |
| Gandi.VmOperationVerdict | gandi.go:291-298 | a failed action call is returned unchanged as the action's error; once the action returns an operation, the verdict, the polls after the action request and the replies left over are exactly the wait's, so a bad status or a failed poll reaches the caller and nothing is polled after "DONE" |
| Gandi.VmOperationSucceeds | gandi.go:288-299 | a VM action succeeds if and only if the action returns an operation and the wait on that operation succeeds |
| Gandi.RemoveRun | gandi.go:314-334 | `Remove` consumes one reply per request; its first request is always the state query on the VM, and when that query never returns, `Remove` never returns |
| Gandi.RemoveStopsOnlyRunning | gandi.go:315-321 | `Remove` sends a stop request if and only if the VM details report "running" |
| Gandi.RemoveAbortsWhenStopFails | gandi.go:316-320 | when the stop fails or never returns, `Remove` ends with the stop's verdict after the state query and the stop's requests, and nothing else; in particular it never sends a delete request |
| Gandi.RemoveDeletesWhenNotRunning | gandi.go:315-333 | unless the VM is reported running, `Remove` deletes right after the state query, even when that query failed, and its verdict is the deletion's |
| Gandi.RemoveDeletesAfterStop | gandi.go:316-333 | after a successful stop, `Remove` sends the delete request, and its verdict is the deletion's |
| Gandi.DatacenterByCodeRun | gandi.go:154-167 | one `hosting.datacenter.list` request; it succeeds if and only if exactly one datacenter matches, and returns that one; "Datacenter not found" if and only if a list of another length comes back; a failed call returns the call's error unchanged |
| Gandi.ImageByNameRun | gandi.go:169-180 | one `hosting.image.list` request filtered by name and datacenter; it succeeds if and only if exactly one image matches, and returns that one; "Image not found" if and only if a list of another length comes back; a failed call returns the call's error unchanged |
| Gandi.VmByIdRun | gandi.go:131-138 | one `hosting.vm.info` request; it succeeds if and only if VM details come back, and returns them; a failed call returns the call's error unchanged |
| Gandi.VmByNameRun | gandi.go:140-152 | it succeeds if and only if exactly one VM has the host name and its details come back, after a search request and a details request for that VM's id; "Vm not found" if and only if the search returns another number of VMs; a failed search or details call returns that call's error unchanged; unless the search finds exactly one VM, the search is the only request sent |
| Gandi.VmByNameLooksUpDetails | gandi.go:148-151 | after a search that finds exactly one VM, `vmByName` is `vmById` on that VM's id: same verdict, with the search request followed by the details request |
| Gandi.RecordRun | gandi.go:245-253 | the VM id is recorded if and only if the lookup by name succeeds, and it is the details reply's id; the IP is recorded if and only if the whole step succeeds, and it is the first IP of the first interface; an id without an IP means the index panic |
| Gandi.LaunchRun | gandi.go:223-253 | the tail of `Create` first sends `hosting.vm.create_from` with IP version 4, the sudo run command and a 5120 MB disk; it succeeds exactly when it records an IP, and an id without an IP means the index panic |
| Gandi.CreateRun | gandi.go:206-254 | a failed SSH key ends `Create` before any request; the IP is recorded if and only if `Create` succeeds; it is recorded only with the VM id; an id without an IP means the index panic |
| Gandi.RecordSucceeds | gandi.go:245-251 | the record step succeeds if and only if the VM is found by name and its first interface has an address |
| Gandi.RecordFails | gandi.go:245-248 | a failed lookup by name ends the record step with that lookup's own error, after its requests, with no id and no IP recorded |
| Gandi.LaunchRecords | gandi.go:242-253 | once `create_from` returns at least three operations and the wait on the third succeeds, the record step decides the tail of `Create`: its verdict, its requests after `create_from` and the polls, and the id and IP recorded |
| Gandi.LaunchSucceeds | gandi.go:237-251 | the tail of `Create` succeeds if and only if `create_from` returns at least three operations, the wait on the third one succeeds, and the VM is then recorded |
| Gandi.LaunchShortOperationList | gandi.go:239-242 | a `create_from` that returns fewer than three operations ends in the index panic on `res[2]`, after that one request and with no id recorded |
| Gandi.LaunchFails | gandi.go:239-244 | a fault or an undecodable reply to `create_from` ends the tail of `Create` with that error after one request; a failed or never-returning wait on the third operation ends it with the wait's verdict, after `create_from` and the polls, with no id recorded |
| Gandi.CreateRunsTail | gandi.go:212-253 | with a usable key, one datacenter and then one image found, `Create` ends with the tail's verdict, sends the two lookups and then the tail's requests, and records the tail's id and IP |
| Gandi.CreateSucceeds | gandi.go:206-254 | `Create` succeeds if and only if the SSH key is usable, exactly one datacenter and then exactly one image in it are found, and the tail succeeds on them |
| Gandi.CreateFails | gandi.go:213-221 | with a usable key, a failed datacenter lookup ends `Create` with that lookup's error after its one request; a failed image lookup ends it with the image lookup's error after the two lookups; nothing is recorded |
| Gandi.LaunchWitness | gandi.go:237-253 | on a script where `create_from` returns at least three operations, the third reads "DONE" at once, and exactly one VM with an address is found, the tail of `Create` succeeds and records that VM's id and first address |
| Gandi.CreateWitness | gandi.go:206-254 | with a usable key, one datacenter, one image and the script above, `Create` succeeds and records the VM's id and first address, consuming the whole script |
| Gandi.LaunchRecordsOnlyAfterWait | gandi.go:242-250 | the tail of `Create` records a VM id only after `create_from` returned at least three operations and the wait on the third succeeded |
| Gandi.LaunchSequence | gandi.go:237-251 | once an id is recorded, the requests were `create_from`, polls of its third operation, the search by machine name, and the details of the one VM found; the id and the IP come from that details reply |
| Gandi.CreateSequence | gandi.go:213-251 | once an id is recorded, the datacenter was looked up by code, then the image by name in that datacenter, each found exactly once, and the tail ran on them |
| Gandi.DockerUrl | gandi.go:261 | the docker URL of an address is `tcp://<address>:2376`, and the host read back from it is that address |
| Gandi.DecimalRoundTrip | gandi.go:200 | reading back an operation id printed with `%d` gives that id |
| Gandi.BadStatusMessageRoundTrip | gandi.go:200 | the "Bad operation status for <op> : <status>" text gives back its operation and its status, whatever the status text |
| GandiDriver.Driver.NewDriver | gandi.go:99-108 | a new driver has the default image "Ubuntu 14.04 64 bits LTS (HVM)" and datacenter "LU-BI1", and the given machine name and store path; every other field is zero |
| GandiDriver.Driver.SetConfigFromFlags | gandi.go:83-97 | all six options are copied, even when the API key is missing; the only error is the missing API key, raised if and only if the key is empty |
| GandiDriver.Driver.DriverName | gandi.go:110-112 | the driver is named "gandi" |
| GandiDriver.Driver.GetIP | gandi.go:118-123 | it fails with "IP address is not set" if and only if the address is "" or "0", and otherwise answers the recorded address |
| GandiDriver.Driver.GetSSHHostname | gandi.go:114-116 | the SSH host name is answered if and only if an address is set, and it is that address |
| GandiDriver.Driver.GetURL | gandi.go:256-262 | it succeeds if and only if `GetIP` does; the URL's host part is the recorded address on port 2376; otherwise it fails with `GetIP`'s error |
| GandiDriver.Driver.WaitForOp | gandi.go:182-204 | the polling loop performs exactly the run `WaitRun` describes: same verdict, same requests, same replies left |
| GandiDriver.Driver.GetState | gandi.go:264-286 | performs exactly the run `GetStateRun` describes |
| GandiDriver.Driver.VmOperation | gandi.go:288-299 | one action call, then a wait on its operation; performs exactly `VmOperationRun` |
| GandiDriver.Driver.Start | gandi.go:288-299 | performs `VmOperationRun` for `hosting.vm.start` on the driver's VM |
| GandiDriver.Driver.Stop | gandi.go:301-312 | performs `VmOperationRun` for `hosting.vm.stop` on the driver's VM |
| GandiDriver.Driver.Restart | gandi.go:336-347 | performs `VmOperationRun` for `hosting.vm.reboot` on the driver's VM |
| GandiDriver.Driver.Kill | gandi.go:349-351 | is exactly a stop |
| GandiDriver.Driver.Remove | gandi.go:314-334 | performs exactly the run `RemoveRun` describes |
| GandiDriver.Driver.DatacenterByCode | gandi.go:154-167 | performs exactly `DatacenterByCodeRun` |
| GandiDriver.Driver.ImageByName | gandi.go:169-180 | performs exactly `ImageByNameRun` |
| GandiDriver.Driver.VmById | gandi.go:131-138 | performs exactly `VmByIdRun` |
| GandiDriver.Driver.VmByName | gandi.go:140-152 | performs exactly `VmByNameRun` |
| GandiDriver.Driver.Create | gandi.go:206-254 | performs exactly `CreateRun`; only the VM id and the IP address change, and only to the values that run records |
| GandiDriver.Driver.Launch | gandi.go:223-253 | the part of `Create` after the lookups performs exactly `LaunchRun`, and changes the id and the IP only as that run records |
| GandiDriver.Driver.Record | gandi.go:245-253 | the last step of `Create` performs exactly `RecordRun`: the id is assigned before the IP is read |

## Left out

- The XML-RPC transport is replaced by the oracle `Rpc.Api`. This covers `getClient` (gandi.go:353-359), including its nil client when the URL is malformed, the encoding of parameters, the decoding of replies beyond their shape, and network errors other than a fault reply.
- `Hang` stands for a call that never returns within the script. The Go code would block, or keep polling with `time.Sleep(5 * time.Second)` between polls. Time and the sleep are not modelled.
- Logging (`log.Debugf`, `log.Errorf`, `log.Infof`) and the `fmt.Printf` in `vmByName` and `datacenterByCode` are not modelled. They have no effect on results.
- `createSSHKey` and `publicSSHKeyPath` (gandi.go:361-377) generate and read key files. `Create` takes their outcome as an input `Result<string>`.
- `GetCreateFlags` (gandi.go:45-81) only declares flag names, defaults and help texts. `SetConfigFromFlags` takes the six values as a `DriverOptions` record instead of looking flags up by name. The flag defaults (URL, 512 MB, one core) are applied by the flag library, so they are not modelled.
- `PreCreateCheck` (gandi.go:125-128) always returns nil, so it has no behaviour to model.
- The fields `CaCertPath`, `PrivateKeyPath`, `SSHUser`, `SSHPort` and the lower-case `storePath` are never read or written by the driver's code, so they are not modelled. The base driver is reduced to its machine name and store path.
- bin/main.go, which only registers the driver as a plugin, is not part of this model. Neither are docker machine's `BaseDriver` and `state` packages, nor the declarations of the API record types, which are reduced to the fields the driver reads or sends.
- Go runtime panics on slice indexes (`res[2]` in `Create`, `NetworkInterfaces[0].Ips[0]`) are modelled as the error `IndexOutOfRange` returned at that point. Nothing else of the panic, such as unwinding, is modelled.
- Integers (`VmID`, memory, cores, operation ids) are unbounded. The driver only copies them, so Go's `int` width never matters.
- Errors are values of `Rpc.Error`, not their text. The one formatted text the driver builds, the bad-status message, is modelled by `Gandi.BadStatusMessage` and proved unambiguous.
- VmOperationRun: the function's own ensures state only the order and target of its requests. That the verdict, the polls and the replies left over are exactly `WaitRun`'s once the action returns an operation is stated by the lemma `VmOperationVerdict`, which keeps the proofs of `Remove` that unfold this function small.
- GandiDriver.Driver.Launch and GandiDriver.Driver.Record: `Create` is one function in the source. The model splits its tail into these two methods, which follow `LaunchRun` and `RecordRun`, so that each proof stays small.
