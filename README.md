# terraform-provider-proxmox, modelled in Dafny

This project models the core of a Terraform provider for Proxmox VE. It
covers the provider's configuration, the `lxc` resources (container,
linked clone, template), the `node_lxc` resource, and the node firewall
rule resources and data source. Each resource operation (Create, Read,
Update, Delete, ImportState) is modelled as the calls it makes to the
Proxmox cluster and the response it gives Terraform: diagnostics, and a
state that is left alone, written, or removed.

## How the model is built

- `gateway.dfy` stands for the Proxmox client. A `Gateway.Cluster` object
  holds a script of replies, one consumed per call, and records each call
  with its reply in a ghost trace. Once the script is exhausted, every
  further call fails. This is how the model states that the provider's
  unbounded polling loops (`for true`) end.
- Each operation that loops or calls the cluster is an imperative `method`
  on the `Cluster`, with its loops and their invariants. Each method's
  `ensures` ties its result, the replies left and the new trace to a
  specification function of the same name plus `Run`. That function returns
  the value, the rest of the script and the events.
- The properties are lemmas about those specification functions. They
  quantify over every possible script of replies, and so over every
  behaviour of the cluster.
- `plugin.dfy` holds the framework's response: `Diag(summary, detail)`
  diagnostics and the state outcome (`Unchanged`, `Written(model)`,
  `Removed`). A Go runtime panic is `Panic(reason)`.
- `decimal.dfy` holds `%d` formatting and `strconv.Atoi` with its 64-bit
  range. `strconv` is Go's standard library, so its source is not part of this
  model. `Atoi` is modelled on the digit loop of `strconv.ParseUint` and the
  range check of `strconv.ParseInt`. The unsigned loop reports a range error
  as soon as its accumulator passes 2^64 - 1, before it looks at the
  characters that follow. `lxc_net.dfy` holds the network conversions, `getVMID` and
  `formatSSHPublicKey`.
- `lxc_status.dfy`, `lxc_delete.dfy`, `lxc_net_ips.dfy` and
  `lxc_commands.dfy` model the helpers `updateLXCStatus`, `deleteLXC`,
  `computeLXCNetIPs` and `runLXCCommands`.
- `compensation.dfy` is the rollback (`deleteLXC` after a failed stage)
  that the `lxc` resources repeat.
- `lxc_resource.dfy`, `lxc_linked_clone.dfy`, `lxc_template.dfy`,
  `node_lxc.dfy`, `node_firewall.dfy` and `provider_config.dfy` model one
  source file each, or the three firewall files.

Where the code's behaviour is surprising, the model follows the code:

- `updateLXCStatus` returns the first status-query error at once. It counts
  every poll. After five polls, the first poll that issues a transition
  returns that call's result, so a successful Start or Stop ends the loop
  with success without the new status being observed
  (`LxcStatus.StartWithoutConfirmation`).
- In `computeLXCNetIPs`, a successful query with a missing address or a
  duplicated network name fails at once, without retrying.
- In `runLXCCommands`, the `break` under "SUCCEEDED" leaves only the
  `switch`. Every command therefore gets exactly three settled polls, and
  the last one decides.
- The `node_lxc` resource's `Create` has no rollback and no retry budget
  for its status loop.

## Model

| member | source | states |
|---|---|---|
| Decimal.FormatNat | internal/provider/lxc/lxc_resource.go:498 | the decimal writing of a natural number is a non-empty string of digits |
| Decimal.FormatNatValue | internal/provider/lxc/lxc_resource.go:498 | the digits written for `n` have the value `n` |
| Decimal.AtoiFormatInt | internal/provider/lxc/lxc_linked_clone.go:400-421 | every 64-bit id written in decimal is read back by `strconv.Atoi` unchanged and without error |
| Decimal.AtoiAccepts | internal/provider/provider.go:185-196 | what `strconv.Atoi` accepts is an optional sign, any number of zeros and the `%d` text of the value's magnitude, with a minus sign for a negative value; the value is within 64 bits |
| Decimal.AtoiReadsPadded | internal/provider/provider.go:185-196 | the converse: every optionally signed, zero-padded `%d` text whose value fits in 64 bits is accepted with that value |
| Decimal.AtoiOverflowClamps | internal/provider/provider.go:185-196 | a digit run worth more than 2^64 - 1 is a range error whatever follows it: the value is the 64-bit bound on the sign's side and the error says "value out of range" |
| LxcStatus.UpdateLXCStatus | internal/provider/lxc/helpers.go:55-108 | `updateLXCStatus`: its result, the calls it records and the replies it consumes are exactly those of `UpdateStatusRun` |
| LxcStatus.StatusIteration | internal/provider/lxc/helpers.go:64-104 | one pass of the loop body: whether the loop goes on or which error it returns: its result, the calls it records and the replies it consumes are exactly those of `PollStep` |
| LxcStatus.Transition | internal/provider/lxc/helpers.go:81-98 | the Start or Stop call issued towards the desired status consumes at most one reply |
| LxcStatus.PollStep | internal/provider/lxc/helpers.go:65-104 | every pass starts with a status query of the container, and a pass that continues consumes replies |
| LxcStatus.PollStepCalls | internal/provider/lxc/helpers.go:68-98 | one pass only queries the container's status and issues a Start only after "stopped" was seen, a Stop only after "running" was seen |
| LxcStatus.PollStepCounts | internal/provider/lxc/helpers.go:65-104 | one pass polls exactly once and transitions at most once; a pass that transitions and continues has a try number of at most five |
| LxcStatus.PollStepSuccess | internal/provider/lxc/helpers.go:76-104 | a pass returns success only when the poll saw the desired status, or an acknowledged transition was issued after the fifth poll |
| LxcStatus.StatusLoopCalls | internal/provider/lxc/helpers.go:55-108 | the whole loop queries and transitions only the given container, and every transition is justified by the poll right before it |
| LxcStatus.TransitionsBounded | internal/provider/lxc/helpers.go:62-104 | from the first poll on the loop issues at most six Start/Stop calls, whatever the cluster answers |
| LxcStatus.StatusSuccessMeans | internal/provider/lxc/helpers.go:76-107 | success means the last poll saw the desired status, or the last call was an acknowledged transition after five polls (success without confirmation) |
| LxcStatus.AlreadyInDesiredStatus | internal/provider/lxc/helpers.go:76-78 | a container already in the desired status costs one query and nothing else |
| LxcStatus.StatusQueryErrorIsReturned | internal/provider/lxc/helpers.go:68-74 | a failed status query is the last call of the loop and its error is what the loop returns |
| LxcStatus.UnsupportedStatusNeverTransitions | internal/provider/lxc/helpers.go:95-97 | a desired status other than "running"/"stopped" never issues Start or Stop, and only succeeds on a poll that sees that very status |
| LxcStatus.StartWithoutConfirmation | internal/provider/lxc/helpers.go:82-104 | polls that keep seeing "stopped", each followed by an acknowledged Start, end in success at poll six without "running" ever being observed |
| LxcStatus.StatusKinds | internal/provider/lxc/helpers.go:55-108 | the loop only polls statuses and issues transitions |
| LxcDelete.DeleteLXC | internal/provider/lxc/helpers.go:240-288 | `deleteLXC`: its result, the calls it records and the replies it consumes are exactly those of `DeleteRun` |
| LxcDelete.WaitUntilStopped | internal/provider/lxc/helpers.go:258-269 | the "check if stopped" loop: its result, the calls it records and the replies it consumes are exactly those of `WaitStopped` |
| LxcDelete.WaitUntilFree | internal/provider/lxc/helpers.go:275-286 | the "check if deleted" loop: its result, the calls it records and the replies it consumes are exactly those of `WaitFree` |
| LxcDelete.WaitStoppedShape | internal/provider/lxc/helpers.go:258-269 | the wait only queries the status; every answer but the last was a status other than "stopped"; it succeeds exactly when the last reads "stopped" and otherwise returns that query's error |
| LxcDelete.WaitFreeShape | internal/provider/lxc/helpers.go:275-286 | the wait only asks whether the id is free; every answer but the last was "not available"; it succeeds exactly when the last is "available" and otherwise returns that query's error |
| LxcDelete.BeforeDelete | internal/provider/lxc/helpers.go:246-269 | the stop phase and the wait issue no Delete |
| LxcDelete.DeleteBetween | internal/provider/lxc/helpers.go:259-273 | a Delete placed between delete-free calls, right after a poll that saw "stopped", is the only Delete and is justified |
| LxcDelete.DeleteOnlyWhenStopped | internal/provider/lxc/helpers.go:240-288 | at most one Delete, only of this container, only right after a poll that saw it stopped, and only when the status loop towards "stopped" succeeded |
| LxcDelete.DeleteAfterStopped | internal/provider/lxc/helpers.go:271-287 | once the container was seen stopped, the Delete and what follows keep the deletion guarded and settled |
| LxcDelete.DeleteOutcome | internal/provider/lxc/helpers.go:240-288 | success means exactly one Delete and a last answer that the id is free; a failure is the status loop's own error or the error of the last call |
| LxcDelete.DeleteKinds | internal/provider/lxc/helpers.go:240-288 | `deleteLXC` only polls, stops, deletes and queries the id |
| LxcCommands.RunLXCCommands | internal/provider/lxc/helpers.go:178-238 | running the commands: its result, the calls it records and the replies it consumes are exactly those of `CommandsRun` |
| LxcCommands.RunCommand | internal/provider/lxc/helpers.go:184-234 | one command: submission loop, then polling loop: its result, the calls it records and the replies it consumes are exactly those of `CommandRun` |
| LxcCommands.SubmitCommand | internal/provider/lxc/helpers.go:189-200 | the submission loop: its result, the calls it records and the replies it consumes are exactly those of `SubmitLoop` |
| LxcCommands.PollCommand | internal/provider/lxc/helpers.go:202-231 | the polling loop, where a running record does not use up a retry: its result, the calls it records and the replies it consumes are exactly those of `PollLoop` |
| LxcCommands.PollOnce | internal/provider/lxc/helpers.go:203-230 | one poll issues one result query; a running record leaves no error, any other reply leaves its verdict |
| LxcCommands.VerdictCases | internal/provider/lxc/helpers.go:205-229 | a failed query gives its error; "FAILED" gives its error message or none; "SUCCEEDED" fails with the output exactly when the exit code is not zero; any other status gives no error |
| LxcCommands.SubmitAttempts | internal/provider/lxc/helpers.go:189-197 | at most three submissions of the same command, all but the last refused, the result is the last reply, and a refusal only after all three |
| LxcCommands.PollOutcome | internal/provider/lxc/helpers.go:202-231 | the polling loop queries only this execution, has exactly three settled polls (running records on top), and returns the verdict of the last one |
| LxcCommands.CommandSplit | internal/provider/lxc/helpers.go:184-234 | a refused submission ends the command with its error; an accepted one is followed by the polling loop for the returned id |
| LxcCommands.CommandOutcome | internal/provider/lxc/helpers.go:184-234 | one command either fails after three refused submissions without a poll, or has three settled polls and the last verdict as outcome |
| LxcCommands.FirstFailureStops | internal/provider/lxc/helpers.go:198-234 | a failing run fails at some command k: the commands before it passed and nothing is issued after command k |
| LxcCommands.CommandsCounts | internal/provider/lxc/helpers.go:184-237 | at most three submissions per command; a successful run had exactly three settled polls per command |
| LxcCommands.CommandsKinds | internal/provider/lxc/helpers.go:178-238 | running the commands only submits executions and polls their results |
| LxcNet.ToPVELXCNet | internal/provider/lxc/lxc_resource.go:139-175 | every attribute of the network model is carried to the device, with the zero value for an absent one |
| LxcNet.TplToPVELXCNet | internal/provider/lxc/lxc_template.go:402-438 | the template network converts like the container network with the same attributes |
| LxcNet.ConversionUnique | internal/provider/lxc/lxc_resource.go:139-175 | the conversion is the only device that carries every attribute over |
| LxcNet.ToPVEFromPVE | internal/provider/lxc/lxc_resource.go:139-175 | a model holding every attribute of a device converts back to that device |
| LxcNet.ComputedIPNotSent | internal/provider/lxc/lxc_resource.go:139-175 | the computed address never reaches the cluster request |
| LxcNet.TplConversionAgrees | internal/provider/lxc/lxc_template.go:402-438 | the template's conversion agrees with the container's |
| LxcNet.NewPVELXCNets | internal/provider/lxc/helpers.go:45-53 | one device per configured network, in order, each the conversion of its network |
| LxcNet.FormatSSHPublicKey | internal/provider/lxc/helpers.go:27-37 | no keys give ""; otherwise each key is preceded by a newline, in order |
| LxcNet.SplitJoin | internal/provider/lxc/helpers.go:27-37 | keys without newlines are recovered, in order, from their formatting |
| LxcNet.JoinSplit | internal/provider/lxc/helpers.go:27-37 | whatever splits into keys is exactly the formatting of those keys |
| LxcNet.GetVMIDRun | internal/provider/lxc/helpers.go:14-25 | a configured id is used without a call; otherwise one random-id call is made and its answer (or error) is the result |
| LxcNet.GetVMID | internal/provider/lxc/helpers.go:14-25 | `getVMID`: the configured id, or one the cluster allocates: its result, the calls it records and the replies it consumes are exactly those of `GetVMIDRun` |
| LxcNet.GetVMIDAllocates | internal/provider/lxc/helpers.go:14-25 | exactly one id is allocated when none is configured, none otherwise; a configured id is returned as is |
| LxcNetIPs.BuildIfaceMap | internal/provider/lxc/helpers.go:125-132 | the loop builds the name-to-address map of the reported interfaces |
| LxcNetIPs.IfaceMapLastWins | internal/provider/lxc/helpers.go:130-132 | the map holds exactly the reported names, each with the address of its last interface |
| LxcNetIPs.NamesCard | internal/provider/lxc/helpers.go:135-149 | the first n network names are pairwise distinct exactly when there are n of them |
| LxcNetIPs.RepeatedName | internal/provider/lxc/helpers.go:146-149 | a name that breaks distinctness at a position already occurs before it |
| LxcNetIPs.CollectNets | internal/provider/lxc/helpers.go:135-147 | the collection has one entry per network exactly when every network has an address and names are distinct, and then each entry is its network with the address |
| LxcNetIPs.ComputeNets | internal/provider/lxc/helpers.go:134-162 | collecting addresses by interface name, comparing lengths and emitting the networks in configured order: its result is exactly `Resolve` of its inputs |
| LxcNetIPs.ComputeLXCNetIPs | internal/provider/lxc/helpers.go:110-166 | `computeLXCNetIPs`: its result, the calls it records and the replies it consumes are exactly those of `NetIPsRun` |
| LxcNetIPs.ResolveOk | internal/provider/lxc/helpers.go:134-162 | a successful resolution keeps the length, order and every attribute of the networks and adds to each the non-empty address reported under its name |
| LxcNetIPs.ResolveErr | internal/provider/lxc/helpers.go:140-152 | resolution fails exactly when some network has no address or two networks share a name |
| LxcNetIPs.NetIPsCalls | internal/provider/lxc/helpers.go:117-129 | at most three calls, all interface queries of the container |
| LxcNetIPs.NoQueryAfterSuccess | internal/provider/lxc/helpers.go:126-162 | every query but the last failed: a successful query ends the loop |
| LxcNetIPs.RetriesExhausted | internal/provider/lxc/helpers.go:119-165 | the retries error comes exactly from three failed queries |
| LxcNetIPs.ResolvedByLastQuery | internal/provider/lxc/helpers.go:126-162 | any other outcome is the resolution of the interfaces returned by the last, successful, query |
| LxcNetIPs.NetIPsKinds | internal/provider/lxc/helpers.go:110-166 | computing the addresses only queries interfaces |
| Compensation.Rollback | internal/provider/lxc/lxc_resource.go:361-375 | the compensating deletion: its result, the calls it records and the replies it consumes are exactly those of `RollbackRun` |
| Compensation.RollbackShape | internal/provider/lxc/lxc_resource.go:361-375 | the stage's error comes first; the resource is removed from the state exactly when the container was deleted and its id reported free; otherwise the last written state stays and the deletion's error follows; nothing is created, queried or submitted |
| LxcResource.Create | internal/provider/lxc/lxc_resource.go:288-477 | the `proxmox_lxc` Create: its result, the calls it records and the replies it consumes are exactly those of `CreateRun` |
| LxcResource.CreateWithId | internal/provider/lxc/lxc_resource.go:309-477 | with an obtained id: the creation request, then provisioning: its result, the calls it records and the replies it consumes are exactly those of `CreateWithIdRun` |
| LxcResource.Provision | internal/provider/lxc/lxc_resource.go:355-476 | the provisioning stages in order (status, addresses, commands, final status), each failure rolled back: its result, the calls it records and the replies it consumes are exactly those of `ProvisionRun` |
| LxcResource.ResolveAddresses | internal/provider/lxc/lxc_resource.go:380-401 | the address stage: its result, the calls it records and the replies it consumes are exactly those of `AddressStage` |
| LxcResource.RunCommandsStage | internal/provider/lxc/lxc_resource.go:403-476 | the command stage: its result, the calls it records and the replies it consumes are exactly those of `CommandsStage` |
| LxcResource.Read | internal/provider/lxc/lxc_resource.go:479-521 | Read: its result, the calls it records and the replies it consumes are exactly those of `ReadRun` |
| LxcResource.Update | internal/provider/lxc/lxc_resource.go:523-577 | Update: its result, the calls it records and the replies it consumes are exactly those of `UpdateRun` |
| LxcResource.Restart | internal/provider/lxc/lxc_resource.go:553-577 | the part of Update after the stop: its result, the calls it records and the replies it consumes are exactly those of `RestartRun` |
| LxcResource.Delete | internal/provider/lxc/lxc_resource.go:579-600 | Delete: its result, the calls it records and the replies it consumes are exactly those of `DeleteResourceRun` |
| LxcStatus.StatusRunQuiet | internal/provider/lxc/helpers.go:55-108 | the status loop neither creates, deletes, converts, submits commands nor queries interfaces |
| LxcResource.RolledBackProvisioned | internal/provider/lxc/lxc_resource.go:361-375 | a rollback is one of the outcomes provisioning allows |
| LxcResource.CommandsStageShape | internal/provider/lxc/lxc_resource.go:403-476 | the command stage keeps the provisioning guarantees (see ProvisionShape) |
| LxcResource.AddressStageShape | internal/provider/lxc/lxc_resource.go:380-476 | the address stage keeps the provisioning guarantees |
| LxcResource.ProvisionedNetworks | internal/provider/lxc/lxc_resource.go:389-400 | writing the resolved networks into the model keeps the provisioning guarantees of the configured model |
| LxcResource.ProvisionShape | internal/provider/lxc/lxc_resource.go:355-476 | after creation the resource is never left out of the state unless deleted; with no error it is written and nothing was deleted; at most one Delete, right after a poll that saw the container stopped; addresses are only queried when "running" is configured and commands only submitted when there are some; a written model differs from the plan in its networks at most |
| LxcResource.CreateWithIdShape | internal/provider/lxc/lxc_resource.go:309-477 | a refused creation request gives one error and deletes nothing; an accepted one creates once and is provisioned |
| LxcResource.CreateRollsBack | internal/provider/lxc/lxc_resource.go:288-477 | an id error or a refused creation has one error as its only effect; otherwise the configured id (when there is one) is used, the container is created once, and any later failure is rolled back |
| LxcResource.ReadRefreshes | internal/provider/lxc/lxc_resource.go:479-521 | Read asks for the container first; a missing one gives the "not found" error and leaves the state; a found one takes its status from the cluster and keeps all other attributes but its networks; networks are resolved from the last interface query only for "running", and are emptied with an error when that fails |
| LxcResource.StopPhase | internal/provider/lxc/lxc_resource.go:541-545 | the stop phase only queries and issues Stop |
| LxcResource.RestartRewritesNothing | internal/provider/lxc/lxc_resource.go:553-577 | the part after the rewrite never rewrites interfaces, creates or deletes |
| LxcResource.UpdateStopsFirst | internal/provider/lxc/lxc_resource.go:523-577 | Update stops the container before it rewrites the interfaces to the planned networks, never creates or deletes, reports the first failure alone, and on success keeps the prior state but for the networks resolved from the last query |
| LxcResource.UpdateRewrites | internal/provider/lxc/lxc_resource.go:541-556 | a rewrite after the stop phase, followed by no rewrite, keeps the rewrite-after-stop order |
| LxcResource.RestartResolves | internal/provider/lxc/lxc_resource.go:560-577 | the restart writes the state exactly when it reports nothing, and then with the planned networks resolved from its last query |
| LxcResource.DeleteRemoves | internal/provider/lxc/lxc_resource.go:579-600 | the resource leaves the state exactly when `deleteLXC` succeeded: one Delete right after a poll that saw it stopped and its id reported free; otherwise one error and the state stays |
| LxcLinkedClone.Create | internal/provider/lxc/lxc_linked_clone.go:184-285 | the linked clone Create: its result, the calls it records and the replies it consumes are exactly those of `CloneCreateRun` |
| LxcLinkedClone.CloneWithId | internal/provider/lxc/lxc_linked_clone.go:215-285 | the Clone into a target id and what follows: its result, the calls it records and the replies it consumes are exactly those of `CloneWithIdRun` |
| LxcLinkedClone.Settle | internal/provider/lxc/lxc_linked_clone.go:253-285 | the status convergence and its rollback: its result, the calls it records and the replies it consumes are exactly those of `SettleRun` |
| LxcLinkedClone.ReadAddresses | internal/provider/lxc/lxc_linked_clone.go:271-284 | the address read of a new clone: its result, the calls it records and the replies it consumes are exactly those of `AddressesRun` |
| LxcLinkedClone.Read | internal/provider/lxc/lxc_linked_clone.go:287-336 | Read: its result, the calls it records and the replies it consumes are exactly those of `CloneReadRun` |
| LxcLinkedClone.Update | internal/provider/lxc/lxc_linked_clone.go:338-378 | Update: its result, the calls it records and the replies it consumes are exactly those of `CloneUpdateRun` |
| LxcLinkedClone.Delete | internal/provider/lxc/lxc_linked_clone.go:380-398 | Delete: its result, the calls it records and the replies it consumes are exactly those of `CloneDeleteRun` |
| LxcLinkedClone.SettleShape | internal/provider/lxc/lxc_linked_clone.go:253-285 | a failed convergence deletes at most once, right after a poll that saw it stopped, and removes the clone from the state exactly when the deletion completed; otherwise nothing is deleted and addresses are read once, only when the clone is to run; an address failure is reported without rollback |
| LxcLinkedClone.AddressesShape | internal/provider/lxc/lxc_linked_clone.go:271-284 | the address read keeps the settling guarantees |
| LxcLinkedClone.CloneWithIdShape | internal/provider/lxc/lxc_linked_clone.go:240-285 | a failed Clone is reported alone with nothing deleted; a successful one is settled with the target id and null networks |
| LxcLinkedClone.AllocatedShape | internal/provider/lxc/lxc_linked_clone.go:205-243 | with no configured target one id is allocated first; an allocation error ends the creation with nothing cloned; an allocated id is the Clone's target |
| LxcLinkedClone.CloneInputsChecked | internal/provider/lxc/lxc_linked_clone.go:193-203 | a `source_id` of 0 or an empty node is refused with its own error before any call |
| LxcLinkedClone.ConfiguredTarget | internal/provider/lxc/lxc_linked_clone.go:205-243 | a configured target id is cloned into as is |
| LxcLinkedClone.MissingCloneKept | internal/provider/lxc/lxc_linked_clone.go:305-310 | as written, Read of a clone the cluster no longer has reports nothing and keeps the resource in the state |
| LxcLinkedClone.MissingCloneRemoved | internal/provider/lxc/lxc_linked_clone.go:305-310 | corrected, the resource leaves the state exactly when the cluster has no such container, without error; every other outcome is as written |
| LxcLinkedClone.CloneReadRefreshes | internal/provider/lxc/lxc_linked_clone.go:287-336 | Read asks for the clone first; a found one takes its status from the cluster and keeps all else but its networks, read once only for a "running" prior status and null otherwise; an address failure keeps the prior networks and is reported once; nothing is deleted |
| LxcLinkedClone.CloneUpdateCalls | internal/provider/lxc/lxc_linked_clone.go:338-378 | Update never creates or deletes and reads addresses once exactly when the convergence succeeded and "running" is planned |
| LxcLinkedClone.CloneUpdateWrites | internal/provider/lxc/lxc_linked_clone.go:338-378 | a failed convergence leaves the state with one error; otherwise the state takes the planned status, keeps everything else but its networks, which change only to the last reply's addresses; an address failure keeps the prior networks and is reported |
| LxcLinkedClone.CloneDeleteRemoves | internal/provider/lxc/lxc_linked_clone.go:380-398 | the clone leaves the state exactly when `deleteLXC` succeeded: deleted once right after a poll that saw it stopped and its id reported free |
| LxcLinkedClone.ImportRejectsNonInteger | internal/provider/lxc/lxc_linked_clone.go:400-417 | ImportState accepts exactly what `strconv.Atoi` accepts and otherwise gives an import error and no state; an accepted id is the only attribute set |
| LxcLinkedClone.ImportFormatted | internal/provider/lxc/lxc_linked_clone.go:400-417 | every 64-bit id written in decimal imports as that id (into `source_id` as written, into the clone's id corrected) |
| LxcLinkedClone.ImportedCloneReadsZero | internal/provider/lxc/lxc_linked_clone.go:407-409 | as written, the first Read after an import asks for container 0 whatever id was imported |
| LxcLinkedClone.ImportedCloneReadsItself | internal/provider/lxc/lxc_linked_clone.go:407-409 | corrected, the first Read after an import asks for the imported container |
| LxcTemplate.TplNets | internal/provider/lxc/lxc_template.go:196 | one device per template network, in order, each carrying every attribute of its network |
| LxcTemplate.Create | internal/provider/lxc/lxc_template.go:145-282 | the template Create: its result, the calls it records and the replies it consumes are exactly those of `TplCreateRun` |
| LxcTemplate.CreateWithId | internal/provider/lxc/lxc_template.go:166-282 | with an obtained id: the creation request, then the command phase: its result, the calls it records and the replies it consumes are exactly those of `TplCreateWithIdRun` |
| LxcTemplate.CommandPhase | internal/provider/lxc/lxc_template.go:210-282 | start, commands, stop, then conversion, each failure rolled back: its result, the calls it records and the replies it consumes are exactly those of `CommandPhaseRun` |
| LxcTemplate.FinishCommands | internal/provider/lxc/lxc_template.go:237-282 | what follows the commands, given their outcome: its result, the calls it records and the replies it consumes are exactly those of `AfterTplCommands` |
| LxcTemplate.Convert | internal/provider/lxc/lxc_template.go:275-281 | the conversion to a template: its result, the calls it records and the replies it consumes are exactly those of `ConvertRun` |
| LxcTemplate.Read | internal/provider/lxc/lxc_template.go:285-298 | Read writes the prior state back unchanged without asking the cluster |
| LxcTemplate.Update | internal/provider/lxc/lxc_template.go:300-301 | Update makes no call and reports nothing |
| LxcTemplate.Delete | internal/provider/lxc/lxc_template.go:303-321 | Delete: its result, the calls it records and the replies it consumes are exactly those of `TplDeleteRun` |
| LxcTemplate.ConvertShape | internal/provider/lxc/lxc_template.go:275-281 | the conversion is the one conversion call; the created template stays in the state whatever its outcome, and its failure is the only error |
| LxcTemplate.NoCommandsConvertsOnly | internal/provider/lxc/lxc_template.go:213-281 | without commands the only call after the creation is the conversion |
| LxcTemplate.TplRollbackShape | internal/provider/lxc/lxc_template.go:222-233 | a rollback never converts; it removes the container from the state exactly when its deletion completed, and otherwise reports the deletion error second |
| LxcTemplate.CommandsQuiet | internal/provider/lxc/helpers.go:178-238 | running commands neither creates, deletes nor converts |
| LxcTemplate.StopFailureShape | internal/provider/lxc/lxc_template.go:252-272 | a failed stop after the commands abandons the container without conversion |
| LxcTemplate.StopSuccessShape | internal/provider/lxc/lxc_template.go:252-281 | a successful stop is followed by the conversion |
| LxcTemplate.AfterTplCommandsShape | internal/provider/lxc/lxc_template.go:237-281 | a failed command or a failed stop abandons the container; only their success can lead to the conversion |
| LxcTemplate.StartedShape | internal/provider/lxc/lxc_template.go:236-281 | after a successful start, a failed command or stop abandons the container |
| LxcTemplate.CommandPhaseShape | internal/provider/lxc/lxc_template.go:210-281 | at most one Delete, right after a poll that saw it stopped; the run converts or abandons; with commands, a failed start, command or stop abandons the container, so conversion follows only when all three succeeded |
| LxcTemplate.CommandsAfterStart | internal/provider/lxc/lxc_template.go:213-237 | the start's calls come first, and a failed start submits no command |
| LxcTemplate.TplCreateWithIdShape | internal/provider/lxc/lxc_template.go:166-282 | a refused creation request gives one error, with nothing deleted or converted; an accepted one creates once and converts or abandons |
| LxcTemplate.TplCreateShape | internal/provider/lxc/lxc_template.go:145-282 | an id error or a refused creation has one error as its only effect; otherwise the configured id (when there is one) is used and the created container is converted or abandoned |
| LxcTemplate.TplDeleteRemoves | internal/provider/lxc/lxc_template.go:303-321 | the template leaves the state exactly when `deleteLXC` succeeded: deleted once right after a poll that saw it stopped and its id reported free |
| LxcTemplate.TplImportRejectsNonNumeric | internal/provider/lxc/lxc_template.go:323-339 | ImportState accepts exactly what `strconv.Atoi` accepts, stores it as the template's id and sets nothing else; anything else is an import error with no state |
| LxcTemplate.TplImportFormatted | internal/provider/lxc/lxc_template.go:323-339 | every 64-bit id written in decimal imports as that id |
| NodeLxc.Nudge | internal/provider/node_lxc/lxc_resource.go:383-395 | the transition chosen after a poll consumes at most one reply |
| NodeLxc.Converge | internal/provider/node_lxc/lxc_resource.go:364-400 | the status loop of Create: its result, the calls it records and the replies it consumes are exactly those of `ConvergeRun` |
| NodeLxc.RebuildNets | internal/provider/node_lxc/lxc_resource.go:416-465 | the map, collect and reorder loops that rebuild the networks with their addresses: its result is exactly `Rebuild` of its inputs |
| NodeLxc.ResolveAddresses | internal/provider/node_lxc/lxc_resource.go:407-473 | the address loop of Create: its result, the calls it records and the replies it consumes are exactly those of `AddressLoop` |
| NodeLxc.WaitFor | internal/provider/node_lxc/lxc_resource.go:492-511 | a wait loop of the command phase: its result, the calls it records and the replies it consumes are exactly those of `WaitRun` |
| NodeLxc.ExecAll | internal/provider/node_lxc/lxc_resource.go:515-532 | the command loop: its result, the calls it records and the replies it consumes are exactly those of `ExecsRun` |
| NodeLxc.Create | internal/provider/node_lxc/lxc_resource.go:284-566 | the `proxmox_node_lxc` Create: its result, the calls it records and the replies it consumes are exactly those of `NodeCreateRun` |
| NodeLxc.CreateWithId | internal/provider/node_lxc/lxc_resource.go:312-566 | with an obtained id: the creation request and what follows: its result, the calls it records and the replies it consumes are exactly those of `NodeCreateWithIdRun` |
| NodeLxc.Converged | internal/provider/node_lxc/lxc_resource.go:361-566 | the status loop and the later phases: its result, the calls it records and the replies it consumes are exactly those of `ConvergedRun` |
| NodeLxc.AddressPhase | internal/provider/node_lxc/lxc_resource.go:403-566 | the address phase and the command phase: its result, the calls it records and the replies it consumes are exactly those of `AddressPhaseRun` |
| NodeLxc.CommandPhase | internal/provider/node_lxc/lxc_resource.go:482-566 | the command phase: its result, the calls it records and the replies it consumes are exactly those of `CommandPhaseRun` |
| NodeLxc.ExecPhase | internal/provider/node_lxc/lxc_resource.go:514-566 | the commands and the final wait: its result, the calls it records and the replies it consumes are exactly those of `ExecPhaseRun` |
| NodeLxc.CollectAddresses | internal/provider/node_lxc/lxc_resource.go:621-638 | Read's collecting loop: for each network in turn, the address of the last interface with its name, until one has none: its result is exactly `ReadCollect` of its inputs |
| NodeLxc.AttemptAddresses | internal/provider/node_lxc/lxc_resource.go:613-659 | one answered attempt of Read's address loop: its result is exactly `ReadAttempt` of its inputs |
| NodeLxc.Reindex | internal/provider/node_lxc/lxc_resource.go:645-653 | indexing the collected networks by position panics when there are fewer of them than configured networks, and otherwise takes the first ones in order |
| NodeLxc.ReadCollectBounded | internal/provider/node_lxc/lxc_resource.go:621-638 | Read collects at most one network per configured network |
| NodeLxc.ReadAddresses | internal/provider/node_lxc/lxc_resource.go:608-661 | Read's address loop: its result, the calls it records and the replies it consumes are exactly those of `ReadAddressLoop` |
| NodeLxc.Read | internal/provider/node_lxc/lxc_resource.go:569-665 | Read: its result, the calls it records and the replies it consumes are exactly those of `NodeReadRun` |
| NodeLxc.ToggleStatus | internal/provider/node_lxc/lxc_resource.go:685-697 | the transition Update issues from the old status: its result, the calls it records and the replies it consumes are exactly those of `Toggle` |
| NodeLxc.LeaveStatus | internal/provider/node_lxc/lxc_resource.go:704-718 | Update's poll loop: its result, the calls it records and the replies it consumes are exactly those of `LeaveRun` |
| NodeLxc.Update | internal/provider/node_lxc/lxc_resource.go:669-727 | Update: its result, the calls it records and the replies it consumes are exactly those of `NodeUpdateRun` |
| NodeLxc.Delete | internal/provider/node_lxc/lxc_resource.go:729-801 | Delete: its result, the calls it records and the replies it consumes are exactly those of `NodeDeleteRun` |
| NodeLxc.HaltIfRunning | internal/provider/node_lxc/lxc_resource.go:746-756 | the Stop issued when the first poll read "running": its result, the calls it records and the replies it consumes are exactly those of `Halt` |
| NodeLxc.Remove | internal/provider/node_lxc/lxc_resource.go:758-796 | the wait for "stopped", the Delete and the wait for the id: its result, the calls it records and the replies it consumes are exactly those of `RemoveRun` |
| NodeLxc.NudgeShape | internal/provider/node_lxc/lxc_resource.go:383-399 | after a poll the loop issues at most one transition, only a Start after "stopped" or a Stop after "running" towards the desired status, and returns its error |
| NodeLxc.ConvergeShape | internal/provider/node_lxc/lxc_resource.go:364-400 | Create's status loop has no retry budget: it only queries and justifies transitions, succeeds exactly when its last poll read the desired status and fails only with the error of its last call |
| NodeLxc.AddressLoopShape | internal/provider/node_lxc/lxc_resource.go:407-473 | the address loop queries only the container's interfaces, makes one query per remaining attempt unless an answered query cannot be rebuilt (then that error ends it), and returns the networks it started from or the rebuild of an answered query |
| NodeLxc.WaitRunShape | internal/provider/node_lxc/lxc_resource.go:492-511 | the wait only queries the status; every answer but the last was another status; it succeeds exactly when the last reads the target, and fails with the last query's error |
| NodeLxc.ExecsRunShape | internal/provider/node_lxc/lxc_resource.go:515-532 | commands run in order in "bash"; every command but the last run exited with 0; all ran exactly when it reports success; a non-zero exit with no error is the nil dereference |
| NodeLxc.CollectSize | internal/provider/node_lxc/lxc_resource.go:428-455 | the collection reaches one entry per network exactly when each has an address and a name not seen before |
| NodeLxc.CollectValues | internal/provider/node_lxc/lxc_resource.go:428-443 | with fresh names every network is found under its name with its address |
| NodeLxc.RebuildMeans | internal/provider/node_lxc/lxc_resource.go:416-465 | an answered attempt of Create's address loop succeeds exactly when names are distinct and each network has an interface with an address; the networks are then, in configured order, the configured ones with those addresses |
| NodeLxc.IfaceMapLastNamed | internal/provider/node_lxc/lxc_resource.go:625-631 | the interface kept for a name is the last with that name, which is what Read's search finds |
| NodeLxc.ReadCollectMeans | internal/provider/node_lxc/lxc_resource.go:621-638 | Read's collection holds every configured network exactly when each has an address, and then holds them in order with their addresses |
| NodeLxc.ReadFixedMeans | internal/provider/node_lxc/lxc_resource.go:620-653 | corrected, an answered attempt succeeds exactly when every network has an address, and writes the configured networks in order with those addresses |
| NodeLxc.ReadAttemptAsWritten | internal/provider/node_lxc/lxc_resource.go:620-653 | as written, an answered attempt never rebuilds: it reports the addresses incomplete exactly when the first network has an address, and otherwise indexes past the collection |
| NodeLxc.ReadRejectsResolved | internal/provider/node_lxc/lxc_resource.go:620-643 | as written, a running container whose every network has an address is reported incomplete; corrected, its addresses are written |
| NodeLxc.AsWrittenLoopKeeps | internal/provider/node_lxc/lxc_resource.go:608-661 | as written, the address loop only ever ends with the networks it started from |
| NodeLxc.ReadKeepsNetworks | internal/provider/node_lxc/lxc_resource.go:569-665 | as written, when Read writes the state of a container with networks, the networks are the ones it read |
| NodeLxc.CreatedKinds | internal/provider/node_lxc/lxc_resource.go:352-566 | after the id is settled there is exactly one creation, then only other kinds of call |
| NodeLxc.NodeCreateKinds | internal/provider/node_lxc/lxc_resource.go:284-566 | Create creates at most once and never deletes: no failure after the creation is rolled back |
| NodeLxc.NodeCreatedWrites | internal/provider/node_lxc/lxc_resource.go:352-566 | Create writes the state only once the status loop saw the configured status, and writes the plan with the id the cluster returned, changing only the networks and status |
| NodeLxc.FirstStatusAbsent | internal/provider/node_lxc/lxc_resource.go:590-603 | when no listed container has the id, Read finds status "" and reports it not found |
| NodeLxc.FirstStatusFirst | internal/provider/node_lxc/lxc_resource.go:590-597 | Read takes the status of the first listed container with the id |
| NodeLxc.LeaveRunShape | internal/provider/node_lxc/lxc_resource.go:704-718 | Update's poll loop only queries; every answer but the last was the old status; it succeeds exactly when the last reads another status |
| NodeLxc.ToggleShape | internal/provider/node_lxc/lxc_resource.go:685-697 | Update issues a Start from "stopped", a forced Stop from "running", and nothing from any other status |
| NodeLxc.NodeUpdateShape | internal/provider/node_lxc/lxc_resource.go:669-727 | with an unchanged status Update calls nothing and writes the plan with the prior id; otherwise it first issues the transition chosen by the old status, then only status queries, and writes the plan exactly when the last query read a status other than the old one |
| NodeLxc.RemoveShape | internal/provider/node_lxc/lxc_resource.go:758-796 | the removal issues no transition, deletes at most once right after a poll that read "stopped", and removes the resource only after the id was reported free |
| NodeLxc.HaltShape | internal/provider/node_lxc/lxc_resource.go:738-756 | a Stop, without forcing, is issued only when the first poll read "running" |
| NodeLxc.NodeDeleteShape | internal/provider/node_lxc/lxc_resource.go:729-801 | Delete stops only a container its first poll saw "running", deletes at most once right after a poll that read "stopped", and leaves the state only after the id was reported free; otherwise one error and the state stays |
| NodeFirewall.IndexRune | internal/provider/node_firewall/rule_resource.go:296 | the first position of the character, or -1 exactly when it does not occur |
| NodeFirewall.StripComment | internal/provider/node_firewall/rule_resource.go:296-301 | the comment kept is a suffix of the remote comment |
| NodeFirewall.CreateRule | internal/provider/node_firewall/rule_resource.go:218-268 | the single rule's Create: its result, the calls it records and the replies it consumes are exactly those of `RuleCreateRun` |
| NodeFirewall.ReadRule | internal/provider/node_firewall/rule_resource.go:270-324 | the single rule's Read: its result, the calls it records and the replies it consumes are exactly those of `RuleReadRun` |
| NodeFirewall.UpdateRule | internal/provider/node_firewall/rule_resource.go:326-379 | the single rule's Update: its result, the calls it records and the replies it consumes are exactly those of `RuleUpdateRun` |
| NodeFirewall.DeleteOneRule | internal/provider/node_firewall/rule_resource.go:381-402 | the single rule's Delete: its result, the calls it records and the replies it consumes are exactly those of `RuleDeleteRun` |
| NodeFirewall.EnableRoundTrip | internal/provider/node_firewall/rule_resource.go:230-233 | an enable flag sent as 1/0 reads back as itself; the values 0 and 1 read and resubmitted are unchanged |
| NodeFirewall.StripTagged | internal/provider/node_firewall/rule_resource.go:296-301 | a comment behind a "[tag] " prefix free of ']' reads back as it was, in both resources |
| NodeFirewall.StripUntagged | internal/provider/node_firewall/rules_resource.go:251-253 | a comment without ']' loses its first character; an empty one is "" in the single rule and panics in the list resource |
| NodeFirewall.SliceAgrees | internal/provider/node_firewall/rules_resource.go:251-253 | where the list resource's slice succeeds it keeps what the single rule's Read keeps; where it panics the single rule keeps "" |
| NodeFirewall.ReadBack | internal/provider/node_firewall/rule_resource.go:294-320 | a submitted rule reported back under an id with a tagged comment reads as the submitted rule with that id and the cluster's IP version; the position held before stays |
| NodeFirewall.RuleCreateShape | internal/provider/node_firewall/rule_resource.go:218-268 | Create submits the rule with enable as 1/0 and without its position; the state takes the returned id and nothing else changes; an error leaves the state with one diagnostic |
| NodeFirewall.CreateAnswered | internal/provider/node_firewall/rule_resource.go:255-267 | a Create answered with an id writes the planned rule carrying that id |
| NodeFirewall.CreateThenRead | internal/provider/node_firewall/rule_resource.go:218-324 | a rule created and read back, with the cluster echoing the submitted fields behind a tagged comment, is the planned rule with the returned id and the cluster's IP version |
| NodeFirewall.RuleReadShape | internal/provider/node_firewall/rule_resource.go:270-324 | Read fetches the rule by its id, writes exactly when the fetch succeeds, keeps the position held before, takes the remote id, sets enable exactly for a remote 1 and keeps a suffix of the comment |
| NodeFirewall.RuleUpdateShape | internal/provider/node_firewall/rule_resource.go:326-379 | Update first deletes the rule with the planned id and submits the plan only once that delete succeeded; the state is written exactly when the new rule got an id, and carries it |
| NodeFirewall.RuleDeleteShape | internal/provider/node_firewall/rule_resource.go:381-402 | Delete removes the resource exactly when the cluster acknowledged the delete, and reports its error otherwise |
| NodeFirewall.SubmitRules | internal/provider/node_firewall/rules_resource.go:186-218 | the submission loop: the rules with their new ids, or the first error: its result, the calls it records and the replies it consumes are exactly those of `SubmitFrom` |
| NodeFirewall.RefreshRules | internal/provider/node_firewall/rules_resource.go:240-273 | the refresh loop: the refreshed rules, the first error, or the slice panic: its result, the calls it records and the replies it consumes are exactly those of `RefreshFrom` |
| NodeFirewall.DeleteRules | internal/provider/node_firewall/rules_resource.go:350-356 | the deletion loop: its result, the calls it records and the replies it consumes are exactly those of `DeleteFrom` |
| NodeFirewall.CreateRules | internal/provider/node_firewall/rules_resource.go:174-226 | the list resource's Create: its result, the calls it records and the replies it consumes are exactly those of `RulesCreateRun` |
| NodeFirewall.ReadRules | internal/provider/node_firewall/rules_resource.go:228-277 | the list resource's Read: its result, the calls it records and the replies it consumes are exactly those of `RulesReadRun` |
| NodeFirewall.UpdateRules | internal/provider/node_firewall/rules_resource.go:279-336 | the list resource's Update: its result, the calls it records and the replies it consumes are exactly those of `RulesUpdateRun` |
| NodeFirewall.DeleteAllRules | internal/provider/node_firewall/rules_resource.go:338-361 | the list resource's Delete: its result, the calls it records and the replies it consumes are exactly those of `RulesDeleteRun` |
| NodeFirewall.SubmitShape | internal/provider/node_firewall/rules_resource.go:186-218 | the rules are submitted one by one in order; each accepted rule takes its returned id; the loop stops at the first error |
| NodeFirewall.RulesCreateShape | internal/provider/node_firewall/rules_resource.go:174-226 | Create submits the planned rules in order and stops at the first error, leaving the rules submitted before it out of the state; a written state holds the planned rules in the same order, each with the id returned for it |
| NodeFirewall.RefreshShape | internal/provider/node_firewall/rules_resource.go:240-273 | the rules are fetched one by one in order by their ids, and each fetched rule is overwritten from its remote copy |
| NodeFirewall.RulesReadShape | internal/provider/node_firewall/rules_resource.go:228-277 | Read fetches every rule by the id held for it, in order; a written state keeps the list's length and order and overwrites each rule from its remote copy (enable exactly for 1, position kept); a comment too short for the slice panics |
| NodeFirewall.DeleteShape | internal/provider/node_firewall/rules_resource.go:350-356 | the rules are deleted one by one in order; the loop stops at the first error |
| NodeFirewall.RulesDeleteShape | internal/provider/node_firewall/rules_resource.go:338-361 | Delete deletes the rules in order and stops at the first error; the resource leaves the state exactly when every rule was deleted |
| NodeFirewall.DeleteKinds | internal/provider/node_firewall/rules_resource.go:293-298 | a deletion loop only deletes rules, at most one call per rule |
| NodeFirewall.SubmitKinds | internal/provider/node_firewall/rules_resource.go:300-332 | a submission loop only creates rules |
| NodeFirewall.RulesUpdateShape | internal/provider/node_firewall/rules_resource.go:279-336 | Update deletes the prior rules in order before it submits any planned rule: no deletion follows a creation, and a creation happens only once every prior rule was deleted and acknowledged |
| NodeFirewall.DecodeAll | internal/provider/node_firewall/rules_data_source.go:87-119 | the data source's decoding loop, stopping at an invalid enable value: its result is exactly `DecodeRules` of its inputs |
| NodeFirewall.ReadRulesSource | internal/provider/node_firewall/rules_data_source.go:72-127 | the data source's Read: its result, the calls it records and the replies it consumes are exactly those of `RulesSourceReadRun` |
| NodeFirewall.DecodeMeans | internal/provider/node_firewall/rules_data_source.go:87-119 | decoding succeeds exactly when every enable value is 0 or 1; then it keeps length and order, copies comment and position and sets enable exactly for 1; otherwise it names the first invalid value |
| NodeFirewall.RulesSourceShape | internal/provider/node_firewall/rules_data_source.go:72-127 | the rules are listed once; a listing error gives its diagnostic and no state; the state is written exactly when every enable value is valid, and then holds the listed rules decoded in order |
| ProviderConfig.Configure | internal/provider/provider.go:92-340 | the provider's Configure: a client configuration, or the attribute errors in the order the checks add them: its result is exactly `ConfigureSpec` of its inputs |
| ProviderConfig.CheckKnown | internal/provider/provider.go:104-177 | the checks for unknown attributes: its result is exactly `UnknownErrors` of its inputs |
| ProviderConfig.ReadSettings | internal/provider/provider.go:182-234 | the environment's values overridden by those the configuration sets, and whether `PROXMOX_PORT` parsed; an unparsed port keeps the value `strconv.Atoi` returned, 0 for a syntax error and the 64-bit bound for a range error |
| ProviderConfig.OverflowingPortNotMissing | internal/provider/provider.go:185-252 | a `PROXMOX_PORT` whose digits overflow 64 bits makes the port the upper bound even with junk after the digits, so it is reported invalid but never missing: with nothing unknown and the other values present, the only error is the invalid port |
| ProviderConfig.OnlyPortInvalid | internal/provider/provider.go:185-307 | with no attribute unknown and no value missing, a `PROXMOX_PORT` that does not parse is the only error |
| ProviderConfig.ReadPort | internal/provider/provider.go:185-196 | `PROXMOX_PORT` is read with `strconv.Atoi` when set: the port is the value `Atoi` returns, even with an error, and the flag says whether its error was nil |
| ProviderConfig.CheckPresent | internal/provider/provider.go:239-307 | the checks for missing values, after the earlier errors: its result is exactly `MissingErrors` of its inputs |
| ProviderConfig.AddedPrefix | internal/provider/provider.go:239-307 | a check keeps the errors before it, and the list stays empty exactly when it was and the check passes |
| ProviderConfig.UnknownErrorsMeans | internal/provider/provider.go:104-177 | one error for each attribute that is not yet known and no other, so none exactly when every attribute is null or set |
| ProviderConfig.MissingErrorsMeans | internal/provider/provider.go:239-307 | the missing-value checks keep the earlier errors and add none exactly when host, port, user, token name and token are present and the Cloudflare id and secret are both set or both unset |
| ProviderConfig.UnknownStops | internal/provider/provider.go:173-177 | an unknown attribute stops Configure before the environment is read: the outcome is the unknown-attribute errors whatever the environment holds |
| ProviderConfig.ConfiguredMeans | internal/provider/provider.go:92-340 | Configure succeeds exactly when no attribute is unknown, `PROXMOX_PORT` is unset or an integer, and the values used are complete |
| ProviderConfig.ConfiguredValues | internal/provider/provider.go:204-334 | each value comes from the configuration when set and from the environment when null, never empty; certificate checks are skipped only when configured so; the service token is attached exactly when the Cloudflare id is set, with the secret beside it |
| ProviderConfig.BadPortFails | internal/provider/provider.go:185-196 | a `PROXMOX_PORT` that is not an integer fails Configure even when the configuration sets the port, and its error comes first |
| ProviderConfig.ConfigWins | internal/provider/provider.go:204-234 | with every attribute set, the outcome depends on the environment only through whether `PROXMOX_PORT` parses |

## Left out

- `time.Sleep` between polls and all `tflog` logging: they change no state or outcome.
- The transport of the `pve.PVE` client, `pve.NewWithCredentials` and `cloudflare.NewServiceToken`: the model of `Configure` ends with the client configuration it would pass to them.
- Framework plumbing (`Schema`, `Metadata`, the type assertion in each resource's `Configure`, `LoadFromObject`/`ToObject`, `Plan.Get`, `State.Set`): the model reads the plan or state as a value and returns the state outcome.
- `lxc/statics.go` and `node_firewall/descriptions.go` hold only constants and attribute descriptions. The model keeps the status names and error texts it needs as its own constants.
- `provider_version_data_source.go` only forwards a version query; `lxc/lxc_exec.go` only forwards to `nodelxc.RunLXCCommands`. Neither is part of this model.
- `computeLXCCloneNetIPs` and `newPVELXCTplNets` are not part of this model because their source is absent. The linked clone's address query is one gateway call with one reply. The template's networks pass through `LxcNet.TplToPVELXCNet`.
- Attribute errors keep their path and summary. The long detail texts are not modelled.
- A null string attribute is read as "", and an unknown one is modelled only in `Configure`.
- `ProviderConfig.Configure`: os.Getenv results are an input record; `strconv.Atoi` is `Decimal.Atoi`.
- `NodeLxc.Quoted`: `strconv.Quote` is modelled as surrounding the name with double quotes, with no escaping of quotes, backslashes or control characters inside it.
- Messages built with `%#v` keep only their summary.
- A container's `features` and `rootfs` settings are carried as opaque strings.
- The `ImportState` methods of the firewall rule, firewall rules and `node_lxc` resources are not modelled: each only copies the given id into the state.
- `LxcCommands.VerdictCases`: a "SUCCEEDED" result is assumed to carry an exit code and, when that code is not zero, an output. Go dereferences both pointers without a nil check, so a result without them is a runtime panic. The model's `ExecRecord` has no field that can be absent, and the panic is not represented.
- `LxcCommands.Verdict`: same assumption as `LxcCommands.VerdictCases`. A "SUCCEEDED" result without an exit code or output, which panics in Go, is not modelled.
- `NodeLxc.ExecOf`: a failed `Exec` call reads as exit code 0 with the call's error. The zero output of a Go error return is assumed.
- `dport` is a string in `node_firewall/rule_resource.go` and an integer elsewhere. The model copies it as an opaque string value in all three.
- `NodeFirewall.IndexRune` counts positions in characters, not bytes. The two agree on the ASCII comment prefixes the provider writes.
- `NodeLxc.UpdateRun` works from the plan, with only the id from the prior state, as the source does. Settings the plan changes other than the status are not sent to the cluster.
- Concurrency between Terraform operations, and the cluster changing on its own, are captured only through the arbitrary script of replies.

## Findings

| source | as written | input that shows it | evidently intended | confidence | as-written member | corrected member |
|---|---|---|---|---|---|---|
| internal/provider/lxc/lxc_linked_clone.go:305-310 | Read of a clone the cluster no longer has calls `RemoveResource` on the request's state, so the response keeps the resource | container 100 on node "pve" is gone: the record query answers with no record | remove the resource from the response state so Terraform plans a re-create | not executed | LxcLinkedClone.MissingCloneKept | LxcLinkedClone.MissingCloneRemoved |
| internal/provider/lxc/lxc_linked_clone.go:407-409 | ImportState writes the imported id into the `source_id` attribute, while Read looks the container up by the `id` attribute, which stays null and reads as 0 | import "100": the following Read queries container 0 | write the imported id into `id`, the clone's own container id | not executed | LxcLinkedClone.ImportedCloneReadsZero | LxcLinkedClone.ImportedCloneReadsItself |
| internal/provider/node_lxc/lxc_resource.go:620-643 | `data.Networks` is emptied before its length is compared with the resolved list, so any resolved network reports "Unable to compute all ifaces ips", and none resolved indexes past the empty list | a running container with one network "eth0" whose interface has an IPv4 address | compare against the configured networks and write them with their addresses | not executed | NodeLxc.ReadRejectsResolved | NodeLxc.ReadFixedMeans |

