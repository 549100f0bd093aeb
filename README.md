# Lambda Cloud trainer: control core

`bin/index.js` is a command-line tool that drives a fine-tuning run on a rented
GPU instance. It launches an instance, waits until the instance reports
`active`, recording its ip address whenever an answer carries one, copies the
training files over, configures the host, installs the dependencies,
authenticates with the model hub and the experiment tracker, starts training,
and optionally terminates the instance. The stages hand each other three values
through a small persistent key/value store:
`instanceName`, `instanceId` and `host`.

This project models that control core in Dafny and proves what it does under
every answer of the shapes `External` defines.

- `run_state.dfy` (module `RunState`): the store, a `map<string, string>`, with
  `getItem`/`setItem`. Writing JavaScript's `undefined` makes the key read as absent.
- `external.dfy` (module `External`): the provider's answers (launch, instance
  query, terminate), the result of each spawned command, and `Event`, a record of
  every write to the store and every call on the provider, the clock and the
  process. Reads of the store are not logged: what a stage read shows in the
  arguments of the command or provider call it makes.
- `readiness.dfy` (module `Readiness`): the readiness poll `getInstanceIP`. It is
  a recursive function `Poll` over a finite script of query answers, mirroring
  the source's recursion. Reference definitions read from the end of a prefix
  of the script (`LastIp`, `Waits`) come with the lemmas that connect the two.
- `stages.dfy` (module `Stages`): each stage as a pure step on a `World`, the
  store plus the log of calls. Also how each promise settles: `Resolved`,
  `Rejected(failure)`, or `Pending` when the scripted answers ran out before the
  poll stopped.
- `sequencer.dfy` (module `Sequencer`): the promise chain of `run`, its
  settlement, and the interrupt hook.
- `trainer.dfy` (module `Cli`): class `Trainer`, whose fields `store` and `log`
  are updated step by step. There is one method per stage. `GetInstanceIP` is a
  `while` loop over the scripted answers. Each method is proved to leave exactly
  the state that the pure step of its stage describes.

The outside world is a parameter:

- the random name postfix is an arbitrary string;
- the provider's answers are inputs: one launch answer, a script of query
  answers, one terminate answer;
- each spawned command has a given result (exit code, signal, or failure to start);
- each 2000 ms sleep is an `Event` in the log.

## Model

| member | source | states |
|---|---|---|
| RunState.Get | bin/index.js:254 | `storage.getItem(key)`: the stored value, or `undefined` (`None`) for a key never written or written with `undefined` |
| RunState.Put | bin/index.js:185 | `setItem` makes the written key read back as the value written, or as absent for `undefined`, and leaves every other key as it was |
| Readiness.Poll | bin/index.js:221-251 | `getInstanceIP` as the source recurses: one query per answer, then the `host` write when the answer carries an ip; a failed query ends it as `Failed`, `active` ends it as `Active`, and any other status sleeps 2000 ms and polls the remaining answers; `Unfinished` when the answers run out |
| Readiness.PollAtFirstStop | bin/index.js:221-251 | when the first answer that is `active` or a failed query is at index `k`: the poll ends there, as `Active` or as the failure; it makes the query and host write of each earlier answer, each followed by a 2000 ms sleep, then the query and write of answer `k`, and nothing after that; `host` ends as the ip of the last answer up to `k` that carried one |
| Readiness.PollCountsAtFirstStop | bin/index.js:225-249 | a poll whose first stopping answer is at index `k` makes exactly `k + 1` queries and `k` sleeps |
| Readiness.PollWithoutStop | bin/index.js:243-250 | when no scripted answer stops the poll, it is still unfinished after every answer's calls, each followed by a sleep |
| Readiness.PollCountsWithoutStop | bin/index.js:243-250 | such a poll queries and sleeps once per answer |
| Readiness.LastIpNone | bin/index.js:236-240 | the poll writes no `host` exactly when no answer seen carried an ip |
| Readiness.HostUnchangedWithoutIp | bin/index.js:236-240 | a poll in which no answer up to the stopping one carried an ip leaves the store unchanged |
| Readiness.ActiveAnswerWritesHost | bin/index.js:236-245 | the ip is written before the status check: an `active` answer with an ip leaves that ip in `host`, and that write is the poll's last call |
| Readiness.StoreAfterLatest | bin/index.js:238 | of two successive writes to `host`, the later one wins |
| Readiness.WaitsCounts | bin/index.js:225-249 | `k` answers that do not stop the poll cost `k` queries and `k` sleeps |
| Readiness.PollAfterWaits | bin/index.js:243-250 | the answers that do not stop the poll can be split off: the poll makes their calls, then continues as a poll of the remaining answers |
| Stages.LaunchStep | bin/index.js:182-219 | `launch`: write `instanceName`, request the instance under that name, and on a rejection settle through the catch handler; on success write `instance_ids[0]`, run the poll on that id and settle as it ends |
| Stages.LaunchCatch | bin/index.js:210-217 | `launch`'s catch handler rethrows the rejection `e` when `e.error` is present, and otherwise fails with the `TypeError` that reading `error.message` throws |
| Stages.TerminateCatch | bin/index.js:386-392 | `terminate`'s catch handler rethrows `e.error` itself when present, and otherwise fails with the `TypeError` that reading `error.message` throws |
| Stages.CommandOf | bin/index.js:253-368 | the command each stage spawns: the file transfer script, then `config.sh`, `install.sh` and `authenticate.sh` over ssh, and `train.py` with the stored `instanceName` as its run name (line 344) |
| Stages.SpawnOutcome | bin/index.js:272 | an awaited spawn resolves exactly on exit code 0, and otherwise rejects with that result |
| Stages.CommandStep | bin/index.js:253-368 | `transfer`, `config`, `install`, `authenticate` and `train` leave the store unchanged. Each passes the stored `host` as-is (absent or not) to its command, which for `train` also carries the stored `instanceName`, and rejects exactly when its spawn does |
| Stages.TerminateStep | bin/index.js:370-393 | `terminate` leaves the store unchanged and sends the stored `instanceId`, absent or not, to the provider. It resolves only when the provider reports a terminated instance, rejects with a `TypeError` when the reported list is empty, rethrows a provider error, and never stays pending |
| Stages.LaunchNamesFirst | bin/index.js:183-200 | `launch` first writes `instanceName = prefix + "-" + postfix`, then asks the provider for an instance under that name, before any other call; the name stays stored |
| Stages.LaunchRejectedStops | bin/index.js:195-218 | a rejected launch rethrows. It stores no instance id, leaves `instanceId` as it was, and never queries the instance |
| Stages.LaunchAcceptedPolls | bin/index.js:201-209 | an accepted launch writes `instance_ids[0]` (absent for an empty list), then polls that id. It touches only the three keys and settles as the poll ends, rethrowing a failed query |
| Stages.LaunchUntilReady | bin/index.js:182-251 | `launch` end to end, with the first stopping answer at index `k`: `k + 1` queries and `k` sleeps are added to the log. It resolves on `active` and rejects with the failed query's error, and `host` holds the last ip seen up to `k`, or its old value if no answer had one |
| Sequencer.InterruptStep | bin/index.js:22-26 | the interrupt hook runs `terminate` against the current store and logs `exit(1)` after it, but only when `terminate` resolved |
| Sequencer.Chain | bin/index.js:170-175 | the `.then` chain over a list of stages: each stage starts only once the one before resolved, and the first outcome that is not a resolution ends the chain with that outcome; it records the stages started and their outcomes |
| Sequencer.Then | bin/index.js:171-175 | one `.then(() => stage(argv))`: the stage runs only when what came before resolved, and otherwise the earlier settlement passes through |
| Sequencer.Finish | bin/index.js:176-179 | after the chain: when it resolved and the flag is set, `terminate` runs and its outcome is recorded but not returned; a rejection is caught and becomes a resolution |
| Sequencer.RunPipeline | bin/index.js:169-180 | `run`: the chain over launch, transfer, config, install, authenticate and train, then `Finish` |
| Sequencer.ContinueThen | bin/index.js:170-175 | a chain with its first `.then` applied is the rest of the chain |
| Sequencer.ChainedIsChain | bin/index.js:170-175 | the written-out `launch().then(transfer)…then(train)` is the chain over the six stages in that order |
| Sequencer.ChainStartsInOrder | bin/index.js:170-175 | the chain starts a prefix of its stages, in order, with one outcome per started stage, and starts all of them when it resolves |
| Sequencer.ChainShortCircuits | bin/index.js:170-177 | every started stage except the last resolved. Either all resolved and so did the chain, or the last started stage did not, and its outcome is the chain's |
| Sequencer.FinishOrder | bin/index.js:176-179 | what `run` does after the chain settles: it adds `terminate` exactly when the chain resolved and the flag is set, and then only as the last stage; the rejection is swallowed |
| Sequencer.RunOrder | bin/index.js:169-180 | `run` starts its stages as a prefix of launch, transfer, config, install, authenticate, train, terminate. It reaches `terminate` exactly when all six resolved and the flag is set, never rejects, and stays pending only when the chain did |
| Sequencer.RunIgnoresTerminateAnswer | bin/index.js:176 | `terminate`'s promise is not returned into the chain, so `run`'s outcome and the stages it starts do not depend on the provider's answer to it |
| Sequencer.RunFailureDoesNotTerminate | bin/index.js:176-179 | when a chained stage does not resolve, `run` leaves exactly the chain's store and log and never starts `terminate`, whatever the flag says |
| Cli.Trainer.StoreItem | bin/index.js:185 | a logged `setItem` on the object's store |
| Cli.Trainer.Ask | bin/index.js:225-240 | one pass of the poll up to the status check: the query, then the `host` write when the answer carries an ip |
| Cli.Trainer.GetInstanceIP | bin/index.js:221-251 | the loop leaves the end, the store and the log that `Poll` describes |
| Cli.Trainer.Launch | bin/index.js:182-219 | the method leaves exactly the state and outcome of `LaunchStep` |
| Cli.Trainer.AwaitSpawn | bin/index.js:260-272 | spawning logs the command with the host it was given, and the stage resolves exactly on exit code 0 |
| Cli.Trainer.Transfer | bin/index.js:253-273 | the method leaves exactly what `CommandStep` describes for the file transfer |
| Cli.Trainer.Config | bin/index.js:275-295 | the same, for the configuration script |
| Cli.Trainer.Install | bin/index.js:297-317 | the same, for the install script |
| Cli.Trainer.Authenticate | bin/index.js:319-340 | the same, for the authentication script |
| Cli.Trainer.Train | bin/index.js:342-368 | the same, for the training command, launched with the stored instance name as its run name |
| Cli.Trainer.Terminate | bin/index.js:370-393 | the method leaves exactly what `TerminateStep` describes |
| Cli.Trainer.ThenStage | bin/index.js:171-175 | one `.then(stage)`: the stage runs only when the chain so far resolved |
| Cli.Trainer.Run | bin/index.js:169-180 | the method leaves exactly the state and outcome of `RunPipeline` |
| Cli.Trainer.OnInterrupt | bin/index.js:22-26 | the method leaves exactly the state and outcome of `InterruptStep` |

## Left out

- `training/train.py` is not part of this model. It is model training through foreign libraries, with floating-point hyperparameters.
- Argument and configuration parsing (bin/index.js:28-167) is left out; `RunConfig` carries only the settings the core reads. Those are the name prefix, instance type, region, ssh key name and the auto-terminate flag. The identity file, tokens and dataset names only reach the spawned commands, so they are not modelled.
- Console output is left out: boxes, colours, debug lines and the spinner, including its start condition (bin/index.js:231-234).
- The real `ssh`/`sh` processes, the Lambda Cloud HTTP client and the on-disk store are outside the model. They become oracle answers and an in-memory map that starts from a given `persisted` store.
- The random postfix (bin/index.js:183) is an arbitrary input string. Real sleep timing (bin/index.js:17) is an `Event` in the log.
- Asynchrony and signal delivery are not modelled as concurrency. The interrupt hook is a separate sequential call, `OnInterrupt`, on the current state.
- The `'error'` listeners that throw inside event callbacks (bin/index.js:268-271 and the like) are left out. They do not reject the awaited promise, so a stage fails only when its awaited spawn rejects.
- Poll, Trainer.GetInstanceIP: the source polls without bound. The model polls over a finite script of answers. When the script runs out before an `active` answer or a failed query, the poll is `Unfinished` and the stage is `Pending`, whereas the source would keep asking.
- Sequencer.InterruptStep, Trainer.OnInterrupt: the hook awaits `terminate` before `process.exit(1)`. When `terminate` rejects, the async handler rejects at that `await`, so the exit call is not reached and the model logs no `Exit`. What Node then does with the unhandled rejection is not modelled.
- Sequencer.RunPipeline, Trainer.Run: `terminate` is started but neither awaited nor returned into the chain, so its rejection never reaches `run`'s catch. The model runs it to completion inside `run` and discards its outcome. An unhandled rejection it may cause is not modelled.
- Stages.TerminateStep: the catch handler rethrows `e.error`, the body of the provider's error, not `e` itself as `launch` does. When that body is missing, reading its `message` throws a `TypeError` instead. Both cases are modelled (`ApiErrorBody`, `TypeError`). The hint text the handlers print (`error.suggestion`) is display only.
- Malformed provider answers are not modelled: a launch answer without `instance_ids` (line 203 throws), a query that resolves to no instance object at all (line 231 reads its `status`), and a terminate answer without `terminated_instances` (line 383). The answer types describe only well-formed answers, plus an empty `instance_ids` or `terminated_instances` list.
- Errors thrown by the store itself (a failing disk write) are not modelled. The store always succeeds.
