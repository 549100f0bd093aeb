/** The world outside the control core: what the Lambda Cloud client and the
    spawned processes answer (given to the model as inputs), and the log of the
    calls the core makes on them. */
module External {
  import opened RunState

  /** The `error` member of a rejection from the Lambda Cloud client. */
  datatype ErrorBody = ErrorBody(message: string, suggestion: Option<string>)

  /** A rejection from the Lambda Cloud client; its `error` member may be missing. */
  datatype ApiError = ApiError(body: Option<ErrorBody>)

  /** The answer to `launchInstance`. */
  datatype LaunchResponse =
    | Launched(instanceIds: seq<string>)
    | LaunchRejected(error: ApiError)

  /** One answer to `getRunningInstance`: the instance's status and, once
      assigned, its ip address; or a failed query. */
  datatype QueryResponse =
    | Instance(status: string, ip: Option<string>)
    | QueryRejected(error: ApiError)

  /** The answer to `terminateInstances`. */
  datatype TerminateResponse =
    | Terminated(instanceIds: seq<string>)
    | TerminateRejected(error: ApiError)

  /** How an awaited `spawn` settles: the child exits with a code, is killed
      by a signal, or cannot be started. It resolves only on exit code 0. */
  datatype SpawnResult = Exited(code: int) | Signalled | NotStarted

  /** The external command each command stage spawns. */
  datatype Command =
    | FileTransfer        // sh ./training/file_transfer.sh, with HOST in its environment
    | ConfigScript        // ssh ubuntu@host sudo ./config.sh
    | InstallScript       // ssh ubuntu@host ./install.sh
    | AuthenticateScript  // ssh ubuntu@host ./authenticate.sh
    | TrainScript(runName: Option<string>)  // ssh ubuntu@host python ./train.py, WANDB_NAME = runName

  /** One write to the store, or one call of the core on the provider, the
      clock, the operating system or the process; reads of the store are not logged. */
  datatype Event =
    | SetItem(key: string, value: Option<string>)
    | LaunchInstance(instanceType: string, region: string, sshKeyNames: seq<string>, name: string)
    | GetRunningInstance(id: Option<string>)
    | Sleep(ms: nat)
    | Spawn(command: Command, host: Option<string>)
    | TerminateInstances(ids: seq<Option<string>>)
    | Exit(code: int)
}
