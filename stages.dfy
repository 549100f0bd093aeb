/** The stages of a training run, each as a step on the world: the store and
    the log of calls made so far. `launch` writes the instance name, asks the
    provider for an instance, writes its id and polls it until it is ready; the
    command stages spawn one external command against the stored host; and
    `terminate` asks the provider to terminate the stored instance id. */
module Stages {
  import opened RunState
  import opened External
  import opened Readiness

  /** The settings of one invocation that the core uses. */
  datatype RunConfig = RunConfig(
    namePrefix: string,
    instanceType: string,
    region: string,
    sshKeyName: string,
    autoTerminate: bool)

  datatype Stage = Launch | Transfer | Config | Install | Authenticate | Train | Terminate
  {
    /** The stages that run one external command. */
    predicate IsCommand()
    {
      !Launch? && !Terminate?
    }
  }

  /** What a stage's promise rejects with. */
  datatype Failure =
    | ApiFailure(error: ApiError)       // the client's rejection, rethrown as it is
    | ApiErrorBody(body: ErrorBody)     // its `error` member, rethrown
    | TypeError                         // a member read from `undefined`
    | SpawnFailure(result: SpawnResult) // the awaited spawn rejected

  /** How a stage's promise settles; `Pending` when the poll had not stopped
      by the end of the scripted answers. */
  datatype Outcome = Resolved | Rejected(failure: Failure) | Pending

  datatype World = World(store: Store, log: seq<Event>)

  datatype Step = Step(world: World, outcome: Outcome)

  function InstanceName(prefix: string, postfix: string): string
  {
    prefix + "-" + postfix
  }

  /** `storage.setItem(key, value)` on the world. */
  function Write(w: World, key: string, v: Option<string>): World
  {
    World(Put(w.store, key, v), w.log + [SetItem(key, v)])
  }

  /** `launch`'s catch handler: it reads `e.error.message`, so it rethrows the
      rejection when that member is there and throws a TypeError otherwise. */
  function LaunchCatch(e: ApiError): Failure
  {
    if e.body.Some? then ApiFailure(e) else TypeError
  }

  /** `terminate`'s catch handler rethrows the `error` member itself. */
  function TerminateCatch(e: ApiError): Failure
  {
    if e.body.Some? then ApiErrorBody(e.body.value) else TypeError
  }

  /** `instance_ids[0]`, `undefined` when the list is empty. */
  function FirstId(ids: seq<string>): Option<string>
  {
    if |ids| > 0 then Some(ids[0]) else None
  }

  function LaunchStep(w: World, cfg: RunConfig, postfix: string,
                      response: LaunchResponse, script: seq<QueryResponse>): Step
  {
    var name := InstanceName(cfg.namePrefix, postfix);
    var named := Write(w, InstanceNameKey, Some(name));
    var asked := named.(log := named.log + [LaunchInstance(cfg.instanceType, cfg.region, [cfg.sshKeyName], name)]);
    match response
    case LaunchRejected(e) => Step(asked, Rejected(LaunchCatch(e)))
    case Launched(ids) =>
      var id := FirstId(ids);
      var stored := Write(asked, InstanceIdKey, id);
      var p := Poll(id, script);
      var polled := World(StoreAfter(stored.store, p.host), stored.log + p.events);
      match p.end
      case Active => Step(polled, Resolved)
      case Failed(e) => Step(polled, Rejected(LaunchCatch(e)))
      case Unfinished => Step(polled, Pending)
  }

  /** The command a command stage spawns; only `train` also reads the stored instance name. */
  function CommandOf(stage: Stage, s: Store): Command
    requires stage.IsCommand()
  {
    match stage
    case Transfer => FileTransfer
    case Config => ConfigScript
    case Install => InstallScript
    case Authenticate => AuthenticateScript
    case Train => TrainScript(Get(s, InstanceNameKey))
  }

  /** How an awaited spawn settles the stage. */
  function SpawnOutcome(result: SpawnResult): (o: Outcome)
    ensures o.Resolved? <==> result == Exited(0)
    ensures !o.Resolved? ==> o == Rejected(SpawnFailure(result))
  {
    if result == Exited(0) then Resolved else Rejected(SpawnFailure(result))
  }

  /** A command stage passes the stored host, whatever it is, to the command,
      leaves the store as it was, and rejects exactly when the spawn does. */
  function CommandStep(w: World, stage: Stage, result: SpawnResult): (s: Step)
    requires stage.IsCommand()
    ensures s.world.store == w.store
    ensures s.world.log == w.log + [Spawn(CommandOf(stage, w.store), Get(w.store, HostKey))]
    ensures s.outcome.Resolved? <==> result == Exited(0)
    ensures !s.outcome.Resolved? ==> s.outcome == Rejected(SpawnFailure(result))
  {
    var host := Get(w.store, HostKey);
    Step(w.(log := w.log + [Spawn(CommandOf(stage, w.store), host)]), SpawnOutcome(result))
  }

  /** `terminate` passes the stored instance id, absent or not, to the
      provider, leaves the store as it was, and never swallows a rejection:
      it resolves only when the provider reports a terminated instance. */
  function TerminateStep(w: World, response: TerminateResponse): (s: Step)
    ensures s.world.store == w.store
    ensures s.world.log == w.log + [TerminateInstances([Get(w.store, InstanceIdKey)])]
    ensures s.outcome.Resolved? <==> response.Terminated? && |response.instanceIds| > 0
    ensures response.Terminated? && |response.instanceIds| == 0 ==> s.outcome == Rejected(TypeError)
    ensures response.TerminateRejected? ==> s.outcome == Rejected(TerminateCatch(response.error))
    ensures !s.outcome.Pending?
  {
    var asked := w.(log := w.log + [TerminateInstances([Get(w.store, InstanceIdKey)])]);
    match response
    // reading `terminated_instances[0].id` of an empty list throws, and the catch handler rethrows a TypeError
    case Terminated(ids) => Step(asked, if |ids| > 0 then Resolved else Rejected(TypeError))
    case TerminateRejected(e) => Step(asked, Rejected(TerminateCatch(e)))
  }

  /** `launch` writes the instance name and asks the provider for an instance
      under that name, in that order, before anything else. */
  lemma LaunchNamesFirst(w: World, cfg: RunConfig, postfix: string,
                         response: LaunchResponse, script: seq<QueryResponse>)
    ensures var s := LaunchStep(w, cfg, postfix, response, script);
      var name := cfg.namePrefix + "-" + postfix;
      && |s.world.log| >= |w.log| + 2
      && s.world.log[..|w.log| + 2]
         == w.log + [SetItem(InstanceNameKey, Some(name)),
                     LaunchInstance(cfg.instanceType, cfg.region, [cfg.sshKeyName], name)]
      && Get(s.world.store, InstanceNameKey) == Some(name)
  {
  }

  /** A launch the provider rejects stops there: no instance id is written,
      the instance is never queried, and the rejection is rethrown. */
  lemma LaunchRejectedStops(w: World, cfg: RunConfig, postfix: string, e: ApiError, script: seq<QueryResponse>)
    ensures var s := LaunchStep(w, cfg, postfix, LaunchRejected(e), script);
      var name := cfg.namePrefix + "-" + postfix;
      && s.outcome == Rejected(LaunchCatch(e))
      && s.world.store == Put(w.store, InstanceNameKey, Some(name))
      && Get(s.world.store, InstanceIdKey) == Get(w.store, InstanceIdKey)
      && s.world.log == w.log + [SetItem(InstanceNameKey, Some(name)),
                                 LaunchInstance(cfg.instanceType, cfg.region, [cfg.sshKeyName], name)]
      && Queries(s.world.log) == Queries(w.log)
  {
    var name := cfg.namePrefix + "-" + postfix;
    var added := [SetItem(InstanceNameKey, Some(name)),
                  LaunchInstance(cfg.instanceType, cfg.region, [cfg.sshKeyName], name)];
    CountsNone(added);
    CountsAppend(w.log, added);
  }

  /** A launch the provider accepts writes the first instance id, then polls
      that id; it settles as the poll ends, and a failed query is rethrown. */
  lemma LaunchAcceptedPolls(w: World, cfg: RunConfig, postfix: string, ids: seq<string>, script: seq<QueryResponse>)
    ensures var s := LaunchStep(w, cfg, postfix, Launched(ids), script);
      var name := cfg.namePrefix + "-" + postfix;
      var id := if |ids| > 0 then Some(ids[0]) else None;
      var p := Poll(id, script);
      && s.world.log == w.log + [SetItem(InstanceNameKey, Some(name)),
                                 LaunchInstance(cfg.instanceType, cfg.region, [cfg.sshKeyName], name),
                                 SetItem(InstanceIdKey, id)] + p.events
      && Get(s.world.store, InstanceNameKey) == Some(name)
      && Get(s.world.store, InstanceIdKey) == id
      && Get(s.world.store, HostKey) == Latest(Get(w.store, HostKey), p.host)
      && (forall k :: k != InstanceNameKey && k != InstanceIdKey && k != HostKey ==>
            Get(s.world.store, k) == Get(w.store, k))
      && s.outcome == (match p.end
                       case Active => Resolved
                       case Failed(e) => Rejected(LaunchCatch(e))
                       case Unfinished => Pending)
  {
  }

  /** `launch` end to end, when the first answer that stops the poll is at
      index `k`: it asked `k + 1` times and slept `k` times, resolves on an
      `active` answer and rejects on a failed query, and `host` holds the ip
      of the last answer up to `k` that carried one, or its old value when
      none did. */
  lemma LaunchUntilReady(w: World, cfg: RunConfig, postfix: string, ids: seq<string>,
                         script: seq<QueryResponse>, k: nat)
    requires k < |script| && Stops(script[k])
    requires forall j :: 0 <= j < k ==> !Stops(script[j])
    ensures var s := LaunchStep(w, cfg, postfix, Launched(ids), script);
      && Queries(s.world.log) == Queries(w.log) + k + 1
      && Sleeps(s.world.log) == Sleeps(w.log) + k
      && s.outcome == (if script[k].QueryRejected? then Rejected(LaunchCatch(script[k].error)) else Resolved)
      && Get(s.world.store, HostKey) == Latest(Get(w.store, HostKey), LastIp(script[..k + 1]))
  {
    var name := cfg.namePrefix + "-" + postfix;
    var id := FirstId(ids);
    var p := Poll(id, script);
    PollAtFirstStop(id, script, k);
    PollCountsAtFirstStop(id, script, k);
    LaunchAcceptedPolls(w, cfg, postfix, ids, script);
    var added := [SetItem(InstanceNameKey, Some(name)),
                  LaunchInstance(cfg.instanceType, cfg.region, [cfg.sshKeyName], name),
                  SetItem(InstanceIdKey, id)];
    CountsNone(added);
    CountsAppend(w.log, added);
    CountsAppend(w.log + added, p.events);
  }
}
