/** The command-line tool's state and its stages, as the source runs them:
    one object holding the run-state store and the log of outside calls, one
    method per stage, each proved to leave the state its pure step describes. */
module Cli {
  import opened RunState
  import opened External
  import opened Readiness
  import opened Stages
  import opened Sequencer

  class Trainer {
    /** The run-state store, as persisted by earlier stages or invocations. */
    var store: Store
    /** Every write to the store and every call on the provider, the clock and the system, in order. */
    var log: seq<Event>

    constructor (persisted: Store)
      ensures store == persisted && log == []
    {
      store := persisted;
      log := [];
    }

    function State(): World
      reads this
    {
      World(store, log)
    }

    function GetItem(key: string): Option<string>
      reads this
    {
      Get(store, key)
    }

    /** `storage.setItem`, logged. */
    method StoreItem(key: string, value: Option<string>)
      modifies this
      ensures State() == Write(old(State()), key, value)
    {
      store := Put(store, key, value);
      log := log + [SetItem(key, value)];
    }

    /** One pass of `getInstanceIP` up to its status check: query the
        instance, then write the answer's ip as `host` when it carries one. */
    method Ask(id: Option<string>, answer: QueryResponse)
      modifies this
      ensures store == StoreAfter(old(store), IpOf(answer))
      ensures log == old(log) + StepEvents(id, answer)
    {
      log := log + [GetRunningInstance(id)];
      if answer.Instance? && answer.ip.Some? {
        StoreItem(HostKey, answer.ip);
      }
    }

    /** `getInstanceIP`: one pass per answer; `active` ends the loop, any
        other status sleeps 2000 ms and asks again, and a failed query ends it
        at once. */
    method GetInstanceIP(id: Option<string>, script: seq<QueryResponse>) returns (end: PollEnd)
      modifies this
      ensures var p := Poll(id, script);
        && end == p.end
        && store == StoreAfter(old(store), p.host)
        && log == old(log) + p.events
    {
      ghost var store0, log0 := store, log;
      var i := 0;
      while i < |script|
        invariant i <= |script|
        invariant forall j :: 0 <= j < i ==> !Stops(script[j])
        invariant store == StoreAfter(store0, LastIp(script[..i]))
        invariant log == log0 + Waits(id, script[..i])
      {
        var answer := script[i];
        Ask(id, answer);
        StoreAfterAnswer(store0, script, i);
        if Stops(answer) {
          end := if answer.QueryRejected? then Failed(answer.error) else Active;
          PollAtFirstStop(id, script, i);
          LogAtStop(log0, id, script, i);
          return;
        }
        log := log + [Sleep(PollDelayMs)];
        LogAfterWait(log0, id, script, i);
        i := i + 1;
      }
      assert script[..i] == script;
      PollWithoutStop(id, script);
      end := Unfinished;
    }

    method Launch(cfg: RunConfig, postfix: string, response: LaunchResponse, script: seq<QueryResponse>)
      returns (outcome: Outcome)
      modifies this
      ensures var s := LaunchStep(old(State()), cfg, postfix, response, script);
        State() == s.world && outcome == s.outcome
    {
      var name := InstanceName(cfg.namePrefix, postfix);
      StoreItem(InstanceNameKey, Some(name));
      log := log + [LaunchInstance(cfg.instanceType, cfg.region, [cfg.sshKeyName], name)];
      match response
      case LaunchRejected(e) =>
        outcome := Rejected(LaunchCatch(e));
      case Launched(ids) =>
        var id := FirstId(ids);
        StoreItem(InstanceIdKey, id);
        var end := GetInstanceIP(id, script);
        match end
        case Active => outcome := Resolved;
        case Failed(e) => outcome := Rejected(LaunchCatch(e));
        case Unfinished => outcome := Pending;
    }

    /** Spawn one command and await it. */
    method AwaitSpawn(command: Command, host: Option<string>, result: SpawnResult) returns (outcome: Outcome)
      modifies this
      ensures store == old(store) && log == old(log) + [Spawn(command, host)]
      ensures outcome == SpawnOutcome(result)
    {
      log := log + [Spawn(command, host)];
      outcome := SpawnOutcome(result);
    }

    method Transfer(result: SpawnResult) returns (outcome: Outcome)
      modifies this
      ensures var s := CommandStep(old(State()), Stage.Transfer, result);
        State() == s.world && outcome == s.outcome
    {
      var ip := GetItem(HostKey);
      outcome := AwaitSpawn(FileTransfer, ip, result);
    }

    method Config(result: SpawnResult) returns (outcome: Outcome)
      modifies this
      ensures var s := CommandStep(old(State()), Stage.Config, result);
        State() == s.world && outcome == s.outcome
    {
      var ip := GetItem(HostKey);
      outcome := AwaitSpawn(ConfigScript, ip, result);
    }

    method Install(result: SpawnResult) returns (outcome: Outcome)
      modifies this
      ensures var s := CommandStep(old(State()), Stage.Install, result);
        State() == s.world && outcome == s.outcome
    {
      var ip := GetItem(HostKey);
      outcome := AwaitSpawn(InstallScript, ip, result);
    }

    method Authenticate(result: SpawnResult) returns (outcome: Outcome)
      modifies this
      ensures var s := CommandStep(old(State()), Stage.Authenticate, result);
        State() == s.world && outcome == s.outcome
    {
      var ip := GetItem(HostKey);
      outcome := AwaitSpawn(AuthenticateScript, ip, result);
    }

    method Train(result: SpawnResult) returns (outcome: Outcome)
      modifies this
      ensures var s := CommandStep(old(State()), Stage.Train, result);
        State() == s.world && outcome == s.outcome
    {
      var ip := GetItem(HostKey);
      var instanceName := GetItem(InstanceNameKey);
      outcome := AwaitSpawn(TrainScript(instanceName), ip, result);
    }

    method Terminate(response: TerminateResponse) returns (outcome: Outcome)
      modifies this
      ensures var s := TerminateStep(old(State()), response);
        State() == s.world && outcome == s.outcome
    {
      var instanceId := GetItem(InstanceIdKey);
      log := log + [TerminateInstances([instanceId])];
      match response
      case Terminated(ids) =>
        outcome := if |ids| > 0 then Resolved else Rejected(TypeError);
      case TerminateRejected(e) =>
        outcome := Rejected(TerminateCatch(e));
    }

    /** `.then(() => stage(argv))` on a chain that so far settled with
        `settled`: the command stage runs only if that was a resolution. */
    method ThenStage(settled: Outcome, stage: Stage, cfg: RunConfig, o: Oracles) returns (next: Outcome)
      requires stage.IsCommand()
      modifies this
      ensures Step(State(), next) == Then(Step(old(State()), settled), cfg, o, stage)
    {
      if !settled.Resolved? {
        return settled;
      }
      match stage
      case Transfer => next := Transfer(o.transfer);
      case Config => next := Config(o.config);
      case Install => next := Install(o.install);
      case Authenticate => next := Authenticate(o.authenticate);
      case Train => next := Train(o.train);
    }

    /** `run`: each stage starts only when the one before resolved; a
        rejection is caught and not rethrown; `terminate` is started, when
        the flag is set, without its promise being returned into the chain. */
    method Run(cfg: RunConfig, o: Oracles) returns (outcome: Outcome)
      modifies this
      ensures var r := RunPipeline(old(State()), cfg, o);
        State() == r.world && outcome == r.outcome
    {
      ghost var w0 := State();
      var settled := Launch(cfg, o.postfix, o.launch, o.script);
      settled := ThenStage(settled, Stage.Transfer, cfg, o);
      settled := ThenStage(settled, Stage.Config, cfg, o);
      settled := ThenStage(settled, Stage.Install, cfg, o);
      settled := ThenStage(settled, Stage.Authenticate, cfg, o);
      settled := ThenStage(settled, Stage.Train, cfg, o);
      assert Step(State(), settled) == Continue(Step(w0, Resolved), cfg, o, Pipeline) by {
        ChainedIsChain(w0, cfg, o);
      }
      if settled == Resolved {
        if cfg.autoTerminate {
          var ignored := Terminate(o.terminate);
        }
        outcome := Resolved;
      } else if settled.Rejected? {
        outcome := Resolved;
      } else {
        outcome := Pending;
      }
    }

    /** The SIGINT hook: `terminate` against whatever the store holds now,
        then exit with status 1. */
    method OnInterrupt(response: TerminateResponse) returns (outcome: Outcome)
      modifies this
      ensures var s := InterruptStep(old(State()), response);
        State() == s.world && outcome == s.outcome
    {
      outcome := Terminate(response);
      if outcome.Resolved? {
        log := log + [Exit(1)];
      }
    }
  }
}
