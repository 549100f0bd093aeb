/** The composed `run`: the promise chain launch → transfer → config →
    install → authenticate → train, then `terminate` when the auto-terminate
    flag is set; and the interrupt hook, which terminates and exits with 1. */
module Sequencer {
  import opened RunState
  import opened External
  import opened Readiness
  import opened Stages

  /** Everything the outside world answers during one `run`. */
  datatype Oracles = Oracles(
    postfix: string,
    launch: LaunchResponse,
    script: seq<QueryResponse>,
    transfer: SpawnResult,
    config: SpawnResult,
    install: SpawnResult,
    authenticate: SpawnResult,
    train: SpawnResult,
    terminate: TerminateResponse)

  /** The chained stages, in the order `run` chains them. */
  const Pipeline: seq<Stage> := [Launch, Transfer, Config, Install, Authenticate, Train]

  /** The world and outcome a sequence of stages leaves, the stages that were
      started, in order, and the outcome of each started stage. */
  datatype RunTrace = RunTrace(world: World, outcome: Outcome, started: seq<Stage>, outcomes: seq<Outcome>)

  function StageStep(w: World, cfg: RunConfig, o: Oracles, stage: Stage): Step
  {
    match stage
    case Launch => LaunchStep(w, cfg, o.postfix, o.launch, o.script)
    case Transfer => CommandStep(w, stage, o.transfer)
    case Config => CommandStep(w, stage, o.config)
    case Install => CommandStep(w, stage, o.install)
    case Authenticate => CommandStep(w, stage, o.authenticate)
    case Train => CommandStep(w, stage, o.train)
    case Terminate => TerminateStep(w, o.terminate)
  }

  /** A promise chain of `.then` calls: each stage starts only once the one
      before it resolved. */
  function Chain(w: World, cfg: RunConfig, o: Oracles, stages: seq<Stage>): RunTrace
    decreases |stages|
  {
    if stages == [] then RunTrace(w, Resolved, [], [])
    else
      var s := StageStep(w, cfg, o, stages[0]);
      if !s.outcome.Resolved? then RunTrace(s.world, s.outcome, [stages[0]], [s.outcome])
      else
        var rest := Chain(s.world, cfg, o, stages[1..]);
        RunTrace(rest.world, rest.outcome, [stages[0]] + rest.started, [Resolved] + rest.outcomes)
  }

  /** `.then(() => stage(argv))`: the stage runs only when what came before resolved. */
  function Then(s: Step, cfg: RunConfig, o: Oracles, stage: Stage): Step
  {
    if s.outcome.Resolved? then StageStep(s.world, cfg, o, stage) else s
  }

  /** Where a chain over `stages` ends when the stages before them left `s`. */
  function Continue(s: Step, cfg: RunConfig, o: Oracles, stages: seq<Stage>): Step
  {
    if s.outcome.Resolved? then
      var c := Chain(s.world, cfg, o, stages);
      Step(c.world, c.outcome)
    else s
  }

  lemma ContinueThen(s: Step, cfg: RunConfig, o: Oracles, stage: Stage, rest: seq<Stage>)
    ensures Continue(s, cfg, o, [stage] + rest) == Continue(Then(s, cfg, o, stage), cfg, o, rest)
  {
    assert ([stage] + rest)[0] == stage;
    assert ([stage] + rest)[1..] == rest;
  }

  /** The chain as `run` writes it: `launch(argv).then(transfer).then(config)
      .then(install).then(authenticate).then(train)`. */
  function Chained(w: World, cfg: RunConfig, o: Oracles): Step
  {
    var launched := Then(Step(w, Resolved), cfg, o, Launch);
    var transferred := Then(launched, cfg, o, Transfer);
    var configured := Then(transferred, cfg, o, Config);
    var installed := Then(configured, cfg, o, Install);
    var authenticated := Then(installed, cfg, o, Authenticate);
    Then(authenticated, cfg, o, Train)
  }

  /** The written-out chain is the chain over `Pipeline`. */
  lemma ChainedIsChain(w: World, cfg: RunConfig, o: Oracles)
    ensures Chained(w, cfg, o) == Continue(Step(w, Resolved), cfg, o, Pipeline)
  {
  }

  /** What `run` does once the chain has settled as `c`: `terminate` without
      waiting on it or looking at its outcome when the chain resolved and the
      flag is set, and any rejection of the chain caught and not rethrown. */
  function Finish(c: RunTrace, cfg: RunConfig, o: Oracles): RunTrace
  {
    match c.outcome
    case Resolved =>
      if cfg.autoTerminate then
        var t := TerminateStep(c.world, o.terminate);
        RunTrace(t.world, Resolved, c.started + [Terminate], c.outcomes + [t.outcome])
      else c
    case Rejected(_) => c.(outcome := Resolved)
    case Pending => c
  }

  /** `run`: the chain, then its settlement. */
  function RunPipeline(w: World, cfg: RunConfig, o: Oracles): RunTrace
  {
    Finish(Chain(w, cfg, o, Pipeline), cfg, o)
  }

  /** The interrupt hook: `terminate` against the current store, then
      `process.exit(1)`. When `terminate` rejects, the handler's `await`
      throws and the exit call is not reached. */
  function InterruptStep(w: World, response: TerminateResponse): (s: Step)
    ensures s.world.store == w.store
    ensures s.outcome == TerminateStep(w, response).outcome
    ensures s.world.log == w.log + [TerminateInstances([Get(w.store, InstanceIdKey)])]
                                 + (if s.outcome.Resolved? then [Exit(1)] else [])
  {
    var t := TerminateStep(w, response);
    if t.outcome.Resolved? then Step(t.world.(log := t.world.log + [Exit(1)]), Resolved) else t
  }

  lemma PrefixCons(stages: seq<Stage>, n: nat)
    requires n < |stages|
    ensures stages[..n + 1] == [stages[0]] + stages[1..][..n]
  {
  }

  /** The chain starts a prefix of its stages, in order, one outcome per
      started stage, and all of them when it resolves. */
  lemma {:induction false} ChainStartsInOrder(w: World, cfg: RunConfig, o: Oracles, stages: seq<Stage>)
    ensures var r := Chain(w, cfg, o, stages);
      && |r.started| == |r.outcomes| <= |stages|
      && r.started == stages[..|r.started|]
      && (r.outcome == Resolved ==> r.started == stages)
    decreases |stages|
  {
    if stages != [] {
      var s := StageStep(w, cfg, o, stages[0]);
      if s.outcome.Resolved? {
        ChainStartsInOrder(s.world, cfg, o, stages[1..]);
        var rest := Chain(s.world, cfg, o, stages[1..]);
        PrefixCons(stages, |rest.started|);
      }
    }
  }

  /** The chain short-circuits: every started stage but the last resolved;
      either all of them resolved and so did the chain, or the last one did
      not and its outcome is the chain's. */
  lemma {:induction false} ChainShortCircuits(w: World, cfg: RunConfig, o: Oracles, stages: seq<Stage>)
    ensures var r := Chain(w, cfg, o, stages);
      && (forall i :: 0 <= i < |r.outcomes| - 1 ==> r.outcomes[i] == Resolved)
      && (r.outcome == Resolved ==> forall i :: 0 <= i < |r.outcomes| ==> r.outcomes[i] == Resolved)
      && (r.outcome != Resolved ==> r.outcomes != [] && r.outcomes[|r.outcomes| - 1] == r.outcome)
    decreases |stages|
  {
    if stages != [] {
      var s := StageStep(w, cfg, o, stages[0]);
      if s.outcome.Resolved? {
        ChainShortCircuits(s.world, cfg, o, stages[1..]);
        var rest := Chain(s.world, cfg, o, stages[1..]);
        var outs := [Resolved] + rest.outcomes;
        assert forall i :: 1 <= i < |outs| ==> outs[i] == rest.outcomes[i - 1];
      }
    }
  }

  /** `run` starts stages in the strict order launch, transfer, config,
      install, authenticate, train, terminate; it reaches `terminate` exactly
      when all six chained stages resolved and the flag is set, then as the
      last stage and only once; and its own promise never rejects. */
  lemma RunOrder(w: World, cfg: RunConfig, o: Oracles)
    ensures var r := RunPipeline(w, cfg, o);
      var c := Chain(w, cfg, o, Pipeline);
      && r.started == (Pipeline + [Terminate])[..|r.started|]
      && (Terminate in r.started <==> c.outcome == Resolved && cfg.autoTerminate)
      && (Terminate in r.started ==> r.started == Pipeline + [Terminate])
      && !r.outcome.Rejected?
      && (r.outcome == Pending <==> c.outcome == Pending)
  {
    ChainStartsInOrder(w, cfg, o, Pipeline);
    FinishOrder(Chain(w, cfg, o, Pipeline), cfg, o);
  }

  /** The settlement of a chain that started a prefix of `Pipeline`, all of it when it resolved. */
  lemma FinishOrder(c: RunTrace, cfg: RunConfig, o: Oracles)
    requires |c.started| <= |Pipeline| && c.started == Pipeline[..|c.started|]
    requires c.outcome == Resolved ==> c.started == Pipeline
    ensures var r := Finish(c, cfg, o);
      && r.started == (Pipeline + [Terminate])[..|r.started|]
      && (Terminate in r.started <==> c.outcome == Resolved && cfg.autoTerminate)
      && (Terminate in r.started ==> r.started == Pipeline + [Terminate])
      && !r.outcome.Rejected?
      && (r.outcome == Pending <==> c.outcome == Pending)
  {
  }

  /** Stages other than `terminate` do not depend on the terminate answer. */
  lemma {:induction false} ChainIgnoresTerminateAnswer(w: World, cfg: RunConfig, o: Oracles,
                                                       stages: seq<Stage>, t: TerminateResponse)
    requires Terminate !in stages
    ensures Chain(w, cfg, o, stages) == Chain(w, cfg, o.(terminate := t), stages)
    decreases |stages|
  {
    if stages != [] {
      var o' := o.(terminate := t);
      assert StageStep(w, cfg, o, stages[0]) == StageStep(w, cfg, o', stages[0]);
      var s := StageStep(w, cfg, o, stages[0]);
      assert Terminate !in stages[1..] by {
        assert forall i :: 0 <= i < |stages[1..]| ==> stages[1..][i] == stages[i + 1];
      }
      ChainIgnoresTerminateAnswer(s.world, cfg, o, stages[1..], t);
    }
  }

  /** `run` does not return `terminate`'s promise into its chain: what it
      settles with and which stages it starts do not depend on the provider's
      answer to the termination request. */
  lemma RunIgnoresTerminateAnswer(w: World, cfg: RunConfig, o: Oracles, t: TerminateResponse)
    ensures RunPipeline(w, cfg, o).outcome == RunPipeline(w, cfg, o.(terminate := t)).outcome
    ensures RunPipeline(w, cfg, o).started == RunPipeline(w, cfg, o.(terminate := t)).started
  {
    ChainIgnoresTerminateAnswer(w, cfg, o, Pipeline, t);
  }

  /** On the failure path `run` never reaches `terminate`: when a chained
      stage does not resolve, `run` leaves exactly the store and log the
      chain left, whatever the flag says. */
  lemma RunFailureDoesNotTerminate(w: World, cfg: RunConfig, o: Oracles)
    requires Chain(w, cfg, o, Pipeline).outcome != Resolved
    ensures RunPipeline(w, cfg, o).world == Chain(w, cfg, o, Pipeline).world
    ensures Terminate !in RunPipeline(w, cfg, o).started
  {
    RunOrder(w, cfg, o);
  }
}
