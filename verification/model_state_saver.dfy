/** The five `dump_state_*` variants as write plans, each compared with the
    plan it is meant to produce: the loop state first, then, for each model
    component in a fixed order, its `config.json` followed by its tree. */
module StateSaver {
  import opened Base
  import opened MlUtils

  // ---------------------------------------------------------------------
  // The calls the dump functions make
  // ---------------------------------------------------------------------

  /** A component saved from a train state, with its config and sharding
      taken from the same model. */
  function Trained(name: string, model: Model, ts: TrainState, saveTrainState: bool, fn: ShardFn): Component {
    Component(name, Some(model), None, Some(ts), saveTrainState, Some(model), Some(fn), false)
  }

  /** A target component: an explicit parameter tree, flagged as target. */
  function Target(name: string, model: Model, params: PyTree): Component {
    Component(name, Some(model), Some(params), None, false, Some(model), Some(FromModel), true)
  }

  /** An optional component: saved only when its parameters are given. */
  function SaveIfGiven(name: string, model: Model, params: Option<PyTree>, saveDir: string, enable: bool): seq<Write> {
    if params.Some? then SaveModelComponent(Target(name, model, params.value), saveDir, enable) else []
  }

  function DumpRootConfig(saveDir: string, loopState: nat, model: Model, ts: TrainState,
                          enable: bool, saveTrainState: bool): seq<Write>
  {
    SaveLoopState(saveDir, loopState, enable)
    + SaveModelComponent(Trained(".", model, ts, saveTrainState, FromModel), saveDir, enable)
  }

  function DumpBaseSubdir(saveDir: string, loopState: nat, model: Model, ts: TrainState,
                          enable: bool, saveTrainState: bool): seq<Write>
  {
    SaveLoopState(saveDir, loopState, enable)
    + SaveModelComponent(Trained("base", model, ts, saveTrainState, FromModel), saveDir, enable)
  }

  function DumpBaseQHead(saveDir: string, loopState: nat, baseModel: Model, baseTs: TrainState,
                         qHeadModel: Model, qHeadTs: TrainState, enable: bool, saveTrainState: bool): seq<Write>
  {
    SaveLoopState(saveDir, loopState, enable)
    + SaveModelComponent(Trained("base", baseModel, baseTs, saveTrainState, FromModel), saveDir, enable)
    + SaveModelComponent(Trained("q_head", qHeadModel, qHeadTs, saveTrainState, FromModel), saveDir, enable)
  }

  function DumpPolicyValueHead(saveDir: string, loopState: nat, policyModel: Model, policyTs: TrainState,
                               valueModel: Model, valueTs: TrainState, enable: bool, saveTrainState: bool): seq<Write>
  {
    SaveLoopState(saveDir, loopState, enable)
    + SaveModelComponent(Trained("policy", policyModel, policyTs, saveTrainState, FromPolicy), saveDir, enable)
    + SaveModelComponent(Trained("value_head", valueModel, valueTs, saveTrainState, FromHead), saveDir, enable)
  }

  /** The inputs of `dump_state_complex_architecture`. */
  datatype Complex = Complex(
    baseModel: Model, baseTs: TrainState, targetBase: Option<PyTree>,
    qHeadModel: Model, q1Ts: TrainState, q2Ts: TrainState,
    q1Target: Option<PyTree>, q2Target: Option<PyTree>,
    vHeadModel: Model, vTs: TrainState)

  function DumpComplex(saveDir: string, loopState: nat, m: Complex, enable: bool, saveTrainState: bool): seq<Write>
  {
    SaveLoopState(saveDir, loopState, enable)
    + SaveModelComponent(Trained("base", m.baseModel, m.baseTs, saveTrainState, FromModel), saveDir, enable)
    + SaveIfGiven("target_base", m.baseModel, m.targetBase, saveDir, enable)
    + SaveModelComponent(Trained("q1_head", m.qHeadModel, m.q1Ts, saveTrainState, FromModel), saveDir, enable)
    + SaveModelComponent(Trained("q2_head", m.qHeadModel, m.q2Ts, saveTrainState, FromModel), saveDir, enable)
    + SaveModelComponent(Trained("v_head", m.vHeadModel, m.vTs, saveTrainState, FromModel), saveDir, enable)
    + SaveIfGiven("q1_target_head", m.qHeadModel, m.q1Target, saveDir, enable)
    + SaveIfGiven("q2_target_head", m.qHeadModel, m.q2Target, saveDir, enable)
  }

  // ---------------------------------------------------------------------
  // The plans they are meant to produce
  // ---------------------------------------------------------------------

  function LoopWrite(saveDir: string, loopState: nat): Write {
    Write(saveDir, "loop_state.pkl", LoopStatePickle(loopState))
  }

  /** A trained component in `dir`: its config, then the full train state
      as `train_state.msgpack` when train states are saved, else its
      parameters as `params.msgpack`. */
  function TrainedFiles(dir: string, model: Model, ts: TrainState, saveTrainState: bool, fn: ShardFn): seq<Write> {
    [ Write(dir, "config.json", ConfigJson(model)),
      if saveTrainState then Write(dir, "train_state.msgpack", PytreeMsgpack(StateTree(ts), Some(ShardCall(fn, model))))
      else Write(dir, "params.msgpack", PytreeMsgpack(ts.params, Some(ShardCall(fn, model)))) ]
  }

  /** A target component in `dir`: its config, then the given tree, always
      as `params.msgpack`. */
  function TargetFiles(dir: string, model: Model, params: PyTree): seq<Write> {
    [ Write(dir, "config.json", ConfigJson(model)),
      Write(dir, "params.msgpack", PytreeMsgpack(params, Some(ShardCall(FromModel, model)))) ]
  }

  function OptionalTargetFiles(dir: string, model: Model, params: Option<PyTree>): seq<Write> {
    if params.Some? then TargetFiles(dir, model, params.value) else []
  }

  /** With saving enabled and a non-empty directory, a trained component
      plans exactly its two expected files. */
  lemma TrainedPlan(name: string, model: Model, ts: TrainState, saveTrainState: bool, fn: ShardFn, saveDir: string)
    requires name != "" && name != "." && name[0] != '/'
    ensures SaveModelComponent(Trained(name, model, ts, saveTrainState, fn), saveDir, true)
            == TrainedFiles(Join(saveDir, name), model, ts, saveTrainState, fn)
  {
  }

  /** Likewise for a target component, whatever kind of tree it is given. */
  lemma TargetPlan(name: string, model: Model, params: Option<PyTree>, saveDir: string)
    requires name != "" && name != "." && name[0] != '/'
    ensures SaveIfGiven(name, model, params, saveDir, true) == OptionalTargetFiles(Join(saveDir, name), model, params)
  {
  }

  // ---------------------------------------------------------------------
  // Properties of each variant
  // ---------------------------------------------------------------------

  /** With saving disabled no variant plans anything. */
  lemma DisabledPlansNothing(saveDir: string, loopState: nat, model: Model, ts: TrainState,
                             other: Model, otherTs: TrainState, m: Complex, saveTrainState: bool)
    ensures DumpRootConfig(saveDir, loopState, model, ts, false, saveTrainState) == []
    ensures DumpBaseSubdir(saveDir, loopState, model, ts, false, saveTrainState) == []
    ensures DumpBaseQHead(saveDir, loopState, model, ts, other, otherTs, false, saveTrainState) == []
    ensures DumpPolicyValueHead(saveDir, loopState, model, ts, other, otherTs, false, saveTrainState) == []
    ensures DumpComplex(saveDir, loopState, m, false, saveTrainState) == []
  {
  }

  /** The root-config variant writes into `save_dir` itself: the loop state,
      then the config and the tree next to it. An empty `save_dir` is a
      false path, so only the loop state is planned. */
  lemma RootConfigPlan(saveDir: string, loopState: nat, model: Model, ts: TrainState, saveTrainState: bool)
    ensures saveDir != "" ==>
      DumpRootConfig(saveDir, loopState, model, ts, true, saveTrainState)
      == [LoopWrite(saveDir, loopState)] + TrainedFiles(saveDir, model, ts, saveTrainState, FromModel)
    ensures saveDir == "" ==>
      DumpRootConfig(saveDir, loopState, model, ts, true, saveTrainState) == [LoopWrite(saveDir, loopState)]
  {
  }

  /** The base-subdirectory variant writes the model into `save_dir/base`. */
  lemma BaseSubdirPlan(saveDir: string, loopState: nat, model: Model, ts: TrainState, saveTrainState: bool)
    ensures DumpBaseSubdir(saveDir, loopState, model, ts, true, saveTrainState)
            == [LoopWrite(saveDir, loopState)] + TrainedFiles(Join(saveDir, "base"), model, ts, saveTrainState, FromModel)
  {
    TrainedPlan("base", model, ts, saveTrainState, FromModel, saveDir);
  }

  /** Base then Q-head, both sharded from their own model. */
  lemma BaseQHeadPlan(saveDir: string, loopState: nat, baseModel: Model, baseTs: TrainState,
                      qHeadModel: Model, qHeadTs: TrainState, saveTrainState: bool)
    ensures DumpBaseQHead(saveDir, loopState, baseModel, baseTs, qHeadModel, qHeadTs, true, saveTrainState)
            == [LoopWrite(saveDir, loopState)]
               + TrainedFiles(Join(saveDir, "base"), baseModel, baseTs, saveTrainState, FromModel)
               + TrainedFiles(Join(saveDir, "q_head"), qHeadModel, qHeadTs, saveTrainState, FromModel)
  {
    TrainedPlan("base", baseModel, baseTs, saveTrainState, FromModel, saveDir);
    TrainedPlan("q_head", qHeadModel, qHeadTs, saveTrainState, FromModel, saveDir);
  }

  /** Policy then value head, with the policy and head sharding functions. */
  lemma PolicyValueHeadPlan(saveDir: string, loopState: nat, policyModel: Model, policyTs: TrainState,
                            valueModel: Model, valueTs: TrainState, saveTrainState: bool)
    ensures DumpPolicyValueHead(saveDir, loopState, policyModel, policyTs, valueModel, valueTs, true, saveTrainState)
            == [LoopWrite(saveDir, loopState)]
               + TrainedFiles(Join(saveDir, "policy"), policyModel, policyTs, saveTrainState, FromPolicy)
               + TrainedFiles(Join(saveDir, "value_head"), valueModel, valueTs, saveTrainState, FromHead)
  {
    TrainedPlan("policy", policyModel, policyTs, saveTrainState, FromPolicy, saveDir);
    TrainedPlan("value_head", valueModel, valueTs, saveTrainState, FromHead, saveDir);
  }

  /** The complex architecture in its fixed order: base, [target_base],
      q1_head, q2_head, v_head, [q1_target_head], [q2_target_head], each
      bracketed component present exactly when its parameters are. */
  lemma ComplexPlan(saveDir: string, loopState: nat, m: Complex, saveTrainState: bool)
    ensures DumpComplex(saveDir, loopState, m, true, saveTrainState)
            == [LoopWrite(saveDir, loopState)]
               + TrainedFiles(Join(saveDir, "base"), m.baseModel, m.baseTs, saveTrainState, FromModel)
               + OptionalTargetFiles(Join(saveDir, "target_base"), m.baseModel, m.targetBase)
               + TrainedFiles(Join(saveDir, "q1_head"), m.qHeadModel, m.q1Ts, saveTrainState, FromModel)
               + TrainedFiles(Join(saveDir, "q2_head"), m.qHeadModel, m.q2Ts, saveTrainState, FromModel)
               + TrainedFiles(Join(saveDir, "v_head"), m.vHeadModel, m.vTs, saveTrainState, FromModel)
               + OptionalTargetFiles(Join(saveDir, "q1_target_head"), m.qHeadModel, m.q1Target)
               + OptionalTargetFiles(Join(saveDir, "q2_target_head"), m.qHeadModel, m.q2Target)
  {
    TrainedPlan("base", m.baseModel, m.baseTs, saveTrainState, FromModel, saveDir);
    TargetPlan("target_base", m.baseModel, m.targetBase, saveDir);
    TrainedPlan("q1_head", m.qHeadModel, m.q1Ts, saveTrainState, FromModel, saveDir);
    TrainedPlan("q2_head", m.qHeadModel, m.q2Ts, saveTrainState, FromModel, saveDir);
    TrainedPlan("v_head", m.vHeadModel, m.vTs, saveTrainState, FromModel, saveDir);
    TargetPlan("q1_target_head", m.qHeadModel, m.q1Target, saveDir);
    TargetPlan("q2_target_head", m.qHeadModel, m.q2Target, saveDir);
  }

  // ---------------------------------------------------------------------
  // Carrying the plans out
  // ---------------------------------------------------------------------

  /** Every write of every variant goes to a non-empty directory once
      `save_dir` is non-empty. */
  predicate Located(plan: seq<Write>) {
    forall i :: 0 <= i < |plan| ==> plan[i].dir != ""
  }

  /** A located plan whose first two writes need no sharding and whose third
      is a sharded tree stops at that tree when the sharding function is
      called with one argument. */
  lemma StopsAtFirstTree(plan: seq<Write>)
    requires |plan| >= 3 && Located(plan)
    requires !plan[0].artifact.PytreeMsgpack? && !plan[1].artifact.PytreeMsgpack?
    requires plan[2].artifact.PytreeMsgpack? && plan[2].artifact.sharding.Some?
    ensures Execute(plan, AsWrittenShardArgs) == Execution(plan[..2], Some(ShardingArity))
  {
    assert Obstacle(plan[0], AsWrittenShardArgs).None?;
    assert Obstacle(plan[1], AsWrittenShardArgs).None?;
    assert Obstacle(plan[2], AsWrittenShardArgs) == Some(ShardingArity);
    var r := Execute(plan, AsWrittenShardArgs);
    assert |r.done| == 2;
  }

  /** With the intended two-argument call, a located plan is carried out in
      full. */
  lemma LocatedCompletes(plan: seq<Write>)
    requires Located(plan)
    ensures Execute(plan, IntendedShardArgs) == Execution(plan, None)
  {
  }

  /** Every write of a component goes to its non-empty path. */
  lemma ComponentLocated(c: Component, saveDir: string, enable: bool)
    ensures Located(SaveModelComponent(c, saveDir, enable))
  {
  }

  lemma GivenLocated(name: string, model: Model, params: Option<PyTree>, saveDir: string)
    ensures Located(SaveIfGiven(name, model, params, saveDir, true))
  {
    if params.Some? {
      ComponentLocated(Target(name, model, params.value), saveDir, true);
    }
  }

  lemma ConcatLocated(a: seq<Write>, b: seq<Write>)
    requires Located(a) && Located(b)
    ensures Located(a + b)
  {
    forall i | 0 <= i < |a + b|
      ensures (a + b)[i].dir != ""
    {
      if i < |a| { assert (a + b)[i] == a[i]; } else { assert (a + b)[i] == b[i - |a|]; }
    }
  }

  /** Appending writes after a plan that already fails changes nothing. */
  lemma {:induction false} PrefixStops(plan: seq<Write>, more: seq<Write>)
    requires Execute(plan, AsWrittenShardArgs).failure.Some?
    ensures Execute(plan + more, AsWrittenShardArgs) == Execute(plan, AsWrittenShardArgs)
    decreases |plan|
  {
    assert plan != [];
    assert (plan + more)[0] == plan[0];
    if Obstacle(plan[0], AsWrittenShardArgs).None? {
      assert (plan + more)[1..] == plan[1..] + more;
      PrefixStops(plan[1..], more);
    }
  }

  /** The loop state followed by a first trained component, as written:
      the loop state and the component's `config.json` are written, then the
      sharding call raises. */
  lemma {:induction false} FirstComponentStops(saveDir: string, loopState: nat, c: Component)
    requires saveDir != "" && c.name != "" && c.name[0] != '/'
    requires c.configSource.Some? && c.trainState.Some? && c.shardSource.Some? && c.shardFn.Some?
    ensures Execute(SaveLoopState(saveDir, loopState, true) + SaveModelComponent(c, saveDir, true), AsWrittenShardArgs)
            == Execution([LoopWrite(saveDir, loopState),
                          Write(EnabledSavePath(saveDir, c.name, true).value, "config.json", ConfigJson(c.configSource.value))],
                         Some(ShardingArity))
  {
    var dir := EnabledSavePath(saveDir, c.name, true).value;
    assert |dir| >= |c.name| > 0;
    var plan := SaveLoopState(saveDir, loopState, true) + SaveModelComponent(c, saveDir, true);
    ComponentLocated(c, saveDir, true);
    ConcatLocated(SaveLoopState(saveDir, loopState, true), SaveModelComponent(c, saveDir, true));
    assert plan[1] == Write(dir, "config.json", ConfigJson(c.configSource.value));
    StopsAtFirstTree(plan);
  }

  /** As written, the root-config save writes the loop state and
      `config.json` into `save_dir`, then raises before any tree. */
  lemma AsWrittenRootConfigStops(saveDir: string, loopState: nat, model: Model, ts: TrainState, saveTrainState: bool)
    requires saveDir != ""
    ensures Execute(DumpRootConfig(saveDir, loopState, model, ts, true, saveTrainState), AsWrittenShardArgs)
            == Execution([LoopWrite(saveDir, loopState), Write(saveDir, "config.json", ConfigJson(model))], Some(ShardingArity))
  {
    FirstComponentStops(saveDir, loopState, Trained(".", model, ts, saveTrainState, FromModel));
  }

  lemma AsWrittenBaseSubdirStops(saveDir: string, loopState: nat, model: Model, ts: TrainState, saveTrainState: bool)
    requires saveDir != ""
    ensures Execute(DumpBaseSubdir(saveDir, loopState, model, ts, true, saveTrainState), AsWrittenShardArgs)
            == Execution([LoopWrite(saveDir, loopState), Write(Join(saveDir, "base"), "config.json", ConfigJson(model))], Some(ShardingArity))
  {
    FirstComponentStops(saveDir, loopState, Trained("base", model, ts, saveTrainState, FromModel));
  }

  /** As written, the Q-head of the base + Q-head save is never reached. */
  lemma AsWrittenBaseQHeadStops(saveDir: string, loopState: nat, baseModel: Model, baseTs: TrainState,
                                qHeadModel: Model, qHeadTs: TrainState, saveTrainState: bool)
    requires saveDir != ""
    ensures Execute(DumpBaseQHead(saveDir, loopState, baseModel, baseTs, qHeadModel, qHeadTs, true, saveTrainState), AsWrittenShardArgs)
            == Execution([LoopWrite(saveDir, loopState), Write(Join(saveDir, "base"), "config.json", ConfigJson(baseModel))], Some(ShardingArity))
  {
    var first := SaveLoopState(saveDir, loopState, true)
                 + SaveModelComponent(Trained("base", baseModel, baseTs, saveTrainState, FromModel), saveDir, true);
    FirstComponentStops(saveDir, loopState, Trained("base", baseModel, baseTs, saveTrainState, FromModel));
    PrefixStops(first, SaveModelComponent(Trained("q_head", qHeadModel, qHeadTs, saveTrainState, FromModel), saveDir, true));
  }

  /** As written, the value head of the policy + value-head save is never
      reached. */
  lemma AsWrittenPolicyValueHeadStops(saveDir: string, loopState: nat, policyModel: Model, policyTs: TrainState,
                                      valueModel: Model, valueTs: TrainState, saveTrainState: bool)
    requires saveDir != ""
    ensures Execute(DumpPolicyValueHead(saveDir, loopState, policyModel, policyTs, valueModel, valueTs, true, saveTrainState), AsWrittenShardArgs)
            == Execution([LoopWrite(saveDir, loopState), Write(Join(saveDir, "policy"), "config.json", ConfigJson(policyModel))], Some(ShardingArity))
  {
    var first := SaveLoopState(saveDir, loopState, true)
                 + SaveModelComponent(Trained("policy", policyModel, policyTs, saveTrainState, FromPolicy), saveDir, true);
    FirstComponentStops(saveDir, loopState, Trained("policy", policyModel, policyTs, saveTrainState, FromPolicy));
    PrefixStops(first, SaveModelComponent(Trained("value_head", valueModel, valueTs, saveTrainState, FromHead), saveDir, true));
  }

  /** As written, the complex save stops at the base model's tree: none of
      the heads or targets is ever saved. */
  lemma AsWrittenComplexStops(saveDir: string, loopState: nat, m: Complex, saveTrainState: bool)
    requires saveDir != ""
    ensures Execute(DumpComplex(saveDir, loopState, m, true, saveTrainState), AsWrittenShardArgs)
            == Execution([LoopWrite(saveDir, loopState), Write(Join(saveDir, "base"), "config.json", ConfigJson(m.baseModel))], Some(ShardingArity))
  {
    var sts := saveTrainState;
    var p1 := SaveLoopState(saveDir, loopState, true)
              + SaveModelComponent(Trained("base", m.baseModel, m.baseTs, sts, FromModel), saveDir, true);
    FirstComponentStops(saveDir, loopState, Trained("base", m.baseModel, m.baseTs, sts, FromModel));
    var p2 := p1 + SaveIfGiven("target_base", m.baseModel, m.targetBase, saveDir, true);
    PrefixStops(p1, SaveIfGiven("target_base", m.baseModel, m.targetBase, saveDir, true));
    var p3 := p2 + SaveModelComponent(Trained("q1_head", m.qHeadModel, m.q1Ts, sts, FromModel), saveDir, true);
    PrefixStops(p2, SaveModelComponent(Trained("q1_head", m.qHeadModel, m.q1Ts, sts, FromModel), saveDir, true));
    var p4 := p3 + SaveModelComponent(Trained("q2_head", m.qHeadModel, m.q2Ts, sts, FromModel), saveDir, true);
    PrefixStops(p3, SaveModelComponent(Trained("q2_head", m.qHeadModel, m.q2Ts, sts, FromModel), saveDir, true));
    var p5 := p4 + SaveModelComponent(Trained("v_head", m.vHeadModel, m.vTs, sts, FromModel), saveDir, true);
    PrefixStops(p4, SaveModelComponent(Trained("v_head", m.vHeadModel, m.vTs, sts, FromModel), saveDir, true));
    var p6 := p5 + SaveIfGiven("q1_target_head", m.qHeadModel, m.q1Target, saveDir, true);
    PrefixStops(p5, SaveIfGiven("q1_target_head", m.qHeadModel, m.q1Target, saveDir, true));
    PrefixStops(p6, SaveIfGiven("q2_target_head", m.qHeadModel, m.q2Target, saveDir, true));
  }

  /** With the sharding function called with the model and the tree, as its
      placeholders expect, an enabled complex save into a non-empty
      `save_dir` carries out its whole plan. */
  lemma IntendedComplexCompletes(saveDir: string, loopState: nat, m: Complex, saveTrainState: bool)
    requires saveDir != ""
    ensures Execute(DumpComplex(saveDir, loopState, m, true, saveTrainState), IntendedShardArgs)
            == Execution(DumpComplex(saveDir, loopState, m, true, saveTrainState), None)
  {
    ComplexLocated(saveDir, loopState, m, saveTrainState);
    LocatedCompletes(DumpComplex(saveDir, loopState, m, true, saveTrainState));
  }

  /** Every write of an enabled complex save into a non-empty `save_dir`
      has a non-empty directory. */
  lemma ComplexLocated(saveDir: string, loopState: nat, m: Complex, saveTrainState: bool)
    requires saveDir != ""
    ensures Located(DumpComplex(saveDir, loopState, m, true, saveTrainState))
  {
    var sts := saveTrainState;
    var p1 := SaveLoopState(saveDir, loopState, true);
    var c1 := SaveModelComponent(Trained("base", m.baseModel, m.baseTs, sts, FromModel), saveDir, true);
    var c2 := SaveIfGiven("target_base", m.baseModel, m.targetBase, saveDir, true);
    var c3 := SaveModelComponent(Trained("q1_head", m.qHeadModel, m.q1Ts, sts, FromModel), saveDir, true);
    var c4 := SaveModelComponent(Trained("q2_head", m.qHeadModel, m.q2Ts, sts, FromModel), saveDir, true);
    var c5 := SaveModelComponent(Trained("v_head", m.vHeadModel, m.vTs, sts, FromModel), saveDir, true);
    var c6 := SaveIfGiven("q1_target_head", m.qHeadModel, m.q1Target, saveDir, true);
    var c7 := SaveIfGiven("q2_target_head", m.qHeadModel, m.q2Target, saveDir, true);
    ComponentLocated(Trained("base", m.baseModel, m.baseTs, sts, FromModel), saveDir, true);
    ComponentLocated(Trained("q1_head", m.qHeadModel, m.q1Ts, sts, FromModel), saveDir, true);
    ComponentLocated(Trained("q2_head", m.qHeadModel, m.q2Ts, sts, FromModel), saveDir, true);
    ComponentLocated(Trained("v_head", m.vHeadModel, m.vTs, sts, FromModel), saveDir, true);
    GivenLocated("target_base", m.baseModel, m.targetBase, saveDir);
    GivenLocated("q1_target_head", m.qHeadModel, m.q1Target, saveDir);
    GivenLocated("q2_target_head", m.qHeadModel, m.q2Target, saveDir);
    var q1 := p1 + c1;
    ConcatLocated(p1, c1);
    var q2 := q1 + c2;
    ConcatLocated(q1, c2);
    var q3 := q2 + c3;
    ConcatLocated(q2, c3);
    var q4 := q3 + c4;
    ConcatLocated(q3, c4);
    var q5 := q4 + c5;
    ConcatLocated(q4, c5);
    var q6 := q5 + c6;
    ConcatLocated(q5, c6);
    ConcatLocated(q6, c7);
    assert DumpComplex(saveDir, loopState, m, true, saveTrainState) == q6 + c7;
  }

  /** An enabled save with an empty `save_dir` fails at once: the loop state
      path is the bare file name, whose directory `""` cannot be created. */
  lemma EmptySaveDirRaises(loopState: nat, m: Complex, saveTrainState: bool, shardArgs: nat)
    ensures Execute(DumpComplex("", loopState, m, true, saveTrainState), shardArgs) == Execution([], Some(MissingDirectory))
  {
    var plan := DumpComplex("", loopState, m, true, saveTrainState);
    assert plan[0] == LoopWrite("", loopState);
  }
}
