/** Checkpoint saving, as a plan: the ordered list of files a save would
    write, each with its directory, file name and what goes into it. The
    plan is what the code decides; `Execute` then says how far such a plan
    gets when directory creation and the sharding call are taken into
    account.

    Pickle, JSON and msgpack encodings, the flax `TrainState` class and the
    bodies of the sharding functions are not modelled: a train state is a
    value with a `params` field, and a sharding call is recorded, not run. */
module MlUtils {
  import opened Base

  /** `posixpath.join(a, b)`: an absolute `b` replaces `a`; otherwise a `/`
      is inserted unless `a` is empty or already ends with one. */
  function Join(a: string, b: string): (r: string)
    ensures |r| >= |b| && r[|r| - |b|..] == b
    ensures |b| > 0 && b[0] == '/' ==> r == b
    ensures (|b| == 0 || b[0] != '/') ==> |r| >= |a| && r[..|a|] == a
    ensures (|b| == 0 || b[0] != '/') ==> r == a + b || r == a + "/" + b
    ensures (|b| == 0 || b[0] != '/') ==> (r == a + b <==> a == "" || a[|a| - 1] == '/')
  {
    if |b| > 0 && b[0] == '/' then b
    else if a == "" || a[|a| - 1] == '/' then a + b
    else a + "/" + b
  }

  /** Two relative names under the same directory give different paths. */
  lemma JoinInjective(dir: string, x: string, y: string)
    requires |x| > 0 && x[0] != '/' && |y| > 0 && y[0] != '/'
    requires Join(dir, x) == Join(dir, y)
    ensures x == y
  {
    var p := if dir == "" || dir[|dir| - 1] == '/' then dir else dir + "/";
    assert Join(dir, x) == p + x && Join(dir, y) == p + y;
    assert x == (p + x)[|p|..];
  }

  /** `get_enabled_save_path`: no path when saving is disabled; `""` and
      `"."` name the base directory itself; any other name is joined to it. */
  function EnabledSavePath(baseDir: string, name: string, enable: bool): (r: Option<string>)
    ensures r.Some? <==> enable
    ensures enable && (name == "" || name == ".") ==> r == Some(baseDir)
    ensures enable && name != "" && name != "." ==> r == Some(Join(baseDir, name))
    ensures r.Some? && (|name| == 0 || name[0] != '/') ==> r.value[..|baseDir|] == baseDir
  {
    if !enable then None
    else if name == "" || name == "." then Some(baseDir)
    else Some(Join(baseDir, name))
  }

  /** Python truthiness of an optional path: `None` and `""` are false. */
  predicate Truthy(path: Option<string>) {
    path.Some? && path.value != ""
  }

  /** A model handle; its `.config` is what `config.json` receives. */
  datatype Model = Model(id: nat)

  /** A flax train state, of which only `.params` matters here. */
  datatype TrainState = TrainState(step: nat, params: PyTree)

  /** A pytree: a train state object itself, or any other tree of arrays. */
  datatype PyTree = Arrays(id: nat) | StateTree(state: TrainState)

  /** The three placeholder sharding functions of model_state_saver.py. */
  datatype ShardFn = FromModel | FromPolicy | FromHead

  /** A sharding function together with the model it is called on. */
  datatype ShardCall = ShardCall(fn: ShardFn, source: Model)

  /** What a planned file receives. */
  datatype Artifact =
    | LoopStatePickle(loopState: nat)
    | ConfigJson(source: Model)
    | PytreeMsgpack(tree: PyTree, sharding: Option<ShardCall>)

  /** One planned file: its directory, its name, and its content. */
  datatype Write = Write(dir: string, file: string, artifact: Artifact)

  /** `_save_loop_state`: exactly one write, `loop_state.pkl` in `save_dir`,
      when saving is enabled, and none otherwise. */
  function SaveLoopState(saveDir: string, loopState: nat, enable: bool): (plan: seq<Write>)
    ensures |plan| == (if enable then 1 else 0)
    ensures enable ==> plan[0] == Write(saveDir, "loop_state.pkl", LoopStatePickle(loopState))
  {
    if enable then [Write(saveDir, "loop_state.pkl", LoopStatePickle(loopState))] else []
  }

  /** The keyword arguments of one `_save_model_component` call. */
  datatype Component = Component(
    name: string,
    configSource: Option<Model>,
    pytree: Option<PyTree>,
    trainState: Option<TrainState>,
    saveTrainState: bool,
    shardSource: Option<Model>,
    shardFn: Option<ShardFn>,
    isTarget: bool)

  /** Step 2 of `_save_model_component`: which tree to save. */
  function Payload(c: Component): Option<PyTree> {
    if c.pytree.Some? then c.pytree
    else if c.trainState.Some? then
      if c.saveTrainState && !c.isTarget then Some(StateTree(c.trainState.value))
      else Some(c.trainState.value.params)
    else None
  }

  /** Step 3: the file name. */
  function FileName(tree: PyTree, saveTrainState: bool, isTarget: bool): string {
    if tree.StateTree? && saveTrainState && !isTarget then "train_state.msgpack" else "params.msgpack"
  }

  /** Step 4: a sharding call happens when both a source and a function are
      given. */
  function Sharding(c: Component): Option<ShardCall> {
    if c.shardSource.Some? && c.shardFn.Some? then Some(ShardCall(c.shardFn.value, c.shardSource.value)) else None
  }

  /** The payload choice: an explicit pytree wins; otherwise the full train
      state is chosen exactly when it is to be saved and this is not a
      target component, and its `.params` otherwise; with neither there is
      nothing to save. */
  lemma PayloadChoice(c: Component)
    ensures c.pytree.Some? ==> Payload(c) == c.pytree
    ensures c.pytree.None? && c.trainState.None? ==> Payload(c).None?
    ensures c.pytree.None? && c.trainState.Some? ==>
      (Payload(c) == Some(StateTree(c.trainState.value)) <==> c.saveTrainState && !c.isTarget)
    ensures c.pytree.None? && c.trainState.Some? && !(c.saveTrainState && !c.isTarget) ==>
      Payload(c) == Some(c.trainState.value.params)
  {
  }

  /** `_save_model_component` as a plan. Nothing is planned unless the
      component's path is enabled and not empty; then `config.json` comes
      first whenever a config source is given (with or without a tree), and
      the tree comes last whenever there is a payload, all in the
      component's own directory. The tree is `train_state.msgpack` exactly
      when it is a train state object, `save_train_state` holds and this is
      not a target component, and `params.msgpack` otherwise. */
  function SaveModelComponent(c: Component, saveDir: string, enable: bool): (plan: seq<Write>)
    ensures !enable ==> plan == []
    ensures |plan| <= 2
    ensures forall i :: 0 <= i < |plan| ==>
      Truthy(EnabledSavePath(saveDir, c.name, enable)) && plan[i].dir == EnabledSavePath(saveDir, c.name, enable).value
    ensures (|plan| > 0 && plan[0].artifact.ConfigJson?) <==>
      Truthy(EnabledSavePath(saveDir, c.name, enable)) && c.configSource.Some?
    ensures (|plan| > 0 && plan[|plan| - 1].artifact.PytreeMsgpack?) <==>
      Truthy(EnabledSavePath(saveDir, c.name, enable)) && Payload(c).Some?
    ensures forall i :: 0 <= i < |plan| && plan[i].artifact.ConfigJson? ==>
      i == 0 && plan[i] == Write(plan[i].dir, "config.json", ConfigJson(c.configSource.value))
    ensures forall i :: 0 <= i < |plan| && plan[i].artifact.PytreeMsgpack? ==>
      && i == |plan| - 1
      && plan[i].artifact == PytreeMsgpack(Payload(c).value, Sharding(c))
      && (plan[i].file == "train_state.msgpack" <==> plan[i].artifact.tree.StateTree? && c.saveTrainState && !c.isTarget)
      && (plan[i].file == "train_state.msgpack" || plan[i].file == "params.msgpack")
    ensures forall i :: 0 <= i < |plan| ==> !plan[i].artifact.LoopStatePickle?
  {
    var path := EnabledSavePath(saveDir, c.name, enable);
    if !Truthy(path) then [] else ComponentFiles(c, path.value)
  }

  /** The writes of a component whose path is `dir`: its config, if any,
      then its tree, if any. */
  function ComponentFiles(c: Component, dir: string): (plan: seq<Write>)
    ensures |plan| <= 2
    ensures forall i :: 0 <= i < |plan| ==> plan[i].dir == dir && !plan[i].artifact.LoopStatePickle?
    ensures (|plan| > 0 && plan[0].artifact.ConfigJson?) <==> c.configSource.Some?
    ensures (|plan| > 0 && plan[|plan| - 1].artifact.PytreeMsgpack?) <==> Payload(c).Some?
    ensures forall i :: 0 <= i < |plan| && plan[i].artifact.ConfigJson? ==>
      i == 0 && plan[i] == Write(dir, "config.json", ConfigJson(c.configSource.value))
    ensures forall i :: 0 <= i < |plan| && plan[i].artifact.PytreeMsgpack? ==>
      i == |plan| - 1 && plan[i] == TreeWrite(c, Payload(c).value, dir)
  {
    if c.configSource.Some? then
      if Payload(c).Some? then [ConfigWrite(c.configSource.value, dir), TreeWrite(c, Payload(c).value, dir)]
      else [ConfigWrite(c.configSource.value, dir)]
    else
      if Payload(c).Some? then [TreeWrite(c, Payload(c).value, dir)] else []
  }

  /** Step 1: `config.json` for the given config source. */
  function ConfigWrite(m: Model, dir: string): Write {
    Write(dir, "config.json", ConfigJson(m))
  }

  /** Step 4: the tree `t` chosen as payload, under the name step 3 gives
      it, with the sharding step 4 computes. */
  function TreeWrite(c: Component, t: PyTree, dir: string): (w: Write)
    ensures w.file == "train_state.msgpack" <==> t.StateTree? && c.saveTrainState && !c.isTarget
    ensures w.file == "train_state.msgpack" || w.file == "params.msgpack"
  {
    Write(dir, FileName(t, c.saveTrainState, c.isTarget), PytreeMsgpack(t, Sharding(c)))
  }

  // ---------------------------------------------------------------------
  // Carrying out a plan
  // ---------------------------------------------------------------------

  /** Why carrying out a plan stops early. */
  datatype Failure =
    | MissingDirectory   // `os.makedirs("")` raises FileNotFoundError
    | ShardingArity      // the sharding function rejected its arguments (TypeError)

  datatype Execution = Execution(done: seq<Write>, failure: Option<Failure>)

  /** The placeholder sharding functions take `(model, params, mesh=None)`. */
  predicate PlaceholderAccepts(argCount: nat) {
    2 <= argCount <= 3
  }

  /** ml_utils.py calls the sharding function with the model only. */
  const AsWrittenShardArgs: nat := 1

  /** The call the placeholders were written for: the model and the tree. */
  const IntendedShardArgs: nat := 2

  /** What stops a write: its directory is empty (the directory to create is
      `""`), or it needs a sharding call the function does not accept. */
  function Obstacle(w: Write, shardArgs: nat): Option<Failure> {
    if w.dir == "" then Some(MissingDirectory)
    else if w.artifact.PytreeMsgpack? && w.artifact.sharding.Some? && !PlaceholderAccepts(shardArgs) then Some(ShardingArity)
    else None
  }

  /** Carrying out a plan in order: every write before the first obstacle
      happens, and the first obstacle ends the save with its exception. */
  function Execute(plan: seq<Write>, shardArgs: nat): (r: Execution)
    ensures |r.done| <= |plan| && r.done == plan[..|r.done|]
    ensures forall i :: 0 <= i < |r.done| ==> Obstacle(plan[i], shardArgs).None?
    ensures r.failure.None? <==> |r.done| == |plan|
    ensures r.failure.Some? ==> r.failure == Obstacle(plan[|r.done|], shardArgs)
    decreases |plan|
  {
    if plan == [] then Execution([], None)
    else
      match Obstacle(plan[0], shardArgs)
      case Some(f) => Execution([], Some(f))
      case None =>
        var rest := Execute(plan[1..], shardArgs);
        Execution([plan[0]] + rest.done, rest.failure)
  }
}
