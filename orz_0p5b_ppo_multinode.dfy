/**
 * The experiment configuration of `playground/orz_0p5b_ppo_multinode.py`: the
 * `PPOExpConfig` dataclass for a PPO run of Qwen2.5-0.5B on a two-node Ray
 * cluster without colocation. As in the single-node configuration, the class
 * body is evaluated once, top to bottom, when the class is defined.
 */
module Orz0p5bPpoMultinode {
  import opened Wrappers
  import opened Floats

  /** `file_name`: the base name of this configuration's own file, without its extension. */
  const FileName: string := "orz_0p5b_ppo_multinode"

  /** The GPUs per node the layout is planned for ("e.g., 8 L40s per node"). */
  const AssumedGpusPerNode: int := 8

  /**
   * The fields the class body declares, in declaration order, in camel case.
   * Fields inherited from the base configuration and not redeclared here are
   * not part of the model.
   */
  datatype PPOExpConfig = PPOExpConfig(
    useComputeRewardFn: bool,
    useOrmScore: bool,
    totalNumNodes: int,
    refNumNodes: int,
    refNumGpusPerNode: int,
    actorNumNodes: int,
    actorNumGpusPerNode: int,
    criticNumNodes: int,
    criticNumGpusPerNode: int,
    colocateAll: bool,
    colocateCriticReward: bool,
    colocateActorRef: bool,
    vllmNumEngines: int,
    vllmTensorParallelSize: int,
    adamOffload: bool,
    zeroStage: int,
    pretrain: Option<string>,
    rewardPretrain: Option<string>,
    saveInterval: int,
    ckptPath: string,
    savePath: string,
    tensorboardLogDir: string,
    promptData: seq<string>,
    evalPromptData: seq<string>,
    promptDataProbs: seq<real>,
    actorLearningRate: FloatLiteral,
    criticLearningRate: FloatLiteral,
    numWarmupSteps: int,
    promptMaxLen: int,
    enablePrefixCaching: bool,
    updateRefEveryEpoch: bool,
    advantageNormalize: bool,
    numEpisodes: int,
    rolloutBatchSize: int,
    nSamplesPerPrompt: int,
    microRolloutBatchSize: int,
    policyUpdateSteps: int,
    criticUpdateSteps: int,
    microTrainBatchSize: int,
    microForwardBatchSize: int,
    freezingActorSteps: int,
    initKlCoef: FloatLiteral,
    klLossCoef: FloatLiteral,
    useKlLoss: bool,
    useKlEstimatorK3: bool,
    enableEval: bool,
    evalInterval: int,
    generateMaxLen: int,
    maxLen: int,
    packingMaxLen: int,
    temperature: FloatLiteral,
    topP: FloatLiteral,
    topK: int,
    stop: seq<string>,
    useGrpo: bool,
    gpuMemoryUtilization: FloatLiteral,
    criticPretrain: Option<string>,
    gamma: FloatLiteral,
    lambd: FloatLiteral
  )


  /** `"" if use_grpo else pretrain`: no critic checkpoint under GRPO, the policy's checkpoint otherwise. */
  function CriticPretrainDefault(useGrpo: bool, pretrain: Option<string>): Option<string> {
    if useGrpo then Some("") else pretrain
  }

  /** The fields the class body derives agree with the fields they are derived from. */
  predicate DerivedFieldsAgree(c: PPOExpConfig) {
    && c.refNumNodes == c.totalNumNodes
    && c.actorNumNodes == c.totalNumNodes
    && c.criticNumNodes == c.totalNumNodes
    && c.packingMaxLen == c.generateMaxLen + c.promptMaxLen
    && c.criticPretrain == CriticPretrainDefault(c.useGrpo, c.pretrain)
  }

  /**
   * What the configuration hands to the scheduler and the data loader is well
   * formed: every role gets at least one node and one GPU per node, there is
   * at least one rollout engine, and each training dataset has a non-negative
   * sampling weight in the same position.
   */
  predicate Valid(c: PPOExpConfig) {
    && c.totalNumNodes >= 1
    && c.refNumNodes >= 1 && c.refNumGpusPerNode >= 1
    && c.actorNumNodes >= 1 && c.actorNumGpusPerNode >= 1
    && c.criticNumNodes >= 1 && c.criticNumGpusPerNode >= 1
    && c.vllmNumEngines >= 1 && c.vllmTensorParallelSize >= 1
    && c.promptMaxLen >= 1 && c.generateMaxLen >= 1
    && |c.promptDataProbs| == |c.promptData|
    && (forall i :: 0 <= i < |c.promptDataProbs| ==> c.promptDataProbs[i] >= 0.0)
  }

  /** None of the three colocation switches is on. */
  predicate NotColocated(c: PPOExpConfig) {
    !c.colocateAll && !c.colocateCriticReward && !c.colocateActorRef
  }

  /** The GPUs a layout without colocation asks for: each role's nodes times GPUs per node, plus the rollout engines. */
  function NonColocatedGpuDemand(c: PPOExpConfig): int {
    c.refNumNodes * c.refNumGpusPerNode
    + c.actorNumNodes * c.actorNumGpusPerNode
    + c.criticNumNodes * c.criticNumGpusPerNode
    + c.vllmNumEngines * c.vllmTensorParallelSize
  }

  function Sum(s: seq<real>): real {
    if s == [] then 0.0 else s[0] + Sum(s[1..])
  }

  /**
   * The class body's defaults, evaluated in declaration order: the node
   * counts copy `total_num_nodes`, `packing_max_len` adds the two lengths and
   * `critic_pretrain` follows `use_grpo`, each from the value bound above it.
   */
  function Defaults(): (c: PPOExpConfig)
    ensures Valid(c) && DerivedFieldsAgree(c) && NotColocated(c)
    ensures c.savePath == c.ckptPath == "orz_ckpt/" + FileName
    ensures c.tensorboardLogDir == "orz_logs/" + FileName
  {
    var useComputeRewardFn := true;
    var useOrmScore := false;
    var totalNumNodes := 2;
    var refNumNodes := totalNumNodes;
    var refNumGpusPerNode := 1;
    var actorNumNodes := totalNumNodes;
    var actorNumGpusPerNode := 1;
    var criticNumNodes := totalNumNodes;
    var criticNumGpusPerNode := 1;
    var colocateAll := false;
    var colocateCriticReward := false;
    var colocateActorRef := false;
    var vllmNumEngines := 6;
    var vllmTensorParallelSize := 1;
    var adamOffload := false;
    var zeroStage := 3;
    var pretrain := Some("Qwen/Qwen2.5-0.5B");
    var rewardPretrain := None;
    var saveInterval := 50;
    var ckptPath := "orz_ckpt/" + FileName;
    var savePath := "orz_ckpt/" + FileName;
    var tensorboardLogDir := "orz_logs/" + FileName;
    var promptData := ["data/orz_math_57k_collected.json"];
    var evalPromptData := ["data/eval_data/math500.json", "data/eval_data/aime2024.json", "data/eval_data/gpqa_diamond.json"];
    var promptDataProbs := [1.0];
    var actorLearningRate := FloatLiteral("1e-6");
    var criticLearningRate := FloatLiteral("5e-6");
    var numWarmupSteps := 50;
    var promptMaxLen := 2048;
    var enablePrefixCaching := true;
    var updateRefEveryEpoch := true;
    var advantageNormalize := true;
    var numEpisodes := 20;
    var rolloutBatchSize := 64;
    var nSamplesPerPrompt := 16;
    var microRolloutBatchSize := 64;
    var policyUpdateSteps := 1;
    var criticUpdateSteps := 12;
    var microTrainBatchSize := 1;
    var microForwardBatchSize := 1;
    var freezingActorSteps := -1;
    var initKlCoef := FloatLiteral("0");
    var klLossCoef := FloatLiteral("0.0");
    var useKlLoss := true;
    var useKlEstimatorK3 := true;
    var enableEval := true;
    var evalInterval := 10;
    var generateMaxLen := 4096;
    var maxLen := 4096;
    var packingMaxLen := generateMaxLen + promptMaxLen;
    var temperature := FloatLiteral("1.0");
    var topP := FloatLiteral("1.0");
    var topK := -1;
    var stop := ["User:", "Human:", "Assistant:", "</answer>"];
    var useGrpo := false;
    var gpuMemoryUtilization := FloatLiteral("0.8");
    var criticPretrain := CriticPretrainDefault(useGrpo, pretrain);
    var gamma := FloatLiteral("1.0");
    var lambd := FloatLiteral("1.0");
    PPOExpConfig(
      useComputeRewardFn,
      useOrmScore,
      totalNumNodes,
      refNumNodes,
      refNumGpusPerNode,
      actorNumNodes,
      actorNumGpusPerNode,
      criticNumNodes,
      criticNumGpusPerNode,
      colocateAll,
      colocateCriticReward,
      colocateActorRef,
      vllmNumEngines,
      vllmTensorParallelSize,
      adamOffload,
      zeroStage,
      pretrain,
      rewardPretrain,
      saveInterval,
      ckptPath,
      savePath,
      tensorboardLogDir,
      promptData,
      evalPromptData,
      promptDataProbs,
      actorLearningRate,
      criticLearningRate,
      numWarmupSteps,
      promptMaxLen,
      enablePrefixCaching,
      updateRefEveryEpoch,
      advantageNormalize,
      numEpisodes,
      rolloutBatchSize,
      nSamplesPerPrompt,
      microRolloutBatchSize,
      policyUpdateSteps,
      criticUpdateSteps,
      microTrainBatchSize,
      microForwardBatchSize,
      freezingActorSteps,
      initKlCoef,
      klLossCoef,
      useKlLoss,
      useKlEstimatorK3,
      enableEval,
      evalInterval,
      generateMaxLen,
      maxLen,
      packingMaxLen,
      temperature,
      topP,
      topK,
      stop,
      useGrpo,
      gpuMemoryUtilization,
      criticPretrain,
      gamma,
      lambd
    )
  }

  /** `packing_max_len` defaults to `generate_max_len + prompt_max_len`, 4096 + 2048. */
  lemma DefaultPackingMaxLen()
    ensures Defaults().packingMaxLen == Defaults().generateMaxLen + Defaults().promptMaxLen == 6144
  {
  }

  /** Every role's node count defaults to `total_num_nodes`, which is 2. */
  lemma DefaultRoleNodes()
    ensures var c := Defaults();
      c.refNumNodes == c.actorNumNodes == c.criticNumNodes == c.totalNumNodes == 2
  {
  }

  /** With `use_grpo` off the critic starts from the policy checkpoint; with it on the class body would give an empty critic checkpoint. */
  lemma DefaultCriticPretrain(criticPretrain: Option<string>)
    ensures Defaults().criticPretrain == Defaults().pretrain == Some("Qwen/Qwen2.5-0.5B")
    ensures DerivedFieldsAgree(Defaults().(useGrpo := true, criticPretrain := criticPretrain)) <==> criticPretrain == Some("")
  {
  }

  /** One training dataset with one weight; three evaluation datasets, in this order. */
  lemma DefaultDatasets()
    ensures var c := Defaults();
      && |c.promptDataProbs| == |c.promptData| == 1 && Sum(c.promptDataProbs) == 1.0
      && c.evalPromptData == ["data/eval_data/math500.json", "data/eval_data/aime2024.json", "data/eval_data/gpqa_diamond.json"]
  {
  }

  /**
   * Without colocation the layout asks for 3 roles x 2 nodes x 1 GPU plus
   * 6 engines x 1 GPU = 12 GPUs, fewer than the 2 x 8 the cluster is assumed
   * to have, so it leaves headroom.
   */
  lemma DefaultLayoutLeavesHeadroom()
    ensures var c := Defaults();
      && NotColocated(c)
      && NonColocatedGpuDemand(c) == 3 * 2 * 1 + 6 * 1 == 12
      && NonColocatedGpuDemand(c) < c.totalNumNodes * AssumedGpusPerNode
  {
  }

  /** The checkpoint and save directories coincide, under `orz_ckpt/`; the logs go under `orz_logs/`. */
  lemma DefaultPaths()
    ensures Defaults().savePath == Defaults().ckptPath == "orz_ckpt/orz_0p5b_ppo_multinode"
    ensures Defaults().tensorboardLogDir == "orz_logs/orz_0p5b_ppo_multinode"
  {
  }

  /**
   * A keyword override replaces one field and nothing else: the fields the
   * class body derived keep the values derived from the defaults.
   */
  lemma OverridesAreNotRederived(generateMaxLen: int, totalNumNodes: int)
    ensures Defaults().(generateMaxLen := generateMaxLen).packingMaxLen == 6144
    ensures DerivedFieldsAgree(Defaults().(generateMaxLen := generateMaxLen)) <==> generateMaxLen == 4096
    ensures Defaults().(totalNumNodes := totalNumNodes).refNumNodes == 2
    ensures DerivedFieldsAgree(Defaults().(totalNumNodes := totalNumNodes)) <==> totalNumNodes == 2
    ensures Defaults().(useGrpo := true).criticPretrain == Some("Qwen/Qwen2.5-0.5B")
    ensures !DerivedFieldsAgree(Defaults().(useGrpo := true))
  {
  }
}
