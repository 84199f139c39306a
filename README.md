# Open-Reasoner-Zero playground: prompt construction and experiment configuration

This project models, in Dafny, the two pieces of logic in the repository's
`playground/` scripts:

- **Prompt construction** (`playground/zero_setting_base.py`). The training-mode
  `CustomDataset.process_dialogue` and the evaluation-mode
  `EvalCustomDataset.process_dialogue` each turn one raw dataset record into a
  pair `(prompt, extra)`. The prompt is built by rendering two Jinja templates.
  The first wraps the record's free text in an instruction. The second wraps
  that instruction in an evaluator persona, behind the tokenizer's BOS text,
  and ends where generation continues: after `Assistant: <think>`. `extra` is
  the ground-truth metadata handed to the reward function.
- **Experiment configuration** (`playground/orz_0p5b_ppo.py`,
  `playground/orz_0p5b_ppo_multinode.py`). Each file declares a `PPOExpConfig`
  dataclass. Its class body gives literal defaults and derives a few of them
  from earlier fields: the per-role node counts from `total_num_nodes`,
  `packing_max_len` from the two length limits, and `critic_pretrain` from
  `use_grpo` and `pretrain`.

Files:

- `wrappers.dfy` (`Wrappers`): `Option` and `Result`.
- `template.dfy` (`Template`): the part of Jinja the prompt builder uses. A
  template is literal text interleaved with `{{name}}` substitutions.
  `Source` gives its source text. `Compile` is `Template(source)` with Jinja's
  default `keep_trailing_newline=False`, so one trailing newline of the source
  is dropped. `Render` is `.render(...)`: names are replaced verbatim, with no
  autoescaping and no re-rendering, and an unbound name renders as `""`.
- `zero_setting_base.dfy` (`ZeroSettingBase`): records as a JSON-like `Value`,
  both template literals (declared once, because the two classes declare
  textually identical copies), and both `process_dialogue` methods as
  functions returning `Result<Processed, Error>`. A failed `assert` is
  `Failure(AssertionError(message))`, carrying the source's message.
- `floats.dfy` (`Floats`): float defaults, kept as the text of their literal.
- `orz_0p5b_ppo.dfy` (`Orz0p5bPpo`) and `orz_0p5b_ppo_multinode.dfy`
  (`Orz0p5bPpoMultinode`): the two dataclasses. Each has a `PPOExpConfig`
  datatype with the class body's fields in declaration order and in camel case,
  and a `Defaults()` function that evaluates the class body top to bottom.
  Each also has a `Valid` predicate, a `DerivedFieldsAgree` predicate and
  lemmas about the default values.

The tokenizer is a parameter `bos: Option<string>`. `None` means
`bos_token_id is None`. `Some(t)` means the id exists and `t` is what
`decode([bos_token_id])` returns.

Behaviour of the code the model keeps:

- Derived fields are dataclass defaults. They are evaluated once, when the
  class body runs. A keyword override such as
  `PPOExpConfig(generate_max_len=...)` replaces that one field, and the fields
  derived from it keep their class-body values. `OverridesAreNotRederived`
  states this.
- A record that fails a check raises `AssertionError` with the check's own
  message, and the model returns that message in `Failure(AssertionError(...))`.
- The evaluation record's `prompt` list only needs to be non-empty, because
  `dialogue["prompt"][0]` is the only element read.
- Under GRPO, `critic_pretrain` is the empty string `""`, not an absent value.

## Model

| member | source | states |
|---|---|---|
| `Template.CompileDropsTrailingNewline` | playground/zero_setting_base.py:49 | `Template(source)` with the default `keep_trailing_newline=False` removes exactly one trailing newline from the source and keeps the rest as written. A source without a trailing newline is kept unchanged. |
| `Template.CompileWellFormed` | playground/zero_setting_base.py:49 | Compiling a template leaves it made of non-empty text pieces and substitutions. |
| `Template.Render` | playground/zero_setting_base.py:49-56 | `.render(...)` copies text and replaces each substitution by its value verbatim, left to right. A template without substitutions renders as its own source. |
| `Template.RenderAppend` | playground/zero_setting_base.py:49-56 | Rendering goes piece by piece, for every template: the rendering of two templates one after the other is their two renderings one after the other. |
| `Template.SourceAppend` | playground/zero_setting_base.py:13-45 | The source text of two templates one after the other is their two source texts one after the other. |
| `ZeroSettingBase.BosToken` | playground/zero_setting_base.py:52-55 | The BOS text is `""` when the tokenizer has no BOS id, and the decoded BOS text otherwise. |
| `ZeroSettingBase.InstructionTemplateCompiled` | playground/zero_setting_base.py:41-45 | The instruction template's source is the header line, a blank line, `{{prompt}}` and a newline. After compiling, the final newline is gone. |
| `ZeroSettingBase.PromptTemplateCompiled` | playground/zero_setting_base.py:13-40 | The outer template's source runs from `{{bos_token}}` to `<think>`, because both ends of the literal are line continuations. It does not end in a newline, so compiling leaves it unchanged. |
| `ZeroSettingBase.TrailingNewlineStripped` | playground/zero_setting_base.py:41-50 | Rendering the instruction source with its trailing newline kept would give the rendered instruction plus one extra `"\n"`. |
| `ZeroSettingBase.RenderInstruction` | playground/zero_setting_base.py:49-50 | The rendered instruction is the header, `"\n\n"`, then the text verbatim, with nothing after it. |
| `ZeroSettingBase.RenderPrompt` | playground/zero_setting_base.py:51-56 | The rendered prompt is the BOS text, the persona, `User: `, the instruction verbatim, then `"\nAssistant: <think>"`. |
| `ZeroSettingBase.BuildPrompt` | playground/zero_setting_base.py:49-56 | Both renders together: BOS text (`""` without a BOS id), persona, `User: `, header, `"\n\n"`, the record's text, `"\nAssistant: <think>"`. |
| `ZeroSettingBase.ProcessTrainingDialogue` | playground/zero_setting_base.py:47-60 | Fails, with `"dialogue must contain 2 items"`, exactly when the dialogue does not have 2 items. Otherwise the prompt is built from `dialogue[0]["value"]`, and the metadata has the single key `answer`, holding `dialogue[1]["ground_truth"]["value"]`. |
| `ZeroSettingBase.TrainingPromptEndsAtThink` | playground/zero_setting_base.py:38-40 | The training prompt ends in `Assistant: <think>` with nothing after it. |
| `ZeroSettingBase.TrainingPromptStartsWithBos` | playground/zero_setting_base.py:52-56 | The training prompt starts with the decoded BOS text. Without a BOS id it starts directly with the persona. |
| `ZeroSettingBase.TrainingTextVerbatimInPrompt` | playground/zero_setting_base.py:44-50 | The record's text appears unmodified in the prompt, at the exact offset after the header and its blank line. |
| `ZeroSettingBase.GroundTruthNotInPrompt` | playground/zero_setting_base.py:50-58 | Two dialogues with the same first turn get the same prompt, so the second turn, which holds the ground truth, never affects the prompt. |
| `ZeroSettingBase.ProcessEvalDialogue` | playground/zero_setting_base.py:101-117 | Succeeds exactly when the record is a dict with `prompt`, `final_answer` and `file_name`. A non-dict fails with `"dialogue must be a dict"`. On success the prompt is built from `prompt[0]["value"]`, and the metadata is exactly `{answer: final_answer, file_name: file_name}`. |
| `ZeroSettingBase.FirstMissingKey` | playground/zero_setting_base.py:102-104 | Returns the index of the first key absent from the mapping, with every earlier key present, or reports that all keys are present. |
| `ZeroSettingBase.EvalErrorNamesFirstMissingKey` | playground/zero_setting_base.py:101-104 | A dict record fails exactly when a required key is missing. The error names the first missing key in the order `prompt`, `final_answer`, `file_name`. |
| `ZeroSettingBase.ModesBuildSamePrompt` | playground/zero_setting_base.py:68-113 | A training record and an evaluation record with the same turn text give byte-identical prompts under the same BOS. |
| `Orz0p5bPpo.Defaults` | playground/orz_0p5b_ppo.py:26-113 | The class-body defaults are valid: every role has at least one node and one GPU, there is at least one rollout engine, and the dataset weights match the datasets one to one and are non-negative. The derived fields agree with their sources, nothing is colocated, `save_path == ckpt_path == "orz_ckpt/" + file_name`, and the log directory is `"orz_logs/" + file_name`. |
| `Orz0p5bPpo.DefaultPackingMaxLen` | playground/orz_0p5b_ppo.py:98-100 | `packing_max_len` defaults to `generate_max_len + prompt_max_len`, which is 8000 + 2048 = 10048. |
| `Orz0p5bPpo.DefaultRoleNodes` | playground/orz_0p5b_ppo.py:32-40 | The reference, actor and critic node counts all default to `total_num_nodes`, which is 1. |
| `Orz0p5bPpo.DefaultCriticPretrain` | playground/orz_0p5b_ppo.py:107-110 | `critic_pretrain` defaults to `pretrain` (`Qwen/Qwen2.5-0.5B`) because `use_grpo` is off. With `use_grpo` on, a configuration agrees with the class body's derivation exactly when its `critic_pretrain` is `""`. |
| `Orz0p5bPpo.DefaultPromptDataProbs` | playground/orz_0p5b_ppo.py:59-67 | One training dataset, with one weight, 1.0. The weights sum to 1. |
| `Orz0p5bPpo.DefaultLayout` | playground/orz_0p5b_ppo.py:35-45 | Every role has at least one GPU per node and no colocation flag is set. Without colocation the layout asks for 1 + 2 + 2 + 3 = 8 GPUs. |
| `Orz0p5bPpo.DefaultPaths` | playground/orz_0p5b_ppo.py:21-55 | `save_path` equals `ckpt_path`, both `orz_ckpt/orz_0p5b_ppo`. The log directory is `orz_logs/orz_0p5b_ppo`. |
| `Orz0p5bPpo.OverridesAreNotRederived` | playground/orz_0p5b_ppo.py:26-113 | Overriding `generate_max_len`, `total_num_nodes` or `use_grpo` leaves the derived fields at their class-body values. The derived fields then disagree with their sources unless the override repeats the default. |
| `Orz0p5bPpoMultinode.Defaults` | playground/orz_0p5b_ppo_multinode.py:33-120 | The same validity, derivation, no-colocation and path facts as the single-node configuration, for the two-node class body. |
| `Orz0p5bPpoMultinode.DefaultPackingMaxLen` | playground/orz_0p5b_ppo_multinode.py:107-109 | `packing_max_len` defaults to `generate_max_len + prompt_max_len`, which is 4096 + 2048 = 6144. |
| `Orz0p5bPpoMultinode.DefaultRoleNodes` | playground/orz_0p5b_ppo_multinode.py:39-47 | The reference, actor and critic node counts all default to `total_num_nodes`, which is 2. |
| `Orz0p5bPpoMultinode.DefaultCriticPretrain` | playground/orz_0p5b_ppo_multinode.py:61-117 | `critic_pretrain` defaults to `pretrain` because `use_grpo` is off. With `use_grpo` on, a configuration agrees with the class body's derivation exactly when its `critic_pretrain` is `""`. |
| `Orz0p5bPpoMultinode.DefaultDatasets` | playground/orz_0p5b_ppo_multinode.py:69-77 | One training dataset with one weight, summing to 1. There are three evaluation datasets, in the order math500, aime2024, gpqa_diamond. |
| `Orz0p5bPpoMultinode.DefaultLayoutLeavesHeadroom` | playground/orz_0p5b_ppo_multinode.py:4-55 | No colocation flag is set. Without colocation the layout asks for 3 roles × 2 nodes × 1 GPU plus 6 engines × 1 GPU = 12 GPUs. That is fewer than the 2 × 8 GPUs the docstring assumes, so the layout does not consume all GPUs. |
| `Orz0p5bPpoMultinode.DefaultPaths` | playground/orz_0p5b_ppo_multinode.py:28-66 | `save_path` equals `ckpt_path`, both `orz_ckpt/orz_0p5b_ppo_multinode`. The log directory is `orz_logs/orz_0p5b_ppo_multinode`. |
| `Orz0p5bPpoMultinode.OverridesAreNotRederived` | playground/orz_0p5b_ppo_multinode.py:33-120 | Overriding `generate_max_len`, `total_num_nodes` or `use_grpo` leaves the derived fields at their class-body values. The derived fields then disagree with their sources unless the override repeats the default. |

## Left out

- Jinja in general is not modelled. Only `{{name}}` substitutions and the trailing-newline rule exist here, because the two templates use nothing else.
- The tokenizer is not modelled. Its BOS id and `decode` are abstracted into one `Option<string>`.
- `ProcessTrainingDialogue`, `ProcessEvalDialogue`: the unguarded lookups (`dialogue[0]["value"]`, `dialogue[1]["ground_truth"]["value"]`, `dialogue["prompt"][0]["value"]`) are preconditions, not modelled `KeyError`/`IndexError`/`TypeError` paths. The preconditions apply only once the assertions have passed, so every assertion failure stays reachable.
- `ProcessTrainingDialogue`, `ProcessEvalDialogue`: the turn text must be a string. Jinja's `str()` rendering of a non-string value is not modelled.
- Running Python with `-O` removes `assert` statements. That mode is not modelled.
- JSON floats have no `Value` case, because no modelled operation inspects them.
- `PromptDataset`, `BasePPOExpConfig` and `PPOExp` are not part of this model. Their constructors, inherited fields, config dump and training loop are unknown. In particular, `critic_learning_rate` in the single-node file keeps its unseen base-class default, because the class body declares `critic_lear22ning_rate` instead.
- The float defaults (learning rates, KL coefficients, temperature, top-p, `gpu_memory_utilization`, `gamma`, `lambd`) are opaque literal text, with no arithmetic. The exception is `prompt_data_probs`, kept as reals because 1.0 is exact.
- `file_name` is a constant: the base name of the configuration file. `os.path.splitext`/`basename(__file__)` are not modelled.
- `ListConfig` is modelled as a plain sequence.
- The `__main__` blocks (logging, `os.makedirs`, `asyncio.run`) and the module-level `ThreadPoolExecutor` are not modelled. They are I/O and concurrency.
- `NonColocatedGpuDemand`: the GPU count is the model's own sum of nodes × GPUs per role plus engines × tensor-parallel width. The external scheduler's real placement check is not modelled.
- `OverridesAreNotRederived` (both modules): a keyword override is modelled as replacing one field of the class-body defaults. That holds only if the unseen `BasePPOExpConfig` has no `__post_init__` that recomputes these fields. The base class is not part of this model.
