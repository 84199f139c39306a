/**
 * Prompt construction of `playground/zero_setting_base.py`: the training-mode
 * `CustomDataset.process_dialogue` and the evaluation-mode
 * `EvalCustomDataset.process_dialogue`. Each turns one raw dataset record into
 * the prompt text given to the policy model and the metadata given to the
 * reward function. Both modes declare the same two template literals, so they
 * are declared once here.
 */
module ZeroSettingBase {
  import opened Wrappers
  import opened Template

  /** A value decoded from a JSON dataset file, as Python sees it. */
  datatype Value =
    | Null
    | Bool(b: bool)
    | Int(i: int)
    | Str(s: string)
    | List(items: seq<Value>)
    | Dict(entries: map<string, Value>)

  /** A failed `assert` in `process_dialogue`, with its message. */
  datatype Error = AssertionError(message: string)

  /** The pair `(prompt, extra)` that `process_dialogue` returns. */
  datatype Processed = Processed(prompt: string, extra: map<string, Value>)

  /** The evaluator persona of the outer template, between `{{bos_token}}` and `User: `. */
  const Preamble: string := @"You are an expert reasoning evaluator. Your task is to meticulously examine another model's reasoning trace, step-by-step logic, and inferential patterns to determine whether its final answer is more likely to be correct or incorrect.

You will be provided with:
1. An original question
2. Another model's reasoning process and answer with confidence in the format {answer, confidence}

Focus your evaluation on:
1. **Logical Structure**: Are the reasoning steps logically connected and valid?
2. **Evidence Quality**: How strong and reliable are the sources and claims presented?
3. **Inferential Gaps**: Are there missing steps or unjustified leaps in logic?
4. **Consistency**: Does the reasoning remain internally consistent throughout?
5. **Confidence Calibration**: Is the stated confidence level appropriate given the evidence?

Your evaluation process should be:
1. Trace through each reasoning step systematically
2. Identify specific strengths and weaknesses in the logical flow
3. Assess the quality of evidence and sources cited
4. Evaluate whether conclusions follow from premises
5. Consider alternative explanations or counterarguments

Your analysis should be enclosed within <think> </think> tags, and your final judgment should be in <answer> </answer> tags using only:
- 1 if the first model's answer is more likely to be correct
- 0 if the first model's answer is more likely to be incorrect

"

  /** The first line of the instruction template. */
  const InstructionHeader: string :=
    "Analyze the following model's step-by-step reasoning process. Focus on the logical flow, evidence quality, and inferential validity rather than independently solving the problem."

  /** The text after the substituted instruction: the generation continues after `<think>`. */
  const Continuation: string := "\nAssistant: <think>"

  /**
   * `prompt_template_jinja`. The literal opens with a line continuation, so it
   * starts at `{{bos_token}}`, and the backslash after `<think>` is a line
   * continuation too, so the source has no trailing newline.
   */
  const PromptTemplateSource: seq<Segment> := OuterTemplate(Preamble + "User: ", Continuation)

  /** `prompt_instruction_template_jinja`: its source does end in a newline. */
  const InstructionTemplateSource: seq<Segment> :=
    [Text(InstructionHeader + "\n\n"), Hole("prompt"), Text("\n")]

  /** The BOS text the outer template receives: empty when the tokenizer has no BOS id, its decoded text otherwise. */
  function BosToken(bos: Option<string>): (r: string)
    ensures bos.None? ==> r == ""
    ensures bos.Some? ==> r == bos.value
  {
    match bos
    case None => ""
    case Some(text) => text
  }

  /** An instruction-shaped template: text, the `prompt` substitution, and a final newline. */
  lemma InstructionShape(head: string, text: string)
    ensures var t := [Text(head), Hole("prompt"), Text("\n")];
      && Source(t) == head + "{{prompt}}" + "\n"
      && Compile(t) == t[..2]
      && Render(t, map["prompt" := text]) == head + text + "\n"
      && Render(t[..2], map["prompt" := text]) == head + text
  {
    var env := map["prompt" := text];
    var a, h, n := Text(head), Hole("prompt"), Text("\n");
    var t := [a, h, n];
    assert t == [a, h] + [n] && t[..2] == [a, h] == [a] + [h];
    SourceAppend([a, h], [n]);
    SourceAppend([a], [h]);
    SourceSingle(a);
    SourceSingle(h);
    SourceSingle(n);
    RenderAppend([a, h], [n], env);
    RenderAppend([a], [h], env);
    RenderSingle(a, env);
    RenderSingle(h, env);
    RenderSingle(n, env);
  }

  /** The template `{{bos_token}}<persona>{{prompt}}<tail>`. */
  function OuterTemplate(persona: string, tail: string): seq<Segment> {
    [Hole("bos_token"), Text(persona), Hole("prompt"), Text(tail)]
  }

  /** Its source, which ends like `tail`; a tail not ending in a newline leaves Jinja nothing to strip. */
  lemma OuterSource(persona: string, tail: string)
    requires tail != "" && tail[|tail| - 1] != '\n'
    ensures Source(OuterTemplate(persona, tail)) == "{{bos_token}}" + persona + "{{prompt}}" + tail
    ensures !EndsWithNewline(Source(OuterTemplate(persona, tail)))
    ensures Compile(OuterTemplate(persona, tail)) == OuterTemplate(persona, tail)
  {
    var b, p, h, e := Hole("bos_token"), Text(persona), Hole("prompt"), Text(tail);
    assert OuterTemplate(persona, tail) == [b, p, h] + [e];
    assert [b, p, h] == [b, p] + [h];
    assert [b, p] == [b] + [p];
    SourceSingle(b);
    SourceReplaceLast([b], p);
    assert Source([b, p]) == "{{bos_token}}" + persona;
    SourceReplaceLast([b, p], h);
    assert Source([b, p, h]) == "{{bos_token}}" + persona + "{{prompt}}";
    SourceReplaceLast([b, p, h], e);
    LastOfConcat("{{bos_token}}" + persona + "{{prompt}}", tail);
  }

  /** Its rendering: the two values in place of the two substitutions, verbatim. */
  lemma OuterRender(persona: string, tail: string, bosToken: string, instruction: string)
    ensures Render(OuterTemplate(persona, tail), map["bos_token" := bosToken, "prompt" := instruction])
         == bosToken + persona + instruction + tail
  {
    var env := map["bos_token" := bosToken, "prompt" := instruction];
    var b, p, h, e := Hole("bos_token"), Text(persona), Hole("prompt"), Text(tail);
    assert OuterTemplate(persona, tail) == [b, p, h] + [e] && [b, p, h] == [b, p] + [h] && [b, p] == [b] + [p];
    RenderAppend([b, p, h], [e], env);
    RenderAppend([b, p], [h], env);
    RenderAppend([b], [p], env);
    RenderSingle(b, env);
    RenderSingle(p, env);
    RenderSingle(h, env);
    RenderSingle(e, env);
  }

  /** The instruction template's source as the code writes it, and with Jinja's trailing newline removed. */
  lemma InstructionTemplateCompiled()
    ensures Source(InstructionTemplateSource) == InstructionHeader + "\n\n" + "{{prompt}}" + "\n"
    ensures Compile(InstructionTemplateSource) == [Text(InstructionHeader + "\n\n"), Hole("prompt")]
  {
    InstructionShape(InstructionHeader + "\n\n", "");
  }

  /**
   * The outer template's source as the code writes it, from `{{bos_token}}`
   * to `<think>`; it does not end in a newline, so compiling leaves it as written.
   */
  lemma PromptTemplateCompiled()
    ensures Source(PromptTemplateSource) == "{{bos_token}}" + (Preamble + "User: ") + "{{prompt}}" + Continuation
    ensures !EndsWithNewline(Source(PromptTemplateSource))
    ensures Compile(PromptTemplateSource) == PromptTemplateSource
  {
    OuterSource(Preamble + "User: ", Continuation);
  }

  /** The rendered instruction: header, blank line, then the record's text verbatim, and nothing after it. */
  function RenderInstruction(text: string): (r: string)
    ensures r == InstructionHeader + "\n\n" + text
  {
    InstructionShape(InstructionHeader + "\n\n", text);
    Render(Compile(InstructionTemplateSource), map["prompt" := text])
  }

  /** The rendered outer prompt: BOS text, persona, `User: `, the instruction verbatim, then `Assistant: <think>` last. */
  function RenderPrompt(bosToken: string, instruction: string): (r: string)
    ensures r == bosToken + Preamble + "User: " + instruction + Continuation
  {
    OuterSource(Preamble + "User: ", Continuation);
    OuterRender(Preamble + "User: ", Continuation, bosToken, instruction);
    ConcatAssoc(bosToken, Preamble, "User: ");
    Render(Compile(PromptTemplateSource), map["bos_token" := bosToken, "prompt" := instruction])
  }

  /** Had the trailing newline of the instruction source been kept, the instruction would end in an extra newline. */
  lemma TrailingNewlineStripped(text: string)
    ensures Render(InstructionTemplateSource, map["prompt" := text]) == RenderInstruction(text) + "\n"
  {
    InstructionShape(InstructionHeader + "\n\n", text);
  }

  /** The prompt built from a turn text, the same in both modes. */
  function BuildPrompt(bos: Option<string>, text: string): (r: string)
    ensures r == BosToken(bos) + Preamble + "User: " + InstructionHeader + "\n\n" + text + Continuation
  {
    var head := BosToken(bos) + Preamble + "User: ";
    ConcatAssoc(head, InstructionHeader + "\n\n", text);
    ConcatAssoc(head, InstructionHeader, "\n\n");
    RenderPrompt(BosToken(bos), RenderInstruction(text))
  }

  /** Seven pieces of text, regrouped around the first two. */
  lemma Regroup(a: string, b: string, c: string, d: string, e: string, f: string, g: string)
    ensures a + b + c + d + e + f + g == a + (b + (c + d + e + f + g))
  {
  }

  /** A text ending with `tail` ends with every suffix of `tail`. */
  lemma EndsWithSuffixOf(head: string, tail: string, k: nat)
    requires k <= |tail|
    ensures |head + tail| >= |tail| - k && (head + tail)[|head + tail| - (|tail| - k)..] == tail[k..]
  {
  }

  /** `x[key]` is a string. */
  predicate HasText(x: Value, key: string) {
    x.Dict? && key in x.entries && x.entries[key].Str?
  }

  // ---------------------------------------------------------------------------
  // Training mode: CustomDataset.process_dialogue

  /** The lookups after the arity assertion succeed: `dialogue[0]["value"]` (a string) and `dialogue[1]["ground_truth"]["value"]`. */
  predicate TrainingLookupsSucceed(dialogue: seq<Value>)
    requires |dialogue| == 2
  {
    && HasText(dialogue[0], "value")
    && dialogue[1].Dict?
    && "ground_truth" in dialogue[1].entries
    && dialogue[1].entries["ground_truth"].Dict?
    && "value" in dialogue[1].entries["ground_truth"].entries
  }

  /** `dialogue[1]["ground_truth"]["value"]`. */
  function GroundTruth(dialogue: seq<Value>): Value
    requires |dialogue| == 2 && TrainingLookupsSucceed(dialogue)
  {
    dialogue[1].entries["ground_truth"].entries["value"]
  }

  const ArityMessage: string := "dialogue must contain 2 items"

  /** `CustomDataset.process_dialogue(dialogue)` with a tokenizer whose BOS text is `bos`. */
  function ProcessTrainingDialogue(bos: Option<string>, dialogue: seq<Value>): (r: Result<Processed, Error>)
    requires |dialogue| == 2 ==> TrainingLookupsSucceed(dialogue)
    ensures r.Failure? <==> |dialogue| != 2
    ensures r.Failure? ==> r.error == AssertionError(ArityMessage)
    ensures r.Success? ==>
              r.value.prompt == BosToken(bos) + Preamble + "User: " + InstructionHeader + "\n\n" + dialogue[0].entries["value"].s + Continuation
    ensures r.Success? ==> r.value.extra.Keys == {"answer"}
    ensures r.Success? ==> r.value.extra["answer"] == dialogue[1].entries["ground_truth"].entries["value"]
  {
    if |dialogue| != 2 then Failure(AssertionError(ArityMessage))
    else
      var prompt := BuildPrompt(bos, dialogue[0].entries["value"].s);
      Success(Processed(prompt, map["answer" := GroundTruth(dialogue)]))
  }

  /** The prompt ends in `Assistant: <think>` with nothing after it. */
  lemma TrainingPromptEndsAtThink(bos: Option<string>, dialogue: seq<Value>)
    requires |dialogue| == 2 && TrainingLookupsSucceed(dialogue)
    ensures var p := ProcessTrainingDialogue(bos, dialogue).value.prompt;
      |p| >= 18 && p[|p| - 18..] == "Assistant: <think>"
  {
    var head := BosToken(bos) + Preamble + "User: " + InstructionHeader + "\n\n" + dialogue[0].entries["value"].s;
    EndsWithSuffixOf(head, Continuation, 1);
    assert Continuation[1..] == "Assistant: <think>";
  }

  /** The prompt starts with the BOS text; without a BOS id it starts directly with the persona. */
  lemma TrainingPromptStartsWithBos(bos: Option<string>, dialogue: seq<Value>)
    requires |dialogue| == 2 && TrainingLookupsSucceed(dialogue)
    ensures var p := ProcessTrainingDialogue(bos, dialogue).value.prompt;
      && (bos.Some? ==> |p| >= |bos.value| && p[..|bos.value|] == bos.value)
      && (bos.None? ==> |p| >= |Preamble| && p[..|Preamble|] == Preamble)
  {
    var v := dialogue[0].entries["value"].s;
    var rest := "User: " + InstructionHeader + "\n\n" + v + Continuation;
    Regroup(BosToken(bos), Preamble, "User: ", InstructionHeader, "\n\n", v, Continuation);
    ConcatSplit(BosToken(bos), Preamble + rest);
    if bos.None? {
      assert BosToken(bos) + (Preamble + rest) == Preamble + rest;
      ConcatSplit(Preamble, rest);
    }
  }

  /** The record's text appears in the prompt unmodified, right after the instruction header and its blank line. */
  lemma TrainingTextVerbatimInPrompt(bos: Option<string>, dialogue: seq<Value>)
    requires |dialogue| == 2 && TrainingLookupsSucceed(dialogue)
    ensures var p := ProcessTrainingDialogue(bos, dialogue).value.prompt;
      var v := dialogue[0].entries["value"].s;
      var k := |BosToken(bos)| + |Preamble| + |"User: "| + |InstructionHeader| + 2;
      k + |v| <= |p| && p[k..k + |v|] == v
  {
    var v := dialogue[0].entries["value"].s;
    var before := BosToken(bos) + Preamble + "User: " + InstructionHeader + "\n\n";
    ConcatSplit(before + v, Continuation);
    ConcatSplit(before, v);
  }

  /** The prompt never depends on the second turn, so the ground truth cannot leak into it. */
  lemma GroundTruthNotInPrompt(bos: Option<string>, d1: seq<Value>, d2: seq<Value>)
    requires |d1| == 2 && TrainingLookupsSucceed(d1)
    requires |d2| == 2 && TrainingLookupsSucceed(d2)
    requires d1[0] == d2[0]
    ensures ProcessTrainingDialogue(bos, d1).value.prompt == ProcessTrainingDialogue(bos, d2).value.prompt
  {
  }

  // ---------------------------------------------------------------------------
  // Evaluation mode: EvalCustomDataset.process_dialogue

  /** The keys the evaluation record must hold, in the order they are checked. */
  const EvalRequiredKeys: seq<string> := ["prompt", "final_answer", "file_name"]

  const NotDictMessage: string := "dialogue must be a dict"

  function MissingKeyMessage(key: string): string {
    "dialogue must contain " + key
  }

  /** All four assertions of the evaluation mode pass. */
  predicate EvalAssertionsPass(d: Value) {
    d.Dict? && "prompt" in d.entries && "final_answer" in d.entries && "file_name" in d.entries
  }

  /** `dialogue["prompt"][0]["value"]` is a string. */
  predicate EvalLookupsSucceed(d: Value)
    requires EvalAssertionsPass(d)
  {
    var p := d.entries["prompt"];
    p.List? && |p.items| > 0 && HasText(p.items[0], "value")
  }

  /** `EvalCustomDataset.process_dialogue(dialogue)` with a tokenizer whose BOS text is `bos`. */
  function ProcessEvalDialogue(bos: Option<string>, d: Value): (r: Result<Processed, Error>)
    requires EvalAssertionsPass(d) ==> EvalLookupsSucceed(d)
    ensures r.Success? <==> EvalAssertionsPass(d)
    ensures !d.Dict? ==> r == Failure(AssertionError(NotDictMessage))
    ensures r.Success? ==>
              r.value.prompt == BosToken(bos) + Preamble + "User: " + InstructionHeader + "\n\n" + d.entries["prompt"].items[0].entries["value"].s + Continuation
    ensures r.Success? ==> r.value.extra == map["answer" := d.entries["final_answer"], "file_name" := d.entries["file_name"]]
  {
    if !d.Dict? then Failure(AssertionError(NotDictMessage))
    else if "prompt" !in d.entries then Failure(AssertionError(MissingKeyMessage("prompt")))
    else if "final_answer" !in d.entries then Failure(AssertionError(MissingKeyMessage("final_answer")))
    else if "file_name" !in d.entries then Failure(AssertionError(MissingKeyMessage("file_name")))
    else
      var prompt := BuildPrompt(bos, d.entries["prompt"].items[0].entries["value"].s);
      Success(Processed(prompt, map["answer" := d.entries["final_answer"], "file_name" := d.entries["file_name"]]))
  }

  /** The index of the first of `keys` that `m` lacks, if any. */
  function FirstMissingKey(keys: seq<string>, m: map<string, Value>): (r: Option<nat>)
    ensures r.Some? ==> r.value < |keys| && keys[r.value] !in m
    ensures r.Some? ==> forall j :: 0 <= j < r.value ==> keys[j] in m
    ensures r.None? ==> forall j :: 0 <= j < |keys| ==> keys[j] in m
  {
    if keys == [] then None
    else if keys[0] !in m then Some(0)
    else match FirstMissingKey(keys[1..], m)
      case None => None
      case Some(i) => Some(i + 1)
  }

  /** A dict record fails exactly when a required key is missing, and the error names the first missing key in checking order. */
  lemma EvalErrorNamesFirstMissingKey(bos: Option<string>, d: Value)
    requires EvalAssertionsPass(d) ==> EvalLookupsSucceed(d)
    requires d.Dict?
    ensures var missing := FirstMissingKey(EvalRequiredKeys, d.entries);
      && (ProcessEvalDialogue(bos, d).Failure? <==> missing.Some?)
      && (missing.Some? ==>
            ProcessEvalDialogue(bos, d).error == AssertionError(MissingKeyMessage(EvalRequiredKeys[missing.value])))
  {
    var missing := FirstMissingKey(EvalRequiredKeys, d.entries);
    assert EvalRequiredKeys[0] == "prompt" && EvalRequiredKeys[1] == "final_answer" && EvalRequiredKeys[2] == "file_name";
    if missing.Some? {
      assert missing.value <= 2;
      if missing.value == 0 {
      } else if missing.value == 1 {
        assert EvalRequiredKeys[0] in d.entries;
      } else {
        assert EvalRequiredKeys[0] in d.entries && EvalRequiredKeys[1] in d.entries;
      }
    } else {
      assert forall j :: 0 <= j < 3 ==> EvalRequiredKeys[j] in d.entries;
      assert EvalRequiredKeys[0] in d.entries && EvalRequiredKeys[1] in d.entries && EvalRequiredKeys[2] in d.entries;
    }
  }

  /** Both modes use the same templates: equal turn texts give byte-identical prompts under the same BOS. */
  lemma ModesBuildSamePrompt(bos: Option<string>, dialogue: seq<Value>, d: Value)
    requires |dialogue| == 2 && TrainingLookupsSucceed(dialogue)
    requires EvalAssertionsPass(d) && EvalLookupsSucceed(d)
    requires d.entries["prompt"].items[0].entries["value"] == dialogue[0].entries["value"]
    ensures ProcessTrainingDialogue(bos, dialogue).value.prompt == ProcessEvalDialogue(bos, d).value.prompt
  {
  }
}
