/** The effective prompt: the raw prompt with the optional static context
    blocks from the configuration placed in front of it. */
module Composer {
  import opened Text

  const EquationsKey := "UNITY_EQUATIONS"
  const ProgressKey := "PROJECT_STATUS"

  const EquationsLabel := "Unity Project Equations"
  const ProgressLabel := "Current Project Progress"

  /** A labelled context block as the provider reads it. */
  datatype ContextBlock = ContextBlock(title: string, text: string)

  function Heading(b: ContextBlock): string {
    "Context: " + b.title + "\n\n" + b.text + "\n\n"
  }

  /** The blocks read in order from the front: `blocks[0]` outermost. */
  function Preamble(blocks: seq<ContextBlock>): string {
    if blocks == [] then "" else Heading(blocks[0]) + Preamble(blocks[1..])
  }

  /** The selected blocks, outermost first: progress ahead of equations. */
  function Selected(includeEquations: bool, equations: string,
                    includeProgress: bool, status: string): (bs: seq<ContextBlock>)
    ensures |bs| == (if includeEquations then 1 else 0) + (if includeProgress then 1 else 0)
  {
    (if includeProgress then [ContextBlock(ProgressLabel, status)] else []) +
    (if includeEquations then [ContextBlock(EquationsLabel, equations)] else [])
  }

  /** Heading of the progress block as the submit handler spells it. */
  lemma ProgressHeading(status: string, rest: string)
    ensures "Context: Current Project Progress\n\n" + status + "\n\n" + rest
         == Heading(ContextBlock(ProgressLabel, status)) + rest
  {
  }

  /** The prompt as the two steps of the submit handler build it: the
      equations block goes in front of the raw prompt, then the progress
      block goes in front of whatever was built so far. */
  function ComposePrompt(prompt: string, includeEquations: bool, equations: string,
                         includeProgress: bool, status: string): (r: string)
    ensures r == Preamble(Selected(includeEquations, equations, includeProgress, status)) + prompt
    ensures EndsWith(r, prompt)
    ensures !includeEquations && !includeProgress ==> r == prompt
  {
    var afterEquations :=
      if includeEquations
      then "Context: Unity Project Equations\n\n" + equations + "\n\n" + prompt
      else prompt;
    var full :=
      if includeProgress
      then "Context: Current Project Progress\n\n" + status + "\n\n" + afterEquations
      else afterEquations;
    EquationsStep(prompt, includeEquations, equations);
    ProgressStep(prompt, includeProgress, status,
                 if includeEquations then [ContextBlock(EquationsLabel, equations)] else []);
    EndsWithConcat(Preamble(Selected(includeEquations, equations, includeProgress, status)), prompt);
    full
  }

  /** The first step of the composition puts the equations block, if
      selected, in front of the raw prompt. */
  lemma EquationsStep(prompt: string, includeEquations: bool, equations: string)
    ensures (if includeEquations
             then "Context: Unity Project Equations\n\n" + equations + "\n\n" + prompt
             else prompt)
         == Preamble(if includeEquations then [ContextBlock(EquationsLabel, equations)] else []) + prompt
  {
  }

  /** The second step puts the progress block, if selected, in front of
      what the first step built. */
  lemma ProgressStep(prompt: string, includeProgress: bool, status: string, inner: seq<ContextBlock>)
    ensures (if includeProgress
             then "Context: Current Project Progress\n\n" + status + "\n\n" + (Preamble(inner) + prompt)
             else Preamble(inner) + prompt)
         == Preamble((if includeProgress then [ContextBlock(ProgressLabel, status)] else []) + inner) + prompt
  {
    var outer: seq<ContextBlock> := if includeProgress then [ContextBlock(ProgressLabel, status)] else [];
    if includeProgress {
      var p := ContextBlock(ProgressLabel, status);
      ProgressHeading(status, Preamble(inner) + prompt);
      assert (outer + inner)[1..] == inner;
      assert Preamble(outer + inner) == Heading(p) + Preamble(inner);
    } else {
      assert outer + inner == inner;
    }
  }

  /** The scenario of a prompt sent with the equations block only. */
  lemma EquationsOnly(prompt: string, equations: string, status: string)
    ensures ComposePrompt(prompt, true, equations, false, status)
         == "Context: Unity Project Equations\n\n" + equations + "\n\n" + prompt
  {
  }

  /** With both blocks the progress block comes first and the prompt built
      with the equations block alone follows it unchanged. */
  lemma ProgressOutermost(prompt: string, equations: string, status: string)
    ensures ComposePrompt(prompt, true, equations, true, status)
         == Heading(ContextBlock(ProgressLabel, status)) + ComposePrompt(prompt, true, equations, false, status)
  {
  }

  /** The result of reading the configuration and composing the prompt. */
  datatype Built = Composed(text: string) | MissingKey(key: string)

  /** Composing with the configuration's texts: a selected block whose key
      the configuration lacks raises `KeyError`, the equations key being
      read first. An unselected block's key is never read. */
  function BuildPrompt(prompt: string, config: map<string, string>,
                       includeEquations: bool, includeProgress: bool): (r: Built)
    ensures r.MissingKey? <==>
              (includeEquations && EquationsKey !in config) || (includeProgress && ProgressKey !in config)
    ensures r.MissingKey? ==>
              r.key == if includeEquations && EquationsKey !in config then EquationsKey else ProgressKey
    ensures r.Composed? ==> EndsWith(r.text, prompt)
    ensures r.Composed? ==>
              r.text == Preamble(Selected(includeEquations, if includeEquations then config[EquationsKey] else "",
                                          includeProgress, if includeProgress then config[ProgressKey] else "")) + prompt
  {
    if includeEquations && EquationsKey !in config then MissingKey(EquationsKey)
    else if includeProgress && ProgressKey !in config then MissingKey(ProgressKey)
    else
      var equations := if includeEquations then config[EquationsKey] else "";
      var status := if includeProgress then config[ProgressKey] else "";
      Composed(ComposePrompt(prompt, includeEquations, equations, includeProgress, status))
  }
}
