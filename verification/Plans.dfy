/** Plans as data and what can be said of one before it runs
    (`rsi_arena/agent/steps.py`). */
module Plans {
  import opened Prelude
  import opened Template

  /** A condition string: its parse (`Other` when it does not parse) and the
      names that stand between double braces in its text. */
  datatype Condition = Condition(expr: Expr, mentions: set<string>)

  /** A tool argument: a template, a container of arguments, or anything else. */
  datatype Arg = Templated(pattern: Pattern) | Container(inner: seq<Arg>) | Literal(v: Value)

  /** The fields every step has; `outputKey` is "" when there is none. */
  datatype Head = Head(outputKey: string, skipIf: Option<Condition>)

  datatype Step =
    | Prompt(head: Head, prompt: Pattern, tools: seq<string>, maxToolIterations: int,
             schema: bool, stream: bool)
    | Tool(head: Head, tool: string, args: seq<Arg>, failOk: bool)
    | Loop(head: Head, steps: seq<Step>, maxLoops: int, until: Option<Condition>,
           untilPrompt: Option<Pattern>, collect: bool)

  type Plan = seq<Step>

  const BUILT_IN: set<string> := {
    "question", "state", "now", "loop_index", "loop_iteration", "loop_results"}

  /** What the runtime itself writes while a plan runs. */
  const RUNTIME_KEYS: set<string> := {
    "last", "citations", "loop_index", "loop_iteration", "loop_results"}

  // ---- the static analysis of the source ----

  function KeyOf(h: Head): set<string> {
    if h.outputKey == "" then {} else {h.outputKey}
  }

  /** `ToolStep.reads`: only arguments that are strings themselves. */
  function ShallowReads(args: seq<Arg>): set<string> {
    if args == [] then {}
    else (if args[0].Templated? then Roots(args[0].pattern) else {}) + ShallowReads(args[1..])
  }

  function Mentions(c: Option<Condition>): set<string> {
    if c.None? then {} else c.value.mentions
  }

  function PatternReads(p: Option<Pattern>): set<string> {
    if p.None? then {} else Roots(p.value)
  }

  function Reads(step: Step): set<string>
    decreases step, 1
  {
    match step
    case Prompt(_, prompt, _, _, _, _) => Roots(prompt)
    case Tool(_, _, args, _) => ShallowReads(args)
    case Loop(_, steps, _, until, untilPrompt, _) =>
      Mentions(until) + PatternReads(untilPrompt) + PlanReads(steps)
  }

  function PlanReads(plan: Plan): set<string>
    decreases plan, 0
  {
    if plan == [] then {} else Reads(plan[0]) + PlanReads(plan[1..])
  }

  function Writes(step: Step): set<string>
    decreases step, 1
  {
    KeyOf(step.head) + (if step.Loop? then PlanWrites(step.steps) else {})
  }

  function PlanWrites(plan: Plan): set<string>
    decreases plan, 0
  {
    if plan == [] then {} else Writes(plan[0]) + PlanWrites(plan[1..])
  }

  function RequiredInputs(plan: Plan): set<string> {
    PlanReads(plan) - PlanWrites(plan) - BUILT_IN
  }

  // ---- the static cost of a plan ----

  function AtLeast0(n: int): nat {
    if n >= 0 then n else 0
  }

  /** The most completions a step can make: a tool loop has one turn more than
      its iterations, a streamed prompt has one turn whatever they are. */
  function Budget(step: Step): nat
    decreases step, 1
  {
    match step
    case Prompt(_, _, _, n, _, stream) => if stream && n < 0 then 1 else AtLeast0(n + 1)
    case Tool(_, _, _, _) => 0
    case Loop(_, steps, n, _, untilPrompt, _) =>
      AtLeast0(n) * (PlanBudget(steps) + if untilPrompt.Some? then 1 else 0)
  }

  function PlanBudget(plan: Plan): nat
    decreases plan, 0
  {
    if plan == [] then 0 else Budget(plan[0]) + PlanBudget(plan[1..])
  }

  // ---- what the analysis sees, at any depth ----

  /** All steps of a plan, those inside loops included. */
  function AllSteps(plan: Plan): seq<Step>
    decreases plan, 0
  {
    if plan == [] then [] else AllOf(plan[0]) + AllSteps(plan[1..])
  }

  function AllOf(step: Step): seq<Step>
    decreases step, 1
  {
    [step] + if step.Loop? then AllSteps(step.steps) else []
  }

  predicate HasRoot(p: Pattern, name: string) {
    exists i :: 0 <= i < |p| && p[i].Hole? && p[i].path[0] == name
  }

  /** A step uses a name itself: in its prompt, in an argument that is a template,
      between the braces of its condition, or in its stop question. */
  predicate Uses(step: Step, name: string) {
    match step
    case Prompt(_, prompt, _, _, _, _) => HasRoot(prompt, name)
    case Tool(_, _, args, _) => exists i :: 0 <= i < |args| && args[i].Templated? && HasRoot(args[i].pattern, name)
    case Loop(_, _, _, until, untilPrompt, _) =>
      || (until.Some? && name in until.value.mentions)
      || (untilPrompt.Some? && HasRoot(untilPrompt.value, name))
  }

  lemma {:induction false} ShallowIff(args: seq<Arg>, name: string)
    ensures name in ShallowReads(args) <==>
            exists i :: 0 <= i < |args| && args[i].Templated? && HasRoot(args[i].pattern, name)
  {
    if args != [] {
      ShallowIff(args[1..], name);
      if i :| 0 <= i < |args| && args[i].Templated? && HasRoot(args[i].pattern, name) {
        if i > 0 { assert args[1..][i - 1] == args[i]; }
      }
      if i :| 0 <= i < |args[1..]| && args[1..][i].Templated? && HasRoot(args[1..][i].pattern, name) {
        assert args[i + 1] == args[1..][i];
      }
    }
  }

  lemma {:induction false} StepReadsIff(step: Step, name: string)
    ensures name in Reads(step) <==> exists s :: s in AllOf(step) && Uses(s, name)
    ensures name in Writes(step) <==> exists s :: s in AllOf(step) && s.head.outputKey == name != ""
    decreases step, 1
  {
    hide Reads, Uses;
    OwnReadsIff(step, name);
    if step.Loop? {
      PlanReadsIff(step.steps, name);
      assert forall s :: s in AllOf(step) <==> s == step || s in AllSteps(step.steps);
    } else {
      assert forall s :: s in AllOf(step) <==> s == step;
    }
  }

  lemma OwnReadsIff(step: Step, name: string)
    ensures name in Reads(step) <==> Uses(step, name) || (step.Loop? && name in PlanReads(step.steps))
  {
    match step
    case Prompt(_, _, _, _, _, _) =>
    case Tool(_, _, args, _) => ShallowIff(args, name);
    case Loop(_, _, _, _, _, _) =>
  }

  /** What a plan reads is what its steps use, and what it writes their output
      keys, at any depth. */
  lemma {:induction false} PlanReadsIff(plan: Plan, name: string)
    ensures name in PlanReads(plan) <==> exists s :: s in AllSteps(plan) && Uses(s, name)
    ensures name in PlanWrites(plan) <==> exists s :: s in AllSteps(plan) && s.head.outputKey == name != ""
    decreases plan, 0
  {
    if plan != [] {
      StepReadsIff(plan[0], name);
      PlanReadsIff(plan[1..], name);
      assert forall s :: s in AllSteps(plan) <==> s in AllOf(plan[0]) || s in AllSteps(plan[1..]);
    }
  }

  /** So a name is required exactly if a step at some depth uses it and none puts
      it into state, and it is not one of those taken to be built in. */
  lemma RequiredIff(plan: Plan, name: string)
    ensures name in RequiredInputs(plan) <==>
            && (exists s :: s in AllSteps(plan) && Uses(s, name))
            && !(exists s :: s in AllSteps(plan) && s.head.outputKey == name != "")
            && name != "question" && name != "state" && name != "now"
            && name != "loop_index" && name != "loop_iteration" && name != "loop_results"
  {
    PlanReadsIff(plan, name);
  }
}
