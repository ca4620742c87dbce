/**
 * The `CallMultiStep` arm of `Commands::run` in
 * examples/clap-integration/src/main.rs: a chain of prompts run one after
 * another through the model, each step after the first told the prior
 * step's result.
 *
 * `CommandsGPT::run` (the model call and the dispatch of what the model
 * chose) is the abstract `step`: it receives the prompt and the content of
 * the shared prior-result cell, and yields either an error or the cell's
 * content after the run.  The cell starts empty.
 */
module MultiStep {
  import opened Wrappers

  type Step = (string, Option<string>) -> Result<Option<string>, string>

  /** One model call: the prompt it was sent and the cell it found. */
  datatype Call = Call(prompt: string, prior: Option<string>)

  const PriorPrefix: string := "The prior result was: "
  const PriorSeparator: string := ". "

  /** The prompt of a later step, told the prior result. */
  function Rewrite(prior: string, prompt: string): string
  {
    PriorPrefix + prior + PriorSeparator + prompt
  }

  /** The prompt step `j` sends when it finds `prior` in the cell. */
  function Sent(prompts: seq<string>, j: nat, prior: Option<string>): string
    requires j < |prompts|
  {
    if j == 0 || prior.None? then prompts[j] else Rewrite(prior.value, prompts[j])
  }

  /** What a chain did: its outcome, the model calls in order, and the cell at the end. */
  datatype ChainRun = ChainRun(outcome: Result<Option<string>, string>, calls: seq<Call>, cell: Option<string>)

  /** The chain from step `i` on, with the cell holding `prior`. */
  function ChainFrom(prompts: seq<string>, i: nat, prior: Option<string>, step: Step): ChainRun
    requires i <= |prompts|
    decreases |prompts| - i
  {
    if i == |prompts| then ChainRun(Ok(None), [], prior)
    else if i > 0 && prior.None? then
      ChainFrom(prompts, i + 1, None, step)
    else
      var prompt := Sent(prompts, i, prior);
      match step(prompt, prior)
      case Err(e) => ChainRun(Err(e), [Call(prompt, prior)], prior)
      case Ok(next) =>
        var rest := ChainFrom(prompts, i + 1, next, step);
        ChainRun(rest.outcome, [Call(prompt, prior)] + rest.calls, rest.cell)
  }

  function Chain(prompts: seq<string>, step: Step): ChainRun
  {
    ChainFrom(prompts, 0, None, step)
  }

  /** The `for (i, prompt) in prompt_list.iter().enumerate()` loop; `calls` records the model calls. */
  method CallMultiStep(promptList: seq<string>, step: Step) returns (r: Result<Option<string>, string>, ghost calls: seq<Call>)
    ensures r == Chain(promptList, step).outcome
    ensures calls == Chain(promptList, step).calls
  {
    var priorResult: Option<string> := None;
    calls := [];
    var i := 0;
    while i < |promptList|
      invariant 0 <= i <= |promptList|
      invariant i == 0 ==> priorResult == None
      invariant Chain(promptList, step) ==
        var rest := ChainFrom(promptList, i, priorResult, step);
        ChainRun(rest.outcome, calls + rest.calls, rest.cell)
    {
      var prompt := promptList[i];
      if i == 0 {
        var result := step(prompt, priorResult);
        calls := calls + [Call(prompt, priorResult)];
        match result {
          case Err(e) => return Err(e), calls;
          case Ok(next) => priorResult := next;
        }
      } else {
        match priorResult {
          case Some(prior) =>
            var newPrompt := PriorPrefix + prior + PriorSeparator + prompt;
            var result := step(newPrompt, priorResult);
            calls := calls + [Call(newPrompt, priorResult)];
            match result {
              case Err(e) => return Err(e), calls;
              case Ok(next) => priorResult := next;
            }
          case None =>
            priorResult := None;
        }
      }
      i := i + 1;
    }
    return Ok(None), calls;
  }

  // ---------------------------------------------------------------------
  // Properties of the chain
  // ---------------------------------------------------------------------

  /**
   * Once the cell is empty at a later step, nothing more is sent: the
   * remaining steps are skipped and the chain finishes with `Ok(None)`.
   */
  lemma {:induction false} SkipPersists(prompts: seq<string>, i: nat, step: Step)
    requires 0 < i <= |prompts|
    ensures ChainFrom(prompts, i, None, step) == ChainRun(Ok(None), [], None)
    decreases |prompts| - i
  {
    if i < |prompts| {
      SkipPersists(prompts, i + 1, step);
    }
  }

  /** One call made at step `i`, followed by the chain from step `i + 1`. */
  lemma Unfold(prompts: seq<string>, i: nat, prior: Option<string>, step: Step, next: Option<string>)
    requires i < |prompts|
    requires i == 0 || prior.Some?
    requires step(Sent(prompts, i, prior), prior) == Ok(next)
    ensures var rest := ChainFrom(prompts, i + 1, next, step);
      ChainFrom(prompts, i, prior, step) == ChainRun(rest.outcome, [Call(Sent(prompts, i, prior), prior)] + rest.calls, rest.cell)
  {
  }

  /** At most one call per prompt. */
  lemma {:induction false} CallsBound(prompts: seq<string>, i: nat, prior: Option<string>, step: Step)
    requires i <= |prompts|
    ensures |ChainFrom(prompts, i, prior, step).calls| <= |prompts| - i
    decreases |prompts| - i
  {
    if i < |prompts| {
      if i > 0 && prior.None? {
        CallsBound(prompts, i + 1, None, step);
      } else {
        match step(Sent(prompts, i, prior), prior) {
          case Err(e) =>
          case Ok(next) =>
            CallsBound(prompts, i + 1, next, step);
            Unfold(prompts, i, prior, step, next);
        }
      }
    }
  }

  /**
   * A call as step `j` makes it: step 0 sends the first prompt verbatim to
   * an empty cell; a later step finds a result in the cell and sends its
   * prompt prefixed with it.
   */
  predicate CallAt(prompts: seq<string>, j: nat, c: Call)
  {
    && j < |prompts|
    && (j == 0 ==> c == Call(prompts[0], None))
    && (j > 0 ==> c.prior.Some? && c.prompt == Rewrite(c.prior.value, prompts[j]))
  }

  /** Call k of the chain from step `i` is made at step `i + k`, as `CallAt` says. */
  lemma {:induction false} CallsFollowPrompts(prompts: seq<string>, i: nat, prior: Option<string>, step: Step)
    requires i <= |prompts|
    requires i == 0 ==> prior == None
    ensures forall k :: 0 <= k < |ChainFrom(prompts, i, prior, step).calls| ==> CallAt(prompts, i + k, ChainFrom(prompts, i, prior, step).calls[k])
    decreases |prompts| - i
  {
    var run := ChainFrom(prompts, i, prior, step);
    if i < |prompts| && !(i > 0 && prior.None?) {
      var first := Call(Sent(prompts, i, prior), prior);
      assert CallAt(prompts, i, first);
      match step(Sent(prompts, i, prior), prior) {
        case Err(e) =>
          assert run.calls == [first];
        case Ok(next) =>
          Unfold(prompts, i, prior, step, next);
          var rest := ChainFrom(prompts, i + 1, next, step);
          assert run.calls == [first] + rest.calls;
          CallsFollowPrompts(prompts, i + 1, next, step);
          forall k | 0 <= k < |run.calls|
            ensures CallAt(prompts, i + k, run.calls[k])
          {
            if k > 0 {
              assert run.calls[k] == rest.calls[k - 1];
            }
          }
      }
    } else if i < |prompts| {
      SkipPersists(prompts, i + 1, step);
    }
  }

  /**
   * The cell carries each call's result to the next: call k finds what
   * call k-1 returned.  A call after the first of the chain from step `i`
   * therefore never sees the cell as it was before that chain began.
   */
  lemma {:induction false} ResultsFeedForward(prompts: seq<string>, i: nat, prior: Option<string>, step: Step)
    requires i <= |prompts|
    ensures var run := ChainFrom(prompts, i, prior, step);
      && (|run.calls| > 0 ==> run.calls[0].prior == prior)
      && (forall k :: 0 < k < |run.calls| ==> step(run.calls[k - 1].prompt, run.calls[k - 1].prior) == Ok(run.calls[k].prior))
    decreases |prompts| - i
  {
    var run := ChainFrom(prompts, i, prior, step);
    if i < |prompts| && !(i > 0 && prior.None?) {
      match step(Sent(prompts, i, prior), prior) {
        case Err(e) =>
        case Ok(next) =>
          ResultsFeedForward(prompts, i + 1, next, step);
          Unfold(prompts, i, prior, step, next);
          var rest := ChainFrom(prompts, i + 1, next, step);
          assert run.calls == [Call(Sent(prompts, i, prior), prior)] + rest.calls;
          forall k | 0 < k < |run.calls|
            ensures step(run.calls[k - 1].prompt, run.calls[k - 1].prior) == Ok(run.calls[k].prior)
          {
            assert run.calls[k] == rest.calls[k - 1];
            if k > 1 {
              assert run.calls[k - 1] == rest.calls[k - 2];
            }
          }
      }
    } else if i < |prompts| {
      SkipPersists(prompts, i + 1, step);
    }
  }

  /**
   * How a chain ends: a finished chain returns `Ok(None)`; an error comes
   * from the last call, every earlier call having succeeded.
   */
  lemma {:induction false} ChainOutcome(prompts: seq<string>, i: nat, prior: Option<string>, step: Step)
    requires i <= |prompts|
    ensures var run := ChainFrom(prompts, i, prior, step);
      && (run.outcome.Ok? ==> run.outcome == Ok(None))
      && (forall k :: 0 <= k < |run.calls| - 1 ==> step(run.calls[k].prompt, run.calls[k].prior).Ok?)
      && (run.outcome.Err? <==> |run.calls| > 0 && step(run.calls[|run.calls| - 1].prompt, run.calls[|run.calls| - 1].prior).Err?)
      && (run.outcome.Err? ==> step(run.calls[|run.calls| - 1].prompt, run.calls[|run.calls| - 1].prior) == Err(run.outcome.error))
    decreases |prompts| - i
  {
    var run := ChainFrom(prompts, i, prior, step);
    if i < |prompts| && !(i > 0 && prior.None?) {
      match step(Sent(prompts, i, prior), prior) {
        case Err(e) =>
        case Ok(next) =>
          ChainOutcome(prompts, i + 1, next, step);
          Unfold(prompts, i, prior, step, next);
          var rest := ChainFrom(prompts, i + 1, next, step);
          assert run.calls == [Call(Sent(prompts, i, prior), prior)] + rest.calls;
          forall k | 0 < k < |run.calls|
            ensures run.calls[k] == rest.calls[k - 1]
          {
          }
      }
    } else if i < |prompts| {
      ChainOutcome(prompts, i + 1, None, step);
    }
  }

  /** A successful chain that made fewer calls than it had prompts stopped because its last call emptied the cell. */
  lemma {:induction false} EarlyHaltMeansEmptyCell(prompts: seq<string>, i: nat, prior: Option<string>, step: Step)
    requires i <= |prompts|
    requires i == 0 ==> prior == None
    ensures var run := ChainFrom(prompts, i, prior, step);
      run.outcome.Ok? && 0 < |run.calls| < |prompts| - i ==>
        step(run.calls[|run.calls| - 1].prompt, run.calls[|run.calls| - 1].prior) == Ok(None)
    decreases |prompts| - i
  {
    var run := ChainFrom(prompts, i, prior, step);
    if i < |prompts| && !(i > 0 && prior.None?) {
      match step(Sent(prompts, i, prior), prior) {
        case Err(e) =>
        case Ok(next) =>
          EarlyHaltMeansEmptyCell(prompts, i + 1, next, step);
          Unfold(prompts, i, prior, step, next);
          var rest := ChainFrom(prompts, i + 1, next, step);
          assert run.calls == [Call(Sent(prompts, i, prior), prior)] + rest.calls;
          if |rest.calls| == 0 && next.Some? && i + 1 < |prompts| {
            match step(Sent(prompts, i + 1, next), next) {
              case Err(_) =>
              case Ok(n2) => Unfold(prompts, i + 1, next, step, n2);
            }
          }
          if |rest.calls| == 0 {
            assert run.calls[|run.calls| - 1] == Call(Sent(prompts, i, prior), prior);
          } else {
            assert run.calls[|run.calls| - 1] == rest.calls[|rest.calls| - 1];
          }
      }
    } else if i < |prompts| {
      SkipPersists(prompts, i + 1, step);
    }
  }

  /** An empty list makes no call and returns `Ok(None)`. */
  lemma EmptyChain(step: Step)
    ensures Chain([], step) == ChainRun(Ok(None), [], None)
  {
  }

  /** Step 1 never runs after a step 0 that left the cell empty. */
  lemma TwoStepHalt(p0: string, p1: string, step: Step)
    requires step(p0, None) == Ok(None)
    ensures Chain([p0, p1], step) == ChainRun(Ok(None), [Call(p0, None)], None)
  {
    SkipPersists([p0, p1], 1, step);
  }
}
