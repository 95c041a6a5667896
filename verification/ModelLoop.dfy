/**
  The agent's model loop as it would run with no crash, retry or pause: a pure
  function from a script (the model's responses and the tools' results) to an
  outcome. DurableExecutor is proved against it.
 */
module ModelLoop {
  import opened Prelude

  // ------------------------------------------------------------------ values

  /**
    One requested tool call; `arguments` is its argument object as text with sorted keys, as the
    attempt that got the response writes it.
   */
  datatype ToolCall = ToolCall(id: string, name: string, arguments: string)

  datatype Response = Response(
    text: Option<string>,
    calls: seq<ToolCall>,
    structured: bool,          // structured_output is not None
    inputTokens: int,
    outputTokens: int,
    finish: string)

  datatype Message = Message(role: string, content: string, call: Option<ToolCall>, callId: Option<string>)

  /** The operator's limits, with the ranges the profile's constructor enforces. */
  datatype Profile = Profile(maxSteps: int, maxOutput: int, maxTotal: int, maxContext: int, cacheTtl: int) {
    predicate Valid() {
      && 1 <= maxSteps <= 32
      && 1 <= maxOutput <= 16384
      && 1 <= maxTotal <= 1000000
      && 1000 <= maxContext <= 200000
      && 0 <= cacheTtl <= 2592000
    }
  }

  /** Identifies one governed tool call of a run: `step:<step>:tool:<index>`. */
  datatype CallKey = CallKey(step: nat, index: nat)

  /** What the outside world answers: model responses by step, rendered tool results by key. */
  datatype Script = Script(responses: seq<Response>, results: map<CallKey, string>)

  datatype Outcome =
    | Finished(text: string)
    | Failed(code: string)
    | Stalled                  // the script ends before the loop does

  /** Where the loop stands at the top of an iteration. */
  datatype Position = Position(step: nat, messages: seq<Message>, tokens: int)

  // ------------------------------------------------------- checks on a response

  function ArgumentsLength(calls: seq<ToolCall>): nat
  {
    if calls == [] then 2
    else ArgumentsLength(calls[..|calls| - 1]) + |calls[|calls| - 1].arguments| + (if |calls| > 1 then 2 else 0)
  }

  /** The code `_validate` raises for a response, or None. */
  function Flaw(r: Response): Option<string>
  {
    if || |r.calls| > 16
       || (exists i, j :: 0 <= i < j < |r.calls| && r.calls[i].id == r.calls[j].id)
       || (exists i :: 0 <= i < |r.calls| && (r.calls[i].id == "" || |r.calls[i].id| > 200 || r.calls[i].name == ""))
       || (r.text.Some? && |r.text.value| > 100000)
       || r.inputTokens < 0
       || r.outputTokens < 0
    then Some("invalid_model_response")
    else if ArgumentsLength(r.calls) > 100000 then Some("model_arguments_too_large")
    else None
  }

  function Cost(r: Response): int { r.inputTokens + r.outputTokens }

  datatype Verdict = Answer(text: string) | Reject(code: string) | UseTools

  /** What the loop does with a response once `before` tokens are already spent. */
  function Assess(p: Profile, r: Response, before: int): Verdict
  {
    var total := before + Cost(r);
    if Flaw(r).Some? then Reject(Flaw(r).value)
    else if total > p.maxTotal then Reject("token_budget_exceeded")
    else if r.finish in ["stop", "refusal"] && r.calls == [] then
      if r.text.None? || r.text.value == "" then Reject("empty_model_response") else Answer(r.text.value)
    else if r.finish != "tool_call" || r.calls == [] then Reject("model_response_incomplete")
    else if total == p.maxTotal then Reject("token_budget_exceeded")
    else UseTools
  }

  function TokenSum(rs: seq<Response>): int
  {
    if rs == [] then 0 else TokenSum(rs[..|rs| - 1]) + Cost(rs[|rs| - 1])
  }

  // ------------------------------------------------------------------ messages

  /** The opening messages; an empty evidence text adds nothing. */
  function Opening(instructions: string, input: string, evidence: Option<string>): seq<Message>
  {
    [Message("system", instructions, None, None), Message("user", input, None, None)]
    + if evidence.Some? && evidence.value != "" then [Message("user", evidence.value, None, None)] else []
  }

  function ContentLength(ms: seq<Message>): nat
  {
    if ms == [] then 0 else ContentLength(ms[..|ms| - 1]) + |ms[|ms| - 1].content|
  }

  function Rendered(script: Script, key: CallKey): string
  {
    if key in script.results then script.results[key] else ""
  }

  /** The message pair one finished tool call appends. */
  function CallMessages(call: ToolCall, result: string): seq<Message>
  {
    [Message("assistant", "", Some(call), None), Message("tool", result, None, Some(call.id))]
  }

  /** The messages the first `n` calls of a step append. */
  function ToolMessages(script: Script, step: nat, calls: seq<ToolCall>, n: nat): (ms: seq<Message>)
    requires n <= |calls|
  {
    if n == 0 then []
    else ToolMessages(script, step, calls, n - 1)
         + CallMessages(calls[n - 1], Rendered(script, CallKey(step, n - 1)))
  }

  /** The first of a step's first `n` calls that stops the loop, if any. */
  function ToolHalt(allowed: set<string>, script: Script, step: nat, calls: seq<ToolCall>, n: nat): Option<Outcome>
    requires n <= |calls|
  {
    if n == 0 then None
    else
      var earlier := ToolHalt(allowed, script, step, calls, n - 1);
      if earlier.Some? then earlier
      else if calls[n - 1].name !in allowed then Some(Failed("model_tool_not_allowed"))
      else if CallKey(step, n - 1) !in script.results then Some(Stalled)
      else None
  }

  // ------------------------------------------------------------ the plain loop

  datatype StepResult = Next(at: Position) | Halt(outcome: Outcome)

  function Step(p: Profile, allowed: set<string>, script: Script, at: Position): StepResult
  {
    if at.step >= p.maxSteps then Halt(Failed("step_limit_exceeded"))
    else if ContentLength(at.messages) > p.maxContext then Halt(Failed("context_limit_exceeded"))
    else if at.step >= |script.responses| then Halt(Stalled)
    else
      var r := script.responses[at.step];
      match Assess(p, r, at.tokens)
      case Reject(code) => Halt(Failed(code))
      case Answer(text) => Halt(Finished(text))
      case UseTools =>
        var halt := ToolHalt(allowed, script, at.step, r.calls, |r.calls|);
        if halt.Some? then Halt(halt.value)
        else Next(Position(at.step + 1,
                           at.messages + ToolMessages(script, at.step, r.calls, |r.calls|),
                           at.tokens + Cost(r)))
  }

  /** The uninterrupted loop from a position to its outcome. */
  function Run(p: Profile, allowed: set<string>, script: Script, at: Position): Outcome
    decreases p.maxSteps - at.step
  {
    match Step(p, allowed, script, at)
    case Halt(outcome) => outcome
    case Next(next) => Run(p, allowed, script, next)
  }

  /** The position at the top of iteration `n`, if the loop gets there. */
  function Reach(p: Profile, allowed: set<string>, script: Script, opening: seq<Message>, n: nat): Option<Position>
  {
    if n == 0 then Some(Position(0, opening, 0))
    else
      var before := Reach(p, allowed, script, opening, n - 1);
      if before.None? then None
      else match Step(p, allowed, script, before.value)
           case Halt(_) => None
           case Next(at) => Some(at)
  }

  /** Every message of a conversation, written without the loop: the opening, then each step's calls in order. */
  function Transcript(opening: seq<Message>, script: Script, n: nat): seq<Message>
    requires n <= |script.responses|
  {
    if n == 0 then opening
    else Transcript(opening, script, n - 1)
         + ToolMessages(script, n - 1, script.responses[n - 1].calls, |script.responses[n - 1].calls|)
  }

  // ------------------------------------------------- growing a script is harmless

  ghost predicate Extends(small: Script, big: Script)
  {
    && small.responses <= big.responses
    && forall k :: k in small.results ==> k in big.results && big.results[k] == small.results[k]
  }

  lemma {:induction false} ToolPhaseMonotone(allowed: set<string>, small: Script, big: Script, step: nat, calls: seq<ToolCall>, n: nat)
    requires n <= |calls|
    requires Extends(small, big)
    requires ToolHalt(allowed, small, step, calls, n) == None
    ensures ToolHalt(allowed, big, step, calls, n) == None
    ensures ToolMessages(big, step, calls, n) == ToolMessages(small, step, calls, n)
  {
    if n > 0 {
      ToolPhaseMonotone(allowed, small, big, step, calls, n - 1);
    }
  }

  lemma StepMonotone(p: Profile, allowed: set<string>, small: Script, big: Script, at: Position)
    requires Extends(small, big)
    requires Step(p, allowed, small, at).Next?
    ensures Step(p, allowed, big, at) == Step(p, allowed, small, at)
  {
    var calls := small.responses[at.step].calls;
    ToolPhaseMonotone(allowed, small, big, at.step, calls, |calls|);
  }

  /** A position reached on a script is reached, unchanged, on every longer script. */
  lemma {:induction false} ReachMonotone(p: Profile, allowed: set<string>, small: Script, big: Script, opening: seq<Message>, n: nat)
    requires Extends(small, big)
    requires Reach(p, allowed, small, opening, n).Some?
    ensures Reach(p, allowed, big, opening, n) == Reach(p, allowed, small, opening, n)
  {
    if n > 0 {
      ReachMonotone(p, allowed, small, big, opening, n - 1);
      StepMonotone(p, allowed, small, big, Reach(p, allowed, small, opening, n - 1).value);
    }
  }

  /** Replaying up to a reachable position and going on from there is the whole loop. */
  lemma {:induction false} ReachThenRun(p: Profile, allowed: set<string>, script: Script, opening: seq<Message>, n: nat)
    requires Reach(p, allowed, script, opening, n).Some?
    ensures Run(p, allowed, script, Reach(p, allowed, script, opening, n).value)
         == Run(p, allowed, script, Position(0, opening, 0))
  {
    if n > 0 {
      ReachThenRun(p, allowed, script, opening, n - 1);
    }
  }

  /** The response a step consumed asked for allowed tools, all of which answered. */
  lemma NextShape(p: Profile, allowed: set<string>, script: Script, at: Position)
    requires Step(p, allowed, script, at).Next?
    ensures at.step < |script.responses| && at.step < p.maxSteps
    ensures ContentLength(at.messages) <= p.maxContext
    ensures var r := script.responses[at.step];
            && Assess(p, r, at.tokens) == UseTools
            && Step(p, allowed, script, at).at
               == Position(at.step + 1, at.messages + ToolMessages(script, at.step, r.calls, |r.calls|), at.tokens + Cost(r))
            && (forall i :: 0 <= i < |r.calls| ==> r.calls[i].name in allowed && CallKey(at.step, i) in script.results)
  {
    var calls := script.responses[at.step].calls;
    ToolPhaseShape(allowed, script, at.step, calls, |calls|);
  }

  lemma TokenSumStep(rs: seq<Response>, n: nat)
    requires 0 < n <= |rs|
    ensures TokenSum(rs[..n]) == TokenSum(rs[..n - 1]) + Cost(rs[n - 1])
  {
    assert rs[..n][..n - 1] == rs[..n - 1];
  }

  /** What holds at the top of iteration `n`: its number, its messages in closed form, and its token count. */
  lemma {:induction false} ReachShape(p: Profile, allowed: set<string>, script: Script, opening: seq<Message>, n: nat)
    requires Reach(p, allowed, script, opening, n).Some?
    ensures n <= |script.responses| && (n == 0 || n <= p.maxSteps)
    ensures Reach(p, allowed, script, opening, n).value
         == Position(n, Transcript(opening, script, n), TokenSum(script.responses[..n]))
  {
    hide Flaw, Assess, ToolHalt, ContentLength;
    if n > 0 {
      ReachShape(p, allowed, script, opening, n - 1);
      NextShape(p, allowed, script, Reach(p, allowed, script, opening, n - 1).value);
      TokenSumStep(script.responses, n);
    }
  }

  /** Response `k` asked for tools, each of them allowed and answered, and left tokens to spend. */
  ghost predicate AskedForTools(p: Profile, allowed: set<string>, script: Script, k: nat)
    requires k < |script.responses|
  {
    && Assess(p, script.responses[k], TokenSum(script.responses[..k])) == UseTools
    && forall i :: 0 <= i < |script.responses[k].calls| ==>
         script.responses[k].calls[i].name in allowed && CallKey(k, i) in script.results
  }

  lemma {:induction false} ReachUsedTools(p: Profile, allowed: set<string>, script: Script, opening: seq<Message>, n: nat, k: nat)
    requires Reach(p, allowed, script, opening, n).Some?
    requires k < n
    ensures k < |script.responses| && AskedForTools(p, allowed, script, k)
  {
    if k < n - 1 {
      ReachUsedTools(p, allowed, script, opening, n - 1, k);
    } else {
      ReachShape(p, allowed, script, opening, k);
      NextShape(p, allowed, script, Reach(p, allowed, script, opening, k).value);
    }
  }

  lemma {:induction false} ToolPhaseShape(allowed: set<string>, script: Script, step: nat, calls: seq<ToolCall>, n: nat)
    requires n <= |calls|
    requires ToolHalt(allowed, script, step, calls, n) == None
    ensures forall i :: 0 <= i < n ==> calls[i].name in allowed && CallKey(step, i) in script.results
  {
    if n > 0 {
      ToolPhaseShape(allowed, script, step, calls, n - 1);
    }
  }

  // ---------------------------------------- two replays of the same conversation

  /** Messages that differ at most in the spelling of a tool result. */
  ghost predicate SameUpTo(canon: string -> string, a: seq<Message>, b: seq<Message>)
  {
    && |a| == |b|
    && forall i :: 0 <= i < |a| ==>
         && a[i].(content := "") == b[i].(content := "")
         && canon(a[i].content) == canon(b[i].content)
  }

  /** Both scripts carry the same responses, and results of the same calls that are equal once canonical. */
  ghost predicate Siblings(canon: string -> string, a: Script, b: Script, n: nat)
  {
    && n <= |a.responses| && n <= |b.responses|
    && a.responses[..n] == b.responses[..n]
    && forall k, i :: 0 <= k < n && 0 <= i < |a.responses[k].calls| ==>
         canon(Rendered(a, CallKey(k, i))) == canon(Rendered(b, CallKey(k, i)))
  }

  ghost predicate SameSpelling(a: Script, b: Script, n: nat)
    requires n <= |a.responses|
  {
    forall k, i :: 0 <= k < n && 0 <= i < |a.responses[k].calls| ==>
      Rendered(a, CallKey(k, i)) == Rendered(b, CallKey(k, i))
  }

  ghost predicate SameSpellingAt(a: Script, b: Script, k: nat)
    requires k < |a.responses|
  {
    forall i :: 0 <= i < |a.responses[k].calls| ==> Rendered(a, CallKey(k, i)) == Rendered(b, CallKey(k, i))
  }

  lemma {:induction false} ToolMessagesSiblings(canon: string -> string, a: Script, b: Script, step: nat, calls: seq<ToolCall>, n: nat)
    requires n <= |calls|
    requires forall i :: 0 <= i < n ==> canon(Rendered(a, CallKey(step, i))) == canon(Rendered(b, CallKey(step, i)))
    ensures SameUpTo(canon, ToolMessages(a, step, calls, n), ToolMessages(b, step, calls, n))
    ensures ToolMessages(a, step, calls, n) == ToolMessages(b, step, calls, n)
       <==> forall i :: 0 <= i < n ==> Rendered(a, CallKey(step, i)) == Rendered(b, CallKey(step, i))
  {
    if n > 0 {
      hide SameUpTo, Rendered;
      ToolMessagesSiblings(canon, a, b, step, calls, n - 1);
      var (x, y) := (ToolMessages(a, step, calls, n - 1), ToolMessages(b, step, calls, n - 1));
      var (u, v) := (CallMessages(calls[n - 1], Rendered(a, CallKey(step, n - 1))),
                     CallMessages(calls[n - 1], Rendered(b, CallKey(step, n - 1))));
      assert u == v <==> u[1].content == v[1].content;
      assert SameUpTo(canon, u, v) by { PairAgrees(canon, calls[n - 1], Rendered(a, CallKey(step, n - 1)), Rendered(b, CallKey(step, n - 1))); }
      SameUpToAppend(canon, x, u, y, v);
      AppendEqual(x, u, y, v);
    } else {
      NothingAgrees(canon);
    }
  }

  lemma PairAgrees(canon: string -> string, call: ToolCall, x: string, y: string)
    requires canon(x) == canon(y)
    ensures SameUpTo(canon, CallMessages(call, x), CallMessages(call, y))
  {
  }

  lemma NothingAgrees(canon: string -> string)
    ensures SameUpTo(canon, [], [])
  {
  }

  lemma AppendEqual<T>(x: seq<T>, u: seq<T>, y: seq<T>, v: seq<T>)
    requires |x| == |y|
    ensures x + u == y + v <==> x == y && u == v
  {
    if x + u == y + v {
      assert x == (x + u)[..|x|] && y == (y + v)[..|y|];
      assert u == (x + u)[|x|..] && v == (y + v)[|y|..];
    }
  }

  lemma SiblingsBefore(canon: string -> string, a: Script, b: Script, n: nat)
    requires n > 0 && Siblings(canon, a, b, n)
    ensures Siblings(canon, a, b, n - 1)
    ensures a.responses[n - 1] == b.responses[n - 1]
    ensures SameSpelling(a, b, n) <==> SameSpelling(a, b, n - 1) && SameSpellingAt(a, b, n - 1)
  {
    assert a.responses[..n - 1] == a.responses[..n][..n - 1] && b.responses[..n - 1] == b.responses[..n][..n - 1];
    assert a.responses[n - 1] == a.responses[..n][n - 1] && b.responses[n - 1] == b.responses[..n][n - 1];
  }

  lemma SameUpToAppend(canon: string -> string, x: seq<Message>, u: seq<Message>, y: seq<Message>, v: seq<Message>)
    requires SameUpTo(canon, x, y) && SameUpTo(canon, u, v)
    ensures |x| == |y| && SameUpTo(canon, x + u, y + v)
  {
  }

  /**
    Two attempts over the same journal build conversations that agree message by message up to the
    spelling of tool results, and are equal exactly when no tool result is spelled differently.
   */
  lemma {:induction false} TranscriptsAgree(canon: string -> string, opening: seq<Message>, a: Script, b: Script, n: nat)
    requires Siblings(canon, a, b, n)
    ensures SameUpTo(canon, Transcript(opening, a, n), Transcript(opening, b, n))
    ensures Transcript(opening, a, n) == Transcript(opening, b, n) <==> SameSpelling(a, b, n)
  {
    if n > 0 {
      hide SameSpelling, SameUpTo;
      SiblingsBefore(canon, a, b, n);
      TranscriptsAgree(canon, opening, a, b, n - 1);
      var calls := a.responses[n - 1].calls;
      ToolMessagesSiblings(canon, a, b, n - 1, calls, |calls|);
      AppendEqual(Transcript(opening, a, n - 1), ToolMessages(a, n - 1, calls, |calls|),
                  Transcript(opening, b, n - 1), ToolMessages(b, n - 1, calls, |calls|));
      SameUpToAppend(canon, Transcript(opening, a, n - 1), ToolMessages(a, n - 1, calls, |calls|),
                     Transcript(opening, b, n - 1), ToolMessages(b, n - 1, calls, |calls|));
    }
  }
}
