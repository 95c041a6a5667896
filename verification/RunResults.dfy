/**
  What may be shown of a finished run, and why every run the executor finishes
  normally can be shown.
 */
module RunResults {
  import opened Prelude
  import opened ModelLoop
  import opened ExecutorStore
  import opened DurableExecutor
  import AnswerCache

  const MAX_TOOL_NAME := 200

  const UNPRICED := Pricing(false, false)

  datatype Summary = Summary(output: Option<string>, reason: Option<string>, inputTokens: int, outputTokens: int, tools: set<string>)

  /** A row as read back, ordered by step number. */
  datatype Row = Row(step: int, response: Response)

  /** The stored response still has the recorded shape. */
  predicate ShapeOk(r: Response)
  {
    && (r.text.Some? ==> |r.text.value| <= 100000)
    && |r.calls| <= 16
    && (forall i :: 0 <= i < |r.calls| ==> 1 <= |r.calls[i].name| <= MAX_TOOL_NAME)
    && r.inputTokens >= 0 && r.outputTokens >= 0
  }

  predicate IsFinalAnswer(r: Response)
  {
    r.finish in ["stop", "refusal"] && r.calls == [] && r.text.Some? && r.text.value != ""
  }

  /** When a result can be shown: contiguous well-shaped steps and, for a success, a final answer at the end. */
  ghost predicate Showable(status: Status, rows: seq<Row>)
  {
    && status in {RunSucceeded, RunFailed, RunCancelled}
    && |rows| <= 32
    && (forall i :: 0 <= i < |rows| ==> rows[i].step == i)
    && (forall i :: 0 <= i < |rows| ==> ShapeOk(rows[i].response))
    && (status == RunSucceeded ==> rows != [] && IsFinalAnswer(rows[|rows| - 1].response))
  }

  ghost function ResponsesOf(rows: seq<Row>): seq<Response>
  {
    seq(|rows|, i requires 0 <= i < |rows| => rows[i].response)
  }

  /** Some row's response asked for the tool. */
  ghost predicate Called(rows: seq<Row>, name: string)
  {
    exists i, j :: 0 <= i < |rows| && 0 <= j < |rows[i].response.calls| && rows[i].response.calls[j].name == name
  }

  lemma CalledStep(rows: seq<Row>, k: nat, name: string)
    requires k < |rows|
    ensures Called(rows[..k + 1], name)
       <==> Called(rows[..k], name) || exists j :: 0 <= j < |rows[k].response.calls| && rows[k].response.calls[j].name == name
  {
    if Called(rows[..k + 1], name) {
      var i, j :| 0 <= i < k + 1 && 0 <= j < |rows[..k + 1][i].response.calls| && rows[..k + 1][i].response.calls[j].name == name;
      assert i < k ==> rows[..k][i] == rows[i];
    }
    if Called(rows[..k], name) {
      var i, j :| 0 <= i < k && 0 <= j < |rows[..k][i].response.calls| && rows[..k][i].response.calls[j].name == name;
      assert rows[..k + 1][i] == rows[i];
    }
    assert rows[..k + 1][k] == rows[k];
  }

  function ToolsOf(r: Response): set<string>
  {
    set j | 0 <= j < |r.calls| :: r.calls[j].name
  }

  /** These are exactly the tools the rows asked for. */
  ghost predicate NamesTools(tools: set<string>, rows: seq<Row>)
  {
    forall name :: name in tools <==> Called(rows, name)
  }

  lemma NothingCalled(rows: seq<Row>)
    ensures NamesTools({}, rows[..0]) && TokenSum(ResponsesOf(rows)[..0]) == 0
  {
  }

  lemma NamesMore(tools: set<string>, rows: seq<Row>, k: nat)
    requires k < |rows| && NamesTools(tools, rows[..k])
    ensures NamesTools(tools + ToolsOf(rows[k].response), rows[..k + 1])
  {
    forall name ensures name in tools + ToolsOf(rows[k].response) <==> Called(rows[..k + 1], name)
    {
      CalledStep(rows, k, name);
    }
  }

  /** Builds the summary in one pass over the rows, or refuses. */
  method Summarize(status: Status, rows: seq<Row>) returns (s: Option<Summary>)
    ensures s.Some? <==> Showable(status, rows)
    ensures s.Some? ==> s.value.inputTokens + s.value.outputTokens == TokenSum(ResponsesOf(rows))
    ensures s.Some? ==> NamesTools(s.value.tools, rows)
    ensures s.Some? ==> if status == RunSucceeded
                        then s.value.output == rows[|rows| - 1].response.text && s.value.reason == Some(rows[|rows| - 1].response.finish)
                        else s.value.output == None && s.value.reason == None
  {
    hide ShapeOk, TokenSum, Called, NamesTools, ToolsOf, IsFinalAnswer;
    if status !in {RunSucceeded, RunFailed, RunCancelled} { return None; }
    if |rows| > 32 || exists i :: 0 <= i < |rows| && rows[i].step != i { return None; }
    var tools: set<string> := {};
    var last: Option<Response> := None;
    var input, output := 0, 0;
    NothingCalled(rows);
    for k := 0 to |rows|
      invariant forall i :: 0 <= i < k ==> ShapeOk(rows[i].response)
      invariant last == if k == 0 then None else Some(rows[k - 1].response)
      invariant input + output == TokenSum(ResponsesOf(rows)[..k])
      invariant NamesTools(tools, rows[..k])
    {
      var response := rows[k].response;
      if !ShapeOk(response) { return None; }
      NamesMore(tools, rows, k);
      tools := tools + ToolsOf(response);
      last := Some(response);
      input := input + response.inputTokens;
      output := output + response.outputTokens;
      TokenSumStep(ResponsesOf(rows), k + 1);
    }
    assert ResponsesOf(rows)[..|rows|] == ResponsesOf(rows) && rows[..|rows|] == rows;
    if status == RunSucceeded {
      if last.None? || !IsFinalAnswer(last.value) { return None; }
      return Some(Summary(last.value.text, Some(last.value.finish), input, output, tools));
    }
    return Some(Summary(None, None, input, output, tools));
  }

  /** The rows a reader sees for a journal. */
  ghost function RowsOf(steps: map<nat, StepRow>): seq<Row>
    requires Contiguous(steps)
  {
    seq(|steps|, k requires 0 <= k < |steps| => Row(k, steps[k].response))
  }

  ghost predicate NamesFit(rs: seq<Response>)
  {
    forall i, j :: 0 <= i < |rs| && 0 <= j < |rs[i].calls| ==> |rs[i].calls[j].name| <= MAX_TOOL_NAME
  }

  lemma FlawlessShape(r: Response)
    requires Flaw(r) == None
    ensures ShapeOk(r) <==> forall j :: 0 <= j < |r.calls| ==> |r.calls[j].name| <= MAX_TOOL_NAME
  {
    forall j | 0 <= j < |r.calls| ensures |r.calls[j].name| >= 1
    {
      assert r.calls[j].name != "";
    }
  }

  /**
    After a normal return, the journal is the whole conversation: it fits the budget, its last row
    answers, and it can be shown exactly when every tool it called has a name of at most 200
    characters.
   */
  lemma ReturnedRunIsShowable(p: Profile, canon: Spelling, priced: Pricing, t: Tables, allowed: set<string>,
                              opening: seq<Message>, seen: map<CallKey, string>, text: string, reached: nat)
    requires p.Valid() && WellFormed(p, canon, priced, t)
    requires Explained(p, allowed, opening, t.steps, seen, Returned(text), reached)
    ensures var rs := Responses(t.steps);
      && |rs| == reached + 1 <= 32
      && rs[reached].text == Some(text) && IsFinalAnswer(rs[reached])
      && TokenSum(rs) <= p.maxTotal
      && (Showable(RunSucceeded, RowsOf(t.steps)) <==> NamesFit(rs))
  {
    hide Showable, NamesFit, IsFinalAnswer, Run, Reach, Journal, CallsOk, SourcesOk, LedgerOk, Assess, TokenSum, Contiguous, ShapeOk;
    AnswerEndsJournal(p, allowed, Responses(t.steps), opening, seen, text, reached);
    RowsShape(p, t.steps);
    ShowableRows(t.steps);
  }

  /** A conversation that finishes on its last response ends with an answer, within budget. */
  lemma AnswerEndsJournal(p: Profile, allowed: set<string>, rs: seq<Response>, opening: seq<Message>,
                          seen: map<CallKey, string>, text: string, reached: nat)
    requires |rs| == reached + 1
    requires Reach(p, allowed, Script(rs, seen), opening, reached).Some?
    requires Run(p, allowed, Script(rs, seen), Position(0, opening, 0)) == Finished(text)
    ensures rs[reached].text == Some(text) && IsFinalAnswer(rs[reached])
    ensures TokenSum(rs) <= p.maxTotal
  {
    hide Run, Reach, Assess, TokenSum, IsFinalAnswer, Transcript;
    var script := Script(rs, seen);
    ReachThenRun(p, allowed, script, opening, reached);
    ReachShape(p, allowed, script, opening, reached);
    var pos := Reach(p, allowed, script, opening, reached).value;
    FinishedHere(p, allowed, script, pos, text);
    AnswerIsFinal(p, rs[reached], pos.tokens, text);
    TokenSumStep(rs, reached + 1);
    assert rs[..reached + 1] == rs;
  }

  lemma AnswerIsFinal(p: Profile, r: Response, before: int, text: string)
    requires Assess(p, r, before) == Answer(text)
    ensures r.text == Some(text) && IsFinalAnswer(r) && before + Cost(r) <= p.maxTotal
  {
  }

  lemma ShowableRows(steps: map<nat, StepRow>)
    requires Contiguous(steps) && 0 < |steps| <= 32
    requires IsFinalAnswer(steps[|steps| - 1].response)
    ensures Showable(RunSucceeded, RowsOf(steps))
       <==> forall i :: 0 <= i < |RowsOf(steps)| ==> ShapeOk(RowsOf(steps)[i].response)
  {
    hide ShapeOk, IsFinalAnswer;
  }

  lemma JournalIsContiguous(p: Profile, canon: Spelling, priced: Pricing, t: Tables)
    requires WellFormed(p, canon, priced, t)
    ensures Contiguous(t.steps)
  {
  }

  lemma RowsShape(p: Profile, steps: map<nat, StepRow>)
    requires p.Valid() && JournalOk(p, steps)
    ensures |steps| <= 32
    ensures (forall i :: 0 <= i < |RowsOf(steps)| ==> ShapeOk(RowsOf(steps)[i].response)) <==> NamesFit(Responses(steps))
  {
    hide ShapeOk, WantsTools;
    var rs := Responses(steps);
    forall i | 0 <= i < |rs|
      ensures ShapeOk(RowsOf(steps)[i].response) <==> forall j :: 0 <= j < |rs[i].calls| ==> |rs[i].calls[j].name| <= MAX_TOOL_NAME
    {
      FlawlessShape(rs[i]);
    }
  }

  lemma {:induction false} ToolsNeverFinish(allowed: set<string>, script: Script, step: nat, calls: seq<ToolCall>, n: nat)
    requires n <= |calls|
    ensures var halt := ToolHalt(allowed, script, step, calls, n); halt.Some? ==> !halt.value.Finished?
  {
    if n > 0 {
      ToolsNeverFinish(allowed, script, step, calls, n - 1);
    }
  }

  lemma OutOfResponses(p: Profile, allowed: set<string>, script: Script, at: Position)
    requires at.step >= |script.responses|
    ensures !Run(p, allowed, script, at).Finished?
  {
  }

  /** On a script with exactly one response left, finishing means that response is the answer. */
  lemma FinishedHere(p: Profile, allowed: set<string>, script: Script, pos: Position, text: string)
    requires 0 <= pos.step && |script.responses| == pos.step + 1
    requires Run(p, allowed, script, pos) == Finished(text)
    ensures Assess(p, script.responses[pos.step], pos.tokens) == Answer(text)
    ensures pos.step < p.maxSteps
  {
    hide Flaw, ToolHalt, ToolMessages;
    forall at: Position | at.step == |script.responses| ensures !Run(p, allowed, script, at).Finished?
    {
      OutOfResponses(p, allowed, script, at);
    }
    var calls := script.responses[pos.step].calls;
    ToolsNeverFinish(allowed, script, pos.step, calls, |calls|);
  }

  /**
    The executor only calls advertised tools, so advertised names of legal length make every normal
    return showable.
   */
  lemma ReturnedRunIsShowableForAdvertised(p: Profile, canon: Spelling, priced: Pricing, t: Tables, allowed: set<string>,
                                           opening: seq<Message>, seen: map<CallKey, string>, text: string, reached: nat)
    requires p.Valid() && WellFormed(p, canon, priced, t)
    requires Explained(p, allowed, opening, t.steps, seen, Returned(text), reached)
    requires forall name :: name in allowed ==> |name| <= MAX_TOOL_NAME
    ensures Showable(RunSucceeded, RowsOf(t.steps))
  {
    hide Showable, Run, Reach, WellFormed, Views, ToolHalt, Assess;
    assert Contiguous(t.steps) by { JournalIsContiguous(p, canon, priced, t); }
    ReturnedRunIsShowable(p, canon, priced, t, allowed, opening, seen, text, reached);
    var rs := Responses(t.steps);
    forall i, j | 0 <= i < |rs| && 0 <= j < |rs[i].calls|
      ensures |rs[i].calls[j].name| <= MAX_TOOL_NAME
    {
      ReachUsedTools(p, allowed, Script(rs, seen), opening, reached, i);
    }
  }

  /** Such runs exist: one response that answers at once. */
  lemma AnswerAtOnce(p: Profile, canon: Spelling, opening: seq<Message>, text: string) returns (t: Tables)
    requires p.Valid() && 1 <= |text| <= 100000 && ContentLength(opening) <= p.maxContext
    ensures WellFormed(p, canon, UNPRICED, t)
    ensures Explained(p, {}, opening, t.steps, map[], Returned(text), 0)
  {
    var r := Response(Some(text), [], false, 0, 0, "stop");
    assert Flaw(r) == None && Assess(p, r, 0) == Answer(text);
    t := Tables(RunRow(Running, 1, Some(30), false), map[0 := StepRow(r, FromProvider)], map[], map[], None, map[], None);
    var rs := Responses(t.steps);
    assert rs == [r];
    hide Flaw, Assess;
    assert Run(p, {}, Script(rs, map[]), Position(0, opening, 0)) == Finished(text);
  }

  function Repeat(c: char, n: nat): (s: string)
    ensures |s| == n && forall i :: 0 <= i < n ==> s[i] == c
  {
    seq(n, _ => c)
  }

  /**
    A run that failed or was cancelled can be shown exactly when every tool its journal asks for, called
    or not, has a name of at most 200 characters: a response is journaled before its calls are held
    against the advertised tools.
   */
  lemma EndedRunIsShowable(p: Profile, steps: map<nat, StepRow>, status: Status)
    requires p.Valid() && JournalOk(p, steps) && status in {RunFailed, RunCancelled}
    ensures Showable(status, RowsOf(steps)) <==> NamesFit(Responses(steps))
  {
    hide ShapeOk, NamesFit, IsFinalAnswer, Journal;
    RowsShape(p, steps);
  }

  /**
    Whatever tools of legal length are advertised, a model may ask for one of 201 characters: the run
    then fails for a tool that is not allowed, and cannot be shown.
   */
  lemma LongToolNameHidesFailedRun(p: Profile, canon: Spelling, allowed: set<string>, opening: seq<Message>)
    returns (t: Tables)
    requires p.Valid() && ContentLength(opening) <= p.maxContext
    requires forall name :: name in allowed ==> |name| <= MAX_TOOL_NAME
    ensures WellFormed(p, canon, UNPRICED, t)
    ensures Explained(p, allowed, opening, t.steps, map[], Refused("model_tool_not_allowed"), 0)
    ensures !Showable(RunFailed, RowsOf(t.steps))
  {
    var call := ToolCall("c", Repeat('t', MAX_TOOL_NAME + 1), "{}");
    assert |call.name| == MAX_TOOL_NAME + 1;
    t := OneCallTables(p, canon, call);
    hide WellFormed, Run, Reach, Assess;
    var rs := Responses(t.steps);
    FailsForTool(p, allowed, rs[0], call, opening);
    assert rs == [rs[0]];
    assert Reach(p, allowed, Script(rs, map[]), opening, 0).Some? by { ReachesStart(p, allowed, Script(rs, map[]), opening); }
    assert |rs[0].calls[0].name| == MAX_TOOL_NAME + 1;
    EndedRunIsShowable(p, t.steps, RunFailed);
  }

  /** The tables after a provider has answered with one tool call. */
  lemma OneCallTables(p: Profile, canon: Spelling, call: ToolCall) returns (t: Tables)
    requires p.Valid() && 1 <= |call.id| <= 200 && call.name != "" && |call.arguments| <= 1000
    ensures WellFormed(p, canon, UNPRICED, t) && |t.steps| == 1 && t.calls == map[]
    ensures JournalOk(p, t.steps)
    ensures var r := Responses(t.steps)[0]; r.calls == [call] && Assess(p, r, 0) == UseTools
  {
    var r := Response(None, [call], false, 0, 0, "tool_call");
    assert [call][..0] == [];
    assert ArgumentsLength([call]) == 2 + |call.arguments|;
    assert Flaw(r) == None;
    hide Flaw;
    t := Tables(RunRow(Running, 1, Some(30), false), map[0 := StepRow(r, FromProvider)], map[], map[], None, map[], None);
    assert Responses(t.steps) == [r];
  }

  lemma FailsForTool(p: Profile, allowed: set<string>, r: Response, call: ToolCall, opening: seq<Message>)
    requires p.Valid() && ContentLength(opening) <= p.maxContext
    requires r.calls == [call] && Assess(p, r, 0) == UseTools && call.name !in allowed
    ensures Run(p, allowed, Script([r], map[]), Position(0, opening, 0)) == Failed("model_tool_not_allowed")
  {
    hide Assess;
    assert ToolHalt(allowed, Script([r], map[]), 0, [call], 1) == Some(Failed("model_tool_not_allowed"));
  }

  lemma ReachesStart(p: Profile, allowed: set<string>, script: Script, opening: seq<Message>)
    ensures Reach(p, allowed, script, opening, 0).Some?
  {
  }

  // -------------------------------------------------------- runs over their life

  /** Once a response has ended the conversation, no schedule adds another. */
  lemma AnsweredJournalIsFrozen(p: Profile, a: Tables, b: Tables)
    requires JournalOk(p, a.steps) && JournalOk(p, b.steps) && Evolves(a, b)
    requires |a.steps| > 0 && !WantsTools(p, Responses(a.steps), |a.steps| - 1)
    ensures b.steps == a.steps
  {
    hide WantsTools, Journal;
    JournalIsPrefix(a, b);
    var (x, y) := (Responses(a.steps), Responses(b.steps));
    WantsToolsPrefix(p, x, y, |x| - 1);
    LastIfNotTools(p, y, |x| - 1);
    assert forall k: nat :: k in b.steps ==> k < |a.steps|;
  }

  /**
    A run answered from the cache is one step long, costs no tokens, and has no step charge. If a similar
    question's answer was used, looking for it was charged exactly where that is priced.
   */
  lemma CachedRunIsOneFreeStep(p: Profile, canon: Spelling, priced: Pricing, t: Tables)
    requires p.Valid() && WellFormed(p, canon, priced, t)
    requires 0 in t.steps && t.steps[0].source != FromProvider
    ensures |t.steps| == 1 && TokenSum(Responses(t.steps)) == 0 && t.ledger == map[]
    ensures t.search.Some? ==> priced.searches
    ensures t.steps[0].source == FromSimilar ==> (t.search.Some? <==> priced.searches)
    ensures IsFinalAnswer(t.steps[0].response)
    ensures Assess(p, t.steps[0].response, 0) == Answer(t.steps[0].response.text.value)
  {
    assert CachedRowOk(0, t.steps[0]);
    hide SourcesOk, CallsOk, LedgerOk, OriginsOk, SearchOk;
    CacheableIsFinal(p, t.steps[0].response);
    CachedIsAlone(p, t.steps);
    OneCachedRow(priced, t);
  }

  lemma CacheableIsFinal(p: Profile, r: Response)
    requires p.Valid() && AnswerCache.Cacheable(r) && Cost(r) == 0 && Flaw(r) == None
    ensures IsFinalAnswer(r) && Assess(p, r, 0) == Answer(r.text.value)
  {
    hide Flaw;
  }

  /** A journal that starts with an answer ends there. */
  lemma CachedIsAlone(p: Profile, steps: map<nat, StepRow>)
    requires JournalOk(p, steps) && 0 in steps && Cost(steps[0].response) == 0
    requires Assess(p, steps[0].response, 0) != UseTools
    ensures |steps| == 1 && TokenSum(Responses(steps)) == 0
  {
    hide Assess, Flaw;
    var rs := Responses(steps);
    assert rs[..0] == [];
    assert !WantsTools(p, rs, 0);
    LastIfNotTools(p, rs, 0);
    TokenSumStep(rs, 1);
    assert rs[..1] == rs;
  }

  lemma OneCachedRow(priced: Pricing, t: Tables)
    requires Contiguous(t.steps) && |t.steps| == 1 && 0 in t.steps && t.steps[0].source != FromProvider
    requires LedgerOk(priced, t.steps, t.ledger) && SearchOk(priced, t.steps, t.search)
    ensures t.ledger == map[]
    ensures t.search.Some? ==> priced.searches
    ensures t.steps[0].source == FromSimilar ==> (t.search.Some? <==> priced.searches)
  {
    assert forall k :: k in t.ledger ==> k == 0;
  }

  /** The database spells the result of this call otherwise than the attempt that produced it, one of the two, got it. */
  ghost predicate Respelled(canon: Spelling, calls: map<CallKey, CallRow>, a: nat, b: nat, key: CallKey)
  {
    && key in calls && calls[key].origin.Some?
    && calls[key].origin.value.attempt in {a, b}
    && canon.result(calls[key].origin.value.raw) != calls[key].origin.value.raw
  }

  /** None of the first `n` steps' results is spelled otherwise. */
  ghost predicate NoneRespelled(canon: Spelling, rs: seq<Response>, calls: map<CallKey, CallRow>, a: nat, b: nat, n: nat)
    requires n <= |rs|
  {
    forall k, i :: 0 <= k < n && 0 <= i < |rs[k].calls| ==> !Respelled(canon, calls, a, b, CallKey(k, i))
  }

  /**
    Two attempts are shown a result in the same canonical spelling, and in the very same spelling
    unless they differ and one of them produced it otherwise than it is stored.
   */
  lemma SpelledAlike(canon: Spelling, steps: map<nat, StepRow>, calls: map<CallKey, CallRow>, a: nat, b: nat, key: CallKey)
    requires CallsOk(canon, steps, calls) && IsDone(calls, key)
    ensures canon.result(ShownTo(a, calls[key])) == canon.result(ShownTo(b, calls[key]))
    ensures ShownTo(a, calls[key]) == ShownTo(b, calls[key]) <==> a == b || !Respelled(canon, calls, a, b, key)
  {
    assert CallRowOk(canon, steps, key, calls[key]);
  }

  lemma ViewsEvolve(me: nat, t: Tables, u: Tables, seen: map<CallKey, string>)
    requires Evolves(t, u) && Views(me, t.calls, seen)
    ensures Views(me, u.calls, seen)
  {
    assert forall key :: key in seen ==> IsDone(t.calls, key);
  }

  /** An attempt that reached step `n` was shown every result of the steps before. */
  lemma ReachedIsSeen(p: Profile, allowed: set<string>, rs: seq<Response>, seen: map<CallKey, string>, opening: seq<Message>, n: nat)
    requires Reach(p, allowed, Script(rs, seen), opening, n).Some?
    ensures n <= |rs|
    ensures forall k, i :: 0 <= k < n && 0 <= i < |rs[k].calls| ==> CallKey(k, i) in seen
  {
    hide Reach, Transcript;
    ReachShape(p, allowed, Script(rs, seen), opening, n);
    forall k, i | 0 <= k < n && 0 <= i < |rs[k].calls| ensures CallKey(k, i) in seen
    {
      ReachUsedTools(p, allowed, Script(rs, seen), opening, n, k);
    }
  }

  /** The results two attempts were shown before step `n`, compared call by call. */
  lemma ScriptsAlike(canon: Spelling, t: Tables, a: nat, seenA: map<CallKey, string>, b: nat, seenB: map<CallKey, string>, n: nat)
    requires Contiguous(t.steps) && CallsOk(canon, t.steps, t.calls) && n <= |t.steps|
    requires Views(a, t.calls, seenA) && Views(b, t.calls, seenB)
    requires forall k, i :: 0 <= k < n && 0 <= i < |Responses(t.steps)[k].calls| ==> CallKey(k, i) in seenA && CallKey(k, i) in seenB
    ensures Siblings(canon.result, Script(Responses(t.steps), seenA), Script(Responses(t.steps), seenB), n)
    ensures SameSpelling(Script(Responses(t.steps), seenA), Script(Responses(t.steps), seenB), n)
       <==> a == b || NoneRespelled(canon, Responses(t.steps), t.calls, a, b, n)
  {
    hide CallsOk, Respelled, ShownTo;
    var rs := Responses(t.steps);
    forall k, i | 0 <= k < n && 0 <= i < |rs[k].calls|
      ensures canon.result(seenA[CallKey(k, i)]) == canon.result(seenB[CallKey(k, i)])
      ensures seenA[CallKey(k, i)] == seenB[CallKey(k, i)] <==> a == b || !Respelled(canon, t.calls, a, b, CallKey(k, i))
    {
      SpelledAlike(canon, t.steps, t.calls, a, b, CallKey(k, i));
    }
  }

  /**
    Two attempts, whenever each of them ran, that both reach step `n` have built the same conversation
    up to the spelling of tool results; and the very same one exactly when they are one attempt, or the
    database keeps the spelling of every result of these steps that either of them produced.
   */
  lemma AttemptsRebuildTheConversation(p: Profile, canon: Spelling, priced: Pricing, t: Tables, u: Tables, opening: seq<Message>,
                                       a: nat, allowedA: set<string>, seenA: map<CallKey, string>,
                                       b: nat, allowedB: set<string>, seenB: map<CallKey, string>, n: nat)
    requires WellFormed(p, canon, priced, t) && WellFormed(p, canon, priced, u) && Evolves(t, u)
    requires Views(a, t.calls, seenA) && Views(b, u.calls, seenB)
    requires Reach(p, allowedA, Script(Responses(t.steps), seenA), opening, n).Some?
    requires Reach(p, allowedB, Script(Responses(u.steps), seenB), opening, n).Some?
    ensures n <= |u.steps|
    ensures var x := Reach(p, allowedA, Script(Responses(t.steps), seenA), opening, n).value;
            var y := Reach(p, allowedB, Script(Responses(u.steps), seenB), opening, n).value;
      && x.step == y.step == n && x.tokens == y.tokens
      && SameUpTo(canon.result, x.messages, y.messages)
      && (x.messages == y.messages <==> a == b || NoneRespelled(canon, Responses(u.steps), u.calls, a, b, n))
  {
    hide SameUpTo, SameSpelling, NoneRespelled, Siblings, Views, Reach, CallsOk, Journal, SourcesOk, LedgerOk, OriginsOk, Evolves, Transcript;
    JournalIsPrefix(t, u);
    var rs := Responses(u.steps);
    ReachMonotone(p, allowedA, Script(Responses(t.steps), seenA), Script(rs, seenA), opening, n);
    ViewsEvolve(a, t, u, seenA);
    ReachShape(p, allowedA, Script(rs, seenA), opening, n);
    ReachShape(p, allowedB, Script(rs, seenB), opening, n);
    ReachedIsSeen(p, allowedA, rs, seenA, opening, n);
    ReachedIsSeen(p, allowedB, rs, seenB, opening, n);
    ScriptsAlike(canon, u, a, seenA, b, seenB, n);
    TranscriptsAgree(canon.result, opening, Script(rs, seenA), Script(rs, seenB), n);
  }

  /** Two attempts that only replayed the results of these steps have built the very same conversation. */
  lemma ReplaysAgree(p: Profile, canon: Spelling, priced: Pricing, t: Tables, u: Tables, opening: seq<Message>,
                     a: nat, allowedA: set<string>, seenA: map<CallKey, string>,
                     b: nat, allowedB: set<string>, seenB: map<CallKey, string>, n: nat)
    requires WellFormed(p, canon, priced, t) && WellFormed(p, canon, priced, u) && Evolves(t, u)
    requires Views(a, t.calls, seenA) && Views(b, u.calls, seenB)
    requires Reach(p, allowedA, Script(Responses(t.steps), seenA), opening, n).Some?
    requires Reach(p, allowedB, Script(Responses(u.steps), seenB), opening, n).Some?
    requires forall key: CallKey :: key.step < n ==> !ProducedBy(u.calls, a, key) && !ProducedBy(u.calls, b, key)
    ensures Reach(p, allowedA, Script(Responses(t.steps), seenA), opening, n)
         == Reach(p, allowedB, Script(Responses(u.steps), seenB), opening, n)
  {
    hide SameUpTo, Views, Reach, Contiguous, Journal, CallsOk, SourcesOk, LedgerOk, OriginsOk, Evolves, Respelled, ProducedBy;
    AttemptsRebuildTheConversation(p, canon, priced, t, u, opening, a, allowedA, seenA, b, allowedB, seenB, n);
    forall k, i | 0 <= k < n && 0 <= i < |Responses(u.steps)[k].calls|
      ensures !Respelled(canon, u.calls, a, b, CallKey(k, i))
    {
      NotRespelled(canon, u.steps, u.calls, a, b, CallKey(k, i));
    }
  }

  lemma NotRespelled(canon: Spelling, steps: map<nat, StepRow>, calls: map<CallKey, CallRow>, a: nat, b: nat, key: CallKey)
    requires CallsOk(canon, steps, calls) && !ProducedBy(calls, a, key) && !ProducedBy(calls, b, key)
    ensures !Respelled(canon, calls, a, b, key)
  {
    assert key in calls ==> CallRowOk(canon, steps, key, calls[key]);
  }

  /**
    Any tool result that the database stores in another spelling, of a call whose arguments it keeps,
    gives a run whose first attempt, which ran the tool, goes on with one conversation and whose second,
    which replays it, with another.
   */
  lemma ReplayRespells(p: Profile, canon: Spelling, raw: string, call: ToolCall, opening: seq<Message>) returns (t: Tables)
    requires p.Valid() && Idempotent(canon) && canon.result(raw) != raw && ContentLength(opening) <= p.maxContext
    requires canon.argument(call.arguments) == call.arguments
    requires Flaw(Response(None, [call], false, 0, 0, "tool_call")) == None
    ensures WellFormed(p, canon, UNPRICED, t) && t.run.attempt == 2 && !Stuck(canon, t, 0)
    ensures var key := CallKey(0, 0);
            var (live, replay) := (map[key := raw], map[key := canon.result(raw)]);
      && Views(1, t.calls, live) && Views(2, t.calls, replay)
      && Reach(p, {call.name}, Script(Responses(t.steps), live), opening, 1).Some?
      && Reach(p, {call.name}, Script(Responses(t.steps), replay), opening, 1).Some?
      && Reach(p, {call.name}, Script(Responses(t.steps), live), opening, 1).value.messages
         != Reach(p, {call.name}, Script(Responses(t.steps), replay), opening, 1).value.messages
  {
    t := RespelledTables(p, canon, raw, call);
    hide WellFormed, Views, Reach, Assess, Respelled, Flaw, Idempotent;
    var key := CallKey(0, 0);
    var rs := Responses(t.steps);
    var (live, replay) := (map[key := raw], map[key := canon.result(raw)]);
    OneToolStep(p, rs, call, live, opening);
    OneToolStep(p, rs, call, replay, opening);
    AttemptsRebuildTheConversation(p, canon, UNPRICED, t, t, opening, 1, {call.name}, live, 2, {call.name}, replay, 1);
    assert Respelled(canon, t.calls, 1, 2, CallKey(0, 0));
  }

  /** Attempt 1 ran the one tool of step 0, and attempt 2 has claimed the run since. */
  lemma RespelledTables(p: Profile, canon: Spelling, raw: string, call: ToolCall) returns (t: Tables)
    requires p.Valid() && Idempotent(canon) && canon.result(raw) != raw && canon.argument(call.arguments) == call.arguments
    requires Flaw(Response(None, [call], false, 0, 0, "tool_call")) == None
    ensures WellFormed(p, canon, UNPRICED, t) && Contiguous(t.steps) && t.run.attempt == 2 && Evolves(t, t) && !Stuck(canon, t, 0)
    ensures |Responses(t.steps)| == 1 && Responses(t.steps)[0].calls == [call] && Assess(p, Responses(t.steps)[0], 0) == UseTools
    ensures var key := CallKey(0, 0);
      Views(1, t.calls, map[key := raw]) && Views(2, t.calls, map[key := canon.result(raw)]) && Respelled(canon, t.calls, 1, 2, key)
  {
    var r := Response(None, [call], false, 0, 0, "tool_call");
    t := Tables(RunRow(Running, 2, Some(30), false), map[0 := StepRow(r, FromProvider)],
                map[CallKey(0, 0) := CallRow(call.name, call.arguments, Done, Some(canon.result(raw)), Some(Origin(1, raw)))], map[], None, map[], None);
    assert Responses(t.steps) == [r];
    hide Flaw;
    assert canon.result(canon.result(raw)) == canon.result(raw);
  }

  lemma OneToolStep(p: Profile, rs: seq<Response>, call: ToolCall, seen: map<CallKey, string>, opening: seq<Message>)
    requires p.Valid() && |rs| == 1 && rs[0].calls == [call] && Assess(p, rs[0], 0) == UseTools
    requires CallKey(0, 0) in seen && ContentLength(opening) <= p.maxContext
    ensures Reach(p, {call.name}, Script(rs, seen), opening, 1).Some?
  {
    hide Assess;
    assert ToolHalt({call.name}, Script(rs, seen), 0, [call], 0) == None;
    assert ToolHalt({call.name}, Script(rs, seen), 0, [call], 1) == None;
    assert Reach(p, {call.name}, Script(rs, seen), opening, 0) == Some(Position(0, opening, 0));
  }

  // ---------------------------------------------------------------- stuck runs

  /**
    A run with a stuck step never succeeds: an attempt that does not get past the step, which is every
    one that begins when it is stuck, returns no answer.
   */
  lemma StuckNeverReturns(p: Profile, canon: Spelling, t: Tables, u: Tables, allowed: set<string>, opening: seq<Message>,
                          seen: map<CallKey, string>, exit: Exit, reached: nat, k: nat)
    requires JournalOk(p, u.steps) && Evolves(t, u)
    requires Explained(p, allowed, opening, u.steps, seen, exit, reached)
    requires Stuck(canon, t, k) && reached <= k
    ensures !exit.Returned?
  {
    hide Journal, Run, Reach, IsFinalAnswer, Stuck, Evolves;
    StuckStays(canon, t, u, k);
    StuckAsksForTools(canon, u, k);
    if exit.Returned? {
      var rs := Responses(u.steps);
      AnswerEndsJournal(p, allowed, rs, opening, seen, exit.text, reached);
      AnswerHasNoCalls(rs[reached]);
    }
  }

  lemma StuckAsksForTools(canon: Spelling, t: Tables, k: nat)
    requires Stuck(canon, t, k)
    ensures k in t.steps && t.steps[k].response.calls != []
  {
  }

  lemma AnswerHasNoCalls(r: Response)
    requires IsFinalAnswer(r)
    ensures r.calls == []
  {
  }

  /**
    Such runs exist: any call whose arguments the database gives back otherwise, once its attempt has
    opened it and ended, leaves its run stuck, however small the difference.
   */
  lemma RespelledCallIsStuck(p: Profile, canon: Spelling, call: ToolCall) returns (t: Tables)
    requires p.Valid() && canon.argument(call.arguments) != call.arguments
    requires 1 <= |call.id| <= 200 && call.name != "" && |call.arguments| <= 1000
    ensures WellFormed(p, canon, UNPRICED, t) && Stuck(canon, t, 0)
  {
    t := OneCallTables(p, canon, call);
    var key := CallKey(0, 0);
    assert Responses(t.steps)[0] == t.steps[0].response;
    hide JournalOk, SourcesOk, LedgerOk, SearchOk;
    t := t.(calls := map[key := CallRow(call.name, call.arguments, InProgress, None, None)]);
    assert !Agrees(t.calls, key, SpelledBy(canon, false, call));
  }

  /** No step whose arguments the database keeps is ever stuck. */
  lemma KeptArgumentsNeverStick(p: Profile, canon: Spelling, priced: Pricing, t: Tables, k: nat)
    requires WellFormed(p, canon, priced, t)
    requires k in t.steps ==> forall i :: 0 <= i < |t.steps[k].response.calls| ==>
               canon.argument(t.steps[k].response.calls[i].arguments) == t.steps[k].response.calls[i].arguments
    ensures !Stuck(canon, t, k)
  {
    hide JournalOk, SourcesOk, LedgerOk, SearchOk, OriginsOk;
    if k in t.steps {
      var calls := t.steps[k].response.calls;
      forall i | 0 <= i < |calls| ensures Agrees(t.calls, CallKey(k, i), SpelledBy(canon, false, calls[i]))
      {
        if CallKey(k, i) in t.calls { RowMatchesCall(canon, t.steps, t.calls, CallKey(k, i)); }
      }
    }
  }
}
