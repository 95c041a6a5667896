/**
  One attempt of a run, as the worker executes it against the shared tables.
  Everyone else's transactions may happen between any two of its own.
 */
module DurableExecutor {
  import opened Prelude
  import opened ModelLoop
  import opened ExecutorStore
  import AnswerCache

  /** How an attempt ends. */
  datatype Exit =
    | Returned(text: string)
    | Refused(code: string)                     // a check of the loop on the conversation so far
    | Discarded(response: Response)             // a live response failed validation and was not journaled
    | Stopped(code: string, retryable: bool)    // fence, cancellation, provider, gateway or budget
    | Paused(key: CallKey)                      // a tool call waits for a person
    | Conflicted(key: CallKey)                  // a tool call's row has its arguments written otherwise

  /** What was sent to a provider, with the tokens already spent. */
  datatype Request = Request(step: nat, messages: seq<Message>, tokens: int, maxOutput: int)

  /** A response, and whether it came from a provider just now or was read back. */
  datatype Obtained = Have(response: Response, live: bool) | Give(exit: Exit)

  /** How this deployment matches questions: exactly, and by similarity if it has an embedding model. */
  datatype Matching = Matching(
    question: string, semantic: bool, model: string, dimensions: nat,
    similarity: (seq<real>, seq<real>) -> real, threshold: real)

  datatype CacheOutcome = Hit(response: Response) | Miss(embedding: Option<AnswerCache.Embedding>) | CacheExit(exit: Exit)

  datatype ToolOutcome = Result(text: string) | ToolExit(exit: Exit)

  // ---------------------------------------------------- what an attempt remembers

  /** Attempt `me` was shown, for each call it is past, what it got back itself or else what is stored. */
  ghost predicate Views(me: nat, calls: map<CallKey, CallRow>, seen: map<CallKey, string>)
  {
    forall key :: key in seen ==> IsDone(calls, key) && seen[key] == ShownTo(me, calls[key])
  }

  /** The attempt remembers every result it produced. */
  ghost predicate Remembers(me: nat, calls: map<CallKey, CallRow>, seen: map<CallKey, string>)
  {
    forall key :: ProducedBy(calls, me, key) ==> key in seen
  }

  /** What the attempt has consumed is in the tables. */
  ghost predicate Tracks(me: nat, t: Tables, mine: seq<Response>, seen: map<CallKey, string>)
  {
    Contiguous(t.steps) && mine <= Responses(t.steps) && Views(me, t.calls, seen) && Remembers(me, t.calls, seen)
  }

  /** Results seen so far belong to calls before call `n` of step `step`. */
  ghost predicate SeenBefore(seen: map<CallKey, string>, step: nat, n: nat)
  {
    forall key :: key in seen ==> key.step < step || (key.step == step && key.index < n)
  }

  lemma TracksEvolves(me: nat, a: Tables, b: Tables, mine: seq<Response>, seen: map<CallKey, string>)
    requires Evolves(a, b) && Contiguous(b.steps) && NoneProduced(me, a.calls, b.calls)
    requires Tracks(me, a, mine, seen)
    ensures Tracks(me, b, mine, seen)
  {
    JournalIsPrefix(a, b);
  }

  lemma TracksSameDone(me: nat, a: Tables, b: Tables, mine: seq<Response>, seen: map<CallKey, string>)
    requires Evolves(a, b) && b.steps == a.steps && SameDone(a.calls, b.calls)
    requires Tracks(me, a, mine, seen)
    ensures Tracks(me, b, mine, seen)
  {
    SameDoneNoneProduced(me, a.calls, b.calls);
    TracksEvolves(me, a, b, mine, seen);
  }

  /** A result this attempt has just got stored is the one more it remembers. */
  lemma TracksProduced(me: nat, a: Tables, b: Tables, mine: seq<Response>, seen: map<CallKey, string>, key: CallKey, raw: string)
    requires b == a.(calls := b.calls) && Tracks(me, a, mine, seen) && key !in seen
    requires forall k :: k != key ==> (k in a.calls <==> k in b.calls) && (k in a.calls ==> b.calls[k] == a.calls[k])
    requires IsDone(b.calls, key) && b.calls[key].origin == Some(Origin(me, raw))
    ensures Tracks(me, b, mine, seen[key := raw])
  {
    forall k | k in seen ensures IsDone(b.calls, k) && seen[k] == ShownTo(me, b.calls[k])
    {
      assert IsDone(a.calls, k);
    }
    forall k | ProducedBy(b.calls, me, k) && k != key ensures k in seen
    {
      assert ProducedBy(a.calls, me, k);
    }
  }

  /** A stored result an attempt has not seen yet is another attempt's, so it is shown as stored. */
  lemma TracksReplayed(me: nat, t: Tables, mine: seq<Response>, seen: map<CallKey, string>, key: CallKey, result: string)
    requires Tracks(me, t, mine, seen) && key !in seen && DoneWith(t.calls, key, result)
    ensures result == ShownTo(me, t.calls[key])
    ensures Tracks(me, t, mine, seen[key := result])
  {
    assert !ProducedBy(t.calls, me, key);
  }

  ghost predicate RequestOk(p: Profile, allowed: set<string>, opening: seq<Message>, script: Script, q: Request)
  {
    && 1 <= q.maxOutput <= p.maxOutput
    && q.tokens + q.maxOutput <= p.maxTotal
    && ContentLength(q.messages) <= p.maxContext
    && Reach(p, allowed, script, opening, q.step) == Some(Position(q.step, q.messages, q.tokens))
  }

  ghost predicate RequestsOk(p: Profile, allowed: set<string>, opening: seq<Message>, script: Script, asked: seq<Request>)
  {
    forall i :: 0 <= i < |asked| ==> RequestOk(p, allowed, opening, script, asked[i])
  }

  lemma RequestsMonotone(p: Profile, allowed: set<string>, opening: seq<Message>, small: Script, big: Script, asked: seq<Request>)
    requires Extends(small, big) && RequestsOk(p, allowed, opening, small, asked)
    ensures RequestsOk(p, allowed, opening, big, asked)
  {
    forall i | 0 <= i < |asked| ensures RequestOk(p, allowed, opening, big, asked[i])
    {
      assert RequestOk(p, allowed, opening, small, asked[i]);
      ReachMonotone(p, allowed, small, big, opening, asked[i].step);
    }
  }

  /**
    The exit agrees with the uninterrupted loop run on the journal and the results this attempt saw,
    and `reached` is the iteration it was in: it saw nothing of a later one, and a pause or a conflict is
    at the first call of that iteration without an answer.
   */
  ghost predicate Explained(p: Profile, allowed: set<string>, opening: seq<Message>, steps: map<nat, StepRow>,
                            seen: map<CallKey, string>, exit: Exit, reached: nat)
    requires Contiguous(steps)
  {
    var script := Script(Responses(steps), seen);
    var start := Position(0, opening, 0);
    && reached <= |steps| && Reach(p, allowed, script, opening, reached).Some?
    && (exit.Returned? ==> Run(p, allowed, script, start) == Finished(exit.text) && |steps| == reached + 1)
    && (exit.Refused? ==> Run(p, allowed, script, start) == Failed(exit.code))
    && (exit.Discarded? ==> Run(p, allowed, script.(responses := script.responses[..reached] + [exit.response]), start).Failed?)
    && SeenBefore(seen, reached + 1, 0)
    && (exit.Paused? || exit.Conflicted? ==> PausedAt(script.responses, seen, reached, exit.key))
  }

  /** The step's calls before this one have answered, and this one has not. */
  ghost predicate PausedAt(rs: seq<Response>, seen: map<CallKey, string>, step: nat, key: CallKey)
  {
    && key.step == step < |rs| && key.index < |rs[step].calls|
    && (forall i :: 0 <= i < key.index ==> CallKey(step, i) in seen)
    && key !in seen
  }

  // ------------------------------------------------------------- small steps

  /** Other processes run, and this attempt keeps what it knows. */
  method Yield(store: Store, me: nat, ghost mine: seq<Response>, ghost seen: map<CallKey, string>)
    requires store.Valid() && me <= store.run.attempt
    requires Tracks(me, store.View(), mine, seen)
    modifies store, store.cache
    ensures store.Valid() && me <= store.run.attempt
    ensures Tracks(me, store.View(), mine, seen)
    ensures Rely(me, old(store.View()), store.View())
  {
    store.Environment(me);
    TracksEvolves(me, old(store.View()), store.View(), mine, seen);
  }

  lemma CallIsJournaled(store: Store, me: nat, key: CallKey, live: bool, mine: seq<Response>, seen: map<CallKey, string>)
    requires Tracks(me, store.View(), mine, seen)
    requires key.step < |mine| && key.index < |mine[key.step].calls|
    ensures var call := mine[key.step].calls[key.index];
      && store.CallExists(key, call.name, SpelledBy(store.canon, live, call))
      && key.step in store.steps && key.index < |store.steps[key.step].response.calls|
      && store.steps[key.step].response.calls[key.index] == call
  {
    assert mine[key.step] == Responses(store.steps)[key.step];
  }

  /** A row keeps its arguments, so what agrees later agreed before. */
  lemma AgreedBefore(a: Tables, b: Tables, key: CallKey, arguments: string)
    requires Evolves(a, b)
    ensures Agrees(b.calls, key, arguments) ==> Agrees(a.calls, key, arguments)
  {
  }

  /** Arguments are written in two ways only when the database gives them back otherwise. */
  lemma ConflictingSpelling(p: Profile, canon: Spelling, priced: Pricing, t: Tables, key: CallKey, live: bool, call: ToolCall)
    requires WellFormed(p, canon, priced, t) && !Agrees(t.calls, key, SpelledBy(canon, live, call))
    requires key.step in t.steps && key.index < |t.steps[key.step].response.calls| && t.steps[key.step].response.calls[key.index] == call
    ensures canon.argument(call.arguments) != call.arguments
  {
    RowMatchesCall(canon, t.steps, t.calls, key);
    hide WellFormed;
  }

  /** Runs or replays one governed tool call. */
  method InvokeTool(store: Store, me: nat, key: CallKey, call: ToolCall, live: bool, ghost mine: seq<Response>, ghost seen: map<CallKey, string>)
    returns (r: ToolOutcome)
    requires store.Valid() && me <= store.run.attempt
    requires Tracks(me, store.View(), mine, seen)
    requires key.step < |mine| && key.index < |mine[key.step].calls| && call == mine[key.step].calls[key.index]
    requires key !in seen
    modifies store, store.cache
    ensures store.Valid() && me <= store.run.attempt
    ensures Evolves(old(store.View()), store.View())
    ensures Tracks(me, store.View(), mine, if r.Result? then seen[key := r.text] else seen)
    ensures r.Result? ==> IsDone(store.calls, key) && r.text == ShownTo(me, store.calls[key])
    ensures r.ToolExit? ==> r.exit.Stopped? || r.exit == Paused(key) || r.exit == Conflicted(key)
    ensures r.ToolExit? && r.exit.Paused? ==> IsPending(store.approvals, key)
    ensures r.ToolExit? && r.exit.Conflicted? ==> store.canon.argument(call.arguments) != call.arguments
    ensures r.Result? ==> Agrees(old(store.calls), key, SpelledBy(store.canon, live, call))
  {
    hide WellFormed, Idempotent, Tracks, Evolves, ShownTo, IsPending, Agrees, SameDone, SpelledBy;
    ghost var t0 := store.View();
    Yield(store, me, mine, seen);
    ghost var t1 := store.View();
    var arguments := SpelledBy(store.canon, live, call);
    CallIsJournaled(store, me, key, live, mine, seen);
    AgreedBefore(t0, t1, key, arguments);
    var plan := store.PrepareCall(me, key, call.name, arguments);
    if plan.KeyConflict? {
      ConflictingSpelling(store.profile, store.canon, store.context.priced, t1, key, live, call);
      return ToolExit(Conflicted(key));
    }
    SameDoneEvolves(t1, store.View());
    EvolvesTransitive(t0, t1, store.View());
    TracksSameDone(me, t1, store.View(), mine, seen);
    match plan {
      case PlanFenced => return ToolExit(Stopped("execution_fenced", false));
      case Deny => return ToolExit(Stopped("tool_denied", false));
      case AwaitApproval => return ToolExit(Paused(key));
      case Replay(result) =>
        TracksReplayed(me, store.View(), mine, seen, key, result);
        return Result(result);
      case Execute =>
        ghost var t2 := store.View();
        r := ExecuteTool(store, me, key, mine, seen);
        EvolvesTransitive(t0, t2, store.View());
    }
  }

  /** Marks a call running, performs it, and stores what came back. */
  method ExecuteTool(store: Store, me: nat, key: CallKey, ghost mine: seq<Response>, ghost seen: map<CallKey, string>)
    returns (r: ToolOutcome)
    requires store.Valid() && me <= store.run.attempt
    requires Tracks(me, store.View(), mine, seen) && key !in seen
    modifies store, store.cache
    ensures store.Valid() && me <= store.run.attempt
    ensures Evolves(old(store.View()), store.View())
    ensures Tracks(me, store.View(), mine, if r.Result? then seen[key := r.text] else seen)
    ensures r.Result? ==> IsDone(store.calls, key) && r.text == ShownTo(me, store.calls[key])
    ensures r.ToolExit? ==> r.exit.Stopped?
  {
    hide JournalOk, CallRowOk, SourcesOk, LedgerOk, Evolves;
    ghost var t0 := store.View();
    Yield(store, me, mine, seen);
    ghost var t1 := store.View();
    var cancelled: bool := *;
    if cancelled { return ToolExit(Stopped("cancel_requested", false)); }
    var running := store.MarkRunning(me, key);
    assert Evolves(t1, store.View()) by { SameDoneEvolves(t1, store.View()); }
    EvolvesTransitive(t0, t1, store.View());
    TracksSameDone(me, t1, store.View(), mine, seen);
    if !running { return ToolExit(Stopped("tool_call_not_executable", false)); }
    ghost var t2 := store.View();
    // The adapter is asked; while it works, anything may happen to the tables.
    Yield(store, me, mine, seen);
    ghost var t3 := store.View();
    EvolvesTransitive(t0, t2, t3);
    r := FinishTool(store, me, key, mine, seen);
    EvolvesTransitive(t0, t3, store.View());
  }

  /** Stores the adapter's answer, whatever it is. */
  method FinishTool(store: Store, me: nat, key: CallKey, ghost mine: seq<Response>, ghost seen: map<CallKey, string>)
    returns (r: ToolOutcome)
    requires store.Valid()
    requires Tracks(me, store.View(), mine, seen) && key !in seen
    modifies store`calls
    ensures store.Valid() && store.run == old(store.run)
    ensures Evolves(old(store.View()), store.View())
    ensures Tracks(me, store.View(), mine, if r.Result? then seen[key := r.text] else seen)
    ensures r.Result? ==> IsDone(store.calls, key) && r.text == ShownTo(me, store.calls[key])
    ensures r.ToolExit? ==> r.exit.Stopped?
  {
    hide JournalOk, CallsOk, SourcesOk, LedgerOk, Evolves, Tracks;
    ghost var t0 := store.View();
    var succeeded: bool := *;
    var retryable: bool := *;
    var raw: string := *;
    if succeeded {
      var stored := store.CompleteCall(me, key, raw);
      NewlyDoneEvolves(t0, store.View(), key);
      if stored {
        TracksProduced(me, t0, store.View(), mine, seen, key, raw);
        r := Result(raw);
      } else {
        r := ToolExit(Stopped("tool_call_fenced", true));
      }
    } else {
      store.FailCall(me, key, retryable);
      SameDoneEvolves(t0, store.View());
      TracksSameDone(me, t0, store.View(), mine, seen);
      r := ToolExit(Stopped("mcp_call_error", retryable));
    }
  }

  // ------------------------------------------------------- one model response

  /** Reads the step's response from the journal, restores it from the cache, or asks a provider and journals it. */
  method NextResponse(store: Store, me: nat, allowed: set<string>, pos: Position, matching: Matching,
                      ghost opening: seq<Message>, ghost mine: seq<Response>, ghost seen: map<CallKey, string>)
    returns (got: Obtained, ghost asked: seq<Request>)
    requires store.Valid() && me <= store.run.attempt
    requires Tracks(me, store.View(), mine, seen)
    requires pos.step == |mine| < store.profile.maxSteps
    requires 0 <= pos.tokens < store.profile.maxTotal
    requires Reach(store.profile, allowed, Script(mine, seen), opening, pos.step) == Some(pos)
    modifies store, store.cache
    ensures store.Valid() && me <= store.run.attempt
    ensures Evolves(old(store.View()), store.View())
    ensures Tracks(me, store.View(), if got.Have? then mine + [got.response] else mine, seen)
    ensures got.Have? ==> Flaw(got.response) == None && ContentLength(pos.messages) <= store.profile.maxContext
    ensures got.Have? && pos.step in old(store.steps) ==> !got.live
    ensures got.Give? ==> got.exit.Stopped? || got.exit.Discarded?
                          || (got.exit == Refused("context_limit_exceeded") && ContentLength(pos.messages) > store.profile.maxContext)
    ensures got.Give? && got.exit.Discarded? ==> Flaw(got.exit.response).Some? && ContentLength(pos.messages) <= store.profile.maxContext
    ensures RequestsOk(store.profile, allowed, opening, Script(mine, seen), asked)
  {
    hide WellFormed, Evolves, Flaw, Reach, Idempotent, Tracks;
    asked := [];
    ghost var t0 := store.View();
    Yield(store, me, mine, seen);
    ghost var t1 := store.View();
    var cancelled: bool := *;
    if cancelled { return Give(Stopped("cancel_requested", false)), asked; }
    var live := store.Fence(me);
    if !live { return Give(Stopped("execution_fenced", false)), asked; }
    if ContentLength(pos.messages) > store.profile.maxContext {
      return Give(Refused("context_limit_exceeded")), asked;
    }
    Yield(store, me, mine, seen);
    ghost var t2 := store.View();
    EvolvesTransitive(t0, t1, t2);
    var loaded := store.Load(me, pos.step);
    match loaded {
      case LoadFenced => return Give(Stopped("execution_fenced", false)), asked;
      case Found(response) =>
        hide Frontier, ContentLength;
        JournaledResponse(store.profile, store.canon, store.context.priced, me, t2, mine, seen, response);
        return Have(response, false), asked;
      case Absent =>
        StepWasAbsent(t0, t2, pos.step);
        AtTheEnd(me, t2, mine, seen);
        got, asked := FreshResponse(store, me, allowed, pos, matching, opening, mine, seen);
        EvolvesTransitive(t0, t2, store.View());
    }
  }

  lemma AtTheEnd(me: nat, t: Tables, mine: seq<Response>, seen: map<CallKey, string>)
    requires Tracks(me, t, mine, seen) && |mine| !in t.steps
    ensures Frontier(me, t, |mine|)
  {
  }

  lemma StepWasAbsent(a: Tables, b: Tables, step: nat)
    requires Evolves(a, b) && step !in b.steps
    ensures step !in a.steps
  {
  }

  /** While this attempt has not been superseded, the journal ends where the attempt stands. */
  ghost predicate Frontier(me: nat, t: Tables, n: nat)
  {
    t.run.attempt == me ==> |t.steps| == n
  }

  /** The attempt is at the end of the journal: gives what the cache or a provider answers. */
  method FreshResponse(store: Store, me: nat, allowed: set<string>, pos: Position, matching: Matching,
                       ghost opening: seq<Message>, ghost mine: seq<Response>, ghost seen: map<CallKey, string>)
    returns (got: Obtained, ghost asked: seq<Request>)
    requires store.Valid() && me <= store.run.attempt
    requires Tracks(me, store.View(), mine, seen)
    requires Frontier(me, store.View(), |mine|)
    requires pos.step == |mine| < store.profile.maxSteps
    requires 0 <= pos.tokens < store.profile.maxTotal && ContentLength(pos.messages) <= store.profile.maxContext
    requires Reach(store.profile, allowed, Script(mine, seen), opening, pos.step) == Some(pos)
    modifies store, store.cache
    ensures store.Valid() && me <= store.run.attempt
    ensures Evolves(old(store.View()), store.View())
    ensures Tracks(me, store.View(), if got.Have? then mine + [got.response] else mine, seen)
    ensures got.Have? ==> Flaw(got.response) == None
    ensures got.Give? ==> got.exit.Stopped? || (got.exit.Discarded? && Flaw(got.exit.response).Some?)
    ensures RequestsOk(store.profile, allowed, opening, Script(mine, seen), asked)
  {
    hide JournalOk, CallsOk, SourcesOk, LedgerOk, Evolves, Flaw, Reach, Tracks;
    asked := [];
    ghost var t0 := store.View();
    assert Evolves(t0, t0) by { EvolvesReflexive(t0); }
    var provider: string := *;
    var model: string := *;
    var routed: bool := *;
    if !routed { return Give(Stopped("no_provider_available", false)), asked; }
    var scope := store.context.scope.(provider := provider, model := model, evidence := store.evidence);
    var key := AnswerCache.Key(scope, matching.question);
    var useCache := pos.step == 0 && store.profile.cacheTtl > 0 && allowed == {};
    var embedding: Option<AnswerCache.Embedding> := None;
    if useCache {
      var c := ConsultCache(store, me, key, matching, mine, seen);
      match c {
        case Hit(response) =>
          assert mine + [response] == [response];
          return Have(response, true), asked;
        case CacheExit(exit) => return Give(exit), asked;
        case Miss(e) => embedding := e;
      }
    }
    ghost var t1 := store.View();
    got, asked := AskProvider(store, me, allowed, pos, if useCache then Some(key) else None, embedding, opening, mine, seen);
    EvolvesTransitive(t0, t1, store.View());
  }

  /** Step 0 of a run without tools: an exact answer, else a similar one, copied into the journal. */
  method ConsultCache(store: Store, me: nat, key: AnswerCache.Key, matching: Matching,
                      ghost mine: seq<Response>, ghost seen: map<CallKey, string>)
    returns (c: CacheOutcome)
    requires store.Valid() && me <= store.run.attempt
    requires Tracks(me, store.View(), mine, seen)
    requires Frontier(me, store.View(), |mine|) && mine == []
    modifies store, store.cache
    ensures store.Valid() && me <= store.run.attempt
    ensures Evolves(old(store.View()), store.View())
    ensures Tracks(me, store.View(), if c.Hit? then [c.response] else mine, seen)
    ensures c.Hit? ==> Flaw(c.response) == None && AnswerCache.Cacheable(c.response) && Cost(c.response) == 0
    ensures !c.Hit? ==> Frontier(me, store.View(), |mine|)
    ensures c.CacheExit? ==> c.exit.Stopped?
  {
    hide WellFormed, Idempotent, Evolves, Flaw, Tracks, AnswerCache.Mirrors, AnswerCache.Latest;
    ghost var t0 := store.View();
    Yield(store, me, mine, seen);
    ghost var t1 := store.View();
    assert Frontier(me, t1, 0);
    var found := store.cache.Lookup(store.now, key, key.scope.provider, key.scope.model);
    if found.Some? {
      c := CopyAnswer(store, me, key, found.value, ExecutorStore.FromCache, mine, seen);
      EvolvesTransitive(t0, t1, store.View());
      return;
    }
    if !matching.semantic { return Miss(None); }
    var allowed: bool := *;
    if !allowed { return CacheExit(Stopped("workspace_budget_exhausted", false)); }
    var embedded: bool := *;
    if !embedded { return Miss(None); }              // similarity is only an optimization
    var charged := PaySearch(store, me, mine, seen);
    ghost var t2 := store.View();
    EvolvesTransitive(t0, t1, t2);
    if !charged { return CacheExit(Stopped("execution_fenced", false)); }
    var query: seq<real> := *;
    var best := store.cache.LookupSimilar(store.now, key.scope, matching.model, matching.dimensions, query,
                                          matching.similarity, matching.threshold);
    if best.None? { return Miss(Some(AnswerCache.Embedding(matching.model, matching.dimensions, query))); }
    var answer := store.cache.Fetch(best.value, store.now);
    c := CopyAnswer(store, me, best.value, answer, ExecutorStore.FromSimilar, mine, seen);
    EvolvesTransitive(t0, t2, store.View());
  }

  /** Charges the embedding, where embeddings are priced, before the cache is searched with it. */
  method PaySearch(store: Store, me: nat, ghost mine: seq<Response>, ghost seen: map<CallKey, string>) returns (charged: bool)
    requires store.Valid() && me <= store.run.attempt
    requires Tracks(me, store.View(), mine, seen) && Frontier(me, store.View(), |mine|)
    modifies store, store.cache
    ensures store.Valid() && me <= store.run.attempt
    ensures Evolves(old(store.View()), store.View())
    ensures Tracks(me, store.View(), mine, seen) && Frontier(me, store.View(), |mine|)
    ensures charged && store.context.priced.searches ==> store.search.Some?
  {
    hide WellFormed, Idempotent, Tracks, Evolves;
    ghost var t0 := store.View();
    Yield(store, me, mine, seen);
    ghost var t1 := store.View();
    if !store.context.priced.searches { return true; }
    var cost: nat := *;
    charged := store.ChargeSearch(me, cost);
    SearchEvolves(t1, store.View());
    EvolvesTransitive(t0, t1, store.View());
    TracksSearch(me, t1, store.View(), mine, seen);
    if !charged { return; }
    ghost var t2 := store.View();
    Yield(store, me, mine, seen);
    SearchStays(t2, store.View());
    EvolvesTransitive(t0, t2, store.View());
  }

  lemma SearchEvolves(a: Tables, b: Tables)
    requires b == a.(search := b.search) && (a.search.Some? ==> b.search == a.search)
    ensures Evolves(a, b)
  {
  }

  lemma TracksSearch(me: nat, a: Tables, b: Tables, mine: seq<Response>, seen: map<CallKey, string>)
    requires b == a.(search := b.search) && Tracks(me, a, mine, seen)
    ensures Tracks(me, b, mine, seen)
  {
  }

  lemma SearchStays(a: Tables, b: Tables)
    requires Evolves(a, b) && a.search.Some?
    ensures b.search == a.search
  {
  }

  /** Journals a cached answer as step 0 in the transaction that found it. */
  method CopyAnswer(store: Store, me: nat, key: AnswerCache.Key, answer: Response, source: ExecutorStore.Source,
                    ghost mine: seq<Response>, ghost seen: map<CallKey, string>)
    returns (c: CacheOutcome)
    requires store.Valid() && me <= store.run.attempt
    requires Tracks(me, store.View(), mine, seen)
    requires Frontier(me, store.View(), |mine|) && mine == []
    requires key in store.cache.rows
    requires AnswerCache.Cacheable(answer) && Flaw(answer) == None && Cost(answer) == 0
    requires source != ExecutorStore.FromProvider
    requires source == ExecutorStore.FromSimilar && store.context.priced.searches ==> store.search.Some?
    modifies store, store.cache
    ensures store.Valid() && me <= store.run.attempt
    ensures Evolves(old(store.View()), store.View())
    ensures Tracks(me, store.View(), if c.Hit? then [c.response] else mine, seen)
    ensures c.Hit? ==> c.response == answer && store.View() == WithStep(old(store.View()), StepRow(answer, source), None)
    ensures store.cache.history == old(store.cache.history)
    ensures !c.Hit? ==> c.CacheExit? && c.exit.Stopped? && store.View() == old(store.View())
  {
    hide JournalOk, CallsOk, SourcesOk, LedgerOk, Evolves, Flaw, AnswerCache.Mirrors, AnswerCache.Latest, Idempotent;
    ghost var t0 := store.View();
    assert Evolves(t0, t0) by { EvolvesReflexive(t0); }
    assert |store.steps| == 0 ==> 0 !in store.steps;
    var w := store.Restore(me, 0, answer, source);
    match w {
      case WriteFenced => c := CacheExit(Stopped("execution_fenced", false));
      case Conflict => assert false;
      case Written =>
        AppendTracks(me, store.context.priced, t0, StepRow(answer, source), None, mine, seen);
        store.cache.Touch(key);
        c := Hit(answer);
    }
  }

  /**
    Asks a provider within the remaining budget, validates the answer, and journals it with its charge
    and its cache entry.
   */
  method AskProvider(store: Store, me: nat, allowed: set<string>, pos: Position, key: Option<AnswerCache.Key>,
                     embedding: Option<AnswerCache.Embedding>,
                     ghost opening: seq<Message>, ghost mine: seq<Response>, ghost seen: map<CallKey, string>)
    returns (got: Obtained, ghost asked: seq<Request>)
    requires store.Valid() && me <= store.run.attempt
    requires Tracks(me, store.View(), mine, seen)
    requires Frontier(me, store.View(), |mine|)
    requires pos.step == |mine| < store.profile.maxSteps
    requires 0 <= pos.tokens < store.profile.maxTotal && ContentLength(pos.messages) <= store.profile.maxContext
    requires Reach(store.profile, allowed, Script(mine, seen), opening, pos.step) == Some(pos)
    requires key.Some? ==> store.profile.cacheTtl > 0
    modifies store, store.cache
    ensures store.Valid() && me <= store.run.attempt
    ensures Evolves(old(store.View()), store.View())
    ensures Tracks(me, store.View(), if got.Have? then mine + [got.response] else mine, seen)
    ensures got.Have? ==> Flaw(got.response) == None
    ensures got.Give? ==> got.exit.Stopped? || (got.exit.Discarded? && Flaw(got.exit.response).Some?)
    ensures RequestsOk(store.profile, allowed, opening, Script(mine, seen), asked)
  {
    hide JournalOk, CallsOk, SourcesOk, LedgerOk, Evolves, Flaw, Reach, Tracks;
    asked := [];
    ghost var t0 := store.View();
    assert Evolves(t0, t0) by { EvolvesReflexive(t0); }
    var configured: bool := *;
    if !configured { return Give(Stopped("provider_not_configured", false)), asked; }
    Yield(store, me, mine, seen);
    ghost var t1 := store.View();
    var withinBudget: bool := *;
    var live := store.Fence(me);
    if !live { return Give(Stopped("execution_fenced", false)), asked; }
    if !withinBudget { return Give(Stopped("workspace_budget_exhausted", false)), asked; }
    var left := store.profile.maxTotal - pos.tokens;
    asked := [Request(pos.step, pos.messages, pos.tokens, if store.profile.maxOutput <= left then store.profile.maxOutput else left)];
    // The provider is asked; while it works, anything may happen to the tables.
    Yield(store, me, mine, seen);
    ghost var t2 := store.View();
    EvolvesTransitive(t0, t1, t2);
    var answered: bool := *;
    var retryable: bool := *;
    if !answered { return Give(Stopped("provider_error", retryable)), asked; }
    var response: Response := *;
    if Flaw(response).Some? { return Give(Discarded(response)), asked; }
    got := Journalize(store, me, allowed, pos, key, embedding, response, opening, mine, seen);
    EvolvesTransitive(t0, t2, store.View());
  }

  /** Saves a validated response; the journal row, the ledger row and the cache entry commit together. */
  method Journalize(store: Store, me: nat, ghost allowed: set<string>, pos: Position, key: Option<AnswerCache.Key>,
                    embedding: Option<AnswerCache.Embedding>, response: Response,
                    ghost opening: seq<Message>, ghost mine: seq<Response>, ghost seen: map<CallKey, string>)
    returns (got: Obtained)
    requires store.Valid() && me <= store.run.attempt
    requires Tracks(me, store.View(), mine, seen)
    requires Frontier(me, store.View(), |mine|)
    requires pos.step == |mine| < store.profile.maxSteps
    requires Reach(store.profile, allowed, Script(mine, seen), opening, pos.step) == Some(pos)
    requires key.Some? ==> store.profile.cacheTtl > 0
    requires Flaw(response) == None
    modifies store, store.cache
    ensures store.Valid() && me <= store.run.attempt
    ensures Evolves(old(store.View()), store.View())
    ensures Tracks(me, store.View(), if got.Have? then mine + [got.response] else mine, seen)
    ensures if got.Have? then got.response == response else got.exit.Stopped?
    ensures got.Have? ==> |old(store.steps)| == pos.step && store.steps == old(store.steps)[pos.step := StepRow(response, ExecutorStore.FromProvider)]
    ensures if got.Have? && key.Some? && AnswerCache.Cacheable(response)
            then store.cache.history == old(store.cache.history)
                   + [AnswerCache.Entry(store.now, key.value, response, store.profile.cacheTtl, embedding)]
            else store.cache.history == old(store.cache.history)
  {
    hide JournalOk, CallsOk, SourcesOk, LedgerOk, Evolves, Flaw, Reach, Tracks;
    ghost var t0 := store.View();
    assert Evolves(t0, t0) by { EvolvesReflexive(t0); }
    var priced: bool := *;
    var cost: nat := *;
    if !priced { return Give(Stopped("model_price_not_configured", false)); }
    assert store.MayAppend(pos.step, response) by {
      MayAppendHere(store, me, allowed, opening, mine, seen, response);
    }
    var w := store.Save(me, pos.step, response, cost);
    match w {
      case WriteFenced => got := Give(Stopped("execution_fenced", false));
      case Conflict => assert false by { TracksEnd(me, t0, mine, seen); }
      case Written =>
        AppendTracks(me, store.context.priced, t0, StepRow(response, ExecutorStore.FromProvider),
                     if store.context.priced.calls then Some(cost) else None, mine, seen);
        if key.Some? && AnswerCache.Cacheable(response) {
          store.cache.Save(store.now, key.value, response, store.profile.cacheTtl, embedding);
        }
        got := Have(response, true);
    }
  }

  lemma TracksEnd(me: nat, t: Tables, mine: seq<Response>, seen: map<CallKey, string>)
    requires Tracks(me, t, mine, seen) && |t.steps| == |mine|
    ensures |mine| !in t.steps
  {
  }

  /** The row just appended is the next response the attempt tracks. */
  lemma AppendTracks(me: nat, priced: Pricing, t: Tables, row: StepRow, cost: Option<nat>,
                     mine: seq<Response>, seen: map<CallKey, string>)
    requires LedgerOk(priced, t.steps, t.ledger)
    requires Tracks(me, t, mine, seen) && |mine| == |t.steps|
    ensures Evolves(t, WithStep(t, row, cost))
    ensures Tracks(me, WithStep(t, row, cost), mine + [row.response], seen)
  {
    AppendEvolves(priced, t, row, cost);
    AppendRow(t.steps, row);
    assert mine == Responses(t.steps);
  }

  /** Everything this attempt has consumed asked for tools, so it may add the next row. */
  lemma MayAppendHere(store: Store, me: nat, allowed: set<string>, opening: seq<Message>, mine: seq<Response>,
                      seen: map<CallKey, string>, response: Response)
    requires store.Valid()
    requires Tracks(me, store.View(), mine, seen)
    requires |mine| < store.profile.maxSteps && Flaw(response) == None
    requires Reach(store.profile, allowed, Script(mine, seen), opening, |mine|).Some?
    ensures store.MayAppend(|mine|, response)
  {
    hide CallsOk, SourcesOk, LedgerOk, Flaw, Reach, Journal;
    var rs := Responses(store.steps);
    forall k: nat | k < |mine| ensures WantsTools(store.profile, rs, k)
    {
      ReachUsedTools(store.profile, allowed, Script(mine, seen), opening, |mine|, k);
      WantsToolsPrefix(store.profile, mine, rs, k);
    }
  }

  /**
    A response found at the next step number extends what the attempt tracks, and was validated when
    it was journaled.
   */
  lemma JournaledResponse(p: Profile, canon: Spelling, priced: Pricing, me: nat, t: Tables, mine: seq<Response>,
                          seen: map<CallKey, string>, response: Response)
    requires WellFormed(p, canon, priced, t) && Tracks(me, t, mine, seen)
    requires |mine| in t.steps && t.steps[|mine|].response == response
    ensures Tracks(me, t, mine + [response], seen) && Flaw(response) == None
  {
    assert Responses(t.steps)[|mine|] == response;
  }

  // -------------------------------------------------------- one step's tool calls

  lemma {:induction false} ToolHaltStays(allowed: set<string>, script: Script, step: nat, calls: seq<ToolCall>, n: nat, m: nat)
    requires n <= m <= |calls|
    requires ToolHalt(allowed, script, step, calls, n).Some?
    ensures ToolHalt(allowed, script, step, calls, m) == ToolHalt(allowed, script, step, calls, n)
  {
    if n < m {
      ToolHaltStays(allowed, script, step, calls, n, m - 1);
    }
  }

  /** Performs the step's calls in order and appends what they answer. */
  method RunTools(store: Store, me: nat, allowed: set<string>, pos: Position, calls: seq<ToolCall>, live: bool,
                  ghost mine: seq<Response>, ghost before: map<CallKey, string>)
    returns (exit: Option<Exit>, messages: seq<Message>, ghost seen: map<CallKey, string>)
    requires store.Valid() && me <= store.run.attempt
    requires Tracks(me, store.View(), mine, before)
    requires |mine| == pos.step + 1 && calls == mine[pos.step].calls
    requires SeenBefore(before, pos.step, 0)
    modifies store, store.cache
    ensures store.Valid() && me <= store.run.attempt
    ensures Evolves(old(store.View()), store.View())
    ensures Tracks(me, store.View(), mine, seen)
    ensures Extends(Script(mine, before), Script(mine, seen))
    ensures SeenBefore(seen, pos.step + 1, 0)
    ensures exit.None? ==>
      && AllAgree(store.canon, old(store.calls), live, pos.step, calls, |calls|)
      && ToolHalt(allowed, Script(mine, seen), pos.step, calls, |calls|) == None
      && messages == pos.messages + ToolMessages(Script(mine, seen), pos.step, calls, |calls|)
    ensures exit.Some? ==>
      || exit.value.Stopped?
      || (exit.value.Paused? && IsPending(store.approvals, exit.value.key) && PausedAt(mine, seen, pos.step, exit.value.key))
      || (exit.value.Conflicted? && PausedAt(mine, seen, pos.step, exit.value.key) && Respells(store.canon, mine, exit.value.key))
      || (exit.value.Refused? && ToolHalt(allowed, Script(mine, seen), pos.step, calls, |calls|) == Some(Failed(exit.value.code)))
  {
    hide WellFormed, Idempotent, Evolves, Tracks, PausedAt, ToolHalt, ToolMessages, IsPending, IsDone, ShownTo, Extends, SeenBefore, AllAgree, Agrees, Respells;
    seen, messages, exit := before, pos.messages, None;
    ghost var start := store.View();
    NothingNoted(allowed, mine, before, pos.step, calls);
    assert AllAgree(store.canon, start.calls, live, pos.step, calls, 0) by { NoneDisagrees(store.canon, start.calls, live, pos.step, calls); }
    EvolvesReflexive(start);
    for i := 0 to |calls|
      invariant store.Valid() && me <= store.run.attempt
      invariant Evolves(start, store.View())
      invariant Tracks(me, store.View(), mine, seen)
      invariant Extends(Script(mine, before), Script(mine, seen))
      invariant SeenBefore(seen, pos.step, i)
      invariant ToolHalt(allowed, Script(mine, seen), pos.step, calls, i) == None
      invariant AllAgree(store.canon, start.calls, live, pos.step, calls, i)
      invariant messages == pos.messages + ToolMessages(Script(mine, seen), pos.step, calls, i)
    {
      SeenStays(seen, pos.step, i);
      if calls[i].name !in allowed {
        NotAllowedHalts(allowed, Script(mine, seen), pos.step, calls, i);
        return Some(Refused("model_tool_not_allowed")), messages, seen;
      }
      ghost var t := store.View();
      var executable := store.Fence(me);
      if !executable { return Some(Stopped("execution_fenced", false)), messages, seen; }
      var key := CallKey(pos.step, i);
      var r := InvokeTool(store, me, key, calls[i], live, mine, seen);
      EvolvesTransitive(start, t, store.View());
      match r {
        case ToolExit(e) =>
          PausedHere(allowed, mine, seen, pos.step, i);
          if e.Conflicted? { assert Respells(store.canon, mine, key) by { RespellsHere(store.canon, mine, key); } }
          return Some(e), messages, seen;
        case Result(text) =>
          AgreesToo(store.canon, start, t, live, pos.step, calls, i);
          NoteResult(allowed, mine, before, seen, pos.step, calls, i, text);
          seen := seen[key := text];
          messages := messages + CallMessages(calls[i], text);
      }
    }
    SeenStays(seen, pos.step, |calls|);
  }

  /** The rows there are for the step's first `n` calls have the arguments as this attempt writes them. */
  ghost predicate AllAgree(canon: Spelling, rows: map<CallKey, CallRow>, live: bool, step: nat, calls: seq<ToolCall>, n: nat)
    requires n <= |calls|
  {
    forall i :: 0 <= i < n ==> Agrees(rows, CallKey(step, i), SpelledBy(canon, live, calls[i]))
  }

  lemma NoneDisagrees(canon: Spelling, rows: map<CallKey, CallRow>, live: bool, step: nat, calls: seq<ToolCall>)
    ensures AllAgree(canon, rows, live, step, calls, 0)
  {
  }

  lemma AgreesToo(canon: Spelling, start: Tables, t: Tables, live: bool, step: nat, calls: seq<ToolCall>, i: nat)
    requires i < |calls| && AllAgree(canon, start.calls, live, step, calls, i)
    requires Evolves(start, t) && Agrees(t.calls, CallKey(step, i), SpelledBy(canon, live, calls[i]))
    ensures AllAgree(canon, start.calls, live, step, calls, i + 1)
  {
    AgreedBefore(start, t, CallKey(step, i), SpelledBy(canon, live, calls[i]));
    hide Agrees, Evolves;
  }

  /** The database gives this call's arguments back otherwise. */
  ghost predicate Respells(canon: Spelling, rs: seq<Response>, key: CallKey)
  {
    && key.step < |rs| && key.index < |rs[key.step].calls|
    && canon.argument(rs[key.step].calls[key.index].arguments) != rs[key.step].calls[key.index].arguments
  }

  lemma RespellsHere(canon: Spelling, rs: seq<Response>, key: CallKey)
    requires key.step < |rs| && key.index < |rs[key.step].calls|
    requires canon.argument(rs[key.step].calls[key.index].arguments) != rs[key.step].calls[key.index].arguments
    ensures Respells(canon, rs, key)
  {
  }

  lemma NothingNoted(allowed: set<string>, mine: seq<Response>, before: map<CallKey, string>, step: nat, calls: seq<ToolCall>)
    ensures Extends(Script(mine, before), Script(mine, before))
    ensures ToolHalt(allowed, Script(mine, before), step, calls, 0) == None
    ensures ToolMessages(Script(mine, before), step, calls, 0) == []
  {
  }

  lemma SeenStays(seen: map<CallKey, string>, step: nat, i: nat)
    requires SeenBefore(seen, step, i)
    ensures CallKey(step, i) !in seen && SeenBefore(seen, step + 1, 0)
  {
  }

  /** A call of a tool that was not advertised ends the loop, whatever comes after it. */
  lemma NotAllowedHalts(allowed: set<string>, script: Script, step: nat, calls: seq<ToolCall>, i: nat)
    requires i < |calls| && calls[i].name !in allowed
    requires ToolHalt(allowed, script, step, calls, i) == None
    ensures ToolHalt(allowed, script, step, calls, |calls|) == Some(Failed("model_tool_not_allowed"))
  {
    ToolHaltStays(allowed, script, step, calls, i + 1, |calls|);
  }

  /** A call that waits for a person, or conflicts, is the first one of its step without an answer. */
  lemma PausedHere(allowed: set<string>, mine: seq<Response>, seen: map<CallKey, string>, step: nat, i: nat)
    requires step < |mine| && i < |mine[step].calls| && SeenBefore(seen, step, i)
    requires ToolHalt(allowed, Script(mine, seen), step, mine[step].calls, i) == None
    ensures PausedAt(mine, seen, step, CallKey(step, i))
  {
    ToolPhaseShape(allowed, Script(mine, seen), step, mine[step].calls, i);
  }

  /** Remembering the next result extends the script by exactly that call. */
  lemma NoteResult(allowed: set<string>, mine: seq<Response>, before: map<CallKey, string>, seen: map<CallKey, string>,
                   step: nat, calls: seq<ToolCall>, i: nat, text: string)
    requires i < |calls| && SeenBefore(seen, step, i)
    requires Extends(Script(mine, before), Script(mine, seen))
    requires ToolHalt(allowed, Script(mine, seen), step, calls, i) == None
    requires calls[i].name in allowed
    ensures var after := seen[CallKey(step, i) := text];
      && Extends(Script(mine, before), Script(mine, after))
      && SeenBefore(after, step, i + 1)
      && ToolHalt(allowed, Script(mine, after), step, calls, i + 1) == None
      && ToolMessages(Script(mine, after), step, calls, i + 1)
         == ToolMessages(Script(mine, seen), step, calls, i) + CallMessages(calls[i], text)
  {
    var after := seen[CallKey(step, i) := text];
    ToolPhaseMonotone(allowed, Script(mine, seen), Script(mine, after), step, calls, i);
  }

  // ------------------------------------------------------------------ conclusions

  /** If the loop halts where an attempt stands, that is how the uninterrupted loop ends. */
  lemma HaltIsOutcome(p: Profile, allowed: set<string>, opening: seq<Message>, script: Script, pos: Position, outcome: Outcome)
    requires pos.step >= 0 && Reach(p, allowed, script, opening, pos.step) == Some(pos)
    requires Step(p, allowed, script, pos) == Halt(outcome)
    ensures Run(p, allowed, script, Position(0, opening, 0)) == outcome
  {
    ReachThenRun(p, allowed, script, opening, pos.step);
  }

  /** The journal and results an attempt saw extend what it tracks. */
  lemma TracksExtends(me: nat, t: Tables, mine: seq<Response>, seen: map<CallKey, string>)
    requires Tracks(me, t, mine, seen)
    ensures Extends(Script(mine, seen), Script(Responses(t.steps), seen))
    ensures |mine| <= |t.steps|
  {
  }

  /** A journaled response that does not ask for tools is the last one. */
  lemma LastIfNotTools(p: Profile, rs: seq<Response>, k: nat)
    requires Journal(p, rs) && k < |rs| && !WantsTools(p, rs, k)
    ensures k == |rs| - 1
  {
  }

  lemma ExplainReturned(p: Profile, canon: Spelling, priced: Pricing, me: nat, t: Tables, allowed: set<string>, opening: seq<Message>,
                        mine: seq<Response>, seen: map<CallKey, string>, pos: Position, text: string)
    requires WellFormed(p, canon, priced, t) && Tracks(me, t, mine, seen)
    requires |mine| == pos.step + 1 && pos.step >= 0 && pos.step < p.maxSteps
    requires Reach(p, allowed, Script(mine, seen), opening, pos.step) == Some(pos)
    requires ContentLength(pos.messages) <= p.maxContext
    requires Assess(p, mine[pos.step], pos.tokens) == Answer(text)
    requires SeenBefore(seen, pos.step + 1, 0)
    ensures Explained(p, allowed, opening, t.steps, seen, Returned(text), pos.step)
  {
    hide Assess, Reach, Step, Run, CallsOk, LedgerOk, SourcesOk, OriginsOk, SearchOk, Views, Remembers, ContentLength, Transcript, TokenSum, Flaw, Evolves, SeenBefore, PausedAt;
    var rs := Responses(t.steps);
    var script := Script(rs, seen);
    TracksExtends(me, t, mine, seen);
    ReachMonotone(p, allowed, Script(mine, seen), script, opening, pos.step);
    assert rs[pos.step] == mine[pos.step];
    StepHalts(p, allowed, script, pos, Finished(text));
    HaltIsOutcome(p, allowed, opening, script, pos, Finished(text));
    assert !WantsTools(p, rs, pos.step) by { ReachShape(p, allowed, script, opening, pos.step); }
    LastIfNotTools(p, rs, pos.step);
  }

  /** A response that answers or is rejected halts the step. */
  lemma StepHalts(p: Profile, allowed: set<string>, script: Script, pos: Position, outcome: Outcome)
    requires 0 <= pos.step < |script.responses| && pos.step < p.maxSteps && ContentLength(pos.messages) <= p.maxContext
    requires match Assess(p, script.responses[pos.step], pos.tokens)
             case Answer(text) => outcome == Finished(text)
             case Reject(code) => outcome == Failed(code)
             case UseTools =>
               var calls := script.responses[pos.step].calls;
               ToolHalt(allowed, script, pos.step, calls, |calls|) == Some(outcome)
    ensures Step(p, allowed, script, pos) == Halt(outcome)
  {
  }

  lemma ExplainRefused(p: Profile, canon: Spelling, priced: Pricing, me: nat, t: Tables, allowed: set<string>, opening: seq<Message>,
                       mine: seq<Response>, seen: map<CallKey, string>, pos: Position, code: string)
    requires WellFormed(p, canon, priced, t) && Tracks(me, t, mine, seen)
    requires 0 <= pos.step <= |mine|
    requires Reach(p, allowed, Script(mine, seen), opening, pos.step) == Some(pos)
    requires Step(p, allowed, Script(mine, seen), pos) == Halt(Failed(code))
    requires SeenBefore(seen, pos.step + 1, 0)
    ensures Explained(p, allowed, opening, t.steps, seen, Refused(code), pos.step)
  {
    hide Assess, Reach, Run, JournalOk, CallsOk, LedgerOk, SourcesOk;
    var script := Script(Responses(t.steps), seen);
    TracksExtends(me, t, mine, seen);
    ReachMonotone(p, allowed, Script(mine, seen), script, opening, pos.step);
    assert Step(p, allowed, script, pos) == Halt(Failed(code)) by {
      HaltMonotone(p, allowed, Script(mine, seen), script, pos, code);
    }
    HaltIsOutcome(p, allowed, opening, script, pos, Failed(code));
  }

  /** A failure of the loop is a failure on every longer script. */
  lemma HaltMonotone(p: Profile, allowed: set<string>, small: Script, big: Script, pos: Position, code: string)
    requires Extends(small, big) && pos.step >= 0
    requires Step(p, allowed, small, pos) == Halt(Failed(code))
    ensures Step(p, allowed, big, pos) == Halt(Failed(code))
  {
    hide Assess;
    if pos.step < p.maxSteps && ContentLength(pos.messages) <= p.maxContext {
      var calls := small.responses[pos.step].calls;
      if ToolHalt(allowed, small, pos.step, calls, |calls|) == Some(Failed(code)) {
        ToolFailureMonotone(allowed, small, big, pos.step, calls, |calls|, code);
      }
    }
  }

  lemma {:induction false} ToolFailureMonotone(allowed: set<string>, small: Script, big: Script, step: nat, calls: seq<ToolCall>, n: nat, code: string)
    requires Extends(small, big) && n <= |calls|
    requires ToolHalt(allowed, small, step, calls, n) == Some(Failed(code))
    ensures ToolHalt(allowed, big, step, calls, n) == Some(Failed(code))
  {
    if ToolHalt(allowed, small, step, calls, n - 1).Some? {
      ToolFailureMonotone(allowed, small, big, step, calls, n - 1, code);
    } else {
      ToolPhaseMonotone(allowed, small, big, step, calls, n - 1);
    }
  }

  /** An attempt that stops anywhere else has reached a position a later attempt reaches again. */
  lemma ExplainOther(p: Profile, me: nat, t: Tables, allowed: set<string>, opening: seq<Message>,
                     mine: seq<Response>, seen: map<CallKey, string>, reached: nat, exit: Exit)
    requires Tracks(me, t, mine, seen) && reached <= |mine|
    requires Reach(p, allowed, Script(mine, seen), opening, reached).Some?
    requires SeenBefore(seen, reached + 1, 0)
    requires exit.Stopped? || ((exit.Paused? || exit.Conflicted?) && PausedAt(mine, seen, reached, exit.key))
    ensures Explained(p, allowed, opening, t.steps, seen, exit, reached)
  {
    TracksExtends(me, t, mine, seen);
    ReachMonotone(p, allowed, Script(mine, seen), Script(Responses(t.steps), seen), opening, reached);
  }

  /** A live response that fails validation would have failed the uninterrupted loop too. */
  lemma ExplainDiscarded(p: Profile, me: nat, t: Tables, allowed: set<string>, opening: seq<Message>,
                         mine: seq<Response>, seen: map<CallKey, string>, pos: Position, response: Response)
    requires Tracks(me, t, mine, seen)
    requires pos.step == |mine| < p.maxSteps && ContentLength(pos.messages) <= p.maxContext
    requires Reach(p, allowed, Script(mine, seen), opening, pos.step) == Some(pos)
    requires Flaw(response).Some?
    requires SeenBefore(seen, pos.step + 1, 0)
    ensures Explained(p, allowed, opening, t.steps, seen, Discarded(response), pos.step)
  {
    hide Reach, Run;
    TracksExtends(me, t, mine, seen);
    var small := Script(mine, seen);
    ReachMonotone(p, allowed, small, Script(Responses(t.steps), seen), opening, pos.step);
    var with := Script(Responses(t.steps)[..pos.step] + [response], seen);
    assert Responses(t.steps)[..pos.step] == mine;
    ReachMonotone(p, allowed, small, with, opening, pos.step);
    assert Assess(p, response, pos.tokens) == Reject(Flaw(response).value);
    StepHalts(p, allowed, with, pos, Failed(Flaw(response).value));
    HaltIsOutcome(p, allowed, opening, with, pos, Failed(Flaw(response).value));
  }

  // --------------------------------------------------------------- the attempt

  /** What holds between two iterations of the loop. */
  ghost predicate LoopState(p: Profile, allowed: set<string>, opening: seq<Message>, pos: Position,
                            mine: seq<Response>, seen: map<CallKey, string>)
  {
    && pos.step == |mine| <= p.maxSteps
    && 0 <= pos.tokens < p.maxTotal
    && SeenBefore(seen, pos.step, 0)
    && Reach(p, allowed, Script(mine, seen), opening, pos.step) == Some(pos)
  }

  /** What the loop does with the response it now has. */
  method Judge(store: Store, me: nat, allowed: set<string>, pos: Position, response: Response, live: bool,
               ghost opening: seq<Message>, ghost mine: seq<Response>, ghost seen: map<CallKey, string>)
    returns (exit: Option<Exit>, next: Position, ghost seen': map<CallKey, string>)
    requires store.Valid() && me <= store.run.attempt
    requires Tracks(me, store.View(), mine, seen)
    requires 0 <= pos.step < store.profile.maxSteps && |mine| == pos.step + 1 && mine[pos.step] == response
    requires Reach(store.profile, allowed, Script(mine, seen), opening, pos.step) == Some(pos)
    requires SeenBefore(seen, pos.step, 0)
    requires 0 <= pos.tokens < store.profile.maxTotal && ContentLength(pos.messages) <= store.profile.maxContext
    requires Flaw(response) == None
    modifies store, store.cache
    ensures store.Valid() && me <= store.run.attempt
    ensures Evolves(old(store.View()), store.View())
    ensures Tracks(me, store.View(), mine, seen')
    ensures Extends(Script(mine, seen), Script(mine, seen'))
    ensures exit.None? ==> LoopState(store.profile, allowed, opening, next, mine, seen') && next.step == pos.step + 1
    ensures exit.None? ==> AllAgree(store.canon, old(store.calls), live, pos.step, response.calls, |response.calls|)
    ensures exit.Some? ==> Explained(store.profile, allowed, opening, store.steps, seen', exit.value, pos.step)
    ensures exit.Some? ==> HeldUp(store.canon, store.View(), exit.value)
  {
    hide Journal, CallsOk, SourcesOk, LedgerOk, Evolves, Tracks, Flaw, Reach, Explained, Assess, Step, HeldUp, Respells, AllAgree;
    seen', next, exit := seen, pos, None;
    ghost var t := store.View();
    match Assess(store.profile, response, pos.tokens) {
      case Answer(text) =>
        exit := Some(Returned(text));
        EvolvesReflexive(t);
        NotHeldUp(store.canon, t, exit.value);
        ExplainReturned(store.profile, store.canon, store.context.priced, me, t, allowed, opening, mine, seen, pos, text);
      case Reject(code) =>
        exit := Some(Refused(code));
        EvolvesReflexive(t);
        NotHeldUp(store.canon, t, exit.value);
        StepHalts(store.profile, allowed, Script(mine, seen), pos, Failed(code));
        ExplainRefused(store.profile, store.canon, store.context.priced, me, t, allowed, opening, mine, seen, pos, code);
      case UseTools =>
        var messages;
        exit, messages, seen' := RunTools(store, me, allowed, pos, response.calls, live, mine, seen);
        HeldUpHere(store.canon, me, store.View(), mine, seen', exit);
        ReachMonotone(store.profile, allowed, Script(mine, seen), Script(mine, seen'), opening, pos.step);
        if exit.None? {
          next := Position(pos.step + 1, messages, pos.tokens + Cost(response));
          NextState(store.profile, allowed, opening, mine, seen', pos, next);
        } else if exit.value.Refused? {
          StepHalts(store.profile, allowed, Script(mine, seen'), pos, Failed(exit.value.code));
          ExplainRefused(store.profile, store.canon, store.context.priced, me, store.View(), allowed, opening, mine, seen', pos, exit.value.code);
        } else {
          ExplainOther(store.profile, me, store.View(), allowed, opening, mine, seen', pos.step, exit.value);
        }
    }
  }

  /** A pause names a pending approval, and a conflict a call whose arguments the database gives back otherwise. */
  ghost predicate HeldUp(canon: Spelling, t: Tables, exit: Exit)
    requires Contiguous(t.steps)
  {
    && (exit.Paused? ==> IsPending(t.approvals, exit.key))
    && (exit.Conflicted? ==> Respells(canon, Responses(t.steps), exit.key))
  }

  lemma NotHeldUp(canon: Spelling, t: Tables, exit: Exit)
    requires Contiguous(t.steps) && !exit.Paused? && !exit.Conflicted?
    ensures HeldUp(canon, t, exit)
  {
  }

  lemma HeldUpHere(canon: Spelling, me: nat, t: Tables, mine: seq<Response>, seen: map<CallKey, string>, exit: Option<Exit>)
    requires Contiguous(t.steps) && Tracks(me, t, mine, seen)
    requires exit.Some? && exit.value.Paused? ==> IsPending(t.approvals, exit.value.key)
    requires exit.Some? && exit.value.Conflicted? ==> Respells(canon, mine, exit.value.key)
    ensures exit.Some? ==> HeldUp(canon, t, exit.value)
  {
    if exit.Some? && exit.value.Conflicted? {
      assert mine[exit.value.key.step] == Responses(t.steps)[exit.value.key.step];
    }
  }

  /** A call of journaled step `k` has a row with its arguments not as the journal gives them back. */
  ghost predicate Stuck(canon: Spelling, t: Tables, k: nat)
  {
    k in t.steps && !AllAgree(canon, t.calls, false, k, t.steps[k].response.calls, |t.steps[k].response.calls|)
  }

  /** That never changes. */
  lemma StuckStays(canon: Spelling, a: Tables, b: Tables, k: nat)
    requires Evolves(a, b) && Stuck(canon, a, k)
    ensures Stuck(canon, b, k)
  {
    var calls := a.steps[k].response.calls;
    var i :| 0 <= i < |calls| && !Agrees(a.calls, CallKey(k, i), SpelledBy(canon, false, calls[i]));
    AgreedBefore(a, b, CallKey(k, i), SpelledBy(canon, false, calls[i]));
  }

  /** An attempt that got past a step it read back found every call of it as it writes them. */
  lemma PastIsNotStuck(canon: Spelling, me: nat, a: Tables, b: Tables, mine: seq<Response>, seen: map<CallKey, string>, k: nat)
    requires Evolves(a, b) && k in a.steps && Tracks(me, b, mine, seen) && k < |mine|
    requires AllAgree(canon, b.calls, false, k, mine[k].calls, |mine[k].calls|)
    ensures !Stuck(canon, a, k)
  {
    assert mine[k] == Responses(b.steps)[k] == b.steps[k].response;
    var calls := mine[k].calls;
    forall i | 0 <= i < |calls| ensures Agrees(a.calls, CallKey(k, i), SpelledBy(canon, false, calls[i]))
    {
      AgreedBefore(a, b, CallKey(k, i), SpelledBy(canon, false, calls[i]));
    }
  }

  lemma NextState(p: Profile, allowed: set<string>, opening: seq<Message>, mine: seq<Response>, seen: map<CallKey, string>,
                  pos: Position, next: Position)
    requires 0 <= pos.step < p.maxSteps && |mine| == pos.step + 1
    requires Reach(p, allowed, Script(mine, seen), opening, pos.step) == Some(pos)
    requires SeenBefore(seen, pos.step + 1, 0)
    requires 0 <= pos.tokens && ContentLength(pos.messages) <= p.maxContext
    requires var r := mine[pos.step];
      && Flaw(r) == None && Assess(p, r, pos.tokens) == UseTools
      && ToolHalt(allowed, Script(mine, seen), pos.step, r.calls, |r.calls|) == None
      && next == Position(pos.step + 1,
                          pos.messages + ToolMessages(Script(mine, seen), pos.step, r.calls, |r.calls|),
                          pos.tokens + Cost(r))
    ensures LoopState(p, allowed, opening, next, mine, seen)
  {
    hide ToolHalt, ToolMessages, ContentLength;
    assert Step(p, allowed, Script(mine, seen), pos) == Next(next);
  }

  /** One iteration: obtain the step's response, judge it, and run its tools. */
  method OneStep(store: Store, me: nat, allowed: set<string>, pos: Position, matching: Matching,
                 ghost opening: seq<Message>, ghost mine: seq<Response>, ghost seen: map<CallKey, string>)
    returns (exit: Option<Exit>, next: Position, ghost mine': seq<Response>, ghost seen': map<CallKey, string>, ghost asked: seq<Request>)
    requires store.Valid() && me <= store.run.attempt
    requires Tracks(me, store.View(), mine, seen)
    requires LoopState(store.profile, allowed, opening, pos, mine, seen) && pos.step < store.profile.maxSteps
    modifies store, store.cache
    ensures store.Valid() && me <= store.run.attempt
    ensures Evolves(old(store.View()), store.View())
    ensures Tracks(me, store.View(), mine', seen')
    ensures Extends(Script(mine, seen), Script(mine', seen'))
    ensures RequestsOk(store.profile, allowed, opening, Script(mine, seen), asked)
    ensures exit.None? ==> LoopState(store.profile, allowed, opening, next, mine', seen') && next.step == pos.step + 1
    ensures exit.None? ==> !Stuck(store.canon, old(store.View()), pos.step)
    ensures exit.Some? ==> Explained(store.profile, allowed, opening, store.steps, seen', exit.value, pos.step)
    ensures exit.Some? ==> HeldUp(store.canon, store.View(), exit.value)
  {
    hide Journal, CallsOk, SourcesOk, LedgerOk, Evolves, Tracks, Flaw, Reach, Explained, Assess, Step, HeldUp, AllAgree, Stuck;
    ghost var t0 := store.View();
    mine', seen', next, exit := mine, seen, pos, None;
    var got;
    got, asked := NextResponse(store, me, allowed, pos, matching, opening, mine, seen);
    ghost var t1 := store.View();
    match got {
      case Give(e) =>
        exit := Some(e);
        NotHeldUp(store.canon, t1, e);
        ExplainGiven(store.profile, store.canon, store.context.priced, me, t1, allowed, opening, mine, seen, pos, e);
      case Have(response, live) =>
        mine' := mine + [response];
        ReachMonotone(store.profile, allowed, Script(mine, seen), Script(mine', seen), opening, pos.step);
        exit, next, seen' := Judge(store, me, allowed, pos, response, live, opening, mine', seen);
        EvolvesTransitive(t0, t1, store.View());
        if exit.None? { PassedStep(store.canon, me, t0, t1, live, mine', seen, pos.step); }
    }
  }

  lemma PassedStep(canon: Spelling, me: nat, a: Tables, b: Tables, live: bool, mine: seq<Response>, seen: map<CallKey, string>, k: nat)
    requires Evolves(a, b) && Tracks(me, b, mine, seen) && k < |mine| && (k in a.steps ==> !live)
    requires AllAgree(canon, b.calls, live, k, mine[k].calls, |mine[k].calls|)
    ensures !Stuck(canon, a, k)
  {
    if k in a.steps { PastIsNotStuck(canon, me, a, b, mine, seen, k); }
  }

  lemma ExplainGiven(p: Profile, canon: Spelling, priced: Pricing, me: nat, t: Tables, allowed: set<string>, opening: seq<Message>,
                     mine: seq<Response>, seen: map<CallKey, string>, pos: Position, exit: Exit)
    requires WellFormed(p, canon, priced, t) && Tracks(me, t, mine, seen)
    requires LoopState(p, allowed, opening, pos, mine, seen) && pos.step < p.maxSteps
    requires
      || exit.Stopped?
      || (exit.Discarded? && Flaw(exit.response).Some? && ContentLength(pos.messages) <= p.maxContext)
      || (exit == Refused("context_limit_exceeded") && ContentLength(pos.messages) > p.maxContext)
    ensures Explained(p, allowed, opening, t.steps, seen, exit, pos.step)
  {
    hide Reach, JournalOk, CallsOk, SourcesOk, LedgerOk, Tracks, Flaw, Assess, Explained;
    match exit {
      case Stopped(_, _) => ExplainOther(p, me, t, allowed, opening, mine, seen, pos.step, exit);
      case Discarded(response) => ExplainDiscarded(p, me, t, allowed, opening, mine, seen, pos, response);
      case Refused(code) => ExplainRefused(p, canon, priced, me, t, allowed, opening, mine, seen, pos, code);
    }
  }

  /** The whole loop of one attempt, from its opening messages. */
  method Converse(store: Store, me: nat, allowed: set<string>, opening: seq<Message>, matching: Matching)
    returns (exit: Exit, ghost seen: map<CallKey, string>, ghost reached: nat, ghost asked: seq<Request>)
    requires store.Valid() && me <= store.run.attempt && NothingProduced(store.calls, me)
    modifies store, store.cache
    ensures store.Valid() && Evolves(old(store.View()), store.View())
    ensures Views(me, store.calls, seen)
    ensures Explained(store.profile, allowed, opening, store.steps, seen, exit, reached)
    ensures HeldUp(store.canon, store.View(), exit)
    ensures forall k :: Stuck(store.canon, old(store.View()), k) ==> reached <= k
    ensures RequestsOk(store.profile, allowed, opening, Script(Responses(store.steps), seen), asked)
  {
    hide Journal, CallsOk, SourcesOk, LedgerOk, Evolves, Flaw, Reach, Explained, Assess, Step, RequestsOk, HeldUp, Stuck;
    var pos := Position(0, opening, 0);
    ghost var mine: seq<Response> := [];
    seen, asked, reached := map[], [], 0;
    ghost var start := store.View();
    EvolvesReflexive(start);
    StartState(store.profile, store.canon, store.context.priced, me, start, allowed, opening);
    while pos.step < store.profile.maxSteps
      invariant store.Valid() && me <= store.run.attempt
      invariant Evolves(start, store.View())
      invariant Tracks(me, store.View(), mine, seen)
      invariant LoopState(store.profile, allowed, opening, pos, mine, seen)
      invariant RequestsOk(store.profile, allowed, opening, Script(mine, seen), asked)
      invariant forall k :: Stuck(store.canon, start, k) ==> pos.step <= k
      decreases store.profile.maxSteps - pos.step
    {
      reached := pos.step;
      ghost var t := store.View();
      ghost var small := Script(mine, seen);
      var stop;
      ghost var more;
      stop, pos, mine, seen, more := OneStep(store, me, allowed, pos, matching, opening, mine, seen);
      if stop.None? { StillAhead(store.canon, start, t, reached); }
      EvolvesTransitive(start, t, store.View());
      RequestsAppend(store.profile, allowed, opening, small, Script(mine, seen), asked, more);
      asked := asked + more;
      TracksExtends(me, store.View(), mine, seen);
      RequestsMonotone(store.profile, allowed, opening, Script(mine, seen), Script(Responses(store.steps), seen), asked);
      if stop.Some? { return stop.value, seen, reached, asked; }
    }
    exit, reached := Refused("step_limit_exceeded"), pos.step;
    NotHeldUp(store.canon, store.View(), exit);
    TracksExtends(me, store.View(), mine, seen);
    RequestsMonotone(store.profile, allowed, opening, Script(mine, seen), Script(Responses(store.steps), seen), asked);
    assert Step(store.profile, allowed, Script(mine, seen), pos) == Halt(Failed("step_limit_exceeded")) by {
      StepLimit(store.profile, allowed, Script(mine, seen), pos);
    }
    ExplainRefused(store.profile, store.canon, store.context.priced, me, store.View(), allowed, opening, mine, seen, pos, "step_limit_exceeded");
  }

  lemma StillAhead(canon: Spelling, start: Tables, t: Tables, reached: nat)
    requires Evolves(start, t) && !Stuck(canon, t, reached)
    requires forall k :: Stuck(canon, start, k) ==> reached <= k
    ensures forall k :: Stuck(canon, start, k) ==> reached + 1 <= k
  {
    hide Stuck;
    forall k | Stuck(canon, start, k) ensures reached + 1 <= k
    {
      StuckStays(canon, start, t, k);
    }
  }

  lemma StepLimit(p: Profile, allowed: set<string>, script: Script, pos: Position)
    requires pos.step >= p.maxSteps
    ensures Step(p, allowed, script, pos) == Halt(Failed("step_limit_exceeded"))
  {
  }

  lemma StartState(p: Profile, canon: Spelling, priced: Pricing, me: nat, t: Tables, allowed: set<string>, opening: seq<Message>)
    requires p.Valid() && WellFormed(p, canon, priced, t) && NothingProduced(t.calls, me)
    ensures LoopState(p, allowed, opening, Position(0, opening, 0), [], map[])
    ensures Tracks(me, t, [], map[])
    ensures RequestsOk(p, allowed, opening, Script([], map[]), [])
  {
  }

  lemma RequestsAppend(p: Profile, allowed: set<string>, opening: seq<Message>, small: Script, big: Script, asked: seq<Request>, more: seq<Request>)
    requires Extends(small, big)
    requires RequestsOk(p, allowed, opening, small, asked) && RequestsOk(p, allowed, opening, small, more)
    ensures RequestsOk(p, allowed, opening, big, asked + more)
  {
    hide RequestOk;
    assert RequestsOk(p, allowed, opening, small, asked + more);
    RequestsMonotone(p, allowed, opening, small, big, asked + more);
  }

  /** Evidence for this run: the stored snapshot, or a fresh retrieval stored before it is used. */
  method Retrieve(store: Store, me: nat) returns (exit: Option<Exit>)
    requires store.Valid() && me <= store.run.attempt
    modifies store, store.cache
    ensures store.Valid() && me <= store.run.attempt
    ensures Evolves(old(store.View()), store.View()) && NoneProduced(me, old(store.calls), store.calls)
    ensures exit.None? ==> store.evidence.Some?
    ensures exit.None? ==> ContentLength(Opening(store.context.instructions, store.context.input, store.evidence)) <= store.profile.maxContext
    ensures exit.Some? ==> exit.value.Stopped?
  {
    hide WellFormed, Idempotent, ContentLength, Evolves, NoneProduced;
    var room := store.profile.maxContext - |store.context.instructions| - |store.context.input|;
    ghost var t0 := store.View();
    store.Environment(me);
    ghost var t1 := store.View();
    var e := store.LoadRetrieval(me);
    if e.NoSnapshot? {
      exit, e := FreshEvidence(store, me, room);
      KeptThrough(me, t0, t1, store.View());
      if exit.Some? { return; }
    }
    match e {
      case EvidenceFenced => return Some(Stopped("execution_fenced", false));
      case Unavailable => return Some(Stopped("retrieval_snapshot_unavailable", false));
      case Snapshot(text) =>
        if |text| > room { return Some(Stopped("context_limit_exceeded", false)); }
        OpeningLength(store.context.instructions, store.context.input, store.evidence);
        return None;
    }
  }

  /** Retrieves, and stores what was found if it fits. */
  method FreshEvidence(store: Store, me: nat, room: int) returns (exit: Option<Exit>, e: Evidence)
    requires store.Valid() && me <= store.run.attempt
    modifies store, store.cache
    ensures store.Valid() && me <= store.run.attempt
    ensures Evolves(old(store.View()), store.View()) && NoneProduced(me, old(store.calls), store.calls)
    ensures exit.Some? ==> exit.value.Stopped?
    ensures exit.None? ==> !e.NoSnapshot? && (e.Snapshot? ==> store.evidence == Some(e.text))
  {
    hide WellFormed, Idempotent, Evolves, NoneProduced;
    ghost var t0 := store.View();
    store.Environment(me);
    ghost var t1 := store.View();
    var text: string := *;
    var found: bool := *;
    e := Unavailable;
    if !found { return Some(Stopped("retrieval_error", true)), e; }
    if |text| > room { return Some(Stopped("context_limit_exceeded", false)), e; }
    e := store.SaveRetrieval(me, text);
    EvidenceEvolves(me, t1, store.View());
    KeptThrough(me, t0, t1, store.View());
    exit := None;
  }

  lemma EvidenceEvolves(me: nat, a: Tables, b: Tables)
    requires b == a.(evidence := b.evidence) && (a.evidence.Some? ==> b.evidence == a.evidence)
    ensures Evolves(a, b) && NoneProduced(me, a.calls, b.calls)
  {
  }

  lemma KeptThrough(me: nat, a: Tables, b: Tables, c: Tables)
    requires Evolves(a, b) && NoneProduced(me, a.calls, b.calls)
    requires Evolves(b, c) && NoneProduced(me, b.calls, c.calls)
    ensures Evolves(a, c) && NoneProduced(me, a.calls, c.calls)
  {
    EvolvesTransitive(a, b, c);
  }

  lemma OpeningLength(instructions: string, input: string, evidence: Option<string>)
    ensures ContentLength(Opening(instructions, input, evidence))
         == |instructions| + |input| + (if evidence.Some? then |evidence.value| else 0)
  {
    ContentLengthAppend([], Message("system", instructions, None, None));
    ContentLengthAppend([Message("system", instructions, None, None)], Message("user", input, None, None));
    var base := [Message("system", instructions, None, None)] + [Message("user", input, None, None)];
    if evidence.Some? && evidence.value != "" {
      ContentLengthAppend(base, Message("user", evidence.value, None, None));
      assert Opening(instructions, input, evidence) == base + [Message("user", evidence.value, None, None)];
    } else {
      assert Opening(instructions, input, evidence) == base;
    }
  }

  lemma ContentLengthAppend(ms: seq<Message>, m: Message)
    ensures ContentLength(ms + [m]) == ContentLength(ms) + |m.content|
    ensures [m] == [] + [m]
  {
    assert (ms + [m])[..|ms|] == ms;
  }

  /** The opening messages of this run once its evidence is settled. */
  function OpeningOf(context: Context, evidence: Option<string>): seq<Message>
  {
    Opening(context.instructions, context.input, if context.retrieves then evidence else None)
  }

  /**
    One attempt, start to end. Whatever the others do meanwhile: the tables stay
    well-formed and lose nothing; a normal return, or a refusal by one of the loop's
    own checks, is exactly the outcome of the uninterrupted loop on the journal;
    every provider request was the one that loop would have made; and the attempt does
    not get past a step that was stuck when it began.
   */
  method Execute(store: Store, me: nat, authorized: bool, tools: nat, advertised: set<string>, matching: Matching)
    returns (exit: Exit, ghost opening: seq<Message>, ghost seen: map<CallKey, string>, ghost reached: nat, ghost asked: seq<Request>)
    requires store.Valid() && me <= store.run.attempt && NothingProduced(store.calls, me)
    modifies store, store.cache
    ensures store.Valid() && Evolves(old(store.View()), store.View())
    ensures Views(me, store.calls, seen)
    ensures Explained(store.profile, advertised, opening, store.steps, seen, exit, reached)
    ensures HeldUp(store.canon, store.View(), exit)
    ensures forall k :: Stuck(store.canon, old(store.View()), k) ==> reached <= k
    ensures RequestsOk(store.profile, advertised, opening, Script(Responses(store.steps), seen), asked)
    ensures !exit.Stopped? || asked != [] ==> opening == OpeningOf(store.context, store.evidence)
    ensures exit.Returned? ==> authorized && tools <= 100 && |advertised| <= 32
  {
    hide Journal, CallsOk, SourcesOk, LedgerOk, Flaw, Reach, Assess, Step, RequestsOk, Run, Evolves, Explained, Views, HeldUp, Stuck;
    ghost var t0 := store.View();
    var refused := Admit(store, me, authorized, tools, advertised);
    ghost var t1 := store.View();
    if refused.Some? {
      exit, opening, seen, reached, asked := refused.value, [], map[], 0, [];
      NothingYet(store.profile, me, t1, advertised, exit);
      NotHeldUp(store.canon, t1, exit);
      return;
    }
    forall k | Stuck(store.canon, t0, k) ensures Stuck(store.canon, t1, k) { StuckStays(store.canon, t0, t1, k); }
    var first := OpeningOf(store.context, store.evidence);
    opening := first;
    exit, seen, reached, asked := Converse(store, me, advertised, first, matching);
    EvolvesTransitive(t0, t1, store.View());
    if store.context.retrieves {
      EvidenceStays(t1, store.View());
    }
  }

  lemma EvidenceStays(a: Tables, b: Tables)
    requires Evolves(a, b) && a.evidence.Some?
    ensures b.evidence == a.evidence
  {
  }

  /** What an attempt checks before it says anything: the profile, the fence, the number of tools, and its evidence. */
  method Admit(store: Store, me: nat, authorized: bool, tools: nat, advertised: set<string>) returns (refused: Option<Exit>)
    requires store.Valid() && me <= store.run.attempt
    modifies store, store.cache
    ensures store.Valid() && me <= store.run.attempt
    ensures Evolves(old(store.View()), store.View()) && NoneProduced(me, old(store.calls), store.calls)
    ensures refused.None? ==> authorized && tools <= 100 && |advertised| <= 32
    ensures refused.None? && store.context.retrieves ==> store.evidence.Some?
    ensures refused.Some? ==> refused.value.Stopped?
  {
    hide JournalOk, CallsOk, SourcesOk, LedgerOk;
    if !authorized { return Some(Stopped("model_profile_not_authorized", false)); }
    var live := store.Fence(me);
    if !live { return Some(Stopped("execution_fenced", false)); }
    if tools > 100 || |advertised| > 32 { return Some(Stopped("tool_limit_exceeded", false)); }
    refused := None;
    if store.context.retrieves {
      refused := Retrieve(store, me);
    }
  }

  lemma NothingYet(p: Profile, me: nat, t: Tables, allowed: set<string>, exit: Exit)
    requires Contiguous(t.steps) && exit.Stopped?
    ensures Explained(p, allowed, [], t.steps, map[], exit, 0)
    ensures RequestsOk(p, allowed, [], Script(Responses(t.steps), map[]), [])
    ensures Views(me, t.calls, map[])
  {
  }

  /** Claims the run and executes the attempt claimed; its number is new, so no stored result is its own. */
  method ClaimAndExecute(store: Store, leaseSeconds: nat, authorized: bool, tools: nat, advertised: set<string>, matching: Matching)
    returns (me: Option<nat>, exit: Exit, ghost opening: seq<Message>, ghost seen: map<CallKey, string>, ghost reached: nat)
    requires store.Valid() && 3 <= leaseSeconds <= 300
    modifies store, store.cache
    ensures store.Valid() && Evolves(old(store.View()), store.View())
    ensures me.Some? ==> me.value == old(store.run.attempt) + 1 && Views(me.value, store.calls, seen)
    ensures me.Some? ==> Explained(store.profile, advertised, opening, store.steps, seen, exit, reached)
    ensures me.None? ==> store.View().(run := old(store.run)) == old(store.View())
  {
    hide WellFormed, Idempotent, Views, Explained, Evolves;
    exit, opening, seen, reached := Stopped("not_claimed", false), [], map[], 0;
    ghost var t0 := store.View();
    me := store.Claim(leaseSeconds);
    ghost var t1 := store.View();
    RunRowEvolves(t0, t1);
    if me.None? { return; }
    store.Environment(me.value);
    ghost var t2 := store.View();
    EvolvesTransitive(t0, t1, t2);
    ghost var asked;
    exit, opening, seen, reached, asked := Execute(store, me.value, authorized, tools, advertised, matching);
    EvolvesTransitive(t0, t2, store.View());
  }

  lemma RunRowEvolves(a: Tables, b: Tables)
    requires b == a.(run := b.run) && a.run.attempt <= b.run.attempt
    ensures Evolves(a, b)
  {
  }
}
