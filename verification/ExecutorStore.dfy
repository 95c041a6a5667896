/**
  The tables one agent run is executed against, and the transactions that change
  them. Each method is one database transaction. `OtherTransaction` and
  `Environment` run any transactions of anyone but one given attempt, so a method
  that calls `Environment` between its own transactions is verified for every
  interleaving with crashes, retries, approvals, cancellation and stale attempts.
 */
module ExecutorStore {
  import opened Prelude
  import opened ModelLoop
  import AnswerCache

  // -------------------------------------------------------------------- rows

  datatype Status = Queued | Running | WaitingForApproval | RunSucceeded | RunFailed | RunCancelled

  datatype RunRow = RunRow(status: Status, attempt: nat, lease: Option<int>, cancelRequested: bool)

  /** Who answered a step: a provider, the cache for the very question, or the cache for a similar one. */
  datatype Source = FromProvider | FromCache | FromSimilar

  /** A row of the step journal, keyed by its step number. */
  datatype StepRow = StepRow(response: Response, source: Source)

  datatype CallStatus = Planned | PendingApproval | Approved | InProgress | Done | CallFailed | Denied | CallCancelled

  /**
    How a JSON value's text comes back from a `jsonb` column: a tool result's, and a call's argument
    object's with its keys sorted, which only number forms can change.
   */
  datatype Spelling = Spelling(result: string -> string, argument: string -> string)

  /** Whether this deployment prices model calls, and the embeddings that look for similar questions. */
  datatype Pricing = Pricing(calls: bool, searches: bool)

  /** Which attempt ran the tool, and the text it got back; no column holds this. */
  datatype Origin = Origin(attempt: nat, raw: string)

  datatype CallRow = CallRow(name: string, arguments: string, status: CallStatus, result: Option<string>, origin: Option<Origin>)

  datatype Approval = Pending | Granted | Closed

  /** What does not change during a run: the request, and what this deployment prices and retrieves. */
  datatype Context = Context(instructions: string, input: string, retrieves: bool, priced: Pricing, scope: AnswerCache.Scope)

  /** All tables of one run. */
  datatype Tables = Tables(
    run: RunRow,
    steps: map<nat, StepRow>,
    calls: map<CallKey, CallRow>,
    approvals: map<CallKey, Approval>,
    evidence: Option<string>,
    ledger: map<nat, nat>,      // what each priced step cost
    search: Option<nat>)        // what looking for a similar question cost

  const MAX_RUN_ATTEMPTS := 3

  // -------------------------------------------------------- what every run keeps

  ghost predicate Idempotent(canon: Spelling)
  {
    forall s {:trigger canon.result(canon.result(s))} :: canon.result(canon.result(s)) == canon.result(s)
  }

  /** Step numbers are 0, 1, ... without a gap. */
  predicate Contiguous(steps: map<nat, StepRow>)
  {
    (forall k <- steps :: k < |steps|) && (forall k: nat :: k < |steps| ==> k in steps)
  }

  function Responses(steps: map<nat, StepRow>): (rs: seq<Response>)
    requires Contiguous(steps)
    ensures |rs| == |steps|
    ensures forall k: nat :: k < |steps| ==> rs[k] == steps[k].response
  {
    seq(|steps|, k requires 0 <= k < |steps| => steps[k].response)
  }

  /** Response `k` asked for tools with tokens to spare. */
  ghost predicate WantsTools(p: Profile, rs: seq<Response>, k: nat)
    requires k < |rs|
  {
    Assess(p, rs[k], TokenSum(rs[..k])) == UseTools
  }

  lemma WantsToolsPrefix(p: Profile, a: seq<Response>, b: seq<Response>, k: nat)
    requires a <= b && k < |a|
    ensures WantsTools(p, a, k) <==> WantsTools(p, b, k)
  {
    assert b[..k] == a[..k];
  }

  /** Every response but the last asked for tools with tokens to spare, so only the last one can end the run. */
  ghost predicate Journal(p: Profile, rs: seq<Response>)
  {
    && |rs| <= p.maxSteps
    && (forall k :: 0 <= k < |rs| ==> Flaw(rs[k]) == None)
    && (forall k :: 0 <= k < |rs| - 1 ==> WantsTools(p, rs, k))
  }

  /**
    A call's arguments as an attempt writes them out: the attempt that got the response as it came, any
    other as the journal gave it back.
   */
  function SpelledBy(canon: Spelling, live: bool, call: ToolCall): string
  {
    if live then call.arguments else canon.argument(call.arguments)
  }

  function Spellings(canon: Spelling, call: ToolCall): set<string>
  {
    {call.arguments, canon.argument(call.arguments)}
  }

  /** The call has no row, or one with the same arguments written the same way. */
  ghost predicate Agrees(calls: map<CallKey, CallRow>, key: CallKey, arguments: string)
  {
    key in calls ==> calls[key].arguments == arguments
  }

  /**
    A tool call row belongs to a call of a journaled response, and has a result exactly when it is
    done: what its attempt got back, in the database's spelling.
   */
  ghost predicate CallRowOk(canon: Spelling, steps: map<nat, StepRow>, key: CallKey, row: CallRow)
  {
    && key.step in steps
    && key.index < |steps[key.step].response.calls|
    && row.name == steps[key.step].response.calls[key.index].name
    && row.arguments in Spellings(canon, steps[key.step].response.calls[key.index])
    && (row.status == Done <==> row.result.Some?)
    && (row.result.Some? <==> row.origin.Some?)
    && (row.result.Some? ==> row.result.value == canon.result(row.origin.value.raw) && canon.result(row.result.value) == row.result.value)
  }

  ghost predicate CachedRowOk(k: nat, row: StepRow)
  {
    row.source != FromProvider ==> k == 0 && AnswerCache.Cacheable(row.response) && Cost(row.response) == 0
  }

  ghost predicate JournalOk(p: Profile, steps: map<nat, StepRow>)
  {
    Contiguous(steps) && Journal(p, Responses(steps))
  }

  ghost predicate CallsOk(canon: Spelling, steps: map<nat, StepRow>, calls: map<CallKey, CallRow>)
  {
    forall key :: key in calls ==> CallRowOk(canon, steps, key, calls[key])
  }

  ghost predicate SourcesOk(steps: map<nat, StepRow>)
  {
    forall k :: k in steps ==> CachedRowOk(k, steps[k])
  }

  /** When calls are priced, exactly the steps a provider answered have a ledger row. */
  ghost predicate LedgerOk(priced: Pricing, steps: map<nat, StepRow>, ledger: map<nat, nat>)
  {
    forall k :: k in ledger <==> priced.calls && k in steps && steps[k].source == FromProvider
  }

  /** The invariant of a run's tables. */
  ghost predicate WellFormed(p: Profile, canon: Spelling, priced: Pricing, t: Tables)
  {
    && JournalOk(p, t.steps)
    && CallsOk(canon, t.steps, t.calls)
    && SourcesOk(t.steps)
    && LedgerOk(priced, t.steps, t.ledger)
    && OriginsOk(t.calls, t.run.attempt)
    && SearchOk(priced, t.steps, t.search)
  }

  /** Looking for a similar question is charged only where it is priced, and before an answer found that way is used. */
  ghost predicate SearchOk(priced: Pricing, steps: map<nat, StepRow>, search: Option<nat>)
  {
    && (search.Some? ==> priced.searches)
    && (forall k :: k in steps && steps[k].source == FromSimilar && priced.searches ==> search.Some?)
  }

  /** No result comes from an attempt that has not started yet. */
  ghost predicate OriginsOk(calls: map<CallKey, CallRow>, attempt: nat)
  {
    forall key :: IsDone(calls, key) && calls[key].origin.Some? ==> calls[key].origin.value.attempt <= attempt
  }

  ghost predicate IsDone(calls: map<CallKey, CallRow>, key: CallKey)
  {
    key in calls && calls[key].status == Done
  }

  /** No call loses its row or gets other arguments. */
  ghost predicate KeepsCalls(a: map<CallKey, CallRow>, b: map<CallKey, CallRow>)
  {
    forall key :: key in a ==> key in b && b[key].arguments == a[key].arguments
  }

  /** The finished calls, and their rows, are the same, and every call keeps its arguments. */
  ghost predicate SameDone(a: map<CallKey, CallRow>, b: map<CallKey, CallRow>)
  {
    && KeepsCalls(a, b)
    && (forall key :: IsDone(a, key) ==> IsDone(b, key) && b[key] == a[key])
    && (forall key :: IsDone(b, key) ==> IsDone(a, key))
  }

  ghost predicate DoneWith(calls: map<CallKey, CallRow>, key: CallKey, result: string)
  {
    IsDone(calls, key) && calls[key].result == Some(result)
  }

  /** Attempt `me` ran this call and got its result stored. */
  ghost predicate ProducedBy(calls: map<CallKey, CallRow>, me: nat, key: CallKey)
  {
    IsDone(calls, key) && calls[key].origin.Some? && calls[key].origin.value.attempt == me
  }

  ghost predicate NothingProduced(calls: map<CallKey, CallRow>, me: nat)
  {
    forall key :: !ProducedBy(calls, me, key)
  }

  ghost predicate NoneProduced(me: nat, a: map<CallKey, CallRow>, b: map<CallKey, CallRow>)
  {
    forall key :: ProducedBy(b, me, key) ==> ProducedBy(a, me, key)
  }

  /** The text attempt `me` is shown for a finished call: what it got back itself, or what another attempt got stored. */
  function ShownTo(me: nat, row: CallRow): string
  {
    if row.origin.Some? && row.origin.value.attempt == me then row.origin.value.raw
    else if row.result.Some? then row.result.value
    else ""
  }

  /** Storing a stored result again would not change it. */
  lemma StoredIsCanonical(canon: Spelling, steps: map<nat, StepRow>, calls: map<CallKey, CallRow>, key: CallKey, result: string)
    requires CallsOk(canon, steps, calls) && DoneWith(calls, key, result)
    ensures canon.result(result) == result
  {
    assert CallRowOk(canon, steps, key, calls[key]);
  }

  lemma RowMatchesCall(canon: Spelling, steps: map<nat, StepRow>, calls: map<CallKey, CallRow>, key: CallKey)
    requires CallsOk(canon, steps, calls) && key in calls
    ensures CallRowOk(canon, steps, key, calls[key])
  {
  }

  ghost predicate InStatus(calls: map<CallKey, CallRow>, key: CallKey, status: CallStatus)
  {
    key in calls && calls[key].status == status
  }

  ghost predicate IsPending(approvals: map<CallKey, Approval>, key: CallKey)
  {
    key in approvals && approvals[key] == Pending
  }

  /** The call is neither finished nor closed. */
  ghost predicate InProgressOrReady(calls: map<CallKey, CallRow>, key: CallKey)
  {
    key in calls && calls[key].status !in {Done, CallFailed, Denied, CallCancelled}
  }

  /**
    Nothing durable is ever taken back: steps, calls with their arguments, results, evidence and charges
    persist, and attempts only count up.
   */
  ghost predicate Evolves(a: Tables, b: Tables)
  {
    && a.run.attempt <= b.run.attempt
    && (forall k :: k in a.steps ==> k in b.steps && b.steps[k] == a.steps[k])
    && (forall key :: IsDone(a.calls, key) ==> IsDone(b.calls, key) && b.calls[key] == a.calls[key])
    && (a.evidence.Some? ==> b.evidence == a.evidence)
    && (forall k :: k in a.ledger ==> k in b.ledger && b.ledger[k] == a.ledger[k])
    && KeepsCalls(a.calls, b.calls)
    && (a.search.Some? ==> b.search == a.search)
  }

  /**
    What attempt `me` may rely on while others act: nobody produces results under its number, and
    unless it has been superseded, nobody writes its journal, results, evidence or ledger.
   */
  ghost predicate Rely(me: nat, a: Tables, b: Tables)
  {
    && Evolves(a, b)
    && NoneProduced(me, a.calls, b.calls)
    && (b.run.attempt == me ==>
         && a.run.attempt == me
         && b.steps == a.steps
         && b.evidence == a.evidence
         && b.ledger == a.ledger
         && b.search == a.search
         && (forall key :: IsDone(b.calls, key) ==> IsDone(a.calls, key)))
  }

  lemma EvolvesReflexive(a: Tables)
    ensures Evolves(a, a)
  {
  }

  lemma EvolvesTransitive(a: Tables, b: Tables, c: Tables)
    requires Evolves(a, b) && Evolves(b, c)
    ensures Evolves(a, c)
  {
    assert forall key :: IsDone(a.calls, key) ==> IsDone(b.calls, key);
  }

  lemma NewlyDoneEvolves(a: Tables, b: Tables, key: CallKey)
    requires b == a.(calls := b.calls)
    requires forall k :: k != key ==> (k in a.calls <==> k in b.calls) && (k in a.calls ==> b.calls[k] == a.calls[k])
    requires IsDone(a.calls, key) ==> b.calls == a.calls
    requires KeepsCalls(a.calls, b.calls)
    ensures Evolves(a, b)
  {
  }

  lemma SameDoneEvolves(a: Tables, b: Tables)
    requires SameDone(a.calls, b.calls) && b == a.(calls := b.calls, approvals := b.approvals)
    ensures Evolves(a, b)
  {
  }

  lemma SameDoneNoneProduced(me: nat, a: map<CallKey, CallRow>, b: map<CallKey, CallRow>)
    requires SameDone(a, b)
    ensures NoneProduced(me, a, b)
  {
  }

  lemma RelyTransitive(me: nat, a: Tables, b: Tables, c: Tables)
    requires me <= a.run.attempt
    requires Rely(me, a, b) && Rely(me, b, c)
    ensures Rely(me, a, c)
  {
    EvolvesTransitive(a, b, c);
  }

  /** Journal entries keep their place: an earlier journal is a prefix of every later one. */
  lemma JournalIsPrefix(a: Tables, b: Tables)
    requires Evolves(a, b)
    requires Contiguous(a.steps) && Contiguous(b.steps)
    ensures Responses(a.steps) <= Responses(b.steps)
  {
    var n := |a.steps|;
    assert |b.steps| < n ==> |b.steps| in a.steps;
    assert forall k: nat :: k < n ==> k in a.steps && b.steps[k] == a.steps[k];
  }

  lemma AppendRow(steps: map<nat, StepRow>, row: StepRow)
    requires Contiguous(steps)
    ensures |steps| !in steps
    ensures Contiguous(steps[|steps| := row])
    ensures Responses(steps[|steps| := row]) == Responses(steps) + [row.response]
  {
    assert |steps[|steps| := row]| == |steps| + 1;
  }

  /** A journal grows by one response when every response before it asked for tools. */
  lemma AppendKeepsJournal(p: Profile, rs: seq<Response>, extra: Response)
    requires Journal(p, rs) && |rs| < p.maxSteps && Flaw(extra) == None
    requires forall k :: 0 <= k < |rs| ==> WantsTools(p, rs, k)
    ensures Journal(p, rs + [extra])
  {
    hide Flaw, WantsTools;
    forall k | 0 <= k < |rs| ensures WantsTools(p, rs + [extra], k)
    {
      WantsToolsPrefix(p, rs, rs + [extra], k);
    }
  }

  /** The tables after row `|t.steps|` is added, with its ledger row if it is charged. */
  ghost function WithStep(t: Tables, row: StepRow, cost: Option<nat>): Tables
  {
    t.(steps := t.steps[|t.steps| := row],
       ledger := if cost.Some? then t.ledger[|t.steps| := cost.value] else t.ledger)
  }

  lemma CallsSurviveAppend(canon: Spelling, steps: map<nat, StepRow>, calls: map<CallKey, CallRow>, n: nat, row: StepRow)
    requires n !in steps && CallsOk(canon, steps, calls)
    ensures CallsOk(canon, steps[n := row], calls)
  {
    forall key | key in calls ensures CallRowOk(canon, steps[n := row], key, calls[key])
    {
      assert CallRowOk(canon, steps, key, calls[key]);
    }
  }

  lemma LedgerSurvivesAppend(priced: Pricing, t: Tables, n: nat, row: StepRow, cost: Option<nat>)
    requires n !in t.steps && LedgerOk(priced, t.steps, t.ledger)
    requires cost.Some? <==> priced.calls && row.source == FromProvider
    ensures LedgerOk(priced, t.steps[n := row], if cost.Some? then t.ledger[n := cost.value] else t.ledger)
    ensures n !in t.ledger
  {
  }

  /**
    A new row, charged exactly when a provider answered it and calls are priced, keeps the invariant
    and takes nothing back.
   */
  lemma AppendKeepsWellFormed(p: Profile, canon: Spelling, priced: Pricing, t: Tables, row: StepRow, cost: Option<nat>)
    requires WellFormed(p, canon, priced, t)
    requires |t.steps| < p.maxSteps && Flaw(row.response) == None
    requires forall k :: 0 <= k < |t.steps| ==> WantsTools(p, Responses(t.steps), k)
    requires CachedRowOk(|t.steps|, row) && (row.source == FromSimilar && priced.searches ==> t.search.Some?)
    requires cost.Some? <==> priced.calls && row.source == FromProvider
    ensures WellFormed(p, canon, priced, WithStep(t, row, cost))
  {
    var n := |t.steps|;
    AppendRow(t.steps, row);
    AppendKeepsJournal(p, Responses(t.steps), row.response);
    CallsSurviveAppend(canon, t.steps, t.calls, n, row);
    LedgerSurvivesAppend(priced, t, n, row, cost);
    SourcesSurviveAppend(t.steps, n, row);
    hide Journal, WantsTools, Flaw, Contiguous, CallsOk, LedgerOk, CachedRowOk, SourcesOk, OriginsOk;
  }

  lemma SourcesSurviveAppend(steps: map<nat, StepRow>, n: nat, row: StepRow)
    requires SourcesOk(steps) && CachedRowOk(n, row)
    ensures SourcesOk(steps[n := row])
  {
  }

  lemma AppendEvolves(priced: Pricing, t: Tables, row: StepRow, cost: Option<nat>)
    requires Contiguous(t.steps) && LedgerOk(priced, t.steps, t.ledger)
    ensures Evolves(t, WithStep(t, row, cost))
  {
    AppendRow(t.steps, row);
  }

  /** What another attempt writes under its own number is no interference. */
  lemma OthersWritesAreRely(me: nat, other: nat, a: Tables, b: Tables)
    requires Evolves(a, b) && b.run.attempt == a.run.attempt
    requires a.run.attempt == other != me && NoneProduced(me, a.calls, b.calls)
    ensures Rely(me, a, b)
  {
  }

  lemma CallsKept(calls: map<CallKey, CallRow>)
    ensures KeepsCalls(calls, calls)
  {
  }

  lemma ProducedByOther(me: nat, other: nat, a: map<CallKey, CallRow>, b: map<CallKey, CallRow>, key: CallKey)
    requires other != me
    requires forall k :: k != key ==> (k in a <==> k in b) && (k in b ==> b[k] == a[k])
    requires b == a || (key in b && b[key].origin.Some? && b[key].origin.value.attempt == other)
    ensures NoneProduced(me, a, b)
  {
  }

  /** A write to the calls under another attempt's number, or none at all, is no interference. */
  lemma CallWriteIsRely(me: nat, other: nat, a: Tables, b: Tables)
    requires b == a.(calls := b.calls, approvals := b.approvals)
    requires Evolves(a, b) && NoneProduced(me, a.calls, b.calls) && other != me
    requires a.run.attempt == other || b.calls == a.calls
    ensures Rely(me, a, b)
  {
  }

  /** A journal whose last response ends the run admits no further row. */
  lemma FinalAnswerIsFinal(p: Profile, rs: seq<Response>, extra: Response)
    requires rs != [] && !WantsTools(p, rs, |rs| - 1)
    ensures !Journal(p, rs + [extra])
  {
    WantsToolsPrefix(p, rs, rs + [extra], |rs| - 1);
  }

  datatype Loaded = LoadFenced | Absent | Found(response: Response)

  datatype Written = WriteFenced | Conflict | Written

  datatype Evidence = EvidenceFenced | NoSnapshot | Unavailable | Snapshot(text: string)

  datatype Plan =
    | PlanFenced
    | KeyConflict
    | Replay(result: string)
    | Deny
    | AwaitApproval
    | Execute

  class Store {
    const profile: Profile
    const context: Context
    const canon: Spelling
    const cache: AnswerCache.Cache

    var now: int
    var run: RunRow
    var steps: map<nat, StepRow>
    var calls: map<CallKey, CallRow>
    var approvals: map<CallKey, Approval>
    var evidence: Option<string>
    var ledger: map<nat, nat>
    var search: Option<nat>

    function View(): Tables
      reads this
    {
      Tables(run, steps, calls, approvals, evidence, ledger, search)
    }

    ghost predicate Valid()
      reads this, cache
    {
      && profile.Valid()
      && Idempotent(canon)
      && cache.Valid()
      && WellFormed(profile, canon, context.priced, View())
    }

    constructor (profile: Profile, context: Context, canon: Spelling, cache: AnswerCache.Cache)
      requires profile.Valid() && cache.Valid()
      requires Idempotent(canon)
      ensures Valid() && this.profile == profile && this.context == context && this.canon == canon && this.cache == cache
      ensures View() == Tables(RunRow(Queued, 0, None, false), map[], map[], map[], None, map[], None)
    {
      this.profile, this.context, this.canon, this.cache := profile, context, canon, cache;
      now := 0;
      run := RunRow(Queued, 0, None, false);
      steps, calls, approvals, evidence, ledger, search := map[], map[], map[], None, map[], None;
    }

    // ------------------------------------------------------------- the fence

    /** The part of the fence that reads the run row. */
    predicate Executable(me: nat)
      reads this
    {
      && run.status == Running
      && run.lease.Some? && run.lease.value > now
      && !run.cancelRequested
      && run.attempt == me
    }

    /** The guard of every durable write; the receipt and membership checks may refuse too. */
    method Fence(me: nat) returns (ok: bool)
      ensures ok ==> Executable(me)
    {
      var receiptAndMembership: bool := *;
      ok := Executable(me) && receiptAndMembership;
    }

    // ------------------------------------------------------------ the journal

    method Load(me: nat, step: nat) returns (r: Loaded)
      requires Valid()
      ensures !r.LoadFenced? ==> Executable(me)
      ensures r.Absent? ==> step !in steps
      ensures r.Found? ==> step in steps && r.response == steps[step].response
    {
      var ok := Fence(me);
      if !ok { return LoadFenced; }
      r := if step in steps then Found(steps[step].response) else Absent;
    }

    /** The caller may add step `step`: everything before it is journaled and asked for tools. */
    ghost predicate MayAppend(step: nat, response: Response)
      reads this, cache
      requires Valid()
    {
      && step < profile.maxSteps
      && Flaw(response) == None
      && step <= |steps|
      && (forall k: nat :: k < step ==> WantsTools(profile, Responses(steps), k))
    }

    /** Adds a step row and, when calls are priced, its ledger row in the same transaction. */
    method Save(me: nat, step: nat, response: Response, cost: nat) returns (w: Written)
      requires Valid() && MayAppend(step, response)
      modifies this`steps, this`ledger
      ensures Valid()
      ensures w != WriteFenced ==> old(Executable(me))
      ensures w == Conflict ==> step in steps
      ensures if w == Written
              then && step == |old(steps)|
                   && View() == WithStep(old(View()), StepRow(response, FromProvider), if context.priced.calls then Some(cost) else None)
              else View() == old(View())
    {
      hide Flaw, WantsTools, Journal, CallsOk, LedgerOk, SourcesOk;
      var ok := Fence(me);
      if !ok { return WriteFenced; }
      if step in steps { return Conflict; }
      assert step == |steps|;
      hide Contiguous;
      var row := StepRow(response, FromProvider);
      AppendKeepsWellFormed(profile, canon, context.priced, View(), row, if context.priced.calls then Some(cost) else None);
      steps := steps[step := row];
      ledger := if context.priced.calls then ledger[step := cost] else ledger;
      w := Written;
    }

    /** Copies a cached answer into the journal as step 0; the step itself is charged nothing. */
    method Restore(me: nat, step: nat, answer: Response, source: Source) returns (w: Written)
      requires Valid() && step == 0 && source != FromProvider
      requires source == FromSimilar && context.priced.searches ==> search.Some?
      requires AnswerCache.Cacheable(answer) && Flaw(answer) == None && Cost(answer) == 0
      modifies this`steps
      ensures Valid()
      ensures w != WriteFenced ==> old(Executable(me))
      ensures w == Conflict ==> step in steps
      ensures if w == Written
              then |old(steps)| == 0 && View() == WithStep(old(View()), StepRow(answer, source), None)
              else View() == old(View())
    {
      hide Flaw, WantsTools, Journal, CallsOk, LedgerOk, SourcesOk;
      var ok := Fence(me);
      if !ok { return WriteFenced; }
      if step in steps { return Conflict; }
      assert |steps| == 0;
      var row := StepRow(answer, source);
      AppendKeepsWellFormed(profile, canon, context.priced, View(), row, None);
      steps := steps[step := row];
      w := Written;
    }

    /** Charges the embedding of the question, once for the run. */
    method ChargeSearch(me: nat, cost: nat) returns (ok: bool)
      requires Valid() && context.priced.searches
      modifies this`search
      ensures Valid()
      ensures ok ==> old(Executable(me)) && search == if old(search).Some? then old(search) else Some(cost)
      ensures !ok ==> search == old(search)
    {
      hide JournalOk, CallsOk, SourcesOk, LedgerOk, OriginsOk, Idempotent;
      ok := Fence(me);
      if ok && search.None? { search := Some(cost); }
    }

    // ----------------------------------------------------- retrieved evidence

    method LoadRetrieval(me: nat) returns (e: Evidence)
      ensures !e.EvidenceFenced? ==> Executable(me)
      ensures e.NoSnapshot? ==> evidence == None
      ensures e.Snapshot? ==> evidence == Some(e.text)
    {
      var ok := Fence(me);
      if !ok { return EvidenceFenced; }
      if evidence == None { return NoSnapshot; }
      var stillVisible: bool := *;
      e := if stillVisible then Snapshot(evidence.value) else Unavailable;
    }

    /** Keeps the first snapshot; a later one must say the same. */
    method SaveRetrieval(me: nat, text: string) returns (e: Evidence)
      requires Valid()
      modifies this`evidence
      ensures Valid() && !e.NoSnapshot?
      ensures e.EvidenceFenced? ==> evidence == old(evidence)
      ensures evidence != old(evidence) ==> old(evidence) == None && evidence == Some(text) && old(Executable(me))
      ensures e.Snapshot? ==> e.text == text && evidence == Some(text) && old(Executable(me))
    {
      var ok := Fence(me);
      if !ok { return EvidenceFenced; }
      var stillVisible: bool := *;
      if !stillVisible { return Unavailable; }
      if evidence == None { evidence := Some(text); }
      e := if evidence == Some(text) then Snapshot(text) else Unavailable;
    }

    // ------------------------------------------------------ governed tool calls

    ghost predicate CallExists(key: CallKey, name: string, arguments: string)
      reads this
    {
      && key.step in steps
      && key.index < |steps[key.step].response.calls|
      && name == steps[key.step].response.calls[key.index].name
      && arguments in Spellings(canon, steps[key.step].response.calls[key.index])
    }

    /** Writes the row of a call that is not done. */
    method PutCall(key: CallKey, row: CallRow)
      requires Valid() && CallRowOk(canon, steps, key, row)
      requires !IsDone(calls, key) && row.status != Done && Agrees(calls, key, row.arguments)
      modifies this`calls
      ensures Valid() && calls == old(calls)[key := row] && SameDone(old(calls), calls)
    {
      hide JournalOk, SourcesOk, LedgerOk;
      calls := calls[key := row];
    }

    /**
      Decides what to do with a call: replay a stored result, refuse, wait for approval, or execute. A
      row whose arguments are written otherwise is a conflict.
     */
    method PrepareCall(me: nat, key: CallKey, name: string, arguments: string) returns (plan: Plan)
      requires Valid() && CallExists(key, name, arguments)
      modifies this`calls, this`approvals
      ensures Valid()
      ensures plan.KeyConflict? ==> !Agrees(old(calls), key, arguments)
      ensures !plan.PlanFenced? && !plan.KeyConflict? ==> Agrees(old(calls), key, arguments)
      ensures plan.PlanFenced? || plan.KeyConflict? ==> View() == old(View())
      ensures !plan.PlanFenced? ==> old(Executable(me))
      ensures plan.Replay? ==> DoneWith(calls, key, plan.result)
      ensures plan.Execute? ==> InProgressOrReady(calls, key) && (key in old(calls) ==> !IsPending(approvals, key))
      ensures plan.AwaitApproval? ==> IsPending(approvals, key) && key in calls
      ensures plan.Deny? ==> key in calls && !IsDone(calls, key)
      ensures SameDone(old(calls), calls)
    {
      hide Contiguous, Journal, SourcesOk, LedgerOk, OriginsOk, CallsOk, Idempotent;
      var ok := Fence(me);
      if !ok { return PlanFenced; }
      var policy: Approval := *;            // Granted: allow, Pending: require approval, Closed: deny
      if key in calls {
        RowMatchesCall(canon, steps, calls, key);
        if calls[key].name != name || calls[key].arguments != arguments { return KeyConflict; }
        plan := ReconsiderCall(key, policy);
      } else {
        plan := OpenCall(key, name, arguments, policy);
      }
    }

    /** A call without a row gets one: denied, waiting for approval, or planned. */
    method OpenCall(key: CallKey, name: string, arguments: string, policy: Approval) returns (plan: Plan)
      requires Valid() && CallExists(key, name, arguments) && key !in calls
      modifies this`calls, this`approvals
      ensures Valid() && SameDone(old(calls), calls) && key in calls && !IsDone(calls, key)
      ensures plan == match policy case Closed => Deny case Pending => AwaitApproval case Granted => Execute
      ensures plan.Execute? ==> InProgressOrReady(calls, key)
      ensures plan.AwaitApproval? ==> IsPending(approvals, key)
    {
      hide Contiguous, Journal, SourcesOk, LedgerOk, OriginsOk, CallsOk, Idempotent;
      match policy {
        case Closed =>
          PutCall(key, CallRow(name, arguments, Denied, None, None));
          plan := Deny;
        case Pending =>
          PutCall(key, CallRow(name, arguments, PendingApproval, None, None));
          approvals := approvals[key := Pending];
          plan := AwaitApproval;
        case Granted =>
          PutCall(key, CallRow(name, arguments, Planned, None, None));
          plan := Execute;
      }
    }

    /**
      A call that has a row: replayed when finished, refused when closed or no longer allowed, else
      decided by its approval and today's policy.
     */
    method ReconsiderCall(key: CallKey, policy: Approval) returns (plan: Plan)
      requires Valid() && key in calls
      modifies this`calls, this`approvals
      ensures Valid()
      ensures !plan.PlanFenced? && !plan.KeyConflict? && key in calls
      ensures plan.Replay? ==> DoneWith(calls, key, plan.result)
      ensures plan.Execute? ==> InProgressOrReady(calls, key) && !IsPending(approvals, key)
      ensures plan.AwaitApproval? ==> IsPending(approvals, key)
      ensures plan.Deny? ==> !IsDone(calls, key)
      ensures SameDone(old(calls), calls)
    {
      hide JournalOk, SourcesOk, LedgerOk;
      var contractChanged: bool := *;
      var row := calls[key];
      assert CallRowOk(canon, steps, key, row);
      if row.status == Done { return Replay(row.result.value); }
      if contractChanged {
        if key in approvals && approvals[key] == Pending { approvals := approvals[key := Closed]; }
        if row.status in {Planned, PendingApproval, Approved, InProgress} {
          PutCall(key, row.(status := CallCancelled));
        }
        return Deny;
      }
      if row.status in {CallFailed, Denied, CallCancelled} { return Deny; }
      if key in approvals && approvals[key] == Pending { return AwaitApproval; }
      if policy == Closed {
        PutCall(key, row.(status := if row.status in {Approved, InProgress} then CallCancelled else Denied));
        return Deny;
      }
      if policy == Pending && !(key in approvals && approvals[key] == Granted) {
        if row.status != Planned { return Deny; }
        PutCall(key, row.(status := PendingApproval));
        approvals := approvals[key := Pending];
        return AwaitApproval;
      }
      plan := Execute;
    }

    method MarkRunning(me: nat, key: CallKey) returns (ok: bool)
      requires Valid()
      modifies this`calls
      ensures Valid()
      ensures !ok ==> calls == old(calls)
      ensures ok ==> old(Executable(me)) && InStatus(calls, key, InProgress)
      ensures SameDone(old(calls), calls)
    {
      hide JournalOk, SourcesOk, LedgerOk;
      ok := Fence(me);
      var policyAllows: bool := *;
      ok := ok && policyAllows && key in calls && calls[key].status in {Planned, Approved, InProgress};
      if ok {
        PutCall(key, calls[key].(status := InProgress));
      }
    }

    /** Stores a result, once, for a call that is still running under this attempt. */
    method CompleteCall(me: nat, key: CallKey, raw: string) returns (ok: bool)
      requires Valid()
      modifies this`calls
      ensures Valid()
      ensures !ok ==> calls == old(calls)
      ensures ok ==> old(Executable(me)) && DoneWith(calls, key, canon.result(raw)) && calls[key].origin == Some(Origin(me, raw))
      ensures forall k :: k != key ==> (k in calls <==> k in old(calls)) && (k in calls ==> calls[k] == old(calls[k]))
      ensures IsDone(old(calls), key) ==> !ok
      ensures KeepsCalls(old(calls), calls)
    {
      hide JournalOk, SourcesOk, LedgerOk;
      ok := Fence(me);
      ok := ok && key in calls && calls[key].status == InProgress;
      if ok {
        calls := calls[key := calls[key].(status := Done, result := Some(canon.result(raw)), origin := Some(Origin(me, raw)))];
      }
    }

    method FailCall(me: nat, key: CallKey, retryable: bool)
      requires Valid()
      modifies this`calls
      ensures Valid()
      ensures calls != old(calls) ==> old(Executable(me))
      ensures SameDone(old(calls), calls)
    {
      hide JournalOk, SourcesOk, LedgerOk;
      var ok := Fence(me);
      if ok && key in calls && calls[key].status == InProgress {
        var next := if !retryable then CallFailed
                    else if key in approvals && approvals[key] == Granted then Approved else Planned;
        PutCall(key, calls[key].(status := next));
      }
    }

    // --------------------------------------------------------- the run's own row

    /** Starts the next attempt of a queued run, or of a running one whose lease ran out. */
    method Claim(leaseSeconds: nat) returns (attempt: Option<nat>)
      requires Valid() && 3 <= leaseSeconds <= 300
      modifies this`run
      ensures Valid()
      ensures attempt.Some? ==> NothingProduced(calls, attempt.value)
      ensures attempt.Some? ==>
        && attempt.value == old(run.attempt) + 1
        && run.attempt == attempt.value && Executable(attempt.value)
        && (old(run.status) == Queued || (old(run.status) == Running && (old(run.lease).Some? ==> old(run.lease).value <= now)))
      ensures attempt.None? ==> run.attempt == old(run.attempt)
    {
      if run.status == Running {
        if run.lease.Some? && run.lease.value > now { return None; }
        run := run.(status := Queued, lease := None);
      }
      if run.status != Queued { return None; }
      if run.cancelRequested {
        run := run.(status := RunCancelled, lease := None);
        return None;
      }
      run := run.(status := Running, attempt := run.attempt + 1, lease := Some(now + leaseSeconds));
      attempt := Some(run.attempt);
    }

    /**
      Any other transaction on the run row: heartbeat, recovery, pause, resume, cancellation,
      completion, or time passing.
     */
    method UpdateRunRow()
      modifies this`run, this`now
      ensures run.attempt == old(run.attempt)
      ensures old(run.status) in {RunSucceeded, RunFailed, RunCancelled} ==> run.status == old(run.status)
    {
      var choice: nat := *;
      var seconds: nat := *;
      var live := run.status == Running && run.lease.Some? && run.lease.value > now;
      if choice == 0 {
        now := now + seconds;
      } else if choice == 1 && live {                                   // heartbeat
        run := run.(lease := Some(now + seconds));
      } else if choice == 2 && run.status == Running && !live {         // recovery of a stale run
        run := run.(status := Queued, lease := None);
      } else if choice == 3 && live {                                   // approval pause
        run := run.(status := WaitingForApproval, lease := None);
      } else if choice == 4 && run.status == WaitingForApproval {       // approval decided
        run := run.(status := Queued);
      } else if choice == 5 && live {
        run := run.(status := RunSucceeded, lease := None);
      } else if choice == 6 && live {                                   // failure, retried at most twice
        run := run.(status := if run.attempt < MAX_RUN_ATTEMPTS then Queued else RunFailed, lease := None);
      } else if choice == 7 && live {
        run := run.(status := RunFailed, lease := None);
      } else if choice == 8 && run.status == Running {
        run := run.(cancelRequested := true);
      } else if choice == 9 && run.status in {Queued, WaitingForApproval} {
        run := run.(status := RunCancelled, cancelRequested := true, lease := None);
      }
    }

    /** A person decides an approval, or a cancelled run closes its open calls. */
    method UpdateApproval(key: CallKey)
      requires Valid()
      modifies this`calls, this`approvals
      ensures Valid()
      ensures SameDone(old(calls), calls)
    {
      hide JournalOk, SourcesOk, LedgerOk;
      var approve: bool := *;
      if key in approvals && approvals[key] == Pending {
        approvals := approvals[key := if approve then Granted else Closed];
        if key in calls && calls[key].status == PendingApproval {
          PutCall(key, calls[key].(status := if approve then Approved else Denied));
        }
      } else if key in calls && calls[key].status in {Planned, Approved} && run.cancelRequested {
        PutCall(key, calls[key].(status := CallCancelled));
      }
    }

    // ------------------------------------------------------------- everyone else

    /** Runs of the same workspace save and hit answers in the shared cache. */
    method OtherRunsUseCache()
      requires Valid()
      modifies cache
      ensures Valid()
    {
      hide WellFormed, Flaw, Idempotent;
      var key: AnswerCache.Key := *;
      var response: Response := *;
      var ttl: int := *;
      var embedding: Option<AnswerCache.Embedding> := *;
      if AnswerCache.Cacheable(response) && Flaw(response) == None && ttl > 0 {
        cache.Save(now, key, response, ttl, embedding);
      }
    }

    /** One transaction of another attempt, fenced under that attempt's own number. */
    method OtherAttempt(other: nat, ghost me: nat)
      requires Valid() && other != me
      modifies this`steps, this`ledger, this`calls, this`approvals, this`evidence, this`search
      ensures Valid() && Rely(me, old(View()), View())
    {
      hide WellFormed, Idempotent, Flaw, AnswerCache.Cacheable, KeepsCalls, SameDone;
      var choice: nat := *;
      var response: Response := *;
      var cost: nat := *;
      var text: string := *;
      if choice == 0 {
        OtherSave(other, response, cost);
      } else if choice == 1 {
        OtherRestore(other, response, cost == 0);
      } else if choice == 2 {
        var _ := SaveRetrieval(other, text);
        assert KeepsCalls(calls, calls) by { CallsKept(calls); }
      } else if choice == 3 && context.priced.searches {
        var _ := ChargeSearch(other, cost);
        assert KeepsCalls(calls, calls) by { CallsKept(calls); }
      } else {
        OtherCallWrite(other, me);
      }
    }

    /** One transaction of another attempt on its calls. */
    method OtherCallWrite(other: nat, ghost me: nat)
      requires Valid() && other != me
      modifies this`calls, this`approvals
      ensures Valid() && Rely(me, old(View()), View())
    {
      hide WellFormed, Idempotent, Evolves, KeepsCalls, SameDone, NoneProduced;
      var choice: nat := *;
      var text: string := *;
      var key: CallKey := *;
      ghost var t := View();
      EvolvesReflexive(t);
      if choice == 0 {
        OtherPrepare(other, key);
      } else if choice == 1 {
        var _ := MarkRunning(other, key);
      } else if choice == 2 {
        var _ := CompleteCall(other, key, text);
        assert IsDone(t.calls, key) ==> calls == t.calls;
        NewlyDoneEvolves(t, View(), key);
        ProducedByOther(me, other, t.calls, calls, key);
        CallWriteIsRely(me, other, t, View());
        return;
      } else {
        FailCall(other, key, text == "");
      }
      SameDoneEvolves(t, View());
      SameDoneNoneProduced(me, t.calls, calls);
      CallWriteIsRely(me, other, t, View());
    }

    /**
      One transaction of anyone but attempt `me`. Attempt numbers are handed out once, so no other
      process writes under `me`.
     */
    method OtherTransaction(me: nat)
      requires Valid() && me <= run.attempt
      modifies this, cache
      ensures Valid() && Rely(me, old(View()), View())
    {
      hide JournalOk, CallRowOk, SourcesOk, LedgerOk;
      var choice: nat := *;
      var other: nat := *;
      var key: CallKey := *;
      if choice == 0 {
        var _ := Claim(30);
      } else if choice == 1 {
        UpdateRunRow();
      } else if choice == 2 {
        UpdateApproval(key);
      } else if choice == 3 {
        OtherRunsUseCache();
      } else if other != me {
        OtherAttempt(other, me);
      }
    }

    method OtherPrepare(other: nat, key: CallKey)
      requires Valid()
      modifies this`calls, this`approvals
      ensures Valid() && SameDone(old(calls), calls)
      ensures (calls == old(calls) && approvals == old(approvals)) || old(Executable(other))
    {
      if key.step in steps && key.index < |steps[key.step].response.calls| {
        var call := steps[key.step].response.calls[key.index];
        var live: bool := *;
        var _ := PrepareCall(other, key, call.name, SpelledBy(canon, live, call));
      }
    }

    method OtherRestore(other: nat, answer: Response, exact: bool)
      requires Valid()
      modifies this`steps
      ensures Valid() && Evolves(old(View()), View())
      ensures View() == old(View()) || old(Executable(other))
    {
      if AnswerCache.Cacheable(answer) && Flaw(answer) == None && Cost(answer) == 0 {
        var source := if exact || (context.priced.searches && search.None?) then FromCache else FromSimilar;
        var w := Restore(other, 0, answer, source);
        if w == Written { AppendEvolves(context.priced, old(View()), StepRow(answer, source), None); }
      }
    }

    /** Another attempt saves a step; like this one, it has first read the steps before it. */
    method OtherSave(other: nat, response: Response, cost: nat)
      requires Valid()
      modifies this`steps, this`ledger
      ensures Valid() && Evolves(old(View()), View())
      ensures View() == old(View()) || old(Executable(other))
    {
      hide SourcesOk, CallsOk, OriginsOk, Idempotent;
      var rs := Responses(steps);
      var step := |rs|;
      if step < profile.maxSteps && Flaw(response) == None
         && forall k :: 0 <= k < step ==> Assess(profile, rs[k], TokenSum(rs[..k])) == UseTools {
        var w := Save(other, step, response, cost);
        if w == Written {
          AppendEvolves(context.priced, old(View()), StepRow(response, FromProvider), if context.priced.calls then Some(cost) else None);
        }
      }
    }

    /** Any number of transactions of anyone but attempt `me`. */
    method Environment(me: nat)
      requires Valid() && me <= run.attempt
      modifies this, cache
      ensures Valid() && me <= run.attempt
      ensures Rely(me, old(View()), View())
    {
      var n: nat := *;
      while n > 0
        invariant Valid() && me <= run.attempt
        invariant Rely(me, old(View()), View())
      {
        ghost var before := View();
        OtherTransaction(me);
        RelyTransitive(me, old(View()), before, View());
        n := n - 1;
      }
    }
  }
}
