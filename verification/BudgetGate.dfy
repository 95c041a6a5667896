/**
  The workspace budget: a check before each paid call and an append-only ledger
  written when the call's result is stored. Between the two the call is in flight.
 */
module BudgetGate {
  import opened Prelude

  type CallId = nat

  /** A priced call in the ledger; `key` names the work it paid for. */
  datatype Charge = Charge(key: string, micros: nat)

  datatype Enforcement = Enforce | Monitor

  datatype Budget = Budget(limit: nat, enforcement: Enforcement)

  function Total(rows: seq<Charge>): nat
  {
    if rows == [] then 0 else Total(rows[..|rows| - 1]) + rows[|rows| - 1].micros
  }

  predicate Charged(rows: seq<Charge>, key: string)
  {
    exists i :: 0 <= i < |rows| && rows[i].key == key
  }

  /** May another paid call start? */
  predicate Permitted(budget: Option<Budget>, consumed: nat)
  {
    budget.None? || consumed < budget.value.limit || budget.value.enforcement == Monitor
  }

  /** A row is written once per key; a second write of the same work adds nothing. */
  function Recorded(rows: seq<Charge>, charge: Charge): seq<Charge>
  {
    if Charged(rows, charge.key) then rows else rows + [charge]
  }

  // ------------------------------------------------------- one workspace, one period

  datatype State = State(budget: Option<Budget>, rows: seq<Charge>, inFlight: set<CallId>)

  datatype Event =
    | Authorize(call: CallId)
    | Store(call: CallId, charge: Charge)   // the result and its charge commit together
    | Abandon(call: CallId)                 // crash, fence, invalid answer: nothing is charged

  predicate Enabled(s: State, e: Event)
  {
    match e
    case Authorize(c) => c !in s.inFlight && Permitted(s.budget, Total(s.rows))
    case Store(c, _) => c in s.inFlight
    case Abandon(c) => c in s.inFlight
  }

  function Next(s: State, e: Event): State
  {
    match e
    case Authorize(c) => s.(inFlight := s.inFlight + {c})
    case Store(c, charge) => s.(inFlight := s.inFlight - {c}, rows := Recorded(s.rows, charge))
    case Abandon(c) => s.(inFlight := s.inFlight - {c})
  }

  ghost predicate Run(states: seq<State>, events: seq<Event>)
  {
    && |states| == |events| + 1
    && forall i :: 0 <= i < |events| ==> Enabled(states[i], events[i]) && states[i + 1] == Next(states[i], events[i])
  }

  /** Calls cost at most `most`, and at most `k` are in flight at once. */
  ghost predicate Bounded(states: seq<State>, events: seq<Event>, k: nat, most: nat)
  {
    && (forall i :: 0 <= i < |states| ==> |states[i].inFlight| <= k)
    && (forall i :: 0 <= i < |events| && events[i].Store? ==> events[i].charge.micros <= most)
  }

  lemma TotalAppend(rows: seq<Charge>, charge: Charge)
    ensures Total(rows + [charge]) == Total(rows) + charge.micros
  {
    assert (rows + [charge])[..|rows|] == rows;
  }

  /** The most an enforced limit lets through with `k` calls in flight at once. */
  function Ceiling(limit: nat, k: nat, most: nat): nat
  {
    if limit == 0 then 0 else limit - 1 + k * most
  }

  /** What is spent plus the most that is still in flight stays under the ceiling. */
  ghost predicate WithinReach(s: State, limit: nat, k: nat, most: nat)
  {
    && Total(s.rows) + |s.inFlight| * most <= Ceiling(limit, k, most)
    && (limit == 0 ==> s.inFlight == {})
  }

  lemma {:induction false} TimesMonotone(a: nat, b: nat, m: nat)
    requires a <= b
    ensures a * m <= b * m && (a < b ==> a * m + m <= b * m)
    decreases b
  {
    if a < b {
      TimesMonotone(a, b - 1, m);
      assert b * m == (b - 1) * m + m;
    }
  }

  lemma ReachKept(s: State, e: Event, limit: nat, k: nat, most: nat)
    requires Enabled(s, e) && s.budget == Some(Budget(limit, Enforce))
    requires WithinReach(s, limit, k, most)
    requires |Next(s, e).inFlight| <= k && (e.Store? ==> e.charge.micros <= most)
    ensures WithinReach(Next(s, e), limit, k, most)
  {
    hide Total, Charged;
    var (n, after) := (|s.inFlight|, Next(s, e));
    match e
    case Authorize(c) =>
      TimesMonotone(n + 1, k, most);
      assert |after.inFlight| == n + 1;
    case Store(c, charge) =>
      TotalAppend(s.rows, charge);
      assert |after.inFlight| == n - 1;
      TimesMonotone(n - 1, n, most);
    case Abandon(c) =>
      assert |after.inFlight| == n - 1;
      TimesMonotone(n - 1, n, most);
  }

  /** An enforced budget is overshot by at most the calls in flight, in every interleaving. */
  lemma {:induction false} BudgetHolds(states: seq<State>, events: seq<Event>, limit: nat, k: nat, most: nat, i: nat)
    requires Run(states, events) && Bounded(states, events, k, most) && i < |states|
    requires states[0] == State(Some(Budget(limit, Enforce)), [], {})
    ensures states[i].budget == Some(Budget(limit, Enforce))
    ensures WithinReach(states[i], limit, k, most)
    ensures Total(states[i].rows) <= Ceiling(limit, k, most)
  {
    hide Total, Charged, Ceiling;
    if i == 0 {
      NothingSpent(limit, k, most);
    } else {
      BudgetHolds(states, events, limit, k, most, i - 1);
      assert Enabled(states[i - 1], events[i - 1]) && states[i] == Next(states[i - 1], events[i - 1]);
      ReachKept(states[i - 1], events[i - 1], limit, k, most);
    }
    TimesMonotone(0, |states[i].inFlight|, most);
  }

  lemma NothingSpent(limit: nat, k: nat, most: nat)
    ensures WithinReach(State(Some(Budget(limit, Enforce)), [], {}), limit, k, most)
  {
    TimesMonotone(0, k, most);
  }

  /** Spending only grows, so a budget once exhausted starts no further call in its period. */
  lemma {:induction false} ExhaustedStaysExhausted(states: seq<State>, events: seq<Event>, i: nat, j: nat)
    requires Run(states, events) && i <= j < |states|
    ensures states[j].budget == states[i].budget && Total(states[i].rows) <= Total(states[j].rows)
    ensures !Permitted(states[i].budget, Total(states[i].rows)) && j < |events| ==> !events[j].Authorize?
    decreases j - i
  {
    if i < j {
      ExhaustedStaysExhausted(states, events, i, j - 1);
      if events[j - 1].Store? { TotalAppend(states[j - 1].rows, events[j - 1].charge); }
    }
  }

  /** No work is charged twice. */
  lemma {:induction false} ChargedOnce(states: seq<State>, events: seq<Event>, i: nat, a: nat, b: nat)
    requires Run(states, events) && i < |states| && states[0].rows == []
    requires a < b < |states[i].rows|
    ensures states[i].rows[a].key != states[i].rows[b].key
  {
    if i > 0 {
      var before := states[i - 1].rows;
      if b < |before| {
        ChargedOnce(states, events, i - 1, a, b);
      } else {
        assert !Charged(before, events[i - 1].charge.key);
        assert before[a].key != events[i - 1].charge.key;
      }
    }
  }

  // ------------------------------------------------------------ the bound is met

  lemma RunGoesOn(states: seq<State>, events: seq<Event>, e: Event)
    requires Run(states, events) && Enabled(states[|events|], e)
    ensures Run(states + [Next(states[|events|], e)], events + [e])
  {
    hide Enabled, Next;
    var (s, es) := (states + [Next(states[|events|], e)], events + [e]);
    forall i | 0 <= i < |es| ensures Enabled(s[i], es[i]) && s[i + 1] == Next(s[i], es[i])
    {
      if i < |events| {
        assert s[i] == states[i] && s[i + 1] == states[i + 1] && es[i] == events[i];
      }
    }
  }

  function Name(n: nat): string { seq(n, _ => 'x') }

  ghost predicate Fresh(rows: seq<Charge>, n: nat)
  {
    forall i :: 0 <= i < |rows| ==> |rows[i].key| < n
  }

  /** Small calls one after another use up all but the last micro of the budget. */
  lemma {:induction false} SpendAlmostAll(limit: nat, spent: nat) returns (states: seq<State>, events: seq<Event>)
    requires limit >= 1 && spent <= limit - 1
    ensures Run(states, events) && Bounded(states, events, 1, 1)
    ensures states[0] == State(Some(Budget(limit, Enforce)), [], {})
    ensures var last := states[|events|];
      last.budget == Some(Budget(limit, Enforce)) && last.inFlight == {} && Total(last.rows) == spent && Fresh(last.rows, spent)
  {
    if spent == 0 {
      states, events := [State(Some(Budget(limit, Enforce)), [], {})], [];
    } else {
      states, events := SpendAlmostAll(limit, spent - 1);
      states, events := Buy(states, events, 0, Charge(Name(spent - 1), 1), 1, 1);
    }
  }

  /** One more call, authorized and stored. */
  lemma Buy(states: seq<State>, events: seq<Event>, call: CallId, charge: Charge, k: nat, most: nat)
    returns (longer: seq<State>, more: seq<Event>)
    requires Run(states, events) && Bounded(states, events, k, most)
    requires var last := states[|events|];
      last.inFlight == {} && Permitted(last.budget, Total(last.rows)) && Fresh(last.rows, |charge.key|)
    requires k >= 1 && charge.micros <= most
    ensures Run(longer, more) && Bounded(longer, more, k, most)
    ensures longer[0] == states[0]
    ensures longer[|more|] == states[|events|].(rows := states[|events|].rows + [charge])
  {
    var last := states[|events|];
    var a := Next(last, Authorize(call));
    RunGoesOn(states, events, Authorize(call));
    RunGoesOn(states + [a], events + [Authorize(call)], Store(call, charge));
    longer := states + [a] + [Next(a, Store(call, charge))];
    more := events + [Authorize(call)] + [Store(call, charge)];
    assert a.inFlight == {call};
    assert !Charged(last.rows, charge.key);
    assert a.inFlight - {call} == {};
  }

  /** `n` calls get their permission while one micro of the budget is left. */
  lemma {:induction false} AuthorizeMany(states: seq<State>, events: seq<Event>, n: nat, k: nat, most: nat)
    returns (longer: seq<State>, more: seq<Event>)
    requires Run(states, events) && Bounded(states, events, k, most) && n <= k
    requires states[|events|].inFlight == {} && Permitted(states[|events|].budget, Total(states[|events|].rows))
    ensures Run(longer, more) && Bounded(longer, more, k, most) && longer[0] == states[0]
    ensures longer[|more|] == states[|events|].(inFlight := longer[|more|].inFlight)
    ensures |longer[|more|].inFlight| == n && forall c :: c in longer[|more|].inFlight <==> 0 <= c < n
  {
    if n == 0 {
      longer, more := states, events;
    } else {
      longer, more := AuthorizeMany(states, events, n - 1, k, most);
      var last := longer[|more|];
      RunGoesOn(longer, more, Authorize(n - 1));
      longer, more := longer + [Next(last, Authorize(n - 1))], more + [Authorize(n - 1)];
    }
  }

  /** Calls in flight all store their charge, however much was spent meanwhile. */
  lemma {:induction false} StoreMany(states: seq<State>, events: seq<Event>, n: nat, k: nat, most: nat, name: nat)
    returns (longer: seq<State>, more: seq<Event>)
    requires Run(states, events) && Bounded(states, events, k, most)
    requires var last := states[|events|];
      Fresh(last.rows, name) && |last.inFlight| == n && forall c :: c in last.inFlight <==> 0 <= c < n
    ensures Run(longer, more) && Bounded(longer, more, k, most) && longer[0] == states[0]
    ensures Total(longer[|more|].rows) == Total(states[|events|].rows) + n * most
    decreases n
  {
    if n == 0 {
      longer, more := states, events;
    } else {
      hide Fresh, Run, Bounded, Total;
      longer, more := StoreOne(states, events, n, k, most, name);
      longer, more := StoreMany(longer, more, n - 1, k, most, name + 1);
      assert n * most == (n - 1) * most + most;
    }
  }

  lemma StoreOne(states: seq<State>, events: seq<Event>, n: nat, k: nat, most: nat, name: nat)
    returns (longer: seq<State>, more: seq<Event>)
    requires n > 0 && Run(states, events) && Bounded(states, events, k, most)
    requires var last := states[|events|];
      Fresh(last.rows, name) && |last.inFlight| == n && forall c :: c in last.inFlight <==> 0 <= c < n
    ensures Run(longer, more) && Bounded(longer, more, k, most) && longer[0] == states[0]
    ensures var last := longer[|more|];
      Fresh(last.rows, name + 1) && |last.inFlight| == n - 1 && forall c :: c in last.inFlight <==> 0 <= c < n - 1
    ensures Total(longer[|more|].rows) == Total(states[|events|].rows) + most
  {
    hide Total;
    var last := states[|events|];
    var charge := Charge(Name(name), most);
    var e := Store(n - 1, charge);
    assert !Charged(last.rows, charge.key);
    RunGoesOn(states, events, e);
    TotalAppend(last.rows, charge);
    longer, more := states + [Next(last, e)], events + [e];
  }

  /** The ceiling is exact: for every limit, number of calls and price some run reaches it. */
  lemma CeilingIsReached(limit: nat, k: nat, most: nat) returns (states: seq<State>, events: seq<Event>)
    requires limit >= 1 && k >= 1 && most >= 1
    ensures Run(states, events) && Bounded(states, events, k, most)
    ensures states[0] == State(Some(Budget(limit, Enforce)), [], {})
    ensures Total(states[|events|].rows) == Ceiling(limit, k, most)
  {
    var s1, e1 := SpendAlmostAll(limit, limit - 1);
    var s2, e2 := AuthorizeMany(s1, e1, k, k, most);
    states, events := StoreMany(s2, e2, k, k, most, limit);
  }

  // --------------------------------------------------------- the store's methods

  /** The ledger table of one workspace in one period. */
  class SpendLedger {
    const budget: Option<Budget>
    var rows: seq<Charge>

    constructor (budget: Option<Budget>)
      ensures this.budget == budget && rows == []
    {
      this.budget, rows := budget, [];
    }

    /** The budget decision, over the rows committed so far. */
    method Authorize() returns (allowed: bool, consumed: nat)
      ensures consumed == Total(rows)
      ensures allowed <==> Permitted(budget, Total(rows))
    {
      consumed := 0;
      for i := 0 to |rows|
        invariant consumed == Total(rows[..i])
      {
        consumed := consumed + rows[i].micros;
        assert rows[..i + 1][..i] == rows[..i];
      }
      assert rows[..|rows|] == rows;
      if budget.None? { return true, consumed; }
      if consumed < budget.value.limit { return true, consumed; }
      allowed := budget.value.enforcement == Monitor;
    }

    /** Appends a charge unless its work has one already. */
    method Record(charge: Charge) returns (inserted: bool)
      modifies this`rows
      ensures rows == Recorded(old(rows), charge)
      ensures inserted <==> !Charged(old(rows), charge.key)
    {
      for i := 0 to |rows|
        invariant rows == old(rows) && forall j :: 0 <= j < i ==> rows[j].key != charge.key
      {
        if rows[i].key == charge.key { return false; }
      }
      rows := rows + [charge];
      inserted := true;
    }
  }
}
