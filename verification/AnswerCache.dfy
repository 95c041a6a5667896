/**
  The workspace answer cache: a table keyed by everything that may change an
  answer. Its lookups are proved against the history of saves.
 */
module AnswerCache {
  import opened Prelude
  import opened ModelLoop

  /**
    Everything but the question that identifies an answer. The source hashes this record; the model
    keeps the record, so equal keys mean equal records.
   */
  datatype Scope = Scope(
    workspace: nat, agent: nat, kind: string, profile: string,
    provider: string, model: string, instructions: string, evidence: Option<string>)

  /** The exact key: a scope and the normalized question. */
  datatype Key = Key(scope: Scope, question: string)

  datatype Embedding = Embedding(model: string, dimensions: nat, vector: seq<real>)

  datatype Row = Row(
    provider: string, model: string, response: Response, expiresAt: int,
    scope: Option<Scope>, embedding: Option<Embedding>, hits: nat)

  /** One committed write to the cache. */
  datatype Entry = Entry(at: int, key: Key, response: Response, ttl: int, embedding: Option<Embedding>)

  predicate Cacheable(r: Response)
  {
    r.finish == "stop" && r.text.Some? && r.text.value != "" && r.calls == [] && !r.structured
  }

  /** A stored answer carries no usage, so serving it charges nothing. */
  function Uncharged(r: Response): Response
  {
    r.(inputTokens := 0, outputTokens := 0)
  }

  ghost predicate Storable(e: Entry)
  {
    Cacheable(e.response) && Flaw(e.response) == None && e.ttl > 0
  }

  /** The latest save under a key. */
  ghost function Latest(history: seq<Entry>, key: Key): Option<Entry>
  {
    if history == [] then None
    else if history[|history| - 1].key == key then Some(history[|history| - 1])
    else Latest(history[..|history| - 1], key)
  }

  /** What a lookup under `key` must answer at time `now`. */
  ghost function Remembered(history: seq<Entry>, key: Key, now: int): Option<Response>
  {
    var e := Latest(history, key);
    if e.Some? && now < e.value.at + e.value.ttl then Some(Uncharged(e.value.response)) else None
  }

  /** Live answers in a scope that carry a comparable embedding. */
  ghost predicate Comparable(history: seq<Entry>, key: Key, scope: Scope, model: string, dimensions: nat, now: int)
  {
    && key.scope == scope
    && Remembered(history, key, now).Some?
    && var e := Latest(history, key).value.embedding;
       e.Some? && e.value.model == model && e.value.dimensions == dimensions
  }

  /** A row holds the latest save under its key, without its usage. */
  ghost predicate Mirrors(key: Key, row: Row, e: Option<Entry>)
  {
    && e.Some?
    && Storable(e.value)
    && row.provider == key.scope.provider
    && row.model == key.scope.model
    && row.response == Uncharged(e.value.response)
    && row.expiresAt == e.value.at + e.value.ttl
    && row.embedding == e.value.embedding
    && row.scope == (if e.value.embedding.Some? then Some(key.scope) else None)
  }

  lemma SavedMirrors(key: Key, row: Row, e: Entry)
    requires Storable(e) && e.key == key
    requires row == Row(key.scope.provider, key.scope.model, Uncharged(e.response), e.at + e.ttl,
                        if e.embedding.Some? then Some(key.scope) else None, e.embedding, row.hits)
    ensures Mirrors(key, row, Some(e))
  {
  }

  lemma LatestAfter(history: seq<Entry>, e: Entry, key: Key)
    ensures Latest(history + [e], key) == if key == e.key then Some(e) else Latest(history, key)
  {
    assert (history + [e])[..|history|] == history;
  }

  /** How close the question of a remembered answer is to the query. */
  ghost function Closeness(history: seq<Entry>, key: Key, similarity: (seq<real>, seq<real>) -> real, query: seq<real>): real
  {
    var e := Latest(history, key);
    if e.Some? && e.value.embedding.Some? then similarity(e.value.embedding.value.vector, query) else 0.0
  }

  class Cache {
    var rows: map<Key, Row>
    ghost var history: seq<Entry>

    ghost predicate Valid()
      reads this
    {
      && (forall key :: key in rows ==> Mirrors(key, rows[key], Latest(history, key)))
      && (forall key :: key !in rows ==> Latest(history, key) == None)
    }

    constructor ()
      ensures Valid() && history == []
    {
      rows := map[];
      history := [];
    }

    /** Inserts the answer, or replaces the one under the same key; the hit count survives a replacement. */
    method Save(now: int, key: Key, response: Response, ttl: int, embedding: Option<Embedding>)
      requires Valid()
      requires Storable(Entry(now, key, response, ttl, embedding))
      modifies this
      ensures Valid()
      ensures history == old(history) + [Entry(now, key, response, ttl, embedding)]
      ensures rows.Keys == old(rows.Keys) + {key}
      ensures key in old(rows) ==> rows[key].hits == old(rows[key].hits)
    {
      hide Mirrors, Storable;
      ghost var entry := Entry(now, key, response, ttl, embedding);
      var hits := if key in rows then rows[key].hits else 0;
      var scope := if embedding.Some? then Some(key.scope) else None;
      rows := rows[key := Row(key.scope.provider, key.scope.model, Uncharged(response), now + ttl, scope, embedding, hits)];
      history := history + [Entry(now, key, response, ttl, embedding)];
      forall k ensures Latest(history, k) == if k == key then Some(entry) else Latest(old(history), k)
      {
        LatestAfter(old(history), entry, k);
      }
      SavedMirrors(key, rows[key], entry);
    }

    /** Looks up an exact key. The provider and model filters repeat what the key already fixes. */
    method Lookup(now: int, key: Key, provider: string, model: string) returns (found: Option<Response>)
      requires Valid()
      requires provider == key.scope.provider && model == key.scope.model
      ensures found == Remembered(history, key, now)
      ensures found.Some? ==> key in rows && Cacheable(found.value) && Flaw(found.value) == None && Cost(found.value) == 0
    {
      if key in rows && rows[key].provider == provider && rows[key].model == model && rows[key].expiresAt > now {
        found := Some(rows[key].response);
      } else {
        found := None;
      }
    }

    /** Counts a hit; nothing a later lookup can see changes. */
    method Touch(key: Key)
      requires Valid() && key in rows
      modifies this`rows
      ensures Valid()
      ensures rows == old(rows)[key := old(rows[key]).(hits := old(rows[key].hits) + 1)]
    {
      hide Storable, Latest;
      rows := rows[key := rows[key].(hits := rows[key].hits + 1)];
    }

    predicate Candidate(now: int, key: Key, scope: Scope, model: string, dimensions: nat)
      reads this
      requires key in rows
    {
      var row := rows[key];
      && row.scope == Some(scope)
      && row.provider == scope.provider && row.model == scope.model
      && row.embedding.Some? && row.embedding.value.model == model && row.embedding.value.dimensions == dimensions
      && row.expiresAt > now
    }

    /** The most similar live answer of the same scope, if it is similar enough. */
    method LookupSimilar(now: int, scope: Scope, model: string, dimensions: nat, query: seq<real>,
                         similarity: (seq<real>, seq<real>) -> real, threshold: real)
      returns (best: Option<Key>)
      requires Valid()
      ensures best.Some? ==>
        && best.value in rows
        && Comparable(history, best.value, scope, model, dimensions, now)
        && Closeness(history, best.value, similarity, query) >= threshold
        && (forall k :: Comparable(history, k, scope, model, dimensions, now) ==>
              Closeness(history, k, similarity, query) <= Closeness(history, best.value, similarity, query))
      ensures best.None? ==>
        forall k :: Comparable(history, k, scope, model, dimensions, now) ==>
          Closeness(history, k, similarity, query) < threshold
    {
      hide Mirrors, Latest, Closeness, Comparable;
      best := None;
      var left := rows.Keys;
      while left != {}
        invariant left <= rows.Keys
        invariant best.Some? ==> best.value in rows && Candidate(now, best.value, scope, model, dimensions)
        invariant forall k :: k in rows && k !in left && Candidate(now, k, scope, model, dimensions) ==>
                    best.Some? && similarity(rows[k].embedding.value.vector, query)
                                  <= similarity(rows[best.value].embedding.value.vector, query)
        decreases |left|
      {
        var k :| k in left;
        left := left - {k};
        if Candidate(now, k, scope, model, dimensions)
           && (best.None? || similarity(rows[k].embedding.value.vector, query)
                             > similarity(rows[best.value].embedding.value.vector, query)) {
          best := Some(k);
        }
      }
      CandidatesAreComparable(now, scope, model, dimensions, similarity, query);
      if best.Some? && similarity(rows[best.value].embedding.value.vector, query) < threshold {
        best := None;
      }
    }

    lemma CandidatesAreComparable(now: int, scope: Scope, model: string, dimensions: nat,
                                  similarity: (seq<real>, seq<real>) -> real, query: seq<real>)
      requires Valid()
      ensures forall k :: (Comparable(history, k, scope, model, dimensions, now)
                           <==> k in rows && Candidate(now, k, scope, model, dimensions))
      ensures forall k :: k in rows && Candidate(now, k, scope, model, dimensions) ==>
                Closeness(history, k, similarity, query) == similarity(rows[k].embedding.value.vector, query)
    {
      forall k
        ensures (Comparable(history, k, scope, model, dimensions, now)
                 <==> k in rows && Candidate(now, k, scope, model, dimensions))
        ensures k in rows && Candidate(now, k, scope, model, dimensions) ==>
                  Closeness(history, k, similarity, query) == similarity(rows[k].embedding.value.vector, query)
      {
        hide Latest, Storable;
        assert k in rows ==> Mirrors(k, rows[k], Latest(history, k));
      }
    }

    /** Reads the answer a similarity hit chose. */
    method Fetch(key: Key, ghost now: int) returns (response: Response)
      requires Valid() && key in rows && Remembered(history, key, now).Some?
      ensures Remembered(history, key, now) == Some(response)
      ensures Cacheable(response) && Flaw(response) == None && Cost(response) == 0
    {
      response := rows[key].response;
      assert Mirrors(key, rows[key], Latest(history, key));
    }
  }

  /**
    A saved answer is served from its save until the next save under its key or until its time to live
    has passed, and not a moment longer.
   */
  lemma {:induction false} ServedExactlyWhileFresh(history: seq<Entry>, i: nat, key: Key, now: int)
    requires i < |history| && history[i].key == key
    requires forall j :: i < j < |history| ==> history[j].key != key
    ensures Latest(history, key) == Some(history[i])
    ensures Remembered(history, key, now) == Some(Uncharged(history[i].response)) <==> now < history[i].at + history[i].ttl
    ensures Remembered(history, key, now) == None <==> history[i].at + history[i].ttl <= now
    decreases |history|
  {
    if i < |history| - 1 {
      ServedExactlyWhileFresh(history[..|history| - 1], i, key, now);
    }
  }

  /** Answers never cross scopes: a save under another key leaves every answer as it was. */
  lemma SavesDoNotInterfere(history: seq<Entry>, e: Entry, key: Key, now: int)
    requires e.key != key
    ensures Remembered(history + [e], key, now) == Remembered(history, key, now)
  {
    LatestAfter(history, e, key);
  }
}
