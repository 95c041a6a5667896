/**
  Keyset paging of runs and of a run's events, while rows are being added.
 */
module Paging {
  import opened Prelude

  type RunId = nat

  /** A run as the list sees it; only its status ever changes. */
  datatype Run = Run(createdAt: int, agent: nat, requester: nat, status: nat)

  type Table = map<RunId, Run>

  datatype Filter = Filter(status: Option<nat>, agent: Option<nat>, requester: Option<nat>)

  predicate Matches(f: Filter, r: Run)
  {
    && (f.status.Some? ==> r.status == f.status.value)
    && (f.agent.Some? ==> r.agent == f.agent.value)
    && (f.requester.Some? ==> r.requester == f.requester.value)
  }

  /** The order of the pages: newest first, the id decides between equal times. */
  predicate Later(t: Table, a: RunId, b: RunId)
    requires a in t && b in t
  {
    t[a].createdAt > t[b].createdAt || (t[a].createdAt == t[b].createdAt && a > b)
  }

  /** Rows the query may return: those of the filter strictly after the boundary. */
  function Candidates(t: Table, f: Filter, boundary: Option<RunId>): set<RunId>
    requires boundary.Some? ==> boundary.value in t
  {
    set id | id in t && Matches(f, t[id]) && (boundary.Some? ==> Later(t, boundary.value, id))
  }

  predicate Descending(t: Table, rows: seq<RunId>)
    requires forall i :: 0 <= i < |rows| ==> rows[i] in t
  {
    forall i, j :: 0 <= i < j < |rows| ==> Later(t, rows[i], rows[j])
  }

  /** The first `n` candidates in order. */
  ghost predicate IsTop(t: Table, candidates: set<RunId>, n: nat, rows: seq<RunId>)
    requires forall id :: id in candidates ==> id in t
  {
    && (forall i :: 0 <= i < |rows| ==> rows[i] in candidates)
    && Descending(t, rows)
    && |rows| <= n
    && (forall id :: id in candidates && id !in rows ==> |rows| == n && forall i :: 0 <= i < n ==> Later(t, rows[i], id))
  }

  /** `ORDER BY created_at DESC, id DESC LIMIT n`. */
  method SelectTop(t: Table, candidates: set<RunId>, n: nat) returns (rows: seq<RunId>)
    requires forall id :: id in candidates ==> id in t
    ensures IsTop(t, candidates, n, rows)
  {
    rows := [];
    var rest := candidates;
    while |rows| < n && rest != {}
      invariant |rows| <= n
      invariant forall i :: 0 <= i < |rows| ==> rows[i] in candidates
      invariant Descending(t, rows)
      invariant forall id :: id in candidates <==> id in rest || id in rows
      invariant forall i, id :: 0 <= i < |rows| && id in rest ==> Later(t, rows[i], id)
      decreases |rest|
    {
      var first := Newest(t, rest);
      rows := rows + [first];
      rest := rest - {first};
    }
  }

  method Newest(t: Table, ids: set<RunId>) returns (first: RunId)
    requires ids != {} && forall id :: id in ids ==> id in t
    ensures first in ids && forall id :: id in ids && id != first ==> Later(t, first, id)
  {
    first :| first in ids;
    var rest := ids - {first};
    while rest != {}
      invariant first in ids && rest <= ids - {first}
      invariant forall id :: id in ids && id !in rest && id != first ==> Later(t, first, id)
      decreases |rest|
    {
      var id :| id in rest;
      rest := rest - {id};
      if Later(t, id, first) {
        first := id;
      }
    }
  }

  datatype Page = Page(items: seq<RunId>, next: Option<RunId>)

  /** One page: the query asks for one row more than shown, which tells whether there is a next page. */
  ghost predicate IsPage(t: Table, f: Filter, limit: nat, cursor: Option<RunId>, page: Page)
  {
    && (cursor.Some? ==> cursor.value in t)
    && |page.items| <= limit
    && IsTop(t, Candidates(t, f, cursor), limit, page.items)
    && (page.next.Some? ==> |page.items| == limit > 0 && page.next.value == page.items[limit - 1])
    && (page.next.None? <==> forall id :: id in Candidates(t, f, cursor) ==> id in page.items)
  }

  lemma LastNotShown(t: Table, rows: seq<RunId>, limit: nat)
    requires |rows| == limit + 1 && (forall i :: 0 <= i < |rows| ==> rows[i] in t) && Descending(t, rows)
    ensures rows[limit] !in rows[..limit]
  {
    forall i | 0 <= i < limit ensures rows[i] != rows[limit]
    {
      assert Later(t, rows[i], rows[limit]);
    }
  }

  /** The list endpoint; an unknown cursor is refused. */
  method ListRuns(t: Table, f: Filter, limit: nat, cursor: Option<RunId>) returns (page: Option<Page>)
    requires limit >= 1
    ensures page.None? <==> cursor.Some? && cursor.value !in t
    ensures page.Some? ==> IsPage(t, f, limit, cursor, page.value)
  {
    if cursor.Some? && cursor.value !in t { return None; }
    var candidates := Candidates(t, f, cursor);
    var rows := SelectTop(t, candidates, limit + 1);
    if |rows| > limit {
      assert forall id :: id in candidates && id !in rows[..limit] ==> id == rows[limit] || id !in rows;
      LastNotShown(t, rows, limit);
      assert rows[limit] in candidates;
      return Some(Page(rows[..limit], Some(rows[limit - 1])));
    }
    return Some(Page(rows, None));
  }

  // ------------------------------------------------------------ a whole traversal

  /** Rows are only added, and keep everything but their status. */
  ghost predicate Grows(a: Table, b: Table)
  {
    forall id :: id in a ==> id in b && b[id] == a[id].(status := b[id].status)
  }

  function Cursor(pages: seq<Page>, i: nat): Option<RunId>
    requires i < |pages|
  {
    if i == 0 then None else pages[i - 1].next
  }

  /** Following the cursors from the first page to the last, each page read from a table that may have grown. */
  ghost predicate Traversal(tables: seq<Table>, pages: seq<Page>, f: Filter, limit: nat)
  {
    && |tables| == |pages| > 0
    && (forall i, j :: 0 <= i <= j < |tables| ==> Grows(tables[i], tables[j]))
    && (forall i :: 0 <= i < |pages| ==> IsPage(tables[i], f, limit, Cursor(pages, i), pages[i]))
    && (forall i :: 0 <= i < |pages| ==> (pages[i].next.None? <==> i == |pages| - 1))
  }

  lemma LaterTransitive(t: Table, a: RunId, b: RunId, c: RunId)
    requires a in t && b in t && c in t && Later(t, a, b) && Later(t, b, c)
    ensures Later(t, a, c)
  {
  }

  /** What comes after a cursor on a later page also comes after every row shown before. */
  lemma {:induction false} PagesDescend(tables: seq<Table>, pages: seq<Page>, f: Filter, limit: nat, i: nat, j: nat, a: nat, b: nat)
    requires Traversal(tables, pages, f, limit) && i < j < |pages|
    requires a < |pages[i].items| && b < |pages[j].items|
    ensures pages[i].items[a] in tables[j] && pages[j].items[b] in tables[j]
    ensures Later(tables[j], pages[i].items[a], pages[j].items[b])
    decreases j
  {
    hide Matches, Traversal, IsPage;
    PageShape(tables, pages, f, limit, i);
    var t := tables[j];
    PageShape(tables, pages, f, limit, j - 1);
    PageShape(tables, pages, f, limit, j);
    GrowsAt(tables, pages, f, limit, i, j, pages[i].items[a]);
    var cursor := pages[j - 1].next.value;
    GrowsAt(tables, pages, f, limit, j - 1, j, cursor);
    AfterCursor(tables, pages, f, limit, j, b);
    if i < j - 1 {
      PagesDescend(tables, pages, f, limit, i, j - 1, a, limit - 1);
      SameOrder(tables, pages, f, limit, j - 1, j, pages[i].items[a], cursor);
      LaterTransitive(t, pages[i].items[a], cursor, pages[j].items[b]);
    } else {
      if a < limit - 1 {
        ItemsDescend(tables, pages, f, limit, i, a, limit - 1);
        SameOrder(tables, pages, f, limit, i, j, pages[i].items[a], cursor);
        LaterTransitive(t, pages[i].items[a], cursor, pages[j].items[b]);
      }
    }
  }

  lemma PageShape(tables: seq<Table>, pages: seq<Page>, f: Filter, limit: nat, i: nat)
    requires Traversal(tables, pages, f, limit) && i < |pages|
    ensures |tables| == |pages|
    ensures forall k :: 0 <= k < |pages[i].items| ==> pages[i].items[k] in tables[i]
    ensures i < |pages| - 1 ==> pages[i].next.Some? && |pages[i].items| == limit > 0 && pages[i].next.value == pages[i].items[limit - 1]
  {
    hide Matches, Grows;
    assert IsPage(tables[i], f, limit, Cursor(pages, i), pages[i]);
  }

  lemma ItemsDescend(tables: seq<Table>, pages: seq<Page>, f: Filter, limit: nat, i: nat, a: nat, b: nat)
    requires Traversal(tables, pages, f, limit) && i < |pages| && a < b < |pages[i].items|
    ensures |tables| == |pages| && pages[i].items[a] in tables[i] && pages[i].items[b] in tables[i]
    ensures Later(tables[i], pages[i].items[a], pages[i].items[b])
  {
    hide Matches, Grows;
    assert IsPage(tables[i], f, limit, Cursor(pages, i), pages[i]);
  }

  lemma AfterCursor(tables: seq<Table>, pages: seq<Page>, f: Filter, limit: nat, j: nat, b: nat)
    requires Traversal(tables, pages, f, limit) && 0 < j < |pages| && b < |pages[j].items|
    ensures |tables| == |pages| && pages[j - 1].next.Some?
    ensures pages[j - 1].next.value in tables[j] && pages[j].items[b] in tables[j]
    ensures Later(tables[j], pages[j - 1].next.value, pages[j].items[b])
  {
    hide Matches, Grows;
    assert IsPage(tables[j], f, limit, Cursor(pages, j), pages[j]);
    assert pages[j].items[b] in Candidates(tables[j], f, pages[j - 1].next);
  }

  lemma GrowsAt(tables: seq<Table>, pages: seq<Page>, f: Filter, limit: nat, i: nat, j: nat, id: RunId)
    requires Traversal(tables, pages, f, limit) && i <= j < |pages|
    requires |tables| == |pages| ==> id in tables[i]
    ensures |tables| == |pages| && id in tables[j] && tables[j][id] == tables[i][id].(status := tables[j][id].status)
  {
    hide IsPage;
    assert Grows(tables[i], tables[j]);
  }

  lemma SameOrder(tables: seq<Table>, pages: seq<Page>, f: Filter, limit: nat, i: nat, j: nat, a: RunId, b: RunId)
    requires Traversal(tables, pages, f, limit) && i <= j < |pages|
    requires |tables| == |pages| ==> a in tables[i] && b in tables[i]
    ensures |tables| == |pages| && a in tables[j] && b in tables[j]
    ensures Later(tables[j], a, b) <==> Later(tables[i], a, b)
  {
    GrowsAt(tables, pages, f, limit, i, j, a);
    GrowsAt(tables, pages, f, limit, i, j, b);
  }

  /** No run is shown twice, whatever was inserted between the pages. */
  lemma NoRunTwice(tables: seq<Table>, pages: seq<Page>, f: Filter, limit: nat, i: nat, a: nat, j: nat, b: nat)
    requires Traversal(tables, pages, f, limit) && i < |pages| && j < |pages|
    requires a < |pages[i].items| && b < |pages[j].items|
    requires pages[i].items[a] == pages[j].items[b]
    ensures i == j && a == b
  {
    hide Traversal;
    if i < j { PagesDescend(tables, pages, f, limit, i, j, a, b); }
    else if j < i { PagesDescend(tables, pages, f, limit, j, i, b, a); }
    else if a < b { ItemsDescend(tables, pages, f, limit, i, a, b); }
    else if b < a { ItemsDescend(tables, pages, f, limit, i, b, a); }
  }

  ghost predicate Shown(pages: seq<Page>, n: nat, id: RunId)
    requires n <= |pages|
  {
    exists i, a :: 0 <= i < n && 0 <= a < |pages[i].items| && pages[i].items[a] == id
  }

  /** The row comes after the boundary, if there is one. */
  predicate After(t: Table, boundary: Option<RunId>, id: RunId)
    requires id in t
  {
    boundary.Some? && boundary.value in t && Later(t, boundary.value, id)
  }

  /**
    Page `i` is the run's turn: in the table that page is read from, the run lies after the page's cursor
    and not after the next one.
   */
  predicate InTurn(tables: seq<Table>, pages: seq<Page>, i: nat, id: RunId)
  {
    && i < |tables| == |pages| && id in tables[i]
    && (i > 0 ==> After(tables[i], pages[i - 1].next, id))
    && !After(tables[i], pages[i].next, id)
  }

  ghost predicate HasTurn(tables: seq<Table>, pages: seq<Page>, n: nat, id: RunId)
  {
    exists i :: 0 <= i < n && InTurn(tables, pages, i, id)
  }

  /** After page `n - 1`, a run that was there from the start has had its turn or is still ahead of the cursor. */
  lemma {:induction false} TurnOrAhead(tables: seq<Table>, pages: seq<Page>, f: Filter, limit: nat, n: nat, id: RunId)
    requires Traversal(tables, pages, f, limit) && 0 < n <= |pages|
    requires |tables| == |pages| && id in tables[0]
    ensures id in tables[n - 1]
    ensures HasTurn(tables, pages, n, id) || After(tables[n - 1], pages[n - 1].next, id)
  {
    hide Matches, Traversal;
    var k := n - 1;
    GrowsAt(tables, pages, f, limit, 0, k, id);
    if n > 1 {
      TurnOrAhead(tables, pages, f, limit, k, id);
      if HasTurn(tables, pages, k, id) { return; }
      SameOrder(tables, pages, f, limit, k - 1, k, pages[k - 1].next.value, id);
    }
    assert After(tables[k], pages[k].next, id) || InTurn(tables, pages, k, id);
  }

  /** A run has at most one turn, since each cursor lies after the one before. */
  lemma OneTurn(tables: seq<Table>, pages: seq<Page>, f: Filter, limit: nat, i: nat, j: nat, id: RunId)
    requires Traversal(tables, pages, f, limit)
    requires InTurn(tables, pages, i, id) && InTurn(tables, pages, j, id)
    ensures i >= j
  {
    hide Matches, Traversal;
    if i < j {
      PageShape(tables, pages, f, limit, i);
      PageShape(tables, pages, f, limit, j - 1);
      var (cursor, last) := (pages[i].next.value, pages[j - 1].next.value);
      SameOrder(tables, pages, f, limit, i, j, cursor, id);
      if i < j - 1 {
        PagesDescend(tables, pages, f, limit, i, j - 1, limit - 1, limit - 1);
        SameOrder(tables, pages, f, limit, j - 1, j, cursor, last);
        LaterTransitive(tables[j], cursor, last, id);
      }
      assert false;
    }
  }

  lemma OnThisPage(tables: seq<Table>, pages: seq<Page>, f: Filter, limit: nat, k: nat, id: RunId)
    requires Traversal(tables, pages, f, limit) && k < |pages| && |tables| == |pages|
    requires id in tables[k] && Matches(f, tables[k][id])
    requires k > 0 ==> pages[k - 1].next.Some? && pages[k - 1].next.value in tables[k] && Later(tables[k], pages[k - 1].next.value, id)
    ensures Shown(pages, k + 1, id)
       || (pages[k].next.Some? && pages[k].next.value in tables[k] && Later(tables[k], pages[k].next.value, id))
  {
    hide Matches, Grows;
    var cursor := Cursor(pages, k);
    assert IsPage(tables[k], f, limit, cursor, pages[k]);
    assert id in Candidates(tables[k], f, cursor);
    if id in pages[k].items {
      var a :| 0 <= a < |pages[k].items| && pages[k].items[a] == id;
      assert Shown(pages, k + 1, id);
    }
  }

  /** What a page shows, it shows in its turn and matching. */
  lemma ShownInTurn(tables: seq<Table>, pages: seq<Page>, f: Filter, limit: nat, i: nat, a: nat)
    requires Traversal(tables, pages, f, limit) && i < |pages| && a < |pages[i].items|
    ensures var id := pages[i].items[a]; InTurn(tables, pages, i, id) && Matches(f, tables[i][id])
  {
    hide Grows;
    var cursor := Cursor(pages, i);
    assert IsPage(tables[i], f, limit, cursor, pages[i]);
    assert pages[i].items[a] in Candidates(tables[i], f, cursor);
    if pages[i].next.Some? && a < limit - 1 {
      assert Later(tables[i], pages[i].items[a], pages[i].items[limit - 1]);
    }
  }

  /** Whether a run is shown is decided in its turn: it is exactly when it matches the filter then. */
  lemma ShownIffMatched(tables: seq<Table>, pages: seq<Page>, f: Filter, limit: nat, i: nat, id: RunId)
    requires Traversal(tables, pages, f, limit) && InTurn(tables, pages, i, id)
    ensures Shown(pages, |pages|, id) <==> Matches(f, tables[i][id])
  {
    hide Matches, Traversal;
    if Matches(f, tables[i][id]) {
      MatchedIsShown(tables, pages, f, limit, i, id);
    }
    if Shown(pages, |pages|, id) {
      var j, a :| 0 <= j < |pages| && 0 <= a < |pages[j].items| && pages[j].items[a] == id;
      ShownInTurn(tables, pages, f, limit, j, a);
      OneTurn(tables, pages, f, limit, i, j, id);
      OneTurn(tables, pages, f, limit, j, i, id);
    }
  }

  /**
    Which runs a traversal shows, whatever is inserted and whatever changes status between the pages:
    exactly those that match the filter in the table read in their turn. Every run of the first table
    has a turn, and no run has two.
   */
  lemma ShownExactlyInTurn(tables: seq<Table>, pages: seq<Page>, f: Filter, limit: nat, id: RunId)
    requires Traversal(tables, pages, f, limit) && |tables| == |pages|
    ensures Shown(pages, |pages|, id) <==> exists i: nat :: InTurn(tables, pages, i, id) && Matches(f, tables[i][id])
    ensures id in tables[0] ==> HasTurn(tables, pages, |pages|, id)
    ensures forall i: nat, j: nat :: InTurn(tables, pages, i, id) && InTurn(tables, pages, j, id) ==> i == j
  {
    hide Matches;
    LastHasNoNext(tables, pages, f, limit);
    hide Traversal;
    if id in tables[0] {
      TurnOrAhead(tables, pages, f, limit, |pages|, id);
    }
    if Shown(pages, |pages|, id) {
      var j, a :| 0 <= j < |pages| && 0 <= a < |pages[j].items| && pages[j].items[a] == id;
      ShownInTurn(tables, pages, f, limit, j, a);
    }
    forall i: nat | InTurn(tables, pages, i, id) ensures Shown(pages, |pages|, id) <==> Matches(f, tables[i][id])
    {
      ShownIffMatched(tables, pages, f, limit, i, id);
    }
    forall i: nat, j: nat | InTurn(tables, pages, i, id) && InTurn(tables, pages, j, id) ensures i == j
    {
      OneTurn(tables, pages, f, limit, i, j, id);
      OneTurn(tables, pages, f, limit, j, i, id);
    }
  }

  lemma LastHasNoNext(tables: seq<Table>, pages: seq<Page>, f: Filter, limit: nat)
    requires Traversal(tables, pages, f, limit)
    ensures |pages| > 0 && pages[|pages| - 1].next == None
  {
  }

  /** A run that matches in its turn is on that page. */
  lemma MatchedIsShown(tables: seq<Table>, pages: seq<Page>, f: Filter, limit: nat, i: nat, id: RunId)
    requires Traversal(tables, pages, f, limit) && InTurn(tables, pages, i, id) && Matches(f, tables[i][id])
    ensures Shown(pages, |pages|, id)
  {
    hide Matches, Grows;
    OnThisPage(tables, pages, f, limit, i, id);
  }

  ghost predicate ShownAt(pages: seq<Page>, i: int, a: int, id: RunId)
  {
    0 <= i < |pages| && 0 <= a < |pages[i].items| && pages[i].items[a] == id
  }

  /** A run that existed when the first page was read and matched the filter throughout is shown exactly once. */
  lemma ShownExactlyOnce(tables: seq<Table>, pages: seq<Page>, f: Filter, limit: nat, id: RunId)
    requires Traversal(tables, pages, f, limit) && |tables| == |pages| && id in tables[0]
    requires forall i :: 0 <= i < |tables| && id in tables[i] ==> Matches(f, tables[i][id])
    ensures exists i, a :: ShownAt(pages, i, a, id)
    ensures forall i, a, j, b :: ShownAt(pages, i, a, id) && ShownAt(pages, j, b, id) ==> i == j && a == b
  {
    hide Matches, Traversal;
    ShownExactlyInTurn(tables, pages, f, limit, id);
    var t :| 0 <= t < |pages| && InTurn(tables, pages, t, id);
    var i, a :| 0 <= i < |pages| && 0 <= a < |pages[i].items| && pages[i].items[a] == id;
    assert ShownAt(pages, i, a, id);
    forall i, a, j, b | ShownAt(pages, i, a, id) && ShownAt(pages, j, b, id) ensures i == j && a == b
    {
      NoRunTwice(tables, pages, f, limit, i, a, j, b);
    }
  }

  /** Without a status filter every run of the first table that matches is shown. */
  lemma EveryInitialRunIsShown(tables: seq<Table>, pages: seq<Page>, f: Filter, limit: nat, id: RunId)
    requires Traversal(tables, pages, f, limit) && |tables| == |pages| && id in tables[0]
    requires f.status == None && Matches(f, tables[0][id])
    ensures Shown(pages, |pages|, id)
  {
    ShownExactlyInTurn(tables, pages, f, limit, id);
    var i :| 0 <= i < |pages| && InTurn(tables, pages, i, id);
    GrowsAt(tables, pages, f, limit, 0, i, id);
  }

  /** With a status filter a run can slip through: it gets the status only after its turn. */
  lemma StatusFilterCanMiss(f: Filter, tables: seq<Table>, pages: seq<Page>)
    requires f == Filter(Some(1), None, None)
    requires tables == [map[7 := Run(3, 0, 0, 0), 6 := Run(2, 0, 0, 1), 5 := Run(1, 0, 0, 1)],
                        map[7 := Run(3, 0, 0, 1), 6 := Run(2, 0, 0, 1), 5 := Run(1, 0, 0, 1)]]
    requires pages == [Page([6], Some(6)), Page([5], None)]
    ensures Traversal(tables, pages, f, 1)
    ensures InTurn(tables, pages, 0, 7) && !Matches(f, tables[0][7]) && Matches(f, tables[1][7]) && !Shown(pages, 2, 7)
  {
    var (t, u) := (tables[0], tables[1]);
    assert Candidates(t, f, None) == {6, 5};
    assert Candidates(u, f, Some(6)) == {5};
    assert IsPage(t, f, 1, None, pages[0]) && IsPage(u, f, 1, Some(6), pages[1]);
    assert Grows(t, u) && Grows(t, t) && Grows(u, u);
    assert Cursor(pages, 0) == None && Cursor(pages, 1) == Some(6);
  }

  // ----------------------------------------------------------------- run events

  /** A run's events are numbered 1, 2, ... in the order they were appended. */
  class RunEvents {
    var numbers: seq<nat>

    ghost predicate Valid()
      reads this
    {
      forall i :: 0 <= i < |numbers| ==> numbers[i] == i + 1
    }

    constructor ()
      ensures Valid() && numbers == []
    {
      numbers := [];
    }

    /** The next number is one more than the largest; the caller holds the run's lock. */
    method Append() returns (number: nat)
      requires Valid()
      modifies this
      ensures Valid() && numbers == old(numbers) + [|old(numbers)| + 1] && number == |numbers|
    {
      var largest := 0;
      for i := 0 to |numbers|
        invariant largest == i
      {
        if numbers[i] > largest { largest := numbers[i]; }
      }
      number := largest + 1;
      numbers := numbers + [number];
    }

    /** Events after the cursor, in order, at most `limit`; the extra row asked for decides the next cursor. */
    method ListEvents(limit: nat, cursor: nat) returns (items: seq<nat>, next: Option<nat>)
      requires Valid() && limit >= 1
      ensures IsEventPage(|numbers|, limit, cursor, EventPage(items, next))
    {
      var rows: seq<nat> := [];
      for i := 0 to |numbers|
        invariant rows == Count(cursor, Min(limit + 1, Max(0, i - cursor)))
      {
        if numbers[i] > cursor && |rows| < limit + 1 { rows := rows + [numbers[i]]; }
      }
      if |rows| > limit {
        items, next := rows[..limit], Some(rows[limit - 1]);
      } else {
        items, next := rows, None;
      }
    }
  }

  /** `n` numbers after `from`. */
  function Count(from: nat, n: nat): (s: seq<nat>)
    ensures |s| == n && forall i :: 0 <= i < n ==> s[i] == from + i + 1
  {
    seq(n, i => from + i + 1)
  }

  lemma NoCount()
    ensures Count(0, 0) == []
  {
  }

  lemma CountAppend(n: nat, m: nat)
    ensures Count(0, n) + Count(n, m) == Count(0, n + m)
  {
  }

  datatype EventPage = EventPage(items: seq<nat>, next: Option<nat>)

  /** The listing of `total` events from a cursor: the numbers after it, and a next cursor when some are left. */
  predicate IsEventPage(total: nat, limit: nat, cursor: nat, page: EventPage)
  {
    && page.items == Count(cursor, Min(limit, Max(0, total - cursor)))
    && page.next == if total - cursor > limit then Some(cursor + limit) else None
  }

  function Join(pages: seq<EventPage>): seq<nat>
  {
    if pages == [] then [] else Join(pages[..|pages| - 1]) + pages[|pages| - 1].items
  }

  /** The cursor page `i` is asked with: none for the first, then what the page before gave. */
  function EventCursor(pages: seq<EventPage>, i: nat): nat
    requires i < |pages|
  {
    if i == 0 || pages[i - 1].next.None? then 0 else pages[i - 1].next.value
  }

  /** The pages read while `lengths[i]` events existed, each asked with the cursor the one before it gave. */
  ghost predicate EventTraversal(lengths: seq<nat>, pages: seq<EventPage>, limit: nat)
  {
    && |lengths| == |pages| > 0
    && (forall i :: 0 <= i < |pages| ==> IsEventPage(lengths[i], limit, EventCursor(pages, i), pages[i]))
    && (forall i :: 0 <= i < |pages| ==> (pages[i].next.Some? <==> i < |pages| - 1))
  }

  /** Every page but the last is full and followed by the number it ends with. */
  lemma FullPage(lengths: seq<nat>, pages: seq<EventPage>, limit: nat, i: nat)
    requires EventTraversal(lengths, pages, limit) && i < |pages| - 1
    ensures var cursor := EventCursor(pages, i);
      && pages[i].items == Count(cursor, limit) && cursor + limit < lengths[i]
      && EventCursor(pages, i + 1) == cursor + limit
  {
    hide Count;
    assert IsEventPage(lengths[i], limit, EventCursor(pages, i), pages[i]);
  }

  /** What was read before page `n` are the numbers up to that page's cursor. */
  lemma {:induction false} JoinedSoFar(lengths: seq<nat>, pages: seq<EventPage>, limit: nat, n: nat)
    requires EventTraversal(lengths, pages, limit) && n < |pages|
    ensures Join(pages[..n]) == Count(0, EventCursor(pages, n))
    ensures n > 0 ==> EventCursor(pages, n) < lengths[n - 1]
  {
    hide Count, EventTraversal;
    if n == 0 {
      NoCount();
    } else {
      JoinedSoFar(lengths, pages, limit, n - 1);
      assert pages[..n][..n - 1] == pages[..n - 1] && pages[..n][n - 1] == pages[n - 1];
      FullPage(lengths, pages, limit, n - 1);
      CountAppend(EventCursor(pages, n - 1), limit);
    }
  }

  /** All pages together are the numbers 1, 2, ... up to the last event there was when the last page was read. */
  lemma EventPagesAreContiguous(lengths: seq<nat>, pages: seq<EventPage>, limit: nat)
    requires EventTraversal(lengths, pages, limit)
    requires forall i, j :: 0 <= i <= j < |lengths| ==> lengths[i] <= lengths[j]
    ensures Join(pages) == Count(0, lengths[|lengths| - 1])
  {
    hide Count, EventTraversal;
    LastPage(lengths, pages, limit);
    var n := |pages| - 1;
    JoinedSoFar(lengths, pages, limit, n);
    var cursor := EventCursor(pages, n);
    assert n > 0 ==> lengths[n - 1] <= lengths[n];
    CountAppend(cursor, lengths[n] - cursor);
    assert pages[..n + 1] == pages && pages[..n + 1][..n] == pages[..n];
  }

  /** The last page holds everything after its cursor. */
  lemma LastPage(lengths: seq<nat>, pages: seq<EventPage>, limit: nat)
    requires EventTraversal(lengths, pages, limit)
    ensures |lengths| == |pages| > 0
    ensures var n := |pages| - 1; pages[n].items == Count(EventCursor(pages, n), Max(0, lengths[n] - EventCursor(pages, n)))
  {
    hide Count;
    var n := |pages| - 1;
    assert IsEventPage(lengths[n], limit, EventCursor(pages, n), pages[n]);
  }
}
