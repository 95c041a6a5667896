/**
  Schema migrations: the check a change must pass, the runner that applies a
  release to a database, and what the two guarantee each other.
 */
module Migrations {
  import opened Prelude

  /** A migration file; `text` is its content as bytes-for-bytes text. */
  datatype File = File(name: string, text: string)

  /** A directory listing: file names strictly ascending. */
  type Release = seq<File>

  // ------------------------------------------------------------ names in order

  /** Python's order of strings. */
  predicate Less(a: string, b: string)
  {
    if b == "" then false
    else if a == "" then true
    else a[0] < b[0] || (a[0] == b[0] && Less(a[1..], b[1..]))
  }

  lemma {:induction false} LessTotal(a: string, b: string)
    ensures Less(a, b) || a == b || Less(b, a)
    ensures !(Less(a, b) && Less(b, a)) && !Less(a, a)
  {
    if a != "" && b != "" {
      LessTotal(a[1..], b[1..]);
      LessTotal(a[1..], a[1..]);
      assert a == [a[0]] + a[1..] && b == [b[0]] + b[1..];
    } else if a != "" {
      LessTotal(a[1..], a[1..]);
    }
  }

  lemma {:induction false} LessTransitive(a: string, b: string, c: string)
    requires Less(a, b) && Less(b, c)
    ensures Less(a, c)
  {
    if a != "" && a[0] == b[0] && b[0] == c[0] {
      LessTransitive(a[1..], b[1..], c[1..]);
    }
  }

  ghost predicate Ascending(r: Release)
  {
    forall i, j :: 0 <= i < j < |r| ==> Less(r[i].name, r[j].name)
  }

  predicate Has(r: Release, name: string)
  {
    exists i :: 0 <= i < |r| && r[i].name == name
  }

  // ------------------------------------------------------------------ the check

  /** `NNN_lower_snake_case.sql`. */
  predicate WellNamed(name: string)
  {
    && |name| >= 9
    && Digit(name[0]) && Digit(name[1]) && Digit(name[2]) && name[3] == '_'
    && name[|name| - 4..] == ".sql"
    && forall i :: 4 <= i < |name| - 4 ==> 'a' <= name[i] <= 'z' || Digit(name[i]) || name[i] == '_'
  }

  predicate Digit(c: char) { '0' <= c <= '9' }

  /**
    What the check accepts: every released file is still there unchanged, and every number is used
    once by a well-named file.
   */
  ghost predicate AppendOnly(base: Release, head: Release)
  {
    && (forall i :: 0 <= i < |base| ==> base[i] in head)
    && (forall i :: 0 <= i < |head| ==> WellNamed(head[i].name))
    && (forall i, j :: 0 <= i < j < |head| ==> head[i].name[..3] != head[j].name[..3])
  }

  /** The check itself; the source reports every problem, the answer here is whether there is none. */
  method NoViolations(base: Release, head: Release) returns (ok: bool)
    requires Ascending(base) && Ascending(head)
    ensures ok <==> AppendOnly(base, head)
  {
    hide WellNamed;
    var kept := Kept(base, head);
    ok := kept;
    for i := 0 to |head|
      invariant ok <==> kept && forall k :: 0 <= k < i ==> WellNamed(head[k].name)
    {
      if !WellNamed(head[i].name) { ok := false; }
    }
    if ok {
      assert forall k :: 0 <= k < |head| ==> |head[k].name| >= 9 by { WellNamedLength(head); }
      ok := NumbersDistinct(head);
    }
  }

  lemma WellNamedLength(head: Release)
    ensures forall k :: 0 <= k < |head| && WellNamed(head[k].name) ==> |head[k].name| >= 9
  {
  }

  /** Every released file is still there with the same text. */
  method Kept(base: Release, head: Release) returns (ok: bool)
    ensures ok <==> forall i :: 0 <= i < |base| ==> base[i] in head
  {
    ok := true;
    for i := 0 to |base|
      invariant ok <==> forall k :: 0 <= k < i ==> base[k] in head
    {
      var found := false;
      for j := 0 to |head|
        invariant found <==> base[i] in head[..j]
      {
        if head[j].name == base[i].name && head[j].text == base[i].text { found := true; }
        assert head[..j + 1] == head[..j] + [head[j]];
      }
      assert head[..|head|] == head;
      if !found { ok := false; }
    }
  }

  /** No number is used twice. */
  method NumbersDistinct(head: Release) returns (ok: bool)
    requires forall k :: 0 <= k < |head| ==> |head[k].name| >= 9
    ensures ok <==> forall i, j :: 0 <= i < j < |head| ==> head[i].name[..3] != head[j].name[..3]
  {
    ok := true;
    for i := 0 to |head|
      invariant ok <==> forall k, m :: 0 <= k < m < i ==> head[k].name[..3] != head[m].name[..3]
    {
      for j := 0 to i
        invariant ok <==> (forall k, m :: 0 <= k < m < i ==> head[k].name[..3] != head[m].name[..3])
                          && forall k :: 0 <= k < j ==> head[k].name[..3] != head[i].name[..3]
      {
        if head[j].name[..3] == head[i].name[..3] { ok := false; }
      }
    }
  }

  /** Checks along a chain of releases add up: what passed against each predecessor passes against every earlier one. */
  lemma AppendOnlyTransitive(a: Release, b: Release, c: Release)
    requires AppendOnly(a, b) && AppendOnly(b, c)
    ensures AppendOnly(a, c)
  {
    forall i | 0 <= i < |a| ensures a[i] in c
    {
      var j :| 0 <= j < |b| && b[j] == a[i];
    }
  }

  // ----------------------------------------------------------------- the runner

  /** Reading a file as text turns every kind of line end into a newline. */
  function ReadText(s: string): string { CrToLf(CrLfToLf(s)) }

  /** What a database has applied, in the order it did; the recorded checksum stands for the text it was taken of. */
  type History = seq<File>

  predicate Recorded(db: History, name: string)
  {
    exists i :: 0 <= i < |db| && db[i].name == name
  }

  function Applied(f: File): File { File(f.name, ReadText(f.text)) }

  /** Some migration of the release was applied with another text. */
  predicate Differs(db: History, r: Release)
  {
    exists i, j :: 0 <= i < |db| && 0 <= j < |r| && db[i].name == r[j].name && db[i].text != ReadText(r[j].text)
  }

  /** The migrations of the release that the database has not applied, in listing order. */
  function Missing(db: History, r: Release): seq<File>
  {
    if r == [] then []
    else Missing(db, r[..|r| - 1]) + if Recorded(db, r[|r| - 1].name) then [] else [Applied(r[|r| - 1])]
  }

  /** Looks up what was recorded under a name. */
  method Lookup(db: History, f: File) returns (found: bool, changed: bool)
    ensures found <==> Recorded(db, f.name)
    ensures changed <==> exists i :: 0 <= i < |db| && db[i].name == f.name && db[i].text != f.text
  {
    found, changed := false, false;
    for i := 0 to |db|
      invariant found <==> exists k :: 0 <= k < i && db[k].name == f.name
      invariant changed <==> exists k :: 0 <= k < i && db[k].name == f.name && db[k].text != f.text
    {
      if db[i].name == f.name {
        found := true;
        if db[i].text != f.text { changed := true; }
      }
    }
  }

  /** Applies a release in one transaction: refused as a whole if an applied migration changed. */
  method Migrate(db: History, r: Release) returns (after: Option<History>)
    requires Ascending(r)
    ensures after.None? <==> Differs(db, r)
    ensures after.Some? ==> after.value == db + Missing(db, r)
  {
    hide ReadText, Ascending;
    var now := db;
    for j := 0 to |r|
      invariant now == db + Missing(db, r[..j])
      invariant !Differs(db, r[..j])
    {
      MissingStep(db, r, j);
      SameLookup(db, r, j);
      var found, changed := Lookup(now, Applied(r[j]));
      if changed {
        assert Differs(db, r);
        return None;
      }
      if !found { now := now + [Applied(r[j])]; }
    }
    assert r[..|r|] == r;
    after := Some(now);
  }

  /** What was added before file `j` does not matter when it is looked up. */
  lemma SameLookup(db: History, r: Release, j: nat)
    requires Ascending(r) && j < |r|
    ensures var now := db + Missing(db, r[..j]);
      && (Recorded(now, r[j].name) <==> Recorded(db, r[j].name))
      && forall i :: 0 <= i < |now| && now[i].name == r[j].name ==> i < |db| && now[i] == db[i]
  {
    NotYetApplied(db, r, j);
    var now := db + Missing(db, r[..j]);
    assert forall i :: 0 <= i < |db| ==> now[i] == db[i];
  }

  lemma MissingStep(db: History, r: Release, j: nat)
    requires j < |r|
    ensures Missing(db, r[..j + 1]) == Missing(db, r[..j]) + if Recorded(db, r[j].name) then [] else [Applied(r[j])]
  {
    assert r[..j + 1][..j] == r[..j];
  }

  lemma {:induction false} MissingFrom(db: History, r: Release, k: nat) returns (j: nat)
    requires k < |Missing(db, r)|
    ensures j < |r| && Missing(db, r)[k] == Applied(r[j]) && !Recorded(db, r[j].name)
  {
    var before := Missing(db, r[..|r| - 1]);
    if k < |before| {
      j := MissingFrom(db, r[..|r| - 1], k);
    } else {
      j := |r| - 1;
    }
  }

  /** What the runner added so far never has the name of the file it looks at next. */
  lemma NotYetApplied(db: History, r: Release, j: nat)
    requires Ascending(r) && j < |r|
    ensures forall k :: 0 <= k < |Missing(db, r[..j])| ==> Missing(db, r[..j])[k].name != r[j].name
  {
    forall k | 0 <= k < |Missing(db, r[..j])| ensures Missing(db, r[..j])[k].name != r[j].name
    {
      var i := MissingFrom(db, r[..j], k);
      assert Less(r[i].name, r[j].name);
      LessTotal(r[i].name, r[i].name);
    }
  }

  // ------------------------------------------------ what the two give each other

  /** The database is at a release: it has applied exactly its files. */
  ghost predicate At(db: History, r: Release)
  {
    && (forall i :: 0 <= i < |db| ==> exists j :: 0 <= j < |r| && db[i] == Applied(r[j]))
    && (forall j :: 0 <= j < |r| ==> Applied(r[j]) in db)
  }

  lemma AscendingNamesDiffer(r: Release, i: nat, j: nat)
    requires Ascending(r) && i < |r| && j < |r| && r[i].name == r[j].name
    ensures i == j
  {
    LessTotal(r[i].name, r[j].name);
  }

  /** A database at a released state accepts every release that passed the check against it. */
  lemma CheckedReleaseIsAccepted(db: History, base: Release, head: Release)
    requires Ascending(base) && Ascending(head) && At(db, base) && AppendOnly(base, head)
    ensures !Differs(db, head)
  {
    forall i, j | 0 <= i < |db| && 0 <= j < |head| && db[i].name == head[j].name
      ensures db[i].text == ReadText(head[j].text)
    {
      var k :| 0 <= k < |base| && db[i] == Applied(base[k]);
      assert base[k] in head;
      var m :| 0 <= m < |head| && head[m] == base[k];
      AscendingNamesDiffer(head, m, j);
    }
  }

  lemma {:induction false} MissingHas(db: History, r: Release, j: nat)
    requires j < |r| && !Recorded(db, r[j].name)
    ensures Applied(r[j]) in Missing(db, r)
  {
    if j < |r| - 1 {
      MissingHas(db, r[..|r| - 1], j);
    }
  }

  /** And is then at that release. */
  lemma MigratedIsAt(db: History, base: Release, head: Release)
    requires Ascending(base) && Ascending(head) && At(db, base) && AppendOnly(base, head)
    ensures At(db + Missing(db, head), head)
  {
    var after := db + Missing(db, head);
    forall i | 0 <= i < |after| ensures exists j :: 0 <= j < |head| && after[i] == Applied(head[j])
    {
      if i < |db| {
        var k :| 0 <= k < |base| && db[i] == Applied(base[k]);
        assert base[k] in head;
        var m :| 0 <= m < |head| && head[m] == base[k];
        assert after[i] == Applied(head[m]);
      } else {
        var m := MissingFrom(db, head, i - |db|);
        assert after[i] == Applied(head[m]);
      }
    }
    CheckedReleaseIsAccepted(db, base, head);
    forall j | 0 <= j < |head| ensures Applied(head[j]) in after
    {
      if Recorded(db, head[j].name) {
        var i :| 0 <= i < |db| && db[i].name == head[j].name;
        assert after[i] == db[i];
      } else {
        MissingHas(db, head, j);
      }
    }
  }

  lemma {:induction false} NothingMissing(db: History, r: Release, n: nat)
    requires n <= |r| && forall j :: 0 <= j < |r| ==> Applied(r[j]) in db
    ensures Missing(db, r[..n]) == []
  {
    if n > 0 {
      NothingMissing(db, r, n - 1);
      MissingStep(db, r, n - 1);
      var i :| 0 <= i < |db| && db[i] == Applied(r[n - 1]);
      assert Recorded(db, r[n - 1].name);
    }
  }

  /** Migrating to the release a database is at changes nothing. */
  lemma MigrateIsIdempotent(db: History, r: Release)
    requires Ascending(r) && At(db, r)
    ensures !Differs(db, r) && db + Missing(db, r) == db
  {
    NothingMissing(db, r, |r|);
    assert r[..|r|] == r;
    forall i, j | 0 <= i < |db| && 0 <= j < |r| && db[i].name == r[j].name ensures db[i].text == ReadText(r[j].text)
    {
      var k :| 0 <= k < |r| && db[i] == Applied(r[k]);
      AscendingNamesDiffer(r, k, j);
    }
  }

  // ------------------------------------------------------------- a whole history

  function Before(releases: seq<Release>, i: nat): Release
    requires i < |releases|
  {
    if i == 0 then [] else releases[i - 1]
  }

  /** A database taken through releases that each passed the check against the one before. */
  ghost predicate Upgrade(releases: seq<Release>, states: seq<History>)
  {
    && |states| == |releases| + 1 && states[0] == []
    && forall i :: 0 <= i < |releases| ==>
         && Ascending(releases[i]) && AppendOnly(Before(releases, i), releases[i])
         && states[i + 1] == states[i] + Missing(states[i], releases[i])
  }

  /** No release of such a history is ever refused, and after each the database has exactly its migrations. */
  lemma {:induction false} HistoryIsNeverRefused(releases: seq<Release>, states: seq<History>, i: nat)
    requires Upgrade(releases, states) && i < |releases|
    ensures !Differs(states[i], releases[i]) && At(states[i + 1], releases[i])
  {
    hide AppendOnly, Missing, Differs, At, Ascending;
    if i > 0 { HistoryIsNeverRefused(releases, states, i - 1); } else { EmptyIsAtNothing(); }
    assert Ascending(releases[i]) && AppendOnly(Before(releases, i), releases[i]);
    CheckedReleaseIsAccepted(states[i], Before(releases, i), releases[i]);
    MigratedIsAt(states[i], Before(releases, i), releases[i]);
  }

  lemma EmptyIsAtNothing()
    ensures At([], []) && Ascending([])
  {
  }

  // -------------------------------------------------------------------- order

  function Names(fs: seq<File>): (ns: seq<string>)
    ensures |ns| == |fs| && forall i :: 0 <= i < |fs| ==> ns[i] == fs[i].name
  {
    seq(|fs|, i requires 0 <= i < |fs| => fs[i].name)
  }

  /** The database applied its migrations in listing order, as a fresh one would. */
  ghost predicate InOrder(db: History)
  {
    forall i, j :: 0 <= i < j < |db| ==> Less(db[i].name, db[j].name)
  }

  lemma {:induction false} MissingInOrder(db: History, r: Release)
    requires Ascending(r)
    ensures InOrder(Missing(db, r))
    ensures forall k :: 0 <= k < |Missing(db, r)| ==> Has(r, Missing(db, r)[k].name)
  {
    if r != [] {
      var shorter := r[..|r| - 1];
      MissingInOrder(db, shorter);
      var before := Missing(db, shorter);
      forall k | 0 <= k < |before| ensures Less(before[k].name, r[|r| - 1].name) && Has(r, before[k].name)
      {
        var j :| 0 <= j < |shorter| && shorter[j].name == before[k].name;
        assert r[j].name == before[k].name;
      }
      if !Recorded(db, r[|r| - 1].name) { assert Has(r, r[|r| - 1].name); }
    }
  }

  /**
    The check does not ask that new migrations come last: an upgraded database has applied them in
    listing order exactly when every new name sorts after every name it had.
   */
  lemma OrderKeptIffAppended(db: History, r: Release)
    requires Ascending(r) && InOrder(db)
    ensures InOrder(db + Missing(db, r))
       <==> forall i, j :: 0 <= i < |db| && 0 <= j < |r| && !Recorded(db, r[j].name) ==> Less(db[i].name, r[j].name)
  {
    if InOrder(db + Missing(db, r)) {
      forall i, j | 0 <= i < |db| && 0 <= j < |r| && !Recorded(db, r[j].name) ensures Less(db[i].name, r[j].name)
      {
        AppendedSortAfter(db, r, i, j);
      }
    }
    if forall i, j :: 0 <= i < |db| && 0 <= j < |r| && !Recorded(db, r[j].name) ==> Less(db[i].name, r[j].name) {
      AppendedInOrder(db, r);
    }
  }

  /** Any new file with a lower number than a released one passes the check, and is applied after it. */
  lemma LowerNumberBreaksOrder(low: File, released: File)
    requires WellNamed(low.name) && WellNamed(released.name) && low.name[..3] != released.name[..3]
    requires Less(low.name, released.name)
    ensures var (base, head, db) := ([released], [low, released], [Applied(released)]);
      && Ascending(base) && Ascending(head) && AppendOnly(base, head) && InOrder(db)
      && !InOrder(db + Missing(db, head))
  {
    hide Less, WellNamed, Missing;
    var (head, db) := ([low, released], [Applied(released)]);
    LessTotal(low.name, released.name);
    assert head[0] == low && head[1] == released && db[0].name == released.name;
    OrderKeptIffAppended(db, head);
  }

  lemma LowerNumbersExist()
    ensures WellNamed("001_a.sql") && WellNamed("002_b.sql") && "001_a.sql"[..3] != "002_b.sql"[..3]
    ensures Less("001_a.sql", "002_b.sql")
  {
    var (a, b) := ("001_a.sql", "002_b.sql");
    assert a[5..] == ".sql" && b[5..] == ".sql";
    assert a[..3][2] != b[..3][2];
    assert a[1..][1..][0] == '1' && b[1..][1..][0] == '2';
    assert Less(a[1..][1..], b[1..][1..]);
    assert Less(a[1..], b[1..]);
  }

  lemma AppendedSortAfter(db: History, r: Release, i: nat, j: nat)
    requires InOrder(db + Missing(db, r)) && i < |db| && j < |r| && !Recorded(db, r[j].name)
    ensures Less(db[i].name, r[j].name)
  {
    hide Less, Missing;
    MissingHas(db, r, j);
    var (added, after) := (Missing(db, r), db + Missing(db, r));
    var k :| 0 <= k < |added| && added[k] == Applied(r[j]);
    assert after[i] == db[i] && after[|db| + k] == added[k];
  }

  lemma AppendedInOrder(db: History, r: Release)
    requires Ascending(r) && InOrder(db)
    requires forall i, j :: 0 <= i < |db| && 0 <= j < |r| && !Recorded(db, r[j].name) ==> Less(db[i].name, r[j].name)
    ensures InOrder(db + Missing(db, r))
  {
    hide Less, Missing, Recorded;
    MissingInOrder(db, r);
    var after := db + Missing(db, r);
    forall i, j | 0 <= i < j < |after| ensures Less(after[i].name, after[j].name)
    {
      if i < |db| <= j {
        var m := MissingFrom(db, r, j - |db|);
      }
    }
  }
}
