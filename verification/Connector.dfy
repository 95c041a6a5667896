/**
  Building a connector request: path placeholders are filled one after another,
  from the configuration first and then from the call's arguments.
 */
module Connector {
  import opened Prelude
  import PercentEncoding

  /** A configuration or argument value; other JSON values cannot stand in a path. */
  datatype Value = Text(text: string) | Whole(n: int) | Flag(b: bool) | Null | Other

  /** The text of a value that may stand in a path. */
  function Shown(v: Value): string
    requires v.Text? || v.Whole?
  {
    if v.Text? then v.text else if v.n < 0 then "-" + Decimal(-v.n) else Decimal(v.n)
  }

  // ------------------------------------------------- strings, as the code sees them

  predicate Brace(c: char) { c == '{' || c == '}' }

  predicate BraceFree(s: string) { forall i :: 0 <= i < |s| ==> !Brace(s[i]) }

  /** Length of the longest brace-free prefix. */
  function Stretch(s: string): (n: nat)
    ensures n <= |s| && BraceFree(s[..n]) && (n < |s| ==> Brace(s[n]))
  {
    if s == "" || Brace(s[0]) then 0
    else
      var n := Stretch(s[1..]);
      assert s[..n + 1] == [s[0]] + s[1..][..n];
      n + 1
  }

  /** The names found by the pattern `{([^{}]+)}`, left to right. */
  function FindNames(s: string): seq<string>
    decreases |s|
  {
    if s == "" then []
    else if s[0] == '{' && var n := Stretch(s[1..]); n > 0 && 1 + n < |s| && s[1 + n] == '}' then
      var n := Stretch(s[1..]);
      [s[1..1 + n]] + FindNames(s[n + 2..])
    else FindNames(s[1..])
  }

  /** Every occurrence of a text replaced, left to right. */
  function Replace(s: string, old_: string, new_: string): string
    requires old_ != ""
    decreases |s|
  {
    if |s| < |old_| then s
    else if s[..|old_|] == old_ then new_ + Replace(s[|old_|..], old_, new_)
    else [s[0]] + Replace(s[1..], old_, new_)
  }

  function Hole(name: string): (h: string)
    ensures h != ""
  {
    "{" + name + "}"
  }

  // ----------------------------------------- templates, as the author means them

  datatype Piece = Literal(text: string) | Placeholder(name: string)

  function Flat(t: seq<Piece>): string
  {
    if t == [] then "" else FlatPiece(t[0]) + Flat(t[1..])
  }

  function FlatPiece(p: Piece): string
  {
    match p case Literal(text) => text case Placeholder(name) => Hole(name)
  }

  /** Braces occur only around names. */
  predicate WellFormed(t: seq<Piece>)
  {
    forall i :: 0 <= i < |t| ==> match t[i]
                                 case Literal(text) => BraceFree(text)
                                 case Placeholder(name) => BraceFree(name) && name != ""
  }

  function Names(t: seq<Piece>): seq<string>
  {
    if t == [] then []
    else (match t[0] case Literal(_) => [] case Placeholder(name) => [name]) + Names(t[1..])
  }

  /** All placeholders of one name filled. */
  function Fill(t: seq<Piece>, name: string, value: string): (r: seq<Piece>)
    ensures |r| == |t|
    ensures forall i :: 0 <= i < |t| ==> r[i] == if t[i] == Placeholder(name) then Literal(value) else t[i]
  {
    seq(|t|, i requires 0 <= i < |t| => if t[i] == Placeholder(name) then Literal(value) else t[i])
  }

  /** All known placeholders filled at once. */
  function FillAll(t: seq<Piece>, values: map<string, string>): (r: seq<Piece>)
    ensures |r| == |t|
    ensures forall i :: 0 <= i < |t| ==>
      r[i] == if t[i].Placeholder? && t[i].name in values then Literal(values[t[i].name]) else t[i]
  {
    seq(|t|, i requires 0 <= i < |t| =>
      if t[i].Placeholder? && t[i].name in values then Literal(values[t[i].name]) else t[i])
  }

  // ----------------------------------------------- the strings mean the templates

  lemma StretchOf(x: string, rest: string)
    requires BraceFree(x) && rest != "" && Brace(rest[0])
    ensures Stretch(x + rest) == |x|
  {
    var n := Stretch(x + rest);
    var s := x + rest;
    assert forall i :: 0 <= i < |x| ==> s[i] == x[i];
    assert forall i :: 0 <= i < n ==> s[..n][i] == s[i];
    assert s[|x|] == rest[0];
  }

  lemma {:induction false} FindSkips(x: string, rest: string)
    requires BraceFree(x)
    ensures FindNames(x + rest) == FindNames(rest)
  {
    if x == "" {
      assert x + rest == rest;
    } else {
      FindSkips(x[1..], rest);
      assert (x + rest)[0] == x[0];
      assert (x + rest)[1..] == x[1..] + rest;
    }
  }

  lemma FindHole(name: string, rest: string)
    requires BraceFree(name) && name != ""
    ensures FindNames(Hole(name) + rest) == [name] + FindNames(rest)
  {
    var s := Hole(name) + rest;
    assert s[1..] == name + ("}" + rest);
    StretchOf(name, "}" + rest);
    assert s[1..1 + |name|] == name && s[1 + |name|] == '}' && s[|name| + 2..] == rest;
  }

  /** The scan finds exactly the placeholders, in order. */
  lemma {:induction false} FindsTheNames(t: seq<Piece>)
    requires WellFormed(t)
    ensures FindNames(Flat(t)) == Names(t)
  {
    if t != [] {
      FindsTheNames(t[1..]);
      match t[0]
      case Literal(text) => FindSkips(text, Flat(t[1..]));
      case Placeholder(name) => FindHole(name, Flat(t[1..]));
    }
  }

  predicate NoOpening(s: string) { forall i :: 0 <= i < |s| ==> s[i] != '{' }

  lemma ReplaceStep(s: string, name: string, value: string)
    requires s != "" && s[0] != '{'
    ensures Replace(s, Hole(name), value) == [s[0]] + Replace(s[1..], Hole(name), value)
  {
    var pattern := Hole(name);
    assert pattern[0] == '{';
    if |s| < |pattern| {
      assert s == [s[0]] + s[1..];
    } else {
      assert s[..|pattern|][0] == s[0];
    }
  }

  lemma {:induction false} ReplaceSkips(x: string, rest: string, name: string, value: string)
    requires NoOpening(x)
    ensures Replace(x + rest, Hole(name), value) == x + Replace(rest, Hole(name), value)
  {
    hide Replace, Hole;
    if x == "" {
      assert x + rest == rest;
    } else {
      var s := x + rest;
      assert s[1..] == x[1..] + rest;
      ReplaceSkips(x[1..], rest, name, value);
      ReplaceStep(s, name, value);
      assert x == [x[0]] + x[1..];
      assert x + Replace(rest, Hole(name), value) == [x[0]] + (x[1..] + Replace(rest, Hole(name), value));
    }
  }

  /** A text that starts with one hole and with another starts with the same name. */
  lemma SameHole(a: string, b: string, rest: string)
    requires BraceFree(a) && BraceFree(b)
    requires |Hole(b) + rest| >= |Hole(a)| && (Hole(b) + rest)[..|Hole(a)|] == Hole(a)
    ensures a == b
  {
    var s := Hole(b) + rest;
    assert forall i :: 0 <= i < |Hole(a)| ==> s[i] == Hole(a)[i];
    assert s[|b| + 1] == '}' && s[|a| + 1] == '}';
    assert forall i :: 1 <= i < |a| + 1 ==> s[i] == a[i - 1];
    assert forall i :: 1 <= i < |b| + 1 ==> s[i] == b[i - 1];
    assert a == s[1..|a| + 1] && b == s[1..|b| + 1];
  }

  lemma ReplaceSameHole(name: string, rest: string, value: string)
    ensures Replace(Hole(name) + rest, Hole(name), value) == value + Replace(rest, Hole(name), value)
  {
    var (s, pattern) := (Hole(name) + rest, Hole(name));
    assert s[..|pattern|] == pattern && s[|pattern|..] == rest;
  }

  lemma ReplaceMiss(s: string, pattern: string, value: string)
    requires s != "" && pattern != "" && !(|s| >= |pattern| && s[..|pattern|] == pattern)
    ensures Replace(s, pattern, value) == [s[0]] + Replace(s[1..], pattern, value)
  {
    assert s == [s[0]] + s[1..];
  }

  lemma ReplaceOtherHole(other: string, rest: string, name: string, value: string)
    requires BraceFree(other) && BraceFree(name) && other != name
    ensures Replace(Hole(other) + rest, Hole(name), value) == Hole(other) + Replace(rest, Hole(name), value)
  {
    hide Replace;
    var s := Hole(other) + rest;
    if |s| >= |Hole(name)| && s[..|Hole(name)|] == Hole(name) { SameHole(name, other, rest); }
    ReplaceMiss(s, Hole(name), value);
    HoleTail(other, rest);
    ReplaceSkips(other + "}", rest, name, value);
    var after := Replace(rest, Hole(name), value);
    assert Hole(other) + after == ['{'] + ((other + "}") + after);
  }

  lemma HoleTail(name: string, rest: string)
    requires BraceFree(name)
    ensures var s := Hole(name) + rest; s != "" && s[0] == '{' && s[1..] == (name + "}") + rest
    ensures NoOpening(name + "}")
  {
    assert Hole(name) == "{" + (name + "}");
    assert forall i :: 0 <= i < |name| ==> (name + "}")[i] == name[i];
  }

  lemma ReplaceHole(t: Piece, rest: string, name: string, value: string)
    requires WellFormed([t]) && BraceFree(name)
    ensures Replace(FlatPiece(t) + rest, Hole(name), value)
         == FlatPiece(Fill([t], name, value)[0]) + Replace(rest, Hole(name), value)
  {
    assert WellFormed([t]) ==> match [t][0] case Literal(text) => BraceFree(text) case Placeholder(n) => BraceFree(n);
    hide Replace, Hole;
    match t
    case Literal(text) => ReplaceSkips(text, rest, name, value);
    case Placeholder(other) =>
      if other == name { ReplaceSameHole(name, rest, value); } else { ReplaceOtherHole(other, rest, name, value); }
  }

  /** Replacing a name's text fills that name's placeholders and nothing else. */
  lemma {:induction false} ReplaceIsFill(t: seq<Piece>, name: string, value: string)
    requires WellFormed(t) && BraceFree(name)
    ensures Replace(Flat(t), Hole(name), value) == Flat(Fill(t, name, value))
  {
    if t != [] {
      ReplaceIsFill(t[1..], name, value);
      assert WellFormed([t[0]]);
      ReplaceHole(t[0], Flat(t[1..]), name, value);
      assert Fill(t, name, value)[1..] == Fill(t[1..], name, value);
    }
  }

  lemma FillKeepsWellFormed(t: seq<Piece>, name: string, value: string)
    requires WellFormed(t) && BraceFree(value)
    ensures WellFormed(Fill(t, name, value))
  {
  }

  lemma FillThenFillAll(t: seq<Piece>, values: map<string, string>, name: string, value: string)
    requires name in values ==> values[name] == value
    ensures Fill(FillAll(t, values), name, value) == FillAll(t, values[name := value])
  {
  }

  // ------------------------------------------------------------- the request

  datatype Built =
    | Parts(path: string, query: map<string, Value>, body: Option<map<string, Value>>, key: Option<string>)
    | ArgumentMissing
    | ArgumentInvalid
    | KeyInvalid

  predicate Showable(v: Value) { v.Text? || v.Whole? }

  /** Occurrence `i` has no value: it is not configured, and not an argument that is still unused. */
  ghost predicate Unmet(names: seq<string>, config: map<string, Value>, arguments: map<string, Value>, i: nat)
    requires i < |names|
  {
    names[i] !in config && (names[i] !in arguments || names[i] in names[..i])
  }

  function ValueOf(name: string, config: map<string, Value>, arguments: map<string, Value>): Value
  {
    if name in config then config[name] else if name in arguments then arguments[name] else Other
  }

  /** Occurrence `i` can be filled. */
  ghost predicate Met(names: seq<string>, config: map<string, Value>, arguments: map<string, Value>, i: nat)
    requires i < |names|
  {
    !Unmet(names, config, arguments, i) && Showable(ValueOf(names[i], config, arguments))
  }

  /** Occurrence `i` is the first that cannot be filled, and this is the error it causes. */
  ghost predicate FirstUnfilled(names: seq<string>, config: map<string, Value>, arguments: map<string, Value>, i: nat, error: Built)
    requires i < |names|
  {
    && (forall j :: 0 <= j < i ==> Met(names, config, arguments, j))
    && !Met(names, config, arguments, i)
    && error == if Unmet(names, config, arguments, i) then ArgumentMissing else ArgumentInvalid
  }

  lemma FirstHere(names: seq<string>, config: map<string, Value>, arguments: map<string, Value>, i: nat)
    requires i < |names| && !Met(names, config, arguments, i)
    requires forall j :: 0 <= j < i ==> Met(names, config, arguments, j)
    ensures FirstUnfilled(names, config, arguments, i, if Unmet(names, config, arguments, i) then ArgumentMissing else ArgumentInvalid)
  {
  }

  ghost predicate FailsWith(names: seq<string>, config: map<string, Value>, arguments: map<string, Value>, error: Built)
  {
    exists i :: 0 <= i < |names| && FirstUnfilled(names, config, arguments, i, error)
  }

  lemma FailsHere(names: seq<string>, config: map<string, Value>, arguments: map<string, Value>, i: nat, error: Built)
    requires i < |names| && FirstUnfilled(names, config, arguments, i, error)
    ensures FailsWith(names, config, arguments, error)
  {
  }

  ghost function Encoded(names: seq<string>, config: map<string, Value>, arguments: map<string, Value>): map<string, string>
  {
    map name | name in names && Showable(ValueOf(name, config, arguments)) ::
      PercentEncoding.Quote(Shown(ValueOf(name, config, arguments)))
  }

  /** What is left of the arguments: all but those a placeholder used and the idempotency key. */
  ghost function Unused(names: seq<string>, config: map<string, Value>, arguments: map<string, Value>): map<string, Value>
  {
    map name | name in arguments && !(name in names && name !in config) && name != "idempotency_key" :: arguments[name]
  }

  /** What is left of the arguments once these names have been filled. */
  ghost function NotTaken(names: seq<string>, config: map<string, Value>, arguments: map<string, Value>): map<string, Value>
  {
    map name | name in arguments && !(name in names && name !in config) :: arguments[name]
  }

  lemma NothingTaken(config: map<string, Value>, arguments: map<string, Value>)
    ensures NotTaken([], config, arguments) == arguments
  {
  }

  /** Whether occurrence `i` can take a value, which one, and what is left then. */
  lemma TakeNext(names: seq<string>, config: map<string, Value>, arguments: map<string, Value>, i: nat)
    requires i < |names|
    ensures var (name, left, after) := (names[i], NotTaken(names[..i], config, arguments), NotTaken(names[..i + 1], config, arguments));
      if name in config then !Unmet(names, config, arguments, i) && ValueOf(name, config, arguments) == config[name] && after == left
      else if name in left then !Unmet(names, config, arguments, i) && ValueOf(name, config, arguments) == left[name] && after == left - {name}
      else Unmet(names, config, arguments, i)
  {
    assert forall n :: n in names[..i + 1] <==> n in names[..i] || n == names[i];
  }

  /** The idempotency key the caller gave, unless a placeholder used it. */
  ghost function GivenKey(names: seq<string>, config: map<string, Value>, arguments: map<string, Value>): Value
  {
    var k := "idempotency_key";
    if k in arguments && !(k in names && k !in config) then arguments[k] else Null
  }

  ghost predicate IsTemplate(path: string, t: seq<Piece>) { WellFormed(t) && path == Flat(t) }

  /**
    Fills the path; the first occurrence that cannot be filled decides the error. `t` is the path's
    structure when its braces only wrap names.
   */
  method FillPath(path: string, config: map<string, Value>, arguments: map<string, Value>, ghost t: Option<seq<Piece>>)
    returns (error: Option<Built>, filled: string, remaining: map<string, Value>)
    requires t.Some? ==> IsTemplate(path, t.value)
    ensures var names := FindNames(path);
      if error.None?
      then (forall i :: 0 <= i < |names| ==> Met(names, config, arguments, i))
           && remaining == NotTaken(names, config, arguments)
      else FailsWith(names, config, arguments, error.value)
    ensures error.None? && t.Some? ==> filled == Flat(FillAll(t.value, Encoded(Names(t.value), config, arguments)))
  {
    hide FindNames, Replace, Flat, FillAll, WellFormed, PercentEncoding.Quote, Shown, Encoded, FirstUnfilled, FailsWith, Unmet, NotTaken, ValueOf;
    var names := FindNames(path);
    filled, remaining, error := path, arguments, None;
    NothingTaken(config, arguments);
    if t.Some? { FindsTheNames(t.value); FillNothing(t.value, config, arguments); }
    for i := 0 to |names|
      invariant error.None? && forall j :: 0 <= j < i ==> Met(names, config, arguments, j)
      invariant remaining == NotTaken(names[..i], config, arguments)
      invariant t.Some? ==> WellFormed(FillAll(t.value, Encoded(names[..i], config, arguments)))
                            && filled == Flat(FillAll(t.value, Encoded(names[..i], config, arguments)))
    {
      var name := names[i];
      var value: Value;
      TakeNext(names, config, arguments, i);
      if name in config {
        value := config[name];
      } else if name in remaining {
        value := remaining[name];
        remaining := remaining - {name};
      } else {
        assert FirstUnfilled(names, config, arguments, i, ArgumentMissing) by { FirstHere(names, config, arguments, i); }
        FailsHere(names, config, arguments, i, ArgumentMissing);
        error := Some(ArgumentMissing);
        return;
      }
      if !Showable(value) {
        assert FirstUnfilled(names, config, arguments, i, ArgumentInvalid) by { FirstHere(names, config, arguments, i); }
        FailsHere(names, config, arguments, i, ArgumentInvalid);
        error := Some(ArgumentInvalid);
        return;
      }
      filled := Replace(filled, Hole(name), PercentEncoding.Quote(Shown(value)));
      if t.Some? {
        NamesAreBraceFree(t.value, i);
        FillOneMore(t.value, names, config, arguments, i);
      }
    }
    assert names[..|names|] == names;
  }

  lemma {:induction false} NamesAreBraceFree(t: seq<Piece>, i: nat)
    requires WellFormed(t) && i < |Names(t)|
    ensures BraceFree(Names(t)[i]) && Names(t)[i] != ""
  {
    assert t[1..] == t[1..] && forall k :: 0 <= k < |t[1..]| ==> t[1..][k] == t[k + 1];
    match t[0]
    case Literal(_) => NamesAreBraceFree(t[1..], i);
    case Placeholder(name) => if i > 0 { NamesAreBraceFree(t[1..], i - 1); }
  }

  lemma FillNothing(t: seq<Piece>, config: map<string, Value>, arguments: map<string, Value>)
    ensures FillAll(t, Encoded([], config, arguments)) == t
  {
  }

  lemma FillOneMore(t: seq<Piece>, names: seq<string>, config: map<string, Value>, arguments: map<string, Value>, i: nat)
    requires i < |names| && BraceFree(names[i])
    requires Met(names, config, arguments, i)
    requires WellFormed(FillAll(t, Encoded(names[..i], config, arguments)))
    ensures var before := FillAll(t, Encoded(names[..i], config, arguments));
            var after := FillAll(t, Encoded(names[..i + 1], config, arguments));
      && WellFormed(after)
      && Flat(after) == Replace(Flat(before), Hole(names[i]), PercentEncoding.Quote(Shown(ValueOf(names[i], config, arguments))))
  {
    hide Flat, Replace, WellFormed, FillAll, PercentEncoding.Quote, Shown;
    var value := PercentEncoding.Quote(Shown(ValueOf(names[i], config, arguments)));
    var values := Encoded(names[..i], config, arguments);
    assert forall n :: n in names[..i + 1] <==> n in names[..i] || n == names[i];
    assert Encoded(names[..i + 1], config, arguments) == values[names[i] := value];
    var before := FillAll(t, values);
    FillThenFillAll(t, values, names[i], value);
    ReplaceIsFill(before, names[i], value);
    PercentEncoding.NoSeparator(Shown(ValueOf(names[i], config, arguments)));
    FillKeepsWellFormed(before, names[i], value);
  }

  /** Occurrence `i` names again what only an argument can give. */
  predicate Repeats(names: seq<string>, config: map<string, Value>, i: int)
  {
    0 <= i < |names| && names[i] !in config && names[i] in names[..i]
  }

  /**
    How a request with such a name ends: the argument is missing, since its first occurrence used it,
    or an occurrence before the first repetition was already invalid.
   */
  ghost predicate RepeatedFails(names: seq<string>, config: map<string, Value>, arguments: map<string, Value>, error: Built)
  {
    error == ArgumentMissing || exists k :: 0 <= k < |names| && InvalidBeforeRepeats(names, config, arguments, k, error)
  }

  ghost predicate InvalidBeforeRepeats(names: seq<string>, config: map<string, Value>, arguments: map<string, Value>, k: nat, error: Built)
    requires k < |names|
  {
    && error == ArgumentInvalid && FirstUnfilled(names, config, arguments, k, error)
    && forall j :: 0 <= j <= k ==> !Repeats(names, config, j)
  }

  lemma RepeatedIsUnmet(names: seq<string>, config: map<string, Value>, arguments: map<string, Value>, i: nat)
    requires Repeats(names, config, i)
    ensures Unmet(names, config, arguments, i)
  {
  }

  /** A name that stands twice in a path and is not configured can never be filled, whatever the arguments are. */
  lemma RepeatedArgumentFails(names: seq<string>, config: map<string, Value>, arguments: map<string, Value>, i: nat, error: Built)
    requires Repeats(names, config, i) && FailsWith(names, config, arguments, error)
    ensures !Met(names, config, arguments, i)
    ensures RepeatedFails(names, config, arguments, error)
    ensures (forall j :: 0 <= j < i ==> Met(names, config, arguments, j)) ==> error == ArgumentMissing
  {
    var k :| 0 <= k < |names| && FirstUnfilled(names, config, arguments, k, error);
    RepeatedIsUnmet(names, config, arguments, i);
    forall j | 0 <= j <= k && Repeats(names, config, j) ensures j == k && error == ArgumentMissing
    {
      RepeatedIsUnmet(names, config, arguments, j);
      assert !Met(names, config, arguments, j);
    }
    if error == ArgumentInvalid { assert InvalidBeforeRepeats(names, config, arguments, k, error); }
  }

  /** Splits a call into path, query, body and idempotency key. */
  method RequestParts(verb: string, path: string, config: map<string, Value>, arguments: map<string, Value>, ghost t: Option<seq<Piece>>)
    returns (r: Built)
    requires t.Some? ==> IsTemplate(path, t.value)
    ensures var names := FindNames(path);
      && (r.Parts? ==> forall i :: 0 <= i < |names| ==> Met(names, config, arguments, i))
      && (r.ArgumentMissing? || r.ArgumentInvalid? <==> exists i :: 0 <= i < |names| && !Met(names, config, arguments, i))
      && (r.ArgumentMissing? || r.ArgumentInvalid? ==> FailsWith(names, config, arguments, r))
      && ((exists i :: Repeats(names, config, i)) ==> RepeatedFails(names, config, arguments, r))
      && (r.Parts? ==> if verb == "GET" || verb == "DELETE" then r.query == Unused(names, config, arguments) && r.body == None
                       else r.query == map[] && r.body == Some(Unused(names, config, arguments)))
    ensures var names := FindNames(path);
            var key := GivenKey(names, config, arguments);
      && (r.KeyInvalid? <==> (forall i :: 0 <= i < |names| ==> Met(names, config, arguments, i)) && !key.Null? && !key.Text?)
      && (r.Parts? ==> r.key == if key.Text? then Some(key.text) else None)
    ensures r.Parts? && t.Some? ==> r.path == Flat(FillAll(t.value, Encoded(Names(t.value), config, arguments)))
  {
    hide FindNames, Flat, FillAll, WellFormed, Encoded;
    var error, filled, remaining := FillPath(path, config, arguments, t);
    forall i | Repeats(FindNames(path), config, i)
      ensures !Met(FindNames(path), config, arguments, i)
      ensures error.Some? ==> RepeatedFails(FindNames(path), config, arguments, error.value)
    {
      RepeatedIsUnmet(FindNames(path), config, arguments, i);
      if error.Some? { RepeatedArgumentFails(FindNames(path), config, arguments, i, error.value); }
    }
    if error.Some? { return error.value; }
    var key: Option<string> := None;
    if "idempotency_key" in remaining {
      var given := remaining["idempotency_key"];
      remaining := remaining - {"idempotency_key"};
      if !given.Null? {
        if !given.Text? { return KeyInvalid; }
        key := Some(given.text);
      }
    }
    assert remaining == Unused(FindNames(path), config, arguments);
    if verb == "GET" || verb == "DELETE" {
      return Parts(filled, remaining, None, key);
    }
    return Parts(filled, map[], Some(remaining), key);
  }

  // -------------------------------------------------- what filling cannot change

  function Slashes(s: string): nat
  {
    if s == "" then 0 else (if s[0] == '/' then 1 else 0) + Slashes(s[1..])
  }

  lemma {:induction false} SlashesAppend(a: string, b: string)
    ensures Slashes(a + b) == Slashes(a) + Slashes(b)
  {
    if a == "" {
      assert a + b == b;
    } else {
      assert (a + b)[1..] == a[1..] + b;
      SlashesAppend(a[1..], b);
    }
  }

  lemma {:induction false} NoSlashes(s: string)
    ensures Slashes(s) == 0 <==> '/' !in s
  {
    if s != "" { NoSlashes(s[1..]); }
  }

  lemma HoleSlashes(name: string)
    ensures Slashes(Hole(name)) == Slashes(name)
  {
    assert Slashes("{") == 0 && Slashes("}") == 0;
    SlashesAppend("{" + name, "}");
    SlashesAppend("{", name);
  }

  /** The slashes in the names of the placeholders that are filled. */
  function NameSlashes(t: seq<Piece>, values: map<string, string>): nat
  {
    if t == [] then 0
    else (if t[0].Placeholder? && t[0].name in values then Slashes(t[0].name) else 0) + NameSlashes(t[1..], values)
  }

  ghost predicate PlainNames(t: seq<Piece>, values: map<string, string>)
  {
    forall p :: p in t && p.Placeholder? && p.name in values ==> '/' !in p.name
  }

  lemma {:induction false} NameSlashesZero(t: seq<Piece>, values: map<string, string>)
    ensures NameSlashes(t, values) == 0 <==> PlainNames(t, values)
  {
    if t != [] {
      NameSlashesZero(t[1..], values);
      if t[0].Placeholder? { NoSlashes(t[0].name); }
      assert forall p :: p in t <==> p == t[0] || p in t[1..];
    }
  }

  /** Values without slashes leave the template's slashes but those of the names they replace. */
  lemma {:induction false} SlashesStay(t: seq<Piece>, values: map<string, string>)
    requires forall name :: name in values ==> '/' !in values[name]
    ensures Slashes(Flat(FillAll(t, values))) + NameSlashes(t, values) == Slashes(Flat(t))
  {
    if t != [] {
      SlashesStay(t[1..], values);
      var filled := FillAll(t, values);
      assert filled[1..] == FillAll(t[1..], values);
      SlashesAppend(FlatPiece(t[0]), Flat(t[1..]));
      SlashesAppend(FlatPiece(filled[0]), Flat(filled[1..]));
      match t[0]
      case Literal(_) =>
      case Placeholder(name) =>
        HoleSlashes(name);
        if name in values { NoSlashes(values[name]); }
    }
  }

  /**
    No value can add a path segment: filling takes away the slashes of the names it replaces and
    nothing else, so the path keeps the template's slashes exactly when no filled name contains one.
   */
  lemma RequestKeepsSegments(t: seq<Piece>, config: map<string, Value>, arguments: map<string, Value>)
    ensures var values := Encoded(Names(t), config, arguments);
      && Slashes(Flat(FillAll(t, values))) + NameSlashes(t, values) == Slashes(Flat(t))
      && (Slashes(Flat(FillAll(t, values))) == Slashes(Flat(t)) <==> PlainNames(t, values))
  {
    var values := Encoded(Names(t), config, arguments);
    forall name | name in values ensures '/' !in values[name]
    {
      PercentEncoding.NoSeparator(Shown(ValueOf(name, config, arguments)));
    }
    SlashesStay(t, values);
    NameSlashesZero(t, values);
  }
}
