/**
  Embedding texts in batches: a provider may answer a batch in any order, and the
  vectors must still line up with the texts.
 */
module Embedding {
  import opened Prelude

  /**
    What converting one component to a float gives: a number, text that reads as one included, may be
    infinite or not a number, and a whole number may be too large to convert.
   */
  datatype Component = Finite(value: real) | NotFinite | NotNumber | TooLarge

  type Vector = seq<real>

  /** One item of a reply; a missing or mistyped field is None, and a truth value is a whole number. */
  datatype Item = Item(index: Option<int>, embedding: Option<seq<Component>>)

  /** A decoded reply; `tokens` is read from `usage`, which must be there. */
  datatype Reply = Reply(data: Option<seq<Item>>, model: Option<string>, usage: bool, tokens: Option<int>)

  datatype Normalized = Accepted(vector: Vector) | Refused(code: string)

  datatype Parsed = Batch(vectors: seq<Vector>, tokens: nat) | Rejected(code: string)

  const INVALID := "embedding_invalid_response"
  const OVERFLOW := "OverflowError"       // no provider error, the conversion itself

  // ---------------------------------------------------------------- one reply

  function Values(cs: seq<Component>): (v: Vector)
    requires forall i :: 0 <= i < |cs| ==> cs[i].Finite?
    ensures |v| == |cs| && forall i :: 0 <= i < |cs| ==> v[i] == cs[i].value
  {
    seq(|cs|, i requires 0 <= i < |cs| => cs[i].value)
  }

  /** How converting the first `n` components fails, if it does: the first that cannot be converted decides. */
  function ConversionDefect(cs: seq<Component>, n: nat): (code: Option<string>)
    requires n <= |cs|
    ensures code == None <==> forall i :: 0 <= i < n ==> cs[i].Finite? || cs[i].NotFinite?
  {
    if n == 0 then None
    else
      var earlier := ConversionDefect(cs, n - 1);
      if earlier.Some? then earlier
      else if cs[n - 1].NotNumber? then Some(INVALID)
      else if cs[n - 1].TooLarge? then Some(OVERFLOW)
      else None
  }

  /** Why a vector is refused: its length first, then its conversion, then its values. */
  function VectorDefect(cs: seq<Component>, dimensions: nat): Option<string>
  {
    if |cs| != dimensions then Some("embedding_dimension_mismatch")
    else if ConversionDefect(cs, |cs|).Some? then ConversionDefect(cs, |cs|)
    else if exists i :: 0 <= i < |cs| && !cs[i].Finite? then Some(INVALID)
    else if forall i :: 0 <= i < |cs| ==> cs[i].value == 0.0 then Some("embedding_zero_vector")
    else None
  }

  /** Why item `k` is refused, given the items before it. */
  function Defect(data: seq<Item>, k: nat, count: nat, dimensions: nat): Option<string>
    requires k < |data|
  {
    var item := data[k];
    if item.index.None? || item.embedding.None? then Some(INVALID)
    else if !(0 <= item.index.value < count) || (exists j :: 0 <= j < k && data[j].index == item.index) then Some(INVALID)
    else VectorDefect(item.embedding.value, dimensions)
  }

  ghost predicate Sound(data: seq<Item>, n: nat, count: nat, dimensions: nat)
    requires n <= |data|
  {
    forall k :: 0 <= k < n ==> Defect(data, k, count, dimensions) == None
  }

  /** The indices are exactly those of the batch, each once, and every vector is usable. */
  ghost predicate Permutation(data: seq<Item>, count: nat, dimensions: nat)
  {
    && |data| == count
    && (forall k :: 0 <= k < count ==>
         data[k].index.Some? && 0 <= data[k].index.value < count
         && data[k].embedding.Some? && VectorDefect(data[k].embedding.value, dimensions) == None)
    && (forall j, k :: 0 <= j < k < count ==> data[j].index != data[k].index)
  }

  /** Vector `i` is the one labelled `i`. */
  ghost predicate Aligned(data: seq<Item>, vectors: seq<Vector>)
  {
    forall k :: 0 <= k < |data| ==>
      && data[k].index.Some? && 0 <= data[k].index.value < |vectors|
      && data[k].embedding.Some? && (forall i :: 0 <= i < |data[k].embedding.value| ==> data[k].embedding.value[i].Finite?)
      && vectors[data[k].index.value] == Values(data[k].embedding.value)
  }

  lemma {:induction false} SetOfIndices(data: seq<Item>, n: nat, count: nat, dimensions: nat, seen: set<int>)
    requires n <= |data| && Sound(data, n, count, dimensions)
    requires forall i :: i in seen <==> exists j :: 0 <= j < n && data[j].index == Some(i)
    ensures |seen| == n && forall i :: i in seen ==> 0 <= i < count
  {
    forall i | i in seen ensures 0 <= i < count
    {
      var j :| 0 <= j < n && data[j].index == Some(i);
      assert Defect(data, j, count, dimensions) == None;
    }
    if n > 0 {
      assert Defect(data, n - 1, count, dimensions) == None;
      var last := data[n - 1].index.value;
      assert data[n - 1].index == Some(last);
      assert last in seen;
      SetOfIndices(data, n - 1, count, dimensions, seen - {last});
    } else {
      assert seen == {};
    }
  }

  function IndexRange(count: nat): (range: set<int>)
    ensures forall i :: i in range <==> 0 <= i < count
  {
    if count == 0 then {} else IndexRange(count - 1) + {count - 1}
  }

  lemma {:induction false} RangeSize(count: nat)
    ensures |IndexRange(count)| == count
  {
    if count > 0 {
      RangeSize(count - 1);
      assert IndexRange(count) == IndexRange(count - 1) + {count - 1};
    }
  }

  /** Without a defect, having every index is the same as having as many items as texts. */
  lemma CompleteIffCounted(data: seq<Item>, count: nat, dimensions: nat, seen: set<int>)
    requires Sound(data, |data|, count, dimensions)
    requires forall i :: i in seen <==> exists j :: 0 <= j < |data| && data[j].index == Some(i)
    ensures seen == IndexRange(count) <==> |data| == count
  {
    var range := IndexRange(count);
    SetOfIndices(data, |data|, count, dimensions, seen);
    RangeSize(count);
    assert forall i :: i in seen ==> i in range;
    assert range == seen + (range - seen);
  }

  lemma PermutationIffSound(data: seq<Item>, count: nat, dimensions: nat)
    ensures Permutation(data, count, dimensions) <==> |data| == count && Sound(data, |data|, count, dimensions)
  {
    hide VectorDefect;
    if |data| == count && Sound(data, |data|, count, dimensions) {
      forall k | 0 <= k < count
        ensures data[k].index.Some? && 0 <= data[k].index.value < count && data[k].embedding.Some?
        ensures VectorDefect(data[k].embedding.value, dimensions) == None
        ensures forall j :: 0 <= j < k ==> data[j].index != data[k].index
      {
        assert Defect(data, k, count, dimensions) == None;
      }
    }
  }

  /** The reply as a whole has the right fields and the right model. */
  function HeaderDefect(reply: Reply, model: string): Option<string>
  {
    if reply.data.None? || reply.model.None? || !reply.usage then Some(INVALID)
    else if reply.model.value != model then Some("embedding_model_mismatch")
    else None
  }

  predicate Counted(tokens: Option<int>) { tokens.Some? && tokens.value >= 0 }

  /** A reply that is used: right fields, right model, every text once, usable vectors, and a token count. */
  ghost predicate Usable(reply: Reply, model: string, count: nat, dimensions: nat)
  {
    && HeaderDefect(reply, model) == None
    && Permutation(reply.data.value, count, dimensions)
    && Counted(reply.tokens)
  }

  /** Parses one reply; the first thing wrong with it, from its header through its items to its count, names the error. */
  method ParseReply(reply: Reply, model: string, count: nat, dimensions: nat) returns (r: Parsed)
    ensures r.Batch? <==> Usable(reply, model, count, dimensions)
    ensures r.Batch? ==> |r.vectors| == count && Aligned(reply.data.value, r.vectors) && r.tokens == reply.tokens.value
    ensures r.Rejected? && HeaderDefect(reply, model).Some? ==> r.code == HeaderDefect(reply, model).value
    ensures r.Rejected? && HeaderDefect(reply, model).None? && !Sound(reply.data.value, |reply.data.value|, count, dimensions) ==>
      FirstDefect(reply.data.value, count, dimensions, r.code)
    ensures r.Rejected? && HeaderDefect(reply, model).None? && Sound(reply.data.value, |reply.data.value|, count, dimensions) ==> r.code == INVALID
  {
    hide Permutation, Aligned, Sound, FirstDefect;
    if reply.data.None? || reply.model.None? || !reply.usage { return Rejected(INVALID); }
    if reply.model.value != model { return Rejected("embedding_model_mismatch"); }
    PermutationIffSound(reply.data.value, count, dimensions);
    var vectors := ParseItems(reply.data.value, count, dimensions);
    if vectors.Rejected? { return vectors; }
    if reply.tokens.None? || reply.tokens.value < 0 { return Rejected(INVALID); }
    r := Batch(vectors.vectors, reply.tokens.value);
  }

  /** The first item with a defect has this one. */
  ghost predicate FirstDefect(data: seq<Item>, count: nat, dimensions: nat, code: string)
  {
    exists k :: 0 <= k < |data| && Sound(data, k, count, dimensions) && Defect(data, k, count, dimensions) == Some(code)
  }

  /** Fills a dictionary by index and reads it back in order. */
  method ParseItems(data: seq<Item>, count: nat, dimensions: nat) returns (r: Parsed)
    ensures r.Batch? <==> Permutation(data, count, dimensions)
    ensures r.Batch? ==> |r.vectors| == count && Aligned(data, r.vectors)
    ensures r.Rejected? && !Sound(data, |data|, count, dimensions) ==> FirstDefect(data, count, dimensions, r.code)
    ensures r.Rejected? && Sound(data, |data|, count, dimensions) ==> r.code == INVALID
  {
    hide VectorDefect, Permutation;
    PermutationIffSound(data, count, dimensions);
    var indexed: map<int, Vector> := map[];
    for k := 0 to |data|
      invariant Sound(data, k, count, dimensions)
      invariant forall i :: i in indexed <==> exists j :: 0 <= j < k && data[j].index == Some(i)
      invariant forall j :: 0 <= j < k ==> Held(data[j], indexed)
    {
      var item := data[k];
      if item.index.None? || item.embedding.None? {
        assert Defect(data, k, count, dimensions) == Some(INVALID);
        return Rejected(INVALID);
      }
      var index := item.index.value;
      if index in indexed || !(0 <= index < count) {
        assert Defect(data, k, count, dimensions) == Some(INVALID);
        return Rejected(INVALID);
      }
      assert Defect(data, k, count, dimensions) == VectorDefect(item.embedding.value, dimensions);
      var n := NormalizeVector(item.embedding.value, dimensions);
      if n.Refused? { return Rejected(n.code); }
      indexed := indexed[index := n.vector];
    }
    CompleteIffCounted(data, count, dimensions, indexed.Keys);
    if indexed.Keys != IndexRange(count) { return Rejected(INVALID); }
    r := Batch(seq(count, i requires 0 <= i < count => indexed[i]), 0);
    assert forall j :: 0 <= j < |data| ==> Held(data[j], indexed);
  }

  /** The dictionary has the item's vector under the item's index. */
  ghost predicate Held(item: Item, indexed: map<int, Vector>)
  {
    && item.index.Some? && item.index.value in indexed
    && item.embedding.Some? && (forall i :: 0 <= i < |item.embedding.value| ==> item.embedding.value[i].Finite?)
    && indexed[item.index.value] == Values(item.embedding.value)
  }

  /** Converts one vector and then checks it. */
  method NormalizeVector(cs: seq<Component>, dimensions: nat) returns (r: Normalized)
    ensures r.Accepted? <==> VectorDefect(cs, dimensions) == None
    ensures r.Accepted? ==> (forall i :: 0 <= i < |cs| ==> cs[i].Finite?) && r.vector == Values(cs)
    ensures r.Refused? ==> VectorDefect(cs, dimensions) == Some(r.code)
  {
    if |cs| != dimensions { return Refused("embedding_dimension_mismatch"); }
    for i := 0 to |cs|
      invariant ConversionDefect(cs, i) == None
    {
      if cs[i].NotNumber? || cs[i].TooLarge? {
        DefectStays(cs, i + 1, |cs|);
        return Refused(if cs[i].NotNumber? then INVALID else OVERFLOW);
      }
    }
    var zero := true;
    for i := 0 to |cs|
      invariant forall j :: 0 <= j < i ==> cs[j].Finite?
      invariant zero <==> forall j :: 0 <= j < i ==> cs[j].value == 0.0
    {
      if !cs[i].Finite? { return Refused(INVALID); }
      if cs[i].value != 0.0 { zero := false; }
    }
    if zero { return Refused("embedding_zero_vector"); }
    r := Accepted(Values(cs));
  }

  lemma {:induction false} DefectStays(cs: seq<Component>, n: nat, m: nat)
    requires n <= m <= |cs| && ConversionDefect(cs, n).Some?
    ensures ConversionDefect(cs, m) == ConversionDefect(cs, n)
  {
    if n < m { DefectStays(cs, n, m - 1); }
  }

  // ------------------------------------------------------------- many batches

  function ItemsOf(reply: Reply): seq<Item>
  {
    if reply.data.Some? then reply.data.value else []
  }

  function ItemAt(reply: Reply, k: int): Item
  {
    if 0 <= k < |ItemsOf(reply)| then ItemsOf(reply)[k] else Item(None, None)
  }

  /**
    Every item of every reply carries the embedding of the text its index points at; the order is the
    provider's own.
   */
  ghost predicate Labelled(embed: string -> Vector, provider: (nat, seq<string>) -> Reply)
  {
    forall n, texts, k {:trigger ItemAt(provider(n, texts), k)} ::
      var items := ItemsOf(provider(n, texts));
      0 <= k < |items| && items[k] == ItemAt(provider(n, texts), k) && items[k].index.Some? && 0 <= items[k].index.value < |texts|
      && items[k].embedding.Some? && (forall i :: 0 <= i < |items[k].embedding.value| ==> items[k].embedding.value[i].Finite?)
      ==> Values(items[k].embedding.value) == embed(texts[items[k].index.value])
  }

  ghost function Embedded(embed: string -> Vector, texts: seq<string>): (vs: seq<Vector>)
    ensures |vs| == |texts| && forall i :: 0 <= i < |texts| ==> vs[i] == embed(texts[i])
  {
    seq(|texts|, i requires 0 <= i < |texts| => embed(texts[i]))
  }

  /** A permuted reply put back in order is the embeddings of its texts, in order. */
  lemma AlignedIsEmbedded(embed: string -> Vector, provider: (nat, seq<string>) -> Reply, n: nat, texts: seq<string>,
                          dimensions: nat, vectors: seq<Vector>)
    requires Labelled(embed, provider)
    requires Permutation(ItemsOf(provider(n, texts)), |texts|, dimensions)
    requires |vectors| == |texts| && Aligned(ItemsOf(provider(n, texts)), vectors)
    ensures vectors == Embedded(embed, texts)
  {
    hide VectorDefect;
    var items := ItemsOf(provider(n, texts));
    forall i | 0 <= i < |texts| ensures vectors[i] == embed(texts[i])
    {
      var k := ItemOf(items, |texts|, dimensions, i);
      assert items[k] == ItemAt(provider(n, texts), k);
    }
  }

  /** Some item has index `i`. */
  lemma ItemOf(data: seq<Item>, count: nat, dimensions: nat, i: nat) returns (k: nat)
    requires Permutation(data, count, dimensions) && i < count
    ensures k < count && data[k].index == Some(i)
  {
    hide VectorDefect;
    PermutationIffSound(data, count, dimensions);
    var seen := set j | 0 <= j < |data| :: data[j].index.value;
    forall x ensures x in seen <==> exists j :: 0 <= j < |data| && data[j].index == Some(x) {}
    CompleteIffCounted(data, count, dimensions, seen);
    assert i in IndexRange(count);
    k :| 0 <= k < |data| && data[k].index == Some(i);
  }

  /** The reply to batch `b`. */
  function BatchReply(provider: (nat, seq<string>) -> Reply, texts: seq<string>, size: nat, b: nat): Reply
    requires b * size <= |texts|
  {
    provider(b, texts[b * size..Min(b * size + size, |texts|)])
  }

  ghost predicate BatchAccepted(provider: (nat, seq<string>) -> Reply, model: string, texts: seq<string>, size: nat, dimensions: nat, b: nat)
  {
    && b * size < |texts|
    && Usable(BatchReply(provider, texts, size, b), model, Min(size, |texts| - b * size), dimensions)
  }

  function BatchTokens(provider: (nat, seq<string>) -> Reply, texts: seq<string>, size: nat, b: nat): int
  {
    if b * size <= |texts| && BatchReply(provider, texts, size, b).tokens.Some? then BatchReply(provider, texts, size, b).tokens.value else 0
  }

  /** The tokens of the first `n` batches. */
  function TokenSum(provider: (nat, seq<string>) -> Reply, texts: seq<string>, size: nat, n: nat): int
  {
    if n == 0 then 0 else TokenSum(provider, texts, size, n - 1) + BatchTokens(provider, texts, size, n - 1)
  }

  /** How many batches it takes. */
  function BatchCount(texts: seq<string>, size: nat): nat
    requires size >= 1
  {
    (|texts| + size - 1) / size
  }

  lemma AcceptedHere(provider: (nat, seq<string>) -> Reply, model: string, texts: seq<string>, size: nat, dimensions: nat, b: nat, start: nat)
    requires start == b * size < |texts|
    ensures var batch := texts[start..Min(start + size, |texts|)];
      && BatchReply(provider, texts, size, b) == provider(b, batch)
      && (BatchAccepted(provider, model, texts, size, dimensions, b) <==> Usable(provider(b, batch), model, |batch|, dimensions))
  {
    hide Usable;
  }

  lemma NextBatch(embed: string -> Vector, texts: seq<string>, start: nat, end: nat)
    requires start <= end <= |texts|
    ensures Embedded(embed, texts[..end]) == Embedded(embed, texts[..start]) + Embedded(embed, texts[start..end])
  {
  }

  lemma NoBatchAfter(size: nat, b: nat, c: nat)
    ensures c >= b ==> c * size >= b * size
  {
    if c >= b { assert c * size == b * size + (c - b) * size; }
  }

  lemma LastBatch(count: nat, size: nat, b: nat)
    requires size >= 1 && b * size >= count && (b > 0 ==> (b - 1) * size < count)
    ensures b == (count + size - 1) / size
  {
    if b > 0 { assert b * size == (b - 1) * size + size; }
    var rest := count + size - 1 - b * size;
    assert 0 <= rest < size;
    Quotient(count + size - 1, size, b, rest);
  }

  lemma Quotient(n: nat, size: nat, q: nat, rest: nat)
    requires size >= 1 && n == q * size + rest && rest < size
    ensures n / size == q
  {
    var (p, s) := (n / size, n % size);
    assert n == p * size + s;
    assert (p + 1) * size == p * size + size && (q + 1) * size == q * size + size;
    NoBatchAfter(size, p + 1, q);
    NoBatchAfter(size, q + 1, p);
  }

  /** Embeds the texts batch by batch; the first refused batch refuses them all. */
  method EmbedTexts(texts: seq<string>, size: nat, model: string, dimensions: nat, provider: (nat, seq<string>) -> Reply,
                    ghost embed: string -> Vector)
    returns (r: Parsed)
    requires size >= 1 && Labelled(embed, provider)
    ensures r.Batch? ==> r.vectors == Embedded(embed, texts) && r.tokens == TokenSum(provider, texts, size, BatchCount(texts, size))
    ensures r.Batch? <==> (forall b: nat :: b * size < |texts| ==> BatchAccepted(provider, model, texts, size, dimensions, b))
  {
    hide Permutation, Aligned, Labelled, BatchAccepted, Defect, Sound, FirstDefect, BatchReply;
    var vectors: seq<Vector> := [];
    var tokens := 0;
    var start, b := 0, 0;
    while start < |texts|
      invariant 0 <= start && start == b * size && b >= 0 && (b > 0 ==> (b - 1) * size < |texts|)
      invariant vectors == Embedded(embed, texts[..Min(start, |texts|)])
      invariant 0 <= tokens == TokenSum(provider, texts, size, b)
      invariant forall c: nat :: c < b ==> BatchAccepted(provider, model, texts, size, dimensions, c)
      decreases |texts| - start
    {
      var batch := texts[start..Min(start + size, |texts|)];
      var reply := provider(b, batch);
      var parsed := ParseReply(reply, model, |batch|, dimensions);
      AcceptedHere(provider, model, texts, size, dimensions, b, start);
      if parsed.Rejected? { return parsed; }
      AlignedIsEmbedded(embed, provider, b, batch, dimensions, parsed.vectors);
      NextBatch(embed, texts, start, Min(start + size, |texts|));
      vectors := vectors + parsed.vectors;
      tokens := tokens + parsed.tokens;
      start, b := start + size, b + 1;
    }
    assert texts[..|texts|] == texts;
    LastBatch(|texts|, size, b);
    forall c: nat | c * size < |texts| ensures c < b
    {
      NoBatchAfter(size, b, c);
    }
    if |vectors| != |texts| { return Rejected(INVALID); }
    r := Batch(vectors, tokens);
  }
}
