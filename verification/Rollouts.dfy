/**
  Staged rollouts of catalog agents: which version a workspace is offered, and
  how the operator's actions change that.
 */
module Rollouts {
  import opened Prelude

  type VersionId = nat
  type RolloutId = nat

  datatype Channel = Stable | Beta | Canary

  /** A wider channel also receives what the narrower ones serve. */
  function Scope(c: Channel): set<Channel>
  {
    match c case Stable => {Stable} case Beta => {Stable, Beta} case Canary => {Stable, Beta, Canary}
  }

  datatype VersionStatus = DraftVersion | StableVersion | BetaVersion | Deprecated | Disabled

  predicate Offerable(s: VersionStatus) { s == StableVersion || s == BetaVersion }

  datatype Version = Version(major: nat, minor: nat, patch: nat, status: VersionStatus, channel: Channel)

  predicate AtLeast(a: Version, b: Version)
  {
    || a.major > b.major
    || (a.major == b.major && a.minor > b.minor)
    || (a.major == b.major && a.minor == b.minor && a.patch >= b.patch)
  }

  lemma AtLeastItself(a: Version)
    ensures AtLeast(a, a)
  {
  }

  lemma Overtakes(a: Version, b: Version, c: Version)
    requires !AtLeast(b, a) && AtLeast(b, c)
    ensures AtLeast(a, c)
  {
  }

  datatype State = Active | Paused | Completed | RolledBack

  datatype Rollout = Rollout(version: VersionId, channel: Channel, percentage: nat, state: State, createdAt: int)

  /** The rows of one agent. */
  datatype Catalog = Catalog(versions: map<VersionId, Version>, rollouts: map<RolloutId, Rollout>)

  /** No two rows have the same number, rollouts refer to existing versions, and no channel has two active rollouts. */
  ghost predicate Valid(c: Catalog)
  {
    && (forall u, v :: u in c.versions && v in c.versions && AtLeast(c.versions[u], c.versions[v]) && AtLeast(c.versions[v], c.versions[u]) ==> u == v)
    && (forall r :: r in c.rollouts ==> c.rollouts[r].version in c.versions && c.rollouts[r].percentage <= 100)
    && OneActive(c.rollouts)
  }

  predicate SameSlot(a: Rollout, b: Rollout)
  {
    a.state == Active && b.state == Active && a.channel == b.channel
  }

  ghost predicate OneActive(rollouts: map<RolloutId, Rollout>)
  {
    forall r, q :: r in rollouts && q in rollouts && SameSlot(rollouts[r], rollouts[q]) ==> r == q
  }

  // ------------------------------------------------------------- what is offered

  predicate InPlay(c: Catalog, channel: Channel, r: RolloutId)
  {
    r in c.rollouts && c.rollouts[r].state == Active && c.rollouts[r].channel in Scope(channel)
  }

  /** The rollout reaches the workspace's bucket. */
  predicate Includes(c: Catalog, channel: Channel, bucket: nat, r: RolloutId)
  {
    InPlay(c, channel, r) && bucket < c.rollouts[r].percentage
  }

  /** The rollout is in the workspace's scope but does not reach its bucket. */
  predicate Withholds(c: Catalog, channel: Channel, bucket: nat, r: RolloutId)
  {
    InPlay(c, channel, r) && bucket >= c.rollouts[r].percentage
  }

  predicate Withheld(c: Catalog, channel: Channel, bucket: nat, v: VersionId)
  {
    exists r :: r in c.rollouts && Withholds(c, channel, bucket, r) && c.rollouts[r].version == v
  }

  predicate Fallback(c: Catalog, channel: Channel, bucket: nat, v: VersionId)
  {
    && v in c.versions && c.versions[v].channel in Scope(channel) && Offerable(c.versions[v].status)
    && !Withheld(c, channel, bucket, v)
  }

  predicate Included(c: Catalog, channel: Channel, bucket: nat)
  {
    exists r :: r in c.rollouts && Includes(c, channel, bucket, r)
  }

  /**
    The greatest version among the rollouts that include the workspace; with none, the greatest
    offerable version not withheld.
   */
  ghost predicate IsOffer(c: Catalog, channel: Channel, bucket: nat, offer: Option<VersionId>)
    requires Valid(c)
  {
    if Included(c, channel, bucket) then
      && offer.Some? && offer.value in c.versions
      && (exists r :: r in c.rollouts && Includes(c, channel, bucket, r) && c.rollouts[r].version == offer.value)
      && (forall r :: r in c.rollouts && Includes(c, channel, bucket, r) ==> AtLeast(c.versions[offer.value], c.versions[c.rollouts[r].version]))
    else
      && (offer.None? ==> forall v :: v in c.versions ==> !Fallback(c, channel, bucket, v))
      && (offer.Some? ==> Fallback(c, channel, bucket, offer.value))
      && (offer.Some? ==> forall v :: v in c.versions && Fallback(c, channel, bucket, v) ==> AtLeast(c.versions[offer.value], c.versions[v]))
  }

  /** `chosen` leads the rollouts of `done` that include the workspace. */
  ghost predicate Leads(c: Catalog, channel: Channel, bucket: nat, done: set<RolloutId>, chosen: Option<RolloutId>)
    requires Valid(c)
  {
    && (chosen.Some? ==> chosen.value in c.rollouts && chosen.value in done && Includes(c, channel, bucket, chosen.value))
    && (forall r :: r in c.rollouts && r in done && Includes(c, channel, bucket, r) ==>
         chosen.Some? && AtLeast(c.versions[c.rollouts[chosen.value].version], c.versions[c.rollouts[r].version]))
  }

  ghost predicate AreWithheld(c: Catalog, channel: Channel, bucket: nat, done: set<RolloutId>, withheld: set<VersionId>)
  {
    forall v :: v in withheld <==> exists r :: r in c.rollouts && r in done && Withholds(c, channel, bucket, r) && c.rollouts[r].version == v
  }

  lemma TakeLead(c: Catalog, channel: Channel, bucket: nat, done: set<RolloutId>, chosen: Option<RolloutId>, r: RolloutId)
    requires Valid(c) && Leads(c, channel, bucket, done, chosen)
    requires r in c.rollouts && Includes(c, channel, bucket, r)
    ensures chosen.None? || !AtLeast(c.versions[c.rollouts[chosen.value].version], c.versions[c.rollouts[r].version]) ==>
      Leads(c, channel, bucket, done + {r}, Some(r))
  {
    hide Includes, AtLeast, OneActive;
    AtLeastItself(c.versions[c.rollouts[r].version]);
    if chosen.Some? && !AtLeast(c.versions[c.rollouts[chosen.value].version], c.versions[c.rollouts[r].version]) {
      forall q | q in c.rollouts && q in done && Includes(c, channel, bucket, q)
        ensures AtLeast(c.versions[c.rollouts[r].version], c.versions[c.rollouts[q].version])
      {
        Overtakes(c.versions[c.rollouts[r].version], c.versions[c.rollouts[chosen.value].version], c.versions[c.rollouts[q].version]);
      }
    }
  }

  /** Splits the active rollouts into those that include the workspace and those that withhold their version. */
  method Split(c: Catalog, channel: Channel, bucket: nat) returns (chosen: Option<RolloutId>, withheld: set<VersionId>)
    requires Valid(c)
    ensures Leads(c, channel, bucket, c.rollouts.Keys, chosen)
    ensures AreWithheld(c, channel, bucket, c.rollouts.Keys, withheld)
  {
    hide InPlay, AtLeast, Scope, OneActive;
    chosen, withheld := None, {};
    var done: set<RolloutId> := {};
    while c.rollouts.Keys - done != {}
      invariant done <= c.rollouts.Keys
      invariant Leads(c, channel, bucket, done, chosen)
      invariant AreWithheld(c, channel, bucket, done, withheld)
      decreases c.rollouts.Keys - done
    {
      var r :| r in c.rollouts.Keys - done;
      if InPlay(c, channel, r) {
        if bucket < c.rollouts[r].percentage {
          TakeLead(c, channel, bucket, done, chosen, r);
          if chosen.None? || !AtLeast(c.versions[c.rollouts[chosen.value].version], c.versions[c.rollouts[r].version]) {
            chosen := Some(r);
          }
        } else {
          withheld := withheld + {c.rollouts[r].version};
        }
      }
      done := done + {r};
    }
  }

  method Offered(c: Catalog, channel: Channel, bucket: nat) returns (offer: Option<VersionId>)
    requires Valid(c)
    ensures IsOffer(c, channel, bucket, offer)
  {
    hide Includes, AtLeast, Scope, Fallback, OneActive, Withholds;
    var chosen, withheld := Split(c, channel, bucket);
    if chosen.Some? {
      return Some(c.rollouts[chosen.value].version);
    }
    offer := Newest(c, channel, bucket, withheld);
  }

  method Newest(c: Catalog, channel: Channel, bucket: nat, withheld: set<VersionId>) returns (offer: Option<VersionId>)
    requires Valid(c) && !Included(c, channel, bucket)
    requires forall v :: v in withheld <==> Withheld(c, channel, bucket, v)
    ensures IsOffer(c, channel, bucket, offer)
  {
    offer := None;
    var rest := c.versions.Keys;
    while rest != {}
      invariant rest <= c.versions.Keys
      invariant offer.Some? ==> Fallback(c, channel, bucket, offer.value)
      invariant forall v :: v in c.versions && v !in rest && Fallback(c, channel, bucket, v) ==>
                  offer.Some? && AtLeast(c.versions[offer.value], c.versions[v])
      decreases |rest|
    {
      var v :| v in rest;
      rest := rest - {v};
      if c.versions[v].channel in Scope(channel) && Offerable(c.versions[v].status) && v !in withheld
         && (offer.None? || !AtLeast(c.versions[offer.value], c.versions[v])) {
        offer := Some(v);
      }
    }
  }

  /** A workspace has one offer. */
  lemma OfferIsUnique(c: Catalog, channel: Channel, bucket: nat, a: Option<VersionId>, b: Option<VersionId>)
    requires Valid(c) && IsOffer(c, channel, bucket, a) && IsOffer(c, channel, bucket, b)
    ensures a == b
  {
  }

  // ------------------------------------------------------------------- widening

  /** The operator gives one rollout another percentage. */
  function Widen(c: Catalog, r: RolloutId, percentage: nat): (wide: Catalog)
    requires r in c.rollouts
    ensures Valid(c) && Widening(c, r, percentage) ==> Valid(wide)
  {
    c.(rollouts := c.rollouts[r := c.rollouts[r].(percentage := percentage)])
  }

  ghost predicate Widening(c: Catalog, r: RolloutId, percentage: nat)
  {
    r in c.rollouts && c.rollouts[r].state == Active && c.rollouts[r].percentage <= percentage <= 100
  }

  lemma WiderIncludes(c: Catalog, r: RolloutId, percentage: nat, channel: Channel, bucket: nat)
    requires Widening(c, r, percentage)
    ensures forall q :: Includes(c, channel, bucket, q) ==> Includes(Widen(c, r, percentage), channel, bucket, q)
  {
  }

  /**
    Widening drops no workspace from any rollout, and never lowers the version of a workspace some
    rollout already includes.
   */
  lemma WideningKeepsIncluded(c: Catalog, r: RolloutId, percentage: nat, channel: Channel, bucket: nat,
                              before: Option<VersionId>, after: Option<VersionId>)
    requires Valid(c) && Widening(c, r, percentage)
    requires IsOffer(c, channel, bucket, before) && IsOffer(Widen(c, r, percentage), channel, bucket, after)
    ensures forall q :: q in c.rollouts && Includes(c, channel, bucket, q) ==> Includes(Widen(c, r, percentage), channel, bucket, q)
    ensures Included(c, channel, bucket) ==>
      before.Some? && after.Some? && AtLeast(c.versions[after.value], c.versions[before.value])
  {
    hide Scope, OneActive, Fallback, AtLeast;
    var wide := Widen(c, r, percentage);
    WiderIncludes(c, r, percentage, channel, bucket);
    hide Includes;
    if Included(c, channel, bucket) {
      var q :| q in c.rollouts && Includes(c, channel, bucket, q) && c.rollouts[q].version == before.value;
      assert Includes(wide, channel, bucket, q) && Included(wide, channel, bucket);
      assert wide.rollouts[q].version == before.value;
    }
  }

  /**
    A workspace no rollout includes yet is lowered by a widening exactly when the widening reaches it
    with a version older than the one it has.
   */
  lemma WideningCanLower(c: Catalog, r: RolloutId, percentage: nat, channel: Channel, bucket: nat,
                         before: VersionId, after: Option<VersionId>)
    requires Valid(c) && Widening(c, r, percentage)
    requires IsOffer(c, channel, bucket, Some(before)) && IsOffer(Widen(c, r, percentage), channel, bucket, after)
    requires !Included(c, channel, bucket)
    ensures after.Some? && after.value in c.versions
    ensures !AtLeast(c.versions[after.value], c.versions[before])
       <==> c.rollouts[r].channel in Scope(channel) && bucket < percentage && !AtLeast(c.versions[c.rollouts[r].version], c.versions[before])
  {
    hide AtLeast, Scope, OneActive;
    var wide := Widen(c, r, percentage);
    assert forall q :: q in c.rollouts && q != r ==> (InPlay(wide, channel, q) <==> InPlay(c, channel, q));
    if Includes(wide, channel, bucket, r) {
      assert forall q :: q in wide.rollouts && Includes(wide, channel, bucket, q) ==> q == r by {
        forall q | q in wide.rollouts && q != r ensures !Includes(wide, channel, bucket, q)
        {
          assert !Includes(c, channel, bucket, q);
        }
      }
    } else {
      SameWhenNotReached(c, r, percentage, channel, bucket);
    }
  }

  const OLDER_STAGED := Catalog(
    map[1 := Version(1, 0, 0, StableVersion, Stable), 2 := Version(2, 0, 0, StableVersion, Stable)],
    map[7 := Rollout(1, Stable, 10, Active, 5)])

  lemma OnNewestBefore(bucket: nat)
    requires 10 <= bucket < 100
    ensures Valid(OLDER_STAGED) && !Included(OLDER_STAGED, Stable, bucket) && IsOffer(OLDER_STAGED, Stable, bucket, Some(2))
  {
    assert Withholds(OLDER_STAGED, Stable, bucket, 7);
  }

  /** It happens: a workspace on version 2 gets version 1 when the rollout of version 1 reaches it. */
  lemma WideningLowers(bucket: nat)
    requires 10 <= bucket < 100
    ensures Valid(OLDER_STAGED) && Widening(OLDER_STAGED, 7, 100)
    ensures IsOffer(OLDER_STAGED, Stable, bucket, Some(2)) && IsOffer(Widen(OLDER_STAGED, 7, 100), Stable, bucket, Some(1))
    ensures !AtLeast(OLDER_STAGED.versions[1], OLDER_STAGED.versions[2])
  {
    OnNewestBefore(bucket);
    hide Valid, Fallback, Withholds;
    assert Includes(Widen(OLDER_STAGED, 7, 100), Stable, bucket, 7);
  }

  lemma SameWhenNotReached(c: Catalog, r: RolloutId, percentage: nat, channel: Channel, bucket: nat)
    requires Valid(c) && Widening(c, r, percentage)
    requires !Included(c, channel, bucket) && !Includes(Widen(c, r, percentage), channel, bucket, r)
    ensures !Included(Widen(c, r, percentage), channel, bucket)
    ensures forall v :: v in c.versions ==> (Fallback(Widen(c, r, percentage), channel, bucket, v) <==> Fallback(c, channel, bucket, v))
  {
    hide AtLeast, Scope, Valid;
    var wide := Widen(c, r, percentage);
    forall q | q in wide.rollouts ensures !Includes(wide, channel, bucket, q)
    {
      assert !Includes(c, channel, bucket, q);
    }
    forall v ensures Withheld(wide, channel, bucket, v) <==> Withheld(c, channel, bucket, v)
    {
      if Withheld(c, channel, bucket, v) {
        var q :| q in c.rollouts && Withholds(c, channel, bucket, q) && c.rollouts[q].version == v;
        assert Withholds(wide, channel, bucket, q) && wide.rollouts[q].version == v;
      }
      if Withheld(wide, channel, bucket, v) {
        var q :| q in wide.rollouts && Withholds(wide, channel, bucket, q) && wide.rollouts[q].version == v;
        assert Withholds(c, channel, bucket, q) && c.rollouts[q].version == v;
      }
    }
  }

  /** With no active rollout in a wider channel's scope, subscribing to it never offers less. */
  lemma OfferGrowsWithChannel(c: Catalog, narrow: Channel, wide: Channel, bucket: nat,
                              a: Option<VersionId>, b: Option<VersionId>)
    requires Valid(c) && Scope(narrow) <= Scope(wide)
    requires forall r :: r in c.rollouts ==> !InPlay(c, wide, r)
    requires IsOffer(c, narrow, bucket, a) && IsOffer(c, wide, bucket, b)
    ensures a.Some? ==> b.Some? && AtLeast(c.versions[b.value], c.versions[a.value])
    ensures forall v :: v in c.versions && c.versions[v].channel in Scope(wide) && Offerable(c.versions[v].status) ==>
      b.Some? && AtLeast(c.versions[b.value], c.versions[v])
  {
    forall r | r in c.rollouts ensures !InPlay(c, narrow, r) && !InPlay(c, wide, r)
    {
      assert !InPlay(c, wide, r);
    }
    assert forall v :: v in c.versions && c.versions[v].channel in Scope(wide) && Offerable(c.versions[v].status) ==> Fallback(c, wide, bucket, v);
  }

  // --------------------------------------------------- versions out of service

  /** The greatest rollout that includes the workspace is of a version that may not be offered. */
  ghost predicate LedOutOfService(c: Catalog, channel: Channel, bucket: nat)
    requires Valid(c)
  {
    exists r :: r in c.rollouts && Includes(c, channel, bucket, r) && !Offerable(c.versions[c.rollouts[r].version].status)
      && forall q :: q in c.rollouts && Includes(c, channel, bucket, q) ==> AtLeast(c.versions[c.rollouts[r].version], c.versions[c.rollouts[q].version])
  }

  /** A workspace is offered a version that may not be offered exactly when the rollout that leads for it is of one. */
  lemma OutOfServiceOffer(c: Catalog, channel: Channel, bucket: nat, v: VersionId)
    requires Valid(c) && IsOffer(c, channel, bucket, Some(v))
    ensures !Offerable(c.versions[v].status) <==> LedOutOfService(c, channel, bucket)
  {
    hide AtLeast, Scope, InPlay, OneActive;
    if LedOutOfService(c, channel, bucket) {
      var r :| r in c.rollouts && Includes(c, channel, bucket, r) && !Offerable(c.versions[c.rollouts[r].version].status)
        && forall q :: q in c.rollouts && Includes(c, channel, bucket, q) ==> AtLeast(c.versions[c.rollouts[r].version], c.versions[c.rollouts[q].version]);
      assert AtLeast(c.versions[v], c.versions[c.rollouts[r].version]) && AtLeast(c.versions[c.rollouts[r].version], c.versions[v]);
    }
  }

  ghost predicate OfferedOutOfService(c: Catalog, channel: Channel, bucket: nat, v: VersionId)
    requires Valid(c)
  {
    IsOffer(c, channel, bucket, Some(v)) && v in c.versions && !Offerable(c.versions[v].status)
  }

  /** The rollout is of a version out of service, and no rollout that reaches as far is of a greater one. */
  ghost predicate FrontsOutOfService(c: Catalog, channel: Channel, r: RolloutId)
    requires Valid(c)
  {
    && InPlay(c, channel, r) && c.rollouts[r].percentage > 0 && !Offerable(c.versions[c.rollouts[r].version].status)
    && forall q :: q in c.rollouts && InPlay(c, channel, q) && c.rollouts[q].percentage >= c.rollouts[r].percentage ==>
         AtLeast(c.versions[c.rollouts[r].version], c.versions[c.rollouts[q].version])
  }

  /**
    Some workspace of the channel is offered a version out of service exactly when a rollout in play is
    of such a version, reaches someone, and no rollout that reaches at least as far is of a greater one.
   */
  lemma OutOfServiceIsServed(c: Catalog, channel: Channel)
    requires Valid(c)
    ensures (exists bucket: nat, v :: bucket < 100 && OfferedOutOfService(c, channel, bucket, v))
       <==> (exists r :: r in c.rollouts && FrontsOutOfService(c, channel, r))
  {
    hide AtLeast, Scope, InPlay, OneActive;
    if bucket: nat, v :| bucket < 100 && OfferedOutOfService(c, channel, bucket, v) {
      assert Included(c, channel, bucket);
      var r :| r in c.rollouts && Includes(c, channel, bucket, r) && c.rollouts[r].version == v;
      forall q | q in c.rollouts && InPlay(c, channel, q) && c.rollouts[q].percentage >= c.rollouts[r].percentage
        ensures AtLeast(c.versions[v], c.versions[c.rollouts[q].version])
      {
        assert Includes(c, channel, bucket, q);
      }
      assert FrontsOutOfService(c, channel, r);
    }
    if r :| r in c.rollouts && FrontsOutOfService(c, channel, r) {
      var bucket := c.rollouts[r].percentage - 1;
      var v := c.rollouts[r].version;
      assert Includes(c, channel, bucket, r) && Included(c, channel, bucket);
      assert OfferedOutOfService(c, channel, bucket, v);
    }
  }

  /** It happens: a version disabled after its rollout started is still offered to the workspaces the rollout includes. */
  lemma DisabledVersionIsServed(c: Catalog, bucket: nat)
    requires c == Catalog(map[1 := Version(1, 0, 0, StableVersion, Stable), 2 := Version(2, 0, 0, Disabled, Stable)],
                          map[7 := Rollout(2, Stable, 100, Active, 5)])
    requires bucket < 100
    ensures Valid(c) && IsOffer(c, Stable, bucket, Some(2)) && !Offerable(c.versions[2].status)
  {
    assert Includes(c, Stable, bucket, 7);
  }

  // ------------------------------------------------------- the operator's actions

  datatype Answer = Done(rollout: RolloutId) | NotFound | Conflict(reason: string) | Malformed

  const NOT_OFFERABLE := "version not offerable"
  const FINISHED := "rollout already finished"
  const ALREADY_BACK := "rollout already rolled back"
  const TWO_ACTIVE := "unique index"

  /** Some rollout other than `r` is active on the channel. */
  ghost predicate Occupied(c: Catalog, channel: Channel, r: RolloutId)
  {
    exists q :: q in c.rollouts && q != r && c.rollouts[q].state == Active && c.rollouts[q].channel == channel
  }

  /** Rollouts a rollback of `r` may restore: older ones of its channel that were not rolled back. */
  predicate Precedes(c: Catalog, q: RolloutId, r: RolloutId)
    requires r in c.rollouts
  {
    && q in c.rollouts && c.rollouts[q].channel == c.rollouts[r].channel
    && c.rollouts[q].createdAt < c.rollouts[r].createdAt && c.rollouts[q].state != RolledBack
  }

  ghost predicate IsPrevious(c: Catalog, q: RolloutId, r: RolloutId)
    requires r in c.rollouts
  {
    && Precedes(c, q, r)
    && forall p :: p in c.rollouts && Precedes(c, p, r) ==>
         c.rollouts[p].createdAt < c.rollouts[q].createdAt || (c.rollouts[p].createdAt == c.rollouts[q].createdAt && p <= q)
  }

  /** The rollout table after a new rollout takes over its channel. */
  function Superseded(c: Catalog, channel: Channel): (rows: map<RolloutId, Rollout>)
    ensures forall q :: q in rows <==> q in c.rollouts
    ensures forall q :: q in rows ==> rows[q].version == c.rollouts[q].version && rows[q].channel == c.rollouts[q].channel
  {
    map q | q in c.rollouts ::
      if c.rollouts[q].channel == channel && c.rollouts[q].state == Active then c.rollouts[q].(state := Completed) else c.rollouts[q]
  }

  function Created(c: Catalog, channel: Channel, id: RolloutId, version: VersionId, percentage: nat, now: int): (created: Catalog)
    ensures Valid(c) && id !in c.rollouts && version in c.versions && percentage <= 100 ==> Valid(created)
  {
    assert Valid(c) && id !in c.rollouts && version in c.versions && percentage <= 100 ==>
             Valid(WithRollout(c.(rollouts := Superseded(c, channel)), id, Rollout(version, channel, percentage, Active, now))) by {
      if Valid(c) && version in c.versions && percentage <= 100 {
        ClearedIsValid(c, channel);
        ClearedIsFree(c, channel, id);
        WriteKeepsValid(c.(rollouts := Superseded(c, channel)), id, Rollout(version, channel, percentage, Active, now));
      }
    }
    WithRollout(c.(rollouts := Superseded(c, channel)), id, Rollout(version, channel, percentage, Active, now))
  }

  function WithRollout(c: Catalog, r: RolloutId, row: Rollout): Catalog
  {
    c.(rollouts := c.rollouts[r := row])
  }

  lemma ClearedIsValid(c: Catalog, channel: Channel)
    requires Valid(c)
    ensures Valid(c.(rollouts := Superseded(c, channel)))
  {
    OneActiveStays(c, channel);
    hide OneActive, AtLeast;
  }

  lemma ClearedIsFree(c: Catalog, channel: Channel, id: RolloutId)
    ensures !Occupied(c.(rollouts := Superseded(c, channel)), channel, id)
  {
  }

  lemma OneActiveStays(c: Catalog, channel: Channel)
    requires OneActive(c.rollouts)
    ensures OneActive(Superseded(c, channel))
  {
    var cleared := Superseded(c, channel);
    forall r, q | r in cleared && q in cleared && SameSlot(cleared[r], cleared[q]) ensures r == q
    {
      assert SameSlot(c.rollouts[r], c.rollouts[q]);
    }
  }

  /** A row may be written when no other row is active in its slot. */
  lemma WriteKeepsValid(c: Catalog, r: RolloutId, row: Rollout)
    requires Valid(c) && row.version in c.versions && row.percentage <= 100
    requires row.state == Active ==> !Occupied(c, row.channel, r)
    ensures Valid(WithRollout(c, r, row))
  {
    hide AtLeast;
    if row.state == Active {
      forall q | q in c.rollouts && q != r ensures !SameSlot(c.rollouts[q], row)
      {
        assert !(c.rollouts[q].state == Active && c.rollouts[q].channel == row.channel);
      }
    }
  }

  lemma OccupiedIsSlotTaken(c: Catalog, r: RolloutId, row: Rollout)
    requires row.state == Active
    ensures Occupied(c, row.channel, r) <==> exists q :: q in c.rollouts && q != r && SameSlot(c.rollouts[q], row)
  {
    if Occupied(c, row.channel, r) {
      var q :| q in c.rollouts && q != r && c.rollouts[q].state == Active && c.rollouts[q].channel == row.channel;
      assert SameSlot(c.rollouts[q], row);
    }
    if q :| q in c.rollouts && q != r && SameSlot(c.rollouts[q], row) {
      assert c.rollouts[q].state == Active;
    }
  }

  class RolloutTable {
    var catalog: Catalog
    var now: int

    constructor (catalog: Catalog, now: int)
      requires Valid(catalog)
      ensures Ok() && this.catalog == catalog && this.now == now
    {
      this.catalog, this.now := catalog, now;
    }

    method Wait(seconds: nat)
      modifies this`now
      ensures now == old(now) + seconds
    {
      now := now + seconds;
    }

    ghost predicate Ok()
      reads this
    {
      Valid(catalog)
    }

    /** A new rollout completes the channel's active one; only offerable versions may be rolled out. */
    method CreateRollout(id: RolloutId, version: VersionId, channel: Channel, percentage: nat) returns (a: Answer)
      requires Ok() && id !in catalog.rollouts && percentage <= 100
      modifies this`catalog
      ensures Ok()
      ensures a == if version !in old(catalog).versions then NotFound
                   else if !Offerable(old(catalog).versions[version].status) then Conflict(NOT_OFFERABLE) else Done(id)
      ensures catalog == if a.Done? then Created(old(catalog), channel, id, version, percentage, now) else old(catalog)
    {
      hide Valid, Superseded;
      if version !in catalog.versions { return NotFound; }
      if !Offerable(catalog.versions[version].status) { return Conflict(NOT_OFFERABLE); }
      assert Valid(Created(catalog, channel, id, version, percentage, now));
      catalog := catalog.(rollouts := Superseded(catalog, channel)[id := Rollout(version, channel, percentage, Active, now)]);
      a := Done(id);
    }

    /** An update gives a share of at most 100 or a state, and rolling back is not an update. */
    static predicate BadUpdate(percentage: Option<nat>, state: Option<State>)
    {
      || (percentage.None? && state.None?)
      || (percentage.Some? && percentage.value > 100)
      || state == Some(RolledBack)
    }

    /** Changes a rollout that is still open; the database refuses a second active one. */
    method UpdateRollout(r: RolloutId, percentage: Option<nat>, state: Option<State>) returns (a: Answer)
      requires Ok()
      modifies this`catalog
      ensures Ok()
      ensures a == if BadUpdate(percentage, state) then Malformed
                   else if r !in old(catalog).rollouts then NotFound
                   else if old(catalog).rollouts[r].state in {RolledBack, Completed} then Conflict(FINISHED)
                   else if Changed(old(catalog).rollouts[r], percentage, state).state == Active
                           && Occupied(old(catalog), old(catalog).rollouts[r].channel, r) then Conflict(TWO_ACTIVE)
                   else Done(r)
      ensures catalog == if a.Done? then WithRollout(old(catalog), r, Changed(old(catalog).rollouts[r], percentage, state)) else old(catalog)
    {
      hide Occupied, OneActive, AtLeast;
      if BadUpdate(percentage, state) { return Malformed; }
      if r !in catalog.rollouts { return NotFound; }
      var current := catalog.rollouts[r];
      if current.state == RolledBack || current.state == Completed { return Conflict(FINISHED); }
      var changed := Changed(current, percentage, state);
      if changed.state == Active {
        OccupiedIsSlotTaken(catalog, r, changed);
        if exists q :: q in catalog.rollouts && q != r && SameSlot(catalog.rollouts[q], changed) { return Conflict(TWO_ACTIVE); }
      }
      WriteKeepsValid(catalog, r, changed);
      catalog := catalog.(rollouts := catalog.rollouts[r := changed]);
      a := Done(r);
    }

    /** Retires a rollout and puts the version before it back on the whole channel. */
    method RollBack(r: RolloutId, id: RolloutId) returns (a: Answer)
      requires Ok() && id !in catalog.rollouts
      modifies this`catalog
      ensures Ok()
      ensures a == NotFound <==> r !in old(catalog).rollouts
      ensures a == Conflict(ALREADY_BACK) <==> r in old(catalog).rollouts && old(catalog).rollouts[r].state == RolledBack
      ensures a == Conflict(TWO_ACTIVE) <==> RollbackBlocked(old(catalog), r)
      ensures a.Done? <==> r in old(catalog).rollouts && old(catalog).rollouts[r].state != RolledBack && !RollbackBlocked(old(catalog), r)
      ensures if a.Done? then RolledBackTo(old(catalog), r, id, now, catalog, a.rollout) else catalog == old(catalog)
    {
      hide Valid, Occupied, Precedes;
      if r !in catalog.rollouts { return NotFound; }
      var current := catalog.rollouts[r];
      if current.state == RolledBack { return Conflict(ALREADY_BACK); }
      var previous := FindPrevious(catalog, r);
      var retired := WithRollout(catalog, r, current.(state := RolledBack));
      VersionsExist(catalog, r);
      WriteKeepsValid(catalog, r, current.(state := RolledBack));
      if previous.None? {
        catalog := retired;
        return Done(r);
      }
      VersionsExist(catalog, previous.value);
      var replacement := Rollout(catalog.rollouts[previous.value].version, current.channel, 100, Active, now);
      SlotAfterRetiring(catalog, r, id, replacement);
      OccupiedIsSlotTaken(retired, id, replacement);
      if exists q :: q in retired.rollouts && q != id && SameSlot(retired.rollouts[q], replacement) { return Conflict(TWO_ACTIVE); }
      WriteKeepsValid(retired, id, replacement);
      catalog := retired.(rollouts := retired.rollouts[id := replacement]);
      a := Done(id);
    }
  }

  lemma VersionsExist(c: Catalog, r: RolloutId)
    requires Valid(c) && r in c.rollouts
    ensures c.rollouts[r].version in c.versions && c.rollouts[r].percentage <= 100
  {
  }

  lemma SlotAfterRetiring(c: Catalog, r: RolloutId, id: RolloutId, replacement: Rollout)
    requires r in c.rollouts && id !in c.rollouts && replacement.state == Active && replacement.channel == c.rollouts[r].channel
    ensures Occupied(WithRollout(c, r, c.rollouts[r].(state := RolledBack)), replacement.channel, id)
       <==> Occupied(c, c.rollouts[r].channel, r)
  {
    var retired := WithRollout(c, r, c.rollouts[r].(state := RolledBack));
    assert forall q :: q in c.rollouts && q != r ==> retired.rollouts[q] == c.rollouts[q];
  }

  /** A rollback that would restore a version fails exactly when another rollout already serves the channel. */
  ghost predicate RollbackBlocked(c: Catalog, r: RolloutId)
  {
    && r in c.rollouts && c.rollouts[r].state != RolledBack
    && (exists q :: q in c.rollouts && Precedes(c, q, r))
    && Occupied(c, c.rollouts[r].channel, r)
  }

  /** `SET` of the fields that were given. */
  function Changed(r: Rollout, percentage: Option<nat>, state: Option<State>): Rollout
  {
    r.(percentage := if percentage.Some? then percentage.value else r.percentage, state := if state.Some? then state.value else r.state)
  }

  /**
    The effect of a rollback: `r` is retired and, if anything preceded it, the latest such version is
    active for everyone.
   */
  ghost predicate RolledBackTo(before: Catalog, r: RolloutId, id: RolloutId, now: int, after: Catalog, answer: RolloutId)
  {
    r in before.rollouts
    && var retired := WithRollout(before, r, before.rollouts[r].(state := RolledBack));
       if forall q :: q in before.rollouts ==> !Precedes(before, q, r) then after == retired && answer == r
       else answer == id && exists q :: q in before.rollouts && IsPrevious(before, q, r) && Restored(before, retired, r, q, id, now, after)
  }

  ghost predicate Restored(before: Catalog, retired: Catalog, r: RolloutId, q: RolloutId, id: RolloutId, now: int, after: Catalog)
    requires r in before.rollouts && q in before.rollouts
  {
    after == WithRollout(retired, id, Rollout(before.rollouts[q].version, before.rollouts[r].channel, 100, Active, now))
  }

  method FindPrevious(c: Catalog, r: RolloutId) returns (previous: Option<RolloutId>)
    requires r in c.rollouts
    ensures previous.None? ==> forall q :: q in c.rollouts ==> !Precedes(c, q, r)
    ensures previous.Some? ==> previous.value in c.rollouts && IsPrevious(c, previous.value, r)
  {
    previous := None;
    var rest := c.rollouts.Keys;
    while rest != {}
      invariant rest <= c.rollouts.Keys
      invariant previous.Some? ==> previous.value in c.rollouts && Precedes(c, previous.value, r)
      invariant forall p :: p in c.rollouts && p !in rest && Precedes(c, p, r) ==>
        previous.Some? && (c.rollouts[p].createdAt < c.rollouts[previous.value].createdAt
                           || (c.rollouts[p].createdAt == c.rollouts[previous.value].createdAt && p <= previous.value))
      decreases |rest|
    {
      var q :| q in rest;
      rest := rest - {q};
      if Precedes(c, q, r)
         && (previous.None? || c.rollouts[q].createdAt > c.rollouts[previous.value].createdAt
             || (c.rollouts[q].createdAt == c.rollouts[previous.value].createdAt && q > previous.value)) {
        previous := Some(q);
      }
    }
  }

  /**
    After a rollback that restored a version, every workspace subscribed to the channel is offered at
    least that version.
   */
  lemma RollbackServesEveryone(before: Catalog, r: RolloutId, id: RolloutId, now: int, after: Catalog, q: RolloutId,
                               channel: Channel, bucket: nat, offer: Option<VersionId>)
    requires Valid(before) && Valid(after) && id !in before.rollouts
    requires RolledBackTo(before, r, id, now, after, id)
    requires IsPrevious(before, q, r)
    requires before.rollouts[r].channel in Scope(channel) && bucket < 100
    requires IsOffer(after, channel, bucket, offer)
    ensures offer.Some? && AtLeast(after.versions[offer.value], after.versions[before.rollouts[q].version])
  {
    hide AtLeast, Scope;
    assert Precedes(before, q, r);
    PreviousIsUnique(before, r);
    assert Includes(after, channel, bucket, id);
  }

  lemma PreviousIsUnique(c: Catalog, r: RolloutId)
    requires r in c.rollouts
    ensures forall p, q :: IsPrevious(c, p, r) && IsPrevious(c, q, r) ==> p == q
  {
  }

  // ------------------------------------------------- undoing the newest rollout

  /** The channel's active rollout is of version `v`. */
  ghost predicate Serves(c: Catalog, channel: Channel, v: VersionId)
  {
    exists q :: q in c.rollouts && c.rollouts[q].state == Active && c.rollouts[q].channel == channel && c.rollouts[q].version == v
  }

  /** A rollout of the channel from before `now` that was not rolled back, whatever its state. */
  predicate Earlier(c: Catalog, channel: Channel, now: int, q: RolloutId)
  {
    q in c.rollouts && c.rollouts[q].channel == channel && c.rollouts[q].createdAt < now && c.rollouts[q].state != RolledBack
  }

  /** The newest of them. */
  ghost predicate IsLatest(c: Catalog, channel: Channel, now: int, q: RolloutId)
  {
    && Earlier(c, channel, now, q)
    && forall p :: p in c.rollouts && Earlier(c, channel, now, p) ==>
         c.rollouts[p].createdAt < c.rollouts[q].createdAt || (c.rollouts[p].createdAt == c.rollouts[q].createdAt && p <= q)
  }

  /** The newest rollout of the channel that was not rolled back is of version `v`. */
  ghost predicate LatestIs(c: Catalog, channel: Channel, now: int, v: VersionId)
  {
    exists q :: q in c.rollouts && IsLatest(c, channel, now, q) && c.rollouts[q].version == v
  }

  /**
    Rollout `r` has been added to the catalog on that channel at that time; its version, share and state
    are any, and nothing else has happened since.
   */
  ghost predicate IsStaged(c: Catalog, channel: Channel, r: RolloutId, now: int, staged: Catalog)
  {
    && r in staged.rollouts && staged.rollouts[r].channel == channel && staged.rollouts[r].createdAt == now
    && staged == c.(rollouts := Superseded(c, channel)[r := staged.rollouts[r]])
  }

  lemma CreatedIsStaged(c: Catalog, channel: Channel, r: RolloutId, version: VersionId, percentage: nat, now: int)
    ensures IsStaged(c, channel, r, now, Created(c, channel, r, version, percentage, now))
  {
    var created := Created(c, channel, r, version, percentage, now);
    assert created.rollouts[r] == Rollout(version, channel, percentage, Active, now);
  }

  /** Each catalog comes from the one before by a change of that rollout's share, state or both. */
  ghost predicate Updates(catalogs: seq<Catalog>, r: RolloutId)
  {
    forall i {:trigger catalogs[i]} :: 0 <= i < |catalogs| - 1 ==> UpdatedTo(catalogs[i], r, catalogs[i + 1])
  }

  ghost predicate UpdatedTo(before: Catalog, r: RolloutId, after: Catalog)
  {
    r in before.rollouts && exists percentage, state :: after == WithRollout(before, r, Changed(before.rollouts[r], percentage, state))
  }

  lemma UpdateKeepsStaged(c: Catalog, channel: Channel, r: RolloutId, now: int, before: Catalog, after: Catalog)
    requires IsStaged(c, channel, r, now, before) && UpdatedTo(before, r, after)
    ensures IsStaged(c, channel, r, now, after)
  {
    var percentage, state :| after == WithRollout(before, r, Changed(before.rollouts[r], percentage, state));
    var row := Changed(before.rollouts[r], percentage, state);
    assert after.rollouts[r] == row;
    assert Superseded(c, channel)[r := before.rollouts[r]][r := row] == Superseded(c, channel)[r := row];
  }

  /** However a rollout is widened, narrowed, paused and resumed after its creation, it stays staged. */
  lemma {:induction false} UpdatesKeepStaged(c: Catalog, channel: Channel, r: RolloutId, version: VersionId, percentage: nat, now: int,
                                             catalogs: seq<Catalog>, i: nat)
    requires i < |catalogs| && catalogs[0] == Created(c, channel, r, version, percentage, now) && Updates(catalogs, r)
    ensures IsStaged(c, channel, r, now, catalogs[i])
  {
    hide Created, IsStaged, UpdatedTo;
    if i == 0 {
      CreatedIsStaged(c, channel, r, version, percentage, now);
    } else {
      UpdatesKeepStaged(c, channel, r, version, percentage, now, catalogs, i - 1);
      assert UpdatedTo(catalogs[i - 1], r, catalogs[i - 1 + 1]);
      UpdateKeepsStaged(c, channel, r, now, catalogs[i - 1], catalogs[i]);
    }
  }

  /** What precedes a staged rollout is what was there before it, whatever became of its state. */
  lemma PrecedesStaged(c: Catalog, channel: Channel, r: RolloutId, now: int, staged: Catalog, q: RolloutId)
    requires r !in c.rollouts && IsStaged(c, channel, r, now, staged)
    ensures Precedes(staged, q, r) <==> Earlier(c, channel, now, q)
  {
  }

  lemma PreviousToStaged(c: Catalog, channel: Channel, r: RolloutId, now: int, staged: Catalog, q: RolloutId)
    requires r !in c.rollouts && IsStaged(c, channel, r, now, staged)
    ensures IsPrevious(staged, q, r) <==> IsLatest(c, channel, now, q)
  {
    forall p ensures Precedes(staged, p, r) <==> Earlier(c, channel, now, p)
    {
      PrecedesStaged(c, channel, r, now, staged, p);
    }
  }

  /** A staged rollout is alone on its channel, so rolling it back is never refused. */
  lemma StagedIsNotBlocked(c: Catalog, channel: Channel, r: RolloutId, now: int, staged: Catalog)
    requires r !in c.rollouts && IsStaged(c, channel, r, now, staged)
    ensures !RollbackBlocked(staged, r)
  {
  }

  lemma LatestIsUnique(c: Catalog, channel: Channel, now: int, q: RolloutId, v: VersionId)
    requires IsLatest(c, channel, now, q)
    ensures LatestIs(c, channel, now, v) <==> c.rollouts[q].version == v
  {
  }

  /** Retiring a staged rollout leaves its channel without an active one, and other channels alone. */
  lemma RetiredServes(c: Catalog, channel: Channel, r: RolloutId, now: int, staged: Catalog, other: Channel, v: VersionId)
    requires r !in c.rollouts && IsStaged(c, channel, r, now, staged)
    ensures var retired := WithRollout(staged, r, staged.rollouts[r].(state := RolledBack));
      Serves(retired, other, v) <==> other != channel && Serves(c, other, v)
  {
    var retired := WithRollout(staged, r, staged.rollouts[r].(state := RolledBack));
    assert forall q :: q in retired.rollouts && q != r ==> q in c.rollouts;
    assert forall q :: q in c.rollouts && c.rollouts[q].channel != channel ==> retired.rollouts[q] == c.rollouts[q];
  }

  lemma AddedServes(c: Catalog, id: RolloutId, row: Rollout, channel: Channel, v: VersionId)
    requires id !in c.rollouts && row.state == Active
    ensures Serves(WithRollout(c, id, row), channel, v) <==> Serves(c, channel, v) || (row.channel == channel && row.version == v)
  {
    var added := WithRollout(c, id, row);
    assert added.rollouts[id] == row;
    assert forall q :: q in c.rollouts ==> added.rollouts[q] == c.rollouts[q];
  }

  /**
    Creating a rollout on any catalog, changing it at will and rolling it back: what the channel serves
    then is the version of its newest rollout before it that was not rolled back, and nothing if there
    is none. Other channels are served as before.
   */
  lemma CreateThenRollBack(c: Catalog, channel: Channel, r: RolloutId, now: int, staged: Catalog,
                           id: RolloutId, later: int, after: Catalog, answer: RolloutId)
    requires r !in c.rollouts && IsStaged(c, channel, r, now, staged) && id !in c.rollouts && id != r
    requires RolledBackTo(staged, r, id, later, after, answer)
    ensures forall other, v :: Serves(after, other, v) <==> if other == channel then LatestIs(c, channel, now, v) else Serves(c, other, v)
  {
    hide Serves, LatestIs, IsLatest, IsPrevious, Earlier, Precedes, Superseded;
    var retired := WithRollout(staged, r, staged.rollouts[r].(state := RolledBack));
    forall other, v
      ensures Serves(after, other, v) <==> if other == channel then LatestIs(c, channel, now, v) else Serves(c, other, v)
    {
      RetiredServes(c, channel, r, now, staged, other, v);
      if forall q :: q in staged.rollouts ==> !Precedes(staged, q, r) {
        NothingEarlier(c, channel, r, now, staged, v);
      } else {
        var q :| q in staged.rollouts && IsPrevious(staged, q, r) && Restored(staged, retired, r, q, id, later, after);
        PreviousToStaged(c, channel, r, now, staged, q);
        LatestIsEarlier(c, channel, now, q);
        LatestIsUnique(c, channel, now, q, v);
        AddedServes(retired, id, after.rollouts[id], other, v);
      }
    }
  }

  lemma NothingEarlier(c: Catalog, channel: Channel, r: RolloutId, now: int, staged: Catalog, v: VersionId)
    requires r !in c.rollouts && IsStaged(c, channel, r, now, staged)
    requires forall q :: q in staged.rollouts ==> !Precedes(staged, q, r)
    ensures !LatestIs(c, channel, now, v)
  {
    forall q ensures !Earlier(c, channel, now, q)
    {
      PrecedesStaged(c, channel, r, now, staged, q);
    }
  }

  lemma ServedIsUnique(c: Catalog, channel: Channel, v: VersionId, w: VersionId)
    requires Valid(c) && Serves(c, channel, v) && Serves(c, channel, w)
    ensures v == w
  {
    var p :| p in c.rollouts && c.rollouts[p].state == Active && c.rollouts[p].channel == channel && c.rollouts[p].version == v;
    var q :| q in c.rollouts && c.rollouts[q].state == Active && c.rollouts[q].channel == channel && c.rollouts[q].version == w;
    assert SameSlot(c.rollouts[p], c.rollouts[q]);
  }

  lemma LatestVersionIsUnique(c: Catalog, channel: Channel, now: int, v: VersionId, w: VersionId)
    requires LatestIs(c, channel, now, v) && LatestIs(c, channel, now, w)
    ensures v == w
  {
    hide IsLatest;
    var q :| q in c.rollouts && IsLatest(c, channel, now, q) && c.rollouts[q].version == v;
    LatestIsUnique(c, channel, now, q, w);
  }

  /** The channel is served the same version in both catalogs, or none in either. */
  ghost predicate ServedAlike(a: Catalog, b: Catalog, channel: Channel)
  {
    forall v :: Serves(a, channel, v) <==> Serves(b, channel, v)
  }

  /**
    A rollback promises to put back the version that was serving the channel before the rollout was
    created. It does exactly when that is the version of the channel's newest rollout that was not
    rolled back.
   */
  lemma RollbackRestoresServed(c: Catalog, channel: Channel, r: RolloutId, now: int, staged: Catalog,
                               id: RolloutId, later: int, after: Catalog, answer: RolloutId, served: VersionId)
    requires Valid(c) && r !in c.rollouts && IsStaged(c, channel, r, now, staged) && id !in c.rollouts && id != r
    requires RolledBackTo(staged, r, id, later, after, answer)
    requires Serves(c, channel, served)
    ensures ServedAlike(after, c, channel) <==> LatestIs(c, channel, now, served)
  {
    hide Valid, Serves, LatestIs, RolledBackTo;
    CreateThenRollBack(c, channel, r, now, staged, id, later, after, answer);
    forall v | Serves(c, channel, v) ensures v == served { ServedIsUnique(c, channel, v, served); }
    forall v | LatestIs(c, channel, now, served) && LatestIs(c, channel, now, v) ensures v == served
    {
      LatestVersionIsUnique(c, channel, now, v, served);
    }
  }

  /** A channel without an active rollout is left without one exactly when all its earlier rollouts were rolled back. */
  lemma RollbackLeavesUnserved(c: Catalog, channel: Channel, r: RolloutId, now: int, staged: Catalog,
                               id: RolloutId, later: int, after: Catalog, answer: RolloutId)
    requires r !in c.rollouts && IsStaged(c, channel, r, now, staged) && id !in c.rollouts && id != r
    requires RolledBackTo(staged, r, id, later, after, answer)
    requires forall v :: !Serves(c, channel, v)
    ensures ServedAlike(after, c, channel) <==> forall q :: !Earlier(c, channel, now, q)
  {
    hide Serves, IsLatest, IsPrevious, Earlier, Precedes, Superseded;
    CreateThenRollBack(c, channel, r, now, staged, id, later, after, answer);
    forall q ensures Precedes(staged, q, r) <==> Earlier(c, channel, now, q)
    {
      PrecedesStaged(c, channel, r, now, staged, q);
    }
    if forall q :: q in staged.rollouts ==> !Precedes(staged, q, r) {
      forall v ensures !LatestIs(c, channel, now, v) { NothingEarlier(c, channel, r, now, staged, v); }
      forall q ensures !Earlier(c, channel, now, q) { PrecededExists(staged, q, r); }
    } else {
      var q :| q in staged.rollouts && IsPrevious(staged, q, r);
      PreviousToStaged(c, channel, r, now, staged, q);
      LatestIsEarlier(c, channel, now, q);
      LatestIsUnique(c, channel, now, q, c.rollouts[q].version);
      assert Serves(after, channel, c.rollouts[q].version);
    }
  }

  lemma PrecededExists(c: Catalog, q: RolloutId, r: RolloutId)
    requires r in c.rollouts
    ensures Precedes(c, q, r) ==> q in c.rollouts
  {
  }

  lemma LatestIsEarlier(c: Catalog, channel: Channel, now: int, q: RolloutId)
    requires IsLatest(c, channel, now, q)
    ensures Earlier(c, channel, now, q) && q in c.rollouts
  {
  }

  const RESUMED: map<RolloutId, Rollout> := map[1 := Rollout(1, Stable, 100, Active, 0), 2 := Rollout(2, Stable, 50, Paused, 1)]

  /** Rollout 1 is paused, rollout 2 created and paused, and rollout 1 resumed. */
  method ResumeOlder(versions: map<VersionId, Version>) returns (table: RolloutTable)
    requires Valid(Catalog(versions, map[])) && {1, 2, 3} <= versions.Keys
    requires forall v :: v in {1, 2, 3} ==> Offerable(versions[v].status)
    ensures fresh(table) && table.Ok() && table.catalog == Catalog(versions, RESUMED) && table.now == 2
  {
    hide Valid, Offerable;
    table := new RolloutTable(Catalog(versions, map[]), 0);
    var a := table.CreateRollout(1, 1, Stable, 100);
    assert table.catalog.rollouts == map[1 := Rollout(1, Stable, 100, Active, 0)];
    a := table.UpdateRollout(1, None, Some(Paused));
    assert table.catalog.rollouts == map[1 := Rollout(1, Stable, 100, Paused, 0)];
    table.Wait(1);
    a := table.CreateRollout(2, 2, Stable, 50);
    assert table.catalog.rollouts == map[1 := Rollout(1, Stable, 100, Paused, 0), 2 := Rollout(2, Stable, 50, Active, 1)];
    a := table.UpdateRollout(2, None, Some(Paused));
    assert table.catalog.rollouts == map[1 := Rollout(1, Stable, 100, Paused, 0), 2 := Rollout(2, Stable, 50, Paused, 1)];
    a := table.UpdateRollout(1, None, Some(Active));
    assert table.catalog.rollouts == RESUMED;
    table.Wait(1);
  }

  /** It happens: rollout 1 serves the channel again when rollout 3 is created, and undoing rollout 3 puts version 2 back. */
  method RollbackCanRestoreAnother(versions: map<VersionId, Version>) returns (table: RolloutTable, ghost served: Catalog)
    requires Valid(Catalog(versions, map[])) && {1, 2, 3} <= versions.Keys
    requires forall v :: v in {1, 2, 3} ==> Offerable(versions[v].status)
    ensures fresh(table) && table.Ok()
    ensures Serves(served, Stable, 1) && !ServedAlike(table.catalog, served, Stable)
    ensures Serves(table.catalog, Stable, 2)
  {
    hide Valid, Offerable, ServedAlike, RolledBackTo, Superseded, Restored;
    table := ResumeOlder(versions);
    served := table.catalog;
    OlderIsServed(served);
    var a := table.CreateRollout(3, 3, Stable, 10);
    ghost var created := table.catalog;
    CreatedIsStaged(served, Stable, 3, 3, 10, 2);
    StagedIsNotBlocked(served, Stable, 3, 2, created);
    a := table.RollBack(3, 4);
    RollbackRestoresServed(served, Stable, 3, 2, created, 4, 2, table.catalog, a.rollout, 1);
    CreateThenRollBack(served, Stable, 3, 2, created, 4, 2, table.catalog, a.rollout);
  }

  lemma OlderIsServed(c: Catalog)
    requires c.rollouts == RESUMED
    ensures Serves(c, Stable, 1) && LatestIs(c, Stable, 2, 2) && !LatestIs(c, Stable, 2, 1)
  {
    assert c.rollouts[1].state == Active;
    assert IsLatest(c, Stable, 2, 2);
  }

  // --------------------------------------------- workspaces a new rollout leaves out

  predicate InService(c: Catalog, channel: Channel, v: VersionId)
  {
    v in c.versions && c.versions[v].channel in Scope(channel) && Offerable(c.versions[v].status)
  }

  /** A rollout in play for the workspace on another channel than `channel`, which a new rollout there leaves alone. */
  predicate Elsewhere(c: Catalog, channel: Channel, subscribed: Channel, q: RolloutId)
  {
    InPlay(c, subscribed, q) && c.rollouts[q].channel != channel
  }

  predicate IncludesElsewhere(c: Catalog, channel: Channel, subscribed: Channel, bucket: nat, q: RolloutId)
  {
    Elsewhere(c, channel, subscribed, q) && bucket < c.rollouts[q].percentage
  }

  predicate WithheldElsewhere(c: Catalog, channel: Channel, subscribed: Channel, bucket: nat, v: VersionId)
  {
    exists q :: q in c.rollouts && Elsewhere(c, channel, subscribed, q) && bucket >= c.rollouts[q].percentage && c.rollouts[q].version == v
  }

  /** A version in service that is neither the new one nor withheld by a rollout of another channel. */
  predicate Remains(c: Catalog, channel: Channel, subscribed: Channel, bucket: nat, version: VersionId, v: VersionId)
  {
    InService(c, subscribed, v) && v != version && !WithheldElsewhere(c, channel, subscribed, bucket, v)
  }

  /** A rollout of another channel includes the workspace. */
  ghost predicate LedElsewhere(c: Catalog, channel: Channel, subscribed: Channel, bucket: nat)
  {
    exists q :: q in c.rollouts && IncludesElsewhere(c, channel, subscribed, bucket, q)
  }

  /**
    What an offer must be to survive a new rollout that leaves the workspace out: if rollouts of other
    channels include the workspace, the version of one of them; else the newest version that remains,
    or none if none remains.
   */
  ghost predicate Survives(c: Catalog, channel: Channel, subscribed: Channel, bucket: nat, version: VersionId, offer: Option<VersionId>)
  {
    if LedElsewhere(c, channel, subscribed, bucket) then
      exists q :: q in c.rollouts && IncludesElsewhere(c, channel, subscribed, bucket, q) && offer == Some(c.rollouts[q].version)
    else
      && (offer.Some? ==> Remains(c, channel, subscribed, bucket, version, offer.value))
      && forall u :: u in c.versions && Remains(c, channel, subscribed, bucket, version, u) ==>
           offer.Some? && offer.value in c.versions && AtLeast(c.versions[offer.value], c.versions[u])
  }

  /** What is in play after a new rollout: itself, and what was in play on other channels. */
  lemma InPlayAfterCreated(c: Catalog, channel: Channel, r: RolloutId, version: VersionId, percentage: nat, now: int,
                           subscribed: Channel, q: RolloutId)
    requires r !in c.rollouts && channel in Scope(subscribed)
    ensures var created := Created(c, channel, r, version, percentage, now);
      && (InPlay(created, subscribed, q) <==> q == r || Elsewhere(c, channel, subscribed, q))
      && (Elsewhere(c, channel, subscribed, q) ==> q in c.rollouts && q != r && created.rollouts[q] == c.rollouts[q])
  {
  }

  lemma WithheldAfterCreated(c: Catalog, channel: Channel, r: RolloutId, version: VersionId, percentage: nat, now: int,
                             subscribed: Channel, bucket: nat, v: VersionId)
    requires r !in c.rollouts && channel in Scope(subscribed) && bucket >= percentage
    ensures Withheld(Created(c, channel, r, version, percentage, now), subscribed, bucket, v)
       <==> v == version || WithheldElsewhere(c, channel, subscribed, bucket, v)
  {
    hide Elsewhere, InPlay, Superseded;
    var created := Created(c, channel, r, version, percentage, now);
    forall q
      ensures InPlay(created, subscribed, q) <==> q == r || Elsewhere(c, channel, subscribed, q)
      ensures Elsewhere(c, channel, subscribed, q) ==> q in c.rollouts && q != r && created.rollouts[q] == c.rollouts[q]
    {
      InPlayAfterCreated(c, channel, r, version, percentage, now, subscribed, q);
    }
    assert Withholds(created, subscribed, bucket, r) && created.rollouts[r].version == version;
  }

  /**
    A workspace the new rollout leaves out is included by what includes it on other channels, and has
    what remains to fall back to.
   */
  lemma LeftOut(c: Catalog, channel: Channel, r: RolloutId, version: VersionId, percentage: nat, now: int, subscribed: Channel, bucket: nat)
    requires r !in c.rollouts && channel in Scope(subscribed) && bucket >= percentage
    ensures var created := Created(c, channel, r, version, percentage, now);
      && created.versions == c.versions
      && (forall q :: Includes(created, subscribed, bucket, q) ==> q in created.rollouts)
      && (forall q :: Includes(created, subscribed, bucket, q) <==> IncludesElsewhere(c, channel, subscribed, bucket, q))
      && (forall q :: IncludesElsewhere(c, channel, subscribed, bucket, q) ==>
            q in c.rollouts && q in created.rollouts && created.rollouts[q] == c.rollouts[q] && Includes(c, subscribed, bucket, q))
      && (forall v :: Fallback(created, subscribed, bucket, v) <==> Remains(c, channel, subscribed, bucket, version, v))
  {
    hide Withheld, WithheldElsewhere, Offerable;
    forall q
      ensures var created := Created(c, channel, r, version, percentage, now);
        && (Includes(created, subscribed, bucket, q) <==> IncludesElsewhere(c, channel, subscribed, bucket, q))
        && (IncludesElsewhere(c, channel, subscribed, bucket, q) ==> q in c.rollouts && q in created.rollouts && created.rollouts[q] == c.rollouts[q])
    {
      InPlayAfterCreated(c, channel, r, version, percentage, now, subscribed, q);
    }
    forall v
      ensures Fallback(Created(c, channel, r, version, percentage, now), subscribed, bucket, v) <==> Remains(c, channel, subscribed, bucket, version, v)
    {
      WithheldAfterCreated(c, channel, r, version, percentage, now, subscribed, bucket, v);
    }
  }

  /**
    A workspace a new rollout leaves out should keep the version that was serving its channel. It keeps
    its offer, or goes on without one, exactly when that offer survives: whatever the catalog, whichever
    channel it subscribes to, and whether a rollout of the channel included it, withheld from it or did
    not exist.
   */
  lemma LeftOutKeepsOffer(c: Catalog, channel: Channel, r: RolloutId, version: VersionId, percentage: nat, now: int,
                          subscribed: Channel, bucket: nat, before: Option<VersionId>, after: Option<VersionId>)
    requires Valid(c) && r !in c.rollouts && version in c.versions && percentage <= 100
    requires channel in Scope(subscribed) && bucket >= percentage
    requires IsOffer(c, subscribed, bucket, before)
    requires IsOffer(Created(c, channel, r, version, percentage, now), subscribed, bucket, after)
    ensures after == before <==> Survives(c, channel, subscribed, bucket, version, before)
  {
    LeftOut(c, channel, r, version, percentage, now, subscribed, bucket);
    if LedElsewhere(c, channel, subscribed, bucket) {
      LedElsewhereKeeps(c, Created(c, channel, r, version, percentage, now), channel, version, subscribed, bucket, before, after);
    } else {
      FallenBackKeeps(c, Created(c, channel, r, version, percentage, now), channel, version, subscribed, bucket, before, after);
    }
  }

  lemma LedElsewhereKeeps(c: Catalog, created: Catalog, channel: Channel, version: VersionId, subscribed: Channel, bucket: nat,
                          before: Option<VersionId>, after: Option<VersionId>)
    requires Valid(c) && Valid(created) && created.versions == c.versions
    requires forall q :: Includes(created, subscribed, bucket, q) <==> IncludesElsewhere(c, channel, subscribed, bucket, q)
    requires forall q :: IncludesElsewhere(c, channel, subscribed, bucket, q) ==>
               q in c.rollouts && q in created.rollouts && created.rollouts[q] == c.rollouts[q] && Includes(c, subscribed, bucket, q)
    requires IsOffer(c, subscribed, bucket, before) && IsOffer(created, subscribed, bucket, after)
    requires LedElsewhere(c, channel, subscribed, bucket)
    ensures after == before <==> Survives(c, channel, subscribed, bucket, version, before)
  {
    hide Includes, IncludesElsewhere, AtLeast, Scope, OneActive, Remains, Fallback;
    var q :| q in c.rollouts && IncludesElsewhere(c, channel, subscribed, bucket, q);
    assert Included(c, subscribed, bucket) && Included(created, subscribed, bucket);
    if Survives(c, channel, subscribed, bucket, version, before) {
      var p :| p in c.rollouts && IncludesElsewhere(c, channel, subscribed, bucket, p) && before == Some(c.rollouts[p].version);
      assert Includes(created, subscribed, bucket, p);
      assert AtLeast(c.versions[after.value], c.versions[before.value]) && AtLeast(c.versions[before.value], c.versions[after.value]);
    }
  }

  lemma FallenBackKeeps(c: Catalog, created: Catalog, channel: Channel, version: VersionId, subscribed: Channel, bucket: nat,
                        before: Option<VersionId>, after: Option<VersionId>)
    requires Valid(c) && Valid(created) && created.versions == c.versions
    requires forall q :: Includes(created, subscribed, bucket, q) ==> q in created.rollouts
    requires forall q :: Includes(created, subscribed, bucket, q) <==> IncludesElsewhere(c, channel, subscribed, bucket, q)
    requires forall q :: IncludesElsewhere(c, channel, subscribed, bucket, q) ==> q in c.rollouts
    requires forall v :: Fallback(created, subscribed, bucket, v) <==> Remains(c, channel, subscribed, bucket, version, v)
    requires IsOffer(created, subscribed, bucket, after)
    requires !LedElsewhere(c, channel, subscribed, bucket)
    ensures after == before <==> Survives(c, channel, subscribed, bucket, version, before)
  {
    hide Includes, IncludesElsewhere, AtLeast, Scope, OneActive, Withheld, WithheldElsewhere, Offerable;
    assert !Included(created, subscribed, bucket);
    if Survives(c, channel, subscribed, bucket, version, before) && before.Some? && after.Some? {
      assert AtLeast(c.versions[after.value], c.versions[before.value]) && AtLeast(c.versions[before.value], c.versions[after.value]);
    }
  }

  /** The versions 1, 2 and 3, all in service on the stable channel. */
  const THREE: map<VersionId, Version> :=
    map[1 := Version(1, 0, 0, StableVersion, Stable), 2 := Version(2, 0, 0, StableVersion, Stable), 3 := Version(3, 0, 0, StableVersion, Stable)]

  /** On catalogs of those versions with rollouts of their one channel only, a rollout of version 3 puts those it leaves out on version 2. */
  lemma LeftOutGetSecond(rollouts: map<RolloutId, Rollout>, r: RolloutId, percentage: nat, now: int, bucket: nat)
    requires Valid(Catalog(THREE, rollouts)) && r !in rollouts && percentage <= 100 && bucket >= percentage
    requires forall q :: q in rollouts ==> rollouts[q].channel == Stable
    ensures IsOffer(Created(Catalog(THREE, rollouts), Stable, r, 3, percentage, now), Stable, bucket, Some(2))
  {
    hide Valid, Created, Fallback, Includes;
    var c := Catalog(THREE, rollouts);
    LeftOut(c, Stable, r, 3, percentage, now, Stable, bucket);
    assert forall q :: !IncludesElsewhere(c, Stable, Stable, bucket, q);
    assert Remains(c, Stable, Stable, bucket, 3, 2);
  }

  /** Version 2 has been rolled back to version 1. */
  const AFTER_ROLLBACK: map<RolloutId, Rollout> :=
    map[1 := Rollout(1, Stable, 100, Completed, 0), 2 := Rollout(2, Stable, 100, RolledBack, 1), 4 := Rollout(1, Stable, 100, Active, 2)]

  lemma ThreeAreDistinct(u: VersionId, v: VersionId)
    ensures u in THREE && v in THREE && AtLeast(THREE[u], THREE[v]) && AtLeast(THREE[v], THREE[u]) ==> u == v
  {
  }

  lemma BackOnOlder(bucket: nat)
    requires bucket < 100
    ensures Valid(Catalog(THREE, AFTER_ROLLBACK)) && IsOffer(Catalog(THREE, AFTER_ROLLBACK), Stable, bucket, Some(1))
  {
    forall u, v | u in THREE && v in THREE && AtLeast(THREE[u], THREE[v]) && AtLeast(THREE[v], THREE[u]) ensures u == v
    {
      ThreeAreDistinct(u, v);
    }
    AtLeastItself(THREE[1]);
    hide AtLeast, Withholds;
    assert Includes(Catalog(THREE, AFTER_ROLLBACK), Stable, bucket, 4);
  }

  /** It happens: rolling version 3 out to some then puts all others on version 2 again. */
  lemma RolledBackVersionReturns(bucket: nat)
    requires 10 <= bucket < 100
    ensures Valid(Catalog(THREE, AFTER_ROLLBACK)) && IsOffer(Catalog(THREE, AFTER_ROLLBACK), Stable, bucket, Some(1))
    ensures IsOffer(Created(Catalog(THREE, AFTER_ROLLBACK), Stable, 5, 3, 10, 3), Stable, bucket, Some(2))
  {
    hide Valid, IsOffer, Created;
    BackOnOlder(bucket);
    LeftOutGetSecond(AFTER_ROLLBACK, 5, 10, 3, bucket);
  }

  /** Version 2 is rolled out to a tenth. */
  const STAGED: map<RolloutId, Rollout> := map[1 := Rollout(2, Stable, 10, Active, 0)]

  lemma OnThird(bucket: nat)
    requires 10 <= bucket < 100
    ensures Valid(Catalog(THREE, STAGED)) && Withheld(Catalog(THREE, STAGED), Stable, bucket, 2)
    ensures IsOffer(Catalog(THREE, STAGED), Stable, bucket, Some(3))
  {
    assert Withholds(Catalog(THREE, STAGED), Stable, bucket, 1);
  }

  /** It happens without a rollback too: a version withheld so far arrives when a newer one is rolled out to others. */
  lemma WithheldVersionArrives(bucket: nat)
    requires 10 <= bucket < 100
    ensures Valid(Catalog(THREE, STAGED)) && Withheld(Catalog(THREE, STAGED), Stable, bucket, 2)
    ensures IsOffer(Catalog(THREE, STAGED), Stable, bucket, Some(3))
    ensures IsOffer(Created(Catalog(THREE, STAGED), Stable, 5, 3, 10, 1), Stable, bucket, Some(2))
  {
    hide Valid, IsOffer, Created, Withheld;
    OnThird(bucket);
    LeftOutGetSecond(STAGED, 5, 10, 1, bucket);
  }
}
