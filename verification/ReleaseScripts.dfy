/**
  The staging rollout drill and the staging deployment, run against a cluster
  whose every command may fail before or after it took effect.
 */
module ReleaseScripts {
  import opened Prelude

  datatype Deployment = Api | Worker | Web

  function All(): seq<Deployment> { [Api, Worker, Web] }

  /** The position of a deployment in that order. */
  function Rank(d: Deployment): (k: nat)
    ensures k < 3 && All()[k] == d
  {
    match d case Api => 0 case Worker => 1 case Web => 2
  }

  // ------------------------------------------------------- image references

  predicate Hex(c: char) { '0' <= c <= '9' || 'a' <= c <= 'f' }

  /** A registry reference pinned to a digest: a name, `@sha256:` and 64 lower-case hex digits. */
  predicate DigestImage(image: string)
  {
    var n := |image| - 72;
    && n > 0
    && image[n..n + 8] == "@sha256:"
    && (forall i :: 0 <= i < n ==> !Space(image[i]) && image[i] != '@')
    && (forall i :: n + 8 <= i < |image| ==> Hex(image[i]))
  }

  // ------------------------------------------------------------ the cluster

  datatype Command =
    | GetImage(d: Deployment)
    | SetImage(d: Deployment, image: string)
    | DryRun(d: Deployment)
    | Undo(d: Deployment)
    | Wait(d: Deployment)
    | CanI(permission: nat)
    | Smoke
    | Render(migration: bool)
    | ApplyDryRun
    | ApplyWorkloads(overlay: map<Deployment, string>)
    | DeleteJob
    | ApplyJob
    | WaitForJob

  /** A command and whether it reported success. */
  datatype Entry = Ran(command: Command, ok: bool)

  /**
    What a command may do to the images: a set or an overlay may have taken effect although it reports
    failure, an undo goes to whatever revision came before, and a question changes nothing.
   */
  ghost predicate Effect(e: Entry, before: map<Deployment, string>, after: map<Deployment, string>)
  {
    match e.command
    case SetImage(d, image) => (after == before && !e.ok) || (d in before && after == before[d := image])
    case Undo(d) => after.Keys == before.Keys && forall k :: k in after && k != d ==> after[k] == before[k]
    case ApplyWorkloads(overlay) => Applied(overlay, before, after) && (e.ok ==> forall d :: d in overlay ==> d in after && after[d] == overlay[d])
    case _ => after == before
  }

  /** Each deployment is as before or as the overlay has it. */
  ghost predicate Applied(overlay: map<Deployment, string>, before: map<Deployment, string>, after: map<Deployment, string>)
  {
    && before.Keys <= after.Keys
    && forall d :: d in after ==> (d in before && after[d] == before[d]) || (d in overlay && after[d] == overlay[d])
  }

  /** The deployments of one namespace, and every command that was sent to it. */
  class Cluster {
    var images: map<Deployment, string>
    ghost var log: seq<Entry>

    constructor (images: map<Deployment, string>)
      ensures this.images == images && log == []
    {
      this.images, log := images, [];
    }

    /** A command that changes no workload. */
    method Ask(command: Command) returns (ok: bool)
      requires !ChangesWorkload(command)
      modifies this`log
      ensures log == old(log) + [Ran(command, ok)]
    {
      ok := *;
      log := log + [Ran(command, ok)];
    }

    /** The image, or none for a deployment that does not exist; no answer when the command fails. */
    method Get(d: Deployment) returns (answer: Option<Option<string>>)
      modifies this`log
      ensures log == old(log) + [Ran(GetImage(d), answer.Some?)]
      ensures answer.Some? ==> answer.value == if d in images then Some(images[d]) else None
    {
      var ok := Ask(GetImage(d));
      if !ok { return None; }
      answer := Some(if d in images then Some(images[d]) else None);
    }

    /** May fail before or after it took effect. */
    method Set(d: Deployment, image: string) returns (ok: bool)
      modifies this
      ensures log == old(log) + [Ran(SetImage(d, image), ok)]
      ensures Effect(Ran(SetImage(d, image), ok), old(images), images)
    {
      var acts: bool := *;
      var reports: bool := *;
      ok := acts && d in images && reports;
      if acts && d in images { images := images[d := image]; }
      log := log + [Ran(SetImage(d, image), ok)];
    }

    /** Goes to whatever revision came before, which nothing here relies on. */
    method RollOutUndo(d: Deployment) returns (ok: bool)
      modifies this
      ensures log == old(log) + [Ran(Undo(d), ok)]
      ensures Effect(Ran(Undo(d), ok), old(images), images)
    {
      var acts: bool := *;
      var earlier: string := *;
      ok := *;
      if acts && d in images { images := images[d := earlier]; }
      log := log + [Ran(Undo(d), ok)];
    }

    /** Applies the workload overlay; on failure any of its deployments may have been changed. */
    method Apply(overlay: map<Deployment, string>) returns (ok: bool)
      modifies this
      ensures log == old(log) + [Ran(ApplyWorkloads(overlay), ok)]
      ensures Effect(Ran(ApplyWorkloads(overlay), ok), old(images), images)
    {
      ok := true;
      var start := images;
      for k := 0 to 3
        invariant Applied(overlay, start, images) && log == old(log)
        invariant ok ==> forall d :: d in overlay && Rank(d) < k ==> d in images && images[d] == overlay[d]
      {
        var acts: bool := *;
        if acts && All()[k] in overlay { images := images[All()[k] := overlay[All()[k]]]; }
        ok := ok && acts;
      }
      var reports: bool := *;
      ok := ok && reports;
      log := log + [Ran(ApplyWorkloads(overlay), ok)];
    }
  }

  predicate ChangesWorkload(c: Command)
  {
    c.SetImage? || c.Undo? || c.ApplyWorkloads?
  }

  // ------------------------------------------------------------- command plans

  ghost predicate AllOk(entries: seq<Entry>)
  {
    forall i :: 0 <= i < |entries| ==> entries[i].ok
  }

  ghost function Commands(entries: seq<Entry>): (cs: seq<Command>)
    ensures |cs| == |entries| && forall i :: 0 <= i < |entries| ==> cs[i] == entries[i].command
  {
    seq(|entries|, i requires 0 <= i < |entries| => entries[i].command)
  }

  /** The commands of a plan were sent in order, and stopped at the first failure: `ok` says that there was none. */
  ghost predicate Followed(before: seq<Entry>, after: seq<Entry>, plan: seq<Command>, ok: bool)
  {
    && before <= after
    && Commands(after[|before|..]) <= plan
    && (ok ==> Commands(after[|before|..]) == plan && AllOk(after[|before|..]))
  }

  lemma FollowedThen(a: seq<Entry>, b: seq<Entry>, c: seq<Entry>, p: seq<Command>, q: seq<Command>, ok: bool)
    requires Followed(a, b, p, true) && Followed(b, c, q, ok)
    ensures Followed(a, c, p + q, ok)
  {
    var (x, y) := (b[|a|..], c[|b|..]);
    assert c[|a|..] == x + y;
    assert Commands(x + y) == Commands(x) + Commands(y);
  }

  lemma FollowedLonger(a: seq<Entry>, b: seq<Entry>, p: seq<Command>, q: seq<Command>)
    requires Followed(a, b, p, false)
    ensures Followed(a, b, p + q, false)
  {
  }

  lemma FollowedOne(a: seq<Entry>, e: Entry)
    ensures Followed(a, a + [e], [e.command], e.ok)
  {
    assert (a + [e])[|a|..] == [e];
  }

  function Gets(): seq<Command> { [GetImage(Api), GetImage(Worker), GetImage(Web)] }

  function Sets(ds: seq<Deployment>, target: map<Deployment, string>): (cs: seq<Command>)
    requires AllPresent(target)
    ensures |cs| == |ds| && forall i :: 0 <= i < |ds| ==> cs[i] == SetImage(ds[i], target[ds[i]])
  {
    seq(|ds|, i requires 0 <= i < |ds| => SetImage(ds[i], target[ds[i]]))
  }

  function Each(ds: seq<Deployment>, command: Deployment -> Command): (cs: seq<Command>)
    ensures |cs| == |ds| && forall i :: 0 <= i < |ds| ==> cs[i] == command(ds[i])
  {
    seq(|ds|, i requires 0 <= i < |ds| => command(ds[i]))
  }

  function Waits(ds: seq<Deployment>): seq<Command> { Each(ds, d => Wait(d)) }

  function Undos(ds: seq<Deployment>): seq<Command> { Each(ds, d => Undo(d)) }

  function DryRuns(ds: seq<Deployment>): seq<Command> { Each(ds, d => DryRun(d)) }

  function Permissions(n: nat): (cs: seq<Command>)
    ensures |cs| == n && forall i :: 0 <= i < n ==> cs[i] == CanI(i)
  {
    seq(n, i requires 0 <= i => CanI(i))
  }

  // -------------------------------------------------------------- the drill

  datatype DrillResult =
    | Passed(previous: map<Deployment, string>)
    | NotStarted                                  // refused, or could not look, before any change
    | FailedAndRestored
    | RestoreFailedToo(errors: set<Deployment>)

  function Requested(apiImage: string, webImage: string): (m: map<Deployment, string>)
    ensures AllPresent(m)
    ensures m[Api] == apiImage && m[Worker] == apiImage && m[Web] == webImage
  {
    EveryDeployment(map[Api := apiImage, Worker := apiImage, Web := webImage]);
    map[Api := apiImage, Worker := apiImage, Web := webImage]
  }

  predicate AllPresent(images: map<Deployment, string>)
  {
    forall d: Deployment :: d in images
  }

  lemma EveryDeployment(images: map<Deployment, string>)
    requires Api in images && Worker in images && Web in images
    ensures AllPresent(images)
  {
    forall d: Deployment ensures d in images
    {
      match d case Api => case Worker => case Web =>
    }
  }

  /** What runs, if every deployment can be asked and has an image. */
  method Snapshot(c: Cluster) returns (images: Option<map<Deployment, string>>)
    modifies c`log
    ensures images.Some? ==> images.value == c.images && AllPresent(c.images) && Followed(old(c.log), c.log, Gets(), true)
    ensures Followed(old(c.log), c.log, Gets(), false)
  {
    var m: map<Deployment, string> := map[];
    ghost var start := c.log;
    for k := 0 to 3
      invariant Followed(start, c.log, Gets()[..k], true)
      invariant forall d :: d in m ==> d in c.images && m[d] == c.images[d]
      invariant forall d: Deployment :: Rank(d) < k ==> d in m
    {
      ghost var l := c.log;
      var image := c.Get(All()[k]);
      FollowedOne(l, Ran(GetImage(All()[k]), image.Some?));
      FollowedThen(start, l, c.log, Gets()[..k], [GetImage(All()[k])], image.Some?);
      assert Gets()[..k] + [GetImage(All()[k])] == Gets()[..k + 1];
      if image.None? || image.value.None? || image.value.value == "" { return None; }
      m := m[All()[k] := image.value.value];
    }
    assert Gets()[..3] == Gets();
    assert forall d: Deployment :: Rank(d) < 3;
    assert m == c.images;
    images := Some(m);
  }

  /** The deployments on which the candidate differs from what runs, in order. */
  method Changed(previous: map<Deployment, string>, apiImage: string, webImage: string) returns (ds: seq<Deployment>)
    requires AllPresent(previous)
    ensures forall d :: d in ds <==> previous[d] != Requested(apiImage, webImage)[d]
    ensures forall i, j :: 0 <= i < j < |ds| ==> ds[i] != ds[j]
  {
    ds := [];
    for k := 0 to 3
      invariant forall d :: d in ds <==> Rank(d) < k && previous[d] != Requested(apiImage, webImage)[d]
      invariant forall i, j :: 0 <= i < j < |ds| ==> ds[i] != ds[j]
    {
      if previous[All()[k]] != Requested(apiImage, webImage)[All()[k]] { ds := ds + [All()[k]]; }
    }
  }

  /** Only these deployments may differ from what ran before. */
  ghost predicate OnlyTouched(before: map<Deployment, string>, after: map<Deployment, string>, ds: seq<Deployment>)
  {
    after.Keys == before.Keys && forall d :: d in after && d !in ds ==> after[d] == before[d]
  }

  method SetAll(c: Cluster, target: map<Deployment, string>, ds: seq<Deployment>, ghost before: map<Deployment, string>) returns (ok: bool)
    requires AllPresent(target) && OnlyTouched(before, c.images, ds)
    modifies c
    ensures OnlyTouched(before, c.images, ds)
    ensures Followed(old(c.log), c.log, Sets(ds, target), ok)
  {
    ok := true;
    ghost var (start, plan) := (c.log, Sets(ds, target));
    for k := 0 to |ds|
      invariant OnlyTouched(before, c.images, ds)
      invariant ok && Followed(start, c.log, plan[..k], true)
    {
      ghost var l := c.log;
      ok := c.Set(ds[k], target[ds[k]]);
      FollowedOne(l, Ran(plan[k], ok));
      FollowedThen(start, l, c.log, plan[..k], [plan[k]], ok);
      assert plan[..k] + [plan[k]] == plan[..k + 1];
      if !ok { return; }
    }
    assert plan[..|ds|] == plan;
  }

  method UndoAll(c: Cluster, ds: seq<Deployment>, ghost before: map<Deployment, string>) returns (ok: bool)
    requires OnlyTouched(before, c.images, ds)
    modifies c
    ensures OnlyTouched(before, c.images, ds)
    ensures Followed(old(c.log), c.log, Undos(ds), ok)
  {
    ok := true;
    ghost var (start, plan) := (c.log, Undos(ds));
    for k := 0 to |ds|
      invariant OnlyTouched(before, c.images, ds)
      invariant ok && Followed(start, c.log, plan[..k], true)
    {
      ghost var l := c.log;
      ok := c.RollOutUndo(ds[k]);
      FollowedOne(l, Ran(plan[k], ok));
      FollowedThen(start, l, c.log, plan[..k], [plan[k]], ok);
      assert plan[..k] + [plan[k]] == plan[..k + 1];
      if !ok { return; }
    }
    assert plan[..|ds|] == plan;
  }

  /** Sends commands that change nothing until one fails. */
  method AskAll(c: Cluster, plan: seq<Command>) returns (ok: bool)
    requires forall i :: 0 <= i < |plan| ==> !ChangesWorkload(plan[i])
    modifies c`log
    ensures Followed(old(c.log), c.log, plan, ok)
  {
    ok := true;
    ghost var start := c.log;
    for k := 0 to |plan|
      invariant ok && Followed(start, c.log, plan[..k], true)
    {
      ghost var l := c.log;
      ok := c.Ask(plan[k]);
      FollowedOne(l, Ran(plan[k], ok));
      FollowedThen(start, l, c.log, plan[..k], [plan[k]], ok);
      assert plan[..k] + [plan[k]] == plan[..k + 1];
      if !ok { return; }
    }
    assert plan[..|plan|] == plan;
  }

  /** What an emergency restore sends, whatever fails on the way. */
  function RestorePlan(previous: map<Deployment, string>, ds: seq<Deployment>): (cs: seq<Command>)
    requires AllPresent(previous)
    ensures |cs| == 2 * |ds|
    ensures forall i :: 0 <= i < |ds| ==> cs[i] == SetImage(ds[i], previous[ds[i]]) && cs[|ds| + i] == Wait(ds[i])
  {
    Sets(ds, previous) + Waits(ds)
  }

  function DeploymentOf(c: Command): Option<Deployment>
  {
    match c
    case GetImage(d) => Some(d)
    case SetImage(d, _) => Some(d)
    case DryRun(d) => Some(d)
    case Undo(d) => Some(d)
    case Wait(d) => Some(d)
    case _ => None
  }

  /** The deployments for which some command failed. */
  ghost predicate ErrorsOf(entries: seq<Entry>, errors: set<Deployment>)
  {
    forall d :: d in errors <==> exists i :: 0 <= i < |entries| && !entries[i].ok && DeploymentOf(entries[i].command) == Some(d)
  }

  lemma ErrorsGrow(entries: seq<Entry>, errors: set<Deployment>, e: Entry, d: Deployment)
    requires ErrorsOf(entries, errors) && DeploymentOf(e.command) == Some(d)
    ensures ErrorsOf(entries + [e], if e.ok then errors else errors + {d})
  {
    var longer := entries + [e];
    forall k ensures (exists i :: 0 <= i < |longer| && !longer[i].ok && DeploymentOf(longer[i].command) == Some(k))
                <==> (exists i :: 0 <= i < |entries| && !entries[i].ok && DeploymentOf(entries[i].command) == Some(k)) || (!e.ok && k == d)
    {
      assert longer[|entries|] == e;
      assert forall i :: 0 <= i < |entries| ==> longer[i] == entries[i];
    }
  }

  /** The first `n` commands of the plan were sent since `start`, and `errors` is what failed. */
  ghost predicate Restoring(start: seq<Entry>, log: seq<Entry>, plan: seq<Command>, n: nat, errors: set<Deployment>)
    requires n <= |plan|
  {
    start <= log && Commands(log[|start|..]) == plan[..n] && ErrorsOf(log[|start|..], errors)
  }

  lemma RestoringStep(start: seq<Entry>, log: seq<Entry>, plan: seq<Command>, n: nat, errors: set<Deployment>, ok: bool, d: Deployment)
    requires n < |plan| && DeploymentOf(plan[n]) == Some(d) && Restoring(start, log, plan, n, errors)
    ensures Restoring(start, log + [Ran(plan[n], ok)], plan, n + 1, if ok then errors else errors + {d})
  {
    hide ErrorsOf;
    var e := Ran(plan[n], ok);
    assert (log + [e])[|start|..] == log[|start|..] + [e];
    ErrorsGrow(log[|start|..], errors, e, d);
  }

  lemma RestoringStart(start: seq<Entry>, plan: seq<Command>)
    ensures Restoring(start, start, plan, 0, {})
  {
  }

  /**
    Puts every deployment back, going on after an error; `errors` is exactly what failed, and what did
    not fail is restored.
   */
  method RestoreExact(c: Cluster, previous: map<Deployment, string>, ds: seq<Deployment>) returns (errors: set<Deployment>)
    requires AllPresent(previous) && OnlyTouched(previous, c.images, ds)
    requires forall i, j :: 0 <= i < j < |ds| ==> ds[i] != ds[j]
    modifies c
    ensures OnlyTouched(previous, c.images, ds)
    ensures forall d :: d in c.images && d !in errors ==> c.images[d] == previous[d]
    ensures Restoring(old(c.log), c.log, RestorePlan(previous, ds), 2 * |ds|, errors)
  {
    hide Restoring, Sets, Each;
    errors := RestoreImages(c, previous, ds);
    ghost var (start, plan) := (old(c.log), RestorePlan(previous, ds));
    for k := 0 to |ds|
      invariant OnlyTouched(previous, c.images, ds)
      invariant forall d :: d in c.images && d !in errors ==> c.images[d] == previous[d]
      invariant Restoring(start, c.log, plan, |ds| + k, errors)
    {
      ghost var l := c.log;
      var ok := c.Ask(Wait(ds[k]));
      RestoringStep(start, l, plan, |ds| + k, errors, ok, ds[k]);
      if !ok { errors := errors + {ds[k]}; }
    }
  }

  /** Sets one deployment back. */
  method PutBack(c: Cluster, previous: map<Deployment, string>, ds: seq<Deployment>, d: Deployment) returns (ok: bool)
    requires AllPresent(previous) && OnlyTouched(previous, c.images, ds) && d in ds
    modifies c
    ensures OnlyTouched(previous, c.images, ds) && c.log == old(c.log) + [Ran(SetImage(d, previous[d]), ok)]
    ensures forall k :: k in c.images ==> c.images[k] == old(c.images)[k] || k == d
    ensures ok || old(c.images[d]) == previous[d] ==> c.images[d] == previous[d]
  {
    ok := c.Set(d, previous[d]);
  }

  method RestoreImages(c: Cluster, previous: map<Deployment, string>, ds: seq<Deployment>) returns (errors: set<Deployment>)
    requires AllPresent(previous) && OnlyTouched(previous, c.images, ds)
    requires forall i, j :: 0 <= i < j < |ds| ==> ds[i] != ds[j]
    modifies c
    ensures OnlyTouched(previous, c.images, ds)
    ensures forall d :: d in c.images && d !in errors ==> c.images[d] == previous[d]
    ensures Restoring(old(c.log), c.log, RestorePlan(previous, ds), |ds|, errors)
  {
    hide Restoring;
    errors := {};
    ghost var (start, plan) := (c.log, RestorePlan(previous, ds));
    RestoringStart(start, plan);
    for k := 0 to |ds|
      invariant OnlyTouched(previous, c.images, ds)
      invariant forall d :: d in ds[..k] && d !in errors ==> c.images[d] == previous[d]
      invariant Restoring(start, c.log, plan, k, errors)
    {
      ghost var l := c.log;
      var ok := PutBack(c, previous, ds, ds[k]);
      RestoringStep(start, l, plan, k, errors, ok, ds[k]);
      if !ok { errors := errors + {ds[k]}; }
    }
    assert ds[..|ds|] == ds;
  }

  /** Reads every image and compares; reading on after a difference. */
  method CheckImages(c: Cluster, expected: map<Deployment, string>) returns (ok: bool)
    requires AllPresent(expected)
    modifies c`log
    ensures Followed(old(c.log), c.log, Gets(), ok)
    ensures ok ==> forall d: Deployment :: d in c.images && c.images[d] == expected[d]
  {
    ok := true;
    ghost var start := c.log;
    for k := 0 to 3
      invariant Followed(start, c.log, Gets()[..k], true)
      invariant ok ==> forall d: Deployment :: Rank(d) < k ==> d in c.images && c.images[d] == expected[d]
    {
      ghost var l := c.log;
      var image := c.Get(All()[k]);
      FollowedOne(l, Ran(GetImage(All()[k]), image.Some?));
      FollowedThen(start, l, c.log, Gets()[..k], [GetImage(All()[k])], image.Some?);
      assert Gets()[..k] + [GetImage(All()[k])] == Gets()[..k + 1];
      if image.None? { return false; }
      if image.value != Some(expected[All()[k]]) { ok := false; }
    }
    assert Gets()[..3] == Gets();
    assert forall d: Deployment :: Rank(d) < 3;
  }

  /** What the drill sends between its first change and its verdict, stage by stage. */
  function ExerciseStages(candidate: map<Deployment, string>, ds: seq<Deployment>): seq<seq<Command>>
    requires AllPresent(candidate)
  {
    [Sets(ds, candidate), Waits(ds), [Smoke], Undos(ds), Waits(ds), Gets(), [Smoke]]
  }

  function Join(stages: seq<seq<Command>>): seq<Command>
  {
    if stages == [] then [] else Join(stages[..|stages| - 1]) + stages[|stages| - 1]
  }

  lemma {:induction false} JoinPrefix(stages: seq<seq<Command>>, k: nat)
    requires k <= |stages|
    ensures Join(stages[..k]) <= Join(stages)
    ensures k > 0 ==> Join(stages[..k]) == Join(stages[..k - 1]) + stages[k - 1]
  {
    if k > 0 { assert stages[..k][..k - 1] == stages[..k - 1]; }
    if k < |stages| {
      JoinPrefix(stages[..|stages| - 1], k);
      assert stages[..|stages| - 1][..k] == stages[..k];
    } else {
      assert stages[..k] == stages;
    }
  }

  /** The stages before `k` all succeeded. */
  ghost predicate At(start: seq<Entry>, log: seq<Entry>, stages: seq<seq<Command>>, k: nat)
  {
    k <= |stages| && Followed(start, log, Join(stages[..k]), true)
  }

  lemma StartAt(start: seq<Entry>, stages: seq<seq<Command>>)
    ensures At(start, start, stages, 0)
  {
    assert start[|start|..] == [];
  }

  /** One stage more: either it succeeded, or the whole plan was cut short. */
  lemma NextStage(start: seq<Entry>, before: seq<Entry>, log: seq<Entry>, stages: seq<seq<Command>>, k: nat, ok: bool)
    requires k < |stages| && At(start, before, stages, k) && Followed(before, log, stages[k], ok)
    ensures if ok then At(start, log, stages, k + 1) else Followed(start, log, Join(stages), false)
  {
    hide Followed;
    FollowedThen(start, before, log, Join(stages[..k]), stages[k], ok);
    JoinPrefix(stages, k + 1);
    if !ok {
      var done := Join(stages[..k + 1]);
      assert Join(stages) == done + Join(stages)[|done|..];
      FollowedLonger(start, log, done, Join(stages)[|done|..]);
    }
  }

  lemma AllStages(start: seq<Entry>, log: seq<Entry>, stages: seq<seq<Command>>)
    requires At(start, log, stages, |stages|)
    ensures Followed(start, log, Join(stages), true)
  {
    assert stages[..|stages|] == stages;
  }

  /** Apply, smoke, roll back, check, smoke. */
  method Exercise(c: Cluster, candidate: map<Deployment, string>, previous: map<Deployment, string>, ds: seq<Deployment>) returns (ok: bool)
    requires AllPresent(candidate) && AllPresent(previous) && c.images == previous
    modifies c
    ensures OnlyTouched(previous, c.images, ds)
    ensures ok ==> c.images == previous
    ensures Followed(old(c.log), c.log, Join(ExerciseStages(candidate, ds)), ok)
  {
    hide Followed, Sets, Each, At, Join;
    ghost var (start, stages) := (c.log, ExerciseStages(candidate, ds));
    StartAt(start, stages);
    ghost var l := c.log;
    ok := SetAll(c, candidate, ds, previous);
    NextStage(start, l, c.log, stages, 0, ok);
    if !ok { return; }
    l := c.log;
    ok := AskAll(c, Waits(ds));
    NextStage(start, l, c.log, stages, 1, ok);
    if !ok { return; }
    l := c.log;
    ok := AskAll(c, [Smoke]);
    NextStage(start, l, c.log, stages, 2, ok);
    if !ok { return; }
    ok := TakeBack(c, previous, ds, start, stages);
  }

  /** The second half: undo, wait, compare, smoke. */
  method TakeBack(c: Cluster, previous: map<Deployment, string>, ds: seq<Deployment>, ghost start: seq<Entry>, ghost stages: seq<seq<Command>>)
    returns (ok: bool)
    requires AllPresent(previous) && OnlyTouched(previous, c.images, ds)
    requires |stages| == 7 && stages[3..] == [Undos(ds), Waits(ds), Gets(), [Smoke]] && At(start, c.log, stages, 3)
    modifies c
    ensures OnlyTouched(previous, c.images, ds)
    ensures ok ==> c.images == previous
    ensures Followed(start, c.log, Join(stages), ok)
  {
    hide Followed, Each, At, Join;
    assert stages[3] == stages[3..][0] && stages[4] == stages[3..][1] && stages[5] == stages[3..][2] && stages[6] == stages[3..][3];
    ghost var l := c.log;
    ok := UndoAll(c, ds, previous);
    NextStage(start, l, c.log, stages, 3, ok);
    if !ok { return; }
    l := c.log;
    ok := AskAll(c, Waits(ds));
    NextStage(start, l, c.log, stages, 4, ok);
    if !ok { return; }
    l := c.log;
    ok := CheckImages(c, previous);
    NextStage(start, l, c.log, stages, 5, ok);
    if !ok { return; }
    assert c.images == previous;
    l := c.log;
    ok := AskAll(c, [Smoke]);
    NextStage(start, l, c.log, stages, 6, ok);
    if ok { AllStages(start, c.log, stages); }
  }

  /** What precedes the first change: look, then check permissions and a server-side dry run. */
  function PreflightStages(ds: seq<Deployment>): seq<seq<Command>>
  {
    [Gets(), Permissions(5), DryRuns(ds)]
  }

  /** The drill from the first look to the last smoke test. */
  function DrillStages(candidate: map<Deployment, string>, ds: seq<Deployment>): seq<seq<Command>>
    requires AllPresent(candidate)
  {
    PreflightStages(ds) + [Join(ExerciseStages(candidate, ds))]
  }

  /** No command that could change a workload was sent since `start`. */
  ghost predicate OnlyAsked(start: seq<Entry>, log: seq<Entry>)
  {
    start <= log && forall i :: |start| <= i < |log| ==> !ChangesWorkload(log[i].command)
  }

  lemma AskedPlan(start: seq<Entry>, log: seq<Entry>, plan: seq<Command>, ok: bool)
    requires Followed(start, log, plan, ok) && forall i :: 0 <= i < |plan| ==> !ChangesWorkload(plan[i])
    ensures OnlyAsked(start, log)
  {
    forall i | |start| <= i < |log| ensures !ChangesWorkload(log[i].command)
    {
      assert Commands(log[|start|..])[i - |start|] == log[i].command;
    }
  }

  lemma AskedThen(a: seq<Entry>, b: seq<Entry>, c: seq<Entry>)
    requires OnlyAsked(a, b) && OnlyAsked(b, c)
    ensures OnlyAsked(a, c)
  {
  }

  /** The deployments a drill works on. */
  ghost predicate IsChanged(previous: map<Deployment, string>, candidate: map<Deployment, string>, ds: seq<Deployment>)
    requires AllPresent(previous) && AllPresent(candidate)
  {
    && (forall d :: d in ds <==> previous[d] != candidate[d])
    && (forall i, j :: 0 <= i < j < |ds| ==> ds[i] != ds[j])
  }

  /** A failed drill: the stages were cut short, and then the whole restore was sent. */
  ghost predicate CutAndRestored(start: seq<Entry>, log: seq<Entry>, candidate: map<Deployment, string>, previous: map<Deployment, string>,
                                 ds: seq<Deployment>, errors: set<Deployment>)
    requires AllPresent(candidate) && AllPresent(previous)
  {
    && |start| + 2 * |ds| <= |log|
    && var mid := log[..|log| - 2 * |ds|];
       && Followed(start, mid, Join(DrillStages(candidate, ds)), false)
       && Restoring(mid, log, RestorePlan(previous, ds), 2 * |ds|, errors)
  }

  lemma RestoringLength(mid: seq<Entry>, log: seq<Entry>, plan: seq<Command>, errors: set<Deployment>)
    requires Restoring(mid, log, plan, |plan|, errors)
    ensures |log| == |mid| + |plan| && mid == log[..|log| - |plan|]
  {
  }

  /**
    The drill. Whatever fails, and whether or not it took effect, the cluster ends on its old images,
    unless the drill names the deployments whose restore failed; and it passes only after every stage
    succeeded.
   */
  method RunDrill(c: Cluster, apiImage: string, webImage: string) returns (r: DrillResult, ghost ds: seq<Deployment>)
    modifies c
    ensures !r.RestoreFailedToo? ==> c.images == old(c.images)
    ensures r.NotStarted? ==> OnlyAsked(old(c.log), c.log)
    ensures !r.NotStarted? ==>
      && AllPresent(old(c.images)) && IsChanged(old(c.images), Requested(apiImage, webImage), ds) && ds != []
      && DigestImage(apiImage) && DigestImage(webImage) && forall d: Deployment :: DigestImage(old(c.images)[d])
    ensures r.Passed? ==> r.previous == old(c.images)
                          && Followed(old(c.log), c.log, Join(DrillStages(Requested(apiImage, webImage), ds)), true)
    ensures r.FailedAndRestored? ==> CutAndRestored(old(c.log), c.log, Requested(apiImage, webImage), old(c.images), ds, {})
    ensures r.RestoreFailedToo? ==>
      && r.errors != {} && CutAndRestored(old(c.log), c.log, Requested(apiImage, webImage), old(c.images), ds, r.errors)
      && OnlyTouched(old(c.images), c.images, ds)
      && forall d :: d in c.images && d !in r.errors ==> c.images[d] == old(c.images)[d]
  {
    hide Followed, At, Join, DrillStages, CutAndRestored, OnlyTouched, DigestImage, OnlyAsked;
    ds := [];
    ghost var start := c.log;
    NothingAsked(start);
    if !DigestImage(apiImage) || !DigestImage(webImage) { return NotStarted, ds; }
    var candidate := Requested(apiImage, webImage);
    var previous := Snapshot(c);
    LookedOnly(start, c.log);
    if previous.None? { return NotStarted, ds; }
    var deployed := DigestImage(previous.value[Api]) && DigestImage(previous.value[Worker]) && DigestImage(previous.value[Web]);
    if !deployed { return NotStarted, ds; }
    assert forall d: Deployment :: DigestImage(previous.value[d]) by {
      forall d: Deployment ensures DigestImage(previous.value[d]) { match d case Api => case Worker => case Web => }
    }
    var changed := Changed(previous.value, apiImage, webImage);
    ds := changed;
    if changed == [] { return NotStarted, ds; }
    var cleared := Preflight(c, changed, candidate, start);
    if !cleared { return NotStarted, ds; }
    r := Drill(c, candidate, previous.value, changed, start);
  }

  /** From the first change to the verdict, with the restore when something fails. */
  method Drill(c: Cluster, candidate: map<Deployment, string>, previous: map<Deployment, string>, ds: seq<Deployment>, ghost start: seq<Entry>)
    returns (r: DrillResult)
    requires AllPresent(candidate) && AllPresent(previous) && c.images == previous
    requires forall i, j :: 0 <= i < j < |ds| ==> ds[i] != ds[j]
    requires At(start, c.log, DrillStages(candidate, ds), 3)
    modifies c
    ensures !r.NotStarted? && (!r.RestoreFailedToo? ==> c.images == previous)
    ensures r.Passed? ==> r.previous == previous && Followed(start, c.log, Join(DrillStages(candidate, ds)), true)
    ensures r.FailedAndRestored? ==> CutAndRestored(start, c.log, candidate, previous, ds, {})
    ensures r.RestoreFailedToo? ==>
      && r.errors != {} && CutAndRestored(start, c.log, candidate, previous, ds, r.errors)
      && OnlyTouched(previous, c.images, ds)
      && forall d :: d in c.images && d !in r.errors ==> c.images[d] == previous[d]
  {
    hide Followed, Each, At, Join, ExerciseStages, Restoring;
    ghost var (l, stages) := (c.log, DrillStages(candidate, ds));
    var ok := Exercise(c, candidate, previous, ds);
    assert stages[3] == Join(ExerciseStages(candidate, ds));
    NextStage(start, l, c.log, stages, 3, ok);
    if ok {
      AllStages(start, c.log, stages);
      return Passed(previous);
    }
    ghost var mid := c.log;
    var errors := RestoreExact(c, previous, ds);
    RestoringLength(mid, c.log, RestorePlan(previous, ds), errors);
    FollowedGrows(start, mid, Join(stages));
    if errors == {} {
      assert c.images == previous;
      return FailedAndRestored;
    }
    r := RestoreFailedToo(errors);
  }

  lemma FollowedGrows(a: seq<Entry>, b: seq<Entry>, p: seq<Command>)
    requires Followed(a, b, p, false)
    ensures a <= b
  {
  }

  lemma NothingAsked(start: seq<Entry>)
    ensures OnlyAsked(start, start)
  {
  }

  lemma LookedOnly(start: seq<Entry>, log: seq<Entry>)
    requires Followed(start, log, Gets(), false)
    ensures OnlyAsked(start, log)
  {
    AskedPlan(start, log, Gets(), false);
  }

  /** After the first look: permissions and dry runs. */
  method Preflight(c: Cluster, ds: seq<Deployment>, candidate: map<Deployment, string>, ghost start: seq<Entry>) returns (ok: bool)
    requires AllPresent(candidate) && Followed(start, c.log, Gets(), true)
    modifies c`log
    ensures OnlyAsked(start, c.log)
    ensures ok ==> At(start, c.log, DrillStages(candidate, ds), 3)
  {
    hide Followed, At, Join, OnlyAsked;
    ghost var stages := DrillStages(candidate, ds);
    ghost var l := c.log;
    AskedPlan(start, l, Gets(), true);
    StartAt(start, stages);
    NextStage(start, start, l, stages, 0, true);
    ok := AskAll(c, Permissions(5));
    AskedPlan(l, c.log, Permissions(5), ok);
    AskedThen(start, l, c.log);
    NextStage(start, l, c.log, stages, 1, ok);
    if !ok { return; }
    l := c.log;
    ok := AskAll(c, DryRuns(ds));
    AskedPlan(l, c.log, DryRuns(ds), ok);
    AskedThen(start, l, c.log);
    NextStage(start, l, c.log, stages, 2, ok);
  }

  // ---------------------------------------------------------- the deployment

  datatype DeployResult =
    | Deployed(images: map<Deployment, string>)
    | Refused                                     // nothing was changed
    | MigrationFailed
    | FirstDeploymentFailed
    | PreviousRestored
    | PreviousNotRestored(errors: set<Deployment>)

  /** Every command that could change a workload was sent after the migration job was seen to complete. */
  ghost predicate MigratedFirst(start: seq<Entry>, log: seq<Entry>)
  {
    start <= log
    && forall i :: |start| <= i < |log| && ChangesWorkload(log[i].command) ==>
         exists j :: |start| <= j < i && log[j] == Ran(WaitForJob, true)
  }

  lemma GateHolds(start: seq<Entry>, gate: seq<Entry>, log: seq<Entry>)
    requires OnlyAsked(start, gate) && gate <= log
    requires |start| < |gate| && gate[|gate| - 1] == Ran(WaitForJob, true)
    ensures MigratedFirst(start, log)
  {
    assert forall i :: 0 <= i < |gate| ==> log[i] == gate[i];
    assert forall i :: |start| <= i < |log| && ChangesWorkload(log[i].command) ==> i >= |gate|;
    assert log[|gate| - 1] == Ran(WaitForJob, true);
  }

  lemma AskedIsMigratedFirst(start: seq<Entry>, log: seq<Entry>)
    requires OnlyAsked(start, log)
    ensures MigratedFirst(start, log)
  {
  }

  lemma LastSucceeded(a: seq<Entry>, b: seq<Entry>, plan: seq<Command>)
    requires Followed(a, b, plan, true) && plan != []
    ensures |b| == |a| + |plan| && b[|b| - 1] == Ran(plan[|plan| - 1], true)
  {
    var new_ := b[|a|..];
    assert |Commands(new_)| == |plan|;
    assert b[|b| - 1] == new_[|plan| - 1];
    assert Commands(new_)[|plan| - 1] == new_[|plan| - 1].command;
  }

  /** Some deployment does not exist, or has no image. */
  ghost predicate SomeMissing(images: map<Deployment, string>)
  {
    exists d: Deployment :: d !in images || images[d] == ""
  }

  /** The images to go back to; none when some deployment does not exist yet. */
  method SnapshotIfComplete(c: Cluster) returns (answer: Option<Option<map<Deployment, string>>>)
    modifies c`log
    ensures Followed(old(c.log), c.log, Gets(), answer.Some?)
    ensures answer.Some? && answer.value.Some? ==> answer.value.value == c.images && AllPresent(c.images) && !SomeMissing(c.images)
    ensures answer.Some? && answer.value.None? ==> SomeMissing(c.images)
  {
    var m: map<Deployment, string> := map[];
    var complete := true;
    ghost var start := c.log;
    for k := 0 to 3
      invariant Followed(start, c.log, Gets()[..k], true)
      invariant forall d :: d in m ==> d in c.images && m[d] == c.images[d]
      invariant complete ==> forall d: Deployment :: Rank(d) < k ==> d in m
      invariant forall d :: d in m ==> m[d] != ""
      invariant !complete ==> SomeMissing(c.images)
    {
      ghost var l := c.log;
      var image := c.Get(All()[k]);
      FollowedOne(l, Ran(GetImage(All()[k]), image.Some?));
      FollowedThen(start, l, c.log, Gets()[..k], [GetImage(All()[k])], image.Some?);
      assert Gets()[..k] + [GetImage(All()[k])] == Gets()[..k + 1];
      if image.None? { return None; }
      if image.value.None? || image.value.value == "" {
        assert All()[k] !in c.images || c.images[All()[k]] == "";
        complete := false;
      } else {
        m := m[All()[k] := image.value.value];
      }
    }
    assert Gets()[..3] == Gets();
    if !complete { return Some(None); }
    assert forall d: Deployment :: Rank(d) < 3;
    assert m == c.images;
    answer := Some(Some(m));
  }

  function MigrationPlan(): seq<Command> { [DeleteJob, ApplyJob, WaitForJob] }

  /** What is sent before the rollout. */
  function GateStages(migrate: bool): seq<seq<Command>>
  {
    [[Render(false)], if migrate then [Render(true)] else [], Permissions(6) + [ApplyDryRun], Gets(), if migrate then MigrationPlan() else []]
  }

  function RollOutStages(overlay: map<Deployment, string>): seq<seq<Command>>
  {
    [[ApplyWorkloads(overlay)], Waits(All()), Gets()]
  }

  /** The gate was passed, and then the rollout was begun but not completed. */
  ghost predicate CutInRollOut(start: seq<Entry>, log: seq<Entry>, overlay: map<Deployment, string>, migrate: bool)
  {
    && Followed(start, log, Join(GateStages(migrate)) + Join(RollOutStages(overlay)), false)
    && |log| > |start| + |Join(GateStages(migrate))|
  }

  /** Applies the overlay, waits for each workload, and compares what runs with what was asked for. */
  method RollOut(c: Cluster, overlay: map<Deployment, string>, requested: map<Deployment, string>) returns (ok: bool)
    requires AllPresent(requested)
    modifies c
    ensures old(c.images).Keys <= c.images.Keys
    ensures ok ==> c.images == requested
    ensures Followed(old(c.log), c.log, Join(RollOutStages(overlay)), ok) && |c.log| > |old(c.log)|
  {
    hide Followed, At, Join;
    ghost var (start, stages) := (c.log, RollOutStages(overlay));
    StartAt(start, stages);
    ok := c.Apply(overlay);
    FollowedOne(start, Ran(ApplyWorkloads(overlay), ok));
    NextStage(start, start, c.log, stages, 0, ok);
    if !ok { return; }
    ghost var l := c.log;
    ok := AskAll(c, Waits(All()));
    NextStage(start, l, c.log, stages, 1, ok);
    if !ok { return; }
    l := c.log;
    ok := CheckImages(c, requested);
    NextStage(start, l, c.log, stages, 2, ok);
    if ok {
      AllStages(start, c.log, stages);
      assert c.images == requested;
    }
  }

  /** Rolls out and, when that fails, goes back to what ran before, if every deployment ran something. */
  method RollOutOrRestore(c: Cluster, overlay: map<Deployment, string>, requested: map<Deployment, string>, previous: Option<map<Deployment, string>>)
    returns (r: DeployResult)
    requires AllPresent(requested)
    requires previous.Some? ==> AllPresent(previous.value) && c.images == previous.value
    modifies c
    ensures old(c.log) <= c.log
    ensures r.Deployed? || r.FirstDeploymentFailed? || r.PreviousRestored? || r.PreviousNotRestored?
    ensures r.Deployed? ==> c.images == requested == r.images
                            && Followed(old(c.log), c.log, Join(RollOutStages(overlay)), true)
    ensures r.FirstDeploymentFailed? <==> !r.Deployed? && previous.None?
    ensures r.FirstDeploymentFailed? ==> Followed(old(c.log), c.log, Join(RollOutStages(overlay)), false) && |c.log| > |old(c.log)|
    ensures r.PreviousRestored? ==> c.images == old(c.images)
    ensures r.PreviousNotRestored? ==>
      && r.errors != {} && c.images.Keys == old(c.images).Keys
      && forall d :: d in c.images && d !in r.errors ==> c.images[d] == old(c.images)[d]
  {
    hide Followed, Join, Restoring;
    ghost var start := c.log;
    var ok := RollOut(c, overlay, requested);
    FollowedStarts(start, c.log, Join(RollOutStages(overlay)), ok);
    if ok { return Deployed(c.images); }
    if previous.None? { return FirstDeploymentFailed; }
    forall d: Deployment ensures d in All() { assert All()[Rank(d)] == d; }
    assert c.images.Keys == previous.value.Keys;
    ghost var mid := c.log;
    var errors := RestoreExact(c, previous.value, All());
    RestoringLength(mid, c.log, RestorePlan(previous.value, All()), errors);
    if errors == {} {
      assert c.images == previous.value;
      return PreviousRestored;
    }
    r := PreviousNotRestored(errors);
  }

  lemma FollowedStarts(a: seq<Entry>, b: seq<Entry>, p: seq<Command>, ok: bool)
    requires Followed(a, b, p, ok)
    ensures a <= b
  {
  }

  /** Everything before the rollout: the overlays must pin the named images, and the migration must complete. */
  method Gate(c: Cluster, apiImage: string, webImage: string, rendered: set<string>, migrationImages: set<string>, migrate: bool)
    returns (refused: Option<DeployResult>, previous: Option<map<Deployment, string>>)
    modifies c`log
    ensures OnlyAsked(old(c.log), c.log)
    ensures refused.Some? ==> refused.value.Refused? || refused.value.MigrationFailed?
    ensures refused.None? ==>
      && DigestImage(apiImage) && DigestImage(webImage) && rendered == {apiImage, webImage} && (migrate ==> migrationImages == {apiImage})
      && (previous.Some? ==> previous.value == c.images && AllPresent(c.images) && !SomeMissing(c.images))
      && (previous.None? ==> SomeMissing(c.images))
      && Followed(old(c.log), c.log, Join(GateStages(migrate)), true)
  {
    hide Followed, DigestImage, OnlyAsked, At, Join, SomeMissing;
    ghost var (start, stages) := (c.log, GateStages(migrate));
    NothingAsked(start);
    StartAt(start, stages);
    previous := None;
    if !DigestImage(apiImage) || !DigestImage(webImage) { return Some(Refused), None; }
    var ok := AskStage(c, [Render(false)], start, stages, 0);
    if !ok || rendered != {apiImage, webImage} { return Some(Refused), None; }
    if migrate {
      ok := AskStage(c, [Render(true)], start, stages, 1);
      if !ok || migrationImages != {apiImage} { return Some(Refused), None; }
    } else {
      SkipStage(start, c.log, stages, 1);
    }
    ok := AskStage(c, Permissions(6) + [ApplyDryRun], start, stages, 2);
    if !ok { return Some(Refused), None; }
    ghost var l := c.log;
    var answer := SnapshotIfComplete(c);
    AskedPlan(l, c.log, Gets(), answer.Some?);
    AskedThen(start, l, c.log);
    NextStage(start, l, c.log, stages, 3, answer.Some?);
    if answer.None? { return Some(Refused), None; }
    if migrate {
      ok := AskStage(c, MigrationPlan(), start, stages, 4);
      if !ok { return Some(MigrationFailed), None; }
    } else {
      SkipStage(start, c.log, stages, 4);
    }
    AllStages(start, c.log, stages);
    return None, answer.value;
  }

  lemma SkipStage(start: seq<Entry>, log: seq<Entry>, stages: seq<seq<Command>>, k: nat)
    requires k < |stages| && At(start, log, stages, k) && stages[k] == []
    ensures At(start, log, stages, k + 1)
  {
    assert Followed(log, log, [], true) by { assert log[|log|..] == []; }
    NextStage(start, log, log, stages, k, true);
  }

  /** One stage of questions. */
  method AskStage(c: Cluster, plan: seq<Command>, ghost start: seq<Entry>, ghost stages: seq<seq<Command>>, ghost k: nat) returns (ok: bool)
    requires OnlyAsked(start, c.log) && forall i :: 0 <= i < |plan| ==> !ChangesWorkload(plan[i])
    requires k < |stages| && stages[k] == plan && At(start, c.log, stages, k)
    modifies c`log
    ensures OnlyAsked(start, c.log)
    ensures ok ==> At(start, c.log, stages, k + 1)
  {
    hide Followed, OnlyAsked, At, Join;
    ghost var l := c.log;
    ok := AskAll(c, plan);
    AskedPlan(l, c.log, plan, ok);
    AskedThen(start, l, c.log);
    NextStage(start, l, c.log, stages, k, ok);
  }

  /** The gate ends with the migration job seen to complete. */
  lemma GateEnds(start: seq<Entry>, gate: seq<Entry>)
    requires Followed(start, gate, Join(GateStages(true)), true)
    ensures |start| < |gate| && gate[|gate| - 1] == Ran(WaitForJob, true)
  {
    hide Followed;
    var stages := GateStages(true);
    JoinPrefix(stages, 5);
    assert stages[..5] == stages;
    LastSucceeded(start, gate, Join(stages));
  }

  /**
    The deployment: gated by the overlays and the migration, checked at the end, and taken back when
    it fails, if there was something to go back to.
   */
  method Deploy(c: Cluster, apiImage: string, webImage: string, overlay: map<Deployment, string>, migrationImages: set<string>, migrate: bool)
    returns (r: DeployResult)
    modifies c
    ensures r.Refused? || r.MigrationFailed? ==> c.images == old(c.images) && OnlyAsked(old(c.log), c.log)
    ensures r.PreviousRestored? ==> c.images == old(c.images)
    ensures r.Deployed? ==> c.images == Requested(apiImage, webImage) == r.images
    ensures r.Deployed? ==> Followed(old(c.log), c.log, Join(GateStages(migrate)) + Join(RollOutStages(overlay)), true)
    ensures r.PreviousNotRestored? ==>
      && r.errors != {} && c.images.Keys == old(c.images).Keys
      && forall d :: d in c.images && d !in r.errors ==> c.images[d] == old(c.images)[d]
    ensures r.FirstDeploymentFailed? ==> SomeMissing(old(c.images)) && CutInRollOut(old(c.log), c.log, overlay, migrate)
    ensures r.PreviousRestored? || r.PreviousNotRestored? ==> !SomeMissing(old(c.images))
    ensures !r.Refused? && !r.MigrationFailed? ==>
      DigestImage(apiImage) && DigestImage(webImage) && overlay.Values == {apiImage, webImage} && (migrate ==> migrationImages == {apiImage})
    ensures migrate ==> MigratedFirst(old(c.log), c.log)
  {
    hide Followed, OnlyAsked, DigestImage, Join, MigratedFirst, SomeMissing, CutInRollOut;
    ghost var start := c.log;
    var refused, previous := Gate(c, apiImage, webImage, overlay.Values, migrationImages, migrate);
    AskedIsMigratedFirst(start, c.log);
    if refused.Some? { return refused.value; }
    ghost var gate := c.log;
    r := RollOutOrRestore(c, overlay, Requested(apiImage, webImage), previous);
    if migrate {
      GateEnds(start, gate);
      GateHolds(start, gate, c.log);
    }
    if r.Deployed? {
      FollowedThen(start, gate, c.log, Join(GateStages(migrate)), Join(RollOutStages(overlay)), true);
    } else if r.FirstDeploymentFailed? {
      GateThenCut(start, gate, c.log, overlay, migrate);
    }
  }

  lemma GateThenCut(start: seq<Entry>, gate: seq<Entry>, log: seq<Entry>, overlay: map<Deployment, string>, migrate: bool)
    requires Followed(start, gate, Join(GateStages(migrate)), true)
    requires Followed(gate, log, Join(RollOutStages(overlay)), false) && |log| > |gate|
    ensures CutInRollOut(start, log, overlay, migrate)
  {
    FollowedThen(start, gate, log, Join(GateStages(migrate)), Join(RollOutStages(overlay)), false);
    hide Join;
    assert |Commands(gate[|start|..])| == |gate| - |start|;
  }

  // ------------------------------------------- a failed first deployment stays

  /** The images after each command, as far as the commands' effects allow. */
  ghost predicate Trace(entries: seq<Entry>, states: seq<map<Deployment, string>>)
  {
    |states| == |entries| + 1 && forall i :: 0 <= i < |entries| ==> Effect(entries[i], states[i], states[i + 1])
  }

  lemma {:induction false} JoinAsks(stages: seq<seq<Command>>)
    requires forall k, i :: 0 <= k < |stages| && 0 <= i < |stages[k]| ==> !ChangesWorkload(stages[k][i])
    ensures forall i :: 0 <= i < |Join(stages)| ==> !ChangesWorkload(Join(stages)[i])
  {
    if stages != [] { JoinAsks(stages[..|stages| - 1]); }
  }

  /** A run of the deployment that ends in its first failed rollout command, with one deployment changed by it. */
  ghost predicate ChangedByFailure(images: map<Deployment, string>, overlay: map<Deployment, string>, migrate: bool, d: Deployment,
                                   entries: seq<Entry>, states: seq<map<Deployment, string>>)
    requires d in overlay
  {
    && Trace(entries, states) && states[0] == images
    && CutInRollOut([], entries, overlay, migrate)
    && states[|entries|] == images[d := overlay[d]]
  }

  /**
    A rollout that fails on a cluster where one deployment is missing leaves the others as they are then:
    for every deployment that runs another image than the new one there is a run that ends with it changed.
   */
  lemma FirstDeploymentIsNotTakenBack(images: map<Deployment, string>, apiImage: string, webImage: string, migrate: bool, d: Deployment)
    returns (entries: seq<Entry>, states: seq<map<Deployment, string>>)
    requires SomeMissing(images) && d in images && images[d] != Requested(apiImage, webImage)[d]
    ensures ChangedByFailure(images, Requested(apiImage, webImage), migrate, d, entries, states)
    ensures states[|entries|] != images
  {
    var overlay := Requested(apiImage, webImage);
    var plan := Join(GateStages(migrate));
    JoinAsks(GateStages(migrate));
    hide Join, Followed, CutInRollOut, Trace;
    var gate := seq(|plan|, i requires 0 <= i < |plan| => Ran(plan[i], true));
    var last := Ran(ApplyWorkloads(overlay), false);
    entries := gate + [last];
    states := seq(|gate| + 1, _ => images) + [images[d := overlay[d]]];
    AllSucceeded(gate, plan);
    FollowedOne(gate, last);
    StartsRollOut(gate, entries, overlay);
    GateThenCut([], gate, entries, overlay, migrate);
    GateTrace(images, gate, last, images[d := overlay[d]]);
  }

  /** Questions leave the images as they are; the last command may change them. */
  lemma GateTrace(images: map<Deployment, string>, gate: seq<Entry>, last: Entry, after: map<Deployment, string>)
    requires forall i :: 0 <= i < |gate| ==> !ChangesWorkload(gate[i].command)
    requires Effect(last, images, after)
    ensures Trace(gate + [last], seq(|gate| + 1, _ => images) + [after])
  {
  }

  lemma AllSucceeded(entries: seq<Entry>, plan: seq<Command>)
    requires |entries| == |plan| && forall i :: 0 <= i < |plan| ==> entries[i] == Ran(plan[i], true)
    ensures Followed([], entries, plan, true)
  {
    assert entries[0..] == entries && Commands(entries) == plan;
  }

  lemma StartsRollOut(gate: seq<Entry>, log: seq<Entry>, overlay: map<Deployment, string>)
    requires Followed(gate, log, [ApplyWorkloads(overlay)], false)
    ensures Followed(gate, log, Join(RollOutStages(overlay)), false)
  {
    var stages := RollOutStages(overlay);
    JoinPrefix(stages, 1);
    assert stages[..0] == [];
    var whole := Join(stages);
    assert [ApplyWorkloads(overlay)] <= whole;
    assert whole == [ApplyWorkloads(overlay)] + whole[1..];
    FollowedLonger(gate, log, [ApplyWorkloads(overlay)], whole[1..]);
  }
}
