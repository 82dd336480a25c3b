/** `build_cluster` and its readers: the worker groups of a mix, and what they hold. */
module Cluster {
  import opened Collections

  /** A container's amounts by kind, `limits` and `requests`, and by resource. */
  type Amounts = map<string, map<string, int>>

  datatype Group = Group(flavor: string, preemptible: bool, replicas: int, containers: seq<Amounts>)

  const LIMITS := "limits"

  /** A container's amounts with `perWorker` GPUs of one flavor, and none of the others. */
  function Resourced(c: Amounts, flavors: seq<string>, flavor: string, perWorker: nat): Amounts {
    map kind | kind in c :: (map r | r in c[kind] && r !in flavors :: c[kind][r])[flavor := perWorker]
  }

  function ResourcedAll(template: seq<Amounts>, flavors: seq<string>, flavor: string, perWorker: nat): (r: seq<Amounts>)
    ensures |r| == |template|
  {
    seq(|template|, i requires 0 <= i < |template| => Resourced(template[i], flavors, flavor, perWorker))
  }

  /** `worker_group` */
  function WorkerGroup(
    template: seq<Amounts>, flavors: seq<string>, flavor: string, perWorker: nat, replicas: int,
    preemptible: bool): Group {
    Group(flavor, preemptible, replicas, ResourcedAll(template, flavors, flavor, perWorker))
  }

  /** The groups of one flavor: the first worker of all, if it is of this one, and those that give way. */
  function FlavorGroups(
    template: seq<Amounts>, flavors: seq<string>, flavor: string, perWorker: nat, workers: nat, kept: int): seq<Group> {
    (if Min(kept, workers) > 0
     then [WorkerGroup(template, flavors, flavor, perWorker, Min(kept, workers), false)]
     else [])
    + (if workers - kept > 0 then [WorkerGroup(template, flavors, flavor, perWorker, workers - kept, true)] else [])
  }

  /** The groups of the first `n` flavors. */
  function Groups(template: seq<Amounts>, flavors: seq<string>, mix: seq<nat>, perWorker: nat, n: nat): seq<Group>
    requires n <= |flavors| == |mix|
    decreases n
  {
    if n == 0 then []
    else
      var kept := if Sum(mix[..n - 1]) > 0 then 0 else 1;
      Groups(template, flavors, mix, perWorker, n - 1)
      + FlavorGroups(template, flavors, flavors[n - 1], perWorker, mix[n - 1], kept)
  }

  method BuildGroups(
    template: seq<Amounts>, flavors: seq<string>, mix: seq<nat>, perWorker: nat) returns (groups: seq<Group>)
    requires |flavors| == |mix|
    ensures groups == Groups(template, flavors, mix, perWorker, |flavors|)
  {
    groups := [];
    var kept: int := 1;
    for n := 0 to |flavors|
      invariant groups == Groups(template, flavors, mix, perWorker, n)
      invariant kept == if Sum(mix[..n]) > 0 then 0 else 1
    {
      assert mix[..n + 1][..n] == mix[..n];
      var workers: int := mix[n];
      var first, others := Min(kept, workers), workers - kept;
      if first > 0 {
        groups := groups + [WorkerGroup(template, flavors, flavors[n], perWorker, first, false)];
      }
      if others > 0 {
        groups := groups + [WorkerGroup(template, flavors, flavors[n], perWorker, others, true)];
      }
      kept := if kept - workers > 0 then kept - workers else 0;
    }
  }

  // ----- what groups hold -----

  function ContainersHold(containers: seq<Amounts>, replicas: int, r: string): int
    decreases |containers|
  {
    if containers == [] then 0
    else
      var c := containers[|containers| - 1];
      ContainersHold(containers[..|containers| - 1], replicas, r)
      + (if LIMITS in c && r in c[LIMITS] then replicas * c[LIMITS][r] else 0)
  }

  function GroupsHold(groups: seq<Group>, r: string): int
    decreases |groups|
  {
    if groups == [] then 0
    else
      var g := groups[|groups| - 1];
      GroupsHold(groups[..|groups| - 1], r) + ContainersHold(g.containers, g.replicas, r)
  }

  /** `held_gpus`, of one resource. */
  method HeldGpus(groups: seq<Group>, r: string) returns (held: int)
    ensures held == GroupsHold(groups, r)
  {
    held := 0;
    for i := 0 to |groups|
      invariant held == GroupsHold(groups[..i], r)
    {
      assert groups[..i + 1][..i] == groups[..i];
      var g := groups[i];
      ghost var before := held;
      for j := 0 to |g.containers|
        invariant held == before + ContainersHold(g.containers[..j], g.replicas, r)
      {
        assert g.containers[..j + 1][..j] == g.containers[..j];
        var c := g.containers[j];
        if LIMITS in c && r in c[LIMITS] {
          held := held + g.replicas * c[LIMITS][r];
        }
      }
      assert g.containers[..|g.containers|] == g.containers;
    }
    assert groups[..|groups|] == groups;
  }

  /** The containers of a template that have limits at all. */
  function Limited(template: seq<Amounts>): nat
    decreases |template|
  {
    if template == [] then 0
    else Limited(template[..|template| - 1]) + (if LIMITS in template[|template| - 1] then 1 else 0)
  }

  lemma {:induction false} TemplateHolds(
    template: seq<Amounts>, flavors: seq<string>, flavor: string, perWorker: nat, replicas: int, r: string)
    requires r in flavors
    ensures ContainersHold(ResourcedAll(template, flavors, flavor, perWorker), replicas, r)
         == if r == flavor then Limited(template) * (replicas * perWorker) else 0
    decreases |template|
  {
    if template == [] {
    } else {
      var n := |template| - 1;
      var all := ResourcedAll(template, flavors, flavor, perWorker);
      assert all[..n] == ResourcedAll(template[..n], flavors, flavor, perWorker);
      TemplateHolds(template[..n], flavors, flavor, perWorker, replicas, r);
      OneMore(Limited(template[..n]), replicas * perWorker);
    }
  }

  lemma {:induction false} OneMore(n: nat, x: int)
    ensures (n + 1) * x == n * x + x
  {
  }

  lemma {:induction false} HoldAppend(a: seq<Group>, b: seq<Group>, r: string)
    ensures GroupsHold(a + b, r) == GroupsHold(a, r) + GroupsHold(b, r)
    decreases |b|
  {
    if b == [] {
      assert a + b == a;
    } else {
      assert (a + b)[..|a + b| - 1] == a + b[..|b| - 1];
      HoldAppend(a, b[..|b| - 1], r);
    }
  }

  lemma {:induction false} GroupHolds(g: Group, r: string)
    ensures GroupsHold([g], r) == ContainersHold(g.containers, g.replicas, r)
  {
    assert [g][..0] == [];
  }

  lemma {:induction false} SplitWorkers(limited: nat, a: int, b: int, perWorker: nat)
    ensures limited * (a * perWorker) + limited * (b * perWorker) == limited * ((a + b) * perWorker)
  {
    assert (a + b) * perWorker == a * perWorker + b * perWorker;
    assert limited * (a * perWorker + b * perWorker) == limited * (a * perWorker) + limited * (b * perWorker);
  }

  /** One group of a flavor holds its replicas' GPUs, and no GPUs of other flavors. */
  lemma {:induction false} WorkerGroupHolds(
    template: seq<Amounts>, flavors: seq<string>, flavor: string, perWorker: nat, replicas: int,
    preemptible: bool, r: string)
    requires r in flavors
    ensures GroupsHold([WorkerGroup(template, flavors, flavor, perWorker, replicas, preemptible)], r)
         == if r == flavor then Limited(template) * (replicas * perWorker) else 0
  {
    TemplateHolds(template, flavors, flavor, perWorker, replicas, r);
    GroupHolds(WorkerGroup(template, flavors, flavor, perWorker, replicas, preemptible), r);
  }

  /** A flavor's groups hold its workers' GPUs, however they are split. */
  lemma {:induction false} FlavorHolds(
    template: seq<Amounts>, flavors: seq<string>, flavor: string, perWorker: nat, workers: nat, kept: int, r: string)
    requires r in flavors && 0 <= kept <= 1
    ensures GroupsHold(FlavorGroups(template, flavors, flavor, perWorker, workers, kept), r)
         == if r == flavor then Limited(template) * (workers * perWorker) else 0
  {
    var first := WorkerGroup(template, flavors, flavor, perWorker, 1, false);
    var others := WorkerGroup(template, flavors, flavor, perWorker, workers - kept, true);
    var gs := FlavorGroups(template, flavors, flavor, perWorker, workers, kept);
    if workers == 0 {
      assert gs == [];
    } else if kept == 0 {
      assert gs == [others];
      WorkerGroupHolds(template, flavors, flavor, perWorker, workers, true, r);
    } else if workers == 1 {
      assert gs == [first];
      WorkerGroupHolds(template, flavors, flavor, perWorker, 1, false, r);
    } else {
      assert gs == [first] + [others];
      HoldAppend([first], [others], r);
      WorkerGroupHolds(template, flavors, flavor, perWorker, 1, false, r);
      WorkerGroupHolds(template, flavors, flavor, perWorker, workers - 1, true, r);
      SplitWorkers(Limited(template), 1, workers - 1, perWorker);
    }
  }

  lemma {:induction false} GroupsHoldMix(
    template: seq<Amounts>, flavors: seq<string>, mix: seq<nat>, perWorker: nat, n: nat, i: nat)
    requires n <= |flavors| == |mix| && Distinct(flavors) && i < |flavors|
    ensures GroupsHold(Groups(template, flavors, mix, perWorker, n), flavors[i])
         == if i < n then Limited(template) * (mix[i] * perWorker) else 0
    decreases n
  {
    if n == 0 {
    } else {
      var kept := if Sum(mix[..n - 1]) > 0 then 0 else 1;
      var before := Groups(template, flavors, mix, perWorker, n - 1);
      var more := FlavorGroups(template, flavors, flavors[n - 1], perWorker, mix[n - 1], kept);
      GroupsHoldMix(template, flavors, mix, perWorker, n - 1, i);
      FlavorHolds(template, flavors, flavors[n - 1], perWorker, mix[n - 1], kept, flavors[i]);
      HoldAppend(before, more, flavors[i]);
      NotTwice(flavors, n - 1, i);
      assert Groups(template, flavors, mix, perWorker, n) == before + more;
    }
  }

  lemma {:induction false} NotTwice(flavors: seq<string>, j: nat, i: nat)
    requires Distinct(flavors) && i < |flavors| && j < |flavors|
    ensures flavors[j] == flavors[i] <==> i == j
  {
  }

  /**
   * The reader undoes the builder: of every flavor a cluster holds its mix times the GPUs of
   * a worker, for a template with one limited container.
   */
  lemma {:induction false} ReaderUndoesBuilder(
    template: seq<Amounts>, flavors: seq<string>, mix: seq<nat>, perWorker: nat, i: nat)
    requires |flavors| == |mix| && Distinct(flavors) && i < |flavors| && Limited(template) == 1
    ensures GroupsHold(Groups(template, flavors, mix, perWorker, |flavors|), flavors[i]) == mix[i] * perWorker
  {
    GroupsHoldMix(template, flavors, mix, perWorker, |flavors|, i);
  }

  // ----- replicas and priorities -----

  /** All workers, or those that do not give way. */
  datatype Which = All | Staying

  predicate Counts(ok: Which, g: Group) {
    ok.All? || !g.preemptible
  }

  function Replicas(groups: seq<Group>, ok: Which): int
    decreases |groups|
  {
    if groups == [] then 0
    else
      var last := groups[|groups| - 1];
      Replicas(groups[..|groups| - 1], ok) + (if Counts(ok, last) then last.replicas else 0)
  }

  lemma {:induction false} ReplicasAppend(a: seq<Group>, b: seq<Group>, ok: Which)
    ensures Replicas(a + b, ok) == Replicas(a, ok) + Replicas(b, ok)
    decreases |b|
  {
    if b == [] {
      assert a + b == a;
    } else {
      assert (a + b)[..|a + b| - 1] == a + b[..|b| - 1];
      ReplicasAppend(a, b[..|b| - 1], ok);
    }
  }

  /** A flavor's workers are all in its groups; of these, the first of all workers stays. */
  lemma {:induction false} FlavorReplicas(
    template: seq<Amounts>, flavors: seq<string>, flavor: string, perWorker: nat, workers: nat, kept: int, ok: Which)
    requires 0 <= kept <= 1
    ensures Replicas(FlavorGroups(template, flavors, flavor, perWorker, workers, kept), ok)
         == if ok.All? then workers else Min(kept, workers)
  {
    var first := WorkerGroup(template, flavors, flavor, perWorker, 1, false);
    var others := WorkerGroup(template, flavors, flavor, perWorker, workers - kept, true);
    var gs := FlavorGroups(template, flavors, flavor, perWorker, workers, kept);
    ReplicasOne(first, ok);
    ReplicasOne(others, ok);
    if workers == 0 {
      assert gs == [];
    } else if kept == 0 {
      assert gs == [others];
    } else if workers == 1 {
      assert gs == [first];
    } else {
      assert gs == [first] + [others];
      ReplicasAppend([first], [others], ok);
    }
  }

  lemma {:induction false} ReplicasOne(g: Group, ok: Which)
    ensures Replicas([g], ok) == if Counts(ok, g) then g.replicas else 0
  {
    assert [g][..0] == [];
  }

  /** Every worker is in one group of its flavor, and exactly one worker of all, if there is any, does not give way. */
  lemma {:induction false} GroupsReplicas(
    template: seq<Amounts>, flavors: seq<string>, mix: seq<nat>, perWorker: nat, n: nat, ok: Which)
    requires n <= |flavors| == |mix|
    ensures Replicas(Groups(template, flavors, mix, perWorker, n), ok)
         == if ok.All? then Sum(mix[..n]) else Min(1, Sum(mix[..n]))
    decreases n
  {
    if n == 0 {
    } else {
      var kept := if Sum(mix[..n - 1]) > 0 then 0 else 1;
      var before := Groups(template, flavors, mix, perWorker, n - 1);
      var more := FlavorGroups(template, flavors, flavors[n - 1], perWorker, mix[n - 1], kept);
      GroupsReplicas(template, flavors, mix, perWorker, n - 1, ok);
      SumNext(mix, n - 1);
      FlavorReplicas(template, flavors, flavors[n - 1], perWorker, mix[n - 1], kept, ok);
      ReplicasAppend(before, more, ok);
      assert Groups(template, flavors, mix, perWorker, n) == before + more;
    }
  }

  lemma {:induction false} SumNext(mix: seq<nat>, n: nat)
    requires n < |mix|
    ensures Sum(mix[..n + 1]) == Sum(mix[..n]) + mix[n]
  {
    assert mix[..n + 1][..n] == mix[..n];
  }

  // ----- what a worker asks for -----

  /** A container asks for the GPUs of one flavor and of no other, and else for what the template's does. */
  ghost predicate OfTemplate(c: Amounts, t: Amounts, flavors: seq<string>, flavor: string, perWorker: nat) {
    && c.Keys == t.Keys
    && forall kind, r :: kind in c ==>
         && (r in c[kind] <==> r == flavor || (r in t[kind] && r !in flavors))
         && (r in c[kind] ==> c[kind][r] == if r == flavor then perWorker else t[kind][r])
  }

  /** The workers of a group are all of one flavor of the mix, and ask for its GPUs. */
  ghost predicate OfMix(template: seq<Amounts>, flavors: seq<string>, mix: seq<nat>, perWorker: nat, n: nat, g: Group)
    requires n <= |flavors| == |mix|
  {
    exists f :: 0 <= f < n && OfFlavor(template, flavors, flavors[f], mix[f], perWorker, g)
  }

  ghost predicate OfFlavor(
    template: seq<Amounts>, flavors: seq<string>, flavor: string, workers: nat, perWorker: nat, g: Group)
  {
    && g.flavor == flavor && 0 < g.replicas <= workers && |g.containers| == |template|
    && forall c :: 0 <= c < |template| ==> OfTemplate(g.containers[c], template[c], flavors, flavor, perWorker)
  }

  lemma {:induction false} FlavorGroupsAre(
    template: seq<Amounts>, flavors: seq<string>, flavor: string, perWorker: nat, workers: nat, kept: int, k: nat)
    requires 0 <= kept && k < |FlavorGroups(template, flavors, flavor, perWorker, workers, kept)|
    ensures OfFlavor(template, flavors, flavor, workers, perWorker,
                     FlavorGroups(template, flavors, flavor, perWorker, workers, kept)[k])
  {
  }

  /** Every group of a built cluster is of a flavor of its mix, with the template's workers but for their GPUs. */
  lemma {:induction false} GroupsAreOfMix(
    template: seq<Amounts>, flavors: seq<string>, mix: seq<nat>, perWorker: nat, n: nat, k: nat)
    requires n <= |flavors| == |mix| && k < |Groups(template, flavors, mix, perWorker, n)|
    ensures OfMix(template, flavors, mix, perWorker, n, Groups(template, flavors, mix, perWorker, n)[k])
    decreases n
  {
    var kept := if Sum(mix[..n - 1]) > 0 then 0 else 1;
    var before := Groups(template, flavors, mix, perWorker, n - 1);
    if k < |before| {
      GroupsAreOfMix(template, flavors, mix, perWorker, n - 1, k);
    } else {
      FlavorGroupsAre(template, flavors, flavors[n - 1], perWorker, mix[n - 1], kept, k - |before|);
    }
  }

  // ----- the shape -----

  /** A shape's fields are strings, as the annotations are. */
  datatype Shape = Shape(
    env: string, workers: string, memory: string, cpus: string, ram: string, perWorker: string, least: string,
        site: string)

  const ENV := "purdue-af/ray-env"
  const WORKERS := "purdue-af/ray-workers"
  const MEMORY := "purdue-af/ray-gpu-memory"
  const CPUS := "purdue-af/ray-worker-cpus"
  const RAM := "purdue-af/ray-worker-memory"
  const PER_WORKER := "purdue-af/ray-gpus-per-worker"
  const LEAST := "purdue-af/ray-min-workers"

  /** The annotations of a cluster built from a template's. */
  function Annotated(a: map<string, string>, s: Shape): map<string, string> {
    a + map[ENV := s.env, WORKERS := s.workers, MEMORY := s.memory, CPUS := s.cpus, RAM := s.ram,
            PER_WORKER := s.perWorker, LEAST := s.least]
  }

  function Field(a: map<string, string>, key: string): string {
    if key in a then a[key] else ""
  }

  /** `cluster_shape`; the site is the default one. */
  function ShapeOf(a: map<string, string>): Shape {
    Shape(Field(a, ENV), Field(a, WORKERS), Field(a, MEMORY), Field(a, CPUS), Field(a, RAM), Field(a, PER_WORKER),
        Field(a, LEAST), "purdue")
  }

  /** A cluster's shape is the one it was built from exactly when that is a Purdue shape, whatever the template says. */
  lemma {:induction false} ShapeRoundTrip(a: map<string, string>, s: Shape)
    ensures ShapeOf(Annotated(a, s)) == s <==> s.site == "purdue"
  {
    assert |ENV| == 17 && |WORKERS| == 21 && |MEMORY| == 24 && |CPUS| == 25 && |RAM| == 27 && |PER_WORKER| == 29;
    assert |LEAST| == 25 && LEAST[14] == 'm' && CPUS[14] == 'w';
  }
}
