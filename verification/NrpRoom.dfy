/** `nrp_gpus.py` and the sizing of a job on NRP: how many workers fit, and how many a job starts with. */
module NrpRoom {
  import opened Collections
  import opened Optional

  const MEMORY_SLACK := 0.95

  /** What a node has, or its pods hold, of GPUs, CPUs and memory in GiB. */
  datatype Amounts = Amounts(gpus: real, cpus: real, memoryGb: real)
  datatype Worker = Worker(gpus: nat, cpus: real, memoryGb: real)

  const NOTHING := Amounts(0.0, 0.0, 0.0)

  predicate ValidWorker(w: Worker) {
    w.gpus > 0 && w.cpus > 0.0 && w.memoryGb > 0.0
  }

  /** Python's `int` of a float: towards zero. */
  function Trunc(x: real): int {
    if x >= 0.0 then x.Floor else -((-x).Floor)
  }

  function FloorDiv(x: real, y: real): int
    requires y > 0.0
  {
    (x / y).Floor
  }

  /** The room a node has left for workers, in whole ones; none where its pods hold more than it has. */
  function Fitting(has: Amounts, held: Amounts, w: Worker): int
    requires ValidWorker(w)
  {
    Max(Min(Trunc(has.gpus - held.gpus) / w.gpus,
            Min(FloorDiv(has.cpus - held.cpus, w.cpus), FloorDiv(has.memoryGb - held.memoryGb, w.memoryGb))), 0)
  }

  /** Whether `k` workers together ask for no more than is left, of each resource. */
  predicate FitTogether(k: nat, has: Amounts, held: Amounts, w: Worker) {
    && k * w.gpus <= Trunc(has.gpus - held.gpus)
    && k as real * w.cpus <= has.cpus - held.cpus
    && k as real * w.memoryGb <= has.memoryGb - held.memoryGb
  }

  lemma {:induction false} DivIsLargest(k: nat, a: int, g: nat)
    requires g > 0
    ensures k * g <= a <==> k <= a / g
  {
    assert a == (a / g) * g + a % g;
    if k <= a / g {
      assert k * g <= (a / g) * g;
    } else {
      assert k * g >= (a / g + 1) * g;
    }
  }

  lemma {:induction false} FloorDivIsLargest(k: nat, x: real, y: real)
    requires y > 0.0
    ensures k as real * y <= x <==> k <= FloorDiv(x, y)
  {
    var q := x / y;
    assert q * y == x;
    if k as real * y <= x {
      assert k as real <= q;
    } else {
      assert k as real > q;
    }
  }

  /** `fitting` is the largest count that fits in all three resources. */
  lemma {:induction false} FittingIsLargest(k: nat, has: Amounts, held: Amounts, w: Worker)
    requires ValidWorker(w) && k > 0
    ensures FitTogether(k, has, held, w) <==> k <= Fitting(has, held, w)
  {
    DivIsLargest(k, Trunc(has.gpus - held.gpus), w.gpus);
    FloorDivIsLargest(k, has.cpus - held.cpus, w.cpus);
    FloorDivIsLargest(k, has.memoryGb - held.memoryGb, w.memoryGb);
  }

  predicate NonNegative(a: Amounts) {
    a.gpus >= 0.0 && a.cpus >= 0.0 && a.memoryGb >= 0.0
  }

  /** What pods hold only takes room away. */
  lemma {:induction false} NoMoreThanEmpty(has: Amounts, held: Amounts, w: Worker)
    requires ValidWorker(w) && NonNegative(held)
    ensures 0 <= Fitting(has, held, w) <= Fitting(has, NOTHING, w)
  {
    var k := Fitting(has, held, w);
    if k > 0 {
      FittingIsLargest(k, has, held, w);
      FittingIsLargest(k, has, NOTHING, w);
    }
  }

  // ----- by model -----

  /** A node: its GPUs' model, "" if not known, and whether it takes pods. */
  datatype Node = Node(model: string, closed: bool, has: Amounts, held: Amounts)
  datatype Tally = Tally(gpus: int, free: int, workers: int, empty: int)

  const ZERO := Tally(0, 0, 0, 0)

  function Plus(t: Tally, n: Node, w: Worker): Tally
    requires ValidWorker(w)
  {
    var gpus := t.gpus + Trunc(n.has.gpus);
    if n.closed then t.(gpus := gpus)
    else
      Tally(gpus, t.free + Max(Trunc(n.has.gpus - n.held.gpus), 0),
            t.workers + Fitting(n.has, n.held, w), t.empty + Fitting(n.has, NOTHING, w))
  }

  /** What the nodes of one model add up to. */
  function TallyOf(nodes: seq<Node>, model: string, w: Worker): Tally
    requires ValidWorker(w)
    decreases |nodes|
  {
    if nodes == [] then ZERO
    else
      var before, last := TallyOf(nodes[..|nodes| - 1], model, w), nodes[|nodes| - 1];
      if last.model == model then Plus(before, last, w) else before
  }

  /** A model, its GPUs' memory if it was reported, and what its nodes add up to. */
  datatype Model = Model(name: string, memoryGb: Option<real>, tally: Tally)

  function ModelOf(nodes: seq<Node>, memory: map<string, real>, w: Worker, name: string): Model
    requires ValidWorker(w)
  {
    Model(name, if name in memory then Some(memory[name]) else None, TallyOf(nodes, name, w))
  }

  predicate DistinctNames(models: seq<Model>) {
    forall i, j :: 0 <= i < j < |models| ==> models[i].name != models[j].name
  }

  /** The models of the nodes that have GPUs, each once, with what its nodes add up to. */
  predicate ModelsOf(models: seq<Model>, nodes: seq<Node>, memory: map<string, real>, w: Worker)
    requires ValidWorker(w)
  {
    && DistinctNames(models)
    && (forall i :: 0 <= i < |models| ==>
          models[i] == ModelOf(nodes, memory, w, models[i].name) && models[i].tally.gpus != 0)
    && (forall n :: n in nodes && TallyOf(nodes, n.model, w).gpus != 0 ==> exists m :: m in models && m.name == n.model)
  }

  /** The first loop of `by_model`: a tally for each model, kept in a dictionary. */
  method Tallies(nodes: seq<Node>, w: Worker) returns (out: map<string, Tally>)
    requires ValidWorker(w)
    ensures forall m :: m in out ==> out[m] == TallyOf(nodes, m, w)
    ensures forall n :: n in nodes ==> n.model in out
  {
    out := map[];
    for i := 0 to |nodes|
      invariant forall m :: m in out ==> out[m] == TallyOf(nodes[..i], m, w)
      invariant forall m :: m !in out ==> TallyOf(nodes[..i], m, w) == ZERO
      invariant forall j :: 0 <= j < i ==> nodes[j].model in out
    {
      assert nodes[..i + 1][..i] == nodes[..i];
      var n := nodes[i];
      var sofar := if n.model in out then out[n.model] else ZERO;
      out := out[n.model := Plus(sofar, n, w)];
    }
    assert nodes[..|nodes|] == nodes;
  }

  method ByModel(nodes: seq<Node>, memory: map<string, real>, w: Worker) returns (models: seq<Model>)
    requires ValidWorker(w)
    ensures ModelsOf(models, nodes, memory, w)
  {
    var out := Tallies(nodes, w);
    models := [];
    var left := out.Keys;
    while left != {}
      invariant left <= out.Keys && DistinctNames(models)
      invariant forall i :: 0 <= i < |models| ==>
                  && models[i].name !in left && models[i].tally.gpus != 0
                  && models[i] == ModelOf(nodes, memory, w, models[i].name)
      invariant forall m :: m in out && m !in left && out[m].gpus != 0 ==>
                exists i :: 0 <= i < |models| && models[i].name == m
      decreases |left|
    {
      var name :| name in left;
      ghost var before := models;
      if out[name].gpus != 0 {
        models := models + [Model(name, if name in memory then Some(memory[name]) else None, out[name])];
        assert models[|before|].name == name;
      }
      left := left - {name};
      assert forall i :: 0 <= i < |before| ==> models[i] == before[i];
    }
  }

  lemma {:induction false} TallyWithinEmpty(nodes: seq<Node>, model: string, w: Worker)
    requires ValidWorker(w) && HoldsSome(nodes)
    ensures 0 <= TallyOf(nodes, model, w).workers <= TallyOf(nodes, model, w).empty
    decreases |nodes|
  {
    if nodes == [] {
    } else {
      var last := nodes[|nodes| - 1];
      TallyWithinEmpty(nodes[..|nodes| - 1], model, w);
      NoMoreThanEmpty(last.has, last.held, w);
    }
  }

  /** What pods hold of a node is not negative. */
  predicate HoldsSome(nodes: seq<Node>) {
    forall i :: 0 <= i < |nodes| ==> NonNegative(nodes[i].held)
  }

  // ----- room -----

  datatype Room = Room(workers: int, empty: int, some: bool)

  /** Whether a job that asks for `memory` GB may hold the model's GPUs; any, if it asks for none. */
  predicate Allowed(m: Model, memory: real) {
    memory == 0.0 || (m.name != "" && m.memoryGb.Some? && m.memoryGb.value >= memory * MEMORY_SLACK)
  }

  function RoomOf(models: seq<Model>, memory: real): Room
    decreases |models|
  {
    if models == [] then Room(0, 0, memory == 0.0)
    else
      var before, last := RoomOf(models[..|models| - 1], memory), models[|models| - 1];
      if Allowed(last, memory) then Room(before.workers + last.tally.workers, before.empty + last.tally.empty, true)
      else before
  }

  predicate Sound(models: seq<Model>) {
    forall i :: 0 <= i < |models| ==> 0 <= models[i].tally.workers <= models[i].tally.empty
  }

  lemma {:induction false} ModelsAreSound(models: seq<Model>, nodes: seq<Node>, memory: map<string, real>, w: Worker)
    requires ValidWorker(w) && HoldsSome(nodes) && ModelsOf(models, nodes, memory, w)
    ensures Sound(models)
  {
    forall i | 0 <= i < |models| ensures 0 <= models[i].tally.workers <= models[i].tally.empty {
      TallyWithinEmpty(nodes, models[i].name, w);
    }
  }

  lemma {:induction false} RoomWithinEmpty(models: seq<Model>, memory: real)
    requires Sound(models)
    ensures 0 <= RoomOf(models, memory).workers <= RoomOf(models, memory).empty
    decreases |models|
  {
    if models == [] {
    } else {
      RoomWithinEmpty(models[..|models| - 1], memory);
    }
  }

  lemma {:induction false} SoundRoomShrinks(models: seq<Model>, less: real, more: real)
    requires Sound(models) && 0.0 <= less <= more
    ensures RoomOf(models, more).workers <= RoomOf(models, less).workers
    ensures RoomOf(models, more).empty <= RoomOf(models, less).empty
    decreases |models|
  {
    if models == [] {
    } else {
      SoundRoomShrinks(models[..|models| - 1], less, more);
      assert Allowed(models[|models| - 1], more) ==> Allowed(models[|models| - 1], less);
    }
  }

  /** Asking for more memory leaves no more room, now or empty. */
  lemma {:induction false} RoomShrinks(
    models: seq<Model>, nodes: seq<Node>, memory: map<string, real>, w: Worker, less: real, more: real)
    requires ValidWorker(w) && HoldsSome(nodes) && ModelsOf(models, nodes, memory, w) && 0.0 <= less <= more
    ensures RoomOf(models, more).workers <= RoomOf(models, less).workers
    ensures RoomOf(models, more).empty <= RoomOf(models, less).empty
  {
    ModelsAreSound(models, nodes, memory, w);
    SoundRoomShrinks(models, less, more);
  }

  /** The models a job may hold. */
  function AllowedNames(models: seq<Model>, memory: real): (names: seq<string>)
    ensures forall x :: x in names ==> exists i :: 0 <= i < |models| && models[i].name == x
    decreases |models|
  {
    if models == [] then []
    else
      var before, last := AllowedNames(models[..|models| - 1], memory), models[|models| - 1];
      if Allowed(last, memory) then before + [last.name] else before
  }

  /** Beside what their pods hold, or on empty nodes. */
  datatype When = Now | Empty

  function FittingWhen(n: Node, w: Worker, when: When): int
    requires ValidWorker(w)
  {
    Fitting(n.has, if when.Now? then n.held else NOTHING, w)
  }

  function RoomWhen(room: Room, when: When): int {
    if when.Now? then room.workers else room.empty
  }

  function TallyWhen(t: Tally, when: When): int {
    if when.Now? then t.workers else t.empty
  }

  /** The workers that the open nodes of some models hold, node by node. */
  function NodesHold(nodes: seq<Node>, names: seq<string>, w: Worker, when: When): int
    requires ValidWorker(w)
    decreases |nodes|
  {
    if nodes == [] then 0
    else
      var before, last := NodesHold(nodes[..|nodes| - 1], names, w, when), nodes[|nodes| - 1];
      if !last.closed && last.model in names then before + FittingWhen(last, w, when) else before
  }

  /** The nodes of one model more. */
  lemma {:induction false} NodesHoldMore(nodes: seq<Node>, names: seq<string>, name: string, w: Worker, when: When)
    requires ValidWorker(w) && name !in names
    ensures NodesHold(nodes, names + [name], w, when)
         == NodesHold(nodes, names, w, when) + TallyWhen(TallyOf(nodes, name, w), when)
    decreases |nodes|
  {
    if nodes == [] {
    } else {
      NodesHoldMore(nodes[..|nodes| - 1], names, name, w, when);
    }
  }

  lemma {:induction false} NodesHoldNone(nodes: seq<Node>, w: Worker, when: When)
    requires ValidWorker(w)
    ensures NodesHold(nodes, [], w, when) == 0
    decreases |nodes|
  {
    if nodes == [] {
    } else {
      NodesHoldNone(nodes[..|nodes| - 1], w, when);
    }
  }

  /**
   * Summed by model or node by node, the room, now or on empty nodes, is what the open
   * nodes of the allowed models hold.
   */
  lemma {:induction false} RoomIsNodes(models: seq<Model>, nodes: seq<Node>, w: Worker, memory: real, when: When)
    requires ValidWorker(w) && DistinctNames(models)
    requires forall i :: 0 <= i < |models| ==> models[i].tally == TallyOf(nodes, models[i].name, w)
    ensures RoomWhen(RoomOf(models, memory), when) == NodesHold(nodes, AllowedNames(models, memory), w, when)
    decreases |models|
  {
    if models == [] {
      NodesHoldNone(nodes, w, when);
    } else {
      var before, last := models[..|models| - 1], models[|models| - 1];
      RoomIsNodes(before, nodes, w, memory, when);
      if Allowed(last, memory) {
        assert last.name !in AllowedNames(before, memory);
        NodesHoldMore(nodes, AllowedNames(before, memory), last.name, w, when);
      }
    }
  }

  /**
   * The models a job may hold are those whose GPUs have the memory it asks for, but for
   * the slack; any, if it asks for none.
   */
  lemma {:induction false} AllowedExactly(models: seq<Model>, memory: real, name: string)
    requires DistinctNames(models)
    ensures name in AllowedNames(models, memory) <==>
              exists i :: 0 <= i < |models| && models[i].name == name
                && (memory == 0.0
                    || (name != "" && models[i].memoryGb.Some? && memory * 0.95 <= models[i].memoryGb.value))
    decreases |models|
  {
    if models == [] {
    } else {
      var n := |models| - 1;
      AllowedExactly(models[..n], memory, name);
      assert forall i :: 0 <= i < n ==> models[..n][i] == models[i];
    }
  }

  /** The free GPUs of a model are those its open nodes do not hold pods on. */
  function FreeGpus(nodes: seq<Node>, model: string): int
    decreases |nodes|
  {
    if nodes == [] then 0
    else
      var before, last := FreeGpus(nodes[..|nodes| - 1], model), nodes[|nodes| - 1];
      if last.model == model && !last.closed then before + Max(0, Trunc(last.has.gpus - last.held.gpus)) else before
  }

  /** The GPUs of a model's nodes, those that take no pods among them. */
  function AllGpus(nodes: seq<Node>, model: string): int
    decreases |nodes|
  {
    if nodes == [] then 0
    else
      var before, last := AllGpus(nodes[..|nodes| - 1], model), nodes[|nodes| - 1];
      if last.model == model then before + Trunc(last.has.gpus) else before
  }

  lemma {:induction false} FreeIsFree(nodes: seq<Node>, model: string, w: Worker)
    requires ValidWorker(w)
    ensures TallyOf(nodes, model, w).free == FreeGpus(nodes, model)
    ensures TallyOf(nodes, model, w).gpus == AllGpus(nodes, model)
    decreases |nodes|
  {
    if nodes == [] {
    } else {
      FreeIsFree(nodes[..|nodes| - 1], model, w);
    }
  }

  /** The workers a job is started with; None when it is refused. */
  function Started(room: Room, wanted: nat, least: nat): Option<int> {
    if !room.some || room.empty < least then None else Some(Min(wanted, Max(room.workers, least)))
  }

  /**
   * A job starts with as many workers as the allowed nodes have room for now, of those it
   * wants, but no fewer than it needs; never with more than these nodes hold when empty;
   * and it is refused only when they cannot hold what it needs.
   */
  lemma {:induction false} StartsWithinRoom(
    models: seq<Model>, nodes: seq<Node>, reported: map<string, real>, w: Worker, memory: real, wanted: nat, least: nat)
    requires ValidWorker(w) && HoldsSome(nodes) && ModelsOf(models, nodes, reported, w) && 1 <= least <= wanted
    ensures var names := AllowedNames(models, memory);
            var now, empty := NodesHold(nodes, names, w, Now), NodesHold(nodes, names, w, Empty);
            var started := Started(RoomOf(models, memory), wanted, least);
            && (started.None? <==> empty < least)
            && (started.Some? ==>
                  && least <= started.value <= wanted && started.value <= empty
                  && (now >= wanted ==> started.value == wanted)
                  && (least <= now <= wanted ==> started.value == now)
                  && (now <= least ==> started.value == least))
  {
    ModelsAreSound(models, nodes, reported, w);
    RoomWithinEmpty(models, memory);
    NoneAllowed(models, memory);
    RoomIsNodes(models, nodes, w, memory, Now);
    RoomIsNodes(models, nodes, w, memory, Empty);
  }

  lemma {:induction false} NoneAllowed(models: seq<Model>, memory: real)
    ensures !RoomOf(models, memory).some ==> RoomOf(models, memory).empty == 0
    decreases |models|
  {
    if models == [] {
    } else {
      NoneAllowed(models[..|models| - 1], memory);
    }
  }
}
