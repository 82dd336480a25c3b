/** `Gateway.admit`: which GPUs a Ray cluster gets, and the ledger of what was granted. */
module Admission {
  import opened Collections
  import opened Optional
  import Keys

  /** GPUs by resource; a resource that is missing counts none. */
  type Gpus = map<string, nat>

  datatype Flavor = Flavor(resource: string, budget: int)
  datatype Grant = Grant(gpus: Gpus, expires: real)

  /** The flavors a shape allows, in their order, and the workers it asks for. */
  datatype Shape = Shape(flavors: seq<Flavor>, wanted: nat, least: nat, perWorker: nat)

  const GRANT_S := 120.0

  function Get(g: Gpus, r: string): nat {
    if r in g then g[r] else 0
  }

  // ----- sums over clusters -----

  /** The GPUs of a resource, one by one: each by its cluster and a number. */
  ghost function GpusIn(m: map<string, Gpus>, r: string): set<(string, int)> {
    set c, i | c in m && 0 <= i < Get(m[c], r) :: (c, i)
  }

  /** How many GPUs of a resource the clusters of a map have. */
  ghost function SumOf(m: map<string, Gpus>, r: string): nat {
    |GpusIn(m, r)|
  }

  /** The first `n` GPUs of one cluster. */
  ghost function FirstGpus(c: string, n: nat): set<(string, int)> {
    set i | 0 <= i < n :: (c, i)
  }

  lemma {:induction false} CountFirst(c: string, n: nat)
    ensures |FirstGpus(c, n)| == n
    decreases n
  {
    if n == 0 {
      assert FirstGpus(c, n) == {};
    } else {
      CountFirst(c, n - 1);
      assert FirstGpus(c, n) == FirstGpus(c, n - 1) + {(c, n - 1)};
    }
  }

  lemma {:induction false} SumOfNone(r: string)
    ensures SumOf(map[], r) == 0
  {
    assert GpusIn(map[], r) == {};
  }

  lemma {:induction false} SumWithout(m: map<string, Gpus>, k: string, r: string)
    requires k in m
    ensures SumOf(m, r) == Get(m[k], r) + SumOf(m - {k}, r)
  {
    CountFirst(k, Get(m[k], r));
    assert GpusIn(m, r) == FirstGpus(k, Get(m[k], r)) + GpusIn(m - {k}, r);
    assert FirstGpus(k, Get(m[k], r)) !! GpusIn(m - {k}, r);
  }

  /** A resource of one cluster of a map, if it is there. */
  function At(m: map<string, Gpus>, c: string, r: string): nat {
    if c in m then Get(m[c], r) else 0
  }

  /** Fewer GPUs of every cluster are fewer in all. */
  lemma {:induction false} SumLess(a: map<string, Gpus>, b: map<string, Gpus>, r: string)
    requires forall c :: c in a ==> At(a, c, r) <= At(b, c, r)
    ensures SumOf(a, r) <= SumOf(b, r)
  {
    var x, y := GpusIn(a, r), GpusIn(b, r);
    assert x <= y;
    assert y == x + (y - x);
  }

  // ----- the mix -----

  function Max0(n: int): nat {
    if n < 0 then 0 else n
  }

  /**
   * The workers of each flavor, given how many fit of each: the first flavors first. A
   * shortage fits a negative number.
   */
  function Greedy(fit: seq<int>, wanted: nat): (mix: seq<nat>)
    ensures |mix| == |fit|
    decreases |fit|
  {
    if fit == [] then []
    else
      var before := Greedy(fit[..|fit| - 1], wanted);
      before + [Max0(Min(fit[|fit| - 1], wanted - Sum(before)))]
  }

  /** What fits, with shortages as nothing. */
  function Room(fit: seq<int>): (r: seq<nat>)
    ensures |r| == |fit| && forall i :: 0 <= i < |r| ==> r[i] == Max0(fit[i])
  {
    seq(|fit|, i requires 0 <= i < |fit| => Max0(fit[i]))
  }

  lemma {:induction false} RoomLast(fit: seq<int>)
    requires fit != []
    ensures Room(fit) == Room(fit[..|fit| - 1]) + [Max0(fit[|fit| - 1])]
  {
  }

  predicate InOrder(mix: seq<nat>, room: seq<nat>)
    requires |mix| == |room|
  {
    forall i, j :: 0 <= i < j < |mix| && mix[j] > 0 ==> mix[i] == room[i]
  }

  predicate Within(mix: seq<nat>, room: seq<nat>)
    requires |mix| == |room|
  {
    forall i :: 0 <= i < |mix| ==> mix[i] <= room[i]
  }

  /** While more is wanted, every flavor is used up. */
  lemma {:induction false} GreedyUsesAll(fit: seq<int>, wanted: nat)
    requires Sum(Greedy(fit, wanted)) < wanted
    ensures Greedy(fit, wanted) == Room(fit)
    decreases |fit|
  {
    if fit == [] {
    } else {
      var n := |fit| - 1;
      RoomLast(fit);
      SumLast(Greedy(fit[..n], wanted), Greedy(fit, wanted)[n]);
      GreedyUsesAll(fit[..n], wanted);
    }
  }

  /** As many workers as wanted if they fit, or as fit. */
  lemma {:induction false} GreedyTotal(fit: seq<int>, wanted: nat)
    ensures Sum(Greedy(fit, wanted)) == Min(wanted, Sum(Room(fit)))
    decreases |fit|
  {
    if fit == [] {
    } else {
      var n := |fit| - 1;
      GreedyTotal(fit[..n], wanted);
      RoomLast(fit);
      SumLast(Greedy(fit[..n], wanted), Greedy(fit, wanted)[n]);
      SumLast(Room(fit[..n]), Max0(fit[n]));
    }
  }

  lemma {:induction false} GreedyWithin(fit: seq<int>, wanted: nat)
    ensures Within(Greedy(fit, wanted), Room(fit))
    decreases |fit|
  {
    if fit == [] {
    } else {
      GreedyWithin(fit[..|fit| - 1], wanted);
      RoomLast(fit);
    }
  }

  /** A flavor is taken only when all before it are used up. */
  lemma {:induction false} GreedyInOrder(fit: seq<int>, wanted: nat)
    ensures InOrder(Greedy(fit, wanted), Room(fit))
    decreases |fit|
  {
    if fit == [] {
    } else {
      var n := |fit| - 1;
      GreedyInOrder(fit[..n], wanted);
      RoomLast(fit);
      if Greedy(fit, wanted)[n] > 0 {
        GreedyUsesAll(fit[..n], wanted);
      }
    }
  }

  lemma {:induction false} GreedyNext(fit: seq<int>, i: nat, wanted: nat)
    requires i < |fit|
    ensures Greedy(fit[..i + 1], wanted)
         == Greedy(fit[..i], wanted) + [Max0(Min(fit[i], wanted - Sum(Greedy(fit[..i], wanted))))]
  {
    assert fit[..i + 1][..i] == fit[..i];
  }

  // ----- admission -----

  /** What Prometheus shows free of a resource: held by nobody, and by workers that give way. */
  datatype Free = Free(unheld: int, preemptible: int)

  /**
   * What an admission reads: the grants so far, the clusters listed, the GPUs its
   * predecessor gives back, and Prometheus's answer, if any.
   */
  datatype Facts = Facts(
    grants: map<string, Grant>, listed: map<string, Gpus>, replaced: Gpus, free: Option<map<string, Free>>,
    name: string, now: real)

  predicate Known(x: Facts, flavors: seq<Flavor>) {
    x.free.Some? ==> forall i :: 0 <= i < |flavors| ==> flavors[i].resource in x.free.value
  }

  /** What others were granted and the ledger has not dropped yet. */
  function Granted(x: Facts): map<string, Gpus> {
    map c | c in x.grants && x.grants[c].expires > x.now && c != x.name :: x.grants[c].gpus
  }

  /** `{**granted, **others}`: a listed cluster counts as it is listed. */
  function Held(x: Facts): map<string, Gpus> {
    Granted(x) + (x.listed - {x.name})
  }

  ghost function Available(x: Facts, f: Flavor): int
    requires x.free.Some? ==> f.resource in x.free.value
  {
    if x.free.None? then f.budget - SumOf(Held(x), f.resource)
    else x.free.value[f.resource].unheld + Get(x.replaced, f.resource) - SumOf(Granted(x), f.resource)
  }

  /** Whole workers that fit in what is available of a flavor, rounded down even from a shortage. */
  ghost function FittingOne(x: Facts, f: Flavor, perWorker: nat): int
    requires (x.free.Some? ==> f.resource in x.free.value) && perWorker > 0
  {
    Available(x, f) / perWorker
  }

  /** Whole workers of each flavor that fit in what is available of it. */
  ghost function Fitting(x: Facts, flavors: seq<Flavor>, perWorker: nat): (r: seq<int>)
    requires Known(x, flavors) && perWorker > 0
    ensures |r| == |flavors|
  {
    seq(|flavors|, i requires 0 <= i < |flavors| => FittingOne(x, flavors[i], perWorker))
  }

  /** Whether a preemptible worker's GPU of the flavor could be taken. */
  ghost predicate Evictable(x: Facts, f: Flavor)
    requires x.free.Some? ==> f.resource in x.free.value
  {
    && x.free.Some?
    && x.free.value[f.resource].unheld + x.free.value[f.resource].preemptible - Get(x.replaced, f.resource)
       - SumOf(Granted(x), f.resource) > 0
  }

  /** The first of the first `n` flavors with a GPU to take. */
  ghost predicate FirstEvictableOf(x: Facts, flavors: seq<Flavor>, n: nat, e: Option<nat>)
    requires Known(x, flavors) && n <= |flavors|
  {
    match e
    case None => forall i :: 0 <= i < n ==> !Evictable(x, flavors[i])
    case Some(k) => k < n && Evictable(x, flavors[k]) && forall i :: 0 <= i < k ==> !Evictable(x, flavors[i])
  }

  ghost predicate FirstEvictable(x: Facts, flavors: seq<Flavor>, e: Option<nat>)
    requires Known(x, flavors)
  {
    FirstEvictableOf(x, flavors, |flavors|, e)
  }

  lemma {:induction false} FirstEvictableNext(x: Facts, flavors: seq<Flavor>, n: nat, e: Option<nat>)
    requires Known(x, flavors) && n < |flavors| && FirstEvictableOf(x, flavors, n, e)
    ensures FirstEvictableOf(x, flavors, n + 1, if e.None? && Evictable(x, flavors[n]) then Some(n) else e)
  {
  }

  /** The workers of each flavor a cluster could get: the greedy mix, or one worker that evicts when nothing is free. */
  ghost predicate IsOffer(x: Facts, shape: Shape, mix: seq<nat>)
    requires Known(x, shape.flavors) && shape.perWorker > 0
  {
    var greedy := Greedy(Fitting(x, shape.flavors, shape.perWorker), shape.wanted);
    if shape.perWorker == 1 && Sum(greedy) == 0 then
      exists e: Option<nat> ::
        FirstEvictable(x, shape.flavors, e) && mix == if e.Some? then greedy[e.value := 1] else greedy
    else mix == greedy
  }

  /** The GPUs of a mix; the flavors of a shape are of different resources. */
  function GpusOf(flavors: seq<Flavor>, mix: seq<nat>, perWorker: nat): Gpus
    requires |mix| == |flavors|
    decreases |flavors|
  {
    if flavors == [] then map[]
    else GpusOf(flavors[..|flavors| - 1], mix[..|mix| - 1], perWorker)
           [flavors[|flavors| - 1].resource := mix[|mix| - 1] * perWorker]
  }

  function Live(grants: map<string, Grant>, now: real): map<string, Grant> {
    map c | c in grants && grants[c].expires > now :: grants[c]
  }

  class Gateway {
    var grants: map<string, Grant>

    constructor ()
      ensures grants == map[]
    {
      grants := map[];
    }

    static method Count(m: map<string, Gpus>, r: string) returns (n: nat)
      ensures n == SumOf(m, r)
    {
      n := 0;
      var left := m;
      while left != map[]
        invariant n + SumOf(left, r) == SumOf(m, r)
        decreases |left|
      {
        var k :| k in left;
        SumWithout(left, k, r);
        assert (left - {k}).Keys == left.Keys - {k};
        n := n + Get(left[k], r);
        left := left - {k};
      }
      SumOfNone(r);
    }

    /** The workers that fit of one flavor, and whether one of its GPUs could be taken. */
    static method Survey(x: Facts, f: Flavor, perWorker: nat) returns (fit: int, evictable: bool)
      requires (x.free.Some? ==> f.resource in x.free.value) && perWorker > 0
      ensures fit == FittingOne(x, f, perWorker) && evictable == Evictable(x, f)
    {
      var taken := Count(Granted(x), f.resource);
      if x.free.None? {
        var held := Count(Held(x), f.resource);
        return (f.budget - held) / perWorker, false;
      }
      var shown := x.free.value[f.resource];
      var available := shown.unheld + Get(x.replaced, f.resource) - taken;
      fit := available / perWorker;
      evictable := shown.unheld + shown.preemptible - Get(x.replaced, f.resource) - taken > 0;
    }

    /** The loop over the flavors. */
    static method Mix(x: Facts, shape: Shape) returns (mix: seq<nat>, evicting: Option<nat>)
      requires Known(x, shape.flavors) && shape.perWorker > 0
      ensures mix == Greedy(Fitting(x, shape.flavors, shape.perWorker), shape.wanted)
      ensures FirstEvictable(x, shape.flavors, evicting)
    {
      mix, evicting := [], None;
      ghost var fit := Fitting(x, shape.flavors, shape.perWorker);
      assert fit[..0] == [];
      for i := 0 to |shape.flavors|
        invariant mix == Greedy(fit[..i], shape.wanted)
        invariant FirstEvictableOf(x, shape.flavors, i, evicting)
      {
        var fits, evictable := Survey(x, shape.flavors[i], shape.perWorker);
        FirstEvictableNext(x, shape.flavors, i, evicting);
        if evictable && evicting.None? {
          evicting := Some(i);
        }
        mix := More(fit, i, shape.wanted, mix, fits);
      }
      assert fit[..|shape.flavors|] == fit;
    }

    static method More(
      ghost fit: seq<int>, ghost i: nat, wanted: nat, mix: seq<nat>, fits: int) returns (more: seq<nat>)
      requires i < |fit| && fits == fit[i] && mix == Greedy(fit[..i], wanted)
      ensures more == Greedy(fit[..i + 1], wanted)
    {
      GreedyNext(fit, i, wanted);
      more := mix + [Max0(Min(fits, wanted - Sum(mix)))];
    }

    static method Decide(x: Facts, shape: Shape) returns (mix: seq<nat>)
      requires Known(x, shape.flavors) && shape.perWorker > 0
      ensures IsOffer(x, shape, mix) && |mix| == |shape.flavors| && Offers(x, shape, mix)
    {
      var evicting;
      mix, evicting := Mix(x, shape);
      ghost var greedy := mix;
      if shape.perWorker == 1 && Sum(mix) == 0 && evicting.Some? {
        mix := mix[evicting.value := 1];
      }
      OfferedExactly(x, shape, mix);
    }

    /**
     * The mix a cluster is admitted with, its grant written down; None when it gets fewer
     * workers than it starts with.
     */
    method Admit(
      name: string, shape: Shape, replaced: Gpus, listed: map<string, Gpus>, free: Option<map<string, Free>>, now: real)
      returns (admitted: Option<seq<nat>>, ghost mix: seq<nat>)
      requires Known(Facts(grants, listed, replaced, free, name, now), shape.flavors) && shape.perWorker > 0
      modifies this
      ensures IsOffer(Facts(old(grants), listed, replaced, free, name, now), shape, mix) && |mix| == |shape.flavors|
      ensures Offers(Facts(old(grants), listed, replaced, free, name, now), shape, mix)
      ensures shape.least > Sum(mix) ==> admitted.None? && grants == Live(old(grants), now)
      ensures shape.least <= Sum(mix) ==>
                && admitted == Some(mix)
                && var granted := Grant(GpusOf(shape.flavors, mix, shape.perWorker), now + GRANT_S);
                   grants == Live(old(grants), now)[name := granted]
    {
      var offer := Decide(Facts(grants, listed, replaced, free, name, now), shape);
      mix := offer;
      grants := map c | c in grants && grants[c].expires > now :: grants[c];
      if shape.least > Sum(offer) {
        return None, mix;
      }
      grants := grants[name := Grant(GpusOf(shape.flavors, offer, shape.perWorker), now + GRANT_S)];
      return Some(offer), mix;
    }
  }

  lemma {:induction false} ZeroThenOne(s: seq<nat>, i: nat)
    requires i < |s| && Sum(s) == 0
    ensures Sum(s[i := 1]) == 1
    decreases |s|
  {
    var n := |s| - 1;
    if i < n {
      assert s[i := 1][..n] == s[..n][i := 1];
      ZeroThenOne(s[..n], i);
    } else {
      assert s[i := 1][..n] == s[..n];
    }
  }

  /**
   * What a cluster is offered: as many workers as wanted, if they fit, or as fit; a
   * later flavor only when the earlier ones are used up; and one worker that
   * evicts only when nothing fits and it has a single GPU.
   */
  lemma {:induction false} OfferedMix(x: Facts, shape: Shape, mix: seq<nat>)
    requires Known(x, shape.flavors) && shape.perWorker > 0 && 1 <= shape.wanted
    requires IsOffer(x, shape, mix)
    ensures |mix| == |shape.flavors| && Sum(mix) <= shape.wanted
    ensures var room := Room(Fitting(x, shape.flavors, shape.perWorker));
            || (Sum(mix) == Min(shape.wanted, Sum(room)) && Within(mix, room) && InOrder(mix, room))
            || (shape.perWorker == 1 && Sum(room) == 0 && Sum(mix) == 1
                && exists e: nat :: FirstEvictable(x, shape.flavors, Some(e)) && mix[e] == 1)
  {
    var fit := Fitting(x, shape.flavors, shape.perWorker);
    GreedyTotal(fit, shape.wanted);
    GreedyWithin(fit, shape.wanted);
    GreedyInOrder(fit, shape.wanted);
    var greedy := Greedy(fit, shape.wanted);
    if shape.perWorker == 1 && Sum(greedy) == 0 {
      var e: Option<nat> :|
        FirstEvictable(x, shape.flavors, e) && mix == if e.Some? then greedy[e.value := 1] else greedy;
      if e.Some? {
        ZeroThenOne(greedy, e.value);
      }
    }
  }

  // ----- what is offered, in GPUs -----

  /** What others were granted of a resource, as long as it is not too long ago. */
  ghost function Lent(grants: map<string, Grant>, name: string, now: real, r: string): nat {
    SumOf(map c | c in grants && c != name && now < grants[c].expires :: grants[c].gpus, r)
  }

  /** What others hold of a resource: as they are listed, or else as they were granted. */
  ghost function Taken(x: Facts, r: string): nat {
    SumOf(map c | c in x.listed.Keys + x.grants.Keys && c != x.name && (c in x.listed || x.now < x.grants[c].expires)
            :: if c in x.listed then x.listed[c] else x.grants[c].gpus, r)
  }

  /** What is left of a flavor: of what Prometheus shows free, or of its budget when it is silent. */
  ghost predicate IsLeft(x: Facts, f: Flavor, left: int)
    requires x.free.Some? ==> f.resource in x.free.value
  {
    match x.free
    case Some(free) =>
      left + Lent(x.grants, x.name, x.now, f.resource) == free[f.resource].unheld + Get(x.replaced, f.resource)
    case None => left + Taken(x, f.resource) == f.budget
  }

  lemma {:induction false} LeftIsAvailable(x: Facts, f: Flavor, left: int)
    requires x.free.Some? ==> f.resource in x.free.value
    ensures IsLeft(x, f, left) <==> left == Available(x, f)
  {
    LentIsGranted(x, f.resource);
    TakenIsHeld(x, f.resource);
  }

  lemma {:induction false} LentIsGranted(x: Facts, r: string)
    ensures Lent(x.grants, x.name, x.now, r) == SumOf(Granted(x), r)
  {
    var lent := map c | c in x.grants && c != x.name && x.now < x.grants[c].expires :: x.grants[c].gpus;
    assert lent == Granted(x);
  }

  lemma {:induction false} TakenIsHeld(x: Facts, r: string)
    ensures Taken(x, r) == SumOf(Held(x), r)
  {
    var taken :=
      map c | c in x.listed.Keys + x.grants.Keys && c != x.name && (c in x.listed || x.now < x.grants[c].expires)
        :: if c in x.listed then x.listed[c] else x.grants[c].gpus;
    assert taken == Held(x);
  }

  /** Whether a preemptible worker holds a GPU of the flavor that is not spoken for. */
  ghost predicate CanEvict(x: Facts, f: Flavor)
    requires x.free.Some? ==> f.resource in x.free.value
  {
    x.free.Some? &&
    var free := x.free.value[f.resource];
    Lent(x.grants, x.name, x.now, f.resource) + Get(x.replaced, f.resource) < free.unheld + free.preemptible
  }

  lemma {:induction false} CanEvictIsEvictable(x: Facts, f: Flavor)
    requires x.free.Some? ==> f.resource in x.free.value
    ensures CanEvict(x, f) <==> Evictable(x, f)
  {
    LentIsGranted(x, f.resource);
  }

  /** Whether more workers are wanted than a mix has, or a later flavor than `i` is used. */
  predicate GoesPast(shape: Shape, mix: seq<nat>, i: nat) {
    Sum(mix) < shape.wanted || exists j :: i < j < |mix| && mix[j] > 0
  }

  /** A mix takes of each flavor no more than is left, and goes past one only when not one more worker fits. */
  ghost predicate TakesWhatIsLeft(x: Facts, shape: Shape, mix: seq<nat>)
    requires Known(x, shape.flavors) && |mix| == |shape.flavors|
  {
    && Sum(mix) <= shape.wanted
    && forall i, left :: 0 <= i < |mix| && IsLeft(x, shape.flavors[i], left) ==>
         && (mix[i] > 0 ==> mix[i] * shape.perWorker <= left)
         && (GoesPast(shape, mix, i) ==> (mix[i] + 1) * shape.perWorker > left)
  }

  /** One worker of one GPU, of the first flavor of which a GPU can be taken, when none is left of any. */
  ghost predicate EvictsOne(x: Facts, shape: Shape, mix: seq<nat>)
    requires Known(x, shape.flavors) && |mix| == |shape.flavors|
  {
    && shape.perWorker == 1 && (shape.wanted > 0 ==> NothingLeft(x, shape))
    && exists e :: 0 <= e < |mix| && CanEvict(x, shape.flavors[e])
         && (forall i :: 0 <= i < e ==> !CanEvict(x, shape.flavors[i]))
         && forall i :: 0 <= i < |mix| ==> mix[i] == if i == e then 1 else 0
  }

  ghost predicate NothingLeft(x: Facts, shape: Shape)
    requires Known(x, shape.flavors)
  {
    forall i, left :: 0 <= i < |shape.flavors| && IsLeft(x, shape.flavors[i], left) ==> left <= 0
  }

  ghost predicate SomethingToEvict(x: Facts, shape: Shape)
    requires Known(x, shape.flavors)
  {
    exists e :: 0 <= e < |shape.flavors| && CanEvict(x, shape.flavors[e])
  }

  lemma {:induction false} WholeWorkers(left: int, perWorker: nat, n: nat)
    requires perWorker > 0
    ensures n > 0 ==> (n <= Max0(left / perWorker) <==> n * perWorker <= left)
    ensures Max0(left / perWorker) == n ==> (n + 1) * perWorker > left
  {
    assert left == (left / perWorker) * perWorker + left % perWorker;
    if n <= left / perWorker {
      assert n * perWorker <= (left / perWorker) * perWorker;
    } else {
      assert n * perWorker >= (left / perWorker + 1) * perWorker;
    }
    assert (left / perWorker + 1) * perWorker > left;
    if left / perWorker <= n {
      assert (left / perWorker + 1) * perWorker <= (n + 1) * perWorker;
    }
  }

  /** The greedy mix takes what is left. */
  lemma {:induction false} GreedyTakes(x: Facts, shape: Shape, mix: seq<nat>)
    requires Known(x, shape.flavors) && shape.perWorker > 0
    requires mix == Greedy(Fitting(x, shape.flavors, shape.perWorker), shape.wanted)
    ensures |mix| == |shape.flavors| && TakesWhatIsLeft(x, shape, mix)
  {
    var fit := Fitting(x, shape.flavors, shape.perWorker);
    GreedyTotal(fit, shape.wanted);
    GreedyWithin(fit, shape.wanted);
    GreedyInOrder(fit, shape.wanted);
    if Sum(mix) < shape.wanted {
      GreedyUsesAll(fit, shape.wanted);
    }
    forall i, left | 0 <= i < |mix| && IsLeft(x, shape.flavors[i], left)
      ensures mix[i] > 0 ==> mix[i] * shape.perWorker <= left
      ensures GoesPast(shape, mix, i) ==> (mix[i] + 1) * shape.perWorker > left
    {
      LeftIsAvailable(x, shape.flavors[i], left);
      assert Room(fit)[i] == Max0(left / shape.perWorker);
      OneTakes(shape, mix, Room(fit), i, left);
    }
  }

  lemma {:induction false} OneTakes(shape: Shape, mix: seq<nat>, room: seq<nat>, i: nat, left: int)
    requires |mix| == |room| && i < |mix| && shape.perWorker > 0 && room[i] == Max0(left / shape.perWorker)
    requires Within(mix, room) && InOrder(mix, room) && (Sum(mix) < shape.wanted ==> mix == room)
    ensures mix[i] > 0 ==> mix[i] * shape.perWorker <= left
    ensures GoesPast(shape, mix, i) ==> (mix[i] + 1) * shape.perWorker > left
  {
    WholeWorkers(left, shape.perWorker, mix[i]);
  }

  lemma {:induction false} NoneIsNothing(x: Facts, shape: Shape, mix: seq<nat>)
    requires Known(x, shape.flavors) && shape.perWorker == 1 && shape.wanted > 0
    requires |mix| == |shape.flavors| && TakesWhatIsLeft(x, shape, mix) && Sum(mix) == 0
    ensures NothingLeft(x, shape)
  {
    forall i, left | 0 <= i < |shape.flavors| && IsLeft(x, shape.flavors[i], left) ensures left <= 0 {
      SumZero(mix, i);
      assert GoesPast(shape, mix, i);
    }
  }

  lemma {:induction false} SumZero(s: seq<nat>, i: nat)
    requires Sum(s) == 0 && i < |s|
    ensures s[i] == 0
    decreases |s|
  {
    if i == |s| - 1 {
    } else {
      SumZero(s[..|s| - 1], i);
    }
  }

  ghost predicate Offers(x: Facts, shape: Shape, mix: seq<nat>)
    requires Known(x, shape.flavors)
  {
    && |mix| == |shape.flavors|
    && if shape.perWorker == 1 && (shape.wanted > 0 ==> NothingLeft(x, shape)) && SomethingToEvict(x, shape)
       then EvictsOne(x, shape, mix) else TakesWhatIsLeft(x, shape, mix)
  }

  /**
   * What a cluster is offered, with the GPUs that others have and were granted: of each
   * flavor no more than is left of it, and as many workers as fit, up to those wanted; or
   * one worker that evicts, and that exactly when workers are of one GPU, none is left of
   * any flavor, and there is one to take.
   */
  lemma {:induction false} OfferedExactly(x: Facts, shape: Shape, mix: seq<nat>)
    requires Known(x, shape.flavors) && shape.perWorker > 0 && IsOffer(x, shape, mix)
    ensures Offers(x, shape, mix)
  {
    var greedy := Greedy(Fitting(x, shape.flavors, shape.perWorker), shape.wanted);
    GreedyTakes(x, shape, greedy);
    forall i | 0 <= i < |shape.flavors| ensures CanEvict(x, shape.flavors[i]) <==> Evictable(x, shape.flavors[i]) {
      CanEvictIsEvictable(x, shape.flavors[i]);
    }
    if shape.perWorker == 1 && Sum(greedy) == 0 {
      if shape.wanted > 0 {
        NoneIsNothing(x, shape, greedy);
      }
      var e: Option<nat> :|
        FirstEvictable(x, shape.flavors, e) && mix == if e.Some? then greedy[e.value := 1] else greedy;
      if e.Some? {
        OneEvicted(x, shape, greedy, e.value);
      }
    } else if shape.perWorker == 1 {
      SomeIsLeft(x, shape, greedy);
    }
  }

  lemma {:induction false} OneEvicted(x: Facts, shape: Shape, greedy: seq<nat>, e: nat)
    requires Known(x, shape.flavors) && |greedy| == |shape.flavors| && Sum(greedy) == 0
    requires shape.perWorker == 1 && (shape.wanted > 0 ==> NothingLeft(x, shape))
    requires e < |greedy| && CanEvict(x, shape.flavors[e]) && forall i :: 0 <= i < e ==> !CanEvict(x, shape.flavors[i])
    ensures EvictsOne(x, shape, greedy[e := 1])
  {
    forall i | 0 <= i < |greedy| ensures greedy[i] == 0 {
      SumZero(greedy, i);
    }
  }

  lemma {:induction false} SomeIsLeft(x: Facts, shape: Shape, mix: seq<nat>)
    requires Known(x, shape.flavors) && shape.perWorker == 1 && Sum(mix) > 0
    requires |mix| == |shape.flavors| && TakesWhatIsLeft(x, shape, mix)
    ensures !NothingLeft(x, shape) && shape.wanted > 0
  {
    var i := SomeTaken(mix);
    LeftIsAvailable(x, shape.flavors[i], Available(x, shape.flavors[i]));
    assert IsLeft(x, shape.flavors[i], Available(x, shape.flavors[i]));
  }

  lemma {:induction false} SomeTaken(s: seq<nat>) returns (i: nat)
    requires Sum(s) > 0
    ensures i < |s| && s[i] > 0
    decreases |s|
  {
    if s[|s| - 1] > 0 {
      i := |s| - 1;
    } else {
      i := SomeTaken(s[..|s| - 1]);
    }
  }
}
