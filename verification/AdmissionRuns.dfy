/** The ledger of grants over every run of admissions, creations and listings with Prometheus silent. */
module AdmissionRuns {
  import opened Admission
  import opened Collections
  import opened Optional
  import Cluster

  /** A call that was admitted, and may still create a cluster with these GPUs. */
  datatype Call = Call(name: string, gpus: Gpus)

  datatype Ledger = Ledger(grants: map<string, Grant>, listed: map<string, Gpus>, calls: seq<Call>, clock: real)

  datatype Event =
    | Admit(name: string, shape: Shape, mix: seq<nat>, now: real)
    | Refuse(now: real)
    | Appear(k: nat, gpus: Gpus)
    | Fail(k: nat)
    | End(k: nat)
    | Vanish(name: string)

  type Budgets = map<string, nat>

  const START := Ledger(map[], map[], [], 0.0)

  /** A shape's flavors are of different resources, each with the budget configured for it. */
  predicate Allowed(budgets: Budgets, flavors: seq<Flavor>) {
    && (forall i :: 0 <= i < |flavors| ==>
          flavors[i].resource in budgets && flavors[i].budget == budgets[flavors[i].resource])
    && (forall i, j :: 0 <= i < j < |flavors| ==> flavors[i].resource != flavors[j].resource)
  }

  function FactsOf(l: Ledger, name: string, now: real): Facts {
    Facts(l.grants, l.listed, map[], None, name, now)
  }

  /** No call outlives the grant of its name. */
  ghost predicate CallsInTime(l: Ledger, now: real) {
    forall k :: 0 <= k < |l.calls| && l.calls[k].name in l.grants ==> l.grants[l.calls[k].name].expires > now
  }

  /** What an admission may offer a name with Prometheus silent. */
  ghost predicate Offered(budgets: Budgets, l: Ledger, name: string, shape: Shape, mix: seq<nat>, now: real) {
    && now >= l.clock && CallsInTime(l, now)
    && shape.perWorker > 0 && Allowed(budgets, shape.flavors) && |mix| == |shape.flavors|
    && IsOffer(FactsOf(l, name, now), shape, mix)
  }

  /** The same GPUs of every budgeted resource. */
  ghost predicate SameGpus(budgets: Budgets, a: Gpus, b: Gpus) {
    forall r :: r in budgets ==> Get(a, r) == Get(b, r)
  }

  /**
   * Names are admitted whether they are listed or not, and any number of times before
   * they are. A call creates its cluster while none is listed under its name; or Kubernetes
   * refuses it, and the grant of the name goes; or it ends otherwise.
   */
  ghost predicate Enabled(budgets: Budgets, l: Ledger, e: Event) {
    match e
    case Admit(name, shape, mix, now) => Offered(budgets, l, name, shape, mix, now)
    case Refuse(now) => now >= l.clock && CallsInTime(l, now)
    case Appear(k, gpus) =>
      k < |l.calls| && l.calls[k].name !in l.listed && SameGpus(budgets, gpus, l.calls[k].gpus)
    case Fail(k) => k < |l.calls|
    case End(k) => k < |l.calls|
    case Vanish(_) => true
  }

  /** The ledger once `name` is admitted with `g`. */
  function Admitted(l: Ledger, name: string, g: Gpus, now: real): Ledger {
    Ledger(Live(l.grants, now)[name := Grant(g, now + GRANT_S)], l.listed, l.calls + [Call(name, g)], now)
  }

  /** An event that names a call names one under way, and a mix has a number for each flavor. */
  predicate WellFormed(l: Ledger, e: Event) {
    match e
    case Admit(_, shape, mix, _) => |mix| == |shape.flavors|
    case Appear(k, _) => k < |l.calls|
    case Fail(k) => k < |l.calls|
    case End(k) => k < |l.calls|
    case _ => true
  }

  function Next(l: Ledger, e: Event): Ledger
    requires WellFormed(l, e)
  {
    match e
    case Admit(name, shape, mix, now) => Admitted(l, name, GpusOf(shape.flavors, mix, shape.perWorker), now)
    case Refuse(now) => l.(grants := Live(l.grants, now), clock := now)
    case Appear(k, gpus) => l.(listed := l.listed[l.calls[k].name := gpus], calls := Without(l.calls, k))
    case Fail(k) => l.(grants := l.grants - {l.calls[k].name}, calls := Without(l.calls, k))
    case End(k) => l.(calls := Without(l.calls, k))
    case Vanish(name) => l.(listed := l.listed - {name})
  }

  // ----- what a name is counted with, and what it may come to hold -----

  function GrantOf(l: Ledger, c: string, r: string): nat {
    if c in l.grants then Get(l.grants[c].gpus, r) else 0
  }

  function ListedOf(l: Ledger, c: string, r: string): nat {
    if c in l.listed then Get(l.listed[c], r) else 0
  }

  /** The most that a call under way may still create under a name. */
  function Due(calls: seq<Call>, c: string, r: string): nat
    decreases |calls|
  {
    if calls == [] then 0
    else
      var before, last := Due(calls[..|calls| - 1], c, r), calls[|calls| - 1];
      if last.name == c then Max(before, Get(last.gpus, r)) else before
  }

  /** What an admission counts a name with: as it is listed, or else as it was granted. */
  function Counted(l: Ledger, c: string, r: string): nat {
    if c in l.listed then ListedOf(l, c, r) else GrantOf(l, c, r)
  }

  /** The most of what a name is listed with, granted, and may still create. */
  function Committed(l: Ledger, c: string, r: string): nat {
    Max(ListedOf(l, c, r), Max(GrantOf(l, c, r), Due(l.calls, c, r)))
  }

  function Names(l: Ledger): set<string> {
    l.grants.Keys + l.listed.Keys + set k | 0 <= k < |l.calls| :: l.calls[k].name
  }

  /** One resource of all names, as it is counted. */
  function CountedAll(l: Ledger, r: string): map<string, Gpus> {
    map c | c in Names(l) :: map[r := Counted(l, c, r)]
  }

  function CommittedAll(l: Ledger, r: string): map<string, Gpus> {
    map c | c in Names(l) :: map[r := Committed(l, c, r)]
  }

  /** What is held, granted or under way is within every budget. */
  ghost predicate InBudget(budgets: Budgets, l: Ledger) {
    forall r :: r in budgets ==> SumOf(CommittedAll(l, r), r) <= budgets[r]
  }

  /** Each name is counted with all it may come to hold. */
  ghost predicate CountedInFull(budgets: Budgets, l: Ledger) {
    forall c, r :: r in budgets ==> Counted(l, c, r) >= Committed(l, c, r)
  }

  ghost predicate Inv(budgets: Budgets, l: Ledger) {
    CountedInFull(budgets, l) && InBudget(budgets, l) && forall c :: c in l.grants ==> l.grants[c].expires > l.clock
  }

  /** When a step leaves each name counted in full, by what could be looked up before it. */
  predicate GuardOf(l: Ledger, e: Event, r: string)
    requires WellFormed(l, e)
  {
    match e
    // A cluster that is listed is replaced by one that gets no more; one that is not, by one
    // that gets no less than what may still be created under its name.
    case Admit(name, shape, mix, _) =>
      var g := Get(GpusOf(shape.flavors, mix, shape.perWorker), r);
      if name in l.listed then ListedOf(l, name, r) >= g else g >= Due(l.calls, name, r)
    // A cluster appears with no less than what its name was last granted.
    case Appear(k, gpus) => Get(gpus, r) >= GrantOf(l, l.calls[k].name, r)
    // No other call of the name is under way, unless its cluster is listed.
    case Fail(k) => l.calls[k].name in l.listed || Due(Without(l.calls, k), l.calls[k].name, r) == 0
    // A cluster goes whose name was granted all that is under way.
    case Vanish(name) => GrantOf(l, name, r) >= Due(l.calls, name, r)
    case _ => true
  }

  ghost predicate Guard(budgets: Budgets, l: Ledger, e: Event)
    requires WellFormed(l, e)
  {
    forall r :: r in budgets ==> GuardOf(l, e, r)
  }

  ghost predicate IsRun(budgets: Budgets, states: seq<Ledger>, events: seq<Event>) {
    && |states| == |events| + 1 && states[0] == START
    && forall k {:trigger events[k]} :: 0 <= k < |events| ==>
         && Enabled(budgets, states[k], events[k]) && Guard(budgets, states[k], events[k])
         && states[k + 1] == Next(states[k], events[k])
  }

  // ----- sums, name by name -----

  lemma {:induction false} SumSame(a: map<string, Gpus>, b: map<string, Gpus>, r: string)
    requires forall c :: At(a, c, r) == At(b, c, r)
    ensures SumOf(a, r) == SumOf(b, r)
  {
    SumLess(a, b, r);
    SumLess(b, a, r);
  }

  /** A name's own part, and what all others have. */
  lemma {:induction false} SumSplit(all: map<string, Gpus>, others: map<string, Gpus>, name: string, r: string)
    requires At(others, name, r) == 0 && forall c :: c != name ==> At(all, c, r) == At(others, c, r)
    ensures SumOf(all, r) == SumOf(others, r) + At(all, name, r)
  {
    if name in all {
      SumWithout(all, name, r);
      forall c ensures At(all - {name}, c, r) == At(others, c, r) {
      }
      SumSame(all - {name}, others, r);
    } else {
      forall c ensures At(all, c, r) == At(others, c, r) {
      }
      SumSame(all, others, r);
    }
  }

  lemma {:induction false} SumStrict(a: map<string, Gpus>, b: map<string, Gpus>, name: string, r: string)
    requires At(a, name, r) < At(b, name, r) && forall c :: At(a, c, r) <= At(b, c, r)
    ensures SumOf(a, r) < SumOf(b, r)
  {
    var rest := a - {name};
    SumSplit(a, rest, name, r);
    SumSplit(b, b - {name}, name, r);
    forall c | c in rest ensures At(rest, c, r) <= At(b - {name}, c, r) {
      assert At(a, c, r) <= At(b, c, r);
    }
    SumLess(rest, b - {name}, r);
  }

  lemma {:induction false} NoCallNoDue(calls: seq<Call>, c: string, r: string)
    requires forall k :: 0 <= k < |calls| ==> calls[k].name != c
    ensures Due(calls, c, r) == 0
    decreases |calls|
  {
    if calls == [] {
    } else {
      NoCallNoDue(calls[..|calls| - 1], c, r);
    }
  }

  lemma {:induction false} DueMore(calls: seq<Call>, x: Call, c: string, r: string)
    ensures Due(calls + [x], c, r) == if x.name == c then Max(Due(calls, c, r), Get(x.gpus, r)) else Due(calls, c, r)
  {
    assert (calls + [x])[..|calls|] == calls;
  }

  /** A call that ends takes its part, and no other's. */
  lemma {:induction false} DueWithout(calls: seq<Call>, k: nat, c: string, r: string)
    requires k < |calls|
    ensures Due(Without(calls, k), c, r) <= Due(calls, c, r)
    ensures calls[k].name != c ==> Due(Without(calls, k), c, r) == Due(calls, c, r)
    ensures calls[k].name == c ==> Get(calls[k].gpus, r) <= Due(calls, c, r)
    decreases |calls|
  {
    var n := |calls| - 1;
    if k == n {
      assert Without(calls, k) == calls[..n];
    } else {
      DueWithout(calls[..n], k, c, r);
      assert Without(calls, k) == Without(calls[..n], k) + [calls[n]];
      DueMore(Without(calls[..n], k), calls[n], c, r);
    }
  }

  /** A name that is nowhere is counted with nothing, and comes to nothing. */
  lemma {:induction false} Nowhere(l: Ledger, c: string, r: string)
    requires c !in Names(l)
    ensures Counted(l, c, r) == 0 && Committed(l, c, r) == 0
  {
    NoCallNoDue(l.calls, c, r);
  }

  lemma {:induction false} AtAll(l: Ledger, c: string, r: string)
    ensures At(CountedAll(l, r), c, r) == Counted(l, c, r) && At(CommittedAll(l, r), c, r) == Committed(l, c, r)
  {
    if c !in Names(l) {
      Nowhere(l, c, r);
    }
  }

  // ----- what an admission sees and leaves -----

  lemma {:induction false} GpusAt(flavors: seq<Flavor>, mix: seq<nat>, perWorker: nat, i: nat)
    requires |mix| == |flavors| && i < |flavors|
    requires forall i, j :: 0 <= i < j < |flavors| ==> flavors[i].resource != flavors[j].resource
    ensures Get(GpusOf(flavors, mix, perWorker), flavors[i].resource) == mix[i] * perWorker
    decreases |flavors|
  {
    var n := |flavors| - 1;
    if i == n {
    } else {
      GpusAt(flavors[..n], mix[..n], perWorker, i);
    }
  }

  lemma {:induction false} GpusElsewhere(flavors: seq<Flavor>, mix: seq<nat>, perWorker: nat, r: string)
    requires |mix| == |flavors| && forall i :: 0 <= i < |flavors| ==> flavors[i].resource != r
    ensures Get(GpusOf(flavors, mix, perWorker), r) == 0
    decreases |flavors|
  {
    if flavors == [] {
    } else {
      GpusElsewhere(flavors[..|flavors| - 1], mix[..|mix| - 1], perWorker, r);
    }
  }

  lemma {:induction false} WholeWorkersFit(available: int, perWorker: nat, n: nat)
    requires perWorker > 0 && n <= Max0(available / perWorker)
    ensures n * perWorker <= Max0(available)
  {
    if available < 0 {
      assert available / perWorker < 0;
    } else {
      assert n * perWorker <= (available / perWorker) * perWorker <= available;
    }
  }

  /** With Prometheus silent no worker evicts, and a mix takes no more of a flavor than is left of its budget. */
  lemma {:induction false} OfferFits(x: Facts, shape: Shape, mix: seq<nat>, i: nat)
    requires x.free.None? && shape.perWorker > 0 && IsOffer(x, shape, mix) && |mix| == |shape.flavors| && i < |mix|
    ensures mix[i] * shape.perWorker <= Max0(Available(x, shape.flavors[i]))
  {
    var fit := Fitting(x, shape.flavors, shape.perWorker);
    GreedyWithin(fit, shape.wanted);
    assert mix == Greedy(fit, shape.wanted);
    WholeWorkersFit(Available(x, shape.flavors[i]), shape.perWorker, mix[i]);
  }

  /** What an admission counts of another name is what it is committed to, when names are counted in full. */
  lemma {:induction false} HeldInFull(budgets: Budgets, l: Ledger, name: string, now: real, c: string, r: string)
    requires CountedInFull(budgets, l) && CallsInTime(l, now) && r in budgets && c != name
    ensures At(Held(FactsOf(l, name, now)), c, r) == Committed(l.(grants := Live(l.grants, now)), c, r)
  {
    var t := l.(grants := Live(l.grants, now));
    assert Counted(l, c, r) >= Committed(l, c, r);
    if c !in t.grants && c in l.grants {
      NoCallNoDue(l.calls, c, r);
    }
  }

  /** What an admission counts of others, with what its own name is committed to, is part of what all are. */
  lemma {:induction false} HeldWithinCommitted(budgets: Budgets, l: Ledger, name: string, now: real, r: string)
    requires CountedInFull(budgets, l) && CallsInTime(l, now) && r in budgets
    ensures SumOf(Held(FactsOf(l, name, now)), r) + Committed(l, name, r) <= SumOf(CommittedAll(l, r), r)
  {
    var all, others := CommittedAll(l, r), Held(FactsOf(l, name, now));
    AtAll(l, name, r);
    SumSplit(all, all - {name}, name, r);
    forall c | c in others ensures At(others, c, r) <= At(all - {name}, c, r) {
      HeldAtMost(budgets, l, name, now, c, r);
    }
    SumLess(others, all - {name}, r);
  }

  lemma {:induction false} HeldAtMost(budgets: Budgets, l: Ledger, name: string, now: real, c: string, r: string)
    requires CountedInFull(budgets, l) && CallsInTime(l, now) && r in budgets
    ensures At(Held(FactsOf(l, name, now)), c, r) <= At(CommittedAll(l, r) - {name}, c, r)
  {
    if c != name {
      HeldInFull(budgets, l, name, now, c, r);
      AtAll(l, c, r);
      assert At(CommittedAll(l, r) - {name}, c, r) == At(CommittedAll(l, r), c, r);
    }
  }

  /** Of any resource an offer takes no more than what is left of its budget. */
  lemma {:induction false} OfferOf(
    budgets: Budgets, l: Ledger, name: string, shape: Shape, mix: seq<nat>, now: real, r: string)
    requires Offered(budgets, l, name, shape, mix, now) && r in budgets
    ensures Get(GpusOf(shape.flavors, mix, shape.perWorker), r)
         <= Max0(budgets[r] - SumOf(Held(FactsOf(l, name, now)), r))
  {
    if i :| 0 <= i < |shape.flavors| && shape.flavors[i].resource == r {
      GpusAt(shape.flavors, mix, shape.perWorker, i);
      OfferFits(FactsOf(l, name, now), shape, mix, i);
    } else {
      GpusElsewhere(shape.flavors, mix, shape.perWorker, r);
    }
  }

  /** An admission changes what its own name is committed to; for others, grants that ran out go. */
  lemma {:induction false} AdmittedCommits(l: Ledger, name: string, g: Gpus, now: real, c: string, r: string)
    ensures var t := Admitted(l, name, g, now);
            Committed(t, c, r) ==
              if c == name then Max(ListedOf(l, name, r), Max(Get(g, r), Due(l.calls, name, r)))
              else Committed(l.(grants := Live(l.grants, now)), c, r)
  {
    DueMore(l.calls, Call(name, g), c, r);
  }

  /** What all are committed to after an admission: what it counted of others, and its own name's. */
  lemma {:induction false} CommittedAfter(budgets: Budgets, l: Ledger, name: string, g: Gpus, now: real, r: string)
    requires CountedInFull(budgets, l) && CallsInTime(l, now) && r in budgets
    ensures SumOf(CommittedAll(Admitted(l, name, g, now), r), r)
         == SumOf(Held(FactsOf(l, name, now)), r) + Max(ListedOf(l, name, r), Max(Get(g, r), Due(l.calls, name, r)))
  {
    var t, others := Admitted(l, name, g, now), Held(FactsOf(l, name, now));
    forall c | c != name ensures At(CommittedAll(t, r), c, r) == At(others, c, r) {
      AtAll(t, c, r);
      AdmittedCommits(l, name, g, now, c, r);
      HeldInFull(budgets, l, name, now, c, r);
    }
    AtAll(t, name, r);
    AdmittedCommits(l, name, g, now, name, r);
    SumSplit(CommittedAll(t, r), others, name, r);
  }

  // ----- every step -----

  /** Right after what is left of a resource was offered, all is within its budget. */
  lemma {:induction false} AdmitInBudget(budgets: Budgets, l: Ledger, name: string, g: Gpus, now: real, r: string)
    requires CountedInFull(budgets, l) && CallsInTime(l, now) && r in budgets
    requires SumOf(CommittedAll(l, r), r) <= budgets[r]
    requires Get(g, r) <= Max0(budgets[r] - SumOf(Held(FactsOf(l, name, now)), r))
    ensures SumOf(CommittedAll(Admitted(l, name, g, now), r), r) <= budgets[r]
  {
    CommittedAfter(budgets, l, name, g, now, r);
    HeldWithinCommitted(budgets, l, name, now, r);
  }

  /** Any other step commits no name to more. */
  lemma {:induction false} NoMoreCommitted(budgets: Budgets, l: Ledger, e: Event, c: string, r: string)
    requires Enabled(budgets, l, e) && !e.Admit? && r in budgets
    ensures Committed(Next(l, e), c, r) <= Committed(l, c, r)
  {
    if e.Appear? || e.Fail? || e.End? {
      DueWithout(l.calls, e.k, c, r);
    }
  }

  lemma {:induction false} StepInBudget(budgets: Budgets, l: Ledger, e: Event)
    requires Inv(budgets, l) && Enabled(budgets, l, e)
    ensures InBudget(budgets, Next(l, e))
  {
    var t := Next(l, e);
    forall r | r in budgets ensures SumOf(CommittedAll(t, r), r) <= budgets[r] {
      assert SumOf(CommittedAll(l, r), r) <= budgets[r];
      if e.Admit? {
        OfferOf(budgets, l, e.name, e.shape, e.mix, e.now, r);
        AdmitInBudget(budgets, l, e.name, GpusOf(e.shape.flavors, e.mix, e.shape.perWorker), e.now, r);
      } else {
        LessCommitted(budgets, l, e, r);
      }
    }
  }

  lemma {:induction false} LessCommitted(budgets: Budgets, l: Ledger, e: Event, r: string)
    requires Enabled(budgets, l, e) && !e.Admit? && r in budgets
    ensures SumOf(CommittedAll(Next(l, e), r), r) <= SumOf(CommittedAll(l, r), r)
  {
    var t := Next(l, e);
    forall c | c in CommittedAll(t, r) ensures At(CommittedAll(t, r), c, r) <= At(CommittedAll(l, r), c, r) {
      AtAll(t, c, r);
      AtAll(l, c, r);
      NoMoreCommitted(budgets, l, e, c, r);
    }
    SumLess(CommittedAll(t, r), CommittedAll(l, r), r);
  }

  /** The name a step is about. */
  function About(l: Ledger, e: Event): Option<string>
    requires (e.Appear? || e.Fail? || e.End?) ==> e.k < |l.calls|
  {
    match e
    case Admit(name, _, _, _) => Some(name)
    case Refuse(_) => None
    case Appear(k, _) => Some(l.calls[k].name)
    case Fail(k) => Some(l.calls[k].name)
    case End(k) => Some(l.calls[k].name)
    case Vanish(name) => Some(name)
  }

  /** All other names are counted in full as before. */
  lemma {:induction false} OthersInFull(budgets: Budgets, l: Ledger, e: Event, c: string, r: string)
    requires CountedInFull(budgets, l) && Enabled(budgets, l, e) && r in budgets && About(l, e) != Some(c)
    ensures Counted(Next(l, e), c, r) >= Committed(Next(l, e), c, r)
  {
    assert Counted(l, c, r) >= Committed(l, c, r);
    match e
    case Admit(name, shape, mix, now) =>
      DueMore(l.calls, Call(name, GpusOf(shape.flavors, mix, shape.perWorker)), c, r);
      if c in l.grants && c !in Live(l.grants, now) {
        NoCallNoDue(l.calls, c, r);
      }
    case Refuse(now) =>
      if c in l.grants && c !in Live(l.grants, now) {
        NoCallNoDue(l.calls, c, r);
      }
    case Appear(k, _) => DueWithout(l.calls, k, c, r);
    case Fail(k) => DueWithout(l.calls, k, c, r);
    case End(k) => DueWithout(l.calls, k, c, r);
    case Vanish(_) =>
  }

  /** Of the steps about one call, or one cluster. */
  lemma {:induction false} OwnInFull(budgets: Budgets, l: Ledger, e: Event, c: string, r: string)
    requires CountedInFull(budgets, l) && Enabled(budgets, l, e) && r in budgets && About(l, e) == Some(c)
    ensures Counted(Next(l, e), c, r) >= Committed(Next(l, e), c, r) <==> GuardOf(l, e, r)
  {
    assert Counted(l, c, r) >= Committed(l, c, r);
    match e
    case Admit(_, shape, mix, now) => AdmitInFull(l, c, GpusOf(shape.flavors, mix, shape.perWorker), now, r);
    case Appear(k, gpus) => AppearInFull(l, e, c, r);
    case Fail(k) => DueWithout(l.calls, k, c, r);
    case End(k) => DueWithout(l.calls, k, c, r);
    case Vanish(_) =>
  }

  lemma {:induction false} AdmitInFull(l: Ledger, c: string, g: Gpus, now: real, r: string)
    requires Counted(l, c, r) >= Committed(l, c, r)
    ensures var t := Admitted(l, c, g, now);
            Counted(t, c, r) >= Committed(t, c, r) <==>
              if c in l.listed then ListedOf(l, c, r) >= Get(g, r) else Get(g, r) >= Due(l.calls, c, r)
  {
    AdmittedCommits(l, c, g, now, c, r);
  }

  lemma {:induction false} AppearInFull(l: Ledger, e: Event, c: string, r: string)
    requires e.Appear? && e.k < |l.calls| && l.calls[e.k].name == c && c !in l.listed
    requires Counted(l, c, r) >= Committed(l, c, r)
    ensures Counted(Next(l, e), c, r) >= Committed(Next(l, e), c, r) <==> Get(e.gpus, r) >= GrantOf(l, c, r)
  {
    DueWithout(l.calls, e.k, c, r);
  }

  /** Grants that are kept have not run out. */
  lemma {:induction false} GrantsLive(budgets: Budgets, l: Ledger, e: Event)
    requires Inv(budgets, l) && Enabled(budgets, l, e)
    ensures var t := Next(l, e);
            forall c :: c in t.grants ==> t.grants[c].expires > t.clock
  {
  }

  lemma {:induction false} EachInFull(budgets: Budgets, l: Ledger, e: Event, c: string, r: string)
    requires CountedInFull(budgets, l) && Enabled(budgets, l, e) && r in budgets
    ensures Counted(Next(l, e), c, r) >= Committed(Next(l, e), c, r) <==> About(l, e) != Some(c) || GuardOf(l, e, r)
  {
    if About(l, e) == Some(c) {
      OwnInFull(budgets, l, e, c, r);
    } else {
      OthersInFull(budgets, l, e, c, r);
    }
  }

  /** A step leaves every name counted in full exactly under its guard. */
  lemma {:induction false} InFullExactly(budgets: Budgets, l: Ledger, e: Event)
    requires CountedInFull(budgets, l) && Enabled(budgets, l, e)
    ensures CountedInFull(budgets, Next(l, e)) <==> Guard(budgets, l, e)
  {
    if Guard(budgets, l, e) {
      forall c, r | r in budgets ensures Counted(Next(l, e), c, r) >= Committed(Next(l, e), c, r) {
        EachInFull(budgets, l, e, c, r);
      }
    } else {
      var r :| r in budgets && !GuardOf(l, e, r);
      EachInFull(budgets, l, e, About(l, e).value, r);
    }
  }

  lemma {:induction false} StepKeeps(budgets: Budgets, l: Ledger, e: Event)
    requires Inv(budgets, l) && Enabled(budgets, l, e) && Guard(budgets, l, e)
    ensures Inv(budgets, Next(l, e))
  {
    StepInBudget(budgets, l, e);
    InFullExactly(budgets, l, e);
    GrantsLive(budgets, l, e);
  }

  lemma {:induction false} StartInBudget(budgets: Budgets)
    ensures Inv(budgets, START)
  {
    forall r | r in budgets ensures SumOf(CommittedAll(START, r), r) <= budgets[r] {
      assert CommittedAll(START, r) == map[];
      SumOfNone(r);
    }
  }

  lemma {:induction false} StepOf(budgets: Budgets, states: seq<Ledger>, events: seq<Event>, n: nat)
    requires IsRun(budgets, states, events) && n < |events|
    ensures WellFormed(states[n], events[n]) && Enabled(budgets, states[n], events[n])
    ensures Guard(budgets, states[n], events[n]) && states[n + 1] == Next(states[n], events[n])
  {
  }

  lemma {:induction false} NextKeeps(budgets: Budgets, states: seq<Ledger>, events: seq<Event>, n: nat)
    requires IsRun(budgets, states, events) && n < |events| && Inv(budgets, states[n])
    ensures Inv(budgets, states[n + 1])
  {
    StepOf(budgets, states, events, n);
    StepKeeps(budgets, states[n], events[n]);
  }

  lemma {:induction false} Invariant(budgets: Budgets, states: seq<Ledger>, events: seq<Event>, k: nat)
    requires IsRun(budgets, states, events) && k < |states|
    ensures Inv(budgets, states[k])
  {
    ghost var good := (l: Ledger) => Inv(budgets, l);
    StartInBudget(budgets);
    forall n: nat | n + 1 < |states| && good(states[n]) ensures good(states[n + 1]) {
      NextKeeps(budgets, states, events, n);
    }
    Inductive(states, good, k);
  }

  /**
   * On every run of guarded steps the GPUs held, granted and under way stay, together,
   * within every budget; those held and granted to names not listed among them.
   */
  lemma {:induction false} WithinBudget(
    budgets: Budgets, states: seq<Ledger>, events: seq<Event>, k: nat, r: string)
    requires IsRun(budgets, states, events) && k < |states| && r in budgets
    ensures SumOf(CommittedAll(states[k], r), r) <= budgets[r]
    ensures SumOf(CountedAll(states[k], r), r) <= budgets[r]
    ensures SumOf(states[k].listed, r) <= budgets[r]
  {
    var l := states[k];
    Invariant(budgets, states, events, k);
    CountedWithin(l, r);
    ListedWithin(l, r);
    assert SumOf(CommittedAll(l, r), r) <= budgets[r];
  }

  lemma {:induction false} CountedWithin(l: Ledger, r: string)
    ensures SumOf(CountedAll(l, r), r) <= SumOf(CommittedAll(l, r), r)
  {
    forall c | c in CountedAll(l, r) ensures At(CountedAll(l, r), c, r) <= At(CommittedAll(l, r), c, r) {
      AtAll(l, c, r);
    }
    SumLess(CountedAll(l, r), CommittedAll(l, r), r);
  }

  lemma {:induction false} ListedWithin(l: Ledger, r: string)
    ensures SumOf(l.listed, r) <= SumOf(CommittedAll(l, r), r)
  {
    forall c | c in l.listed ensures At(l.listed, c, r) <= At(CommittedAll(l, r), c, r) {
      AtAll(l, c, r);
    }
    SumLess(l.listed, CommittedAll(l, r), r);
  }

  // ----- the guards are exact -----

  /** Whatever `other` is admitted with next, every budget holds. */
  ghost predicate NextIsSafe(budgets: Budgets, l: Ledger, other: string) {
    forall shape, mix, now :: Offered(budgets, l, other, shape, mix, now) ==>
      InBudget(budgets, Admitted(l, other, GpusOf(shape.flavors, mix, shape.perWorker), now))
  }

  /** Workers of one GPU of one flavor. */
  function Singles(r: string, budget: nat, wanted: nat): (shape: Shape)
    ensures |shape.flavors| == 1 && shape.flavors[0] == Flavor(r, budget) && shape.perWorker == 1
  {
    Shape([Flavor(r, budget)], wanted, 1, 1)
  }

  /** Of one flavor, one GPU at a time, all that is wanted and left is offered. */
  lemma {:induction false} SinglesOffered(budgets: Budgets, l: Ledger, name: string, r: string, wanted: nat, n: nat)
    requires r in budgets && n == Min(wanted, budgets[r] - SumOf(Held(FactsOf(l, name, l.clock)), r))
    requires CallsInTime(l, l.clock)
    ensures Offered(budgets, l, name, Singles(r, budgets[r], wanted), [n], l.clock)
    ensures GpusOf(Singles(r, budgets[r], wanted).flavors, [n], 1) == map[r := n]
  {
    var shape := Singles(r, budgets[r], wanted);
    assert Allowed(budgets, shape.flavors);
    OneFlavorOffer(FactsOf(l, name, l.clock), shape, n);
    OneFlavorGpus(shape.flavors[0], n);
    assert shape.flavors == [shape.flavors[0]];
  }

  lemma {:induction false} OneFlavorOffer(x: Facts, shape: Shape, n: nat)
    requires x.free.None? && |shape.flavors| == 1 && shape.perWorker == 1
    requires n == Min(shape.wanted, shape.flavors[0].budget - SumOf(Held(x), shape.flavors[0].resource))
    ensures IsOffer(x, shape, [n])
  {
    var fit := Fitting(x, shape.flavors, 1);
    assert fit == [Available(x, shape.flavors[0])];
    GreedyOne(Available(x, shape.flavors[0]), shape.wanted);
    NoneEvictable(x, shape.flavors);
  }

  lemma {:induction false} GreedyOne(a: int, wanted: nat)
    ensures Greedy([a], wanted) == [Max0(Min(a, wanted))]
  {
    assert [a][..0] == [];
    assert Greedy([a][..0], wanted) == [] && Sum([]) == 0;
  }

  lemma {:induction false} NoneEvictable(x: Facts, flavors: seq<Flavor>)
    requires x.free.None?
    ensures FirstEvictable(x, flavors, None)
  {
  }

  lemma {:induction false} OneFlavorGpus(f: Flavor, n: nat)
    ensures GpusOf([f], [n], 1) == map[f.resource := n]
  {
    assert [f][..0] == [];
    assert [n][..0] == [];
    assert GpusOf([], [], 1) == map[];
  }

  /** What a new name's admission counts is what all names are counted with. */
  lemma {:induction false} HeldIsCounted(l: Ledger, other: string, r: string)
    requires other !in Names(l) && forall c :: c in l.grants ==> l.grants[c].expires > l.clock
    ensures SumOf(Held(FactsOf(l, other, l.clock)), r) == SumOf(CountedAll(l, r), r)
  {
    forall c ensures At(Held(FactsOf(l, other, l.clock)), c, r) == At(CountedAll(l, r), c, r) {
      AtAll(l, c, r);
      HeldAt(l, other, c, r);
    }
    SumSame(Held(FactsOf(l, other, l.clock)), CountedAll(l, r), r);
  }

  lemma {:induction false} HeldAt(l: Ledger, other: string, c: string, r: string)
    requires other !in Names(l) && forall c :: c in l.grants ==> l.grants[c].expires > l.clock
    ensures At(Held(FactsOf(l, other, l.clock)), c, r) == Counted(l, c, r)
  {
    if c == other {
      Nowhere(l, c, r);
    }
  }

  /** After a new name is admitted all are committed to what they were, and it to its grant. */
  lemma {:induction false} CommittedToNew(l: Ledger, other: string, g: Gpus, r: string)
    requires other !in Names(l) && forall c :: c in l.grants ==> l.grants[c].expires > l.clock
    ensures SumOf(CommittedAll(Admitted(l, other, g, l.clock), r), r) == SumOf(CommittedAll(l, r), r) + Get(g, r)
  {
    var t := Admitted(l, other, g, l.clock);
    assert Live(l.grants, l.clock) == l.grants;
    forall c | c != other ensures At(CommittedAll(t, r), c, r) == At(CommittedAll(l, r), c, r) {
      AtAll(t, c, r);
      AtAll(l, c, r);
      AdmittedCommits(l, other, g, l.clock, c, r);
    }
    AtAll(t, other, r);
    AtAll(l, other, r);
    Nowhere(l, other, r);
    NoCallNoDue(l.calls, other, r);
    AdmittedCommits(l, other, g, l.clock, other, r);
    SumSplit(CommittedAll(t, r), CommittedAll(l, r), other, r);
  }

  /** What a name is not counted with is what the next admission gives away beyond the budget. */
  lemma {:induction false} ShortCountOverbooks(budgets: Budgets, l: Ledger, other: string, c: string, r: string)
    requires r in budgets && Counted(l, c, r) < Committed(l, c, r) && SumOf(CommittedAll(l, r), r) <= budgets[r]
    requires other !in Names(l) && forall c :: c in l.grants ==> l.grants[c].expires > l.clock
    ensures !NextIsSafe(budgets, l, other)
  {
    var left := RestIsTooMuch(budgets[r], l, other, c, r);
    TakesTheRest(budgets, l, other, left, r);
  }

  lemma {:induction false} RestIsTooMuch(budget: nat, l: Ledger, other: string, c: string, r: string)
    returns (left: nat)
    requires Counted(l, c, r) < Committed(l, c, r) && SumOf(CommittedAll(l, r), r) <= budget
    requires other !in Names(l) && forall c :: c in l.grants ==> l.grants[c].expires > l.clock
    ensures left == budget - SumOf(Held(FactsOf(l, other, l.clock)), r)
    ensures SumOf(CommittedAll(Admitted(l, other, map[r := left], l.clock), r), r) > budget
  {
    ShortSum(l, c, r);
    HeldIsCounted(l, other, r);
    left := budget - SumOf(CountedAll(l, r), r);
    CommittedToNew(l, other, map[r := left], r);
  }

  lemma {:induction false} ShortSum(l: Ledger, c: string, r: string)
    requires Counted(l, c, r) < Committed(l, c, r)
    ensures SumOf(CountedAll(l, r), r) < SumOf(CommittedAll(l, r), r)
  {
    forall d ensures At(CountedAll(l, r), d, r) <= At(CommittedAll(l, r), d, r) {
      AtAll(l, d, r);
    }
    AtAll(l, c, r);
    SumStrict(CountedAll(l, r), CommittedAll(l, r), c, r);
  }

  lemma {:induction false} TakesTheRest(budgets: Budgets, l: Ledger, other: string, left: nat, r: string)
    requires r in budgets && left == budgets[r] - SumOf(Held(FactsOf(l, other, l.clock)), r) && CallsInTime(l, l.clock)
    requires SumOf(CommittedAll(Admitted(l, other, map[r := left], l.clock), r), r) > budgets[r]
    ensures !NextIsSafe(budgets, l, other)
  {
    var shape, mix := RestOffered(budgets, l, other, left, r);
    NotSafe(budgets, l, other, shape, mix, l.clock, r);
  }

  /** All that is left of a resource can be offered. */
  lemma {:induction false} RestOffered(budgets: Budgets, l: Ledger, other: string, left: nat, r: string)
    returns (shape: Shape, mix: seq<nat>)
    requires r in budgets && left == budgets[r] - SumOf(Held(FactsOf(l, other, l.clock)), r) && CallsInTime(l, l.clock)
    ensures Offered(budgets, l, other, shape, mix, l.clock)
    ensures GpusOf(shape.flavors, mix, shape.perWorker) == map[r := left]
  {
    shape, mix := Singles(r, budgets[r], left), [left];
    SinglesOffered(budgets, l, other, r, left, left);
  }

  /** One offer that is too much shows that the next admission is not safe. */
  lemma {:induction false} NotSafe(
    budgets: Budgets, l: Ledger, other: string, shape: Shape, mix: seq<nat>, now: real, r: string)
    requires Offered(budgets, l, other, shape, mix, now) && r in budgets
    requires var t := Admitted(l, other, GpusOf(shape.flavors, mix, shape.perWorker), now);
             SumOf(CommittedAll(t, r), r) > budgets[r]
    ensures !NextIsSafe(budgets, l, other)
  {
    assert !InBudget(budgets, Admitted(l, other, GpusOf(shape.flavors, mix, shape.perWorker), now));
  }

  lemma {:induction false} FullCountIsSafe(budgets: Budgets, l: Ledger, other: string)
    requires Inv(budgets, l)
    ensures NextIsSafe(budgets, l, other)
  {
    forall shape, mix, now | Offered(budgets, l, other, shape, mix, now)
      ensures InBudget(budgets, Admitted(l, other, GpusOf(shape.flavors, mix, shape.perWorker), now))
    {
      StepInBudget(budgets, l, Admit(other, shape, mix, now));
    }
  }

  /**
   * Every next admission stays within the budgets after a step exactly under its guard:
   * a listed name gets no more than it is listed with; one that is not listed no less
   * than calls under way may create; a cluster appears with no less than its grant; a
   * call's failure, or a cluster's end, leaves nothing under way that is not granted.
   */
  lemma {:induction false} StepIsSafeExactly(budgets: Budgets, l: Ledger, e: Event, other: string)
    requires Inv(budgets, l) && Enabled(budgets, l, e) && other !in Names(Next(l, e))
    ensures NextIsSafe(budgets, Next(l, e), other) <==> Guard(budgets, l, e)
  {
    var t := Next(l, e);
    StepInBudget(budgets, l, e);
    InFullExactly(budgets, l, e);
    GrantsLive(budgets, l, e);
    if Guard(budgets, l, e) {
      FullCountIsSafe(budgets, t, other);
    } else {
      var c, r :| r in budgets && Counted(t, c, r) < Committed(t, c, r);
      assert SumOf(CommittedAll(t, r), r) <= budgets[r];
      ShortCountOverbooks(budgets, t, other, c, r);
    }
  }

  // ----- a cluster is listed with its grant -----

  /** `mix.get(r, 0)` */
  function Workers(flavors: seq<Flavor>, mix: seq<nat>, r: string): nat
    requires |mix| == |flavors|
    decreases |flavors|
  {
    if flavors == [] then 0
    else if flavors[|flavors| - 1].resource == r then mix[|mix| - 1]
    else Workers(flavors[..|flavors| - 1], mix[..|mix| - 1], r)
  }

  lemma {:induction false} WorkersTimesGpus(flavors: seq<Flavor>, mix: seq<nat>, perWorker: nat, r: string)
    requires |mix| == |flavors|
    ensures Get(GpusOf(flavors, mix, perWorker), r) == Workers(flavors, mix, r) * perWorker
    decreases |flavors|
  {
    if flavors == [] {
    } else {
      WorkersTimesGpus(flavors[..|flavors| - 1], mix[..|mix| - 1], perWorker, r);
    }
  }

  /** The groups of the cluster built for a mix, over all flavors that there are. */
  function Built(template: seq<Cluster.Amounts>, all: seq<string>, shape: Shape, mix: seq<nat>): seq<Cluster.Group>
    requires |mix| == |shape.flavors|
  {
    var spread: seq<nat> := seq(|all|, i requires 0 <= i < |all| => Workers(shape.flavors, mix, all[i]));
    Cluster.Groups(template, all, spread, shape.perWorker, |all|)
  }

  /** What `held_gpus` reads of a cluster. */
  function Reading(groups: seq<Cluster.Group>, all: seq<string>): Gpus {
    map r | r in all :: Max0(Cluster.GroupsHold(groups, r))
  }

  /** The cluster built for an admitted mix is listed with exactly the GPUs it was granted. */
  lemma {:induction false} ListedAsGranted(
    template: seq<Cluster.Amounts>, all: seq<string>, shape: Shape, mix: seq<nat>, r: string)
    requires |mix| == |shape.flavors| && Distinct(all) && Cluster.Limited(template) == 1 && r in all
    ensures Get(Reading(Built(template, all, shape, mix), all), r)
            == Get(GpusOf(shape.flavors, mix, shape.perWorker), r)
  {
    var i :| 0 <= i < |all| && all[i] == r;
    var spread: seq<nat> := seq(|all|, i requires 0 <= i < |all| => Workers(shape.flavors, mix, all[i]));
    Cluster.ReaderUndoesBuilder(template, all, spread, shape.perWorker, i);
    WorkersTimesGpus(shape.flavors, mix, shape.perWorker, r);
  }

  /** So a cluster that was admitted can appear in the listing as what was built for it. */
  lemma {:induction false} BuiltCanAppear(
    budgets: Budgets, l: Ledger, k: nat, template: seq<Cluster.Amounts>, all: seq<string>, shape: Shape, mix: seq<nat>)
    requires |mix| == |shape.flavors| && Distinct(all) && Cluster.Limited(template) == 1
    requires forall r :: r in budgets ==> r in all
    requires k < |l.calls| && l.calls[k].name !in l.listed
    requires l.calls[k].gpus == GpusOf(shape.flavors, mix, shape.perWorker)
    ensures Enabled(budgets, l, Appear(k, Reading(Built(template, all, shape, mix), all)))
  {
    forall r | r in budgets
      ensures Get(Reading(Built(template, all, shape, mix), all), r) == Get(l.calls[k].gpus, r)
    {
      ListedAsGranted(template, all, shape, mix, r);
    }
  }
}
