/** Admissions under one name that overbook a budget. */
module AdmissionFailures {
  import opened Admission
  import opened AdmissionRuns
  import opened Collections
  import opened Optional

  const BUDGETS: Budgets := map["gpu" := 4]

  /** A name is admitted with `n` workers of one GPU, of those it wants. */
  function Admits(name: string, wanted: nat, n: nat): Event {
    Admit(name, Singles("gpu", 4, wanted), [n], 0.0)
  }

  function Gpu(n: nat): Gpus {
    map["gpu" := n]
  }

  lemma {:induction false} SumOne(k: string, g: Gpus, r: string)
    ensures SumOf(map[k := g], r) == Get(g, r)
  {
    var m := map[k := g];
    SumWithout(m, k, r);
    assert m - {k} == map[];
    SumOfNone(r);
  }

  /** A name gets what it wants, or all that is left of what others are counted with. */
  lemma {:induction false} AdmitsEnabled(l: Ledger, name: string, wanted: nat, n: nat)
    requires l.clock == 0.0 && CallsInTime(l, 0.0)
    requires n == Min(wanted, 4 - SumOf(Held(FactsOf(l, name, 0.0)), "gpu"))
    ensures Enabled(BUDGETS, l, Admits(name, wanted, n)) && WellFormed(l, Admits(name, wanted, n))
    ensures Next(l, Admits(name, wanted, n)) == Admitted(l, name, Gpu(n), 0.0)
  {
    SinglesOffered(BUDGETS, l, name, "gpu", wanted, n);
  }

  /** Of two names, what both are committed to. */
  lemma {:induction false} CommittedByTwo(l: Ledger)
    requires Names(l) == {"a", "b"}
    ensures SumOf(CommittedAll(l, "gpu"), "gpu") == Committed(l, "a", "gpu") + Committed(l, "b", "gpu")
  {
    var all := CommittedAll(l, "gpu");
    AtAll(l, "a", "gpu");
    AtAll(l, "b", "gpu");
    SumWithout(all, "a", "gpu");
    SumWithout(all - {"a"}, "b", "gpu");
    assert all - {"a"} - {"b"} == map[];
    SumOfNone("gpu");
  }

  /** A name that was admitted with `n`, and nothing else. */
  function OneAdmitted(n: nat): Ledger {
    Ledger(map["a" := Grant(Gpu(n), GRANT_S)], map[], [Call("a", Gpu(n))], 0.0)
  }

  /** And then listed. */
  function OneListed(n: nat): Ledger {
    Ledger(map["a" := Grant(Gpu(n), GRANT_S)], map["a" := Gpu(n)], [], 0.0)
  }

  lemma {:induction false} FirstIsAdmitted(n: nat)
    requires n <= 4
    ensures var e := Admits("a", n, n);
            && WellFormed(START, e) && Enabled(BUDGETS, START, e) && Guard(BUDGETS, START, e)
            && Next(START, e) == OneAdmitted(n)
  {
    assert Held(FactsOf(START, "a", 0.0)) == map[];
    SumOfNone("gpu");
    AdmitsEnabled(START, "a", n, n);
    assert Live(START.grants, 0.0) == map[];
    assert START.calls + [Call("a", Gpu(n))] == [Call("a", Gpu(n))];
  }

  lemma {:induction false} FirstIsListed(n: nat)
    ensures var l, e := OneAdmitted(n), Appear(0, Gpu(n));
            Enabled(BUDGETS, l, e) && Guard(BUDGETS, l, e) && Next(l, e) == OneListed(n)
  {
    assert Without([Call("a", Gpu(n))], 0) == [];
  }

  /** A guarded step, and what it leads to. */
  ghost predicate Leads(l: Ledger, e: Event, t: Ledger) {
    WellFormed(l, e) && Enabled(BUDGETS, l, e) && Next(l, e) == t
  }

  lemma {:induction false} RunOfTwo(a: Ledger, b: Ledger, c: Ledger, e: Event, f: Event)
    requires a == START && Leads(a, e, b) && Leads(b, f, c) && Guard(BUDGETS, a, e) && Guard(BUDGETS, b, f)
    ensures IsRun(BUDGETS, [a, b, c], [e, f])
  {
  }

  lemma {:induction false} RunOfOne(a: Ledger, b: Ledger, e: Event)
    requires a == START && Leads(a, e, b) && Guard(BUDGETS, a, e)
    ensures IsRun(BUDGETS, [a, b], [e])
  {
  }

  /** One name's call may create four, and another's three. */
  lemma {:induction false} SevenInAll(l: Ledger, first: seq<Call>)
    requires Names(l) == {"a", "b"} && l.calls == first + [Call("b", Gpu(3))]
    requires Due(first, "a", "gpu") == 4 && Due(first, "b", "gpu") == 0
    requires ListedOf(l, "a", "gpu") <= 4 && GrantOf(l, "a", "gpu") <= 4
    requires ListedOf(l, "b", "gpu") == 0 && GrantOf(l, "b", "gpu") == 3
    ensures SumOf(CommittedAll(l, "gpu"), "gpu") == 7
  {
    DueMore(first, Call("b", Gpu(3)), "a", "gpu");
    DueMore(first, Call("b", Gpu(3)), "b", "gpu");
    CommittedByTwo(l);
  }

  /** A name that is alone gets what it wants of the budget. */
  lemma {:induction false} AloneIsAdmitted(l: Ledger, n: nat)
    requires l == OneListed(1) || l == OneAdmitted(4)
    requires n <= 4
    ensures Leads(l, Admits("a", n, n), Admitted(l, "a", Gpu(n), 0.0))
  {
    assert Held(FactsOf(l, "a", 0.0)) == map[];
    SumOfNone("gpu");
    AdmitsEnabled(l, "a", n, n);
  }

  /** Another name gets three where the first is counted with one. */
  lemma {:induction false} OtherIsAdmitted(m: Ledger)
    requires m.clock == 0.0 && CallsInTime(m, 0.0) && Held(FactsOf(m, "b", 0.0)) == map["a" := Gpu(1)]
    ensures Leads(m, Admits("b", 4, 3), Admitted(m, "b", Gpu(3), 0.0))
  {
    SumOne("a", Gpu(1), "gpu");
    AdmitsEnabled(m, "b", 4, 3);
  }

  /** What is left after a listed cluster of one was replaced by one of four. */
  function Grown(): Ledger {
    Admitted(OneListed(1), "a", Gpu(4), 0.0)
  }

  lemma {:induction false} GrownIsCountedWithOne()
    ensures CallsInTime(Grown(), 0.0) && Held(FactsOf(Grown(), "b", 0.0)) == map["a" := Gpu(1)]
  {
    assert Grown().calls == [Call("a", Gpu(4))];
  }

  lemma {:induction false} GrownCommitsSeven()
    ensures SumOf(CommittedAll(Admitted(Grown(), "b", Gpu(3), 0.0), "gpu"), "gpu") == 7
  {
    var l := Admitted(Grown(), "b", Gpu(3), 0.0);
    assert Grown().calls == [Call("a", Gpu(4))];
    assert Names(l) == {"a", "b"} by { assert l.calls == [Call("a", Gpu(4)), Call("b", Gpu(3))]; }
    SevenInAll(l, [Call("a", Gpu(4))]);
  }

  /**
   * On a budget of four, a cluster of one GPU is listed and then replaced in place by
   * one of four; the one still listed stands for the grant, and another cluster gets
   * three more.
   */
  lemma {:induction false} ReplacementOverbooks() returns (states: seq<Ledger>, events: seq<Event>, l: Ledger)
    ensures IsRun(BUDGETS, states, events) && |events| == 2 && states[2] == OneListed(1)
    ensures Leads(states[2], Admits("a", 4, 4), Grown()) && Leads(Grown(), Admits("b", 4, 3), l)
    ensures SumOf(CommittedAll(l, "gpu"), "gpu") == 7 > BUDGETS["gpu"]
  {
    l := Admitted(Grown(), "b", Gpu(3), 0.0);
    FirstIsAdmitted(1);
    FirstIsListed(1);
    RunOfTwo(START, OneAdmitted(1), OneListed(1), Admits("a", 1, 1), Appear(0, Gpu(1)));
    states, events := [START, OneAdmitted(1), OneListed(1)], [Admits("a", 1, 1), Appear(0, Gpu(1))];
    AloneIsAdmitted(OneListed(1), 4);
    GrownIsCountedWithOne();
    OtherIsAdmitted(Grown());
    GrownCommitsSeven();
  }

  /** What is left after a name was admitted with four and again with one. */
  function Shrunk(): Ledger {
    Admitted(OneAdmitted(4), "a", Gpu(1), 0.0)
  }

  lemma {:induction false} ShrunkIsCountedWithOne()
    ensures CallsInTime(Shrunk(), 0.0) && Held(FactsOf(Shrunk(), "b", 0.0)) == map["a" := Gpu(1)]
  {
    assert Shrunk().calls == [Call("a", Gpu(4)), Call("a", Gpu(1))];
  }

  lemma {:induction false} ShrunkCommitsSeven()
    ensures var l := Admitted(Shrunk(), "b", Gpu(3), 0.0);
            Enabled(BUDGETS, l, Appear(0, Gpu(4))) && SumOf(CommittedAll(l, "gpu"), "gpu") == 7
  {
    var l := Admitted(Shrunk(), "b", Gpu(3), 0.0);
    assert Shrunk().calls == [Call("a", Gpu(4))] + [Call("a", Gpu(1))];
    assert Names(l) == {"a", "b"} by {
      assert l.calls == [Call("a", Gpu(4)), Call("a", Gpu(1)), Call("b", Gpu(3))];
    }
    DueMore([Call("a", Gpu(4))], Call("a", Gpu(1)), "a", "gpu");
    SevenInAll(l, Shrunk().calls);
  }

  /**
   * On a budget of four, two calls under one name are admitted with four and then with
   * one, before either creates its cluster; another name gets three, and then the first
   * call may create its four.
   */
  lemma {:induction false} ReadmissionOverbooks() returns (states: seq<Ledger>, events: seq<Event>, l: Ledger)
    ensures IsRun(BUDGETS, states, events) && |events| == 1 && states[1] == OneAdmitted(4)
    ensures Leads(states[1], Admits("a", 1, 1), Shrunk()) && Leads(Shrunk(), Admits("b", 4, 3), l)
    ensures Enabled(BUDGETS, l, Appear(0, Gpu(4))) && SumOf(CommittedAll(l, "gpu"), "gpu") == 7 > BUDGETS["gpu"]
  {
    l := Admitted(Shrunk(), "b", Gpu(3), 0.0);
    FirstIsAdmitted(4);
    RunOfOne(START, OneAdmitted(4), Admits("a", 4, 4));
    states, events := [START, OneAdmitted(4)], [Admits("a", 4, 4)];
    AloneIsAdmitted(OneAdmitted(4), 1);
    ShrunkIsCountedWithOne();
    OtherIsAdmitted(Shrunk());
    ShrunkCommitsSeven();
  }
}
