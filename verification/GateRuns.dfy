/**
 * Every interleaving of requests at one gate: fair use, the output rate, bounded
 * overtaking and the absence of deadlock.
 */
module GateRuns {
  import opened Collections
  import opened Optional
  import opened GateSpec

  datatype Flight = Flight(id: int, tokens: int)

  /**
   * The gate among its requests. `asked` is the `tokens` argument of each waiting
   * request, in the queue's order; `inflight` the requests between their acquire
   * and their release; `released` every output sample there ever was.
   */
  datatype System = System(
    gate: State, asked: seq<int>, inflight: seq<Flight>, released: seq<Sample>, clock: real)

  datatype Event =
    | Arrive(tokens: int, rank: int, now: real)
    | Try(i: nat, now: real, cancelled: bool, deadline: real)
    | Finish(k: nat, completion: int, now: real)
    | Observe(enough: bool, slow: bool, now: real)
    | Failure(retryAfter: Option<real>, now: real)
    | Look(now: real)

  function Initial(l: Limits): System {
    System(Fresh(l), [], [], [], 0.0)
  }

  /** The clock is monotonic, a request holds what `Proxy.forward` lets it, and only what exists acts. */
  predicate Enabled(l: Limits, s: System, e: Event) {
    && e.now >= s.clock
    && match e
       case Arrive(tokens, _, _) => 0 <= tokens < Share(l.context)
       case Try(i, _, _, _) => i < |s.gate.waiting| && i < |s.asked|
       case Finish(k, completion, _) => k < |s.inflight| && completion >= 0
       case _ => true
  }

  function Next(l: Limits, s: System, e: Event): System
    requires Enabled(l, s, e)
  {
    var s := s.(clock := e.now);
    match e
    case Arrive(tokens, rank, now) =>
      s.(gate := Enter(s.gate, rank, now), asked := s.asked + [tokens])
    case Try(i, now, cancelled, deadline) =>
      AfterPass(s, i, Pass(l, s.gate, i, s.asked[i], now, cancelled, deadline))
    case Finish(k, completion, now) =>
      s.(gate := Release(s.gate, s.inflight[k].tokens, completion, now),
         inflight := Without(s.inflight, k),
         released := if completion != 0 then s.released + [Sample(now, completion)] else s.released)
    case Observe(enough, slow, now) => s.(gate := Adjust(l, s.gate, enough, slow, now))
    case Failure(retryAfter, now) => s.(gate := Fail(s.gate, retryAfter, now))
    case Look(now) => s.(gate := s.gate.(output := Recent(s.gate.output, now)))
  }

  function AfterPass(s: System, i: nat, pass: (State, Outcome)): System
    requires i < |s.gate.waiting| && i < |s.asked|
  {
    match pass.1
    case Waits => s.(gate := pass.0)
    case GaveUp => s.(gate := pass.0, asked := Without(s.asked, i))
    case Admitted =>
      s.(gate := pass.0, asked := Without(s.asked, i),
         inflight := s.inflight + [Flight(s.gate.waiting[i].id, s.asked[i])])
  }

  predicate Admits(l: Limits, s: System, e: Event)
    requires Enabled(l, s, e)
  {
    e.Try? && Pass(l, s.gate, e.i, s.asked[e.i], e.now, e.cancelled, e.deadline).1 == Admitted
  }

  /** A run of the gate: `states[k + 1]` follows `states[k]` by `events[k]`. */
  ghost predicate IsRun(l: Limits, states: seq<System>, events: seq<Event>) {
    && ValidLimits(l)
    && |states| == |events| + 1
    && forall k {:trigger events[k]} :: 0 <= k < |events| ==>
         Enabled(l, states[k], events[k]) && states[k + 1] == Next(l, states[k], events[k])
  }

  ghost predicate IsRunFromStart(l: Limits, states: seq<System>, events: seq<Event>) {
    IsRun(l, states, events) && states[0] == Initial(l)
  }

  // ----- the invariant -----

  function Held(flights: seq<Flight>): int
    decreases |flights|
  {
    if flights == [] then 0 else flights[0].tokens + Held(flights[1..])
  }

  predicate Counts(l: Limits, g: State, inflight: seq<Flight>) {
    && 1 <= g.slots <= l.slotsMax
    && g.busy == |inflight| <= l.slotsMax
    && g.held == Held(inflight)
    && (forall k :: 0 <= k < |inflight| ==> 0 <= inflight[k].tokens < Share(l.context))
    && (g.held <= l.budget || |inflight| <= 1)
  }

  /** Requests stand in the order of their arrival. */
  predicate InOrder(waiting: seq<Waiter>) {
    forall j, k :: 0 <= j < k < |waiting| ==> waiting[j].id < waiting[k].id && waiting[j].since <= waiting[k].since
  }

  predicate Queue(l: Limits, waiting: seq<Waiter>, asked: seq<int>, lastId: int, clock: real) {
    && |asked| == |waiting|
    && (forall k :: 0 <= k < |asked| ==> 0 <= asked[k] < Share(l.context))
    && (forall k :: 0 <= k < |waiting| ==> waiting[k].id <= lastId && waiting[k].since <= clock)
    && InOrder(waiting)
  }

  predicate Sorted(released: seq<Sample>) {
    forall j, k :: 0 <= j < k < |released| ==> released[j].at <= released[k].at
  }

  /** The deque is the end of the history, and what it dropped is out of the window for good. */
  predicate Window(output: seq<Sample>, released: seq<Sample>, clock: real) {
    && (forall k :: 0 <= k < |released| ==> released[k].at <= clock)
    && Sorted(released)
    && |output| <= |released|
    && output == released[|released| - |output|..]
    && (forall k :: 0 <= k < |released| - |output| ==> clock - released[k].at > OUTPUT_WINDOW)
  }

  predicate Inv(l: Limits, s: System) {
    && Counts(l, s.gate, s.inflight)
    && Queue(l, s.gate.waiting, s.asked, s.gate.lastId, s.clock)
    && Window(s.gate.output, s.released, s.clock)
  }

  lemma {:induction false} HeldAppend(a: seq<Flight>, f: Flight)
    ensures Held(a + [f]) == Held(a) + f.tokens
    decreases |a|
  {
    if a == [] {
    } else {
      assert (a + [f])[1..] == a[1..] + [f];
      HeldAppend(a[1..], f);
    }
  }

  lemma {:induction false} HeldWithout(a: seq<Flight>, k: nat)
    requires k < |a|
    ensures Held(Without(a, k)) == Held(a) - a[k].tokens
    decreases |a|
  {
    if k == 0 {
      assert Without(a, 0) == a[1..];
    } else {
      assert Without(a, k)[1..] == Without(a[1..], k - 1);
      HeldWithout(a[1..], k - 1);
    }
  }

  lemma {:induction false} RecentDropsOld(output: seq<Sample>, now: real, k: nat)
    requires k < |output| - |Recent(output, now)|
    ensures now - output[k].at > OUTPUT_WINDOW
    decreases |output|
  {
    if k == 0 {
    } else {
      RecentDropsOld(output[1..], now, k - 1);
    }
  }

  lemma {:induction false} WindowLater(output: seq<Sample>, released: seq<Sample>, clock: real, now: real)
    requires Window(output, released, clock) && now >= clock
    ensures Window(output, released, now)
  {
  }

  lemma {:induction false} WindowTrimmed(output: seq<Sample>, released: seq<Sample>, now: real)
    requires Window(output, released, now)
    ensures Window(Recent(output, now), released, now)
  {
    var r := Recent(output, now);
    var dropped := |released| - |output|;
    assert r == released[|released| - |r|..];
    forall k | 0 <= k < |released| - |r| ensures now - released[k].at > OUTPUT_WINDOW {
      if k >= dropped {
        RecentDropsOld(output, now, k - dropped);
        assert output[k - dropped] == released[k];
      }
    }
  }

  lemma {:induction false} WindowGrown(output: seq<Sample>, released: seq<Sample>, completion: int, now: real)
    requires Window(output, released, now)
    ensures Window(output + [Sample(now, completion)], released + [Sample(now, completion)], now)
  {
    var o, r := output + [Sample(now, completion)], released + [Sample(now, completion)];
    assert o == r[|r| - |o|..];
  }

  lemma {:induction false} CountsAdmitted(l: Limits, g: State, inflight: seq<Flight>, f: Flight)
    requires Counts(l, g, inflight) && 0 <= f.tokens < Share(l.context)
    requires g.busy < g.slots && (g.held + f.tokens <= l.budget || g.busy == 0)
    ensures Counts(l, g.(busy := g.busy + 1, held := g.held + f.tokens), inflight + [f])
  {
    HeldAppend(inflight, f);
  }

  lemma {:induction false} CountsReleased(l: Limits, g: State, inflight: seq<Flight>, k: nat)
    requires Counts(l, g, inflight) && k < |inflight|
    ensures Counts(l, g.(busy := g.busy - 1, held := g.held - inflight[k].tokens), Without(inflight, k))
  {
    HeldWithout(inflight, k);
  }

  lemma {:induction false} QueueEntered(
    l: Limits, waiting: seq<Waiter>, asked: seq<int>, lastId: int, now: real, rank: int, tokens: int)
    requires Queue(l, waiting, asked, lastId, now) && 0 <= tokens < Share(l.context)
    ensures Queue(l, waiting + [Waiter(lastId + 1, rank, now)], asked + [tokens], lastId + 1, now)
  {
  }

  lemma {:induction false} QueueLeft(l: Limits, waiting: seq<Waiter>, asked: seq<int>, lastId: int, now: real, i: nat)
    requires Queue(l, waiting, asked, lastId, now) && i < |waiting|
    ensures Queue(l, Without(waiting, i), Without(asked, i), lastId, now)
  {
  }

  /** What a pass leaves of each part of the gate. */
  lemma {:induction false} PassParts(
    l: Limits, g: State, i: nat, tokens: int, now: real, cancelled: bool, deadline: real, first: bool)
    requires i < |g.waiting|
    ensures var (h, outcome) := PassIf(l, g, i, tokens, now, cancelled, deadline, first);
            && h.slots == g.slots && h.lastId == g.lastId
            && (h.output == g.output || h.output == Recent(g.output, now))
            && h.waiting == (if outcome == Waits then g.waiting else Without(g.waiting, i))
            && (if outcome == Admitted
                then Fits(l, g, tokens, now) && h.busy == g.busy + 1 && h.held == g.held + tokens
                else h.busy == g.busy && h.held == g.held)
  {
  }

  lemma {:induction false} PassKeepsWindow(
    l: Limits, g: State, released: seq<Sample>, i: nat, tokens: int, now: real,
    cancelled: bool, deadline: real, first: bool)
    requires i < |g.waiting| && Window(g.output, released, now)
    ensures Window(PassIf(l, g, i, tokens, now, cancelled, deadline, first).0.output, released, now)
  {
    PassParts(l, g, i, tokens, now, cancelled, deadline, first);
    WindowTrimmed(g.output, released, now);
  }

  lemma {:induction false} PassKeepsQueue(l: Limits, s: System, i: nat, cancelled: bool, deadline: real, first: bool)
    requires Queue(l, s.gate.waiting, s.asked, s.gate.lastId, s.clock) && i < |s.gate.waiting|
    ensures var t := AfterPass(s, i, PassIf(l, s.gate, i, s.asked[i], s.clock, cancelled, deadline, first));
            Queue(l, t.gate.waiting, t.asked, t.gate.lastId, t.clock)
  {
    PassParts(l, s.gate, i, s.asked[i], s.clock, cancelled, deadline, first);
    QueueLeft(l, s.gate.waiting, s.asked, s.gate.lastId, s.clock, i);
  }

  lemma {:induction false} PassKeepsCounts(l: Limits, s: System, i: nat, cancelled: bool, deadline: real, first: bool)
    requires Counts(l, s.gate, s.inflight) && i < |s.gate.waiting| && i < |s.asked|
             && 0 <= s.asked[i] < Share(l.context)
    ensures var t := AfterPass(s, i, PassIf(l, s.gate, i, s.asked[i], s.clock, cancelled, deadline, first));
            Counts(l, t.gate, t.inflight)
  {
    PassParts(l, s.gate, i, s.asked[i], s.clock, cancelled, deadline, first);
    OutcomeKeepsCounts(l, s, i, PassIf(l, s.gate, i, s.asked[i], s.clock, cancelled, deadline, first));
  }

  lemma {:induction false} OutcomeKeepsCounts(l: Limits, s: System, i: nat, pass: (State, Outcome))
    requires Counts(l, s.gate, s.inflight) && i < |s.gate.waiting| && i < |s.asked|
    requires 0 <= s.asked[i] < Share(l.context) && pass.0.slots == s.gate.slots
    requires if pass.1 == Admitted
             then Fits(l, s.gate, s.asked[i], s.clock) && pass.0.busy == s.gate.busy + 1
                  && pass.0.held == s.gate.held + s.asked[i]
             else pass.0.busy == s.gate.busy && pass.0.held == s.gate.held
    ensures Counts(l, AfterPass(s, i, pass).gate, AfterPass(s, i, pass).inflight)
  {
    match pass.1
    case Waits => assert Counts(l, pass.0, s.inflight);
    case GaveUp => assert Counts(l, pass.0, s.inflight);
    case Admitted =>
      var f := Flight(s.gate.waiting[i].id, s.asked[i]);
      CountsAdmitted(l, s.gate, s.inflight, f);
      assert Counts(l, pass.0, s.inflight + [f]);
  }

  lemma {:induction false} PassKeepsInvariant(
    l: Limits, s: System, i: nat, cancelled: bool, deadline: real, first: bool)
    requires Inv(l, s) && i < |s.gate.waiting|
    ensures Inv(l, AfterPass(s, i, PassIf(l, s.gate, i, s.asked[i], s.clock, cancelled, deadline, first)))
  {
    PassKeepsWindow(l, s.gate, s.released, i, s.asked[i], s.clock, cancelled, deadline, first);
    PassKeepsQueue(l, s, i, cancelled, deadline, first);
    PassKeepsCounts(l, s, i, cancelled, deadline, first);
  }

  lemma {:induction false} FinishKeepsInvariant(l: Limits, s: System, e: Event)
    requires Inv(l, s) && Enabled(l, s, e) && e.Finish? && e.now == s.clock
    ensures Inv(l, Next(l, s, e))
  {
    CountsReleased(l, s.gate, s.inflight, e.k);
    WindowGrown(s.gate.output, s.released, e.completion, e.now);
  }

  lemma {:induction false} StepKeepsInvariant(l: Limits, s: System, e: Event)
    requires ValidLimits(l) && Inv(l, s) && Enabled(l, s, e)
    ensures Inv(l, Next(l, s, e))
  {
    var t := s.(clock := e.now);
    WindowLater(s.gate.output, s.released, s.clock, e.now);
    assert Inv(l, t);
    match e
    case Arrive(tokens, rank, now) =>
      QueueEntered(l, t.gate.waiting, t.asked, t.gate.lastId, now, rank, tokens);
    case Try(i, now, cancelled, deadline) =>
      PassKeepsInvariant(l, t, i, cancelled, deadline, IsFirst(t.gate.waiting, i, now));
    case Finish(_, _, _) =>
      FinishKeepsInvariant(l, t, e);
    case Observe(_, _, _) =>
    case Failure(_, _) =>
    case Look(now) =>
      WindowTrimmed(t.gate.output, t.released, now);
  }

  lemma {:induction false} Invariant(l: Limits, states: seq<System>, events: seq<Event>, k: nat)
    requires IsRunFromStart(l, states, events) && k < |states|
    ensures Inv(l, states[k])
    decreases k
  {
    if k == 0 {
    } else {
      Invariant(l, states, events, k - 1);
      StepKeepsInvariant(l, states[k - 1], events[k - 1]);
    }
  }

  // ----- fair use -----

  /**
   * On every run, `busy` and `held` are the number and tokens of the requests in
   * flight, these stay within the configured slots, and their tokens within the
   * budget unless one oversized request runs alone, within SHARE of the context.
   */
  lemma {:induction false} FairUse(l: Limits, states: seq<System>, events: seq<Event>, k: nat)
    requires IsRunFromStart(l, states, events) && k < |states|
    ensures states[k].gate.busy == |states[k].inflight| <= l.slotsMax
    ensures states[k].gate.held == Held(states[k].inflight)
    ensures states[k].gate.held <= l.budget || |states[k].inflight| <= 1
    ensures states[k].inflight == [] || states[k].gate.held <= Max(l.budget, 7 * l.context / 20 - 1)
  {
    Invariant(l, states, events, k);
  }

  // ----- output per minute -----

  /** The output of the last OUTPUT_WINDOW seconds, over the whole history. */
  function OutputSince(released: seq<Sample>, now: real): int
    decreases |released|
  {
    if released == [] then 0
    else (if now - released[0].at > OUTPUT_WINDOW then 0 else released[0].tokens) + OutputSince(released[1..], now)
  }

  lemma {:induction false} RecentIsWindow(output: seq<Sample>, now: real)
    requires Sorted(output)
    ensures SumSamples(Recent(output, now)) == OutputSince(output, now)
    decreases |output|
  {
    if output == [] {
    } else {
      if now - output[0].at > OUTPUT_WINDOW {
        RecentIsWindow(output[1..], now);
      } else {
        AllInWindow(output, now);
      }
    }
  }

  lemma {:induction false} AllInWindow(output: seq<Sample>, now: real)
    requires forall k :: 0 <= k < |output| ==> now - output[k].at <= OUTPUT_WINDOW
    ensures SumSamples(output) == OutputSince(output, now)
    decreases |output|
  {
    if output == [] {
    } else {
      AllInWindow(output[1..], now);
    }
  }

  lemma {:induction false} OldOutputIsNothing(released: seq<Sample>, n: nat, now: real)
    requires n <= |released|
    requires forall k :: 0 <= k < n ==> now - released[k].at > OUTPUT_WINDOW
    ensures OutputSince(released, now) == OutputSince(released[n..], now)
    decreases |released|
  {
    if n == 0 {
    } else {
      OldOutputIsNothing(released[1..], n - 1, now);
      assert released[1..][n - 1..] == released[n..];
    }
  }

  /** What `_out` sums is the history's last minute. */
  lemma {:induction false} OutIsOutputSince(output: seq<Sample>, released: seq<Sample>, clock: real, now: real)
    requires Window(output, released, clock) && now >= clock
    ensures SumSamples(Recent(output, now)) == OutputSince(released, now)
  {
    var n := |released| - |output|;
    var rest := released[n..];
    assert output == rest;
    EndIsSorted(released, n);
    RecentIsWindow(rest, now);
    AllOlder(released, n, clock, now);
    OldOutputIsNothing(released, n, now);
  }

  lemma {:induction false} AllOlder(released: seq<Sample>, n: nat, clock: real, now: real)
    requires n <= |released| && now >= clock
    requires forall k :: 0 <= k < n ==> clock - released[k].at > OUTPUT_WINDOW
    ensures forall k :: 0 <= k < n ==> now - released[k].at > OUTPUT_WINDOW
  {
  }

  lemma {:induction false} EndIsSorted(released: seq<Sample>, n: nat)
    requires Sorted(released) && n <= |released|
    ensures Sorted(released[n..])
  {
    var output := released[n..];
    forall j, k | 0 <= j < k < |output| ensures output[j].at <= output[k].at {
      assert output[j] == released[n + j] && output[k] == released[n + k];
    }
  }

  /**
   * Whatever the deque was trimmed to, a request is admitted only while the history's last
   * minute is under the limit.
   */
  lemma {:induction false} OutputRate(l: Limits, states: seq<System>, events: seq<Event>, k: nat)
    requires IsRunFromStart(l, states, events) && k < |events|
    requires Admits(l, states[k], events[k])
    ensures OutputSince(states[k].released, events[k].now) < l.outputPerMinute
  {
    Invariant(l, states, events, k);
    var s, e := states[k], events[k];
    PassParts(l, s.gate, e.i, s.asked[e.i], e.now, e.cancelled, e.deadline, IsFirst(s.gate.waiting, e.i, e.now));
    OutIsOutputSince(s.gate.output, s.released, s.clock, e.now);
  }

  // ----- overtaking -----

  /** A request that has waited its rank times AGING is of the first class. */
  predicate Aged(w: Waiter, now: real) {
    now - w.since >= w.rank as real * AGING
  }

  lemma {:induction false} AgedIsFirstClass(w: Waiter, now: real)
    requires Aged(w, now)
    ensures Class(w, now) == 0
  {
    assert (now - w.since) / AGING >= w.rank as real;
  }

  /** While an aged request waits, only it or an earlier arrival is admitted. */
  lemma {:induction false} NoOvertaking(l: Limits, s: System, e: Event, p: nat)
    requires InOrder(s.gate.waiting) && Enabled(l, s, e) && Admits(l, s, e)
    requires p < |s.gate.waiting| && Aged(s.gate.waiting[p], e.now)
    ensures e.i <= p
  {
    AgedIsFirstClass(s.gate.waiting[p], e.now);
  }

  function Admissions(l: Limits, states: seq<System>, events: seq<Event>): nat
    requires |states| == |events| + 1
    requires forall k :: 0 <= k < |events| ==> Enabled(l, states[k], events[k])
    decreases |states|
  {
    if events == [] then 0
    else (if Admits(l, states[0], events[0]) then 1 else 0) + Admissions(l, states[1..], events[1..])
  }

  predicate Waiting(s: System, w: Waiter) {
    w in s.gate.waiting
  }

  /** Where `w` stands in the queue. */
  function Position(waiting: seq<Waiter>, w: Waiter): (p: nat)
    requires w in waiting
    ensures p < |waiting| && waiting[p] == w
    decreases |waiting|
  {
    if waiting[0] == w then 0 else 1 + Position(waiting[1..], w)
  }

  lemma {:induction false} PositionUnique(waiting: seq<Waiter>, w: Waiter, p: nat)
    requires InOrder(waiting) && p < |waiting| && waiting[p] == w
    ensures Position(waiting, w) == p
  {
  }

  lemma {:induction false} PositionLeft(waiting: seq<Waiter>, w: Waiter, i: nat)
    requires InOrder(waiting) && w in waiting && i < |waiting| && w in Without(waiting, i)
    ensures i != Position(waiting, w)
    ensures Position(Without(waiting, i), w) == Position(waiting, w) - (if i < Position(waiting, w) then 1 else 0)
  {
    var p := Position(waiting, w);
    var t := Without(waiting, i);
    assert InOrder(t);
    var q := Position(t, w);
    PositionUnique(waiting, w, if q < i then q else q + 1);
  }

  lemma {:induction false} PositionEntered(waiting: seq<Waiter>, w: Waiter, late: Waiter)
    requires w in waiting
    ensures Position(waiting + [late], w) == Position(waiting, w)
    decreases |waiting|
  {
    if waiting[0] == w {
    } else {
      assert (waiting + [late])[1..] == waiting[1..] + [late];
      PositionEntered(waiting[1..], w, late);
    }
  }

  lemma {:induction false} PassAdvances(
    l: Limits, g: State, w: Waiter, i: nat, tokens: int, now: real, cancelled: bool, deadline: real, first: bool)
    requires InOrder(g.waiting) && w in g.waiting && i < |g.waiting|
    requires w in PassIf(l, g, i, tokens, now, cancelled, deadline, first).0.waiting
    requires PassIf(l, g, i, tokens, now, cancelled, deadline, first).1 == Admitted ==> i <= Position(g.waiting, w)
    ensures var (h, outcome) := PassIf(l, g, i, tokens, now, cancelled, deadline, first);
            Position(h.waiting, w) + (if outcome == Admitted then 1 else 0) <= Position(g.waiting, w)
  {
    PassParts(l, g, i, tokens, now, cancelled, deadline, first);
    if PassIf(l, g, i, tokens, now, cancelled, deadline, first).1 != Waits {
      PositionLeft(g.waiting, w, i);
    }
  }

  /** No step moves a waiting request back, and an admission while it is aged moves it forward. */
  lemma {:induction false} PositionAdvances(l: Limits, s: System, e: Event, w: Waiter)
    requires Enabled(l, s, e) && Aged(w, e.now)
    requires InOrder(s.gate.waiting)
    requires Waiting(s, w) && Waiting(Next(l, s, e), w)
    ensures Position(Next(l, s, e).gate.waiting, w) + (if Admits(l, s, e) then 1 else 0) <= Position(s.gate.waiting, w)
  {
    match e
    case Arrive(_, rank, now) =>
      PositionEntered(s.gate.waiting, w, Waiter(s.gate.lastId + 1, rank, now));
    case Try(i, now, cancelled, deadline) =>
      if Admits(l, s, e) {
        NoOvertaking(l, s, e, Position(s.gate.waiting, w));
      }
      PassAdvances(l, s.gate, w, i, s.asked[i], now, cancelled, deadline, IsFirst(s.gate.waiting, i, now));
    case Finish(_, _, _) =>
    case Observe(_, _, _) =>
    case Failure(_, _) =>
    case Look(_) =>
  }

  /**
   * Once a request has aged, no more requests are admitted before it leaves the
   * queue than stood ahead of it, whoever arrives later and with whatever rank.
   */
  lemma {:induction false} BoundedOvertaking(l: Limits, states: seq<System>, events: seq<Event>, w: Waiter)
    requires IsRun(l, states, events) && Inv(l, states[0])
    requires Waiting(states[0], w) && forall k :: 0 <= k < |states| ==> Waiting(states[k], w)
    requires forall k :: 0 <= k < |events| ==> Aged(w, events[k].now)
    ensures Admissions(l, states, events) <= Position(states[0].gate.waiting, w)
    decreases |events|
  {
    if events == [] {
    } else {
      assert Enabled(l, states[0], events[0]) && states[1] == Next(l, states[0], events[0]);
      assert Waiting(states[0], w) && Waiting(states[1], w);
      StepKeepsInvariant(l, states[0], events[0]);
      PositionAdvances(l, states[0], events[0], w);
      BoundedOvertaking(l, states[1..], events[1..], w);
    }
  }

  /** The same on every run, from any point on at which the request waits and has aged. */
  lemma {:induction false} OvertakingOnRuns(l: Limits, states: seq<System>, events: seq<Event>, from: nat, w: Waiter)
    requires IsRunFromStart(l, states, events) && from < |states|
    requires Waiting(states[from], w) && forall k :: from <= k < |states| ==> Waiting(states[k], w)
    requires Aged(w, states[from].clock)
    ensures Admissions(l, states[from..], events[from..]) <= Position(states[from].gate.waiting, w)
  {
    Invariant(l, states, events, from);
    forall k | from <= k < |events| ensures Aged(w, events[k].now) {
      ClockAdvances(l, states, events, from, k);
    }
    BoundedOvertaking(l, states[from..], events[from..], w);
  }

  lemma {:induction false} ClockIsNow(l: Limits, states: seq<System>, events: seq<Event>, k: nat)
    requires IsRun(l, states, events) && k < |events|
    ensures states[k].clock <= events[k].now && states[k + 1].clock == events[k].now
  {
  }

  lemma {:induction false} ClockAdvances(l: Limits, states: seq<System>, events: seq<Event>, from: nat, k: nat)
    requires IsRun(l, states, events) && from <= k < |events|
    ensures states[from].clock <= events[k].now
    decreases k
  {
    if from == k {
    } else {
      ClockAdvances(l, states, events, from, k - 1);
      ClockIsNow(l, states, events, k - 1);
      ClockIsNow(l, states, events, k);
    }
  }

  // ----- deadlock -----

  lemma {:induction false} SomeoneIsFirst(waiting: seq<Waiter>, now: real) returns (i: nat)
    requires waiting != []
    ensures IsFirst(waiting, i, now)
    decreases |waiting|
  {
    var n := |waiting| - 1;
    if n == 0 {
      i := 0;
    } else {
      i := SomeoneIsFirst(waiting[..n], now);
      assert forall j :: 0 <= j < n ==> waiting[..n][j] == waiting[j];
      if Before(waiting[n], waiting[i], now) {
        i := n;
      }
    }
  }

  lemma {:induction false} FirstIsAdmitted(l: Limits, s: System, now: real, deadline: real) returns (i: nat)
    requires s.gate.waiting != [] && |s.asked| == |s.gate.waiting| && now >= s.clock
    requires s.gate.busy == 0 < s.gate.slots && now >= s.gate.pausedUntil
    requires SumSamples(Recent(s.gate.output, now)) < l.outputPerMinute
    ensures Enabled(l, s, Try(i, now, false, deadline)) && Admits(l, s, Try(i, now, false, deadline))
  {
    i := SomeoneIsFirst(s.gate.waiting, now);
  }

  /** With nothing in flight, no pause and output under the limit, some waiting request is admitted on its next pass. */
  lemma {:induction false} NoDeadlock(
    l: Limits, states: seq<System>, events: seq<Event>, k: nat, now: real, deadline: real)
    requires IsRunFromStart(l, states, events) && k < |states|
    requires states[k].gate.waiting != [] && states[k].inflight == [] && now >= states[k].clock
    requires now >= states[k].gate.pausedUntil && OutputSince(states[k].released, now) < l.outputPerMinute
    ensures exists i: nat ::
              Enabled(l, states[k], Try(i, now, false, deadline)) && Admits(l, states[k], Try(i, now, false, deadline))
  {
    Invariant(l, states, events, k);
    OutIsOutputSince(states[k].gate.output, states[k].released, states[k].clock, now);
    var i := FirstIsAdmitted(l, states[k], now, deadline);
  }
}
