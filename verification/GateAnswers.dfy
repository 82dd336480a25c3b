/** Whom a gate admits, and how its slots and pauses move, said without the gate's own order and fields. */
module GateAnswers {
  import opened Collections
  import opened GateRuns
  import opened GateSpec
  import opened Optional

  // ----- who is next -----

  /** A request that has waited `j` whole periods of AGING stands `j` below its rank, and never below 0. */
  ghost predicate Stands(w: Waiter, now: real, n: int) {
    exists j: int :: Periods(w, now, j) && n == Max(0, w.rank - j)
  }

  predicate Periods(w: Waiter, now: real, j: int) {
    j as real * AGING <= now - w.since < (j + 1) as real * AGING
  }

  /** Every other waiting request stands higher, or as high and came later. */
  ghost predicate IsNext(waiting: seq<Waiter>, i: nat, now: real)
    requires i < |waiting|
  {
    forall p, a, b :: 0 <= p < |waiting| && p != i && Stands(waiting[i], now, a) && Stands(waiting[p], now, b) ==>
      a < b || (a == b && i < p)
  }

  lemma {:induction false} PeriodsOf(w: Waiter, now: real)
    ensures Periods(w, now, ((now - w.since) / AGING).Floor)
  {
    var q := (now - w.since) / AGING;
    assert q * AGING == now - w.since;
    assert q.Floor as real <= q < q.Floor as real + 1.0;
  }

  lemma {:induction false} PeriodsUnique(w: Waiter, now: real, i: int, j: int)
    requires Periods(w, now, i) && Periods(w, now, j)
    ensures i == j
  {
    assert i < j ==> (i + 1) as real * AGING <= j as real * AGING;
    assert j < i ==> (j + 1) as real * AGING <= i as real * AGING;
  }

  /** The class that a gate orders by is where a request stands. */
  lemma {:induction false} StandsIsClass(w: Waiter, now: real, n: int)
    ensures Stands(w, now, n) <==> n == Class(w, now)
  {
    var j := ((now - w.since) / AGING).Floor;
    PeriodsOf(w, now);
    if Stands(w, now, n) {
      var i: int :| Periods(w, now, i) && n == Max(0, w.rank - i);
      PeriodsUnique(w, now, i, j);
    }
  }

  lemma {:induction false} FirstIsNext(waiting: seq<Waiter>, i: nat, now: real)
    requires i < |waiting| && InOrder(waiting)
    ensures IsFirst(waiting, i, now) <==> IsNext(waiting, i, now)
  {
    forall p, a | 0 <= p < |waiting| ensures Stands(waiting[p], now, a) <==> a == Class(waiting[p], now) {
      StandsIsClass(waiting[p], now, a);
    }
    if IsNext(waiting, i, now) {
      forall j | 0 <= j < i ensures Before(waiting[i], waiting[j], now) {
        assert Stands(waiting[i], now, Class(waiting[i], now)) && Stands(waiting[j], now, Class(waiting[j], now));
      }
      forall j | i < j < |waiting| ensures !Before(waiting[j], waiting[i], now) {
        assert Stands(waiting[i], now, Class(waiting[i], now)) && Stands(waiting[j], now, Class(waiting[j], now));
      }
    }
  }

  lemma {:induction false} AdmitsIf(l: Limits, s: System, e: Event)
    requires Enabled(l, s, e) && e.Try?
    ensures Admits(l, s, e) <==>
              && !e.cancelled && HasRoom(l, s.gate, s.asked[e.i], e.now)
              && SumSamples(Recent(s.gate.output, e.now)) < l.outputPerMinute && IsFirst(s.gate.waiting, e.i, e.now)
  {
  }

  lemma {:induction false} AdmitsWhen(l: Limits, s: System, e: Event)
    requires Counts(l, s.gate, s.inflight) && InOrder(s.gate.waiting) && Window(s.gate.output, s.released, s.clock)
    requires Enabled(l, s, e) && e.Try?
    ensures Admits(l, s, e) <==>
              && !e.cancelled && |s.inflight| < s.gate.slots
              && (Held(s.inflight) + s.asked[e.i] <= l.budget || s.inflight == [])
              && e.now >= s.gate.pausedUntil
              && OutputSince(s.released, e.now) < l.outputPerMinute
              && IsNext(s.gate.waiting, e.i, e.now)
  {
    AdmitsIf(l, s, e);
    FirstIsNext(s.gate.waiting, e.i, e.now);
    OutIsOutputSince(s.gate.output, s.released, s.clock, e.now);
    RoomInFlight(l, s.gate, s.inflight, s.asked[e.i], e.now);
  }

  lemma {:induction false} RoomInFlight(l: Limits, s: State, inflight: seq<Flight>, tokens: int, now: real)
    requires Counts(l, s, inflight)
    ensures HasRoom(l, s, tokens, now) <==>
              && |inflight| < s.slots && (Held(inflight) + tokens <= l.budget || inflight == [])
              && now >= s.pausedUntil
  {
  }

  /**
   * On every run a waiting request that looks is admitted exactly when its client is
   * there, a slot is free, the tokens in flight leave room or none are, no pause is on,
   * the last minute's output is under the limit, and it is next.
   */
  lemma {:induction false} AdmitsExactly(l: Limits, states: seq<System>, events: seq<Event>, k: nat)
    requires IsRunFromStart(l, states, events) && k < |events| && events[k].Try?
    ensures var s, e := states[k], events[k];
            && e.i < |s.gate.waiting| && e.i < |s.asked|
            && (Admits(l, s, e) <==>
                  && !e.cancelled && |s.inflight| < s.gate.slots
                  && (Held(s.inflight) + s.asked[e.i] <= l.budget || s.inflight == [])
                  && e.now >= s.gate.pausedUntil
                  && OutputSince(s.released, e.now) < l.outputPerMinute
                  && IsNext(s.gate.waiting, e.i, e.now))
  {
    Invariant(l, states, events, k);
    assert Enabled(l, states[k], events[k]);
    AdmitsWhen(l, states[k], events[k]);
  }

  /**
   * An arrival queues last; a request leaves the queue by its own look, when it is
   * admitted, its client is gone or its deadline has passed; and nothing else moves it.
   */
  lemma {:induction false} QueueMoves(l: Limits, s: System, e: Event)
    requires Enabled(l, s, e)
    ensures var q, t := s.gate.waiting, Next(l, s, e);
            match e
            case Arrive(tokens, rank, now) =>
              && t.gate.waiting == q + [Waiter(t.gate.lastId, rank, now)] && t.asked == s.asked + [tokens]
              && t.inflight == s.inflight
            case Try(i, now, cancelled, deadline) =>
              if Admits(l, s, e) then
                && t.gate.waiting == Without(q, i) && t.asked == Without(s.asked, i)
                && t.inflight == s.inflight + [Flight(q[i].id, s.asked[i])]
              else if cancelled || now >= deadline then
                t.gate.waiting == Without(q, i) && t.asked == Without(s.asked, i) && t.inflight == s.inflight
              else t.gate.waiting == q && t.asked == s.asked && t.inflight == s.inflight
            case _ => t.gate.waiting == q && t.asked == s.asked
  {
  }

  /** Each waiting request stands in the queue as it came: with its rank, its time and its tokens. */
  lemma {:induction false} CameAs(l: Limits, states: seq<System>, events: seq<Event>, k: nat, p: nat) returns (a: nat)
    requires IsRunFromStart(l, states, events) && k < |states|
    requires p < |states[k].gate.waiting| && p < |states[k].asked|
    ensures a < k
    ensures events[a] == Arrive(states[k].asked[p], states[k].gate.waiting[p].rank, states[k].gate.waiting[p].since)
    decreases k
  {
    var n: nat := k - 1;
    Invariant(l, states, events, n);
    assert Enabled(l, states[n], events[n]) && states[k] == Next(l, states[n], events[n]);
    var before := StoodAt(l, states[n], events[n], p);
    if before.None? {
      a := n;
    } else {
      a := CameAs(l, states, events, n, before.value);
    }
  }

  /** Where the request at `p` stood before a step; None if it came with it. */
  lemma {:induction false} StoodAt(l: Limits, s: System, e: Event, p: nat) returns (before: Option<nat>)
    requires Enabled(l, s, e) && |s.asked| == |s.gate.waiting|
    requires p < |Next(l, s, e).gate.waiting| && p < |Next(l, s, e).asked|
    ensures var t := Next(l, s, e);
            match before
            case None => e == Arrive(t.asked[p], t.gate.waiting[p].rank, t.gate.waiting[p].since)
            case Some(q) => q < |s.asked| && t.asked[p] == s.asked[q] && t.gate.waiting[p] == s.gate.waiting[q]
  {
    QueueMoves(l, s, e);
    var t := Next(l, s, e);
    if p == |s.asked| {
      before := None;
    } else {
      before := Some(if |t.asked| < |s.asked| && e.i <= p then p + 1 else p);
    }
  }

  // ----- slots and pauses -----

  /** Whether a step is a sign of trouble: a slow look, or a failure. */
  predicate Trouble(e: Event) {
    e.Failure? || (e.Observe? && e.enough && e.slow)
  }

  predicate Rested(g: State, now: real, period: real) {
    g.adjusted.None? || now - g.adjusted.value >= period
  }

  /**
   * Trouble halves the slots, down to one, unless they were adjusted in the last
   * SHRINK_PERIOD; a look that is not slow gives one back, up to the most, if they were
   * not in the last GROW_PERIOD; and nothing else touches them.
   */
  lemma {:induction false} SlotsFollow(l: Limits, s: System, e: Event)
    requires ValidLimits(l) && Enabled(l, s, e) && 1 <= s.gate.slots <= l.slotsMax
    ensures var t := Next(l, s, e).gate;
            if Trouble(e) && Rested(s.gate, e.now, 300.0) then
              t.slots == Max(1, s.gate.slots / 2) && t.adjusted == Some(e.now)
            else if e.Observe? && e.enough && !e.slow && Rested(s.gate, e.now, 600.0) && s.gate.slots < l.slotsMax then
              t.slots == s.gate.slots + 1 && t.adjusted == Some(e.now)
            else t.slots == s.gate.slots && t.adjusted == s.gate.adjusted
  {
  }

  lemma {:induction false} AdjustedSince(l: Limits, states: seq<System>, events: seq<Event>, i: nat, k: nat)
    requires IsRunFromStart(l, states, events) && i < k < |states|
    requires states[i + 1].gate.slots != states[i].gate.slots
    ensures states[k].gate.adjusted.Some? && events[i].now <= states[k].gate.adjusted.value <= states[k].clock
    decreases k
  {
    var n: nat := k - 1;
    Adjusts(l, states, events, n);
    if i < n {
      AdjustedSince(l, states, events, i, n);
    }
  }

  /** A step that changes the slots is noted with its time, and no note is taken back. */
  lemma {:induction false} Adjusts(l: Limits, states: seq<System>, events: seq<Event>, n: nat)
    requires IsRunFromStart(l, states, events) && n < |events|
    ensures var g, h := states[n].gate, states[n + 1].gate;
            && states[n].clock <= events[n].now == states[n + 1].clock
            && (h.adjusted == g.adjusted || h.adjusted == Some(events[n].now))
            && (h.slots != g.slots ==> h.adjusted == Some(events[n].now))
  {
    Invariant(l, states, events, n);
    ClockIsNow(l, states, events, n);
    SlotsFollow(l, states[n], events[n]);
  }

  /** Two changes of the slots are SHRINK_PERIOD apart at least, and GROW_PERIOD if the second gives one back. */
  lemma {:induction false} ChangesApart(l: Limits, states: seq<System>, events: seq<Event>, i: nat, k: nat)
    requires IsRunFromStart(l, states, events) && i < k < |events|
    requires states[i + 1].gate.slots != states[i].gate.slots && states[k + 1].gate.slots != states[k].gate.slots
    ensures events[k].now - events[i].now >= 300.0
    ensures states[k + 1].gate.slots > states[k].gate.slots ==> events[k].now - events[i].now >= 600.0
  {
    AdjustedSince(l, states, events, i, k);
    Invariant(l, states, events, k);
    SlotsFollow(l, states[k], events[k]);
    ClockIsNow(l, states, events, k);
  }

  /** Between a 429 and the next, the pause it set is on. */
  lemma {:induction false} PauseStays(l: Limits, states: seq<System>, events: seq<Event>, i: nat, k: nat)
    requires IsRunFromStart(l, states, events) && i < k < |states|
    requires events[i].Failure? && events[i].retryAfter.Some?
    requires forall n :: i < n < k ==> !(events[n].Failure? && events[n].retryAfter.Some?)
    ensures states[k].gate.pausedUntil == events[i].now + events[i].retryAfter.value
    decreases k
  {
    var n: nat := k - 1;
    assert Enabled(l, states[n], events[n]) && states[k] == Next(l, states[n], events[n]);
    if i < n {
      PauseStays(l, states, events, i, n);
      PauseMoves(l, states[n], events[n]);
    }
  }

  lemma {:induction false} PauseMoves(l: Limits, s: System, e: Event)
    requires Enabled(l, s, e) && !(e.Failure? && e.retryAfter.Some?)
    ensures Next(l, s, e).gate.pausedUntil == s.gate.pausedUntil
  {
  }

  /** After a 429 nobody is admitted before its Retry-After is over, unless another 429 came since. */
  lemma {:induction false} PauseHolds(l: Limits, states: seq<System>, events: seq<Event>, i: nat, k: nat)
    requires IsRunFromStart(l, states, events) && i < k < |events|
    requires events[i].Failure? && events[i].retryAfter.Some? && events[k].Try?
    requires forall n :: i < n < k ==> !(events[n].Failure? && events[n].retryAfter.Some?)
    requires Enabled(l, states[k], events[k]) && Admits(l, states[k], events[k])
    ensures events[k].now >= events[i].now + events[i].retryAfter.value
  {
    PauseStays(l, states, events, i, k);
    AdmitsExactly(l, states, events, k);
  }
}
