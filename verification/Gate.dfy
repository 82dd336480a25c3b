/** `Gate`: admission to one model. Each method is one critical section. */
module Gate {
  import opened Collections
  import opened Optional
  import S = GateSpec

  class Gate {
    const limits: S.Limits
    var slots: int
    var busy: int
    var held: int
    var output: seq<S.Sample>
    var waiting: seq<S.Waiter>
    var pausedUntil: real
    var adjusted: Option<real>
    var lastId: int

    ghost function View(): S.State
      reads this
    {
      S.State(slots, busy, held, output, waiting, pausedUntil, adjusted, lastId)
    }

    constructor (l: S.Limits)
      ensures limits == l && View() == S.Fresh(l)
    {
      limits := l;
      slots, busy, held, output, waiting := l.slotsStart, 0, 0, [], [];
      pausedUntil, adjusted, lastId := 0.0, None, 0;
    }

    /** Pops what left the window, then sums the rest. */
    method Out(now: real) returns (total: int)
      modifies `output
      ensures output == S.Recent(old(output), now)
      ensures total == S.SumSamples(output)
    {
      var rest := output;
      while rest != [] && now - rest[0].at > S.OUTPUT_WINDOW
        invariant S.Recent(rest, now) == S.Recent(output, now)
        decreases |rest|
      {
        rest := rest[1..];
      }
      output := rest;
      total := Total(rest);
    }

    static method Total(samples: seq<S.Sample>) returns (total: int)
      ensures total == S.SumSamples(samples)
    {
      total := 0;
      for k := 0 to |samples|
        invariant total + S.SumSamples(samples[k..]) == S.SumSamples(samples)
      {
        assert samples[k..][1..] == samples[k + 1..];
        total := total + samples[k].tokens;
      }
    }

    method Fits(tokens: int, now: real) returns (yes: bool)
      modifies `output
      ensures yes == S.Fits(limits, old(View()), tokens, now)
      ensures View() == S.AfterFits(limits, old(View()), tokens, now)
    {
      yes := false;
      if busy < slots && (held + tokens <= limits.budget || busy == 0) && now >= pausedUntil {
        var out := Out(now);
        yes := out < limits.outputPerMinute;
      }
    }

    /** The running minimum over the dict, as `min` finds it. */
    method First(i: nat, now: real) returns (yes: bool)
      requires i < |waiting|
      ensures yes == S.IsFirst(waiting, i, now)
    {
      var best := 0;
      for k := 1 to |waiting|
        invariant S.IsFirst(waiting[..k], best, now)
      {
        assert forall j :: 0 <= j < k ==> waiting[..k][j] == waiting[j];
        if S.Before(waiting[k], waiting[best], now) {
          best := k;
        }
      }
      assert waiting[..|waiting|] == waiting;
      yes := best == i;
    }

    method Enter(rank: int, now: real) returns (id: int)
      modifies `lastId, `waiting
      ensures View() == S.Enter(old(View()), rank, now) && id == lastId
    {
      lastId := lastId + 1;
      id := lastId;
      waiting := waiting + [S.Waiter(id, rank, now)];
    }

    /** One pass of the waiting loop, with the `finally` of its exits. */
    method Pass(i: nat, tokens: int, now: real, cancelled: bool, deadline: real) returns (outcome: S.Outcome)
      requires i < |waiting|
      modifies this
      ensures (View(), outcome) == S.Pass(limits, old(View()), i, tokens, now, cancelled, deadline)
    {
      outcome := S.Waits;
      if cancelled {
        outcome := S.GaveUp;
      } else {
        var fits := Fits(tokens, now);
        var first := false;
        if fits {
          first := First(i, now);
        }
        if first {
          busy := busy + 1;
          held := held + tokens;
          outcome := S.Admitted;
        } else if now >= deadline {
          outcome := S.GaveUp;
        }
      }
      if outcome != S.Waits {
        waiting := Without(waiting, i);
      }
    }

    method Release(tokens: int, completion: int, now: real)
      modifies `busy, `held, `output
      ensures View() == S.Release(old(View()), tokens, completion, now)
    {
      busy := busy - 1;
      held := held - tokens;
      if completion != 0 {
        output := output + [S.Sample(now, completion)];
      }
    }

    method Adjust(enough: bool, slow: bool, now: real)
      modifies `slots, `adjusted
      ensures View() == S.Adjust(limits, old(View()), enough, slow, now)
    {
      if !enough || !S.Elapsed(adjusted, now, S.SHRINK_PERIOD) {
        return;
      }
      if slow {
        slots := if slots / 2 > 1 then slots / 2 else 1;
        adjusted := Some(now);
      } else if S.Elapsed(adjusted, now, S.GROW_PERIOD) && slots < limits.slotsMax {
        slots := slots + 1;
        adjusted := Some(now);
      }
    }

    method Failed(retryAfter: Option<real>, now: real)
      modifies `slots, `adjusted, `pausedUntil
      ensures View() == S.Fail(old(View()), retryAfter, now)
    {
      if S.Elapsed(adjusted, now, S.SHRINK_PERIOD) {
        slots := if slots / 2 > 1 then slots / 2 else 1;
        adjusted := Some(now);
      }
      if retryAfter.Some? {
        pausedUntil := now + retryAfter.value;
      }
    }
  }
}
