/** What one critical section of `Gate` does to the gate's fields, on values. */
module GateSpec {
  import opened Collections
  import opened Optional

  const AGING := 600.0
  const SHRINK_PERIOD := 300.0
  const GROW_PERIOD := 600.0
  const OUTPUT_WINDOW := 60.0

  /** The part of a `Model` that admission reads. */
  datatype Limits = Limits(context: int, slotsStart: int, slotsMax: int, budget: int, outputPerMinute: int)

  /** What `load` checks of a model. */
  predicate ValidLimits(l: Limits) {
    1 <= l.slotsStart <= l.slotsMax
  }

  /** `int(SHARE * context)`, with SHARE the rational 7/20. */
  function Share(context: int): int {
    7 * context / 20
  }

  datatype Waiter = Waiter(id: int, rank: int, since: real)
  datatype Sample = Sample(at: real, tokens: int)

  /** `waiting` is the dict in its insertion order; an `adjusted` of None is minus infinity. */
  datatype State = State(
    slots: int, busy: int, held: int, output: seq<Sample>, waiting: seq<Waiter>,
    pausedUntil: real, adjusted: Option<real>, lastId: int)

  function Fresh(l: Limits): State {
    State(l.slotsStart, 0, 0, [], [], 0.0, None, 0)
  }

  function SumSamples(s: seq<Sample>): int
    decreases |s|
  {
    if s == [] then 0 else s[0].tokens + SumSamples(s[1..])
  }

  /** The output samples `_out` leaves: it pops old ones from the left only. */
  function Recent(output: seq<Sample>, now: real): (r: seq<Sample>)
    ensures |r| <= |output| && r == output[|output| - |r|..]
    decreases |output|
  {
    if output != [] && now - output[0].at > OUTPUT_WINDOW then Recent(output[1..], now) else output
  }

  /** The conditions of `_fits` before the output is looked at. */
  predicate HasRoom(l: Limits, s: State, tokens: int, now: real) {
    s.busy < s.slots && (s.held + tokens <= l.budget || s.busy == 0) && now >= s.pausedUntil
  }

  predicate Fits(l: Limits, s: State, tokens: int, now: real) {
    HasRoom(l, s, tokens, now) && SumSamples(Recent(s.output, now)) < l.outputPerMinute
  }

  /** `_fits` trims the output only when it gets as far as looking at it. */
  function AfterFits(l: Limits, s: State, tokens: int, now: real): State {
    if HasRoom(l, s, tokens, now) then s.(output := Recent(s.output, now)) else s
  }

  /** A waiting request's queue class, which falls by one each AGING seconds. */
  function Class(w: Waiter, now: real): int {
    var c := w.rank - ((now - w.since) / AGING).Floor;
    if c > 0 then c else 0
  }

  predicate Before(a: Waiter, b: Waiter, now: real) {
    Class(a, now) < Class(b, now) || (Class(a, now) == Class(b, now) && a.since < b.since)
  }

  /** Position `i` holds the first of the least entries: what Python's `min` returns. */
  predicate IsFirst(waiting: seq<Waiter>, i: nat, now: real) {
    && i < |waiting|
    && (forall j :: 0 <= j < i ==> Before(waiting[i], waiting[j], now))
    && (forall j :: i < j < |waiting| ==> !Before(waiting[j], waiting[i], now))
  }

  function Enter(s: State, rank: int, now: real): State {
    s.(lastId := s.lastId + 1, waiting := s.waiting + [Waiter(s.lastId + 1, rank, now)])
  }

  datatype Outcome = Admitted | GaveUp | Waits

  /** One pass of the loop in `acquire`, by the request at position `i` of the queue. */
  function Pass(l: Limits, s: State, i: nat, tokens: int, now: real, cancelled: bool, deadline: real): (State, Outcome)
    requires i < |s.waiting|
  {
    PassIf(l, s, i, tokens, now, cancelled, deadline, IsFirst(s.waiting, i, now))
  }

  /** The pass of a request that is, or is not, `first`. */
  function PassIf(
    l: Limits, s: State, i: nat, tokens: int, now: real, cancelled: bool, deadline: real, first: bool): (State, Outcome)
    requires i < |s.waiting|
  {
    if cancelled then
      (s.(waiting := Without(s.waiting, i)), GaveUp)
    else
      var t := AfterFits(l, s, tokens, now);
      if Fits(l, s, tokens, now) && first then
        (t.(busy := t.busy + 1, held := t.held + tokens, waiting := Without(t.waiting, i)), Admitted)
      else if now >= deadline then
        (t.(waiting := Without(t.waiting, i)), GaveUp)
      else
        (t, Waits)
  }

  function Release(s: State, tokens: int, completion: int, now: real): State {
    s.(busy := s.busy - 1, held := s.held - tokens,
       output := if completion != 0 then s.output + [Sample(now, completion)] else s.output)
  }

  predicate Elapsed(since: Option<real>, now: real, period: real) {
    since.None? || now - since.value >= period
  }

  /** `max(1, slots // 2)` */
  function Halved(slots: int): int {
    if slots / 2 > 1 then slots / 2 else 1
  }

  /** `_adjust`: `enough` and `slow` are what it reads off the speed samples. */
  function Adjust(l: Limits, s: State, enough: bool, slow: bool, now: real): State {
    if !enough || !Elapsed(s.adjusted, now, SHRINK_PERIOD) then
      s
    else if slow then
      s.(slots := Halved(s.slots), adjusted := Some(now))
    else if Elapsed(s.adjusted, now, GROW_PERIOD) && s.slots < l.slotsMax then
      s.(slots := s.slots + 1, adjusted := Some(now))
    else
      s
  }

  /** `failed`: the slots halve at most once in SHRINK_PERIOD; a 429 pauses the gate. */
  function Fail(s: State, retryAfter: Option<real>, now: real): State {
    var t := if Elapsed(s.adjusted, now, SHRINK_PERIOD)
             then s.(slots := Halved(s.slots), adjusted := Some(now)) else s;
    if retryAfter.Some? then t.(pausedUntil := now + retryAfter.value) else t
  }
}
