/** Several waiters for one lock: when more than one of them holds it. */
module LockRuns {
  import opened Heartbeat
  import opened Optional

  /**
   * Where a process is: waiting, with what its observer remembers; past its wait, but
   * with no heartbeat written yet; holding the lock; or gone, at its end or killed.
   */
  datatype Place = Waits(seen: Option<Poll>) | Enters | Holds | Gone

  /** The directory, the stamp in it since its last write, all stamps so far, the processes, and the time. */
  datatype State = State(dir: bool, file: Option<real>, since: real, used: set<real>, places: seq<Place>, clock: real)

  datatype Event =
    | Makes(i: nat, now: real)
    | Looks(i: nat, now: real)
    | Writes(i: nat, stamp: real, now: real)
    | Leaves(i: nat)
    | Dies(i: nat)

  predicate Inside(p: Place) {
    p.Enters? || p.Holds?
  }

  /** Some process holds the lock, alive. */
  predicate Held(s: State) {
    exists i :: 0 <= i < |s.places| && s.places[i].Holds?
  }

  /** Each write has a stamp of its own, and live holders beat in time. */
  predicate Enabled(threshold: real, s: State, e: Event) {
    && e.i < |s.places|
    && match e
       case Makes(i, now) => s.places[i].Waits? && !s.dir && s.clock <= now
       case Looks(i, now) =>
         s.places[i].Waits? && s.dir && s.clock <= now && (Held(s) ==> now - s.since <= threshold)
       case Writes(i, stamp, now) => Inside(s.places[i]) && s.dir && stamp !in s.used && s.clock <= now
       case Leaves(i) => s.places[i].Holds?
       case Dies(_) => true
  }

  function Look(threshold: real, s: State, i: nat, now: real): (Option<Poll>, bool)
    requires i < |s.places| && s.places[i].Waits?
  {
    Observe(s.places[i].seen, threshold, Poll(s.file, now))
  }

  function Next(threshold: real, s: State, e: Event): State
    requires Enabled(threshold, s, e)
  {
    match e
    case Makes(i, now) => s.(dir := true, file := None, since := now, places := s.places[i := Enters], clock := now)
    case Looks(i, now) =>
      var (seen, frozen) := Look(threshold, s, i, now);
      s.(places := s.places[i := if frozen then Enters else Waits(seen)], clock := now)
    case Writes(i, stamp, now) =>
      s.(file := Some(stamp), since := now, used := s.used + {stamp}, places := s.places[i := Holds], clock := now)
    case Leaves(i) => s.(dir := false, file := None, places := s.places[i := Gone])
    case Dies(i) => s.(places := s.places[i := Gone])
  }

  /** Only waiters, and perhaps what a dead holder left. */
  predicate Fresh(s: State) {
    && (forall i :: 0 <= i < |s.places| ==> s.places[i] == Waits(None))
    && (s.file.Some? ==> s.dir && s.file.value in s.used) && s.since <= s.clock
  }

  ghost predicate IsRun(threshold: real, states: seq<State>, events: seq<Event>) {
    && |states| == |events| + 1 && Fresh(states[0])
    && forall k {:trigger events[k]} :: 0 <= k < |events| ==>
         Enabled(threshold, states[k], events[k]) && states[k + 1] == Next(threshold, states[k], events[k])
  }

  /** At most one process is past its wait. */
  predicate OneInside(s: State) {
    forall i, j :: 0 <= i < j < |s.places| ==> !Inside(s.places[i]) || !Inside(s.places[j])
  }

  /** A process finds the heartbeat frozen while another is past its wait and has not written yet. */
  predicate Intrudes(threshold: real, s: State, e: Event) {
    && e.Looks? && e.i < |s.places| && s.places[e.i].Waits? && Look(threshold, s, e.i, e.now).1
    && exists j :: 0 <= j < |s.places| && s.places[j].Enters?
  }

  /** What a waiter remembers is old: a stamp that is still in the file was first seen after it was written. */
  predicate SeenOk(s: State, p: Place) {
    p.Waits? && p.seen.Some? ==>
      && p.seen.value.now <= s.clock
      && (p.seen.value.stamp.Some? ==> p.seen.value.stamp.value in s.used)
      && (s.file.Some? && p.seen.value.stamp == s.file ==> s.since <= p.seen.value.now)
  }

  predicate Inv(s: State) {
    && (s.file.Some? ==> s.file.value in s.used) && s.since <= s.clock
    && forall i :: 0 <= i < |s.places| ==> SeenOk(s, s.places[i])
  }

  /** Who is past its wait has the directory, and who holds the lock a heartbeat in it. */
  predicate Backed(s: State) {
    forall i :: 0 <= i < |s.places| ==>
      && (Inside(s.places[i]) ==> s.dir)
      && (s.places[i].Holds? ==> s.file.Some?)
  }

  lemma {:induction false} StepKeeps(threshold: real, s: State, e: Event)
    requires Inv(s) && Enabled(threshold, s, e)
    ensures Inv(Next(threshold, s, e))
  {
    var t := Next(threshold, s, e);
    forall i | 0 <= i < |t.places| ensures SeenOk(t, t.places[i]) {
      assert SeenOk(s, s.places[i]);
    }
  }

  /** No live holder is found frozen. */
  lemma {:induction false} FrozenIsNotHeld(threshold: real, s: State, e: Event)
    requires Inv(s) && Backed(s) && Enabled(threshold, s, e) && e.Looks? && Look(threshold, s, e.i, e.now).1
    ensures !Held(s)
  {
    assert SeenOk(s, s.places[e.i]);
  }

  lemma {:induction false} StepKeepsOne(threshold: real, s: State, e: Event)
    requires Inv(s) && Backed(s) && OneInside(s) && Enabled(threshold, s, e) && !Intrudes(threshold, s, e)
    ensures OneInside(Next(threshold, s, e)) && Backed(Next(threshold, s, e))
  {
    if e.Looks? && Look(threshold, s, e.i, e.now).1 {
      FrozenIsNotHeld(threshold, s, e);
      assert forall j :: 0 <= j < |s.places| ==> !Inside(s.places[j]);
    }
  }

  lemma {:induction false} StepOf(threshold: real, states: seq<State>, events: seq<Event>, n: nat)
    requires IsRun(threshold, states, events) && n < |events|
    ensures Enabled(threshold, states[n], events[n]) && states[n + 1] == Next(threshold, states[n], events[n])
  {
  }

  lemma {:induction false} OneSoFar(threshold: real, states: seq<State>, events: seq<Event>, k: nat)
    requires IsRun(threshold, states, events) && k < |states|
    requires forall n :: 0 <= n < |events| ==> !Intrudes(threshold, states[n], events[n])
    ensures Inv(states[k]) && Backed(states[k]) && OneInside(states[k])
    decreases k
  {
    if k == 0 {
    } else {
      var n: nat := k - 1;
      OneSoFar(threshold, states, events, n);
      StepOf(threshold, states, events, n);
      StepKeeps(threshold, states[n], events[n]);
      StepKeepsOne(threshold, states[n], events[n]);
    }
  }

  lemma {:induction false} IntruderIsSecond(threshold: real, s: State, e: Event)
    requires Enabled(threshold, s, e) && Intrudes(threshold, s, e)
    ensures !OneInside(Next(threshold, s, e))
  {
    var j :| 0 <= j < |s.places| && s.places[j].Enters?;
    var t := Next(threshold, s, e);
    assert Inside(t.places[j]) && Inside(t.places[e.i]) && j != e.i;
  }

  /**
   * Whatever the interleaving, and with heartbeats read whole and written in time, two
   * processes are past their waits at once exactly when one found the heartbeat frozen
   * between another's wait and its first write.
   */
  lemma {:induction false} OneInsideExactly(threshold: real, states: seq<State>, events: seq<Event>)
    requires IsRun(threshold, states, events)
    ensures (forall k :: 0 <= k < |states| ==> OneInside(states[k]))
       <==> (forall k :: 0 <= k < |events| ==> !Intrudes(threshold, states[k], events[k]))
  {
    if forall k :: 0 <= k < |events| ==> !Intrudes(threshold, states[k], events[k]) {
      forall k | 0 <= k < |states| ensures OneInside(states[k]) {
        OneSoFar(threshold, states, events, k);
      }
    } else {
      var k :| 0 <= k < |events| && Intrudes(threshold, states[k], events[k]);
      IntruderIsSecond(threshold, states[k], events[k]);
      assert !OneInside(states[k + 1]);
    }
  }

  /** Two waiters find a dead holder's heartbeat frozen at the same time, and both hold the lock. */
  lemma {:induction false} TwoTakeOver() returns (states: seq<State>, events: seq<Event>)
    ensures IsRun(LOCK_FROZEN_SECONDS, states, events) && |events| == 6
    ensures states[6].places == [Holds, Holds]
  {
    var seen := Waits(Some(Poll(Some(1.0), 0.0)));
    var s0 := State(true, Some(1.0), 0.0, {1.0}, [Waits(None), Waits(None)], 0.0);
    var s1 := s0.(places := [seen, Waits(None)]);
    var s2 := s0.(places := [seen, seen]);
    var s3 := s0.(places := [Enters, seen], clock := 91.0);
    var s4 := s0.(places := [Enters, Enters], clock := 91.0);
    var s5 := State(true, Some(2.0), 91.0, {1.0, 2.0}, [Holds, Enters], 91.0);
    var s6 := State(true, Some(3.0), 91.0, {1.0, 2.0, 3.0}, [Holds, Holds], 91.0);
    states := [s0, s1, s2, s3, s4, s5, s6];
    events := [
      Looks(0, 0.0), Looks(1, 0.0), Looks(0, 91.0), Looks(1, 91.0), Writes(0, 2.0, 91.0), Writes(1, 3.0, 91.0)];
  }
}
