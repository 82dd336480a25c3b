/** `FrozenHeartbeatObserver`: when a lock's holder is taken for dead. */
module Heartbeat {
  import opened Optional

  /** A look at the lock: the heartbeat's stamp, None if missing or torn, and the observer's own clock. */
  datatype Poll = Poll(stamp: Option<real>, now: real)

  class Observer {
    const threshold: real
    /** The stamp last seen, and when it was first seen. */
    var seen: Option<Poll>

    constructor (t: real)
      ensures threshold == t && seen == None
    {
      threshold, seen := t, None;
    }

    method Frozen(stamp: Option<real>, now: real) returns (frozen: bool)
      modifies `seen
      ensures (seen, frozen) == Observe(old(seen), threshold, Poll(stamp, now))
    {
      if seen.None? || seen.value.stamp != stamp {
        seen := Some(Poll(stamp, now));
        return false;
      }
      return now - seen.value.now > threshold;
    }
  }

  function Observe(seen: Option<Poll>, threshold: real, p: Poll): (Option<Poll>, bool) {
    if seen.None? || seen.value.stamp != p.stamp then (Some(p), false)
    else (seen, p.now - seen.value.now > threshold)
  }

  /** What the observer remembers after `polls`. */
  function Remembered(threshold: real, polls: seq<Poll>): Option<Poll>
    decreases |polls|
  {
    if polls == [] then None
    else Observe(Remembered(threshold, polls[..|polls| - 1]), threshold, polls[|polls| - 1]).0
  }

  /** What it answers at the last of `polls`. */
  function Answer(threshold: real, polls: seq<Poll>): bool
    requires polls != []
  {
    Observe(Remembered(threshold, polls[..|polls| - 1]), threshold, polls[|polls| - 1]).1
  }

  /** The last polls, from `first` on, all saw the same stamp, and the one before did not. */
  predicate LastRun(polls: seq<Poll>, first: nat) {
    && first < |polls|
    && (forall i :: first <= i < |polls| ==> polls[i].stamp == polls[|polls| - 1].stamp)
    && (first > 0 ==> polls[first - 1].stamp != polls[|polls| - 1].stamp)
  }

  lemma {:induction false} RemembersRun(threshold: real, polls: seq<Poll>) returns (first: nat)
    requires polls != []
    ensures LastRun(polls, first) && Remembered(threshold, polls) == Some(polls[first])
    decreases |polls|
  {
    var n := |polls| - 1;
    if n > 0 && polls[n - 1].stamp == polls[n].stamp {
      first := RemembersRun(threshold, polls[..n]);
    } else {
      first := n;
      if n > 0 {
        var before := RemembersRun(threshold, polls[..n]);
        assert polls[..n][before].stamp == polls[n - 1].stamp;
      }
    }
  }

  /**
   * The observer keeps one stamp of the history, and answers as the history would: frozen
   * iff the current run of equal stamps is older than the threshold.
   */
  lemma {:induction false} FrozenIffRunIsOld(threshold: real, polls: seq<Poll>, first: nat)
    requires threshold >= 0.0 && LastRun(polls, first)
    ensures Answer(threshold, polls) <==> polls[|polls| - 1].now - polls[first].now > threshold
  {
    var n := |polls| - 1;
    if n > 0 {
      var before := RemembersRun(threshold, polls[..n]);
      assert polls[..n][before] == polls[before];
      if first < n {
        assert polls[n - 1].stamp == polls[n].stamp;
        assert LastRun(polls[..n], first) by {
          forall i | first <= i < n ensures polls[..n][i].stamp == polls[..n][n - 1].stamp {}
        }
        RunIsUnique(polls[..n], first, before);
      }
    }
  }

  lemma {:induction false} RunIsUnique(polls: seq<Poll>, a: nat, b: nat)
    requires LastRun(polls, a) && LastRun(polls, b)
    ensures a == b
  {
  }

  // ----- a holder and its writes -----

  /** `write_heartbeat`: a new stamp put in place at once, at a time of the observer's clock. */
  datatype Beat = Beat(stamp: real, at: real)

  /** A holder's writes until `end`, each with a stamp of its own. */
  predicate Ordered(beats: seq<Beat>, end: real) {
    && beats != [] && beats[|beats| - 1].at <= end
    && (forall i :: 0 < i < |beats| ==> beats[i - 1].at <= beats[i].at)
    && (forall i, j :: 0 <= i < j < |beats| ==> beats[i].stamp != beats[j].stamp)
  }

  /** The holder has beaten at least once per threshold. */
  predicate InTime(beats: seq<Beat>, threshold: real, end: real)
    requires beats != []
  {
    && end - beats[|beats| - 1].at <= threshold
    && forall i :: 0 < i < |beats| ==> beats[i].at - beats[i - 1].at <= threshold
  }

  predicate Beating(beats: seq<Beat>, threshold: real, end: real) {
    Ordered(beats, end) && InTime(beats, threshold, end)
  }

  /** The stamp in the file at a time: that of the last write until then. */
  function Stamp(beats: seq<Beat>, t: real): Option<real>
    decreases |beats|
  {
    if beats == [] then None
    else if beats[|beats| - 1].at <= t then Some(beats[|beats| - 1].stamp)
    else Stamp(beats[..|beats| - 1], t)
  }

  predicate InOrder(polls: seq<Poll>) {
    forall i, j :: 0 <= i < j < |polls| ==> polls[i].now <= polls[j].now
  }

  /**
   * Before the holder's first write a poll sees whatever there was, a dead holder's stamp
   * perhaps, but none of its own.
   */
  predicate SeesBefore(beats: seq<Beat>, p: Poll) {
    forall j :: 0 <= j < |beats| ==> p.stamp != Some(beats[j].stamp)
  }

  /** From its first write on a poll sees what is in the file, or nothing when its read is torn. */
  predicate Watches(beats: seq<Beat>, polls: seq<Poll>)
    requires beats != []
  {
    InOrder(polls) && forall i :: 0 <= i < |polls| ==>
      if polls[i].now < beats[0].at then SeesBefore(beats, polls[i])
      else polls[i].stamp == Stamp(beats, polls[i].now) || polls[i].stamp == None
  }

  /** No read is torn. */
  predicate WatchesWhole(beats: seq<Beat>, polls: seq<Poll>)
    requires beats != []
  {
    Watches(beats, polls)
    && forall i :: 0 <= i < |polls| && beats[0].at <= polls[i].now ==> polls[i].stamp == Stamp(beats, polls[i].now)
  }

  /** The write whose stamp is in the file, until the next one. */
  lemma {:induction false} WriteOf(beats: seq<Beat>, t: real) returns (k: nat)
    requires Stamp(beats, t).Some?
    ensures k < |beats| && beats[k].stamp == Stamp(beats, t).value && beats[k].at <= t
    ensures k + 1 < |beats| ==> t < beats[k + 1].at
    decreases |beats|
  {
    var n := |beats| - 1;
    if beats[n].at <= t {
      k := n;
    } else {
      k := WriteOf(beats[..n], t);
    }
  }

  /** A stamp of a holder that beats is in the file for no longer than the threshold. */
  lemma {:induction false} StampIsBrief(beats: seq<Beat>, threshold: real, end: real, s: real, t: real)
    requires Beating(beats, threshold, end) && s <= t <= end
    requires Stamp(beats, s) == Stamp(beats, t) && Stamp(beats, t).Some?
    ensures t - s <= threshold
  {
    var j := WriteOf(beats, s);
    var k := WriteOf(beats, t);
    assert j == k;
  }

  /** From the first write on there is a stamp. */
  lemma {:induction false} StampFromFirst(beats: seq<Beat>, t: real)
    requires beats != [] && beats[0].at <= t
    ensures Stamp(beats, t).Some?
    decreases |beats|
  {
    var n := |beats| - 1;
    if beats[n].at <= t {
    } else {
      StampFromFirst(beats[..n], t);
    }
  }

  /** All polls since the `i`th found no stamp: there was none yet, or their reads were torn. */
  predicate BlindSince(polls: seq<Poll>, i: nat) {
    i < |polls| && forall j :: i <= j < |polls| ==> polls[j].stamp == None
  }

  /** A poll that sees a stamp of the holder is no earlier than its first write. */
  lemma {:induction false} StampIsSince(beats: seq<Beat>, polls: seq<Poll>, i: nat, k: nat)
    requires beats != [] && Watches(beats, polls) && i < |polls| && k < |polls|
    requires polls[i].stamp == polls[k].stamp && polls[k].stamp.Some? && beats[0].at <= polls[k].now
    ensures beats[0].at <= polls[i].now && polls[i].stamp == Stamp(beats, polls[i].now)
  {
    var w := WriteOf(beats, polls[k].now);
    assert polls[i].stamp == Some(beats[w].stamp);
  }

  /**
   * From its first write on, a holder that beats is taken over exactly when all polls
   * found no stamp since one more than the threshold ago, whatever was seen of others.
   */
  lemma {:induction false} LiveHolderTakenOverExactly(beats: seq<Beat>, threshold: real, end: real, polls: seq<Poll>)
    requires threshold >= 0.0 && Beating(beats, threshold, end) && Watches(beats, polls)
    requires polls != [] && beats[0].at <= polls[|polls| - 1].now <= end
    ensures Answer(threshold, polls) <==>
              exists i :: 0 <= i < |polls| && BlindSince(polls, i) && polls[|polls| - 1].now - polls[i].now > threshold
  {
    var n := |polls| - 1;
    var first := RemembersRun(threshold, polls);
    FrozenIffRunIsOld(threshold, polls, first);
    if polls[n].stamp.Some? {
      StampIsSince(beats, polls, first, n);
      StampIsBrief(beats, threshold, end, polls[first].now, polls[n].now);
      assert forall i :: 0 <= i < |polls| ==> !BlindSince(polls, i);
    } else {
      assert BlindSince(polls, first);
      forall i | 0 <= i < |polls| && BlindSince(polls, i) ensures first <= i {
      }
    }
  }

  /**
   * So one that beats, and whose heartbeat is read whole, is never taken over from its first
   * write on, whatever the polling times.
   */
  lemma {:induction false} BeatingHolderIsLeft(beats: seq<Beat>, threshold: real, end: real, polls: seq<Poll>)
    requires threshold >= 0.0 && Beating(beats, threshold, end) && Watches(beats, polls)
    requires polls != [] && beats[0].at <= polls[|polls| - 1].now <= end
    requires polls[|polls| - 1].stamp == Stamp(beats, polls[|polls| - 1].now)
    ensures !Answer(threshold, polls)
  {
    LiveHolderTakenOverExactly(beats, threshold, end, polls);
    StampFromFirst(beats, polls[|polls| - 1].now);
  }

  /** A holder that beats every half minute is taken over by a waiter whose every read is torn. */
  lemma {:induction false} TornReadsTakeOver(beats: seq<Beat>, polls: seq<Poll>)
    requires beats == [Beat(1.0, 0.0), Beat(2.0, 30.0), Beat(3.0, 60.0), Beat(4.0, 90.0)]
    requires polls == [Poll(None, 1.0), Poll(None, 31.0), Poll(None, 61.0), Poll(None, 92.0)]
    ensures Beating(beats, LOCK_FROZEN_SECONDS, 100.0) && Watches(beats, polls)
    ensures Answer(LOCK_FROZEN_SECONDS, polls)
  {
    assert BlindSince(polls, 0);
    LiveHolderTakenOverExactly(beats, LOCK_FROZEN_SECONDS, 100.0, polls);
  }

  // ----- how often a holder must beat, and does -----

  const LOCK_FROZEN_SECONDS := 90.0

  /** The stamp of a write is in the file until the next one. */
  lemma {:induction false} StampUntilNext(beats: seq<Beat>, end: real, k: nat, t: real)
    requires Ordered(beats, end) && k < |beats| && beats[k].at <= t && (k + 1 < |beats| ==> t < beats[k + 1].at)
    ensures Stamp(beats, t) == Some(beats[k].stamp)
    decreases |beats|
  {
    var n := |beats| - 1;
    if k == n {
    } else {
      LaterThan(beats, end, k + 1, n);
      StampUntilNext(beats[..n], beats[n - 1].at, k, t);
    }
  }

  lemma {:induction false} LaterThan(beats: seq<Beat>, end: real, j: nat, k: nat)
    requires Ordered(beats, end) && j <= k < |beats|
    ensures beats[j].at <= beats[k].at
    decreases k
  {
    if j == k {
    } else {
      LaterThan(beats, end, j, k - 1);
    }
  }

  /** A pause longer than the threshold, seen at its start and near its end, is taken for death. */
  lemma {:induction false} PauseIsSeen(beats: seq<Beat>, threshold: real, end: real, k: nat, next: real)
    returns (polls: seq<Poll>)
    requires threshold >= 0.0 && Ordered(beats, end) && k < |beats| && next - beats[k].at > threshold
    requires if k + 1 < |beats| then next == beats[k + 1].at else next == end
    ensures polls != [] && WatchesWhole(beats, polls) && Answer(threshold, polls)
    ensures beats[0].at <= polls[|polls| - 1].now <= end
  {
    var t := (beats[k].at + threshold + next) / 2.0;
    var a, b := Poll(Some(beats[k].stamp), beats[k].at), Poll(Some(beats[k].stamp), t);
    polls := [a, b];
    LaterThan(beats, end, 0, k);
    StampUntilNext(beats, end, k, beats[k].at);
    StampUntilNext(beats, end, k, t);
    FrozenIffRunIsOld(threshold, polls, 0);
    if k + 1 < |beats| {
      LaterThan(beats, end, k + 1, |beats| - 1);
    }
  }

  /** A holder cannot be taken over by polls that read its heartbeat whole exactly when it beats in time. */
  lemma {:induction false} SafeExactlyInTime(beats: seq<Beat>, threshold: real, end: real)
    requires threshold >= 0.0 && Ordered(beats, end)
    ensures (forall polls: seq<Poll> ::
               polls != [] && WatchesWhole(beats, polls) && beats[0].at <= polls[|polls| - 1].now <= end
               ==> !Answer(threshold, polls))
       <==> InTime(beats, threshold, end)
  {
    if InTime(beats, threshold, end) {
      forall polls: seq<Poll> |
        polls != [] && WatchesWhole(beats, polls) && beats[0].at <= polls[|polls| - 1].now <= end
        ensures !Answer(threshold, polls)
      {
        BeatingHolderIsLeft(beats, threshold, end, polls);
      }
    } else if end - beats[|beats| - 1].at > threshold {
      var polls := PauseIsSeen(beats, threshold, end, |beats| - 1, end);
    } else {
      var i :| 0 < i < |beats| && beats[i].at - beats[i - 1].at > threshold;
      var polls := PauseIsSeen(beats, threshold, end, i - 1, beats[i].at);
    }
  }

  const BEAT_S := 30.0

  /** `run_with_heartbeat` of a command that starts at `start`: a write every BEAT_S while it runs, `n` of them. */
  function RunBeats(start: real, n: nat, stamp: real): (r: seq<Beat>)
    ensures |r| == n
    ensures forall i :: 0 <= i < n ==> r[i] == Beat(stamp + i as real, start + (i + 1) as real * BEAT_S)
  {
    seq(n, i requires 0 <= i < n => Beat(stamp + i as real, start + (i + 1) as real * BEAT_S))
  }

  /** Two attempts of `pixi_install` with a wait after the first, which fails `rest` seconds after its last write. */
  function Attempts(n: nat, rest: real, wait: real, m: nat): seq<Beat> {
    RunBeats(0.0, n, 0.0) + RunBeats(n as real * BEAT_S + rest + wait, m, n as real)
  }

  /**
   * Two attempts of at least BEAT_S each beat in time exactly when what is left of the
   * first, the wait and BEAT_S are within the threshold.
   */
  lemma {:induction false} AttemptsInTime(n: nat, rest: real, wait: real, m: nat)
    requires n > 0 && m > 0 && 0.0 <= rest < BEAT_S && wait >= 0.0
    ensures var beats := Attempts(n, rest, wait, m);
            var end := beats[|beats| - 1].at;
            && Ordered(beats, end)
            && (InTime(beats, LOCK_FROZEN_SECONDS, end) <==> rest + wait + BEAT_S <= LOCK_FROZEN_SECONDS)
  {
    var beats := Attempts(n, rest, wait, m);
    assert beats[n].at - beats[n - 1].at == rest + wait + BEAT_S;
    forall i | 0 < i < |beats| && i != n ensures beats[i].at - beats[i - 1].at == BEAT_S {
      AttemptsAt(n, rest, wait, m, i - 1);
      AttemptsAt(n, rest, wait, m, i);
    }
    forall i | 0 <= i < |beats| ensures beats[i].stamp == i as real {
      AttemptsAt(n, rest, wait, m, i);
    }
  }

  lemma {:induction false} AttemptsAt(n: nat, rest: real, wait: real, m: nat, i: nat)
    requires i < n + m
    ensures var beats := Attempts(n, rest, wait, m);
            && |beats| == n + m && beats[i].stamp == i as real
            && beats[i].at == (i + 1) as real * BEAT_S + (if i < n then 0.0 else rest + wait)
  {
  }

  /** Whenever the first attempt fails, the holder beats in time exactly for waits of half a minute at most. */
  lemma {:induction false} WaitsInTime(wait: real)
    requires wait >= 0.0
    ensures (forall n: nat, rest: real, m: nat ::
               n > 0 && m > 0 && 0.0 <= rest < BEAT_S ==> AttemptsBeat(n, rest, wait, m))
       <==> wait <= 30.0
  {
    if wait <= 30.0 {
      forall n: nat, rest: real, m: nat | n > 0 && m > 0 && 0.0 <= rest < BEAT_S
        ensures AttemptsBeat(n, rest, wait, m)
      {
        AttemptsInTime(n, rest, wait, m);
      }
    } else {
      var rest := if wait > 60.0 then 0.0 else (90.0 - wait) / 2.0;
      AttemptsInTime(1, rest, wait, 1);
      assert !AttemptsBeat(1, rest, wait, 1);
    }
  }

  predicate AttemptsBeat(n: nat, rest: real, wait: real, m: nat) {
    var beats := Attempts(n, rest, wait, m);
    beats != [] && InTime(beats, LOCK_FROZEN_SECONDS, beats[|beats| - 1].at)
  }

  /** What `pixi_install` waits after its first failed attempt, and after its second, is too long for some failure. */
  lemma {:induction false} InstallerPauses(attempt: nat)
    requires 1 <= attempt <= 2
    ensures var wait := 60.0 * attempt as real;
            var beats := Attempts(1, 15.0, wait, 1);
            && !InTime(beats, LOCK_FROZEN_SECONDS, beats[1].at)
            && exists polls: seq<Poll> ::
                 && polls != [] && WatchesWhole(beats, polls) && polls[|polls| - 1].now <= beats[1].at
                 && Answer(LOCK_FROZEN_SECONDS, polls)
  {
    var wait := 60.0 * attempt as real;
    AttemptsInTime(1, 15.0, wait, 1);
    var beats := Attempts(1, 15.0, wait, 1);
    var polls := PauseIsSeen(beats, LOCK_FROZEN_SECONDS, beats[1].at, 0, beats[1].at);
  }

  /** A holder whose stamp stays is taken over at the first look more than the threshold after one that saw it. */
  lemma {:induction false} SilentHolderIsTakenOver(threshold: real, polls: seq<Poll>, i: nat)
    requires threshold >= 0.0 && i < |polls|
    requires forall j, k :: 0 <= j < k < |polls| ==> polls[j].now <= polls[k].now
    requires forall j :: i <= j < |polls| ==> polls[j].stamp == polls[i].stamp
    requires polls[|polls| - 1].now - polls[i].now > threshold
    ensures Answer(threshold, polls)
  {
    var first := RemembersRun(threshold, polls);
    FrozenIffRunIsOld(threshold, polls, first);
    assert first <= i;
  }

  // ----- waiting for the lock -----

  /** One round of `acquire_lock`: the directory is made, or it was there and its heartbeat is read. */
  datatype Round = Made | Found(poll: Poll)

  /** What the last rounds found, since any that made the directory. */
  function Polls(rounds: seq<Round>): seq<Poll>
    decreases |rounds|
  {
    if rounds == [] || rounds[|rounds| - 1].Made? then []
    else Polls(rounds[..|rounds| - 1]) + [rounds[|rounds| - 1].poll]
  }

  /** Whether the wait ends in its last round. */
  predicate Acquires(threshold: real, rounds: seq<Round>)
    requires rounds != []
  {
    rounds[|rounds| - 1].Made? || Answer(threshold, Polls(rounds))
  }

  /** Whether the wait does not end in any of the first `n` rounds. */
  predicate StillWaits(threshold: real, rounds: seq<Round>, n: nat)
    requires n <= |rounds|
    decreases n
  {
    n == 0 || (StillWaits(threshold, rounds, n - 1) && !Acquires(threshold, rounds[..n]))
  }

  /**
   * The wait ends in the first round that makes the directory or finds the heartbeat
   * frozen, and only then, with a heartbeat of its own written; None if there is none.
   */
  method AcquireLock(threshold: real, rounds: seq<Round>, stamp: real) returns (n: Option<nat>, written: Option<real>)
    ensures n.Some? ==> n.value < |rounds| && Acquires(threshold, rounds[..n.value + 1])
    ensures StillWaits(threshold, rounds, if n.Some? then n.value else |rounds|)
    ensures written == if n.Some? then Some(stamp) else None
  {
    var observer := new Observer(threshold);
    for i := 0 to |rounds|
      invariant observer.threshold == threshold && fresh(observer)
      invariant observer.seen == Remembered(threshold, Polls(rounds[..i]))
      invariant StillWaits(threshold, rounds, i)
    {
      match rounds[i]
      case Made =>
        MadeNext(threshold, rounds, i);
        return Some(i), Some(stamp);
      case Found(poll) =>
        FoundNext(threshold, rounds, i);
        var frozen := observer.Frozen(poll.stamp, poll.now);
        if frozen {
          return Some(i), Some(stamp);
        }
    }
    return None, None;
  }

  lemma {:induction false} MadeNext(threshold: real, rounds: seq<Round>, i: nat)
    requires i < |rounds| && rounds[i].Made?
    ensures Acquires(threshold, rounds[..i + 1])
  {
    assert rounds[..i + 1][i] == rounds[i];
  }

  lemma {:induction false} FoundNext(threshold: real, rounds: seq<Round>, i: nat)
    requires i < |rounds| && rounds[i].Found?
    ensures var step := Observe(Remembered(threshold, Polls(rounds[..i])), threshold, rounds[i].poll);
            && Remembered(threshold, Polls(rounds[..i + 1])) == step.0
            && (Acquires(threshold, rounds[..i + 1]) <==> step.1)
  {
    var before, polls := Polls(rounds[..i]), Polls(rounds[..i + 1]);
    assert rounds[..i + 1][..i] == rounds[..i];
    assert polls == before + [rounds[i].poll];
    assert polls[..|polls| - 1] == before;
  }
}
