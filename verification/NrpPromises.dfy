/** When the promises about a job on NRP are kept, over every run of overlapping passes and calls, and when not. */
module NrpPromises {
  import opened Optional
  import opened NrpJob
  import opened NrpRuns

  // ----- the stage -----

  /** The stage of a job moves forward only, for as long as there is a record of it. */
  predicate Forward(a: World, b: World) {
    b.record.Some? ==> a.record.Some? && Rank(a.record.value.stage) <= Rank(b.record.value.stage)
  }

  /** Step `m`, after flight `i` read the job, was another's and the last before `k` to record a stage. */
  ghost predicate Overtook(states: seq<State>, events: seq<Event>, i: nat, m: nat, k: nat)
    requires k <= |events| < |states|
  {
    && m < k && i < |states[m].flights|
    && Records(states[m], events[m]) && events[m].i != i
    && forall n :: m < n < k ==> !Records(states[n], events[n])
  }

  /** Step `k` records a stage that comes before the one another recorded since the job was read. */
  ghost predicate OutOfDate(states: seq<State>, events: seq<Event>, k: nat)
    requires k < |events| < |states|
  {
    && states[k].world.record.Some? && Records(states[k], events[k])
    && exists m: nat ::
         && Overtook(states, events, events[k].i, m, k)
         && Rank(Recorded(states[k], events[k])) < Rank(Recorded(states[m], events[m]))
  }

  /** The stage recorded is the one a flight read or wrote last, unless another's step recorded one since. */
  lemma {:induction false} StageIsKnown(states: seq<State>, events: seq<Event>, i: nat, k: nat)
    requires IsRun(states, events) && k < |states| && i < |states[k].flights| && states[k].world.record.Some?
    ensures || states[k].world.record.value.stage == states[k].flights[i].stage
            || exists m: nat :: Overtook(states, events, i, m, k)
    decreases k
  {
    if k == 0 {
    } else {
      var n: nat := k - 1;
      var s, e := states[n], events[n];
      FlightMoves(s, e, i);
      StageMoves(s, e);
      if i < |s.flights| {
        if Records(s, e) {
          assert e.i != i ==> Overtook(states, events, i, n, k);
        } else {
          StageIsKnown(states, events, i, n);
          if m: nat :| Overtook(states, events, i, m, n) {
            assert Overtook(states, events, i, m, k);
          }
        }
      }
    }
  }

  /** The last stage recorded is the one that stands. */
  lemma {:induction false} LastRecordStands(states: seq<State>, events: seq<Event>, i: nat, m: nat, k: nat)
    requires IsRun(states, events) && k < |states| && Overtook(states, events, i, m, k)
    requires states[k].world.record.Some?
    ensures states[k].world.record.value.stage == Recorded(states[m], events[m])
    decreases k
  {
    StageMoves(states[k - 1], events[k - 1]);
    if k == m + 1 {
    } else {
      LastRecordStands(states, events, i, m, k - 1);
    }
  }

  /** A step takes the stage back exactly when it is out of date. */
  lemma {:induction false} GoesBackExactly(states: seq<State>, events: seq<Event>, k: nat)
    requires IsRun(states, events) && k < |events|
    ensures !Forward(states[k].world, states[k + 1].world) <==> OutOfDate(states, events, k)
  {
    var s, e := states[k], events[k];
    Invariant(states, events, k);
    StageMoves(s, e);
    if s.world.record.Some? && Records(s, e) {
      FirstOk(s, e.i);
      StageIsKnown(states, events, e.i, k);
      forall m: nat | Overtook(states, events, e.i, m, k)
        ensures s.world.record.value.stage == Recorded(states[m], events[m])
      {
        LastRecordStands(states, events, e.i, m, k);
      }
    }
  }

  lemma {:induction false} ForwardTo(states: seq<State>, events: seq<Event>, i: nat, j: nat)
    requires IsRun(states, events) && i <= j < |states|
    requires forall k :: 0 <= k < |events| ==> !OutOfDate(states, events, k)
    ensures Forward(states[i].world, states[j].world)
    decreases j
  {
    if i == j {
    } else {
      ForwardTo(states, events, i, j - 1);
      GoesBackExactly(states, events, j - 1);
    }
  }

  /** The stage only moves forward, on runs in which no step is out of date and on no others. */
  lemma {:induction false} StageMovesForward(states: seq<State>, events: seq<Event>)
    requires IsRun(states, events)
    ensures (forall i, j :: 0 <= i <= j < |states| ==> Forward(states[i].world, states[j].world))
       <==> (forall k :: 0 <= k < |events| ==> !OutOfDate(states, events, k))
  {
    if forall k :: 0 <= k < |events| ==> !OutOfDate(states, events, k) {
      forall i, j | 0 <= i <= j < |states| ensures Forward(states[i].world, states[j].world) {
        ForwardTo(states, events, i, j);
      }
    } else {
      var k :| 0 <= k < |events| && OutOfDate(states, events, k);
      GoesBackExactly(states, events, k);
      assert !Forward(states[k].world, states[k + 1].world);
    }
  }

  // ----- what a client sees -----

  /** A pass resumed the job, out of date, before step `k`. */
  ghost predicate Revived(states: seq<State>, events: seq<Event>, k: nat)
    requires k <= |events| < |states|
  {
    exists g: nat :: g < k && OutOfDate(states, events, g) && Makes(states[g], events[g], Resume)
  }

  /** A job that runs, and is marked as stopped or as one whose copy back failed, was revived. */
  lemma {:induction false} MarkedIsRevived(states: seq<State>, events: seq<Event>, k: nat)
    requires IsRun(states, events) && k < |states| && states[k].world.record.Some?
    requires var r := states[k].world.record.value;
             r.stage == Running && (r.stopped || r.output == Failed)
    ensures Revived(states, events, k)
    decreases k
  {
    if k == 0 {
      assert false;
    } else {
      var s, e := states[k - 1], events[k - 1];
      Invariant(states, events, k - 1);
      StageMoves(s, e);
      if Records(s, e) {
        FirstOk(s, e.i);
        assert Makes(s, e, Resume);
      }
      if s.world.record.value.stage == Running {
        MarkedIsRevived(states, events, k - 1);
      } else {
        assert Late(s.world.record.value.stage);
        GoesBackExactly(states, events, k - 1);
      }
    }
  }

  lemma {:induction false} RevivedIsOver(states: seq<State>, events: seq<Event>, k: nat)
    requires IsRun(states, events) && k < |states| && Revived(states, events, k)
    ensures Over(states[k].world)
  {
    var g: nat :| g < k && OutOfDate(states, events, g) && Makes(states[g], events[g], Resume);
    BackFromOver(states, events, g);
    RunGrows(states, events, g, k);
  }

  /** A job is resumed out of date only after its end. */
  lemma {:induction false} BackFromOver(states: seq<State>, events: seq<Event>, g: nat)
    requires IsRun(states, events) && g < |events| && OutOfDate(states, events, g)
             && Makes(states[g], events[g], Resume)
    ensures Over(states[g].world)
  {
    var m: nat :|
      && Overtook(states, events, events[g].i, m, g)
      && Rank(Recorded(states[g], events[g])) < Rank(Recorded(states[m], events[m]));
    LastRecordStands(states, events, events[g].i, m, g);
    assert Late(states[g].world.record.value.stage);
    Invariant(states, events, g);
  }

  /**
   * A client sees a terminal status of a job with outputs before its last stage
   * exactly when the job was revived and runs, and did not end with outputs to wait for;
   * and only in its last stage may it be deleted.
   */
  lemma {:induction false} NoEarlyEnd(states: seq<State>, events: seq<Event>, k: nat)
    requires IsRun(states, events) && k < |states|
    requires states[k].world.record.Some? && states[k].world.record.value.output != NoOutput
    ensures var w, r := states[k].world, states[k].world.record.value;
            && (StatusSeen(r, w) == SeenTerminal && r.stage != Done <==>
                  r.stage == Running && Revived(states, events, k) && !(w.status == Ended && r.output == Wanted))
            && (MayDelete(r) ==> r.stage == Done)
  {
    var w, r := states[k].world, states[k].world.record.value;
    Invariant(states, events, k);
    if Revived(states, events, k) {
      RevivedIsOver(states, events, k);
    }
    if r.stage == Running && (r.stopped || r.output == Failed) {
      MarkedIsRevived(states, events, k);
    }
  }

  /**
   * A job with outputs is deleted in another stage exactly when another's step recorded that
   * stage since it was read.
   */
  lemma {:induction false} DeletedEarlyExactly(states: seq<State>, events: seq<Event>, k: nat)
    requires IsRun(states, events) && k < |events| && Makes(states[k], events[k], DeleteRecord)
    requires states[k].world.record.Some? && states[k].world.record.value.output != NoOutput
    ensures states[k].world.record.value.stage != Done <==>
              exists m: nat :: Overtook(states, events, events[k].i, m, k) && Recorded(states[m], events[m]) != Done
  {
    Invariant(states, events, k);
    FirstOk(states[k], events[k].i);
    StageIsKnown(states, events, events[k].i, k);
    forall m: nat | Overtook(states, events, events[k].i, m, k)
      ensures states[k].world.record.value.stage == Recorded(states[m], events[m])
    {
      LastRecordStands(states, events, events[k].i, m, k);
    }
  }

  // ----- outputs -----

  /** A started job's outputs were deleted, with its record there, and none were ever copied back. */
  predicate Lost(w: World) {
    w.record.Some? && w.record.value.output != NoOutput && w.started && !w.kept && !w.copiedBack
  }

  /** Step `d` records as done a job that its flight read at step `i`, before the job started. */
  ghost predicate SettledBy(states: seq<State>, events: seq<Event>, i: nat, d: nat)
    requires |events| < |states| && i < d < |events|
  {
    && events[i].Reads? && !states[i].world.started
    && events[d].Steps? && events[d].i == |states[i].flights| && events[d].i < |states[d].flights|
    && Puts(states[d].flights[events[d].i]) && Settles(states[d].flights[events[d].i].todo.writes[0])
  }

  /** Each flight began with a read, of which it keeps what it saw. */
  lemma {:induction false} ReadOf(states: seq<State>, events: seq<Event>, f: nat, k: nat) returns (i: nat)
    requires IsRun(states, events) && k < |states| && f < |states[k].flights|
    ensures i < k && events[i].Reads? && |states[i].flights| == f && states[i].world.record.Some?
    ensures states[k].flights[f].job == Shown(states[i].world)
    decreases k
  {
    FlightMoves(states[k - 1], events[k - 1], f);
    if f < |states[k - 1].flights| {
      i := ReadOf(states, events, f, k - 1);
    } else {
      i := k - 1;
    }
  }

  lemma {:induction false} SettledWasBy(states: seq<State>, events: seq<Event>, k: nat) returns (i: nat, d: nat)
    requires IsRun(states, events) && k < |states| && states[k].settled
    ensures i < d < k && SettledBy(states, events, i, d)
    decreases k
  {
    DataMoves(states[k - 1], events[k - 1]);
    if states[k - 1].settled {
      i, d := SettledWasBy(states, events, k - 1);
    } else {
      d := k - 1;
      i := ReadOf(states, events, events[d].i, d);
    }
  }

  /** The start of a job that had not started. */
  lemma {:induction false} StartOf(states: seq<State>, events: seq<Event>, i: nat, c: nat) returns (a: nat)
    requires IsRun(states, events) && i <= c < |states| && !states[i].world.started && states[c].world.started
    ensures i <= a < c && events[a] == Starts
    decreases c
  {
    DataMoves(states[c - 1], events[c - 1]);
    if states[c - 1].world.started {
      a := StartOf(states, events, i, c - 1);
    } else {
      a := c - 1;
    }
  }

  /** The request that deleted what a started job wrote. */
  lemma {:induction false} CleanOf(states: seq<State>, events: seq<Event>, k: nat) returns (c: nat)
    requires IsRun(states, events) && k < |states| && states[k].world.started && !states[k].world.kept
    ensures c < k && Makes(states[c], events[c], Clean) && states[c].world.started
    decreases k
  {
    DataMoves(states[k - 1], events[k - 1]);
    if states[k - 1].world.started && !states[k - 1].world.kept {
      c := CleanOf(states, events, k - 1);
    } else {
      c := k - 1;
    }
  }

  lemma {:induction false} StaysDeleted(states: seq<State>, events: seq<Event>, c: nat, k: nat)
    requires IsRun(states, events) && c <= k < |states| && states[c].world.started && !states[c].world.kept
    ensures states[k].world.started && !states[k].world.kept
    decreases k
  {
    if c == k {
    } else {
      StaysDeleted(states, events, c, k - 1);
      DataMoves(states[k - 1], events[k - 1]);
    }
  }

  /**
   * A stop reads the job at step `i` and settles it at `d`; it starts at `a`, after that
   * read; its data is deleted at `c`.
   */
  ghost predicate StartSlipsIn(states: seq<State>, events: seq<Event>, i: nat, d: nat, a: nat, c: nat)
    requires c < |events| < |states|
  {
    i < d < c && i <= a < c && SettledBy(states, events, i, d) && events[a] == Starts
        && Makes(states[c], events[c], Clean)
  }

  /** A delete's DELETE of the record is refused at step `g`, and it deletes the data of a job that started at `c`. */
  ghost predicate DeleteGoesOn(states: seq<State>, events: seq<Event>, g: nat, c: nat)
    requires c < |events| < |states|
  {
    && g < c && Makes(states[g], events[g], DeleteRecord) && states[g].world.nrpRefuses
    && Makes(states[c], events[c], Clean) && events[c].i == events[g].i && states[c].world.started
  }

  /** A flight whose DELETE was refused made it. */
  lemma {:induction false} RefusalOf(states: seq<State>, events: seq<Event>, f: nat, k: nat) returns (g: nat)
    requires IsRun(states, events) && k < |states| && f < |states[k].flights| && states[k].flights[f].refused
    ensures g < k && Makes(states[g], events[g], DeleteRecord) && states[g].world.nrpRefuses && events[g].i == f
    decreases k
  {
    RefusalMoves(states[k - 1], events[k - 1], f);
    if f < |states[k - 1].flights| && states[k - 1].flights[f].refused {
      g := RefusalOf(states, events, f, k - 1);
    } else {
      g := k - 1;
    }
  }

  /** A clean that may not be made comes after a refused DELETE. */
  lemma {:induction false} CleanIsAllowed(states: seq<State>, events: seq<Event>, c: nat)
    requires IsRun(states, events) && c < |events| && Makes(states[c], events[c], Clean)
    ensures MayClean(states[c]) || states[c].flights[events[c].i].refused
  {
    Invariant(states, events, c);
    FirstOk(states[c], events[c].i);
  }

  /** A job that has started loses its outputs to a clean for one of two reasons. */
  lemma {:induction false} LostBecause(states: seq<State>, events: seq<Event>, c: nat)
    requires IsRun(states, events) && c < |events| && Makes(states[c], events[c], Clean) && states[c].world.started
    requires states[c].world.record.Some? && states[c].world.record.value.output != NoOutput
    requires !states[c].world.copiedBack
    ensures LosesOutputs(states, events, c)
  {
    CleanIsAllowed(states, events, c);
    if states[c].flights[events[c].i].refused {
      var g := RefusalOf(states, events, events[c].i, c);
      assert DeleteGoesOn(states, events, g, c);
    } else {
      var i, d := SettledWasBy(states, events, c);
      var a := StartOf(states, events, i, c);
      assert StartSlipsIn(states, events, i, d, a, c);
    }
  }

  /** Step `c` deletes what a job wrote that started behind a stop's back, or whose record was to go before. */
  ghost predicate LosesOutputs(states: seq<State>, events: seq<Event>, c: nat)
    requires c < |events| < |states|
  {
    || (exists i: nat, d: nat, a: nat :: StartSlipsIn(states, events, i, d, a, c))
    || (exists g: nat :: DeleteGoesOn(states, events, g, c))
  }

  /** The step that lost a job's outputs. */
  lemma {:induction false} LossOf(states: seq<State>, events: seq<Event>, k: nat) returns (c: nat)
    requires IsRun(states, events) && k < |states| && Lost(states[k].world)
    ensures c < k && LosesOutputs(states, events, c)
  {
    c := CleanOf(states, events, k);
    RunGrows(states, events, c, k);
    LostBecause(states, events, c);
  }

  /** Both delete what a started job wrote. */
  lemma {:induction false} LosesStarted(states: seq<State>, events: seq<Event>, c: nat)
    requires IsRun(states, events) && c < |events| && LosesOutputs(states, events, c)
    ensures states[c + 1].world.started && !states[c + 1].world.kept
  {
    if i: nat, d: nat, a: nat :| StartSlipsIn(states, events, i, d, a, c) {
      StartedSince(states, events, a, c);
    }
    DataMoves(states[c], events[c]);
  }

  lemma {:induction false} StartedSince(states: seq<State>, events: seq<Event>, a: nat, c: nat)
    requires IsRun(states, events) && a < c < |events| && events[a] == Starts
    ensures states[c].world.started
  {
    DataMoves(states[a], events[a]);
    RunGrows(states, events, a + 1, c);
  }

  /**
   * The outputs of a job with a record are lost exactly when none were copied back and
   * its data was deleted either because a stop had read it before it started, and then
   * recorded it as done, or by a delete whose request to delete the record was refused.
   */
  lemma {:induction false} OutputsLostExactly(states: seq<State>, events: seq<Event>, k: nat)
    requires IsRun(states, events) && k < |states|
    requires states[k].world.record.Some? && states[k].world.record.value.output != NoOutput
    ensures Lost(states[k].world) <==>
              && !states[k].world.copiedBack
              && exists c: nat :: c < k && LosesOutputs(states, events, c)
  {
    if Lost(states[k].world) {
      var c := LossOf(states, events, k);
    }
    if c: nat :| c < k && LosesOutputs(states, events, c) {
      LosesStarted(states, events, c);
      StaysDeleted(states, events, c + 1, k);
    }
  }

  /** So they are safe while no job starts behind a stop's back, and no delete goes on from a refusal. */
  lemma {:induction false} OutputsAreSafe(states: seq<State>, events: seq<Event>, k: nat)
    requires IsRun(states, events) && k < |states|
    requires states[k].world.record.Some? && states[k].world.record.value.output != NoOutput
    requires states[k].world.started && !states[k].world.kept
    requires forall i: nat, d: nat :: i < d < k && SettledBy(states, events, i, d) ==>
                              forall a :: i <= a < k ==> events[a] != Starts
    requires forall g: nat, c: nat :: g < c < k ==> !DeleteGoesOn(states, events, g, c)
    ensures states[k].world.copiedBack
  {
    OutputsLostExactly(states, events, k);
  }

  // ----- how long a record is kept -----

  /**
   * A record that goes was deleted by its user, or outlived the first time its job
   * was recorded as done by JOB_RECORD_S, or goes with the end of a job that ran
   * that long with nothing to copy back.
   */
  lemma {:induction false} RecordOutlivesDone(states: seq<State>, events: seq<Event>, k: nat)
    requires IsRun(states, events) && k < |events|
    requires states[k].world.record.Some? && states[k + 1].world.record.None?
    ensures events[k].Steps? && events[k].i < |states[k].flights|
    ensures var f := states[k].flights[events[k].i];
            || f.kind != Pass
            || (states[k].firstDone.Some? && events[k].now - states[k].firstDone.value >= JOB_RECORD_S)
            || (EndsAtOnce(f.job) && events[k].now - f.job.record.since >= JOB_RECORD_S)
  {
    Invariant(states, events, k);
    StageMoves(states[k], events[k]);
    FirstOk(states[k], events[k].i);
  }

  /**
   * A pass with nothing in between that finds a running job ended deletes its record
   * at once exactly when the job has no outputs to wait for and has been running for
   * JOB_RECORD_S, and NRP takes the request: the record is then not kept for that time
   * from the job's end.
   */
  lemma {:induction false} RecordGoesWithItsEnd(w: World, idle: bool, now: real)
    requires w.record.Some? && Rank(w.record.value.stage) == 1 && w.status == Ended
    ensures Exec(w, Shown(w), Todo([], Turn), idle, now).record.None? <==>
              EndsAtOnce(Shown(w)) && now - w.record.value.since >= JOB_RECORD_S && !w.nrpRefuses
  {
    if w.record.value.output == Wanted {
      WantedEndKeeps(w, Shown(w), idle, now);
    } else {
      EndDeletes(w, Shown(w), idle, now);
    }
  }

  lemma {:induction false} WantedEndKeeps(w: World, job: Job, idle: bool, now: real)
    requires w.record.Some? && Rank(job.record.stage) == 1 && job.ended && job.record.output == Wanted
    ensures Exec(w, job, Todo([], Turn), idle, now).record.Some?
  {
    WantedEndComesTo(w, job, idle, now);
    OutputsKeepRecord(Apply(w, SetStage(Outputs, false, false), now), job, idle, now);
  }

  lemma {:induction false} EndDeletes(w: World, job: Job, idle: bool, now: real)
    requires w.record.Some? && EndsAtOnce(job)
    ensures Exec(w, job, Todo([], Turn), idle, now).record.None? <==>
              now - job.record.since >= JOB_RECORD_S && !w.nrpRefuses
  {
    var v := Apply(w, SetStage(Done, false, false), now);
    EndComesToDone(w, job, idle, now);
    assert v.record.Some? && v.nrpRefuses == w.nrpRefuses;
    DoneDeletes(v, job.record.output, job.record.since, now);
  }

  lemma {:induction false} WantedEndComesTo(w: World, job: Job, idle: bool, now: real)
    requires Rank(job.record.stage) == 1 && job.ended && job.record.output == Wanted
    ensures Exec(w, job, Todo([], Turn), idle, now)
         == Exec(Apply(w, SetStage(Outputs, false, false), now), job, Todo([], LookOut(now)), idle, now)
  {
    ExecLook(w, job, Turn, idle, now);
    ExecWrite(w, job, SetStage(Outputs, false, false), LookOut(now), idle, now);
  }

  lemma {:induction false} EndComesToDone(w: World, job: Job, idle: bool, now: real)
    requires EndsAtOnce(job)
    ensures var v := Apply(w, SetStage(Done, false, false), now);
            Exec(w, job, Todo([], Turn), idle, now)
            == ApplyAll(v, DoneWrites(job.record.output, v.cleaned, job.record.since, now), now)
  {
    var r := job.record;
    ExecLook(w, job, Turn, idle, now);
    ExecWrite(w, job, SetStage(Done, false, false), LookDone(r.output, r.since, now), idle, now);
    ExecDone(Apply(w, SetStage(Done, false, false), now), job, r.output, r.since, idle, now);
  }

  /** A pass that waits for a copy back, or ends one, keeps the record. */
  lemma {:induction false} OutputsKeepRecord(w: World, job: Job, idle: bool, now: real)
    requires w.record.Some?
    ensures Exec(w, job, Todo([], LookOut(now)), idle, now).record.Some?
  {
    ExecLook(w, job, LookOut(now), idle, now);
    match w.outCopy
    case Suspended => WaitKeepsRecord(w, job, [StartCopyBack], idle, now);
    case Copying => WaitKeepsRecord(w, job, [], idle, now);
    case Succeeded => EndKeepsRecord(w, job, false, job.record.output, idle, now);
    case _ => EndKeepsRecord(w, job, true, Failed, idle, now);
  }

  lemma {:induction false} WaitKeepsRecord(w: World, job: Job, xs: seq<Write>, idle: bool, now: real)
    requires w.record.Some? && (xs == [] || xs == [StartCopyBack])
    ensures Exec(w, job, Todo(xs, Nothing), idle, now).record.Some?
  {
    ApplyOne(w, StartCopyBack, now);
  }

  lemma {:induction false} EndKeepsRecord(w: World, job: Job, failed: bool, left: Output, idle: bool, now: real)
    requires w.record.Some?
    ensures Exec(w, job, Todo([SetStage(Done, false, failed)], LookDone(left, now, now)), idle, now).record.Some?
  {
    var v := Apply(w, SetStage(Done, false, failed), now);
    ExecWrite(w, job, SetStage(Done, false, failed), LookDone(left, now, now), idle, now);
    ExecDone(v, job, left, now, idle, now);
    DoneDeletes(v, left, now, now);
  }

  /** A pass over a job that is done deletes its record exactly when that is old enough and NRP takes the request. */
  lemma {:induction false} DoneDeletes(w: World, output: Output, since: real, now: real)
    requires w.record.Some?
    ensures ApplyAll(w, DoneWrites(output, w.cleaned, since, now), now).record.None? <==>
              now - since >= JOB_RECORD_S && !w.nrpRefuses
  {
    var first := if !w.cleaned && output != Failed then [Clean] + [Remember] else [];
    var second := if now - since >= JOB_RECORD_S then DeleteWrites() else [];
    var v := ApplyAll(w, first, now);
    CleanKeepsRecord(w, now);
    ApplyAppend(w, first, second, now);
    assert DoneWrites(output, w.cleaned, since, now) == first + second;
    if now - since >= JOB_RECORD_S {
      DeleteRemoves(v, now);
    } else {
      assert ApplyAll(v, second, now) == v;
    }
  }

  lemma {:induction false} CleanKeepsRecord(w: World, now: real)
    ensures var v := ApplyAll(w, [Clean] + [Remember], now);
            v.record == w.record && v.nrpRefuses == w.nrpRefuses
  {
    ApplyTwo(w, Clean, Remember, now);
  }
}
