/** What a pass, a call and a look at a job on NRP come to, field by field. */
module NrpAnswers {
  import opened NrpJob
  import opened NrpPromises
  import opened NrpRuns
  import opened Optional

  // ----- a pass with nothing in between, by the stage it finds -----

  /** What a pass leaves of a job with a record. */
  function After(w: World, idle: bool, now: real): World
    requires w.record.Some?
  {
    Exec(w, Shown(w), Todo([], Turn), idle, now)
  }

  /**
   * A stop: the job is suspended unless it ended, marked as stopped, and goes on to its
   * outputs if it started and has some.
   */
  predicate Stopped(w: World, now: real, t: World)
    requires w.record.Some?
  {
    var r := w.record.value;
    t == w.(record := Some(
      Record(if r.output == Wanted && w.started then Outputs else Done, now, r.output, true,
             r.suspend || w.status != Ended)))
  }

  lemma {:induction false} StopStops(w: World, now: real)
    requires w.record.Some?
    ensures Stopped(w, now, ApplyAll(w, StopWrites(Shown(w)), now))
  {
    var job := Shown(w);
    var x := SetStage(if job.record.output == Wanted && job.started then Outputs else Done, true, false);
    if job.ended {
      assert StopWrites(job) == [x];
      StageComesTo(w, x, now);
    } else {
      assert StopWrites(job) == [Suspend] + [x];
      SuspendedStageComesTo(w, x, now);
    }
  }

  lemma {:induction false} StageComesTo(w: World, x: Write, now: real)
    requires w.record.Some? && x.SetStage? && !x.failed
    ensures var r := w.record.value;
            ApplyAll(w, [x], now)
            == w.(record := Some(Record(x.stage, now, r.output, r.stopped || x.stopped, r.suspend)))
  {
    ApplyOne(w, x, now);
  }

  lemma {:induction false} SuspendedStageComesTo(w: World, x: Write, now: real)
    requires w.record.Some? && x.SetStage? && !x.failed
    ensures var r := w.record.value;
            ApplyAll(w, [Suspend] + [x], now)
            == w.(record := Some(Record(x.stage, now, r.output, r.stopped || x.stopped, true)))
  {
    ApplyTwo(w, Suspend, x, now);
  }

  /** With its inputs there, or left placing, a job runs from now on, and KubeRay may start it. */
  lemma {:induction false} ResumedMayStart(w: World, idle: bool, now: real)
    requires w.record.Some?
    requires var r := w.record.value;
             r.stage == Placing || (r.stage == Inputs && w.inCopy == Succeeded)
    ensures var t := After(w, idle, now);
            && t == w.(record := Some(w.record.value.(stage := Running, since := now, suspend := false)))
            && (w.status != Ended && !w.started ==> WorldMay(t, Starts))
  {
    var job := Shown(w);
    ApplyOne(w, Resume, now);
    ExecLook(w, job, Turn, idle, now);
    if w.record.value.stage == Inputs {
      ExecLook(w, job, LookIn, idle, now);
    }
  }

  /** Without its inputs it waits, and is stopped when they cannot come. */
  lemma {:induction false} InputsComeTo(w: World, idle: bool, now: real)
    requires w.record.Some? && w.record.value.stage == Inputs && w.inCopy != Succeeded
    ensures var t := After(w, idle, now);
            if w.inCopy == Broken || w.inCopy == Missing then Stopped(w, now, t) else t == w
  {
    var job := Shown(w);
    ExecLook(w, job, Turn, idle, now);
    ExecLook(w, job, LookIn, idle, now);
    StopStops(w, now);
  }

  /** A running job is stopped when it takes more than half an hour to start, or leaves its GPUs idle. */
  lemma {:induction false} RunningComesTo(w: World, idle: bool, now: real)
    requires w.record.Some? && w.status != Ended && Rank(w.record.value.stage) == 1
    ensures var t := After(w, idle, now);
            if idle || (w.starting && now - w.record.value.since >= 1800.0) then Stopped(w, now, t) else t == w
  {
    var job := Shown(w);
    ExecLook(w, job, Turn, idle, now);
    ExecLook(w, job, LookIdle, idle, now);
    StopStops(w, now);
  }

  /**
   * In stage outputs the copy back is started, awaited, or ends the job: with its data
   * deleted, or marked as failed with all of it kept.
   */
  lemma {:induction false} OutputsComeTo(w: World, job: Job, idle: bool, now: real)
    requires w.record.Some?
    ensures var t := Exec(w, job, Todo([], LookOut(now)), idle, now);
            match w.outCopy
            case Suspended => t == w.(outCopy := if w.kubeRefuses then Suspended else Copying)
            case Copying => t == w
            case Succeeded =>
              var v := Staged(w, Done, false, now);
              t == if w.cleaned || job.record.output == Failed then v else v.(kept := false, cleaned := true)
            case _ => t == Staged(w, Done, true, now)
  {
    ExecLook(w, job, LookOut(now), idle, now);
    match w.outCopy
    case Suspended => OutputsWait(w, job, [StartCopyBack], idle, now);
    case Copying => OutputsWait(w, job, [], idle, now);
    case Succeeded => OutputsEnd(w, job, false, job.record.output, idle, now);
    case _ => OutputsEnd(w, job, true, Failed, idle, now);
  }

  lemma {:induction false} OutputsWait(w: World, job: Job, xs: seq<Write>, idle: bool, now: real)
    requires xs == [] || (xs == [StartCopyBack] && w.outCopy == Suspended)
    ensures Exec(w, job, Todo(xs, Nothing), idle, now)
         == if xs == [] || w.kubeRefuses then w else w.(outCopy := Copying)
  {
    ApplyOne(w, StartCopyBack, now);
  }

  /** A job's record in a new stage. */
  function Staged(w: World, stage: Stage, failed: bool, now: real): World
    requires w.record.Some?
  {
    var r := w.record.value;
    w.(record := Some(r.(stage := stage, since := now, output := if failed then Failed else r.output)))
  }

  lemma {:induction false} StageApplied(w: World, stage: Stage, failed: bool, now: real)
    requires w.record.Some?
    ensures Apply(w, SetStage(stage, false, failed), now) == Staged(w, stage, failed, now)
  {
  }

  lemma {:induction false} OutputsEnd(w: World, job: Job, failed: bool, left: Output, idle: bool, now: real)
    requires w.record.Some?
    ensures var v := Staged(w, Done, failed, now);
            Exec(w, job, Todo([SetStage(Done, false, failed)], LookDone(left, now, now)), idle, now)
            == if w.cleaned || left == Failed then v else v.(kept := false, cleaned := true)
  {
    var v := Staged(w, Done, failed, now);
    StageApplied(w, Done, failed, now);
    ExecWrite(w, job, SetStage(Done, false, failed), LookDone(left, now, now), idle, now);
    ExecDone(v, job, left, now, idle, now);
    DoneComesTo(v, left, now, now);
  }

  /** A job that is done loses its data, unless its copy back failed, and its record once it is old. */
  lemma {:induction false} DoneComesTo(w: World, output: Output, since: real, now: real)
    ensures var t := ApplyAll(w, DoneWrites(output, w.cleaned, since, now), now);
            if now - since >= 604800.0 then
              && !t.kept && (t.record == if w.nrpRefuses then w.record else None)
              && (!w.kubeRefuses ==> t.inCopy == Missing && t.outCopy == Missing)
            else t == if w.cleaned || output == Failed then w else w.(kept := false, cleaned := true)
  {
    var first := if !w.cleaned && output != Failed then [Clean] + [Remember] else [];
    var second := if now - since >= JOB_RECORD_S then DeleteWrites() else [];
    var v := ApplyAll(w, first, now);
    ApplyAppend(w, first, second, now);
    assert DoneWrites(output, w.cleaned, since, now) == first + second;
    CleanComesTo(w, output, now);
    assert v == if w.cleaned || output == Failed then w else w.(kept := false, cleaned := true);
    if now - since >= JOB_RECORD_S {
      DeleteComesTo(v, now);
    } else {
      assert ApplyAll(v, second, now) == v;
    }
  }

  lemma {:induction false} CleanComesTo(w: World, output: Output, now: real)
    ensures ApplyAll(w, if !w.cleaned && output != Failed then [Clean] + [Remember] else [], now)
         == if w.cleaned || output == Failed then w else w.(kept := false, cleaned := true)
  {
    ApplyTwo(w, Clean, Remember, now);
  }

  /** Without its record, unless NRP refuses, its copies, unless Kubernetes does, and its data. */
  function Deleted(w: World): World {
    w.(record := if w.nrpRefuses then w.record else None,
       inCopy := if w.kubeRefuses then w.inCopy else Missing,
       outCopy := if w.kubeRefuses then w.outCopy else Missing, cleaned := false, kept := false)
  }

  lemma {:induction false} DeleteComesTo(w: World, now: real)
    ensures ApplyAll(w, DeleteWrites(), now) == Deleted(w)
  {
    ApplyDelete(w, now);
  }

  /** What a person's call comes to with nothing in between. */
  function AfterCall(w: World, kind: Kind, now: real): World
    requires w.record.Some?
  {
    Exec(w, Shown(w), FirstTodo(kind, Shown(w)), false, now)
  }

  /** A stop is taken of every job that has neither ended nor been stopped. */
  lemma {:induction false} UserStopComesTo(w: World, now: real)
    requires w.record.Some?
    ensures var t := AfterCall(w, UserStop, now);
            if w.status == Ended || w.record.value.stopped then t == w else Stopped(w, now, t)
  {
    StopStops(w, now);
  }

  /** A delete is taken of a job in its last stage, or with none on record, and of no other. */
  lemma {:induction false} UserDeleteComesTo(w: World, now: real)
    requires w.record.Some?
    ensures var stage, t := w.record.value.stage, AfterCall(w, UserDelete, now);
            t == if stage == Done || stage == Unset then Deleted(w) else w
  {
    DeleteComesTo(w, now);
  }

  /** A running job that ended goes on to its outputs, or is done at once. */
  lemma {:induction false} EndComesTo(w: World, idle: bool, now: real)
    requires w.record.Some? && w.status == Ended && Rank(w.record.value.stage) == 1
    ensures var r := w.record.value;
            var v := Staged(w, if r.output == Wanted then Outputs else Done, false, now);
            After(w, idle, now) ==
              if r.output == Wanted then Exec(v, Shown(w), Todo([], LookOut(now)), idle, now)
              else ApplyAll(v, DoneWrites(r.output, w.cleaned, r.since, now), now)
  {
    var stage := if w.record.value.output == Wanted then Outputs else Done;
    StageApplied(w, stage, false, now);
    if w.record.value.output == Wanted {
      WantedEndComesTo(w, Shown(w), idle, now);
    } else {
      EndComesToDone(w, Shown(w), idle, now);
    }
  }

  // ----- suspension, over every run -----

  /** The last request of a step before `k` that suspended or resumed the job. */
  ghost predicate LastToSuspend(states: seq<State>, events: seq<Event>, m: nat, k: nat, x: Write)
    requires k <= |events| < |states|
  {
    && m < k && Makes(states[m], events[m], x) && (x == Suspend || x == Resume)
    && NoneSuspends(states, events, m + 1, k)
  }

  ghost predicate NoneSuspends(states: seq<State>, events: seq<Event>, m: nat, k: nat)
    requires k <= |events| < |states|
  {
    forall n :: m <= n < k ==> !Makes(states[n], events[n], Suspend) && !Makes(states[n], events[n], Resume)
  }

  lemma {:induction false} SuspendMoves(s: State, e: Event)
    requires Enabled(s, e) && s.world.record.Some? && Next(s, e).world.record.Some?
    ensures Next(s, e).world.record.value.suspend ==
              if Makes(s, e, Suspend) then true
              else if Makes(s, e, Resume) then false else s.world.record.value.suspend
  {
    if e.Steps? && Puts(s.flights[e.i]) {
      SuspendChanges(s.world, s.flights[e.i].todo.writes[0], e.now);
    }
  }

  lemma {:induction false} SuspendChanges(w: World, x: Write, now: real)
    requires w.record.Some? && Apply(w, x, now).record.Some?
    ensures Apply(w, x, now).record.value.suspend ==
              if x == Suspend then true else if x == Resume then false else w.record.value.suspend
  {
    match x
    case SetStage(_, _, _) =>
    case _ =>
  }

  /**
   * A job is suspended exactly when a stop suspended it and nothing has resumed it since,
   * or when it was so at the start and nothing has touched that.
   */
  lemma {:induction false} SuspendedExactly(states: seq<State>, events: seq<Event>, k: nat)
    requires IsRun(states, events) && k < |states| && states[k].world.record.Some?
    ensures states[0].world.record.Some?
    ensures states[k].world.record.value.suspend <==>
              || (exists m: nat :: LastToSuspend(states, events, m, k, Suspend))
              || (NoneSuspends(states, events, 0, k) && states[0].world.record.value.suspend)
    ensures (exists m: nat :: LastToSuspend(states, events, m, k, Resume)) ==> !states[k].world.record.value.suspend
    decreases k
  {
    if k == 0 {
    } else {
      var n: nat := k - 1;
      var s, e := states[n], events[n];
      StageMoves(s, e);
      SuspendedExactly(states, events, n);
      SuspendMoves(s, e);
      if Makes(s, e, Suspend) || Makes(s, e, Resume) {
        var x := if Makes(s, e, Suspend) then Suspend else Resume;
        assert LastToSuspend(states, events, n, k, x);
        forall m: nat, y | LastToSuspend(states, events, m, k, y) ensures m == n && y == x {
        }
      } else {
        forall m: nat, x ensures LastToSuspend(states, events, m, k, x) <==> LastToSuspend(states, events, m, n, x) {
          NoneMore(states, events, m, n, x);
        }
      }
    }
  }

  lemma {:induction false} NoneMore(states: seq<State>, events: seq<Event>, m: nat, n: nat, x: Write)
    requires n < |events| < |states|
    requires !Makes(states[n], events[n], Suspend) && !Makes(states[n], events[n], Resume)
    ensures LastToSuspend(states, events, m, n + 1, x) <==> LastToSuspend(states, events, m, n, x)
  {
    if LastToSuspend(states, events, m, n, x) {
      assert NoneSuspends(states, events, m + 1, n + 1);
    }
    if LastToSuspend(states, events, m, n + 1, x) {
      assert m != n;
      assert NoneSuspends(states, events, m + 1, n);
    }
  }

  // ----- what a client sees -----

  /**
   * A client sees a job as ended exactly in its last stage, and before that, outside of
   * the copies in and out, when it was stopped or ended with no outputs to wait for.
   */
  lemma {:induction false} ShownAsEndedExactly(states: seq<State>, events: seq<Event>, k: nat)
    requires IsRun(states, events) && k < |states| && states[k].world.record.Some?
    ensures var w, r := states[k].world, states[k].world.record.value;
            StatusSeen(r, w) == SeenTerminal <==>
              || r.stage == Done
              || (Rank(r.stage) == 1 && (if w.status == Ended && r.output == Wanted then r.stage == Unset
                                         else r.stopped || w.status == Ended))
  {
    Invariant(states, events, k);
  }

  /** And as running while its outputs are copied back, or while KubeRay has it run. */
  lemma {:induction false} ShownAsRunningExactly(states: seq<State>, events: seq<Event>, k: nat)
    requires IsRun(states, events) && k < |states| && states[k].world.record.Some?
    ensures var w, r := states[k].world, states[k].world.record.value;
            StatusSeen(r, w) == SeenRunning <==>
              || r.stage == Outputs || (r.stage == Running && w.status == Ended && r.output == Wanted)
              || ((r.stage == Placing || Rank(r.stage) == 1) && w.status == Busy && !r.stopped)
  {
    Invariant(states, events, k);
  }
}
