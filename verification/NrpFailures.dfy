/** Runs over one job on NRP on which its promises fail. */
module NrpFailures {
  import opened NrpJob
  import opened NrpPromises
  import opened NrpRuns
  import opened Optional

  /** A job with outputs, created in a stage: its inputs are there, and its copy back is suspended. */
  function FreshState(stage: Stage): State {
    var r := Record(stage, 0.0, Wanted, false, stage != Running);
    var w := World(Some(r), NoStatus, false, true, Succeeded, Suspended, false, true, false, false, false);
    State(w, [], 0.0, false, None)
  }

  /** A run and what it has come to. */
  datatype Run = Run(states: seq<State>, events: seq<Event>)

  ghost predicate RunTo(r: Run, s: State) {
    IsRun(r.states, r.events) && r.states[|r.events|] == s
  }

  lemma {:induction false} Extend(r: Run, s: State, e: Event) returns (q: Run, t: State)
    requires RunTo(r, s) && Enabled(s, e)
    ensures RunTo(q, t) && t == Next(s, e) && r.states <= q.states
  {
    t := Next(s, e);
    q := Run(r.states + [t], r.events + [e]);
    forall k {:trigger q.events[k]} | 0 <= k < |q.events|
      ensures Enabled(q.states[k], q.events[k]) && q.states[k + 1] == Next(q.states[k], q.events[k])
    {
      assert k < |r.events| ==> r.events[k] == q.events[k];
    }
  }

  /** Nothing but flight `i`, and the world, is as it was not. */
  predicate OthersStay(s: State, t: State, i: nat) {
    && |t.flights| == |s.flights| && t.clock == s.clock
    && forall j :: 0 <= j < |s.flights| && j != i ==> t.flights[j] == s.flights[j]
  }

  /** A flight's next step, at once. */
  lemma {:induction false} OneStep(s: State, i: nat)
    requires i < |s.flights| && s.flights[i].todo != Todo([], Nothing)
    ensures OthersStay(s, Next(s, Steps(i, false, s.clock)), i)
  {
  }

  /** A flight runs to its end with nothing in between. */
  lemma {:induction false} RunAlone(r: Run, s: State, i: nat) returns (q: Run, t: State)
    requires RunTo(r, s) && i < |s.flights|
    ensures RunTo(q, t) && r.states <= q.states && OthersStay(s, t, i) && t == Finish(s, i, false, s.clock)
    decreases Height(s.flights[i].todo.look), |s.flights[i].todo.writes|
  {
    if s.flights[i].todo == Todo([], Nothing) {
      q, t := r, s;
    } else {
      OneStep(s, i);
      q, t := Extend(r, s, Steps(i, false, s.clock));
      StepShortens(s, i);
      q, t := RunAlone(q, t, i);
    }
  }

  lemma {:induction false} StepShortens(s: State, i: nat)
    requires i < |s.flights| && s.flights[i].todo != Todo([], Nothing)
    ensures var a, b := s.flights[i].todo, Next(s, Steps(i, false, s.clock)).flights[i].todo;
            || Height(b.look) < Height(a.look)
            || (Height(b.look) == Height(a.look) && |b.writes| < |a.writes|)
  {
  }

  /** What is left of a flight comes to what the gateway's methods do. */
  lemma {:induction false} Complete(r: Run, s: State, i: nat) returns (q: Run, t: State)
    requires RunTo(r, s) && i < |s.flights|
    ensures RunTo(q, t) && r.states <= q.states && OthersStay(s, t, i)
    ensures t.world == Exec(s.world, s.flights[i].job, s.flights[i].todo, false, s.clock)
  {
    q, t := RunAlone(r, s, i);
    FinishIsExec(s, i, false, s.clock);
  }

  /** A pass or call reads the job. */
  lemma {:induction false} Read(r: Run, s: State, kind: Kind) returns (q: Run, t: State)
    requires RunTo(r, s) && s.world.record.Some?
    ensures RunTo(q, t) && r.states <= q.states && t.world == s.world && t.clock == s.clock
    ensures |t.flights| == |s.flights| + 1 && forall j :: 0 <= j < |s.flights| ==> t.flights[j] == s.flights[j]
    ensures var f := t.flights[|s.flights|];
            f.job == Shown(s.world) && f.todo == FirstTodo(kind, Shown(s.world))
  {
    q, t := Extend(r, s, Reads(kind));
  }

  /** A pass or call reads the job and runs to its end. */
  lemma {:induction false} Whole(r: Run, s: State, kind: Kind) returns (q: Run, t: State)
    requires RunTo(r, s) && s.world.record.Some?
    ensures RunTo(q, t) && t.clock == s.clock
    ensures t.world == Exec(s.world, Shown(s.world), FirstTodo(kind, Shown(s.world)), false, s.clock)
  {
    q, t := Read(r, s, kind);
    q, t := Complete(q, t, |s.flights|);
  }

  /** What a stop of a job not started, and not ended, comes to. */
  lemma {:induction false} StopComesTo(w: World, job: Job)
    requires !job.ended && !job.started && !job.record.stopped
    ensures Exec(w, job, FirstTodo(UserStop, job), false, 0.0)
         == Apply(Apply(w, Suspend, 0.0), SetStage(Done, true, false), 0.0)
  {
    ApplyTwo(w, Suspend, SetStage(Done, true, false), 0.0);
  }

  /** The reaper lists a job whose inputs are there, its user stops it, and the pass resumes it. */
  lemma {:induction false} StoppedJobResumes() returns (r: Run, stopped: State, resumed: State)
    ensures RunTo(r, resumed) && stopped in r.states
    ensures stopped.world.record.Some? && stopped.world.record.value.stage == Done
    ensures resumed.world.record.Some? && resumed.world.record.value.stage == Running
    ensures StatusSeen(resumed.world.record.value, resumed.world) == SeenTerminal
  {
    var s := FreshState(Inputs);
    r, s := Read(Run([s], []), s, Pass);
    var job := s.flights[0].job;
    StopComesTo(s.world, Shown(s.world));
    r, s := Read(r, s, UserStop);
    r, stopped := Complete(r, s, 1);
    assert r.states[|r.events|] == stopped;
    r, resumed := Complete(r, stopped, 0);
    ResumeComesTo(stopped.world, job);
  }

  lemma {:induction false} ResumeComesTo(w: World, job: Job)
    requires job.record.stage == Inputs && w.inCopy == Succeeded
    ensures Exec(w, job, Todo([], Turn), false, 0.0) == Apply(w, Resume, 0.0)
  {
    ApplyOne(w, Resume, 0.0);
    assert Exec(w, job, Todo([], LookIn), false, 0.0) == Apply(w, Resume, 0.0);
  }

  /**
   * A user stops a job that is about to start; it starts before it is suspended, and the
   * next pass deletes what it wrote.
   */
  lemma {:induction false} LateStartLoses() returns (r: Run, s: State)
    ensures RunTo(r, s) && Lost(s.world)
  {
    s := FreshState(Running);
    r, s := Read(Run([s], []), s, UserStop);
    var job := s.flights[0].job;
    r, s := Extend(r, s, Starts);
    StopComesTo(s.world, job);
    r, s := Complete(r, s, 0);
    CleanComesTo(s.world, Shown(s.world));
    r, s := Whole(r, s, Pass);
  }

  lemma {:induction false} CleanComesTo(w: World, job: Job)
    requires job.record == Record(Done, 0.0, Wanted, true, true) && !w.cleaned
    ensures Exec(w, job, Todo([], Turn), false, 0.0) == w.(kept := false, cleaned := true)
  {
    ApplyTwo(w, Clean, Remember, 0.0);
    assert DoneWrites(Wanted, false, 0.0, 0.0) == [Clean] + [Remember];
    assert Exec(w, job, Todo([], LookDone(Wanted, 0.0, 0.0)), false, 0.0) == w.(kept := false, cleaned := true);
  }

  /** A job ends, and its copy back fails. */
  lemma {:induction false} CopyBackFails() returns (r: Run, s: State)
    ensures RunTo(r, s) && s.clock == 0.0 && s.world.record == Some(Record(Done, 0.0, Failed, false, false))
    ensures s.world.started && s.world.kept && !s.world.copiedBack
  {
    s := FreshState(Running);
    var w := s.world.(started := true, status := Ended);
    r, s := Extend(Run([s], []), s, Starts);
    r, s := Extend(r, s, Reports(Ended));
    assert s.world == w && s.clock == 0.0;
    r, s := CopyBackStarts(r, s);
    r, s := Extend(r, s, CopiesOut(Broken));
    FailureComesTo(s.world, Shown(s.world));
    r, s := Whole(r, s, Pass);
  }

  lemma {:induction false} CopyBackStarts(q: Run, s: State) returns (r: Run, t: State)
    requires RunTo(q, s) && s.clock == 0.0 && s.world == FreshState(Running).world.(started := true, status := Ended)
    ensures RunTo(r, t) && t.clock == 0.0
    ensures t.world == s.world.(record := Some(Record(Outputs, 0.0, Wanted, false, false)), outCopy := Copying)
  {
    EndComesTo(s.world, Shown(s.world));
    r, t := Whole(q, s, Pass);
  }

  lemma {:induction false} EndComesTo(w: World, job: Job)
    requires job.record.stage == Running && job.record.output == Wanted && job.ended && w.outCopy == Suspended
    requires !w.kubeRefuses
    ensures Exec(w, job, Todo([], Turn), false, 0.0)
         == Apply(w, SetStage(Outputs, false, false), 0.0).(outCopy := Copying)
  {
    var v := Apply(w, SetStage(Outputs, false, false), 0.0);
    ExecWrite(w, job, SetStage(Outputs, false, false), LookOut(0.0), false, 0.0);
    ApplyOne(v, StartCopyBack, 0.0);
    assert Exec(v, job, Todo([], LookOut(0.0)), false, 0.0) == v.(outCopy := Copying);
  }

  lemma {:induction false} FailureComesTo(w: World, job: Job)
    requires job.record.stage == Outputs && w.outCopy == Broken
    ensures Exec(w, job, Todo([], Turn), false, 0.0) == Apply(w, SetStage(Done, false, true), 0.0)
  {
    var v := Apply(w, SetStage(Done, false, true), 0.0);
    ExecWrite(w, job, SetStage(Done, false, true), LookDone(Failed, 0.0, 0.0), false, 0.0);
    assert Exec(v, job, Todo([], LookDone(Failed, 0.0, 0.0)), false, 0.0) == v;
    assert Exec(w, job, Todo([], LookOut(0.0)), false, 0.0) == v;
  }

  /**
   * A job's copy back fails; its user deletes it, NRP refuses to delete its record, and
   * the delete goes on to what it wrote.
   */
  lemma {:induction false} RefusedDeleteLoses() returns (r: Run, s: State)
    ensures RunTo(r, s) && Lost(s.world) && s.world.record.value.output == Failed
  {
    r, s := CopyBackFails();
    r, s := Extend(r, s, Refuses(true, false));
    RefusedComesTo(s.world, Shown(s.world));
    r, s := Whole(r, s, UserDelete);
  }

  lemma {:induction false} RefusedComesTo(w: World, job: Job)
    requires w.nrpRefuses && !w.kubeRefuses && MayDelete(job.record)
    ensures Exec(w, job, FirstTodo(UserDelete, job), false, 0.0)
         == w.(inCopy := Missing, outCopy := Missing, kept := false, cleaned := false)
  {
    ApplyDelete(w, 0.0);
  }
}
