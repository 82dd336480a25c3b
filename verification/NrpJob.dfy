/** A job on NRP: its stages, moved on by the reaper and by its user's calls. */
module NrpJob {
  import opened Optional

  const START_TIMEOUT_S := 1800.0
  const JOB_RECORD_S := 604800.0

  /** The stage annotation; jobs from before it was kept have none, and some were left placing. */
  datatype Stage = Unset | Inputs | Placing | Running | Outputs | Done
  /** The output annotation: nothing to copy back, something, or a copy back that failed. */
  datatype Output = NoOutput | Wanted | Failed
  datatype Status = NoStatus | Busy | Ended
  /** The Job that copies data: in the states of `stage_state`. */
  datatype Copy = Missing | Suspended | Copying | Succeeded | Broken

  /** What the RayJob's metadata and spec record. */
  datatype Record = Record(stage: Stage, since: real, output: Output, stopped: bool, suspend: bool)

  /**
   * A job and its surroundings: its RayJob, what KubeRay says of it, the Jobs that
   * copy its data, and whether the gateway remembers having deleted its data.
   * `copiedBack` says whether a copy back ever succeeded, and `kept` that its data
   * was not deleted since it started; `nrpRefuses` and `kubeRefuses`, whether NRP and
   * the facility's own Kubernetes take no request whose answer the gateway ignores.
   */
  datatype World = World(
    record: Option<Record>, status: Status, started: bool, starting: bool,
    inCopy: Copy, outCopy: Copy, copiedBack: bool, kept: bool, cleaned: bool, nrpRefuses: bool, kubeRefuses: bool)

  /** A job as a listing showed it, which is what a pass or a call decides on. */
  datatype Job = Job(record: Record, ended: bool, started: bool, starting: bool)

  function Shown(w: World): Job
    requires w.record.Some?
  {
    Job(w.record.value, w.status == Ended, w.started, w.starting)
  }

  // ----- what a pass and the calls do, one request at a time -----

  /** One request of the gateway, each behind an await of its own. */
  datatype Write =
    | Suspend
    | SetStage(stage: Stage, stopped: bool, failed: bool)
    | Resume
    | StartCopyBack
    | Clean
    | Remember
    | DeleteRecord
    | DeleteIn
    | DeleteOut
    | Forget

  /** A record changed at time `now`, which a new stage is stamped with. */
  function Changed(r: Record, x: Write, now: real): Record {
    match x
    case Suspend => r.(suspend := true)
    case Resume => r.(stage := Running, since := now, suspend := false)
    case SetStage(stage, stopped, failed) =>
      Record(stage, now, if failed then Failed else r.output, r.stopped || stopped, r.suspend)
    case _ => r
  }

  /** A request made at time `now`. */
  function Apply(w: World, x: Write, now: real): World {
    match x
    case StartCopyBack => w.(outCopy := if w.outCopy == Suspended && !w.kubeRefuses then Copying else w.outCopy)
    case Clean => w.(kept := false)
    case Remember => w.(cleaned := true)
    // A DELETE that is refused reads like one that is not.
    case DeleteRecord => w.(record := if w.nrpRefuses then w.record else None)
    case DeleteIn => w.(inCopy := if w.kubeRefuses then w.inCopy else Missing)
    case DeleteOut => w.(outCopy := if w.kubeRefuses then w.outCopy else Missing)
    case Forget => w.(cleaned := false)
    case _ => if w.record.None? then w else w.(record := Some(Changed(w.record.value, x, now)))
  }

  function ApplyAll(w: World, xs: seq<Write>, now: real): World
    decreases |xs|
  {
    if xs == [] then w else ApplyAll(Apply(w, xs[0], now), xs[1..], now)
  }

  /**
   * What a pass does once its requests so far are made: its turn in the reaper's
   * loop, where the time is taken, or a look at what is not in the listing.
   */
  datatype Look =
    | Nothing
    | Turn
    | LookIn
    | LookIdle
    | LookOut(turn: real)
    | LookDone(output: Output, since: real, turn: real)

  datatype Todo = Todo(writes: seq<Write>, look: Look)

  /** `stop_nrp`: a job that started, and has outputs, has them copied back. */
  function StopWrites(job: Job): seq<Write> {
    (if job.ended then [] else [Suspend])
    + [SetStage(if job.record.output == Wanted && job.started then Outputs else Done, true, false)]
  }

  /** `delete_nrp`, which goes on whatever its requests are answered. */
  function DeleteWrites(): seq<Write> {
    [DeleteRecord, DeleteIn, DeleteOut, Forget, Clean]
  }

  /** A job that is done: its data goes, unless its copy back failed, and its record once kept long enough. */
  function DoneWrites(output: Output, cleaned: bool, since: real, turn: real): seq<Write> {
    (if !cleaned && output != Failed then [Clean] + [Remember] else [])
    + (if turn - since >= JOB_RECORD_S then DeleteWrites() else [])
  }

  /** `advance_nrp` at its start, on the job it was listed with. */
  function TurnPlan(job: Job, now: real): Todo {
    var r := job.record;
    match r.stage
    case Inputs => Todo([], LookIn)
    case Placing => Todo([Resume], Nothing)
    case Outputs => Todo([], LookOut(now))
    case Done => Todo([], LookDone(r.output, r.since, now))
    case _ =>
      if job.ended && r.output == Wanted then Todo([SetStage(Outputs, false, false)], LookOut(now))
      // The stage began when the job did: `since` is not set anew here.
      else if job.ended then Todo([SetStage(Done, false, false)], LookDone(r.output, r.since, now))
      else if job.starting && now - r.since >= START_TIMEOUT_S then Todo(StopWrites(job), Nothing)
      else Todo([], LookIdle)
  }

  /** What a pass does next; `idle` is what NRP's Prometheus says of the job's GPUs. */
  function Plan(job: Job, w: World, look: Look, idle: bool, now: real): Todo {
    match look
    case Nothing => Todo([], Nothing)
    case Turn => TurnPlan(job, now)
    case LookIn =>
      if w.inCopy == Broken || w.inCopy == Missing then Todo(StopWrites(job), Nothing)
      else if w.inCopy == Succeeded then Todo([Resume], Nothing)
      else Todo([], Nothing)
    case LookIdle => Todo(if idle then StopWrites(job) else [], Nothing)
    case LookOut(turn) => (
      match w.outCopy
      case Suspended => Todo([StartCopyBack], Nothing)
      case Copying => Todo([], Nothing)
      case Succeeded => Todo([SetStage(Done, false, false)], LookDone(job.record.output, turn, turn))
      case _ => Todo([SetStage(Done, false, true)], LookDone(Failed, turn, turn)))
    case LookDone(output, since, turn) => Todo(DoneWrites(output, w.cleaned, since, turn), Nothing)
  }

  function Height(look: Look): nat {
    match look
    case Nothing => 0
    case Turn => 3
    case LookOut(_) => 2
    case _ => 1
  }

  /** What a pass or call comes to when nothing comes in between, all at one time. */
  function Exec(w: World, job: Job, todo: Todo, idle: bool, now: real): World
    decreases Height(todo.look)
  {
    var v := ApplyAll(w, todo.writes, now);
    if todo.look == Nothing then v else Exec(v, job, Plan(job, v, todo.look, idle, now), idle, now)
  }

  // ----- what a caller sees and may do -----

  predicate Finished(job: Job) {
    job.ended || job.record.stopped
  }

  /** Whether a user's DELETE is taken. */
  predicate MayDelete(r: Record) {
    r.stage == Done || r.stage == Unset
  }

  datatype Seen = SeenPending | SeenRunning | SeenTerminal

  /** The status `job_details` reports. */
  function StatusSeen(r: Record, w: World): Seen {
    var plain :=
      if r.stopped || w.status == Ended then SeenTerminal
      else if w.status == Busy then SeenRunning
      else SeenPending;
    match r.stage
    case Inputs => SeenPending
    case Outputs => SeenRunning
    case Running => if w.status == Ended && r.output == Wanted then SeenRunning else plain
    case _ => plain
  }

  // ----- the gateway's methods -----

  /** The reaper's pass and the user's calls on a job as it was read, over the world as it is. */
  class Gateway {
    var world: World

    constructor (w: World)
      ensures world == w
    {
      world := w;
    }

    method Write(x: Write, now: real)
      modifies this
      ensures world == Apply(old(world), x, now)
    {
      world := Apply(world, x, now);
    }

    method Stop(job: Job, now: real)
      modifies this
      ensures world == ApplyAll(old(world), StopWrites(job), now)
    {
      if !job.ended {
        Write(Suspend, now);
      }
      var wrote := job.record.output == Wanted && job.started;
      var after := SetStage(if wrote then Outputs else Done, true, false);
      Write(after, now);
      ApplyOne(old(world), after, now);
      ApplyTwo(old(world), Suspend, after, now);
    }

    method Delete(now: real)
      modifies this
      ensures world == ApplyAll(old(world), DeleteWrites(), now)
    {
      Write(DeleteRecord, now);
      Write(DeleteIn, now);
      Write(DeleteOut, now);
      Write(Forget, now);
      Write(Clean, now);
      ApplyDelete(old(world), now);
    }

    /** The end of a pass over a job that is done. */
    method FinishDone(ghost job: Job, ghost idle: bool, output: Output, since: real, now: real)
      modifies this
      ensures world == Exec(old(world), job, Todo([], LookDone(output, since, now)), idle, now)
    {
      ghost var start := world;
      ghost var first := if !world.cleaned && output != Failed then [Clean] + [Remember] else [];
      if !world.cleaned && output != Failed {
        Write(Clean, now);
        Write(Remember, now);
        ApplyTwo(start, Clean, Remember, now);
      }
      assert world == ApplyAll(start, first, now);
      ghost var second := if now - since >= JOB_RECORD_S then DeleteWrites() else [];
      if now - since >= JOB_RECORD_S {
        Delete(now);
      }
      ApplyAppend(start, first, second, now);
    }

    /** A pass over a job in stage outputs. */
    method FinishOutputs(job: Job, ghost idle: bool, now: real)
      modifies this
      ensures world == Exec(old(world), job, Todo([], LookOut(now)), idle, now)
    {
      if world.outCopy == Suspended {
        Write(StartCopyBack, now);
        ApplyOne(old(world), StartCopyBack, now);
        return;
      }
      if world.outCopy == Copying {
        return;
      }
      var failed := world.outCopy != Succeeded;
      Write(SetStage(Done, false, failed), now);
      // The annotations read at the start are the ones just changed.
      var left := if failed then Failed else job.record.output;
      FinishDone(job, idle, left, now, now);
      ExecWrite(old(world), job, SetStage(Done, false, failed), LookDone(left, now, now), idle, now);
    }

    /** A pass over a running job that ended: its outputs are next, or nothing is. */
    method Leave(job: Job, ghost idle: bool, now: real)
      requires job.ended && (job.record.stage == Running || job.record.stage == Unset)
      modifies this
      ensures world == Exec(old(world), job, Todo([], Turn), idle, now)
    {
      var r := job.record;
      if r.output == Wanted {
        Write(SetStage(Outputs, false, false), now);
        FinishOutputs(job, idle, now);
        ExecWrite(old(world), job, SetStage(Outputs, false, false), LookOut(now), idle, now);
      } else {
        Write(SetStage(Done, false, false), now);
        FinishDone(job, idle, r.output, r.since, now);
        ExecWrite(old(world), job, SetStage(Done, false, false), LookDone(r.output, r.since, now), idle, now);
      }
    }

    method Advance(job: Job, idle: bool, now: real)
      modifies this
      ensures world == Exec(old(world), job, Todo([], Turn), idle, now)
    {
      var r := job.record;
      ApplyOne(world, Resume, now);
      if r.stage == Inputs {
        if world.inCopy == Broken || world.inCopy == Missing {
          Stop(job, now);
        } else if world.inCopy == Succeeded {
          Write(Resume, now);
        }
      } else if r.stage == Placing {
        Write(Resume, now);
      } else if r.stage == Outputs {
        FinishOutputs(job, idle, now);
      } else if r.stage == Done {
        FinishDone(job, idle, r.output, r.since, now);
      } else if job.ended {
        Leave(job, idle, now);
      } else if (job.starting && now - r.since >= START_TIMEOUT_S) || idle {
        Stop(job, now);
      }
    }
  }

  lemma {:induction false} ApplyOne(w: World, x: Write, now: real)
    ensures ApplyAll(w, [x], now) == Apply(w, x, now)
  {
    assert [x][1..] == [];
  }

  lemma {:induction false} ApplyTwo(w: World, x: Write, y: Write, now: real)
    ensures ApplyAll(w, [x] + [y], now) == Apply(Apply(w, x, now), y, now)
  {
    ApplyOne(w, x, now);
    ApplyOne(Apply(w, x, now), y, now);
    ApplyAppend(w, [x], [y], now);
  }

  lemma {:induction false} ApplyAppend(w: World, a: seq<Write>, b: seq<Write>, now: real)
    ensures ApplyAll(w, a + b, now) == ApplyAll(ApplyAll(w, a, now), b, now)
    decreases |a|
  {
    if a == [] {
      assert a + b == b;
    } else {
      assert (a + b)[1..] == a[1..] + b;
      ApplyAppend(Apply(w, a[0], now), a[1..], b, now);
    }
  }

  lemma {:induction false} ApplyFirst(w: World, x: Write, rest: seq<Write>, now: real)
    ensures ApplyAll(w, [x] + rest, now) == ApplyAll(Apply(w, x, now), rest, now)
  {
    assert ([x] + rest)[1..] == rest;
  }

  /** What a delete comes to. */
  lemma {:induction false} ApplyDelete(w: World, now: real)
    ensures var copiesGone := Apply(Apply(Apply(w, DeleteRecord, now), DeleteIn, now), DeleteOut, now);
            ApplyAll(w, DeleteWrites(), now) == Apply(Apply(copiesGone, Forget, now), Clean, now)
  {
    var v := Apply(w, DeleteRecord, now);
    ApplyTwo(Apply(Apply(v, DeleteIn, now), DeleteOut, now), Forget, Clean, now);
    ApplyFirst(Apply(v, DeleteIn, now), DeleteOut, [Forget] + [Clean], now);
    ApplyFirst(v, DeleteIn, [DeleteOut] + ([Forget] + [Clean]), now);
    ApplyFirst(w, DeleteRecord, [DeleteIn] + ([DeleteOut] + ([Forget] + [Clean])), now);
    assert DeleteWrites() == [DeleteRecord] + ([DeleteIn] + ([DeleteOut] + ([Forget] + [Clean])));
  }

  lemma {:induction false} DeleteRemoves(w: World, now: real)
    ensures ApplyAll(w, DeleteWrites(), now).record == if w.nrpRefuses then w.record else None
  {
    ApplyDelete(w, now);
    var a := Apply(w, DeleteRecord, now);
    var b := Apply(a, DeleteIn, now);
    var c := Apply(b, DeleteOut, now);
    assert a.record == b.record == c.record;
  }

  /** A look alone comes to what is planned on it. */
  lemma {:induction false} ExecLook(w: World, job: Job, look: Look, idle: bool, now: real)
    requires look != Nothing
    ensures Exec(w, job, Todo([], look), idle, now) == Exec(w, job, Plan(job, w, look, idle, now), idle, now)
  {
  }

  lemma {:induction false} ExecDone(w: World, job: Job, output: Output, since: real, idle: bool, now: real)
    ensures Exec(w, job, Todo([], LookDone(output, since, now)), idle, now)
         == ApplyAll(w, DoneWrites(output, w.cleaned, since, now), now)
  {
    ExecLook(w, job, LookDone(output, since, now), idle, now);
  }

  /** A request and then a look: the request is made, and the look taken in the world after it. */
  lemma {:induction false} ExecWrite(w: World, job: Job, x: Write, look: Look, idle: bool, now: real)
    ensures Exec(w, job, Todo([x], look), idle, now) == Exec(Apply(w, x, now), job, Todo([], look), idle, now)
  {
    ApplyOne(w, x, now);
  }
}
