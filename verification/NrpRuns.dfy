/**
 * Every run over one job on NRP. A pass or a call reads the job at one moment and
 * makes its requests at later ones, with other passes and calls, KubeRay's moves
 * and the copies' in between; any of them may fail midway.
 */
module NrpRuns {
  import opened Optional
  import opened NrpJob

  datatype Kind = Pass | UserStop | UserDelete

  /**
   * A pass or a call under way: the job as it read it, what is left to do, the stage it
   * read or wrote last, and whether its DELETE of the record was refused.
   */
  datatype Flight = Flight(kind: Kind, job: Job, todo: Todo, stage: Stage, refused: bool)

  /**
   * A job's world and all flights since its start, at a time. `settled` says whether
   * a stop that read the job as not started has recorded it done, and `firstDone`
   * when the job was first recorded as done.
   */
  datatype State = State(world: World, flights: seq<Flight>, clock: real, settled: bool, firstDone: Option<real>)

  datatype Event =
    | Reads(kind: Kind)
    | Steps(i: nat, idle: bool, now: real)
    | Drops(i: nat)
    | Starts
    | Reports(status: Status)
    | Deploys(starting: bool)
    | CopiesIn(state: Copy)
    | CopiesOut(state: Copy)
    | Refuses(nrp: bool, kube: bool)
    | Restarts

  /** A job as `start_nrp_job` creates it, or as an earlier gateway left it. */
  predicate FreshRecord(r: Record) {
    && !r.stopped && r.output != Failed
    && match r.stage
       case Running => true
       case Unset => r.output == NoOutput
       case Inputs => r.suspend
       case Placing => r.suspend
       case _ => false
  }

  predicate FreshWorld(w: World) {
    && w.record.Some? && FreshRecord(w.record.value)
    && w.status == NoStatus && !w.started && !w.copiedBack && w.outCopy != Succeeded
  }

  predicate Fresh(s: State) {
    FreshWorld(s.world) && s.flights == [] && !s.settled && s.firstDone == None
  }

  /** KubeRay starts no job that is suspended, ended ones stay ended, and a suspended copy does not run by itself. */
  predicate WorldMay(w: World, e: Event) {
    match e
    case Starts => w.record.Some? && !w.record.value.suspend && w.status != Ended && !w.started
    case Reports(status) =>
      w.status != Ended && (status == Ended ==> w.started || (w.record.Some? && !w.record.value.suspend))
    case CopiesOut(state) => state == Missing || (w.outCopy == Copying && (state == Succeeded || state == Broken))
    case _ => true
  }

  predicate Enabled(s: State, e: Event) {
    match e
    case Reads(_) => s.world.record.Some?
    case Steps(i, _, now) => i < |s.flights| && s.flights[i].todo != Todo([], Nothing) && s.clock <= now
    case Drops(i) => i < |s.flights|
    case _ => WorldMay(s.world, e)
  }

  function WorldMoves(w: World, e: Event): World {
    match e
    case Starts => w.(started := true, kept := true)
    case Reports(status) => w.(status := status)
    case Deploys(starting) => w.(starting := starting)
    case CopiesIn(state) => w.(inCopy := state)
    case CopiesOut(state) => w.(outCopy := state, copiedBack := w.copiedBack || state == Succeeded)
    case Refuses(nrp, kube) => w.(nrpRefuses := nrp, kubeRefuses := kube)
    case Restarts => w.(cleaned := false)
    case _ => w
  }

  /** What a pass or a call is to do with the job it read. */
  function FirstTodo(kind: Kind, job: Job): Todo {
    match kind
    case Pass => Todo([], Turn)
    case UserStop => Todo(if Finished(job) then [] else StopWrites(job), Nothing)
    case UserDelete => Todo(if MayDelete(job.record) then DeleteWrites() else [], Nothing)
  }

  /** Whether a flight's next step is a request. */
  predicate Puts(f: Flight) {
    f.todo.writes != []
  }

  predicate SetsStage(x: Write) {
    x.SetStage? || x.Resume?
  }

  /** The stage a request records. */
  function Target(x: Write): Stage
    requires SetsStage(x)
  {
    if x.Resume? then Running else x.stage
  }

  /** A flight after its next request, which NRP refuses or takes. */
  function Put(f: Flight, refuses: bool): Flight
    requires Puts(f)
  {
    var x := f.todo.writes[0];
    f.(todo := Todo(f.todo.writes[1..], f.todo.look), stage := if SetsStage(x) then Target(x) else f.stage,
       refused := f.refused || (x == DeleteRecord && refuses))
  }

  /** Whether a request is a stop's that records the job as done with nothing to copy back. */
  predicate Settles(x: Write) {
    x.SetStage? && x.stage == Done && x.stopped
  }

  function PutNext(s: State, i: nat, now: real): State
    requires i < |s.flights| && Puts(s.flights[i])
  {
    var f := s.flights[i];
    var x := f.todo.writes[0];
    var done := x.SetStage? && x.stage == Done && s.world.record.Some?;
    State(
      Apply(s.world, x, now), s.flights[i := Put(f, s.world.nrpRefuses)], now,
      s.settled || (Settles(x) && !f.job.started),
      if done && s.firstDone.None? then Some(now) else s.firstDone)
  }

  function Next(s: State, e: Event): State
    requires Enabled(s, e)
  {
    match e
    case Reads(kind) =>
      var job := Shown(s.world);
      s.(flights := s.flights + [Flight(kind, job, FirstTodo(kind, job), job.record.stage, false)])
    case Steps(i, idle, now) =>
      var f := s.flights[i];
      if Puts(f) then PutNext(s, i, now)
      else s.(flights := s.flights[i := f.(todo := Plan(f.job, s.world, f.todo.look, idle, now))], clock := now)
    case Drops(i) => s.(flights := s.flights[i := s.flights[i].(todo := Todo([], Nothing))])
    case _ => s.(world := WorldMoves(s.world, e))
  }

  ghost predicate IsRun(states: seq<State>, events: seq<Event>) {
    && |states| == |events| + 1 && Fresh(states[0])
    && forall k {:trigger events[k]} :: 0 <= k < |events| ==>
         Enabled(states[k], events[k]) && states[k + 1] == Next(states[k], events[k])
  }

  /** Whether step `e` from `s` makes request `x`. */
  predicate Makes(s: State, e: Event, x: Write) {
    e.Steps? && e.i < |s.flights| && Puts(s.flights[e.i]) && s.flights[e.i].todo.writes[0] == x
  }

  /** Whether step `e` from `s` records a stage. */
  predicate Records(s: State, e: Event) {
    e.Steps? && e.i < |s.flights| && Puts(s.flights[e.i]) && SetsStage(s.flights[e.i].todo.writes[0])
  }

  function Recorded(s: State, e: Event): Stage
    requires Records(s, e)
  {
    Target(s.flights[e.i].todo.writes[0])
  }

  // ----- a flight left alone -----

  /** Flight `i` steps until it is at its end, all at one time. */
  function Finish(s: State, i: nat, idle: bool, now: real): State
    requires i < |s.flights| && s.clock <= now
    decreases Height(s.flights[i].todo.look), |s.flights[i].todo.writes|
  {
    if s.flights[i].todo == Todo([], Nothing) then s
    else Finish(Next(s, Steps(i, idle, now)), i, idle, now)
  }

  /** With nothing in between, the steps of a flight come to what the gateway's methods do. */
  lemma {:induction false} FinishIsExec(s: State, i: nat, idle: bool, now: real)
    requires i < |s.flights| && s.clock <= now
    ensures var f := s.flights[i];
            Finish(s, i, idle, now).world == Exec(s.world, f.job, f.todo, idle, now)
    decreases Height(s.flights[i].todo.look), |s.flights[i].todo.writes|
  {
    if s.flights[i].todo == Todo([], Nothing) {
    } else {
      FinishIsExec(Next(s, Steps(i, idle, now)), i, idle, now);
    }
  }

  // ----- what every state keeps -----

  function Rank(s: Stage): nat {
    match s
    case Inputs => 0
    case Placing => 0
    case Unset => 1
    case Running => 1
    case Outputs => 2
    case Done => 3
  }

  predicate Late(s: Stage) {
    s == Outputs || s == Done
  }

  /** The job ended or was stopped, or its record is gone. */
  predicate Over(w: World) {
    w.status == Ended || (w.record.Some? ==> w.record.value.stopped)
  }

  /** Its data may go: nothing is to be copied back, it was, or a stop settled that. */
  predicate MayClean(s: State) {
    s.world.record.Some? && s.world.record.value.output != NoOutput ==> s.world.copiedBack || s.settled
  }

  /** Nothing is left to copy back to the user, if the record is there. */
  predicate NoneWanted(w: World) {
    w.record.Some? ==> w.record.value.output != Wanted
  }

  predicate RecordOk(s: State, r: Record) {
    && (Late(r.stage) ==> Over(s.world))
    && (r.stage == Outputs ==> r.output != NoOutput)
    && (r.stage == Unset ==> r.output == NoOutput && !r.stopped)
    && (Rank(r.stage) == 0 ==>
          !r.stopped && r.output != Failed && r.suspend && !s.world.started && s.world.status != Ended)
    && (r.stage == Done && r.output == Wanted ==> s.world.copiedBack || s.settled)
    && (r.stage == Done ==> s.firstDone.Some? && s.firstDone.value <= r.since)
  }

  /** What a job that was read still says of the world. */
  predicate JobOk(s: State, job: Job) {
    && (job.ended ==> s.world.status == Ended)
    && (job.started ==> s.world.started)
    && (job.record.stage == Outputs ==> job.record.output != NoOutput)
    && (job.record.stage == Unset ==> job.record.output == NoOutput)
    && (job.record.stage == Done && job.record.output == Wanted ==> s.world.copiedBack || s.settled)
    && (job.record.stage == Done ==> s.firstDone.Some? && s.firstDone.value <= job.record.since)
    && (s.world.record.Some? ==>
          && (job.record.output == NoOutput <==> s.world.record.value.output == NoOutput)
          && (job.record.output == Failed ==> s.world.record.value.output == Failed))
  }

  /** A running job that ended with nothing to copy back. */
  predicate EndsAtOnce(job: Job) {
    Rank(job.record.stage) == 1 && job.ended && job.record.output != Wanted
  }

  /** A request that is still to be made, after those of `before`, with `after` behind it. */
  predicate WriteOk(s: State, f: Flight, before: seq<Write>, x: Write, after: seq<Write>) {
    match x
    case SetStage(stage, stopped, failed) =>
      && Late(stage) && Rank(f.stage) <= Rank(stage) && (stage == Outputs ==> f.job.record.output != NoOutput)
      && (stopped || Over(s.world))
      && (failed ==> stage == Done && f.job.record.output != NoOutput)
      && (stage == Done && !failed ==>
            if stopped then !f.job.started || NoneWanted(s.world) else s.world.copiedBack || NoneWanted(s.world))
      && after == []
    case Resume => Rank(f.stage) == 0 && after == []
    case Clean => DeleteRecord in before || f.refused || MayClean(s)
    case DeleteRecord =>
      && (f.stage == Done || f.stage == Unset)
      && (f.kind == Pass ==>
            && s.clock - f.job.record.since >= JOB_RECORD_S
            && (f.job.record.stage == Done || EndsAtOnce(f.job)))
    case _ => true
  }

  predicate WritesOk(s: State, f: Flight) {
    var xs := f.todo.writes;
    forall p :: 0 <= p < |xs| ==> WriteOk(s, f, xs[..p], xs[p], xs[p + 1..])
  }

  /** Where a pass is when it comes to a look. */
  predicate LookOk(s: State, f: Flight) {
    var xs := f.todo.writes;
    match f.todo.look
    case Nothing => true
    case Turn => xs == [] && f.kind == Pass && f.stage == f.job.record.stage
    case LookIn => xs == [] && f.stage == Inputs
    case LookIdle => xs == [] && Rank(f.stage) == 1
    case LookOut(turn) =>
      && (if xs == [] then f.stage == Outputs else xs == [SetStage(Outputs, false, false)])
      && f.kind == Pass && Over(s.world) && f.job.record.output != NoOutput && turn <= s.clock
    case LookDone(output, since, turn) =>
      && (if xs == [] then f.stage == Done else |xs| == 1 && xs[0].SetStage? && xs[0].stage == Done)
      && f.kind == Pass && turn <= s.clock
      && (output == Wanted ==> s.world.copiedBack || s.settled)
      && (output == NoOutput ==> f.job.record.output == NoOutput)
      && (since == turn || (since == f.job.record.since && (f.job.record.stage == Done || EndsAtOnce(f.job))))
  }

  predicate FlightOk(s: State, f: Flight) {
    && JobOk(s, f.job) && WritesOk(s, f) && LookOk(s, f)
    && (Late(f.stage) ==> Over(s.world))
    && (f.stage == Unset ==> f.job.record.output == NoOutput)
  }

  predicate WorldOk(s: State) {
    && (s.world.outCopy == Succeeded ==> s.world.copiedBack)
    && (s.world.record.Some? ==> RecordOk(s, s.world.record.value))
    && (s.firstDone.Some? ==> s.firstDone.value <= s.clock)
  }

  ghost predicate Inv(s: State) {
    WorldOk(s) && forall i :: 0 <= i < |s.flights| ==> FlightOk(s, s.flights[i])
  }

  // ----- every step keeps it -----

  /** What no step takes back. */
  predicate Grows(s: State, t: State) {
    && (t.world.record.Some? ==>
          && s.world.record.Some?
          && (s.world.record.value.stopped ==> t.world.record.value.stopped)
          && (s.world.record.value.output == NoOutput <==> t.world.record.value.output == NoOutput)
          && (s.world.record.value.output == Failed ==> t.world.record.value.output == Failed))
    && (s.world.status == Ended ==> t.world.status == Ended)
    && (s.world.started ==> t.world.started)
    && (s.world.copiedBack ==> t.world.copiedBack)
    && (s.settled ==> t.settled)
    && (s.firstDone.Some? ==> t.firstDone == s.firstDone)
    && s.clock <= t.clock
  }

  /** A flight that does not step is as good as before. */
  lemma {:induction false} OthersStayOk(s: State, t: State, f: Flight)
    requires FlightOk(s, f) && Grows(s, t)
    ensures FlightOk(t, f)
  {
    var xs := f.todo.writes;
    forall p | 0 <= p < |xs| ensures WriteOk(t, f, xs[..p], xs[p], xs[p + 1..]) {
      assert WriteOk(s, f, xs[..p], xs[p], xs[p + 1..]);
    }
  }

  /** The requests behind the one just made are in order too. */
  lemma {:induction false} RestOk(s: State, t: State, f: Flight, refuses: bool)
    requires FlightOk(s, f) && Puts(f) && Grows(s, t)
    requires f.todo.writes[0] == DeleteRecord ==> t.world.record.None? || refuses
    ensures WritesOk(t, Put(f, refuses))
  {
    var xs := f.todo.writes;
    var g := Put(f, refuses);
    assert WriteOk(s, f, xs[..0], xs[0], xs[1..]);
    forall p | 0 <= p < |xs| - 1 ensures WriteOk(t, g, g.todo.writes[..p], g.todo.writes[p], g.todo.writes[p + 1..]) {
      assert WriteOk(s, f, xs[..p + 1], xs[p + 1], xs[p + 2..]);
      assert xs[1..][p] == xs[p + 1] && xs[1..][p + 1..] == xs[p + 2..];
      assert xs[..p + 1] == [xs[0]] + xs[1..][..p];
    }
  }

  lemma {:induction false} FirstOk(s: State, i: nat)
    requires Inv(s) && i < |s.flights| && Puts(s.flights[i])
    ensures var f := s.flights[i];
            FlightOk(s, f) && WriteOk(s, f, [], f.todo.writes[0], f.todo.writes[1..])
  {
    var f := s.flights[i];
    assert FlightOk(s, f);
    assert WriteOk(s, f, f.todo.writes[..0], f.todo.writes[0], f.todo.writes[1..]);
  }

  lemma {:induction false} PutGrows(s: State, i: nat, now: real)
    requires WorldOk(s) && i < |s.flights| && Puts(s.flights[i]) && s.clock <= now && JobOk(s, s.flights[i].job)
    requires var f := s.flights[i];
             WriteOk(s, f, [], f.todo.writes[0], f.todo.writes[1..])
    ensures Grows(s, PutNext(s, i, now)) && WorldOk(PutNext(s, i, now))
  {
    var f, t := s.flights[i], PutNext(s, i, now);
    match f.todo.writes[0]
    case SetStage(stage, stopped, failed) => StageGrows(s, t, f, now);
    case _ =>
  }

  /** A stage is recorded: the job is over, and its data accounted for. */
  lemma {:induction false} StageGrows(s: State, t: State, f: Flight, now: real)
    requires WorldOk(s) && JobOk(s, f.job) && s.clock <= now && Puts(f) && f.todo.writes[0].SetStage?
    requires WriteOk(s, f, [], f.todo.writes[0], f.todo.writes[1..])
    requires t.world == Apply(s.world, f.todo.writes[0], now) && t.clock == now
    requires t.settled == (s.settled || (Settles(f.todo.writes[0]) && !f.job.started))
    requires t.firstDone ==
               if f.todo.writes[0].stage == Done && s.world.record.Some? && s.firstDone.None? then Some(now)
               else s.firstDone
    ensures Grows(s, t) && WorldOk(t)
  {
    if s.world.record.Some? {
      assert Over(t.world);
      assert RecordOk(t, t.world.record.value);
    }
  }

  lemma {:induction false} PutKeeps(s: State, i: nat, now: real)
    requires Inv(s) && i < |s.flights| && Puts(s.flights[i]) && s.clock <= now
    ensures Inv(PutNext(s, i, now))
  {
    var f, t := s.flights[i], PutNext(s, i, now);
    FirstOk(s, i);
    PutGrows(s, i, now);
    RestOk(s, t, f, s.world.nrpRefuses);
    forall j | 0 <= j < |t.flights| ensures FlightOk(t, t.flights[j]) {
      if j != i {
        OthersStayOk(s, t, s.flights[j]);
      }
    }
  }

  lemma {:induction false} StopOk(s: State, f: Flight)
    requires JobOk(s, f.job) && Rank(f.stage) <= 1
    ensures WritesOk(s, f.(todo := Todo(StopWrites(f.job), Nothing)))
  {
  }

  lemma {:induction false} DeleteOk(s: State, f: Flight)
    requires f.stage == Done || f.stage == Unset
    requires f.kind == Pass ==>
               && s.clock - f.job.record.since >= JOB_RECORD_S
               && (f.job.record.stage == Done || EndsAtOnce(f.job))
    ensures WritesOk(s, f.(todo := Todo(DeleteWrites(), Nothing)))
  {
    var xs := DeleteWrites();
    assert xs[..4][0] == DeleteRecord;
  }

  lemma {:induction false} DoneOk(s: State, f: Flight)
    requires FlightOk(s, f) && !Puts(f) && f.todo.look.LookDone?
    ensures var look := f.todo.look;
            WritesOk(s, f.(todo := Todo(DoneWrites(look.output, s.world.cleaned, look.since, look.turn), Nothing)))
  {
    var look := f.todo.look;
    var clean := if !s.world.cleaned && look.output != Failed then [Clean, Remember] else [];
    var gone := if look.turn - look.since >= JOB_RECORD_S then DeleteWrites() else [];
    var xs := DoneWrites(look.output, s.world.cleaned, look.since, look.turn);
    assert xs == clean + gone;
    assert clean != [] ==> MayClean(s);
    var g := f.(todo := Todo(xs, Nothing));
    forall p | 0 <= p < |xs| ensures WriteOk(s, g, xs[..p], xs[p], xs[p + 1..]) {
      if p < |clean| {
        assert xs[p] == Clean || xs[p] == Remember;
      } else {
        var q := p - |clean|;
        assert xs[p] == gone[q];
        if q == 4 {
          assert xs[..p][|clean|] == gone[0] == DeleteRecord;
        }
      }
    }
  }

  lemma {:induction false} TurnKeeps(s: State, f: Flight, now: real)
    requires WorldOk(s) && FlightOk(s, f) && !Puts(f) && s.clock == now && f.todo.look == Turn
    ensures FlightOk(s, f.(todo := TurnPlan(f.job, now)))
  {
    var r := f.job.record;
    match r.stage
    case Outputs =>
    case Done =>
    case Placing =>
    case Inputs =>
    case _ =>
      if f.job.ended {
        EndKeeps(s, f, now);
      } else {
        StopOk(s, f);
      }
  }

  /** A running job ended: its outputs are next, or nothing is. */
  lemma {:induction false} EndKeeps(s: State, f: Flight, now: real)
    requires WorldOk(s) && FlightOk(s, f) && !Puts(f) && s.clock == now && f.todo.look == Turn
    requires f.job.ended && Rank(f.job.record.stage) == 1
    ensures FlightOk(s, f.(todo := TurnPlan(f.job, now)))
  {
    var g := f.(todo := TurnPlan(f.job, now));
    assert |g.todo.writes| == 1 && g.todo.writes[1..] == [];
    assert WriteOk(s, g, [], g.todo.writes[0], []);
  }

  lemma {:induction false} LookKeeps(s: State, f: Flight, idle: bool, now: real)
    requires WorldOk(s) && FlightOk(s, f) && !Puts(f) && s.clock == now
    ensures FlightOk(s, f.(todo := Plan(f.job, s.world, f.todo.look, idle, now)))
  {
    match f.todo.look
    case Nothing =>
    case Turn => TurnKeeps(s, f, now);
    case LookIn => StopOk(s, f);
    case LookIdle => StopOk(s, f);
    case LookOut(turn) =>
    case LookDone(output, since, turn) => DoneOk(s, f);
  }

  lemma {:induction false} ReadKeeps(s: State, kind: Kind)
    requires Inv(s) && s.world.record.Some?
    ensures var job := Shown(s.world);
            FlightOk(s, Flight(kind, job, FirstTodo(kind, job), job.record.stage, false))
  {
    var job := Shown(s.world);
    var f := Flight(kind, job, FirstTodo(kind, job), job.record.stage, false);
    if kind == UserStop && !Finished(job) {
      StopOk(s, f);
    } else if kind == UserDelete && MayDelete(job.record) {
      DeleteOk(s, f);
    }
  }

  lemma {:induction false} StepKeeps(s: State, e: Event)
    requires Inv(s) && Enabled(s, e)
    ensures Inv(Next(s, e)) && Grows(s, Next(s, e))
  {
    var t := Next(s, e);
    if e.Steps? && Puts(s.flights[e.i]) {
      FirstOk(s, e.i);
      PutGrows(s, e.i, e.now);
      PutKeeps(s, e.i, e.now);
    } else {
      WorldKeeps(s, e);
      forall j | 0 <= j < |t.flights| ensures FlightOk(t, t.flights[j]) {
        FlightKeeps(s, e, j);
      }
    }
  }

  /** Steps that make no request leave the world in order. */
  lemma {:induction false} WorldKeeps(s: State, e: Event)
    requires WorldOk(s) && Enabled(s, e) && !(e.Steps? && Puts(s.flights[e.i]))
    ensures WorldOk(Next(s, e)) && Grows(s, Next(s, e))
  {
  }

  /** And each flight. */
  lemma {:induction false} FlightKeeps(s: State, e: Event, j: nat)
    requires Inv(s) && Enabled(s, e) && !(e.Steps? && Puts(s.flights[e.i])) && j < |Next(s, e).flights|
    requires WorldOk(Next(s, e)) && Grows(s, Next(s, e))
    ensures FlightOk(Next(s, e), Next(s, e).flights[j])
  {
    var t := Next(s, e);
    if j < |s.flights| {
      OthersStayOk(s, t, s.flights[j]);
      if e.Steps? && j == e.i {
        LookKeeps(t, s.flights[j], e.idle, e.now);
      }
    } else {
      ReadKeeps(s, e.kind);
    }
  }

  lemma {:induction false} Invariant(states: seq<State>, events: seq<Event>, k: nat)
    requires IsRun(states, events) && k < |states|
    ensures Inv(states[k])
    decreases k
  {
    if k == 0 {
    } else {
      Invariant(states, events, k - 1);
      StepKeeps(states[k - 1], events[k - 1]);
    }
  }

  lemma {:induction false} RunGrows(states: seq<State>, events: seq<Event>, i: nat, k: nat)
    requires IsRun(states, events) && i <= k < |states|
    ensures Grows(states[i], states[k]) && |states[i].flights| <= |states[k].flights|
    decreases k
  {
    if i == k {
    } else {
      RunGrows(states, events, i, k - 1);
      Invariant(states, events, k - 1);
      StepKeeps(states[k - 1], events[k - 1]);
    }
  }

  // ----- what one step does, aspect by aspect -----

  lemma {:induction false} ApplyMoves(w: World, x: Write, now: real)
    ensures w.record.None? ==> Apply(w, x, now).record.None?
    ensures var v := Apply(w, x, now);
            w.record.Some? && v.record.Some? ==> ChangeMoves(w.record.value, v.record.value, x)
    ensures Apply(w, x, now).started == w.started && Apply(w, x, now).kept == (w.kept && x != Clean)
    ensures w.record.Some? && Apply(w, x, now).record.None? ==> x == DeleteRecord
  {
    match x
    case SetStage(_, _, _) =>
    case Suspend =>
    case Resume =>
    case DeleteRecord =>
    case _ =>
  }

  /** Only a request that records a stage changes it, and only one of these marks the job. */
  predicate ChangeMoves(q: Record, r: Record, x: Write) {
    && r.stage == (if SetsStage(x) then Target(x) else q.stage)
    && (x.SetStage? || (r.stopped == q.stopped && r.output == q.output))
  }

  /** Only a step that records a stage changes it, or marks the job. */
  lemma {:induction false} StageMoves(s: State, e: Event)
    requires Enabled(s, e)
    ensures s.world.record.None? ==> Next(s, e).world.record.None?
    ensures var t := Next(s, e);
            t.world.record.Some? && s.world.record.Some? ==>
              var q, r := s.world.record.value, t.world.record.value;
              && r.stage == (if Records(s, e) then Recorded(s, e) else q.stage)
              && (!Records(s, e) || Makes(s, e, Resume) ==> r.stopped == q.stopped && r.output == q.output)
    ensures s.world.record.Some? && Next(s, e).world.record.None? ==> Makes(s, e, DeleteRecord)
  {
    if e.Steps? && Puts(s.flights[e.i]) {
      ApplyMoves(s.world, s.flights[e.i].todo.writes[0], e.now);
    }
  }

  /** A flight keeps what it read, and the stage it wrote last. */
  lemma {:induction false} FlightMoves(s: State, e: Event, j: nat)
    requires Enabled(s, e) && j < |Next(s, e).flights|
    ensures |s.flights| <= |Next(s, e).flights| <= |s.flights| + 1
    ensures var g := Next(s, e).flights[j];
            if j < |s.flights| then
              && g.job == s.flights[j].job
              && g.stage == if Records(s, e) && e.i == j then Recorded(s, e) else s.flights[j].stage
            else
              && e.Reads? && s.world.record.Some? && Next(s, e).world == s.world
              && g.job == Shown(s.world) && g.stage == s.world.record.value.stage
  {
  }

  /** A job starts once, and its data goes by a request. */
  lemma {:induction false} DataMoves(s: State, e: Event)
    requires Enabled(s, e)
    ensures Next(s, e).world.started == (s.world.started || e == Starts)
    ensures s.world.started ==> Next(s, e).world.kept == (s.world.kept && !Makes(s, e, Clean))
    ensures e == Starts ==> Next(s, e).world.kept
    ensures Next(s, e).settled && !s.settled ==>
              && e.Steps? && e.i < |s.flights| && Puts(s.flights[e.i])
              && Settles(s.flights[e.i].todo.writes[0]) && !s.flights[e.i].job.started
  {
    if e.Steps? && Puts(s.flights[e.i]) {
      ApplyMoves(s.world, s.flights[e.i].todo.writes[0], e.now);
    }
  }

  /** A flight's DELETE is refused by the step that makes it. */
  lemma {:induction false} RefusalMoves(s: State, e: Event, j: nat)
    requires Enabled(s, e) && j < |Next(s, e).flights| && Next(s, e).flights[j].refused
    ensures || (j < |s.flights| && s.flights[j].refused)
            || (Makes(s, e, DeleteRecord) && s.world.nrpRefuses && e.i == j)
  {
  }
}
