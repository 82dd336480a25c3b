/** `sit` and `stand`: a semaphore whose seats are handed from one task call to the next. */
module Seats {
  import opened Collections

  /**
   * The plugin's state. `handing` holds the calls whose promise a standing call has
   * resolved, and that have not run on yet.
   */
  datatype State = State(free: int, seated: set<string>, waiting: seq<string>, handing: seq<string>)

  /** `sit` until its await, if it has to wait. */
  function Sat(s: State, call: string): State {
    if s.free > 0 then s.(free := s.free - 1, seated := s.seated + {call}) else s.(waiting := s.waiting + [call])
  }

  function Stood(s: State, call: string): State {
    if call !in s.seated then s
    else
      var t := s.(seated := s.seated - {call});
      if t.waiting != [] then t.(waiting := t.waiting[1..], handing := t.handing + [t.waiting[0]])
      else t.(free := t.free + 1)
  }

  /** `sit` from its await on. */
  function Resumed(s: State, k: nat): State
    requires k < |s.handing|
  {
    s.(handing := Without(s.handing, k), seated := s.seated + {s.handing[k]})
  }

  class Plugin {
    var free: int
    var seated: set<string>
    var waiting: seq<string>
    var handing: seq<string>

    ghost function View(): State
      reads this
    {
      State(free, seated, waiting, handing)
    }

    constructor (seats: nat)
      ensures View() == State(seats, {}, [], [])
    {
      free, seated, waiting, handing := seats, {}, [], [];
    }

    method Sit(call: string)
      modifies this
      ensures View() == Sat(old(View()), call)
    {
      if free > 0 {
        free := free - 1;
        seated := seated + {call};
      } else {
        waiting := waiting + [call];
      }
    }

    method Stand(call: string)
      modifies this
      ensures View() == Stood(old(View()), call)
    {
      if call !in seated {
        return;
      }
      seated := seated - {call};
      if waiting != [] {
        handing := handing + [waiting[0]];
        waiting := waiting[1..];
      } else {
        free := free + 1;
      }
    }

    method Resume(k: nat)
      requires k < |handing|
      modifies this
      ensures View() == Resumed(old(View()), k)
    {
      seated := seated + {handing[k]};
      handing := handing[..k] + handing[k + 1..];
    }
  }

  // ----- every interleaving -----

  datatype Event = Sits(call: string) | Stands(call: string) | Resumes(k: nat)

  /**
   * The plugin among its calls: `came` are all that ever sat down or queued, `queued` those
   * that had to wait, `handed` those that were given a seat for it.
   */
  datatype System = System(state: State, came: set<string>, queued: seq<string>, handed: seq<string>)

  /** Each task call has an id of its own. */
  predicate Enabled(s: System, e: Event) {
    match e
    case Sits(call) => call !in s.came
    case Stands(_) => true
    case Resumes(k) => k < |s.state.handing|
  }

  function Next(s: System, e: Event): System
    requires Enabled(s, e)
  {
    match e
    case Sits(call) =>
      s.(state := Sat(s.state, call), came := s.came + {call},
         queued := if s.state.free > 0 then s.queued else s.queued + [call])
    case Stands(call) =>
      s.(state := Stood(s.state, call),
         handed :=
           if call in s.state.seated && s.state.waiting != [] then s.handed + [s.state.waiting[0]] else s.handed)
    case Resumes(k) => s.(state := Resumed(s.state, k))
  }

  ghost predicate IsRun(seats: nat, states: seq<System>, events: seq<Event>) {
    && |states| == |events| + 1 && states[0] == System(State(seats, {}, [], []), {}, [], [])
    && forall k {:trigger events[k]} :: 0 <= k < |events| ==>
         Enabled(states[k], events[k]) && states[k + 1] == Next(states[k], events[k])
  }

  ghost predicate Inv(seats: nat, s: System) {
    var t := s.state;
    && t.free >= 0 && t.free + |t.seated| + |t.handing| == seats
    && (t.free > 0 ==> t.waiting == [])
    && s.queued == s.handed + t.waiting
    && t.seated <= s.came
    && (forall i :: 0 <= i < |t.handing| ==> t.handing[i] in s.came && t.handing[i] !in t.seated)
    && (forall i :: 0 <= i < |t.waiting| ==> t.waiting[i] in s.came && t.waiting[i] !in t.seated)
    && Distinct(t.handing + t.waiting)
  }

  lemma {:induction false} SitKeeps(seats: nat, s: System, e: Event)
    requires Inv(seats, s) && Enabled(s, e) && e.Sits?
    ensures Inv(seats, Next(s, e))
  {
    var t, u := s.state, Next(s, e).state;
    if t.free > 0 {
      assert u.handing + u.waiting == t.handing + t.waiting;
    } else {
      assert u.handing + u.waiting == t.handing + t.waiting + [e.call];
      assert Next(s, e).queued == s.handed + u.waiting;
    }
  }

  lemma {:induction false} StandKeeps(seats: nat, s: System, e: Event)
    requires Inv(seats, s) && Enabled(s, e) && e.Stands?
    ensures Inv(seats, Next(s, e))
  {
    var t, u := s.state, Next(s, e).state;
    if e.call in t.seated && t.waiting != [] {
      assert t.waiting == [t.waiting[0]] + t.waiting[1..];
      assert u.handing + u.waiting == t.handing + t.waiting;
      assert Next(s, e).handed + u.waiting == s.handed + t.waiting;
    }
  }

  lemma {:induction false} ResumeKeeps(seats: nat, s: System, e: Event)
    requires Inv(seats, s) && Enabled(s, e) && e.Resumes?
    ensures Inv(seats, Next(s, e))
  {
    var t, u := s.state, Next(s, e).state;
    var all := t.handing + t.waiting;
    var left := u.handing + u.waiting;
    forall i | 0 <= i < |left| ensures left[i] == all[if i < e.k then i else i + 1] {}
    assert all[e.k] == t.handing[e.k];
    forall i | 0 <= i < |u.handing| ensures u.handing[i] != t.handing[e.k] { assert left[i] == u.handing[i]; }
    forall i | 0 <= i < |u.waiting|
        ensures u.waiting[i] != t.handing[e.k] { assert left[|u.handing| + i] == u.waiting[i]; }
  }

  lemma {:induction false} Invariant(seats: nat, states: seq<System>, events: seq<Event>, k: nat)
    requires IsRun(seats, states, events) && k < |states|
    ensures Inv(seats, states[k])
    decreases k
  {
    if k == 0 {
    } else {
      Invariant(seats, states, events, k - 1);
      match events[k - 1]
      case Sits(_) => SitKeeps(seats, states[k - 1], events[k - 1]);
      case Stands(_) => StandKeeps(seats, states[k - 1], events[k - 1]);
      case Resumes(_) => ResumeKeeps(seats, states[k - 1], events[k - 1]);
    }
  }

  /**
   * Whatever the interleaving: no seat is lost or made, a free seat means that nobody
   * waits, and those who waited were handed seats in the order they came.
   */
  lemma {:induction false} SeatsAreConserved(seats: nat, states: seq<System>, events: seq<Event>, k: nat)
    requires IsRun(seats, states, events) && k < |states|
    ensures var s := states[k];
            && 0 <= s.state.free && s.state.free + |s.state.seated| + |s.state.handing| == seats
            && (s.state.free > 0 ==> s.state.waiting == [])
            && s.queued == s.handed + s.state.waiting
  {
    Invariant(seats, states, events, k);
  }

  /** Standing up twice is standing up once: the events that free a call free it again. */
  lemma {:induction false} StandIsIdempotent(s: State, call: string)
    ensures Stood(Stood(s, call), call) == Stood(s, call)
  {
  }

  // ----- a call whose end was seen -----

  /** Whether step `e` gives `call` a seat. */
  predicate TakesSeat(s: State, e: Event, call: string) {
    || (e == Sits(call) && s.free > 0)
    || (e.Resumes? && e.k < |s.handing| && s.handing[e.k] == call)
  }

  /** `call` took a seat at step `j`, and no end of it was seen since. */
  ghost predicate SeatedSince(states: seq<System>, events: seq<Event>, j: nat, k: nat, call: string)
    requires k <= |events| < |states|
  {
    && j < k && TakesSeat(states[j].state, events[j], call)
    && forall n :: j < n < k ==> events[n] != Stands(call)
  }

  /** A call holds a seat exactly when it took one and no end of it was seen since. */
  lemma {:induction false} SeatedExactly(seats: nat, states: seq<System>, events: seq<Event>, k: nat, call: string)
    requires IsRun(seats, states, events) && k < |states|
    ensures call in states[k].state.seated <==> exists j: nat :: SeatedSince(states, events, j, k, call)
    decreases k
  {
    if k == 0 {
    } else {
      var m: nat := k - 1;
      var s, e := states[m], events[m];
      SeatedExactly(seats, states, events, m, call);
      if TakesSeat(s.state, e, call) {
        assert SeatedSince(states, events, m, k, call);
      } else {
        assert call in states[k].state.seated <==> call in s.state.seated && e != Stands(call);
        if j: nat :| SeatedSince(states, events, j, m, call) {
          assert e != Stands(call) ==> SeatedSince(states, events, j, k, call);
        }
        if j: nat :| SeatedSince(states, events, j, k, call) {
          assert j < m && events[m] != Stands(call);
          assert SeatedSince(states, events, j, m, call);
        }
      }
    }
  }

  /** Whether a call still waits for its seat, or for its turn to take the one it was handed. */
  predicate Queues(s: State, call: string) {
    call in s.waiting || call in s.handing
  }

  lemma {:induction false} StepOf(seats: nat, states: seq<System>, events: seq<Event>, n: nat)
    requires IsRun(seats, states, events) && n < |events|
    ensures Enabled(states[n], events[n]) && states[n + 1] == Next(states[n], events[n])
  {
  }

  /** A call that came, and neither holds a seat nor queues, is never given one again. */
  lemma {:induction false} GoneStaysGone(
    seats: nat, states: seq<System>, events: seq<Event>, i: nat, k: nat, call: string)
    requires IsRun(seats, states, events) && i <= k < |states|
    requires var s := states[i];
             call in s.came && call !in s.state.seated && !Queues(s.state, call)
    ensures var s := states[k];
            call in s.came && call !in s.state.seated && !Queues(s.state, call)
    decreases k
  {
    if i == k {
    } else {
      GoneStaysGone(seats, states, events, i, k - 1, call);
      StepOf(seats, states, events, k - 1);
    }
  }

  lemma {:induction false} CameStays(seats: nat, states: seq<System>, events: seq<Event>, i: nat, k: nat, call: string)
    requires IsRun(seats, states, events) && i <= k < |states| && call in states[i].came
    ensures call in states[k].came
    decreases k
  {
    if i == k {
    } else {
      CameStays(seats, states, events, i, k - 1, call);
      StepOf(seats, states, events, k - 1);
    }
  }

  /**
   * A call whose end was last seen at step `e` holds a seat afterwards exactly when it
   * still queued at `e`, where `stand` does nothing, and has taken its seat since.
   */
  lemma {:induction false} EndedHoldsSeatExactly(
    seats: nat, states: seq<System>, events: seq<Event>, e: nat, k: nat, call: string)
    requires IsRun(seats, states, events) && e < k < |states| && events[e] == Stands(call)
    requires call in states[e].came && forall n :: e < n < k ==> events[n] != Stands(call)
    ensures call in states[k].state.seated <==>
              && Queues(states[e].state, call)
              && exists j :: e < j < k && TakesSeat(states[j].state, events[j], call)
  {
    SeatedExactly(seats, states, events, k, call);
    if call in states[k].state.seated {
      var j: nat :| SeatedSince(states, events, j, k, call);
      TookSince(states, events, e, j, k, call);
      TakerQueued(seats, states, events, e, j, call);
    } else if j :| e < j < k && TakesSeat(states[j].state, events[j], call) {
      assert SeatedSince(states, events, j, k, call);
    }
  }

  lemma {:induction false} TookSince(states: seq<System>, events: seq<Event>, e: nat, j: nat, k: nat, call: string)
    requires e < k <= |events| < |states| && events[e] == Stands(call) && SeatedSince(states, events, j, k, call)
    ensures e < j && TakesSeat(states[j].state, events[j], call)
  {
  }

  /** A call that takes a seat after its end was seen queued at that end. */
  lemma {:induction false} TakerQueued(
    seats: nat, states: seq<System>, events: seq<Event>, e: nat, j: nat, call: string)
    requires IsRun(seats, states, events) && e < j < |events| && events[e] == Stands(call)
    requires call in states[e].came && TakesSeat(states[j].state, events[j], call)
    ensures Queues(states[e].state, call)
  {
    Invariant(seats, states, events, e);
    StepOf(seats, states, events, e);
    StepOf(seats, states, events, j);
    CameStays(seats, states, events, e, j, call);
    if !Queues(states[e].state, call) {
      StandsAway(states[e], call);
      GoneStaysGone(seats, states, events, e + 1, j, call);
    }
  }

  lemma {:induction false} StandsAway(s: System, call: string)
    requires call in s.came && !Queues(s.state, call)
    ensures var t := Next(s, Stands(call));
            call in t.came && call !in t.state.seated && !Queues(t.state, call)
  {
  }

  /** One seat: `b` queues behind `a`, its end is seen, `a` stands up, and `b` keeps the seat. */
  lemma {:induction false} SeatIsStuck() returns (states: seq<System>, events: seq<Event>)
    ensures IsRun(1, states, events) && |events| == 5 && events[2] == Stands("b")
    ensures states[5].state == State(0, {"b"}, [], [])
  {
    var s0 := System(State(1, {}, [], []), {}, [], []);
    var s1 := System(State(0, {"a"}, [], []), {"a"}, [], []);
    var s2 := System(State(0, {"a"}, ["b"], []), {"a", "b"}, ["b"], []);
    var s4 := System(State(0, {}, [], ["b"]), {"a", "b"}, ["b"], ["b"]);
    var s5 := System(State(0, {"b"}, [], []), {"a", "b"}, ["b"], ["b"]);
    assert s1 == Next(s0, Sits("a")) && s2 == Next(s1, Sits("b")) && s2 == Next(s2, Stands("b"));
    assert s4 == Next(s2, Stands("a"));
    assert s5 == Next(s4, Resumes(0));
    states, events := [s0, s1, s2, s2, s4, s5], [Sits("a"), Sits("b"), Stands("b"), Stands("a"), Resumes(0)];
  }
}
