/** `Proxy.forward` as a loop of passes: acquire, exchange, release, and then an end or another pass. */
module Forward {
  import opened Collections
  import opened Optional
  import opened Proxy
  import GateSpec

  const EARLY_CUT := 0.9
  const RATE_LIMIT_WAIT := 60.0

  /** Times in seconds. */
  datatype Settings = Settings(hold: real, cutSeconds: real, backoff: real, backoffMax: real, cutRetries: nat)

  datatype Flaw = NoToolCall | BadToolArguments

  /** An upstream answer; `flaw` is what is wrong with one that is not cut. */
  datatype Reply = Reply(
    status: int, done: bool, finish: Option<string>, flaw: Option<Flaw>, completion: nat, seconds: real,
    retryAfter: Option<real>)

  /** What `exchange` ends in: a reply, an HTTP or value error, or any other exception. */
  datatype Exchange = Replied(reply: Reply) | Lost | Crashed

  /**
   * What the world answers during one pass of the loop: the client's state at each
   * call of `cancelled`, the gates' health and speed, the acquire and the exchange,
   * and the seconds that pass before each look at the clock.
   */
  datatype Round = Round(
    goneAtTop: bool, kept: Option<Backend>, healthy: set<string>, within: int,
    acquired: bool, goneWaiting: bool, exchange: Exchange, goneAfter: bool,
    jitter: real, stopping: bool, beforeTop: real, inFlight: real, asleep: real)

  /** Time does not run back, a backoff's jitter is within its bounds, and a client that is gone stays gone. */
  ghost predicate Plausible(env: nat -> Round) {
    forall k: nat ::
      && env(k).beforeTop >= 0.0 && env(k).inFlight >= 0.0 && env(k).asleep >= 0.0
      && 0.75 <= env(k).jitter <= 1.25
      && (env(k).goneAfter ==> env(k + 1).goneAtTop)
  }

  datatype Result =
    | Answer(reply: Reply)
    | Refusal(status: int)
    | Raised

  /** What a request does to its gates and sends to their models, a stream or a whole reply asked for, in order. */
  datatype Event =
    | Acquire(model: string, tokens: int, maxTokens: int)
    | Post(model: string, maxTokens: int, streams: bool)
    | Release(model: string, tokens: int, completion: int)
    | Observe(model: string, completion: int)
    | Fail(model: string, wait: real)
    | Succeed(model: string)

  /** All that a request did, its last event first. */
  datatype History = Nothing | After(before: History, last: Event)

  datatype Hold = Idle | Holding(model: string, tokens: int) | Broken

  /**
   * What a history shows: what the request holds, each release giving back exactly the
   * acquire before it; the most it may ask for after its last cut; how many tries, late
   * cuts and failures there were; and whether every acquire was within fair use and what
   * the last cut left.
   */
  datatype Account = Account(hold: Hold, limit: Option<int>, tries: nat, cuts: nat, failures: nat, fair: bool)

  const EMPTY := Account(Idle, None, 0, 0, 0, true)

  predicate Fair(models: Models, a: Account, m: string, tokens: int, maxTokens: int) {
    && m in models && 0 < maxTokens <= tokens < 7 * models[m].context / 20
    && (a.limit.Some? ==> maxTokens <= a.limit.value)
  }

  function Booked(models: Models, a: Account, e: Event): Account {
    var idle := if a.hold == Idle then Idle else Broken;
    match e
    case Acquire(m, t, x) =>
      a.(hold := if a.hold == Idle then Holding(m, t) else Broken, tries := a.tries + 1,
         fair := a.fair && Fair(models, a, m, t, x))
    case Post(m, _, _) => if a.hold.Holding? && a.hold.model == m then a else a.(hold := Broken)
    case Release(m, t, _) => a.(hold := if a.hold == Holding(m, t) then Idle else Broken)
    case Observe(m, n) =>
      a.(hold := idle, cuts := a.cuts + 1,
         limit := Some(Max(if m in models then models[m].floor else 0, 4 * n / 5)))
    case Fail(_, _) => a.(hold := idle, failures := a.failures + 1)
    case Succeed(_) => a.(hold := idle)
  }

  function AccountOf(models: Models, h: History): Account {
    if h.Nothing? then EMPTY else Booked(models, AccountOf(models, h.before), h.last)
  }

  /** Every acquire is within fair use, and within what the last cut before it leaves. */
  predicate FairAcquires(models: Models, h: History) {
    h.After? ==>
      && FairAcquires(models, h.before)
      && (h.last.Acquire? ==>
            Fair(models, AccountOf(models, h.before), h.last.model, h.last.tokens, h.last.maxTokens))
  }

  lemma {:induction false} AccountIsFair(models: Models, h: History)
    requires AccountOf(models, h).fair
    ensures FairAcquires(models, h)
  {
    if h.Nothing? {
    } else {
      AccountIsFair(models, h.before);
    }
  }

  function Pow2(n: nat): real
    decreases n
  {
    if n == 0 then 1.0 else 2.0 * Pow2(n - 1)
  }

  function MinReal(a: real, b: real): real {
    if a < b then a else b
  }

  /** `_retry_after` and `Gate.failed`: the seconds before the next try. */
  function Wait(s: Settings, r: Reply, failures: nat, jitter: real): real
    requires failures > 0
  {
    if r.status == 429 then
      if r.retryAfter.None? then RATE_LIMIT_WAIT else if r.retryAfter.value > 1.0 then r.retryAfter.value else 1.0
    else
      Backoff(s, failures) * jitter
  }

  /** It doubles with each failure, up to a maximum. */
  function Backoff(s: Settings, failures: nat): real
    requires failures > 0
  {
    MinReal(s.backoffMax, s.backoff * Pow2(failures - 1))
  }

  /** It starts at the configured one and doubles with each failure, up to the most. */
  lemma {:induction false} BackoffDoubles(s: Settings, failures: nat)
    requires failures > 0 && 0.0 < s.backoff && 0.0 < s.backoffMax
    ensures Backoff(s, 1) == MinReal(s.backoffMax, s.backoff)
    ensures Backoff(s, failures + 1) == MinReal(s.backoffMax, 2.0 * Backoff(s, failures))
  {
    assert Pow2(failures) == 2.0 * Pow2(failures - 1);
    Pow2AtLeastOne(failures - 1);
    assert Pow2(0) == 1.0;
    assert s.backoff * Pow2(failures) == 2.0 * (s.backoff * Pow2(failures - 1));
  }

  lemma {:induction false} BackoffWithin(s: Settings, failures: nat)
    requires failures > 0 && 0.0 < s.backoff && 0.0 < s.backoffMax
    ensures 0.0 < MinReal(s.backoffMax, s.backoff) <= Backoff(s, failures) <= s.backoffMax
  {
    Pow2AtLeastOne(failures - 1);
    Scaled(s.backoff, 1.0, Pow2(failures - 1));
    assert s.backoff * 1.0 == s.backoff;
  }

  /** The shortest time a failed try costs. */
  function LeastWait(s: Settings): real {
    MinReal(1.0, 0.75 * MinReal(s.backoffMax, s.backoff))
  }

  lemma {:induction false} Pow2AtLeastOne(n: nat)
    ensures Pow2(n) >= 1.0
    decreases n
  {
    if n == 0 {
    } else {
      Pow2AtLeastOne(n - 1);
    }
  }

  lemma {:induction false} WaitAtLeast(s: Settings, r: Reply, failures: nat, jitter: real)
    requires failures > 0 && 0.75 <= jitter && 0.0 < s.backoff && 0.0 < s.backoffMax
    ensures Wait(s, r, failures, jitter) >= LeastWait(s)
    ensures r.status == 429 ==>
              Wait(s, r, failures, jitter) >= (if r.retryAfter.Some? then r.retryAfter.value else RATE_LIMIT_WAIT)
    ensures r.status != 429 && jitter <= 1.25 ==> Wait(s, r, failures, jitter) <= 1.25 * s.backoffMax
  {
    if r.status != 429 {
      BackoffWithin(s, failures);
      JitteredDown(MinReal(s.backoffMax, s.backoff), Backoff(s, failures), jitter);
      if jitter <= 1.25 {
        JitteredUp(Backoff(s, failures), s.backoffMax, jitter);
      }
    }
  }

  lemma {:induction false} JitteredDown(first: real, base: real, jitter: real)
    requires 0.0 < first <= base && 0.75 <= jitter
    ensures MinReal(1.0, 0.75 * first) <= base * jitter
  {
    Scaled(base, 0.75, jitter);
  }

  lemma {:induction false} JitteredUp(base: real, most: real, jitter: real)
    requires 0.0 <= base <= most && jitter <= 1.25
    ensures base * jitter <= 1.25 * most
  {
    Scaled(base, jitter, 1.25);
  }

  lemma {:induction false} Scaled(base: real, less: real, more: real)
    requires base >= 0.0 && less <= more
    ensures base * less <= base * more
  {
    assert base * (more - less) >= 0.0;
  }

  predicate Fails(s: Settings, r: Reply) {
    || r.status == 429 || r.status >= 500
    || (r.status == 200 && !r.done && r.seconds < EARLY_CUT * s.cutSeconds)
  }

  /** `exchange`, with an HTTP or value error turned into a reply of status 599. */
  function ReplyOf(x: Exchange): Reply
    requires !x.Crashed?
  {
    if x.Replied? then x.reply else Reply(599, false, None, None, 0, 0.0, None)
  }

  // ----- what the tries of a request come to, read off the world alone -----

  /** The tokens of a good, flawed or cut reply; a failed exchange has none. */
  function TokensOf(x: Exchange): int {
    if x.Replied? && x.reply.status == 200 then x.reply.completion else 0
  }

  /** What an exchange is worth to the client. */
  datatype Kind = Good | Flawed | CutLate | Failing | Rejected | Crash

  function KindOf(s: Settings, x: Exchange): Kind {
    match x
    case Crashed => Crash
    case Lost => Failing
    case Replied(r) =>
      if r.status == 429 || r.status >= 500 then Failing
      else if r.status != 200 then Rejected
      else if !r.done then (if r.seconds < EARLY_CUT * s.cutSeconds then Failing else CutLate)
      else if r.flaw.Some? && r.finish != Some("length") then Flawed
      else Good
  }

  predicate Complete(x: Exchange) {
    x.Replied? && x.reply.status == 200 && x.reply.done
  }

  /** A complete reply that the agent can use; one at its length limit is not asked for again. */
  predicate Flawless(x: Exchange) {
    Complete(x) && (x.reply.flaw.None? || x.reply.finish == Some("length"))
  }

  predicate IsCut(x: Exchange) {
    x.Replied? && x.reply.status == 200 && !x.reply.done
  }

  /** Lost, refused for now, or broken off well before the cut. */
  predicate Broke(s: Settings, x: Exchange) {
    || x.Lost?
    || (x.Replied? && (x.reply.status == 429 || x.reply.status >= 500))
    || (IsCut(x) && x.reply.seconds < 0.9 * s.cutSeconds)
  }

  lemma {:induction false} KindsAre(s: Settings, x: Exchange)
    ensures KindOf(s, x) == Good <==> Flawless(x)
    ensures KindOf(s, x) == Flawed <==> Complete(x) && !Flawless(x)
    ensures KindOf(s, x) == CutLate <==> IsCut(x) && !Broke(s, x)
    ensures KindOf(s, x) == Failing <==> Broke(s, x)
    ensures KindOf(s, x) == Crash <==> x.Crashed?
  {
  }

  /** Whether a round's try failed, and is tried again after a wait. */
  predicate Waits(s: Settings, r: Round) {
    KindOf(s, r.exchange) == Failing && !r.goneAfter
  }

  /** Of the first `k` rounds: the failures, the late cuts, and the time they took. */
  function FailuresIn(s: Settings, env: nat -> Round, k: nat): nat
    decreases k
  {
    if k == 0 then 0 else FailuresIn(s, env, k - 1) + (if Waits(s, env(k - 1)) then 1 else 0)
  }

  function CutsIn(s: Settings, env: nat -> Round, k: nat): nat
    decreases k
  {
    if k == 0 then 0 else CutsIn(s, env, k - 1) + (if KindOf(s, env(k - 1).exchange) == CutLate then 1 else 0)
  }

  /** The wait after round `k`, if its try failed. */
  function WaitAfter(s: Settings, env: nat -> Round, k: nat): real
    requires KindOf(s, env(k).exchange) == Failing
  {
    Wait(s, ReplyOf(env(k).exchange), FailuresIn(s, env, k) + 1, env(k).jitter)
  }

  function TimeOf(s: Settings, env: nat -> Round, k: nat): real
    decreases k
  {
    if k == 0 then 0.0
    else
      var r := env(k - 1);
      TimeOf(s, env, k - 1) + r.beforeTop + r.inFlight
      + (if Waits(s, r) then WaitAfter(s, env, k - 1) + r.asleep else 0.0)
  }

  /** When the exchange of round `k` is over. */
  function TimeBack(s: Settings, env: nat -> Round, k: nat): real {
    TimeOf(s, env, k) + env(k).beforeTop + env(k).inFlight
  }

  /** A round after which another follows. */
  predicate GoesOn(s: Settings, r: Round) {
    !r.goneAtTop && r.acquired && KindOf(s, r.exchange) in {Failing, CutLate, Flawed}
  }

  /** After a flawed reply one more try is made, and no other. */
  ghost predicate AllWentOn(s: Settings, env: nat -> Round, k: nat) {
    forall j: nat :: j < k ==> GoesOn(s, env(j)) && (KindOf(s, env(j).exchange) == Flawed ==> j == k - 1)
  }

  /** The flawed reply that round `k` is to better. */
  function Kept(s: Settings, env: nat -> Round, k: nat): Option<Reply> {
    if k > 0 && KindOf(s, env(k - 1).exchange) == Flawed then Some(env(k - 1).exchange.reply) else None
  }

  /** What a try sends where: the choice among the backends, and the most output that all limits allow. */
  datatype Target = Target(model: string, tokens: int, maxTokens: int)

  function UsableOf(models: Models, req: Request): Backend -> bool {
    (b: Backend) => UsableBackend(models, req, b)
  }

  function Chosen(models: Models, role: Role, req: Request, r: Round): string
    requires role.backends != []
  {
    Choice(role, r.kept, UsableOf(models, req), r.healthy).model
  }

  function TargetOf(models: Models, role: Role, req: Request, shrink: nat, r: Round): Target
    requires Configured(models, role)
  {
    ChosenIn(models, role, req, r);
    var name := Chosen(models, role, req, r);
    var m := models[name];
    var maxTokens := SizeOf(req, m, r.within, shrink);
    Target(name, Estimate(req, m) + maxTokens, maxTokens)
  }

  lemma {:induction false} ChosenIn(models: Models, role: Role, req: Request, r: Round)
    requires Configured(models, role)
    ensures Chosen(models, role, req, r) in models
  {
    ChoiceIsBest(role, r.kept, UsableOf(models, req), r.healthy);
  }

  /** What a late cut leaves the next tries: less than it reached, so that the next one ends in time. */
  function Shrunk(models: Models, s: Settings, name: string, shrink: nat, x: Exchange): nat
    requires name in models && models[name].floor > 0
  {
    if KindOf(s, x) == CutLate then Max(models[name].floor, 4 * TokensOf(x) / 5) else shrink
  }

  function ShrinkIn(models: Models, s: Settings, role: Role, req: Request, env: nat -> Round, k: nat): nat
    requires Configured(models, role)
    decreases k
  {
    if k == 0 then 0
    else
      ChosenIn(models, role, req, env(k - 1));
      Shrunk(models, s, Chosen(models, role, req, env(k - 1)),
             ShrinkIn(models, s, role, req, env, k - 1), env(k - 1).exchange)
  }

  /** What follows a try, its tokens given back: `kept` is the flawed reply it was to better, if any. */
  function Settled(s: Settings, h: History, name: string, kept: Option<Reply>, failures: nat, r: Round): History {
    match KindOf(s, r.exchange)
    case Failing =>
      if kept.Some? || r.goneAfter then h
      else After(h, Fail(name, Wait(s, ReplyOf(r.exchange), failures + 1, r.jitter)))
    case CutLate => if kept.Some? then h else After(h, Observe(name, TokensOf(r.exchange)))
    case Flawed => if kept.Some? then After(h, Succeed(name)) else h
    case Good => After(h, Succeed(name))
    case _ => h
  }

  /** A try, and what follows it. */
  function AfterTry(
    s: Settings, h: History, to: Target, kept: Option<Reply>, failures: nat, r: Round): History
  {
    Settled(s, Exchanging(h, to, kept.None?, r.exchange), to.model, kept, failures, r)
  }

  function Exchanging(h: History, to: Target, streams: bool, x: Exchange): History {
    var sent := After(After(h, Acquire(to.model, to.tokens, to.maxTokens)), Post(to.model, to.maxTokens, streams));
    After(sent, Release(to.model, to.tokens, TokensOf(x)))
  }

  /** All that the first `n` rounds do, if each makes a try. */
  function HistoryOf(models: Models, s: Settings, role: Role, req: Request, env: nat -> Round, n: nat): History
    requires Configured(models, role)
    decreases n
  {
    if n == 0 then Nothing
    else
      var k: nat := n - 1;
      AfterTry(
        s, HistoryOf(models, s, role, req, env, k),
        TargetOf(models, role, req, ShrinkIn(models, s, role, req, env, k), env(k)),
        Kept(s, env, k), FailuresIn(s, env, k), env(k))
  }

  /** What a round begins with: the flawed reply it is to better, the time, the failures and the late cuts. */
  datatype Standing = Standing(kept: Option<Reply>, now: real, failures: nat, cuts: nat)

  function StandingAt(s: Settings, env: nat -> Round, k: nat): Standing {
    Standing(Kept(s, env, k), TimeOf(s, env, k), FailuresIn(s, env, k), CutsIn(s, env, k))
  }

  /** Whether a round makes a try: the client is there, its request fits, and it gets its turn in time. */
  predicate Tries(s: Settings, tooBig: bool, at: Standing, r: Round) {
    !r.goneAtTop && !tooBig && r.acquired && (at.kept.Some? ==> at.now + r.beforeTop < s.hold)
  }

  /** What the client is told when a round makes no try. */
  predicate ToldUntried(s: Settings, tooBig: bool, at: Standing, r: Round, result: Result) {
    if r.goneAtTop then result == Refusal(499)
    else if at.kept.Some? && at.now + r.beforeTop >= s.hold then result == Answer(at.kept.value)
    else if tooBig then result == Refusal(413)
    else if r.goneWaiting then result == Refusal(499)
    else result == if at.kept.Some? then Answer(at.kept.value) else Refusal(503)
  }

  /** What the client is told when a round's try is the last; `at` is when its exchange is over. */
  predicate ToldTried(s: Settings, at: Standing, r: Round, result: Result) {
    match KindOf(s, r.exchange)
    case Crash => result == Raised
    case Good => result == Answer(r.exchange.reply)
    case Flawed => at.kept.Some? && result == Answer(r.exchange.reply)
    case Rejected => result == Answer(if at.kept.Some? then at.kept.value else r.exchange.reply)
    case CutLate =>
      if at.kept.Some? then result == Answer(at.kept.value)
      else result == Refusal(502) && (at.cuts + 1 > s.cutRetries || at.now >= s.hold)
    case Failing =>
      if at.kept.Some? then result == Answer(at.kept.value)
      else
        && result == Refusal(503) && !r.goneAfter
        && (r.stopping || at.now + Wait(s, ReplyOf(r.exchange), at.failures + 1, r.jitter) >= s.hold)
  }

  /** A round's standing when its exchange is over. */
  function Later(at: Standing, r: Round): Standing {
    at.(now := at.now + r.beforeTop + r.inFlight)
  }

  predicate Comes(s: Settings, tooBig: bool, at: Standing, r: Round, result: Result) {
    if Tries(s, tooBig, at, r) then ToldTried(s, Later(at, r), r, result)
    else ToldUntried(s, tooBig, at, r, result)
  }

  /** What a try that another follows, its exchange over, leaves the next round with. */
  predicate LeadsTo(s: Settings, at: Standing, r: Round, next: Standing) {
    var kind := KindOf(s, r.exchange);
    && kind in {Failing, CutLate, Flawed} && at.kept.None?
    && next.kept == (if kind == Flawed then Some(r.exchange.reply) else None)
    && next.cuts == at.cuts + (if kind == CutLate then 1 else 0)
    && next.failures == at.failures + (if Waits(s, r) then 1 else 0)
    && next.now == at.now +
         if Waits(s, r) then Wait(s, ReplyOf(r.exchange), at.failures + 1, r.jitter) + r.asleep else 0.0
  }

  /** Whether an output is within all that limits it: the client's wish, the gate's cap, fair use and the last cut. */
  predicate Allows(req: Request, m: Model, within: int, shrink: nat, x: int) {
    && (req.maxTokens != 0 ==> x <= req.maxTokens)
    && (req.maxTokens == 0 && req.maxCompletionTokens != 0 ==> x <= req.maxCompletionTokens)
    && (x <= m.floor || (x <= m.ceiling && x <= within))
    && Estimate(req, m) + x < GateSpec.Share(m.context)
    && (shrink != 0 ==> x <= shrink)
  }

  /**
   * The output a try asks for: what the client asked, within the gate's cap, the room
   * fair use leaves and what the last cut left.
   */
  function SizeOf(req: Request, m: Model, within: int, shrink: nat): int {
    var room := Room(Estimate(req, m), m);
    Shaped(req, Min(Min(Cap(m, within), room), if shrink != 0 then shrink else room))
  }

  /** It is positive, fair with its prompt, and as much as all its limits allow. */
  lemma {:induction false} SizeIsMost(req: Request, m: Model, within: int, shrink: nat)
    requires 0 < m.floor <= m.ceiling && Usable(req, m)
    ensures var n := SizeOf(req, m, within, shrink);
            0 < n <= m.ceiling && n <= Estimate(req, m) + n < GateSpec.Share(m.context)
    ensures forall x {:trigger Allows(req, m, within, shrink, x)} ::
              Allows(req, m, within, shrink, x) <==> x <= SizeOf(req, m, within, shrink)
  {
  }

  /** With every backend, prompt and least output together go past fair use. */
  predicate NoneUsable(models: Models, req: Request, role: Role) {
    forall b :: b in role.backends && b.model in models ==>
      var m := models[b.model];
      req.text + req.images * m.imageTokens + m.floor >= 7 * m.context / 20
  }

  /**
   * The locals of the loop, with what it did and what that shows; `gone` is set once a
   * failed try found the client gone.
   */
  datatype Locals = Locals(
    done: History, shown: Account, cuts: nat, shrink: nat, failures: nat, streamed: Option<Reply>, now: real,
    gone: bool)

  /** The locals once the request has done something to its gate. */
  function Did(models: Models, l: Locals, e: Event): Locals {
    l.(done := After(l.done, e), shown := Booked(models, l.shown, e))
  }

  /** The locals show what was done. */
  predicate True(models: Models, l: Locals) {
    l.shown == AccountOf(models, l.done)
  }

  lemma {:induction false} DidTrue(models: Models, l: Locals, e: Event)
    requires True(models, l)
    ensures True(models, Did(models, l, e))
  {
  }

  /** The loop's books: what it counts is what its history shows. */
  predicate Books(l: Locals) {
    var a := l.shown;
    && a.hold == Idle && a.fair && a.cuts == l.cuts && a.failures == l.failures
    && a.tries == l.cuts + l.failures + (if l.streamed.Some? then 1 else 0) + (if l.gone then 1 else 0)
    && a.limit == (if l.shrink == 0 then None else Some(l.shrink))
    && (l.streamed.Some? ==> l.streamed.value.status == 200 && l.streamed.value.done)
  }

  /** The same between a try's release and the end of its pass. */
  predicate Tried(l: Locals) {
    Books(l.(gone := true)) && !l.gone
  }

  /** `n * x` */
  function Times(n: nat, x: real): real
    decreases n
  {
    if n == 0 then 0.0 else Times(n - 1, x) + x
  }

  /** The backoffs so far took their time, and the last of them ended within the hold. */
  predicate Spent(s: Settings, l: Locals) {
    && l.cuts <= s.cutRetries
    && Times(l.failures, LeastWait(s)) <= l.now
    && (l.failures > 0 ==> Times(l.failures, LeastWait(s)) < s.hold)
  }

  /** What every way out of the loop promises of what its history shows. */
  predicate Ends(s: Settings, a: Account) {
    && a.hold == Idle && a.fair
    && a.cuts <= s.cutRetries + 1
    && a.tries <= a.cuts + a.failures + 2
    && (a.failures > 1 ==> Times(a.failures - 1, LeastWait(s)) < s.hold)
  }

  /** So many failures would outlast the hold. */
  lemma {:induction false} TooMany(s: Settings) returns (n: nat)
    requires 0.0 < LeastWait(s)
    ensures Times(n, LeastWait(s)) >= s.hold
  {
    var least := LeastWait(s);
    if s.hold <= 0.0 {
      n := 0;
    } else {
      n := (s.hold / least).Floor + 1;
      TimesIsProduct(n, least);
      assert n as real > s.hold / least;
      assert n as real * least >= (s.hold / least) * least == s.hold;
    }
  }

  lemma {:induction false} TimesIsProduct(n: nat, x: real)
    ensures Times(n, x) == n as real * x
    decreases n
  {
    if n == 0 {
    } else {
      TimesIsProduct(n - 1, x);
      assert n as real == (n - 1) as real + 1.0;
    }
  }

  lemma {:induction false} TimesGrows(m: nat, n: nat, x: real)
    requires m <= n && x >= 0.0
    ensures Times(m, x) <= Times(n, x)
    decreases n
  {
    if m == n {
    } else {
      TimesGrows(m, n - 1, x);
    }
  }

  function StandingOf(l: Locals): Standing {
    Standing(l.streamed, l.now, l.failures, l.cuts)
  }

  // ----- the methods: a pass, from the inside out -----

  /** The failed try of a pass: 503, or a backoff within the hold. */
  method Retry(models: Models, s: Settings, l: Locals, name: string, wait: real, stopping: bool, asleep: real)
    returns (next: Locals, over: Option<Result>)
    requires LeastWait(s) <= wait && 0.0 < LeastWait(s) && asleep >= 0.0
    requires Tried(l) && Spent(s, l) && l.streamed.None?
    ensures next.done == After(l.done, Fail(name, wait)) && next.shown == Booked(models, l.shown, Fail(name, wait))
    ensures over.Some? ==> Ends(s, next.shown) && over.value == Refusal(503)
    ensures over.Some? <==> l.now + wait >= s.hold || stopping
    ensures over.None? ==> Books(next) && Spent(s, next) && !next.gone && Nearing(l, next)
    ensures over.None? ==>
              && StandingOf(next) == Standing(None, l.now + wait + asleep, l.failures + 1, l.cuts)
              && next.shrink == l.shrink
  {
    next := Did(models, l, Fail(name, wait)).(failures := l.failures + 1);
    over := None;
    if l.now + wait >= s.hold || stopping {
      over := Some(Refusal(503));
    } else {
      next := next.(now := l.now + wait + asleep);
    }
  }

  /** A failed try: the client is gone, or it is time for another, or for none. */
  method Again(models: Models, s: Settings, l: Locals, name: string, reply: Reply, r: Round)
    returns (next: Locals, over: Option<Result>)
    requires 0.0 < s.backoff && 0.0 < s.backoffMax && 0.75 <= r.jitter && r.asleep >= 0.0
    requires Tried(l) && Spent(s, l) && l.streamed.None? && True(models, l)
    ensures True(models, next) && (over.None? ==> next.shrink == l.shrink)
    ensures next.done ==
              if r.goneAfter then l.done
              else After(l.done, Fail(name, Wait(s, reply, l.failures + 1, r.jitter)))
    ensures over.Some? ==> Ends(s, next.shown) && over.value == Refusal(503) && !r.goneAfter
    ensures over.Some? ==> r.stopping || l.now + Wait(s, reply, l.failures + 1, r.jitter) >= s.hold
    ensures over.None? ==> Books(next) && Spent(s, next) && next.gone == r.goneAfter && Nearing(l, next)
    ensures over.None? ==>
              StandingOf(next) ==
                if r.goneAfter then StandingOf(l)
                else
                  var wait := Wait(s, reply, l.failures + 1, r.jitter);
                  Standing(None, l.now + wait + r.asleep, l.failures + 1, l.cuts)
  {
    if r.goneAfter {
      next, over := l.(gone := true), None;
    } else {
      var wait := Wait(s, reply, l.failures + 1, r.jitter);
      WaitAtLeast(s, reply, l.failures + 1, r.jitter);
      DidTrue(models, l, Fail(name, wait));
      next, over := Retry(models, s, l, name, wait, r.stopping, r.asleep);
    }
  }

  /** A reply cut late: too many cuts end it, and the next try may take less than this one reached. */
  method Shrink(models: Models, s: Settings, l: Locals, name: string, reply: Reply)
    returns (next: Locals, over: Option<Result>)
    requires name in models && models[name].floor > 0 && 0.0 < s.backoff && 0.0 < s.backoffMax
    requires Tried(l) && Spent(s, l) && l.streamed.None? && True(models, l)
    ensures True(models, next) && next.done == After(l.done, Observe(name, reply.completion))
    ensures over.Some? ==> Ends(s, next.shown) && over.value == Refusal(502)
    ensures over.Some? ==> l.cuts + 1 > s.cutRetries || l.now >= s.hold
    ensures over.None? ==> Books(next) && Spent(s, next) && !next.gone
    ensures over.None? ==>
              && StandingOf(next) == StandingOf(l).(cuts := l.cuts + 1)
              && next.shrink == Max(models[name].floor, 4 * reply.completion / 5)
  {
    DidTrue(models, l, Observe(name, reply.completion));
    next := Did(models, l, Observe(name, reply.completion)).(cuts := l.cuts + 1);
    over := None;
    if next.cuts > s.cutRetries || l.now >= s.hold {
      over := Some(Refusal(502));
    } else {
      next := next.(shrink := Max(models[name].floor, 4 * reply.completion / 5));
    }
  }

  /** What the pass does with a reply, once its tokens are given back. */
  method Settle(models: Models, s: Settings, l: Locals, name: string, reply: Reply, r: Round)
    returns (next: Locals, over: Option<Result>)
    requires 0.0 < s.backoff && 0.0 < s.backoffMax && 0.75 <= r.jitter && r.asleep >= 0.0
    requires name in models && models[name].floor > 0
    requires Tried(l) && Spent(s, l) && True(models, l)
    requires !r.exchange.Crashed? && reply == ReplyOf(r.exchange)
    ensures True(models, next) && next.done == Settled(s, l.done, name, l.streamed, l.failures, r)
    ensures over.None? ==> next.shrink == Shrunk(models, s, name, l.shrink, r.exchange)
    ensures over.Some? ==> Ends(s, next.shown) && ToldTried(s, StandingOf(l), r, over.value)
    ensures over.None? ==> Books(next) && Spent(s, next) && Nearing(l, next) && (next.gone ==> r.goneAfter)
    ensures over.None? ==> LeadsTo(s, StandingOf(l), r, StandingOf(next))
  {
    next, over := l, None;
    if l.streamed.Some? && (reply.status != 200 || !reply.done) {
      over := Some(Answer(l.streamed.value));
    } else if Fails(s, reply) {
      next, over := Again(models, s, l, name, reply, r);
    } else if reply.status != 200 {
      over := Some(Answer(reply));
    } else if !reply.done {
      next, over := Shrink(models, s, l, name, reply);
    } else if reply.flaw.Some? && reply.finish != Some("length") && l.streamed.None? {
      next := l.(streamed := Some(reply));
    } else {
      next := Close(models, s, l, name);
      over := Some(Answer(reply));
    }
  }

  /** A reply that is handed on as the last. */
  method Close(models: Models, s: Settings, l: Locals, name: string) returns (next: Locals)
    requires Tried(l) && Spent(s, l) && True(models, l) && 0.0 < s.backoff && 0.0 < s.backoffMax
    ensures True(models, next) && Ends(s, next.shown) && next.done == After(l.done, Succeed(name))
  {
    DidTrue(models, l, Succeed(name));
    next := Did(models, l, Succeed(name));
  }

  /** Each pass that goes on uses up a cut, the whole retry, the client or a failure. */
  predicate Nearing(l: Locals, next: Locals) {
    || (next.cuts > l.cuts)
    || (next.cuts == l.cuts && l.streamed.None? && next.streamed.Some?)
    || (next.cuts == l.cuts && l.streamed.None? == next.streamed.None? && next.gone && !l.gone)
    || (next.cuts == l.cuts && l.streamed.None? == next.streamed.None? && next.gone == l.gone
        && next.failures > l.failures)
  }

  /** From the acquire on: the `finally` gives back what was acquired, whatever the exchange ends in. */
  method Send(models: Models, s: Settings, start: Locals, to: Target, r: Round)
    returns (next: Locals, over: Option<Result>)
    requires 0.0 < s.backoff && 0.0 < s.backoffMax && r.inFlight >= 0.0 && r.asleep >= 0.0 && 0.75 <= r.jitter
    requires Books(start) && Spent(s, start) && !start.gone && True(models, start)
    requires Fair(models, start.shown, to.model, to.tokens, to.maxTokens) && models[to.model].floor > 0
    ensures True(models, next) && next.done == AfterTry(s, start.done, to, start.streamed, start.failures, r)
    ensures over.Some? ==> Ends(s, next.shown)
    ensures over.None? ==> Books(next) && Spent(s, next) && Nearing(start, next) && (next.gone ==> r.goneAfter)
    ensures over.None? ==> next.shrink == Shrunk(models, s, to.model, start.shrink, r.exchange)
    ensures var at := StandingOf(start).(now := start.now + r.inFlight);
            && (over.Some? ==> ToldTried(s, at, r, over.value))
            && (over.None? ==> LeadsTo(s, at, r, StandingOf(next)))
  {
    var l := Exchanged(models, s, start, to, r);
    if r.exchange.Crashed? {
      return l, Some(Raised);
    }
    next, over := Settle(models, s, l, to.model, ReplyOf(r.exchange), r);
  }

  /** A try: acquired, sent and given back, and nothing held. */
  method Exchanged(models: Models, s: Settings, start: Locals, to: Target, r: Round) returns (l: Locals)
    requires Books(start) && Spent(s, start) && !start.gone && True(models, start) && r.inFlight >= 0.0
    requires Fair(models, start.shown, to.model, to.tokens, to.maxTokens) && 0.0 < s.backoff && 0.0 < s.backoffMax
    ensures Tried(l) && Spent(s, l) && True(models, l) && Ends(s, l.shown)
    ensures StandingOf(l) == StandingOf(start).(now := start.now + r.inFlight) && l.shrink == start.shrink
    ensures l.done == Exchanging(start.done, to, start.streamed.None?, r.exchange)
  {
    var counted := if r.exchange.Replied? && r.exchange.reply.status == 200 then r.exchange.reply.completion else 0;
    var held := Did(models, start, Acquire(to.model, to.tokens, to.maxTokens));
    var sent := Did(models, held, Post(to.model, to.maxTokens, start.streamed.None?));
    l := Did(models, sent, Release(to.model, to.tokens, counted)).(now := start.now + r.inFlight);
    DidTrue(models, start, Acquire(to.model, to.tokens, to.maxTokens));
    DidTrue(models, held, Post(to.model, to.maxTokens, start.streamed.None?));
    DidTrue(models, sent, Release(to.model, to.tokens, counted));
  }

  /** One pass of the loop. */
  method Pass(models: Models, s: Settings, role: Role, req: Request, start: Locals, r: Round)
    returns (next: Locals, over: Option<Result>)
    requires Configured(models, role) && 0.0 < s.backoff && 0.0 < s.backoffMax
    requires r.beforeTop >= 0.0 && r.inFlight >= 0.0 && r.asleep >= 0.0 && 0.75 <= r.jitter
    requires Books(start) && Spent(s, start) && True(models, start)
    requires start.gone ==> r.goneAtTop
    ensures var tooBig := NoneUsable(models, req, role);
            && True(models, next)
            && next.done == (
                 if Tries(s, tooBig, StandingOf(start), r)
                 then AfterTry(s, start.done, TargetOf(models, role, req, start.shrink, r),
                               start.streamed, start.failures, r)
                 else start.done)
            && (over.Some? ==> Comes(s, tooBig, StandingOf(start), r, over.value))
            && (over.None? ==>
                  !r.goneAtTop && r.acquired && !tooBig
                  && LeadsTo(s, Later(StandingOf(start), r), r, StandingOf(next)))
    ensures over.None? ==>
              && Chosen(models, role, req, r) in models
              && next.shrink == Shrunk(models, s, Chosen(models, role, req, r), start.shrink, r.exchange)
    ensures over.Some? ==> Ends(s, next.shown)
    ensures over.None? ==> Books(next) && Spent(s, next) && Nearing(start, next) && (next.gone ==> r.goneAfter)
    ensures !Tries(s, NoneUsable(models, req, role), StandingOf(start), r) ==> next.done == start.done && over.Some?
  {
    next := start.(now := start.now + r.beforeTop);
    var to;
    ChosenIn(models, role, req, r);
    to, over := Turn(models, s, role, req, next, r);
    if over.None? {
      next, over := Send(models, s, next, to, r);
    }
  }

  /** What comes before the try of a pass: it ends the loop, or says what is to be sent where. */
  method Turn(models: Models, s: Settings, role: Role, req: Request, l: Locals, r: Round)
    returns (to: Target, over: Option<Result>)
    requires Configured(models, role) && Books(l) && Spent(s, l) && 0.0 < s.backoff && 0.0 < s.backoffMax
    ensures var tooBig := NoneUsable(models, req, role);
            && (over.None? <==> !r.goneAtTop && !tooBig && r.acquired && (l.streamed.Some? ==> l.now < s.hold))
            && (over.Some? ==>
                  && ToldUntried(s, tooBig, StandingOf(l), r.(beforeTop := 0.0), over.value)
                  && Ends(s, l.shown))
    ensures over.None? ==> to == TargetOf(models, role, req, l.shrink, r)
    ensures over.None? ==> Fair(models, l.shown, to.model, to.tokens, to.maxTokens) && models[to.model].floor > 0
  {
    to := Target("", 0, 0);
    if r.goneAtTop {
      return to, Some(Refusal(499));
    }
    if l.streamed.Some? && l.now >= s.hold {
      return to, Some(Answer(l.streamed.value));
    }
    var backend := Choose(models, role, req, r.kept, r.healthy);
    var m := models[backend.model];
    if Room(Estimate(req, m), m) < m.floor {
      return to, Some(Refusal(413));
    }
    var maxTokens := SizeOf(req, m, r.within, l.shrink);
    SizeIsMost(req, m, r.within, l.shrink);
    assert Allows(req, m, r.within, l.shrink, maxTokens);
    to := Target(backend.model, Estimate(req, m) + maxTokens, maxTokens);
    if r.acquired {
      return to, None;
    }
    over := Some(if r.goneWaiting then Refusal(499)
                 else if l.streamed.Some? then Answer(l.streamed.value) else Refusal(503));
  }

  method Choose(
    models: Models, role: Role, req: Request, kept: Option<Backend>, healthy: set<string>) returns (b: Backend)
    requires Configured(models, role)
    ensures b == Choice(role, kept, UsableOf(models, req), healthy) && b.model in models
    ensures !Usable(req, models[b.model]) <==> NoneUsable(models, req, role)
  {
    var usable := UsableOf(models, req);
    ChoiceIsBest(role, kept, usable, healthy);
    b := Choice(role, kept, usable, healthy);
    forall c | c in role.backends ensures UsableBackend(models, req, c) <==>
        (var m := models[c.model]; req.text + req.images * m.imageTokens + m.floor < 7 * m.context / 20) {
    }
  }

  // ----- the loop -----

  lemma {:induction false} NextStanding(s: Settings, env: nat -> Round, k: nat, next: Standing)
    requires AllWentOn(s, env, k) && !env(k).goneAtTop && env(k).acquired
    requires LeadsTo(s, Later(StandingAt(s, env, k), env(k)), env(k), next)
    ensures next == StandingAt(s, env, k + 1) && AllWentOn(s, env, k + 1)
  {
    assert Kept(s, env, k).None?;
  }

  /** Some try of the first `n` rounds got a reply. */
  ghost predicate ReplyOfSome(env: nat -> Round, n: nat, x: Reply) {
    exists j: nat :: j < n && env(j).acquired && env(j).exchange == Replied(x)
  }

  /** What is told was replied by an upstream, and is no failure. */
  lemma {:induction false} AnswersAreReplies(s: Settings, tooBig: bool, env: nat -> Round, k: nat, x: Reply)
    requires AllWentOn(s, env, k) && Comes(s, tooBig, StandingAt(s, env, k), env(k), Answer(x))
    ensures ReplyOfSome(env, k + 1, x) && x.status != 429 && x.status < 500 && (x.status == 200 ==> x.done)
  {
    if Kept(s, env, k) == Some(x) {
      assert GoesOn(s, env(k - 1));
      assert env(k - 1).exchange == Replied(x);
    } else {
      assert env(k).exchange == Replied(x);
    }
  }

  /** Whether a round's exchange has another round follow, and a last one after a flawed reply. */
  predicate IsTriedAgain(s: Settings, r: Round, last: bool) {
    && !r.goneAtTop && r.acquired
    && (Broke(s, r.exchange) || IsCut(r.exchange) || (Complete(r.exchange) && !Flawless(r.exchange) && last))
  }

  /** What follows for the client from a run whose last round is `k`. */
  ghost predicate Promised(s: Settings, tooBig: bool, env: nat -> Round, k: nat, result: Result)
  {
    var r := env(k);
    var tried, whole := Tries(s, tooBig, StandingAt(s, env, k), r), k > 0 && Complete(env(k - 1).exchange);
    // A request is refused for its size exactly when no backend of its role could take it.
    && (tooBig ==> k == 0 && result == if r.goneAtTop then Refusal(499) else Refusal(413))
    && (result == Refusal(413) ==> tooBig)
    && (result == Refusal(499) ==> r.goneAtTop || r.goneWaiting)
    // The first flawless reply is the answer, and at once if the first try gets it.
    && (!tooBig && !env(0).goneAtTop && env(0).acquired && Flawless(env(0).exchange) ==>
          result == Answer(env(0).exchange.reply))
    && (forall j: nat :: j < k ==> IsTriedAgain(s, env(j), j == k - 1))
    && (tried && Flawless(r.exchange) ==> result == Answer(r.exchange.reply))
    // A flawed reply is asked for once more, and stands if that does not give a complete one.
    && (tried && Complete(r.exchange) && !Flawless(r.exchange) ==> whole)
    && (whole && result.Answer? ==>
          result.reply == if tried && Complete(r.exchange) then r.exchange.reply else env(k - 1).exchange.reply)
    && (whole && result.Refusal? ==> result == Refusal(499))
    // What is answered is a reply that some try got, and no failure.
    && (result.Answer? ==>
          && ReplyOfSome(env, k + 1, result.reply) && result.reply.status != 429 && result.reply.status < 500
          && (result.reply.status == 200 ==> result.reply.done))
    && (result.Refusal? ==> result.status in {413, 499, 502, 503})
    && (result.Raised? <==> tried && r.exchange.Crashed?)
    // 503 and 502 are told of failures and of cuts that nothing is left to try again for.
    && (result == Refusal(503) ==>
          || !r.acquired
          || (Broke(s, r.exchange) && (r.stopping || TimeBack(s, env, k) + WaitAfter(s, env, k) >= s.hold)))
    && (result == Refusal(502) ==>
          && IsCut(r.exchange) && !Broke(s, r.exchange)
          && (CutsIn(s, env, k + 1) > s.cutRetries || TimeBack(s, env, k) >= s.hold))
  }

  lemma {:induction false} ToldIsPromised(s: Settings, tooBig: bool, env: nat -> Round, k: nat, result: Result)
    requires AllWentOn(s, env, k) && Comes(s, tooBig, StandingAt(s, env, k), env(k), result) && (tooBig ==> k == 0)
    ensures Promised(s, tooBig, env, k, result)
  {
    KindsAre(s, env(k).exchange);
    if result.Answer? {
      AnswersAreReplies(s, tooBig, env, k, result.reply);
    }
    forall j: nat | j < k ensures IsTriedAgain(s, env(j), j == k - 1) {
      assert GoesOn(s, env(j));
      KindsAre(s, env(j).exchange);
    }
  }

  /** Where a request goes: where its session last went if that will do, or to the first of the best backends. */
  ghost predicate GoesTo(models: Models, role: Role, req: Request, r: Round, name: string) {
    if r.kept.Some? && r.kept.value in role.backends && r.kept.value.model in r.healthy
       && UsableBackend(models, req, r.kept.value)
    then name == r.kept.value.model
    else
      exists i :: 0 <= i < |role.backends|
        && IsFirstBest(role.backends, i, UsableOf(models, req), r.healthy) && name == role.backends[i].model
  }

  /** A try goes there with its prompt's tokens, and as much output as all limits allow. */
  lemma {:induction false} TargetIs(models: Models, role: Role, req: Request, shrink: nat, r: Round)
    requires Configured(models, role)
    ensures var to := TargetOf(models, role, req, shrink, r);
            && GoesTo(models, role, req, r, to.model) && to.model in models
            && var m := models[to.model];
               && to.tokens == req.text + req.images * m.imageTokens + to.maxTokens
               && (Usable(req, m) ==>
                     forall x {:trigger Allows(req, m, r.within, shrink, x)} ::
                       Allows(req, m, r.within, shrink, x) <==> x <= to.maxTokens)
  {
    var usable := UsableOf(models, req);
    ChosenIn(models, role, req, r);
    if Keeps(role, r.kept, usable, r.healthy) {
      SessionStays(role, r.kept.value, usable, r.healthy);
    } else {
      var i := ChoiceIsFirstBest(role, r.kept, usable, r.healthy);
    }
    var m := models[Chosen(models, role, req, r)];
    if Usable(req, m) {
      SizeIsMost(req, m, r.within, shrink);
    }
  }

  /** What a try that followed `tried` does in `more`, and what its gate hears of it after that. */
  predicate Does(
    s: Settings, tried: History, more: History, to: Target, whole: bool, failures: nat, r: Round)
  {
    var x := r.exchange;
    var sent := After(After(tried, Acquire(to.model, to.tokens, to.maxTokens)), Post(to.model, to.maxTokens, !whole));
    var back := After(sent, Release(to.model, to.tokens, if Complete(x) || IsCut(x) then x.reply.completion else 0));
    if Flawless(x) || (Complete(x) && whole) then more == After(back, Succeed(to.model))
    else if whole then more == back
    else if Broke(s, x) && !r.goneAfter then
      more == After(back, Fail(to.model, Wait(s, ReplyOf(x), failures + 1, r.jitter)))
    else if IsCut(x) && !Broke(s, x) then more == After(back, Observe(to.model, x.reply.completion))
    else more == back
  }

  /**
   * The history of a run, try by try: each gives back what it acquired, with the tokens its
   * reply has; only one after a flawed reply asks for a whole reply; and the gate hears of a
   * complete reply that is handed on, of a failure and its wait, and of a late cut.
   */
  lemma {:induction false} TryDoes(
    models: Models, s: Settings, role: Role, req: Request, env: nat -> Round, k: nat)
    requires Configured(models, role) && AllWentOn(s, env, k)
    ensures Does(s, HistoryOf(models, s, role, req, env, k), HistoryOf(models, s, role, req, env, k + 1),
                 TargetOf(models, role, req, ShrinkIn(models, s, role, req, env, k), env(k)),
                 k > 0 && Complete(env(k - 1).exchange), FailuresIn(s, env, k), env(k))
  {
    KindsAre(s, env(k).exchange);
    if k > 0 {
      KindsAre(s, env(k - 1).exchange);
      assert GoesOn(s, env(k - 1));
    }
  }

  /**
   * Ends on every plausible world. Whatever it ends in, it gave back exactly what
   * it acquired, asked for no more than fair use and its last cut allow, never
   * hands on a cut reply as a good one, and refuses a request for its size only,
   * and always, when no backend of its role could take it.
   *
   * All rounds but the `last` made a try that failed, was cut late or was flawed; the
   * client is told what the last one comes to. So the first
   * good reply is the answer, what is answered is a reply that some try got, and 503 and
   * 502 are told only of failures and of cuts that nothing was left to try again for.
   * What it did to the gates is what the world's rounds make it do, and nothing else.
   */
  method Run(models: Models, s: Settings, role: Role, req: Request, env: nat -> Round)
    returns (result: Result, done: History, last: nat)
    requires Configured(models, role) && 0.0 < s.backoff && 0.0 < s.backoffMax
    requires Plausible(env)
    ensures Ends(s, AccountOf(models, done)) && FairAcquires(models, done)
    ensures NoneUsable(models, req, role) ==> done == Nothing
    ensures Promised(s, NoneUsable(models, req, role), env, last, result)
    ensures var tried := Tries(s, NoneUsable(models, req, role), StandingAt(s, env, last), env(last));
            done == HistoryOf(models, s, role, req, env, if tried then last + 1 else last)
  {
    result, done, last := Rounds(models, s, role, req, env);
    ToldIsPromised(s, NoneUsable(models, req, role), env, last, result);
  }

  /** The loop: its passes until one ends it. */
  method Rounds(models: Models, s: Settings, role: Role, req: Request, env: nat -> Round)
    returns (result: Result, done: History, last: nat)
    requires Configured(models, role) && 0.0 < s.backoff && 0.0 < s.backoffMax
    requires Plausible(env)
    ensures Ends(s, AccountOf(models, done)) && FairAcquires(models, done)
    ensures AllWentOn(s, env, last) && (NoneUsable(models, req, role) ==> last == 0 && done == Nothing)
    ensures Comes(s, NoneUsable(models, req, role), StandingAt(s, env, last), env(last), result)
    ensures var tried := Tries(s, NoneUsable(models, req, role), StandingAt(s, env, last), env(last));
            done == HistoryOf(models, s, role, req, env, if tried then last + 1 else last)
  {
    var k := 0;
    var l := Locals(Nothing, EMPTY, 0, 0, 0, None, 0.0, false);
    ghost var most := TooMany(s);
    while true
      invariant Books(l) && Spent(s, l) && True(models, l)
      invariant l.gone ==> env(k).goneAtTop
      invariant NoneUsable(models, req, role) ==> k == 0 && l.done == Nothing
      invariant Stands(models, s, role, req, env, k, l) && l.failures <= most
      decreases s.cutRetries - l.cuts, l.streamed.None?, !l.gone, most - l.failures
    {
      var next, over := Pass(models, s, role, req, l, env(k));
      if over.Some? {
        LastPass(models, s, role, req, env, k, l, next, over.value);
        return over.value, next.done, k;
      }
      NextPass(models, s, role, req, env, k, l, next);
      AtMost(s, next, most);
      l, k := next, k + 1;
    }
  }

  /** Failures that the hold still covers are fewer than too many. */
  lemma {:induction false} AtMost(s: Settings, l: Locals, most: nat)
    requires Spent(s, l) && 0.0 < LeastWait(s) && Times(most, LeastWait(s)) >= s.hold
    ensures l.failures <= most
  {
    if l.failures > most {
      TimesGrows(most, l.failures, LeastWait(s));
    }
  }

  /** At the top of round `k` the loop stands where the rounds before it leave it. */
  ghost predicate Stands(
    models: Models, s: Settings, role: Role, req: Request, env: nat -> Round, k: nat, l: Locals)
    requires Configured(models, role)
  {
    && StandingOf(l) == StandingAt(s, env, k) && AllWentOn(s, env, k)
    && l.shrink == ShrinkIn(models, s, role, req, env, k) && l.done == HistoryOf(models, s, role, req, env, k)
  }

  lemma {:induction false} NextPass(
    models: Models, s: Settings, role: Role, req: Request, env: nat -> Round, k: nat, l: Locals, next: Locals)
    requires Configured(models, role)
    requires Stands(models, s, role, req, env, k, l) && !env(k).goneAtTop && env(k).acquired
    requires LeadsTo(s, Later(StandingOf(l), env(k)), env(k), StandingOf(next))
    requires next.done ==
               AfterTry(s, l.done, TargetOf(models, role, req, l.shrink, env(k)), l.streamed, l.failures, env(k))
    requires Chosen(models, role, req, env(k)) in models
    requires next.shrink == Shrunk(models, s, Chosen(models, role, req, env(k)), l.shrink, env(k).exchange)
    ensures Stands(models, s, role, req, env, k + 1, next)
  {
    NextStanding(s, env, k, StandingOf(next));
  }

  lemma {:induction false} LastPass(
    models: Models, s: Settings, role: Role, req: Request, env: nat -> Round, k: nat, l: Locals, next: Locals,
    result: Result)
    requires Configured(models, role) && True(models, next) && next.shown.fair
    requires Stands(models, s, role, req, env, k, l)
    requires var tooBig := NoneUsable(models, req, role);
             && Comes(s, tooBig, StandingOf(l), env(k), result)
             && next.done == (
                  if Tries(s, tooBig, StandingOf(l), env(k))
                  then AfterTry(s, l.done, TargetOf(models, role, req, l.shrink, env(k)),
                                l.streamed, l.failures, env(k))
                  else l.done)
    ensures var tooBig := NoneUsable(models, req, role);
            && AllWentOn(s, env, k) && Comes(s, tooBig, StandingAt(s, env, k), env(k), result)
            && FairAcquires(models, next.done)
            && next.done == HistoryOf(models, s, role, req, env,
                                      if Tries(s, tooBig, StandingAt(s, env, k), env(k)) then k + 1 else k)
  {
    AccountIsFair(models, next.done);
  }
}
