/** Every interleaving of `Linking`'s calls at their awaits, and of restarts: where a link comes from. */
module LinkingRuns {
  import opened Collections
  import opened Optional
  import opened Linking

  /** What happened, each note pointing at the one it follows from. */
  datatype Note =
    | Made(state: string, user: string, at: real)
    | Taken(state: string, user: string, from: nat, at: real)
    | Issued(user: string, hubUser: string, code: string, from: nat, at: real)
    | Missed(from: nat)
    | Accepted(user: string, typed: string, hubUser: string, from: nat, at: real)
    | Bound(user: string, hubUser: string, from: nat)

  /** A `login` waiting for the Hub, and the note of its link's being taken up. */
  datatype Login = Login(user: string, from: nat)
  /** A `confirm` waiting for the Hub, and the note of its code's being accepted. */
  datatype Confirm = Confirm(user: string, hubUser: string, from: nat)

  /** The memory, the calls that wait, and the notes: the one that made each state, code and link. */
  datatype System = System(
    memory: Memory, logins: seq<Login>, confirms: seq<Confirm>, log: seq<Note>,
    madeAt: map<string, nat>, issuedAt: map<string, nat>, boundAt: map<string, nat>)

  datatype Event =
    | Offer(user: string, state: string, now: real)
    | TakeUp(state: string, now: real)
    | LoggedIn(k: nat, hubUser: Option<string>, oauthToken: string, drawn: string, now: real)
    | Try(user: string, code: string, now: real)
    | Minted(k: nat, token: string, expires: real)
    | LoginFails(k: nat)
    | ConfirmFails(k: nat)
    | Forget(user: string)
    | Restart

  const START := System(NEW, [], [], [], map[], map[], map[])

  /** States are drawn at random, each a new one. */
  predicate Enabled(s: System, e: Event) {
    match e
    case Offer(_, state, _) => state !in s.madeAt
    case LoggedIn(k, _, _, _, _) => k < |s.logins|
    case Minted(k, _, _) => k < |s.confirms|
    case LoginFails(k) => k < |s.logins|
    case ConfirmFails(k) => k < |s.confirms|
    case _ => true
  }

  function Next(s: System, e: Event): System
    requires Enabled(s, e)
  {
    var m, at := s.memory, |s.log|;
    match e
    case Offer(user, state, now) =>
      s.(memory := Offered(m, user, state, now), log := s.log + [Made(state, user, now)],
          madeAt := s.madeAt[state := at])
    case TakeUp(state, now) =>
      if !Works(m, state, now) then s
      else
        var user := m.pending[state].user;
        s.(memory := TakenUp(m, state), logins := s.logins + [Login(user, at)],
           log := s.log + [Taken(state, user, if state in s.madeAt then s.madeAt[state] else 0, now)])
    case LoggedIn(k, hubUser, oauthToken, drawn, now) =>
      var l := s.logins[k];
      var s := s.(logins := Without(s.logins, k));
      if hubUser.None? then s
      else s.(memory := Kept(m, l.user, Code(drawn, oauthToken, hubUser.value, now + CODE_SECONDS, 0)),
              log := s.log + [Issued(l.user, hubUser.value, drawn, l.from, now)], issuedAt := s.issuedAt[l.user := at])
    case Try(user, code, now) =>
      var s' := s.(memory := AfterTry(m, user, code, now));
      var from := if user in s.issuedAt then s.issuedAt[user] else 0;
      (match Judged(m, user, code, now)
       case NoCode => s'
       case Wrong => s'.(log := s.log + [Missed(from)])
       case Right => s'.(log := s.log + [Accepted(user, code, m.codes[user].hubUser, from, now)],
                         confirms := s.confirms + [Confirm(user, m.codes[user].hubUser, at)]))
    case Minted(k, token, expires) =>
      var c := s.confirms[k];
      s.(memory := Joined(m, c.user, Link(token, c.hubUser, expires)), confirms := Without(s.confirms, k),
         log := s.log + [Bound(c.user, c.hubUser, c.from)], boundAt := s.boundAt[c.user := at])
    case LoginFails(k) => s.(logins := Without(s.logins, k))
    case ConfirmFails(k) => s.(confirms := Without(s.confirms, k))
    case Forget(user) => s.(memory := Forgotten(m, user))
    case Restart =>
      s.(memory := Memory(m.savedLinked, m.savedPending, map[], m.savedLinked, m.savedPending), logins := [],
          confirms := [])
  }

  ghost predicate IsRun(states: seq<System>, events: seq<Event>) {
    && |states| == |events| + 1 && states[0] == START
    && forall k {:trigger events[k]} :: 0 <= k < |events| ==>
         Enabled(states[k], events[k]) && states[k + 1] == Next(states[k], events[k])
  }

  // ----- the invariant, part by part -----

  predicate NoteOk(log: seq<Note>, i: nat)
    requires i < |log|
  {
    match log[i]
    case Made(_, _, _) => true
    case Taken(state, user, f, at) =>
      f < i && log[f].Made? && log[f].state == state && log[f].user == user && at < log[f].at + LINK_SECONDS
    case Issued(user, _, _, f, _) => f < i && log[f].Taken? && log[f].user == user
    case Missed(f) => f < i && log[f].Issued?
    case Accepted(user, typed, hubUser, f, at) =>
      && f < i && log[f].Issued? && log[f].user == user && log[f].hubUser == hubUser && log[f].code == typed
      && at < log[f].at + CODE_SECONDS
    case Bound(user, hubUser, f) => f < i && log[f].Accepted? && log[f].user == user && log[f].hubUser == hubUser
  }

  predicate LogOk(log: seq<Note>) {
    forall i :: 0 <= i < |log| ==> NoteOk(log, i)
  }

  predicate TakenOnce(log: seq<Note>) {
    forall i, j :: 0 <= i < j < |log| && log[i].Taken? && log[j].Taken? ==> log[i].state != log[j].state
  }

  predicate AcceptedOnce(log: seq<Note>) {
    forall i, j :: 0 <= i < j < |log| && log[i].Accepted? && log[j].Accepted? ==> log[i].from != log[j].from
  }

  function Misses(log: seq<Note>, issue: nat): nat
    decreases |log|
  {
    if log == [] then 0
    else Misses(log[..|log| - 1], issue) + (if log[|log| - 1] == Missed(issue) then 1 else 0)
  }

  /** No code outlives CODE_ATTEMPTS wrong tries, and an accepted one saw fewer. */
  ghost predicate FewMisses(log: seq<Note>) {
    && (forall c: nat :: Misses(log, c) <= CODE_ATTEMPTS)
    && (forall i :: 0 <= i < |log| && log[i].Accepted? ==> Misses(log, log[i].from) < CODE_ATTEMPTS)
  }

  /** A pending state was made for its user, the only one pending for them, and not taken up yet. */
  predicate PendingOk(log: seq<Note>, pending: map<string, Pending>, madeAt: map<string, nat>) {
    && (forall s :: s in pending ==>
          s in madeAt && madeAt[s] < |log|
          && log[madeAt[s]] == Made(s, pending[s].user, pending[s].expires - LINK_SECONDS))
    && (forall i :: 0 <= i < |log| && log[i].Taken? ==> log[i].state in madeAt && log[i].state !in pending)
    && (forall s, t :: s in pending && t in pending && pending[s].user == pending[t].user ==> s == t)
  }

  predicate LoginsOk(log: seq<Note>, logins: seq<Login>) {
    forall l :: l in logins ==> l.from < |log| && log[l.from].Taken? && log[l.from].user == l.user
  }

  predicate CodeOk(log: seq<Note>, user: string, c: Code, at: nat) {
    && at < |log| && log[at].Issued?
    && log[at].user == user && log[at].hubUser == c.hubUser && log[at].code == c.code
        && log[at].at == c.expires - CODE_SECONDS
    && Misses(log, at) == c.attempts < CODE_ATTEMPTS
    && forall i :: 0 <= i < |log| && log[i].Accepted? ==> log[i].from != at
  }

  predicate CodesOk(log: seq<Note>, codes: map<string, Code>, issuedAt: map<string, nat>) {
    forall u :: u in codes ==> u in issuedAt && CodeOk(log, u, codes[u], issuedAt[u])
  }

  predicate ConfirmsOk(log: seq<Note>, confirms: seq<Confirm>) {
    forall c :: c in confirms ==>
      c.from < |log| && log[c.from].Accepted? && log[c.from].user == c.user && log[c.from].hubUser == c.hubUser
  }

  predicate LinkedOk(log: seq<Note>, linked: map<string, Link>, boundAt: map<string, nat>) {
    && (forall u :: u in linked ==>
          && u in boundAt && boundAt[u] < |log| && log[boundAt[u]].Bound?
          && log[boundAt[u]].user == u && log[boundAt[u]].hubUser == linked[u].hubUser)
    && (forall u, v :: u in linked && v in linked && linked[u].hubUser == linked[v].hubUser ==> u == v)
  }

  ghost predicate Inv(s: System) {
    && LogOk(s.log) && TakenOnce(s.log) && AcceptedOnce(s.log) && FewMisses(s.log)
    && PendingOk(s.log, s.memory.pending, s.madeAt)
    && LoginsOk(s.log, s.logins)
    && CodesOk(s.log, s.memory.codes, s.issuedAt)
    && ConfirmsOk(s.log, s.confirms)
    && LinkedOk(s.log, s.memory.linked, s.boundAt)
    && s.memory.savedLinked == s.memory.linked && s.memory.savedPending == s.memory.pending
  }

  // ----- one more note -----

  lemma {:induction false} MissesMore(log: seq<Note>, n: Note, c: nat)
    ensures Misses(log + [n], c) == Misses(log, c) + (if n == Missed(c) then 1 else 0)
  {
    assert (log + [n])[..|log|] == log;
  }

  lemma {:induction false} MissesNone(log: seq<Note>, c: nat)
    requires LogOk(log) && c >= |log|
    ensures Misses(log, c) == 0
    decreases |log|
  {
    if log == [] {
    } else {
      var before := log[..|log| - 1];
      assert NoteOk(log, |log| - 1);
      forall i | 0 <= i < |before| ensures NoteOk(before, i) { assert NoteOk(log, i); }
      MissesNone(before, c);
    }
  }

  lemma {:induction false} LogMore(log: seq<Note>, n: Note)
    requires LogOk(log) && NoteOk(log + [n], |log|)
    ensures LogOk(log + [n])
  {
    forall i | 0 <= i < |log + [n]| ensures NoteOk(log + [n], i) {
      if i < |log| {
        assert NoteOk(log, i);
      }
    }
  }

  /** A note that is no try leaves the codes as they are. */
  lemma {:induction false} CodesMore(log: seq<Note>, n: Note, codes: map<string, Code>, issuedAt: map<string, nat>)
    requires CodesOk(log, codes, issuedAt) && !n.Missed? && !n.Accepted?
    ensures CodesOk(log + [n], codes, issuedAt)
  {
    forall u | u in codes ensures CodeOk(log + [n], u, codes[u], issuedAt[u]) {
      MissesMore(log, n, issuedAt[u]);
    }
  }

  /** A try at `user`'s code leaves the others' as they are. */
  lemma {:induction false} OtherCodesMore(
    log: seq<Note>, n: Note, user: string, codes: map<string, Code>, issuedAt: map<string, nat>)
    requires CodesOk(log, codes, issuedAt) && user in codes
    requires n == Missed(issuedAt[user]) || (n.Accepted? && n.from == issuedAt[user])
    ensures CodesOk(log + [n], codes - {user}, issuedAt)
  {
    forall u | u in codes - {user} ensures CodeOk(log + [n], u, codes[u], issuedAt[u]) {
      assert CodeOk(log, user, codes[user], issuedAt[user]) && CodeOk(log, u, codes[u], issuedAt[u]);
      MissesMore(log, n, issuedAt[u]);
    }
  }

  lemma {:induction false} FewMissesMore(log: seq<Note>, n: Note)
    requires FewMisses(log)
    requires n.Missed? ==>
      Misses(log, n.from) < CODE_ATTEMPTS && forall i :: 0 <= i < |log| && log[i].Accepted? ==> log[i].from != n.from
    requires n.Accepted? ==> Misses(log, n.from) < CODE_ATTEMPTS
    ensures FewMisses(log + [n])
  {
    forall c: nat ensures Misses(log + [n], c) <= CODE_ATTEMPTS { MissesMore(log, n, c); }
    forall i | 0 <= i < |log + [n]| && (log + [n])[i].Accepted?
        ensures Misses(log + [n], (log + [n])[i].from) < CODE_ATTEMPTS {
      MissesMore(log, n, (log + [n])[i].from);
    }
  }

  /** The parts that a note of any kind keeps. */
  lemma {:induction false} RestMore(s: System, n: Note)
    requires Inv(s)
    ensures LoginsOk(s.log + [n], s.logins) && ConfirmsOk(s.log + [n], s.confirms)
    ensures LinkedOk(s.log + [n], s.memory.linked, s.boundAt)
    ensures !n.Taken? ==> TakenOnce(s.log + [n]) && PendingOk(s.log + [n], s.memory.pending, s.madeAt)
    ensures !n.Accepted? ==> AcceptedOnce(s.log + [n])
  {
  }

  // ----- each step -----

  lemma {:induction false} OfferKeeps(s: System, e: Event)
    requires Inv(s) && Enabled(s, e) && e.Offer?
    ensures Inv(Next(s, e))
  {
    OfferChanges(s, e);
    OfferKeepsLog(s, e);
    OfferKeepsRest(s, e);
  }

  lemma {:induction false} OfferKeepsLog(s: System, e: Event)
    requires Inv(s) && Enabled(s, e) && e.Offer?
    ensures var log := s.log + [Made(e.state, e.user, e.now)];
            LogOk(log) && TakenOnce(log) && AcceptedOnce(log) && FewMisses(log)
  {
    var n := Made(e.state, e.user, e.now);
    LogMore(s.log, n);
    RestMore(s, n);
    FewMissesMore(s.log, n);
  }

  lemma {:induction false} OfferKeepsRest(s: System, e: Event)
    requires Inv(s) && Enabled(s, e) && e.Offer?
    ensures var log := s.log + [Made(e.state, e.user, e.now)];
            && LoginsOk(log, s.logins) && CodesOk(log, s.memory.codes, s.issuedAt)
            && ConfirmsOk(log, s.confirms) && LinkedOk(log, s.memory.linked, s.boundAt)
            && PendingOk(
                 log, Others(s.memory.pending, e.user, e.now)[e.state := Pending(e.user, e.now + LINK_SECONDS)],
                 s.madeAt[e.state := |s.log|])
  {
    var n := Made(e.state, e.user, e.now);
    RestMore(s, n);
    CodesMore(s.log, n, s.memory.codes, s.issuedAt);
    OfferKeepsPending(s.log, s.memory.pending, s.madeAt, e.user, e.state, e.now);
  }

  /** An offer changes what is pending, and nothing of codes, links and calls under way. */
  lemma {:induction false} OfferChanges(s: System, e: Event)
    requires Enabled(s, e) && e.Offer?
    ensures var t := Next(s, e);
            && t.log == s.log + [Made(e.state, e.user, e.now)] && t.madeAt == s.madeAt[e.state := |s.log|]
            && t.memory.pending
               == Others(s.memory.pending, e.user, e.now)[e.state := Pending(e.user, e.now + LINK_SECONDS)]
            && t.memory.codes == s.memory.codes && t.memory.linked == s.memory.linked
            && t.logins == s.logins && t.confirms == s.confirms
            && t.issuedAt == s.issuedAt && t.boundAt == s.boundAt
            && t.memory.savedLinked == t.memory.linked && t.memory.savedPending == t.memory.pending
  {
  }

  /** The new state is made for its user, and is the only one pending for them. */
  lemma {:induction false} OfferKeepsPending(
    log: seq<Note>, pending: map<string, Pending>, madeAt: map<string, nat>, user: string, state: string, now: real)
    requires PendingOk(log, pending, madeAt) && state !in madeAt
    ensures PendingOk(
              log + [Made(state, user, now)], Others(pending, user, now)[state := Pending(user, now + LINK_SECONDS)],
              madeAt[state := |log|])
  {
    var n := Made(state, user, now);
    var left := Others(pending, user, now)[state := Pending(user, now + LINK_SECONDS)];
    var made := madeAt[state := |log|];
    forall s | s in left
      ensures s in made && made[s] < |log + [n]|
      ensures (log + [n])[made[s]] == Made(s, left[s].user, left[s].expires - LINK_SECONDS)
    {
      if s != state {
        assert s in pending && left[s] == pending[s] && made[s] == madeAt[s];
      }
    }
    forall i | 0 <= i < |log + [n]| && (log + [n])[i].Taken?
      ensures (log + [n])[i].state in made && (log + [n])[i].state !in left
    {
      assert i < |log| && log[i].state in madeAt;
    }
    OnlyOffer(pending, user, state, now);
  }

  lemma {:induction false} OnlyOffer(pending: map<string, Pending>, user: string, state: string, now: real)
    requires forall s, t :: s in pending && t in pending && pending[s].user == pending[t].user ==> s == t
    ensures var left := Others(pending, user, now)[state := Pending(user, now + LINK_SECONDS)];
            forall s, t :: s in left && t in left && left[s].user == left[t].user ==> s == t
  {
    var left := Others(pending, user, now)[state := Pending(user, now + LINK_SECONDS)];
    forall s, t | s in left && t in left && left[s].user == left[t].user ensures s == t {
      assert s != state ==> s in pending && pending[s].user != user;
      assert t != state ==> t in pending && pending[t].user != user;
    }
  }

  lemma {:induction false} TakenKeepsPending(
    log: seq<Note>, n: Note, pending: map<string, Pending>, madeAt: map<string, nat>)
    requires PendingOk(log, pending, madeAt) && TakenOnce(log) && n.Taken? && n.state in pending
    ensures PendingOk(log + [n], pending - {n.state}, madeAt) && TakenOnce(log + [n])
  {
  }

  lemma {:induction false} TakenOk(log: seq<Note>, m: Memory, madeAt: map<string, nat>, state: string, now: real)
    requires LogOk(log) && PendingOk(log, m.pending, madeAt) && Works(m, state, now)
    ensures LogOk(log + [Taken(state, m.pending[state].user, madeAt[state], now)])
  {
    LogMore(log, Taken(state, m.pending[state].user, madeAt[state], now));
  }

  lemma {:induction false} TakeUpKeeps(s: System, e: Event)
    requires Inv(s) && Enabled(s, e) && e.TakeUp? && Works(s.memory, e.state, e.now)
    ensures Inv(Next(s, e))
  {
    var n := Taken(e.state, s.memory.pending[e.state].user, s.madeAt[e.state], e.now);
    TakenOk(s.log, s.memory, s.madeAt, e.state, e.now);
    TakenKeepsPending(s.log, n, s.memory.pending, s.madeAt);
    RestMore(s, n);
    FewMissesMore(s.log, n);
    CodesMore(s.log, n, s.memory.codes, s.issuedAt);
  }

  lemma {:induction false} LoggedInKeeps(s: System, e: Event)
    requires Inv(s) && Enabled(s, e) && e.LoggedIn? && e.hubUser.Some?
    ensures Inv(Next(s, e))
  {
    var l := s.logins[e.k];
    var n := Issued(l.user, e.hubUser.value, e.drawn, l.from, e.now);
    assert l in s.logins;
    LogMore(s.log, n);
    RestMore(s, n);
    FewMissesMore(s.log, n);
    CodesMore(s.log, n, s.memory.codes, s.issuedAt);
    MissesNone(s.log, |s.log|);
    MissesMore(s.log, n, |s.log|);
    var c := Code(e.drawn, e.oauthToken, e.hubUser.value, e.now + CODE_SECONDS, 0);
    assert CodeOk(s.log + [n], l.user, c, |s.log|) by {
      forall i | 0 <= i < |s.log| && s.log[i].Accepted? ensures s.log[i].from != |s.log| { assert NoteOk(s.log, i); }
    }
  }

  lemma {:induction false} MissKeepsCodes(
    log: seq<Note>, user: string, codes: map<string, Code>, issuedAt: map<string, nat>)
    requires CodesOk(log, codes, issuedAt) && user in codes && codes[user].attempts + 1 < CODE_ATTEMPTS
    ensures CodesOk(log + [Missed(issuedAt[user])], codes[user := codes[user].(attempts := codes[user].attempts + 1)],
            issuedAt)
  {
    var at := issuedAt[user];
    var n := Missed(at);
    OtherCodesMore(log, n, user, codes, issuedAt);
    MissesMore(log, n, at);
    assert CodeOk(log, user, codes[user], at);
    assert CodeOk(log + [n], user, codes[user].(attempts := codes[user].attempts + 1), at);
  }

  lemma {:induction false} WrongKeepsCodes(
    log: seq<Note>, m: Memory, issuedAt: map<string, nat>, user: string, code: string, now: real)
    requires CodesOk(log, m.codes, issuedAt) && Judged(m, user, code, now) == Wrong
    ensures CodesOk(log + [Missed(issuedAt[user])], AfterTry(m, user, code, now).codes, issuedAt)
  {
    if m.codes[user].attempts + 1 < CODE_ATTEMPTS {
      MissKeepsCodes(log, user, m.codes, issuedAt);
    } else {
      OtherCodesMore(log, Missed(issuedAt[user]), user, m.codes, issuedAt);
    }
  }

  lemma {:induction false} WrongKeepsLog(
    log: seq<Note>, codes: map<string, Code>, issuedAt: map<string, nat>, user: string)
    requires LogOk(log) && FewMisses(log) && CodesOk(log, codes, issuedAt) && user in codes
    ensures LogOk(log + [Missed(issuedAt[user])]) && FewMisses(log + [Missed(issuedAt[user])])
  {
    assert CodeOk(log, user, codes[user], issuedAt[user]);
    LogMore(log, Missed(issuedAt[user]));
    FewMissesMore(log, Missed(issuedAt[user]));
  }

  lemma {:induction false} WrongKeeps(s: System, e: Event)
    requires Inv(s) && e.Try? && Judged(s.memory, e.user, e.code, e.now) == Wrong
    ensures Inv(Next(s, e))
  {
    WrongKeepsCodes(s.log, s.memory, s.issuedAt, e.user, e.code, e.now);
    WrongKeepsLog(s.log, s.memory.codes, s.issuedAt, e.user);
    RestMore(s, Missed(s.issuedAt[e.user]));
  }

  lemma {:induction false} AcceptedOnceMore(log: seq<Note>, n: Note)
    requires AcceptedOnce(log) && n.Accepted?
    requires forall i :: 0 <= i < |log| && log[i].Accepted? ==> log[i].from != n.from
    ensures AcceptedOnce(log + [n])
  {
  }

  lemma {:induction false} RightKeeps(s: System, e: Event)
    requires Inv(s) && e.Try? && Judged(s.memory, e.user, e.code, e.now) == Right
    ensures Inv(Next(s, e))
  {
    var codes := s.memory.codes;
    var n := Accepted(e.user, e.code, codes[e.user].hubUser, s.issuedAt[e.user], e.now);
    assert CodeOk(s.log, e.user, codes[e.user], s.issuedAt[e.user]);
    LogMore(s.log, n);
    RestMore(s, n);
    FewMissesMore(s.log, n);
    AcceptedOnceMore(s.log, n);
    OtherCodesMore(s.log, n, e.user, codes, s.issuedAt);
  }

  lemma {:induction false} MintedKeeps(s: System, e: Event)
    requires Inv(s) && Enabled(s, e) && e.Minted?
    ensures Inv(Next(s, e))
  {
    var c := s.confirms[e.k];
    var n := Bound(c.user, c.hubUser, c.from);
    assert c in s.confirms;
    LogMore(s.log, n);
    RestMore(s, n);
    FewMissesMore(s.log, n);
    CodesMore(s.log, n, s.memory.codes, s.issuedAt);
  }

  lemma {:induction false} StepKeeps(s: System, e: Event)
    requires Inv(s) && Enabled(s, e)
    ensures Inv(Next(s, e))
  {
    match e
    case Offer(_, _, _) => OfferKeeps(s, e);
    case TakeUp(state, now) =>
      if Works(s.memory, state, now) {
        TakeUpKeeps(s, e);
      }
    case LoggedIn(_, hubUser, _, _, _) =>
      if hubUser.Some? {
        LoggedInKeeps(s, e);
      }
    case Try(user, code, now) =>
      if Judged(s.memory, user, code, now) == Wrong {
        WrongKeeps(s, e);
      } else if Judged(s.memory, user, code, now) == Right {
        RightKeeps(s, e);
      }
    case Minted(_, _, _) => MintedKeeps(s, e);
    case LoginFails(_) =>
    case ConfirmFails(_) =>
    case Forget(_) =>
    case Restart =>
  }

  lemma {:induction false} StartOk()
    ensures Inv(START)
  {
  }

  lemma {:induction false} Invariant(states: seq<System>, events: seq<Event>, k: nat)
    requires IsRun(states, events) && k < |states|
    ensures Inv(states[k])
    decreases k
  {
    if k == 0 {
      StartOk();
    } else {
      Invariant(states, events, k - 1);
      StepKeeps(states[k - 1], events[k - 1]);
    }
  }

  // ----- what every run promises -----

  /**
   * The history behind a link: it was offered to `user`, taken up in time, logged in through by
   * `hubUser`, and confirmed by `user` in time with its code.
   */
  ghost predicate Descends(log: seq<Note>, user: string, hubUser: string) {
    exists made, taken, issued, accepted ::
      && 0 <= made < taken < issued < accepted < |log|
      && log[made].Made? && log[taken].Taken? && log[issued].Issued? && log[accepted].Accepted?
      && log[made].user == log[taken].user == log[issued].user == log[accepted].user == user
      && log[made].state == log[taken].state && log[taken].from == made
      && log[issued].hubUser == log[accepted].hubUser == hubUser && log[issued].from == taken
      && log[issued].code == log[accepted].typed && log[accepted].from == issued
      && log[taken].at < log[made].at + LINK_SECONDS && log[accepted].at < log[issued].at + CODE_SECONDS
  }

  lemma {:induction false} BoundDescends(log: seq<Note>, bound: nat)
    requires LogOk(log) && bound < |log| && log[bound].Bound?
    ensures Descends(log, log[bound].user, log[bound].hubUser)
  {
    assert NoteOk(log, bound);
    var accepted := log[bound].from;
    assert NoteOk(log, accepted);
    var issued := log[accepted].from;
    assert NoteOk(log, issued);
    var taken := log[issued].from;
    assert NoteOk(log, taken);
    var made := log[taken].from;
    assert log[made].Made?;
  }

  /** No link without its history, however calls interleave and whenever the bot restarts. */
  lemma {:induction false} LinksDescend(states: seq<System>, events: seq<Event>, k: nat, user: string)
    requires IsRun(states, events) && k < |states| && user in states[k].memory.linked
    ensures Descends(states[k].log, user, states[k].memory.linked[user].hubUser)
  {
    Invariant(states, events, k);
    BoundDescends(states[k].log, states[k].boundAt[user]);
  }

  /**
   * Each state is taken up at most once, each code accepted at most once and after fewer
   * than CODE_ATTEMPTS wrong tries.
   */
  lemma {:induction false} SingleUse(states: seq<System>, events: seq<Event>, k: nat)
    requires IsRun(states, events) && k < |states|
    ensures TakenOnce(states[k].log) && AcceptedOnce(states[k].log) && FewMisses(states[k].log)
  {
    Invariant(states, events, k);
  }

  /** A Hub account is linked to one person at most, and a person's newest link is the only one that works. */
  lemma {:induction false} OneOfEach(states: seq<System>, events: seq<Event>, k: nat)
    requires IsRun(states, events) && k < |states|
    ensures var m := states[k].memory;
            && (forall u, v :: u in m.linked && v in m.linked && m.linked[u].hubUser == m.linked[v].hubUser ==> u == v)
            && (forall s, t :: s in m.pending && t in m.pending && m.pending[s].user == m.pending[t].user ==> s == t)
  {
    Invariant(states, events, k);
  }

  /** A restart loses no link and no offer, and revives none. */
  lemma {:induction false} RestartIsHarmless(states: seq<System>, events: seq<Event>, k: nat)
    requires IsRun(states, events) && k < |events| && events[k] == Restart
    ensures states[k + 1].memory.linked == states[k].memory.linked
            && states[k + 1].memory.pending == states[k].memory.pending
  {
    Invariant(states, events, k);
  }
}
