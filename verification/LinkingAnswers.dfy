/** Who is linked, which states work and which codes are right, read off what happened alone. */
module LinkingAnswers {
  import opened Linking
  import opened LinkingRuns
  import opened Collections
  import opened Optional

  /** What the file holds is what the memory does. */
  predicate Persisted(m: Memory) {
    m.savedLinked == m.linked && m.savedPending == m.pending
  }

  lemma {:induction false} StepOf(states: seq<System>, events: seq<Event>, n: nat)
    requires IsRun(states, events) && n < |events|
    ensures Enabled(states[n], events[n]) && states[n + 1] == Next(states[n], events[n]) && Persisted(states[n].memory)
  {
    Invariant(states, events, n);
  }

  // ----- links -----

  /** Whether a step binds `user` to a Hub account. */
  predicate Binds(s: System, e: Event, user: string) {
    e.Minted? && e.k < |s.confirms| && s.confirms[e.k].user == user
  }

  /** The link that it makes. */
  function LinkOf(s: System, e: Event): Link
    requires e.Minted? && e.k < |s.confirms|
  {
    Link(e.token, s.confirms[e.k].hubUser, e.expires)
  }

  /** Whether a step ends a link of `user` to a Hub account. */
  predicate Unlinks(s: System, e: Event, user: string, hubUser: string) {
    || e == Forget(user)
    || (e.Minted? && e.k < |s.confirms| && (s.confirms[e.k].user == user || s.confirms[e.k].hubUser == hubUser))
  }

  /** A mint links its user with its token, ends what others had with the account, and leaves all else as it was. */
  lemma {:induction false} MintLinks(s: System, e: Event, user: string)
    requires Enabled(s, e) && Binds(s, e, user)
    ensures var before, after := s.memory.linked, Next(s, e).memory.linked;
            && user in after && after[user] == LinkOf(s, e)
            && forall u :: u != user ==>
                 && (u in after <==> u in before && before[u].hubUser != LinkOf(s, e).hubUser)
                 && (u in after ==> after[u] == before[u])
  {
  }

  lemma {:induction false} LinkMoves(s: System, e: Event, user: string)
    requires Persisted(s.memory) && Enabled(s, e)
    ensures var before, after := s.memory.linked, Next(s, e).memory.linked;
            if Binds(s, e, user) then user in after && after[user] == LinkOf(s, e)
            else if user in before && !Unlinks(s, e, user, before[user].hubUser) then
              user in after && after[user] == before[user]
            else user !in after
  {
    match e
    case Minted(_, _, _) =>
    case Forget(_) =>
    case Restart =>
    case _ => assert Next(s, e).memory.linked == s.memory.linked;
  }

  /** `user` was bound at step `b`, and nothing has ended it since. */
  ghost predicate BoundSince(states: seq<System>, events: seq<Event>, b: nat, k: nat, user: string)
    requires k <= |events| < |states|
  {
    && b < k && Binds(states[b], events[b], user)
    && forall n :: b < n < k ==> !Unlinks(states[n], events[n], user, LinkOf(states[b], events[b]).hubUser)
  }

  function LinkAt(m: Memory, user: string): Option<Link> {
    if user in m.linked then Some(m.linked[user]) else None
  }

  /** A person's link is the one of the step that bound them since, and no other's. */
  ghost predicate LinkedAt(states: seq<System>, events: seq<Event>, k: nat, user: string)
    requires k <= |events| < |states|
  {
    && (user in states[k].memory.linked <==> exists b: nat :: BoundSince(states, events, b, k, user))
    && (forall b: nat :: BoundSince(states, events, b, k, user) ==>
          LinkAt(states[k].memory, user) == Some(LinkOf(states[b], events[b])))
  }

  lemma {:induction false} LinkedNext(states: seq<System>, events: seq<Event>, n: nat, user: string)
    requires IsRun(states, events) && n < |events| && LinkedAt(states, events, n, user)
    ensures LinkedAt(states, events, n + 1, user)
  {
    StepOf(states, events, n);
    LinkMoves(states[n], events[n], user);
    forall b: nat | BoundSince(states, events, b, n + 1, user)
      ensures LinkAt(states[n + 1].memory, user) == Some(LinkOf(states[b], events[b]))
    {
      BoundMore(states, events, b, n, user);
    }
    if user in states[n + 1].memory.linked {
      if Binds(states[n], events[n], user) {
        assert BoundSince(states, events, n, n + 1, user);
      } else {
        var b: nat :| BoundSince(states, events, b, n, user);
        BoundMore(states, events, b, n, user);
      }
    }
  }

  lemma {:induction false} BoundMore(states: seq<System>, events: seq<Event>, b: nat, n: nat, user: string)
    requires n < |events| < |states|
    ensures BoundSince(states, events, b, n + 1, user) <==>
              || (b == n && Binds(states[n], events[n], user))
              || (BoundSince(states, events, b, n, user)
                  && !Unlinks(states[n], events[n], user, LinkOf(states[b], events[b]).hubUser))
  {
  }

  /** Nobody is linked at the start. */
  lemma {:induction false} LinkedAtStart(states: seq<System>, events: seq<Event>, user: string)
    requires |events| < |states| && user !in states[0].memory.linked
    ensures LinkedAt(states, events, 0, user)
  {
  }

  /**
   * A person is linked exactly when they were bound at some step and since then neither
   * forgotten nor bound again, nor was their account bound to another; and with its token.
   */
  lemma {:induction false} LinkedExactly(states: seq<System>, events: seq<Event>, k: nat, user: string)
    requires IsRun(states, events) && k < |states|
    ensures LinkedAt(states, events, k, user)
  {
    var good := (n: nat) => |events| < |states| && n <= |events| && LinkedAt(states, events, n, user);
    LinkedAtStart(states, events, user);
    forall n: nat | n < |events| && good(n) ensures good(n + 1) {
      LinkedNext(states, events, n, user);
    }
    Ascending(good, |events|);
    assert good(k);
  }

  // ----- states -----

  /** Whether a step takes up, replaces or clears away a state offered to `user` at `at`. */
  predicate Drops(e: Event, state: string, user: string, at: real) {
    || (e.TakeUp? && e.state == state && e.now < at + 86400.0)
    || (e.Offer? && (e.user == user || e.now >= at + 86400.0))
  }

  lemma {:induction false} PendingMoves(s: System, e: Event, state: string)
    requires Persisted(s.memory) && Enabled(s, e)
    ensures var before, after := s.memory.pending, Next(s, e).memory.pending;
            if e.Offer? && e.state == state then
              state in after && after[state] == Pending(e.user, e.now + 86400.0)
            else if state in before && !Drops(e, state, before[state].user, before[state].expires - 86400.0) then
              state in after && after[state] == before[state]
            else state !in after
  {
    match e
    case Offer(_, _, _) =>
    case TakeUp(_, _) =>
    case _ => assert Next(s, e).memory.pending == s.memory.pending;
  }

  /** A state was offered at step `o`, and is still pending. */
  ghost predicate OfferedSince(events: seq<Event>, o: nat, k: nat, state: string)
    requires k <= |events|
  {
    && o < k && events[o].Offer? && events[o].state == state
    && forall n :: o < n < k ==> !Drops(events[n], state, events[o].user, events[o].now)
  }

  lemma {:induction false} OfferedOnce(states: seq<System>, events: seq<Event>, o: nat, k: nat)
    requires IsRun(states, events) && o < k < |states| && events[o].Offer?
    ensures events[o].state in states[k].madeAt
    decreases k
  {
    var n: nat := k - 1;
    StepOf(states, events, n);
    if o < n {
      OfferedOnce(states, events, o, n);
    }
  }

  lemma {:induction false} PendingExactly(states: seq<System>, events: seq<Event>, k: nat, state: string)
    requires IsRun(states, events) && k < |states|
    ensures state in states[k].memory.pending <==> exists o: nat :: OfferedSince(events, o, k, state)
    ensures forall o: nat :: OfferedSince(events, o, k, state) ==>
              && state in states[k].memory.pending
              && states[k].memory.pending[state] == Pending(events[o].user, events[o].now + 86400.0)
    decreases k
  {
    if k == 0 {
    } else {
      var n: nat := k - 1;
      PendingExactly(states, events, n, state);
      StepOf(states, events, n);
      PendingMoves(states[n], events[n], state);
      forall o: nat | OfferedSince(events, o, k, state)
        ensures state in states[k].memory.pending
        ensures states[k].memory.pending[state] == Pending(events[o].user, events[o].now + 86400.0)
      {
        if o < n {
          assert OfferedSince(events, o, n, state);
          OfferedOnce(states, events, o, n);
        }
      }
      if state in states[k].memory.pending {
        if events[n].Offer? && events[n].state == state {
          assert OfferedSince(events, n, k, state);
        } else {
          var o: nat :| OfferedSince(events, o, n, state);
          assert OfferedSince(events, o, k, state);
        }
      }
    }
  }

  /**
   * A link that was sent works exactly when it was offered less than LINK_SECONDS ago, and
   * since then was not taken up in time, nor was its user offered another, nor was it
   * cleared away with one that came when its time was over.
   */
  lemma {:induction false} StateWorksExactly(
    states: seq<System>, events: seq<Event>, k: nat, state: string, now: real)
    requires IsRun(states, events) && k < |states|
    ensures Works(states[k].memory, state, now) <==>
              exists o: nat :: OfferedSince(events, o, k, state) && now < events[o].now + 86400.0
  {
    PendingExactly(states, events, k, state);
  }

  // ----- codes -----

  /** Whether a step issues a code for `user`. */
  predicate Issues(s: System, e: Event, user: string) {
    e.LoggedIn? && e.k < |s.logins| && s.logins[e.k].user == user && e.hubUser.Some?
  }

  /** Whether a step ends a code issued at `at`: it is typed, or tried too late, or replaced, or the bot restarts. */
  predicate Ends(s: System, e: Event, user: string, code: string, at: real) {
    || (e.Try? && e.user == user && (e.code == code || e.now >= at + 600.0))
    || Issues(s, e, user) || e == Restart
  }

  /** How often `user` tried a code between two steps. */
  function Tries(events: seq<Event>, i: nat, k: nat, user: string): nat
    requires k <= |events|
    decreases k
  {
    if k <= i + 1 then 0
    else
      Tries(events, i, k - 1, user) + (if events[k - 1].Try? && events[k - 1].user == user then 1 else 0)
  }

  /** What a try leaves of a person's code. */
  lemma {:induction false} TryMoves(m: Memory, typist: string, code: string, now: real, user: string)
    requires user in m.codes ==> m.codes[user].attempts < 3
    ensures var before, after := m.codes, AfterTry(m, typist, code, now).codes;
            if typist != user then
              (user in after <==> user in before) && (user in after ==> after[user] == before[user])
            else if user in before && before[user].code != code && now < before[user].expires then
              if before[user].attempts < 2 then
                user in after && after[user] == before[user].(attempts := before[user].attempts + 1)
              else user !in after
            else user !in after
  {
  }

  /** What a step leaves of a person's code, `before` it. */
  predicate CodeAfter(s: System, e: Event, user: string, before: Option<Code>, after: Option<Code>) {
    if Issues(s, e, user) then
      after == Some(Code(e.drawn, e.oauthToken, e.hubUser.value, e.now + 600.0, 0))
    else if before.Some? && !Ends(s, e, user, before.value.code, before.value.expires - 600.0) then
      if !e.Try? || e.user != user then after == before
      else if before.value.attempts < 2 then after == Some(before.value.(attempts := before.value.attempts + 1))
      else after.None?
    else after.None?
  }

  function CodeAt(m: Memory, user: string): Option<Code> {
    if user in m.codes then Some(m.codes[user]) else None
  }

  lemma {:induction false} LoginMoves(s: System, e: Event, user: string)
    requires e.LoggedIn? && Enabled(s, e)
    ensures CodeAfter(s, e, user, CodeAt(s.memory, user), CodeAt(Next(s, e).memory, user))
  {
  }

  lemma {:induction false} CodeMoves(s: System, e: Event, user: string)
    requires (user in s.memory.codes ==> s.memory.codes[user].attempts < 3) && Enabled(s, e)
    ensures CodeAfter(s, e, user, CodeAt(s.memory, user), CodeAt(Next(s, e).memory, user))
  {
    match e
    case Try(typist, code, now) =>
      TryMoves(s.memory, typist, code, now, user);
      assert Next(s, e).memory == AfterTry(s.memory, typist, code, now);
    case LoggedIn(_, _, _, _, _) => LoginMoves(s, e, user);
    case Restart =>
    case _ => assert Next(s, e).memory.codes == s.memory.codes;
  }

  /** A code was issued at step `i`; it was not ended since, and tried less than three times. */
  ghost predicate IssuedSince(states: seq<System>, events: seq<Event>, i: nat, k: nat, user: string)
    requires k <= |events| < |states|
  {
    && i < k && Issues(states[i], events[i], user) && Tries(events, i, k, user) < 3
    && forall n :: i < n < k ==> !Ends(states[n], events[n], user, events[i].drawn, events[i].now)
  }

  lemma {:induction false} IssuedBefore(
    states: seq<System>, events: seq<Event>, i: nat, n: nat, user: string)
    requires n < |events| < |states| && i < n
    ensures IssuedSince(states, events, i, n + 1, user) <==>
              && IssuedSince(states, events, i, n, user)
              && !Ends(states[n], events[n], user, events[i].drawn, events[i].now)
              && Tries(events, i, n + 1, user) < 3
  {
  }

  /** A person's code is the one of the step that issued it and no other's. */
  ghost predicate KeptAt(states: seq<System>, events: seq<Event>, k: nat, user: string)
    requires k <= |events| < |states|
  {
    && (user in states[k].memory.codes <==> exists i: nat :: IssuedSince(states, events, i, k, user))
    && (forall i: nat :: IssuedSince(states, events, i, k, user) ==>
          CodeAt(states[k].memory, user) == Some(CodeOf(events, i, k, user)))
  }

  lemma {:induction false} KeptStill(states: seq<System>, events: seq<Event>, n: nat, user: string, i: nat)
    requires n < |events| < |states| && KeptAt(states, events, n, user) && IssuedSince(states, events, i, n + 1, user)
    requires CodeAfter(
               states[n], events[n], user, CodeAt(states[n].memory, user), CodeAt(states[n + 1].memory, user))
    ensures CodeAt(states[n + 1].memory, user) == Some(CodeOf(events, i, n + 1, user))
  {
    if i < n {
      IssuedBefore(states, events, i, n, user);
      assert CodeAt(states[n].memory, user) == Some(CodeOf(events, i, n, user));
    }
  }

  lemma {:induction false} KeptFrom(states: seq<System>, events: seq<Event>, n: nat, user: string) returns (i: nat)
    requires n < |events| < |states| && KeptAt(states, events, n, user) && user in states[n + 1].memory.codes
    requires CodeAfter(
               states[n], events[n], user, CodeAt(states[n].memory, user), CodeAt(states[n + 1].memory, user))
    ensures IssuedSince(states, events, i, n + 1, user)
  {
    if Issues(states[n], events[n], user) {
      i := n;
    } else {
      i :| IssuedSince(states, events, i, n, user);
      assert CodeAt(states[n].memory, user) == Some(CodeOf(events, i, n, user));
      IssuedBefore(states, events, i, n, user);
    }
  }

  /** Nobody has a code at the start. */
  lemma {:induction false} KeptAtStart(states: seq<System>, events: seq<Event>, user: string)
    requires |events| < |states| && user !in states[0].memory.codes
    ensures KeptAt(states, events, 0, user)
  {
  }

  lemma {:induction false} KeptNext(states: seq<System>, events: seq<Event>, n: nat, user: string)
    requires IsRun(states, events) && n < |events| && KeptAt(states, events, n, user)
    ensures KeptAt(states, events, n + 1, user)
  {
    StepOf(states, events, n);
    FewTries(states, events, n, user);
    CodeMoves(states[n], events[n], user);
    forall i: nat {:trigger IssuedSince(states, events, i, n + 1, user)} | IssuedSince(states, events, i, n + 1, user)
      ensures CodeAt(states[n + 1].memory, user) == Some(CodeOf(events, i, n + 1, user))
    {
      KeptStill(states, events, n, user, i);
    }
    if user in states[n + 1].memory.codes {
      var i := KeptFrom(states, events, n, user);
    }
  }

  lemma {:induction false} KeptExactly(states: seq<System>, events: seq<Event>, k: nat, user: string)
    requires IsRun(states, events) && k < |states|
    ensures KeptAt(states, events, k, user)
  {
    var good := (n: nat) => |events| < |states| && n <= |events| && KeptAt(states, events, n, user);
    KeptAtStart(states, events, user);
    forall n: nat | n < |events| && good(n) ensures good(n + 1) {
      KeptNext(states, events, n, user);
    }
    Ascending(good, |events|);
    assert good(k);
  }

  lemma {:induction false} FewTries(states: seq<System>, events: seq<Event>, n: nat, user: string)
    requires n <= |events| < |states| && KeptAt(states, events, n, user)
    ensures user in states[n].memory.codes ==> states[n].memory.codes[user].attempts < 3
  {
    if user in states[n].memory.codes {
      var i: nat :| IssuedSince(states, events, i, n, user);
    }
  }

  /** The code of a login, with the tries it has seen. */
  function CodeOf(events: seq<Event>, i: nat, k: nat, user: string): Code
    requires i < k <= |events| && events[i].LoggedIn? && events[i].hubUser.Some?
  {
    var e := events[i];
    Code(e.drawn, e.oauthToken, e.hubUser.value, e.now + 600.0, Tries(events, i, k, user))
  }

  /**
   * A code is right exactly when it is the one that the person's last login drew, less
   * than CODE_SECONDS ago, and since then it was not typed, nor any code tried too late,
   * nor three wrong ones in all, and the bot was not restarted.
   */
  lemma {:induction false} CodeIsRightExactly(
    states: seq<System>, events: seq<Event>, k: nat, user: string, code: string, now: real)
    requires IsRun(states, events) && k < |states|
    ensures Judged(states[k].memory, user, code, now) == Right <==>
              exists i: nat ::
                IssuedSince(states, events, i, k, user) && events[i].drawn == code && now < events[i].now + 600.0
  {
    KeptExactly(states, events, k, user);
  }

  /** A right code starts a confirm for its login's account, and no other try does. */
  lemma {:induction false} RightCodeConfirms(s: System, e: Event)
    requires Enabled(s, e) && e.Try?
    ensures var t := Next(s, e);
            if Judged(s.memory, e.user, e.code, e.now) == Right
            then |t.confirms| == |s.confirms| + 1 && t.confirms[..|s.confirms|] == s.confirms
                 && t.confirms[|s.confirms|].user == e.user
                 && t.confirms[|s.confirms|].hubUser == s.memory.codes[e.user].hubUser
            else t.confirms == s.confirms
  {
  }

  /** A link that works, opened, starts a login for the person it was sent to, and no other link does. */
  lemma {:induction false} TakeUpStartsLogin(s: System, e: Event)
    requires Enabled(s, e) && e.TakeUp?
    ensures var t := Next(s, e);
            if Works(s.memory, e.state, e.now)
            then |t.logins| == |s.logins| + 1 && t.logins[..|s.logins|] == s.logins
                 && t.logins[|s.logins|].user == s.memory.pending[e.state].user
            else t.logins == s.logins
  {
  }
}
