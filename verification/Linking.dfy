/** `Linking`: who on Mattermost is who on the Hub. Each method is what runs between two awaits. */
module Linking {
  import opened Optional

  const LINK_SECONDS := 86400.0
  const CODE_SECONDS := 600.0
  const CODE_ATTEMPTS := 3

  datatype Link = Link(token: string, hubUser: string, expires: real)
  datatype Pending = Pending(user: string, expires: real)
  datatype Code = Code(code: string, oauthToken: string, hubUser: string, expires: real, attempts: nat)

  /** The memory of `Linking`, and what its file holds. */
  datatype Memory = Memory(
    linked: map<string, Link>, pending: map<string, Pending>, codes: map<string, Code>,
    savedLinked: map<string, Link>, savedPending: map<string, Pending>)

  const NEW := Memory(map[], map[], map[], map[], map[])

  function Saved(m: Memory): Memory {
    m.(savedLinked := m.linked, savedPending := m.pending)
  }

  function Forgotten(m: Memory, user: string): Memory {
    if user in m.linked then Saved(m.(linked := m.linked - {user})) else m
  }

  /** The links of other people that have not run out. */
  function Others(pending: map<string, Pending>, user: string, now: real): map<string, Pending> {
    map s | s in pending && pending[s].user != user && now < pending[s].expires :: pending[s]
  }

  function Offered(m: Memory, user: string, state: string, now: real): Memory {
    Saved(m.(pending := Others(m.pending, user, now)[state := Pending(user, now + LINK_SECONDS)]))
  }

  predicate Works(m: Memory, state: string, now: real) {
    state in m.pending && now < m.pending[state].expires
  }

  function TakenUp(m: Memory, state: string): Memory {
    Saved(m.(pending := m.pending - {state}))
  }

  function Kept(m: Memory, user: string, c: Code): Memory {
    m.(codes := m.codes[user := c])
  }

  datatype Verdict = NoCode | Wrong | Right

  predicate HasCode(m: Memory, user: string, now: real) {
    user in m.codes && now < m.codes[user].expires
  }

  function Judged(m: Memory, user: string, code: string, now: real): Verdict {
    if !HasCode(m, user, now) then NoCode else if m.codes[user].code == code then Right else Wrong
  }

  /** What a try leaves of the codes: only a wrong one short of CODE_ATTEMPTS leaves its code. */
  function AfterTry(m: Memory, user: string, code: string, now: real): Memory {
    match Judged(m, user, code, now)
    case NoCode => m.(codes := m.codes - {user})
    case Right => m.(codes := m.codes - {user})
    case Wrong =>
      var c := m.codes[user];
      if c.attempts + 1 >= CODE_ATTEMPTS then m.(codes := m.codes - {user})
      else m.(codes := m.codes[user := c.(attempts := c.attempts + 1)])
  }

  /** The links of other Hub accounts. */
  function Besides(linked: map<string, Link>, hubUser: string): map<string, Link> {
    map u | u in linked && linked[u].hubUser != hubUser :: linked[u]
  }

  function Joined(m: Memory, user: string, link: Link): Memory {
    Saved(m.(linked := Besides(m.linked, link.hubUser)[user := link]))
  }

  class Linking {
    var linked: map<string, Link>
    var pending: map<string, Pending>
    var codes: map<string, Code>
    var savedLinked: map<string, Link>
    var savedPending: map<string, Pending>

    ghost function View(): Memory
      reads this
    {
      Memory(linked, pending, codes, savedLinked, savedPending)
    }

    /** Starts from what the file holds. */
    constructor (fileLinked: map<string, Link>, filePending: map<string, Pending>)
      ensures View() == Memory(fileLinked, filePending, map[], fileLinked, filePending)
    {
      linked, pending, codes := fileLinked, filePending, map[];
      savedLinked, savedPending := fileLinked, filePending;
    }

    method Save()
      modifies `savedLinked, `savedPending
      ensures View() == Saved(old(View()))
    {
      savedLinked, savedPending := linked, pending;
    }

    method Forget(user: string)
      modifies this
      ensures View() == Forgotten(old(View()), user)
    {
      if user in linked {
        linked := linked - {user};
        Save();
      }
    }

    method Token(user: string, now: real) returns (token: Option<string>)
      modifies this
      ensures token.Some? <==> user in old(linked) && now < old(linked)[user].expires
      ensures token.Some? ==> token.value == old(linked)[user].token && View() == old(View())
      ensures token.None? ==> View() == Forgotten(old(View()), user)
    {
      token := None;
      if user in linked {
        if now < linked[user].expires {
          return Some(linked[user].token);
        }
        Forget(user);
      }
    }

    method LinkUrl(user: string, state: string, now: real)
      modifies this
      ensures View() == Offered(old(View()), user, state, now)
    {
      pending := map s | s in pending && pending[s].user != user && now < pending[s].expires :: pending[s];
      pending := pending[state := Pending(user, now + LINK_SECONDS)];
      Save();
    }

    /** `login` before its first await. */
    method LoginStart(state: string, now: real) returns (user: Option<string>)
      modifies this
      ensures user.Some? <==> Works(old(View()), state, now)
      ensures user.None? ==> View() == old(View())
      ensures user.Some? ==> user.value == old(pending)[state].user && View() == TakenUp(old(View()), state)
    {
      if state !in pending || now >= pending[state].expires {
        return None;
      }
      user := Some(pending[state].user);
      pending := pending - {state};
      Save();
    }

    /** `login` after its last await: `owner` says whose the token is. */
    method LoginFinish(user: string, hubUser: Option<string>, oauthToken: string, drawn: string, now: real)
      returns (confirmation: Option<string>)
      modifies `codes
      ensures hubUser.None? ==> confirmation.None? && View() == old(View())
      ensures hubUser.Some? ==>
                && confirmation == Some(drawn)
                && View() == Kept(old(View()), user, Code(drawn, oauthToken, hubUser.value, now + CODE_SECONDS, 0))
    {
      if hubUser.None? {
        return None;
      }
      codes := codes[user := Code(drawn, oauthToken, hubUser.value, now + CODE_SECONDS, 0)];
      return Some(drawn);
    }

    /** `confirm` before its first await; Some for the account to mint a token of. */
    method ConfirmStart(user: string, code: string, now: real) returns (entry: Option<Code>)
      modifies `codes
      ensures View() == AfterTry(old(View()), user, code, now)
      ensures entry.Some? <==> Judged(old(View()), user, code, now) == Right
      ensures entry.Some? ==> user in old(codes) && entry.value == old(codes)[user]
    {
      if user !in codes || now >= codes[user].expires {
        codes := codes - {user};
        return None;
      }
      var c := codes[user];
      if c.code != code {
        codes := codes[user := c.(attempts := c.attempts + 1)];
        if codes[user].attempts >= CODE_ATTEMPTS {
          codes := codes - {user};
          assert codes == old(codes) - {user};
        }
        return None;
      }
      codes := codes - {user};
      return Some(c);
    }

    /** `confirm` after its last await. */
    method ConfirmFinish(user: string, minted: Link)
      modifies this
      ensures View() == Joined(old(View()), user, minted)
    {
      linked := map u | u in linked && linked[u].hubUser != minted.hubUser :: linked[u];
      linked := linked[user := minted];
      Save();
    }
  }
}
