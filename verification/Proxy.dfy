/** How `Proxy` sizes a request and picks the backend it goes to. */
module Proxy {
  import opened Collections
  import opened Optional
  import GateSpec

  const STICKY := 10_000

  datatype Model = Model(context: int, floor: int, ceiling: int, imageTokens: nat)
  datatype Backend = Backend(model: string, variant: string)
  datatype Role = Role(name: string, backends: seq<Backend>)

  /** A client's request: its text in tokens, its images, and the output it asks for, 0 when it names none. */
  datatype Request = Request(text: nat, images: nat, maxTokens: nat, maxCompletionTokens: nat)

  type Models = map<string, Model>

  /** What `load` checks: models with a positive output floor, and roles served by some of them. */
  predicate Configured(models: Models, role: Role) {
    && role.backends != []
    && (forall m :: m in models ==> 0 < models[m].floor <= models[m].ceiling)
    && (forall k :: 0 <= k < |role.backends| ==> role.backends[k].model in models)
  }

  function Estimate(req: Request, m: Model): nat {
    req.text + req.images * m.imageTokens
  }

  /** What fair use leaves for the output of a request, once its prompt is counted. */
  function Room(prompt: int, m: Model): int {
    GateSpec.Share(m.context) - prompt - 1
  }

  predicate Usable(req: Request, m: Model) {
    Room(Estimate(req, m), m) >= m.floor
  }

  predicate UsableBackend(models: Models, req: Request, b: Backend) {
    b.model in models && Usable(req, models[b.model])
  }

  /** `Gate.cap`, from the tokens its slow speed decodes in time. */
  function Cap(m: Model, within: int): int {
    Max(m.floor, Min(m.ceiling, within))
  }

  /** The `max_tokens` that `shape` sends on. */
  function Shaped(req: Request, cap: int): int {
    var asked := if req.maxTokens != 0 then req.maxTokens
                 else if req.maxCompletionTokens != 0 then req.maxCompletionTokens else cap;
    Min(asked, cap)
  }

  function Filter(bs: seq<Backend>, ok: Backend -> bool): (r: seq<Backend>)
    ensures forall b :: b in r <==> b in bs && ok(b)
    decreases |bs|
  {
    if bs == [] then [] else (if ok(bs[0]) then [bs[0]] else []) + Filter(bs[1..], ok)
  }

  function FirstHealthy(bs: seq<Backend>, healthy: set<string>, default: Backend): Backend
    decreases |bs|
  {
    if bs == [] then default else if bs[0].model in healthy then bs[0] else FirstHealthy(bs[1..], healthy, default)
  }

  predicate Keeps(role: Role, kept: Option<Backend>, usable: Backend -> bool, healthy: set<string>) {
    kept.Some? && kept.value in role.backends && kept.value.model in healthy && usable(kept.value)
  }

  /** The backend `pick` returns, given what the session last went to. */
  function Choice(role: Role, kept: Option<Backend>, usable: Backend -> bool, healthy: set<string>): Backend
    requires role.backends != []
  {
    if Keeps(role, kept, usable, healthy) then kept.value
    else
      var some := Filter(role.backends, usable);
      var candidates := if some == [] then role.backends else some;
      FirstHealthy(candidates, healthy, candidates[0])
  }

  lemma {:induction false} FirstHealthyIn(bs: seq<Backend>, healthy: set<string>, default: Backend)
    ensures var b := FirstHealthy(bs, healthy, default); b == default || b in bs
    ensures (exists b :: b in bs && b.model in healthy) ==> FirstHealthy(bs, healthy, default).model in healthy
    decreases |bs|
  {
    if bs == [] {
    } else {
      FirstHealthyIn(bs[1..], healthy, default);
    }
  }

  /**
   * The pick is one of the role's backends; a usable one if there is any; and a
   * usable, healthy one if there is any.
   */
  lemma {:induction false} ChoiceIsBest(
    role: Role, kept: Option<Backend>, usable: Backend -> bool, healthy: set<string>)
    requires role.backends != []
    ensures var b := Choice(role, kept, usable, healthy);
            && b in role.backends
            && ((exists c :: c in role.backends && usable(c)) ==> usable(b))
            && ((exists c :: c in role.backends && usable(c) && c.model in healthy) ==> usable(b) && b.model in healthy)
  {
    var some := Filter(role.backends, usable);
    var candidates := if some == [] then role.backends else some;
    FirstHealthyIn(candidates, healthy, candidates[0]);
    if c :| c in role.backends && usable(c) {
      assert c in some;
    }
  }

  /** No backend of a role is better than the one at `i`, and none as good comes before it. */
  predicate IsFirstBest(bs: seq<Backend>, i: nat, usable: Backend -> bool, healthy: set<string>)
    requires i < |bs|
  {
    forall j :: 0 <= j < |bs| ==>
      // Usable comes before healthy, both before either, and the role's order before that of chance.
      && (usable(bs[j]) ==> usable(bs[i]))
      && (usable(bs[j]) == usable(bs[i]) && bs[j].model in healthy ==> bs[i].model in healthy)
      && (j < i && usable(bs[j]) == usable(bs[i]) ==> bs[i].model in healthy && bs[j].model !in healthy)
  }

  /** What the first backend adds to those let through, and to the search for a healthy one. */
  lemma {:induction false} FilterStep(bs: seq<Backend>, ok: Backend -> bool, healthy: set<string>, default: Backend)
    requires bs != []
    ensures Filter(bs, ok) == if ok(bs[0]) then [bs[0]] + Filter(bs[1..], ok) else Filter(bs[1..], ok)
    ensures FirstHealthy(Filter(bs, ok), healthy, default) ==
              if ok(bs[0]) && bs[0].model in healthy then bs[0]
              else FirstHealthy(Filter(bs[1..], ok), healthy, default)
  {
    var rest := Filter(bs[1..], ok);
    assert ([bs[0]] + rest)[1..] == rest;
    assert [] + rest == rest;
  }

  /** Those before `i` that are not both let through and healthy do not matter. */
  lemma {:induction false} SkipTo(
    bs: seq<Backend>, ok: Backend -> bool, healthy: set<string>, default: Backend, i: nat)
    requires i <= |bs| && forall j :: 0 <= j < i ==> !(ok(bs[j]) && bs[j].model in healthy)
    ensures FirstHealthy(Filter(bs, ok), healthy, default) == FirstHealthy(Filter(bs[i..], ok), healthy, default)
    decreases i
  {
    if i == 0 {
      assert bs[0..] == bs;
    } else {
      FilterStep(bs, ok, healthy, default);
      SkipTo(bs[1..], ok, healthy, default, i - 1);
      assert bs[1..][i - 1..] == bs[i..];
    }
  }

  /** The first that is let through and healthy, if there is one. */
  lemma {:induction false} FirstOfBoth(bs: seq<Backend>, ok: Backend -> bool, healthy: set<string>) returns (i: nat)
    ensures i <= |bs| && forall j :: 0 <= j < i ==> !(ok(bs[j]) && bs[j].model in healthy)
    ensures i < |bs| ==> ok(bs[i]) && bs[i].model in healthy
  {
    i := 0;
    while i < |bs| && !(ok(bs[i]) && bs[i].model in healthy)
      invariant i <= |bs| && forall j :: 0 <= j < i ==> !(ok(bs[j]) && bs[j].model in healthy)
    {
      i := i + 1;
    }
  }

  lemma {:induction false} FirstLetThrough(bs: seq<Backend>, ok: Backend -> bool) returns (i: nat)
    requires Filter(bs, ok) != []
    ensures i < |bs| && ok(bs[i]) && Filter(bs, ok)[0] == bs[i] && forall j :: 0 <= j < i ==> !ok(bs[j])
    decreases |bs|
  {
    if ok(bs[0]) {
      i := 0;
    } else {
      i := FirstLetThrough(bs[1..], ok);
      i := i + 1;
    }
  }

  /** The first healthy one of those let through, or else the first let through. */
  lemma {:induction false} FirstOf(bs: seq<Backend>, ok: Backend -> bool, healthy: set<string>) returns (i: nat)
    requires Filter(bs, ok) != []
    ensures i < |bs| && ok(bs[i])
    ensures FirstHealthy(Filter(bs, ok), healthy, Filter(bs, ok)[0]) == bs[i]
    ensures if bs[i].model in healthy then forall j :: 0 <= j < i ==> !(ok(bs[j]) && bs[j].model in healthy)
            else
              && (forall j :: 0 <= j < |bs| && ok(bs[j]) ==> bs[j].model !in healthy)
              && (forall j :: 0 <= j < i ==> !ok(bs[j]))
  {
    var default := Filter(bs, ok)[0];
    i := FirstOfBoth(bs, ok, healthy);
    SkipTo(bs, ok, healthy, default, i);
    if i < |bs| {
      FilterStep(bs[i..], ok, healthy, default);
    } else {
      assert bs[i..] == [];
      i := FirstLetThrough(bs, ok);
    }
  }

  lemma {:induction false} FilterAll(bs: seq<Backend>)
    ensures Filter(bs, (b: Backend) => true) == bs
    decreases |bs|
  {
    if bs == [] {
    } else {
      FilterAll(bs[1..]);
    }
  }

  /** A pick that does not stay is the first of the best of its role. */
  lemma {:induction false} ChoiceIsFirstBest(
    role: Role, kept: Option<Backend>, usable: Backend -> bool, healthy: set<string>) returns (i: nat)
    requires role.backends != [] && !Keeps(role, kept, usable, healthy)
    ensures i < |role.backends| && Choice(role, kept, usable, healthy) == role.backends[i]
    ensures IsFirstBest(role.backends, i, usable, healthy)
  {
    var bs, some := role.backends, Filter(role.backends, usable);
    if some == [] {
      FilterAll(bs);
      i := FirstOf(bs, (b: Backend) => true, healthy);
      forall j | 0 <= j < |bs| ensures !usable(bs[j]) {
        assert bs[j] !in some;
      }
    } else {
      i := FirstOf(bs, usable, healthy);
    }
  }

  /** A session stays where it last went while that is of its role, healthy and usable, whatever else there is. */
  lemma {:induction false} SessionStays(
    role: Role, last: Backend, usable: Backend -> bool, healthy: set<string>)
    requires last in role.backends && last.model in healthy && usable(last)
    ensures Choice(role, Some(last), usable, healthy) == last
  {
  }

  /** A session stays where its pick sent it while nothing changed. */
  lemma {:induction false} ChoiceIsStable(
    role: Role, kept: Option<Backend>, usable: Backend -> bool, healthy: set<string>)
    requires role.backends != []
    ensures var b := Choice(role, kept, usable, healthy);
            Choice(role, Some(b), usable, healthy) == b
  {
    ChoiceIsBest(role, kept, usable, healthy);
  }

  type Key = (string, string)
  datatype Entry = Entry(key: Key, backend: Backend)

  predicate DistinctKeys(s: seq<Entry>) {
    forall j, k :: 0 <= j < k < |s| ==> s[j].key != s[k].key
  }

  /** An OrderedDict's value of a key. */
  function Lookup(s: seq<Entry>, key: Key): (r: Option<Backend>)
    ensures r.Some? ==> exists k :: 0 <= k < |s| && s[k] == Entry(key, r.value)
    ensures r.None? ==> forall k :: 0 <= k < |s| ==> s[k].key != key
    decreases |s|
  {
    if s == [] then None else if s[0].key == key then Some(s[0].backend) else Lookup(s[1..], key)
  }

  function Removed(s: seq<Entry>, key: Key): (r: seq<Entry>)
    ensures |r| <= |s|
    ensures forall e :: e in r <==> e in s && e.key != key
    decreases |s|
  {
    if s == [] then [] else (if s[0].key == key then [] else [s[0]]) + Removed(s[1..], key)
  }

  lemma {:induction false} RemovedDistinctKeys(s: seq<Entry>, key: Key)
    requires DistinctKeys(s)
    ensures DistinctKeys(Removed(s, key))
    decreases |s|
  {
    if s == [] {
    } else {
      RemovedDistinctKeys(s[1..], key);
      var rest := Removed(s[1..], key);
      forall k | 0 <= k < |rest| ensures rest[k].key != s[0].key {
        assert rest[k] in s[1..];
      }
    }
  }

  lemma {:induction false} RemovedNothing(s: seq<Entry>, key: Key)
    requires forall k :: 0 <= k < |s| ==> s[k].key != key
    ensures Removed(s, key) == s
    decreases |s|
  {
    if s == [] {
    } else {
      RemovedNothing(s[1..], key);
    }
  }

  lemma {:induction false} WithoutLater(s: seq<Entry>, k: nat)
    requires 0 < k < |s|
    ensures Without(s, k) == [s[0]] + Without(s[1..], k - 1)
  {
    var a, b := Without(s, k), [s[0]] + Without(s[1..], k - 1);
    forall j | 0 <= j < |a| ensures a[j] == b[j] {
      if j > 0 {
        assert s[1..][if j - 1 < k - 1 then j - 1 else j] == s[if j < k then j else j + 1];
      }
    }
  }

  /** All but the key's entry stay, in their order. */
  lemma {:induction false} RemovedExactly(s: seq<Entry>, k: nat)
    requires DistinctKeys(s) && k < |s|
    ensures Removed(s, s[k].key) == Without(s, k)
    decreases |s|
  {
    var key, rest := s[k].key, s[1..];
    if k == 0 {
      RemovedNothing(rest, key);
    } else {
      assert rest[k - 1].key == key && DistinctKeys(rest);
      RemovedExactly(rest, k - 1);
      assert Removed(s, key) == [s[0]] + Removed(rest, key);
      WithoutLater(s, k);
    }
  }

  /** The entries with the key's last, and the others in their order. */
  ghost function Latest(s: seq<Entry>, key: Key, b: Backend): seq<Entry> {
    if exists k :: 0 <= k < |s| && s[k].key == key then
      var k :| 0 <= k < |s| && s[k].key == key;
      Without(s, k) + [Entry(key, b)]
    else s + [Entry(key, b)]
  }

  lemma {:induction false} RemovedAndLatest(s: seq<Entry>, key: Key, b: Backend)
    requires DistinctKeys(s)
    ensures Removed(s, key) + [Entry(key, b)] == Latest(s, key, b)
  {
    if exists k :: 0 <= k < |s| && s[k].key == key {
      forall k | 0 <= k < |s| && s[k].key == key ensures Removed(s, key) == Without(s, k) {
        RemovedExactly(s, k);
      }
    } else {
      RemovedNothing(s, key);
    }
  }

  lemma {:induction false} LookupDistinctKeys(s: seq<Entry>, k: nat)
    requires DistinctKeys(s) && k < |s|
    ensures Lookup(s, s[k].key) == Some(s[k].backend)
  {
  }

  lemma {:induction false} LatestIsDistinct(s: seq<Entry>, key: Key, b: Backend)
    requires DistinctKeys(s)
    ensures var all := Latest(s, key, b);
            DistinctKeys(all) && all != [] && all[|all| - 1] == Entry(key, b)
  {
    RemovedAndLatest(s, key, b);
    RemovedDistinctKeys(s, key);
    var rest := Removed(s, key);
    forall j | 0 <= j < |rest| ensures rest[j].key != key {
      assert rest[j] in rest;
    }
  }

  /** The last entries of a map are distinct too, and the very last is found by its key. */
  lemma {:induction false} LastIsFound(all: seq<Entry>, n: nat)
    requires DistinctKeys(all) && 0 < n <= |all|
    ensures var next := all[|all| - n..];
            DistinctKeys(next) && Lookup(next, all[|all| - 1].key) == Some(all[|all| - 1].backend)
  {
    var next := all[|all| - n..];
    assert next[n - 1] == all[|all| - 1];
    LookupDistinctKeys(next, n - 1);
  }

  class Proxy {
    /** Where each session of a role last went, the oldest first. */
    var sticky: seq<Entry>

    ghost predicate Valid()
      reads this
    {
      DistinctKeys(sticky) && |sticky| <= STICKY
    }

    constructor ()
      ensures Valid() && sticky == []
    {
      sticky := [];
    }

    /** `sticky[key] = b`, moved to the end, with the oldest dropped past STICKY. */
    method Remember(key: Key, b: Backend)
      requires Valid()
      modifies this
      ensures Valid() && Lookup(sticky, key) == Some(b)
      ensures var all := Latest(old(sticky), key, b);
              sticky == all[|all| - Min(|all|, STICKY)..]
    {
      RemovedAndLatest(sticky, key, b);
      LatestIsDistinct(sticky, key, b);
      var next := Removed(sticky, key) + [Entry(key, b)];
      ghost var all := next;
      next := Newest(next);
      LastIsFound(all, |next|);
      sticky := next;
    }

    /** The oldest are popped while there are more than STICKY. */
    static method Newest(all: seq<Entry>) returns (next: seq<Entry>)
      ensures next == all[|all| - Min(|all|, STICKY)..]
    {
      next := all;
      while |next| > STICKY
        invariant Min(|all|, STICKY) <= |next| <= |all| && next == all[|all| - |next|..]
      {
        next := next[1..];
      }
    }

    method Pick(role: Role, session: string, usable: Backend -> bool, healthy: set<string>) returns (b: Backend)
      requires Valid() && role.backends != []
      modifies this
      ensures Valid()
      ensures var key := (role.name, session);
              var kept := if session == "" then None else Lookup(old(sticky), key);
              && b == Choice(role, kept, usable, healthy)
              && (if session == "" || Keeps(role, kept, usable, healthy)
                  then sticky == old(sticky)
                  else
                    var all := Latest(old(sticky), key, b);
                    // Only the oldest go, and only for want of room.
                    Lookup(sticky, key) == Some(b) && sticky == all[|all| - Min(|all|, STICKY)..])
    {
      var key := (role.name, session);
      var kept := if session == "" then None else Lookup(sticky, key);
      b := Choice(role, kept, usable, healthy);
      if session != "" && !Keeps(role, kept, usable, healthy) {
        Remember(key, b);
      }
    }
  }
}
