/** `Scope`: the matchers added to the nodes of a parsed query in place, and the check of what is printed. */
module Scope {
  import opened Collections
  import opened Optional
  import opened Labels
  import opened Promql
  import Ownership

  /** A parsed query names its selector nodes by their place in the parser's memory. */
  type Parsed = Query<nat>

  predicate Within(places: seq<nat>, size: nat) {
    forall i :: 0 <= i < |places| ==> places[i] < size
  }

  /** A parser makes a node for each selector. */
  lemma {:induction false} WithinParts(a: seq<nat>, b: seq<nat>, size: nat)
    requires Within(a + b, size)
    ensures Within(a, size) && Within(b, size)
  {
    forall i | 0 <= i < |a| ensures a[i] < size { assert (a + b)[i] == a[i]; }
    forall i | 0 <= i < |b| ensures b[i] < size { assert (a + b)[|a| + i] == b[i]; }
  }

  /** The query that a parser's nodes hold. */
  function Snapshot(q: Parsed, nodes: seq<Selector>): Query<Selector>
    requires Within(Selectors(q), |nodes|)
    decreases q
  {
    match q
    case Number(value) => Number(value)
    case Text(text) => Text(text)
    case Instant(s) => assert s == Selectors(q)[0]; Instant(nodes[s])
    case Range(s, seconds) => assert s == Selectors(q)[0]; Range(nodes[s], seconds)
    case Subquery(body, seconds, step, offset) => Subquery(Snapshot(body, nodes), seconds, step, offset)
    case Aggregate(op, labels, without, params, body) =>
      WithinParts(Selectors(body), ListSelectors(params), |nodes|);
      Aggregate(op, labels, without, ListSnapshot(params, nodes), Snapshot(body, nodes))
    case Binary(op, matching, left, right) =>
      WithinParts(Selectors(left), Selectors(right), |nodes|);
      Binary(op, matching, Snapshot(left, nodes), Snapshot(right, nodes))
    case Unary(negated, body) => Unary(negated, Snapshot(body, nodes))
    case Paren(body) => Paren(Snapshot(body, nodes))
    case Call(name, args) => Call(name, ListSnapshot(args, nodes))
  }

  function ListSnapshot(qs: Queries<nat>, nodes: seq<Selector>): Queries<Selector>
    requires Within(ListSelectors(qs), |nodes|)
    decreases qs
  {
    match qs
    case NoMore => NoMore
    case More(first, rest) =>
      WithinParts(Selectors(first), ListSelectors(rest), |nodes|);
      More(Snapshot(first, nodes), ListSnapshot(rest, nodes))
  }

  /** At each of `places`, `after` has the matchers of `before` and then `ms`. */
  predicate Extended(places: seq<nat>, before: seq<Selector>, after: seq<Selector>, ms: seq<Matcher>) {
    && |before| == |after| && Within(places, |before|)
    && forall i :: 0 <= i < |places| ==>
         after[places[i]] == before[places[i]].(matchers := before[places[i]].matchers + ms)
  }

  lemma {:induction false} ExtendedParts(
    a: seq<nat>, b: seq<nat>, before: seq<Selector>, after: seq<Selector>, ms: seq<Matcher>)
    requires Extended(a + b, before, after, ms)
    ensures Extended(a, before, after, ms) && Extended(b, before, after, ms)
  {
    forall i | 0 <= i < |a| ensures a[i] == (a + b)[i] {}
    forall i | 0 <= i < |b| ensures b[i] == (a + b)[|a| + i] {}
  }

  /** Extending the nodes of a query in place is enforcing the matchers on it. */
  lemma {:induction false} ExtendedIsEnforced(q: Parsed, before: seq<Selector>, after: seq<Selector>, ms: seq<Matcher>)
    requires Extended(Selectors(q), before, after, ms)
    ensures Snapshot(q, after) == Enforce(Snapshot(q, before), ms)
    decreases q
  {
    match q
    case Number(_) =>
    case Text(_) =>
    case Instant(s) => assert s == Selectors(q)[0];
    case Range(s, _) => assert s == Selectors(q)[0];
    case Subquery(body, _, _, _) => ExtendedIsEnforced(body, before, after, ms);
    case Aggregate(_, _, _, params, body) =>
      ExtendedParts(Selectors(body), ListSelectors(params), before, after, ms);
      ExtendedIsEnforced(body, before, after, ms);
      ExtendedListIsEnforced(params, before, after, ms);
    case Binary(_, _, left, right) =>
      ExtendedParts(Selectors(left), Selectors(right), before, after, ms);
      ExtendedIsEnforced(left, before, after, ms);
      ExtendedIsEnforced(right, before, after, ms);
    case Unary(_, body) => ExtendedIsEnforced(body, before, after, ms);
    case Paren(body) => ExtendedIsEnforced(body, before, after, ms);
    case Call(_, args) => ExtendedListIsEnforced(args, before, after, ms);
  }

  lemma {:induction false} ExtendedListIsEnforced(
    qs: Queries<nat>, before: seq<Selector>, after: seq<Selector>, ms: seq<Matcher>)
    requires Extended(ListSelectors(qs), before, after, ms)
    ensures ListSnapshot(qs, after) == EnforceList(ListSnapshot(qs, before), ms)
    decreases qs
  {
    match qs
    case NoMore =>
    case More(first, rest) =>
      ExtendedParts(Selectors(first), ListSelectors(rest), before, after, ms);
      ExtendedIsEnforced(first, before, after, ms);
      ExtendedListIsEnforced(rest, before, after, ms);
  }

  /** The first visit: every selector's node gets the enforced matchers after its own. */
  method AddMatchers(q: Parsed, nodes: array<Selector>, enforced: seq<Matcher>)
    requires Within(Selectors(q), nodes.Length) && Distinct(Selectors(q))
    modifies nodes
    ensures Snapshot(q, nodes[..]) == Enforce(Snapshot(q, old(nodes[..])), enforced)
  {
    var places := Selectors(q);
    ghost var before := nodes[..];
    for i := 0 to |places|
      invariant forall j :: 0 <= j < i ==>
                  nodes[places[j]] == before[places[j]].(matchers := before[places[j]].matchers + enforced)
      invariant forall j :: i <= j < |places| ==> nodes[places[j]] == before[places[j]]
    {
      var node := nodes[places[i]];
      nodes[places[i]] := node.(matchers := node.matchers + enforced);
    }
    ExtendedIsEnforced(q, before, nodes[..], enforced);
  }

  /** A selector's list is searched, by all fields of a matcher. */
  method Has(s: Selector, want: Matcher) returns (yes: bool)
    ensures yes <==> want in s.matchers
  {
    yes := false;
    for i := 0 to |s.matchers|
      invariant want !in s.matchers[..i]
    {
      if s.matchers[i] == want {
        return true;
      }
    }
  }

  /** The second visit: whether every selector of what was printed still has every matcher. */
  method Check(q: Query<Selector>, enforced: seq<Matcher>) returns (scoped: bool)
    ensures scoped <==> Scoped(q, enforced)
  {
    scoped := true;
    var all := Selectors(q);
    for i := 0 to |all|
      invariant scoped <==> forall j :: 0 <= j < i ==> Carries(all[j], enforced)
    {
      ghost var before := scoped;
      for k := 0 to |enforced|
        invariant scoped <==> before && forall j :: 0 <= j < k ==> enforced[j] in all[i].matchers
      {
        var has := Has(all[i], enforced[k]);
        if !has {
          scoped := false;
        }
      }
      assert scoped <==> before && Carries(all[i], enforced);
    }
  }

  datatype Outcome = Accepted(query: string) | BadQuery | Unparsable | Unscoped

  /** What becomes of a parsed query, with the parser and printer as parameters. */
  function Rewritten(q: Query<Selector>, enforced: seq<Matcher>, printed: Query<Selector> -> string,
                     parse: string -> Option<Query<Selector>>): Outcome {
    var text := printed(Enforce(q, enforced));
    if parse(text).None? then Unparsable
    else if Scoped(parse(text).value, enforced) then Accepted(text) else Unscoped
  }

  /** `parsed` is what the parser makes of the query, with its selectors in `nodes`. */
  method Run(parsed: Option<Parsed>, nodes: array<Selector>, enforced: seq<Matcher>,
             printed: Query<Selector> -> string, parse: string -> Option<Query<Selector>>) returns (r: Outcome)
    requires parsed.Some? ==> Within(Selectors(parsed.value), nodes.Length) && Distinct(Selectors(parsed.value))
    modifies nodes
    ensures parsed.None? ==> r == BadQuery
    ensures parsed.Some? ==> r == Rewritten(Snapshot(parsed.value, old(nodes[..])), enforced, printed, parse)
  {
    if parsed.None? {
      return BadQuery;
    }
    AddMatchers(parsed.value, nodes, enforced);
    var scoped := printed(Snapshot(parsed.value, nodes[..]));
    var reparsed := parse(scoped);
    if reparsed.None? {
      return Unparsable;
    }
    var ok := Check(reparsed.value, enforced);
    return if ok then Accepted(scoped) else Unscoped;
  }

  // ----- what an accepted query can tell -----

  /**
   * Whatever the printer and the parser do, the answer to an accepted query is the
   * same on any two databases that agree on the series satisfying the matchers.
   */
  lemma {:induction false} AcceptedIsBlind<V>(
      m: Meaning<V>, q: Query<Selector>, enforced: seq<Matcher>, printed: Query<Selector> -> string,
      parse: string -> Option<Query<Selector>>, db: set<Series>, other: set<Series>, t: int)
    requires Rewritten(q, enforced, printed, parse).Accepted?
    requires Filter(db, enforced) == Filter(other, enforced)
    ensures var run := parse(Rewritten(q, enforced, printed, parse).query);
            run.Some? && Eval(m, run.value, db, t) == Eval(m, run.value, other, t)
  {
    var run := parse(Rewritten(q, enforced, printed, parse).query).value;
    ScopedSeesOnly(m, run, enforced, db, t);
    ScopedSeesOnly(m, run, enforced, other, t);
  }

  lemma {:induction false} EnforceScopes(q: Query<Selector>, ms: seq<Matcher>)
    ensures Scoped(Enforce(q, ms), ms)
    decreases q
  {
    match q
    case Number(_) =>
    case Text(_) =>
    case Instant(_) =>
    case Range(_, _) =>
    case Subquery(body, _, _, _) => EnforceScopes(body, ms);
    case Aggregate(_, _, _, params, body) =>
      EnforceScopes(body, ms);
      EnforceListScopes(params, ms);
    case Binary(_, _, left, right) =>
      EnforceScopes(left, ms);
      EnforceScopes(right, ms);
    case Unary(_, body) => EnforceScopes(body, ms);
    case Paren(body) => EnforceScopes(body, ms);
    case Call(_, args) => EnforceListScopes(args, ms);
  }

  lemma {:induction false} EnforceListScopes(qs: Queries<Selector>, ms: seq<Matcher>)
    ensures AllCarry(ListSelectors(EnforceList(qs, ms)), ms)
    decreases qs
  {
    match qs
    case NoMore =>
    case More(first, rest) =>
      EnforceScopes(first, ms);
      EnforceListScopes(rest, ms);
  }

  /** A faithful printer and parser lose no query, and what runs means what was asked, of the series in scope. */
  lemma {:induction false} FaithfulScope<V>(
      m: Meaning<V>, q: Query<Selector>, enforced: seq<Matcher>, printed: Query<Selector> -> string,
      parse: string -> Option<Query<Selector>>, db: set<Series>, t: int)
    requires parse(printed(Enforce(q, enforced))) == Some(Enforce(q, enforced))
    ensures Rewritten(q, enforced, printed, parse).Accepted?
    ensures Eval(m, parse(Rewritten(q, enforced, printed, parse).query).value, db, t)
            == Eval(m, q, Filter(db, enforced), t)
  {
    EnforceScopes(q, enforced);
    EnforceFilters(m, q, enforced, db, t);
  }

  /** From end to end: an accepted query of a caller tells nothing of the series the caller may not see. */
  lemma {:induction false} CallerSeesOnlyTheirs<V>(
      m: Meaning<V>, q: Query<Selector>, owned: Ownership.Owned, printed: Query<Selector> -> string,
      parse: string -> Option<Query<Selector>>, db: set<Series>, other: set<Series>, t: int)
    requires Rewritten(q, Ownership.Matchers(owned), printed, parse).Accepted?
    requires forall s: Series :: Ownership.MaySee(owned, s.labels) ==> (s in db <==> s in other)
    ensures var run := parse(Rewritten(q, Ownership.Matchers(owned), printed, parse).query);
            run.Some? && Eval(m, run.value, db, t) == Eval(m, run.value, other, t)
  {
    var ms := Ownership.Matchers(owned);
    forall s: Series ensures SatisfiesAll(ms, s.labels) <==> Ownership.MaySee(owned, s.labels) {
      Ownership.VisibleExactly(owned, s.labels);
    }
    assert Filter(db, ms) == Filter(other, ms);
    AcceptedIsBlind(m, q, ms, printed, parse, db, other, t);
  }
}
