/** A query language of selectors, ranges, subqueries, aggregates, operators and calls, and what its queries mean. */
module Promql {
  import opened Optional
  import opened Labels

  /** A vector selector's value; its metric's name is a matcher of `__name__`. */
  datatype Selector = Selector(matchers: seq<Matcher>, offset: int, at: Option<int>)

  /** A query over selectors of type `S`: plain values, or the nodes of a parser. */
  datatype Query<+S> =
    | Number(value: real)
    | Text(text: string)
    | Instant(selector: S)
    | Range(selector: S, seconds: nat)
    | Subquery(body: Query<S>, seconds: nat, step: nat, offset: int)
    | Aggregate(op: string, labels: seq<string>, without: bool, params: Queries<S>, body: Query<S>)
    | Binary(op: string, matching: seq<string>, left: Query<S>, right: Query<S>)
    | Unary(negated: bool, body: Query<S>)
    | Paren(body: Query<S>)
    | Call(name: string, args: Queries<S>)

  datatype Queries<+S> = NoMore | More(first: Query<S>, rest: Queries<S>)

  /** The selectors of a query, as a visitor of every node meets them. */
  function Selectors<S>(q: Query<S>): seq<S> {
    match q
    case Number(_) => []
    case Text(_) => []
    case Instant(s) => [s]
    case Range(s, _) => [s]
    case Subquery(body, _, _, _) => Selectors(body)
    case Aggregate(_, _, _, params, body) => Selectors(body) + ListSelectors(params)
    case Binary(_, _, left, right) => Selectors(left) + Selectors(right)
    case Unary(_, body) => Selectors(body)
    case Paren(body) => Selectors(body)
    case Call(_, args) => ListSelectors(args)
  }

  function ListSelectors<S>(qs: Queries<S>): seq<S> {
    match qs
    case NoMore => []
    case More(first, rest) => Selectors(first) + ListSelectors(rest)
  }

  // ----- meaning -----

  datatype Series = Series(labels: LabelSet, samples: seq<(int, real)>)

  /** What the operators of the language do, whatever that is; time is in seconds. */
  datatype Meaning<!V> = Meaning(
    number: real -> V,
    text: string -> V,
    instant: (set<Series>, int) -> V,
    range: (set<Series>, int, nat) -> V,
    subquery: seq<(int, V)> -> V,
    aggregate: (string, seq<string>, bool, seq<V>, V) -> V,
    binary: (string, seq<string>, V, V) -> V,
    unary: (bool, V) -> V,
    call: (string, seq<V>, int) -> V)

  /** The series of a database that satisfy every matcher. */
  ghost function Filter(db: set<Series>, ms: seq<Matcher>): set<Series> {
    set s | s in db && SatisfiesAll(ms, s.labels)
  }

  function When(s: Selector, t: int): int {
    (if s.at.Some? then s.at.value else t) - s.offset
  }

  /** The instants a subquery evaluates its body at. */
  function Instants(t: int, seconds: nat, step: nat): seq<int> {
    if step == 0 then [] else seq(seconds / step + 1, i => t - seconds + i * step)
  }

  ghost function Eval<V>(m: Meaning<V>, q: Query<Selector>, db: set<Series>, t: int): V
    decreases q
  {
    match q
    case Number(value) => m.number(value)
    case Text(text) => m.text(text)
    case Instant(s) => m.instant(Filter(db, s.matchers), When(s, t))
    case Range(s, seconds) => m.range(Filter(db, s.matchers), When(s, t), seconds)
    case Subquery(body, seconds, step, offset) =>
      var ts := Instants(t - offset, seconds, step);
      m.subquery(seq(|ts|, i requires 0 <= i < |ts| => (ts[i], Eval(m, body, db, ts[i]))))
    case Aggregate(op, labels, without, params, body) =>
      m.aggregate(op, labels, without, EvalList(m, params, db, t), Eval(m, body, db, t))
    case Binary(op, matching, left, right) => m.binary(op, matching, Eval(m, left, db, t), Eval(m, right, db, t))
    case Unary(negated, body) => m.unary(negated, Eval(m, body, db, t))
    case Paren(body) => Eval(m, body, db, t)
    case Call(name, args) => m.call(name, EvalList(m, args, db, t), t)
  }

  ghost function EvalList<V>(m: Meaning<V>, qs: Queries<Selector>, db: set<Series>, t: int): seq<V>
    decreases qs
  {
    match qs
    case NoMore => []
    case More(first, rest) => [Eval(m, first, db, t)] + EvalList(m, rest, db, t)
  }

  // ----- the rewrite -----

  /** Every selector of the query with `ms` after its own matchers. */
  function Enforce(q: Query<Selector>, ms: seq<Matcher>): Query<Selector>
    decreases q
  {
    match q
    case Instant(s) => Instant(s.(matchers := s.matchers + ms))
    case Range(s, seconds) => Range(s.(matchers := s.matchers + ms), seconds)
    case Subquery(body, seconds, step, offset) => Subquery(Enforce(body, ms), seconds, step, offset)
    case Aggregate(op, labels, without, params, body) =>
        Aggregate(op, labels, without, EnforceList(params, ms), Enforce(body, ms))
    case Binary(op, matching, left, right) => Binary(op, matching, Enforce(left, ms), Enforce(right, ms))
    case Unary(negated, body) => Unary(negated, Enforce(body, ms))
    case Paren(body) => Paren(Enforce(body, ms))
    case Call(name, args) => Call(name, EnforceList(args, ms))
    case _ => q
  }

  function EnforceList(qs: Queries<Selector>, ms: seq<Matcher>): Queries<Selector>
    decreases qs
  {
    match qs
    case NoMore => NoMore
    case More(first, rest) => More(Enforce(first, ms), EnforceList(rest, ms))
  }

  lemma {:induction false} FilterTwice(db: set<Series>, own: seq<Matcher>, ms: seq<Matcher>)
    ensures Filter(db, own + ms) == Filter(Filter(db, ms), own)
  {
    forall s ensures s in Filter(db, own + ms) <==> s in Filter(Filter(db, ms), own) {
      forall i | 0 <= i < |own| ensures (own + ms)[i] == own[i] {}
      forall i | 0 <= i < |ms| ensures (own + ms)[|own| + i] == ms[i] {}
      if s in Filter(db, own + ms) {
        assert SatisfiesAll(own, s.labels) by {
          forall i | 0 <= i < |own| ensures Satisfies(own[i], s.labels) { assert Satisfies((own + ms)[i], s.labels); }
        }
        assert SatisfiesAll(ms, s.labels) by {
          forall i | 0 <= i < |ms|
              ensures Satisfies(ms[i], s.labels) { assert Satisfies((own + ms)[|own| + i], s.labels); }
        }
      }
    }
  }

  /** The rewritten query means on a database what the first one means on the series that satisfy `ms`. */
  lemma {:induction false} EnforceFilters<V>(
    m: Meaning<V>, q: Query<Selector>, ms: seq<Matcher>, db: set<Series>, t: int)
    ensures Eval(m, Enforce(q, ms), db, t) == Eval(m, q, Filter(db, ms), t)
    decreases q
  {
    match q
    case Number(_) =>
    case Text(_) =>
    case Instant(s) => FilterTwice(db, s.matchers, ms);
    case Range(s, _) => FilterTwice(db, s.matchers, ms);
    case Subquery(body, seconds, step, offset) =>
      var ts := Instants(t - offset, seconds, step);
      forall i | 0 <= i < |ts| ensures Eval(m, Enforce(body, ms), db, ts[i]) == Eval(m, body, Filter(db, ms), ts[i]) {
        EnforceFilters(m, body, ms, db, ts[i]);
      }
      assert seq(|ts|, i requires 0 <= i < |ts| => (ts[i], Eval(m, Enforce(body, ms), db, ts[i])))
          == seq(|ts|, i requires 0 <= i < |ts| => (ts[i], Eval(m, body, Filter(db, ms), ts[i])));
    case Aggregate(_, _, _, params, body) =>
      EnforceListFilters(m, params, ms, db, t);
      EnforceFilters(m, body, ms, db, t);
    case Binary(_, _, left, right) =>
      EnforceFilters(m, left, ms, db, t);
      EnforceFilters(m, right, ms, db, t);
    case Unary(_, body) => EnforceFilters(m, body, ms, db, t);
    case Paren(body) => EnforceFilters(m, body, ms, db, t);
    case Call(_, args) => EnforceListFilters(m, args, ms, db, t);
  }

  lemma {:induction false} EnforceListFilters<V>(
    m: Meaning<V>, qs: Queries<Selector>, ms: seq<Matcher>, db: set<Series>, t: int)
    ensures EvalList(m, EnforceList(qs, ms), db, t) == EvalList(m, qs, Filter(db, ms), t)
    decreases qs
  {
    match qs
    case NoMore =>
    case More(first, rest) =>
      EnforceFilters(m, first, ms, db, t);
      EnforceListFilters(m, rest, ms, db, t);
  }

  // ----- a query that carries its scope -----

  predicate Carries(s: Selector, ms: seq<Matcher>) {
    forall i :: 0 <= i < |ms| ==> ms[i] in s.matchers
  }

  predicate AllCarry(ss: seq<Selector>, ms: seq<Matcher>) {
    forall i :: 0 <= i < |ss| ==> Carries(ss[i], ms)
  }

  /** Every selector of the query has every matcher of `ms` among its own. */
  predicate Scoped(q: Query<Selector>, ms: seq<Matcher>) {
    AllCarry(Selectors(q), ms)
  }

  lemma {:induction false} ScopedParts(whole: seq<Selector>, a: seq<Selector>, b: seq<Selector>, ms: seq<Matcher>)
    requires whole == a + b && AllCarry(whole, ms)
    ensures AllCarry(a, ms) && AllCarry(b, ms)
  {
    forall i | 0 <= i < |a| ensures Carries(a[i], ms) { assert whole[i] == a[i]; }
    forall i | 0 <= i < |b| ensures Carries(b[i], ms) { assert whole[|a| + i] == b[i]; }
  }

  lemma {:induction false} CarriedFilters(db: set<Series>, s: Selector, ms: seq<Matcher>)
    requires Carries(s, ms)
    ensures Filter(db, s.matchers) == Filter(Filter(db, ms), s.matchers)
  {
    forall x | x in Filter(db, s.matchers) ensures SatisfiesAll(ms, x.labels) {
      forall i | 0 <= i < |ms| ensures Satisfies(ms[i], x.labels) {
        var k :| 0 <= k < |s.matchers| && s.matchers[k] == ms[i];
        assert Satisfies(s.matchers[k], x.labels);
      }
    }
  }

  /** A query that carries its scope reads nothing of a database but the series in it. */
  lemma {:induction false} ScopedSeesOnly<V>(
    m: Meaning<V>, q: Query<Selector>, ms: seq<Matcher>, db: set<Series>, t: int)
    requires Scoped(q, ms)
    ensures Eval(m, q, db, t) == Eval(m, q, Filter(db, ms), t)
    decreases q
  {
    match q
    case Number(_) =>
    case Text(_) =>
    case Instant(s) =>
      assert Selectors(q) == [s] && Carries(Selectors(q)[0], ms);
      CarriedFilters(db, s, ms);
    case Range(s, _) =>
      assert Selectors(q) == [s] && Carries(Selectors(q)[0], ms);
      CarriedFilters(db, s, ms);
    case Subquery(body, seconds, step, offset) =>
      assert Selectors(q) == Selectors(body);
      var ts := Instants(t - offset, seconds, step);
      forall i | 0 <= i < |ts| ensures Eval(m, body, db, ts[i]) == Eval(m, body, Filter(db, ms), ts[i]) {
        ScopedSeesOnly(m, body, ms, db, ts[i]);
      }
      assert seq(|ts|, i requires 0 <= i < |ts| => (ts[i], Eval(m, body, db, ts[i])))
          == seq(|ts|, i requires 0 <= i < |ts| => (ts[i], Eval(m, body, Filter(db, ms), ts[i])));
    case Aggregate(_, _, _, params, body) =>
      ScopedParts(Selectors(q), Selectors(body), ListSelectors(params), ms);
      ScopedListSeesOnly(m, params, ms, db, t);
      ScopedSeesOnly(m, body, ms, db, t);
    case Binary(_, _, left, right) =>
      ScopedParts(Selectors(q), Selectors(left), Selectors(right), ms);
      ScopedSeesOnly(m, left, ms, db, t);
      ScopedSeesOnly(m, right, ms, db, t);
    case Unary(_, body) =>
      assert Selectors(q) == Selectors(body);
      ScopedSeesOnly(m, body, ms, db, t);
    case Paren(body) =>
      assert Selectors(q) == Selectors(body);
      ScopedSeesOnly(m, body, ms, db, t);
    case Call(_, args) =>
      assert Selectors(q) == ListSelectors(args);
      ScopedListSeesOnly(m, args, ms, db, t);
  }

  lemma {:induction false} ScopedListSeesOnly<V>(
    m: Meaning<V>, qs: Queries<Selector>, ms: seq<Matcher>, db: set<Series>, t: int)
    requires AllCarry(ListSelectors(qs), ms)
    ensures EvalList(m, qs, db, t) == EvalList(m, qs, Filter(db, ms), t)
    decreases qs
  {
    match qs
    case NoMore =>
    case More(first, rest) =>
      ScopedParts(ListSelectors(qs), Selectors(first), ListSelectors(rest), ms);
      ScopedSeesOnly(m, first, ms, db, t);
      ScopedListSeesOnly(m, rest, ms, db, t);
  }
}
