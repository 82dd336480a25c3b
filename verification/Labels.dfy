/** Label matchers, as a PromQL selector carries them. */
module Labels {
  import opened Regex

  datatype Kind = Equal | NotEqual | Regexp | NotRegexp

  /** The value of an `=` or `!=` matcher is the literal it compares with. */
  datatype Matcher = Matcher(name: string, kind: Kind, value: Regex)

  /** A series' labels. */
  type LabelSet = map<string, string>

  /** A label that a series lacks is empty. */
  function Value(labels: LabelSet, name: string): string {
    if name in labels then labels[name] else ""
  }

  ghost predicate Satisfies(m: Matcher, labels: LabelSet) {
    Matches(m.value, Value(labels, m.name)) <==> m.kind.Equal? || m.kind.Regexp?
  }

  ghost predicate SatisfiesAll(ms: seq<Matcher>, labels: LabelSet) {
    forall i :: 0 <= i < |ms| ==> Satisfies(ms[i], labels)
  }
}
