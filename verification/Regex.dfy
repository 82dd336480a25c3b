/** The regular expressions the scope is made of, fully anchored, with `.` any character. */
module Regex {
  datatype Regex =
    | Lit(text: string)
    | NotIn(chars: set<char>)
    | AnyTail
    | Cat(left: Regex, right: Regex)
    | Alt(parts: seq<Regex>)

  ghost predicate Matches(r: Regex, s: string)
    decreases r
  {
    match r
    case Lit(text) => s == text
    case NotIn(chars) => |s| == 1 && s[0] !in chars
    case AnyTail => true
    case Cat(left, right) => exists k :: 0 <= k <= |s| && Matches(left, s[..k]) && Matches(right, s[k..])
    case Alt(parts) => exists i :: 0 <= i < |parts| && Matches(parts[i], s)
  }

  /** A class that excludes nothing, `[^]`, is no regex. */
  predicate WellFormed(r: Regex)
    decreases r
  {
    match r
    case NotIn(chars) => chars != {}
    case Cat(left, right) => WellFormed(left) && WellFormed(right)
    case Alt(parts) => forall i :: 0 <= i < |parts| ==> WellFormed(parts[i])
    case _ => true
  }

  lemma {:induction false} CatLit(text: string, right: Regex, s: string)
    ensures Matches(Cat(Lit(text), right), s) <==> text <= s && Matches(right, s[|text|..])
  {
    if Matches(Cat(Lit(text), right), s) {
      var k :| 0 <= k <= |s| && Matches(Lit(text), s[..k]) && Matches(right, s[k..]);
      assert k == |text|;
    }
    if text <= s && Matches(right, s[|text|..]) {
      assert Matches(Lit(text), s[..|text|]);
    }
  }

  /** `[^...].*` */
  lemma {:induction false} CatNotIn(chars: set<char>, s: string)
    ensures Matches(Cat(NotIn(chars), AnyTail), s) <==> s != "" && s[0] !in chars
  {
    if s != "" && s[0] !in chars {
      assert Matches(NotIn(chars), s[..1]) && Matches(AnyTail, s[1..]);
    }
  }

  lemma {:induction false} AltCons(first: Regex, rest: seq<Regex>, s: string)
    ensures Matches(Alt([first] + rest), s) <==> Matches(first, s) || Matches(Alt(rest), s)
  {
    var all := [first] + rest;
    if Matches(first, s) {
      assert Matches(all[0], s);
    }
    if Matches(Alt(rest), s) {
      var i :| 0 <= i < |rest| && Matches(rest[i], s);
      assert Matches(all[i + 1], s);
    }
    if Matches(Alt(all), s) {
      var i :| 0 <= i < |all| && Matches(all[i], s);
      if i > 0 {
        assert Matches(rest[i - 1], s);
      }
    }
  }

  lemma {:induction false} AltAppend(a: seq<Regex>, b: seq<Regex>, s: string)
    ensures Matches(Alt(a + b), s) <==> Matches(Alt(a), s) || Matches(Alt(b), s)
    decreases |a|
  {
    if a == [] {
      assert a + b == b;
    } else {
      assert a + b == [a[0]] + (a[1..] + b);
      assert a == [a[0]] + a[1..];
      AltCons(a[0], a[1..] + b, s);
      AltCons(a[0], a[1..], s);
      AltAppend(a[1..], b, s);
    }
  }
}
