/** `without_prefixes`: a set of prefixes compiled to a regex by way of a trie. */
module Prefixes {
  import opened Regex
  import Keys

  /** A node of the trie: the dict's characters, and whether it holds the key "". */
  datatype Trie = Trie(children: map<char, Trie>, end: bool)

  const LEAF := Trie(map[], false)

  function Insert(t: Trie, prefix: string): Trie
    decreases |prefix|
  {
    if prefix == "" then t.(end := true)
    else
      var child := if prefix[0] in t.children then t.children[prefix[0]] else LEAF;
      t.(children := t.children[prefix[0] := Insert(child, prefix[1..])])
  }

  /** The trie of the first `n` prefixes. */
  function Build(prefixes: seq<string>, n: nat): Trie
    requires n <= |prefixes|
    decreases n
  {
    if n == 0 then LEAF else Insert(Build(prefixes, n - 1), prefixes[n - 1])
  }

  lemma {:induction false} LeastChar(chars: set<char>)
    requires chars != {}
    ensures exists c :: c in chars && forall d :: d in chars ==> c <= d
  {
    var codes := set c | c in chars :: c as int;
    var x := Keys.Member(chars);
    assert x as int in codes;
    Keys.LeastExists(codes);
    var k :| Keys.IsLeast(k, codes);
    var c :| c in chars && c as int == k;
    forall d | d in chars ensures c <= d {
      assert d as int in codes;
    }
  }

  function Sorted(chars: set<char>): (r: seq<char>)
    ensures forall c :: c in r <==> c in chars
    decreases |chars|
  {
    if chars == {} then []
    else
      LeastChar(chars);
      var c :| c in chars && forall d :: d in chars ==> c <= d;
      [c] + Sorted(chars - {c})
  }

  function Walk(t: Trie): Regex
    decreases t, 1, 0
  {
    Alt([Lit(""), Cat(NotIn(t.children.Keys), AnyTail)] + WalkParts(t, Sorted(t.children.Keys)))
  }

  /** The branches of a node's characters; one that ends a prefix has none. */
  function WalkParts(t: Trie, chars: seq<char>): seq<Regex>
    requires forall c :: c in chars ==> c in t.children
    decreases t, 0, |chars|
  {
    if chars == [] then []
    else
      var child := t.children[chars[0]];
      (if child.end then [] else [Cat(Lit([chars[0]]), Walk(child))]) + WalkParts(t, chars[1..])
  }

  /** Some prefix in the trie, read from below its root, starts `s`. */
  predicate Hits(t: Trie, s: string)
    decreases |s|
  {
    s != "" && s[0] in t.children && (t.children[s[0]].end || Hits(t.children[s[0]], s[1..]))
  }

  lemma {:induction false} InsertHits(t: Trie, prefix: string, s: string)
    ensures Hits(Insert(t, prefix), s) <==> Hits(t, s) || (prefix != "" && prefix <= s)
    decreases |prefix|
  {
    if prefix != "" && s != "" && s[0] == prefix[0] {
      var child := if prefix[0] in t.children then t.children[prefix[0]] else LEAF;
      InsertHits(child, prefix[1..], s[1..]);
      assert prefix <= s <==> prefix[1..] <= s[1..];
    }
  }

  lemma {:induction false} BuildHits(prefixes: seq<string>, n: nat, s: string)
    requires n <= |prefixes|
    ensures Hits(Build(prefixes, n), s) <==> exists i :: 0 <= i < n && prefixes[i] != "" && prefixes[i] <= s
    decreases n
  {
    if n == 0 {
    } else {
      BuildHits(prefixes, n - 1, s);
      InsertHits(Build(prefixes, n - 1), prefixes[n - 1], s);
    }
  }

  lemma {:induction false} PartsMatch(t: Trie, chars: seq<char>, s: string)
    requires forall c :: c in chars ==> c in t.children
    ensures Matches(Alt(WalkParts(t, chars)), s) <==>
              s != "" && s[0] in chars && !t.children[s[0]].end && Matches(Walk(t.children[s[0]]), s[1..])
    decreases |chars|
  {
    if chars == [] {
    } else {
      var child := t.children[chars[0]];
      PartsMatch(t, chars[1..], s);
      var rest := WalkParts(t, chars[1..]);
      if !child.end {
        AltCons(Cat(Lit([chars[0]]), Walk(child)), rest, s);
        CatLit([chars[0]], Walk(child), s);
        assert [chars[0]] <= s <==> s != "" && s[0] == chars[0];
      } else {
        assert WalkParts(t, chars) == rest;
      }
    }
  }

  /** A node's regex matches exactly what no prefix below it starts. */
  lemma {:induction false} WalkExact(t: Trie, s: string)
    ensures Matches(Walk(t), s) <==> !Hits(t, s)
    decreases |s|
  {
    var chars := t.children.Keys;
    var other := Cat(NotIn(chars), AnyTail);
    var parts := WalkParts(t, Sorted(chars));
    assert [Lit(""), other] + parts == [Lit("")] + ([other] + parts);
    AltCons(Lit(""), [other] + parts, s);
    AltCons(other, parts, s);
    CatNotIn(chars, s);
    PartsMatch(t, Sorted(chars), s);
    if s != "" && s[0] in chars {
      WalkExact(t.children[s[0]], s[1..]);
    }
  }

  /** Every node that is walked has a character to exclude. */
  predicate Grown(t: Trie) {
    t.children != map[] && forall c :: c in t.children && !t.children[c].end ==> Grown(t.children[c])
  }

  lemma {:induction false} InsertGrown(t: Trie, prefix: string)
    requires prefix != "" && (t.children == map[] || Grown(t))
    ensures Grown(Insert(t, prefix))
    decreases |prefix|
  {
    var child := if prefix[0] in t.children then t.children[prefix[0]] else LEAF;
    var next := Insert(child, prefix[1..]);
    if !next.end {
      InsertGrown(child, prefix[1..]);
    }
    var all := Insert(t, prefix);
    assert prefix[0] in all.children;
  }

  lemma {:induction false} BuildGrown(prefixes: seq<string>, n: nat)
    requires n <= |prefixes| && forall i :: 0 <= i < n ==> prefixes[i] != ""
    ensures n > 0 ==> Grown(Build(prefixes, n))
    decreases n
  {
    if n == 0 {
    } else {
      BuildGrown(prefixes, n - 1);
      InsertGrown(Build(prefixes, n - 1), prefixes[n - 1]);
    }
  }

  lemma {:induction false} WalkWellFormed(t: Trie)
    requires Grown(t)
    ensures WellFormed(Walk(t))
    decreases t, 1, 0
  {
    PartsWellFormed(t, Sorted(t.children.Keys));
  }

  lemma {:induction false} PartsWellFormed(t: Trie, chars: seq<char>)
    requires Grown(t) && forall c :: c in chars ==> c in t.children
    ensures forall i :: 0 <= i < |WalkParts(t, chars)| ==> WellFormed(WalkParts(t, chars)[i])
    decreases t, 0, |chars|
  {
    if chars == [] {
    } else {
      if !t.children[chars[0]].end {
        WalkWellFormed(t.children[chars[0]]);
      }
      PartsWellFormed(t, chars[1..]);
    }
  }

  predicate StartsWithAny(prefixes: seq<string>, s: string) {
    exists i :: 0 <= i < |prefixes| && prefixes[i] <= s
  }

  /** What `without_prefixes` promises of its regex. */
  ghost predicate Excludes(r: Regex, prefixes: seq<string>) {
    WellFormed(r) && forall s :: Matches(r, s) <==> !StartsWithAny(prefixes, s)
  }

  predicate Proper(prefixes: seq<string>) {
    prefixes != [] && forall i :: 0 <= i < |prefixes| ==> prefixes[i] != ""
  }

  /** The promise holds for every non-empty set of non-empty prefixes, and for no other. */
  lemma {:induction false} ExcludesExactly(prefixes: seq<string>)
    ensures Excludes(Walk(Build(prefixes, |prefixes|)), prefixes) <==> Proper(prefixes)
  {
    var t := Build(prefixes, |prefixes|);
    if Proper(prefixes) {
      BuildGrown(prefixes, |prefixes|);
      WalkWellFormed(t);
      forall s ensures Matches(Walk(t), s) <==> !StartsWithAny(prefixes, s) {
        WalkExact(t, s);
        BuildHits(prefixes, |prefixes|, s);
      }
    } else if prefixes == [] {
      assert !WellFormed(Walk(t).parts[1]);
    } else {
      var i :| 0 <= i < |prefixes| && prefixes[i] == "";
      assert StartsWithAny(prefixes, "");
      WalkExact(t, "");
      assert Matches(Walk(t), "");
    }
  }

  /** The regex, with the trie grown one prefix at a time. */
  method WithoutPrefixes(prefixes: seq<string>) returns (r: Regex)
    ensures Excludes(r, prefixes) <==> Proper(prefixes)
    ensures r == Walk(Build(prefixes, |prefixes|))
  {
    var trie := LEAF;
    for n := 0 to |prefixes|
      invariant trie == Build(prefixes, n)
    {
      trie := Insert(trie, prefixes[n]);
    }
    ExcludesExactly(prefixes);
    r := Walk(trie);
  }
}
