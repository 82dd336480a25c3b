/** `managed-block.py`: a section kept between markers inside a text that is someone else's. */
module ManagedBlock {
  datatype Markers = Markers(begin: string, end: string)

  const BEGIN_1 := "!-- BEGIN PURDUE AF "
  const BEGIN_2 := "\U{2014} managed, edits inside "
  const BEGIN_3 := "are overwritten -->"
  const AF := Markers("<" + BEGIN_1 + BEGIN_2 + BEGIN_3, "<!-- END PURDUE AF -->")

  /** Python's `str.isspace` of one character. */
  predicate IsSpace(c: char) {
    var n := c as int;
    || 9 <= n <= 13 || 28 <= n <= 32 || n == 133 || n == 160 || n == 5760 || 8192 <= n <= 8202
    || n == 8232 || n == 8233 || n == 8239 || n == 8287 || n == 12288
  }

  /** What a strip takes off: newlines, or any white space. */
  datatype Chars = Newlines | Spaces

  predicate Drops(what: Chars, c: char) {
    if what.Newlines? then c == '\n' else IsSpace(c)
  }

  function Rstrip(s: string, what: Chars): (r: string)
    ensures r <= s && forall i :: |r| <= i < |s| ==> Drops(what, s[i])
    ensures r == "" || !Drops(what, r[|r| - 1])
    decreases |s|
  {
    if s != "" && Drops(what, s[|s| - 1]) then Rstrip(s[..|s| - 1], what) else s
  }

  function Lstrip(s: string, what: Chars): (r: string)
    ensures |r| <= |s| && r == s[|s| - |r|..] && forall i :: 0 <= i < |s| - |r| ==> Drops(what, s[i])
    ensures r == "" || !Drops(what, r[0])
    decreases |s|
  {
    if s != "" && Drops(what, s[0]) then Lstrip(s[1..], what) else s
  }

  function Strip(s: string): string {
    Rstrip(Lstrip(s, Spaces), Spaces)
  }

  predicate Occurs(s: string, p: string, i: int) {
    0 <= i && i + |p| <= |s| && s[i..i + |p|] == p
  }

  /** `s.find(p, from)` */
  function Find(s: string, p: string, from: nat): (r: int)
    ensures r == -1 ==> forall i :: from <= i ==> !Occurs(s, p, i)
    ensures r != -1 ==> from <= r && Occurs(s, p, r) && forall i :: from <= i < r ==> !Occurs(s, p, i)
    decreases |s| - from
  {
    if from + |p| > |s| then -1 else if Occurs(s, p, from) then from else Find(s, p, from + 1)
  }

  predicate Contains(s: string, p: string) {
    exists i :: 0 <= i <= |s| && Occurs(s, p, i)
  }

  function Block(k: Markers, inner: string): string {
    k.begin + "\n" + inner + "\n" + k.end
  }

  function Render(k: Markers, section: string): string {
    Block(k, Strip(section))
  }

  function Before(head: string): string {
    if head == "" then "" else head + "\n\n"
  }

  function After(tail: string): string {
    if tail == "" then "\n" else "\n\n" + tail + "\n"
  }

  /** `"\n\n".join` of the parts that are not empty, and a final newline. */
  function Joined(head: string, block: string, tail: string): string {
    Before(head) + block + After(tail)
  }

  function Start(k: Markers, t: string): int {
    Find(t, k.begin, 0)
  }

  /** Where the first END after the first BEGIN is. */
  function Stop(k: Markers, t: string): int {
    if Start(k, t) == -1 then -1 else Find(t, k.end, Start(k, t))
  }

  function Apply(k: Markers, existing: string, section: string): string {
    var block := Render(k, section);
    var start, end := Start(k, existing), Stop(k, existing);
    if start == -1 || end == -1 then
      if Strip(existing) == "" then block + "\n"
      else Rstrip(existing, Newlines) + "\n\n" + block + "\n"
    else
      var head := Rstrip(existing[..start], Newlines);
      var tail := Lstrip(existing[end + |k.end|..], Newlines);
      Joined(head, block, Rstrip(tail, Newlines))
  }

  // ----- what the text has besides the block -----

  predicate Located(k: Markers, t: string) {
    Start(k, t) != -1 && Stop(k, t) != -1
  }

  /** The three pieces of a text with a block. */
  function Lead(k: Markers, t: string): string
    requires Located(k, t)
  {
    t[..Start(k, t)]
  }

  function OldBlock(k: Markers, t: string): string
    requires Located(k, t)
  {
    t[Start(k, t)..Stop(k, t) + |k.end|]
  }

  function Rest(k: Markers, t: string): string
    requires Located(k, t)
  {
    t[Stop(k, t) + |k.end|..]
  }

  function Head(k: Markers, t: string): string {
    if Located(k, t) then Rstrip(Lead(k, t), Newlines)
    else if Strip(t) == "" then "" else Rstrip(t, Newlines)
  }

  function Tail(k: Markers, t: string): string {
    if Located(k, t) then Rstrip(Lstrip(Rest(k, t), Newlines), Newlines) else ""
  }

  lemma {:induction false} NewlinesAreSpace(t: string)
    requires forall i :: 0 <= i < |t| ==> t[i] == '\n'
    ensures Strip(t) == ""
  {
    var l := Lstrip(t, Spaces);
    assert forall i :: 0 <= i < |l| ==> l[i] == '\n';
  }

  lemma {:induction false} JoinedWithoutTail(head: string, block: string)
    ensures Joined("", block, "") == block + "\n"
    ensures head != "" ==> Joined(head, block, "") == head + "\n\n" + block + "\n"
  {
  }

  lemma {:induction false} UnblankHead(t: string)
    requires Strip(t) != ""
    ensures Rstrip(t, Newlines) != ""
  {
    if Rstrip(t, Newlines) == "" {
      NewlinesAreSpace(t);
    }
  }

  /** Whatever the section, the text around the block is the same. */
  lemma {:induction false} ApplyJoins(k: Markers, t: string, section: string)
    ensures Apply(k, t, section) == Joined(Head(k, t), Render(k, section), Tail(k, t))
  {
    if !Located(k, t) {
      ApplyAppends(k, t, section);
    }
  }

  lemma {:induction false} ApplyAppends(k: Markers, t: string, section: string)
    requires !Located(k, t)
    ensures Apply(k, t, section) == Joined(Head(k, t), Render(k, section), "")
  {
    JoinedWithoutTail(Rstrip(t, Newlines), Render(k, section));
    if Strip(t) != "" {
      UnblankHead(t);
    }
  }

  // ----- where markers can be -----

  /** Markers of one line, with no white space at their ends, and no END inside BEGIN. */
  ghost predicate Fit(k: Markers) {
    && k.begin != "" && k.end != ""
    && (forall i :: 0 <= i < |k.begin| ==> k.begin[i] != '\n')
    && (forall i :: 0 <= i < |k.end| ==> k.end[i] != '\n')
    && !IsSpace(k.begin[0]) && !IsSpace(k.begin[|k.begin| - 1]) && !IsSpace(k.end[0]) && !IsSpace(k.end[|k.end| - 1])
    && !Contains(k.begin, k.end)
  }

  lemma {:induction false} OccursAt(s: string, p: string, i: int, j: int)
    requires Occurs(s, p, i) && 0 <= j < |p|
    ensures s[i + j] == p[j]
  {
    assert s[i..i + |p|][j] == s[i + j];
  }

  lemma {:induction false} ContainsAt(s: string, p: string, i: int)
    ensures Occurs(s, p, i) ==> Contains(s, p)
  {
  }

  /** A marker holds no newline, so it cannot reach across one. */
  lemma {:induction false} NoStraddle(s: string, p: string, i: int, n: nat)
    requires Occurs(s, p, i) && n < |s| && s[n] == '\n'
    requires forall j :: 0 <= j < |p| ==> p[j] != '\n'
    ensures i + |p| <= n || n < i
  {
    if 0 <= n - i < |p| {
      OccursAt(s, p, i, n - i);
    }
  }

  lemma {:induction false} OccursIn(a: string, s: string, b: string, p: string, i: int)
    requires 0 <= i && i + |p| <= |s|
    ensures Occurs(a + s + b, p, |a| + i) <==> Occurs(s, p, i)
  {
    var t := a + s + b;
    assert t[|a| + i..|a| + i + |p|] == s[i..i + |p|];
  }

  lemma {:induction false} FindIs(s: string, p: string, from: nat, at: nat)
    requires from <= at && Occurs(s, p, at) && forall i :: from <= i < at ==> !Occurs(s, p, i)
    ensures Find(s, p, from) == at
  {
  }

  /** The first BEGIN of a joined text is its block's, if the head has none. */
  lemma {:induction false} StartOfJoined(k: Markers, head: string, block: string, tail: string)
    requires Fit(k) && k.begin <= block && !Contains(head, k.begin)
    ensures Start(k, Joined(head, block, tail)) == |Before(head)|
  {
    var pre, post := Before(head), After(tail);
    var t := Joined(head, block, tail);
    assert Occurs(block, k.begin, 0);
    OccursIn(pre, block, post, k.begin, 0);
    forall i | 0 <= i < |pre| ensures !Occurs(t, k.begin, i) {
      if Occurs(t, k.begin, i) {
        assert t == head + "\n\n" + (block + post);
        MarkerInHead(k.begin, head, block + post, i);
      }
    }
    FindIs(t, k.begin, 0, |pre|);
  }

  /** No marker straddles the join of a head and a block. */
  lemma {:induction false} MarkerInHead(p: string, head: string, rest: string, i: nat)
    requires p != "" && (forall j :: 0 <= j < |p| ==> p[j] != '\n')
    requires i < |head| + 2 && Occurs(head + "\n\n" + rest, p, i)
    ensures Occurs(head, p, i)
  {
    var t := head + "\n\n" + rest;
    assert t[|head|] == t[|head| + 1] == '\n';
    NoStraddle(t, p, i, |head|);
    NoStraddle(t, p, i, |head| + 1);
    assert t[i..i + |p|] == head[i..i + |p|];
  }

  /** The first END from a block on is the block's own first one. */
  lemma {:induction false} StopOfJoined(k: Markers, pre: string, block: string, post: string)
    requires Find(block, k.end, 0) != -1
    ensures Find(pre + block + post, k.end, |pre|) == |pre| + Find(block, k.end, 0)
  {
    var t, q := pre + block + post, Find(block, k.end, 0);
    OccursIn(pre, block, post, k.end, q);
    forall i | |pre| <= i < |pre| + q ensures !Occurs(t, k.end, i) {
      OccursIn(pre, block, post, k.end, i - |pre|);
    }
    FindIs(t, k.end, |pre|, |pre| + q);
  }

  lemma {:induction false} EndAtLastLine(k: Markers, inner: string)
    ensures Occurs(Block(k, inner), k.end, |Block(k, inner)| - |k.end|) && k.begin <= Block(k, inner)
  {
    var a := k.begin + "\n" + inner + "\n";
    assert Block(k, inner) == a + k.end + "";
    assert Occurs(k.end, k.end, 0);
    OccursIn(a, k.end, "", k.end, 0);
  }

  lemma {:induction false} EndFromSection(k: Markers, inner: string, i: nat)
    requires Occurs(inner, k.end, i)
    ensures Occurs(Block(k, inner), k.end, |k.begin| + 1 + i)
  {
    var b, c := k.begin + "\n", "\n" + k.end;
    assert Block(k, inner) == b + inner + c;
    OccursIn(b, inner, c, k.end, i);
  }

  /** An END before a block's last line is inside the section. */
  lemma {:induction false} EndInSection(k: Markers, inner: string, q: nat)
    requires Fit(k) && Occurs(Block(k, inner), k.end, q) && q < |Block(k, inner)| - |k.end|
    ensures Occurs(inner, k.end, q - |k.begin| - 1)
  {
    var b, c := k.begin + "\n", "\n" + k.end;
    var block := Block(k, inner);
    assert block == b + inner + c;
    assert block[|k.begin|] == '\n' && block[|b| + |inner|] == '\n';
    NoStraddle(block, k.end, q, |k.begin|);
    NoStraddle(block, k.end, q, |b| + |inner|);
    if q < |b| {
      assert block == "" + k.begin + ("\n" + inner + c);
      OccursIn("", k.begin, "\n" + inner + c, k.end, q);
      ContainsAt(k.begin, k.end, q);
    } else {
      OccursIn(b, inner, c, k.end, q - |b|);
    }
  }

  /** Where a block's first END is: its last line, unless the section has one. */
  lemma {:induction false} EndOfBlock(k: Markers, inner: string)
    requires Fit(k)
    ensures var q := Find(Block(k, inner), k.end, 0);
            && 0 <= q <= |Block(k, inner)| - |k.end|
            && (q == |Block(k, inner)| - |k.end| <==> !Contains(inner, k.end))
  {
    EndAtLastLine(k, inner);
    var q := Find(Block(k, inner), k.end, 0);
    if q < |Block(k, inner)| - |k.end| {
      EndInSection(k, inner, q);
      ContainsAt(inner, k.end, q - |k.begin| - 1);
    }
    if i :| 0 <= i <= |inner| && Occurs(inner, k.end, i) {
      EndFromSection(k, inner, i);
    }
  }

  // ----- applying again -----

  /** What a head and a tail are: no newlines where they meet the block, none at the end. */
  predicate Trimmed(head: string, tail: string) {
    && (head == "" || head[|head| - 1] != '\n')
    && (tail == "" || (tail[0] != '\n' && tail[|tail| - 1] != '\n'))
  }

  lemma {:induction false} PartsTrimmed(k: Markers, t: string)
    ensures Trimmed(Head(k, t), Tail(k, t))
  {
    if Located(k, t) {
      var l := Lstrip(Rest(k, t), Newlines);
      var r := Rstrip(l, Newlines);
      assert r != "" ==> r[0] == l[0];
    }
  }

  lemma {:induction false} RstripNewline(s: string)
    ensures Rstrip(s + "\n", Newlines) == Rstrip(s, Newlines)
  {
    assert (s + "\n")[..|s|] == s;
  }

  lemma {:induction false} LstripNewline(s: string)
    ensures Lstrip("\n" + s, Newlines) == Lstrip(s, Newlines)
  {
    assert ("\n" + s)[1..] == s;
  }

  lemma {:induction false} HeadOfBefore(head: string)
    requires head == "" || head[|head| - 1] != '\n'
    ensures Rstrip(Before(head), Newlines) == head
  {
    if head != "" {
      assert head + "\n\n" == head + "\n" + "\n";
      RstripNewline(head + "\n");
      RstripNewline(head);
    }
  }

  lemma {:induction false} TailOfAfter(tail: string)
    requires tail == "" || (tail[0] != '\n' && tail[|tail| - 1] != '\n')
    ensures Rstrip(Lstrip(After(tail), Newlines), Newlines) == tail
  {
    if tail == "" {
      assert After(tail) == "\n" + "";
      LstripNewline("");
    } else {
      var rest := tail + "\n";
      assert After(tail) == "\n" + ("\n" + rest);
      LstripNewline("\n" + rest);
      LstripNewline(rest);
      assert Lstrip(rest, Newlines) == rest;
      RstripNewline(tail);
    }
  }

  /** Where the markers of a joined text are. */
  lemma {:induction false} JoinedMarkers(k: Markers, head: string, inner: string, tail: string)
    requires Fit(k) && !Contains(head, k.begin)
    ensures var t := Joined(head, Block(k, inner), tail);
            && Located(k, t) && Start(k, t) == |Before(head)|
            && Stop(k, t) == |Before(head)| + Find(Block(k, inner), k.end, 0)
  {
    EndAtLastLine(k, inner);
    EndOfBlock(k, inner);
    StartOfJoined(k, head, Block(k, inner), tail);
    StopOfJoined(k, Before(head), Block(k, inner), After(tail));
  }

  lemma {:induction false} PartsAround(k: Markers, pre: string, mid: string, post: string)
    requires var t := pre + mid + post; Located(k, t) && Start(k, t) == |pre| && Stop(k, t) + |k.end| == |pre| + |mid|
    ensures Head(k, pre + mid + post) == Rstrip(pre, Newlines)
    ensures Tail(k, pre + mid + post) == Rstrip(Lstrip(post, Newlines), Newlines)
  {
    var t := pre + mid + post;
    assert t[..|pre|] == pre;
    assert t[|pre| + |mid|..] == post;
  }

  /** A joined text comes apart into the parts it was joined from, if the section has no END. */
  lemma {:induction false} JoinedComesApart(k: Markers, head: string, inner: string, tail: string)
    requires Fit(k) && Trimmed(head, tail) && !Contains(head, k.begin) && !Contains(inner, k.end)
    ensures Head(k, Joined(head, Block(k, inner), tail)) == head
    ensures Tail(k, Joined(head, Block(k, inner), tail)) == tail
  {
    JoinedMarkers(k, head, inner, tail);
    EndOfBlock(k, inner);
    PartsAround(k, Before(head), Block(k, inner), After(tail));
    HeadOfBefore(head);
    TailOfAfter(tail);
  }

  // ----- when applying again changes nothing -----

  /** A BEGIN in the text, if any, has an END after it. */
  predicate Closed(k: Markers, t: string) {
    Start(k, t) != -1 ==> Stop(k, t) != -1
  }

  lemma {:induction false} OccursInPrefix(h: string, t: string, p: string, i: int)
    requires h <= t && Occurs(h, p, i)
    ensures Occurs(t, p, i)
  {
    assert t[i..i + |p|] == h[i..i + |p|];
  }

  lemma {:induction false} HeadIsPrefix(k: Markers, t: string)
    ensures Head(k, t) <= t && (Located(k, t) ==> |Head(k, t)| <= Start(k, t))
  {
  }

  lemma {:induction false} NoneBefore(k: Markers, h: string, t: string)
    requires h <= t && k.begin != "" && (Start(k, t) == -1 || |h| <= Start(k, t))
    ensures !Contains(h, k.begin)
  {
    forall i | 0 <= i <= |h| ensures !Occurs(h, k.begin, i) {
      if Occurs(h, k.begin, i) {
        OccursInPrefix(h, t, k.begin, i);
      }
    }
  }

  lemma {:induction false} HeadHasNoBegin(k: Markers, t: string)
    requires Closed(k, t) && k.begin != ""
    ensures !Contains(Head(k, t), k.begin)
  {
    HeadIsPrefix(k, t);
    NoneBefore(k, Head(k, t), t);
  }

  /** The last section wins: one applied before leaves no trace. */
  lemma {:induction false} LastSectionWins(k: Markers, t: string, first: string, second: string)
    requires Fit(k) && Closed(k, t) && !Contains(Strip(first), k.end)
    ensures Apply(k, Apply(k, t, first), second) == Apply(k, t, second)
  {
    ApplyJoins(k, t, first);
    ApplyJoins(k, t, second);
    ApplyJoins(k, Apply(k, t, first), second);
    PartsTrimmed(k, t);
    HeadHasNoBegin(k, t);
    JoinedComesApart(k, Head(k, t), Strip(first), Tail(k, t));
  }

  /** A section with an END leaves something of itself behind its block. */
  lemma {:induction false} LongerTail(y: string, tail: string)
    requires y != "" && y[|y| - 1] != '\n' && (tail == "" || (tail[0] != '\n' && tail[|tail| - 1] != '\n'))
    ensures |Rstrip(Lstrip(y + After(tail), Newlines), Newlines)| > |tail|
  {
    var x := y + After(tail);
    var z := Lstrip(x, Newlines);
    assert x[|y| - 1] == y[|y| - 1];
    assert |x| - |z| <= |y| - 1;
    var r := Rstrip(z, Newlines);
    var last := |z| - 2;
    assert z[last] == x[|x| - 2];
    assert x[|x| - 2] == if tail == "" then y[|y| - 1] else tail[|tail| - 1];
  }

  lemma {:induction false} Recut(pre: string, block: string, post: string, cut: nat)
    requires cut <= |block|
    ensures pre + block + post == pre + block[..cut] + (block[cut..] + post)
  {
    assert block == block[..cut] + block[cut..];
  }

  lemma {:induction false} JoinedLonger(head: string, block: string, tail: string, longer: string)
    requires |longer| > |tail|
    ensures |Joined(head, block, longer)| > |Joined(head, block, tail)|
  {
  }

  lemma {:induction false} EndLeavesTail(k: Markers, head: string, inner: string, tail: string)
    requires Fit(k) && Trimmed(head, tail) && !Contains(head, k.begin) && Contains(inner, k.end)
    ensures var once := Joined(head, Block(k, inner), tail);
            Head(k, once) == head && |Tail(k, once)| > |tail|
  {
    var block := Block(k, inner);
    JoinedMarkers(k, head, inner, tail);
    var cut := EndBeforeLast(k, inner);
    PartsAfterCut(k, Before(head), block, After(tail), cut);
    HeadOfBefore(head);
    LongerTail(block[cut..], tail);
  }

  /** What a block has behind its first END ends in the last one. */
  lemma {:induction false} EndBeforeLast(k: Markers, inner: string) returns (cut: nat)
    requires Fit(k) && Contains(inner, k.end)
    ensures var block := Block(k, inner);
            && cut == Find(block, k.end, 0) + |k.end| < |block|
            && block[cut..] != "" && block[cut..][|block[cut..]| - 1] != '\n'
  {
    var block := Block(k, inner);
    EndOfBlock(k, inner);
    BlockEndsInEnd(k, inner);
    cut := Find(block, k.end, 0) + |k.end|;
    assert block[cut..][|block| - cut - 1] == block[|block| - 1];
  }

  /** The parts around a text's markers, when its END ends at `cut` in the middle. */
  lemma {:induction false} PartsAfterCut(k: Markers, pre: string, mid: string, post: string, cut: nat)
    requires cut <= |mid|
    requires var t := pre + mid + post; Located(k, t) && Start(k, t) == |pre| && Stop(k, t) + |k.end| == |pre| + cut
    ensures Head(k, pre + mid + post) == Rstrip(pre, Newlines)
    ensures Tail(k, pre + mid + post) == Rstrip(Lstrip(mid[cut..] + post, Newlines), Newlines)
  {
    Recut(pre, mid, post, cut);
    PartsAround(k, pre, mid[..cut], mid[cut..] + post);
  }

  lemma {:induction false} SectionWithEndGrows(k: Markers, t: string, section: string)
    requires Fit(k) && Closed(k, t) && Contains(Strip(section), k.end)
    ensures |Apply(k, Apply(k, t, section), section)| > |Apply(k, t, section)|
  {
    ApplyJoins(k, t, section);
    ApplyJoins(k, Apply(k, t, section), section);
    PartsTrimmed(k, t);
    HeadHasNoBegin(k, t);
    EndLeavesTail(k, Head(k, t), Strip(section), Tail(k, t));
    JoinedLonger(Head(k, t), Render(k, section), Tail(k, t), Tail(k, Apply(k, t, section)));
  }

  lemma {:induction false} BlockEndsInEnd(k: Markers, inner: string)
    requires Fit(k)
    ensures Block(k, inner)[|Block(k, inner)| - 1] == k.end[|k.end| - 1] != '\n'
  {
  }

  lemma {:induction false} UnclosedHead(k: Markers, t: string)
    requires Fit(k) && !Closed(k, t)
    ensures Head(k, t) == Rstrip(t, Newlines) && Start(k, t) + |k.begin| <= |Head(k, t)|
  {
    var p := Start(k, t);
    OccursAt(t, k.begin, p, 0);
    OccursAt(t, k.begin, p, |k.begin| - 1);
    NotBlank(t, p);
  }

  lemma {:induction false} NotBlank(t: string, i: nat)
    requires i < |t| && !IsSpace(t[i])
    ensures Strip(t) != ""
  {
    var l := Lstrip(t, Spaces);
    assert l[i - (|t| - |l|)] == t[i];
  }

  /**
   * Behind a head, a text's first marker from `from` on is where it is in the head, or
   * behind it if it is not there.
   */
  lemma {:induction false} FindBehindHead(p: string, head: string, rest: string, from: nat, at: nat)
    requires p != "" && (forall j :: 0 <= j < |p| ==> p[j] != '\n')
    requires forall i :: from <= i < at ==> !Occurs(head, p, i)
    requires from <= at && Occurs(head + "\n\n" + rest, p, at)
    requires forall i :: |head| + 2 <= i < at ==> !Occurs(head + "\n\n" + rest, p, i)
    ensures Find(head + "\n\n" + rest, p, from) == at
  {
    var t := head + "\n\n" + rest;
    forall i | from <= i < at ensures !Occurs(t, p, i) {
      if i < |head| + 2 && Occurs(t, p, i) {
        MarkerInHead(p, head, rest, i);
      }
    }
    FindIs(t, p, from, at);
  }

  lemma {:induction false} NotInPrefix(h: string, t: string, p: string, from: nat, to: nat)
    requires h <= t && forall i :: from <= i < to ==> !Occurs(t, p, i)
    ensures forall i :: from <= i < to ==> !Occurs(h, p, i)
  {
    forall i | from <= i < to ensures !Occurs(h, p, i) {
      if Occurs(h, p, i) {
        OccursInPrefix(h, t, p, i);
      }
    }
  }

  lemma {:induction false} StartInHead(k: Markers, head: string, t: string, rest: string, p: nat)
    requires Fit(k) && head <= t && p + |k.begin| <= |head| && Occurs(t, k.begin, p)
    requires forall i :: 0 <= i < p ==> !Occurs(t, k.begin, i)
    ensures Start(k, head + "\n\n" + rest) == p
  {
    var once := head + "\n\n" + rest;
    assert once[p..p + |k.begin|] == t[p..p + |k.begin|];
    NotInPrefix(head, t, k.begin, 0, p);
    FindBehindHead(k.begin, head, rest, 0, p);
  }

  lemma {:induction false} StopBehindHead(k: Markers, head: string, block: string, post: string, from: nat)
    requires Fit(k) && from <= |head| && (forall i :: from <= i ==> !Occurs(head, k.end, i))
             && Find(block, k.end, 0) != -1
    ensures Find(head + "\n\n" + (block + post), k.end, from) == |head| + 2 + Find(block, k.end, 0)
  {
    var pre := head + "\n\n";
    StopOfJoined(k, pre, block, post);
    Associate(pre, block, post);
    FindBehindHead(k.end, head, block + post, from, |pre| + Find(block, k.end, 0));
  }

  lemma {:induction false} UnclosedFacts(k: Markers, t: string)
    requires Fit(k) && !Closed(k, t)
    ensures var p := Start(k, t);
            && 0 <= p && Occurs(t, k.begin, p)
            && (forall i :: 0 <= i < p ==> !Occurs(t, k.begin, i))
            && (forall i :: p <= i ==> !Occurs(t, k.end, i))
  {
  }

  lemma {:induction false} NotInPrefixEver(h: string, t: string, p: string, from: nat)
    requires h <= t && forall i :: from <= i ==> !Occurs(t, p, i)
    ensures forall i :: from <= i ==> !Occurs(h, p, i)
  {
    forall i | from <= i ensures !Occurs(h, p, i) {
      if Occurs(h, p, i) {
        OccursInPrefix(h, t, p, i);
      }
    }
  }

  lemma {:induction false} JoinedBehindHead(head: string, block: string)
    requires head != ""
    ensures Joined(head, block, "") == head + "\n\n" + (block + "\n")
  {
    Associate(head + "\n\n", block, "\n");
  }

  lemma {:induction false} MarkersBehindHead(k: Markers, head: string, t: string, inner: string, p: nat)
    requires Fit(k) && head <= t && p + |k.begin| <= |head| && Occurs(t, k.begin, p)
    requires forall i :: 0 <= i < p ==> !Occurs(t, k.begin, i)
    requires forall i :: p <= i ==> !Occurs(t, k.end, i)
    ensures var once := Joined(head, Block(k, inner), "");
            Start(k, once) == p && Stop(k, once) == |head| + 2 + Find(Block(k, inner), k.end, 0) >= 0
  {
    JoinedBehindHead(head, Block(k, inner));
    EndOfBlock(k, inner);
    StartInHead(k, head, t, Block(k, inner) + "\n", p);
    NotInPrefixEver(head, t, k.end, p);
    StopBehindHead(k, head, Block(k, inner), "\n", p);
  }

  /** The block goes behind an unclosed BEGIN, and the text between them is inside the markers from then on. */
  lemma {:induction false} UnclosedMarkers(k: Markers, t: string, inner: string)
    requires Fit(k) && !Closed(k, t)
    ensures var once := Joined(Head(k, t), Block(k, inner), "");
            && Located(k, once) && Start(k, once) == Start(k, t)
            && Stop(k, once) == |Head(k, t)| + 2 + Find(Block(k, inner), k.end, 0)
  {
    UnclosedHead(k, t);
    UnclosedFacts(k, t);
    HeadIsPrefix(k, t);
    MarkersBehindHead(k, Head(k, t), t, inner, Start(k, t));
  }

  lemma {:induction false} UnclosedChanges(k: Markers, t: string, section: string)
    requires Fit(k) && !Closed(k, t)
    ensures Apply(k, Apply(k, t, section), section) != Apply(k, t, section)
  {
    var inner := Strip(section);
    var once := Joined(Head(k, t), Block(k, inner), "");
    UnclosedHead(k, t);
    UnclosedMarkers(k, t, inner);
    ApplyJoins(k, t, section);
    ApplyJoins(k, once, section);
    HeadHasNoBegin(k, once);
    JoinedMarkers(k, Head(k, once), inner, Tail(k, once));
  }

  lemma {:induction false} RstripParts(s: string, what: Chars) returns (a: string)
    ensures s == Rstrip(s, what) + a && forall i :: 0 <= i < |a| ==> Drops(what, a[i])
  {
    a := s[|Rstrip(s, what)|..];
  }

  lemma {:induction false} LstripParts(s: string, what: Chars) returns (a: string)
    ensures s == a + Lstrip(s, what) && forall i :: 0 <= i < |a| ==> Drops(what, a[i])
  {
    a := s[..|s| - |Lstrip(s, what)|];
  }

  lemma {:induction false} StripParts(s: string, what: Chars) returns (a: string, b: string)
    ensures s == a + Rstrip(Lstrip(s, what), what) + b
    ensures (forall i :: 0 <= i < |a| ==> Drops(what, a[i])) && (forall i :: 0 <= i < |b| ==> Drops(what, b[i]))
  {
    a := LstripParts(s, what);
    b := RstripParts(Lstrip(s, what), what);
    Associate(a, Rstrip(Lstrip(s, what), what), b);
  }

  lemma {:induction false} Associate(a: string, b: string, c: string)
    ensures a + (b + c) == a + b + c
  {
  }

  lemma {:induction false} EndInMiddle(k: Markers, a: string, r: string, b: string, i: nat)
    requires Fit(k) && Occurs(a + r + b, k.end, i)
    requires (forall j :: 0 <= j < |a| ==> IsSpace(a[j])) && (forall j :: 0 <= j < |b| ==> IsSpace(b[j]))
    ensures |a| <= i && Occurs(r, k.end, i - |a|)
  {
    var s := a + r + b;
    assert forall j :: 0 <= j < |a| ==> s[j] == a[j];
    assert forall j :: |a| + |r| <= j < |s| ==> s[j] == b[j - |a| - |r|];
    OccursAt(s, k.end, i, 0);
    OccursAt(s, k.end, i, |k.end| - 1);
    OccursIn(a, r, b, k.end, i - |a|);
  }

  lemma {:induction false} StripKeepsEnd(k: Markers, section: string)
    requires Fit(k)
    ensures Contains(section, k.end) <==> Contains(Strip(section), k.end)
  {
    var a, b := StripParts(section, Spaces);
    var r := Strip(section);
    if i :| 0 <= i <= |r| && Occurs(r, k.end, i) {
      OccursIn(a, r, b, k.end, i);
      ContainsAt(section, k.end, |a| + i);
    }
    if i :| 0 <= i <= |section| && Occurs(section, k.end, i) {
      EndInMiddle(k, a, r, b, i);
      ContainsAt(r, k.end, i - |a|);
    }
  }

  /**
   * Running it twice gives the same text exactly when the section holds no END and
   * the text no BEGIN without one after it.
   */
  lemma {:induction false} IdempotentExactly(k: Markers, t: string, section: string)
    requires Fit(k)
    ensures Apply(k, Apply(k, t, section), section) == Apply(k, t, section) <==>
            !Contains(section, k.end) && Closed(k, t)
  {
    StripKeepsEnd(k, section);
    if !Closed(k, t) {
      UnclosedChanges(k, t, section);
    } else if Contains(section, k.end) {
      SectionWithEndGrows(k, t, section);
    } else {
      LastSectionWins(k, t, section, section);
    }
  }

  // ----- what is kept of the text -----

  predicate AllNewlines(s: string) {
    forall i :: 0 <= i < |s| ==> s[i] == '\n'
  }

  lemma {:induction false} Pieces(k: Markers, t: string)
    requires Located(k, t)
    ensures t == Lead(k, t) + OldBlock(k, t) + Rest(k, t)
  {
    Cut(t, Start(k, t), Stop(k, t) + |k.end|);
  }

  lemma {:induction false} Cut(t: string, p: nat, q: nat)
    requires p <= q <= |t|
    ensures t == t[..p] + t[p..q] + t[q..]
  {
  }

  lemma {:induction false} Assemble(head: string, a: string, block: string, b: string, tail: string, c: string)
    ensures (head + a) + block + (b + tail + c) == head + a + block + b + tail + c
  {
  }

  /** Of a text with a block only newlines next to the markers, and at its end, are lost. */
  lemma {:induction false} TextKept(k: Markers, t: string) returns (a: string, b: string, c: string)
    requires Located(k, t)
    ensures AllNewlines(a) && AllNewlines(b) && AllNewlines(c)
    ensures t == Head(k, t) + a + OldBlock(k, t) + b + Tail(k, t) + c
  {
    Pieces(k, t);
    a := RstripParts(Lead(k, t), Newlines);
    b, c := StripParts(Rest(k, t), Newlines);
    Assemble(Head(k, t), a, OldBlock(k, t), b, Tail(k, t), c);
  }

  /** A text without a block keeps everything before its last newlines, unless it is blank. */
  lemma {:induction false} PlainTextKept(k: Markers, t: string) returns (a: string)
    requires !Located(k, t) && Strip(t) != ""
    ensures AllNewlines(a) && t == Head(k, t) + a && Tail(k, t) == ""
  {
    a := RstripParts(t, Newlines);
  }

  // ----- the markers of the file -----

  const BEGIN_REST := BEGIN_1 + BEGIN_2 + BEGIN_3

  lemma {:induction false} BeginRestLacks(c: char)
    requires c == '<' || c == '\n'
    ensures c !in BEGIN_REST
  {
    if c == '<' {
      assert '<' !in BEGIN_1 && '<' !in BEGIN_2 && '<' !in BEGIN_3;
    } else {
      assert '\n' !in BEGIN_1 && '\n' !in BEGIN_2 && '\n' !in BEGIN_3;
    }
  }

  lemma {:induction false} BeginIsRest()
    ensures AF.begin == "<" + BEGIN_REST
  {
    assert "<" + BEGIN_1 + BEGIN_2 + BEGIN_3 == "<" + (BEGIN_1 + BEGIN_2 + BEGIN_3);
  }

  lemma {:induction false} EndNotInBegin(rest: string, i: nat)
    requires '<' !in rest && |rest| > 5 && rest[4] == 'B'
    ensures !Occurs("<" + rest, AF.end, i)
  {
    var b := "<" + rest;
    assert b[5] == rest[4];
    assert forall j :: 0 < j < |b| ==> b[j] == rest[j - 1];
    if Occurs(b, AF.end, i) {
      OccursAt(b, AF.end, i, 0);
      OccursAt(b, AF.end, i, 5);
    }
  }

  lemma {:induction false} EndHasNoNewline()
    ensures '\n' !in AF.end && |AF.end| == 22 && AF.end[0] == '<' && AF.end[21] == '>'
  {
  }

  lemma {:induction false} AfMarkersFit()
    ensures Fit(AF)
  {
    BeginIsRest();
    BeginRestLacks('<');
    BeginRestLacks('\n');
    EndHasNoNewline();
    var rest := BEGIN_REST;
    assert rest[4] == BEGIN_1[4];
    forall i: nat ensures !Occurs("<" + rest, AF.end, i) {
      EndNotInBegin(rest, i);
    }
    assert rest[|rest| - 1] == BEGIN_3[|BEGIN_3| - 1];
    assert forall i :: 0 <= i < |AF.begin| ==> AF.begin[i] != '\n';
  }

  /** `apply_block`, with the markers it writes. */
  lemma {:induction false} ApplyBlockIdempotent(t: string, section: string)
    ensures Apply(AF, Apply(AF, t, section), section) == Apply(AF, t, section) <==>
            !Contains(section, AF.end) && Closed(AF, t)
  {
    AfMarkersFit();
    IdempotentExactly(AF, t, section);
  }

  /** A text of one BEGIN alone: the second run takes the first one's block for its end. */
  lemma {:induction false} UnclosedExample()
    ensures Apply(AF, Apply(AF, AF.begin, ""), "") != Apply(AF, AF.begin, "")
  {
    AfMarkersFit();
    FindIs(AF.begin, AF.begin, 0, 0);
    UnclosedChanges(AF, AF.begin, "");
  }

  // ----- the section -----

  /** `s` but for white space at its ends. */
  ghost predicate IsStripped(s: string, core: string) {
    && (exists a, b :: Around(s, a, core, b))
    && (core == "" || (!IsSpace(core[0]) && !IsSpace(core[|core| - 1])))
  }

  predicate Around(s: string, a: string, core: string, b: string) {
    s == a + core + b && Blank(a) && Blank(b)
  }

  predicate Blank(s: string) {
    forall i :: 0 <= i < |s| ==> IsSpace(s[i])
  }

  lemma {:induction false} StripIsStripped(s: string)
    ensures IsStripped(s, Strip(s))
  {
    var a, b := StripParts(s, Spaces);
    assert Around(s, a, Strip(s), b);
    StripEnds(Lstrip(s, Spaces));
  }

  lemma {:induction false} StripEnds(l: string)
    requires l == "" || !IsSpace(l[0])
    ensures var core := Rstrip(l, Spaces);
            core == "" || (!IsSpace(core[0]) && !IsSpace(core[|core| - 1]))
  {
    var core := Rstrip(l, Spaces);
    assert core != "" ==> core[0] == l[0];
  }

  /** What stands between the first BEGIN of a text and the first END after it. */
  function Between(k: Markers, t: string): string
    requires Located(k, t) && Start(k, t) + |k.begin| <= Stop(k, t)
  {
    t[Start(k, t) + |k.begin|..Stop(k, t)]
  }

  lemma {:induction false} BlockInside(k: Markers, pre: string, inner: string, post: string)
    ensures var t := pre + Block(k, inner) + post;
            var from := |pre| + |k.begin|;
            from + |inner| + 2 <= |t| && t[from..from + |inner| + 2] == "\n" + inner + "\n"
  {
    var t := pre + Block(k, inner) + post;
    assert t == pre + k.begin + ("\n" + inner + "\n") + (k.end + post);
  }

  lemma {:induction false} JoinedBetween(k: Markers, head: string, core: string, tail: string)
    requires Fit(k) && !Contains(head, k.begin) && !Contains(core, k.end)
    ensures var t := Joined(head, Block(k, core), tail);
            && Located(k, t) && Start(k, t) + |k.begin| <= Stop(k, t)
            && Between(k, t) == "\n" + core + "\n"
  {
    JoinedMarkers(k, head, core, tail);
    EndOfBlock(k, core);
    BetweenAt(k, Before(head), core, After(tail));
  }

  lemma {:induction false} BetweenAt(k: Markers, pre: string, core: string, post: string)
    requires var t := pre + Block(k, core) + post;
             Located(k, t) && Start(k, t) == |pre| && Stop(k, t) == |pre| + |Block(k, core)| - |k.end|
    ensures var t := pre + Block(k, core) + post;
            Start(k, t) + |k.begin| <= Stop(k, t) && Between(k, t) == "\n" + core + "\n"
  {
    BlockInside(k, pre, core, post);
    assert |Block(k, core)| == |k.begin| + |core| + 2 + |k.end|;
  }

  /**
   * The section, but for white space at its ends, stands on lines of its own between the
   * first BEGIN of what is written and the first END after it, if it has no END itself.
   */
  lemma {:induction false} SectionStands(k: Markers, t: string, section: string)
    requires Fit(k) && Closed(k, t) && !Contains(section, k.end)
    ensures var out := Apply(k, t, section);
            && Located(k, out) && Start(k, out) + |k.begin| <= Stop(k, out)
            && exists core :: IsStripped(section, core) && Between(k, out) == "\n" + core + "\n"
  {
    var core := Strip(section);
    ApplyJoins(k, t, section);
    StripIsStripped(section);
    StripKeepsEnd(k, section);
    HeadHasNoBegin(k, t);
    JoinedBetween(k, Head(k, t), core, Tail(k, t));
    assert IsStripped(section, core) && Between(k, Apply(k, t, section)) == "\n" + core + "\n";
  }
}
