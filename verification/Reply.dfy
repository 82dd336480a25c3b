/** `Reply`: an upstream answer folded from its chunks, and rebuilt from the whole. */
module Reply {
  import opened Optional
  import opened Keys

  datatype Usage = Usage(promptTokens: nat, completionTokens: nat)
  datatype ReasoningName = ReasoningContent | Reasoning

  /** A tool call's part in a chunk; an absent string is empty, as `or ""` makes it. */
  datatype CallDelta = CallDelta(index: Option<int>, id: string, name: string, arguments: string)
  datatype Delta = Delta(content: string, reasoningContent: string, reasoning: string, calls: seq<CallDelta>)
  datatype Choice = Choice(delta: Delta, finish: Option<string>)
  datatype Chunk = Chunk(usage: Option<Usage>, choices: seq<Choice>)

  const NOTHING := Delta("", "", "", [])

  datatype Slot = Slot(id: string, name: string, arguments: string)

  /** The fields of a reply that `take` folds chunks into. */
  datatype Content = Content(
    content: string, reasoning: string, reasoningName: ReasoningName, calls: map<int, Slot>,
    finish: Option<string>, usage: Option<Usage>)

  const EMPTY := Content("", "", ReasoningContent, map[], None, None)

  // ----- take -----

  function TakeCall(calls: map<int, Slot>, n: int, d: CallDelta): map<int, Slot> {
    var at := if d.index.Some? then d.index.value else n;
    var slot := if at in calls then calls[at] else Slot("", "", "");
    calls[at := Slot(if d.id != "" then d.id else slot.id, slot.name + d.name, slot.arguments + d.arguments)]
  }

  /** The first `n` calls of a delta, taken in turn. */
  function TakeCalls(calls: map<int, Slot>, ds: seq<CallDelta>, n: nat): map<int, Slot>
    requires n <= |ds|
    decreases n
  {
    if n == 0 then calls else TakeCall(TakeCalls(calls, ds, n - 1), n - 1, ds[n - 1])
  }

  function TakeChoice(c: Content, choice: Choice): Content {
    var d := choice.delta;
    Content(
      c.content + d.content,
      c.reasoning + d.reasoningContent + d.reasoning,
      if d.reasoning != "" then Reasoning else if d.reasoningContent != "" then ReasoningContent else c.reasoningName,
      TakeCalls(c.calls, d.calls, |d.calls|),
      if choice.finish.Some? && choice.finish.value != "" then choice.finish else c.finish,
      c.usage)
  }

  function TakeChoices(c: Content, choices: seq<Choice>, n: nat): Content
    requires n <= |choices|
    decreases n
  {
    if n == 0 then c else TakeChoice(TakeChoices(c, choices, n - 1), choices[n - 1])
  }

  function Taken(c: Content, chunk: Chunk): Content {
    TakeChoices(if chunk.usage.Some? then c.(usage := chunk.usage) else c, chunk.choices, |chunk.choices|)
  }

  function TakeAll(c: Content, chunks: seq<Chunk>): Content
    decreases |chunks|
  {
    if chunks == [] then c else TakeAll(Taken(c, chunks[0]), chunks[1..])
  }

  class Reply {
    var content: string
    var reasoning: string
    var reasoningName: ReasoningName
    var calls: map<int, Slot>
    var finish: Option<string>
    var usage: Option<Usage>

    ghost function View(): Content
      reads this
    {
      Content(content, reasoning, reasoningName, calls, finish, usage)
    }

    constructor ()
      ensures View() == EMPTY
    {
      content, reasoning, reasoningName := "", "", ReasoningContent;
      calls, finish, usage := map[], None, None;
    }

    method Take(chunk: Chunk)
      modifies this
      ensures View() == Taken(old(View()), chunk)
    {
      if chunk.usage.Some? {
        usage := chunk.usage;
      }
      ghost var start := View();
      for n := 0 to |chunk.choices|
        invariant View() == TakeChoices(start, chunk.choices, n)
      {
        TakeOne(chunk.choices[n]);
      }
    }

    method TakeOne(choice: Choice)
      modifies this
      ensures View() == TakeChoice(old(View()), choice)
    {
      var d := choice.delta;
      content := content + d.content;
      if d.reasoningContent != "" {
        reasoning, reasoningName := reasoning + d.reasoningContent, ReasoningContent;
      }
      if d.reasoning != "" {
        reasoning, reasoningName := reasoning + d.reasoning, Reasoning;
      }
      var slots := calls;
      for n := 0 to |d.calls|
        invariant slots == TakeCalls(calls, d.calls, n)
      {
        slots := TakeCall(slots, n, d.calls[n]);
      }
      calls := slots;
      if choice.finish.Some? && choice.finish.value != "" {
        finish := choice.finish;
      }
    }
  }

  // ----- message and chunks -----

  ghost function LeastKey(m: map<int, Slot>): (k: int)
    requires m != map[]
    ensures k in m && forall j :: j in m ==> k <= j
  {
    assert |m.Keys| > 0;
    LeastExists(m.Keys);
    var k :| IsLeast(k, m.Keys);
    k
  }

  /** The calls in the order of `sorted(self.calls.items())`. */
  ghost function Ordered(m: map<int, Slot>): seq<Slot>
    decreases |m.Keys|
  {
    if m == map[] then []
    else
      var k := LeastKey(m);
      assert (m - {k}).Keys == m.Keys - {k};
      [m[k]] + Ordered(m - {k})
  }

  /** A call's id: its own, or the fresh one drawn for a call without. */
  function Named(slots: seq<Slot>, drawn: nat -> string): (r: seq<Slot>)
    ensures |r| == |slots|
  {
    seq(|slots|, i requires 0 <= i < |slots| => if slots[i].id != "" then slots[i] else slots[i].(id := drawn(i)))
  }

  /** The message of `message`, its calls numbered if `chunks` sends it as a delta. */
  ghost function MessageDelta(c: Content, drawn: nat -> string, numbered: bool): Delta {
    var slots := Named(Ordered(c.calls), drawn);
    Delta(
      c.content,
      if c.reasoningName == ReasoningContent then c.reasoning else "",
      if c.reasoningName == Reasoning then c.reasoning else "",
      seq(|slots|, i requires 0 <= i < |slots| =>
        CallDelta(if numbered then Some(i) else None, slots[i].id, slots[i].name, slots[i].arguments)))
  }

  /** `message`: the reply as a chat.completion. */
  ghost function Message(c: Content, drawn: nat -> string): Chunk {
    Chunk(c.usage, [Choice(MessageDelta(c, drawn, false), c.finish)])
  }

  /** `chunks` of a reply that came whole. */
  ghost function Chunks(c: Content, drawn: nat -> string): seq<Chunk> {
    [Chunk(None, [Choice(MessageDelta(c, drawn, true), None)]), Chunk(None, [Choice(NOTHING, c.finish)])]
    + if c.usage.Some? then [Chunk(c.usage, [])] else []
  }

  // ----- the round trip -----

  /** What a client can tell of a reply: everything but the numbers of its calls. */
  ghost predicate SameToClient(a: Content, b: Content) {
    && a.content == b.content
    && a.reasoning == b.reasoning && (a.reasoning != "" ==> a.reasoningName == b.reasoningName)
    && a.finish == b.finish && a.usage == b.usage
    && Ordered(a.calls) == Ordered(b.calls)
  }

  /** Deltas that number themselves by their position fill the slots of those positions. */
  lemma {:induction false} TakeNumbered(ds: seq<CallDelta>, n: nat)
    requires n <= |ds|
    requires forall i :: 0 <= i < |ds| ==> ds[i].index == None || ds[i].index == Some(i)
    ensures var m := TakeCalls(map[], ds, n);
            && (forall i :: i in m <==> 0 <= i < n)
            && (forall i :: 0 <= i < n ==> m[i] == Slot(ds[i].id, ds[i].name, ds[i].arguments))
    decreases n
  {
    if n == 0 {
    } else {
      TakeNumbered(ds, n - 1);
      TakeNext(TakeCalls(map[], ds, n - 1), ds[n - 1], n - 1);
    }
  }

  /** A delta of a number not seen yet fills its slot. */
  lemma {:induction false} TakeNext(calls: map<int, Slot>, d: CallDelta, n: int)
    requires (d.index == None || d.index == Some(n)) && n !in calls
    ensures TakeCall(calls, n, d) == calls[n := Slot(d.id, d.name, d.arguments)]
  {
    assert "" + d.name == d.name && "" + d.arguments == d.arguments;
  }

  lemma {:induction false} OrderedRange(m: map<int, Slot>, lo: int, slots: seq<Slot>)
    requires forall i :: i in m <==> lo <= i < lo + |slots|
    requires forall i :: 0 <= i < |slots| ==> m[lo + i] == slots[i]
    ensures Ordered(m) == slots
    decreases |slots|
  {
    if slots == [] {
      if m.Keys != {} {
        var i := Member(m.Keys);
      }
    } else {
      assert lo + 0 in m && m[lo + 0] == slots[0];
      OrderedFrom(m, lo);
      OrderedRange(m - {lo}, lo + 1, slots[1..]);
      assert slots == [slots[0]] + slots[1..];
    }
  }

  lemma {:induction false} OrderedFrom(m: map<int, Slot>, lo: int)
    requires lo in m && forall i :: i in m ==> lo <= i
    ensures Ordered(m) == [m[lo]] + Ordered(m - {lo})
  {
    assert LeastKey(m) == lo;
  }

  lemma {:induction false} CallsRoundTrip(c: Content, drawn: nat -> string, numbered: bool)
    ensures var ds := MessageDelta(c, drawn, numbered).calls;
            Ordered(TakeCalls(map[], ds, |ds|)) == Named(Ordered(c.calls), drawn)
  {
    var ds := MessageDelta(c, drawn, numbered).calls;
    TakeNumbered(ds, |ds|);
    OrderedRange(TakeCalls(map[], ds, |ds|), 0, Named(Ordered(c.calls), drawn));
  }

  /** A reply as `take` builds it: its finish reason, if any, says something. */
  predicate Folded(c: Content) {
    c.finish != Some("")
  }

  lemma {:induction false} TakeKeepsFolded(c: Content, choices: seq<Choice>, n: nat)
    requires Folded(c) && n <= |choices|
    ensures Folded(TakeChoices(c, choices, n))
    decreases n
  {
    if n == 0 {
    } else {
      TakeKeepsFolded(c, choices, n - 1);
    }
  }

  lemma {:induction false} TakenIsFolded(c: Content, chunks: seq<Chunk>)
    requires Folded(c)
    ensures Folded(TakeAll(c, chunks))
    decreases |chunks|
  {
    if chunks == [] {
    } else {
      var start := if chunks[0].usage.Some? then c.(usage := chunks[0].usage) else c;
      TakeKeepsFolded(start, chunks[0].choices, |chunks[0].choices|);
      TakenIsFolded(Taken(c, chunks[0]), chunks[1..]);
    }
  }

  /** Taking the message delta in one choice gives back the reply's text and calls. */
  lemma {:induction false} TakeMessage(c: Content, drawn: nat -> string, numbered: bool, finish: Option<string>)
    requires finish != Some("")
    ensures var t := TakeChoice(EMPTY, Choice(MessageDelta(c, drawn, numbered), finish));
            && t.content == c.content && t.reasoning == c.reasoning
                && (c.reasoning != "" ==> t.reasoningName == c.reasoningName)
            && Ordered(t.calls) == Named(Ordered(c.calls), drawn) && t.finish == finish && t.usage == None
  {
    CallsRoundTrip(c, drawn, numbered);
  }

  /** The same text, reasoning, finish and usage, and the same calls in order, with an id for every one. */
  ghost predicate SameWithIds(c: Content, t: Content, drawn: nat -> string) {
    && t.content == c.content
    && t.reasoning == c.reasoning && (c.reasoning != "" ==> t.reasoningName == c.reasoningName)
    && t.finish == c.finish && t.usage == c.usage
    && Ordered(t.calls) == Named(Ordered(c.calls), drawn)
  }

  /**
   * Whatever chunks a reply was folded from, rebuilt as stream chunks and folded back it is
   * the same, with an id for every call.
   */
  lemma {:induction false} ChunksRoundTrip(chunks: seq<Chunk>, drawn: nat -> string)
    ensures var c := TakeAll(EMPTY, chunks);
            SameWithIds(c, TakeAll(EMPTY, Chunks(c, drawn)), drawn)
  {
    TakenIsFolded(EMPTY, chunks);
    RebuiltChunks(TakeAll(EMPTY, chunks), drawn);
  }

  lemma {:induction false} RebuiltChunks(c: Content, drawn: nat -> string)
    requires Folded(c)
    ensures SameWithIds(c, TakeAll(EMPTY, Chunks(c, drawn)), drawn)
  {
    var first, last := Choice(MessageDelta(c, drawn, true), None), Choice(NOTHING, c.finish);
    var t1 := TakeChoice(EMPTY, first);
    TakeMessage(c, drawn, true, None);
    TakeOneChoice(EMPTY, first);
    TakeOneChoice(t1, last);
    TakeThree(EMPTY, Chunk(None, [first]), Chunk(None, [last]), c.usage);
  }

  lemma {:induction false} TakeOneChoice(c: Content, choice: Choice)
    ensures Taken(c, Chunk(None, [choice])) == TakeChoice(c, choice)
  {
    assert TakeChoices(c, [choice], 0) == c;
  }

  lemma {:induction false} TakeThree(c: Content, a: Chunk, b: Chunk, usage: Option<Usage>)
    ensures var t := Taken(Taken(c, a), b);
            TakeAll(c, [a, b] + if usage.Some? then [Chunk(usage, [])] else [])
                == if usage.Some? then t.(usage := usage) else t
  {
    var tail := if usage.Some? then [Chunk(usage, [])] else [];
    var t := Taken(Taken(c, a), b);
    assert ([a, b] + tail)[1..] == [b] + tail;
    assert ([b] + tail)[1..] == tail;
    assert TakeAll(c, [a, b] + tail) == TakeAll(Taken(c, a), [b] + tail) == TakeAll(t, tail);
    if usage.Some? {
      assert tail[1..] == [];
      assert TakeAll(t, tail) == Taken(t, Chunk(usage, []));
    }
  }

  /** The same through the chat.completion, whose calls carry no numbers. */
  lemma {:induction false} MessageRoundTrip(chunks: seq<Chunk>, drawn: nat -> string)
    ensures var c := TakeAll(EMPTY, chunks);
            SameWithIds(c, Taken(EMPTY, Message(c, drawn)), drawn)
  {
    TakenIsFolded(EMPTY, chunks);
    RebuiltMessage(TakeAll(EMPTY, chunks), drawn);
  }

  lemma {:induction false} RebuiltMessage(c: Content, drawn: nat -> string)
    requires Folded(c)
    ensures SameWithIds(c, Taken(EMPTY, Message(c, drawn)), drawn)
  {
    TakeMessage(c, drawn, false, c.finish);
    var start := if c.usage.Some? then EMPTY.(usage := c.usage) else EMPTY;
    var m := Message(c, drawn);
    assert TakeChoices(start, m.choices, 0) == start;
    assert Taken(EMPTY, m) == TakeChoice(start, m.choices[0]);
  }

  /** With ids on every call the client cannot tell the rebuilt reply from the first. */
  lemma {:induction false} ChunksFaithful(chunks: seq<Chunk>, drawn: nat -> string)
    requires var calls := TakeAll(EMPTY, chunks).calls;
             forall k :: k in calls ==> calls[k].id != ""
    ensures var c := TakeAll(EMPTY, chunks);
            SameToClient(c, TakeAll(EMPTY, Chunks(c, drawn))) && SameToClient(c, Taken(EMPTY, Message(c, drawn)))
  {
    var c := TakeAll(EMPTY, chunks);
    ChunksRoundTrip(chunks, drawn);
    MessageRoundTrip(chunks, drawn);
    OrderedIds(c.calls);
    assert Named(Ordered(c.calls), drawn) == Ordered(c.calls);
  }

  lemma {:induction false} OrderedIds(m: map<int, Slot>)
    requires forall k :: k in m ==> m[k].id != ""
    ensures forall i :: 0 <= i < |Ordered(m)| ==> Ordered(m)[i].id != ""
    decreases |m.Keys|
  {
    if m == map[] {
    } else {
      var k := LeastKey(m);
      assert (m - {k}).Keys == m.Keys - {k};
      OrderedIds(m - {k});
    }
  }

  // ----- what a stream folds to -----

  /** All choices of a stream, one after the other. */
  function Flat(chunks: seq<Chunk>): seq<Choice>
    decreases |chunks|
  {
    if chunks == [] then [] else chunks[0].choices + Flat(chunks[1..])
  }

  function Contents(choices: seq<Choice>): string
    decreases |choices|
  {
    if choices == [] then "" else choices[0].delta.content + Contents(choices[1..])
  }

  /** Both fields a model may reason in, in the order they are looked at. */
  function Reasonings(choices: seq<Choice>): string
    decreases |choices|
  {
    if choices == [] then ""
    else choices[0].delta.reasoningContent + choices[0].delta.reasoning + Reasonings(choices[1..])
  }

  /** The last finish reason that says something, or else `before`. */
  function LastFinish(choices: seq<Choice>, before: Option<string>): Option<string>
    decreases |choices|
  {
    if choices == [] then before
    else
      var f := choices[0].finish;
      LastFinish(choices[1..], if f == None || f == Some("") then before else f)
  }

  /** The field a model reasoned in last, or else `before`. */
  function LastName(choices: seq<Choice>, before: ReasoningName): ReasoningName
    decreases |choices|
  {
    if choices == [] then before
    else
      var d := choices[0].delta;
      LastName(
        choices[1..],
        if d.reasoning == "" && d.reasoningContent == "" then before
        else if d.reasoning == "" then ReasoningContent else Reasoning)
  }

  function LastUsage(chunks: seq<Chunk>, before: Option<Usage>): Option<Usage>
    decreases |chunks|
  {
    if chunks == [] then before
    else LastUsage(chunks[1..], if chunks[0].usage.Some? then chunks[0].usage else before)
  }

  /** The parts of the call number `at`, in order; a part without a number has its place in its delta. */
  function Parts(ds: seq<CallDelta>, n: nat, at: int): seq<CallDelta>
    requires n <= |ds|
    decreases n
  {
    if n == 0 then []
    else Parts(ds, n - 1, at) + PartOf(ds[n - 1], n - 1, at)
  }

  function PartOf(d: CallDelta, n: int, at: int): seq<CallDelta> {
    if IsPart(d, n, at) then [d] else []
  }

  predicate IsPart(d: CallDelta, n: int, at: int) {
    d.index == Some(at) || (d.index == None && n == at)
  }

  function PartsOfAll(choices: seq<Choice>, at: int): seq<CallDelta>
    decreases |choices|
  {
    if choices == [] then []
    else
      var ds := choices[0].delta.calls;
      Parts(ds, |ds|, at) + PartsOfAll(choices[1..], at)
  }

  /** A call with some more of its parts: the last id given, and names and arguments joined. */
  function Grown(slot: Slot, parts: seq<CallDelta>): Slot
    decreases |parts|
  {
    if parts == [] then slot
    else
      var d := parts[0];
      Grown(
        Slot(if d.id == "" then slot.id else d.id, slot.name + d.name, slot.arguments + d.arguments), parts[1..])
  }

  function SlotAt(calls: map<int, Slot>, at: int): Slot {
    if at in calls then calls[at] else Slot("", "", "")
  }

  lemma {:induction false} GrownMore(slot: Slot, a: seq<CallDelta>, b: seq<CallDelta>)
    ensures Grown(slot, a + b) == Grown(Grown(slot, a), b)
    decreases |a|
  {
    if a == [] {
      assert a + b == b;
    } else {
      assert (a + b)[1..] == a[1..] + b;
      var d := a[0];
      GrownMore(
        Slot(if d.id == "" then slot.id else d.id, slot.name + d.name, slot.arguments + d.arguments), a[1..], b);
    }
  }

  lemma {:induction false} GrownByOne(slot: Slot, d: CallDelta)
    ensures Grown(slot, [d])
         == Slot(if d.id == "" then slot.id else d.id, slot.name + d.name, slot.arguments + d.arguments)
  {
    assert [d][1..] == [];
  }

  /** A call comes to hold some parts more, and is there if it has any. */
  predicate Holds(before: map<int, Slot>, after: map<int, Slot>, parts: seq<CallDelta>, at: int) {
    && (at in after <==> at in before || parts != [])
    && SlotAt(after, at) == Grown(SlotAt(before, at), parts)
  }

  /** The calls of a delta add their parts. */
  lemma {:induction false} CallsGrow(calls: map<int, Slot>, ds: seq<CallDelta>, n: nat, at: int)
    requires n <= |ds|
    ensures Holds(calls, TakeCalls(calls, ds, n), Parts(ds, n, at), at)
    decreases n
  {
    if n == 0 {
    } else {
      var before, d := TakeCalls(calls, ds, n - 1), ds[n - 1];
      CallsGrow(calls, ds, n - 1, at);
      CallGrows(before, d, n - 1, at);
      HoldsMore(calls, before, TakeCall(before, n - 1, d), Parts(ds, n - 1, at), PartOf(d, n - 1, at), at);
    }
  }

  lemma {:induction false} CallGrows(calls: map<int, Slot>, d: CallDelta, n: int, at: int)
    ensures Holds(calls, TakeCall(calls, n, d), PartOf(d, n, at), at)
  {
    GrownByOne(SlotAt(calls, at), d);
  }

  lemma {:induction false} HoldsMore(
    a: map<int, Slot>, b: map<int, Slot>, c: map<int, Slot>, parts: seq<CallDelta>, more: seq<CallDelta>, at: int)
    requires Holds(a, b, parts, at) && Holds(b, c, more, at)
    ensures Holds(a, c, parts + more, at)
  {
    GrownMore(SlotAt(a, at), parts, more);
  }

  /** What choices add to a reply, taken one after the other. */
  predicate Adds(c: Content, choices: seq<Choice>, t: Content) {
    && t.content == c.content + Contents(choices)
    && t.reasoning == c.reasoning + Reasonings(choices)
    && t.finish == LastFinish(choices, c.finish) && t.reasoningName == LastName(choices, c.reasoningName)
  }

  function TakeSeq(c: Content, choices: seq<Choice>): Content
    decreases |choices|
  {
    if choices == [] then c else TakeSeq(TakeChoice(c, choices[0]), choices[1..])
  }

  lemma {:induction false} TakeSeqMore(c: Content, a: seq<Choice>, b: seq<Choice>)
    ensures TakeSeq(c, a + b) == TakeSeq(TakeSeq(c, a), b)
    decreases |a|
  {
    if a == [] {
      assert a + b == b;
    } else {
      assert (a + b)[1..] == a[1..] + b;
      TakeSeqMore(TakeChoice(c, a[0]), a[1..], b);
    }
  }

  lemma {:induction false} TakeSeqIs(c: Content, choices: seq<Choice>, n: nat)
    requires n <= |choices|
    ensures TakeChoices(c, choices, n) == TakeSeq(c, choices[..n])
    decreases n
  {
    if n == 0 {
    } else {
      TakeSeqIs(c, choices, n - 1);
      assert choices[..n] == choices[..n - 1] + [choices[n - 1]];
      TakeSeqMore(c, choices[..n - 1], [choices[n - 1]]);
      var before := TakeSeq(c, choices[..n - 1]);
      assert [choices[n - 1]][1..] == [];
      assert TakeSeq(before, [choices[n - 1]]) == TakeChoice(before, choices[n - 1]);
    }
  }

  lemma {:induction false} SeqAdds(c: Content, choices: seq<Choice>)
    ensures Adds(c, choices, TakeSeq(c, choices)) && TakeSeq(c, choices).usage == c.usage
    decreases |choices|
  {
    if choices == [] {
      assert c.content + "" == c.content && c.reasoning + "" == c.reasoning;
    } else {
      var d := choices[0].delta;
      SeqAdds(TakeChoice(c, choices[0]), choices[1..]);
      JoinedLeft(c.content, d.content, Contents(choices[1..]));
      JoinedLeft(c.reasoning + d.reasoningContent, d.reasoning, Reasonings(choices[1..]));
      JoinedLeft(c.reasoning, d.reasoningContent, d.reasoning + Reasonings(choices[1..]));
      JoinedLeft(d.reasoningContent, d.reasoning, Reasonings(choices[1..]));
    }
  }

  lemma {:induction false} JoinedLeft(a: string, b: string, c: string)
    ensures (a + b) + c == a + (b + c)
  {
  }

  lemma {:induction false} SeqGrows(c: Content, choices: seq<Choice>, at: int)
    ensures var t, parts := TakeSeq(c, choices), PartsOfAll(choices, at);
            && (at in t.calls <==> at in c.calls || parts != [])
            && SlotAt(t.calls, at) == Grown(SlotAt(c.calls, at), parts)
    decreases |choices|
  {
    if choices == [] {
    } else {
      var ds := choices[0].delta.calls;
      var u := TakeChoice(c, choices[0]);
      CallsGrow(c.calls, ds, |ds|, at);
      SeqGrows(u, choices[1..], at);
      GrownMore(SlotAt(c.calls, at), Parts(ds, |ds|, at), PartsOfAll(choices[1..], at));
    }
  }

  lemma {:induction false} ChunkTakes(c: Content, chunk: Chunk)
    ensures Taken(c, chunk) == TakeSeq(if chunk.usage.Some? then c.(usage := chunk.usage) else c, chunk.choices)
  {
    var start := if chunk.usage.Some? then c.(usage := chunk.usage) else c;
    TakeSeqIs(start, chunk.choices, |chunk.choices|);
    assert chunk.choices[..|chunk.choices|] == chunk.choices;
  }

  /** The usage of a reply does not bear on the rest. */
  lemma {:induction false} UsageApart(c: Content, usage: Option<Usage>, choices: seq<Choice>)
    ensures TakeSeq(c.(usage := usage), choices) == TakeSeq(c, choices).(usage := usage)
    decreases |choices|
  {
    if choices == [] {
    } else {
      assert TakeChoice(c.(usage := usage), choices[0]) == TakeChoice(c, choices[0]).(usage := usage);
      UsageApart(TakeChoice(c, choices[0]), usage, choices[1..]);
    }
  }

  lemma {:induction false} AllIsFlat(c: Content, chunks: seq<Chunk>)
    ensures TakeAll(c, chunks) == TakeSeq(c, Flat(chunks)).(usage := LastUsage(chunks, c.usage))
    decreases |chunks|
  {
    if chunks == [] {
    } else {
      var chunk, rest := chunks[0], chunks[1..];
      var usage := if chunk.usage.Some? then chunk.usage else c.usage;
      var t := TakeSeq(c, chunk.choices);
      ChunkTakes(c, chunk);
      UsageApart(c, usage, chunk.choices);
      assert c.usage == usage ==> c.(usage := usage) == c;
      AllIsFlat(t.(usage := usage), rest);
      UsageApart(t, usage, Flat(rest));
      TakeSeqMore(c, chunk.choices, Flat(rest));
      SeqAdds(c, chunk.choices);
    }
  }

  /**
   * A stream folds to what its chunks say in their order: the text and the reasoning
   * joined, the last finish reason that says something, the last usage, and each call
   * with its last id and the parts of its name and arguments joined.
   */
  lemma {:induction false} FoldsInOrder(chunks: seq<Chunk>, at: int)
    ensures var t, choices := TakeAll(EMPTY, chunks), Flat(chunks);
            && t.content == Contents(choices) && t.reasoning == Reasonings(choices)
            && t.finish == LastFinish(choices, None) && t.usage == LastUsage(chunks, None)
            && t.reasoningName == LastName(choices, ReasoningContent)
            && (at in t.calls <==> PartsOfAll(choices, at) != [])
            && (at in t.calls ==> t.calls[at] == Grown(Slot("", "", ""), PartsOfAll(choices, at)))
  {
    AllIsFlat(EMPTY, chunks);
    SeqAdds(EMPTY, Flat(chunks));
    SeqGrows(EMPTY, Flat(chunks), at);
    assert "" + Contents(Flat(chunks)) == Contents(Flat(chunks));
    assert "" + Reasonings(Flat(chunks)) == Reasonings(Flat(chunks));
  }
}
