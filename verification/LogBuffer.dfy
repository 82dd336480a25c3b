/** The buffer of `keep_logs`: the last bytes of a stream, trimmed now and then. */
module LogBuffer {
  const LOG_BYTES := 921600

  type Bytes = seq<int>

  /** The last `n` of `s`, as `s[-n:]`. */
  function Last(s: Bytes, n: nat): Bytes {
    if |s| <= n then s else s[|s| - n..]
  }

  function Stream(messages: seq<Bytes>): Bytes
    decreases |messages|
  {
    if messages == [] then [] else Stream(messages[..|messages| - 1]) + messages[|messages| - 1]
  }

  /** The buffer after one more message. */
  function Buffered(kept: Bytes, message: Bytes, n: nat): Bytes {
    if |kept + message| > 2 * n then Last(kept + message, n) else kept + message
  }

  function Buffer(messages: seq<Bytes>, n: nat): Bytes
    decreases |messages|
  {
    if messages == [] then [] else Buffered(Buffer(messages[..|messages| - 1], n), messages[|messages| - 1], n)
  }

  /** An end of the stream, all of it or at least the last `n` bytes. */
  predicate IsEnd(kept: Bytes, stream: Bytes, n: nat) {
    |kept| <= |stream| && kept == stream[|stream| - |kept|..] && (|kept| >= n || |kept| == |stream|)
  }

  lemma {:induction false} LastOfSuffix(stream: Bytes, kept: Bytes, message: Bytes, n: nat)
    requires IsEnd(kept, stream, n)
    ensures Last(kept + message, n) == Last(stream + message, n)
  {
    var a, b := kept + message, stream + message;
    assert a == b[|b| - |a|..];
  }

  /** The buffer is an end of the stream. */
  lemma {:induction false} BufferIsSuffix(messages: seq<Bytes>, n: nat)
    ensures IsEnd(Buffer(messages, n), Stream(messages), n)
    decreases |messages|
  {
    if messages == [] {
    } else {
      var before, last := messages[..|messages| - 1], messages[|messages| - 1];
      BufferIsSuffix(before, n);
      BufferedIsSuffix(Stream(before), Buffer(before, n), last, n);
      assert Buffer(messages, n) == Buffered(Buffer(before, n), last, n);
      assert Stream(messages) == Stream(before) + last;
    }
  }

  /** An end of a stream is still one after one more message. */
  lemma {:induction false} BufferedIsSuffix(stream: Bytes, kept: Bytes, message: Bytes, n: nat)
    requires IsEnd(kept, stream, n)
    ensures IsEnd(Buffered(kept, message, n), stream + message, n)
  {
    var a, b := kept + message, stream + message;
    assert a == b[|b| - |a|..];
    if |a| > 2 * n {
      assert a[|a| - n..] == b[|b| - n..];
    }
  }

  /** The buffer's last bytes are the stream's, however the stream came in messages. */
  lemma {:induction false} BufferKeepsLast(messages: seq<Bytes>, n: nat)
    ensures Last(Buffer(messages, n), n) == Last(Stream(messages), n)
  {
    BufferIsSuffix(messages, n);
    LastOfSuffix(Stream(messages), Buffer(messages, n), [], n);
    assert Buffer(messages, n) + [] == Buffer(messages, n) && Stream(messages) + [] == Stream(messages);
  }

  /** The last message that held anything made the buffer overflow. */
  predicate TrimmedAtEnd(messages: seq<Bytes>, n: nat)
    decreases |messages|
  {
    messages != [] &&
    var before, last := messages[..|messages| - 1], messages[|messages| - 1];
    |Buffer(before, n)| + |last| > 2 * n || (last == [] && TrimmedAtEnd(before, n))
  }

  /** The notice that the first lines are cut comes with every longer stream but one that a trim ended. */
  lemma {:induction false} NoticeIff(messages: seq<Bytes>, n: nat)
    requires n > 0
    ensures |Buffer(messages, n)| > n <==> |Stream(messages)| > n && !TrimmedAtEnd(messages, n)
    decreases |messages|
  {
    BufferIsSuffix(messages, n);
    if messages == [] {
    } else {
      var before := messages[..|messages| - 1];
      BufferIsSuffix(before, n);
      NoticeIff(before, n);
    }
  }

  function Longest(messages: seq<Bytes>): nat
    decreases |messages|
  {
    if messages == [] then 0
    else
      var before, last := Longest(messages[..|messages| - 1]), |messages[|messages| - 1]|;
      if last > before then last else before
  }

  /**
   * What is kept of a stream's messages, whether a notice says that it is not all, and the
   * most that was held on the way.
   */
  method KeepLogs(messages: seq<Bytes>) returns (logs: Bytes, cut: bool, most: nat)
    ensures logs == Last(Stream(messages), LOG_BYTES)
    ensures cut <==> |Stream(messages)| > LOG_BYTES && !TrimmedAtEnd(messages, LOG_BYTES)
    ensures most <= 2 * LOG_BYTES + Longest(messages)
  {
    var kept: Bytes := [];
    most := 0;
    for i := 0 to |messages|
      invariant kept == Buffer(messages[..i], LOG_BYTES)
      invariant |kept| <= 2 * LOG_BYTES && most <= 2 * LOG_BYTES + Longest(messages[..i])
    {
      assert messages[..i + 1][..i] == messages[..i];
      kept := kept + messages[i];
      most := if |kept| > most then |kept| else most;
      if |kept| > 2 * LOG_BYTES {
        kept := kept[|kept| - LOG_BYTES..];
      }
    }
    assert messages[..|messages|] == messages;
    BufferKeepsLast(messages, LOG_BYTES);
    NoticeIff(messages, LOG_BYTES);
    logs := if |kept| <= LOG_BYTES then kept else kept[|kept| - LOG_BYTES..];
    cut := |kept| > LOG_BYTES;
  }

  /** One message of a byte more than twice LOG_BYTES: over half of it is cut, and no notice says so. */
  lemma {:induction false} SilentCut(message: Bytes)
    requires |message| == 2 * LOG_BYTES + 1
    ensures |Stream([message])| > LOG_BYTES && TrimmedAtEnd([message], LOG_BYTES)
    ensures Buffer([message], LOG_BYTES) == message[LOG_BYTES + 1..]
  {
    var before: seq<Bytes> := [message][..0];
    assert before == [] && Buffer(before, LOG_BYTES) == [] && Stream(before) == [];
    assert [] + message == message;
  }
}
