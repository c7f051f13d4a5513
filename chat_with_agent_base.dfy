/**
 * The streaming helper of the demo app's chat base class
 * (demo_app/chat_with_agent_base.py): it concatenates the chunks an agent
 * streams behind a header, and notifies the optional start, chunk and done
 * callbacks in a fixed order. The agent's stream is a parameter; the callbacks'
 * calls are recorded as a trace.
 */
module ChatWithAgentBase {
  import opened Wrappers
  import opened PyValues
  import opened PyStr

  const Robot: string := "\U{1F916}"
  const DefaultAudience: string := "\U{1F9D1}"

  /** `format_agent_message`: the agent's name in bold, a colon, then the message. */
  function FormatAgentMessage(agent: string, message: string): (r: string)
    ensures |r| == |agent| + |message| + 6
    ensures r[..2] == "**" && r[2..|agent| + 2] == agent && r[|agent| + 2..|agent| + 6] == "**: "
    ensures r[|agent| + 6..] == message
  {
    "**" + agent + "**: " + message
  }

  /** The text shown when streaming starts. */
  function StartMessage(agentName: string, audience: string): string {
    FormatAgentMessage(Robot + agentName + " to " + audience, "Thinking...")
  }

  /** The header every response starts with. */
  function Header(agentName: string, audience: string): string {
    FormatAgentMessage(Robot + agentName + " to " + audience + "\n", "")
  }

  /** One call of a callback. */
  datatype Notification = Started(message: string) | Chunk(partial: string) | Done(agent: string, response: string)

  /**
   * The text the chunks contribute, in order. A chunk is None when the
   * streamed item has no content, and it then contributes nothing.
   */
  function Concat(chunks: seq<Option<string>>): string
    decreases |chunks|
  {
    if chunks == [] then ""
    else Concat(chunks[..|chunks| - 1]) + (if chunks[|chunks| - 1].Some? then chunks[|chunks| - 1].value else "")
  }

  /** The chunk notifications: one per chunk with content, carrying the text accumulated so far. */
  function ChunkTrace(header: string, chunks: seq<Option<string>>): (r: seq<Notification>)
    ensures forall k :: 0 <= k < |r| ==> r[k].Chunk?
    decreases |chunks|
  {
    if chunks == [] then []
    else
      var before := chunks[..|chunks| - 1];
      ChunkTrace(header, before)
      + (if chunks[|chunks| - 1].Some? then [Chunk(header + Concat(chunks))] else [])
  }

  /** What the callbacks see, in order, when the agent exists. */
  function Trace(agentName: string, audience: string, hasStart: bool, hasDone: bool, chunks: seq<Option<string>>): seq<Notification> {
    var header := Header(agentName, audience);
    (if hasStart then [Started(StartMessage(agentName, audience))] + ChunkTrace(header, chunks) else [])
    + (if hasDone then [Done(agentName, header + Concat(chunks))] else [])
  }

  /**
   * `_get_agent_response_with_streaming`. `agents` are the names the chat
   * knows; `hasStart` and `hasDone` say whether the callbacks are set.
   */
  method GetAgentResponseWithStreaming(agentName: string, audience: string, agents: set<string>,
                                       hasStart: bool, hasDone: bool, chunks: seq<Option<string>>)
    returns (response: Result<string, PyError>, trace: seq<Notification>)
    ensures agentName !in agents ==> response == Err(KeyError(agentName)) && trace == []
    ensures agentName in agents ==>
              && response == Ok(Header(agentName, audience) + Concat(chunks))
              && trace == Trace(agentName, audience, hasStart, hasDone, chunks)
  {
    if agentName !in agents {
      return Err(KeyError(agentName)), [];
    }
    trace := [];
    if hasStart {
      trace := trace + [Started(StartMessage(agentName, audience))];
    }
    var header := Header(agentName, audience);
    var partial, notes := StreamChunks(header, chunks, hasStart);
    trace := trace + notes;
    if hasDone {
      trace := trace + [Done(agentName, partial)];
    }
    response := Ok(partial);
  }

  /**
   * The `async for` loop: the text accumulated behind `header`, and the chunk
   * notifications, which reach a callback only when `notify` (the start
   * callback returned one).
   */
  method StreamChunks(header: string, chunks: seq<Option<string>>, notify: bool)
    returns (partial: string, notes: seq<Notification>)
    ensures partial == header + Concat(chunks)
    ensures notes == if notify then ChunkTrace(header, chunks) else []
  {
    partial := header;
    notes := [];
    var i := 0;
    while i < |chunks|
      invariant 0 <= i <= |chunks|
      invariant partial == header + Concat(chunks[..i])
      invariant notes == if notify then ChunkTrace(header, chunks[..i]) else []
    {
      ChunkStep(header, chunks, i);
      if chunks[i].Some? {
        partial := partial + chunks[i].value;
        if notify {
          notes := notes + [Chunk(partial)];
        }
      }
      i := i + 1;
    }
    assert chunks[..|chunks|] == chunks;
  }

  /** One more chunk: what it adds to the text and to the chunk notifications. */
  lemma ChunkStep(header: string, chunks: seq<Option<string>>, i: nat)
    requires i < |chunks|
    ensures chunks[i].Some? ==> Concat(chunks[..i + 1]) == Concat(chunks[..i]) + chunks[i].value
    ensures chunks[i].None? ==> Concat(chunks[..i + 1]) == Concat(chunks[..i])
    ensures chunks[i].Some? ==>
              ChunkTrace(header, chunks[..i + 1]) == ChunkTrace(header, chunks[..i]) + [Chunk(header + Concat(chunks[..i + 1]))]
    ensures chunks[i].None? ==> ChunkTrace(header, chunks[..i + 1]) == ChunkTrace(header, chunks[..i])
  {
    assert chunks[..i + 1][..i] == chunks[..i];
  }

  /** Every notification of `t` extends `header` and the one before it, and is extended by `final`. */
  predicate Growing(header: string, final: string, t: seq<Notification>)
    requires forall k :: 0 <= k < |t| ==> t[k].Chunk?
  {
    && (forall k :: 0 <= k < |t| ==> StartsWith(t[k].partial, header))
    && (forall k :: 0 < k < |t| ==> StartsWith(t[k].partial, t[k - 1].partial))
    && (forall k :: 0 <= k < |t| ==> StartsWith(final, t[k].partial))
  }

  /** Each chunk notification carries the header, and each extends the one before it. */
  lemma {:induction false} ChunksGrow(header: string, chunks: seq<Option<string>>)
    ensures Growing(header, header + Concat(chunks), ChunkTrace(header, chunks))
    decreases |chunks|
  {
    if chunks != [] {
      var before := chunks[..|chunks| - 1];
      ChunksGrow(header, before);
      var t0 := ChunkTrace(header, before);
      var t := ChunkTrace(header, chunks);
      var final0 := header + Concat(before);
      var final := header + Concat(chunks);
      assert Growing(header, final0, t0);
      ConcatGrows(chunks);
      PrefixAppend(header, Concat(before), Concat(chunks));
      assert StartsWith(final, final0);
      assert StartsWith(final0, header);
      assert t[..|t0|] == t0;
      forall k | 0 <= k < |t0|
        ensures StartsWith(final, t[k].partial)
      {
        assert StartsWith(final0, t0[k].partial);
        PrefixTransitive(t0[k].partial, final0, final);
      }
      if |t| > |t0| {
        assert t[|t0|] == Chunk(final);
        PrefixTransitive(header, final0, final);
        if |t0| > 0 {
          PrefixTransitive(t0[|t0| - 1].partial, final0, final);
        }
      }
    }
  }

  lemma PrefixAppend(header: string, a: string, b: string)
    requires StartsWith(b, a)
    ensures StartsWith(header + b, header + a) && StartsWith(header + a, header)
  {
    assert (header + b)[..|header + a|] == header + b[..|a|];
    assert (header + a)[..|header|] == header;
  }

  /** The last chunk notification carries exactly the final response. */
  lemma LastChunkIsResponse(header: string, chunks: seq<Option<string>>)
    requires chunks != [] && chunks[|chunks| - 1].Some?
    ensures var t := ChunkTrace(header, chunks);
            t != [] && t[|t| - 1] == Chunk(header + Concat(chunks))
  {
  }

  /** The accumulated text only grows as chunks arrive. */
  lemma ConcatGrows(chunks: seq<Option<string>>)
    requires chunks != []
    ensures StartsWith(Concat(chunks), Concat(chunks[..|chunks| - 1]))
  {
  }

  lemma PrefixTransitive(a: string, b: string, c: string)
    requires StartsWith(b, a) && StartsWith(c, b)
    ensures StartsWith(c, a)
  {
    assert c[..|a|] == c[..|b|][..|a|];
  }

  /** The start notification comes first and the done notification last, each exactly once when its callback is set. */
  lemma TraceOrder(agentName: string, audience: string, hasStart: bool, hasDone: bool, chunks: seq<Option<string>>)
    ensures var t := Trace(agentName, audience, hasStart, hasDone, chunks);
            && (forall k :: 0 <= k < |t| ==> (t[k].Started? <==> hasStart && k == 0))
            && (forall k :: 0 <= k < |t| ==> (t[k].Done? <==> hasDone && k == |t| - 1))
            && (hasStart ==> t[0] == Started(StartMessage(agentName, audience)))
            && (hasDone ==> t[|t| - 1] == Done(agentName, Header(agentName, audience) + Concat(chunks)))
            && (!hasStart ==> forall k :: 0 <= k < |t| ==> !t[k].Chunk?)
  {
    var t := Trace(agentName, audience, hasStart, hasDone, chunks);
    var ct := ChunkTrace(Header(agentName, audience), chunks);
    forall k | 0 <= k < |t|
      ensures (t[k].Started? <==> hasStart && k == 0) && (t[k].Done? <==> hasDone && k == |t| - 1)
    {
      if hasStart && 0 < k <= |ct| {
        assert t[k] == ct[k - 1];
      }
    }
  }
}
