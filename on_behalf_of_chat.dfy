/**
 * The Streamlit chat page of the on-behalf-of sample
 * (agents-workshop/03-building-custom-tools/03.5.on-behalf-of/chat.py): how an
 * agent message is cut into markdown, code and LaTeX blocks for display, and
 * how `run_agent` records a user turn and follows an @mention.
 *
 * The splitter is a simplified take on fenced code blocks (section 4.5 of the
 * CommonMark specification): a fence is any line whose stripped form starts
 * with three backticks, fences are not matched by length, and a block still
 * open at the end of the message is dropped.
 */
module OnBehalfOfChat {
  import opened Wrappers
  import opened PyValues
  import opened PyStr

  /** One display call: `st.markdown`, `st.code` or `st.latex`. */
  datatype Block = Markdown(text: string) | Code(text: string, language: string) | Latex(text: string)

  /** `st.code` without a language argument highlights as Python. */
  const DefaultLanguage: string := "python"

  /** The loop's variables: the two modes, their buffers, the pending markdown lines and the blocks shown so far. */
  datatype Splitter = Splitter(
    inCode: bool, codeLines: seq<string>, language: string,
    inLatex: bool, latexLines: seq<string>,
    markdown: seq<string>, out: seq<Block>)

  const Init := Splitter(false, [], "", false, [], [], [])

  predicate IsFence(stripped: string) { StartsWith(stripped, "```") }

  predicate IsLatexToggle(stripped: string) {
    StartsWith(stripped, "$$") || StartsWith(stripped, "\\[") || EndsWith(stripped, "$$") || EndsWith(stripped, "\\]")
  }

  predicate IsInlineCode(stripped: string) { StartsWith(stripped, "`") && EndsWith(stripped, "`") }

  predicate IsInlineLatex(stripped: string) { StartsWith(stripped, "$") && EndsWith(stripped, "$") }

  /** `[x]` whose inside holds no "[" (`count("[") == 0`). */
  predicate IsBracketLatex(stripped: string) {
    StartsWith(stripped, "[") && EndsWith(stripped, "]") && '[' !in Inner(stripped)
  }

  /** A line the loop keeps as markdown when neither mode is on. */
  predicate IsPlain(line: string) {
    var ls := Strip(line);
    !IsFence(ls) && !IsLatexToggle(ls) && !IsInlineCode(ls) && !IsInlineLatex(ls) && !IsBracketLatex(ls)
  }

  /** The language of an opening fence: the rest of the line stripped, or "python". */
  function FenceLanguage(stripped: string): (r: string)
    requires IsFence(stripped)
    ensures r != ""
    ensures Strip(stripped[3..]) != "" ==> r == Strip(stripped[3..])
  {
    if Strip(stripped[3..]) != "" then Strip(stripped[3..]) else DefaultLanguage
  }

  /** `flush_markdown`: the pending lines, if any, become one markdown block and the list is emptied. */
  function Flush(s: Splitter): (r: Splitter)
    ensures r == s.(markdown := [], out := r.out)
    ensures r.out == s.out + (if s.markdown == [] then [] else [Markdown(Join(s.markdown, "\n"))])
  {
    if s.markdown == [] then s else s.(out := s.out + [Markdown(Join(s.markdown, "\n"))], markdown := [])
  }

  /** Flushes, then shows one block. */
  function Emit(s: Splitter, b: Block): Splitter {
    var f := Flush(s);
    f.(out := f.out + [b])
  }

  /** One pass of the loop body on `line`. */
  function Feed(s: Splitter, line: string): Splitter {
    var ls := Strip(line);
    if IsFence(ls) then
      if !s.inCode then Flush(s).(inCode := true, language := FenceLanguage(ls), codeLines := [])
      else s.(inCode := false, out := s.out + [Code(Join(s.codeLines, "\n"), s.language)])
    else if s.inCode then s.(codeLines := s.codeLines + [line])
    else if IsLatexToggle(ls) then
      if !s.inLatex then Flush(s).(inLatex := true, latexLines := [])
      else s.(inLatex := false, out := s.out + [Latex(Join(s.latexLines, "\n"))])
    else if s.inLatex then s.(latexLines := s.latexLines + [line])
    else if IsInlineCode(ls) then Emit(s, Code(Inner(ls), DefaultLanguage))
    else if IsInlineLatex(ls) then Emit(s, Latex(Inner(ls)))
    else if IsBracketLatex(ls) then Emit(s, Latex(Inner(ls)))
    else s.(markdown := s.markdown + [line])
  }

  /** The loop over `lines`, from state `s`. */
  function FeedAll(s: Splitter, lines: seq<string>): Splitter
    decreases |lines|
  {
    if lines == [] then s else Feed(FeedAll(s, lines[..|lines| - 1]), lines[|lines| - 1])
  }

  /** The blocks shown for a message: the loop, then the final flush. */
  function Blocks(msg: string): seq<Block> {
    Flush(FeedAll(Init, Split(msg, '\n'))).out
  }

  /** The display loop, on local variables as the page runs it. */
  method RenderMessage(msg: string) returns (blocks: seq<Block>)
    ensures blocks == Blocks(msg)
  {
    var lines := Split(msg, '\n');
    var inCode := false;
    var codeLines: seq<string> := [];
    var language := "";
    var inLatex := false;
    var latexLines: seq<string> := [];
    var markdown: seq<string> := [];
    blocks := [];
    var i := 0;
    while i < |lines|
      invariant 0 <= i <= |lines|
      invariant Splitter(inCode, codeLines, language, inLatex, latexLines, markdown, blocks) == FeedAll(Init, lines[..i])
    {
      assert lines[..i + 1][..i] == lines[..i];
      var line := lines[i];
      var ls := Strip(line);
      if IsFence(ls) {
        if !inCode {
          markdown, blocks := FlushMarkdown(markdown, blocks);
          inCode := true;
          language := FenceLanguage(ls);
          codeLines := [];
        } else {
          inCode := false;
          blocks := blocks + [Code(Join(codeLines, "\n"), language)];
        }
      } else if inCode {
        codeLines := codeLines + [line];
      } else if IsLatexToggle(ls) {
        if !inLatex {
          markdown, blocks := FlushMarkdown(markdown, blocks);
          inLatex := true;
          latexLines := [];
        } else {
          inLatex := false;
          blocks := blocks + [Latex(Join(latexLines, "\n"))];
        }
      } else if inLatex {
        latexLines := latexLines + [line];
      } else if IsInlineCode(ls) {
        markdown, blocks := FlushMarkdown(markdown, blocks);
        blocks := blocks + [Code(Inner(ls), DefaultLanguage)];
      } else if IsInlineLatex(ls) || IsBracketLatex(ls) {
        markdown, blocks := FlushMarkdown(markdown, blocks);
        blocks := blocks + [Latex(Inner(ls))];
      } else {
        markdown := markdown + [line];
      }
      i := i + 1;
    }
    assert lines[..|lines|] == lines;
    markdown, blocks := FlushMarkdown(markdown, blocks);
  }

  /** `flush_markdown` on the loop's variables. */
  method FlushMarkdown(markdown: seq<string>, blocks: seq<Block>) returns (markdown': seq<string>, blocks': seq<Block>)
    ensures markdown' == []
    ensures blocks' == blocks + (if markdown == [] then [] else [Markdown(Join(markdown, "\n"))])
  {
    if markdown != [] {
      blocks' := blocks + [Markdown(Join(markdown, "\n"))];
    } else {
      blocks' := blocks;
    }
    markdown' := [];
  }

  // ---------------------------------------------------------------------
  // What the splitter does, line by line and block by block
  // ---------------------------------------------------------------------

  /** Feeding lines one list after another is feeding their concatenation. */
  lemma {:induction false} FeedAllAppend(s: Splitter, a: seq<string>, b: seq<string>)
    ensures FeedAll(s, a + b) == FeedAll(FeedAll(s, a), b)
    decreases |b|
  {
    if b == [] {
      assert a + b == a;
    } else {
      assert (a + b)[..|a + b| - 1] == a + b[..|b| - 1];
      FeedAllAppend(s, a, b[..|b| - 1]);
    }
  }

  /**
   * Outside both modes, each single-line form flushes the pending markdown
   * and shows one block; any other line that does not toggle a mode is
   * kept as pending markdown.
   */
  lemma SingleLineRules(s: Splitter, line: string)
    requires !s.inCode && !s.inLatex
    requires !IsFence(Strip(line)) && !IsLatexToggle(Strip(line))
    ensures var ls := Strip(line);
            var r := Feed(s, line);
            && (IsInlineCode(ls) ==> r.out == Flush(s).out + [Code(Inner(ls), DefaultLanguage)] && r.markdown == [])
            && (!IsInlineCode(ls) && (IsInlineLatex(ls) || IsBracketLatex(ls)) ==> r.out == Flush(s).out + [Latex(Inner(ls))] && r.markdown == [])
            && (IsPlain(line) ==> r.out == s.out && r.markdown == s.markdown + [line])
  {
  }

  /** In code mode every line but a fence is kept exactly as written, `$$` lines included. */
  lemma CodeModeKeepsLines(s: Splitter, line: string)
    requires s.inCode && !IsFence(Strip(line))
    ensures Feed(s, line) == s.(codeLines := s.codeLines + [line])
  {
  }

  /** A line that does not close a code block. */
  predicate IsCodeLine(line: string) {
    !IsFence(Strip(line))
  }

  /** Lines of a code block that contain no fence are buffered and nothing is shown. */
  lemma {:induction false} CodeBody(s: Splitter, body: seq<string>)
    requires s.inCode
    requires forall k :: 0 <= k < |body| ==> IsCodeLine(body[k])
    ensures FeedAll(s, body) == s.(codeLines := s.codeLines + body)
    decreases |body|
  {
    if body != [] {
      var init := body[..|body| - 1];
      CodeBody(s, init);
      CodeModeKeepsLines(FeedAll(s, init), body[|body| - 1]);
      SnocLast(s.codeLines, body);
    }
  }

  /** The lines before the last, then the last, are all the lines. */
  lemma SnocLast(before: seq<string>, lines: seq<string>)
    requires lines != []
    ensures before + lines[..|lines| - 1] + [lines[|lines| - 1]] == before + lines
  {
    LastSplit(lines);
  }

  lemma AppendAssoc(a: seq<string>, b: seq<string>, c: seq<string>)
    ensures a + b + c == a + (b + c)
  {
  }

  lemma LastSplit(lines: seq<string>)
    requires lines != []
    ensures lines[..|lines| - 1] + [lines[|lines| - 1]] == lines
  {
  }

  /**
   * A fenced block outside both modes: the pending markdown is shown, then one
   * code block of the body's lines, unstripped and joined by newlines, in the
   * language of the opening fence.
   */
  lemma {:induction false} FencedBlock(s: Splitter, open: string, body: seq<string>, close: string)
    requires !s.inCode
    requires IsFence(Strip(open)) && IsFence(Strip(close))
    requires forall k :: 0 <= k < |body| ==> !IsFence(Strip(body[k]))
    ensures var r := FeedAll(s, [open] + body + [close]);
            && r.out == Flush(s).out + [Code(Join(body, "\n"), FenceLanguage(Strip(open)))]
            && r.markdown == [] && !r.inCode && r.inLatex == s.inLatex
  {
    var afterOpen := Feed(s, open);
    assert FeedAll(s, [open]) == afterOpen by {
      assert [open][..0] == [];
    }
    FeedAllAppend(s, [open], body);
    CodeBody(afterOpen, body);
    assert afterOpen.codeLines + body == body;
    var inBody := FeedAll(s, [open] + body);
    assert ([open] + body + [close])[..|[open] + body + [close]| - 1] == [open] + body;
  }

  /**
   * A code block still open at the end of the message is never shown: the
   * blocks are those of the text before its opening fence.
   */
  lemma {:induction false} UnclosedCodeIsDropped(before: seq<string>, open: string, body: seq<string>)
    requires !FeedAll(Init, before).inCode
    requires IsFence(Strip(open))
    requires forall k :: 0 <= k < |body| ==> !IsFence(Strip(body[k]))
    ensures Flush(FeedAll(Init, before + [open] + body)).out == Flush(FeedAll(Init, before)).out
  {
    var s := FeedAll(Init, before);
    AppendAssoc(before, [open], body);
    FeedAllAppend(Init, before, [open] + body);
    OpenCode(s, open, body);
  }

  /** An opening fence and a body without fences show the pending markdown and nothing else. */
  lemma {:induction false} OpenCode(s: Splitter, open: string, body: seq<string>)
    requires !s.inCode && IsFence(Strip(open))
    requires forall k :: 0 <= k < |body| ==> !IsFence(Strip(body[k]))
    ensures var r := FeedAll(s, [open] + body);
            r.out == Flush(s).out && r.markdown == [] && r.inCode
  {
    var afterOpen := OpenFence(s, open);
    FeedAllAppend(s, [open], body);
    CodeBody(afterOpen, body);
  }

  /** An opening fence flushes the pending markdown and enters code mode. */
  lemma OpenFence(s: Splitter, open: string) returns (r: Splitter)
    requires !s.inCode && IsFence(Strip(open))
    ensures r == FeedAll(s, [open]) && r == Feed(s, open)
    ensures r.out == Flush(s).out && r.markdown == [] && r.inCode
  {
    assert [open][..0] == [];
    r := Feed(s, open);
  }

  /** A line that neither opens nor closes a code block or a LaTeX block. */
  predicate IsBodyLine(line: string) {
    !IsFence(Strip(line)) && !IsLatexToggle(Strip(line))
  }

  /** In LaTeX mode every line that toggles neither mode is kept exactly as written. */
  lemma LatexModeKeepsLines(s: Splitter, line: string)
    requires s.inLatex && !s.inCode && IsBodyLine(line)
    ensures Feed(s, line) == s.(latexLines := s.latexLines + [line])
  {
  }

  /** Lines of a LaTeX block that toggle neither mode are buffered and nothing is shown. */
  lemma {:induction false} LatexBody(s: Splitter, body: seq<string>)
    requires s.inLatex && !s.inCode
    requires forall k :: 0 <= k < |body| ==> IsBodyLine(body[k])
    ensures FeedAll(s, body) == s.(latexLines := s.latexLines + body)
    decreases |body|
  {
    if body != [] {
      var init := body[..|body| - 1];
      LatexBody(s, init);
      LatexModeKeepsLines(FeedAll(s, init), body[|body| - 1]);
      SnocLast(s.latexLines, body);
    }
  }

  /** A toggle line outside both modes flushes the pending markdown and enters LaTeX mode. */
  lemma OpenLatex(s: Splitter, open: string) returns (r: Splitter)
    requires !s.inCode && !s.inLatex && IsLatexToggle(Strip(open)) && !IsFence(Strip(open))
    ensures r == FeedAll(s, [open]) && r == Feed(s, open)
    ensures r.out == Flush(s).out && r.markdown == [] && r.inLatex && !r.inCode && r.latexLines == []
  {
    assert [open][..0] == [];
    r := Feed(s, open);
  }

  /** A toggle line and a body of plain lines show the pending markdown and nothing else. */
  lemma {:induction false} OpenLatexBody(s: Splitter, open: string, body: seq<string>)
    requires !s.inCode && !s.inLatex && IsLatexToggle(Strip(open)) && !IsFence(Strip(open))
    requires forall k :: 0 <= k < |body| ==> IsBodyLine(body[k])
    ensures var r := FeedAll(s, [open] + body);
            && r.out == Flush(s).out && r.markdown == [] && r.inLatex && !r.inCode && r.latexLines == body
  {
    var afterOpen := OpenLatex(s, open);
    FeedAllAppend(s, [open], body);
    LatexBody(afterOpen, body);
    assert afterOpen.latexLines + body == body;
  }

  /**
   * A LaTeX block outside both modes: the pending markdown is shown, then one
   * LaTeX block of the body's lines, unstripped and joined by newlines.
   */
  lemma {:induction false} LatexBlock(s: Splitter, open: string, body: seq<string>, close: string)
    requires !s.inCode && !s.inLatex
    requires IsLatexToggle(Strip(open)) && !IsFence(Strip(open))
    requires IsLatexToggle(Strip(close)) && !IsFence(Strip(close))
    requires forall k :: 0 <= k < |body| ==> IsBodyLine(body[k])
    ensures var r := FeedAll(s, [open] + body + [close]);
            && r.out == Flush(s).out + [Latex(Join(body, "\n"))]
            && r.markdown == [] && !r.inLatex && !r.inCode
  {
    OpenLatexBody(s, open, body);
    assert ([open] + body + [close])[..|[open] + body + [close]| - 1] == [open] + body;
  }

  /**
   * A LaTeX block still open at the end of the message is never shown: the
   * blocks are those of the text before its opening toggle.
   */
  lemma {:induction false} UnclosedLatexIsDropped(before: seq<string>, open: string, body: seq<string>)
    requires !FeedAll(Init, before).inCode && !FeedAll(Init, before).inLatex
    requires IsLatexToggle(Strip(open)) && !IsFence(Strip(open))
    requires forall k :: 0 <= k < |body| ==> IsBodyLine(body[k])
    ensures Flush(FeedAll(Init, before + [open] + body)).out == Flush(FeedAll(Init, before)).out
  {
    var s := FeedAll(Init, before);
    AppendAssoc(before, [open], body);
    FeedAllAppend(Init, before, [open] + body);
    OpenLatexBody(s, open, body);
  }

  /** Plain lines outside both modes only accumulate as pending markdown. */
  lemma {:induction false} PlainLines(lines: seq<string>)
    requires forall k :: 0 <= k < |lines| ==> IsPlain(lines[k])
    ensures FeedAll(Init, lines) == Init.(markdown := lines)
    decreases |lines|
  {
    if lines != [] {
      var init := lines[..|lines| - 1];
      PlainLines(init);
      SingleLineRules(Init.(markdown := init), lines[|lines| - 1]);
      LastSplit(lines);
    }
  }

  /** A message of plain lines is shown as one markdown block holding the whole message. */
  lemma PlainMessage(msg: string)
    requires forall k :: 0 <= k < |Split(msg, '\n')| ==> IsPlain(Split(msg, '\n')[k])
    ensures Blocks(msg) == [Markdown(msg)]
  {
    PlainLines(Split(msg, '\n'));
    JoinSplit(msg, '\n');
  }

  // ---------------------------------------------------------------------
  // run_agent: the user turn and the @mention switch
  // ---------------------------------------------------------------------

  /** `user_input.split("@")[1].split(" ")[0]`. */
  function MentionedName(input: string): (r: string)
    requires '@' in input
    // the text right after the first "@", up to the next "@" or space
    ensures var rest := input[IndexOf(input, '@') + 1..];
            && StartsWith(rest, r) && '@' !in r && ' ' !in r
            && (|r| == |rest| || rest[|r|] == '@' || rest[|r|] == ' ')
  {
    SplitAtFirst(input, '@');
    var rest := input[IndexOf(input, '@') + 1..];
    var afterAt := Split(input, '@')[1];
    assert afterAt == Split(rest, '@')[0];
    FirstPart(rest, '@');
    FirstPart(afterAt, ' ');
    var name := Split(afterAt, ' ')[0];
    assert rest[..|name|] == afterAt[..|name|];
    name
  }

  /** One entry of `st.session_state.history`: the speaker and the text. */
  datatype Entry = Entry(speaker: string, text: string)

  /** What `chat.agent_chat` hands back while it runs: a yielded reply, or the done callback of a streamed one. */
  datatype Reply =
    | Yielded(persona: string, msg: string, thread: string, agent: string)
    | StreamDone(agent: string, msg: string)

  /** The session state the page keeps between reruns. */
  class Session {
    var history: seq<Entry>
    var currentAgent: string
    var thread: string

    constructor(thread0: string)
      ensures history == [] && currentAgent == "Main" && thread == thread0
    {
      history := [];
      currentAgent := "Main";
      thread := thread0;
    }

    /**
     * The part of `run_agent` before the agent is called. With neither text
     * nor file nothing happens. Otherwise the user's turn is recorded, and an
     * @mention replaces the agent name passed on; the current agent switches,
     * and the switch is recorded, only when that name is a known agent.
     */
    method BeginTurn(input: Option<string>, hasFile: bool, agentName: string, agents: set<string>)
      returns (proceeds: bool, name: string)
      modifies this
      ensures proceeds <==> TruthyStr(input) || hasFile
      ensures thread == old(thread)
      ensures !proceeds ==> history == old(history) && currentAgent == old(currentAgent) && name == agentName
      ensures proceeds ==> |history| >= |old(history)| + 1 && history[..|old(history)|] == old(history)
      ensures proceeds ==> history[|old(history)|] == Entry("User", if TruthyStr(input) then input.value else "File uploaded")
      ensures proceeds && TruthyStr(input) && '@' in input.value ==> name == MentionedName(input.value)
      ensures proceeds && !(TruthyStr(input) && '@' in input.value) ==> name == agentName && history == old(history) + [history[|old(history)|]]
      ensures currentAgent != old(currentAgent) ==> currentAgent == name && name in agents
      ensures proceeds && TruthyStr(input) && '@' in input.value ==>
                if name in agents then currentAgent == name && history == old(history) + [history[|old(history)|], Entry("User", "Switching to agent: " + name)]
                else currentAgent == old(currentAgent) && |history| == |old(history)| + 1
    {
      name := agentName;
      proceeds := TruthyStr(input) || hasFile;
      if !proceeds {
        return;
      }
      history := history + [Entry("User", if TruthyStr(input) then input.value else "File uploaded")];
      if TruthyStr(input) && '@' in input.value {
        name := MentionedName(input.value);
        if name in agents {
          currentAgent := name;
          history := history + [Entry("User", "Switching to agent: " + name)];
        }
      }
    }

    /**
     * The loop over what `agent_chat` hands back: each yielded reply is
     * recorded and moves the thread and the current agent on; each done
     * callback records the streamed message.
     */
    method FollowReplies(replies: seq<Reply>)
      modifies this
      ensures history == old(history) + RecordedEntries(replies)
      ensures thread == LastThread(old(thread), replies) && currentAgent == LastAgent(old(currentAgent), replies)
    {
      var i := 0;
      while i < |replies|
        invariant 0 <= i <= |replies|
        invariant history == old(history) + RecordedEntries(replies[..i])
        invariant thread == LastThread(old(thread), replies[..i])
        invariant currentAgent == LastAgent(old(currentAgent), replies[..i])
      {
        assert replies[..i + 1][..i] == replies[..i];
        match replies[i] {
          case Yielded(persona, msg, newThread, newAgent) =>
            thread := newThread;
            currentAgent := newAgent;
            history := history + [Entry(persona, msg)];
          case StreamDone(agent, msg) =>
            history := history + [Entry(agent, msg)];
        }
        i := i + 1;
      }
      assert replies[..|replies|] == replies;
    }
  }

  /** The history entries the replies add, one each, in order. */
  function RecordedEntries(replies: seq<Reply>): (r: seq<Entry>)
    ensures |r| == |replies|
    decreases |replies|
  {
    if replies == [] then []
    else
      var last := replies[|replies| - 1];
      RecordedEntries(replies[..|replies| - 1])
      + [match last case Yielded(persona, msg, _, _) => Entry(persona, msg) case StreamDone(agent, msg) => Entry(agent, msg)]
  }

  /** The thread of the last yielded reply, or `thread0`. */
  function LastThread(thread0: string, replies: seq<Reply>): string
    decreases |replies|
  {
    if replies == [] then thread0
    else if replies[|replies| - 1].Yielded? then replies[|replies| - 1].thread
    else LastThread(thread0, replies[..|replies| - 1])
  }

  /** The agent of the last yielded reply, or `agent0`. */
  function LastAgent(agent0: string, replies: seq<Reply>): string
    decreases |replies|
  {
    if replies == [] then agent0
    else if replies[|replies| - 1].Yielded? then replies[|replies| - 1].agent
    else LastAgent(agent0, replies[..|replies| - 1])
  }
}
