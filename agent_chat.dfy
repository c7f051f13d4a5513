/**
 * The chat-transcript reconciler of the two `agent_chat.py` variants, as
 * specification functions. Tool-call items, streamed text, annotations and
 * file references are folded into a list of chat bubbles plus an
 * insertion-ordered map from call id to the bubble of an in-progress tool.
 *
 * Bubbles are never removed or reordered, so a bubble is identified by its
 * position in the conversation; the in-progress map stores positions.
 * The class in module Reconciler performs the same updates in place.
 */
module AgentChat {
  import opened Wrappers
  import opened PyValues
  import opened PyStr
  import BingQuery

  datatype Role = User | Assistant | OtherRole(name: string)

  /** Any value but a string: a string content is always `Text`, so it has one representation. */
  type NonString = j: Json | !j.JStr? witness JNone

  /**
   * A bubble's content: a string, any other value (a dict of tool
   * arguments, a file dict from the history), or an image component.
   */
  datatype Content = Text(text: string) | Value(value: NonString) | Image

  datatype Status = Pending | Done

  /** The `log` metadata entry: a marker string, or the JSON dump of bing's response metadata. */
  datatype Log = LogText(text: string) | LogJson(dump: Json)

  /** A bubble's metadata dict; `None` marks an absent key. */
  datatype Metadata = Metadata(title: Option<string>, status: Option<Status>, log: Option<Log>, id: Option<string>)

  const NoMetadata := Metadata(None, None, None, None)

  datatype Bubble = Bubble(role: Role, content: Content, metadata: Metadata)

  datatype ContentType = FunctionCallType | FunctionResultType | OtherContentType(name: string)

  /**
   * A function-call or function-result item of an intermediate step. A
   * function result has no `arguments` attribute; its item carries `JNone`
   * there, so a bing_grounding result raises AttributeError on reading the
   * arguments, as the source does.
   */
  datatype ToolItem = ToolItem(
    contentType: ContentType,
    functionName: Option<string>,
    name: Option<string>,
    callId: Option<string>,
    id: Option<string>,
    arguments: Json)

  /**
   * What distinguishes the two variants: the title table and its fallback
   * prefix, the citation markers, whether streamed text only joins a tail
   * with string content, whether file references are downloaded into an
   * image bubble, and whether intermediate steps are recorded.
   */
  datatype Variant = Variant(
    titles: map<string, string>,
    fallbackPrefix: string,
    openMarker: string,
    closeMarker: string,
    stringTailOnly: bool,
    downloadsFiles: bool,
    logsSteps: bool)

  const BingGrounding := "bing_grounding"
  const FileSearch := "file_search"

  /**
   * gradio_app: the titles and markers are the UTF-8 bytes of the emoji and
   * of the lenticular brackets read as cp1252 text; they are kept as those
   * code points.
   */
  const AuthVariant := Variant(
    map[
      "fetch_weather" := "\U{E2}\U{2DC}\U{EF}\U{B8} fetching weather",
      "fetch_datetime" := "\U{11F}\U{178}\U{2022}\U{2019} fetching datetime",
      "fetch_stock_price" := "\U{11F}\U{178}\U{201C}\U{2C6} fetching financial info",
      "send_email" := "\U{E2}\U{153}\U{2030}\U{EF}\U{B8} sending mail",
      FileSearch := "\U{11F}\U{178}\U{201C}\U{201E} searching docs",
      BingGrounding := "\U{11F}\U{178}\U{201D} searching bing"
    ],
    "\U{11F}\U{178}\U{203A}\U{A0} calling ",
    "\U{E3}\U{20AC}",
    "\U{E3}\U{20AC}\U{2018}",
    true, true, false)

  /** gradio-app: proper emoji titles and the lenticular brackets U+3010 and U+3011. */
  const BasicVariant := Variant(
    map[
      "fetch_weather" := "\U{2601}\U{FE0F} fetching weather",
      "fetch_datetime" := "\U{1F552} fetching datetime",
      "fetch_stock_price" := "\U{1F4C8} fetching financial info",
      "send_email" := "\U{2709}\U{FE0F} sending mail",
      FileSearch := "\U{1F4C4} searching docs",
      BingGrounding := "\U{1F50D} searching bing"
    ],
    "\U{1F6E0} calling ",
    "\U{3010}",
    "\U{3011}",
    false, false, true)

  /** `get_function_title`: the table entry, or the fallback prefix followed by the name. */
  function Title(v: Variant, name: string): (r: string)
    ensures name in v.titles ==> r == v.titles[name]
    ensures name !in v.titles ==> |r| == |v.fallbackPrefix| + |name|
                                  && r[..|v.fallbackPrefix|] == v.fallbackPrefix && r[|v.fallbackPrefix|..] == name
  {
    if name in v.titles then v.titles[name] else v.fallbackPrefix + name
  }

  // ---------------------------------------------------------------------
  // The in-progress map: an insertion-ordered dict from call id to position.
  // ---------------------------------------------------------------------

  datatype Entry = Entry(key: Option<string>, at: nat)

  /** The keys in insertion order. */
  function Keys(entries: seq<Entry>): (r: seq<Option<string>>)
    ensures |r| == |entries|
    ensures forall i | 0 <= i < |entries| :: r[i] == entries[i].key
  {
    if entries == [] then [] else [entries[0].key] + Keys(entries[1..])
  }

  predicate Distinct<T(==)>(xs: seq<T>) {
    forall i, j | 0 <= i < j < |xs| :: xs[i] != xs[j]
  }

  predicate UniqueKeys(entries: seq<Entry>) {
    Distinct(Keys(entries))
  }

  /** Every stored position is below `n`. */
  predicate Below(entries: seq<Entry>, n: nat) {
    forall e | e in entries :: e.at < n
  }

  lemma KeysCons(e: Entry, rest: seq<Entry>)
    ensures Keys([e] + rest) == [e.key] + Keys(rest)
  {
    assert ([e] + rest)[1..] == rest;
  }

  lemma DistinctCons<T>(x: T, xs: seq<T>)
    ensures Distinct([x] + xs) <==> x !in xs && Distinct(xs)
  {
    var ys := [x] + xs;
    assert forall k | 0 <= k < |xs| :: ys[k + 1] == xs[k];
    if Distinct(ys) {
      forall k | 0 <= k < |xs| ensures xs[k] != x {
        assert ys[0] != ys[k + 1];
      }
    }
  }

  /** `d.get(key)`. */
  function Lookup(entries: seq<Entry>, key: Option<string>): (r: Option<nat>)
    ensures r.None? <==> key !in Keys(entries)
    ensures r.Some? ==> Entry(key, r.value) in entries
  {
    if entries == [] then None
    else if entries[0].key == key then Some(entries[0].at)
    else
      var r := Lookup(entries[1..], key);
      KeysCons(entries[0], entries[1..]);
      assert entries == [entries[0]] + entries[1..];
      r
  }

  /** `d[key] = at`: an existing key keeps its place, a new key goes last. */
  function Assign(entries: seq<Entry>, key: Option<string>, at: nat): (r: seq<Entry>)
    ensures Keys(r) == if key in Keys(entries) then Keys(entries) else Keys(entries) + [key]
    ensures forall e | e in r :: e in entries || e == Entry(key, at)
  {
    if entries == [] then [Entry(key, at)]
    else
      assert entries == [entries[0]] + entries[1..];
      KeysCons(entries[0], entries[1..]);
      if entries[0].key == key then
        KeysCons(Entry(key, at), entries[1..]);
        [Entry(key, at)] + entries[1..]
      else
        var rest := Assign(entries[1..], key, at);
        KeysCons(entries[0], rest);
        [entries[0]] + rest
  }

  /** `d.pop(key, None)`: removes the first entry with that key, when there is one. */
  function Pop(entries: seq<Entry>, key: Option<string>): (r: seq<Entry>)
    ensures forall e | e in r :: e in entries
    ensures key !in Keys(entries) ==> r == entries
    ensures forall k | k != key :: k in Keys(r) <==> k in Keys(entries)
    ensures UniqueKeys(entries) ==> UniqueKeys(r) && key !in Keys(r)
  {
    if entries == [] then []
    else
      assert entries == [entries[0]] + entries[1..];
      KeysCons(entries[0], entries[1..]);
      DistinctCons(entries[0].key, Keys(entries[1..]));
      if entries[0].key == key then entries[1..]
      else
        var rest := Pop(entries[1..], key);
        KeysCons(entries[0], rest);
        DistinctCons(entries[0].key, Keys(rest));
        [entries[0]] + rest
  }

  /** Assigning keeps the keys unique and the positions in range. */
  lemma AssignWf(entries: seq<Entry>, key: Option<string>, at: nat, n: nat)
    requires UniqueKeys(entries) && Below(entries, n) && at < n
    ensures UniqueKeys(Assign(entries, key, at)) && Below(Assign(entries, key, at), n)
  {
    var ks := Keys(entries);
    if key !in ks {
      forall i, j | 0 <= i < j < |ks + [key]| ensures (ks + [key])[i] != (ks + [key])[j] {
        if j == |ks| { assert (ks + [key])[i] == ks[i]; }
      }
    }
  }

  // ---------------------------------------------------------------------
  // The reconciler's state.
  // ---------------------------------------------------------------------

  /**
   * The conversation, the in-progress map, and the bubble `last_msg` was
   * last bound to by an annotation item (None while it is unbound).
   */
  datatype Chat = Chat(conversation: seq<Bubble>, inProgress: seq<Entry>, lastMsg: Option<nat>)

  /** Keys are unique and every stored position names a bubble. */
  predicate Wf(c: Chat) {
    && UniqueKeys(c.inProgress)
    && Below(c.inProgress, |c.conversation|)
    && (c.lastMsg.Some? ==> c.lastMsg.value < |c.conversation|)
  }

  /** The state when a call starts: the converted history, an empty map, `last_msg` unbound. */
  function Start(history: seq<Bubble>): (r: Chat)
    ensures Wf(r) && r.conversation == history
    ensures r.inProgress == [] && r.lastMsg.None?
  {
    Chat(history, [], None)
  }

  /**
   * `after` keeps every bubble of `before` in its place with its role: bubbles
   * are appended or updated in place, never removed or reordered.
   */
  predicate Extends(before: seq<Bubble>, after: seq<Bubble>) {
    |before| <= |after| && forall i | 0 <= i < |before| :: after[i].role == before[i].role
  }

  /** The state after one update, and the exception it raised, if any. */
  datatype Step = Step(chat: Chat, raised: Option<PyError>)

  /** `f"tool-{call_id}" if call_id else "tool-noid"`. */
  function ToolId(key: Option<string>): string {
    if TruthyStr(key) then "tool-" + key.value else "tool-noid"
  }

  /** `tcall.arguments or ""`. */
  function ArgumentsContent(arguments: Json): Content {
    if !Truthy(arguments) then Text("")
    else if arguments.JStr? then Text(arguments.s)
    else Value(arguments)
  }

  predicate IsBingPending(conv: seq<Bubble>, e: Entry) {
    e.at < |conv| && conv[e.at].metadata.log == Some(LogText(BingGrounding))
  }

  /** The index of the first entry, in insertion order, whose bubble's log is "bing_grounding". */
  function FirstBingPending(conv: seq<Bubble>, entries: seq<Entry>): (r: Option<nat>)
    ensures r.Some? ==> r.value < |entries| && IsBingPending(conv, entries[r.value])
    ensures r.Some? ==> forall j | 0 <= j < r.value :: !IsBingPending(conv, entries[j])
    ensures r.None? ==> forall j | 0 <= j < |entries| :: !IsBingPending(conv, entries[j])
  {
    if entries == [] then None
    else if IsBingPending(conv, entries[0]) then Some(0)
    else
      var r := FirstBingPending(conv, entries[1..]);
      if r.None? then None else Some(r.value + 1)
  }

  /** Appends a tool bubble, registering it under `key` only when `key` is truthy. */
  function AppendTool(c: Chat, b: Bubble, key: Option<string>): (r: Step)
    requires Wf(c)
    ensures Wf(r.chat) && r.raised.None?
    ensures r.chat.conversation == c.conversation + [b] && r.chat.lastMsg == c.lastMsg
  {
    var at := |c.conversation|;
    if TruthyStr(key) then
      AssignWf(c.inProgress, key, at, at + 1);
      Step(c.(conversation := c.conversation + [b], inProgress := Assign(c.inProgress, key, at)), None)
    else
      Step(c.(conversation := c.conversation + [b]), None)
  }

  /** Marks a matched bing bubble done with the dumped metadata and pops its "tool-..." id. */
  function CompleteBing(c: Chat, at: nat, metadata: Json): (r: Step)
    requires at < |c.conversation|
    ensures r.raised.None? && r.chat.lastMsg == c.lastMsg
    ensures Wf(c) ==> Wf(r.chat)
    ensures |r.chat.conversation| == |c.conversation|
    ensures forall j | 0 <= j < |c.conversation| && j != at :: r.chat.conversation[j] == c.conversation[j]
    ensures var before := c.conversation[at]; var after := r.chat.conversation[at];
            && after.role == before.role && after.content == before.content
            && after.metadata.title == before.metadata.title && after.metadata.id == before.metadata.id
            && after.metadata.status == Some(Done) && after.metadata.log == Some(LogJson(metadata))
    ensures var id := c.conversation[at].metadata.id;
            r.chat.inProgress == Pop(c.inProgress, Some(if id.Some? then id.value else "tool-noid"))
  {
    var b := c.conversation[at];
    var popKey := Some(if b.metadata.id.Some? then b.metadata.id.value else "tool-noid");
    var done := b.(metadata := b.metadata.(log := Some(LogJson(metadata)), status := Some(Done)));
    Step(c.(conversation := c.conversation[at := done], inProgress := Pop(c.inProgress, popKey)), None)
  }

  /** `arguments.get("requesturl", "")` is a string or falsy; anything else makes the URL parser raise. */
  predicate UrlUsable(fields: map<string, Json>) {
    var url := GetField(fields, "requesturl", JStr(""));
    !Truthy(url) || url.JStr?
  }

  /** `request_url or ""` for a usable value. */
  function RequestUrl(fields: map<string, Json>): string {
    var url := GetField(fields, "requesturl", JStr(""));
    if url.JStr? then url.s else ""
  }

  /** bing's `response_metadata` argument, `{}` when absent. */
  function ResponseMetadata(fields: map<string, Json>): Json {
    GetField(fields, "response_metadata", JDict(map[]))
  }

  /** The bing_grounding branch of `upsert_tool_call`. */
  function UpsertBing(v: Variant, c: Chat, arguments: Json, key: Option<string>): (r: Step)
    requires Wf(c)
    ensures Wf(r.chat) && Extends(c.conversation, r.chat.conversation)
    ensures r.raised.Some? ==> r.chat == c
  {
    if !arguments.JDict? then Step(c, Some(AttributeError("get")))
    else
      var metadata := ResponseMetadata(arguments.fields);
      var pending := if TruthyStr(key) then None else FirstBingPending(c.conversation, c.inProgress);
      if pending.Some? && Truthy(metadata) then
        CompleteBing(c, c.inProgress[pending.value].at, metadata)
      else
        if !UrlUsable(arguments.fields) then Step(c, Some(AttributeError("decode")))
        else
          var query := BingQuery.ExtractBingQuery(RequestUrl(arguments.fields));
          if pending.Some? then
            var at := c.inProgress[pending.value].at;
            var b := c.conversation[at];
            Step(c.(conversation := c.conversation[at := b.(content := Text(query))]), None)
          else
            AppendTool(c, Bubble(Assistant, Text(query),
              Metadata(Some(Title(v, BingGrounding)), Some(Pending), Some(LogText(BingGrounding)), Some(ToolId(key)))), key)
  }

  /** The function_result branch: `in_progress_tools[call_id]` must exist. */
  function CompleteCall(c: Chat, key: Option<string>): (r: Step)
    requires Wf(c)
    ensures Wf(r.chat) && Extends(c.conversation, r.chat.conversation)
    ensures r.raised.Some? <==> key !in Keys(c.inProgress)
    ensures r.raised.Some? ==> r.chat == c
  {
    match Lookup(c.inProgress, key)
    case None => Step(c, Some(KeyError(StrOf(key))))
    case Some(at) =>
      var b := c.conversation[at];
      Step(c.(conversation := c.conversation[at := b.(metadata := b.metadata.(status := Some(Done)))],
              inProgress := Pop(c.inProgress, key)), None)
  }

  /** The bubble a function_call item opens. */
  function CallBubble(v: Variant, item: ToolItem, key: Option<string>): Bubble {
    Bubble(Assistant, ArgumentsContent(item.arguments),
      Metadata(Some(Title(v, StrOf(item.functionName))), Some(Pending), None, Some("tool-" + StrOf(key))))
  }

  /** `upsert_tool_call`: one function-call or function-result item; the map invariant is kept. */
  function Upsert(v: Variant, c: Chat, item: ToolItem): (r: Step)
    requires Wf(c)
    ensures Wf(r.chat)
    ensures Extends(c.conversation, r.chat.conversation)
    ensures r.raised.Some? ==> r.chat == c
  {
    var fname := OrElse(item.functionName, item.name);
    var key := OrElse(item.callId, item.id);
    if fname == Some(BingGrounding) then UpsertBing(v, c, item.arguments, key)
    else if fname == Some(FileSearch) then
      AppendTool(c, Bubble(Assistant, Text("searching docs..."),
        Metadata(Some(Title(v, FileSearch)), Some(Pending), None, Some(ToolId(key)))), key)
    else if item.contentType == FunctionResultType then CompleteCall(c, key)
    else if item.contentType != FunctionCallType then Step(c, None)
    else
      var at := |c.conversation|;
      AssignWf(c.inProgress, key, at, at + 1);
      Step(c.(conversation := c.conversation + [CallBubble(v, item, key)],
              inProgress := Assign(c.inProgress, key, at)), None)
  }

  // ---------------------------------------------------------------------
  // Streamed response items.
  // ---------------------------------------------------------------------

  /** An assistant bubble whose metadata id is `msgId`. */
  predicate Carries(b: Bubble, msgId: string) {
    b.metadata.id == Some(msgId) && b.role == Assistant
  }

  /** The last bubble among the first `n` that carries `msgId`. */
  function FindByIdBelow(conv: seq<Bubble>, msgId: string, n: nat): (r: Option<nat>)
    requires n <= |conv|
    ensures r.Some? ==> r.value < n && Carries(conv[r.value], msgId)
    ensures r.Some? ==> forall j | r.value < j < n :: !Carries(conv[j], msgId)
    ensures r.None? ==> forall j | 0 <= j < n :: !Carries(conv[j], msgId)
  {
    if n == 0 then None
    else if Carries(conv[n - 1], msgId) then Some(n - 1)
    else FindByIdBelow(conv, msgId, n - 1)
  }

  /** The search over `reversed(conversation)` for a bubble carrying `msgId`. */
  function FindById(conv: seq<Bubble>, msgId: string): Option<nat> {
    FindByIdBelow(conv, msgId, |conv|)
  }

  /** The metadata id as `str(metadata.get("id", ""))` prints it. */
  function IdText(m: Metadata): string {
    if m.id.Some? then m.id.value else ""
  }

  /** Whether an unmatched text delta joins the last bubble instead of opening a new one. */
  predicate TailTakesText(v: Variant, conv: seq<Bubble>) {
    && conv != []
    && conv[|conv| - 1].role == Assistant
    && !StartsWith(IdText(conv[|conv| - 1].metadata), "tool-")
    && (v.stringTailOnly ==> conv[|conv| - 1].content.Text?)
  }

  /** One-character strings, as `list += str` adds them. */
  function Chars(t: string): seq<Json> {
    seq(|t|, i requires 0 <= i < |t| => JStr([t[i]]))
  }

  /** `bubble.content += t`: strings concatenate, lists take the characters, anything else raises. */
  function AppendText(c: Chat, at: nat, t: string): (r: Step)
    requires at < |c.conversation|
    ensures r.chat.inProgress == c.inProgress && r.chat.lastMsg == c.lastMsg
    ensures |r.chat.conversation| == |c.conversation| && Extends(c.conversation, r.chat.conversation)
    ensures forall i | 0 <= i < |c.conversation| && i != at :: r.chat.conversation[i] == c.conversation[i]
    ensures r.chat.conversation[at].metadata == c.conversation[at].metadata
    ensures r.raised.Some? ==> r.chat == c
  {
    var b := c.conversation[at];
    match b.content
    case Text(s) => Step(c.(conversation := c.conversation[at := b.(content := Text(s + t))]), None)
    case Value(JList(items)) =>
      Step(c.(conversation := c.conversation[at := b.(content := Value(JList(items + Chars(t))))]), None)
    case _ => Step(c, Some(TypeError("+=")))
  }

  /** A StreamingTextContent item of the response whose uuid is `msgId`. */
  function OnStreamingText(v: Variant, c: Chat, msgId: string, text: Option<string>): (r: Step)
    requires Wf(c)
    ensures Wf(r.chat) && Extends(c.conversation, r.chat.conversation)
  {
    var t := OrEmpty(text);
    match FindById(c.conversation, msgId)
    case Some(at) => AppendText(c, at, t)
    case None =>
      if TailTakesText(v, c.conversation) then AppendText(c, |c.conversation| - 1, t)
      else Step(c.(conversation := c.conversation + [Bubble(Assistant, Text(t), NoMetadata)]), None)
  }

  /** A (non-streaming) TextContent item: a truthy text opens a new assistant bubble. */
  function OnText(c: Chat, text: Option<string>): (r: Step)
    requires Wf(c)
    ensures Wf(r.chat) && Extends(c.conversation, r.chat.conversation)
    ensures TruthyStr(text) ==> r == Step(c.(conversation := c.conversation + [Bubble(Assistant, Text(text.value), NoMetadata)]), None)
    ensures !TruthyStr(text) ==> r == Step(c, None)
  {
    if TruthyStr(text) then Step(c.(conversation := c.conversation + [Bubble(Assistant, Text(text.value), NoMetadata)]), None)
    else Step(c, None)
  }

  /** The citation rewrite: the suffix from the last opening marker becomes `open[title](url)close`. */
  function Cite(v: Variant, s: string, title: Option<string>, url: Option<string>): (r: string)
    ensures var kept := |r| - |v.openMarker + Link(title, url) + v.closeMarker|;
            && 0 <= kept <= |s| && r[..kept] == s[..kept] && r[kept..] == v.openMarker + Link(title, url) + v.closeMarker
  {
    var pre := SliceTo(s, RFind(s, v.openMarker));
    var link := v.openMarker + Link(title, url) + v.closeMarker;
    assert (pre + link)[..|pre|] == pre && (pre + link)[|pre|..] == link;
    pre + link
  }

  /** The link text an annotation inserts between the markers. */
  function Link(title: Option<string>, url: Option<string>): string {
    "[" + StrOf(title) + "](" + StrOf(url) + ")"
  }

  /** A StreamingAnnotationContent item. */
  function OnAnnotation(v: Variant, c: Chat, title: Option<string>, url: Option<string>): (r: Step)
    requires Wf(c)
    ensures Wf(r.chat) && Extends(c.conversation, r.chat.conversation)
  {
    var conv := c.conversation;
    var last := if conv != [] && conv[|conv| - 1].role == Assistant then Some(|conv| - 1) else c.lastMsg;
    var c1 := c.(lastMsg := last);
    match last
    case None => Step(c1, Some(NameError("last_msg")))
    case Some(at) =>
      var b := conv[at];
      match b.content
      case Text(s) =>
        if EndsWith(s, v.closeMarker) then
          Step(c1.(conversation := conv[at := b.(content := Text(Cite(v, s, title, url)))]), None)
        else Step(c1, None)
      case _ => Step(c1, Some(AttributeError("endswith")))
  }

  /** A StreamingFileReferenceContent item: an image bubble in the downloading variant. */
  function OnFileReference(v: Variant, c: Chat): (r: Step)
    requires Wf(c)
    ensures Wf(r.chat) && Extends(c.conversation, r.chat.conversation)
    ensures r.raised.None?
    ensures v.downloadsFiles ==> r.chat == c.(conversation := c.conversation + [Bubble(Assistant, Image, NoMetadata)])
    ensures !v.downloadsFiles ==> r.chat == c
  {
    if v.downloadsFiles then Step(c.(conversation := c.conversation + [Bubble(Assistant, Image, NoMetadata)]), None)
    else Step(c, None)
  }

  /** The items a response or an intermediate step carries, as the loops tell them apart. */
  datatype StreamItem =
    | FunctionCallItem
    | FunctionResultItem
    | AnnotationItem(title: Option<string>, url: Option<string>)
    | ChatMessageItem
    | FileReferenceItem
    | StreamingTextItem(text: Option<string>)
    | TextItem(text: Option<string>)
    | OtherItem

  datatype StepItem = ToolStep(tool: ToolItem) | UnknownStep

  /** One item of a response's `items`. */
  function ApplyItem(v: Variant, c: Chat, msgId: string, item: StreamItem): (r: Step)
    requires Wf(c)
    ensures Wf(r.chat) && Extends(c.conversation, r.chat.conversation)
  {
    match item
    case AnnotationItem(title, url) => OnAnnotation(v, c, title, url)
    case FileReferenceItem => OnFileReference(v, c)
    case StreamingTextItem(text) => OnStreamingText(v, c, msgId, text)
    case TextItem(text) => OnText(c, text)
    case _ => Step(c, None)
  }

  /** Whether the loop yields the conversation after handling `item` without an exception. */
  predicate YieldsAfter(item: StreamItem) {
    item.StreamingTextItem? || (item.TextItem? && TruthyStr(item.text))
  }

  /** The snapshot the loop yields after handling `item`, leaving the conversation `conv`. */
  function Yielded(item: StreamItem, conv: seq<Bubble>): seq<seq<Bubble>> {
    if YieldsAfter(item) then [conv] else []
  }

  /** How many of `items` are followed by a yield. */
  function CountYields(items: seq<StreamItem>): nat {
    if items == [] then 0 else (if YieldsAfter(items[0]) then 1 else 0) + CountYields(items[1..])
  }

  /** `handle_streaming_intermediate_steps`: the tool items of one step, stopping at an exception. */
  function ApplyStep(v: Variant, c: Chat, items: seq<StepItem>): (r: Step)
    requires Wf(c)
    ensures Wf(r.chat) && Extends(c.conversation, r.chat.conversation)
    decreases |items|
  {
    if items == [] then Step(c, None)
    else
      var s := ApplyStepItem(v, c, items[0]);
      if s.raised.Some? then s else ApplyStep(v, s.chat, items[1..])
  }

  /** One item of a step: a tool item is upserted, any other item changes nothing. */
  function ApplyStepItem(v: Variant, c: Chat, item: StepItem): (r: Step)
    requires Wf(c)
    ensures Wf(r.chat) && Extends(c.conversation, r.chat.conversation)
    ensures !item.ToolStep? ==> r == Step(c, None)
  {
    if item.ToolStep? then Upsert(v, c, item.tool) else Step(c, None)
  }

  /** The first item of a step, then the rest unless it raised. */
  lemma ApplyStepCons(v: Variant, c: Chat, items: seq<StepItem>, s: Step)
    requires Wf(c) && items != [] && s == ApplyStepItem(v, c, items[0])
    ensures s.raised.Some? ==> ApplyStep(v, c, items) == s
    ensures s.raised.None? ==> ApplyStep(v, c, items) == ApplyStep(v, s.chat, items[1..])
  {
  }

  /** The user message sent to the agent: its text and the paths sent as image items, in order. */
  datatype OutgoingMessage = OutgoingMessage(text: string, images: seq<string>)

  /** What a run of the generator has produced so far. */
  datatype Outcome = Outcome(
    chat: Chat,
    snapshots: seq<seq<Bubble>>,
    raised: Option<PyError>,
    thread: string,
    steps: seq<seq<StepItem>>)

  /** The items of one response, stopping at an exception. */
  function RunItems(v: Variant, c: Chat, msgId: string, items: seq<StreamItem>): (r: (Chat, seq<seq<Bubble>>, Option<PyError>))
    requires Wf(c)
    ensures Wf(r.0) && Extends(c.conversation, r.0.conversation)
    ensures r.2.None? ==> |r.1| == CountYields(items)
    decreases |items|
  {
    if items == [] then (c, [], None)
    else
      var s := ApplyItem(v, c, msgId, items[0]);
      if s.raised.Some? then (s.chat, [], s.raised)
      else
        var rest := RunItems(v, s.chat, msgId, items[1..]);
        (rest.0, Yielded(items[0], s.chat.conversation) + rest.1, rest.2)
  }

  /**
   * What the agent's stream delivers: an intermediate step (through the
   * callback) or a response, with the thread it carries and the fresh uuid
   * the loop draws for it.
   */
  datatype Event =
    | Intermediate(stepItems: seq<StepItem>)
    | Response(thread: string, msgId: string, items: seq<StreamItem>)

  /** One event applied to the outcome so far. */
  function RunEvent(v: Variant, o: Outcome, e: Event): (r: Outcome)
    requires Wf(o.chat)
    ensures Wf(r.chat) && Extends(o.chat.conversation, r.chat.conversation)
    ensures r.steps == o.steps + if v.logsSteps then StepEntry(e) else []
  {
    match e
    case Intermediate(items) =>
      var steps := if v.logsSteps then o.steps + [items] else o.steps;
      var s := ApplyStep(v, o.chat, items);
      o.(chat := s.chat, raised := s.raised, steps := steps)
    case Response(thread, msgId, items) =>
      var r := RunItems(v, o.chat, msgId, items);
      o.(chat := r.0, snapshots := o.snapshots + r.1, raised := r.2, thread := thread)
  }

  /** The log entry an event adds: its item list when it is an intermediate step. */
  function StepEntry(e: Event): seq<seq<StepItem>> {
    if e.Intermediate? then [e.stepItems] else []
  }

  /** The item lists of the intermediate steps, in arrival order. */
  function StepLog(events: seq<Event>): seq<seq<StepItem>> {
    if events == [] then [] else StepEntry(events[0]) + StepLog(events[1..])
  }

  /**
   * The events in order, stopping at the first exception. In a run that
   * raises nothing, the recording variant has logged every intermediate step
   * in arrival order and the other variant has logged none.
   */
  function RunEvents(v: Variant, o: Outcome, events: seq<Event>): (r: Outcome)
    requires Wf(o.chat)
    ensures Wf(r.chat) && Extends(o.chat.conversation, r.chat.conversation)
    ensures r.raised.None? ==> r.steps == o.steps + if v.logsSteps then StepLog(events) else []
    decreases |events|
  {
    if events == [] || o.raised.Some? then o
    else
      StepLogCons(o.steps, events);
      RunEvents(v, RunEvent(v, o, events[0]), events[1..])
  }

  /** A run that has raised nothing goes on from the first event's outcome. */
  lemma RunEventsCons(v: Variant, o: Outcome, events: seq<Event>)
    requires Wf(o.chat) && o.raised.None? && events != []
    ensures RunEvents(v, o, events) == RunEvents(v, RunEvent(v, o, events[0]), events[1..])
  {
  }

  /** A run ends once the events are used up or an exception was raised. */
  lemma RunEventsStop(v: Variant, o: Outcome, events: seq<Event>)
    requires Wf(o.chat) && (events == [] || o.raised.Some?)
    ensures RunEvents(v, o, events) == o
  {
  }

  /** The log after the first event, extended by the log of the rest, is the log of all events. */
  lemma StepLogCons(steps: seq<seq<StepItem>>, events: seq<Event>)
    requires events != []
    ensures steps + StepLog(events) == steps + StepEntry(events[0]) + StepLog(events[1..])
  {
    var first := StepEntry(events[0]);
    var rest := StepLog(events[1..]);
    assert StepLog(events) == first + rest;
    assert steps + (first + rest) == steps + first + rest;
  }

  /**
   * `azure_enterprise_chat` after the outgoing message is built: the events
   * folded over the history, then the final yield when nothing was raised.
   */
  function Converse(v: Variant, history: seq<Bubble>, thread: string, events: seq<Event>): (r: Outcome)
    ensures Wf(r.chat) && Extends(history, r.chat.conversation)
    ensures r.raised.None? ==> r.snapshots != [] && r.snapshots[|r.snapshots| - 1] == r.chat.conversation
    ensures r.raised.None? ==> r.steps == if v.logsSteps then StepLog(events) else []
  {
    var o := RunEvents(v, Outcome(Start(history), [], None, thread, []), events);
    assert [] + StepLog(events) == StepLog(events);
    if o.raised.None? then o.(snapshots := o.snapshots + [o.chat.conversation]) else o
  }
}
