/**
 * What the reconciler of module AgentChat guarantees: how each kind of tool
 * item changes the conversation and the in-progress map, where streamed
 * text lands, how citations are rewritten under each variant's markers,
 * and what a whole run preserves.
 */
module AgentChatFacts {
  import opened Wrappers
  import opened PyValues
  import opened PyStr
  import BingQuery
  import opened AgentChat

  // ---------------------------------------------------------------------
  // The in-progress map behaves as a Python dict.
  // ---------------------------------------------------------------------

  /** After `d[key] = at`, `key` maps to `at` and every other key keeps its value. */
  lemma {:induction false} AssignLookup(entries: seq<Entry>, key: Option<string>, at: nat, other: Option<string>)
    ensures Lookup(Assign(entries, key, at), key) == Some(at)
    ensures other != key ==> Lookup(Assign(entries, key, at), other) == Lookup(entries, other)
  {
    if entries == [] {
    } else if entries[0].key == key {
      var r := [Entry(key, at)] + entries[1..];
      assert Assign(entries, key, at) == r;
      assert r[0].key == key && r[1..] == entries[1..];
    } else {
      var rest := Assign(entries[1..], key, at);
      AssignLookup(entries[1..], key, at, other);
      var r := [entries[0]] + rest;
      assert Assign(entries, key, at) == r;
      assert r[0] == entries[0] && r[1..] == rest;
    }
  }

  /** After `d.pop(key, None)`, `key` is gone and every other key keeps its value. */
  lemma {:induction false} PopLookup(entries: seq<Entry>, key: Option<string>, other: Option<string>)
    requires UniqueKeys(entries)
    ensures Lookup(Pop(entries, key), key) == None
    ensures other != key ==> Lookup(Pop(entries, key), other) == Lookup(entries, other)
  {
    if entries == [] {
    } else {
      assert entries == [entries[0]] + entries[1..];
      KeysCons(entries[0], entries[1..]);
      DistinctCons(entries[0].key, Keys(entries[1..]));
      if entries[0].key != key {
        PopLookup(entries[1..], key, other);
        assert ([entries[0]] + Pop(entries[1..], key))[1..] == Pop(entries[1..], key);
      }
    }
  }

  /** `d.pop(key, None)` keeps every entry under another key. */
  lemma {:induction false} PopKeeps(entries: seq<Entry>, key: Option<string>, e: Entry)
    requires e in entries && e.key != key
    ensures e in Pop(entries, key)
  {
    if entries[0] != e {
      assert e in entries[1..];
      if entries[0].key != key {
        PopKeeps(entries[1..], key, e);
      }
    }
  }

  // ---------------------------------------------------------------------
  // upsert_tool_call, branch by branch.
  // ---------------------------------------------------------------------

  /** The name and key the branches test: `function_name or name`, `call_id or id`. */
  function NameOf(item: ToolItem): Option<string> { OrElse(item.functionName, item.name) }
  function KeyOf(item: ToolItem): Option<string> { OrElse(item.callId, item.id) }

  /** An item outside the bing_grounding and file_search branches. */
  predicate PlainTool(item: ToolItem) {
    NameOf(item) != Some(BingGrounding) && NameOf(item) != Some(FileSearch)
  }

  /**
   * A function_call item appends exactly one pending assistant bubble: its
   * content is `arguments or ""`, its id is "tool-" followed by the key, its
   * title comes from the table or the fallback, and it is registered under
   * the key; every other key keeps its bubble.
   */
  lemma FunctionCallOpensPendingBubble(v: Variant, c: Chat, item: ToolItem)
    requires Wf(c) && item.contentType == FunctionCallType && PlainTool(item)
    ensures var r := Upsert(v, c, item);
            var n := |c.conversation|;
            var fn := StrOf(item.functionName);
            && r.raised.None?
            && r.chat.conversation[..n] == c.conversation
            && |r.chat.conversation| == n + 1
            && r.chat.conversation[n].role == Assistant
            && r.chat.conversation[n].content == ArgumentsContent(item.arguments)
            && r.chat.conversation[n].metadata.status == Some(Pending)
            && r.chat.conversation[n].metadata.id == Some("tool-" + StrOf(KeyOf(item)))
            && r.chat.conversation[n].metadata.title
                 == Some(if fn in v.titles then v.titles[fn] else v.fallbackPrefix + fn)
            && Lookup(r.chat.inProgress, KeyOf(item)) == Some(n)
            && (forall k | k != KeyOf(item) :: Lookup(r.chat.inProgress, k) == Lookup(c.inProgress, k))
  {
    var n := |c.conversation|;
    forall k | k != KeyOf(item)
      ensures Lookup(Assign(c.inProgress, KeyOf(item), n), k) == Lookup(c.inProgress, k)
    {
      AssignLookup(c.inProgress, KeyOf(item), n, k);
    }
    AssignLookup(c.inProgress, KeyOf(item), n, KeyOf(item));
  }

  /**
   * A function_result item for a registered key marks that bubble done and
   * removes the key; for an unregistered key it raises KeyError and changes
   * nothing.
   */
  lemma FunctionResultCompletes(v: Variant, c: Chat, item: ToolItem)
    requires Wf(c) && item.contentType == FunctionResultType && PlainTool(item)
    ensures var r := Upsert(v, c, item);
            var key := KeyOf(item);
            && (key !in Keys(c.inProgress) ==> r == Step(c, Some(KeyError(StrOf(key)))))
            && (key in Keys(c.inProgress) ==>
                  var at := Lookup(c.inProgress, key).value;
                  var b := c.conversation[at];
                  && r.raised.None?
                  && r.chat.conversation == c.conversation[at := b.(metadata := b.metadata.(status := Some(Done)))]
                  && key !in Keys(r.chat.inProgress)
                  && (forall k | k != key :: Lookup(r.chat.inProgress, k) == Lookup(c.inProgress, k)))
  {
    var key := KeyOf(item);
    forall k | k != key ensures Lookup(Pop(c.inProgress, key), k) == Lookup(c.inProgress, k) {
      PopLookup(c.inProgress, key, k);
    }
  }

  /** Any content type other than function_call and function_result changes nothing. */
  lemma OtherContentTypesChangeNothing(v: Variant, c: Chat, item: ToolItem)
    requires Wf(c) && item.contentType.OtherContentType? && PlainTool(item)
    ensures Upsert(v, c, item) == Step(c, None)
  {
  }

  /** The bubble the file_search branch appends. */
  function SearchingDocs(v: Variant, key: Option<string>): Bubble {
    Bubble(Assistant, Text("searching docs..."), Metadata(Some(Title(v, FileSearch)), Some(Pending), None, Some(ToolId(key))))
  }

  /**
   * file_search, whatever the content type, always appends a new pending
   * bubble, registered only under a truthy key: a later result for the same
   * call appends a second bubble instead of completing the first.
   */
  lemma FileSearchAlwaysAppends(v: Variant, c: Chat, item: ToolItem)
    requires Wf(c) && NameOf(item) == Some(FileSearch)
    ensures var r := Upsert(v, c, item);
            && r.raised.None?
            && r.chat.conversation == c.conversation + [SearchingDocs(v, KeyOf(item))]
            && (TruthyStr(KeyOf(item)) ==> Lookup(r.chat.inProgress, KeyOf(item)) == Some(|c.conversation|))
            && (!TruthyStr(KeyOf(item)) ==> r.chat.inProgress == c.inProgress)
  {
    AssignLookup(c.inProgress, KeyOf(item), |c.conversation|, KeyOf(item));
  }

  /** The bubble a bing event without a pending match appends. */
  function BingBubble(v: Variant, fields: map<string, Json>, key: Option<string>): Bubble {
    Bubble(Assistant, Text(BingQuery.ExtractBingQuery(RequestUrl(fields))),
      Metadata(Some(Title(v, BingGrounding)), Some(Pending), Some(LogText(BingGrounding)), Some(ToolId(key))))
  }

  /**
   * A bing event carrying a call id skips the merge search: it appends a
   * new pending bubble with id "tool-" + call id and points the key at it,
   * overwriting an earlier entry in its original place.
   */
  lemma BingWithCallIdAppends(v: Variant, c: Chat, item: ToolItem)
    requires Wf(c) && NameOf(item) == Some(BingGrounding) && TruthyStr(KeyOf(item))
    requires item.arguments.JDict? && UrlUsable(item.arguments.fields)
    ensures var r := Upsert(v, c, item);
            var key := KeyOf(item);
            && r.raised.None?
            && r.chat.conversation == c.conversation + [BingBubble(v, item.arguments.fields, key)]
            && r.chat.conversation[|c.conversation|].metadata.id == Some("tool-" + key.value)
            && Lookup(r.chat.inProgress, key) == Some(|c.conversation|)
            && Keys(r.chat.inProgress) == if key in Keys(c.inProgress) then Keys(c.inProgress) else Keys(c.inProgress) + [key]
  {
    AssignLookup(c.inProgress, KeyOf(item), |c.conversation|, KeyOf(item));
  }

  /**
   * An id-less bing event that finds no pending bing bubble appends a
   * "tool-noid" bubble that is never registered.
   */
  lemma IdlessBingIsNotRegistered(v: Variant, c: Chat, item: ToolItem)
    requires Wf(c) && NameOf(item) == Some(BingGrounding) && !TruthyStr(KeyOf(item))
    requires item.arguments.JDict? && UrlUsable(item.arguments.fields)
    requires FirstBingPending(c.conversation, c.inProgress).None?
    ensures var r := Upsert(v, c, item);
            && r.raised.None?
            && r.chat.conversation == c.conversation + [BingBubble(v, item.arguments.fields, KeyOf(item))]
            && r.chat.conversation[|c.conversation|].metadata.id == Some("tool-noid")
            && r.chat.inProgress == c.inProgress
  {
  }

  /**
   * Bing completion: an id-less event with non-empty response metadata marks
   * the first pending bing bubble done and stores the metadata as its log.
   * The pop uses the bubble's "tool-..." id while the map is keyed by the raw
   * call id, so the entry of a bubble registered under `k` (id "tool-" + k)
   * stays in the map, pointing at a bubble that no longer counts as pending.
   */
  lemma BingCompletionKeepsEntry(v: Variant, c: Chat, item: ToolItem)
    requires Wf(c) && NameOf(item) == Some(BingGrounding) && !TruthyStr(KeyOf(item))
    requires item.arguments.JDict? && Truthy(ResponseMetadata(item.arguments.fields))
    requires FirstBingPending(c.conversation, c.inProgress).Some?
    ensures var r := Upsert(v, c, item);
            var e := c.inProgress[FirstBingPending(c.conversation, c.inProgress).value];
            var b := c.conversation[e.at];
            && r.raised.None?
            && r.chat.conversation == c.conversation[e.at := b.(metadata := b.metadata.(
                 log := Some(LogJson(ResponseMetadata(item.arguments.fields))), status := Some(Done)))]
            && !IsBingPending(r.chat.conversation, e)
            && (e.key.Some? && b.metadata.id == Some("tool-" + e.key.value) ==> e in r.chat.inProgress)
  {
    var e := c.inProgress[FirstBingPending(c.conversation, c.inProgress).value];
    var b := c.conversation[e.at];
    if e.key.Some? && b.metadata.id == Some("tool-" + e.key.value) {
      assert |e.key.value| < |"tool-" + e.key.value|;
      PopKeeps(c.inProgress, Some("tool-" + e.key.value), e);
    }
  }

  /**
   * A matched pending bing bubble receiving an event without response
   * metadata gets the extracted query as content and keeps its status; the
   * map is unchanged.
   */
  lemma BingMatchWithoutMetadataStaysPending(v: Variant, c: Chat, item: ToolItem)
    requires Wf(c) && NameOf(item) == Some(BingGrounding) && !TruthyStr(KeyOf(item))
    requires item.arguments.JDict? && !Truthy(ResponseMetadata(item.arguments.fields))
    requires UrlUsable(item.arguments.fields)
    requires FirstBingPending(c.conversation, c.inProgress).Some?
    ensures var r := Upsert(v, c, item);
            var at := c.inProgress[FirstBingPending(c.conversation, c.inProgress).value].at;
            var b := c.conversation[at];
            && r.raised.None?
            && r.chat.conversation
                 == c.conversation[at := b.(content := Text(BingQuery.ExtractBingQuery(RequestUrl(item.arguments.fields))))]
            && r.chat.conversation[at].metadata == b.metadata
            && r.chat.inProgress == c.inProgress
  {
  }

  // ---------------------------------------------------------------------
  // Streamed text.
  // ---------------------------------------------------------------------

  /** No bubble carries `msgId` as its id. */
  predicate NoneCarries(conv: seq<Bubble>, msgId: string) {
    forall i | 0 <= i < |conv| :: !Carries(conv[i], msgId)
  }

  /** A uuid drawn for the response: never of the "tool-..." form the reconciler gives ids. */
  predicate FreshId(msgId: string) {
    !StartsWith(msgId, "tool-")
  }

  lemma ToolIdsArePrefixed(key: Option<string>)
    ensures StartsWith(ToolId(key), "tool-") && StartsWith("tool-" + StrOf(key), "tool-")
  {
    if TruthyStr(key) {
      assert ("tool-" + key.value)[..5] == "tool-";
    }
    assert ("tool-" + StrOf(key))[..5] == "tool-";
  }

  /** A tool item never gives a bubble a fresh response id. */
  lemma UpsertKeepsIdFresh(v: Variant, c: Chat, item: ToolItem, msgId: string)
    requires Wf(c) && NoneCarries(c.conversation, msgId) && FreshId(msgId)
    ensures NoneCarries(Upsert(v, c, item).chat.conversation, msgId)
  {
    var fname := OrElse(item.functionName, item.name);
    var key := OrElse(item.callId, item.id);
    ToolIdsArePrefixed(key);
    if fname == Some(BingGrounding) {
      BingKeepsIdFresh(v, c, item.arguments, key, msgId);
    } else if fname == Some(FileSearch) {
      AppendToolKeepsIdFresh(c, Bubble(Assistant, Text("searching docs..."),
        Metadata(Some(Title(v, FileSearch)), Some(Pending), None, Some(ToolId(key)))), key, msgId);
    } else if item.contentType == FunctionResultType {
      if Lookup(c.inProgress, key).Some? {
        var at := Lookup(c.inProgress, key).value;
        var b := c.conversation[at];
        UpdateKeepsIdFresh(c.conversation, at, b.(metadata := b.metadata.(status := Some(Done))), msgId);
      }
    } else if item.contentType == FunctionCallType {
      AppendKeepsIdFresh(c.conversation, CallBubble(v, item, key), msgId);
    }
  }

  /** Replacing a bubble by one with the same role and id keeps a fresh id unused. */
  lemma UpdateKeepsIdFresh(conv: seq<Bubble>, at: nat, b: Bubble, msgId: string)
    requires at < |conv| && NoneCarries(conv, msgId)
    requires b.role == conv[at].role && b.metadata.id == conv[at].metadata.id
    ensures NoneCarries(conv[at := b], msgId)
  {
    assert !Carries(conv[at], msgId);
  }

  /** Appending a bubble that does not carry a fresh id keeps it unused. */
  lemma AppendKeepsIdFresh(conv: seq<Bubble>, b: Bubble, msgId: string)
    requires NoneCarries(conv, msgId) && !Carries(b, msgId)
    ensures NoneCarries(conv + [b], msgId)
  {
    forall i | 0 <= i < |conv| + 1 ensures !Carries((conv + [b])[i], msgId) {
      if i < |conv| {
        assert (conv + [b])[i] == conv[i];
      }
    }
  }

  lemma AppendToolKeepsIdFresh(c: Chat, b: Bubble, key: Option<string>, msgId: string)
    requires Wf(c) && NoneCarries(c.conversation, msgId) && !Carries(b, msgId)
    ensures NoneCarries(AppendTool(c, b, key).chat.conversation, msgId)
  {
    AppendKeepsIdFresh(c.conversation, b, msgId);
  }

  lemma BingKeepsIdFresh(v: Variant, c: Chat, arguments: Json, key: Option<string>, msgId: string)
    requires Wf(c) && NoneCarries(c.conversation, msgId) && FreshId(msgId)
    ensures NoneCarries(UpsertBing(v, c, arguments, key).chat.conversation, msgId)
  {
    ToolIdsArePrefixed(key);
    if arguments.JDict? {
      var metadata := ResponseMetadata(arguments.fields);
      var pending := if TruthyStr(key) then None else FirstBingPending(c.conversation, c.inProgress);
      if pending.Some? {
        var at := c.inProgress[pending.value].at;
        var b := c.conversation[at];
        if Truthy(metadata) {
          UpdateKeepsIdFresh(c.conversation, at,
            b.(metadata := b.metadata.(log := Some(LogJson(metadata)), status := Some(Done))), msgId);
        } else if UrlUsable(arguments.fields) {
          UpdateKeepsIdFresh(c.conversation, at,
            b.(content := Text(BingQuery.ExtractBingQuery(RequestUrl(arguments.fields)))), msgId);
        }
      } else if UrlUsable(arguments.fields) {
        var query := BingQuery.ExtractBingQuery(RequestUrl(arguments.fields));
        AppendToolKeepsIdFresh(c, Bubble(Assistant, Text(query),
          Metadata(Some(Title(v, BingGrounding)), Some(Pending), Some(LogText(BingGrounding)), Some(ToolId(key)))), key, msgId);
      }
    }
  }

  /** Every bubble keeps its metadata, and the bubbles added carry no id. */
  predicate IdsKept(before: seq<Bubble>, after: seq<Bubble>) {
    && |before| <= |after|
    && (forall i | 0 <= i < |before| :: after[i].metadata == before[i].metadata)
    && (forall i | |before| <= i < |after| :: after[i].metadata.id.None?)
  }

  lemma IdsKeptFresh(before: seq<Bubble>, after: seq<Bubble>, msgId: string)
    requires IdsKept(before, after) && Extends(before, after) && NoneCarries(before, msgId)
    ensures NoneCarries(after, msgId)
  {
    forall i | 0 <= i < |after| ensures !Carries(after[i], msgId) {
      if i < |before| {
        assert !Carries(before[i], msgId);
      } else {
        assert after[i].metadata.id.None?;
      }
    }
  }

  lemma AppendTextKeepsIds(c: Chat, at: nat, t: string)
    requires at < |c.conversation|
    ensures IdsKept(c.conversation, AppendText(c, at, t).chat.conversation)
  {
  }

  lemma StreamingTextKeepsIds(v: Variant, c: Chat, m: string, text: Option<string>)
    requires Wf(c)
    ensures IdsKept(c.conversation, OnStreamingText(v, c, m, text).chat.conversation)
  {
    var t := OrEmpty(text);
    match FindById(c.conversation, m) {
      case Some(at) => AppendTextKeepsIds(c, at, t);
      case None =>
        if TailTakesText(v, c.conversation) {
          AppendTextKeepsIds(c, |c.conversation| - 1, t);
        }
    }
  }

  lemma AnnotationKeepsIds(v: Variant, c: Chat, title: Option<string>, url: Option<string>)
    requires Wf(c)
    ensures IdsKept(c.conversation, OnAnnotation(v, c, title, url).chat.conversation)
  {
    var conv := c.conversation;
    var last := if conv != [] && conv[|conv| - 1].role == Assistant then Some(|conv| - 1) else c.lastMsg;
    var r := OnAnnotation(v, c, title, url);
    if last.Some? && conv[last.value].content.Text? && EndsWith(conv[last.value].content.text, v.closeMarker) {
      var b := conv[last.value];
      ContentUpdateKeepsIds(conv, last.value, Text(Cite(v, b.content.text, title, url)));
    } else {
      assert r.chat.conversation == conv;
    }
  }

  /** Replacing one bubble's content keeps every bubble's metadata. */
  lemma ContentUpdateKeepsIds(conv: seq<Bubble>, at: nat, content: Content)
    requires at < |conv|
    ensures IdsKept(conv, conv[at := conv[at].(content := content)])
  {
  }

  /** A response item never gives a bubble a fresh response id. */
  lemma ApplyItemKeepsIdFresh(v: Variant, c: Chat, m: string, item: StreamItem, msgId: string)
    requires Wf(c) && NoneCarries(c.conversation, msgId)
    ensures NoneCarries(ApplyItem(v, c, m, item).chat.conversation, msgId)
  {
    match item {
      case StreamingTextItem(text) => StreamingTextKeepsIds(v, c, m, text);
      case AnnotationItem(title, url) => AnnotationKeepsIds(v, c, title, url);
      case _ =>
    }
    IdsKeptFresh(c.conversation, ApplyItem(v, c, m, item).chat.conversation, msgId);
  }

  /**
   * The id-keyed lookup never matches within a response: when the bubbles
   * going in carry no fresh `msgId`, none carries it after any number of items.
   */
  lemma {:induction false} ResponseNeverMatchesById(v: Variant, c: Chat, msgId: string, items: seq<StreamItem>)
    requires Wf(c) && NoneCarries(c.conversation, msgId)
    ensures NoneCarries(RunItems(v, c, msgId, items).0.conversation, msgId)
    decreases |items|
  {
    if items != [] {
      var s := ApplyItem(v, c, msgId, items[0]);
      ApplyItemKeepsIdFresh(v, c, msgId, items[0], msgId);
      if s.raised.None? {
        ResponseNeverMatchesById(v, s.chat, msgId, items[1..]);
      }
    }
  }

  /**
   * Where an unmatched text delta lands: appended to the last bubble when
   * that bubble takes text (an assistant message without a "tool-" id, and
   * in gradio_app with string content), otherwise in a new assistant bubble.
   */
  lemma StreamingTextPlacement(v: Variant, c: Chat, msgId: string, text: Option<string>)
    requires Wf(c) && NoneCarries(c.conversation, msgId)
    ensures var r := OnStreamingText(v, c, msgId, text);
            var conv := c.conversation;
            var t := OrEmpty(text);
            && (TailTakesText(v, conv) && conv[|conv| - 1].content.Text? ==>
                  var tail := conv[|conv| - 1];
                  r == Step(c.(conversation := conv[|conv| - 1 := tail.(content := Text(tail.content.text + t))]), None))
            && (!TailTakesText(v, conv) ==>
                  r == Step(c.(conversation := conv + [Bubble(Assistant, Text(t), NoMetadata)]), None))
  {
    assert FindById(c.conversation, msgId).None?;
  }

  /** gradio_app: an unmatched delta never meets a non-string tail, so it never raises. */
  lemma StringTailOnlyNeverRaises(c: Chat, msgId: string, text: Option<string>)
    requires Wf(c) && NoneCarries(c.conversation, msgId)
    ensures OnStreamingText(AuthVariant, c, msgId, text).raised.None?
  {
    assert FindById(c.conversation, msgId).None?;
  }

  function Concat(parts: seq<string>): string {
    if parts == [] then "" else parts[0] + Concat(parts[1..])
  }

  function TextItems(texts: seq<string>): (r: seq<StreamItem>)
    ensures |r| == |texts|
  {
    seq(|texts|, i requires 0 <= i < |texts| => StreamingTextItem(Some(texts[i])))
  }

  /** `c` with the content of its last bubble replaced by the string `text`. */
  function WithTailText(c: Chat, text: string): Chat
    requires c.conversation != []
  {
    var n := |c.conversation|;
    c.(conversation := c.conversation[n - 1 := c.conversation[n - 1].(content := Text(text))])
  }

  lemma WithTailTextTwice(c: Chat, first: string, second: string)
    requires c.conversation != []
    ensures WithTailText(WithTailText(c, first), second) == WithTailText(c, second)
  {
    var n := |c.conversation|;
    assert WithTailText(WithTailText(c, first), second).conversation == WithTailText(c, second).conversation;
  }

  /** The first of a run of deltas appends its text to the tail and yields; the rest run from there. */
  lemma TextDeltaStep(v: Variant, c: Chat, msgId: string, texts: seq<string>) returns (c1: Chat)
    requires Wf(c) && NoneCarries(c.conversation, msgId)
    requires TailTakesText(v, c.conversation) && c.conversation[|c.conversation| - 1].content.Text?
    requires texts != []
    ensures c1 == WithTailText(c, TailText(c) + texts[0])
    ensures Wf(c1) && NoneCarries(c1.conversation, msgId)
    ensures TailTakesText(v, c1.conversation) && c1.conversation[|c1.conversation| - 1].content.Text?
    ensures var rest := RunItems(v, c1, msgId, TextItems(texts[1..]));
            RunItems(v, c, msgId, TextItems(texts)) == (rest.0, [c1.conversation] + rest.1, rest.2)
  {
    var items := TextItems(texts);
    assert items[0] == StreamingTextItem(Some(texts[0]));
    StreamingTextPlacement(v, c, msgId, Some(texts[0]));
    ApplyItemKeepsIdFresh(v, c, msgId, items[0], msgId);
    c1 := WithTailText(c, TailText(c) + texts[0]);
    assert ApplyItem(v, c, msgId, items[0]) == Step(c1, None);
    assert items[1..] == TextItems(texts[1..]);
  }

  /** The text of the last bubble of `c`. */
  function TailText(c: Chat): string
    requires c.conversation != [] && c.conversation[|c.conversation| - 1].content.Text?
  {
    c.conversation[|c.conversation| - 1].content.text
  }

  /** Appending `a` to the tail and then `rest` is appending `a + rest`. */
  lemma WithTailTextAppend(c: Chat, a: string, rest: string)
    requires c.conversation != [] && c.conversation[|c.conversation| - 1].content.Text?
    ensures var c1 := WithTailText(c, TailText(c) + a);
            && c1.conversation != [] && c1.conversation[|c1.conversation| - 1].content.Text?
            && WithTailText(c1, TailText(c1) + rest) == WithTailText(c, TailText(c) + (a + rest))
  {
    var first := TailText(c) + a;
    WithTailTextTwice(c, first, first + rest);
    assert first + rest == TailText(c) + (a + rest);
  }

  /**
   * A response made only of text deltas, arriving at a tail that takes text,
   * concatenates all of them onto that tail in order and yields once per delta.
   */
  lemma {:induction false} TextDeltasConcatenate(v: Variant, c: Chat, msgId: string, texts: seq<string>)
    requires Wf(c) && NoneCarries(c.conversation, msgId)
    requires TailTakesText(v, c.conversation) && c.conversation[|c.conversation| - 1].content.Text?
    ensures var r := RunItems(v, c, msgId, TextItems(texts));
            && r.2.None? && r.0 == WithTailText(c, TailText(c) + Concat(texts)) && |r.1| == |texts|
    decreases |texts|
  {
    if texts == [] {
      var n := |c.conversation|;
      var tail := c.conversation[n - 1];
      assert tail.(content := Text(tail.content.text + Concat(texts))) == tail;
      assert c.conversation[n - 1 := tail] == c.conversation;
    } else {
      var c1 := TextDeltaStep(v, c, msgId, texts);
      TextDeltasConcatenate(v, c1, msgId, texts[1..]);
      WithTailTextAppend(c, texts[0], Concat(texts[1..]));
    }
  }

  // ---------------------------------------------------------------------
  // Annotations and citation markers.
  // ---------------------------------------------------------------------

  /**
   * An annotation rewrites the last bubble when it is an assistant message
   * whose text ends with the closing marker; that bubble is what `last_msg`
   * is bound to.
   */
  lemma AnnotationRewritesTail(v: Variant, c: Chat, title: Option<string>, url: Option<string>)
    requires Wf(c) && c.conversation != []
    requires c.conversation[|c.conversation| - 1].role == Assistant
    requires c.conversation[|c.conversation| - 1].content.Text?
    ensures var n := |c.conversation|;
            var tail := c.conversation[n - 1];
            var s := tail.content.text;
            var r := OnAnnotation(v, c, title, url);
            && r.raised.None?
            && r.chat.lastMsg == Some(n - 1)
            && r.chat.conversation == if EndsWith(s, v.closeMarker)
                 then c.conversation[n - 1 := tail.(content := Text(Cite(v, s, title, url)))]
                 else c.conversation
  {
  }

  /**
   * When the tail is not an assistant message, an annotation uses whatever
   * `last_msg` an earlier annotation bound (possibly a stale bubble), and
   * raises NameError when none did.
   */
  lemma AnnotationUsesBoundLastMsg(v: Variant, c: Chat, title: Option<string>, url: Option<string>)
    requires Wf(c)
    requires c.conversation == [] || c.conversation[|c.conversation| - 1].role != Assistant
    ensures var r := OnAnnotation(v, c, title, url);
            && (c.lastMsg.None? ==> r == Step(c, Some(NameError("last_msg"))))
            && (c.lastMsg.Some? && c.conversation[c.lastMsg.value].content.Text? ==>
                  var b := c.conversation[c.lastMsg.value];
                  && r.raised.None?
                  && r.chat.conversation == if EndsWith(b.content.text, v.closeMarker)
                       then c.conversation[c.lastMsg.value := b.(content := Text(Cite(v, b.content.text, title, url)))]
                       else c.conversation)
  {
  }

  /** The rewrite, with the link text named. */
  lemma CiteShape(v: Variant, s: string, title: Option<string>, url: Option<string>)
    ensures Cite(v, s, title, url) == SliceTo(s, RFind(s, v.openMarker)) + v.openMarker + Link(title, url) + v.closeMarker
  {
  }

  /**
   * Where the rewrite cuts: the kept text ends at the last opening marker,
   * or, when there is none, rfind's -1 as a slice end drops only the last
   * character.
   */
  lemma CiteCutsAtLastMarker(v: Variant, s: string, title: Option<string>, url: Option<string>)
    ensures var kept := |Cite(v, s, title, url)| - |v.openMarker + Link(title, url) + v.closeMarker|;
            && (RFind(s, v.openMarker) >= 0 ==> kept == RFind(s, v.openMarker))
            && (RFind(s, v.openMarker) < 0 && s != [] ==> kept == |s| - 1)
  {
    CiteShape(v, s, title, url);
  }

  /** `rfind` of a one-character pattern is the last position holding that character. */
  lemma RFindChar(s: string, c: char, k: nat)
    requires k < |s| && s[k] == c
    requires forall j | k < j < |s| :: s[j] != c
    ensures RFind(s, [c]) == k
  {
    var r := RFind(s, [c]);
    assert s[k..k + 1] == [c];
    assert OccursAt(s, [c], k);
    assert k <= r;
    assert OccursAt(s, [c], r);
    assert s[r] == c by { assert s[r..r + 1][0] == s[r]; }
  }

  /**
   * gradio-app: a text ending in a citation `【...】` whose inside holds no
   * opening bracket has that citation replaced by `【[title](url)】`.
   */
  lemma BasicCitationReplaced(pre: string, mid: string, title: Option<string>, url: Option<string>)
    requires '\U{3010}' !in mid
    ensures var s := pre + "\U{3010}" + mid + "\U{3011}";
            Cite(BasicVariant, s, title, url) == pre + "\U{3010}" + Link(title, url) + "\U{3011}"
  {
    var s := pre + "\U{3010}" + mid + "\U{3011}";
    forall j | |pre| < j < |s| ensures s[j] != '\U{3010}' {
      if j < |s| - 1 {
        assert s[j] == mid[j - |pre| - 1];
      }
    }
    RFindChar(s, '\U{3010}', |pre|);
    assert s[..|pre|] == pre;
    CiteShape(BasicVariant, s, title, url);
  }

  /**
   * gradio_app: the mis-encoded opening marker is a prefix of the closing
   * marker, so the search for it finds the closing marker itself and only
   * that marker is replaced; the citation text before it is kept.
   */
  lemma AuthCitationKeepsText(s: string, title: Option<string>, url: Option<string>)
    requires EndsWith(s, AuthVariant.closeMarker)
    ensures Cite(AuthVariant, s, title, url)
              == s[..|s| - 3] + AuthVariant.openMarker + Link(title, url) + AuthVariant.closeMarker
  {
    var open := AuthVariant.openMarker;
    var n := |s|;
    assert s[n - 3..] == "\U{E3}\U{20AC}\U{2018}";
    assert s[n - 3] == '\U{E3}' && s[n - 2] == '\U{20AC}' && s[n - 1] == '\U{2018}';
    assert OccursAt(s, open, n - 3) by { assert s[n - 3..n - 1] == open; }
    assert !OccursAt(s, open, n - 2) by { assert s[n - 2] != open[0]; }
    assert RFind(s, open) == n - 3;
    CiteShape(AuthVariant, s, title, url);
  }

  /**
   * A text ending in the closing marker but holding no opening marker: the
   * search gives -1, which as a slice end cuts only the last character.
   */
  lemma NoOpeningMarkerCutsLastChar(v: Variant, s: string, title: Option<string>, url: Option<string>)
    requires s != []
    requires forall j :: !OccursAt(s, v.openMarker, j)
    ensures Cite(v, s, title, url) == s[..|s| - 1] + v.openMarker + Link(title, url) + v.closeMarker
  {
    CiteShape(v, s, title, url);
  }

  // ---------------------------------------------------------------------
  // The yields of one response.
  // ---------------------------------------------------------------------

  /**
   * One more item at the end of a response: a run that already raised is
   * unchanged; otherwise the item is applied to the final chat, and its
   * snapshot, if it raises nothing and yields, follows the earlier ones.
   */
  lemma {:induction false} RunItemsSnoc(v: Variant, c: Chat, msgId: string, items: seq<StreamItem>, it: StreamItem)
    requires Wf(c)
    ensures var p := RunItems(v, c, msgId, items);
            var r := RunItems(v, c, msgId, items + [it]);
            && (p.2.Some? ==> r == p)
            && (p.2.None? ==>
                  var s := ApplyItem(v, p.0, msgId, it);
                  && (s.raised.Some? ==> r == (s.chat, p.1, s.raised))
                  && (s.raised.None? ==> r == (s.chat, p.1 + Yielded(it, s.chat.conversation), None)))
    decreases |items|
  {
    if items == [] {
      assert items + [it] == [it];
      assert RunItems(v, c, msgId, items) == (c, [], None);
      RunItemsSnocEmpty(v, c, msgId, it);
      var y := Yielded(it, ApplyItem(v, c, msgId, it).chat.conversation);
      assert [] + y == y;
    } else {
      var all := items + [it];
      assert all[0] == items[0] && all[1..] == items[1..] + [it];
      var s0 := ApplyItem(v, c, msgId, items[0]);
      RunItemsCons(v, c, msgId, items, s0);
      RunItemsCons(v, c, msgId, all, s0);
      if s0.raised.None? {
        RunItemsSnoc(v, s0.chat, msgId, items[1..], it);
        var prest := RunItems(v, s0.chat, msgId, items[1..]);
        SnocFirst(Yielded(items[0], s0.chat.conversation), prest, RunItems(v, s0.chat, msgId, items[1..] + [it]),
          ApplyItem(v, prest.0, msgId, it), it);
      }
    }
  }

  /** Prefixing the first item's snapshot to both runs keeps the relation RunItemsSnoc states. */
  lemma SnocFirst(y0: seq<seq<Bubble>>, p: (Chat, seq<seq<Bubble>>, Option<PyError>),
                  r: (Chat, seq<seq<Bubble>>, Option<PyError>), s: Step, it: StreamItem)
    requires p.2.Some? ==> r == p
    requires p.2.None? && s.raised.Some? ==> r == (s.chat, p.1, s.raised)
    requires p.2.None? && s.raised.None? ==> r == (s.chat, p.1 + Yielded(it, s.chat.conversation), None)
    ensures var p' := (p.0, y0 + p.1, p.2);
            var r' := (r.0, y0 + r.1, r.2);
            && (p.2.Some? ==> r' == p')
            && (p.2.None? && s.raised.Some? ==> r' == (s.chat, p'.1, s.raised))
            && (p.2.None? && s.raised.None? ==> r' == (s.chat, p'.1 + Yielded(it, s.chat.conversation), None))
  {
    var y := Yielded(it, s.chat.conversation);
    assert y0 + (p.1 + y) == (y0 + p.1) + y;
  }

  /** A response's items one at a time: the first item, then the rest unless it raised. */
  lemma RunItemsCons(v: Variant, c: Chat, msgId: string, items: seq<StreamItem>, s0: Step)
    requires Wf(c) && items != [] && s0 == ApplyItem(v, c, msgId, items[0])
    ensures s0.raised.Some? ==> RunItems(v, c, msgId, items) == (s0.chat, [], s0.raised)
    ensures s0.raised.None? ==>
              var rest := RunItems(v, s0.chat, msgId, items[1..]);
              RunItems(v, c, msgId, items) == (rest.0, Yielded(items[0], s0.chat.conversation) + rest.1, rest.2)
  {
  }

  /** A response of one item. */
  lemma RunItemsSnocEmpty(v: Variant, c: Chat, msgId: string, it: StreamItem)
    requires Wf(c)
    ensures var s := ApplyItem(v, c, msgId, it);
            var r := RunItems(v, c, msgId, [it]);
            && (s.raised.Some? ==> r == (s.chat, [], s.raised))
            && (s.raised.None? ==> r == (s.chat, Yielded(it, s.chat.conversation), None))
  {
    var s := ApplyItem(v, c, msgId, it);
    RunItemsCons(v, c, msgId, [it], s);
    if s.raised.None? {
      assert [it][1..] == [];
      assert Yielded(it, s.chat.conversation) + [] == Yielded(it, s.chat.conversation);
    }
  }

  /** When the last item of a response raises nothing and yields, the last snapshot is the final conversation. */
  lemma LastYieldIsFinal(v: Variant, c: Chat, msgId: string, items: seq<StreamItem>, it: StreamItem)
    requires Wf(c)
    ensures var r := RunItems(v, c, msgId, items + [it]);
            r.2.None? && YieldsAfter(it) ==> r.1 != [] && r.1[|r.1| - 1] == r.0.conversation
  {
    RunItemsSnoc(v, c, msgId, items, it);
  }

  // ---------------------------------------------------------------------
  // A whole run.
  // ---------------------------------------------------------------------

  /** Snapshots are only ever added: an event keeps everything yielded before it. */
  lemma {:induction false} SnapshotsOnlyGrow(v: Variant, o: Outcome, events: seq<Event>)
    requires Wf(o.chat)
    ensures var r := RunEvents(v, o, events); |o.snapshots| <= |r.snapshots| && r.snapshots[..|o.snapshots|] == o.snapshots
    decreases |events|
  {
    if events != [] && o.raised.None? {
      var o1 := RunEvent(v, o, events[0]);
      SnapshotsOnlyGrow(v, o1, events[1..]);
      assert o1.snapshots[..|o.snapshots|] == o.snapshots;
    }
  }

  // ---------------------------------------------------------------------
  // The history a run starts from.
  // ---------------------------------------------------------------------

  /**
   * The conversation begins with `frozen`, and every bubble the map or
   * `last_msg` can reach, and the last bubble, lie after it: no update can
   * touch a bubble of `frozen`.
   */
  predicate Anchored(c: Chat, frozen: seq<Bubble>) {
    && (frozen == [] || |frozen| < |c.conversation|)
    && (forall i | 0 <= i < |frozen| :: c.conversation[i] == frozen[i])
    && (forall e | e in c.inProgress :: e.at >= |frozen|)
    && (c.lastMsg.Some? ==> c.lastMsg.value >= |frozen|)
  }

  /** Every response of `events` carries a uuid that no bubble of `frozen` carries. */
  predicate FreshFor(frozen: seq<Bubble>, events: seq<Event>) {
    forall k | 0 <= k < |events| && events[k].Response? :: NoneCarries(frozen, events[k].msgId)
  }

  /** Rewriting a bubble after `frozen`, and keeping the map within the old one's positions. */
  lemma UpdateAnchored(c: Chat, at: nat, b: Bubble, entries: seq<Entry>, frozen: seq<Bubble>)
    requires Anchored(c, frozen) && |frozen| <= at < |c.conversation|
    requires forall e | e in entries :: e in c.inProgress
    ensures Anchored(c.(conversation := c.conversation[at := b], inProgress := entries), frozen)
  {
  }

  /** Appending a bubble, registered under `key` at its position or not at all. */
  lemma AppendAnchored(c: Chat, b: Bubble, entries: seq<Entry>, frozen: seq<Bubble>)
    requires Anchored(c, frozen)
    requires forall e | e in entries :: e in c.inProgress || e.at == |c.conversation|
    ensures Anchored(c.(conversation := c.conversation + [b], inProgress := entries), frozen)
  {
    var conv := c.conversation + [b];
    forall i | 0 <= i < |frozen| ensures conv[i] == frozen[i] {
      assert conv[i] == c.conversation[i];
    }
  }

  lemma AppendToolAnchored(c: Chat, b: Bubble, key: Option<string>, frozen: seq<Bubble>)
    requires Wf(c) && Anchored(c, frozen)
    ensures Anchored(AppendTool(c, b, key).chat, frozen)
  {
    if TruthyStr(key) {
      AppendAnchored(c, b, Assign(c.inProgress, key, |c.conversation|), frozen);
    } else {
      AppendAnchored(c, b, c.inProgress, frozen);
    }
  }

  lemma BingAnchored(v: Variant, c: Chat, arguments: Json, key: Option<string>, frozen: seq<Bubble>)
    requires Wf(c) && Anchored(c, frozen)
    ensures Anchored(UpsertBing(v, c, arguments, key).chat, frozen)
  {
    if arguments.JDict? {
      var metadata := ResponseMetadata(arguments.fields);
      var pending := if TruthyStr(key) then None else FirstBingPending(c.conversation, c.inProgress);
      if pending.Some? {
        var at := c.inProgress[pending.value].at;
        assert c.inProgress[pending.value] in c.inProgress;
        var b := c.conversation[at];
        if Truthy(metadata) {
          var popKey := Some(if b.metadata.id.Some? then b.metadata.id.value else "tool-noid");
          UpdateAnchored(c, at, b.(metadata := b.metadata.(log := Some(LogJson(metadata)), status := Some(Done))),
            Pop(c.inProgress, popKey), frozen);
        } else if UrlUsable(arguments.fields) {
          UpdateAnchored(c, at, b.(content := Text(BingQuery.ExtractBingQuery(RequestUrl(arguments.fields)))),
            c.inProgress, frozen);
        }
      } else if UrlUsable(arguments.fields) {
        var query := BingQuery.ExtractBingQuery(RequestUrl(arguments.fields));
        AppendToolAnchored(c, Bubble(Assistant, Text(query),
          Metadata(Some(Title(v, BingGrounding)), Some(Pending), Some(LogText(BingGrounding)), Some(ToolId(key)))), key, frozen);
      }
    }
  }

  /** A tool item never touches a bubble of `frozen`. */
  lemma UpsertAnchored(v: Variant, c: Chat, item: ToolItem, frozen: seq<Bubble>)
    requires Wf(c) && Anchored(c, frozen)
    ensures Anchored(Upsert(v, c, item).chat, frozen)
  {
    var fname := OrElse(item.functionName, item.name);
    var key := OrElse(item.callId, item.id);
    if fname == Some(BingGrounding) {
      BingAnchored(v, c, item.arguments, key, frozen);
    } else if fname == Some(FileSearch) {
      AppendToolAnchored(c, Bubble(Assistant, Text("searching docs..."),
        Metadata(Some(Title(v, FileSearch)), Some(Pending), None, Some(ToolId(key)))), key, frozen);
    } else if item.contentType == FunctionResultType {
      if Lookup(c.inProgress, key).Some? {
        var at := Lookup(c.inProgress, key).value;
        assert Entry(key, at) in c.inProgress;
        var b := c.conversation[at];
        UpdateAnchored(c, at, b.(metadata := b.metadata.(status := Some(Done))), Pop(c.inProgress, key), frozen);
      }
    } else if item.contentType == FunctionCallType {
      AppendAnchored(c, CallBubble(v, item, key), Assign(c.inProgress, key, |c.conversation|), frozen);
    }
  }

  lemma {:induction false} ApplyStepAnchored(v: Variant, c: Chat, items: seq<StepItem>, frozen: seq<Bubble>)
    requires Wf(c) && Anchored(c, frozen)
    ensures Anchored(ApplyStep(v, c, items).chat, frozen)
    decreases |items|
  {
    if items != [] {
      var s := ApplyStepItem(v, c, items[0]);
      ApplyStepCons(v, c, items, s);
      if items[0].ToolStep? {
        UpsertAnchored(v, c, items[0].tool, frozen);
      }
      if s.raised.None? {
        ApplyStepAnchored(v, s.chat, items[1..], frozen);
      }
    }
  }

  lemma AppendTextAnchored(c: Chat, at: nat, t: string, frozen: seq<Bubble>)
    requires Anchored(c, frozen) && |frozen| <= at < |c.conversation|
    ensures Anchored(AppendText(c, at, t).chat, frozen)
  {
  }

  /** A text delta whose uuid no bubble of `frozen` carries lands after `frozen`. */
  lemma StreamingTextAnchored(v: Variant, c: Chat, msgId: string, text: Option<string>, frozen: seq<Bubble>)
    requires Wf(c) && Anchored(c, frozen) && NoneCarries(frozen, msgId)
    ensures Anchored(OnStreamingText(v, c, msgId, text).chat, frozen)
  {
    var t := OrEmpty(text);
    match FindById(c.conversation, msgId) {
      case Some(at) =>
        AppendTextAnchored(c, at, t, frozen);
      case None =>
        if TailTakesText(v, c.conversation) {
          AppendTextAnchored(c, |c.conversation| - 1, t, frozen);
        } else {
          AppendAnchored(c, Bubble(Assistant, Text(t), NoMetadata), c.inProgress, frozen);
        }
    }
  }

  /** An annotation rewrites the last bubble or the one `last_msg` holds, both after `frozen`. */
  lemma AnnotationAnchored(v: Variant, c: Chat, title: Option<string>, url: Option<string>, frozen: seq<Bubble>)
    requires Wf(c) && Anchored(c, frozen)
    ensures Anchored(OnAnnotation(v, c, title, url).chat, frozen)
  {
    var conv := c.conversation;
    var last := if conv != [] && conv[|conv| - 1].role == Assistant then Some(|conv| - 1) else c.lastMsg;
    var c1 := c.(lastMsg := last);
    assert Anchored(c1, frozen);
    if last.Some? {
      var b := conv[last.value];
      if b.content.Text? && EndsWith(b.content.text, v.closeMarker) {
        UpdateAnchored(c1, last.value, b.(content := Text(Cite(v, b.content.text, title, url))), c.inProgress, frozen);
      }
    }
  }

  lemma ApplyItemAnchored(v: Variant, c: Chat, msgId: string, item: StreamItem, frozen: seq<Bubble>)
    requires Wf(c) && Anchored(c, frozen) && NoneCarries(frozen, msgId)
    ensures Anchored(ApplyItem(v, c, msgId, item).chat, frozen)
  {
    match item {
      case AnnotationItem(title, url) => AnnotationAnchored(v, c, title, url, frozen);
      case FileReferenceItem => AppendAnchored(c, Bubble(Assistant, Image, NoMetadata), c.inProgress, frozen);
      case StreamingTextItem(text) => StreamingTextAnchored(v, c, msgId, text, frozen);
      case TextItem(text) => AppendAnchored(c, Bubble(Assistant, Text(StrOf(text)), NoMetadata), c.inProgress, frozen);
      case _ =>
    }
  }

  lemma {:induction false} RunItemsAnchored(v: Variant, c: Chat, msgId: string, items: seq<StreamItem>, frozen: seq<Bubble>)
    requires Wf(c) && Anchored(c, frozen) && NoneCarries(frozen, msgId)
    ensures Anchored(RunItems(v, c, msgId, items).0, frozen)
    decreases |items|
  {
    if items != [] {
      var s := ApplyItem(v, c, msgId, items[0]);
      ApplyItemAnchored(v, c, msgId, items[0], frozen);
      if s.raised.None? {
        RunItemsAnchored(v, s.chat, msgId, items[1..], frozen);
      }
    }
  }

  lemma RunEventAnchored(v: Variant, o: Outcome, e: Event, frozen: seq<Bubble>)
    requires Wf(o.chat) && Anchored(o.chat, frozen)
    requires e.Response? ==> NoneCarries(frozen, e.msgId)
    ensures Anchored(RunEvent(v, o, e).chat, frozen)
  {
    match e {
      case Intermediate(items) => ApplyStepAnchored(v, o.chat, items, frozen);
      case Response(_, msgId, items) => RunItemsAnchored(v, o.chat, msgId, items, frozen);
    }
  }

  lemma {:induction false} RunEventsAnchored(v: Variant, o: Outcome, events: seq<Event>, frozen: seq<Bubble>)
    requires Wf(o.chat) && Anchored(o.chat, frozen) && FreshFor(frozen, events)
    ensures Anchored(RunEvents(v, o, events).chat, frozen)
    decreases |events|
  {
    if events != [] && o.raised.None? {
      RunEventsCons(v, o, events);
      RunEventAnchored(v, o, events[0], frozen);
      assert FreshFor(frozen, events[1..]) by {
        forall k | 0 <= k < |events| - 1 && events[1..][k].Response?
          ensures NoneCarries(frozen, events[1..][k].msgId)
        {
          assert events[1..][k] == events[k + 1];
        }
      }
      RunEventsAnchored(v, RunEvent(v, o, events[0]), events[1..], frozen);
    }
  }

  /**
   * With response uuids that no history bubble carries, every history
   * bubble but the last comes out of a run unchanged: text deltas,
   * annotations and tool updates reach only the last history bubble and
   * the bubbles the run appended.
   */
  lemma ConverseKeepsHistory(v: Variant, history: seq<Bubble>, thread: string, events: seq<Event>)
    requires forall k | 0 <= k < |events| && events[k].Response? :: NoneCarries(history, events[k].msgId)
    ensures var r := Converse(v, history, thread, events);
            forall i | 0 <= i < |history| - 1 :: r.chat.conversation[i] == history[i]
  {
    if history != [] {
      var frozen := history[..|history| - 1];
      assert FreshFor(frozen, events) by {
        forall k | 0 <= k < |events| && events[k].Response? ensures NoneCarries(frozen, events[k].msgId) {
          assert NoneCarries(history, events[k].msgId);
        }
      }
      var o := Outcome(Start(history), [], None, thread, []);
      assert Anchored(o.chat, frozen);
      RunEventsAnchored(v, o, events, frozen);
    }
  }

  // ---------------------------------------------------------------------
  // A sample.
  // ---------------------------------------------------------------------

  /** A sample: a call to fetch_weather followed by its result leaves one done bubble and an empty map. */
  lemma CallThenResult(history: seq<Bubble>)
    ensures var call := ToolItem(FunctionCallType, Some("fetch_weather"), None, Some("call1"), None, JDict(map["city" := JStr("Paris")]));
            var result := ToolItem(FunctionResultType, Some("fetch_weather"), None, Some("call1"), None, JNone);
            var c1 := Upsert(BasicVariant, Start(history), call).chat;
            var r := Upsert(BasicVariant, c1, result);
            && r.raised.None?
            && r.chat.conversation == history + [Bubble(Assistant, Value(JDict(map["city" := JStr("Paris")])),
                 Metadata(Some("\U{2601}\U{FE0F} fetching weather"), Some(Done), None, Some("tool-call1")))]
            && r.chat.inProgress == []
  {
    var call := ToolItem(FunctionCallType, Some("fetch_weather"), None, Some("call1"), None, JDict(map["city" := JStr("Paris")]));
    var result := ToolItem(FunctionResultType, Some("fetch_weather"), None, Some("call1"), None, JNone);
    var n := |history|;
    var c0 := Start(history);
    assert KeyOf(call) == Some("call1") && KeyOf(result) == Some("call1");
    assert PlainTool(call) && PlainTool(result) by {
      assert |"fetch_weather"| != |BingGrounding| && |"fetch_weather"| != |FileSearch|;
    }
    FunctionCallOpensPendingBubble(BasicVariant, c0, call);
    var c1 := Upsert(BasicVariant, c0, call).chat;
    assert c1.inProgress == [Entry(Some("call1"), n)];
    assert Title(BasicVariant, "fetch_weather") == "\U{2601}\U{FE0F} fetching weather";
    var b := CallBubble(BasicVariant, call, Some("call1"));
    assert c1.conversation == history + [b];
    assert |call.arguments.fields| == 1;
    assert "tool-" + StrOf(Some("call1")) == "tool-call1";
    FunctionResultCompletes(BasicVariant, c1, result);
    assert Keys(c1.inProgress) == [Some("call1")];
    assert Pop(c1.inProgress, Some("call1")) == [];
  }
}
