/**
 * The locals of one `azure_enterprise_chat` call, updated in place as the
 * stream is consumed: the `conversation` list, the `in_progress_tools` dict,
 * `last_msg`, the `intermediate_steps` list, and the agent thread the
 * responses hand back. Every method is proved to perform exactly the update
 * the functions of module AgentChat describe.
 */
module Reconciler {
  import opened Wrappers
  import opened PyValues
  import opened PyStr
  import BingQuery
  import opened AgentChat

  class Transcript {
    const variant: Variant
    var conversation: seq<Bubble>
    var inProgress: seq<Entry>
    var lastMsg: Option<nat>
    var steps: seq<seq<StepItem>>
    var thread: string

    function State(): Chat
      reads this
    {
      Chat(conversation, inProgress, lastMsg)
    }

    predicate Valid()
      reads this
    {
      Wf(State())
    }

    /** The history converted to bubbles, an empty map, `last_msg` unbound, no steps. */
    constructor(v: Variant, history: seq<Bubble>, thread0: string)
      ensures Valid() && variant == v && State() == Start(history)
      ensures steps == [] && thread == thread0
    {
      variant := v;
      conversation := history;
      inProgress := [];
      lastMsg := None;
      steps := [];
      thread := thread0;
    }

    /** The merge search: the first entry, in insertion order, whose bubble's log is "bing_grounding". */
    method FindBingPending() returns (pending: Option<nat>)
      requires Valid()
      ensures pending == FirstBingPending(conversation, inProgress)
    {
      pending := None;
      var k := 0;
      while k < |inProgress| && pending.None?
        invariant 0 <= k <= |inProgress|
        invariant pending.None? ==> forall j | 0 <= j < k :: !IsBingPending(conversation, inProgress[j])
        invariant pending.Some? ==> pending.value < |inProgress| && IsBingPending(conversation, inProgress[pending.value])
        invariant pending.Some? ==> forall j | 0 <= j < pending.value :: !IsBingPending(conversation, inProgress[j])
        decreases |inProgress| - k
      {
        if IsBingPending(conversation, inProgress[k]) {
          pending := Some(k);
        }
        k := k + 1;
      }
      var spec := FirstBingPending(conversation, inProgress);
      if pending.Some? && spec.Some? {
        assert !(pending.value < spec.value) && !(spec.value < pending.value);
      }
    }

    /** Appends a tool bubble and registers it under a truthy key. */
    method AppendTool(b: Bubble, key: Option<string>)
      requires Valid()
      modifies this
      ensures Valid()
      ensures Step(State(), None) == AgentChat.AppendTool(old(State()), b, key)
      ensures steps == old(steps) && thread == old(thread)
    {
      var at := |conversation|;
      conversation := conversation + [b];
      if TruthyStr(key) {
        inProgress := Assign(inProgress, key, at);
      }
    }

    /** The bing_grounding branch of `upsert_tool_call`. */
    method UpsertBingCall(arguments: Json, key: Option<string>) returns (raised: Option<PyError>)
      requires Valid()
      modifies this
      ensures Valid()
      ensures Step(State(), raised) == UpsertBing(variant, old(State()), arguments, key)
      ensures steps == old(steps) && thread == old(thread)
    {
      ghost var spec := UpsertBing(variant, State(), arguments, key);
      if !arguments.JDict? {
        return Some(AttributeError("get"));
      }
      var fields := arguments.fields;
      var metadata := ResponseMetadata(fields);
      var pending: Option<nat> := None;
      if !TruthyStr(key) {
        pending := FindBingPending();
      }
      if pending.Some? && Truthy(metadata) {
        CompleteBingAt(inProgress[pending.value].at, metadata);
        assert State() == spec.chat;
        return None;
      }
      if !UrlUsable(fields) {
        return Some(AttributeError("decode"));
      }
      var query := BingQuery.ExtractBingQuery(RequestUrl(fields));
      if pending.Some? {
        var at := inProgress[pending.value].at;
        conversation := conversation[at := conversation[at].(content := Text(query))];
        assert State() == spec.chat;
        return None;
      }
      AppendTool(Bubble(Assistant, Text(query),
        Metadata(Some(Title(variant, BingGrounding)), Some(Pending), Some(LogText(BingGrounding)), Some(ToolId(key)))), key);
      assert State() == spec.chat;
      return None;
    }

    /** A matched bing bubble is marked done with the dumped metadata, and its "tool-..." id is popped. */
    method CompleteBingAt(at: nat, metadata: Json)
      requires Valid() && at < |conversation|
      modifies this
      ensures Valid()
      ensures Step(State(), None) == CompleteBing(old(State()), at, metadata)
      ensures steps == old(steps) && thread == old(thread)
    {
      var b := conversation[at];
      var popKey := Some(if b.metadata.id.Some? then b.metadata.id.value else "tool-noid");
      conversation := conversation[at := b.(metadata := b.metadata.(log := Some(LogJson(metadata)), status := Some(Done)))];
      inProgress := Pop(inProgress, popKey);
    }

    /** The function_result branch: the registered bubble is marked done and its key popped. */
    method CompleteToolCall(key: Option<string>) returns (raised: Option<PyError>)
      requires Valid()
      modifies this
      ensures Valid()
      ensures Step(State(), raised) == CompleteCall(old(State()), key)
      ensures steps == old(steps) && thread == old(thread)
    {
      ghost var spec := CompleteCall(State(), key);
      var found := Lookup(inProgress, key);
      if found.None? {
        return Some(KeyError(StrOf(key)));
      }
      var at := found.value;
      assert Entry(key, at) in inProgress;
      var b := conversation[at];
      conversation := conversation[at := b.(metadata := b.metadata.(status := Some(Done)))];
      inProgress := Pop(inProgress, key);
      assert State() == spec.chat;
      return None;
    }

    /** `upsert_tool_call`. */
    method UpsertToolCall(item: ToolItem) returns (raised: Option<PyError>)
      requires Valid()
      modifies this
      ensures Valid()
      ensures Step(State(), raised) == Upsert(variant, old(State()), item)
      ensures steps == old(steps) && thread == old(thread)
    {
      var fname := OrElse(item.functionName, item.name);
      var key := OrElse(item.callId, item.id);
      if fname == Some(BingGrounding) {
        raised := UpsertBingCall(item.arguments, key);
        return;
      } else if fname == Some(FileSearch) {
        AppendTool(Bubble(Assistant, Text("searching docs..."),
          Metadata(Some(Title(variant, FileSearch)), Some(Pending), None, Some(ToolId(key)))), key);
        return None;
      } else if item.contentType == FunctionResultType {
        raised := CompleteToolCall(key);
        return;
      } else if item.contentType != FunctionCallType {
        return None;
      }
      var at := |conversation|;
      AssignWf(inProgress, key, at, at + 1);
      conversation := conversation + [CallBubble(variant, item, key)];
      inProgress := Assign(inProgress, key, at);
      return None;
    }

    /** One item of an intermediate step: only tool items are upserted. */
    method HandleStepItem(item: StepItem) returns (raised: Option<PyError>)
      requires Valid()
      modifies this
      ensures Valid()
      ensures Step(State(), raised) == ApplyStepItem(variant, old(State()), item)
      ensures steps == old(steps) && thread == old(thread)
    {
      if item.ToolStep? {
        raised := UpsertToolCall(item.tool);
      } else {
        raised := None;
      }
    }

    /** The loop of `handle_streaming_intermediate_steps` over the step's items, in order, until one raises. */
    method UpsertStepItems(items: seq<StepItem>) returns (raised: Option<PyError>)
      requires Valid()
      modifies this
      ensures Valid()
      ensures Step(State(), raised) == ApplyStep(variant, old(State()), items)
      ensures steps == old(steps) && thread == old(thread)
    {
      ghost var goal := ApplyStep(variant, State(), items);
      var i := 0;
      while i < |items|
        invariant 0 <= i <= |items|
        invariant Valid()
        invariant goal == ApplyStep(variant, State(), items[i..])
        invariant steps == old(steps) && thread == old(thread)
      {
        assert items[i..][0] == items[i] && items[i..][1..] == items[i + 1..];
        ghost var before := State();
        raised := HandleStepItem(items[i]);
        ApplyStepCons(variant, before, items[i..], Step(State(), raised));
        if raised.Some? {
          return;
        }
        i := i + 1;
      }
      raised := None;
    }

    /** `handle_streaming_intermediate_steps`: records the step, then upserts its tool items in order. */
    method HandleIntermediateStep(items: seq<StepItem>) returns (raised: Option<PyError>)
      requires Valid()
      modifies this
      ensures Valid()
      ensures Step(State(), raised) == ApplyStep(variant, old(State()), items)
      ensures steps == (if variant.logsSteps then old(steps) + [items] else old(steps))
      ensures thread == old(thread)
    {
      if variant.logsSteps {
        steps := steps + [items];
      }
      raised := UpsertStepItems(items);
    }

    /** The search over `reversed(conversation)` for an assistant bubble carrying `msgId`. */
    method FindById(msgId: string) returns (found: Option<nat>)
      ensures found == AgentChat.FindById(conversation, msgId)
    {
      found := None;
      var i := |conversation|;
      while i > 0 && found.None?
        invariant 0 <= i <= |conversation|
        invariant found.None? ==> forall j | i <= j < |conversation| :: !Carries(conversation[j], msgId)
        invariant found.Some? ==> found.value == i < |conversation| && Carries(conversation[i], msgId)
        invariant found.Some? ==> forall j | i < j < |conversation| :: !Carries(conversation[j], msgId)
      {
        i := i - 1;
        if Carries(conversation[i], msgId) {
          found := Some(i);
        }
      }
      var spec := AgentChat.FindById(conversation, msgId);
      if found.Some? && spec.Some? {
        assert !(found.value < spec.value) && !(spec.value < found.value);
      }
    }

    /** `bubble.content += t` on the bubble at `at`. */
    method AppendTextAt(at: nat, t: string) returns (raised: Option<PyError>)
      requires Valid() && at < |conversation|
      modifies this
      ensures Valid()
      ensures Step(State(), raised) == AppendText(old(State()), at, t)
      ensures steps == old(steps) && thread == old(thread)
    {
      var b := conversation[at];
      match b.content
      case Text(s) =>
        conversation := conversation[at := b.(content := Text(s + t))];
        raised := None;
      case Value(JList(items)) =>
        conversation := conversation[at := b.(content := Value(JList(items + Chars(t))))];
        raised := None;
      case _ =>
        raised := Some(TypeError("+="));
    }

    /** A StreamingTextContent item of the response whose uuid is `msgId`. */
    method HandleStreamingText(msgId: string, text: Option<string>) returns (raised: Option<PyError>)
      requires Valid()
      modifies this
      ensures Valid()
      ensures Step(State(), raised) == OnStreamingText(variant, old(State()), msgId, text)
      ensures steps == old(steps) && thread == old(thread)
    {
      var t := OrEmpty(text);
      var found := FindById(msgId);
      if found.Some? {
        raised := AppendTextAt(found.value, t);
      } else if TailTakesText(variant, conversation) {
        raised := AppendTextAt(|conversation| - 1, t);
      } else {
        conversation := conversation + [Bubble(Assistant, Text(t), NoMetadata)];
        raised := None;
      }
    }

    /** A StreamingAnnotationContent item. */
    method HandleAnnotation(title: Option<string>, url: Option<string>) returns (raised: Option<PyError>)
      requires Valid()
      modifies this
      ensures Valid()
      ensures Step(State(), raised) == OnAnnotation(variant, old(State()), title, url)
      ensures steps == old(steps) && thread == old(thread)
    {
      if conversation != [] && conversation[|conversation| - 1].role == Assistant {
        lastMsg := Some(|conversation| - 1);
      }
      if lastMsg.None? {
        return Some(NameError("last_msg"));
      }
      var at := lastMsg.value;
      var b := conversation[at];
      if !b.content.Text? {
        return Some(AttributeError("endswith"));
      }
      var s := b.content.text;
      if EndsWith(s, variant.closeMarker) {
        var start := RFind(s, variant.openMarker);
        var link := variant.openMarker + Link(title, url) + variant.closeMarker;
        conversation := conversation[at := b.(content := Text(SliceTo(s, start) + link))];
      }
      return None;
    }

    /** One item of a response. */
    method HandleItem(msgId: string, item: StreamItem) returns (raised: Option<PyError>)
      requires Valid()
      modifies this
      ensures Valid()
      ensures Step(State(), raised) == ApplyItem(variant, old(State()), msgId, item)
      ensures steps == old(steps) && thread == old(thread)
    {
      match item
      case AnnotationItem(title, url) =>
        raised := HandleAnnotation(title, url);
      case FileReferenceItem =>
        if variant.downloadsFiles {
          conversation := conversation + [Bubble(Assistant, Image, NoMetadata)];
        }
        raised := None;
      case StreamingTextItem(text) =>
        raised := HandleStreamingText(msgId, text);
      case TextItem(text) =>
        if TruthyStr(text) {
          conversation := conversation + [Bubble(Assistant, Text(text.value), NoMetadata)];
        }
        raised := None;
      case _ =>
        raised := None;
    }

    /** The first of `items` and the yield that follows it, as one unfolding of RunItems. */
    method HandleFirstItem(msgId: string, items: seq<StreamItem>) returns (shown: seq<seq<Bubble>>, raised: Option<PyError>)
      requires Valid() && items != []
      modifies this
      ensures Valid()
      ensures var all := RunItems(variant, old(State()), msgId, items);
              var rest := RunItems(variant, State(), msgId, items[1..]);
              all == if raised.Some? then (State(), [], raised) else (rest.0, shown + rest.1, rest.2)
      ensures steps == old(steps) && thread == old(thread)
    {
      raised := HandleItem(msgId, items[0]);
      shown := if raised.None? && YieldsAfter(items[0]) then [conversation] else [];
    }

    /** The loop over one response's items; returns the conversations it yields. */
    method HandleResponse(msgId: string, items: seq<StreamItem>) returns (shown: seq<seq<Bubble>>, raised: Option<PyError>)
      requires Valid()
      modifies this
      ensures Valid()
      ensures (State(), shown, raised) == RunItems(variant, old(State()), msgId, items)
      ensures steps == old(steps) && thread == old(thread)
    {
      shown := [];
      raised := None;
      var i := 0;
      ghost var all := RunItems(variant, old(State()), msgId, items);
      assert items[0..] == items;
      assert shown + all.1 == all.1;
      while i < |items|
        invariant 0 <= i <= |items|
        invariant Valid()
        invariant var rest := RunItems(variant, State(), msgId, items[i..]);
                  all == (rest.0, shown + rest.1, rest.2)
        invariant raised.None?
        invariant steps == old(steps) && thread == old(thread)
      {
        assert items[i..][1..] == items[i + 1..];
        var more;
        more, raised := HandleFirstItem(msgId, items[i..]);
        if raised.Some? {
          assert shown + [] == shown;
          return;
        }
        ghost var after := RunItems(variant, State(), msgId, items[i + 1..]);
        assert shown + (more + after.1) == (shown + more) + after.1;
        shown := shown + more;
        i := i + 1;
      }
      assert RunItems(variant, State(), msgId, items[i..]) == (State(), [], None);
      assert shown + [] == shown;
    }

    /** One event: an intermediate step through the callback, or a response and its items. */
    method HandleEvent(e: Event, shown0: seq<seq<Bubble>>) returns (shown: seq<seq<Bubble>>, raised: Option<PyError>)
      requires Valid()
      modifies this
      ensures Valid()
      ensures var o := RunEvent(variant, Outcome(old(State()), shown0, None, old(thread), old(steps)), e);
              o == Outcome(State(), shown, raised, thread, steps)
    {
      match e
      case Intermediate(items) =>
        shown := shown0;
        raised := HandleIntermediateStep(items);
      case Response(t, msgId, items) =>
        thread := t;
        var more;
        more, raised := HandleResponse(msgId, items);
        shown := shown0 + more;
    }

    /** The stream: each event in order until one raises. */
    method Run(events: seq<Event>) returns (shown: seq<seq<Bubble>>, raised: Option<PyError>)
      requires Valid()
      modifies this
      ensures Valid()
      ensures var o := RunEvents(variant, Outcome(old(State()), [], None, old(thread), old(steps)), events);
              && State() == o.chat && shown == o.snapshots && raised == o.raised
              && thread == o.thread && steps == o.steps
    {
      shown := [];
      raised := None;
      var i := 0;
      ghost var goal := RunEvents(variant, Outcome(State(), [], None, thread, steps), events);
      assert events[0..] == events;
      while i < |events| && raised.None?
        invariant 0 <= i <= |events|
        invariant Valid()
        invariant goal == RunEvents(variant, Outcome(State(), shown, raised, thread, steps), events[i..])
        decreases |events| - i
      {
        assert events[i..][1..] == events[i + 1..];
        RunEventsCons(variant, Outcome(State(), shown, raised, thread, steps), events[i..]);
        shown, raised := HandleEvent(events[i], shown);
        i := i + 1;
      }
      RunEventsStop(variant, Outcome(State(), shown, raised, thread, steps), events[i..]);
    }
  }
}
