# agents-workshop glue logic in Dafny

This project models the logic that sits between the AI agents of the
agents-workshop repository and its user interfaces, and proves properties of
it. The agent services, the identity provider, the user interfaces and the
operating system are not modelled. What they answer is passed in as
parameters, and what they are asked for is returned as values.

The modules:

- **Stream reconciliation, in both Gradio chat apps** (`gradio_app/agent_chat.py` and `gradio-app/agent_chat.py`).
  - The agent streams tool calls, tool results, text deltas and citations. These are folded into the chat transcript shown to the user.
  - `AgentChat` holds the specification functions over a `Chat` value:
    - the conversation;
    - the in-progress tool map, as an insertion-ordered list of keys and bubble positions;
    - `last_msg`.
  - `Reconciler.Transcript` is the imperative version. It is a class whose methods update these locals in place. Each method is proved equal to the function that specifies it.
  - `AgentChatFacts` proves what the code promises, including its quirks:
    - the bing completion pops a key the map does not use;
    - file_search results append a second bubble;
    - with no opening marker, the citation rewrite cuts only the last character;
    - gradio_app's mis-encoded markers make the opening marker a prefix of the closing one.
  - The two files differ in the ways listed below. A `Variant` value selects between them:
    - gradio_app requires string content at the tail;
    - gradio_app downloads file references;
    - gradio-app records intermediate steps;
    - the title tables and citation markers differ.
- **`BingQuery`**: `extract_bing_query`, with a round trip from search terms to URL and back.
- **`AuthEnterpriseChat` and `BasicEnterpriseChat`**: the two `EnterpriseChat` classes.
  - The outgoing user message of each.
  - The Stack Overflow token filter of the authenticated one.
  - `azure_enterprise_chat` as a method proved equal to `AgentChat.Converse`.
- **`ChatHistory`, `AuthChatApp` and `BasicChatApp`**: the two `app.py` front ends.
  - The user's turn appended to the history.
  - The per-session registry of chats, or the lazy singleton.
  - Thread reset.
  - The placeholder bubble.
- **`OnBehalfOfChat`**: the Streamlit page of the on-behalf-of sample.
  - The splitter that turns a stored message into markdown, code and LaTeX blocks. It is a loop proved equal to a left fold.
  - The `@mention` agent switch.
  - The session history updates.
- **`FunctionLogFilter`**: the auto-function-invocation filter of the simple-tools sample kernel. It covers redaction, truncation and the status it logs.
- **`ChatWithAgentBase`**: the streaming helper of the demo app, with the order of its callbacks.
- **`MsalAuth`**: configuration checks, ID-token claims, the expiry test and the refresh-or-clear decision of `ensure_valid_token`, both on session values and as methods on a session object. Refresh follows section 6 of RFC 6749.
- **`AuthServer`**: the session store and the login, callback, home, status and logout handlers. The callback checks `state` as section 10.12 of RFC 6749 asks.
- **`AzdEnv` and `SetupAgent`**: default-environment selection for the Azure Developer CLI, and the create-or-update provisioning of the demo agents.

Python semantics the model spells out:
- truthiness;
- `or`;
- `str(None)`;
- `dict.get`;
- `d[k]` raising `KeyError`;
- `+` on numbers, strings and lists;
- `x == 0` being true for `False`;
- `split`, `strip`, `lower`, `rfind` and slicing with `-1`.

Exceptions are values of type `PyError`.

## Model

| member | source | states |
|---|---|---|
| AgentChat.Lookup | gradio_app/agent_chat.py:218 | `in_progress_tools[key]`: found exactly when some entry has that key, and then it is the position stored with it |
| AgentChat.Title | gradio_app/agent_chat.py:136-137 | `get_function_title`: a name in the table gets its table title; any other name gets the fallback prefix followed by exactly that name |
| AgentChat.Assign | gradio_app/agent_chat.py:238 | assignment keeps an existing key in its place and puts a new key last; the keys stay unique |
| AgentChat.Pop | gradio_app/agent_chat.py:168-170 | `pop(key, None)` removes exactly the entry with that key and keeps the others in order |
| AgentChat.Start | gradio_app/agent_chat.py:116-124 | a call starts from the converted history with an empty map and `last_msg` unbound |
| AgentChat.UpsertBing | gradio_app/agent_chat.py:151-199 | the bing branch keeps the map well formed, never removes or reorders bubbles, and changes nothing when it raises |
| AgentChat.CompleteCall | gradio_app/agent_chat.py:217-220 | the function_result branch raises exactly when the key is not registered, and then changes nothing |
| AgentChat.FirstBingPending | gradio_app/agent_chat.py:157-161 | the merge search gives the first entry, in insertion order, whose bubble's log is "bing_grounding", and None when there is none |
| AgentChat.CompleteBing | gradio_app/agent_chat.py:163-171 | the matched bing bubble alone changes: status "done" and log the dumped metadata, with role, content, title and id kept; the map loses the entry keyed by the bubble's "tool-…" id (or "tool-noid"), not its raw call id, and stays well formed |
| AgentChat.AppendTool | gradio_app/agent_chat.py:186-199 | appends one bubble and registers it only under a truthy key |
| AgentChat.Upsert | gradio_app/agent_chat.py:139-238 | `upsert_tool_call` keeps the map well formed and never removes or reorders bubbles |
| AgentChat.FindByIdBelow | gradio_app/agent_chat.py:404-412 | the reversed search finds the last assistant bubble carrying the response's id |
| AgentChat.AppendText | gradio_app/agent_chat.py:416-435 | `content += text` changes only the one bubble, keeps its metadata, leaves map and `last_msg` alone, and changes nothing when it raises |
| AgentChat.OnStreamingText | gradio_app/agent_chat.py:398-437 | a text delta keeps the map well formed and only extends the conversation |
| AgentChat.OnText | gradio_app/agent_chat.py:438-444 | a truthy text opens exactly one assistant bubble holding that text, without metadata; a falsy text changes nothing; neither raises |
| AgentChat.OnAnnotation | gradio_app/agent_chat.py:352-366 | an annotation only rewrites text in place and never adds or removes bubbles |
| AgentChat.Cite | gradio_app/agent_chat.py:360-366 | the rewritten text is a prefix of the old text followed by `open + "[title](url)" + close`; CiteCutsAtLastMarker says where the prefix ends, and BasicCitationReplaced, AuthCitationKeepsText and NoOpeningMarkerCutsLastChar give the concrete shapes |
| AgentChat.OnFileReference | gradio_app/agent_chat.py:376-396 | never raises; the downloading variant appends exactly one image bubble, the other variant changes nothing |
| AgentChat.ApplyItem | gradio_app/agent_chat.py:332-449 | one response item keeps the transcript well formed and extends it |
| AgentChat.ApplyStep | gradio_app/agent_chat.py:240-257 | `handle_streaming_intermediate_steps` passes only tool items to `upsert_tool_call` and stops at an exception |
| AgentChat.RunItems | gradio-app/agent_chat.py:230-323 | the items of one response stop at the first exception; without one there is exactly one yield per text delta and per truthy text |
| AgentChat.RunEvent | gradio-app/agent_chat.py:184-185 | a step is appended to the log exactly when the variant records steps and the event is a step; the transcript stays well formed and only grows |
| AgentChat.RunEvents | gradio-app/agent_chat.py:182-323 | the stream in order, stopping at the first exception, only ever extending the conversation; without an exception the recording variant has logged every intermediate step in arrival order and the other none |
| AgentChat.Converse | gradio_app/agent_chat.py:315-451 | every history bubble keeps its place and role; without an exception the last yield is the final conversation, and the step log holds every intermediate step in order in the recording variant and nothing in the other |
| AgentChatFacts.AssignLookup | gradio_app/agent_chat.py:238 | after `d[key] = at`, `key` maps to `at` and every other key keeps its value |
| AgentChatFacts.PopLookup | gradio_app/agent_chat.py:219 | after `d.pop(key)`, `key` is absent and every other key keeps its value |
| AgentChatFacts.PopKeeps | gradio_app/agent_chat.py:168-170 | pop keeps every entry under another key |
| AgentChatFacts.FunctionCallOpensPendingBubble | gradio_app/agent_chat.py:228-238 | a function_call appends exactly one pending bubble: content `arguments or ""`, id "tool-"+key, title from the table or the fallback, registered under the key |
| AgentChatFacts.FunctionResultCompletes | gradio_app/agent_chat.py:217-220 | a function_result for a registered key marks its bubble done and removes the key; an unregistered key raises KeyError and changes nothing |
| AgentChatFacts.OtherContentTypesChangeNothing | gradio_app/agent_chat.py:221-223 | any other content type leaves conversation and map unchanged |
| AgentChatFacts.FileSearchAlwaysAppends | gradio_app/agent_chat.py:202-215 | file_search always appends a new pending bubble, registered only under a truthy key |
| AgentChatFacts.BingWithCallIdAppends | gradio_app/agent_chat.py:157-199 | a bing event with a call id skips the merge search and appends a pending bubble registered under that id |
| AgentChatFacts.IdlessBingIsNotRegistered | gradio_app/agent_chat.py:186-199 | an id-less bing event with no pending match appends a "tool-noid" bubble that is never registered |
| AgentChatFacts.BingCompletionKeepsEntry | gradio_app/agent_chat.py:163-171 | bing completion marks the matched bubble done with the dumped metadata, but the pop by "tool-…" id leaves the raw key in the map |
| AgentChatFacts.BingMatchWithoutMetadataStaysPending | gradio_app/agent_chat.py:173-184 | a matched bing bubble without response metadata takes the extracted query and stays pending |
| AgentChatFacts.ToolIdsArePrefixed | gradio_app/agent_chat.py:193 | every tool bubble id starts with "tool-" |
| AgentChatFacts.UpsertKeepsIdFresh | gradio_app/agent_chat.py:139-238 | no tool item gives a bubble the response's fresh uuid |
| AgentChatFacts.StreamingTextKeepsIds | gradio_app/agent_chat.py:398-436 | a text delta keeps every bubble's metadata and adds bubbles without an id |
| AgentChatFacts.AnnotationKeepsIds | gradio_app/agent_chat.py:352-366 | an annotation keeps every bubble's metadata |
| AgentChatFacts.ApplyItemKeepsIdFresh | gradio_app/agent_chat.py:331-449 | no response item gives a bubble the response's fresh uuid |
| AgentChatFacts.ResponseNeverMatchesById | gradio_app/agent_chat.py:331-412 | within a response the id-keyed search never matches, since nothing ever carries the fresh uuid |
| AgentChatFacts.StreamingTextPlacement | gradio_app/agent_chat.py:414-435 | an unmatched delta joins the tail when the tail is an assistant bubble without a "tool-" id (string content in gradio_app), and otherwise opens a new assistant bubble |
| AgentChatFacts.StringTailOnlyNeverRaises | gradio_app/agent_chat.py:428 | in gradio_app an unmatched delta never raises |
| AgentChatFacts.TextItems | gradio-app/agent_chat.py:273-311 | the stream items of a list of text deltas |
| AgentChatFacts.TextDeltasConcatenate | gradio-app/agent_chat.py:273-311 | deltas arriving at a tail that takes text are concatenated onto it in order, with one yield per delta |
| AgentChatFacts.AnnotationRewritesTail | gradio_app/agent_chat.py:354-366 | an annotation rewrites an assistant tail ending with the closing marker, and binds `last_msg` to it |
| AgentChatFacts.AnnotationUsesBoundLastMsg | gradio_app/agent_chat.py:354-358 | with a non-assistant tail an annotation uses the previously bound `last_msg`, or raises NameError when none is bound |
| AgentChatFacts.CiteCutsAtLastMarker | gradio_app/agent_chat.py:360-366 | the kept prefix ends at the last opening marker, or, with none, rfind's -1 cuts only the last character |
| AgentChatFacts.RFindChar | gradio-app/agent_chat.py:254 | `rfind` of one character is its last position |
| AgentChatFacts.BasicCitationReplaced | gradio-app/agent_chat.py:253-256 | a trailing `【…】` citation is replaced by `【[title](url)】` |
| AgentChatFacts.AuthCitationKeepsText | gradio_app/agent_chat.py:360-366 | with the mis-encoded markers only the closing marker is replaced and the citation text is kept |
| AgentChatFacts.NoOpeningMarkerCutsLastChar | gradio_app/agent_chat.py:361-365 | with no opening marker rfind gives -1 and only the last character is cut |
| AgentChatFacts.SnapshotsOnlyGrow | gradio_app/agent_chat.py:437-444 | what has been yielded is never retracted |
| AgentChatFacts.RunItemsSnoc | gradio_app/agent_chat.py:332-444 | one more item: after an earlier exception nothing changes; if the item raises, the earlier yields stand; otherwise its yield, if any, comes last |
| AgentChatFacts.LastYieldIsFinal | gradio_app/agent_chat.py:432-444 | when a response's last item yields and nothing raised, the last yield is the conversation the response leaves |
| AgentChatFacts.UpsertAnchored | gradio_app/agent_chat.py:139-238 | a tool item touches only bubbles the in-progress map holds or appends new ones, never a bubble before them |
| AgentChatFacts.ApplyStepAnchored | gradio_app/agent_chat.py:240-257 | an intermediate step never touches a bubble before those the map holds |
| AgentChatFacts.StreamingTextAnchored | gradio_app/agent_chat.py:398-437 | a text delta whose uuid no earlier bubble carries changes only the last bubble or appends one |
| AgentChatFacts.AnnotationAnchored | gradio_app/agent_chat.py:352-366 | an annotation rewrites only the last bubble or the one `last_msg` was bound to |
| AgentChatFacts.ApplyItemAnchored | gradio_app/agent_chat.py:332-444 | no response item touches a bubble before the last one it started from |
| AgentChatFacts.RunItemsAnchored | gradio_app/agent_chat.py:331-444 | a whole response keeps every earlier bubble but the last unchanged |
| AgentChatFacts.RunEventAnchored | gradio_app/agent_chat.py:315-444 | one event, step or response, keeps those bubbles unchanged |
| AgentChatFacts.RunEventsAnchored | gradio_app/agent_chat.py:315-449 | so does the whole stream, as long as every response's uuid is fresh |
| AgentChatFacts.ConverseKeepsHistory | gradio_app/agent_chat.py:315-451 | with `uuid4` response ids that no history bubble carries, every history bubble but the last leaves the run unchanged |
| AgentChatFacts.CallThenResult | gradio_app/agent_chat.py:127-238 | a fetch_weather call then its result leaves one done bubble titled from the table and an empty map |
| Reconciler.Transcript.constructor | gradio_app/agent_chat.py:116-124 | the locals start as `AgentChat.Start` |
| Reconciler.Transcript.FindBingPending | gradio_app/agent_chat.py:157-161 | the loop with `break` computes `FirstBingPending` |
| Reconciler.Transcript.AppendTool | gradio_app/agent_chat.py:196-198 | the in-place append performs `AgentChat.AppendTool` |
| Reconciler.Transcript.UpsertBingCall | gradio_app/agent_chat.py:151-199 | the in-place bing branch performs `AgentChat.UpsertBing` |
| Reconciler.Transcript.CompleteToolCall | gradio_app/agent_chat.py:217-220 | the in-place function_result branch performs `AgentChat.CompleteCall` |
| Reconciler.Transcript.UpsertToolCall | gradio_app/agent_chat.py:139-238 | the in-place update performs `AgentChat.Upsert` |
| Reconciler.Transcript.CompleteBingAt | gradio_app/agent_chat.py:163-171 | the in-place merge of a bing response into its pending bubble performs `AgentChat.CompleteBing` |
| AgentChat.ApplyStepItem | gradio_app/agent_chat.py:241-257 | an item that is neither a function call nor a function result leaves the chat unchanged |
| Reconciler.Transcript.HandleStepItem | gradio_app/agent_chat.py:241-257 | one item of a step is upserted in place as `AgentChat.ApplyStepItem` says |
| Reconciler.Transcript.UpsertStepItems | gradio_app/agent_chat.py:241-257 | the in-place loop over a step's items performs `AgentChat.ApplyStep` |
| Reconciler.Transcript.HandleIntermediateStep | gradio-app/agent_chat.py:184-196 | the callback performs `AgentChat.ApplyStep` and logs the step in the recording variant |
| Reconciler.Transcript.FindById | gradio_app/agent_chat.py:404-412 | the reversed loop computes `FindById` |
| Reconciler.Transcript.AppendTextAt | gradio_app/agent_chat.py:416-435 | `content += text` performs `AgentChat.AppendText` |
| Reconciler.Transcript.HandleStreamingText | gradio_app/agent_chat.py:398-436 | performs `AgentChat.OnStreamingText` |
| Reconciler.Transcript.HandleAnnotation | gradio_app/agent_chat.py:352-366 | performs `AgentChat.OnAnnotation` |
| Reconciler.Transcript.HandleItem | gradio_app/agent_chat.py:340-449 | performs `AgentChat.ApplyItem` |
| Reconciler.Transcript.HandleFirstItem | gradio_app/agent_chat.py:332-449 | one pass of the item loop, with its yield |
| Reconciler.Transcript.HandleResponse | gradio_app/agent_chat.py:331-449 | the item loop performs `AgentChat.RunItems` |
| Reconciler.Transcript.HandleEvent | gradio_app/agent_chat.py:315-331 | one event of the stream performs `AgentChat.RunEvent` |
| Reconciler.Transcript.Run | gradio_app/agent_chat.py:315-449 | the `async for` loop performs `AgentChat.RunEvents` |
| BingQuery.PlusToSpace | gradio_app/agent_chat.py:461 | '+' decodes to a space and nothing else changes |
| BingQuery.FirstValue | gradio_app/agent_chat.py:460-462 | the value of the first pair under the name, no earlier pair having that name; None exactly when no pair has the name |
| BingQuery.PairsOfNonEmpty | gradio-app/agent_chat.py:336-337 | every pair the query parser keeps has a non-empty value, so a present "q" field is always taken |
| BingQuery.ExtractBingQuery | gradio-app/agent_chat.py:329-338 | a URL whose query has a "q" field gives that first field's value with '+' decoded (parse_qs keeps only non-empty values, PairsOfNonEmpty); a URL whose query has no "q" field is returned unchanged; NoQueryReturnsUrl, NoQuestionMarkReturnsUrl and ExtractRoundTrip are its lemmas |
| BingQuery.SpaceToPlus | gradio_app/agent_chat.py:461 | the encoding that `PlusToSpace` inverts |
| BingQuery.NoQueryReturnsUrl | gradio_app/agent_chat.py:455-464 | a URL whose query keeps no "q" field is returned unchanged |
| BingQuery.NoQuestionMarkReturnsUrl | gradio_app/agent_chat.py:459-464 | a URL without '?' has an empty query and is returned unchanged |
| BingQuery.ExtractRoundTrip | gradio-app/agent_chat.py:329-338 | search terms without '&', '#', '+' or '%' written into `base?q=…` are extracted back unchanged |
| BingQuery.QueryOfSingleQuery | gradio_app/agent_chat.py:459 | the query component of `base?q=v` is `q=v` |
| BingQuery.PairsOfSingleField | gradio_app/agent_chat.py:460 | a single `name=value` field parses to that pair |
| AuthEnterpriseChat.AuthFunctionFilter | gradio_app/agent_chat.py:62-86 | other plugins pass through unchanged; with a token it is injected into kwargs before `next`; without one `next` is not called and the result becomes the authentication message with terminate set |
| AuthEnterpriseChat.Outgoing | gradio_app/agent_chat.py:258-311 | the message text is the user's text or ""; only the first file is looked at, and it becomes an image item iff its lower-cased name ends with an image extension |
| AuthEnterpriseChat.EnterpriseChat.constructor | gradio_app/agent_chat.py:46-60 | a chat starts with its thread and an empty token |
| AuthEnterpriseChat.EnterpriseChat.SetStackToken | gradio_app/agent_chat.py:88-93 | stores the token and nothing else |
| AuthEnterpriseChat.EnterpriseChat.ResetThread | gradio_app/agent_chat.py:95-101 | replaces the thread and nothing else |
| AuthEnterpriseChat.EnterpriseChat.AzureEnterpriseChat | gradio_app/agent_chat.py:103-451 | sends `Outgoing(...)`; yields, raises and ends on the thread that `Converse` gives; the token is unchanged |
| BasicEnterpriseChat.Outgoing | gradio-app/agent_chat.py:198-210 | the message text is the user's text or "", with one image item per file, in order |
| BasicEnterpriseChat.EnterpriseChat.constructor | gradio-app/agent_chat.py:30-35 | a chat starts with its thread |
| BasicEnterpriseChat.EnterpriseChat.ResetThread | gradio-app/agent_chat.py:37-43 | replaces the thread and nothing else |
| BasicEnterpriseChat.EnterpriseChat.AzureEnterpriseChat | gradio-app/agent_chat.py:45-325 | builds the image items in a loop; yields, raises, steps and thread as `Converse` gives them |
| ChatHistory.UserTurn | gradio_app/app.py:94-97 | the history is a prefix, then one path message per file in order, then the text when it is not None |
| ChatHistory.AppendUserTurn | gradio-app/app.py:66-69 | the appending loop computes `UserTurn` |
| AuthChatApp.Greeting | gradio_app/app.py:10-13 | "Hello, **name**!" for a truthy user name, "Hello, **Guest**!" otherwise |
| AuthChatApp.SessionToken | gradio_app/app.py:18-20 | the session's "stackoverflow_token", or None when there is no session or no such key |
| AuthChatApp.Registry.constructor | gradio_app/app.py:16-50 | the registry starts empty |
| AuthChatApp.Registry.SetEnterpriseChat | gradio_app/app.py:16-50 | a known session keeps its chat and thread and gets the new token; a new session gets a fresh chat holding the token |
| AuthChatApp.Registry.ClearThread | gradio_app/app.py:82-86 | an unknown session raises AttributeError; a known one gets a new thread and the chat shows [] |
| AuthChatApp.Registry.ChatWithAgent | gradio_app/app.py:93-112 | first yields the user's turn plus the pending placeholder; an unknown session raises AttributeError; otherwise the yields are those of `Converse` |
| BasicChatApp.App.constructor | gradio-app/app.py:9-23 | no chat exists yet |
| BasicChatApp.App.GetEnterpriseChat | gradio-app/app.py:9-23 | creates the chat once and returns the same one afterwards |
| BasicChatApp.App.ClearThread | gradio-app/app.py:55-58 | raises AttributeError before any chat exists; otherwise resets the thread and shows [] |
| BasicChatApp.App.ChatWithAgent | gradio-app/app.py:65-76 | first yields the user's turn; then the yields of `Converse` on the singleton's thread |
| OnBehalfOfChat.FenceLanguage | agents-workshop/03-building-custom-tools/03.5.on-behalf-of/chat.py:221 | the fence's language, or "python" when the rest of the line is blank |
| OnBehalfOfChat.Flush | agents-workshop/03-building-custom-tools/03.5.on-behalf-of/chat.py:201-205 | pending lines become one markdown block joined by newlines, and the list empties |
| OnBehalfOfChat.RenderMessage | agents-workshop/03-building-custom-tools/03.5.on-behalf-of/chat.py:207-266 | the display loop shows exactly `Blocks(msg)` |
| OnBehalfOfChat.FlushMarkdown | agents-workshop/03-building-custom-tools/03.5.on-behalf-of/chat.py:201-205 | `flush_markdown` on the loop's variables |
| OnBehalfOfChat.FeedAllAppend | agents-workshop/03-building-custom-tools/03.5.on-behalf-of/chat.py:214 | the loop over two lists in turn is the loop over their concatenation |
| OnBehalfOfChat.SingleLineRules | agents-workshop/03-building-custom-tools/03.5.on-behalf-of/chat.py:249-264 | outside both modes: a backquoted line is shown as code, a `$…$` or `[…]` line as LaTeX, and anything else is kept as markdown |
| OnBehalfOfChat.CodeModeKeepsLines | agents-workshop/03-building-custom-tools/03.5.on-behalf-of/chat.py:227-229 | in code mode every non-fence line is kept verbatim |
| OnBehalfOfChat.CodeBody | agents-workshop/03-building-custom-tools/03.5.on-behalf-of/chat.py:227-229 | a code body without fences is buffered and nothing is shown |
| OnBehalfOfChat.FencedBlock | agents-workshop/03-building-custom-tools/03.5.on-behalf-of/chat.py:217-226 | a fenced block shows pending markdown, then one code block with the body and the fence's language |
| OnBehalfOfChat.UnclosedCodeIsDropped | agents-workshop/03-building-custom-tools/03.5.on-behalf-of/chat.py:217-266 | an unclosed fence drops everything after it |
| OnBehalfOfChat.LatexModeKeepsLines | agents-workshop/03-building-custom-tools/03.5.on-behalf-of/chat.py:245-246 | in LaTeX mode every line that toggles neither mode is kept verbatim |
| OnBehalfOfChat.LatexBody | agents-workshop/03-building-custom-tools/03.5.on-behalf-of/chat.py:245-246 | a LaTeX body of lines that toggle neither mode is buffered and nothing is shown |
| OnBehalfOfChat.OpenLatex | agents-workshop/03-building-custom-tools/03.5.on-behalf-of/chat.py:237-240 | an opening toggle outside both modes shows the pending markdown and starts an empty LaTeX buffer |
| OnBehalfOfChat.LatexBlock | agents-workshop/03-building-custom-tools/03.5.on-behalf-of/chat.py:231-246 | a toggle, a body and a closing toggle show the pending markdown, then one LaTeX block of the body joined by newlines |
| OnBehalfOfChat.UnclosedLatexIsDropped | agents-workshop/03-building-custom-tools/03.5.on-behalf-of/chat.py:231-266 | a LaTeX block still open at the end of the message is never shown |
| OnBehalfOfChat.PlainLines | agents-workshop/03-building-custom-tools/03.5.on-behalf-of/chat.py:263-264 | plain lines only accumulate as pending markdown |
| OnBehalfOfChat.PlainMessage | agents-workshop/03-building-custom-tools/03.5.on-behalf-of/chat.py:207-266 | a message of plain lines is shown as one markdown block equal to the message |
| OnBehalfOfChat.MentionedName | agents-workshop/03-building-custom-tools/03.5.on-behalf-of/chat.py:151 | the text after the first '@' up to the next '@' or space |
| OnBehalfOfChat.Session.constructor | agents-workshop/03-building-custom-tools/03.5.on-behalf-of/chat.py:136-141 | empty history, agent "Main", the given thread |
| OnBehalfOfChat.Session.BeginTurn | agents-workshop/03-building-custom-tools/03.5.on-behalf-of/chat.py:143-157 | records the user's entry; an `@mention` replaces the agent name; the current agent switches only to a known agent, with a notice |
| OnBehalfOfChat.Session.FollowReplies | agents-workshop/03-building-custom-tools/03.5.on-behalf-of/chat.py:170-183 | every reply appends one history entry in order; thread and agent are those of the last yielded reply |
| OnBehalfOfChat.RecordedEntries | agents-workshop/03-building-custom-tools/03.5.on-behalf-of/chat.py:170-183 | one history entry per reply |
| FunctionLogFilter.Truncate | agents-workshop/03-building-custom-tools/03.1.azure-ai-agent-simple-tools/__working_code__/kernel_factory.py:102-103 | a string over 100 characters becomes its first 97 plus "...", exactly 100; shorter ones are kept |
| FunctionLogFilter.SafeValue | agents-workshop/03-building-custom-tools/03.1.azure-ai-agent-simple-tools/__working_code__/kernel_factory.py:36-47 | secret names are redacted whatever the value; other strings are truncated; other values are kept |
| FunctionLogFilter.SafeArgs | agents-workshop/03-building-custom-tools/03.1.azure-ai-agent-simple-tools/__working_code__/kernel_factory.py:32-47 | one sanitised value per argument, under the same name, in order |
| FunctionLogFilter.SanitizeArguments | agents-workshop/03-building-custom-tools/03.1.azure-ai-agent-simple-tools/__working_code__/kernel_factory.py:32-47 | the loop computes `SafeArgs`, or {} without arguments |
| FunctionLogFilter.AutoFunctionFilter | agents-workshop/03-building-custom-tools/03.1.azure-ai-agent-simple-tools/__working_code__/kernel_factory.py:23-108 | the start record has the sanitised arguments; status is "success" iff `next` returned; its exception is raised again; the result is truncated, "N/A" without a value, absent without a result |
| FunctionLogFilter.SafeArgsIdempotent | agents-workshop/03-building-custom-tools/03.1.azure-ai-agent-simple-tools/__working_code__/kernel_factory.py:35-47 | sanitising is idempotent: secrets stay redacted and truncated strings are not cut again |
| FunctionLogFilter.SafeArgsAreShort | agents-workshop/03-building-custom-tools/03.1.azure-ai-agent-simple-tools/__working_code__/kernel_factory.py:43-45 | no logged string value exceeds 100 characters |
| FunctionLogFilter.ExactNameMatch | agents-workshop/03-building-custom-tools/03.1.azure-ai-agent-simple-tools/__working_code__/kernel_factory.py:36-42 | example: names match whole and case-insensitively, so "Key" is redacted and "api_key" is not |
| ChatWithAgentBase.FormatAgentMessage | demo_app/chat_with_agent_base.py:44-45 | the agent's name between "**" and "**: ", then the message; both can be read back from their positions |
| ChatWithAgentBase.ChunkTrace | demo_app/chat_with_agent_base.py:67-77 | only chunk notifications, one per chunk with content |
| ChatWithAgentBase.GetAgentResponseWithStreaming | demo_app/chat_with_agent_base.py:47-86 | an unknown agent raises KeyError before any callback; otherwise the response is the header plus every chunk's text, and the callbacks see `Trace` |
| ChatWithAgentBase.StreamChunks | demo_app/chat_with_agent_base.py:76-79 | the loop accumulates every chunk with content behind the header and notifies each partial text exactly when the start callback gave a chunk callback |
| ChatWithAgentBase.ChunksGrow | demo_app/chat_with_agent_base.py:67-77 | each chunk notification starts with the header, extends the one before, and is a prefix of the final response |
| ChatWithAgentBase.LastChunkIsResponse | demo_app/chat_with_agent_base.py:67-82 | after a chunk with content, the last notification is the final response |
| ChatWithAgentBase.ConcatGrows | demo_app/chat_with_agent_base.py:70-74 | the accumulated text only grows |
| ChatWithAgentBase.TraceOrder | demo_app/chat_with_agent_base.py:56-86 | start comes first and done last, each once when its callback is set; no chunk is shown without a start callback |
| MsalAuth.MakeConfig | gradio_app/auth_msal.py:17-29 | ValueError unless the client id, secret and tenant are all non-empty; the redirect URI default; the authority from the tenant |
| MsalAuth.UserFromClaims | gradio_app/auth_msal.py:91-109 | None iff decoding failed; otherwise exactly six keys, with email falling back to preferred_username and roles/groups defaulting to [] |
| MsalAuth.RefreshToken | gradio_app/auth_msal.py:74-89 | None when the call raised or answered with an "error" key, otherwise the answer |
| MsalAuth.Add | gradio_app/auth_msal.py:122 | `issued_at + expires_in` adds numbers, with booleans as 0 and 1 |
| MsalAuth.IsTokenExpired | gradio_app/auth_msal.py:111-126 | empty data or data without expires_in is expired; only "expires_at" may be added, and other keys are kept |
| MsalAuth.Compare | gradio_app/auth_msal.py:125-126 | `now + 300 >= expires_at` for numbers; TypeError otherwise |
| MsalAuth.EnsureValid | gradio_app/auth_msal.py:128-154 | keeps token data a dictionary in the session |
| MsalAuth.NoTokenData | gradio_app/auth_msal.py:130-133 | without token data nothing changes and None is returned |
| MsalAuth.ValidTokenKept | gradio_app/auth_msal.py:135-137 | an unexpired token is returned as the checked token data itself, the session stores that same data, and keeps its keys |
| MsalAuth.FailedRefreshClears | gradio_app/auth_msal.py:139-154 | an expired token without a usable refresh clears the whole session |
| MsalAuth.SuccessfulRefresh | gradio_app/auth_msal.py:140-149 | a successful refresh stores the new token data and its user, keeps other keys, and returns the new data |
| MsalAuth.ExpiryMarginHolds | gradio_app/auth_msal.py:117-126 | a recorded expiry counts as expired from 300 seconds before it |
| MsalAuth.ExpiryComputed | gradio_app/auth_msal.py:117-126 | a missing, zero or False expires_at is recomputed as issued_at (now when missing) + expires_in, written back, and the verdict is `now + 300 >= expires_at` on it |
| MsalAuth.Session.constructor | gradio_app/auth_msal.py:172 | the request's session dictionary |
| MsalAuth.Session.EnsureValidToken | gradio_app/auth_msal.py:128-154 | the in-place version of `EnsureValid` |
| MsalAuth.Session.GetCurrentUser | gradio_app/auth_msal.py:168-191 | the in-place version of `CurrentUser` |
| MsalAuth.CurrentUser | gradio_app/auth_msal.py:168-191 | without a token (or on an exception) None; with a token, the stored user when truthy, else the user decoded from the access token and written back into the session, else None; a user is reported only while `ensure_valid_token` gives a token |
| AuthServer.StoredSession | gradio_app/main.py:31-32 | the stored session, or {} when it is missing or empty |
| AuthServer.SessionStore.constructor | gradio_app/main.py:28-29 | the store starts empty |
| AuthServer.SessionStore.Get | gradio_app/main.py:31-32 | reads `StoredSession` |
| AuthServer.SessionStore.Set | gradio_app/main.py:34-35 | stores the value under the key; the expiry is ignored |
| AuthServer.SessionStore.Delete | gradio_app/main.py:37-39 | removes the key; a missing key is not an error |
| AuthServer.GetAfterSet | gradio_app/main.py:31-35 | a non-empty value that was set is read back; other keys are untouched |
| AuthServer.GetAfterDelete | gradio_app/main.py:31-39 | a deleted key reads as {}; deleting a missing key changes nothing |
| AuthServer.Login | gradio_app/main.py:68-78 | the state is stored in the session and the browser is sent to the authorization URL |
| AuthServer.AuthCallback | gradio_app/main.py:81-120 | no code is exchanged unless the state matches; a bad state or a missing code changes nothing; success stores user and token data and drops the state |
| AuthServer.LoginThenCallback | gradio_app/main.py:68-113 | login then a callback with the same state and an accepted code signs the user in |
| AuthServer.Home | gradio_app/main.py:139-156 | an error parameter gives 401 with "Authentication error: …"; otherwise a user goes to /gradio and anyone else to /login |
| AuthServer.AuthStatus | gradio_app/main.py:158-176 | 200 iff there is a current user; otherwise 401 with authenticated false |
| AuthServer.UserName | gradio_app/main.py:59-65 | the user's name, else their e-mail, else None |
| AuthServer.Logout | gradio_app/main.py:123-136 | the session is emptied and the browser sent to the tenant's logout page |
| AuthServer.LoginHandler | gradio_app/main.py:68-78 | performs `Login` on the request's session |
| AuthServer.AuthCallbackHandler | gradio_app/main.py:81-120 | performs `AuthCallback` on the request's session |
| AuthServer.HomeHandler | gradio_app/main.py:139-156 | performs `Home` on the request's session |
| AuthServer.LogoutHandler | gradio_app/main.py:123-136 | performs `Logout` on the request's session |
| AzdEnv.LoadedPath | agents-workshop/03-building-custom-tools/03.5.on-behalf-of/libraries/azd.py:22-37 | a nonzero exit raises "Error loading azd env"; a falsy selection raises "No default azd env file found"; otherwise the loaded path is the selection, which is truthy |
| AzdEnv.LoadAzdEnv | demo_app/setup_agent.py:72-87 | the loop computes `LoadedPath` |
| AzdEnv.NoDefaultEntry | agents-workshop/03-building-custom-tools/03.5.on-behalf-of/libraries/azd.py:30-33 | with no default entry the selection stays None |
| AzdEnv.WellFormedSearched | agents-workshop/03-building-custom-tools/03.5.on-behalf-of/libraries/azd.py:31-33 | entries with the keys read raise nothing |
| AzdEnv.LastDefaultWins | agents-workshop/03-building-custom-tools/03.5.on-behalf-of/libraries/azd.py:30-33 | the DotEnvPath of the last default entry is selected |
| AzdEnv.ErrorStops | agents-workshop/03-building-custom-tools/03.5.on-behalf-of/libraries/azd.py:31-33 | a KeyError ends the search |
| AzdEnv.SingleDefault | agents-workshop/03-building-custom-tools/03.5.on-behalf-of/libraries/azd.py:22-37 | a single default entry with a path loads that path |
| AzdEnv.IsDev | agents-workshop/03-building-custom-tools/03.5.on-behalf-of/libraries/azd.py:18 | true exactly when DEVELOPMENT is set and its lower-cased value is "true", "1" or "yes"; unset (read as "False") means false |
| AzdEnv.IsDevCaseInsensitive | agents-workshop/03-building-custom-tools/03.5.on-behalf-of/libraries/azd.py:18 | every value gives the same answer as its lower-cased form |
| AzdEnv.IsDevIgnoresCase | agents-workshop/03-building-custom-tools/03.5.on-behalf-of/libraries/azd.py:18 | example: "TRUE", "Yes" and "1" count; "on" and "False" do not |
| SetupAgent.SetAzdVariable | demo_app/setup_agent.py:61-69 | runs `azd env set name value`, and raises exactly when it exits nonzero |
| SetupAgent.IndexAgents | demo_app/setup_agent.py:159-164 | the loop computes `Index` |
| SetupAgent.IndexKeys | demo_app/setup_agent.py:159-164 | the `agents` dictionary holds exactly the names the listing reported |
| SetupAgent.IndexLastWins | demo_app/setup_agent.py:159-164 | a name listed more than once keeps the id of its last listing |
| SetupAgent.SearchConnection | demo_app/setup_agent.py:141-147 | the id of the first search connection, or "" |
| SetupAgent.FindSearchConnection | demo_app/setup_agent.py:141-147 | the loop with `break` computes `SearchConnection` |
| SetupAgent.AddUpdateAgent | demo_app/setup_agent.py:90-123 | a known name is fetched and updated, with errors swallowed and never created; an unknown name is created exactly once, and a create error escapes |
| SetupAgent.Plan | demo_app/setup_agent.py:166-241 | five agents, each named and instructed from its roster entry, in the order planner, architect, illustrator, researcher, SCI engineer; the planner has no tools, the researcher has the search tool on the chosen connection, temperatures 0.2/0.3/1.0/0.3/0.3 |
| SetupAgent.CreatesOnlyMissing | demo_app/setup_agent.py:99-241 | without create errors, exactly the planned agents whose names are not listed are created, in order |
| SetupAgent.CreatesAppend | demo_app/setup_agent.py:166-241 | the creates of two call sequences concatenate |
| SetupAgent.SetupAgents | demo_app/setup_agent.py:126-243 | a missing tenant or index variable raises KeyError; telemetry iff DEBUG is "true"; otherwise the calls follow `Plan` on the listed agents with model default "gpt-4o" |
| SetupAgent.IsDebug | demo_app/setup_agent.py:249 | false only when DEBUG is set to "" |
| PyStr.Split | agents-workshop/03-building-custom-tools/03.5.on-behalf-of/chat.py:208 | `split(sep)` yields at least one part and no part holds the separator |
| PyStr.JoinSplit | agents-workshop/03-building-custom-tools/03.5.on-behalf-of/chat.py:203-208 | joining the parts of a split with the separator gives back the string |
| PyStr.SplitAtFirst | agents-workshop/03-building-custom-tools/03.5.on-behalf-of/chat.py:151 | the first part ends at the first separator and the rest is the split of what follows |
| PyStr.FirstPart | agents-workshop/03-building-custom-tools/03.5.on-behalf-of/chat.py:151 | the first part of a split is a prefix without the separator, ending at the first separator or at the end |
| PyStr.Lower | agents-workshop/03-building-custom-tools/03.1.azure-ai-agent-simple-tools/__working_code__/kernel_factory.py:36 | lower-casing keeps the length |
| PyStr.LowerIdempotent | agents-workshop/03-building-custom-tools/03.5.on-behalf-of/libraries/azd.py:18 | lower-casing twice is lower-casing once |
| PyStr.RFind | gradio_app/agent_chat.py:361 | the last position where the pattern occurs, or -1 |
| PyValues.OrEmpty | gradio_app/agent_chat.py:400 | `text or ""` |

## Left out

- The agent service, the Azure SDKs, MSAL token acquisition, `jwt.decode` and the identity provider. Their answers are parameters: stream events, `Answers`, `Provider`, and decoded claims as `Option` values.
- The user interfaces (Gradio, Streamlit, FastAPI responses), logging, printing and telemetry spans. Renderer output is modelled as `Block` values, responses as `Response` values, and callback calls as `Notification` values.
- `uuid4`, the clock, `subprocess.run`, dotenv loading and `os.environ`. These are parameters: a fresh id per response, times, exit codes, the parsed listing, and the environment as a map.
- Timestamps are integers. Python's float timestamps and temperatures are not modelled, so temperatures are given in tenths.
- Lower-casing is ASCII only. `FunctionLogFilter.IsSecretName` therefore misses names that only Unicode lower-casing would map to a secret name (for example with the Kelvin sign).
- URL parsing keeps only what `extract_bing_query` needs: '+' decodes to a space, and percent-escapes are not decoded.
- BingQuery.ExtractBingQuery: `urlparse` raises ValueError ("Invalid IPv6 URL") for a network location holding '[' without ']' (or the reverse). The model returns the terms or the URL instead.
- BingQuery.ExtractBingQuery: `urlparse` first removes tab, CR and LF characters and leading control characters and spaces. The model parses the URL as given.
- `convert_dict_to_chatmessage` is not modelled. The history is passed in as bubbles, so its KeyError on malformed history dicts is not captured.
- The three-way unpacking `event_type, event_data, *_ = item` is not modelled. Every item is assumed to unpack.
- File upload, thread tool resources and the download of file references. A file reference becomes one opaque image bubble. The thread's id is unchanged by an upload, since only its tool resources change.
- AuthChatApp.Registry.ChatWithAgent: the placeholder's status is changed to "done" after it has been yielded. The bubble is never shown again, so the model does not record the change.
- MsalAuth.EnsureValid, MsalAuth.CurrentUser, AuthServer.Home and AuthServer.AuthStatus require that a truthy "token_data" in the session is a dictionary. The app only ever stores dictionaries there; a session holding something else (an AttributeError path) is not modelled.
- MsalAuth.CurrentUser: the claims decoded from the current access token are a parameter of their own. After a refresh they come, in the program, from the same new token whose claims `Provider.newClaims` holds; the model does not tie the two together.
- `get_access_token`, `require_auth`, `get_msal_auth`'s caching, and the health and readiness endpoints of gradio_app/main.py are not modelled.
- FunctionLogFilter.AutoFunctionFilter: only exceptions derived from `Exception` are modelled. A `BaseException` raised by `next` would leave `status` unbound inside `finally`.
- The agent names and instructions of the demo agents come from another module and are parameters (`Roster`). The search connection type is represented by its name.
- ChatWithAgentBase.GetAgentResponseWithStreaming: chunk text is a string or absent, and the start callback is a flag. So the TypeError of `partial_response += None` for a chunk whose inner content is None, and the TypeError of calling a None returned by `on_stream_start`, are not modelled.
- FunctionLogFilter.AutoFunctionFilter: argument values are JSON-like values, so the TypeError `json.dumps` raises for an argument that is not serialisable cannot arise in the model.
- `setup_intvect.py`, `simple_tool.py`, `stack_overflow_tool.py` and the logging tools are outside the modelled core.
