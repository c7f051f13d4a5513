/**
 * The front end of the authenticated Gradio app (gradio_app/app.py): the
 * greeting, the per-session registry of chats and the chat and clear
 * callbacks. Thread ids the service creates are passed in.
 */
module AuthChatApp {
  import opened Wrappers
  import opened PyValues
  import opened AgentChat
  import opened ChatHistory
  import opened AuthEnterpriseChat

  /** The parts of a `gr.Request` the callbacks read; `session` is None when the request, its inner request or its session is missing or empty. */
  datatype Request = Request(sessionHash: string, username: Option<string>, session: Option<map<string, string>>)

  /** `get_user`. */
  function Greeting(username: Option<string>): (r: string)
    ensures TruthyStr(username) ==> r == "Hello, **" + username.value + "**!"
    ensures !TruthyStr(username) ==> r == "Hello, **Guest**!"
  {
    "Hello, **" + (if TruthyStr(username) then username.value else "Guest") + "**!"
  }

  /** The session's "stackoverflow_token", or None. */
  function SessionToken(session: Option<map<string, string>>): (r: Option<string>)
    ensures r.Some? <==> session.Some? && "stackoverflow_token" in session.value
    ensures r.Some? ==> r.value == session.value["stackoverflow_token"]
  {
    if session.Some? && "stackoverflow_token" in session.value then Some(session.value["stackoverflow_token"]) else None
  }

  /** The pending placeholder shown while the agent starts. */
  const Placeholder := Bubble(Assistant, Text("Thinking.."), Metadata(None, Some(Pending), None, None))

  /** The module-level `instances` dictionary. */
  class Registry {
    var instances: map<string, EnterpriseChat>

    constructor()
      ensures instances == map[]
    {
      instances := map[];
    }

    /**
     * `set_enterprise_chat`: a known session gets the request's token; a new
     * session gets exactly one new chat on thread `newThread`, holding the token.
     */
    method SetEnterpriseChat(request: Request, newThread: string)
      modifies this, if request.sessionHash in instances then {instances[request.sessionHash]} else {}
      ensures instances.Keys == old(instances.Keys) + {request.sessionHash}
      ensures forall h | h in old(instances) :: instances[h] == old(instances[h])
      ensures instances[request.sessionHash].stackToken == SessionToken(request.session)
      ensures request.sessionHash in old(instances) ==>
                instances[request.sessionHash].thread == old(instances[request.sessionHash].thread)
      ensures request.sessionHash !in old(instances) ==>
                fresh(instances[request.sessionHash]) && instances[request.sessionHash].thread == newThread
    {
      var token := SessionToken(request.session);
      if request.sessionHash in instances {
        var chat := instances[request.sessionHash];
        chat.SetStackToken(token);
        return;
      }
      var chat := new EnterpriseChat(newThread);
      chat.SetStackToken(token);
      instances := instances[request.sessionHash := chat];
    }

    /** `clear_thread`: an unknown session fails on `None.reset_thread`. */
    method ClearThread(sessionHash: string, newThread: string) returns (r: Result<seq<Bubble>, PyError>)
      modifies if sessionHash in instances then {instances[sessionHash]} else {}
      ensures sessionHash !in instances ==> r == Err(AttributeError("reset_thread"))
      ensures sessionHash in instances ==>
                && r == Ok([])
                && instances[sessionHash].thread == newThread
                && instances[sessionHash].stackToken == old(instances[sessionHash].stackToken)
    {
      if sessionHash !in instances {
        return Err(AttributeError("reset_thread"));
      }
      instances[sessionHash].ResetThread(newThread);
      r := Ok([]);
    }

    /**
     * `chat_with_agent`: `first` is the first yield, the extended history
     * with the placeholder; `shown` are the later yields, each a conversation
     * of the session's chat. An unknown session fails after the first yield.
     */
    method ChatWithAgent(sessionHash: string, text: Option<string>, files: seq<string>, history: seq<Bubble>, events: seq<Event>)
      returns (first: seq<Bubble>, shown: seq<seq<Bubble>>, raised: Option<PyError>)
      modifies if sessionHash in instances then {instances[sessionHash]} else {}
      ensures first == UserTurn(history, text, files) + [Placeholder]
      ensures sessionHash !in instances ==> shown == [] && raised == Some(AttributeError("azure_enterprise_chat"))
      ensures sessionHash in instances ==>
                var o := Converse(AuthVariant, UserTurn(history, text, files), old(instances[sessionHash].thread), events);
                shown == o.snapshots && raised == o.raised && instances[sessionHash].thread == o.thread
    {
      var extended := AppendUserTurn(history, text, files);
      first := extended + [Placeholder];
      if sessionHash !in instances {
        return first, [], Some(AttributeError("azure_enterprise_chat"));
      }
      var chat := instances[sessionHash];
      var message;
      message, shown, raised := chat.AzureEnterpriseChat(text, files, extended, events);
    }
  }
}
