/**
 * The front end of the unauthenticated Gradio app (gradio-app/app.py): one
 * lazily created chat shared by every session, and the chat and clear
 * callbacks. Thread ids the service creates are passed in.
 */
module BasicChatApp {
  import opened Wrappers
  import opened PyValues
  import opened AgentChat
  import opened ChatHistory
  import opened BasicEnterpriseChat

  /** The module-level `enterprise_chat` global. */
  class App {
    var chat: EnterpriseChat?

    constructor()
      ensures chat == null
    {
      chat := null;
    }

    /** `get_enterprise_chat`: creates the chat on the first call only, and returns the same one afterwards. */
    method GetEnterpriseChat(newThread: string) returns (c: EnterpriseChat)
      modifies this
      ensures chat == c
      ensures old(chat) != null ==> c == old(chat) && c.thread == old(chat.thread)
      ensures old(chat) == null ==> fresh(c) && c.thread == newThread
    {
      if chat == null {
        chat := new EnterpriseChat(newThread);
      }
      c := chat;
    }

    /** `clear_thread`: before any chat exists it fails on `None.reset_thread`. */
    method ClearThread(newThread: string) returns (r: Result<seq<Bubble>, PyError>)
      modifies chat
      ensures chat == old(chat)
      ensures chat == null ==> r == Err(AttributeError("reset_thread"))
      ensures chat != null ==> r == Ok([]) && chat.thread == newThread
    {
      if chat == null {
        return Err(AttributeError("reset_thread"));
      }
      chat.ResetThread(newThread);
      r := Ok([]);
    }

    /**
     * `chat_with_agent`: `first` is the first yield, exactly the extended
     * history; `shown` are the agent's conversations, forwarded unchanged.
     */
    method ChatWithAgent(text: Option<string>, files: seq<string>, history: seq<Bubble>, newThread: string, events: seq<Event>)
      returns (first: seq<Bubble>, shown: seq<seq<Bubble>>, raised: Option<PyError>)
      modifies this, chat
      ensures first == UserTurn(history, text, files)
      ensures chat != null && (old(chat) != null ==> chat == old(chat))
      ensures var thread0 := if old(chat) != null then old(chat.thread) else newThread;
              var o := Converse(BasicVariant, first, thread0, events);
              shown == o.snapshots && raised == o.raised && chat.thread == o.thread
    {
      first := AppendUserTurn(history, text, files);
      var agent := GetEnterpriseChat(newThread);
      var message, steps;
      message, shown, raised, steps := agent.AzureEnterpriseChat(text, files, first, events);
    }
  }
}
