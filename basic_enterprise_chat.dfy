/**
 * The `EnterpriseChat` object of the unauthenticated Gradio app
 * (gradio-app/agent_chat.py): it holds the agent thread, builds the outgoing
 * user message and runs the transcript reconciler over the agent's events.
 */
module BasicEnterpriseChat {
  import opened PyValues
  import opened Wrappers
  import opened AgentChat
  import Reconciler

  /** The user message of this variant: the text or "", and one image item per file, in order. */
  function Outgoing(text: Option<string>, files: seq<string>): (r: OutgoingMessage)
    ensures r.text == OrEmpty(text)
    ensures |r.images| == |files| && forall i :: 0 <= i < |files| ==> r.images[i] == files[i]
  {
    OutgoingMessage(OrEmpty(text), files)
  }

  class EnterpriseChat {
    var thread: string

    constructor(thread0: string)
      ensures thread == thread0
    {
      thread := thread0;
    }

    /** `reset_thread`: `newThread` is the id of the thread the service creates. */
    method ResetThread(newThread: string)
      modifies this
      ensures thread == newThread
    {
      thread := newThread;
    }

    /**
     * `azure_enterprise_chat`: builds the message (the loop over the files
     * appends one image item each), then folds the agent's events into the
     * history, logging every intermediate step.
     */
    method AzureEnterpriseChat(text: Option<string>, files: seq<string>, history: seq<Bubble>, events: seq<Event>)
      returns (message: OutgoingMessage, shown: seq<seq<Bubble>>, raised: Option<PyError>, steps: seq<seq<StepItem>>)
      modifies this
      ensures message == Outgoing(text, files)
      ensures var o := Converse(BasicVariant, history, old(thread), events);
              shown == o.snapshots && raised == o.raised && thread == o.thread && steps == o.steps
    {
      var images: seq<string> := [];
      var i := 0;
      while i < |files|
        invariant 0 <= i <= |files|
        invariant images == files[..i]
      {
        images := images + [files[i]];
        i := i + 1;
      }
      message := OutgoingMessage(OrEmpty(text), images);
      var transcript := new Reconciler.Transcript(BasicVariant, history, thread);
      shown, raised := transcript.Run(events);
      thread := transcript.thread;
      steps := transcript.steps;
      if raised.None? {
        shown := shown + [transcript.conversation];
      }
    }
  }
}
