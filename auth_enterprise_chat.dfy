/**
 * The `EnterpriseChat` object of the authenticated Gradio app
 * (gradio_app/agent_chat.py): it holds the agent thread and the Stack Overflow
 * token, filters auto-invoked functions on that token, builds the outgoing user
 * message and runs the transcript reconciler over the agent's events.
 */
module AuthEnterpriseChat {
  import opened Wrappers
  import opened PyValues
  import opened PyStr
  import opened AgentChat
  import Reconciler

  const StackOverflowPlugin: string := "StackOverflowTool"

  /** The function result that replaces a Stack Overflow call made without a token. */
  const AuthMessage: string :=
    "Please authenticate with Stack Overflow to use this tool.\n"
    + "                        "
    + "Visit: http://localhost:8001/auth/stackoverflow"

  /** A `FunctionResult`: the function it belongs to and its value. */
  datatype FunctionResult = FunctionResult(fn: string, value: Json)

  /** The parts of an `AutoFunctionInvocationContext` the filter reads or writes. */
  datatype FilterContext = FilterContext(
    pluginName: string,
    functionName: string,
    arguments: map<string, Json>,
    functionResult: Option<FunctionResult>,
    terminate: bool)

  /**
   * One pass through the filter: the context it ends with or the exception it
   * raises, and the context handed to `next` when `next` was called.
   */
  datatype FilterRun = FilterRun(outcome: Result<FilterContext, PyError>, passedToNext: Option<FilterContext>)

  /**
   * `after` is `before` with `token` stored under "token" in the "kwargs"
   * argument and nothing else changed.
   */
  predicate TokenInjected(before: FilterContext, after: FilterContext, token: string) {
    && after == before.(arguments := after.arguments)
    && after.arguments.Keys == before.arguments.Keys
    && (forall k | k in before.arguments && k != "kwargs" :: after.arguments[k] == before.arguments[k])
    && "kwargs" in before.arguments && before.arguments["kwargs"].JDict?
    && after.arguments["kwargs"].JDict?
    && var kwBefore := before.arguments["kwargs"].fields;
       var kwAfter := after.arguments["kwargs"].fields;
       && kwAfter.Keys == kwBefore.Keys + {"token"}
       && kwAfter["token"] == JStr(token)
       && (forall k | k in kwBefore && k != "token" :: kwAfter[k] == kwBefore[k])
  }

  /**
   * `auth_function_filter`. `next` stands for the rest of the filter chain and
   * the function itself; whatever it raises is raised again.
   */
  function AuthFunctionFilter(stackToken: Option<string>, ctx: FilterContext,
                              next: FilterContext -> Result<FilterContext, PyError>): (r: FilterRun)
    // `next` is called at most once, and its outcome is the filter's outcome
    ensures r.passedToNext.Some? ==> r.outcome == next(r.passedToNext.value)
    // other plugins go straight to `next` with the context untouched
    ensures ctx.pluginName != StackOverflowPlugin ==> r.passedToNext == Some(ctx)
    // with a token, `next` is called exactly when "kwargs" is a dict, after the token is stored in it
    ensures ctx.pluginName == StackOverflowPlugin && TruthyStr(stackToken) ==>
              (r.passedToNext.Some? <==> "kwargs" in ctx.arguments && ctx.arguments["kwargs"].JDict?)
              && (r.passedToNext.Some? ==> TokenInjected(ctx, r.passedToNext.value, stackToken.value))
    // without a token, `next` is never called; the result becomes the message and the chain stops
    ensures ctx.pluginName == StackOverflowPlugin && !TruthyStr(stackToken) ==>
              && r.passedToNext.None?
              && (r.outcome.Ok? <==> ctx.functionResult.Some?)
              && (r.outcome.Ok? ==>
                    && r.outcome.value.terminate
                    && r.outcome.value.functionResult == Some(FunctionResult(ctx.functionResult.value.fn, JStr(AuthMessage)))
                    && r.outcome.value.arguments == ctx.arguments)
  {
    if ctx.pluginName == StackOverflowPlugin then
      if TruthyStr(stackToken) then
        if "kwargs" !in ctx.arguments then FilterRun(Err(KeyError("kwargs")), None)
        else
          match ctx.arguments["kwargs"]
          case JDict(kwargs) =>
            var injected := ctx.(arguments := ctx.arguments["kwargs" := JDict(kwargs["token" := JStr(stackToken.value)])]);
            FilterRun(next(injected), Some(injected))
          case _ => FilterRun(Err(TypeError("item assignment")), None)
      else if ctx.functionResult.None? then FilterRun(Err(AttributeError("function")), None)
      else
        var result := FunctionResult(ctx.functionResult.value.fn, JStr(AuthMessage));
        FilterRun(Ok(ctx.(functionResult := Some(result), terminate := true)), None)
    else FilterRun(next(ctx), Some(ctx))
  }

  /** The image extensions `file_path.lower().endswith(...)` accepts. */
  predicate IsImagePath(path: string) {
    var p := Lower(path);
    EndsWith(p, ".png") || EndsWith(p, ".jpg") || EndsWith(p, ".jpeg") || EndsWith(p, ".gif")
  }

  /**
   * The user message of this variant: the text or "", and an image item for the
   * first file only, when it has an image extension (the upload loop always
   * stops after the first file).
   */
  function Outgoing(text: Option<string>, files: seq<string>): (r: OutgoingMessage)
    ensures r.text == OrEmpty(text)
    ensures |r.images| <= 1 && |r.images| <= |files|
    ensures r.images != [] <==> files != [] && IsImagePath(files[0])
    ensures r.images != [] ==> r.images[0] == files[0]
  {
    OutgoingMessage(OrEmpty(text), if files != [] && IsImagePath(files[0]) then [files[0]] else [])
  }

  class EnterpriseChat {
    var thread: string
    var stackToken: Option<string>

    /** A chat on a freshly created thread, with the empty token. */
    constructor(thread0: string)
      ensures thread == thread0 && stackToken == Some("")
    {
      thread := thread0;
      stackToken := Some("");
    }

    /** `set_stack_token`: the app may pass None. */
    method SetStackToken(token: Option<string>)
      modifies this
      ensures stackToken == token && thread == old(thread)
    {
      stackToken := token;
    }

    /** `reset_thread`: `newThread` is the id of the thread the service creates. */
    method ResetThread(newThread: string)
      modifies this
      ensures thread == newThread && stackToken == old(stackToken)
    {
      thread := newThread;
    }

    /**
     * `azure_enterprise_chat`: builds the user message handed to the agent,
     * then folds the agent's events into the history. `shown` is every
     * conversation the generator yields, in order; the thread is the one the
     * last response carried.
     */
    method AzureEnterpriseChat(text: Option<string>, files: seq<string>, history: seq<Bubble>, events: seq<Event>)
      returns (message: OutgoingMessage, shown: seq<seq<Bubble>>, raised: Option<PyError>)
      modifies this
      ensures message == Outgoing(text, files)
      ensures var o := Converse(AuthVariant, history, old(thread), events);
              shown == o.snapshots && raised == o.raised && thread == o.thread
      ensures stackToken == old(stackToken)
    {
      message := Outgoing(text, files);
      var transcript := new Reconciler.Transcript(AuthVariant, history, thread);
      shown, raised := transcript.Run(events);
      thread := transcript.thread;
      if raised.None? {
        shown := shown + [transcript.conversation];
      }
    }
  }
}
