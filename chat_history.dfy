/**
 * The history prefixing both Gradio front ends do before calling the agent:
 * one user message per uploaded file, then the text when there is one.
 */
module ChatHistory {
  import opened Wrappers
  import opened PyValues
  import opened AgentChat

  /** `{"role": "user", "content": {"path": path}}`. */
  function PathMessage(path: string): Bubble {
    Bubble(User, Value(JDict(map["path" := JStr(path)])), NoMetadata)
  }

  /** `{"role": "user", "content": text}`. */
  function TextMessage(text: string): Bubble {
    Bubble(User, Text(text), NoMetadata)
  }

  /** The history after the user's turn is appended. */
  function UserTurn(history: seq<Bubble>, text: Option<string>, files: seq<string>): (r: seq<Bubble>)
    ensures |r| == |history| + |files| + (if text.Some? then 1 else 0)
    ensures r[..|history|] == history
    ensures forall i :: 0 <= i < |files| ==> r[|history| + i] == PathMessage(files[i])
    // an empty text is still appended: only None is skipped
    ensures text.Some? ==> r[|r| - 1] == TextMessage(text.value)
  {
    history + seq(|files|, i requires 0 <= i < |files| => PathMessage(files[i]))
    + (if text.Some? then [TextMessage(text.value)] else [])
  }

  /** The two appending statements of `chat_with_agent`, run on the history list. */
  method AppendUserTurn(history: seq<Bubble>, text: Option<string>, files: seq<string>) returns (extended: seq<Bubble>)
    ensures extended == UserTurn(history, text, files)
  {
    extended := history;
    var i := 0;
    while i < |files|
      invariant 0 <= i <= |files|
      invariant extended == history + seq(i, j requires 0 <= j < i => PathMessage(files[j]))
    {
      extended := extended + [PathMessage(files[i])];
      i := i + 1;
    }
    if text.Some? {
      extended := extended + [TextMessage(text.value)];
    }
  }
}
