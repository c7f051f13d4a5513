/**
 * The auto-function-invocation filter of the simple-tools sample kernel
 * (agents-workshop/03-building-custom-tools/03.1.azure-ai-agent-simple-tools/__working_code__/kernel_factory.py):
 * it records a start entry with sanitised arguments, calls the function, and
 * records a completion entry with the status and a truncated result. The two
 * clock readings and the outcome of the function are parameters.
 */
module FunctionLogFilter {
  import opened Wrappers
  import opened PyValues
  import opened PyStr

  const Redacted: string := "***REDACTED***"

  /** The longest string logged as is; longer ones keep 97 characters and gain "...". */
  const MaxLogged: nat := 100

  /** Argument names whose lower-case form is one of these are never logged. */
  predicate IsSecretName(name: string) {
    Lower(name) in ["key", "password", "secret", "token", "authorization"]
  }

  /** A string cut to at most 100 characters. */
  function Truncate(s: string): (r: string)
    ensures |s| <= MaxLogged ==> r == s
    ensures |s| > MaxLogged ==> |r| == MaxLogged && r[..97] == s[..97] && r[97..] == "..."
  {
    if |s| > MaxLogged then s[..97] + "..." else s
  }

  /** The logged form of one argument: redaction is decided by name before any truncation. */
  function SafeValue(name: string, value: Json): (r: Json)
    ensures IsSecretName(name) ==> r == JStr(Redacted)
    ensures !IsSecretName(name) && value.JStr? ==> r == JStr(Truncate(value.s))
    ensures !IsSecretName(name) && !value.JStr? ==> r == value
  {
    if IsSecretName(name) then JStr(Redacted)
    else if value.JStr? then JStr(Truncate(value.s))
    else value
  }

  /** `safe_args` for arguments given as their items in order. */
  function SafeArgs(arguments: seq<(string, Json)>): (r: seq<(string, Json)>)
    ensures |r| == |arguments|
    ensures forall i :: 0 <= i < |r| ==> r[i].0 == arguments[i].0 && r[i].1 == SafeValue(arguments[i].0, arguments[i].1)
  {
    seq(|arguments|, i requires 0 <= i < |arguments| => (arguments[i].0, SafeValue(arguments[i].0, arguments[i].1)))
  }

  /** The "function_start" record. */
  datatype StartInfo = StartInfo(functionName: string, plugin: string, arguments: seq<(string, Json)>, timestamp: int)

  /** The "function_end" record; `result` is present only when the context had a result. */
  datatype CompletionInfo = CompletionInfo(
    functionName: string, plugin: string, status: string,
    timestamp: int, startTimestamp: int, result: Option<string>)

  /**
   * The filter's sanitising loop. `arguments` is None or empty when the
   * context has no arguments.
   */
  method SanitizeArguments(arguments: Option<seq<(string, Json)>>) returns (safeArgs: seq<(string, Json)>)
    ensures arguments.None? ==> safeArgs == []
    ensures arguments.Some? ==> safeArgs == SafeArgs(arguments.value)
  {
    safeArgs := [];
    if arguments.Some? {
      var items := arguments.value;
      var i := 0;
      while i < |items|
        invariant 0 <= i <= |items|
        invariant safeArgs == SafeArgs(items[..i])
      {
        var (name, value) := items[i];
        if IsSecretName(name) {
          safeArgs := safeArgs + [(name, JStr(Redacted))];
        } else if value.JStr? && |value.s| > MaxLogged {
          safeArgs := safeArgs + [(name, JStr(value.s[..97] + "..."))];
        } else {
          safeArgs := safeArgs + [(name, value)];
        }
        i := i + 1;
      }
      assert items[..|items|] == items;
    }
  }

  /**
   * One invocation through the filter. `raisedByNext` is what the function
   * raised, if anything; `result` is the context's result after the call
   * (None when there is none), holding `str(result.value)` or None when the
   * result has no value.
   */
  method AutoFunctionFilter(functionName: string, plugin: string, arguments: Option<seq<(string, Json)>>,
                            startTime: int, endTime: int,
                            raisedByNext: Option<PyError>, result: Option<Option<string>>)
    returns (start: StartInfo, completion: CompletionInfo, raised: Option<PyError>)
    ensures start.functionName == functionName && start.plugin == plugin && start.timestamp == startTime
    ensures start.arguments == (if arguments.Some? then SafeArgs(arguments.value) else [])
    // the status is "success" exactly when the function returned; its exception is raised again
    ensures raised == raisedByNext
    ensures completion.status == (if raisedByNext.None? then "success" else "error")
    ensures completion.functionName == functionName && completion.plugin == plugin
    ensures completion.startTimestamp == start.timestamp && completion.timestamp == endTime
    ensures result.None? ==> completion.result.None?
    ensures result.Some? ==> completion.result == Some(Truncate(if result.value.Some? then result.value.value else "N/A"))
  {
    var safeArgs := SanitizeArguments(arguments);
    start := StartInfo(functionName, plugin, safeArgs, startTime);
    var status := if raisedByNext.None? then "success" else "error";
    completion := CompletionInfo(functionName, plugin, status, endTime, startTime, None);
    if result.Some? {
      var resultValue := if result.value.Some? then result.value.value else "N/A";
      if |resultValue| > MaxLogged {
        resultValue := resultValue[..97] + "...";
      }
      completion := completion.(result := Some(resultValue));
    }
    raised := raisedByNext;
  }

  /** Sanitising is idempotent: sanitised arguments pass through the filter unchanged. */
  lemma SafeArgsIdempotent(arguments: seq<(string, Json)>)
    ensures SafeArgs(SafeArgs(arguments)) == SafeArgs(arguments)
  {
  }

  /** No value logged for an argument is a string longer than 100 characters. */
  lemma SafeArgsAreShort(arguments: seq<(string, Json)>)
    ensures forall i :: 0 <= i < |arguments| && SafeArgs(arguments)[i].1.JStr? ==> |SafeArgs(arguments)[i].1.s| <= MaxLogged
  {
    forall i | 0 <= i < |arguments| && SafeArgs(arguments)[i].1.JStr?
      ensures |SafeArgs(arguments)[i].1.s| <= MaxLogged
    {
      assert |Redacted| <= MaxLogged;
    }
  }

  /** Example of whole, case-insensitive name matching: "Key" and "TOKEN" are redacted, "api_key" and "access_token" are not. */
  lemma ExactNameMatch()
    ensures IsSecretName("Key") && IsSecretName("TOKEN")
    ensures !IsSecretName("api_key") && !IsSecretName("access_token")
  {
    assert Lower("Key") == "key";
    assert Lower("TOKEN") == "token";
  }
}
