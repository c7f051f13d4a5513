/**
 * Loading the Azure Developer CLI environment
 * (agents-workshop/03-building-custom-tools/03.5.on-behalf-of/libraries/azd.py,
 * and the identical function in demo_app/setup_agent.py): the listing of
 * environments is searched for the default one, whose dotenv file is then
 * loaded. The command's exit code and its parsed output are parameters; the
 * result is the path that is loaded.
 */
module AzdEnv {
  import opened Wrappers
  import opened PyValues
  import opened PyStr

  const ListFailed: string := "Error loading azd env"
  const NoDefault: string := "No default azd env file found"

  /** `entry[key]` on one entry of the listing. */
  function Item(entry: map<string, Json>, key: string): Result<Json, PyError> {
    if key in entry then Ok(entry[key]) else Err(KeyError(key))
  }

  /**
   * The value of `env_file_path` after the loop has seen `entries`: the
   * "DotEnvPath" of the last entry whose "IsDefault" is truthy, None when there
   * is none, or the KeyError of the first entry lacking a key it needs.
   */
  function DefaultPath(entries: seq<map<string, Json>>): Result<Json, PyError>
    decreases |entries|
  {
    if entries == [] then Ok(JNone)
    else
      match DefaultPath(entries[..|entries| - 1])
      case Err(e) => Err(e)
      case Ok(path) =>
        var entry := entries[|entries| - 1];
        match Item(entry, "IsDefault")
        case Err(e) => Err(e)
        case Ok(isDefault) => if Truthy(isDefault) then Item(entry, "DotEnvPath") else Ok(path)
  }

  /** `load_azd_env`: the path loaded, or what is raised. */
  function LoadedPath(exitCode: int, entries: seq<map<string, Json>>): (r: Result<Json, PyError>)
    ensures exitCode != 0 ==> r == Err(RaisedException(ListFailed))
    ensures r.Ok? ==> exitCode == 0 && Truthy(r.value) && DefaultPath(entries) == r
    ensures exitCode == 0 && DefaultPath(entries).Ok? && !Truthy(DefaultPath(entries).value) ==>
              r == Err(RaisedException(NoDefault))
  {
    if exitCode != 0 then Err(RaisedException(ListFailed))
    else
      match DefaultPath(entries)
      case Err(e) => Err(e)
      case Ok(path) => if !Truthy(path) then Err(RaisedException(NoDefault)) else Ok(path)
  }

  /** The loop of `load_azd_env`, and the check after it. */
  method LoadAzdEnv(exitCode: int, entries: seq<map<string, Json>>) returns (loaded: Result<Json, PyError>)
    ensures loaded == LoadedPath(exitCode, entries)
  {
    if exitCode != 0 {
      return Err(RaisedException(ListFailed));
    }
    var envFilePath := JNone;
    var i := 0;
    while i < |entries|
      invariant 0 <= i <= |entries|
      invariant DefaultPath(entries[..i]) == Ok(envFilePath)
    {
      assert entries[..i + 1][..i] == entries[..i];
      var entry := entries[i];
      if "IsDefault" !in entry {
        ErrorStops(entries, i + 1);
        return Err(KeyError("IsDefault"));
      }
      if Truthy(entry["IsDefault"]) {
        if "DotEnvPath" !in entry {
          ErrorStops(entries, i + 1);
          return Err(KeyError("DotEnvPath"));
        }
        envFilePath := entry["DotEnvPath"];
      }
      i := i + 1;
    }
    assert entries[..|entries|] == entries;
    if !Truthy(envFilePath) {
      return Err(RaisedException(NoDefault));
    }
    loaded := Ok(envFilePath);
  }

  /** Whether an entry is marked as the default one. */
  predicate IsDefaultEntry(entry: map<string, Json>) {
    "IsDefault" in entry && Truthy(entry["IsDefault"])
  }

  /** Entries that have the keys the loop reads. */
  predicate WellFormed(entries: seq<map<string, Json>>) {
    forall i :: 0 <= i < |entries| ==> "IsDefault" in entries[i] && (IsDefaultEntry(entries[i]) ==> "DotEnvPath" in entries[i])
  }

  /** A prefix of a well-formed listing is well formed. */
  lemma WellFormedPrefix(entries: seq<map<string, Json>>, n: nat)
    requires WellFormed(entries) && n <= |entries|
    ensures WellFormed(entries[..n])
  {
    forall i | 0 <= i < n ensures "IsDefault" in entries[..n][i] && (IsDefaultEntry(entries[..n][i]) ==> "DotEnvPath" in entries[..n][i]) {
      assert entries[..n][i] == entries[i];
    }
  }

  /** Without a default entry the path stays None. */
  lemma {:induction false} NoDefaultEntry(entries: seq<map<string, Json>>)
    requires WellFormed(entries)
    requires forall i :: 0 <= i < |entries| ==> !IsDefaultEntry(entries[i])
    ensures DefaultPath(entries) == Ok(JNone)
    decreases |entries|
  {
    if entries != [] {
      var before := entries[..|entries| - 1];
      WellFormedPrefix(entries, |entries| - 1);
      assert forall i :: 0 <= i < |before| ==> before[i] == entries[i];
      NoDefaultEntry(before);
    }
  }

  /** A well-formed listing raises nothing while it is searched. */
  lemma {:induction false} WellFormedSearched(entries: seq<map<string, Json>>)
    requires WellFormed(entries)
    ensures DefaultPath(entries).Ok?
    decreases |entries|
  {
    if entries != [] {
      WellFormedPrefix(entries, |entries| - 1);
      WellFormedSearched(entries[..|entries| - 1]);
    }
  }

  /** The last default entry wins. */
  lemma {:induction false} LastDefaultWins(entries: seq<map<string, Json>>, i: nat)
    requires WellFormed(entries)
    requires i < |entries| && IsDefaultEntry(entries[i])
    requires forall j :: i < j < |entries| ==> !IsDefaultEntry(entries[j])
    ensures DefaultPath(entries) == Ok(entries[i]["DotEnvPath"])
    decreases |entries|
  {
    var before := entries[..|entries| - 1];
    WellFormedPrefix(entries, |entries| - 1);
    if i < |entries| - 1 {
      assert before[i] == entries[i];
      assert forall j :: i < j < |before| ==> before[j] == entries[j];
      LastDefaultWins(before, i);
    } else {
      WellFormedSearched(before);
    }
  }

  /** Once the search has raised, the rest of the listing does not matter. */
  lemma {:induction false} ErrorStops(entries: seq<map<string, Json>>, n: nat)
    requires n <= |entries| && DefaultPath(entries[..n]).Err?
    ensures DefaultPath(entries) == DefaultPath(entries[..n])
    decreases |entries|
  {
    if n < |entries| {
      var before := entries[..|entries| - 1];
      assert before[..n] == entries[..n];
      ErrorStops(before, n);
    } else {
      assert entries[..n] == entries;
    }
  }

  /** A listing whose only default entry names a file loads that file. */
  lemma SingleDefault(other: seq<map<string, Json>>, path: string)
    requires WellFormed(other) && forall i :: 0 <= i < |other| ==> !IsDefaultEntry(other[i])
    requires path != ""
    ensures var entries := other + [map["IsDefault" := JBool(true), "DotEnvPath" := JStr(path)]];
            LoadedPath(0, entries) == Ok(JStr(path))
  {
    var entries := other + [map["IsDefault" := JBool(true), "DotEnvPath" := JStr(path)]];
    assert entries[..|entries| - 1] == other;
    NoDefaultEntry(other);
  }

  /** `is_dev`: DEVELOPMENT, lower-cased, is one of "true", "1", "yes"; unset counts as "False". */
  function IsDev(development: Option<string>): (r: bool)
    ensures development.None? ==> !r
    ensures r <==> development.Some? && Lower(development.value) in ["true", "1", "yes"]
  {
    Lower(development.GetOr("False")) in ["true", "1", "yes"]
  }

  /** The flag ignores case: a value and its lower-cased form always agree. */
  lemma IsDevCaseInsensitive(s: string)
    ensures IsDev(Some(s)) == IsDev(Some(Lower(s)))
  {
    LowerIdempotent(s);
  }

  /** Example of IsDevCaseInsensitive: "TRUE" and "Yes" turn the flag on; "on" does not. */
  lemma IsDevIgnoresCase()
    ensures IsDev(Some("TRUE")) && IsDev(Some("Yes")) && IsDev(Some("1"))
    ensures !IsDev(Some("on")) && !IsDev(Some("False"))
  {
    assert Lower("TRUE") == "true";
    assert Lower("Yes") == "yes";
    assert Lower("1") == "1";
    assert Lower("on") == "on";
  }
}
