/**
 * The tool registry's command matcher (`mapAndExecuteTool`). The registry's tools are
 * opaque: running the tool registered under a key on some parameters either returns a
 * value or throws, and that is the parameter `run`.
 */
module ToolRegistry {
  import opened Wrappers

  /** The keys of `toolRegistry`, in declaration order. */
  const RegistryKeys: seq<string> := ["get components", "update component", "fetch figma file"]

  /** `toLowerCase` on one character; only ASCII letters are folded. */
  function LowerChar(c: char): char {
    if 'A' <= c <= 'Z' then (c as int + 32) as char else c
  }

  function UpperChar(c: char): char {
    if 'a' <= c <= 'z' then (c as int - 32) as char else c
  }

  function ToLower(s: string): (r: string)
    ensures |r| == |s|
    ensures forall i :: 0 <= i < |s| ==> r[i] == LowerChar(s[i])
  {
    if s == [] then [] else [LowerChar(s[0])] + ToLower(s[1..])
  }

  function ToUpper(s: string): (r: string)
    ensures |r| == |s|
    ensures forall i :: 0 <= i < |s| ==> r[i] == UpperChar(s[i])
  {
    if s == [] then [] else [UpperChar(s[0])] + ToUpper(s[1..])
  }

  /** `t` occurs in `s` starting at position `i`. */
  predicate OccursAt(s: string, t: string, i: int) {
    0 <= i <= |s| - |t| && s[i..i + |t|] == t
  }

  /** `s.includes(t)`: `t` occurs in `s` at some position. */
  predicate Includes(s: string, t: string) {
    exists i :: 0 <= i <= |s| - |t| && OccursAt(s, t, i)
  }

  /** The position of the first key that `s` includes. */
  function FirstIncluded(keys: seq<string>, s: string): (r: Option<nat>)
    ensures r.Some? ==> r.value < |keys| && Includes(s, keys[r.value])
    ensures r.Some? ==> forall j :: 0 <= j < r.value ==> !Includes(s, keys[j])
    ensures r.None? ==> forall j :: 0 <= j < |keys| ==> !Includes(s, keys[j])
  {
    if keys == [] then None
    else if Includes(s, keys[0]) then Some(0)
    else
      match FirstIncluded(keys[1..], s)
      case None => None
      case Some(i) => Some(i + 1)
  }

  /** `Object.keys(toolRegistry).find(key => command.toLowerCase().includes(key))` */
  function SelectTool(command: string): (key: Option<string>)
    ensures key.Some? ==>
      exists i :: 0 <= i < |RegistryKeys| && RegistryKeys[i] == key.value
        && Includes(ToLower(command), key.value)
        && forall j :: 0 <= j < i ==> !Includes(ToLower(command), RegistryKeys[j])
    ensures key.None? <==> forall j :: 0 <= j < |RegistryKeys| ==> !Includes(ToLower(command), RegistryKeys[j])
  {
    match FirstIncluded(RegistryKeys, ToLower(command))
    case None => None
    case Some(i) => Some(RegistryKeys[i])
  }

  datatype ToolOutcome<R> = Returned(value: R) | Threw(message: Option<string>)

  /** What `mapAndExecuteTool` resolves to; `details` is `None` when the key is absent or undefined. */
  datatype ToolReply<R> = ToolResult(value: R) | ToolError(error: string, details: Option<string>)

  const NoMatchMessage: string := "No matching tool found for the given command."

  function MapAndExecuteTool<P, R>(command: string, params: P, run: (string, P) -> ToolOutcome<R>): (r: ToolReply<R>)
    ensures SelectTool(command).None? ==> r == ToolError(NoMatchMessage, None)
    ensures SelectTool(command).Some? && run(SelectTool(command).value, params).Returned? ==>
      r == ToolResult(run(SelectTool(command).value, params).value)
    ensures SelectTool(command).Some? && run(SelectTool(command).value, params).Threw? ==>
      r == ToolError("Error executing tool: " + SelectTool(command).value, run(SelectTool(command).value, params).message)
  {
    match SelectTool(command)
    case None => ToolError(NoMatchMessage, None)
    case Some(key) =>
      match run(key, params)
      case Returned(v) => ToolResult(v)
      case Threw(message) => ToolError("Error executing tool: " + key, message)
  }

  /** Without a matching key no tool is run: the reply is the same whatever the tools do. */
  lemma NoMatchRunsNoTool<P, R>(command: string, params: P, run1: (string, P) -> ToolOutcome<R>, run2: (string, P) -> ToolOutcome<R>)
    requires forall j :: 0 <= j < |RegistryKeys| ==> !Includes(ToLower(command), RegistryKeys[j])
    ensures MapAndExecuteTool(command, params, run1) == MapAndExecuteTool(command, params, run2) == ToolError(NoMatchMessage, None)
  {
  }

  /** With a matching key, only that key's tool is run, on the unchanged parameters. */
  lemma OnlySelectedToolRuns<P, R>(command: string, params: P, run1: (string, P) -> ToolOutcome<R>, run2: (string, P) -> ToolOutcome<R>)
    requires SelectTool(command).Some?
    requires run1(SelectTool(command).value, params) == run2(SelectTool(command).value, params)
    ensures MapAndExecuteTool(command, params, run1) == MapAndExecuteTool(command, params, run2)
  {
  }

  /** Lower-casing forgets what upper-casing did. */
  lemma {:induction false} LowerOfUpper(s: string)
    ensures ToLower(ToUpper(s)) == ToLower(s)
  {
  }

  /** Matching ignores the case of the command's ASCII letters. */
  lemma {:induction false} SelectionIgnoresCase(command: string)
    ensures SelectTool(ToUpper(command)) == SelectTool(command)
  {
    LowerOfUpper(command);
  }

  /**
   * The registry's order decides between keys: "get components" wins whenever the
   * lower-cased command includes it, "update component" only when it does not, and
   * "fetch figma file" only when neither of the others is included.
   */
  lemma SelectionFollowsRegistryOrder(command: string)
    ensures var lower := ToLower(command);
      && (Includes(lower, "get components") ==> SelectTool(command) == Some("get components"))
      && (!Includes(lower, "get components") && Includes(lower, "update component") ==>
            SelectTool(command) == Some("update component"))
      && (!Includes(lower, "get components") && !Includes(lower, "update component") && Includes(lower, "fetch figma file") ==>
            SelectTool(command) == Some("fetch figma file"))
  {
    var lower := ToLower(command);
    var rest := ["update component", "fetch figma file"];
    assert RegistryKeys == ["get components"] + rest;
    assert rest[1..] == ["fetch figma file"];
    assert ["fetch figma file"][1..] == [];
    if !Includes(lower, "get components") {
      assert FirstIncluded(RegistryKeys, lower) ==
        (match FirstIncluded(rest, lower) case None => None case Some(i) => Some(i + 1));
      if !Includes(lower, "update component") {
        assert FirstIncluded(rest, lower) ==
          (match FirstIncluded(rest[1..], lower) case None => None case Some(i) => Some(i + 1));
      }
    }
  }
}
