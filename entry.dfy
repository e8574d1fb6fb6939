/** main.py: environment lookup, the two toy tools and their registration with `llm`.
    The process environment is the parameter `env`. */
module Entry {
  import opened Wrappers

  const DefaultModel := "gemini/gemini-2.5-flash"

  /** `get_env(name, default, required)`: the variable's value when set (even to the empty string), else the
      default, which may be `None`; `ValueError` (its message) exactly when it is required and both are absent. */
  function GetEnv(env: map<string, string>, name: string, default: Option<string>, required: bool)
    : (r: Result<Option<string>, string>)
    ensures r.Failure? <==> required && name !in env && default.None?
    ensures r.Success? && name in env ==> r.value == Some(env[name])
    ensures r.Success? && name !in env ==> r.value == default
    ensures r.Failure? ==> r.error == "Required environment variable '" + name + "' is not set"
  {
    var value := if name in env then Some(env[name]) else default;
    if required && value.None? then Failure("Required environment variable '" + name + "' is not set")
    else Success(value)
  }

  /** With a default, `get_env` never raises, even when required. */
  lemma GetEnvWithDefaultNeverRaises(env: map<string, string>, name: string, default: string, required: bool)
    ensures GetEnv(env, name, Some(default), required).Success?
    ensures GetEnv(env, name, Some(default), required).value.Some?
  {
  }

  /** The model name `main` uses: `LLM_MODEL`, falling back to the Gemini default. */
  function ModelName(env: map<string, string>): (r: string)
    ensures "LLM_MODEL" in env ==> r == env["LLM_MODEL"]
    ensures "LLM_MODEL" !in env ==> r == "gemini/gemini-2.5-flash"
  {
    var r := GetEnv(env, "LLM_MODEL", Some(DefaultModel), true);
    r.value.value
  }

  /** Number of non-overlapping occurrences of a non-empty `sub` in `text`, scanning left to right. */
  function CountFrom(text: string, sub: string): (r: nat)
    requires |sub| > 0
    decreases |text|
  {
    if |text| < |sub| then 0
    else if text[..|sub|] == sub then 1 + CountFrom(text[|sub|..], sub)
    else CountFrom(text[1..], sub)
  }

  /** `count_char(text, character)`, which is Python's `text.count(character)`: an empty argument is counted
      once at every position, `|text| + 1` times. */
  function CountChar(text: string, character: string): (r: nat)
    ensures character == [] ==> r == |text| + 1
  {
    if character == [] then |text| + 1 else CountFrom(text, character)
  }

  /** For one character, the count is the number of positions holding it, so it lies in `0..|text|`. */
  lemma {:induction false} CountSingleCharacter(text: string, c: char)
    ensures CountChar(text, [c]) == multiset(text)[c]
    ensures CountChar(text, [c]) <= |text|
  {
    if |text| > 0 {
      CountSingleCharacter(text[1..], c);
      assert text == [text[0]] + text[1..];
      assert multiset(text) == multiset([text[0]]) + multiset(text[1..]);
      assert text[..1] == [text[0]];
    }
  }

  /** Occurrences do not overlap: together they never cover more than the text. */
  lemma {:induction false} CountFitsText(text: string, sub: string)
    requires |sub| > 0
    ensures CountChar(text, sub) * |sub| <= |text|
  {
    if |text| >= |sub| {
      if text[..|sub|] == sub {
        CountFitsText(text[|sub|..], sub);
      } else {
        CountFitsText(text[1..], sub);
      }
    }
  }

  /** The tool functions main.py defines; `upper` is named but its case mapping is not modelled. */
  datatype ToolFunction = UpperTool | CountCharTool

  /** The function's own `__name__`, which `register` uses when no `name=` is given. */
  function FunctionName(f: ToolFunction): string {
    match f
    case UpperTool => "upper"
    case CountCharTool => "count_char"
  }

  datatype Binding = Binding(name: string, tool: ToolFunction)

  /** One `register(fn, name=...)` call. */
  function Register(f: ToolFunction, name: Option<string>): (b: Binding)
    ensures b.tool == f
    ensures name.Some? ==> b.name == name.value
    ensures name.None? ==> b.name == FunctionName(f)
  {
    Binding(name.GetOr(FunctionName(f)), f)
  }

  /** `register_tools`: `upper` under its own name, `count_char` renamed; two bindings with distinct names. */
  function RegisterTools(): (r: seq<Binding>)
    ensures |r| == 2
    ensures r[0] == Binding("upper", UpperTool)
    ensures r[1] == Binding("count_character_in_word", CountCharTool)
    ensures r[0].name != r[1].name
  {
    [Register(UpperTool, None), Register(CountCharTool, Some("count_character_in_word"))]
  }
}
