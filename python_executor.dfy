/**
 * The script executor. Running arbitrary Python is not modelled: `exec` is a
 * given `Interpreter` that maps the code and the globals it receives to an
 * `Outcome` — the text the script writes and how it ends. What is modelled
 * is everything around it: the globals handed over, the swap of the
 * process-wide `sys.stdout` and its restoration on every path, the result
 * record, the order of the `except` clauses and their messages, and the
 * splitting of captured text into lines.
 */
module Executor {
  import opened Wrappers
  import Text
  import Stdio
  import AgentApi

  /** A binding in the script's global namespace. */
  datatype Binding = AgentRef(agent: AgentApi.AgentAPI?) | Builtins

  type Globals = map<string, Binding>

  /** How a raised exception is classified by its class. */
  datatype Exception =
    | SyntaxErr(lineno: Option<int>, msg: Option<string>)   // SyntaxError and its subclasses
    | NameErr(text: string)                                  // NameError and subclasses; `text` is str(e)
    | AttrErr(text: string)                                  // AttributeError and subclasses
    | Other(typeName: string, text: string)                  // any other Exception subclass
    | NonException(typeName: string)                         // BaseException outside Exception

  /** How running the script ends; `printed` is what it wrote to stdout first. */
  datatype Outcome = Finished(printed: string) | Raised(printed: string, exc: Exception)

  /** `exec(code, globals)`, as seen from outside. */
  type Interpreter = (string, Globals) -> Outcome

  /** The record `execute_code` returns: exactly the keys success, output, error. */
  datatype ExecutionResult = ExecutionResult(success: bool, output: seq<string>, error: string)

  /** `execute_code` either returns its record or lets an exception through. */
  datatype Completion = Returned(result: ExecutionResult) | Propagates(exc: Exception)

  /** The globals `execute_code` evaluates the script in. */
  function ExecGlobals(agent: AgentApi.AgentAPI?): (g: Globals)
    ensures g.Keys == {"agent", "__builtins__"}
    ensures g["agent"] == AgentRef(agent) && g["__builtins__"] == Builtins
  {
    map["agent" := AgentRef(agent), "__builtins__" := Builtins]
  }

  /** Python's `str()` of an optional integer attribute. */
  function OptIntText(v: Option<int>): string
  {
    if v.Some? then Text.IntToString(v.value) else "None"
  }

  /** Python's `str()` of an optional string attribute. */
  function OptText(v: Option<string>): string
  {
    if v.Some? then v.value else "None"
  }

  const SyntaxPrefix: string := "Syntax Error on line "
  const NamePrefix: string := "Name Error: "
  const AttributePrefix: string := "Attribute Error: "
  const OtherPrefix: string := "Error: "

  function SyntaxMessage(lineno: Option<int>, msg: Option<string>): string
  {
    SyntaxPrefix + OptIntText(lineno) + ": " + OptText(msg)
  }

  function NameMessage(text: string): string
  {
    NamePrefix + text
  }

  function AttributeMessage(text: string): string
  {
    AttributePrefix + text
  }

  function OtherMessage(typeName: string, text: string): string
  {
    OtherPrefix + typeName + ": " + text
  }

  /** The four `except` clauses in order: the message of the first that catches, if any. */
  function Classify(e: Exception): (r: Option<string>)
    ensures r.None? <==> e.NonException?
    ensures r.Some? ==> |r.value| > 0
  {
    match e
    case SyntaxErr(lineno, msg) => Some(SyntaxMessage(lineno, msg))
    case NameErr(text) => Some(NameMessage(text))
    case AttrErr(text) => Some(AttributeMessage(text))
    case Other(typeName, text) => Some(OtherMessage(typeName, text))
    case NonException(_) => None
  }

  /** The classes a message can report, read back from its prefix. */
  datatype Category = SyntaxCategory | NameCategory | AttributeCategory | OtherCategory | Unrecognised

  function CategoryOf(e: Exception): Category
  {
    match e
    case SyntaxErr(_, _) => SyntaxCategory
    case NameErr(_) => NameCategory
    case AttrErr(_) => AttributeCategory
    case Other(_, _) => OtherCategory
    case NonException(_) => Unrecognised
  }

  function MessageCategory(m: string): Category
  {
    if SyntaxPrefix <= m then SyntaxCategory
    else if NamePrefix <= m then NameCategory
    else if AttributePrefix <= m then AttributeCategory
    else if OtherPrefix <= m then OtherCategory
    else Unrecognised
  }

  /** A message names its exception's class: the prefixes cannot be confused. */
  lemma ClassifyCategory(e: Exception)
    requires !e.NonException?
    ensures MessageCategory(Classify(e).value) == CategoryOf(e)
  {
    var m := Classify(e).value;
    match e
    case SyntaxErr(lineno, msg) =>
      assert m == SyntaxPrefix + (OptIntText(lineno) + ": " + OptText(msg));
    case NameErr(text) =>
      assert m[0] == 'N';
    case AttrErr(text) =>
      assert m[0] == 'A';
    case Other(typeName, text) =>
      assert m == OtherPrefix + (typeName + ": " + text);
      assert m[0] == 'E';
  }

  /** The text of `s` before the first `c` (all of `s` if there is none). */
  function TakeUntil(s: string, c: char): (r: string)
    ensures r <= s && c !in r
  {
    if s == [] || s[0] == c then [] else [s[0]] + TakeUntil(s[1..], c)
  }

  lemma {:induction false} TakeUntilPrefix(a: string, b: string, c: char)
    requires c !in a
    ensures TakeUntil(a + [c] + b, c) == a
  {
    if a != [] {
      assert (a + [c] + b)[1..] == a[1..] + [c] + b;
      TakeUntilPrefix(a[1..], b, c);
      assert [a[0]] + a[1..] == a;
    } else {
      assert (a + [c] + b)[0] == c;
    }
  }

  /** The line number a syntax-error message reports. */
  function ReportedLine(m: string): int
    requires SyntaxPrefix <= m
  {
    Text.ParseInt(TakeUntil(m[|SyntaxPrefix|..], ':'))
  }

  /** A syntax-error message carries the parser's line number, readable back. */
  lemma SyntaxMessageLine(lineno: int, msg: Option<string>)
    ensures SyntaxPrefix <= SyntaxMessage(Some(lineno), msg)
    ensures ReportedLine(SyntaxMessage(Some(lineno), msg)) == lineno
  {
    var digits := Text.IntToString(lineno);
    var rest := " " + OptText(msg);
    Text.IntToStringRoundTrip(lineno);
    var m := SyntaxMessage(Some(lineno), msg);
    assert m == SyntaxPrefix + (digits + [':'] + rest);
    assert m[|SyntaxPrefix|..] == digits + [':'] + rest;
    TakeUntilPrefix(digits, rest, ':');
  }

  /**
   * The captured text as the result's `output`: no lines for empty text,
   * otherwise the text split on newlines — one more piece than there are
   * newlines, none containing a newline, and joining back to the text.
   */
  function CapturedLines(text: string): (r: seq<string>)
    ensures text == "" ==> r == []
    ensures text != "" ==> |r| == Text.Count(text, '\n') + 1
    ensures forall i :: 0 <= i < |r| ==> '\n' !in r[i]
    ensures text != "" ==> Text.Join(r, '\n') == text
  {
    if text == "" then []
    else
      Text.SplitPiecesFree(text, '\n');
      Text.JoinSplit(text, '\n');
      Text.Split(text, '\n')
  }

  /**
   * What `execute_code` does with an outcome of `exec`: a successful
   * record with the captured lines, a failed record with an empty output
   * and a classified message (partial output is dropped), or — for an
   * exception no clause catches — no record at all.
   */
  function Complete(o: Outcome): (c: Completion)
    ensures c.Propagates? <==> o.Raised? && o.exc.NonException?
    ensures c.Propagates? ==> c.exc == o.exc
    ensures c.Returned? ==> (c.result.success <==> o.Finished?)
    ensures c.Returned? && c.result.success ==>
      c.result.error == "" && c.result.output == CapturedLines(o.printed)
    ensures c.Returned? && !c.result.success ==>
      c.result.output == [] && c.result.error != "" && Classify(o.exc) == Some(c.result.error)
  {
    match o
    case Finished(printed) => Returned(ExecutionResult(true, CapturedLines(printed), ""))
    case Raised(_, e) =>
      match Classify(e)
      case Some(m) => Returned(ExecutionResult(false, [], m))
      case None => Propagates(e)
  }

  /** A script printing "hi": the captured text ends in a newline, so the lines end in an empty one. */
  lemma ExamplePrintHi()
    ensures Complete(Finished("hi\n")) == Returned(ExecutionResult(true, ["hi", ""], ""))
  {
    assert Text.Join(["hi", ""], '\n') == "hi\n";
    Text.SplitJoin(["hi", ""], '\n');
  }

  /** The executor node; `sys` is the process's `sys` module. */
  class PythonExecutor {
    var agent: AgentApi.AgentAPI?
    var outputBuffer: seq<string>
    const sys: Stdio.Sys

    constructor (sys: Stdio.Sys)
      ensures agent == null && outputBuffer == [] && this.sys == sys
    {
      agent := null;
      outputBuffer := [];
      this.sys := sys;
    }

    /** `set_agent(agent_api)`: the facade later scripts see as `agent`. */
    method SetAgent(agentApi: AgentApi.AgentAPI?)
      modifies this
      ensures agent == agentApi && outputBuffer == old(outputBuffer)
    {
      agent := agentApi;
    }

    /**
     * `execute_code(code)`, with `exec` the given interpreter. It runs the
     * code in `ExecGlobals(agent)` with a fresh stream as stdout, and on
     * every path — returned record or propagating exception — puts the
     * previous stdout back; the completion is `Complete` of the
     * interpreter's outcome.
     */
    method ExecuteCode(code: string, exec: Interpreter) returns (c: Completion)
      modifies this, sys, sys.stdout
      modifies if agent != null && agent.controller != null then {agent.controller} else {}
      ensures agent == old(agent) && outputBuffer == []
      ensures sys.stdout == old(sys.stdout)
      ensures c == Complete(exec(code, ExecGlobals(old(agent))))
    {
      outputBuffer := [];

      var oldStdout := sys.stdout;
      var capture := new Stdio.Stream();
      sys.stdout := capture;

      var result := ExecutionResult(false, [], "");
      var uncaught: Option<Exception> := None;

      // try:
      var globals := ExecGlobals(agent);
      var outcome := exec(code, globals);
      sys.stdout.Write(outcome.printed);
      match outcome {
        case Finished(_) =>
          var output := sys.stdout.text;
          assert output == outcome.printed;
          if output != "" {
            result := result.(output := Text.Split(output, '\n'));
          }
          result := result.(success := true);
        case Raised(_, e) =>
          match e {
            case SyntaxErr(lineno, msg) =>
              result := result.(error := SyntaxMessage(lineno, msg));
            case NameErr(text) =>
              result := result.(error := NameMessage(text));
            case AttrErr(text) =>
              result := result.(error := AttributeMessage(text));
            case Other(typeName, text) =>
              result := result.(error := OtherMessage(typeName, text));
            case NonException(_) =>
              uncaught := Some(e);
          }
      }
      // finally:
      sys.stdout := oldStdout;

      assert outcome == exec(code, ExecGlobals(old(agent)));
      if uncaught.Some? {
        c := Propagates(uncaught.value);
      } else {
        c := Returned(result);
      }
    }
  }
}
