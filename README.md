# ScriptVoxel agent scripting core, modelled in Dafny

ScriptVoxel lets user-written Python snippets drive an agent in a block world. This project models the two pieces that make up that scripting core:

- **`AgentAPI`**: the facade scripts see as `agent`. `move` and `turn` take a direction word, lower-case it, and turn it into an ordered list of calls on the host's movement controller. `left`/`right` in `move` are sidesteps: turn 90°, move forward, turn back. An unknown word prints a notice and moves nothing. The block and sensing queries pass the interaction service's answer through. Every operation falls back to a fixed value (`False`, `{"exists": False}`, `[]`, `None`) or does nothing when its service reference is absent.
- **`PythonExecutor.execute_code`**: runs a script with stdout swapped to a fresh buffer, builds the `{success, output, error}` record, classifies exceptions in the order of its `except` clauses, splits the captured text on `'\n'`, and restores stdout in `finally`.

Files:

| file | module | contents |
|---|---|---|
| `wrappers.dfy` | `Wrappers` | `Option`, which stands for Python's `None`-or-value |
| `text.dfy` | `Text` | ASCII `lower`, `split`/`join` on one character, `str()` of an integer, and the round trips between them |
| `stdio.dfy` | `Stdio` | a text stream (`StringIO` or the console) and the `sys` module with its swappable `stdout` |
| `agent_api.dfy` | `AgentApi` | the controller's call trace, the interaction service's answers, and the `AgentAPI` class |
| `python_executor.dfy` | `Executor` | the abstract `exec` outcome, classification, the result record, and the `PythonExecutor` class |

How each part is modelled:

- **The movement controller** is a class that records every call it gets in an append-only `trace`. It also keeps an integer `heading`: `turn_left(g)` adds `g` and `turn_right(g)` subtracts it.
- **The facade's methods** are proved against the functions `MoveCalls` and `TurnCalls`. Each method's postcondition says the trace grows by exactly those calls, what happens to the heading, and what is printed to whatever `sys.stdout` is at the time of the call.
- **`exec`** is a given function, `Interpreter`, from the code and the globals to an `Outcome`. An outcome is the text the script printed plus how it ended: it finished, or it raised a syntax error, a name error, an attribute error, another `Exception`, or a `BaseException` outside `Exception`.
- **`ExecuteCode`** is a method. It reassigns `output_buffer`, swaps `sys.stdout` for a fresh stream and writes the script's text into it. It then updates the result record field by field, as the `try`/`except` branches do, and puts the old stream back. For the last case above, the exception propagates and no record is returned.

## Model

| member | source | states |
|---|---|---|
| `AgentApi.MoveCalls` | project/blocky_game/agent/agent_api.py:31-51 | a lower-cased direction gives no controller call exactly when it is not one of forward/back/backward/left/right/up/down; every accepted word leaves the net heading at 0, including distance 0; left/right give three calls with the forward move in the middle; the other words give one call |
| `AgentApi.TurnCalls` | project/blocky_game/agent/agent_api.py:62-68 | no call exactly when the word is not left/right; at most one call; net rotation is +degrees for left, -degrees for right, 0 otherwise |
| `AgentApi.MovePrinted` | project/blocky_game/agent/agent_api.py:50-51 | `move` prints something exactly when the word is not accepted |
| `AgentApi.TurnPrinted` | project/blocky_game/agent/agent_api.py:67-68 | `turn` prints something exactly when the word is not left/right |
| `AgentApi.NetTurnAppend` | project/blocky_game/agent/agent_api.py:36-45 | the heading change of consecutive calls is the sum of their changes; this is what keeps the controller's heading equal to its starting heading plus the net rotation of its whole trace after every call |
| `AgentApi.MirrorNetTurn` | project/blocky_game/agent/agent_api.py:41-45 | swapping left and right turns negates the net rotation of any call sequence |
| `AgentApi.DirectionSymmetry` | project/blocky_game/agent/agent_api.py:34-45 | `move("right")` and `turn("right")` issue the mirror image of their "left" calls; "back" and "backward" issue the same calls as a forward move by the negated distance |
| `AgentApi.DirectionCaseInsensitive` | project/blocky_game/agent/agent_api.py:31 | a direction and its lower-cased form yield the same calls and the same printed text, for `move` and for `turn` |
| `Text.LowerIdempotent` | project/blocky_game/agent/agent_api.py:62 | lower-casing twice is the same as lower-casing once |
| `AgentApi.AgentAPI.Move` | project/blocky_game/agent/agent_api.py:22-51 | with no controller, no call and no output; otherwise the trace grows by exactly `MoveCalls(lower(direction), distance)`, the heading ends where it started, and stdout gets the unknown-direction notice only for a word that is not accepted |
| `AgentApi.AgentAPI.Turn` | project/blocky_game/agent/agent_api.py:53-68 | with no controller, no call and no output; otherwise the trace grows by exactly `TurnCalls(lower(direction), degrees)`, the heading moves by their net rotation, and stdout gets the unknown-turn notice only for a word other than left/right |
| `AgentApi.AgentAPI.Jump` | project/blocky_game/agent/agent_api.py:70-73 | one jump call when a controller is present; no call otherwise |
| `AgentApi.AgentAPI.MoveForward` | project/blocky_game/agent/agent_api.py:76-78 | the same trace, heading and output as `move("forward", distance)`, namely one forward move by `distance` and no output |
| `AgentApi.AgentAPI.TurnLeft` | project/blocky_game/agent/agent_api.py:80-82 | the same trace, heading and output as `turn("left", degrees)`, namely one left turn and heading + degrees |
| `AgentApi.AgentAPI.TurnRight` | project/blocky_game/agent/agent_api.py:84-86 | the same trace, heading and output as `turn("right", degrees)`, namely one right turn and heading - degrees |
| `AgentApi.AgentAPI.PlaceBlock` | project/blocky_game/agent/agent_api.py:89-93 | false without an interaction service; otherwise exactly the service's answer for that block name |
| `AgentApi.AgentAPI.BreakBlock` | project/blocky_game/agent/agent_api.py:95-99 | false without an interaction service; otherwise exactly the service's answer |
| `AgentApi.AgentAPI.InspectBlock` | project/blocky_game/agent/agent_api.py:101-105 | the one-key record `{"exists": False}` without an interaction service; otherwise exactly the service's record |
| `AgentApi.AgentAPI.DetectNearbyBlocks` | project/blocky_game/agent/agent_api.py:108-112 | `[]` without an interaction service; otherwise exactly the service's list for that radius (default 3) |
| `AgentApi.AgentAPI.GetPosition` | project/blocky_game/agent/agent_api.py:114-118 | `None` exactly when there is no controller; otherwise the controller's position |
| `AgentApi.AgentAPI.GetFacingDirection` | project/blocky_game/agent/agent_api.py:120-124 | `None` exactly when there is no controller; otherwise the controller's forward vector |
| `Executor.ExecGlobals` | project/blocky_game/agent/python_executor.py:44-47 | the script's globals have exactly the keys `agent` and `__builtins__`, and `agent` is bound to the executor's current agent |
| `Executor.Classify` | project/blocky_game/agent/python_executor.py:59-66 | an `except` clause catches the exception exactly when it is an `Exception`, and the message it produces is never empty |
| `Executor.ClassifyCategory` | project/blocky_game/agent/python_executor.py:59-66 | the message's prefix recovers which clause caught the exception: syntax, name, attribute, or other |
| `Executor.SyntaxMessageLine` | project/blocky_game/agent/python_executor.py:60 | a syntax-error message starts with "Syntax Error on line " and the parser's line number can be read back from it |
| `Text.IntToStringRoundTrip` | project/blocky_game/agent/python_executor.py:60 | `str()` of a line number parses back to that number and contains no `:` |
| `Executor.CapturedLines` | project/blocky_game/agent/python_executor.py:53-55 | empty captured text gives no lines; otherwise one more line than the text has newlines, no line contains a newline, and joining the lines with newlines gives the text back |
| `Text.Split` | project/blocky_game/agent/python_executor.py:55 | `split('\n')` yields one more piece than there are separators |
| `Text.SplitPiecesFree` | project/blocky_game/agent/python_executor.py:55 | no piece of a split contains the separator |
| `Text.JoinSplit` | project/blocky_game/agent/python_executor.py:55 | joining the pieces of a split gives the original text |
| `Text.SplitJoin` | project/blocky_game/agent/python_executor.py:55 | splitting a join of separator-free pieces gives the pieces back |
| `Executor.Complete` | project/blocky_game/agent/python_executor.py:36-66 | a record is returned unless the exception is not an `Exception`, which propagates unchanged; success is true exactly when the script finished; on success the error is "" and the output is the captured lines; on failure the output is `[]` (partial output is dropped) and the error is the non-empty classified message |
| `Executor.ExamplePrintHi` | project/blocky_game/agent/python_executor.py:53-57 | a script that prints "hi" gets output `["hi", ""]`, because of the trailing newline |
| `Executor.PythonExecutor.constructor` | project/blocky_game/agent/python_executor.py:16-19 | a new executor has no agent and an empty output buffer |
| `Executor.PythonExecutor.SetAgent` | project/blocky_game/agent/python_executor.py:21-23 | the agent is replaced by the given reference |
| `Executor.PythonExecutor.ExecuteCode` | project/blocky_game/agent/python_executor.py:25-71 | the output buffer ends as `[]` and the agent is unchanged; `sys.stdout` is the same stream afterwards, on every path including propagation; the completion is `Complete` of the interpreter's outcome for this code in `ExecGlobals(agent)` |

## Behaviour worth noting

Three consequences of the code that a reader might not expect; the model follows the code in each:

- **Partial output.** One might expect output written before a failure to be kept. In the code, `result['output']` is only assigned after `exec` completes. A failed run therefore always reports `output == []` (`Executor.Complete`).
- **Trailing newline.** One might expect `["hi"]` as the output of `print('hi')`. The code splits `"hi\n"` and gets `["hi", ""]` (`Executor.ExamplePrintHi`).
- **Propagation.** One might expect no exception to reach the caller. The code catches only `Exception`. `SystemExit`, `KeyboardInterrupt` and the other `BaseException` subclasses propagate, after `finally` has restored stdout (`Executor.Complete`, `Executor.PythonExecutor.ExecuteCode`).

## Left out

- The Godot plumbing is not modelled: the `@exposed` decorator, the `Node` base class and the `_ready` lookups of the two sibling nodes. The `AgentAPI` constructor takes the controller and the interaction service as given references, either of which may be absent.
- Python truthiness of those references is modelled as `null`/`None`. A freed Godot object is not distinguished from an absent one.
- Movement physics belongs to the host. The `Controller` methods promise only their trace entry and the heading change; `Controller.Valid` ties the heading to the trace. Position and facing are opaque fields that no call constrains, and `GetPosition` and `GetFacingDirection` just return them.
- The heading is a plain integer sum of turns, not reduced modulo 360.
- Real block logic belongs to the host. The interaction service is a fixed set of answers (`Interaction`). The world changes that placing or breaking a block causes are not modelled, so repeated queries give the same answer.
- Distances, degrees and the radius are integers, not floats. The defaults 1.0, 90.0 and 3 become 1, 90 and 3.
- `AgentApi.AgentAPI.Move`: lower-casing is ASCII only. Python's Unicode `str.lower` maps a few non-ASCII letters onto ASCII ones, such as the Kelvin sign onto `k`. The model does not capture those.
- `AgentApi.AgentAPI.Turn`: lower-casing is ASCII only, as for `Move`.
- Arguments are typed, so a direction that is not a string is not modelled. In the source, when a controller is present and the argument has no `lower` method, `lower()` raises `AttributeError`.
- `exec` cannot be modelled. It is the `Interpreter` parameter, a pure function of the code and the globals, so the model's run of a script changes neither the agent's controller nor any stream. In the source, a script can move the agent through the facade during `exec`. With unrestricted `__builtins__` it can also write to the console directly, for example through `sys.__stdout__`.
- `StringIO` is the `Stdio.Stream` class. A script that rebinds `sys.stdout` itself is not modelled.
- An exception raised while a message is being formatted is not modelled, for example by an `__str__` that raises. In the source it would propagate after `finally` has restored stdout.
- `Executor.PythonExecutor.ExecuteCode`: the interpreter's outcome is taken as given. Nothing is said about which outcome a particular code string produces, beyond the worked case in the examples. The method may change the agent's controller and the previous stdout stream, as a script can, but it promises nothing about how they change.
- No isolation or sandboxing property is stated, because `__builtins__` is passed through unrestricted.
- Timeouts and non-terminating scripts are not modelled; the code has no timeout mechanism.
- Concurrency is not modelled. The model has a single `sys.stdout`, used by one call at a time.
