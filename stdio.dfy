/**
 * Python's standard-output machinery as far as the core touches it: a text
 * stream that accumulates what is written to it (`io.StringIO`, or the
 * host's console), and the process-wide `sys` module whose `stdout`
 * attribute names the stream `print` currently writes to.
 */
module Stdio {

  /** A writable text stream; `text` is everything written so far (`getvalue()`). */
  class Stream {
    var text: string

    /** `StringIO()`: a fresh, empty stream. */
    constructor ()
      ensures text == ""
    {
      text := "";
    }

    method Write(s: string)
      modifies this
      ensures text == old(text) + s
    {
      text := text + s;
    }
  }

  /** The `sys` module; `stdout` is the single process-wide sink. */
  class Sys {
    var stdout: Stream

    constructor (console: Stream)
      ensures stdout == console
    {
      stdout := console;
    }

    /** `print(line)`: the line and a newline go to whatever `stdout` is now. */
    method Print(line: string)
      modifies stdout
      ensures stdout.text == old(stdout.text) + line + "\n"
    {
      stdout.Write(line + "\n");
    }
  }
}
