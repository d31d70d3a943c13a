/** What a command handler receives from the command line, and where it sends its replies. */
module Chat {

  /**
   * A parsed slash-command: `command` is the canonical name, `origCommand` the name
   * as typed, `args` the words after it and `rawArgs` the text after it as typed.
   */
  datatype Command = Command(command: string, origCommand: string, args: seq<string>, rawArgs: string)

  /** The reply channel of a command: every `cmd.Reply` appends one message. */
  class Console {
    var lines: seq<string>

    constructor ()
      ensures lines == []
    {
      lines := [];
    }

    method Reply(message: string)
      modifies this
      ensures lines == old(lines) + [message]
    {
      lines := lines + [message];
    }
  }
}
