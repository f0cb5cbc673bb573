/**
 * Command descriptors and the command service the router consults. The
 * service's implementation is not part of this model: its three queries
 * and the behaviour of every command other than "go to" are parameters,
 * assumed to be pure functions of their arguments.
 */
module Commands {
  import opened Wrappers
  import opened Messaging

  /** A descriptor's `match` field: a strategy tag such as "startsWith", or an array of trigger phrases. */
  datatype MatchSpec = Strategy(tag: string) | Triggers(phrases: seq<string>)

  /** Which `exec` a descriptor carries. */
  datatype Action = GoToAction(alias: string) | External

  datatype Command = Command(id: string, name: string, description: string, matching: MatchSpec, action: Action)

  /**
   * What the callback handed to `exec` was given: never called, or called
   * with an optional message (`undefined` is None).
   */
  datatype Callback = NotCalled | Called(message: Option<string>) {
    /** The callback received a message that JavaScript treats as true. */
    predicate HasMessage()
      ensures HasMessage() ==> Called?
      ensures Called? && message.None? ==> !HasMessage()
      ensures Called? && message.Some? ==> (HasMessage() <==> |message.value| > 0)
    {
      Called? && message.Some? && message.value != ""
    }
  }

  /** The messages a command's `exec` sends, in order, and what it passed to its callback. */
  datatype ExecOutcome = ExecOutcome(sends: seq<Envelope>, callback: Callback)

  /** The arguments `getMatchingCommand` hands to its callback on a match. */
  datatype Match = Match(command: Command, originalText: string, commandContent: string)

  datatype Service = Service(
    // getCommands(languageId, source)
    getCommands: (string, string) -> seq<Command>,
    // getAllCommands(languageId)
    getAllCommands: string -> seq<Command>,
    // getMatchingCommand(commands, text, {mode}): the command the callback receives, if any
    getMatchingCommand: (seq<Command>, string, Mode) -> Option<Match>,
    // exec(commandContent, {originalText}, callback) of a command not in this model
    execExternal: (Command, string, string) -> ExecOutcome)
}
