/**
 * The message records the handlers build. `createMessage` (a backend helper)
 * is not part of this model: its result is taken to be a message with the
 * role, content and options it is given, stamped with the clock's reading.
 */
module Messages {
  import opened Wrappers
  import opened SharedTypes

  /** The options the handlers pass to `createMessage`. */
  datatype MessageOptions = MessageOptions(
    id: Option<string>,
    server: Option<string>,
    tool: Option<string>,
    arguments: Option<Json>)

  /**
   * The handler's view of time and randomness: `Date.now()`, the ISO form of
   * the same instant, and the eight base-36 characters taken from
   * `Math.random()`.
   */
  datatype Clock = Clock(now: nat, isoNow: string, randomTag: string)

  function CreateMessage(role: Role, content: Content, options: MessageOptions, clock: Clock): Message
  {
    Message(role, content, clock.isoNow, clock.now, options.id, None, None, None, None,
            options.server, options.tool, options.arguments)
  }
}
