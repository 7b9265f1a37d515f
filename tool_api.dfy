/**
 * The tool-confirmation endpoint (`handleToolConfirmation`): after the user
 * confirms a tool call, the handler checks that the bot exists, runs the tool
 * once through the tool manager and streams one user message carrying the
 * result and where it came from. It builds no chat repository, so no
 * transcript changes. The tool manager (`McpManager`) is not part of this
 * model: a `ToolExecutor` object records each call and answers it with a
 * given function. `JSON.stringify` of the message is likewise a parameter.
 */
module ToolApi {
  import opened Wrappers
  import opened Lists
  import opened SharedTypes
  import opened Namespaces
  import opened EventStream
  import opened Messages
  import opened BotRepository
  import opened McpServerRepository

  datatype ToolRequest = ToolRequest(botName: string, server: string, tool: string, args: Json)

  datatype ToolCall = ToolCall(server: string, tool: string, args: Json)

  /** What `executeTool` does: returns the tool's result, or throws. */
  datatype ToolRun = Returned(result: Content) | Failed(thrown: Thrown)

  /** The stream written, how it was left, the tool calls made and the message emitted. */
  datatype ToolResult = ToolResult(
    events: seq<string>,
    end: StreamState,
    executed: seq<ToolCall>,
    message: Option<Message>)

  /**
   * The whole handler as a function of the listed bots, the tool's answer,
   * `JSON.stringify` and the clock: at most one tool call, made exactly when
   * the bot is listed; an aborted stream is empty, and an emitted message is
   * a user message followed by `[DONE]`.
   */
  function ToolConfirmation(req: ToolRequest, bots: seq<BotConfig>, respond: ToolCall -> ToolRun,
                            stringify: Message -> string, clock: Clock): (r: ToolResult)
    ensures |r.executed| <= 1
    ensures |r.executed| == 1 <==> Contains(bots, BotName, req.botName)
    ensures r.end == Aborted ==> r.events == [] && r.message.None?
    ensures r.message.Some? ==>
      r.end == Closed && r.message.value.role == User
      && r.events == [Frame(stringify(r.message.value)), DoneEvent]
  {
    if Find(bots, BotName, req.botName).None? then
      ToolResult([ErrorEvent("Bot not found")], Closed, [], None)
    else
      var call := ToolCall(req.server, req.tool, req.args);
      match respond(call)
      case Failed(_) => ToolResult([], Aborted, [call], None)
      case Returned(result) =>
        var m := CreateMessage(User, result,
                               MessageOptions(None, Some(req.server), Some(req.tool), Some(req.args)), clock);
        ToolResult([Frame(stringify(m)), DoneEvent], Closed, [call], Some(m))
  }

  /** An unknown bot: one `Bot not found` event, then close, and the tool never runs. */
  lemma ToolUnknownBot(req: ToolRequest, bots: seq<BotConfig>, respond: ToolCall -> ToolRun,
                       stringify: Message -> string, clock: Clock)
    requires !Contains(bots, BotName, req.botName)
    ensures var r := ToolConfirmation(req, bots, respond, stringify, clock);
      r.events == [ErrorEvent("Bot not found")] && r.end == Closed && r.executed == [] && r.message.None?
  {
  }

  /** A known bot: the tool runs exactly once, with exactly the request's server, tool and arguments. */
  lemma ToolRunsOnce(req: ToolRequest, bots: seq<BotConfig>, respond: ToolCall -> ToolRun,
                     stringify: Message -> string, clock: Clock)
    requires Contains(bots, BotName, req.botName)
    ensures var r := ToolConfirmation(req, bots, respond, stringify, clock);
      |r.executed| == 1
      && r.executed[0].server == req.server && r.executed[0].tool == req.tool && r.executed[0].args == req.args
  {
  }

  /**
   * When the tool returns, the stream is one message event, then `[DONE]`,
   * then close; the message is a user message whose content is the tool's
   * result and whose server, tool and arguments are the request's.
   */
  lemma ToolResultMessage(req: ToolRequest, bots: seq<BotConfig>, respond: ToolCall -> ToolRun,
                          stringify: Message -> string, clock: Clock)
    requires Contains(bots, BotName, req.botName)
    requires respond(ToolCall(req.server, req.tool, req.args)).Returned?
    ensures var r := ToolConfirmation(req, bots, respond, stringify, clock);
      r.message.Some?
      && var m := r.message.value;
      && m.role == User && m.content == respond(ToolCall(req.server, req.tool, req.args)).result
      && m.server == Some(req.server) && m.tool == Some(req.tool) && m.arguments == Some(req.args)
      && |r.events| == 2 && Unframe(r.events[0]) == stringify(m) && r.events[1] == DoneEvent
      && r.end == Closed
  {
    var r := ToolConfirmation(req, bots, respond, stringify, clock);
    FrameUnframe(stringify(r.message.value));
  }

  /** When the tool throws, the stream is aborted with nothing written: no message and no `[DONE]`. */
  lemma ToolFailureAborts(req: ToolRequest, bots: seq<BotConfig>, respond: ToolCall -> ToolRun,
                          stringify: Message -> string, clock: Clock)
    requires Contains(bots, BotName, req.botName)
    requires respond(ToolCall(req.server, req.tool, req.args)).Failed?
    ensures var r := ToolConfirmation(req, bots, respond, stringify, clock);
      r.end == Aborted && DoneEvent !in r.events && r.message.None? && |r.executed| == 1
  {
  }

  /**
   * Only the existence of a bot with the requested name matters: its model,
   * credentials and `mcp_servers` list are never consulted, so the tool runs
   * on a server the bot does not list just the same.
   */
  lemma ToolIgnoresBotDetails(req: ToolRequest, bots1: seq<BotConfig>, bots2: seq<BotConfig>,
                              respond: ToolCall -> ToolRun, stringify: Message -> string, clock: Clock)
    requires Contains(bots1, BotName, req.botName) == Contains(bots2, BotName, req.botName)
    ensures ToolConfirmation(req, bots1, respond, stringify, clock)
         == ToolConfirmation(req, bots2, respond, stringify, clock)
  {
  }

  /** The tool manager as the handler uses it: every call is recorded and answered by `respond`. */
  class ToolExecutor {
    const respond: ToolCall -> ToolRun
    var calls: seq<ToolCall>

    constructor(respond: ToolCall -> ToolRun)
      ensures this.respond == respond && calls == []
    {
      this.respond := respond;
      calls := [];
    }

    method ExecuteTool(server: string, tool: string, args: Json) returns (run: ToolRun)
      modifies this
      ensures calls == old(calls) + [ToolCall(server, tool, args)]
      ensures run == respond(ToolCall(server, tool, args))
    {
      calls := calls + [ToolCall(server, tool, args)];
      run := respond(ToolCall(server, tool, args));
    }
  }

  /**
   * The handler: builds the server and bot repositories (seeding new
   * namespaces), lists the bots and runs the confirmed call. The stream and
   * the calls made are those of `ToolConfirmation`; no chat store is touched.
   */
  method HandleToolConfirmation(botTable: UserTable<BotConfig>, serverTable: UserTable<McpServerConfig>,
                                botsEnv: EnvArray<BotConfig>, serversEnv: EnvArray<McpServerConfig>,
                                serverUrl: Option<string>, userPrefix: Option<string>, req: ToolRequest,
                                executor: ToolExecutor, stringify: Message -> string, clock: Clock,
                                writer: StreamWriter)
    requires writer.written == [] && writer.state == Open
    modifies botTable, serverTable, executor, writer
    ensures var ns := Namespace(userPrefix);
      var bots := if ns in old(botTable.byUser) then old(botTable.byUser)[ns] else ArrayOrEmpty(botsEnv);
      var r := ToolConfirmation(req, MergedBots(bots), executor.respond, stringify, clock);
      && writer.written == r.events && writer.state == r.end
      && executor.calls == old(executor.calls) + r.executed
      && botTable.byUser == old(botTable.byUser)[ns := bots]
      && serverTable.byUser == old(serverTable.byUser)[ns :=
           if ns in old(serverTable.byUser) then old(serverTable.byUser)[ns] else SeedServers(serversEnv, serverUrl)]
  {
    var botRepository := OpenRepositories(botTable, serverTable, botsEnv, serversEnv, serverUrl, userPrefix);
    var bots := botRepository.GetBots();
    ConfirmAndRun(bots, req, executor, stringify, clock, writer);
  }

  /** The server and bot repository constructors the handler runs, each seeding the namespace if it is new. */
  method OpenRepositories(botTable: UserTable<BotConfig>, serverTable: UserTable<McpServerConfig>,
                          botsEnv: EnvArray<BotConfig>, serversEnv: EnvArray<McpServerConfig>,
                          serverUrl: Option<string>, userPrefix: Option<string>)
    returns (botRepository: BotMemoryRepository)
    modifies botTable, serverTable
    ensures botRepository.Valid() && botRepository.table == botTable
    ensures var ns := Namespace(userPrefix);
      var bots := if ns in old(botTable.byUser) then old(botTable.byUser)[ns] else ArrayOrEmpty(botsEnv);
      && botRepository.UserBots() == bots
      && botTable.byUser == old(botTable.byUser)[ns := bots]
      && serverTable.byUser == old(serverTable.byUser)[ns :=
           if ns in old(serverTable.byUser) then old(serverTable.byUser)[ns] else SeedServers(serversEnv, serverUrl)]
  {
    var mcpServerRepository := new McpServerMemoryRepository(serverTable, serversEnv, serverUrl, userPrefix);
    ghost var servers := serverTable.byUser;
    botRepository := new BotMemoryRepository(botTable, botsEnv, userPrefix);
    assert serverTable.byUser == servers;
  }

  /** The bot check, the single tool call and the message, once the bots are listed. */
  method ConfirmAndRun(bots: seq<BotConfig>, req: ToolRequest, executor: ToolExecutor,
                       stringify: Message -> string, clock: Clock, writer: StreamWriter)
    requires writer.written == [] && writer.state == Open
    modifies executor, writer
    ensures var r := ToolConfirmation(req, bots, executor.respond, stringify, clock);
      && writer.written == r.events && writer.state == r.end
      && executor.calls == old(executor.calls) + r.executed
  {
    var botConfig := Find(bots, BotName, req.botName);
    if botConfig.None? {
      writer.Write(ErrorEvent("Bot not found"));
      writer.Close();
      return;
    }
    var run := executor.ExecuteTool(req.server, req.tool, req.args);
    if run.Failed? {
      writer.Abort();
      return;
    }
    var userMessage := CreateMessage(User, run.result,
                                     MessageOptions(None, Some(req.server), Some(req.tool), Some(req.args)), clock);
    writer.Write(Frame(stringify(userMessage)));
    writer.Write(DoneEvent);
    writer.Close();
  }
}
