/**
 * The chat-completions endpoint (`handleChatCompletions`): resolves the bot
 * by name, fills in missing credentials and timeout from the environment,
 * picks the user message (a stored one when resuming, a new one otherwise),
 * hands it to the turn engine and frames everything it writes as server-sent
 * events. The engine (`ChatService` with its provider and tool manager) is
 * not part of this model: what it writes, and whether it throws, are inputs.
 */
module ChatCompletions {
  import opened Wrappers
  import opened Text
  import opened Lists
  import opened SharedTypes
  import opened Namespaces
  import opened EventStream
  import opened Messages
  import opened ChatRepository
  import opened BotRepository
  import opened McpServerRepository

  /** The request body; `userMessageId` selects resume mode when it is a non-empty string. */
  datatype CompletionRequest = CompletionRequest(
    content: string,
    botName: string,
    chatId: string,
    server: Option<string>,
    userMessageId: Option<string>)

  /**
   * The environment values the handler reads: `OPENROUTER_FREE_KEY`,
   * `OPENROUTER_BASE_URL`, and `parseInt(API_TIMEOUT_MS || '0', 10)` with
   * `None` for a result that is not a number.
   */
  datatype TurnEnv = TurnEnv(freeKey: Option<string>, baseUrl: Option<string>, timeout: Option<int>)

  /** What one engine call writes to the stream, and whether it then throws. */
  datatype EngineStep = Finished(events: seq<string>) | Threw(events: seq<string>, thrown: Thrown)

  /** The stream written, how it was left, the bot used and the message handed to the engine. */
  datatype TurnResult = TurnResult(
    events: seq<string>,
    end: StreamState,
    bot: Option<BotConfig>,
    userMessage: Option<Message>)

  /** A non-empty, non-zero timeout (`!!timeout_ms`). */
  predicate HasTimeout(t: Option<int>)
  {
    t.Some? && t.value != 0
  }

  /** If the key or the base url is missing, both are replaced by the environment's. */
  function WithCredentials(bot: BotConfig, env: TurnEnv): BotConfig
  {
    if !Truthy(bot.apiKey) || !Truthy(bot.baseUrl) then bot.(apiKey := env.freeKey, baseUrl := env.baseUrl)
    else bot
  }

  /** A missing or zero timeout takes the environment's, when that is a non-zero number. */
  function WithTimeout(bot: BotConfig, env: TurnEnv): BotConfig
  {
    if !HasTimeout(bot.timeoutMs) && HasTimeout(env.timeout) then bot.(timeoutMs := env.timeout)
    else bot
  }

  /**
   * Both fallbacks: the key and the base url are kept or replaced together,
   * an explicit timeout is kept, and no other field changes.
   */
  function ResolveBot(bot: BotConfig, env: TurnEnv): (r: BotConfig)
    ensures r == bot.(apiKey := r.apiKey, baseUrl := r.baseUrl, timeoutMs := r.timeoutMs)
    ensures (r.apiKey == bot.apiKey && r.baseUrl == bot.baseUrl)
         || (r.apiKey == env.freeKey && r.baseUrl == env.baseUrl)
    ensures HasTimeout(bot.timeoutMs) ==> r.timeoutMs == bot.timeoutMs
  {
    WithTimeout(WithCredentials(bot, env), env)
  }

  /**
   * The credential fallback is all-or-nothing: when either the key or the
   * base url is missing both take the environment's values (so a bot with
   * only one of them loses it); otherwise both are kept. Only the key, the
   * base url and the timeout can change.
   */
  lemma CredentialFallback(bot: BotConfig, env: TurnEnv)
    ensures var r := ResolveBot(bot, env);
      && ((!Truthy(bot.apiKey) || !Truthy(bot.baseUrl)) ==> r.apiKey == env.freeKey && r.baseUrl == env.baseUrl)
      && ((Truthy(bot.apiKey) && Truthy(bot.baseUrl)) ==> r.apiKey == bot.apiKey && r.baseUrl == bot.baseUrl)
      && r == bot.(apiKey := r.apiKey, baseUrl := r.baseUrl, timeoutMs := r.timeoutMs)
  {
  }

  /**
   * An explicit timeout is never overwritten; a missing or zero one takes the
   * environment's non-zero value, and stays as it was when there is none.
   */
  lemma TimeoutFallback(bot: BotConfig, env: TurnEnv)
    ensures var r := ResolveBot(bot, env);
      && (HasTimeout(bot.timeoutMs) ==> r.timeoutMs == bot.timeoutMs)
      && (!HasTimeout(bot.timeoutMs) && HasTimeout(env.timeout) ==> r.timeoutMs == env.timeout)
      && (!HasTimeout(bot.timeoutMs) && !HasTimeout(env.timeout) ==> r.timeoutMs == bot.timeoutMs)
      && (HasTimeout(bot.timeoutMs) || HasTimeout(env.timeout) ==> HasTimeout(r.timeoutMs))
  {
  }

  predicate IsUserMessage(m: Message, id: string)
  {
    m.id == Some(id) && m.role == User
  }

  /** `chat.messages.find(msg => msg.id === id && msg.role === 'user')`. */
  function FindUserMessage(messages: seq<Message>, id: string): (r: Option<Message>)
    ensures r.None? <==> forall i :: 0 <= i < |messages| ==> !IsUserMessage(messages[i], id)
    ensures r.Some? ==> IsUserMessage(r.value, id)
    ensures r.Some? ==> exists i :: 0 <= i < |messages| && messages[i] == r.value
                          && forall j :: 0 <= j < i ==> !IsUserMessage(messages[j], id)
    decreases |messages|
  {
    if |messages| == 0 then None
    else if IsUserMessage(messages[0], id) then Some(messages[0])
    else
      var r := FindUserMessage(messages[1..], id);
      if r.Some? then
        ghost var i :| 0 <= i < |messages[1..]| && messages[1..][i] == r.value
                       && forall j :: 0 <= j < i ==> !IsUserMessage(messages[1..][j], id);
        assert messages[i + 1] == r.value;
        r
      else r
  }

  /** `msg_<Date.now()>_<random tag>`. */
  function NewMessageId(clock: Clock): string
  {
    "msg_" + DecimalString(clock.now) + "_" + clock.randomTag
  }

  /** The rest of the stream once the engine has the message: `[DONE]` and close, or one error event and close. */
  function RunTurn(before: seq<string>, bot: BotConfig, m: Message, step: EngineStep): TurnResult
  {
    match step
    case Finished(evs) => TurnResult(before + evs + [DoneEvent], Closed, Some(bot), Some(m))
    case Threw(evs, t) => TurnResult(before + evs + [ErrorEvent(ThrownText(t))], Closed, Some(bot), Some(m))
  }

  /**
   * The whole handler as a function of the listed bots (`getBots`), the chat
   * the store holds under the request's id (`getChat`), the environment, the
   * clock, and what the engine's `initializeChat` and `processUserMessage`
   * write.
   */
  function Completion(req: CompletionRequest, bots: seq<BotConfig>, chat: Option<Chat>, env: TurnEnv,
                      clock: Clock, init: EngineStep, turn: Message -> EngineStep): (r: TurnResult)
    ensures r.bot.Some? <==> Contains(bots, BotName, req.botName)
    ensures r.bot.Some? ==> r.bot.value.name == req.botName
    ensures r.end == Closed || (r.end == Open && r.userMessage.None?)
    ensures r.userMessage.Some? ==> r.userMessage.value.role == User
    ensures |r.events| >= 1
  {
    match Find(bots, BotName, req.botName)
    case None => TurnResult([ErrorEvent("Bot not found")], Closed, None, None)
    case Some(found) =>
      var bot := ResolveBot(found, env);
      match init
      case Threw(evs, t) => TurnResult(evs + [ErrorEvent(ThrownText(t))], Closed, Some(bot), None)
      case Finished(evs) => AfterInit(req, chat, clock, bot, evs, turn)
  }

  /** After the engine's first call: the resume lookup or a new message, then the turn. */
  function AfterInit(req: CompletionRequest, chat: Option<Chat>, clock: Clock, bot: BotConfig,
                     before: seq<string>, turn: Message -> EngineStep): (r: TurnResult)
    ensures r.bot == Some(bot)
    ensures |r.events| > |before| && r.events[..|before|] == before
    ensures r.end == Open <==> r.userMessage.None?
    ensures r.end != Aborted
    ensures r.userMessage.Some? ==> r.userMessage.value.role == User
  {
    if Truthy(req.userMessageId) then
      match chat
      case None => TurnResult(before + [ErrorEvent("Chat not found")], Open, Some(bot), None)
      case Some(c) =>
        match FindUserMessage(c.messages, req.userMessageId.value)
        case None => TurnResult(before + [ErrorEvent("User message not found")], Open, Some(bot), None)
        case Some(m) => RunTurn(before, bot, m, turn(m))
    else
      var m := CreateMessage(User, StringContent(req.content),
                             MessageOptions(Some(NewMessageId(clock)), req.server, None, None), clock);
      RunTurn(before, bot, m, turn(m))
  }

  /** An unknown bot name: one `Bot not found` event, then close; the engine never sees a message. */
  lemma UnknownBot(req: CompletionRequest, bots: seq<BotConfig>, chat: Option<Chat>, env: TurnEnv,
                   clock: Clock, init: EngineStep, turn: Message -> EngineStep)
    requires !Contains(bots, BotName, req.botName)
    ensures var r := Completion(req, bots, chat, env, clock, init, turn);
      r.events == [ErrorEvent("Bot not found")] && r.end == Closed && r.bot.None? && r.userMessage.None?
  {
  }

  /** The bot used is the first listed bot with the requested name, after the fallbacks. */
  lemma FirstBotByName(req: CompletionRequest, bots: seq<BotConfig>, chat: Option<Chat>, env: TurnEnv,
                       clock: Clock, init: EngineStep, turn: Message -> EngineStep)
    requires Contains(bots, BotName, req.botName)
    ensures var r := Completion(req, bots, chat, env, clock, init, turn);
      var i := IndexOf(bots, BotName, req.botName);
      r.bot == Some(ResolveBot(bots[i], env)) && r.bot.value.name == req.botName
      && forall j :: 0 <= j < i ==> bots[j].name != req.botName
  {
  }

  /**
   * Resume mode: a chat the store does not hold gives `Chat not found`; an
   * id that no user-role message carries gives `User message not found`.
   * Either way the stream is left open, with no `[DONE]` after the error,
   * and the engine gets no message. When the message is found, it is the
   * first stored user message with that id.
   */
  lemma ResumeLookup(req: CompletionRequest, bots: seq<BotConfig>, chat: Option<Chat>, env: TurnEnv,
                     clock: Clock, init: EngineStep, turn: Message -> EngineStep)
    requires Contains(bots, BotName, req.botName) && init.Finished? && Truthy(req.userMessageId)
    ensures var r := Completion(req, bots, chat, env, clock, init, turn);
      && (chat.None? ==>
            r.events == init.events + [ErrorEvent("Chat not found")] && r.end == Open && r.userMessage.None?)
      && (chat.Some? && (forall k :: 0 <= k < |chat.value.messages| ==>
                           !IsUserMessage(chat.value.messages[k], req.userMessageId.value)) ==>
            r.events == init.events + [ErrorEvent("User message not found")] && r.end == Open
            && r.userMessage.None?)
      && (r.userMessage.Some? ==>
            chat.Some? && r.userMessage.value in chat.value.messages
            && r.userMessage.value.role == User && r.userMessage.value.id == req.userMessageId)
  {
    var r := Completion(req, bots, chat, env, clock, init, turn);
    if r.userMessage.Some? {
      var m := FindUserMessage(chat.value.messages, req.userMessageId.value);
      var i :| 0 <= i < |chat.value.messages| && chat.value.messages[i] == m.value
               && forall j :: 0 <= j < i ==> !IsUserMessage(chat.value.messages[j], req.userMessageId.value);
    }
  }

  /**
   * Without a resume id the engine gets a new user message holding the
   * request's content and server, with an id of the form `msg_<digits>_<tag>`
   * whose digits read back as the clock's `Date.now()`.
   */
  lemma NewUserMessage(req: CompletionRequest, bots: seq<BotConfig>, chat: Option<Chat>, env: TurnEnv,
                       clock: Clock, init: EngineStep, turn: Message -> EngineStep)
    requires Contains(bots, BotName, req.botName) && init.Finished? && !Truthy(req.userMessageId)
    ensures var r := Completion(req, bots, chat, env, clock, init, turn);
      r.userMessage.Some?
      && var m := r.userMessage.value;
      && m.role == User && m.content == StringContent(req.content) && m.server == req.server
      && m.id.Some? && StartsWith(m.id.value, "msg_")
      && var d := DecimalString(clock.now);
         m.id.value[4..4 + |d|] == d && m.id.value[4 + |d|] == '_' && DecimalValue(d) == clock.now
  {
    MessageIdDigits(clock);
    var r := Completion(req, bots, chat, env, clock, init, turn);
    assert r.userMessage.value.id == Some(NewMessageId(clock));
  }

  /** The new message id is `msg_`, the digits of `Date.now()`, then `_`. */
  lemma MessageIdDigits(clock: Clock)
    ensures var id := NewMessageId(clock);
      var d := DecimalString(clock.now);
      && StartsWith(id, "msg_") && |id| > 4 + |d|
      && id[4..4 + |d|] == d && id[4 + |d|] == '_' && DecimalValue(d) == clock.now
  {
    DecimalStringValue(clock.now);
    var id := NewMessageId(clock);
    var d := DecimalString(clock.now);
    assert id == "msg_" + d + "_" + clock.randomTag;
    assert id[..4] == "msg_";
    assert id[4..4 + |d|] == d;
    assert id[4 + |d|] == '_';
  }

  /**
   * Once the engine has the message the stream always ends closed: a turn
   * that finishes writes `[DONE]` last; a turn that throws writes one error
   * event last instead, and no `[DONE]` after the engine's own events.
   */
  lemma TurnEnding(req: CompletionRequest, bots: seq<BotConfig>, chat: Option<Chat>, env: TurnEnv,
                   clock: Clock, init: EngineStep, turn: Message -> EngineStep)
    ensures var r := Completion(req, bots, chat, env, clock, init, turn);
      r.userMessage.Some? ==>
        && r.end == Closed
        && var step := turn(r.userMessage.value);
        && (step.Finished? ==> r.events == init.events + step.events + [DoneEvent])
        && (step.Threw? ==> r.events == init.events + step.events + [ErrorEvent(ThrownText(step.thrown))]
                            && r.events[|r.events| - 1] != DoneEvent)
  {
    var r := Completion(req, bots, chat, env, clock, init, turn);
    if r.userMessage.Some? && turn(r.userMessage.value).Threw? {
      ErrorEventsDistinct(ThrownText(turn(r.userMessage.value).thrown), "");
    }
  }

  /** When the engine writes framed events only, every event on the stream is framed. */
  lemma AllEventsFramed(req: CompletionRequest, bots: seq<BotConfig>, chat: Option<Chat>, env: TurnEnv,
                        clock: Clock, init: EngineStep, turn: Message -> EngineStep)
    requires forall e :: e in init.events ==> IsFramed(e)
    requires forall m: Message, e :: e in turn(m).events ==> IsFramed(e)
    ensures forall e :: e in Completion(req, bots, chat, env, clock, init, turn).events ==> IsFramed(e)
  {
    match Find(bots, BotName, req.botName)
    case None =>
      FrameUnframe(ErrorPayload("Bot not found"));
    case Some(found) =>
      match init
      case Threw(evs, t) =>
        FrameUnframe(ErrorPayload(ThrownText(t)));
      case Finished(evs) =>
        AfterInitFramed(req, chat, clock, ResolveBot(found, env), evs, turn);
  }

  /** The events after the engine's first call are framed when the engine's own events are. */
  lemma AfterInitFramed(req: CompletionRequest, chat: Option<Chat>, clock: Clock, bot: BotConfig,
                        before: seq<string>, turn: Message -> EngineStep)
    requires forall e :: e in before ==> IsFramed(e)
    requires forall m: Message, e :: e in turn(m).events ==> IsFramed(e)
    ensures forall e :: e in AfterInit(req, chat, clock, bot, before, turn).events ==> IsFramed(e)
  {
    if Truthy(req.userMessageId) {
      match chat
      case None =>
        FrameUnframe(ErrorPayload("Chat not found"));
      case Some(c) =>
        match FindUserMessage(c.messages, req.userMessageId.value)
        case None =>
          FrameUnframe(ErrorPayload("User message not found"));
        case Some(m) =>
          RunTurnFramed(before, bot, m, turn(m));
    } else {
      var m := CreateMessage(User, StringContent(req.content),
                             MessageOptions(Some(NewMessageId(clock)), req.server, None, None), clock);
      RunTurnFramed(before, bot, m, turn(m));
    }
  }

  /** The turn adds the engine's events and one framed closing event. */
  lemma RunTurnFramed(before: seq<string>, bot: BotConfig, m: Message, step: EngineStep)
    requires forall e :: e in before ==> IsFramed(e)
    requires forall e :: e in step.events ==> IsFramed(e)
    ensures forall e :: e in RunTurn(before, bot, m, step).events ==> IsFramed(e)
  {
    match step
    case Finished(evs) =>
      FrameUnframe("[DONE]");
    case Threw(evs, t) =>
      FrameUnframe(ErrorPayload(ThrownText(t)));
  }

  /** What the namespace holds once the handler's repository constructor has run. */
  function AfterSeeding<T>(byUser: map<string, seq<T>>, ns: string, seed: seq<T>): seq<T>
  {
    if ns in byUser then byUser[ns] else seed
  }

  /**
   * The handler: builds the three repositories (seeding new namespaces),
   * lists the bots, resolves the bot, runs the engine's two calls and writes
   * the events. The stream is that of `Completion`; the stores change only by
   * the seeding of the request's namespace.
   */
  method HandleChatCompletions(chatTable: UserTable<Chat>, botTable: UserTable<BotConfig>,
                               serverTable: UserTable<McpServerConfig>,
                               botsEnv: EnvArray<BotConfig>, serversEnv: EnvArray<McpServerConfig>,
                               serverUrl: Option<string>, userPrefix: Option<string>,
                               req: CompletionRequest, env: TurnEnv, clock: Clock,
                               init: EngineStep, turn: Message -> EngineStep, writer: StreamWriter)
    requires writer.written == [] && writer.state == Open
    modifies chatTable, botTable, serverTable, writer
    ensures var ns := Namespace(userPrefix);
      var chats := AfterSeeding(old(chatTable.byUser), ns, []);
      var bots := AfterSeeding(old(botTable.byUser), ns, ArrayOrEmpty(botsEnv));
      var r := Completion(req, MergedBots(bots), Find(chats, ChatId, req.chatId), env, clock, init, turn);
      && writer.written == r.events && writer.state == r.end
      && chatTable.byUser == old(chatTable.byUser)[ns := chats]
      && botTable.byUser == old(botTable.byUser)[ns := bots]
      && serverTable.byUser
         == old(serverTable.byUser)[ns := AfterSeeding(old(serverTable.byUser), ns, SeedServers(serversEnv, serverUrl))]
  {
    var chatRepository, botRepository :=
      OpenRepositories(chatTable, botTable, serverTable, botsEnv, serversEnv, serverUrl, userPrefix);
    var bots := botRepository.GetBots();
    StreamTurn(chatRepository, bots, req, env, clock, init, turn, writer);
  }

  /** The three repository constructors the handler runs, each seeding the namespace if it is new. */
  method OpenRepositories(chatTable: UserTable<Chat>, botTable: UserTable<BotConfig>,
                          serverTable: UserTable<McpServerConfig>,
                          botsEnv: EnvArray<BotConfig>, serversEnv: EnvArray<McpServerConfig>,
                          serverUrl: Option<string>, userPrefix: Option<string>)
    returns (chatRepository: ChatMemoryRepository, botRepository: BotMemoryRepository)
    modifies chatTable, botTable, serverTable
    ensures chatRepository.Valid() && botRepository.Valid()
    ensures chatRepository.table == chatTable && botRepository.table == botTable
    ensures var ns := Namespace(userPrefix);
      && chatRepository.UserChats() == AfterSeeding(old(chatTable.byUser), ns, [])
      && botRepository.UserBots() == AfterSeeding(old(botTable.byUser), ns, ArrayOrEmpty(botsEnv))
      && chatTable.byUser == old(chatTable.byUser)[ns := chatRepository.UserChats()]
      && botTable.byUser == old(botTable.byUser)[ns := botRepository.UserBots()]
      && serverTable.byUser
         == old(serverTable.byUser)[ns := AfterSeeding(old(serverTable.byUser), ns, SeedServers(serversEnv, serverUrl))]
  {
    ghost var ns := Namespace(userPrefix);
    chatRepository := new ChatMemoryRepository(chatTable, userPrefix);
    ghost var chats := chatRepository.UserChats();
    assert chatTable.byUser == old(chatTable.byUser)[ns := chats];
    botRepository := new BotMemoryRepository(botTable, botsEnv, userPrefix);
    ghost var storedBots := botRepository.UserBots();
    assert botTable.byUser == old(botTable.byUser)[ns := storedBots];
    var mcpServerRepository := new McpServerMemoryRepository(serverTable, serversEnv, serverUrl, userPrefix);
    assert chatRepository.UserChats() == chats;
    assert botRepository.UserBots() == storedBots;
  }

  /** Everything after the bots are listed: the bot check, the fallbacks and the engine's first call. */
  method StreamTurn(chatRepository: ChatMemoryRepository, bots: seq<BotConfig>, req: CompletionRequest,
                    env: TurnEnv, clock: Clock, init: EngineStep, turn: Message -> EngineStep,
                    writer: StreamWriter)
    requires chatRepository.Valid()
    requires writer.written == [] && writer.state == Open
    modifies writer
    ensures var r := Completion(req, bots, Find(chatRepository.UserChats(), ChatId, req.chatId),
                                env, clock, init, turn);
      writer.written == r.events && writer.state == r.end
  {
    ghost var chat := Find(chatRepository.UserChats(), ChatId, req.chatId);
    ghost var r := Completion(req, bots, chat, env, clock, init, turn);
    var found := Find(bots, BotName, req.botName);
    if found.None? {
      writer.Write(ErrorEvent("Bot not found"));
      writer.Close();
      assert writer.written == r.events;
      return;
    }
    var bot := found.value;
    if !Truthy(bot.apiKey) || !Truthy(bot.baseUrl) {
      bot := bot.(apiKey := env.freeKey, baseUrl := env.baseUrl);
    }
    if !HasTimeout(bot.timeoutMs) && HasTimeout(env.timeout) {
      bot := bot.(timeoutMs := env.timeout);
    }
    assert bot == ResolveBot(found.value, env);
    writer.WriteAll(init.events);
    if init.Threw? {
      writer.Write(ErrorEvent(ThrownText(init.thrown)));
      writer.Close();
      assert writer.written == r.events;
      return;
    }
    assert r == AfterInit(req, chat, clock, bot, init.events, turn);
    assert writer.written == init.events;
    StreamUserMessage(chatRepository, req, clock, bot, turn, writer);
    assert chatRepository.UserChats() == old(chatRepository.UserChats());
  }

  /** After the engine's first call: the resume lookup or the new message, then the engine's turn. */
  method StreamUserMessage(chatRepository: ChatMemoryRepository, req: CompletionRequest, clock: Clock,
                           bot: BotConfig, turn: Message -> EngineStep, writer: StreamWriter)
    requires chatRepository.Valid()
    requires writer.state == Open
    modifies writer
    ensures var r := AfterInit(req, Find(chatRepository.UserChats(), ChatId, req.chatId), clock, bot,
                               old(writer.written), turn);
      writer.written == r.events && writer.state == r.end
  {
    var userMessage;
    if Truthy(req.userMessageId) {
      var chat := chatRepository.GetChat(req.chatId);
      if chat.None? {
        writer.Write(ErrorEvent("Chat not found"));
        return;
      }
      var existing := FindUserMessage(chat.value.messages, req.userMessageId.value);
      if existing.None? {
        writer.Write(ErrorEvent("User message not found"));
        return;
      }
      userMessage := existing.value;
    } else {
      userMessage := CreateMessage(User, StringContent(req.content),
                                   MessageOptions(Some(NewMessageId(clock)), req.server, None, None), clock);
    }
    var step := turn(userMessage);
    writer.WriteAll(step.events);
    if step.Finished? {
      writer.Write(DoneEvent);
    } else {
      writer.Write(ErrorEvent(ThrownText(step.thrown)));
    }
    writer.Close();
  }
}
