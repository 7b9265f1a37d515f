/**
 * The records shared by the backend and the frontend: messages, chats, bot
 * and tool-server configurations, and the listing options and result.
 * Optional fields (`x?: T`, `T | null`) are `Option`s; ISO timestamps used
 * for ordering are milliseconds since the epoch.
 */
module SharedTypes {
  import opened Wrappers
  import opened Text

  /** An arbitrary JSON value (`any`, `Record<string, any>`). */
  datatype Json =
    | JNull
    | JBool(b: bool)
    | JNumber(n: int)
    | JString(s: string)
    | JArray(items: seq<Json>)
    | JObject(fields: seq<(string, Json)>)

  /** `'user' | 'assistant'`: a message role is exactly one of the two. */
  datatype Role = User | Assistant

  /** A typed content block; the declared type is always `'text'`. */
  datatype ContentBlock = ContentBlock(blockType: string, text: string)

  /** `string | ContentBlock[]`. */
  datatype Content = StringContent(text: string) | BlockContent(blocks: seq<ContentBlock>)

  /** Content whose blocks all carry the declared type `'text'`. */
  predicate WellTypedContent(c: Content) {
    c.BlockContent? ==> forall i :: 0 <= i < |c.blocks| ==> c.blocks[i].blockType == "text"
  }

  datatype Message = Message(
    role: Role,
    content: Content,
    timestamp: string,
    unixTimestamp: int,
    id: Option<string>,
    parentId: Option<string>,
    model: Option<string>,
    provider: Option<string>,
    reasoningContent: Option<string>,
    server: Option<string>,
    tool: Option<string>,
    arguments: Option<Json>)

  /** A chat; an empty `id` stands for a missing one. */
  datatype Chat = Chat(
    id: string,
    messages: seq<Message>,
    createTime: int,
    updateTime: int,
    contentHash: Option<string>,
    originChatId: Option<string>,
    originMessageId: Option<string>,
    selectedMessageId: Option<string>)

  datatype ListChatsOptions = ListChatsOptions(search: Option<string>, page: Option<int>, limit: Option<int>)

  /** One page of chats with the number of all matches and the page parameters used. */
  datatype ListChatsResult = ListChatsResult(chats: seq<Chat>, total: nat, page: int, limit: int)

  /** A bot; an omitted `timeoutMs` means the backend default from `API_TIMEOUT_MS`. */
  datatype BotConfig = BotConfig(
    name: string,
    model: string,
    baseUrl: Option<string>,
    apiKey: Option<string>,
    mcpServers: Option<seq<string>>,
    openrouterConfig: Option<Json>,
    apiType: Option<string>,
    customApiPath: Option<string>,
    maxTokens: Option<int>,
    reasoningEffort: Option<string>,
    timeoutMs: Option<int>)

  /** A tool server; `needConfirm` lists the tools that must be confirmed before they run. */
  datatype McpServerConfig = McpServerConfig(
    name: string,
    url: Option<string>,
    token: Option<string>,
    needConfirm: Option<seq<string>>)

  /** An integration entry, keyed by name; its other settings are opaque here. */
  datatype IntegrationConfig = IntegrationConfig(name: string, settings: Json)

  // Keys the stores search by.
  function ChatId(c: Chat): string { c.id }
  function BotName(b: BotConfig): string { b.name }
  function BotModel(b: BotConfig): string { b.model }
  function ServerName(s: McpServerConfig): string { s.name }
  function IntegrationName(i: IntegrationConfig): string { i.name }

  /**
   * The confirmation gate: a tool must be confirmed exactly when the server's
   * `need_confirm` list is present, non-empty and names the tool.
   */
  function NeedsConfirmation(server: McpServerConfig, tool: string): (b: bool)
    ensures b <==> server.needConfirm.Some? && |server.needConfirm.value| > 0
                   && tool in server.needConfirm.value
  {
    match server.needConfirm
    case None => false
    case Some(tools) => tool in tools
  }

  /** An absent or empty list never asks for confirmation, whatever the tool. */
  lemma NoListNoConfirmation(server: McpServerConfig, tool: string)
    requires server.needConfirm.None? || server.needConfirm == Some([])
    ensures !NeedsConfirmation(server, tool)
  {
  }

  /** The gate depends only on the server's list, not on its name, url or token. */
  lemma ConfirmationDependsOnListOnly(a: McpServerConfig, b: McpServerConfig, tool: string)
    requires a.needConfirm == b.needConfirm
    ensures NeedsConfirmation(a, tool) == NeedsConfirmation(b, tool)
  {
  }

  /** The texts of the blocks typed `'text'`, in order. */
  function BlockTexts(blocks: seq<ContentBlock>): (texts: seq<string>)
    ensures |texts| <= |blocks|
  {
    if |blocks| == 0 then []
    else (if blocks[0].blockType == "text" then [blocks[0].text] else []) + BlockTexts(blocks[1..])
  }

  /** For well-typed content no block is dropped: every block's text is kept, in order. */
  lemma {:induction false} WellTypedBlocksAllKept(blocks: seq<ContentBlock>)
    requires WellTypedContent(BlockContent(blocks))
    ensures |BlockTexts(blocks)| == |blocks|
    ensures forall i :: 0 <= i < |blocks| ==> BlockTexts(blocks)[i] == blocks[i].text
    decreases |blocks|
  {
    if |blocks| > 0 {
      WellTypedBlocksAllKept(blocks[1..]);
    }
  }

  /**
   * Collecting texts distributes over concatenation, and a single block
   * contributes its text exactly when it is typed `'text'`.
   */
  lemma {:induction false} BlockTextsAppend(a: seq<ContentBlock>, b: seq<ContentBlock>)
    ensures BlockTexts(a + b) == BlockTexts(a) + BlockTexts(b)
    ensures |a| == 1 ==> BlockTexts(a) == (if a[0].blockType == "text" then [a[0].text] else [])
    decreases |a|
  {
    if |a| == 0 {
      assert a + b == b;
    } else {
      assert (a + b)[0] == a[0];
      assert (a + b)[1..] == a[1..] + b;
      BlockTextsAppend(a[1..], b);
      if |a| == 1 {
        assert a[1..] == [];
      }
    }
  }

  /**
   * The text of every `'text'` block is searched: it occurs in the searchable
   * text right after the earlier blocks' texts and their separating spaces.
   */
  lemma BlockTextSearched(blocks: seq<ContentBlock>, k: int)
    requires 0 <= k < |blocks| && blocks[k].blockType == "text"
    ensures var earlier := BlockTexts(blocks[..k]);
      OccursAt(SearchableText(BlockContent(blocks)), blocks[k].text,
               if |earlier| == 0 then 0 else |Join(earlier, " ")| + 1)
  {
    var earlier := BlockTexts(blocks[..k]);
    var later := [blocks[k]] + blocks[k + 1..];
    assert blocks == blocks[..k] + later;
    BlockTextsAppend(blocks[..k], later);
    BlockTextsAppend([blocks[k]], blocks[k + 1..]);
    var texts := BlockTexts(blocks);
    assert texts == earlier + ([blocks[k].text] + BlockTexts(blocks[k + 1..]));
    assert texts[|earlier|] == blocks[k].text;
    assert texts[..|earlier|] == earlier;
    JoinAt(texts, " ", |earlier|);
  }

  /** Joining texts without spaces can be undone by splitting at spaces. */
  lemma JoinedTextsSplit(texts: seq<string>)
    ensures |texts| >= 1 && (forall i :: 0 <= i < |texts| ==> ' ' !in texts[i]) ==>
      Split(Join(texts, " "), ' ') == texts
  {
    if |texts| >= 1 && forall i :: 0 <= i < |texts| ==> ' ' !in texts[i] {
      SplitJoin(texts, ' ');
    }
  }

  /**
   * The text a chat search looks at: string content as is, block content as
   * its `'text'` blocks' texts joined with single spaces, so that texts
   * without spaces are exactly the space-separated words of the result.
   */
  function SearchableText(c: Content): (r: string)
    ensures c.StringContent? ==> r == c.text
    ensures c.BlockContent? && |BlockTexts(c.blocks)| >= 1
            && (forall i :: 0 <= i < |BlockTexts(c.blocks)| ==> ' ' !in BlockTexts(c.blocks)[i]) ==>
      Split(r, ' ') == BlockTexts(c.blocks)
  {
    match c
    case StringContent(s) => s
    case BlockContent(blocks) =>
      var texts := BlockTexts(blocks);
      JoinedTextsSplit(texts);
      Join(texts, " ")
  }
}
